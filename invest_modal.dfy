/**
 * The investment wizard: step 1 takes an amount, step 2 previews it and
 * confirms with the wallet, step 3 shows the mock transaction. The delayed
 * completion (a two-second timer in the client) is the separate method
 * `CompleteInvest`, and the random hex digits of the mock hash are injected
 * draws in [0,1).
 */
module Invest {
  import opened Wrappers

  const InvalidAmountError: string := "Please enter a valid amount"
  const NotConnectedError: string := "Please connect your wallet first"
  const ConnectFailedError: string := "Failed to connect wallet. Please try again."
  const HexDigits: string := "0123456789abcdef"

  /** The startup record the wizard invests in; its `raised` total is updated in place. */
  class StartupRecord {
    var raised: real

    constructor (raised: real)
      ensures this.raised == raised
    {
      this.raised := raised;
    }
  }

  /** The callback a closing button calls: `onSuccess()`, or `onClose` with its optional argument. */
  datatype CloseAction = OnSuccess | OnClose(reason: Option<string>)

  /** The lower-case hex digit of a value below 16 (`n.toString(16)`). */
  function HexDigit(n: int): (c: char)
    requires 0 <= n < 16
    ensures c in HexDigits
    ensures HexValue(c) == n
  {
    HexDigits[n]
  }

  /** The value of a lower-case hex digit, the inverse of `HexDigit`. */
  function HexValue(c: char): (n: int)
    ensures 0 <= n < 16
    ensures c in HexDigits ==> HexDigits[n] == c
  {
    if '0' <= c <= '9' then c as int - '0' as int
    else if 'a' <= c <= 'f' then c as int - 'a' as int + 10
    else 0
  }

  predicate IsDraw(d: real) {
    0.0 <= d < 1.0
  }

  /** `Math.floor(d * 16)` for a draw in [0,1): a value in 0..15. */
  function Nibble(d: real): (n: int)
    requires IsDraw(d)
    ensures 0 <= n < 16
    ensures n as real <= d * 16.0 < n as real + 1.0
  {
    (d * 16.0).Floor
  }

  /** `'0x'` followed by one hex digit per draw. */
  function MockTxHash(draws: seq<real>): (h: string)
    requires |draws| == 64
    requires forall i :: 0 <= i < |draws| ==> IsDraw(draws[i])
    ensures |h| == 66 && h[..2] == "0x"
    ensures forall i :: 2 <= i < |h| ==> h[i] in HexDigits
    ensures forall i :: 0 <= i < 64 ==> HexValue(h[i + 2]) == Nibble(draws[i])
  {
    "0x" + seq(64, i requires 0 <= i < 64 => HexDigit(Nibble(draws[i])))
  }

  class InvestModal {
    /** The amount box: `None` while empty, otherwise the number it parses to. */
    var amount: Option<real>
    var isProcessing: bool
    var txHash: string
    var error: string
    /** 1: enter the amount, 2: preview, 3: confirmation. */
    var step: int
    const startup: StartupRecord

    /**
     * The wizard only ever shows steps 1 to 3; past step 1 the amount is a
     * positive number; it is processing only while previewing; a
     * confirmation carries a full mock hash.
     */
    ghost predicate Valid()
      reads this
    {
      && 1 <= step <= 3
      && (step >= 2 ==> amount.Some? && amount.value > 0.0)
      && (isProcessing ==> step == 2)
      && (step == 3 ==> |txHash| == 66)
    }

    constructor (startup: StartupRecord)
      ensures Valid()
      ensures this.startup == startup
      ensures amount == None && !isProcessing && txHash == "" && error == "" && step == 1
    {
      this.startup := startup;
      amount := None;
      isProcessing := false;
      txHash := "";
      error := "";
      step := 1;
    }

    /** `amount ? parseFloat(amount) : 0`. */
    function EstimatedShares(): (shares: real)
      reads this
      ensures amount.None? ==> shares == 0.0
      ensures amount.Some? ==> shares == amount.value
    {
      amount.GetOr(0.0)
    }

    /** Typing into the amount box (shown at step 1) stores the value and clears the error. */
    method ChangeAmount(value: Option<real>)
      requires Valid() && step == 1
      modifies this
      ensures Valid()
      ensures amount == value && error == ""
      ensures step == old(step) && isProcessing == old(isProcessing) && txHash == old(txHash)
    {
      amount := value;
      error := "";
    }

    /**
     * Connect Wallet (step 1, shown while no wallet is connected): the wallet's
     * `connect()` either succeeds, which changes nothing of the wizard's own
     * state, or throws, which sets the connection error.
     */
    method Connect(connectSucceeded: bool)
      requires Valid() && step == 1
      modifies this
      ensures Valid()
      ensures !connectSucceeded ==> error == ConnectFailedError
      ensures connectSucceeded ==> error == old(error)
      ensures amount == old(amount) && step == old(step) && isProcessing == old(isProcessing) && txHash == old(txHash)
    {
      if !connectSucceeded {
        error := ConnectFailedError;
      }
    }

    /** Cancel (step 1) calls `onClose('close')`. */
    method Cancel() returns (action: CloseAction)
      requires Valid() && step == 1
      ensures action == OnClose(Some("close"))
    {
      action := OnClose(Some("close"));
    }

    /** Preview (step 1): an empty or non-positive amount sets the error; otherwise go to step 2. */
    method Preview()
      requires Valid() && step == 1
      modifies this
      ensures Valid()
      ensures old(amount).None? || old(amount).value <= 0.0 ==>
        error == InvalidAmountError && step == 1
      ensures old(amount).Some? && old(amount).value > 0.0 ==>
        error == old(error) && step == 2
      ensures amount == old(amount) && isProcessing == old(isProcessing) && txHash == old(txHash)
    {
      if amount.None? || amount.value <= 0.0 {
        error := InvalidAmountError;
        return;
      }
      step := 2;
    }

    /**
     * Confirm (step 2, enabled while not processing): without a wallet the
     * error is set and nothing else changes; otherwise processing starts and
     * the error clears.
     */
    method StartInvest(isConnected: bool)
      requires Valid() && step == 2 && !isProcessing
      modifies this
      ensures Valid()
      ensures !isConnected ==> error == NotConnectedError && !isProcessing
      ensures isConnected ==> error == "" && isProcessing
      ensures step == old(step) && amount == old(amount) && txHash == old(txHash)
      ensures unchanged(startup)
    {
      if !isConnected {
        error := NotConnectedError;
        return;
      }
      isProcessing := true;
      error := "";
    }

    /**
     * The timer's body: store the mock hash, move to step 3, stop
     * processing, and add the amount to the startup's `raised`.
     */
    method CompleteInvest(draws: seq<real>)
      requires Valid() && isProcessing
      requires |draws| == 64 && forall i :: 0 <= i < |draws| ==> IsDraw(draws[i])
      modifies this, startup
      ensures Valid()
      ensures txHash == MockTxHash(draws) && step == 3 && !isProcessing
      ensures startup.raised == old(startup.raised) + old(amount).value
      ensures amount == old(amount) && error == old(error)
    {
      txHash := MockTxHash(draws);
      step := 3;
      isProcessing := false;
      startup.raised := startup.raised + amount.value;
    }

    /** Back (step 2, enabled while not processing) returns to step 1. */
    method Back()
      requires Valid() && step == 2 && !isProcessing
      modifies this
      ensures Valid()
      ensures step == 1
      ensures amount == old(amount) && error == old(error) && txHash == old(txHash) && !isProcessing
    {
      step := 1;
    }

    /** Close at step 3: `onSuccess()` when the caller gave one, otherwise `onClose()` without an argument. */
    method Close(hasOnSuccess: bool) returns (action: CloseAction)
      requires Valid() && step == 3
      ensures hasOnSuccess <==> action == OnSuccess
      ensures !hasOnSuccess <==> action == OnClose(None)
    {
      if hasOnSuccess {
        action := OnSuccess;
      } else {
        action := OnClose(None);
      }
    }
  }

  /**
   * A full run of the wizard with a connected wallet: a positive amount
   * leads to step 3 with a mock hash, and `raised` grows by exactly that
   * amount.
   */
  method InvestFlow(startup: StartupRecord, value: real, draws: seq<real>) returns (modal: InvestModal)
    requires value > 0.0
    requires |draws| == 64 && forall i :: 0 <= i < |draws| ==> IsDraw(draws[i])
    modifies startup
    ensures modal.Valid() && modal.step == 3 && modal.startup == startup
    ensures modal.txHash == MockTxHash(draws) && modal.EstimatedShares() == value
    ensures startup.raised == old(startup.raised) + value
  {
    modal := new InvestModal(startup);
    modal.ChangeAmount(Some(value));
    modal.Preview();
    modal.StartInvest(true);
    modal.CompleteInvest(draws);
  }
}
