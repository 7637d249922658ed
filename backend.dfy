/**
 * The prediction service's in-memory tables: the startups, and the
 * prediction records that the background prediction task upserts and the
 * on-chain webhook patches with a transaction hash. The quantum prediction
 * result, the SHA-256 hex digests, the generated intent id and the clock
 * are inputs.
 */
module Backend {
  import opened Wrappers

  /** The index of the first element satisfying `p` (`next(i for i, x in enumerate(s) if p(x))`). */
  function FirstIndex<T>(s: seq<T>, p: T -> bool): (r: Option<nat>)
    ensures r.Some? ==> r.value < |s| && p(s[r.value]) && forall j :: 0 <= j < r.value ==> !p(s[j])
    ensures r.None? ==> forall j :: 0 <= j < |s| ==> !p(s[j])
  {
    if s == [] then None
    else if p(s[0]) then Some(0)
    else match FirstIndex(s[1..], p)
      case None => None
      case Some(k) => Some(k + 1)
  }

  /** `next((x for x in s if p(x)), None)`. */
  function First<T>(s: seq<T>, p: T -> bool): (r: Option<T>)
    ensures r.None? <==> forall j :: 0 <= j < |s| ==> !p(s[j])
    ensures r.Some? ==> exists i :: 0 <= i < |s| && s[i] == r.value && p(s[i]) && forall j :: 0 <= j < i ==> !p(s[j])
  {
    match FirstIndex(s, p)
    case None => None
    case Some(i) => Some(s[i])
  }

  /** An index that satisfies `p` with no earlier one that does is the first index. */
  lemma FirstIndexIs<T>(s: seq<T>, p: T -> bool, i: nat)
    requires i < |s| && p(s[i])
    requires forall j :: 0 <= j < i ==> !p(s[j])
    ensures FirstIndex(s, p) == Some(i)
  {
  }

  datatype StartupRow = StartupRow(
    id: int, owner: string, title: string, tagline: string, sector: string,
    goal: real, raised: real, metadataHash: Option<string>)

  datatype Breakdown = Breakdown(team: real, traction: real, market: real, innovation: real, financials: real)

  datatype QuantumData = QuantumData(circuitDepth: int, executionTime: real, backend: string, shots: int)

  /** What the quantum predictor returns, taken as given. */
  datatype QuantumResult = QuantumResult(
    prediction: real, confidence: real, modelVersion: string,
    circuitDepth: int, executionTime: real, backend: string, shots: int)

  datatype PredictionRecord = PredictionRecord(
    startupId: int, prediction: real, confidence: real, modelVersion: string,
    signature: string, ipfsHash: string, txHash: Option<string>,
    breakdown: Breakdown, quantumData: QuantumData, time: int)

  datatype HttpError = HttpError(status: int, detail: string)

  const NotFound: HttpError := HttpError(404, "Startup not found")

  /** The body of `GET /api/startups/{id}`. */
  datatype StartupView = StartupView(startup: StartupRow, prediction: Option<PredictionRecord>)

  /** The immediate answer of `POST /api/predict`, with every figure still pending. */
  datatype PredictionResponse = PredictionResponse(
    startupId: int, prediction: real, confidence: real, modelVersion: string,
    signature: string, ipfsHash: string, breakdown: Breakdown, quantumData: QuantumData, time: int)

  /** The background task `predict` schedules: `process_prediction(startupId, features)`. */
  datatype PredictionTask = PredictionTask(startupId: int, features: map<string, real>)

  datatype Scheduled = Scheduled(response: PredictionResponse, task: PredictionTask)

  /** The body of `POST /api/invest-intent`. */
  datatype IntentResponse = IntentResponse(
    intentId: string, startupId: int, investor: string, amount: real, timestamp: int, signature: string)

  function HasId(id: int): StartupRow -> bool {
    (s: StartupRow) => s.id == id
  }

  function ForStartup(id: int): PredictionRecord -> bool {
    (p: PredictionRecord) => p.startupId == id
  }

  /**
   * A value of the webhook's JSON body as Python sees it after parsing; a
   * missing key reads as `None`, and arrays and objects are all `JCompound`.
   */
  datatype JsonValue = JNull | JBool(b: bool) | JInt(i: int) | JFloat(f: real) | JText(s: string) | JCompound

  /**
   * Python's `n == v` for an integer `n`: `True` and `False` are 1 and 0, a
   * float equals an integer of the same value, and no other type equals an
   * integer.
   */
  predicate PyEqualsInt(n: int, v: JsonValue) {
    match v
    case JBool(b) => n == (if b then 1 else 0)
    case JInt(i) => n == i
    case JFloat(f) => n as real == f
    case _ => false
  }

  /** Which JSON ids select a record of an integer startup id. */
  lemma PyEqualsIntCases(n: int)
    ensures PyEqualsInt(n, JInt(n)) && PyEqualsInt(n, JFloat(n as real))
    ensures PyEqualsInt(1, JBool(true)) && PyEqualsInt(0, JBool(false))
    ensures !PyEqualsInt(n, JNull) && !PyEqualsInt(n, JCompound)
    ensures forall t :: !PyEqualsInt(n, JText(t))
    ensures forall f :: f != n as real ==> !PyEqualsInt(n, JFloat(f))
  {
  }

  /** The webhook's test `p["startupId"] == startup_id`. */
  function ForStartupJson(id: JsonValue): PredictionRecord -> bool {
    (p: PredictionRecord) => PyEqualsInt(p.startupId, id)
  }

  /** `features.get(key, 0)`. */
  function FeatureOr0(features: map<string, real>, key: string): (v: real)
    ensures key in features ==> v == features[key]
    ensures key !in features ==> v == 0.0
  {
    if key in features then features[key] else 0.0
  }

  /** `s[:n]` in Python: the first `n` characters, or all of a shorter string. */
  function Take(s: string, n: nat): (t: string)
    ensures |t| == if |s| < n then |s| else n
    ensures t == s[..|t|]
  {
    if |s| < n then s else s[..n]
  }

  /**
   * The record `process_prediction` builds; `digest` is the SHA-256 hex
   * digest of the result's text and `now` the current time in seconds.
   */
  function BuildRecord(startupId: int, features: map<string, real>, result: QuantumResult, digest: string, now: int)
    : (rec: PredictionRecord)
    ensures rec.startupId == startupId && rec.txHash.None? && rec.time == now
    ensures rec.prediction == result.prediction && rec.confidence == result.confidence
    ensures rec.modelVersion == result.modelVersion
    ensures rec.signature == "0x" + digest
    ensures |rec.ipfsHash| == 2 + (if |digest| < 44 then |digest| else 44)
    ensures rec.ipfsHash == "Qm" + digest[..|rec.ipfsHash| - 2]
    ensures rec.breakdown.team == FeatureOr0(features, "team")
    ensures rec.breakdown.traction == FeatureOr0(features, "traction")
    ensures rec.breakdown.market == FeatureOr0(features, "market")
    ensures rec.breakdown.innovation == FeatureOr0(features, "innovation")
    ensures rec.breakdown.financials == FeatureOr0(features, "financials")
    ensures rec.quantumData == QuantumData(result.circuitDepth, result.executionTime, result.backend, result.shots)
  {
    PredictionRecord(
      startupId, result.prediction, result.confidence, result.modelVersion,
      "0x" + digest, "Qm" + Take(digest, 44), None,
      Breakdown(FeatureOr0(features, "team"), FeatureOr0(features, "traction"), FeatureOr0(features, "market"),
                FeatureOr0(features, "innovation"), FeatureOr0(features, "financials")),
      QuantumData(result.circuitDepth, result.executionTime, result.backend, result.shots),
      now)
  }

  /** Replace the first record of the same startup, or append when there is none. */
  function Upsert(db: seq<PredictionRecord>, rec: PredictionRecord): (r: seq<PredictionRecord>)
    ensures rec in r
    ensures |r| == |db| <==> exists i :: 0 <= i < |db| && db[i].startupId == rec.startupId
    ensures |r| == |db| + 1 <==> forall i :: 0 <= i < |db| ==> db[i].startupId != rec.startupId
  {
    match FirstIndex(db, ForStartup(rec.startupId))
    case Some(i) => assert db[i := rec][i] == rec; db[i := rec]
    case None => assert (db + [rec])[|db|] == rec; db + [rec]
  }

  /** Set `txHash` on the first record of the startup; no match leaves the table as it is. */
  function SetTxHash(db: seq<PredictionRecord>, startupId: JsonValue, txHash: Option<string>): (r: seq<PredictionRecord>)
    ensures |r| == |db|
    ensures forall j :: 0 <= j < |r| ==> r[j].startupId == db[j].startupId
  {
    match FirstIndex(db, ForStartupJson(startupId))
    case Some(i) => db[i := db[i].(txHash := txHash)]
    case None => db
  }

  /** Each startup has at most one record. */
  ghost predicate UniqueStartups(db: seq<PredictionRecord>) {
    forall i, j :: 0 <= i < j < |db| ==> db[i].startupId != db[j].startupId
  }

  /** With a record for the startup, the first one is replaced and every other entry stays. */
  lemma UpsertReplaces(db: seq<PredictionRecord>, rec: PredictionRecord, i: nat)
    requires FirstIndex(db, ForStartup(rec.startupId)) == Some(i)
    ensures |Upsert(db, rec)| == |db| && Upsert(db, rec)[i] == rec
    ensures forall j :: 0 <= j < |db| && j != i ==> Upsert(db, rec)[j] == db[j]
  {
  }

  /** Without a record for the startup, the new record is appended. */
  lemma UpsertAppends(db: seq<PredictionRecord>, rec: PredictionRecord)
    requires forall j :: 0 <= j < |db| ==> db[j].startupId != rec.startupId
    ensures Upsert(db, rec) == db + [rec]
  {
  }

  /** After the upsert, the lookup for that startup finds the new record. */
  lemma UpsertThenLookup(db: seq<PredictionRecord>, rec: PredictionRecord)
    ensures First(Upsert(db, rec), ForStartup(rec.startupId)) == Some(rec)
  {
    var p := ForStartup(rec.startupId);
    var u := Upsert(db, rec);
    match FirstIndex(db, p)
    case Some(i) =>
      assert forall j :: 0 <= j < i ==> u[j] == db[j];
      FirstIndexIs(u, p, i);
    case None =>
      assert forall j :: 0 <= j < |db| ==> u[j] == db[j];
      FirstIndexIs(u, p, |db|);
  }

  /** The upsert never gives a startup a second record. */
  lemma UpsertKeepsUnique(db: seq<PredictionRecord>, rec: PredictionRecord)
    requires UniqueStartups(db)
    ensures UniqueStartups(Upsert(db, rec))
  {
    var p := ForStartup(rec.startupId);
    match FirstIndex(db, p)
    case Some(i) =>
      var u := Upsert(db, rec);
      forall a, b | 0 <= a < b < |u| ensures u[a].startupId != u[b].startupId {
        if a == i {
          assert db[i].startupId == rec.startupId;
        } else if b == i {
          assert db[i].startupId == rec.startupId;
        }
      }
    case None =>
      assert forall j :: 0 <= j < |db| ==> !p(db[j]);
  }

  /** The webhook patches `txHash` of the first matching record only; without a match nothing changes. */
  lemma SetTxHashFirstOnly(db: seq<PredictionRecord>, startupId: JsonValue, txHash: Option<string>)
    ensures |SetTxHash(db, startupId, txHash)| == |db|
    ensures forall j :: 0 <= j < |db| ==>
      SetTxHash(db, startupId, txHash)[j] == db[j] || SetTxHash(db, startupId, txHash)[j] == db[j].(txHash := txHash)
    ensures (forall j :: 0 <= j < |db| ==> !PyEqualsInt(db[j].startupId, startupId)) ==>
      SetTxHash(db, startupId, txHash) == db
    ensures forall i :: 0 <= i < |db| && PyEqualsInt(db[i].startupId, startupId)
                        && (forall j :: 0 <= j < i ==> !PyEqualsInt(db[j].startupId, startupId)) ==>
      SetTxHash(db, startupId, txHash) == db[i := db[i].(txHash := txHash)]
  {
    var p := ForStartupJson(startupId);
    forall i | 0 <= i < |db| && PyEqualsInt(db[i].startupId, startupId)
               && (forall j :: 0 <= j < i ==> !PyEqualsInt(db[j].startupId, startupId))
      ensures SetTxHash(db, startupId, txHash) == db[i := db[i].(txHash := txHash)]
    {
      FirstIndexIs(db, p, i);
    }
    var r := FirstIndex(db, p);
    if r.Some? {
      assert p(db[r.value]);
    }
  }

  /** The webhook keeps each startup at most once: it never changes a `startupId`. */
  lemma SetTxHashKeepsUnique(db: seq<PredictionRecord>, startupId: JsonValue, txHash: Option<string>)
    requires UniqueStartups(db)
    ensures UniqueStartups(SetTxHash(db, startupId, txHash))
  {
    SetTxHashFirstOnly(db, startupId, txHash);
    var u := SetTxHash(db, startupId, txHash);
    assert forall j :: 0 <= j < |db| ==> u[j].startupId == db[j].startupId;
  }

  class PredictionService {
    var startups: seq<StartupRow>
    var predictions: seq<PredictionRecord>

    constructor (startups: seq<StartupRow>, predictions: seq<PredictionRecord>)
      ensures this.startups == startups && this.predictions == predictions
    {
      this.startups := startups;
      this.predictions := predictions;
    }

    /** `GET /api/startups`: the startup table as it stands. */
    function ListStartups(): (r: seq<StartupRow>)
      reads this
      ensures r == startups
    {
      startups
    }

    /** `GET /api/startups/{id}`: 404 for an unknown id, else the startup and its first prediction, if any. */
    function GetStartup(startupId: int): (r: Result<StartupView, HttpError>)
      reads this
      ensures r.Err? <==> forall i :: 0 <= i < |startups| ==> startups[i].id != startupId
      ensures r.Err? ==> r.error == NotFound
      ensures r.Ok? ==> r.value.startup.id == startupId && r.value.startup in startups
      ensures r.Ok? ==> Some(r.value.startup) == First(startups, HasId(startupId))
      ensures r.Ok? ==> r.value.prediction == First(predictions, ForStartup(startupId))
      ensures r.Ok? && r.value.prediction.Some? ==> r.value.prediction.value.startupId == startupId
    {
      match First(startups, HasId(startupId))
      case None => Err(NotFound)
      case Some(s) => Ok(StartupView(s, First(predictions, ForStartup(startupId))))
    }

    /** `POST /api/predict`: 404 for an unknown id, else the pending answer and the scheduled task. */
    function Predict(startupId: int, features: map<string, real>, now: int): (r: Result<Scheduled, HttpError>)
      reads this
      ensures r.Err? <==> forall i :: 0 <= i < |startups| ==> startups[i].id != startupId
      ensures r.Err? ==> r.error == NotFound
      ensures r.Ok? ==> r.value.task == PredictionTask(startupId, features)
      ensures r.Ok? ==> r.value.response.startupId == startupId && r.value.response.time == now
      ensures r.Ok? ==> r.value.response.prediction == 0.0 && r.value.response.confidence == 0.0
      ensures r.Ok? ==> r.value.response.signature == "pending" && r.value.response.ipfsHash == "pending"
    {
      if First(startups, HasId(startupId)).None? then Err(NotFound)
      else
        Ok(Scheduled(
          PredictionResponse(startupId, 0.0, 0.0, "QML-v2.0", "pending", "pending",
                             Breakdown(0.0, 0.0, 0.0, 0.0, 0.0), QuantumData(0, 0.0, "pending", 0), now),
          PredictionTask(startupId, features)))
    }

    /**
     * `POST /api/invest-intent`: 404 for an unknown id, else the intent echoed
     * with its id; `digest` is the SHA-256 hex digest of `intentId`.
     */
    function InvestIntent(startupId: int, investor: string, amount: real, intentId: string, digest: string, now: int)
      : (r: Result<IntentResponse, HttpError>)
      reads this
      ensures r.Err? <==> forall i :: 0 <= i < |startups| ==> startups[i].id != startupId
      ensures r.Err? ==> r.error == NotFound
      ensures r.Ok? ==> r.value == IntentResponse(intentId, startupId, investor, amount, now, "0x" + digest)
    {
      if First(startups, HasId(startupId)).None? then Err(NotFound)
      else Ok(IntentResponse(intentId, startupId, investor, amount, now, "0x" + digest))
    }

    /** `POST /api/webhook/prediction-published`: scan for the first record of the startup and set its hash. */
    method PredictionWebhook(startupId: JsonValue, txHash: Option<string>)
      modifies this
      ensures predictions == SetTxHash(old(predictions), startupId, txHash)
      ensures startups == old(startups)
    {
      var i := 0;
      while i < |predictions|
        invariant 0 <= i <= |predictions|
        invariant predictions == old(predictions)
        invariant forall j :: 0 <= j < i ==> !PyEqualsInt(predictions[j].startupId, startupId)
      {
        if PyEqualsInt(predictions[i].startupId, startupId) {
          FirstIndexIs(predictions, ForStartupJson(startupId), i);
          predictions := predictions[i := predictions[i].(txHash := txHash)];
          return;
        }
        i := i + 1;
      }
    }

    /** The record-building and upsert part of `process_prediction`. */
    method ProcessPrediction(startupId: int, features: map<string, real>, result: QuantumResult, digest: string, now: int)
      modifies this
      ensures predictions == Upsert(old(predictions), BuildRecord(startupId, features, result, digest, now))
      ensures startups == old(startups)
    {
      var prediction := BuildRecord(startupId, features, result, digest, now);
      var existing := FirstIndex(predictions, ForStartup(startupId));
      if existing.Some? {
        predictions := predictions[existing.value := prediction];
      } else {
        predictions := predictions + [prediction];
      }
    }
  }

  /**
   * A predict request for a known startup, followed by its background task,
   * leaves exactly one record for that startup when there was at most one,
   * and the lookup then returns it.
   */
  method PredictThenProcess(service: PredictionService, startupId: int, features: map<string, real>,
                            result: QuantumResult, digest: string, now: int)
    returns (r: Result<Scheduled, HttpError>)
    requires UniqueStartups(service.predictions)
    modifies service
    ensures r == old(service.Predict(startupId, features, now))
    ensures r.Err? ==> service.predictions == old(service.predictions)
    ensures UniqueStartups(service.predictions)
    ensures r.Ok? ==>
      && service.GetStartup(startupId).Ok?
      && service.GetStartup(startupId).value.prediction == Some(BuildRecord(startupId, features, result, digest, now))
  {
    r := service.Predict(startupId, features, now);
    if r.Ok? {
      service.ProcessPrediction(r.value.task.startupId, r.value.task.features, result, digest, now);
      UpsertKeepsUnique(old(service.predictions), BuildRecord(startupId, features, result, digest, now));
      UpsertThenLookup(old(service.predictions), BuildRecord(startupId, features, result, digest, now));
    }
  }
}
