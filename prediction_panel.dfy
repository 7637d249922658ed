/**
 * The data side of the prediction panel: how the shown score, confidence and
 * factor weights fall back to defaults, the three-scenario profit projection
 * over months 0..12, and the synthetic candle series whose noise is driven by
 * the confidence. `Math.random` is replaced by a sequence of draws supplied by
 * the caller, one per candle.
 */
module PredictionPanel {
  import opened Wrappers
  import opened RealMath

  // ---------------------------------------------------------------------------
  // What the panel shows of a prediction record, and its defaults.
  // ---------------------------------------------------------------------------

  /** The six factor weights of a record's `breakdown`, each possibly missing. */
  datatype BreakdownView = BreakdownView(
    team: Option<real>, traction: Option<real>, market: Option<real>,
    innovation: Option<real>, financials: Option<real>, execution: Option<real>)

  /**
   * A prediction record as the panel reads it. A heuristic record carries
   * `score`; a backend record carries `prediction` instead. A startup with no
   * record at all is shown through `EmptyPrediction` (`startup.prediction || {}`).
   */
  datatype PredictionView = PredictionView(
    score: Option<real>, prediction: Option<real>, confidence: Option<real>,
    breakdown: Option<BreakdownView>)

  const EmptyBreakdown := BreakdownView(None, None, None, None, None, None)
  const EmptyPrediction := PredictionView(None, None, None, None)

  /** One entry of the factor list: a display name and its weight. */
  datatype Factor = Factor(name: string, value: real)

  const FactorNames: seq<string> := ["Team", "Traction", "Market", "Innovation", "Financials", "Execution"]
  const FactorDefaults: seq<real> := [0.25, 0.20, 0.12, 0.18, 0.15, 0.10]

  /** The weights of a breakdown in the order of `FactorNames`. */
  function Weights(b: BreakdownView): (ws: seq<Option<real>>)
    ensures |ws| == 6
  {
    [b.team, b.traction, b.market, b.innovation, b.financials, b.execution]
  }

  /** `prediction?.score ?? prediction?.prediction ?? 0`. */
  function ShownScore(p: PredictionView): (s: real)
    ensures p.score.Some? ==> s == p.score.value
    ensures p.score.None? && p.prediction.Some? ==> s == p.prediction.value
    ensures p.score.None? && p.prediction.None? ==> s == 0.0
  {
    p.score.GetOr(p.prediction.GetOr(0.0))
  }

  /** `prediction?.confidence ?? 0`. */
  function ShownConfidence(p: PredictionView): (c: real)
    ensures p.confidence.Some? ==> c == p.confidence.value
    ensures p.confidence.None? ==> c == 0.0
  {
    p.confidence.GetOr(0.0)
  }

  /**
   * The factor list: each factor in a fixed order, with the record's weight
   * when it has one and the factor's fixed default otherwise.
   */
  function PredictionFactors(p: PredictionView): (fs: seq<Factor>)
    ensures |fs| == |FactorNames|
    ensures forall i :: 0 <= i < |fs| ==>
      fs[i].name == FactorNames[i] &&
      fs[i].value == Weights(p.breakdown.GetOr(EmptyBreakdown))[i].GetOr(FactorDefaults[i])
  {
    var b := p.breakdown.GetOr(EmptyBreakdown);
    [ Factor("Team", b.team.GetOr(0.25)),
      Factor("Traction", b.traction.GetOr(0.20)),
      Factor("Market", b.market.GetOr(0.12)),
      Factor("Innovation", b.innovation.GetOr(0.18)),
      Factor("Financials", b.financials.GetOr(0.15)),
      Factor("Execution", b.execution.GetOr(0.10)) ]
  }

  /** A startup without a prediction is shown with score 0, confidence 0 and every default weight. */
  lemma EmptyPredictionShown()
    ensures ShownScore(EmptyPrediction) == 0.0
    ensures ShownConfidence(EmptyPrediction) == 0.0
    ensures forall i :: 0 <= i < 6 ==> PredictionFactors(EmptyPrediction)[i].value == FactorDefaults[i]
  {
  }

  // ---------------------------------------------------------------------------
  // Profit projection.
  // ---------------------------------------------------------------------------

  /** The months of the horizon are 0..Horizon. */
  const Horizon: int := 12
  const RoiLow: real := 0.2
  const RoiAvg: real := 0.5
  const RoiHigh: real := 1.0

  /** The profit at month `m` for an annual return `roi`: `investment * roi * (m / 12) * prob`. */
  function Profit(investment: real, roi: real, score: real, m: int): (p: real)
    ensures m == 0 ==> p == 0.0
  {
    investment * roi * (m as real / 12.0) * (score / 100.0)
  }

  /** At month 12 the profit is one year's return weighted by the success probability. */
  lemma ProfitAtHorizon(investment: real, roi: real, score: real)
    ensures Profit(investment, roi, score, Horizon) == investment * roi * (score / 100.0)
  {
  }

  /** The projected profit at month `m`, rounded to hundredths. */
  function ProjectedProfit(investment: real, roi: real, score: real, m: int): (p: real)
    ensures Profit(investment, roi, score, m) - 0.005 <= p <= Profit(investment, roi, score, m) + 0.005
    ensures m == 0 ==> p == 0.0
  {
    Round2(Profit(investment, roi, score, m))
  }

  /** One scenario's profit at months 0..12 (`series(roi)`). */
  function Series(investment: real, roi: real, score: real): (s: seq<real>)
    ensures |s| == Horizon + 1
    ensures s[0] == 0.0
  {
    seq(Horizon + 1, m requires 0 <= m <= Horizon => ProjectedProfit(investment, roi, score, m))
  }

  datatype Projection = Projection(low: seq<real>, average: seq<real>, high: seq<real>)

  /** The three scenarios of the profit chart. */
  function Project(investment: real, score: real): (p: Projection)
    ensures |p.low| == |p.average| == |p.high| == Horizon + 1
    ensures p.low[0] == p.average[0] == p.high[0] == 0.0
  {
    Projection(Series(investment, RoiLow, score), Series(investment, RoiAvg, score), Series(investment, RoiHigh, score))
  }

  lemma MulRightMonotone(a: real, b: real, c: real)
    requires a <= b && 0.0 <= c
    ensures a * c <= b * c
  {
  }

  /** The unrounded profit grows with the month and with the return. */
  lemma ProfitMonotone(investment: real, roi1: real, roi2: real, score: real, m1: int, m2: int)
    requires investment >= 0.0 && score >= 0.0 && 0.0 <= roi1 <= roi2 && 0 <= m1 <= m2
    ensures 0.0 <= Profit(investment, roi1, score, m1) <= Profit(investment, roi2, score, m2)
  {
    assert 0.0 <= investment * roi1 <= investment * roi2 by {
      MulRightMonotone(roi1, roi2, investment);
    }
    assert 0.0 <= investment * roi1 * (m1 as real / 12.0) <= investment * roi2 * (m1 as real / 12.0) by {
      MulRightMonotone(investment * roi1, investment * roi2, m1 as real / 12.0);
    }
    assert investment * roi2 * (m1 as real / 12.0) <= investment * roi2 * (m2 as real / 12.0);
    MulRightMonotone(investment * roi1 * (m1 as real / 12.0), investment * roi2 * (m2 as real / 12.0), score / 100.0);
  }

  lemma ProjectedProfitMonotone(investment: real, roi1: real, roi2: real, score: real, m1: int, m2: int)
    requires investment >= 0.0 && score >= 0.0 && 0.0 <= roi1 <= roi2 && 0 <= m1 <= m2
    ensures 0.0 <= ProjectedProfit(investment, roi1, score, m1) <= ProjectedProfit(investment, roi2, score, m2)
  {
    ProfitMonotone(investment, roi1, roi2, score, m1, m2);
    Round2Monotone(0.0, Profit(investment, roi1, score, m1));
    Round2Monotone(Profit(investment, roi1, score, m1), Profit(investment, roi2, score, m2));
  }

  /** For a non-negative investment, score and return, a scenario never loses profit from one month to a later one. */
  lemma SeriesNonDecreasing(investment: real, roi: real, score: real)
    requires investment >= 0.0 && roi >= 0.0 && score >= 0.0
    ensures forall i, j :: 0 <= i <= j <= Horizon ==>
      0.0 <= Series(investment, roi, score)[i] <= Series(investment, roi, score)[j]
  {
    forall i, j | 0 <= i <= j <= Horizon
      ensures 0.0 <= Series(investment, roi, score)[i] <= Series(investment, roi, score)[j]
    {
      ProjectedProfitMonotone(investment, roi, roi, score, i, j);
    }
  }

  /**
   * For a non-negative investment and score, the scenarios are ordered at
   * every month and each of them is non-decreasing in the month.
   */
  lemma ProjectionOrdered(investment: real, score: real)
    requires investment >= 0.0 && score >= 0.0
    ensures var p := Project(investment, score);
      forall m :: 0 <= m <= Horizon ==> 0.0 <= p.low[m] <= p.average[m] <= p.high[m]
    ensures var p := Project(investment, score);
      forall i, j :: 0 <= i <= j <= Horizon ==>
        p.low[i] <= p.low[j] && p.average[i] <= p.average[j] && p.high[i] <= p.high[j]
  {
    var p := Project(investment, score);
    forall m | 0 <= m <= Horizon ensures 0.0 <= p.low[m] <= p.average[m] <= p.high[m] {
      ProjectedProfitMonotone(investment, RoiLow, RoiAvg, score, m, m);
      ProjectedProfitMonotone(investment, RoiAvg, RoiHigh, score, m, m);
    }
    SeriesNonDecreasing(investment, RoiLow, score);
    SeriesNonDecreasing(investment, RoiAvg, score);
    SeriesNonDecreasing(investment, RoiHigh, score);
  }

  // ---------------------------------------------------------------------------
  // Candle synthesis.
  // ---------------------------------------------------------------------------

  datatype Candle = Candle(open: real, high: real, low: real, close: real)

  /** The fair value each candle trends to: the average scenario, unrounded (`closes`). */
  function Targets(investment: real, score: real): (closes: seq<real>)
    ensures |closes| == Horizon + 1
    ensures closes[0] == 0.0
    ensures investment >= 0.0 && score >= 0.0 ==> forall m :: 0 <= m <= Horizon ==> closes[m] >= 0.0
  {
    var closes := seq(Horizon + 1, m requires 0 <= m <= Horizon => Profit(investment, RoiAvg, score, m));
    assert investment >= 0.0 && score >= 0.0 ==> forall m :: 0 <= m <= Horizon ==> closes[m] >= 0.0 by {
      if investment >= 0.0 && score >= 0.0 {
        forall m | 0 <= m <= Horizon ensures closes[m] >= 0.0 {
          ProfitMonotone(investment, RoiAvg, RoiAvg, score, m, m);
        }
      }
    }
    closes
  }

  /** The noise scale: more noise the lower the confidence. */
  function Volatility(confidence: real): (v: real)
    ensures 0.0 <= confidence <= 100.0 ==> 0.1 <= v <= 0.3
    ensures confidence == 100.0 ==> v == 0.1
    ensures confidence == 0.0 ==> v == 0.3
  {
    0.1 + (100.0 - confidence) / 100.0 * 0.2
  }

  lemma VolatilityDecreasing(c1: real, c2: real)
    requires c1 <= c2
    ensures Volatility(c2) <= Volatility(c1)
  {
  }

  /**
   * The first open: `closes[0] || investment * 0.02`. A zero first target
   * falls through to the small floor.
   */
  function Seed(closes: seq<real>, investment: real): (open: real)
    requires |closes| > 0
    ensures open == closes[0] || open == investment * 0.02
    ensures closes[0] == 0.0 ==> open == investment * 0.02
  {
    if closes[0] != 0.0 then closes[0] else investment * 0.02
  }

  /** The month-0 target is always 0, so the first candle always opens at 2% of the investment. */
  lemma SeedIsFloor(investment: real, score: real)
    ensures Seed(Targets(investment, score), investment) == investment * 0.02
  {
  }

  /** A bar's noise: the draw centred on 0, scaled by the volatility and the larger of target and open. */
  function Noise(draw: real, volatility: real, target: real, open: real): real {
    (draw - 0.5) * volatility * Max(target, open)
  }

  /** One bar: `open` is the previous close and `draw` is the bar's `Math.random()`. */
  function NextCandle(open: real, target: real, draw: real, volatility: real): (c: Candle)
    ensures c.open == open
    ensures c.close >= 0.0 && c.low >= 0.0 && c.high >= Max(c.open, c.close)
    ensures open >= 0.0 ==> c.low <= Min(c.open, c.close)
  {
    var noise := Noise(draw, volatility, target, open);
    var close := Max(0.0, target + noise * 0.3);
    Candle(open, Max(open, close) + Abs(noise), Max(0.0, Min(open, close) - Abs(noise)), close)
  }

  lemma MulNonNegative(a: real, b: real)
    requires a >= 0.0 && b >= 0.0
    ensures a * b >= 0.0
  {
  }

  lemma MulAssoc(a: real, b: real, c: real)
    ensures a * b * c == a * (b * c)
  {
  }

  /**
   * With a draw in [0,1), a candle's wicks reach at most half the volatility
   * times the larger of target and open beyond its body.
   */
  lemma WickBound(open: real, target: real, draw: real, volatility: real)
    requires 0.0 <= draw < 1.0 && volatility >= 0.0 && open >= 0.0
    ensures var c := NextCandle(open, target, draw, volatility);
      c.high - Max(c.open, c.close) <= 0.5 * volatility * Max(target, open) &&
      Min(c.open, c.close) - c.low <= 0.5 * volatility * Max(target, open)
  {
    var m := Max(target, open);
    var scale := volatility * m;
    assert m >= 0.0;
    MulNonNegative(volatility, m);
    assert scale >= 0.0;
    var noise := Noise(draw, volatility, target, open);
    MulAssoc(draw - 0.5, volatility, m);
    MulAssoc(0.5, volatility, m);
    assert noise == (draw - 0.5) * scale;
    assert 0.5 * volatility * m == 0.5 * scale;
    assert -0.5 * scale <= noise by {
      MulRightMonotone(-0.5, draw - 0.5, scale);
    }
    assert noise <= 0.5 * scale by {
      MulRightMonotone(draw - 0.5, 0.5, scale);
    }
    assert Abs(noise) <= 0.5 * scale;
  }

  /** The candles for `targets`, the first opening at `prevClose` and each later one at the close before it. */
  function CandleRun(prevClose: real, targets: seq<real>, draws: seq<real>, volatility: real): (cs: seq<Candle>)
    requires |draws| == |targets|
    ensures |cs| == |targets|
    decreases |targets|
  {
    if targets == [] then []
    else
      var c := NextCandle(prevClose, targets[0], draws[0], volatility);
      [c] + CandleRun(c.close, targets[1..], draws[1..], volatility)
  }

  /** Each candle opens where the one before it closed; the first opens at `seed`. */
  ghost predicate Continuous(cs: seq<Candle>, seed: real) {
    (|cs| > 0 ==> cs[0].open == seed) &&
    forall i :: 1 <= i < |cs| ==> cs[i].open == cs[i - 1].close
  }

  /** The OHLC ordering of every candle, and no negative close or low. */
  ghost predicate Ordered(cs: seq<Candle>) {
    forall i :: 0 <= i < |cs| ==>
      cs[i].close >= 0.0 && cs[i].low >= 0.0 && cs[i].high >= Max(cs[i].open, cs[i].close)
  }

  /** Every low is at most both ends of its body. */
  ghost predicate LowsUnderBodies(cs: seq<Candle>) {
    forall i :: 0 <= i < |cs| ==> cs[i].low <= Min(cs[i].open, cs[i].close)
  }

  lemma {:induction false} CandleRunShape(prevClose: real, targets: seq<real>, draws: seq<real>, volatility: real)
    requires |draws| == |targets|
    ensures Continuous(CandleRun(prevClose, targets, draws, volatility), prevClose)
    ensures Ordered(CandleRun(prevClose, targets, draws, volatility))
    ensures prevClose >= 0.0 ==> LowsUnderBodies(CandleRun(prevClose, targets, draws, volatility))
    decreases |targets|
  {
    if targets != [] {
      var c := NextCandle(prevClose, targets[0], draws[0], volatility);
      var rest := CandleRun(c.close, targets[1..], draws[1..], volatility);
      CandleRunShape(c.close, targets[1..], draws[1..], volatility);
      var cs := CandleRun(prevClose, targets, draws, volatility);
      assert cs == [c] + rest;
      forall i | 1 <= i < |cs| ensures cs[i].open == cs[i - 1].close {
        if i > 1 {
          assert cs[i] == rest[i - 1] && cs[i - 1] == rest[i - 2];
        }
      }
    }
  }

  /** The candle series of the panel: 13 bars over the average-scenario targets. */
  function CandleSeries(investment: real, score: real, confidence: real, draws: seq<real>): (cs: seq<Candle>)
    requires |draws| == Horizon + 1
    ensures |cs| == Horizon + 1
  {
    var closes := Targets(investment, score);
    CandleRun(Seed(closes, investment), closes, draws, Volatility(confidence))
  }

  /**
   * The candle loop: one bar per month, threading the previous close; `draws[i]`
   * is the `Math.random()` of bar `i`.
   */
  method SynthesizeCandles(investment: real, score: real, confidence: real, draws: seq<real>)
      returns (candles: seq<Candle>)
    requires |draws| == Horizon + 1
    ensures candles == CandleSeries(investment, score, confidence, draws)
    ensures |candles| == Horizon + 1
    ensures candles[0].open == investment * 0.02
    ensures forall i :: 1 <= i < |candles| ==> candles[i].open == candles[i - 1].close
    ensures forall i :: 0 <= i < |candles| ==>
      candles[i].close >= 0.0 && candles[i].low >= 0.0 && candles[i].high >= Max(candles[i].open, candles[i].close)
    ensures investment >= 0.0 ==> forall i :: 0 <= i < |candles| ==> candles[i].low <= Min(candles[i].open, candles[i].close)
  {
    var closes := Targets(investment, score);
    var volatility := Volatility(confidence);
    var prevClose := Seed(closes, investment);
    ghost var seed := prevClose;
    candles := [];
    var i := 0;
    while i < |closes|
      invariant 0 <= i <= |closes|
      invariant candles + CandleRun(prevClose, closes[i..], draws[i..], volatility)
             == CandleRun(seed, closes, draws, volatility)
    {
      var target := closes[i];
      var open := prevClose;
      var noise := Noise(draws[i], volatility, target, open);
      var close := Max(0.0, target + noise * 0.3);
      var high := Max(open, close) + Abs(noise);
      var low := Max(0.0, Min(open, close) - Abs(noise));
      var c := Candle(open, high, low, close);
      assert c == NextCandle(open, target, draws[i], volatility);
      assert closes[i..][1..] == closes[i + 1..] && draws[i..][1..] == draws[i + 1..];
      assert CandleRun(prevClose, closes[i..], draws[i..], volatility)
          == [c] + CandleRun(close, closes[i + 1..], draws[i + 1..], volatility);
      candles := candles + [c];
      prevClose := close;
      i := i + 1;
    }
    assert closes[i..] == [] && draws[i..] == [];
    CandleRunShape(seed, closes, draws, volatility);
  }
}
