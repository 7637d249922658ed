/**
 * The marketplace's heuristic scorer: how an on-chain campaign becomes a
 * startup record with a success score, a confidence and a six-factor
 * breakdown, and the 12-month investment insights shown for the selected
 * startup. The current time (`Date.now()`) is the parameter `now`.
 */
module Heuristic {
  import opened Wrappers
  import opened RealMath
  import PredictionPanel

  /** Milliseconds in a day: `1000 * 60 * 60 * 24`. */
  const MsPerDay: int := 1000 * 60 * 60 * 24
  /** Fewer days than this left before the deadline earn the urgency boost. */
  const UrgencyWindowDays: int := 14
  const UrgencyBoostValue: real := 0.05

  /** A campaign as read from the contract, with `target` and `amountCollected` already parsed. */
  datatype Campaign = Campaign(
    pId: Option<int>, owner: string, title: string, description: string,
    target: real, amountCollected: real, deadline: int, image: Option<string>)

  datatype Breakdown = Breakdown(
    team: real, traction: real, market: real, innovation: real, financials: real, execution: real)

  datatype HeuristicPrediction = HeuristicPrediction(
    score: int, confidence: int, breakdown: Breakdown, time: int, version: string, ipfsHash: string)

  /** The startup record the marketplace lists. */
  datatype StartupEntry = StartupEntry(
    id: int, owner: string, title: string, tagline: string, sector: string,
    goal: real, raised: real, metadataHash: Option<string>, prediction: HeuristicPrediction)

  /** Funding progress: raised over goal, capped at 1, and 0 when the goal is not positive. */
  function FundingRatio(goal: real, raised: real): (ratio: real)
    ensures goal <= 0.0 ==> ratio == 0.0
    ensures goal > 0.0 && raised <= goal ==> ratio == raised / goal
    ensures goal > 0.0 && raised >= goal ==> ratio == 1.0
    ensures raised >= 0.0 ==> 0.0 <= ratio <= 1.0
  {
    if goal > 0.0 then Min(1.0, raised / goal) else 0.0
  }

  /** Whole days left before the deadline, never negative. */
  function DaysRemaining(deadline: int, now: int): (days: nat)
    ensures days == 0 <==> deadline - now < MsPerDay
    ensures days > 0 ==> days * MsPerDay <= deadline - now < (days + 1) * MsPerDay
  {
    var d := (deadline - now) / MsPerDay;
    if d > 0 then d else 0
  }

  function UrgencyBoost(daysRemaining: int): (b: real)
    ensures b == 0.0 || b == UrgencyBoostValue
    ensures 0.0 <= b <= 0.05
  {
    if daysRemaining < UrgencyWindowDays then UrgencyBoostValue else 0.0
  }

  /** The boost applies exactly when less than 14 whole days remain before the deadline. */
  lemma UrgentIffDeadlineNear(deadline: int, now: int)
    ensures UrgencyBoost(DaysRemaining(deadline, now)) == UrgencyBoostValue
        <==> deadline - now < UrgencyWindowDays * MsPerDay
    ensures UrgencyBoost(DaysRemaining(deadline, now)) != UrgencyBoostValue
        ==> UrgencyBoost(DaysRemaining(deadline, now)) == 0.0
  {
    var days := DaysRemaining(deadline, now);
    if days > 0 {
      if days < UrgencyWindowDays {
        assert deadline - now < (days + 1) * MsPerDay <= UrgencyWindowDays * MsPerDay;
      } else {
        assert UrgencyWindowDays * MsPerDay <= days * MsPerDay <= deadline - now;
      }
    }
  }

  /** `Math.round(Math.max(5, Math.min(95, 25 + 50 * ratio + 20 * urgencyBoost)))`. */
  function Score(ratio: real, boost: real): (score: int)
    ensures 5 <= score <= 95
    ensures 0.0 <= ratio <= 1.0 && 0.0 <= boost <= UrgencyBoostValue ==>
      25 <= score <= 76 && score == Round(25.0 + 50.0 * ratio + 20.0 * boost)
  {
    Round(Clamp(25.0 + 50.0 * ratio + 20.0 * boost, 5.0, 95.0))
  }

  /** `Math.round(Math.max(40, Math.min(95, 60 + 30 * ratio)))`. */
  function Confidence(ratio: real): (confidence: int)
    ensures 40 <= confidence <= 95
    ensures 0.0 <= ratio <= 1.0 ==> 60 <= confidence <= 90 && confidence == Round(60.0 + 30.0 * ratio)
  {
    Round(Clamp(60.0 + 30.0 * ratio, 40.0, 95.0))
  }

  /** More funding never lowers the score or the confidence. */
  lemma ScoreMonotone(ratio1: real, ratio2: real, boost: real)
    requires ratio1 <= ratio2
    ensures Score(ratio1, boost) <= Score(ratio2, boost)
    ensures Confidence(ratio1) <= Confidence(ratio2)
  {
    ClampMonotone(25.0 + 50.0 * ratio1 + 20.0 * boost, 25.0 + 50.0 * ratio2 + 20.0 * boost, 5.0, 95.0);
    RoundMonotone(Clamp(25.0 + 50.0 * ratio1 + 20.0 * boost, 5.0, 95.0),
                  Clamp(25.0 + 50.0 * ratio2 + 20.0 * boost, 5.0, 95.0));
    ClampMonotone(60.0 + 30.0 * ratio1, 60.0 + 30.0 * ratio2, 40.0, 95.0);
    RoundMonotone(Clamp(60.0 + 30.0 * ratio1, 40.0, 95.0), Clamp(60.0 + 30.0 * ratio2, 40.0, 95.0));
  }

  function FactorBreakdown(ratio: real): Breakdown {
    Breakdown(
      Round2(0.20 + 0.20 * ratio),
      Round2(0.15 + 0.35 * ratio),
      0.15,
      0.20,
      Round2(0.10 + 0.10 * ratio),
      0.10)
  }

  /** For a ratio in [0,1] every rounded weight stays between its values at ratio 0 and ratio 1. */
  lemma BreakdownBounds(ratio: real)
    requires 0.0 <= ratio <= 1.0
    ensures var b := FactorBreakdown(ratio);
      0.20 <= b.team <= 0.40 && 0.15 <= b.traction <= 0.50 && 0.10 <= b.financials <= 0.20 &&
      b.market == 0.15 && b.innovation == 0.20 && b.execution == 0.10
  {
    Round2Within(0.20 + 0.20 * ratio, 20, 40);
    Round2Within(0.15 + 0.35 * ratio, 15, 50);
    Round2Within(0.10 + 0.10 * ratio, 10, 20);
  }

  /** The mapping of one campaign (at position `idx`) into a startup record. */
  function ToStartup(c: Campaign, idx: int, now: int): (s: StartupEntry)
    ensures s.id == c.pId.GetOr(idx) && s.owner == c.owner
    ensures s.sector == "General" && s.goal == c.target && s.raised == c.amountCollected
    ensures s.title == c.title && s.tagline == c.description && s.metadataHash == c.image
    ensures s.prediction.time == now && s.prediction.version == "Heuristic-1.0"
    ensures s.prediction.ipfsHash == c.image.GetOr("")
  {
    var goal := c.target;
    var raised := c.amountCollected;
    var ratio := FundingRatio(goal, raised);
    var urgencyBoost := UrgencyBoost(DaysRemaining(c.deadline, now));
    StartupEntry(
      c.pId.GetOr(idx), c.owner, c.title, c.description, "General", goal, raised, c.image,
      HeuristicPrediction(Score(ratio, urgencyBoost), Confidence(ratio), FactorBreakdown(ratio),
                          now, "Heuristic-1.0", c.image.GetOr("")))
  }

  /**
   * For a non-negative amount raised the clamps never bind: the score lies in
   * [25,76], the confidence in [60,90], and the weights within their ranges.
   */
  lemma StartupPredictionBounds(c: Campaign, idx: int, now: int)
    requires c.amountCollected >= 0.0
    ensures var p := ToStartup(c, idx, now).prediction;
      25 <= p.score <= 76 && 60 <= p.confidence <= 90 &&
      0.20 <= p.breakdown.team <= 0.40 && 0.15 <= p.breakdown.traction <= 0.50 &&
      0.10 <= p.breakdown.financials <= 0.20
  {
    var ratio := FundingRatio(c.target, c.amountCollected);
    BreakdownBounds(ratio);
    UrgentIffDeadlineNear(c.deadline, now);
  }

  /** A campaign without a positive goal scores 25, or 26 inside the urgency window, with confidence 60. */
  lemma NoGoalPrediction(c: Campaign, idx: int, now: int)
    requires c.target <= 0.0
    ensures var p := ToStartup(c, idx, now).prediction;
      p.confidence == 60 &&
      p.score == (if c.deadline - now < UrgencyWindowDays * MsPerDay then 26 else 25)
  {
    UrgentIffDeadlineNear(c.deadline, now);
  }

  /**
   * `campaigns.map((c, idx) => ...)`: one record per campaign, in order. The
   * initial load and the refresh after an investment run the same mapping.
   */
  function MapCampaigns(campaigns: seq<Campaign>, now: int): (startups: seq<StartupEntry>)
    ensures |startups| == |campaigns|
    ensures forall i :: 0 <= i < |campaigns| ==> startups[i] == ToStartup(campaigns[i], i, now)
  {
    seq(|campaigns|, i requires 0 <= i < |campaigns| => ToStartup(campaigns[i], i, now))
  }

  /** The record as the prediction panel and the insights read it. */
  function AsView(p: HeuristicPrediction): PredictionPanel.PredictionView {
    PredictionPanel.PredictionView(
      Some(p.score as real), None, Some(p.confidence as real),
      Some(PredictionPanel.BreakdownView(
        Some(p.breakdown.team), Some(p.breakdown.traction), Some(p.breakdown.market),
        Some(p.breakdown.innovation), Some(p.breakdown.financials), Some(p.breakdown.execution))))
  }

  /** A heuristic record is shown with its own score, confidence and weights; no default applies. */
  lemma HeuristicRecordShownAsIs(p: HeuristicPrediction)
    ensures PredictionPanel.ShownScore(AsView(p)) == p.score as real
    ensures PredictionPanel.ShownConfidence(AsView(p)) == p.confidence as real
    ensures var fs := PredictionPanel.PredictionFactors(AsView(p));
      && fs[0].value == p.breakdown.team && fs[1].value == p.breakdown.traction
      && fs[2].value == p.breakdown.market && fs[3].value == p.breakdown.innovation
      && fs[4].value == p.breakdown.financials && fs[5].value == p.breakdown.execution
  {
  }

  /** The 12-month figures of the insights box. */
  datatype Insights = Insights(low: real, avg: real, high: real, expectedValue: real)

  /** One year's return `amount * roi`, weighted by the success probability `prob`. */
  function YearlyReturn(amount: real, roi: real, prob: real): real {
    amount * roi * prob
  }

  /** `investAmount * roi * prob` rounded with `toFixed(2)`, for the three returns, with `prob = score / 100`. */
  function InvestmentInsights(investAmount: real, p: PredictionPanel.PredictionView): (r: Insights)
    ensures r.expectedValue == r.avg
  {
    var prob := PredictionPanel.ShownScore(p) / 100.0;
    Insights(
      Round2(YearlyReturn(investAmount, PredictionPanel.RoiLow, prob)),
      Round2(YearlyReturn(investAmount, PredictionPanel.RoiAvg, prob)),
      Round2(YearlyReturn(investAmount, PredictionPanel.RoiHigh, prob)),
      Round2(YearlyReturn(investAmount, PredictionPanel.RoiAvg, prob)))
  }

  /** The weighted yearly return is the projection's unrounded profit at month 12. */
  lemma YearlyReturnIsHorizonProfit(amount: real, roi: real, score: real)
    ensures YearlyReturn(amount, roi, score / 100.0) == PredictionPanel.Profit(amount, roi, score, PredictionPanel.Horizon)
  {
    PredictionPanel.ProfitAtHorizon(amount, roi, score);
  }

  /** The insights are the profit projection's values at month 12. */
  lemma InsightsAreMonthTwelve(investAmount: real, p: PredictionPanel.PredictionView)
    ensures var r := InvestmentInsights(investAmount, p);
      var proj := PredictionPanel.Project(investAmount, PredictionPanel.ShownScore(p));
      r.low == proj.low[12] && r.avg == proj.average[12] && r.high == proj.high[12]
  {
    var s := PredictionPanel.ShownScore(p);
    YearlyReturnIsHorizonProfit(investAmount, PredictionPanel.RoiLow, s);
    YearlyReturnIsHorizonProfit(investAmount, PredictionPanel.RoiAvg, s);
    YearlyReturnIsHorizonProfit(investAmount, PredictionPanel.RoiHigh, s);
  }

  /** For a non-negative amount and score: 0 <= low <= avg <= high. */
  lemma InsightsOrdered(investAmount: real, p: PredictionPanel.PredictionView)
    requires investAmount >= 0.0 && PredictionPanel.ShownScore(p) >= 0.0
    ensures var r := InvestmentInsights(investAmount, p);
      0.0 <= r.low <= r.avg <= r.high
  {
    InsightsAreMonthTwelve(investAmount, p);
    PredictionPanel.ProjectionOrdered(investAmount, PredictionPanel.ShownScore(p));
  }
}
