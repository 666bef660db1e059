/**
  The deterministic risk classifier: from four evaluator results to a tier.
  Functions give the meaning; the methods are the loops that compute it.
  */
module RiskClassifier {
  import opened Core

  const DEFAULT_WEIGHTS: map<string, real> :=
    map["tribal" := 0.40, "domain" := 0.25, "self_interest" := 0.20, "authority" := 0.15]
  const DEFAULT_THRESHOLDS: map<string, real> :=
    map["green" := -0.1, "yellow" := -0.4, "orange" := -0.7]
  const DISAGREEMENT := 0.8

  datatype OverrideReason = CatastrophicFlag | SevereScores(count: nat) | ProhibitedTool

  datatype RiskClassification = RiskClassification(
    tier: Tier,
    weightedScore: real,
    individualScores: map<string, real>,
    flags: seq<Value>,
    overrideReason: Option<OverrideReason>,
    recommendedAction: Option<Candidate>,
    minTierApplied: Option<Tier>)

  /*** Weighted mean ***/

  function Weights(hat: Option<HatConfig>): map<string, real> {
    match hat
    case None => DEFAULT_WEIGHTS
    case Some(h) =>
      DEFAULT_WEIGHTS + (if h.weightOverrides != map[] then h.weightOverrides else h.manifestWeights)
  }

  function Weight(weights: map<string, real>, name: string): real {
    if name in weights then weights[name] else 0.0
  }

  function Total(results: seq<EvaluatorResult>, weights: map<string, real>): real {
    if results == [] then 0.0
    else Contribution(results[0], weights) + Total(results[1..], weights)
  }

  function Contribution(r: EvaluatorResult, weights: map<string, real>): real {
    r.score * Weight(weights, r.evaluatorName)
  }

  function WeightSum(results: seq<EvaluatorResult>, weights: map<string, real>): real {
    if results == [] then 0.0
    else Weight(weights, results[0].evaluatorName) + WeightSum(results[1..], weights)
  }

  function WeightedScore(results: seq<EvaluatorResult>, hat: Option<HatConfig>): real {
    var weightSum := WeightSum(results, Weights(hat));
    if weightSum == 0.0 then 0.0 else Total(results, Weights(hat)) / weightSum
  }

  method ComputeWeightedScore(results: seq<EvaluatorResult>, hat: Option<HatConfig>) returns (score: real)
    ensures score == WeightedScore(results, hat)
  {
    var weights := DEFAULT_WEIGHTS;
    if hat.Some? {
      var overrides := hat.value.weightOverrides;
      if overrides == map[] {
        overrides := hat.value.manifestWeights;
      }
      if overrides != map[] {
        weights := weights + overrides;
      }
    }
    assert weights == Weights(hat);
    var total, weightSum := 0.0, 0.0;
    for i := 0 to |results|
      invariant total + Total(results[i..], weights) == Total(results, weights)
      invariant weightSum + WeightSum(results[i..], weights) == WeightSum(results, weights)
    {
      assert results[i..][1..] == results[i + 1..];
      var w := Weight(weights, results[i].evaluatorName);
      total := total + Contribution(results[i], weights);
      weightSum := weightSum + w;
    }
    if weightSum == 0.0 {
      return 0.0;
    }
    return total / weightSum;
  }

  /*** Disagreement: pairs of scores more than 0.8 apart ***/

  predicate Apart(x: real, y: real) {
    x - y > DISAGREEMENT || y - x > DISAGREEMENT
  }

  /** How many of the scores are far from x. */
  function Against(x: real, scores: seq<real>): nat {
    if scores == [] then 0
    else (if Apart(x, scores[0]) then 1 else 0) + Against(x, scores[1..])
  }

  /** How many unordered pairs of positions hold scores that are far apart. */
  function PairCount(scores: seq<real>): nat {
    if scores == [] then 0 else Against(scores[0], scores[1..]) + PairCount(scores[1..])
  }

  function Scores(results: seq<EvaluatorResult>): seq<real> {
    seq(|results|, i requires 0 <= i < |results| => results[i].score)
  }

  predicate Disagree(results: seq<EvaluatorResult>) {
    PairCount(Scores(results)) >= 2
  }

  method HasSignificantDisagreement(results: seq<EvaluatorResult>) returns (b: bool)
    ensures b <==> Disagree(results)
  {
    var disagreements := 0;
    var scores := Scores(results);
    for i := 0 to |scores|
      invariant disagreements + PairCount(scores[i..]) == PairCount(scores)
    {
      ghost var rest := scores[i..][1..];
      assert rest == scores[i + 1..];
      for j := i + 1 to |scores|
        invariant disagreements + Against(scores[i], scores[j..]) + PairCount(scores[i + 1..]) == PairCount(scores)
      {
        assert scores[j..][1..] == scores[j + 1..];
        if Apart(scores[i], scores[j]) {
          disagreements := disagreements + 1;
        }
      }
    }
    return disagreements >= 2;
  }

  /*** Tiers ***/

  function Thresholds(hat: Option<HatConfig>): map<string, real> {
    match hat
    case None => DEFAULT_THRESHOLDS
    case Some(h) =>
      DEFAULT_THRESHOLDS +
      (if h.evaluatorThresholds != map[] then h.evaluatorThresholds else h.manifestThresholds)
  }

  function Threshold(thresholds: map<string, real>, name: string, default: real): real {
    if name in thresholds then thresholds[name] else default
  }

  function ScoreToTier(score: real, thresholds: map<string, real>): Tier {
    if score >= Threshold(thresholds, "green", -0.1) then Green
    else if score >= Threshold(thresholds, "yellow", -0.4) then Yellow
    else if score >= Threshold(thresholds, "orange", -0.7) then Orange
    else Red
  }

  function Bump(tier: Tier): Tier {
    match tier
    case Green => Yellow
    case Yellow => Orange
    case Orange => Red
    case Red => Red
  }

  function AllFlags(results: seq<EvaluatorResult>): seq<Value> {
    if results == [] then [] else Iterated(results[0].flags) + AllFlags(results[1..])
  }

  function SevereCount(results: seq<EvaluatorResult>): nat {
    if results == [] then 0
    else (if results[0].score <= -0.5 then 1 else 0) + SevereCount(results[1..])
  }

  function IndividualScores(results: seq<EvaluatorResult>): map<string, real> {
    if results == [] then map[]
    else
      var last := results[|results| - 1];
      IndividualScores(results[..|results| - 1])[last.evaluatorName := last.score]
  }

  predicate Overridden(results: seq<EvaluatorResult>) {
    VETO in AllFlags(results) || SevereCount(results) >= 3
  }

  /** The tier that the thresholds give, before disagreement and floors. */
  function BaseTier(results: seq<EvaluatorResult>, hat: Option<HatConfig>): Tier {
    ScoreToTier(WeightedScore(results, hat), Thresholds(hat))
  }

  /** The tier before any floor. */
  function UnflooredTier(results: seq<EvaluatorResult>, hat: Option<HatConfig>): Tier {
    if Disagree(results) then Bump(BaseTier(results, hat)) else BaseTier(results, hat)
  }

  function HatMinTier(hat: Option<HatConfig>): Option<Tier> {
    match hat
    case None => None
    case Some(h) => h.minTier
  }

  /** How overrides, the threshold tier, disagreement and the two floors combine. */
  function Decide(overridden: bool, base: Tier, disagree: bool, minTier: Option<Tier>, hatMin: Option<Tier>): Tier {
    if overridden then Red else Raise(Raise(if disagree then Bump(base) else base, minTier), hatMin)
  }

  function FinalTier(results: seq<EvaluatorResult>, hat: Option<HatConfig>, minTier: Option<Tier>): Tier {
    Decide(Overridden(results), BaseTier(results, hat), Disagree(results), minTier, HatMinTier(hat))
  }

  /** ORANGE prefers an escalation among the candidates; RED recommends nothing. */
  function Recommended(tier: Tier, candidates: seq<Candidate>): Option<Candidate> {
    if candidates == [] || tier == Red then None
    else if tier == Orange then FirstEscalation(candidates, candidates[0])
    else Some(candidates[0])
  }

  function FirstEscalation(candidates: seq<Candidate>, fallback: Candidate): Option<Candidate> {
    if candidates == [] then Some(fallback)
    else if candidates[0].toolName == ESCALATE then Some(candidates[0])
    else FirstEscalation(candidates[1..], fallback)
  }

  function Reason(results: seq<EvaluatorResult>): Option<OverrideReason> {
    if VETO in AllFlags(results) then Some(CatastrophicFlag)
    else if SevereCount(results) >= 3 then Some(SevereScores(SevereCount(results)))
    else None
  }

  function Classified(results: seq<EvaluatorResult>, hat: Option<HatConfig>,
                      candidates: seq<Candidate>, minTier: Option<Tier>): RiskClassification
  {
    var tier := FinalTier(results, hat, minTier);
    var raised := !Overridden(results) && UnflooredTier(results, hat) != tier;
    RiskClassification(
      tier, WeightedScore(results, hat), IndividualScores(results), AllFlags(results),
      Reason(results), Recommended(tier, candidates), if raised then Some(tier) else None)
  }

  method SelectRecommendedAction(tier: Tier, candidates: seq<Candidate>) returns (r: Option<Candidate>)
    ensures r == Recommended(tier, candidates)
  {
    if candidates == [] {
      return None;
    }
    if tier == Green || tier == Yellow {
      return Some(candidates[0]);
    }
    if tier == Orange {
      for i := 0 to |candidates|
        invariant FirstEscalation(candidates, candidates[0]) == FirstEscalation(candidates[i..], candidates[0])
      {
        if candidates[i].toolName == ESCALATE {
          return Some(candidates[i]);
        }
        assert candidates[i..][1..] == candidates[i + 1..];
      }
      return Some(candidates[0]);
    }
    return None;
  }

  method Collect(results: seq<EvaluatorResult>)
    returns (allFlags: seq<Value>, individualScores: map<string, real>, severe: nat)
    ensures allFlags == AllFlags(results)
    ensures individualScores == IndividualScores(results)
    ensures severe == SevereCount(results)
  {
    allFlags, individualScores, severe := [], map[], 0;
    for i := 0 to |results|
      invariant allFlags + AllFlags(results[i..]) == AllFlags(results)
      invariant individualScores == IndividualScores(results[..i])
      invariant severe + SevereCount(results[i..]) == SevereCount(results)
    {
      assert results[i..][1..] == results[i + 1..];
      assert results[..i + 1][..i] == results[..i];
      individualScores := individualScores[results[i].evaluatorName := results[i].score];
      allFlags := allFlags + Iterated(results[i].flags);
      severe := severe + if results[i].score <= -0.5 then 1 else 0;
    }
    assert results[..|results|] == results;
  }

  method Classify(results: seq<EvaluatorResult>, hat: Option<HatConfig>,
                  candidates: seq<Candidate>, minTier: Option<Tier>)
    returns (rc: RiskClassification)
    ensures rc == Classified(results, hat, candidates, minTier)
  {
    hide AllFlags, SevereCount, IndividualScores, WeightedScore, Disagree, ScoreToTier;
    var allFlags, individualScores, severe := Collect(results);
    var weightedScore := ComputeWeightedScore(results, hat);
    if VETO in allFlags {
      return RiskClassification(Red, weightedScore, individualScores, allFlags, Some(CatastrophicFlag), None, None);
    }
    if severe >= 3 {
      return RiskClassification(Red, weightedScore, individualScores, allFlags, Some(SevereScores(severe)), None, None);
    }

    var tier := ScoreToTier(weightedScore, Thresholds(hat));
    var disagreement := HasSignificantDisagreement(results);
    if disagreement {
      tier := Bump(tier);
    }
    assert tier == UnflooredTier(results, hat);
    var applied := None;
    if minTier.Some? && tier.Rank() < minTier.value.Rank() {
      tier := minTier.value;
      applied := minTier;
    }
    if hat.Some? && hat.value.minTier.Some? {
      var hatMin := hat.value.minTier.value;
      if tier.Rank() < hatMin.Rank() {
        tier := hatMin;
        applied := Some(hatMin);
      }
    }
    assert tier == FinalTier(results, hat, minTier);
    var recommended := SelectRecommendedAction(tier, candidates);
    return RiskClassification(tier, weightedScore, individualScores, allFlags, None, recommended, applied);
  }
}
