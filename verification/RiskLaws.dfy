/** What the classifier guarantees for every panel, weight table and threshold table. */
module RiskLaws {
  import opened Core
  import opened RiskClassifier

  /*** The disagreement loop is a test on extremes ***/

  predicate Ascending(s: seq<real>) {
    forall i, j :: 0 <= i < j < |s| ==> s[i] <= s[j]
  }

  /** Against an ascending list that x does not exceed, only the top of the list matters. */
  lemma {:induction false} AgainstAscending(x: real, s: seq<real>)
    requires Ascending(s) && (s != [] ==> x <= s[0])
    ensures Against(x, s) >= 1 <==> |s| >= 1 && s[|s| - 1] - x > DISAGREEMENT
    ensures Against(x, s) >= 2 <==> |s| >= 2 && s[|s| - 2] - x > DISAGREEMENT
  {
    if s != [] {
      AgainstAscending(x, s[1..]);
    }
  }

  lemma {:induction false} PairsAscending(s: seq<real>)
    requires Ascending(s)
    ensures PairCount(s) >= 1 <==> |s| >= 2 && s[|s| - 1] - s[0] > DISAGREEMENT
    ensures PairCount(s) >= 2 <==>
            |s| >= 3 && (s[|s| - 1] - s[1] > DISAGREEMENT || s[|s| - 2] - s[0] > DISAGREEMENT)
  {
    if s != [] {
      AgainstAscending(s[0], s[1..]);
      PairsAscending(s[1..]);
    }
  }

  lemma {:induction false} AgainstWithout(x: real, s: seq<real>, i: nat)
    requires i < |s|
    ensures Against(x, s) == (if Apart(x, s[i]) then 1 else 0) + Against(x, Without(s, i))
  {
    if i == 0 {
      assert Without(s, i) == s[1..];
    } else {
      AgainstWithout(x, s[1..], i - 1);
      assert Without(s, i) == [s[0]] + Without(s[1..], i - 1);
    }
  }

  lemma {:induction false} PairsWithout(s: seq<real>, i: nat)
    requires i < |s|
    ensures PairCount(s) == Against(s[i], Without(s, i)) + PairCount(Without(s, i))
  {
    if i == 0 {
      assert Without(s, i) == s[1..];
    } else {
      PairsWithout(s[1..], i - 1);
      assert Without(s, i) == [s[0]] + Without(s[1..], i - 1);
      AgainstWithout(s[0], s[1..], i - 1);
    }
  }

  lemma {:induction false} AgainstPermutation(x: real, s: seq<real>, t: seq<real>)
    requires multiset(s) == multiset(t)
    ensures Against(x, s) == Against(x, t)
    decreases |s|
  {
    if s == [] {
      assert |multiset(t)| == 0;
    } else {
      var i := FindHead(s, t);
      AgainstWithout(x, t, i);
      AgainstPermutation(x, s[1..], Without(t, i));
    }
  }

  lemma {:induction false} PairsPermutation(s: seq<real>, t: seq<real>)
    requires multiset(s) == multiset(t)
    ensures PairCount(s) == PairCount(t)
    decreases |s|
  {
    if s == [] {
      assert |multiset(t)| == 0;
    } else {
      var i := FindHead(s, t);
      PairsWithout(t, i);
      AgainstPermutation(s[0], s[1..], Without(t, i));
      PairsPermutation(s[1..], Without(t, i));
    }
  }

  /**
    The pairwise count fires exactly when, after sorting, the top score leaves the
    second lowest behind or the second highest leaves the lowest behind.
    */
  lemma DisagreementExtremes(results: seq<EvaluatorResult>, sorted: seq<real>)
    requires Ascending(sorted) && multiset(sorted) == multiset(Scores(results))
    ensures |sorted| == |results|
    ensures Disagree(results) <==>
            var n := |sorted|;
            n >= 3 && (sorted[n - 1] - sorted[1] > 0.8 || sorted[n - 2] - sorted[0] > 0.8)
  {
    assert |multiset(sorted)| == |sorted| && |multiset(Scores(results))| == |results|;
    PairsPermutation(sorted, Scores(results));
    PairsAscending(sorted);
  }

  /*** Order of the evaluators ***/

  lemma {:induction false} ScoresMultiset(s: seq<EvaluatorResult>, t: seq<EvaluatorResult>)
    requires multiset(s) == multiset(t)
    ensures multiset(Scores(s)) == multiset(Scores(t))
    decreases |s|
  {
    if s == [] {
      assert |multiset(t)| == 0;
    } else {
      var i := FindHead(s, t);
      ScoresMultiset(s[1..], Without(t, i));
      assert Scores(Without(t, i)) == Without(Scores(t), i);
      WithoutMultiset(Scores(t), i);
      assert Scores(s) == [s[0].score] + Scores(s[1..]);
    }
  }

  lemma {:induction false} TotalWithout(s: seq<EvaluatorResult>, weights: map<string, real>, i: nat)
    requires i < |s|
    ensures Total(s, weights) == Contribution(s[i], weights) + Total(Without(s, i), weights)
  {
    if i == 0 {
      assert Without(s, i) == s[1..];
    } else {
      TotalWithout(s[1..], weights, i - 1);
      assert Without(s, i) == [s[0]] + Without(s[1..], i - 1);
    }
  }

  lemma {:induction false} CountsWithout(s: seq<EvaluatorResult>, weights: map<string, real>, i: nat)
    requires i < |s|
    ensures WeightSum(s, weights) == Weight(weights, s[i].evaluatorName) + WeightSum(Without(s, i), weights)
    ensures SevereCount(s) == (if s[i].score <= -0.5 then 1 else 0) + SevereCount(Without(s, i))
  {
    if i == 0 {
      assert Without(s, i) == s[1..];
    } else {
      CountsWithout(s[1..], weights, i - 1);
      assert Without(s, i) == [s[0]] + Without(s[1..], i - 1);
    }
  }

  lemma {:induction false} SumsPermutation(s: seq<EvaluatorResult>, t: seq<EvaluatorResult>, weights: map<string, real>)
    requires multiset(s) == multiset(t)
    ensures Total(s, weights) == Total(t, weights)
    ensures WeightSum(s, weights) == WeightSum(t, weights)
    ensures SevereCount(s) == SevereCount(t)
    decreases |s|
  {
    if s == [] {
      assert |multiset(t)| == 0;
    } else {
      var i := FindHead(s, t);
      TotalWithout(t, weights, i);
      CountsWithout(t, weights, i);
      SumsPermutation(s[1..], Without(t, i), weights);
    }
  }

  lemma {:induction false} FlagSource(results: seq<EvaluatorResult>, flag: Value)
    ensures flag in AllFlags(results) <==> exists i :: 0 <= i < |results| && flag in Iterated(results[i].flags)
  {
    if results != [] {
      FlagSource(results[1..], flag);
      assert flag in AllFlags(results) <==> flag in Iterated(results[0].flags) || flag in AllFlags(results[1..]);
      if i :| 0 <= i < |results| && flag in Iterated(results[i].flags) {
        assert i == 0 || results[1..][i - 1] == results[i];
      }
    }
  }

  lemma FlagsPermutation(s: seq<EvaluatorResult>, t: seq<EvaluatorResult>, flag: Value)
    requires multiset(s) == multiset(t) && flag in AllFlags(s)
    ensures flag in AllFlags(t)
  {
    FlagSource(s, flag);
    var i :| 0 <= i < |s| && flag in Iterated(s[i].flags);
    assert s[i] in multiset(s);
    assert s[i] in multiset(t);
    FlagSource(t, flag);
  }

  /** Tier, score and recommended action do not depend on the order of the evaluators. */
  lemma OrderIrrelevant(s: seq<EvaluatorResult>, t: seq<EvaluatorResult>, hat: Option<HatConfig>,
                        candidates: seq<Candidate>, minTier: Option<Tier>)
    requires multiset(s) == multiset(t)
    ensures var a, b := Classified(s, hat, candidates, minTier), Classified(t, hat, candidates, minTier);
            a.tier == b.tier && a.weightedScore == b.weightedScore && a.recommendedAction == b.recommendedAction
            && a.overrideReason == b.overrideReason && a.minTierApplied == b.minTierApplied
  {
    SumsPermutation(s, t, Weights(hat));
    ScoresMultiset(s, t);
    PairsPermutation(Scores(s), Scores(t));
    if VETO in AllFlags(s) {
      FlagsPermutation(s, t, VETO);
    }
    if VETO in AllFlags(t) {
      FlagsPermutation(t, s, VETO);
    }
  }

  /*** Near-monotonicity ***/

  predicate NonNegative(weights: map<string, real>) {
    forall name :: name in weights ==> weights[name] >= 0.0
  }

  /*** The weighted score ***/

  lemma ContributionBetween(r: EvaluatorResult, weights: map<string, real>, lo: real, hi: real)
    requires NonNegative(weights) && lo <= r.score <= hi
    ensures Between(lo, Contribution(r, weights), hi, Weight(weights, r.evaluatorName))
  {
    Scale(lo, r.score, Weight(weights, r.evaluatorName));
    Scale(r.score, hi, Weight(weights, r.evaluatorName));
  }

  lemma {:induction false} TotalBounded(results: seq<EvaluatorResult>, weights: map<string, real>, lo: real, hi: real)
    requires NonNegative(weights)
    requires forall i :: 0 <= i < |results| ==> lo <= results[i].score <= hi
    ensures Between(lo, Total(results, weights), hi, WeightSum(results, weights))
    ensures WeightSum(results, weights) >= 0.0
  {
    if results != [] {
      TotalBounded(results[1..], weights, lo, hi);
      ContributionBetween(results[0], weights, lo, hi);
      BetweenSum(lo, Contribution(results[0], weights), Total(results[1..], weights), hi,
                 Weight(weights, results[0].evaluatorName), WeightSum(results[1..], weights));
    }
  }

  lemma QuotientBounded(x: real, lo: real, hi: real, w: real)
    requires w > 0.0 && Between(lo, x, hi, w)
    ensures lo <= x / w <= hi
  {
    assert (x / w) * w == x;
    Sign(x / w - lo, w);
    Sign(hi - x / w, w);
  }

  /** With non-negative weights, not all zero, the score is a mean: it lies between the extreme scores. */
  lemma WeightedScoreIsMean(results: seq<EvaluatorResult>, hat: Option<HatConfig>, lo: real, hi: real)
    requires NonNegative(Weights(hat)) && WeightSum(results, Weights(hat)) != 0.0
    requires forall i :: 0 <= i < |results| ==> lo <= results[i].score <= hi
    ensures lo <= WeightedScore(results, hat) <= hi
  {
    hide Between, Total, WeightSum, Weights;
    var w := Weights(hat);
    var total, sum := Total(results, w), WeightSum(results, w);
    TotalBounded(results, w, lo, hi);
    QuotientBounded(total, lo, hi, sum);
    assert WeightedScore(results, hat) == total / sum;
  }

  /** The evaluators in panel order. */
  const NAMES := ["self_interest", "tribal", "domain", "authority"]

  predicate FullPanel(p: seq<EvaluatorResult>) {
    |p| == 4 && forall i :: 0 <= i < 4 ==> p[i].evaluatorName == NAMES[i]
  }

  /** The score of a full panel under the default weights. */
  lemma DefaultScore(p: seq<EvaluatorResult>)
    requires FullPanel(p)
    ensures WeightedScore(p, None) ==
            0.20 * p[0].score + 0.40 * p[1].score + 0.25 * p[2].score + 0.15 * p[3].score
  {
    FourSums(p, DEFAULT_WEIGHTS);
    assert WeightSum(p, DEFAULT_WEIGHTS) == 1.0;
  }

  /*** Configuration ***/

  /** The value that two tables configure for a name: the first table, if it has entries at all, hides the second. */
  predicate Configures(first: map<string, real>, second: map<string, real>, name: string, default: real, value: real) {
    if first != map[] then value == (if name in first then first[name] else default)
    else value == (if name in second then second[name] else default)
  }

  /** The three bounds of the tiers, from the hat's evaluator table, its manifest, or the defaults. */
  predicate Bounds(hat: Option<HatConfig>, green: real, yellow: real, orange: real) {
    match hat
    case None => green == -0.1 && yellow == -0.4 && orange == -0.7
    case Some(h) =>
      && Configures(h.evaluatorThresholds, h.manifestThresholds, "green", -0.1, green)
      && Configures(h.evaluatorThresholds, h.manifestThresholds, "yellow", -0.4, yellow)
      && Configures(h.evaluatorThresholds, h.manifestThresholds, "orange", -0.7, orange)
  }

  /** The four weights, from the hat's evaluator table, its manifest, or the defaults. */
  predicate FourWeights(hat: Option<HatConfig>, self: real, tribal: real, domain: real, authority: real) {
    match hat
    case None => self == 0.20 && tribal == 0.40 && domain == 0.25 && authority == 0.15
    case Some(h) =>
      && Configures(h.weightOverrides, h.manifestWeights, "self_interest", 0.20, self)
      && Configures(h.weightOverrides, h.manifestWeights, "tribal", 0.40, tribal)
      && Configures(h.weightOverrides, h.manifestWeights, "domain", 0.25, domain)
      && Configures(h.weightOverrides, h.manifestWeights, "authority", 0.15, authority)
  }

  /** The score of a full panel, by the weights that the hat's two tables configure. */
  lemma ConfiguredScore(p: seq<EvaluatorResult>, hat: Option<HatConfig>, self: real, tribal: real, domain: real, authority: real)
    requires FullPanel(p) && FourWeights(hat, self, tribal, domain, authority)
    ensures var sum := self + tribal + domain + authority;
            WeightedScore(p, hat) ==
            if sum == 0.0 then 0.0
            else (p[0].score * self + p[1].score * tribal + p[2].score * domain + p[3].score * authority) / sum
  {
    var w := Weights(hat);
    WeightOfTables(hat, self, tribal, domain, authority);
    FourSums(p, w);
    assert Total(p, w) == p[0].score * self + p[1].score * tribal + p[2].score * domain + p[3].score * authority;
    assert WeightSum(p, w) == self + tribal + domain + authority;
  }

  lemma WeightOfTables(hat: Option<HatConfig>, self: real, tribal: real, domain: real, authority: real)
    requires FourWeights(hat, self, tribal, domain, authority)
    ensures var w := Weights(hat);
            Weight(w, "self_interest") == self && Weight(w, "tribal") == tribal
            && Weight(w, "domain") == domain && Weight(w, "authority") == authority
  {
  }

  /** An evaluator that neither the defaults nor the hat's tables name has no say in the score. */
  lemma UnknownEvaluatorIgnored(results: seq<EvaluatorResult>, r: EvaluatorResult, hat: Option<HatConfig>)
    requires r.evaluatorName !in {"self_interest", "tribal", "domain", "authority"}
    requires hat.Some? ==> r.evaluatorName !in hat.value.weightOverrides && r.evaluatorName !in hat.value.manifestWeights
    ensures WeightedScore([r] + results, hat) == WeightedScore(results, hat)
  {
    Cons(r, results, Weights(hat));
  }

  /** Without override, disagreement and floors, the tier is where the score lies among the bounds that the tables configure. */
  lemma ConfiguredTier(results: seq<EvaluatorResult>, hat: Option<HatConfig>, green: real, yellow: real, orange: real)
    requires !Overridden(results) && !Disagree(results) && (hat.Some? ==> hat.value.minTier.None?)
    requires Bounds(hat, green, yellow, orange)
    ensures var tier, score := FinalTier(results, hat, None), WeightedScore(results, hat);
            && (tier == Green <==> score >= green)
            && (tier == Yellow <==> yellow <= score < green)
            && (tier == Orange <==> orange <= score && score < green && score < yellow)
            && (tier == Red <==> score < green && score < yellow && score < orange)
  {
    hide WeightedScore, Disagree, Overridden;
  }

  /** The recorded floor is the highest one, and is there exactly when it raised the tier of a panel that was not overridden. */
  lemma AppliedFloorMeaning(results: seq<EvaluatorResult>, hat: Option<HatConfig>, candidates: seq<Candidate>, minTier: Option<Tier>)
    ensures var applied := Classified(results, hat, candidates, minTier).minTierApplied;
            var floors := [minTier, HatMinTier(hat)];
            && (applied.Some? <==>
                  !Overridden(results) && exists f :: f in floors && f.Some? && f.value.Rank() > UnflooredTier(results, hat).Rank())
            && (applied.Some? ==> applied in floors && forall f :: f in floors && f.Some? ==> f.value.Rank() <= applied.value.Rank())
  {
    hide WeightedScore, Disagree, Overridden, BaseTier;
    var floors := [minTier, HatMinTier(hat)];
    assert floors[0] in floors && floors[1] in floors;
    assert forall f :: f in floors ==> f == minTier || f == HatMinTier(hat);
  }

  /** The flags on record of a full panel are everybody's, in panel order. */
  lemma FlagsOnRecord(p: seq<EvaluatorResult>, hat: Option<HatConfig>, candidates: seq<Candidate>, minTier: Option<Tier>)
    requires FullPanel(p)
    ensures Classified(p, hat, candidates, minTier).flags ==
            Iterated(p[0].flags) + (Iterated(p[1].flags) + (Iterated(p[2].flags) + Iterated(p[3].flags)))
  {
    FourSums(p, DEFAULT_WEIGHTS);
  }

  /** Why a panel is overridden: the veto flag first, then the number of severe scores. */
  lemma ReasonMeaning(results: seq<EvaluatorResult>, hat: Option<HatConfig>, candidates: seq<Candidate>, minTier: Option<Tier>)
    ensures var rc := Classified(results, hat, candidates, minTier);
            && (rc.overrideReason == Some(CatastrophicFlag) <==> exists i :: 0 <= i < |results| && VETO in Iterated(results[i].flags))
            && (rc.overrideReason.Some? ==> rc.tier == Red)
            && (forall n :: rc.overrideReason == Some(SevereScores(n)) ==> n >= 3 && n == SevereCount(results))
            && (rc.overrideReason.None? ==> SevereCount(results) < 3)
  {
    FlagSource(results, VETO);
  }

  /** The recommendation, by positions: the first escalation at ORANGE or else the top candidate, and nothing at RED. */
  lemma {:induction false} FirstEscalationMeaning(candidates: seq<Candidate>, fallback: Candidate)
    ensures forall i :: 0 <= i < |candidates| && candidates[i].toolName == ESCALATE
                        && (forall j :: 0 <= j < i ==> candidates[j].toolName != ESCALATE) ==>
              FirstEscalation(candidates, fallback) == Some(candidates[i])
    ensures (forall i :: 0 <= i < |candidates| ==> candidates[i].toolName != ESCALATE) ==>
              FirstEscalation(candidates, fallback) == Some(fallback)
  {
    if candidates != [] && candidates[0].toolName != ESCALATE {
      FirstEscalationMeaning(candidates[1..], fallback);
    }
  }

  lemma RecommendationMeaning(tier: Tier, candidates: seq<Candidate>)
    ensures Recommended(tier, candidates).None? <==> candidates == [] || tier == Red
    ensures candidates != [] && (tier == Green || tier == Yellow) ==> Recommended(tier, candidates) == Some(candidates[0])
    ensures tier == Orange && candidates != [] && (forall c :: c in candidates ==> c.toolName != ESCALATE) ==>
              Recommended(tier, candidates) == Some(candidates[0])
    ensures tier == Orange ==>
              forall i :: 0 <= i < |candidates| && candidates[i].toolName == ESCALATE
                          && (forall j :: 0 <= j < i ==> candidates[j].toolName != ESCALATE) ==>
                Recommended(tier, candidates) == Some(candidates[i])
  {
    if candidates != [] {
      FirstEscalationMeaning(candidates, candidates[0]);
      assert Recommended(tier, candidates).None? ==> tier == Red by {
        EscalationOrFallback(candidates, candidates[0]);
      }
    }
  }

  lemma {:induction false} EscalationOrFallback(candidates: seq<Candidate>, fallback: Candidate)
    ensures FirstEscalation(candidates, fallback).Some?
  {
    if candidates != [] {
      EscalationOrFallback(candidates[1..], fallback);
    }
  }

  /** The score on record of an evaluator is its last one. */
  lemma {:induction false} IndividualMeaning(results: seq<EvaluatorResult>, name: string)
    ensures name in IndividualScores(results) <==> exists r :: r in results && r.evaluatorName == name
    ensures forall i :: 0 <= i < |results| && results[i].evaluatorName == name
                        && (forall j :: i < j < |results| ==> results[j].evaluatorName != name) ==>
              name in IndividualScores(results) && IndividualScores(results)[name] == results[i].score
  {
    if results != [] {
      var before, last := Init(results), Last(results);
      IndividualMeaning(before, name);
      assert forall r :: r in results <==> r in before || r == last;
      assert forall j :: 0 <= j < |before| ==> before[j] == results[j];
    }
  }

  /** The same evaluators, none of which scores higher or drops a flag. */
  predicate NoBetter(worse: seq<EvaluatorResult>, better: seq<EvaluatorResult>) {
    && NoHigher(worse, better)
    && (forall flag :: flag in AllFlags(better) ==> flag in AllFlags(worse))
  }

  predicate NoHigher(worse: seq<EvaluatorResult>, better: seq<EvaluatorResult>) {
    && |worse| == |better|
    && forall i :: 0 <= i < |worse| ==>
         worse[i].evaluatorName == better[i].evaluatorName && worse[i].score <= better[i].score
  }

  lemma {:induction false} TotalMonotone(worse: seq<EvaluatorResult>, better: seq<EvaluatorResult>, weights: map<string, real>)
    requires NoHigher(worse, better) && NonNegative(weights)
    ensures Total(worse, weights) <= Total(better, weights)
  {
    if worse != [] {
      TotalMonotone(worse[1..], better[1..], weights);
      Scale(worse[0].score, better[0].score, Weight(weights, worse[0].evaluatorName));
    }
  }

  lemma {:induction false} CountsMonotone(worse: seq<EvaluatorResult>, better: seq<EvaluatorResult>, weights: map<string, real>)
    requires NoHigher(worse, better) && NonNegative(weights)
    ensures WeightSum(worse, weights) == WeightSum(better, weights) >= 0.0
    ensures SevereCount(worse) >= SevereCount(better)
  {
    if worse != [] {
      CountsMonotone(worse[1..], better[1..], weights);
    }
  }

  lemma Sign(d: real, w: real)
    requires w > 0.0 && d * w >= 0.0
    ensures d >= 0.0
  {
  }

  lemma QuotientMonotone(x: real, y: real, w: real)
    requires x <= y && w > 0.0
    ensures x / w <= y / w
  {
    assert (x / w) * w == x && (y / w) * w == y;
    Sign(y / w - x / w, w);
  }

  lemma BaseMonotone(worse: seq<EvaluatorResult>, better: seq<EvaluatorResult>, hat: Option<HatConfig>)
    requires NoBetter(worse, better) && NonNegative(Weights(hat))
    ensures WeightedScore(worse, hat) <= WeightedScore(better, hat)
    ensures BaseTier(worse, hat).Rank() >= BaseTier(better, hat).Rank()
    ensures Overridden(better) ==> Overridden(worse)
  {
    var w := Weights(hat);
    TotalMonotone(worse, better, w);
    CountsMonotone(worse, better, w);
    if WeightSum(worse, w) != 0.0 {
      QuotientMonotone(Total(worse, w), Total(better, w), WeightSum(worse, w));
    }
  }

  /** The better panel disagreed its way above every floor and the worse one agrees at the same level. */
  predicate LosesBump(worse: seq<EvaluatorResult>, better: seq<EvaluatorResult>,
                      hat: Option<HatConfig>, minTier: Option<Tier>)
  {
    && Disagree(better) && !Disagree(worse) && !Overridden(worse)
    && BaseTier(worse, hat) == BaseTier(better, hat) != Red
    && AtLeast(BaseTier(worse, hat), minTier) && AtLeast(BaseTier(worse, hat), HatMinTier(hat))
  }

  /**
    A panel that is no better is never more than one level lower, and it is lower
    exactly when the better panel's level came from a disagreement that is gone.
    */
  lemma NearMonotone(worse: seq<EvaluatorResult>, better: seq<EvaluatorResult>,
                     hat: Option<HatConfig>, minTier: Option<Tier>)
    requires NoBetter(worse, better) && NonNegative(Weights(hat))
    ensures var w, b := FinalTier(worse, hat, minTier).Rank(), FinalTier(better, hat, minTier).Rank();
            && w + 1 >= b
            && (w < b <==> LosesBump(worse, better, hat, minTier))
  {
    BaseMonotone(worse, better, hat);
    DecideNearMonotone(BaseTier(worse, hat), BaseTier(better, hat), Overridden(worse), Overridden(better),
                       Disagree(worse), Disagree(better), minTier, HatMinTier(hat));
  }

  function FloorRank(floor: Option<Tier>): nat {
    if floor.None? then 0 else floor.value.Rank()
  }

  function Max(x: nat, y: nat): nat {
    if x >= y then x else y
  }

  lemma DecideRank(overridden: bool, base: Tier, disagree: bool, minTier: Option<Tier>, hatMin: Option<Tier>)
    ensures Decide(overridden, base, disagree, minTier, hatMin).Rank() ==
            if overridden then 3
            else Max(if disagree && base.Rank() < 3 then base.Rank() + 1 else base.Rank(), Max(FloorRank(minTier), FloorRank(hatMin)))
  {
  }

  /** The same on the ingredients alone. */
  lemma DecideNearMonotone(baseW: Tier, baseB: Tier, overW: bool, overB: bool, disW: bool, disB: bool,
                           minTier: Option<Tier>, hatMin: Option<Tier>)
    requires baseW.Rank() >= baseB.Rank() && (overB ==> overW)
    ensures var w, b := Decide(overW, baseW, disW, minTier, hatMin).Rank(), Decide(overB, baseB, disB, minTier, hatMin).Rank();
            && w + 1 >= b
            && (w < b <==> disB && !disW && !overW && baseW == baseB != Red
                           && AtLeast(baseW, minTier) && AtLeast(baseW, hatMin))
  {
    DecideRank(overW, baseW, disW, minTier, hatMin);
    DecideRank(overB, baseB, disB, minTier, hatMin);
  }

  /** Without a disagreement to lose, a worse panel never lowers the tier. */
  lemma MonotoneWithoutLostDisagreement(worse: seq<EvaluatorResult>, better: seq<EvaluatorResult>,
                                        hat: Option<HatConfig>, minTier: Option<Tier>)
    requires NoBetter(worse, better) && NonNegative(Weights(hat))
    requires Disagree(worse) || !Disagree(better)
    ensures FinalTier(worse, hat, minTier).Rank() >= FinalTier(better, hat, minTier).Rank()
  {
    NearMonotone(worse, better, hat, minTier);
  }

  function Shifted(results: seq<EvaluatorResult>, shift: real): (r: seq<EvaluatorResult>)
    ensures |r| == |results|
    ensures forall i :: 0 <= i < |r| ==> r[i] == results[i].(score := results[i].score - shift)
  {
    seq(|results|, i requires 0 <= i < |results| => results[i].(score := results[i].score - shift))
  }

  lemma {:induction false} AgainstShift(x: real, s: seq<real>, t: seq<real>, shift: real)
    requires |s| == |t| && forall i :: 0 <= i < |s| ==> t[i] == s[i] - shift
    ensures Against(x - shift, t) == Against(x, s)
  {
    if s != [] {
      AgainstShift(x, s[1..], t[1..], shift);
    }
  }

  lemma {:induction false} PairsShift(s: seq<real>, t: seq<real>, shift: real)
    requires |s| == |t| && forall i :: 0 <= i < |s| ==> t[i] == s[i] - shift
    ensures PairCount(t) == PairCount(s)
  {
    if s != [] {
      AgainstShift(s[0], s[1..], t[1..], shift);
      PairsShift(s[1..], t[1..], shift);
    }
  }

  lemma {:induction false} ShiftKeepsFlags(results: seq<EvaluatorResult>, shift: real)
    ensures AllFlags(Shifted(results, shift)) == AllFlags(results)
  {
    if results != [] {
      ShiftKeepsFlags(results[1..], shift);
      assert Shifted(results, shift)[1..] == Shifted(results[1..], shift);
    }
  }

  /** The part of a shift that one weight or a sum of weights makes of it. */
  function Part(shift: real, weight: real): real {
    shift * weight
  }

  lemma PartSum(shift: real, v: real, w: real)
    ensures Part(shift, v + w) == Part(shift, v) + Part(shift, w)
  {
  }

  lemma ContributionShift(r: EvaluatorResult, shift: real, weights: map<string, real>)
    ensures Contribution(r.(score := r.score - shift), weights) ==
            Contribution(r, weights) - Part(shift, Weight(weights, r.evaluatorName))
  {
  }

  lemma {:induction false} ShiftSums(results: seq<EvaluatorResult>, shift: real, weights: map<string, real>)
    ensures WeightSum(Shifted(results, shift), weights) == WeightSum(results, weights)
    ensures Total(Shifted(results, shift), weights) == Total(results, weights) - Part(shift, WeightSum(results, weights))
  {
    hide Contribution, Weight;
    if results != [] {
      ShiftSums(results[1..], shift, weights);
      assert Shifted(results, shift)[1..] == Shifted(results[1..], shift);
      ContributionShift(results[0], shift, weights);
      PartSum(shift, Weight(weights, results[0].evaluatorName), WeightSum(results[1..], weights));
    }
  }

  lemma {:induction false} ShiftSevere(results: seq<EvaluatorResult>, shift: real)
    requires shift >= 0.0
    ensures SevereCount(Shifted(results, shift)) >= SevereCount(results)
  {
    if results != [] {
      ShiftSevere(results[1..], shift);
      assert Shifted(results, shift)[1..] == Shifted(results[1..], shift);
    }
  }

  lemma QuotientShift(x: real, shift: real, w: real)
    requires w != 0.0
    ensures (x - Part(shift, w)) / w == x / w - shift
  {
    assert (x / w - shift) * w == x - Part(shift, w);
  }

  /** A uniform shift moves the score by itself, whatever the weights, unless they sum to zero. */
  lemma ShiftScore(results: seq<EvaluatorResult>, shift: real, hat: Option<HatConfig>)
    ensures WeightedScore(Shifted(results, shift), hat) ==
            if WeightSum(results, Weights(hat)) == 0.0 then 0.0 else WeightedScore(results, hat) - shift
  {
    hide Part, Total, WeightSum, Weights;
    ShiftSums(results, shift, Weights(hat));
    if WeightSum(results, Weights(hat)) != 0.0 {
      QuotientShift(Total(results, Weights(hat)), shift, WeightSum(results, Weights(hat)));
    }
  }

  /** Lowering every score by the same amount never lowers the tier. */
  lemma UniformShiftMonotone(results: seq<EvaluatorResult>, shift: real, hat: Option<HatConfig>, minTier: Option<Tier>)
    requires shift >= 0.0
    ensures FinalTier(Shifted(results, shift), hat, minTier).Rank() >= FinalTier(results, hat, minTier).Rank()
  {
    var lower := Shifted(results, shift);
    ShiftKeepsFlags(results, shift);
    PairsShift(Scores(results), Scores(lower), shift);
    ShiftSevere(results, shift);
    ShiftScore(results, shift, hat);
    if WeightSum(results, Weights(hat)) == 0.0 {
      assert WeightedScore(results, hat) == 0.0;
    }
    DecideNearMonotone(BaseTier(lower, hat), BaseTier(results, hat), Overridden(lower), Overridden(results),
                       Disagree(lower), Disagree(results), minTier, HatMinTier(hat));
  }

  function Panel(self: real, tribal: real, domain: real, authority: real): seq<EvaluatorResult> {
    [Single("self_interest", self), Single("tribal", tribal), Single("domain", domain), Single("authority", authority)]
  }

  function Single(name: string, score: real): EvaluatorResult {
    EvaluatorResult(name, score, 0.5, NOTHING)
  }

  /** The one-level drop does occur with the default weights and thresholds. */
  lemma StrictMonotonicityFails()
    ensures var better, worse := Panel(0.5, 0.5, -0.4, -0.4), Panel(0.3, 0.3, -0.4, -0.4);
            && NoBetter(worse, better)
            && FinalTier(better, None, None) == Yellow && FinalTier(worse, None, None) == Green
  {
    BetterIsYellow();
    WorseIsGreen();
    PanelNoBetter(0.3, 0.3, -0.4, -0.4, 0.5, 0.5, -0.4, -0.4);
  }

  lemma PanelNoBetter(s: real, t: real, d: real, a: real, self: real, tribal: real, domain: real, authority: real)
    requires s <= self && t <= tribal && d <= domain && a <= authority
    requires AllFlags(Panel(self, tribal, domain, authority)) == []
    ensures NoBetter(Panel(s, t, d, a), Panel(self, tribal, domain, authority))
  {
  }

  lemma BetterIsYellow()
    ensures AllFlags(Panel(0.5, 0.5, -0.4, -0.4)) == [] && FinalTier(Panel(0.5, 0.5, -0.4, -0.4), None, None) == Yellow
  {
    PanelDecision(0.5, 0.5, -0.4, -0.4);
    FourPairs(0.5, 0.5, -0.4, -0.4);
  }

  lemma WorseIsGreen()
    ensures FinalTier(Panel(0.3, 0.3, -0.4, -0.4), None, None) == Green
  {
    PanelDecision(0.3, 0.3, -0.4, -0.4);
    FourPairs(0.3, 0.3, -0.4, -0.4);
  }

  /** What decides the tier of a flagless panel with at most two severe scores under the defaults. */
  lemma PanelDecision(self: real, tribal: real, domain: real, authority: real)
    requires self > -0.5 && tribal > -0.5
    ensures var p := Panel(self, tribal, domain, authority);
            && AllFlags(p) == []
            && FinalTier(p, None, None) ==
               Decide(false, ScoreToTier(0.20 * self + 0.40 * tribal + 0.25 * domain + 0.15 * authority, DEFAULT_THRESHOLDS),
                      PairCount([self, tribal, domain, authority]) >= 2, None, None)
  {
    PanelSums(self, tribal, domain, authority, DEFAULT_WEIGHTS);
    DefaultScore(Panel(self, tribal, domain, authority));
  }

  /** The classifier's sums for a flagless panel, written out. */
  lemma PanelSums(self: real, tribal: real, domain: real, authority: real, weights: map<string, real>)
    ensures var p := Panel(self, tribal, domain, authority);
            && AllFlags(p) == []
            && SevereCount(p) == (if self <= -0.5 then 1 else 0) + (if tribal <= -0.5 then 1 else 0)
                                 + (if domain <= -0.5 then 1 else 0) + (if authority <= -0.5 then 1 else 0)
            && Total(p, weights) == Contribution(p[0], weights) + Contribution(p[1], weights)
                                    + Contribution(p[2], weights) + Contribution(p[3], weights)
            && WeightSum(p, weights) == Weight(weights, "self_interest") + Weight(weights, "tribal")
                                        + Weight(weights, "domain") + Weight(weights, "authority")
            && Scores(p) == [self, tribal, domain, authority]
  {
    FourSums(Panel(self, tribal, domain, authority), weights);
  }

  /** The classifier's folds over any four results, written out. */
  lemma FourSums(p: seq<EvaluatorResult>, weights: map<string, real>)
    requires |p| == 4
    ensures AllFlags(p) ==
            Iterated(p[0].flags) + (Iterated(p[1].flags) + (Iterated(p[2].flags) + Iterated(p[3].flags)))
    ensures SevereCount(p) == (if p[0].score <= -0.5 then 1 else 0) + (if p[1].score <= -0.5 then 1 else 0)
                              + (if p[2].score <= -0.5 then 1 else 0) + (if p[3].score <= -0.5 then 1 else 0)
    ensures Total(p, weights) == Contribution(p[0], weights) + Contribution(p[1], weights)
                                 + Contribution(p[2], weights) + Contribution(p[3], weights)
    ensures WeightSum(p, weights) == Weight(weights, p[0].evaluatorName) + Weight(weights, p[1].evaluatorName)
                                     + Weight(weights, p[2].evaluatorName) + Weight(weights, p[3].evaluatorName)
    ensures Scores(p) == [p[0].score, p[1].score, p[2].score, p[3].score]
  {
    var p3, p2, p1 := p[3..], p[2..], p[1..];
    assert p3 == [p[3]] + [] && p2 == [p[2]] + p3 && p1 == [p[1]] + p2 && p == [p[0]] + p1;
    Cons(p[3], [], weights);
    Cons(p[2], p3, weights);
    Cons(p[1], p2, weights);
    Cons(p[0], p1, weights);
  }

  /** Every fold of the classifier on a panel with one more evaluator in front. */
  lemma Cons(r: EvaluatorResult, rest: seq<EvaluatorResult>, weights: map<string, real>)
    ensures AllFlags([r] + rest) == Iterated(r.flags) + AllFlags(rest)
    ensures SevereCount([r] + rest) == (if r.score <= -0.5 then 1 else 0) + SevereCount(rest)
    ensures Total([r] + rest, weights) == Contribution(r, weights) + Total(rest, weights)
    ensures WeightSum([r] + rest, weights) == Weight(weights, r.evaluatorName) + WeightSum(rest, weights)
  {
    assert ([r] + rest)[1..] == rest;
  }

  lemma FourPairs(a: real, b: real, c: real, d: real)
    ensures PairCount([a, b, c, d]) ==
            (if Apart(a, b) then 1 else 0) + (if Apart(a, c) then 1 else 0) + (if Apart(a, d) then 1 else 0)
            + (if Apart(b, c) then 1 else 0) + (if Apart(b, d) then 1 else 0) + (if Apart(c, d) then 1 else 0)
  {
    assert [a, b, c, d][1..] == [b, c, d] && [b, c, d][1..] == [c, d] && [c, d][1..] == [d] && [d][1..] == [];
    assert forall x :: Against(x, [d]) == if Apart(x, d) then 1 else 0;
    assert forall x :: Against(x, [c, d]) == (if Apart(x, c) then 1 else 0) + Against(x, [d]);
    assert PairCount([d]) == 0;
    assert PairCount([c, d]) == Against(c, [d]);
    assert PairCount([b, c, d]) == Against(b, [c, d]) + PairCount([c, d]);
    assert Against(a, [b, c, d]) == (if Apart(a, b) then 1 else 0) + Against(a, [c, d]);
  }
}
