/**
  The evaluation panel around the language model: reading a reply, and the
  flag/score rules that the tribal, domain and authority evaluators enforce on it.
  */
module Evaluators {
  import opened Core

  /** A model reply: text that holds no JSON object, or an object whose fields may be missing or of any type. */
  datatype Reply =
    | Malformed
    | Reply(score: Option<Value>, confidence: Option<Value>, flags: Option<Value>)

  function FlagsOf(reply: Reply): Value
    requires reply.Reply?
  {
    reply.flags.GetOr(NOTHING)
  }

  /** A missing field, or a number or truth value in it. */
  predicate Numeric(field: Option<Value>) {
    field.None? || field.value.Integer? || field.value.Number? || field.value.Boolean?
  }

  /** The reply lets its evaluator get as far as a result. */
  predicate Readable(reply: Reply) {
    reply.Reply? && Numeric(reply.score) && Numeric(reply.confidence) && Iterable(FlagsOf(reply))
  }

  /**
    Reading a reply. Flags that cannot be iterated are refused here; the code raises at the first
    test of a flag or when it collects the flags, which aborts the panel all the same.
    */
  function Parse(name: string, reply: Reply): (r: Option<EvaluatorResult>)
    ensures r.Some? <==> Readable(reply)
    ensures r.Some? ==> -1.0 <= r.value.score <= 1.0 && 0.0 <= r.value.confidence <= 1.0
  {
    if !Readable(reply) then None
    else Some(EvaluatorResult(name,
                              Clamp(AsNumber(reply.score.GetOr(Number(0.0))).value, -1.0, 1.0),
                              Clamp(AsNumber(reply.confidence.GetOr(Number(0.5))).value, 0.0, 1.0),
                              FlagsOf(reply)))
  }

  /** The number that a field stands for: an integer or a number itself, a truth value 1 or 0, and nothing the default. */
  predicate StandsFor(field: Option<Value>, default: real, x: real) {
    match field
    case None => x == default
    case Some(Integer(i)) => x == i as real
    case Some(Number(r)) => x == r
    case Some(Boolean(b)) => x == if b then 1.0 else 0.0
    case Some(_) => false
  }

  /** The number x brought into an interval. */
  predicate BroughtInto(x: real, lo: real, hi: real, y: real) {
    (x < lo && y == lo) || (lo <= x <= hi && y == x) || (x > hi && y == hi)
  }

  /** A result is the reply as it came: its name, its numbers brought into their ranges, and its flags. */
  lemma ParseMeaning(name: string, reply: Reply, score: real, confidence: real)
    requires Readable(reply) && StandsFor(reply.score, 0.0, score) && StandsFor(reply.confidence, 0.5, confidence)
    ensures var r := Parse(name, reply);
            && r.Some? && r.value.evaluatorName == name
            && BroughtInto(score, -1.0, 1.0, r.value.score)
            && BroughtInto(confidence, 0.0, 1.0, r.value.confidence)
            && r.value.flags == (if reply.flags.Some? then reply.flags.value else Array([]))
  {
  }

  /** Every readable reply stands for some numbers. */
  lemma ReadableStands(reply: Reply) returns (score: real, confidence: real)
    requires Readable(reply)
    ensures StandsFor(reply.score, 0.0, score) && StandsFor(reply.confidence, 0.5, confidence)
  {
    score := AsNumber(reply.score.GetOr(Number(0.0))).value;
    confidence := AsNumber(reply.confidence.GetOr(Number(0.5))).value;
  }

  /** One enforcement rule of an evaluator. */
  datatype Rule =
    | Cap(flag: string, cap: real)
    | NegativeWhenFlagged
    | VetoWhenCatastrophic

  const CATASTROPHIC_SCORE := -0.8
  const FLAGGED_SCORE := -0.30

  const TRIBAL_RULES := [VetoWhenCatastrophic, Cap("social_engineering", -0.50), Cap("fabricated_claim", -0.50)]
  const DOMAIN_RULES := [Cap("social_engineering", -0.50), Cap("free_item_attempt", -0.70)]
  const AUTHORITY_RULES :=
    [NegativeWhenFlagged, Cap("cross_customer_access", -0.70),
     Cap("social_engineering", -0.70), Cap("fabricated_claim", -0.55)]

  /** Only a list can be appended to; a text or an object raises. */
  function WithVeto(r: EvaluatorResult): Option<EvaluatorResult> {
    if r.flags.Array? then Some(r.(flags := Array(r.flags.items + [VETO]))) else None
  }

  /** One rule on a result, or on nothing after an exception. */
  function Apply(rule: Rule, result: Option<EvaluatorResult>): Option<EvaluatorResult> {
    match result
    case None => None
    case Some(r) =>
      match rule
      case Cap(flag, cap) => if Has(r.flags, flag) && r.score > cap then Some(r.(score := cap)) else result
      case NegativeWhenFlagged =>
        if Iterated(r.flags) != [] && r.score >= 0.0 then Some(r.(score := FLAGGED_SCORE)) else result
      case VetoWhenCatastrophic =>
        if r.score <= CATASTROPHIC_SCORE && !Has(r.flags, CATASTROPHIC) then WithVeto(r) else result
  }

  function Enforce(rules: seq<Rule>, result: Option<EvaluatorResult>): Option<EvaluatorResult> {
    if rules == [] then result else Enforce(rules[1..], Apply(rules[0], result))
  }

  function Enforced(name: string, rules: seq<Rule>, reply: Reply): Option<EvaluatorResult> {
    Enforce(rules, Parse(name, reply))
  }

  method EvaluateSelfInterest(reply: Reply) returns (r: Option<EvaluatorResult>)
    ensures r == Enforced("self_interest", [], reply)
  {
    r := Parse("self_interest", reply);
  }

  method EvaluateTribal(reply: Reply) returns (r: Option<EvaluatorResult>)
    ensures r == Enforced("tribal", TRIBAL_RULES, reply)
  {
    r := Parse("tribal", reply);
    Unroll(TRIBAL_RULES, r);
    if r.None? {
      return;
    }
    var flags, score := r.value.flags, r.value.score;
    if score <= CATASTROPHIC_SCORE && !Has(flags, CATASTROPHIC) {
      if !flags.Array? {
        return None;
      }
      flags := Array(flags.items + [VETO]);
    }
    if Has(flags, "social_engineering") && score > -0.50 {
      score := -0.50;
    }
    if Has(flags, "fabricated_claim") && score > -0.50 {
      score := -0.50;
    }
    r := Some(r.value.(score := score, flags := flags));
  }

  method EvaluateDomain(reply: Reply) returns (r: Option<EvaluatorResult>)
    ensures r == Enforced("domain", DOMAIN_RULES, reply)
  {
    r := Parse("domain", reply);
    Unroll(DOMAIN_RULES, r);
    if r.None? {
      return;
    }
    var flags, score := r.value.flags, r.value.score;
    if Has(flags, "social_engineering") && score > -0.50 {
      score := -0.50;
    }
    if Has(flags, "free_item_attempt") && score > -0.70 {
      score := -0.70;
    }
    r := Some(r.value.(score := score));
  }

  method EvaluateAuthority(reply: Reply) returns (r: Option<EvaluatorResult>)
    ensures r == Enforced("authority", AUTHORITY_RULES, reply)
  {
    r := Parse("authority", reply);
    Unroll(AUTHORITY_RULES, r);
    if r.None? {
      return;
    }
    var flags, score := r.value.flags, r.value.score;
    if Iterated(flags) != [] && score >= 0.0 {
      score := FLAGGED_SCORE;
    }
    if Has(flags, "cross_customer_access") && score > -0.70 {
      score := -0.70;
    }
    if Has(flags, "social_engineering") && score > -0.70 {
      score := -0.70;
    }
    if Has(flags, "fabricated_claim") && score > -0.55 {
      score := -0.55;
    }
    r := Some(r.value.(score := score));
  }

  /** Up to four rules, one application after another. */
  lemma Unroll(rules: seq<Rule>, r: Option<EvaluatorResult>)
    requires 2 <= |rules| <= 4
    ensures Enforce(rules, r) ==
            var two := Apply(rules[1], Apply(rules[0], r));
            var three := if |rules| > 2 then Apply(rules[2], two) else two;
            if |rules| > 3 then Apply(rules[3], three) else three
  {
    var r1 := Apply(rules[0], r);
    var r2 := Apply(rules[1], r1);
    assert Enforce(rules, r) == Enforce(rules[1..], r1);
    assert rules[1..][1..] == rules[2..] && Enforce(rules[1..], r1) == Enforce(rules[2..], r2);
    if |rules| > 2 {
      assert rules[2..][1..] == rules[3..] && Enforce(rules[2..], r2) == Enforce(rules[3..], Apply(rules[2], r2));
    }
  }

  /*** The panel ***/

  datatype Replies = Replies(selfInterest: Reply, tribal: Reply, domain: Reply, authority: Reply)

  /** All four results in panel order, or nothing when one evaluator raises. */
  function PanelResults(replies: Replies): Option<seq<EvaluatorResult>> {
    var s := Enforced("self_interest", [], replies.selfInterest);
    var t := Enforced("tribal", TRIBAL_RULES, replies.tribal);
    var d := Enforced("domain", DOMAIN_RULES, replies.domain);
    var a := Enforced("authority", AUTHORITY_RULES, replies.authority);
    if s.None? || t.None? || d.None? || a.None? then None
    else Some([s.value, t.value, d.value, a.value])
  }

  method RunPanel(replies: Replies) returns (results: Option<seq<EvaluatorResult>>)
    ensures results == PanelResults(replies)
  {
    var s := EvaluateSelfInterest(replies.selfInterest);
    var t := EvaluateTribal(replies.tribal);
    var d := EvaluateDomain(replies.domain);
    var a := EvaluateAuthority(replies.authority);
    if s.None? || t.None? || d.None? || a.None? {
      return None;
    }
    return Some([s.value, t.value, d.value, a.value]);
  }

  /*** Enforcement laws, for any list of admissible rules ***/

  /** A cap below the flagged score, above the veto score, and not tied to the veto flag itself. */
  predicate Admissible(rule: Rule) {
    rule.Cap? ==> rule.flag != CATASTROPHIC && CATASTROPHIC_SCORE < rule.cap <= FLAGGED_SCORE
  }

  predicate AllAdmissible(rules: seq<Rule>) {
    forall i :: 0 <= i < |rules| ==> Admissible(rules[i])
  }

  lemma EvaluatorRulesAdmissible()
    ensures AllAdmissible(TRIBAL_RULES) && AllAdmissible(DOMAIN_RULES) && AllAdmissible(AUTHORITY_RULES)
  {
  }

  lemma {:induction false} NothingStays(rules: seq<Rule>)
    ensures Enforce(rules, None) == None
  {
    if rules != [] {
      NothingStays(rules[1..]);
    }
  }

  /** The flags only grow, for tests and for iteration. */
  ghost predicate Grown(before: Container, after: Container) {
    && (forall flag :: Has(before, flag) ==> Has(after, flag))
    && (forall flag :: flag in Iterated(before) ==> flag in Iterated(after))
  }

  /** Enforcement only lowers the score, within [-1, 1], and only adds flags. */
  lemma {:induction false} EnforceLowers(rules: seq<Rule>, r: EvaluatorResult)
    requires AllAdmissible(rules)
    ensures Enforce(rules, Some(r)).Some? ==>
              var e := Enforce(rules, Some(r)).value;
              && e.score <= r.score
              && (-1.0 <= r.score <= 1.0 ==> -1.0 <= e.score <= 1.0)
              && Grown(r.flags, e.flags)
              && e.evaluatorName == r.evaluatorName && e.confidence == r.confidence
  {
    if rules != [] {
      var next := Apply(rules[0], Some(r));
      if next.None? {
        NothingStays(rules[1..]);
      } else {
        ApplyLowers(rules[0], r);
        EnforceLowers(rules[1..], next.value);
      }
    }
  }

  lemma ApplyLowers(rule: Rule, r: EvaluatorResult)
    requires Admissible(rule) && Apply(rule, Some(r)).Some?
    ensures var e := Apply(rule, Some(r)).value;
            && e.score <= r.score
            && (-1.0 <= r.score <= 1.0 ==> -1.0 <= e.score <= 1.0)
            && Grown(r.flags, e.flags)
            && e.evaluatorName == r.evaluatorName && e.confidence == r.confidence
  {
  }

  lemma ApplyCommutes(a: Rule, b: Rule, r: Option<EvaluatorResult>)
    requires Admissible(a) && Admissible(b)
    ensures Apply(a, Apply(b, r)) == Apply(b, Apply(a, r))
  {
  }

  lemma {:induction false} EnforceFront(rules: seq<Rule>, i: nat, r: Option<EvaluatorResult>)
    requires AllAdmissible(rules) && i < |rules|
    ensures Enforce(rules, r) == Enforce(Without(rules, i), Apply(rules[i], r))
  {
    if i == 0 {
      assert Without(rules, i) == rules[1..];
    } else {
      EnforceFront(rules[1..], i - 1, Apply(rules[0], r));
      ApplyCommutes(rules[i], rules[0], r);
      assert Without(rules, i) == [rules[0]] + Without(rules[1..], i - 1);
      assert Without(rules, i)[1..] == Without(rules[1..], i - 1);
    }
  }

  /** The order in which an evaluator applies its rules does not matter, not even for whether it raises. */
  lemma {:induction false} EnforceOrderIrrelevant(s: seq<Rule>, t: seq<Rule>, r: Option<EvaluatorResult>)
    requires AllAdmissible(s) && multiset(s) == multiset(t)
    ensures Enforce(s, r) == Enforce(t, r)
    decreases |s|
  {
    assert AllAdmissible(t) by {
      forall i | 0 <= i < |t| ensures Admissible(t[i]) {
        assert t[i] in multiset(s);
      }
    }
    if s == [] {
      assert |multiset(t)| == 0;
    } else {
      var i := FindHead(s, t);
      EnforceFront(t, i, r);
      EnforceOrderIrrelevant(s[1..], Without(t, i), Apply(s[0], r));
    }
  }

  predicate Settled(rule: Rule, r: Option<EvaluatorResult>) {
    Apply(rule, r) == r
  }

  lemma {:induction false} EnforceSettles(rules: seq<Rule>, r: Option<EvaluatorResult>)
    requires AllAdmissible(rules)
    ensures forall rule :: rule in rules ==> Settled(rule, Enforce(rules, r))
    ensures forall rule :: Admissible(rule) && Settled(rule, r) ==> Settled(rule, Enforce(rules, r))
  {
    if rules != [] {
      var next := Apply(rules[0], r);
      assert Settled(rules[0], next);
      forall rule | Admissible(rule) && Settled(rule, r) ensures Settled(rule, next) {
        ApplyCommutes(rule, rules[0], r);
      }
      EnforceSettles(rules[1..], next);
      forall rule | rule in rules ensures Settled(rule, Enforce(rules, r)) {
        assert rule == rules[0] || rule in rules[1..];
      }
    }
  }

  lemma {:induction false} EnforceSettled(rules: seq<Rule>, r: Option<EvaluatorResult>)
    requires forall rule :: rule in rules ==> Settled(rule, r)
    ensures Enforce(rules, r) == r
  {
    if rules != [] {
      assert rules[0] in rules;
      EnforceSettled(rules[1..], r);
    }
  }

  /** Enforcing twice is enforcing once. */
  lemma EnforceIdempotent(rules: seq<Rule>, r: Option<EvaluatorResult>)
    requires AllAdmissible(rules)
    ensures Enforce(rules, Enforce(rules, r)) == Enforce(rules, r)
  {
    EnforceSettles(rules, r);
    EnforceSettled(rules, Enforce(rules, r));
  }

  /*** What each evaluator ends up with ***/

  /**
    The tribal evaluator raises exactly on a catastrophic score whose flags are no list and lack the
    veto flag. Otherwise the veto flag is there afterwards iff it was, or the score was catastrophic.
    */
  lemma TribalMeaning(r: EvaluatorResult)
    ensures Enforce(TRIBAL_RULES, Some(r)).None? <==>
            r.score <= -0.8 && !r.flags.Array? && !Has(r.flags, CATASTROPHIC)
    ensures Enforce(TRIBAL_RULES, Some(r)).Some? ==>
              var e := Enforce(TRIBAL_RULES, Some(r)).value;
              && e.score == (if (Has(r.flags, "social_engineering") || Has(r.flags, "fabricated_claim")) && r.score > -0.50
                             then -0.50 else r.score)
              && (Has(e.flags, CATASTROPHIC) <==> Has(r.flags, CATASTROPHIC) || r.score <= -0.8)
              && e.flags == (if r.score <= -0.8 && !Has(r.flags, CATASTROPHIC) && r.flags.Array?
                             then Array(r.flags.items + [VETO]) else r.flags)
  {
    Unroll(TRIBAL_RULES, Some(r));
  }

  lemma DomainMeaning(r: EvaluatorResult)
    ensures Enforce(DOMAIN_RULES, Some(r)).Some?
    ensures var e := Enforce(DOMAIN_RULES, Some(r)).value;
            && e.flags == r.flags
            && e.score == (if Has(r.flags, "free_item_attempt") && r.score > -0.70 then -0.70
                           else if Has(r.flags, "social_engineering") && r.score > -0.50 then -0.50
                           else r.score)
  {
    Unroll(DOMAIN_RULES, Some(r));
  }

  /** A raised flag alone does not cap the authority score: it only replaces a non-negative one. */
  lemma AuthorityMeaning(r: EvaluatorResult)
    ensures Enforce(AUTHORITY_RULES, Some(r)).Some?
    ensures var e := Enforce(AUTHORITY_RULES, Some(r)).value;
            var severe := Has(r.flags, "cross_customer_access") || Has(r.flags, "social_engineering");
            && e.flags == r.flags
            && (severe ==> e.score <= -0.70)
            && (Has(r.flags, "fabricated_claim") ==> e.score <= -0.55)
            && (e.score <= -0.30 <==>
                severe || Has(r.flags, "fabricated_claim") || r.score <= -0.30
                || (Iterated(r.flags) != [] && r.score >= 0.0))
            && (e.score == r.score || e.score in {-0.70, -0.55, -0.30})
  {
    Unroll(AUTHORITY_RULES, Some(r));
  }

  lemma FlaggedAuthorityMayStayMild()
    ensures var r := EvaluatorResult("authority", -0.1, 0.5, Array([Text("unverified")]));
            Enforce(AUTHORITY_RULES, Some(r)) == Some(r) && Iterated(r.flags) != [] && r.score > -0.30
  {
    var flags := [Text("unverified")];
    var r := EvaluatorResult("authority", -0.1, 0.5, Array(flags));
    assert flags[0].text == "unverified";
    assert |"unverified"| != |"cross_customer_access"| && |"unverified"| != |"social_engineering"| && |"unverified"| != |"fabricated_claim"|;
    Unroll(AUTHORITY_RULES, Some(r));
  }
}
