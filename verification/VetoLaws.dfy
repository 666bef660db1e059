/** What one evaluator, or three together, can force on the classifier, whatever everything else says. */
module VetoLaws {
  import opened Core
  import opened Strings
  import opened RiskClassifier
  import opened RiskLaws
  import opened Evaluators

  /** The evaluators in panel order. */
  datatype Seat = SelfInterest | Tribal | Domain | Authority {
    function Index(): nat {
      match this
      case SelfInterest => 0
      case Tribal => 1
      case Domain => 2
      case Authority => 3
    }
  }

  function ResultAt(seat: Seat, reply: Reply): Option<EvaluatorResult> {
    match seat
    case SelfInterest => Enforced("self_interest", [], reply)
    case Tribal => Enforced("tribal", TRIBAL_RULES, reply)
    case Domain => Enforced("domain", DOMAIN_RULES, reply)
    case Authority => Enforced("authority", AUTHORITY_RULES, reply)
  }

  /** The replies with one of them replaced. */
  function Seated(replies: Replies, seat: Seat, reply: Reply): Replies {
    match seat
    case SelfInterest => replies.(selfInterest := reply)
    case Tribal => replies.(tribal := reply)
    case Domain => replies.(domain := reply)
    case Authority => replies.(authority := reply)
  }

  /** The panel refuses, or one of its evaluators raises and aborts the pass. */
  predicate RedOrAborted(replies: Replies, hat: Option<HatConfig>, minTier: Option<Tier>) {
    PanelResults(replies).Some? ==> FinalTier(PanelResults(replies).value, hat, minTier) == Red
  }

  /** This one reply settles the matter for all other replies, weights, thresholds and floors. */
  ghost predicate Settles(seat: Seat, reply: Reply) {
    forall replies: Replies, hat: Option<HatConfig>, minTier: Option<Tier> ::
      RedOrAborted(Seated(replies, seat, reply), hat, minTier)
  }

  /** The score field holds a number at or below -0.8; for an integer that is -1 or less. */
  predicate CatastrophicScore(reply: Reply) {
    && reply.Reply?
    && match reply.score
       case Some(Integer(i)) => i <= -1
       case Some(Number(r)) => r <= -0.8
       case _ => false
  }

  lemma ScoreIsCatastrophic(name: string, reply: Reply)
    requires Readable(reply)
    ensures Parse(name, reply).value.score <= CATASTROPHIC_SCORE <==> CatastrophicScore(reply)
  {
    var score, confidence := ReadableStands(reply);
    ParseMeaning(name, reply, score, confidence);
  }

  predicate Flagged(reply: Reply, flag: string) {
    Readable(reply) && Has(FlagsOf(reply), flag)
  }

  predicate Catastrophic(seat: Seat, reply: Reply) {
    seat.Tribal? && CatastrophicScore(reply)
  }

  /**
    The condition, on the reply as it came: the veto flag in a list or an object, or a catastrophic
    tribal score, unless the flags are a text. Flags in a text are lost when its characters are
    collected; a catastrophic score then only counts if the text lacks the veto flag, so that
    appending the flag to the text raises.
    */
  predicate Vetoes(seat: Seat, reply: Reply)
    requires Readable(reply)
  {
    var flags: Container := FlagsOf(reply);
    if flags.Text? then Catastrophic(seat, reply) && !Has(flags, CATASTROPHIC)
    else Catastrophic(seat, reply) || Has(flags, CATASTROPHIC)
  }

  lemma {:induction false} FlagReaches(results: seq<EvaluatorResult>, i: nat, flag: Value)
    requires i < |results| && flag in Iterated(results[i].flags)
    ensures flag in AllFlags(results)
  {
    if i > 0 {
      FlagReaches(results[1..], i - 1, flag);
    }
  }

  /** A vetoing reply puts the veto flag where the classifier sees it, or raises. */
  lemma VetoIsRaised(seat: Seat, reply: Reply)
    requires Readable(reply)
    ensures ResultAt(seat, reply).None? ==> Vetoes(seat, reply)
    ensures ResultAt(seat, reply).Some? ==>
              (VETO in Iterated(ResultAt(seat, reply).value.flags) <==> Vetoes(seat, reply))
  {
    var r := Parse("", reply).value;
    match seat
    case SelfInterest => HasMeaning(r.flags, CATASTROPHIC);
    case Tribal =>
      TribalMeaning(Parse("tribal", reply).value);
      ScoreIsCatastrophic("tribal", reply);
      if ResultAt(seat, reply).Some? {
        HasMeaning(ResultAt(seat, reply).value.flags, CATASTROPHIC);
        assert |CATASTROPHIC| == 17;
      }
    case Domain =>
      DomainMeaning(Parse("domain", reply).value);
      HasMeaning(r.flags, CATASTROPHIC);
    case Authority =>
      AuthorityMeaning(Parse("authority", reply).value);
      HasMeaning(r.flags, CATASTROPHIC);
  }

  const NEUTRAL_REPLY := Reply(None, None, None)
  const NEUTRAL_REPLIES := Replies(NEUTRAL_REPLY, NEUTRAL_REPLY, NEUTRAL_REPLY, NEUTRAL_REPLY)

  predicate Silent(r: EvaluatorResult) {
    r.score == 0.0 && Iterated(r.flags) == []
  }

  lemma NeutralIsSilent(seat: Seat)
    ensures ResultAt(seat, NEUTRAL_REPLY).Some? && Silent(ResultAt(seat, NEUTRAL_REPLY).value)
  {
    Unroll(TRIBAL_RULES, Parse("tribal", NEUTRAL_REPLY));
    Unroll(DOMAIN_RULES, Parse("domain", NEUTRAL_REPLY));
    Unroll(AUTHORITY_RULES, Parse("authority", NEUTRAL_REPLY));
  }

  lemma ResultInRange(seat: Seat, reply: Reply)
    requires ResultAt(seat, reply).Some?
    ensures ResultAt(seat, reply).value.evaluatorName == NAMES[seat.Index()]
    ensures -1.0 <= ResultAt(seat, reply).value.score <= 1.0
  {
    EvaluatorRulesAdmissible();
    NothingStays(TRIBAL_RULES);
    NothingStays(DOMAIN_RULES);
    NothingStays(AUTHORITY_RULES);
    if Readable(reply) {
      EnforceLowers(TRIBAL_RULES, Parse("tribal", reply).value);
      EnforceLowers(DOMAIN_RULES, Parse("domain", reply).value);
      EnforceLowers(AUTHORITY_RULES, Parse("authority", reply).value);
    }
  }

  /** One voice without the veto flag cannot bring the other three, who are silent, to RED. */
  lemma OneVoice(p: seq<EvaluatorResult>, i: nat)
    requires FullPanel(p) && i < 4
    requires forall j :: 0 <= j < 4 && j != i ==> Silent(p[j])
    requires -1.0 <= p[i].score <= 1.0 && VETO !in Iterated(p[i].flags)
    ensures FinalTier(p, None, None) != Red
  {
    FourSums(p, DEFAULT_WEIGHTS);
    DefaultScore(p);
    assert WeightedScore(p, None) >= -0.4;
  }

  /** The panel, seat by seat. */
  lemma SeatedPanel(replies: Replies, seat: Seat, reply: Reply)
    ensures var all := Seated(replies, seat, reply);
            var s, t, d, a := ResultAt(SelfInterest, all.selfInterest), ResultAt(Tribal, all.tribal),
                              ResultAt(Domain, all.domain), ResultAt(Authority, all.authority);
            && (PanelResults(all).Some? <==> s.Some? && t.Some? && d.Some? && a.Some?)
            && (PanelResults(all).Some? ==> PanelResults(all).value == [s.value, t.value, d.value, a.value])
  {
  }

  /** With neutral replies around it, a result is the only voice of a full panel. */
  lemma NeutralPanelIsSilent(seat: Seat, reply: Reply)
    requires ResultAt(seat, reply).Some?
    ensures var panel := PanelResults(Seated(NEUTRAL_REPLIES, seat, reply));
            && panel.Some? && FullPanel(panel.value)
            && panel.value[seat.Index()] == ResultAt(seat, reply).value
            && forall i :: 0 <= i < 4 && i != seat.Index() ==> Silent(panel.value[i])
  {
    hide ResultAt, PanelResults, Silent;
    ResultInRange(seat, reply);
    forall other: Seat
      ensures ResultAt(other, NEUTRAL_REPLY).Some? && Silent(ResultAt(other, NEUTRAL_REPLY).value)
      ensures ResultAt(other, NEUTRAL_REPLY).value.evaluatorName == NAMES[other.Index()]
    {
      NeutralIsSilent(other);
      ResultInRange(other, NEUTRAL_REPLY);
    }
    SeatedPanel(NEUTRAL_REPLIES, seat, reply);
  }

  /** A single reply among neutral ones, without a veto, never gets further than ORANGE. */
  lemma NeutralPanel(seat: Seat, reply: Reply)
    requires Readable(reply) && !Vetoes(seat, reply)
    ensures !RedOrAborted(Seated(NEUTRAL_REPLIES, seat, reply), None, None)
  {
    hide ResultAt, PanelResults, FinalTier, Silent;
    VetoIsRaised(seat, reply);
    ResultInRange(seat, reply);
    NeutralPanelIsSilent(seat, reply);
    OneVoice(PanelResults(Seated(NEUTRAL_REPLIES, seat, reply)).value, seat.Index());
  }

  lemma UnreadableAborts(replies: Replies, seat: Seat, reply: Reply)
    requires !Readable(reply)
    ensures PanelResults(Seated(replies, seat, reply)).None?
  {
    NothingStays(TRIBAL_RULES);
    NothingStays(DOMAIN_RULES);
    NothingStays(AUTHORITY_RULES);
  }

  /** Exactly the unreadable and the vetoing replies settle the matter. */
  lemma SettlesIff(seat: Seat, reply: Reply)
    ensures Settles(seat, reply) <==> !Readable(reply) || Vetoes(seat, reply)
  {
    if !Readable(reply) || Vetoes(seat, reply) {
      forall replies: Replies, hat: Option<HatConfig>, minTier: Option<Tier>
        ensures RedOrAborted(Seated(replies, seat, reply), hat, minTier)
      {
        var panel := PanelResults(Seated(replies, seat, reply));
        if !Readable(reply) {
          UnreadableAborts(replies, seat, reply);
        } else if panel.Some? {
          VetoIsRaised(seat, reply);
          FlagReaches(panel.value, seat.Index(), VETO);
        }
      }
    } else {
      NeutralPanel(seat, reply);
      assert !RedOrAborted(Seated(NEUTRAL_REPLIES, seat, reply), None, None);
    }
  }

  /** The veto flag, given as a text or inside one. */
  predicate HiddenVeto(reply: Reply)
    requires Readable(reply)
  {
    FlagsOf(reply).Text? && Has(FlagsOf(reply), CATASTROPHIC)
  }

  /** A tribal reply at or below -0.8 is RED for everything else, or aborts, iff its flags do not hide the veto in a text. */
  lemma TribalVeto(reply: Reply)
    requires Readable(reply) && CatastrophicScore(reply)
    ensures Settles(Tribal, reply) <==> !HiddenVeto(reply)
  {
    SettlesIff(Tribal, reply);
  }

  /** Any evaluator can raise the veto flag itself, iff its flags are not a text. */
  lemma CatastrophicFlagVeto(seat: Seat, reply: Reply)
    requires Flagged(reply, CATASTROPHIC)
    ensures Settles(seat, reply) <==> !FlagsOf(reply).Text?
  {
    SettlesIff(seat, reply);
  }

  /** A reply with a negative score and no flags. */
  function Scored(score: real): Reply {
    Reply(Some(Number(score)), None, None)
  }

  lemma ScoredResult(seat: Seat, score: real)
    requires -0.8 < score < 0.0
    ensures ResultAt(seat, Scored(score)) == Some(Single(NAMES[seat.Index()], score))
  {
    Unroll(TRIBAL_RULES, Parse("tribal", Scored(score)));
    Unroll(DOMAIN_RULES, Parse("domain", Scored(score)));
    Unroll(AUTHORITY_RULES, Parse("authority", Scored(score)));
  }

  /** Three moderate replies around a tribal one. */
  function Around(tribal: Reply): Replies {
    Replies(Scored(-0.5), tribal, Scored(-0.4), Scored(-0.4))
  }

  /** With the veto hidden in a text, a catastrophic tribal score among moderate ones is ORANGE under the defaults. */
  lemma HiddenVetoIsOrange(reply: Reply)
    requires Readable(reply) && CatastrophicScore(reply) && HiddenVeto(reply)
    ensures PanelResults(Around(reply)).Some?
    ensures FinalTier(PanelResults(Around(reply)).value, None, None) == Orange
  {
    hide FinalTier;
    VetoIsRaised(Tribal, reply);
    ScoreIsCatastrophic("tribal", reply);
    ResultInRange(Tribal, reply);
    TribalMeaning(Parse("tribal", reply).value);
    ScoredResult(SelfInterest, -0.5);
    ScoredResult(Domain, -0.4);
    ScoredResult(Authority, -0.4);
    SeatedPanel(Around(reply), Tribal, reply);
    ModeratePanel(PanelResults(Around(reply)).value);
  }

  lemma ModeratePanel(p: seq<EvaluatorResult>)
    requires FullPanel(p) && p[0].score == -0.5 && p[2].score == p[3].score == -0.4
    requires -1.0 <= p[1].score <= -0.8 && VETO !in Iterated(p[1].flags)
    requires Iterated(p[0].flags) == Iterated(p[2].flags) == Iterated(p[3].flags) == []
    ensures FinalTier(p, None, None) == Orange
  {
    FourSums(p, DEFAULT_WEIGHTS);
    DefaultScore(p);
    FourPairs(p[0].score, p[1].score, p[2].score, p[3].score);
  }

  /** The veto in a text: a tribal score of -1 ends at ORANGE, where the same flag in a list is RED. */
  lemma TextHidesVeto()
    ensures var text, list := Reply(Some(Number(-1.0)), None, Some(VETO)), Reply(Some(Number(-1.0)), None, Some(Array([VETO])));
            && PanelResults(Around(text)).Some? && FinalTier(PanelResults(Around(text)).value, None, None) == Orange
            && PanelResults(Around(list)).Some? && FinalTier(PanelResults(Around(list)).value, None, None) == Red
  {
    var text, list := Reply(Some(Number(-1.0)), None, Some(VETO)), Reply(Some(Number(-1.0)), None, Some(Array([VETO])));
    assert OccursAt(CATASTROPHIC, CATASTROPHIC, 0);
    HiddenVetoIsOrange(text);
    assert [VETO][0] == VETO;
    SettlesIff(Tribal, list);
    assert Seated(Around(list), Tribal, list) == Around(list);
    assert RedOrAborted(Seated(Around(list), Tribal, list), None, None);
    VetoIsRaised(Tribal, list);
    TribalMeaning(Parse("tribal", list).value);
    ScoredResult(SelfInterest, -0.5);
    ScoredResult(Domain, -0.4);
    ScoredResult(Authority, -0.4);
    SeatedPanel(Around(list), Tribal, list);
  }

  /** Social engineering seen by three evaluators is RED, however mild their scores were and however the flags were given. */
  lemma SocialEngineeringVeto(replies: Replies, hat: Option<HatConfig>, minTier: Option<Tier>)
    requires PanelResults(replies).Some?
    requires Flagged(replies.tribal, "social_engineering")
    requires Flagged(replies.domain, "social_engineering")
    requires Flagged(replies.authority, "social_engineering")
    ensures FinalTier(PanelResults(replies).value, hat, minTier) == Red
  {
    TribalMeaning(Parse("tribal", replies.tribal).value);
    DomainMeaning(Parse("domain", replies.domain).value);
    AuthorityMeaning(Parse("authority", replies.authority).value);
    FourSums(PanelResults(replies).value, Weights(hat));
  }
}
