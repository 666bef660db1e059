/**
  The deterministic escalation gate: a trigger fires when all of its significant
  keywords occur in the message, now or in an earlier user turn.
  */
module EscalationGate {
  import opened Core
  import opened Strings
  import opened Conversation

  const STOPWORDS := {
    "the", "a", "an", "and", "or", "for", "with", "that", "this", "from", "into", "have", "been", "will",
    "when", "what", "your", "their", "customer", "agent", "claims", "threatens", "requests", "involves",
    "exceeds", "over"
  }
  const MIN_KEYWORD_LENGTH := 4

  datatype EscalationResult = EscalationResult(
    triggered: bool, matchedTrigger: Option<string>, minTier: Tier, inherited: bool)

  const NOT_TRIGGERED := EscalationResult(false, None, Green, false)

  predicate Significant(word: string) {
    |word| >= MIN_KEYWORD_LENGTH && word !in STOPWORDS
  }

  function Keywords(trigger: string): seq<string> {
    Filter(Words(Lower(trigger)))
  }

  function Filter(words: seq<string>): (r: seq<string>)
    ensures forall w :: w in r <==> w in words && Significant(w)
  {
    if words == [] then []
    else (if Significant(words[0]) then [words[0]] else []) + Filter(words[1..])
  }

  predicate Matches(message: string, trigger: string) {
    Keywords(trigger) != [] && forall w | w in Keywords(trigger) :: Contains(Lower(message), w)
  }

  /** The first trigger in configuration order that the message matches. */
  function FirstMatch(message: string, triggers: seq<string>): Option<string> {
    if triggers == [] then None
    else if Matches(message, triggers[0]) then Some(triggers[0])
    else FirstMatch(message, triggers[1..])
  }

  lemma {:induction false} FirstMatchMeaning(message: string, triggers: seq<string>)
    ensures FirstMatch(message, triggers).Some? <==> exists t :: t in triggers && Matches(message, t)
    ensures FirstMatch(message, triggers).Some? ==>
              FirstMatch(message, triggers).value in triggers && Matches(message, FirstMatch(message, triggers).value)
    ensures forall i :: 0 <= i < |triggers| && Matches(message, triggers[i])
                        && (forall j :: 0 <= j < i ==> !Matches(message, triggers[j])) ==>
              FirstMatch(message, triggers) == Some(triggers[i])
  {
    if triggers != [] {
      FirstMatchMeaning(message, triggers[1..]);
      if t :| t in triggers && Matches(message, t) {
        assert t == triggers[0] || t in triggers[1..];
      }
    }
  }

  function TriggerTier(trigger: string, hat: HatConfig): Tier {
    if trigger in hat.triggerSeverity then hat.triggerSeverity[trigger] else Orange
  }

  function Fired(trigger: string, hat: HatConfig, inherited: bool): EscalationResult {
    EscalationResult(true, Some(trigger), TriggerTier(trigger, hat), inherited)
  }

  /** FirstMatch as a function of the message. */
  function Matcher(triggers: seq<string>): string -> Option<string> {
    message => FirstMatch(message, triggers)
  }

  function CheckEscalation(message: string, hat: HatConfig, history: seq<Turn>): EscalationResult {
    if hat.triggers == [] then NOT_TRIGGERED
    else
      match FirstMatch(message, hat.triggers)
      case Some(t) => Fired(t, hat, false)
      case None =>
        match FirstInherited(history, Matcher(hat.triggers))
        case Some(t) => Fired(t, hat, true)
        case None => NOT_TRIGGERED
  }

  /*** Matching ***/

  /** Text around a matching message never hides the match. */
  lemma MatchSurvivesContext(before: string, message: string, after: string, trigger: string)
    requires Matches(message, trigger)
    ensures Matches(before + message + after, trigger)
  {
    LowerConcat(before, message);
    LowerConcat(before + message, after);
    forall w | w in Keywords(trigger) ensures Contains(Lower(before + message + after), w) {
      ContainsWider(Lower(before), Lower(message), Lower(after), w);
    }
  }

  /** A match needs every significant word of the trigger, and at least one such word. */
  lemma MatchesMeaning(message: string, trigger: string)
    ensures Matches(message, trigger) <==>
            && (exists w :: w in Words(Lower(trigger)) && |w| >= 4 && w !in STOPWORDS)
            && (forall w :: w in Words(Lower(trigger)) && |w| >= 4 && w !in STOPWORDS ==> Contains(Lower(message), w))
  {
    if Keywords(trigger) != [] {
      assert Keywords(trigger)[0] in Keywords(trigger);
    }
  }

  /** Letter case is ignored on both sides. */
  lemma MatchIgnoresCase(message: string, otherMessage: string, trigger: string, otherTrigger: string)
    requires SameButCase(message, otherMessage) && SameButCase(trigger, otherTrigger)
    ensures Matches(message, trigger) == Matches(otherMessage, otherTrigger)
  {
    LowerForgetsCase(message, otherMessage);
    LowerForgetsCase(trigger, otherTrigger);
  }

  /** Quoting a trigger fires it exactly when it has a significant keyword. */
  lemma TriggerMatchesItself(trigger: string)
    ensures Matches(trigger, trigger) <==> exists w :: w in Words(Lower(trigger)) && Significant(w)
  {
    forall w | w in Keywords(trigger) ensures Contains(Lower(trigger), w) {
      WordsAreParts(Lower(trigger), w);
    }
    if Keywords(trigger) != [] {
      assert Keywords(trigger)[0] in Keywords(trigger);
    }
  }

  /*** Conversations ***/

  /** The gate's answer at turn k of the conversation. */
  function AtTurn(exchanges: seq<Exchange>, k: nat, hat: HatConfig): EscalationResult
    requires k < |exchanges|
  {
    CheckEscalation(exchanges[k].user, hat, History(exchanges[..k]))
  }

  lemma AtTurnMeaning(exchanges: seq<Exchange>, k: nat, hat: HatConfig)
    requires k < |exchanges|
    ensures var f := Matcher(hat.triggers);
            AtTurn(exchanges, k, hat) ==
            if f(exchanges[k].user).Some? then Fired(f(exchanges[k].user).value, hat, false)
            else if FirstInherited(History(exchanges[..k]), f).Some?
            then Fired(FirstInherited(History(exchanges[..k]), f).value, hat, true)
            else NOT_TRIGGERED
  {
    if hat.triggers == [] {
      assert forall m :: Matcher(hat.triggers)(m) == FirstMatch(m, []);
      InheritedIsEarliest(exchanges[..k], Matcher(hat.triggers));
    }
  }

  /** The gate is triggered at turn k iff some user text up to then matches some trigger. */
  lemma TriggeredIff(exchanges: seq<Exchange>, k: nat, hat: HatConfig)
    requires k < |exchanges|
    ensures AtTurn(exchanges, k, hat).triggered <==>
            exists i, t :: 0 <= i <= k && t in hat.triggers && Matches(exchanges[i].user, t)
  {
    var f := Matcher(hat.triggers);
    AtTurnMeaning(exchanges, k, hat);
    InheritedIsEarliest(exchanges[..k], f);
    TriggeredSomewhere(exchanges, k, f);
    if AtTurn(exchanges, k, hat).triggered {
      var i :| 0 <= i <= k && f(exchanges[i].user).Some?;
      FirstMatchMeaning(exchanges[i].user, hat.triggers);
    }
    if i, t :| 0 <= i <= k && t in hat.triggers && Matches(exchanges[i].user, t) {
      FirstMatchMeaning(exchanges[i].user, hat.triggers);
      assert f(exchanges[i].user).Some?;
    }
  }

  lemma TriggeredSomewhere(exchanges: seq<Exchange>, k: nat, f: string -> Option<string>)
    requires k < |exchanges|
    ensures f(exchanges[k].user).Some? || FirstInherited(History(exchanges[..k]), f).Some? <==>
            exists i :: 0 <= i <= k && f(exchanges[i].user).Some?
  {
    var past := exchanges[..k];
    InheritedIsEarliest(past, f);
    if FirstInherited(History(past), f).Some? {
      var i :| 0 <= i < k && f(past[i].user).Some?;
      assert f(exchanges[i].user).Some?;
    }
    if i :| 0 <= i <= k && f(exchanges[i].user).Some? {
      assert i == k || f(past[i].user).Some?;
    }
  }

  /** Once triggered, a conversation stays triggered. */
  lemma EscalationSticky(exchanges: seq<Exchange>, j: nat, k: nat, hat: HatConfig)
    requires j <= k < |exchanges| && AtTurn(exchanges, j, hat).triggered
    ensures AtTurn(exchanges, k, hat).triggered
  {
    TriggeredIff(exchanges, j, hat);
    TriggeredIff(exchanges, k, hat);
    var i, t :| 0 <= i <= j && t in hat.triggers && Matches(exchanges[i].user, t);
    assert i <= k;
  }

  /** Turn e is the first whose user text matches a trigger. */
  predicate Earliest(exchanges: seq<Exchange>, e: nat, hat: HatConfig)
    requires e < |exchanges|
  {
    IsEarliest(exchanges, e, Matcher(hat.triggers))
  }

  /** A later turn that does not match inherits trigger and tier of the earliest matching turn. */
  lemma InheritsEarliest(exchanges: seq<Exchange>, e: nat, k: nat, hat: HatConfig)
    requires e < k < |exchanges| && Earliest(exchanges, e, hat) && FirstMatch(exchanges[k].user, hat.triggers).None?
    ensures AtTurn(exchanges, k, hat) == Fired(FirstMatch(exchanges[e].user, hat.triggers).value, hat, true)
  {
    var f := Matcher(hat.triggers);
    AtTurnMeaning(exchanges, k, hat);
    InheritedIsEarliest(exchanges[..k], f);
    assert IsEarliest(exchanges[..k], e, f);
  }

  /**
    The floor of a later turn is at least that of the earliest matching turn, except when the
    later turn matches a milder trigger itself: the current message takes precedence.
    */
  lemma FloorKeptIff(exchanges: seq<Exchange>, e: nat, k: nat, hat: HatConfig)
    requires e < k < |exchanges| && Earliest(exchanges, e, hat)
    ensures var now, before := FirstMatch(exchanges[k].user, hat.triggers), FirstMatch(exchanges[e].user, hat.triggers);
            AtTurn(exchanges, k, hat).minTier.Rank() >= AtTurn(exchanges, e, hat).minTier.Rank() <==>
            (now.Some? ==> TriggerTier(now.value, hat).Rank() >= TriggerTier(before.value, hat).Rank())
  {
    AtTurnMeaning(exchanges, e, hat);
    AtTurnMeaning(exchanges, k, hat);
    if FirstMatch(exchanges[k].user, hat.triggers).None? {
      InheritsEarliest(exchanges, e, k, hat);
    }
  }

  /** A long word of lower-case letters, as a trigger, is matched by exactly the messages that contain it. */
  lemma WordTrigger(message: string, word: string)
    requires |word| >= 10 && LowerLetters(word)
    ensures Matches(message, word) <==> Contains(Lower(message), word)
  {
    OneWord(word);
    assert Significant(word);
    assert [word][1..] == [] && Filter([]) == [];
    assert Filter([word]) == [word] + Filter([word][1..]);
  }

  /** Each of two trigger words is matched by itself, the longer one first in the configuration. */
  lemma TwoWords(first: string, second: string)
    requires LowerLetters(first) && LowerLetters(second) && 10 <= |second| < |first|
    ensures FirstMatch(first, [first, second]) == Some(first)
    ensures FirstMatch(second, [first, second]) == Some(second)
  {
    OneWord(first);
    OneWord(second);
    WordTrigger(first, first);
    WordTrigger(second, first);
    WordTrigger(second, second);
    assert OccursAt(first, first, 0) && OccursAt(second, second, 0);
    assert [first, second][1..] == [second];
    assert FirstMatch(second, [second]) == Some(second);
  }

  const SEVERE := "discrimination"
  const MILD := "chargeback"

  /** A RED trigger in the first turn and a default one, hence ORANGE, in the second. */
  predicate TwoTriggers(hat: HatConfig) {
    hat.triggers == [SEVERE, MILD] && hat.triggerSeverity == map[SEVERE := Red]
  }

  const SEVERE_THEN_MILD := [Exchange(SEVERE, "noted"), Exchange(MILD, "noted")]

  /** A milder match of its own takes the floor of the second turn from RED to ORANGE. */
  lemma FloorDrops(hat: HatConfig)
    requires TwoTriggers(hat)
    ensures Earliest(SEVERE_THEN_MILD, 0, hat)
    ensures AtTurn(SEVERE_THEN_MILD, 0, hat) == EscalationResult(true, Some(SEVERE), Red, false)
    ensures AtTurn(SEVERE_THEN_MILD, 1, hat) == EscalationResult(true, Some(MILD), Orange, false)
  {
    assert |MILD| != |SEVERE|;
    TwoWords(SEVERE, MILD);
    AtTurnMeaning(SEVERE_THEN_MILD, 0, hat);
    AtTurnMeaning(SEVERE_THEN_MILD, 1, hat);
  }
}
