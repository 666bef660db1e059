/**
  The pre-flight parameter gate: candidates whose required parameters are missing,
  empty or placeholders are dropped before any consequence is generated.
  */
module ParameterGate {
  import opened Core
  import opened Strings

  const CORE_PLACEHOLDERS := {"unknown", "tbd", "n/a", "none", "placeholder", "todo", "?", "???"}

  function Placeholders(extra: set<string>): set<string> {
    CORE_PLACEHOLDERS + set p | p in extra :: Lower(Strip(p))
  }

  datatype Failure = Missing(field: string) | Empty(field: string) | Placeholder(field: string, value: string)

  datatype Validation = Validation(candidate: Candidate, passed: bool, failures: seq<Failure>)

  datatype GateResult = GateResult(
    original: seq<Candidate>,
    surviving: seq<Candidate>,
    validations: seq<Validation>,
    promotedConverse: bool)

  /** What is wrong with the value given for a required field, if anything. */
  function FieldFailure(field: string, parameters: Dict, placeholders: set<string>): Option<Failure> {
    match Lookup(parameters, field)
    case None => Some(Missing(field))
    case Some(Null) => Some(Missing(field))
    case Some(Text(text)) =>
      if Strip(text) == "" then Some(Empty(field))
      else if Lower(Strip(text)) in placeholders then Some(Placeholder(field, text))
      else None
    case Some(_) => None
  }

  function Failures(fields: seq<string>, parameters: Dict, placeholders: set<string>): seq<Failure> {
    if fields == [] then []
    else OneFailure(fields[0], parameters, placeholders) + Failures(fields[1..], parameters, placeholders)
  }

  function OneFailure(field: string, parameters: Dict, placeholders: set<string>): seq<Failure> {
    match FieldFailure(field, parameters, placeholders)
    case None => []
    case Some(failure) => [failure]
  }

  lemma {:induction false} FailuresAppend(fields: seq<string>, field: string, parameters: Dict, placeholders: set<string>)
    ensures Failures(fields + [field], parameters, placeholders) ==
            Failures(fields, parameters, placeholders) + OneFailure(field, parameters, placeholders)
  {
    if fields != [] {
      FailuresAppend(fields[1..], field, parameters, placeholders);
      assert (fields + [field])[1..] == fields[1..] + [field];
    }
  }

  function CandidateFailures(c: Candidate, tools: Tools, placeholders: set<string>): seq<Failure> {
    match FindTool(tools, c.toolName)
    case None => []
    case Some(tool) => Failures(tool.required, c.parameters, placeholders)
  }

  /** Every required parameter of the candidate's tool is there and usable. */
  predicate Complete(c: Candidate, tools: Tools, placeholders: set<string>) {
    c.toolName in tools ==>
      forall f | f in tools[c.toolName].required :: FieldFailure(f, c.parameters, placeholders).None?
  }

  function Validated(c: Candidate, tools: Tools, placeholders: set<string>): Validation {
    if c.toolName == CONVERSE then Validation(c, true, [])
    else
      var failures := CandidateFailures(c, tools, placeholders);
      Validation(c, failures == [], failures)
  }

  function Validations(candidates: seq<Candidate>, tools: Tools, placeholders: set<string>): seq<Validation> {
    if candidates == [] then []
    else [Validated(candidates[0], tools, placeholders)] + Validations(candidates[1..], tools, placeholders)
  }

  predicate Passes(c: Candidate, tools: Tools, placeholders: set<string>) {
    c.toolName != CONVERSE && Validated(c, tools, placeholders).passed
  }

  /** The actions (not conversational) that pass, in proposal order. */
  function Passing(candidates: seq<Candidate>, tools: Tools, placeholders: set<string>): seq<Candidate> {
    if candidates == [] then []
    else
      var c := candidates[0];
      (if Passes(c, tools, placeholders) then [c] else []) + Passing(candidates[1..], tools, placeholders)
  }

  function Conversational(candidates: seq<Candidate>): seq<Candidate> {
    if candidates == [] then []
    else (if candidates[0].toolName == CONVERSE then [candidates[0]] else []) + Conversational(candidates[1..])
  }

  predicate HasAction(candidates: seq<Candidate>) {
    candidates != [] && (candidates[0].toolName != CONVERSE || HasAction(candidates[1..]))
  }

  lemma {:induction false} PartitionAppend(s: seq<Candidate>, c: Candidate, tools: Tools, placeholders: set<string>)
    ensures Validations(s + [c], tools, placeholders)
            == Validations(s, tools, placeholders) + [Validated(c, tools, placeholders)]
    ensures Passing(s + [c], tools, placeholders)
            == Passing(s, tools, placeholders) + if Passes(c, tools, placeholders) then [c] else []
    ensures Conversational(s + [c]) == Conversational(s) + if c.toolName == CONVERSE then [c] else []
    ensures HasAction(s + [c]) <==> HasAction(s) || c.toolName != CONVERSE
  {
    if s != [] {
      PartitionAppend(s[1..], c, tools, placeholders);
      assert (s + [c])[1..] == s[1..] + [c];
      Associative([Validated(s[0], tools, placeholders)], Validations(s[1..], tools, placeholders),
                  [Validated(c, tools, placeholders)]);
      Associative(if Passes(s[0], tools, placeholders) then [s[0]] else [], Passing(s[1..], tools, placeholders),
                  if Passes(c, tools, placeholders) then [c] else []);
      Associative(if s[0].toolName == CONVERSE then [s[0]] else [], Conversational(s[1..]),
                  if c.toolName == CONVERSE then [c] else []);
    }
  }

  /** The question synthesized when nothing usable was proposed. */
  const ASK_FOR_MISSING := Candidate(CONVERSE, [])

  function Surviving(candidates: seq<Candidate>, tools: Tools, placeholders: set<string>): seq<Candidate> {
    var passing := Passing(candidates, tools, placeholders);
    var conversational := Conversational(candidates);
    if passing != [] then passing + conversational
    else if HasAction(candidates) then
      if conversational != [] then [conversational[0]] else [ASK_FOR_MISSING]
    else conversational
  }

  predicate Promoted(candidates: seq<Candidate>, tools: Tools, placeholders: set<string>) {
    Passing(candidates, tools, placeholders) == [] && HasAction(candidates)
  }

  method ValidateCandidate(c: Candidate, tools: Tools, placeholders: set<string>) returns (v: Validation)
    requires c.toolName != CONVERSE
    ensures v == Validated(c, tools, placeholders)
  {
    var tool := FindTool(tools, c.toolName);
    if tool.None? {
      return Validation(c, true, []);
    }
    var required := tool.value.required;
    var failures := [];
    for i := 0 to |required|
      invariant failures == Failures(required[..i], c.parameters, placeholders)
    {
      assert required[..i + 1] == required[..i] + [required[i]];
      FailuresAppend(required[..i], required[i], c.parameters, placeholders);
      var value := Lookup(c.parameters, required[i]);
      if value.None? || value.value.Null? {
        failures := failures + [Missing(required[i])];
        continue;
      }
      if value.value.Text? {
        var stripped := Strip(value.value.text);
        if stripped == "" {
          failures := failures + [Empty(required[i])];
        } else if Lower(stripped) in placeholders {
          failures := failures + [Placeholder(required[i], value.value.text)];
        }
      }
    }
    assert required[..|required|] == required;
    return Validation(c, |failures| == 0, failures);
  }

  method Validate(candidates: seq<Candidate>, tools: Tools, placeholders: set<string>) returns (r: GateResult)
    ensures r == GateResult(candidates, Surviving(candidates, tools, placeholders),
                            Validations(candidates, tools, placeholders), Promoted(candidates, tools, placeholders))
  {
    var validations: seq<Validation>, passing, conversational, hasAction := [], [], [], false;
    for i := 0 to |candidates|
      invariant validations == Validations(candidates[..i], tools, placeholders)
      invariant passing == Passing(candidates[..i], tools, placeholders)
      invariant conversational == Conversational(candidates[..i])
      invariant hasAction == HasAction(candidates[..i])
    {
      assert candidates[..i + 1] == candidates[..i] + [candidates[i]];
      PartitionAppend(candidates[..i], candidates[i], tools, placeholders);
      if candidates[i].toolName == CONVERSE {
        validations := validations + [Validation(candidates[i], true, [])];
        conversational := conversational + [candidates[i]];
        continue;
      }
      hasAction := true;
      var v := ValidateCandidate(candidates[i], tools, placeholders);
      validations := validations + [v];
      if v.passed {
        passing := passing + [candidates[i]];
      }
    }
    assert candidates[..|candidates|] == candidates;
    var surviving, promoted;
    if passing != [] {
      surviving, promoted := passing + conversational, false;
    } else if hasAction {
      surviving, promoted := if conversational != [] then [conversational[0]] else [ASK_FOR_MISSING], true;
    } else {
      surviving, promoted := conversational, false;
    }
    r := GateResult(candidates, surviving, validations, promoted);
  }

  /**
    The candidates that the pipeline goes on with. The proposal is replaced only when something
    was dropped or a question promoted; otherwise it keeps its own order.
    */
  function Gated(candidates: seq<Candidate>, tools: Tools, placeholders: set<string>): seq<Candidate> {
    var surviving := Surviving(candidates, tools, placeholders);
    if Promoted(candidates, tools, placeholders) || |surviving| < |candidates| then surviving else candidates
  }

  /*** Laws ***/

  lemma {:induction false} FailuresMeaning(fields: seq<string>, parameters: Dict, placeholders: set<string>)
    ensures Failures(fields, parameters, placeholders) == [] <==>
            forall f :: f in fields ==> FieldFailure(f, parameters, placeholders).None?
  {
    if fields != [] {
      FailuresMeaning(fields[1..], parameters, placeholders);
      assert forall f :: f in fields <==> f == fields[0] || f in fields[1..];
    }
  }

  /** A candidate passes exactly when it is conversational or complete. */
  predicate Usable(c: Candidate, tools: Tools, placeholders: set<string>) {
    c.toolName == CONVERSE || Complete(c, tools, placeholders)
  }

  /** A value that stands for a required parameter: not null, and not a text that is blank or a placeholder. */
  predicate Stands(value: Value, placeholders: set<string>) {
    && value != Null
    && (value.Text? ==> Strip(value.text) != "" && Lower(Strip(value.text)) !in placeholders)
  }

  /** What is wrong with a required field, on the parameters as they came; nothing is, if they have a value that stands. */
  lemma FieldMeaning(field: string, parameters: Dict, placeholders: set<string>)
    ensures FieldFailure(field, parameters, placeholders).None? <==>
            exists value :: (field, value) in parameters && Stands(value, placeholders)
    ensures FieldFailure(field, parameters, placeholders) == Some(Missing(field)) <==>
            forall value :: (field, value) in parameters ==> value == Null
    ensures FieldFailure(field, parameters, placeholders) == Some(Empty(field)) <==>
            exists text :: (field, Text(text)) in parameters && Strip(text) == ""
    ensures forall text :: FieldFailure(field, parameters, placeholders) == Some(Placeholder(field, text)) <==>
            (field, Text(text)) in parameters && Strip(text) != "" && Lower(Strip(text)) in placeholders
  {
    forall value ensures Lookup(parameters, field) == Some(value) <==> (field, value) in parameters {
      LookupMeaning(parameters, field, value);
    }
    var found := Lookup(parameters, field);
    if found.Some? && found.value.Text? {
      assert (field, Text(found.value.text)) in parameters;
    }
  }

  /** A text is a placeholder by its core, or up to case like one of the hat's patterns, white space at the ends aside. */
  lemma PlaceholderMeaning(text: string, extra: set<string>)
    ensures Lower(Strip(text)) in Placeholders(extra) <==>
            || Lower(Strip(text)) in {"unknown", "tbd", "n/a", "none", "placeholder", "todo", "?", "???"}
            || exists p :: p in extra && SameButCase(Strip(p), Strip(text))
  {
    forall p ensures SameButCase(Strip(p), Strip(text)) <==> Lower(Strip(p)) == Lower(Strip(text)) {
      LowerForgetsCase(Strip(p), Strip(text));
    }
  }

  /** The failures of fields, in their order: at has the positions of the fields that fail. */
  predicate FailAt(at: seq<nat>, failures: seq<Failure>, fields: seq<string>, parameters: Dict, placeholders: set<string>) {
    && |at| == |failures|
    && (forall k, l :: 0 <= k < l < |at| ==> at[k] < at[l])
    && (forall k :: 0 <= k < |at| ==>
          at[k] < |fields| && FieldFailure(fields[at[k]], parameters, placeholders) == Some(failures[k]))
    && (forall i :: 0 <= i < |fields| && FieldFailure(fields[i], parameters, placeholders).Some? ==> i in at)
  }

  /** The failures of a candidate are those of its tool's required fields, in the order of these. */
  lemma FailuresListed(c: Candidate, tools: Tools, placeholders: set<string>) returns (at: seq<nat>)
    requires c.toolName != CONVERSE
    ensures FailAt(at, Validated(c, tools, placeholders).failures,
                   if c.toolName in tools then tools[c.toolName].required else [], c.parameters, placeholders)
  {
    at := [];
    if c.toolName in tools {
      at := FailuresAt(tools[c.toolName].required, c.parameters, placeholders);
    }
  }

  lemma {:induction false} FailuresAt(fields: seq<string>, parameters: Dict, placeholders: set<string>) returns (at: seq<nat>)
    ensures FailAt(at, Failures(fields, parameters, placeholders), fields, parameters, placeholders)
    decreases |fields|
  {
    hide FieldFailure, FailAt;
    if fields == [] {
      at := [];
      NoFailures(parameters, placeholders);
    } else {
      var before, field := Init(fields), Last(fields);
      var earlier := FailuresAt(before, parameters, placeholders);
      FailuresAppend(before, field, parameters, placeholders);
      assert fields == before + [field];
      at := if FieldFailure(field, parameters, placeholders).Some? then earlier + [|before|] else earlier;
      FailAtAppend(earlier, Failures(before, parameters, placeholders), before, field, parameters, placeholders);
    }
  }

  lemma NoFailures(parameters: Dict, placeholders: set<string>)
    ensures FailAt([], Failures([], parameters, placeholders), [], parameters, placeholders)
  {
  }

  lemma FailAtAppend(at: seq<nat>, failures: seq<Failure>, before: seq<string>, field: string,
                     parameters: Dict, placeholders: set<string>)
    requires FailAt(at, failures, before, parameters, placeholders)
    ensures var fails := FieldFailure(field, parameters, placeholders).Some?;
            FailAt(if fails then at + [|before|] else at, failures + OneFailure(field, parameters, placeholders),
                   before + [field], parameters, placeholders)
  {
    hide FieldFailure;
    var fields := before + [field];
    var more := if FieldFailure(field, parameters, placeholders).Some? then at + [|before|] else at;
    forall i | 0 <= i < |fields| && FieldFailure(fields[i], parameters, placeholders).Some? ensures i in more {
      if i < |before| {
        assert i in at;
      } else {
        assert more[|more| - 1] == i;
      }
    }
  }

  lemma PassedMeaning(c: Candidate, tools: Tools, placeholders: set<string>)
    ensures Validated(c, tools, placeholders).passed <==> Usable(c, tools, placeholders)
    ensures Complete(c, tools, placeholders) <==>
            (c.toolName in tools ==>
               forall f :: f in tools[c.toolName].required ==>
                 exists value :: (f, value) in c.parameters && Stands(value, placeholders))
  {
    if c.toolName in tools {
      FailuresMeaning(tools[c.toolName].required, c.parameters, placeholders);
      forall f | f in tools[c.toolName].required
        ensures FieldFailure(f, c.parameters, placeholders).None? <==>
                exists value :: (f, value) in c.parameters && Stands(value, placeholders)
      {
        FieldMeaning(f, c.parameters, placeholders);
      }
    }
  }

  lemma {:induction false} PartitionMeaning(candidates: seq<Candidate>, tools: Tools, placeholders: set<string>)
    ensures forall c :: c in Passing(candidates, tools, placeholders) <==>
              c in candidates && c.toolName != CONVERSE && Validated(c, tools, placeholders).passed
    ensures forall c :: c in Conversational(candidates) <==> c in candidates && c.toolName == CONVERSE
    ensures HasAction(candidates) <==> exists c :: c in candidates && c.toolName != CONVERSE
    ensures |Passing(candidates, tools, placeholders)| + |Conversational(candidates)| <= |candidates|
    ensures |Passing(candidates, tools, placeholders)| + |Conversational(candidates)| == |candidates| <==>
            forall c :: c in candidates ==> Validated(c, tools, placeholders).passed
  {
    if candidates != [] {
      PartitionMeaning(candidates[1..], tools, placeholders);
      assert forall c :: c in candidates <==> c == candidates[0] || c in candidates[1..];
    }
  }

  /** Whatever was proposed, no incomplete action is left, and nothing is invented but a question. */
  lemma GateSound(candidates: seq<Candidate>, tools: Tools, placeholders: set<string>)
    ensures forall c :: c in Gated(candidates, tools, placeholders) ==>
              (c in candidates || c == ASK_FOR_MISSING) && Usable(c, tools, placeholders)
  {
    PartitionMeaning(candidates, tools, placeholders);
    forall c ensures Validated(c, tools, placeholders).passed <==> Usable(c, tools, placeholders) {
      PassedMeaning(c, tools, placeholders);
    }
  }

  /** A complete action is never dropped. */
  lemma GateComplete(candidates: seq<Candidate>, tools: Tools, placeholders: set<string>, c: Candidate)
    requires c in candidates && c.toolName != CONVERSE && Complete(c, tools, placeholders)
    ensures c in Gated(candidates, tools, placeholders)
  {
    PartitionMeaning(candidates, tools, placeholders);
    PassedMeaning(c, tools, placeholders);
  }

  /** Something is left to do exactly when something was proposed. */
  lemma GateNonEmpty(candidates: seq<Candidate>, tools: Tools, placeholders: set<string>)
    ensures Gated(candidates, tools, placeholders) == [] <==> candidates == []
  {
    PartitionMeaning(candidates, tools, placeholders);
    if candidates != [] && candidates[0].toolName == CONVERSE {
      assert candidates[0] in Conversational(candidates);
    }
  }

  /** The proposal goes through untouched exactly when every action in it is complete. */
  lemma GateTransparentIff(candidates: seq<Candidate>, tools: Tools, placeholders: set<string>)
    ensures Gated(candidates, tools, placeholders) == candidates <==>
            forall c :: c in candidates ==> Usable(c, tools, placeholders)
    ensures Gated(candidates, tools, placeholders) == candidates ==> !Promoted(candidates, tools, placeholders)
  {
    GateSound(candidates, tools, placeholders);
    PartitionMeaning(candidates, tools, placeholders);
    forall c ensures Validated(c, tools, placeholders).passed <==> Usable(c, tools, placeholders) {
      PassedMeaning(c, tools, placeholders);
    }
    if HasAction(candidates) {
      var c :| c in candidates && c.toolName != CONVERSE;
      assert Validated(c, tools, placeholders).passed ==> c in Passing(candidates, tools, placeholders);
    }
  }

  /** The question is promoted exactly when actions were proposed and none of them is complete. */
  lemma PromotedMeaning(candidates: seq<Candidate>, tools: Tools, placeholders: set<string>)
    ensures Promoted(candidates, tools, placeholders) <==>
            && (exists c :: c in candidates && c.toolName != CONVERSE)
            && (forall c :: c in candidates && c.toolName != CONVERSE ==> !Complete(c, tools, placeholders))
  {
    PartitionMeaning(candidates, tools, placeholders);
    forall c ensures Validated(c, tools, placeholders).passed <==> Usable(c, tools, placeholders) {
      PassedMeaning(c, tools, placeholders);
    }
    if Passing(candidates, tools, placeholders) != [] {
      assert Passing(candidates, tools, placeholders)[0] in Passing(candidates, tools, placeholders);
    }
  }

  /*** Order ***/

  /** A usable action, or small talk. */
  predicate OfKind(c: Candidate, talk: bool, tools: Tools, placeholders: set<string>) {
    if talk then c.toolName == CONVERSE else c.toolName != CONVERSE && Complete(c, tools, placeholders)
  }

  /** All positions of one kind in a proposal, in increasing order. */
  predicate AllAt(at: seq<nat>, candidates: seq<Candidate>, talk: bool, tools: Tools, placeholders: set<string>) {
    && (forall k, l :: 0 <= k < l < |at| ==> at[k] < at[l])
    && (forall k :: 0 <= k < |at| ==> at[k] < |candidates| && OfKind(candidates[at[k]], talk, tools, placeholders))
    && (forall i :: 0 <= i < |candidates| && OfKind(candidates[i], talk, tools, placeholders) ==> i in at)
  }

  function Picked(candidates: seq<Candidate>, at: seq<nat>): seq<Candidate>
    requires forall k :: 0 <= k < |at| ==> at[k] < |candidates|
  {
    seq(|at|, k requires 0 <= k < |at| => candidates[at[k]])
  }

  function AllOfKind(candidates: seq<Candidate>, talk: bool, tools: Tools, placeholders: set<string>): seq<Candidate> {
    if talk then Conversational(candidates) else Passing(candidates, tools, placeholders)
  }

  lemma {:induction false} KindPicked(candidates: seq<Candidate>, talk: bool, tools: Tools, placeholders: set<string>)
    returns (at: seq<nat>)
    ensures AllAt(at, candidates, talk, tools, placeholders)
    ensures Picked(candidates, at) == AllOfKind(candidates, talk, tools, placeholders)
    decreases |candidates|
  {
    hide AllAt, OfKind, AllOfKind;
    if candidates == [] {
      at := [];
      NoneAt(talk, tools, placeholders);
    } else {
      var before, c := Init(candidates), Last(candidates);
      var earlier := KindPicked(before, talk, tools, placeholders);
      assert candidates == before + [c];
      at := if OfKind(c, talk, tools, placeholders) then earlier + [|before|] else earlier;
      KindAppend(before, c, talk, tools, placeholders);
      AllAtAppend(earlier, before, c, talk, tools, placeholders);
      PickedAppend(earlier, before, c, talk, tools, placeholders);
    }
  }

  lemma KindAppend(before: seq<Candidate>, c: Candidate, talk: bool, tools: Tools, placeholders: set<string>)
    ensures AllOfKind(before + [c], talk, tools, placeholders) ==
            AllOfKind(before, talk, tools, placeholders) + if OfKind(c, talk, tools, placeholders) then [c] else []
  {
    PartitionAppend(before, c, tools, placeholders);
    PassedMeaning(c, tools, placeholders);
  }

  lemma NoneAt(talk: bool, tools: Tools, placeholders: set<string>)
    ensures AllAt([], [], talk, tools, placeholders) && Picked([], []) == AllOfKind([], talk, tools, placeholders)
  {
  }

  lemma AllAtAppend(at: seq<nat>, before: seq<Candidate>, c: Candidate, talk: bool, tools: Tools, placeholders: set<string>)
    requires AllAt(at, before, talk, tools, placeholders)
    ensures AllAt(if OfKind(c, talk, tools, placeholders) then at + [|before|] else at, before + [c], talk, tools, placeholders)
  {
    hide OfKind;
    var candidates := before + [c];
    var more := if OfKind(c, talk, tools, placeholders) then at + [|before|] else at;
    forall i | 0 <= i < |candidates| && OfKind(candidates[i], talk, tools, placeholders) ensures i in more {
      if i < |before| {
        assert i in at;
      } else {
        assert more[|more| - 1] == i;
      }
    }
  }

  lemma PickedAppend(at: seq<nat>, before: seq<Candidate>, c: Candidate, talk: bool, tools: Tools, placeholders: set<string>)
    requires AllAt(at, before, talk, tools, placeholders)
    ensures Picked(before + [c], at) == Picked(before, at)
    ensures Picked(before + [c], at + [|before|]) == Picked(before, at) + [c]
  {
    hide OfKind;
  }

  /**
    What the pipeline goes on with, by positions in the proposal. If something unusable was dropped, the
    usable actions come first and the small talk after them, each in proposal order; without a usable
    action only the first small talk is left, or the question.
    */
  lemma GateExactly(candidates: seq<Candidate>, tools: Tools, placeholders: set<string>)
    returns (actions: seq<nat>, talk: seq<nat>)
    ensures AllAt(actions, candidates, false, tools, placeholders) && AllAt(talk, candidates, true, tools, placeholders)
    ensures Gated(candidates, tools, placeholders) ==
            if AllUsable(candidates, tools, placeholders) then candidates
            else if actions != [] then Picked(candidates, actions) + Picked(candidates, talk)
            else if talk != [] then [candidates[talk[0]]]
            else [ASK_FOR_MISSING]
  {
    actions := KindPicked(candidates, false, tools, placeholders);
    talk := KindPicked(candidates, true, tools, placeholders);
    GateTransparentIff(candidates, tools, placeholders);
    PartitionMeaning(candidates, tools, placeholders);
    if c :| c in candidates && !Usable(c, tools, placeholders) {
      assert c.toolName != CONVERSE;
    }
  }

  /** The first candidate of a kind. */
  predicate FirstOfKind(candidates: seq<Candidate>, i: nat, talk: bool, tools: Tools, placeholders: set<string>) {
    && i < |candidates| && OfKind(candidates[i], talk, tools, placeholders)
    && forall j :: 0 <= j < i ==> !OfKind(candidates[j], talk, tools, placeholders)
  }

  predicate HasKind(candidates: seq<Candidate>, talk: bool, tools: Tools, placeholders: set<string>) {
    exists c :: c in candidates && OfKind(c, talk, tools, placeholders)
  }

  predicate AllUsable(candidates: seq<Candidate>, tools: Tools, placeholders: set<string>) {
    forall c :: c in candidates ==> Usable(c, tools, placeholders)
  }

  /** The candidate comes before all others of its kind. */
  ghost predicate FirstIs(c: Candidate, candidates: seq<Candidate>, talk: bool, tools: Tools, placeholders: set<string>) {
    exists i: nat :: FirstOfKind(candidates, i, talk, tools, placeholders) && c == candidates[i]
  }

  /** The candidate that a proposal leads with once it has passed the gate. */
  ghost predicate Leads(c: Candidate, candidates: seq<Candidate>, tools: Tools, placeholders: set<string>) {
    if AllUsable(candidates, tools, placeholders) then candidates != [] && c == candidates[0]
    else if HasKind(candidates, false, tools, placeholders) then FirstIs(c, candidates, false, tools, placeholders)
    else if HasKind(candidates, true, tools, placeholders) then FirstIs(c, candidates, true, tools, placeholders)
    else c == ASK_FOR_MISSING
  }

  lemma FirstPicked(candidates: seq<Candidate>, at: seq<nat>, talk: bool, tools: Tools, placeholders: set<string>)
    requires AllAt(at, candidates, talk, tools, placeholders)
    ensures at != [] <==> HasKind(candidates, talk, tools, placeholders)
    ensures forall i: nat :: FirstOfKind(candidates, i, talk, tools, placeholders) <==> at != [] && i == at[0]
  {
    hide OfKind;
    if d :| d in candidates && OfKind(d, talk, tools, placeholders) {
      var i :| 0 <= i < |candidates| && candidates[i] == d;
      assert i in at;
    }
    if at != [] {
      assert candidates[at[0]] in candidates;
      assert forall k :: 0 <= k < |at| ==> at[0] <= at[k];
      assert forall j :: 0 <= j < at[0] ==> j !in at;
    }
  }

  /** A candidate is the first of a kind exactly if it is at the first position. */
  lemma FirstIsAt(candidates: seq<Candidate>, at: seq<nat>, talk: bool, tools: Tools, placeholders: set<string>, c: Candidate)
    requires AllAt(at, candidates, talk, tools, placeholders)
    ensures at != [] <==> HasKind(candidates, talk, tools, placeholders)
    ensures at != [] ==> at[0] < |candidates| && (FirstIs(c, candidates, talk, tools, placeholders) <==> c == candidates[at[0]])
  {
    hide OfKind;
    FirstPicked(candidates, at, talk, tools, placeholders);
    assert at != [] ==> FirstOfKind(candidates, at[0], talk, tools, placeholders);
  }

  /** The leader is the top candidate of what the pipeline goes on with. */
  lemma LeaderIsTop(candidates: seq<Candidate>, tools: Tools, placeholders: set<string>, c: Candidate)
    requires candidates != []
    ensures Gated(candidates, tools, placeholders) != []
    ensures Leads(c, candidates, tools, placeholders) <==> c == Gated(candidates, tools, placeholders)[0]
  {
    hide Gated, AllAt, HasKind, AllUsable, FirstIs, Picked;
    GateNonEmpty(candidates, tools, placeholders);
    var actions, talk := GateExactly(candidates, tools, placeholders);
    FirstIsAt(candidates, actions, false, tools, placeholders, c);
    FirstIsAt(candidates, talk, true, tools, placeholders, c);
    if actions != [] {
      TopPicked(candidates, actions, talk, tools, placeholders);
    }
  }

  lemma TopPicked(candidates: seq<Candidate>, actions: seq<nat>, talk: seq<nat>, tools: Tools, placeholders: set<string>)
    requires AllAt(actions, candidates, false, tools, placeholders) && AllAt(talk, candidates, true, tools, placeholders)
    requires actions != []
    ensures (Picked(candidates, actions) + Picked(candidates, talk))[0] == candidates[actions[0]]
  {
  }

  /** Gating twice is gating once. */
  lemma GateIdempotent(candidates: seq<Candidate>, tools: Tools, placeholders: set<string>)
    ensures var once := Gated(candidates, tools, placeholders);
            Gated(once, tools, placeholders) == once && !Promoted(once, tools, placeholders)
  {
    GateSound(candidates, tools, placeholders);
    GateTransparentIff(Gated(candidates, tools, placeholders), tools, placeholders);
  }
}
