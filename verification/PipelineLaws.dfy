/** What one pass of the pipeline guarantees, whatever the models and tools reply. */
module PipelineLaws {
  import opened Core
  import opened Conversation
  import opened RiskClassifier
  import opened RiskLaws
  import opened Evaluators
  import opened VetoLaws
  import opened ParameterGate
  import opened EscalationGate
  import opened RiskFloor
  import opened AgentLoop
  import E = Executor

  /** The candidates that a pass works on. */
  function Remaining(tools: Tools, hat: HatConfig, oracle: Oracle): seq<Candidate>
    requires oracle.proposal.Some?
  {
    Gated(oracle.proposal.value, tools, Placeholders(hat.placeholderPatterns))
  }

  /** No prohibited tool and no defensive top candidate: the pass is on the action path. */
  predicate ActionPath(candidates: seq<Candidate>, tools: Tools) {
    candidates != [] && !Defensive(candidates[0]) && ProposalFloor(candidates, tools) != Some(Red)
  }

  /** Nothing failed before the classifier. */
  predicate Evaluated(oracle: Oracle) {
    oracle.intent.Some? && oracle.proposal.Some? && !oracle.treeFails && PanelResults(oracle.replies).Some?
  }

  /** Nothing stands against carrying out the top candidate. */
  predicate Harmless(results: seq<EvaluatorResult>, candidates: seq<Candidate>, tools: Tools, hat: HatConfig,
                     escalation: EscalationResult)
  {
    && VETO !in AllFlags(results)
    && SevereCount(results) <= 2
    && !Disagree(results)
    && WeightedScore(results, Some(hat)) >= Threshold(Thresholds(Some(hat)), "green", -0.1)
    && (escalation.triggered ==> escalation.minTier == Green)
    && (forall c :: c in candidates ==> AtLeast(Green, DeclaredFloor(c, tools)))
    && AtLeast(Green, hat.minTier)
  }

  /** The classifier's GREEN, spelled out. */
  lemma GreenIffHarmless(results: seq<EvaluatorResult>, candidates: seq<Candidate>, tools: Tools, hat: HatConfig,
                         escalation: EscalationResult)
    ensures FinalTier(results, Some(hat), MaxTier(EscalationFloor(escalation), ProposalFloor(candidates, tools))) == Green
            <==> Harmless(results, candidates, tools, hat, escalation)
  {
    FloorIsMaximum(candidates, tools);
    var floor := ProposalFloor(candidates, tools);
    assert AtLeast(Green, floor) <==> forall c :: c in candidates ==> AtLeast(Green, DeclaredFloor(c, tools));
    DecideGreen(Overridden(results), BaseTier(results, Some(hat)), Disagree(results), EscalationFloor(escalation), floor, hat.minTier);
  }

  lemma DecideGreen(overridden: bool, base: Tier, disagree: bool, escalation: Option<Tier>, floor: Option<Tier>, hatMin: Option<Tier>)
    ensures Decide(overridden, base, disagree, MaxTier(escalation, floor), hatMin) == Green <==>
            !overridden && !disagree && base == Green
            && AtLeast(Green, escalation) && AtLeast(Green, floor) && AtLeast(Green, hatMin)
  {
  }

  /** The tier that a pass on the action path is given. */
  function ActionTier(tools: Tools, hat: HatConfig, message: string, history: seq<Turn>, oracle: Oracle): Tier
    requires Evaluated(oracle)
  {
    var candidates := Remaining(tools, hat, oracle);
    FinalTier(PanelResults(oracle.replies).value, Some(hat),
              MaxTier(EscalationFloor(CheckEscalation(message, hat, history)), ProposalFloor(candidates, tools)))
  }

  /** The calls of a routed pass, whatever survived the gate, fired, and was evaluated. */
  lemma RoutedCalls(intent: string, candidates: seq<Candidate>, tools: Tools, hat: HatConfig, escalation: EscalationResult,
                    floor: Option<Tier>, panel: Option<seq<EvaluatorResult>>, oracle: Oracle)
    ensures Routed(intent, candidates, tools, hat, escalation, floor, panel, oracle).calls ==
            if candidates == [] || Defensive(candidates[0]) || floor == Some(Red) || oracle.treeFails || panel.None? then []
            else
              match FinalTier(panel.value, Some(hat), MaxTier(EscalationFloor(escalation), floor))
              case Green => [E.Call(candidates[0].toolName, candidates[0].parameters)]
              case Orange => if ESCALATE in tools then [E.Call(ESCALATE, E.ESCALATION_PARAMETERS)] else []
              case _ => []
  {
  }

  /**
    The central promise. A pass makes at most one registry call. It runs the top candidate exactly
    when the pass reaches the executor on the action path and nothing stands against it; it calls the
    escalation tool exactly when it gets there at ORANGE and the tool exists.
    */
  lemma CallsExactly(tools: Tools, hat: HatConfig, message: string, history: seq<Turn>, oracle: Oracle)
    ensures var calls := Processed(tools, hat, message, history, oracle).calls;
            if Evaluated(oracle) && ActionPath(Remaining(tools, hat, oracle), tools) then
              var candidates := Remaining(tools, hat, oracle);
              if Harmless(PanelResults(oracle.replies).value, candidates, tools, hat, CheckEscalation(message, hat, history))
              then calls == [E.Call(candidates[0].toolName, candidates[0].parameters)]
              else if ActionTier(tools, hat, message, history, oracle) == Orange && ESCALATE in tools
              then calls == [E.Call(ESCALATE, E.ESCALATION_PARAMETERS)]
              else calls == []
            else calls == []
  {
    hide Routed, FinalTier, PanelResults, Harmless, CheckEscalation;
    if oracle.intent.Some? && oracle.proposal.Some? {
      var candidates := Remaining(tools, hat, oracle);
      var escalation := CheckEscalation(message, hat, history);
      RoutedCalls(oracle.intent.value, candidates, tools, hat, escalation, ProposalFloor(candidates, tools),
                  PanelResults(oracle.replies), oracle);
      if Evaluated(oracle) {
        GreenIffHarmless(PanelResults(oracle.replies).value, candidates, tools, hat, escalation);
      }
    }
  }

  /** The same for the candidate that leads the proposal once it has passed the gate, found in the proposal as it came. */
  lemma LeaderDecides(tools: Tools, hat: HatConfig, message: string, history: seq<Turn>, oracle: Oracle, leader: Candidate)
    requires Evaluated(oracle) && oracle.proposal.value != []
    requires Leads(leader, oracle.proposal.value, tools, Placeholders(hat.placeholderPatterns))
    ensures var calls, candidates := Processed(tools, hat, message, history, oracle).calls, Remaining(tools, hat, oracle);
            if Defensive(leader) || ProposalFloor(candidates, tools) == Some(Red) then calls == []
            else if Harmless(PanelResults(oracle.replies).value, candidates, tools, hat, CheckEscalation(message, hat, history))
            then calls == [E.Call(leader.toolName, leader.parameters)]
            else if ActionTier(tools, hat, message, history, oracle) == Orange && ESCALATE in tools
            then calls == [E.Call(ESCALATE, E.ESCALATION_PARAMETERS)]
            else calls == []
  {
    hide Processed, Harmless, ActionTier, Leads, PanelResults, Gated;
    LeaderIsTop(oracle.proposal.value, tools, Placeholders(hat.placeholderPatterns), leader);
    CallsExactly(tools, hat, message, history, oracle);
  }

  /** A top candidate that is carried out was proposed, is complete, and is neither small talk nor an escalation. */
  lemma CalledToolIsGated(tools: Tools, hat: HatConfig, message: string, history: seq<Turn>, oracle: Oracle)
    requires var calls := Processed(tools, hat, message, history, oracle).calls;
             calls != [] && calls[0].toolName != ESCALATE
    ensures var calls := Processed(tools, hat, message, history, oracle).calls;
            && Evaluated(oracle)
            && var c := Candidate(calls[0].toolName, calls[0].parameters);
            && c in oracle.proposal.value
            && Complete(c, tools, Placeholders(hat.placeholderPatterns))
            && ActionTier(tools, hat, message, history, oracle) == Green
  {
    CallsExactly(tools, hat, message, history, oracle);
    var candidates := Remaining(tools, hat, oracle);
    GateSound(oracle.proposal.value, tools, Placeholders(hat.placeholderPatterns));
    GreenIffHarmless(PanelResults(oracle.replies).value, candidates, tools, hat, CheckEscalation(message, hat, history));
    assert candidates[0] in candidates;
  }

  /** The conversational pseudo-tool never reaches the registry. */
  lemma ConverseNeverCalled(tools: Tools, hat: HatConfig, message: string, history: seq<Turn>, oracle: Oracle)
    ensures forall call :: call in Processed(tools, hat, message, history, oracle).calls ==> call.toolName != CONVERSE
  {
    CallsExactly(tools, hat, message, history, oracle);
    assert |CONVERSE| != |ESCALATE|;
  }

  /** A defensive top candidate is never carried out: proposing an escalation does not perform one. */
  lemma DefensiveProposalCallsNothing(tools: Tools, hat: HatConfig, message: string, history: seq<Turn>, oracle: Oracle)
    requires oracle.proposal.Some?
    requires Remaining(tools, hat, oracle) != [] && Defensive(Remaining(tools, hat, oracle)[0])
    ensures Processed(tools, hat, message, history, oracle).calls == []
  {
    CallsExactly(tools, hat, message, history, oracle);
  }

  /*** Vetoes ***/

  const REFUND := Candidate("refund", [])
  const PLAIN_TOOL := Tool([], None, None)
  const PLAIN_TOOLS: Tools := map["refund" := PLAIN_TOOL, ESCALATE := PLAIN_TOOL]
  const PLAIN_HAT := HatConfig(map[], map[], None, map[], map[], {}, [], map[])

  /** A refund without parameters or floors, with these panel replies. */
  function RefundRequest(replies: Replies): Oracle {
    Oracle(Some("refund_request"), Some([REFUND]), false, replies, E.Returns(true), false)
  }

  lemma RefundRemains(hat: HatConfig, replies: Replies)
    ensures Remaining(PLAIN_TOOLS, hat, RefundRequest(replies)) == [REFUND]
    ensures ActionPath([REFUND], PLAIN_TOOLS) && ProposalFloor([REFUND], PLAIN_TOOLS) == None
  {
    assert |"refund"| != |ESCALATE| && "refund"[0] != CONVERSE[0];
    GateTransparentIff([REFUND], PLAIN_TOOLS, Placeholders(hat.placeholderPatterns));
    assert [REFUND][1..] == [];
  }

  lemma RefundRouted(hat: HatConfig, escalation: EscalationResult, results: seq<EvaluatorResult>, oracle: Oracle)
    requires !oracle.treeFails && !oracle.responseFails && oracle.toolReply == E.Returns(true)
    ensures var pass := Routed("refund_request", [REFUND], PLAIN_TOOLS, hat, escalation, None, Some(results), oracle);
            var tier := FinalTier(results, Some(hat), EscalationFloor(escalation));
            && pass.outcome.Done? && pass.outcome.result.execution.riskTier == tier
            && (tier == Green ==> pass.calls == [E.Call("refund", [])])
            && (tier == Orange ==> pass.calls == [E.Call(ESCALATE, E.ESCALATION_PARAMETERS)])
  {
    hide FinalTier;
    assert "refund"[0] != CONVERSE[0] && "refund"[0] != ESCALATE[0];
  }

  /** What the pass does with the refund is decided by the panel and the escalation gate. */
  lemma RefundOutcome(hat: HatConfig, message: string, history: seq<Turn>, replies: Replies)
    requires PanelResults(replies).Some?
    ensures var pass := Processed(PLAIN_TOOLS, hat, message, history, RefundRequest(replies));
            var tier := FinalTier(PanelResults(replies).value, Some(hat), EscalationFloor(CheckEscalation(message, hat, history)));
            && pass.outcome.Done? && pass.outcome.result.execution.riskTier == tier
            && (tier == Green ==> pass.calls == [E.Call("refund", [])])
            && (tier == Orange ==> pass.calls == [E.Call(ESCALATE, E.ESCALATION_PARAMETERS)])
  {
    hide Routed, FinalTier, PanelResults, CheckEscalation;
    RefundRemains(hat, replies);
    RefundRouted(hat, CheckEscalation(message, hat, history), PanelResults(replies).value, RefundRequest(replies));
  }

  /** No registry call is made, whatever the configuration, the message and the other replies are. */
  ghost predicate StopsTools(tribal: Reply) {
    forall tools: Tools, hat: HatConfig, message: string, history: seq<Turn>, oracle: Oracle ::
      oracle.replies.tribal == tribal ==> Processed(tools, hat, message, history, oracle).calls == []
  }

  /**
    A tribal score at or below -0.8 stops every tool, the escalation tool included, exactly when its
    flags do not hide the veto in a text.
    */
  lemma TribalVetoStopsTools(tribal: Reply)
    requires Readable(tribal) && CatastrophicScore(tribal)
    ensures StopsTools(tribal) <==> !HiddenVeto(tribal)
  {
    hide Processed, PanelResults, FinalTier;
    if HiddenVeto(tribal) {
      HiddenVetoIsOrange(tribal);
      PlainHatIsDefault(PanelResults(Around(tribal)).value, None);
      RefundOutcome(PLAIN_HAT, "hello", [], Around(tribal));
      assert Processed(PLAIN_TOOLS, PLAIN_HAT, "hello", [], RefundRequest(Around(tribal))).calls != [];
    } else {
      TribalVeto(tribal);
      forall tools: Tools, hat: HatConfig, message: string, history: seq<Turn>, oracle: Oracle | oracle.replies.tribal == tribal
        ensures Processed(tools, hat, message, history, oracle).calls == []
      {
        RedCallsNothing(tools, hat, message, history, oracle);
      }
    }
  }

  lemma RedCallsNothing(tools: Tools, hat: HatConfig, message: string, history: seq<Turn>, oracle: Oracle)
    requires Settles(Tribal, oracle.replies.tribal)
    ensures Processed(tools, hat, message, history, oracle).calls == []
  {
    CallsExactly(tools, hat, message, history, oracle);
    if Evaluated(oracle) {
      var candidates := Remaining(tools, hat, oracle);
      var escalation := CheckEscalation(message, hat, history);
      var minTier := MaxTier(EscalationFloor(escalation), ProposalFloor(candidates, tools));
      assert Seated(oracle.replies, Tribal, oracle.replies.tribal) == oracle.replies;
      assert RedOrAborted(Seated(oracle.replies, Tribal, oracle.replies.tribal), Some(hat), minTier);
      GreenIffHarmless(PanelResults(oracle.replies).value, candidates, tools, hat, escalation);
    }
  }

  /** The veto in a text under the default configuration: the escalation tool is called. */
  lemma HiddenVetoEscalates()
    ensures var text := Reply(Some(Number(-1.0)), None, Some(VETO));
            Processed(PLAIN_TOOLS, PLAIN_HAT, "hello", [], RefundRequest(Around(text))).calls
            == [E.Call(ESCALATE, E.ESCALATION_PARAMETERS)]
  {
    hide Processed, PanelResults, FinalTier;
    var text := Reply(Some(Number(-1.0)), None, Some(VETO));
    TextHidesVeto();
    PlainHatIsDefault(PanelResults(Around(text)).value, None);
    RefundOutcome(PLAIN_HAT, "hello", [], Around(text));
  }

  lemma PlainHatIsDefault(results: seq<EvaluatorResult>, minTier: Option<Tier>)
    ensures FinalTier(results, Some(PLAIN_HAT), minTier) == FinalTier(results, None, minTier)
  {
    assert Weights(Some(PLAIN_HAT)) == DEFAULT_WEIGHTS && Thresholds(Some(PLAIN_HAT)) == DEFAULT_THRESHOLDS;
  }

  /** The same where the hat gives the tribal evaluator no weight: the proposed refund is run. */
  lemma HiddenVetoRunsTool(reply: Reply, hat: HatConfig)
    requires Readable(reply) && reply.score == Some(Number(-0.8)) && HiddenVeto(reply)
    requires hat == PLAIN_HAT.(weightOverrides := map["tribal" := 0.0])
    ensures Processed(PLAIN_TOOLS, hat, "hello", [], RefundRequest(Seated(NEUTRAL_REPLIES, Tribal, reply))).calls
            == [E.Call("refund", [])]
  {
    hide Processed;
    TribalAmongNeutral(reply);
    OnlyTribalSpeaks(PanelResults(Seated(NEUTRAL_REPLIES, Tribal, reply)).value, hat);
    RefundOutcome(hat, "hello", [], Seated(NEUTRAL_REPLIES, Tribal, reply));
  }

  lemma TribalAmongNeutral(reply: Reply)
    requires Readable(reply) && reply.score == Some(Number(-0.8)) && HiddenVeto(reply)
    ensures var panel := PanelResults(Seated(NEUTRAL_REPLIES, Tribal, reply));
            && panel.Some? && FullPanel(panel.value)
            && Silent(panel.value[0]) && Silent(panel.value[2]) && Silent(panel.value[3])
            && panel.value[1].score == -0.8 && VETO !in Iterated(panel.value[1].flags)
  {
    VetoIsRaised(Tribal, reply);
    TribalMeaning(Parse("tribal", reply).value);
    ResultInRange(Tribal, reply);
    NeutralPanelIsSilent(Tribal, reply);
  }

  lemma OnlyTribalSpeaks(p: seq<EvaluatorResult>, hat: HatConfig)
    requires FullPanel(p) && Silent(p[0]) && Silent(p[2]) && Silent(p[3])
    requires p[1].score == -0.8 && VETO !in Iterated(p[1].flags)
    requires hat == PLAIN_HAT.(weightOverrides := map["tribal" := 0.0])
    ensures FinalTier(p, Some(hat), None) == Green
  {
    FourSums(p, Weights(Some(hat)));
    FourPairs(0.0, -0.8, 0.0, 0.0);
    assert Weight(Weights(Some(hat)), "tribal") == 0.0;
    assert Total(p, Weights(Some(hat))) == 0.0;
    assert WeightedScore(p, Some(hat)) == 0.0;
  }

  /*** Tiers ***/

  /** The tier on record is the tier that was acted on. */
  lemma TierReported(tools: Tools, hat: HatConfig, message: string, history: seq<Turn>, oracle: Oracle)
    ensures var outcome := Processed(tools, hat, message, history, oracle).outcome;
            outcome.Done? ==> outcome.result.classification.tier == outcome.result.execution.riskTier
  {
    if Processed(tools, hat, message, history, oracle).outcome.Done? {
      var candidates := Remaining(tools, hat, oracle);
      RoutedTier(oracle.intent.value, candidates, tools, hat, CheckEscalation(message, hat, history),
                 ProposalFloor(candidates, tools), PanelResults(oracle.replies), oracle);
    }
  }

  /** What the record says of the matched trigger and the declared floor. */
  predicate GatesRecorded(result: PipelineResult, trigger: Option<string>, floor: Option<Tier>, candidates: seq<Candidate>, tools: Tools) {
    && result.escalationTrigger == trigger
    && result.floorValue == floor
    && result.floorTool == if floor.Some? then FloorTrigger(candidates, tools, floor.value) else None
  }

  /** A classification that no panel stands behind: tier, score and reason, and nothing else. */
  predicate Bare(rc: RiskClassification, tier: Tier, score: real, reason: Option<OverrideReason>) {
    && rc.tier == tier && rc.weightedScore == score && rc.overrideReason == reason
    && rc.individualScores == map[] && rc.flags == [] && rc.recommendedAction.None? && rc.minTierApplied.None?
  }

  lemma RefusedFacts(candidates: seq<Candidate>, tools: Tools, oracle: Oracle)
    requires Refused(candidates, tools, oracle).outcome.Done?
    ensures var result := Refused(candidates, tools, oracle).outcome.result;
            && result.candidates == candidates && result.classification.tier == result.execution.riskTier == Red
            && result.shortCircuit && !result.bypassed && result.situation.None?
            && Bare(result.classification, Red, -1.0, Some(ProhibitedTool))
            && GatesRecorded(result, None, Some(Red), candidates, tools)
  {
  }

  lemma BypassedFacts(candidates: seq<Candidate>, tools: Tools, escalation: EscalationResult, oracle: Oracle)
    requires Bypassed(candidates, escalation, oracle).outcome.Done?
    ensures var pass := Bypassed(candidates, escalation, oracle);
            var result := pass.outcome.result;
            && result.candidates == candidates && result.classification.tier == result.execution.riskTier == Green
            && !result.shortCircuit && result.bypassed && result.situation.None?
            && result.execution == E.ExecutionResult(E.Top(candidates), true, Green) && pass.calls == []
            && Bare(result.classification, Green, 0.0, None)
            && GatesRecorded(result, escalation.matchedTrigger, None, candidates, tools)
  {
  }

  lemma SituationFacts(candidates: seq<Candidate>, tools: Tools, hat: HatConfig, escalation: EscalationResult,
                       panel: Option<seq<EvaluatorResult>>, oracle: Oracle)
    requires SituationEvaluated(candidates, hat, escalation, panel, oracle).outcome.Done?
    ensures panel.Some?
    ensures var result := SituationEvaluated(candidates, hat, escalation, panel, oracle).outcome.result;
            && result.candidates == candidates && result.classification.tier == result.execution.riskTier
            && result.execution.riskTier == FinalTier(panel.value, Some(hat), EscalationFloor(escalation))
            && !result.shortCircuit && !result.bypassed
            && result.situation == Some(Classified(panel.value, Some(hat), candidates, EscalationFloor(escalation)))
            && Bare(result.classification, result.execution.riskTier, WeightedScore(panel.value, Some(hat)), None)
            && GatesRecorded(result, escalation.matchedTrigger, None, candidates, tools)
  {
    hide FinalTier;
  }

  lemma ActedFacts(candidates: seq<Candidate>, tools: Tools, hat: HatConfig, escalation: EscalationResult,
                   floor: Option<Tier>, panel: Option<seq<EvaluatorResult>>, oracle: Oracle)
    requires Acted(candidates, tools, hat, escalation, floor, panel, oracle).outcome.Done?
    ensures candidates != [] ==> panel.Some?
    ensures var result := Acted(candidates, tools, hat, escalation, floor, panel, oracle).outcome.result;
            && result.candidates == candidates && result.classification.tier == result.execution.riskTier
            && result.execution.riskTier ==
               (if candidates == [] then Green
                else FinalTier(panel.value, Some(hat), MaxTier(EscalationFloor(escalation), floor)))
            && !result.shortCircuit && !result.bypassed && result.situation.None?
            && (if candidates == [] then Bare(result.classification, Green, 0.0, None)
                else result.classification == Classified(panel.value, Some(hat), candidates, MaxTier(EscalationFloor(escalation), floor)))
            && GatesRecorded(result, escalation.matchedTrigger, floor, candidates, tools)
  {
    hide FinalTier;
    var rc := PanelClassification(candidates, hat, MaxTier(EscalationFloor(escalation), floor), panel, oracle);
    TieredTier(rc.value.tier, candidates, tools, oracle.toolReply);
  }

  /** The tier, the flags and the record of a routed pass, path by path. */
  lemma RoutedTier(intent: string, candidates: seq<Candidate>, tools: Tools, hat: HatConfig, escalation: EscalationResult,
                   floor: Option<Tier>, panel: Option<seq<EvaluatorResult>>, oracle: Oracle)
    requires Routed(intent, candidates, tools, hat, escalation, floor, panel, oracle).outcome.Done?
    ensures var pass := Routed(intent, candidates, tools, hat, escalation, floor, panel, oracle);
            var result := pass.outcome.result;
            var defensive := candidates != [] && Defensive(candidates[0]);
            var evaluated := ShouldEvaluateSituation(intent, E.Top(candidates), escalation);
            && result.candidates == candidates
            && result.classification.tier == result.execution.riskTier
            && (result.shortCircuit <==> floor == Some(Red))
            && (result.bypassed <==> floor != Some(Red) && defensive && !evaluated)
            && (candidates != [] && floor != Some(Red) && !result.bypassed ==> panel.Some?)
            && GatesRecorded(result, if floor == Some(Red) then None else escalation.matchedTrigger,
                             if floor != Some(Red) && defensive then None else floor, candidates, tools)
            && (result.bypassed ==> result.execution == E.ExecutionResult(E.Top(candidates), true, Green) && pass.calls == [])
            && (result.situation.Some? <==> floor != Some(Red) && defensive && evaluated)
            && (result.situation.Some? ==>
                  && result.situation == Some(Classified(panel.value, Some(hat), candidates, EscalationFloor(escalation)))
                  && Bare(result.classification, result.execution.riskTier, WeightedScore(panel.value, Some(hat)), None))
            && (result.shortCircuit ==> Bare(result.classification, Red, -1.0, Some(ProhibitedTool)))
            && (result.bypassed || (candidates == [] && floor != Some(Red)) ==> Bare(result.classification, Green, 0.0, None))
            && (candidates != [] && floor != Some(Red) && !defensive ==>
                  result.classification == Classified(panel.value, Some(hat), candidates, MaxTier(EscalationFloor(escalation), floor)))
            && result.execution.riskTier ==
               if floor == Some(Red) then Red
               else if candidates == [] then Green
               else if !defensive then FinalTier(panel.value, Some(hat), MaxTier(EscalationFloor(escalation), floor))
               else if evaluated then FinalTier(panel.value, Some(hat), EscalationFloor(escalation))
               else Green
  {
    hide Refused, Bypassed, SituationEvaluated, Acted, FinalTier, GatesRecorded, WeightedScore, Bare;
    if floor == Some(Red) {
      RefusedFacts(candidates, tools, oracle);
    } else if candidates != [] && Defensive(candidates[0]) {
      if ShouldEvaluateSituation(intent, candidates[0], escalation) {
        SituationFacts(candidates, tools, hat, escalation, panel, oracle);
      } else {
        BypassedFacts(candidates, tools, escalation, oracle);
      }
    } else {
      ActedFacts(candidates, tools, hat, escalation, floor, panel, oracle);
    }
  }

  lemma TieredTier(tier: Tier, candidates: seq<Candidate>, tools: Tools, reply: E.ToolReply)
    ensures var r := E.Tiered(tier, candidates, tools, reply).result;
            r.Some? ==> r.value.riskTier == tier
  {
  }

  /**
    A triggered pass is never bypassed, and its tier is at least the trigger's tier exactly when
    something was proposed: an empty proposal is GREEN with no floor applied.
    */
  lemma EscalationFloorIff(tools: Tools, hat: HatConfig, message: string, history: seq<Turn>, oracle: Oracle)
    requires CheckEscalation(message, hat, history).triggered
    requires Processed(tools, hat, message, history, oracle).outcome.Done?
    ensures var result := Processed(tools, hat, message, history, oracle).outcome.result;
            var minTier := CheckEscalation(message, hat, history).minTier;
            && !result.bypassed
            && (result.execution.riskTier.Rank() >= minTier.Rank() <==> oracle.proposal.value != [] || minTier == Green)
  {
    GateNonEmpty(oracle.proposal.value, tools, Placeholders(hat.placeholderPatterns));
    var candidates := Remaining(tools, hat, oracle);
    RoutedEscalation(oracle.intent.value, candidates, tools, hat, CheckEscalation(message, hat, history),
                     PanelResults(oracle.replies), oracle);
  }

  lemma RoutedEscalation(intent: string, candidates: seq<Candidate>, tools: Tools, hat: HatConfig, escalation: EscalationResult,
                         panel: Option<seq<EvaluatorResult>>, oracle: Oracle)
    requires escalation.triggered
    requires Routed(intent, candidates, tools, hat, escalation, ProposalFloor(candidates, tools), panel, oracle).outcome.Done?
    ensures var result := Routed(intent, candidates, tools, hat, escalation, ProposalFloor(candidates, tools), panel, oracle).outcome.result;
            && !result.bypassed
            && (result.execution.riskTier.Rank() >= escalation.minTier.Rank() <==> candidates != [] || escalation.minTier == Green)
  {
    hide Routed, FinalTier;
    var floor := ProposalFloor(candidates, tools);
    RoutedTier(intent, candidates, tools, hat, escalation, floor, panel, oracle);
    if panel.Some? {
      FloorsHold(panel.value, hat, EscalationFloor(escalation));
      FloorsHold(panel.value, hat, MaxTier(EscalationFloor(escalation), floor));
    }
  }

  lemma FloorsHold(results: seq<EvaluatorResult>, hat: HatConfig, minTier: Option<Tier>)
    ensures AtLeast(FinalTier(results, Some(hat), minTier), minTier)
    ensures AtLeast(FinalTier(results, Some(hat), minTier), hat.minTier)
  {
  }

  /** An empty proposal is GREEN and runs nothing, whatever trigger fired. */
  lemma EmptyProposal(tools: Tools, hat: HatConfig, message: string, history: seq<Turn>, oracle: Oracle)
    requires oracle.proposal == Some([]) && Processed(tools, hat, message, history, oracle).outcome.Done?
    ensures var pass := Processed(tools, hat, message, history, oracle);
            pass.calls == [] && pass.outcome.result.execution.riskTier == Green && !pass.outcome.result.execution.success
  {
    GateNonEmpty([], tools, Placeholders(hat.placeholderPatterns));
  }

  /** On the action path every floor holds: the trigger's, each surviving candidate's, and the hat's. */
  lemma ActionFloors(tools: Tools, hat: HatConfig, message: string, history: seq<Turn>, oracle: Oracle, c: Candidate)
    requires Processed(tools, hat, message, history, oracle).outcome.Done?
    requires ActionPath(Remaining(tools, hat, oracle), tools) && c in Remaining(tools, hat, oracle)
    ensures var tier := Processed(tools, hat, message, history, oracle).outcome.result.execution.riskTier;
            && AtLeast(tier, DeclaredFloor(c, tools))
            && AtLeast(tier, hat.minTier)
            && AtLeast(tier, EscalationFloor(CheckEscalation(message, hat, history)))
  {
    var candidates := Remaining(tools, hat, oracle);
    var escalation := CheckEscalation(message, hat, history);
    var floor := ProposalFloor(candidates, tools);
    RoutedTier(oracle.intent.value, candidates, tools, hat, escalation, floor, PanelResults(oracle.replies), oracle);
    FloorIsMaximum(candidates, tools);
    FloorsHold(PanelResults(oracle.replies).value, hat, MaxTier(EscalationFloor(escalation), floor));
    MaxTierCovers(Processed(tools, hat, message, history, oracle).outcome.result.execution.riskTier,
                  EscalationFloor(escalation), floor);
  }

  lemma MaxTierCovers(tier: Tier, a: Option<Tier>, b: Option<Tier>)
    ensures AtLeast(tier, MaxTier(a, b)) <==> AtLeast(tier, a) && AtLeast(tier, b)
  {
  }

  /** A tool that is prohibited refuses the whole proposal, wherever it stands in it. */
  lemma ProhibitedToolRefuses(tools: Tools, hat: HatConfig, message: string, history: seq<Turn>, oracle: Oracle, c: Candidate)
    requires oracle.intent.Some? && oracle.proposal.Some?
    requires c in Remaining(tools, hat, oracle) && DeclaredFloor(c, tools) == Some(Red)
    ensures var pass := Processed(tools, hat, message, history, oracle);
            && pass.calls == []
            && (pass.outcome.Done? <==> !oracle.responseFails)
            && (pass.outcome.Done? ==>
                  && pass.outcome.result.execution.riskTier == Red && !pass.outcome.result.execution.success
                  && pass.outcome.result.shortCircuit && pass.outcome.result.floorTool.Some?)
  {
    hide Routed, PanelResults, CheckEscalation, ProposalFloor, FloorTrigger, Gated;
    var candidates := Remaining(tools, hat, oracle);
    RedFloor(candidates, tools, c);
    TriggerFound(candidates, tools, Red, c);
    RefusedMeaning(oracle.intent.value, candidates, tools, hat, CheckEscalation(message, hat, history), PanelResults(oracle.replies), oracle);
  }

  lemma RedFloor(candidates: seq<Candidate>, tools: Tools, c: Candidate)
    requires c in candidates && DeclaredFloor(c, tools) == Some(Red)
    ensures ProposalFloor(candidates, tools) == Some(Red)
  {
    FloorIsMaximum(candidates, tools);
  }

  lemma RefusedMeaning(intent: string, candidates: seq<Candidate>, tools: Tools, hat: HatConfig, escalation: EscalationResult,
                       panel: Option<seq<EvaluatorResult>>, oracle: Oracle)
    ensures var pass := Routed(intent, candidates, tools, hat, escalation, Some(Red), panel, oracle);
            && pass.calls == []
            && (pass.outcome.Done? <==> !oracle.responseFails)
            && (pass.outcome.Done? ==>
                  && pass.outcome.result.execution.riskTier == Red && !pass.outcome.result.execution.success
                  && pass.outcome.result.shortCircuit && pass.outcome.result.floorTool == FloorTrigger(candidates, tools, Red))
  {
  }

  lemma {:induction false} TriggerFound(candidates: seq<Candidate>, tools: Tools, floor: Tier, c: Candidate)
    requires c in candidates && DeclaredFloor(c, tools) == Some(floor)
    ensures FloorTrigger(candidates, tools, floor).Some?
  {
    if DeclaredFloor(candidates[0], tools) != Some(floor) {
      TriggerFound(candidates[1..], tools, floor, c);
    }
  }

  /** The first candidate that declares this floor. */
  predicate FirstWithFloor(candidates: seq<Candidate>, tools: Tools, floor: Tier, i: nat) {
    && i < |candidates| && DeclaredFloor(candidates[i], tools) == Some(floor)
    && forall j :: 0 <= j < i ==> DeclaredFloor(candidates[j], tools) != Some(floor)
  }

  lemma {:induction false} FirstTrigger(candidates: seq<Candidate>, tools: Tools, floor: Tier)
    ensures forall i: nat :: FirstWithFloor(candidates, tools, floor, i) ==>
              FloorTrigger(candidates, tools, floor) == Some(candidates[i].toolName)
  {
    if candidates != [] && DeclaredFloor(candidates[0], tools) != Some(floor) {
      FirstTrigger(candidates[1..], tools, floor);
      forall i: nat | FirstWithFloor(candidates, tools, floor, i)
        ensures FloorTrigger(candidates, tools, floor) == Some(candidates[i].toolName)
      {
        assert forall j :: 0 < j <= i ==> candidates[1..][j - 1] == candidates[j];
        assert FirstWithFloor(candidates[1..], tools, floor, i - 1);
      }
    }
  }

  /*** Declared floors on the defensive paths ***/

  const IDEAL_REPLY := Reply(Some(Number(1.0)), None, None)
  const IDEAL_REPLIES := Replies(IDEAL_REPLY, IDEAL_REPLY, IDEAL_REPLY, IDEAL_REPLY)

  /** The best weighted score that a hat's weights let any panel reach. */
  function BestScore(hat: HatConfig): real {
    var w := Weights(Some(hat));
    if Weight(w, "self_interest") == Weight(w, "tribal") == Weight(w, "domain") == Weight(w, "authority") == 0.0
    then 0.0 else 1.0
  }

  lemma IdealResult(seat: Seat)
    ensures ResultAt(seat, IDEAL_REPLY) == Some(Single(NAMES[seat.Index()], 1.0))
  {
    Unroll(TRIBAL_RULES, Parse("tribal", IDEAL_REPLY));
    Unroll(DOMAIN_RULES, Parse("domain", IDEAL_REPLY));
    Unroll(AUTHORITY_RULES, Parse("authority", IDEAL_REPLY));
  }

  lemma IdealReplies()
    ensures PanelResults(IDEAL_REPLIES) == Some(Panel(1.0, 1.0, 1.0, 1.0))
  {
    hide PanelResults, ResultAt;
    IdealResult(SelfInterest);
    IdealResult(Tribal);
    IdealResult(Domain);
    IdealResult(Authority);
    SeatedPanel(IDEAL_REPLIES, Tribal, IDEAL_REPLY);
  }

  lemma PanelInRange(replies: Replies)
    requires PanelResults(replies).Some?
    ensures NoHigher(PanelResults(replies).value, Panel(1.0, 1.0, 1.0, 1.0))
  {
    SeatedPanel(replies, Tribal, replies.tribal);
    assert Seated(replies, Tribal, replies.tribal) == replies;
    ResultInRange(SelfInterest, replies.selfInterest);
    ResultInRange(Tribal, replies.tribal);
    ResultInRange(Domain, replies.domain);
    ResultInRange(Authority, replies.authority);
  }

  lemma IdealPanel(hat: HatConfig, minTier: Option<Tier>)
    requires NonNegative(Weights(Some(hat)))
    ensures var p := Panel(1.0, 1.0, 1.0, 1.0);
            && AllFlags(p) == [] && !Disagree(p)
            && FinalTier(p, Some(hat), minTier) ==
               Raise(Raise(ScoreToTier(BestScore(hat), Thresholds(Some(hat))), minTier), hat.minTier)
  {
    IdealScore(hat);
    PanelSums(1.0, 1.0, 1.0, 1.0, Weights(Some(hat)));
    FourPairs(1.0, 1.0, 1.0, 1.0);
  }

  lemma IdealScore(hat: HatConfig)
    requires NonNegative(Weights(Some(hat)))
    ensures WeightedScore(Panel(1.0, 1.0, 1.0, 1.0), Some(hat)) == BestScore(hat)
  {
    var p, w := Panel(1.0, 1.0, 1.0, 1.0), Weights(Some(hat));
    PanelSums(1.0, 1.0, 1.0, 1.0, w);
    FullMark(p[0], w);
    FullMark(p[1], w);
    FullMark(p[2], w);
    FullMark(p[3], w);
    if WeightSum(p, w) != 0.0 {
      SelfQuotient(WeightSum(p, w));
    }
  }

  lemma FullMark(r: EvaluatorResult, weights: map<string, real>)
    requires r.score == 1.0 && NonNegative(weights)
    ensures Contribution(r, weights) == Weight(weights, r.evaluatorName) >= 0.0
  {
  }

  lemma SelfQuotient(x: real)
    requires x != 0.0
    ensures x / x == 1.0
  {
  }

  /** No panel beats the ideal one. */
  lemma IdealIsBest(replies: Replies, hat: HatConfig, minTier: Option<Tier>)
    requires NonNegative(Weights(Some(hat))) && PanelResults(replies).Some?
    ensures FinalTier(PanelResults(replies).value, Some(hat), minTier).Rank() >=
            FinalTier(Panel(1.0, 1.0, 1.0, 1.0), Some(hat), minTier).Rank()
  {
    PanelInRange(replies);
    IdealPanel(hat, minTier);
    MonotoneWithoutLostDisagreement(PanelResults(replies).value, Panel(1.0, 1.0, 1.0, 1.0), Some(hat), minTier);
  }

  /** The lowest tier that the configuration alone allows a pass with a defensive top candidate. */
  function DefensiveMinimum(candidates: seq<Candidate>, hat: HatConfig, intent: string, escalation: EscalationResult): Tier
    requires candidates != []
  {
    if ShouldEvaluateSituation(intent, candidates[0], escalation)
    then Raise(Raise(ScoreToTier(BestScore(hat), Thresholds(Some(hat))), EscalationFloor(escalation)), hat.minTier)
    else Green
  }

  /** The oracle with other panel replies. */
  function WithReplies(oracle: Oracle, replies: Replies): Oracle {
    oracle.(replies := replies)
  }

  /**
    With a defensive top candidate the declared floors of the other candidates are not passed on.
    They hold for every panel reply exactly when the configuration alone already ensures them.
    */
  lemma DefensiveFloorIff(tools: Tools, hat: HatConfig, message: string, history: seq<Turn>, oracle: Oracle)
    requires NonNegative(Weights(Some(hat)))
    requires oracle.intent.Some? && oracle.proposal.Some? && !oracle.treeFails && !oracle.responseFails
    requires Remaining(tools, hat, oracle) != [] && Defensive(Remaining(tools, hat, oracle)[0])
    requires ProposalFloor(Remaining(tools, hat, oracle), tools) != Some(Red)
    ensures var candidates := Remaining(tools, hat, oracle);
            (forall replies: Replies ::
               var outcome := Processed(tools, hat, message, history, WithReplies(oracle, replies)).outcome;
               outcome.Done? ==> AtLeast(outcome.result.execution.riskTier, ProposalFloor(candidates, tools)))
            <==>
            AtLeast(DefensiveMinimum(candidates, hat, oracle.intent.value, CheckEscalation(message, hat, history)),
                    ProposalFloor(candidates, tools))
  {
    var candidates := Remaining(tools, hat, oracle);
    var escalation := CheckEscalation(message, hat, history);
    var floor := ProposalFloor(candidates, tools);
    var minimum := DefensiveMinimum(candidates, hat, oracle.intent.value, escalation);
    forall replies: Replies
      ensures var outcome := Processed(tools, hat, message, history, WithReplies(oracle, replies)).outcome;
              outcome.Done? ==> outcome.result.execution.riskTier.Rank() >= minimum.Rank()
    {
      DefensiveTier(oracle.intent.value, candidates, tools, hat, escalation, floor, replies, WithReplies(oracle, replies));
    }
    IdealDefensiveTier(oracle.intent.value, candidates, tools, hat, escalation, floor, WithReplies(oracle, IDEAL_REPLIES));
    var ideal := Processed(tools, hat, message, history, WithReplies(oracle, IDEAL_REPLIES)).outcome;
    assert ideal.Done? && ideal.result.execution.riskTier == minimum;
  }

  /** On the defensive paths no reply gets below the configured minimum. */
  lemma DefensiveTier(intent: string, candidates: seq<Candidate>, tools: Tools, hat: HatConfig, escalation: EscalationResult,
                      floor: Option<Tier>, replies: Replies, oracle: Oracle)
    requires NonNegative(Weights(Some(hat)))
    requires candidates != [] && Defensive(candidates[0]) && floor != Some(Red)
    ensures var outcome := Routed(intent, candidates, tools, hat, escalation, floor, PanelResults(replies), oracle).outcome;
            outcome.Done? ==> outcome.result.execution.riskTier.Rank() >= DefensiveMinimum(candidates, hat, intent, escalation).Rank()
  {
    hide Routed, PanelResults, FinalTier, BestScore, ScoreToTier;
    if Routed(intent, candidates, tools, hat, escalation, floor, PanelResults(replies), oracle).outcome.Done? {
      RoutedTier(intent, candidates, tools, hat, escalation, floor, PanelResults(replies), oracle);
      if PanelResults(replies).Some? {
        IdealIsBest(replies, hat, EscalationFloor(escalation));
        IdealPanel(hat, EscalationFloor(escalation));
      }
    }
  }

  /** The ideal replies reach that minimum. */
  lemma IdealDefensiveTier(intent: string, candidates: seq<Candidate>, tools: Tools, hat: HatConfig, escalation: EscalationResult,
                           floor: Option<Tier>, oracle: Oracle)
    requires NonNegative(Weights(Some(hat)))
    requires candidates != [] && Defensive(candidates[0]) && floor != Some(Red)
    requires !oracle.treeFails && !oracle.responseFails
    ensures var outcome := Routed(intent, candidates, tools, hat, escalation, floor, PanelResults(IDEAL_REPLIES), oracle).outcome;
            outcome.Done? && outcome.result.execution.riskTier == DefensiveMinimum(candidates, hat, intent, escalation)
  {
    hide PanelResults, FinalTier, BestScore, ScoreToTier;
    IdealReplies();
    IdealPanel(hat, EscalationFloor(escalation));
  }

  /** A conversational top candidate hides the YELLOW floor of the refund proposed beside it. */
  lemma DeclaredFloorMissed(hat: HatConfig)
    requires hat.triggers == []
    ensures var converse, refund := Candidate(CONVERSE, []), Candidate("refund", []);
            var tools: Tools := map["refund" := Tool([], Some(Yellow), None)];
            var oracle := Oracle(Some("general_inquiry"), Some([converse, refund]), false, IDEAL_REPLIES, E.Returns(true), false);
            var pass := Processed(tools, hat, "hello", [], oracle);
            && DeclaredFloor(refund, tools) == Some(Yellow) && refund in Remaining(tools, hat, oracle)
            && pass.outcome.Done? && pass.outcome.result.execution.riskTier == Green
            && pass.outcome.result.floorValue.None?
  {
    var converse, refund := Candidate(CONVERSE, []), Candidate("refund", []);
    var tools: Tools := map["refund" := Tool([], Some(Yellow), None)];
    var oracle := Oracle(Some("general_inquiry"), Some([converse, refund]), false, IDEAL_REPLIES, E.Returns(true), false);
    var proposal := [converse, refund];
    assert |CONVERSE| != |"refund"|;
    forall c | c in proposal ensures Usable(c, tools, Placeholders(hat.placeholderPatterns)) {
      assert c == converse || c == refund;
    }
    GateTransparentIff(proposal, tools, Placeholders(hat.placeholderPatterns));
    assert Remaining(tools, hat, oracle) == proposal;
    assert proposal[1] == refund;
    assert proposal[1..] == [refund] && [refund][1..] == [];
    assert ProposalFloor([refund], tools) == Some(Yellow);
    assert ProposalFloor(proposal, tools) == Some(Yellow);
    RoutedTier("general_inquiry", proposal, tools, hat, NOT_TRIGGERED, Some(Yellow), PanelResults(IDEAL_REPLIES), oracle);
  }

  /*** What is reported ***/

  /** The pass made a registry call, and that call succeeded. */
  predicate CallSucceeded(pass: Pass, tools: Tools, reply: E.ToolReply) {
    pass.calls != [] && E.CallReply(tools, pass.calls[0].toolName, reply) == E.Returns(true)
  }

  /** The pass only answers: its top candidate is defensive and no tool is prohibited. */
  predicate OnlyAnswers(candidates: seq<Candidate>, tools: Tools) {
    candidates != [] && Defensive(candidates[0]) && ProposalFloor(candidates, tools) != Some(Red)
  }

  /** What the execution of a pass reports, and what stands behind it. */
  predicate Reported(pass: Pass, candidates: seq<Candidate>, tools: Tools, reply: E.ToolReply)
    requires pass.outcome.Done?
  {
    var execution := pass.outcome.result.execution;
    && (execution.success <==>
          || OnlyAnswers(candidates, tools)
          || (ActionPath(candidates, tools) && execution.riskTier == Yellow)
          || CallSucceeded(pass, tools, reply))
    && (pass.calls != [] ==> ActionPath(candidates, tools) && execution.riskTier != Yellow)
    && (if ActionPath(candidates, tools) && execution.riskTier == Orange && execution.success
        then execution.actionTaken == Candidate(ESCALATE, []) && pass.calls == [E.Call(ESCALATE, E.ESCALATION_PARAMETERS)]
        else execution.actionTaken == E.Top(candidates))
  }

  lemma TieredReport(tier: Tier, candidates: seq<Candidate>, tools: Tools, reply: E.ToolReply)
    requires candidates != [] && !Defensive(candidates[0]) && E.Tiered(tier, candidates, tools, reply).result.Some?
    ensures var step := E.Tiered(tier, candidates, tools, reply);
            var execution := step.result.value;
            && (execution.success <==>
                  execution.riskTier == Yellow
                  || (step.calls != [] && E.CallReply(tools, step.calls[0].toolName, reply) == E.Returns(true)))
            && execution.riskTier == tier
            && (if tier == Orange && execution.success
                then execution.actionTaken == Candidate(ESCALATE, []) && step.calls == [E.Call(ESCALATE, E.ESCALATION_PARAMETERS)]
                else execution.actionTaken == candidates[0])
            && (execution.riskTier == Yellow ==> step.calls == [])
  {
  }

  lemma RoutedReport(intent: string, candidates: seq<Candidate>, tools: Tools, hat: HatConfig, escalation: EscalationResult,
                     panel: Option<seq<EvaluatorResult>>, oracle: Oracle)
    requires Routed(intent, candidates, tools, hat, escalation, ProposalFloor(candidates, tools), panel, oracle).outcome.Done?
    ensures Reported(Routed(intent, candidates, tools, hat, escalation, ProposalFloor(candidates, tools), panel, oracle),
                     candidates, tools, oracle.toolReply)
  {
    hide Acted, FinalTier;
    if ProposalFloor(candidates, tools) != Some(Red) && (candidates == [] || !Defensive(candidates[0])) {
      ActedReport(candidates, tools, hat, escalation, panel, oracle);
    }
  }

  lemma ActedReport(candidates: seq<Candidate>, tools: Tools, hat: HatConfig, escalation: EscalationResult,
                    panel: Option<seq<EvaluatorResult>>, oracle: Oracle)
    requires candidates == [] || ActionPath(candidates, tools)
    requires Acted(candidates, tools, hat, escalation, ProposalFloor(candidates, tools), panel, oracle).outcome.Done?
    ensures Reported(Acted(candidates, tools, hat, escalation, ProposalFloor(candidates, tools), panel, oracle),
                     candidates, tools, oracle.toolReply)
  {
    hide FinalTier;
    if candidates != [] {
      var minTier := MaxTier(EscalationFloor(escalation), ProposalFloor(candidates, tools));
      TieredReport(PanelClassification(candidates, hat, minTier, panel, oracle).value.tier, candidates, tools, oracle.toolReply);
    }
  }

  /**
    Success is reported for an answer, a request to confirm, or a registry call that succeeded, and
    for nothing else; whatever is reported as taken is the top candidate, or the escalation tool after it was
    called with success.
    */
  lemma OutcomeHonest(tools: Tools, hat: HatConfig, message: string, history: seq<Turn>, oracle: Oracle)
    requires Processed(tools, hat, message, history, oracle).outcome.Done?
    ensures Reported(Processed(tools, hat, message, history, oracle), Remaining(tools, hat, oracle), tools, oracle.toolReply)
  {
    hide Routed, PanelResults, CheckEscalation, Reported, ProposalFloor;
    RoutedReport(oracle.intent.value, Remaining(tools, hat, oracle), tools, hat, CheckEscalation(message, hat, history),
                 PanelResults(oracle.replies), oracle);
  }

  /** A call's tool decides what is reported: it has to be registered, and to return with success. */
  lemma CallDecides(tools: Tools, hat: HatConfig, message: string, history: seq<Turn>, oracle: Oracle)
    requires Processed(tools, hat, message, history, oracle).calls != []
    requires Processed(tools, hat, message, history, oracle).outcome.Done?
    ensures var pass := Processed(tools, hat, message, history, oracle);
            pass.outcome.result.execution.success <==>
            pass.calls[0].toolName in tools && oracle.toolReply == E.Returns(true)
  {
    hide Routed, PanelResults, CheckEscalation, ProposalFloor, Gated, Reported;
    var candidates := Remaining(tools, hat, oracle);
    RoutedReport(oracle.intent.value, candidates, tools, hat, CheckEscalation(message, hat, history),
                 PanelResults(oracle.replies), oracle);
    ReportOfCall(Processed(tools, hat, message, history, oracle), candidates, tools, oracle.toolReply);
  }

  lemma ReportOfCall(pass: Pass, candidates: seq<Candidate>, tools: Tools, reply: E.ToolReply)
    requires pass.outcome.Done? && pass.calls != [] && Reported(pass, candidates, tools, reply)
    ensures pass.outcome.result.execution.success <==> pass.calls[0].toolName in tools && reply == E.Returns(true)
  {
  }

  /** The executor itself never runs converse or an empty proposal either, and reports success for the one and not for the other. */
  lemma ConverseNotRun(candidates: seq<Candidate>, tools: Tools, reply: E.ToolReply)
    requires candidates == [] || candidates[0].toolName == "converse"
    ensures var step := E.Tiered(Green, candidates, tools, reply);
            step.calls == [] && step.result.Some? && (step.result.value.success <==> candidates != [])
  {
  }

  /** The request of the pass is evaluated as a situation. */
  predicate EvaluatesSituation(oracle: Oracle, escalation: EscalationResult)
    requires oracle.intent.Some?
  {
    escalation.triggered || oracle.intent.value != "general_inquiry"
  }

  /** The panel could not be heard: no tree, or an evaluator raised. */
  predicate PanelFails(oracle: Oracle) {
    oracle.treeFails || PanelResults(oracle.replies).None?
  }

  /**
    Exactly when a pass is aborted: an unusable intent or proposal; a wording that fails where one is asked
    for; a panel that fails where it is heard; or a registered tool that raises when it is called.
    */
  lemma AbortedIff(tools: Tools, hat: HatConfig, message: string, history: seq<Turn>, oracle: Oracle)
    ensures var pass := Processed(tools, hat, message, history, oracle);
            pass.outcome.Aborted? <==>
            || oracle.intent.None? || oracle.proposal.None?
            || var candidates := Remaining(tools, hat, oracle);
               if ProposalFloor(candidates, tools) == Some(Red) || candidates == [] then oracle.responseFails
               else if Defensive(candidates[0]) then
                 oracle.responseFails || (EvaluatesSituation(oracle, CheckEscalation(message, hat, history)) && PanelFails(oracle))
               else
                 || PanelFails(oracle)
                 || (pass.calls != [] && pass.calls[0].toolName in tools && oracle.toolReply.Raises?)
                 || (ActionTier(tools, hat, message, history, oracle).Rank() <= 1 && oracle.responseFails)
  {
    if oracle.intent.Some? && oracle.proposal.Some? {
      hide Routed, PanelResults, CheckEscalation, Gated, FinalTier;
      var candidates := Remaining(tools, hat, oracle);
      RoutedAborts(candidates, tools, hat, CheckEscalation(message, hat, history), oracle);
    }
  }

  lemma RoutedAborts(candidates: seq<Candidate>, tools: Tools, hat: HatConfig, escalation: EscalationResult, oracle: Oracle)
    requires oracle.intent.Some?
    ensures var floor := ProposalFloor(candidates, tools);
            var pass := Routed(oracle.intent.value, candidates, tools, hat, escalation, floor, PanelResults(oracle.replies), oracle);
            pass.outcome.Aborted? <==>
            if floor == Some(Red) || candidates == [] then oracle.responseFails
            else if Defensive(candidates[0]) then oracle.responseFails || (EvaluatesSituation(oracle, escalation) && PanelFails(oracle))
            else
              || PanelFails(oracle)
              || (pass.calls != [] && pass.calls[0].toolName in tools && oracle.toolReply.Raises?)
              || (FinalTier(PanelResults(oracle.replies).value, Some(hat), MaxTier(EscalationFloor(escalation), floor)).Rank() <= 1
                  && oracle.responseFails)
  {
    hide PanelResults, FinalTier;
    var floor := ProposalFloor(candidates, tools);
    if floor != Some(Red) && candidates != [] && !Defensive(candidates[0]) && !PanelFails(oracle) {
      TieredRaises(FinalTier(PanelResults(oracle.replies).value, Some(hat), MaxTier(EscalationFloor(escalation), floor)),
                   candidates, tools, oracle.toolReply);
    }
  }

  lemma TieredRaises(tier: Tier, candidates: seq<Candidate>, tools: Tools, reply: E.ToolReply)
    requires candidates != [] && !Defensive(candidates[0])
    ensures var step := E.Tiered(tier, candidates, tools, reply);
            && (step.result.None? <==> step.calls != [] && step.calls[0].toolName in tools && reply.Raises?)
            && (step.result.Some? ==> step.result.value.riskTier == tier)
  {
  }

  /** Success without a call that succeeded and without a request to confirm is reported exactly for answers. */
  lemma UnbackedSuccessIff(tools: Tools, hat: HatConfig, message: string, history: seq<Turn>, oracle: Oracle)
    requires Processed(tools, hat, message, history, oracle).outcome.Done?
    ensures var pass, candidates := Processed(tools, hat, message, history, oracle), Remaining(tools, hat, oracle);
            var execution := pass.outcome.result.execution;
            execution.success && !(ActionPath(candidates, tools) && execution.riskTier == Yellow)
            && !CallSucceeded(pass, tools, oracle.toolReply)
            <==> OnlyAnswers(candidates, tools)
  {
    hide Processed;
    OutcomeHonest(tools, hat, message, history, oracle);
  }

  /** The record says that the case was escalated, with success. */
  predicate ClaimsEscalation(execution: E.ExecutionResult) {
    execution.success && execution.actionTaken.toolName == ESCALATE
  }

  /**
    A successful escalation is on record without the escalation tool having been called with success
    exactly when the top candidate is escalate_to_human and no tool is prohibited.
    */
  lemma EscalationClaimedIff(tools: Tools, hat: HatConfig, message: string, history: seq<Turn>, oracle: Oracle)
    requires Processed(tools, hat, message, history, oracle).outcome.Done?
    ensures var pass, candidates := Processed(tools, hat, message, history, oracle), Remaining(tools, hat, oracle);
            ClaimsEscalation(pass.outcome.result.execution)
            && !(CallSucceeded(pass, tools, oracle.toolReply) && pass.calls[0].toolName == ESCALATE)
            <==> ProposalFloor(candidates, tools) != Some(Red) && E.Top(candidates).toolName == ESCALATE
  {
    hide Processed;
    OutcomeHonest(tools, hat, message, history, oracle);
    assert "none"[0] != ESCALATE[0];
    assert |CONVERSE| != |ESCALATE|;
  }

  const PROPOSED_ESCALATION := Candidate(ESCALATE, [])

  /** A proposed escalation with ideal replies. */
  function EscalationRequest(intent: string): Oracle {
    Oracle(Some(intent), Some([PROPOSED_ESCALATION]), false, IDEAL_REPLIES, E.Returns(true), false)
  }

  lemma EscalationRemains(intent: string)
    ensures Remaining(PLAIN_TOOLS, PLAIN_HAT, EscalationRequest(intent)) == [PROPOSED_ESCALATION]
    ensures ProposalFloor([PROPOSED_ESCALATION], PLAIN_TOOLS) == None
  {
    assert |CONVERSE| != |ESCALATE|;
    GateTransparentIff([PROPOSED_ESCALATION], PLAIN_TOOLS, Placeholders(PLAIN_HAT.placeholderPatterns));
    assert [PROPOSED_ESCALATION][1..] == [];
  }

  lemma EscalationAnswered(intent: string, results: seq<EvaluatorResult>)
    ensures var pass := Routed(intent, [PROPOSED_ESCALATION], PLAIN_TOOLS, PLAIN_HAT, NOT_TRIGGERED, None, Some(results), EscalationRequest(intent));
            && pass.outcome.Done? && ClaimsEscalation(pass.outcome.result.execution) && pass.calls == []
            && (pass.outcome.result.bypassed <==> intent == "general_inquiry")
  {
    hide FinalTier;
  }

  /** A proposed escalation, evaluated as a situation or bypassed, is reported as done and never calls anything. */
  lemma EscalationClaimed(intent: string)
    ensures var pass := Processed(PLAIN_TOOLS, PLAIN_HAT, "hello", [], EscalationRequest(intent));
            && pass.outcome.Done? && ClaimsEscalation(pass.outcome.result.execution) && pass.calls == []
            && (pass.outcome.result.bypassed <==> intent == "general_inquiry")
  {
    hide Routed, PanelResults;
    EscalationRemains(intent);
    IdealReplies();
    EscalationAnswered(intent, Panel(1.0, 1.0, 1.0, 1.0));
  }

  /*** What is on record of the gates ***/

  /** A gate that did not fire says so in all its fields. */
  lemma MatchedIffTriggered(message: string, hat: HatConfig, history: seq<Turn>)
    ensures CheckEscalation(message, hat, history).matchedTrigger.Some? <==> CheckEscalation(message, hat, history).triggered
    ensures !CheckEscalation(message, hat, history).triggered ==>
              CheckEscalation(message, hat, history).minTier == Green && !CheckEscalation(message, hat, history).inherited
  {
  }

  /**
    What the record says of the gates agrees with the gates, with two exact exceptions: a prohibited tool
    drops the matched trigger, and a defensive top candidate drops the declared floor.
    */
  lemma RecordFaithful(tools: Tools, hat: HatConfig, message: string, history: seq<Turn>, oracle: Oracle)
    requires Processed(tools, hat, message, history, oracle).outcome.Done?
    ensures var result := Processed(tools, hat, message, history, oracle).outcome.result;
            var candidates, gate := Remaining(tools, hat, oracle), CheckEscalation(message, hat, history);
            var floor := ProposalFloor(candidates, tools);
            && result.candidates == candidates
            && (result.shortCircuit <==> floor == Some(Red))
            && (result.escalationTrigger == gate.matchedTrigger <==> !(floor == Some(Red) && gate.triggered))
            && (result.escalationTrigger != gate.matchedTrigger ==> result.escalationTrigger.None?)
            && (result.floorValue == floor <==>
                  !(candidates != [] && Defensive(candidates[0]) && floor.Some? && floor != Some(Red)))
            && (result.floorValue != floor ==> result.floorValue.None?)
            && (result.floorTool.Some? <==> result.floorValue.Some?)
            && (result.floorValue.Some? ==>
                  forall i: nat :: FirstWithFloor(candidates, tools, result.floorValue.value, i) ==>
                    result.floorTool == Some(candidates[i].toolName))
            && (result.shortCircuit ==> Bare(result.classification, Red, -1.0, Some(ProhibitedTool)))
            && (result.bypassed || candidates == [] ==> Bare(result.classification, Green, 0.0, None))
            && (result.situation.Some? <==> OnlyAnswers(candidates, tools) && !result.bypassed)
            && (result.situation.Some? ==>
                  && result.situation.value.tier == result.classification.tier == result.execution.riskTier
                  && Bare(result.classification, result.situation.value.tier, result.situation.value.weightedScore, None))
            && (result.bypassed ==> !gate.triggered)
  {
    hide Routed, PanelResults, CheckEscalation, FinalTier;
    var candidates, gate := Remaining(tools, hat, oracle), CheckEscalation(message, hat, history);
    var floor := ProposalFloor(candidates, tools);
    RoutedTier(oracle.intent.value, candidates, tools, hat, gate, floor, PanelResults(oracle.replies), oracle);
    MatchedIffTriggered(message, hat, history);
    FloorIsMaximum(candidates, tools);
    if floor.Some? {
      var c :| c in candidates && DeclaredFloor(c, tools) == floor;
      TriggerFound(candidates, tools, floor.value, c);
      FirstTrigger(candidates, tools, floor.value);
    }
  }

  /** A trigger that fired is not on record when the proposed tool is prohibited. */
  lemma TriggerDropped(hat: HatConfig)
    requires TwoTriggers(hat)
    ensures var tools: Tools := map["refund" := Tool([], Some(Red), None)];
            var pass := Processed(tools, hat, SEVERE, [], RefundRequest(IDEAL_REPLIES));
            && CheckEscalation(SEVERE, hat, []).matchedTrigger == Some(SEVERE)
            && pass.outcome.Done? && pass.outcome.result.escalationTrigger.None?
  {
    var tools: Tools := map["refund" := Tool([], Some(Red), None)];
    FloorDrops(hat);
    assert SEVERE_THEN_MILD[..0] == [] && AtTurn(SEVERE_THEN_MILD, 0, hat) == CheckEscalation(SEVERE, hat, []);
    GateTransparentIff([REFUND], tools, Placeholders(hat.placeholderPatterns));
    assert [REFUND][1..] == [] && ProposalFloor([REFUND], tools) == Some(Red);
  }

  /**
    Evaluation is skipped exactly for a defensive top candidate on an exempt intent, without a prohibited
    tool or a fired trigger; such a pass answers GREEN and leaves the registry alone.
    */
  lemma BypassedIff(tools: Tools, hat: HatConfig, message: string, history: seq<Turn>, oracle: Oracle)
    requires Processed(tools, hat, message, history, oracle).outcome.Done?
    ensures var pass, candidates := Processed(tools, hat, message, history, oracle), Remaining(tools, hat, oracle);
            var result := pass.outcome.result;
            && (result.bypassed <==>
                  && ProposalFloor(candidates, tools) != Some(Red)
                  && candidates != [] && Defensive(candidates[0])
                  && oracle.intent.value == "general_inquiry" && !CheckEscalation(message, hat, history).triggered)
            && (result.bypassed ==>
                  && result.execution == E.ExecutionResult(candidates[0], true, Green)
                  && result.escalationTrigger.None? && pass.calls == [])
  {
    hide Routed, PanelResults, CheckEscalation, FinalTier;
    var candidates := Remaining(tools, hat, oracle);
    RoutedTier(oracle.intent.value, candidates, tools, hat, CheckEscalation(message, hat, history),
               ProposalFloor(candidates, tools), PanelResults(oracle.replies), oracle);
    MatchedIffTriggered(message, hat, history);
  }

  /*** Whole conversations ***/

  /**
    Once a user turn has matched a trigger, no later turn of the conversation is bypassed, and every
    later turn that proposes something is held at the tier of its gate.
    */
  lemma ConversationHeld(tools: Tools, hat: HatConfig, exchanges: seq<Exchange>, j: nat, k: nat, oracle: Oracle)
    requires j <= k < |exchanges| && AtTurn(exchanges, j, hat).triggered
    requires Processed(tools, hat, exchanges[k].user, History(exchanges[..k]), oracle).outcome.Done?
    ensures var result := Processed(tools, hat, exchanges[k].user, History(exchanges[..k]), oracle).outcome.result;
            && !result.bypassed
            && (oracle.proposal.value != [] ==>
                  result.execution.riskTier.Rank() >= AtTurn(exchanges, k, hat).minTier.Rank())
  {
    EscalationSticky(exchanges, j, k, hat);
    EscalationFloorIff(tools, hat, exchanges[k].user, History(exchanges[..k]), oracle);
  }

  /** The lowest tier that scores, thresholds and the hat's own floor leave to any panel. */
  function ConfiguredMinimum(hat: HatConfig): Tier {
    Raise(ScoreToTier(BestScore(hat), Thresholds(Some(hat))), hat.minTier)
  }

  lemma TriggeredMinimum(intent: string, candidates: seq<Candidate>, tools: Tools, hat: HatConfig, escalation: EscalationResult,
                         replies: Replies, oracle: Oracle)
    requires NonNegative(Weights(Some(hat))) && escalation.triggered && candidates != []
    requires Routed(intent, candidates, tools, hat, escalation, ProposalFloor(candidates, tools), PanelResults(replies), oracle).outcome.Done?
    ensures Routed(intent, candidates, tools, hat, escalation, ProposalFloor(candidates, tools), PanelResults(replies), oracle)
              .outcome.result.execution.riskTier.Rank() >= ConfiguredMinimum(hat).Rank()
  {
    hide Routed, PanelResults, FinalTier, ConfiguredMinimum, ProposalFloor;
    var floor := ProposalFloor(candidates, tools);
    RoutedTier(intent, candidates, tools, hat, escalation, floor, PanelResults(replies), oracle);
    if PanelResults(replies).Some? {
      PanelMinimum(replies, hat, EscalationFloor(escalation));
      PanelMinimum(replies, hat, MaxTier(EscalationFloor(escalation), floor));
    }
  }

  lemma PanelMinimum(replies: Replies, hat: HatConfig, minTier: Option<Tier>)
    requires NonNegative(Weights(Some(hat))) && PanelResults(replies).Some?
    ensures FinalTier(PanelResults(replies).value, Some(hat), minTier).Rank() >= ConfiguredMinimum(hat).Rank()
  {
    hide PanelResults, FinalTier, BestScore, ScoreToTier;
    IdealIsBest(replies, hat, minTier);
    IdealPanel(hat, minTier);
  }

  /** The pass at turn k, if it ends and something was proposed, is held at the floor. */
  predicate HeldAt(tools: Tools, hat: HatConfig, exchanges: seq<Exchange>, k: nat, oracle: Oracle, floor: Tier)
    requires k < |exchanges|
  {
    var outcome := Processed(tools, hat, exchanges[k].user, History(exchanges[..k]), oracle).outcome;
    outcome.Done? && oracle.proposal.Some? && oracle.proposal.value != [] ==>
      outcome.result.execution.riskTier.Rank() >= floor.Rank()
  }

  /**
    The tier of the earliest matching turn binds every later pass, whatever is registered, proposed and
    replied, exactly when the later turn matches no milder trigger itself or the configuration alone
    ensures that tier.
    */
  lemma EarliestFloorHoldsIff(hat: HatConfig, exchanges: seq<Exchange>, e: nat, k: nat)
    requires NonNegative(Weights(Some(hat)))
    requires e < k < |exchanges| && Earliest(exchanges, e, hat)
    ensures var now, before := FirstMatch(exchanges[k].user, hat.triggers), FirstMatch(exchanges[e].user, hat.triggers);
            (forall tools: Tools, oracle: Oracle :: HeldAt(tools, hat, exchanges, k, oracle, TriggerTier(before.value, hat)))
            <==>
            (now.Some? ==> TriggerTier(now.value, hat).Rank() >= TriggerTier(before.value, hat).Rank())
            || ConfiguredMinimum(hat).Rank() >= TriggerTier(before.value, hat).Rank()
  {
    AtTurnMeaning(exchanges, e, hat);
    FloorKeptIff(exchanges, e, k, hat);
    var floor := AtTurn(exchanges, e, hat).minTier;
    if AtTurn(exchanges, k, hat).minTier.Rank() >= floor.Rank() || ConfiguredMinimum(hat).Rank() >= floor.Rank() {
      forall tools: Tools, oracle: Oracle ensures HeldAt(tools, hat, exchanges, k, oracle, floor) {
        LaterPassHeld(tools, hat, exchanges, e, k, oracle);
      }
    } else {
      EscalationSticky(exchanges, e, k, hat);
      IdealPassDrops(hat, exchanges, k, floor);
    }
  }

  /** The refund with ideal replies is given the lowest tier that the gate and the configuration allow. */
  lemma IdealOutcome(hat: HatConfig, message: string, history: seq<Turn>)
    requires NonNegative(Weights(Some(hat)))
    ensures var pass := Processed(PLAIN_TOOLS, hat, message, history, RefundRequest(IDEAL_REPLIES));
            && pass.outcome.Done?
            && pass.outcome.result.execution.riskTier ==
               Raise(ConfiguredMinimum(hat), EscalationFloor(CheckEscalation(message, hat, history)))
            && (pass.outcome.result.execution.riskTier == Orange ==> pass.calls == [E.Call(ESCALATE, E.ESCALATION_PARAMETERS)])
  {
    IdealReplies();
    IdealPanel(hat, EscalationFloor(CheckEscalation(message, hat, history)));
    RefundOutcome(hat, message, history, IDEAL_REPLIES);
    RaiseTwice(ScoreToTier(BestScore(hat), Thresholds(Some(hat))), EscalationFloor(CheckEscalation(message, hat, history)), hat.minTier);
  }

  lemma RaiseTwice(tier: Tier, a: Option<Tier>, b: Option<Tier>)
    ensures Raise(Raise(tier, a), b) == Raise(Raise(tier, b), a)
  {
  }

  lemma IdealPassDrops(hat: HatConfig, exchanges: seq<Exchange>, k: nat, floor: Tier)
    requires NonNegative(Weights(Some(hat))) && k < |exchanges| && AtTurn(exchanges, k, hat).triggered
    requires AtTurn(exchanges, k, hat).minTier.Rank() < floor.Rank() && ConfiguredMinimum(hat).Rank() < floor.Rank()
    ensures !HeldAt(PLAIN_TOOLS, hat, exchanges, k, RefundRequest(IDEAL_REPLIES), floor)
  {
    IdealOutcome(hat, exchanges[k].user, History(exchanges[..k]));
  }

  predicate LaterPass(tools: Tools, hat: HatConfig, exchanges: seq<Exchange>, k: nat, oracle: Oracle)
    requires k < |exchanges|
  {
    HeldAt(tools, hat, exchanges, k, oracle, AtTurn(exchanges, k, hat).minTier)
    && HeldAt(tools, hat, exchanges, k, oracle, ConfiguredMinimum(hat))
  }

  lemma LaterPassHeld(tools: Tools, hat: HatConfig, exchanges: seq<Exchange>, e: nat, k: nat, oracle: Oracle)
    requires NonNegative(Weights(Some(hat)))
    requires e < k < |exchanges| && AtTurn(exchanges, e, hat).triggered
    ensures LaterPass(tools, hat, exchanges, k, oracle)
  {
    var user, history := exchanges[k].user, History(exchanges[..k]);
    if Processed(tools, hat, user, history, oracle).outcome.Done? && oracle.proposal.value != [] {
      ConversationHeld(tools, hat, exchanges, e, k, oracle);
      EscalationSticky(exchanges, e, k, hat);
      GateNonEmpty(oracle.proposal.value, tools, Placeholders(hat.placeholderPatterns));
      TriggeredMinimum(oracle.intent.value, Remaining(tools, hat, oracle), tools, hat, AtTurn(exchanges, k, hat), oracle.replies, oracle);
    }
  }

  /** With the default weights and thresholds the ideal replies alone are GREEN. */
  lemma DefaultMinimum(hat: HatConfig)
    requires Weights(Some(hat)) == DEFAULT_WEIGHTS && Thresholds(Some(hat)) == DEFAULT_THRESHOLDS && hat.minTier.None?
    ensures NonNegative(Weights(Some(hat))) && ConfiguredMinimum(hat) == Green
  {
  }

  /** Under the default configuration a fired trigger alone gives its tier. */
  lemma GateAlone(hat: HatConfig, message: string, history: seq<Turn>, escalation: EscalationResult)
    requires Weights(Some(hat)) == DEFAULT_WEIGHTS && Thresholds(Some(hat)) == DEFAULT_THRESHOLDS && hat.minTier.None?
    requires CheckEscalation(message, hat, history) == escalation && escalation.triggered
    ensures var pass := Processed(PLAIN_TOOLS, hat, message, history, RefundRequest(IDEAL_REPLIES));
            && pass.outcome.Done? && pass.outcome.result.execution.riskTier == escalation.minTier
            && (escalation.minTier == Orange ==> pass.calls == [E.Call(ESCALATE, E.ESCALATION_PARAMETERS)])
  {
    hide Processed;
    DefaultMinimum(hat);
    IdealOutcome(hat, message, history);
  }

  /** The drop of the floor does reach a pass: the first turn is refused and the second only escalated. */
  lemma FloorDropReachesPass(hat: HatConfig)
    requires TwoTriggers(hat)
    requires Weights(Some(hat)) == DEFAULT_WEIGHTS && Thresholds(Some(hat)) == DEFAULT_THRESHOLDS && hat.minTier.None?
    ensures var first := TurnPass(hat, SEVERE_THEN_MILD, 0);
            first.outcome.Done? && first.outcome.result.execution.riskTier == Red
    ensures var second := TurnPass(hat, SEVERE_THEN_MILD, 1);
            && second.outcome.Done? && second.outcome.result.execution.riskTier == Orange
            && second.calls == [E.Call(ESCALATE, E.ESCALATION_PARAMETERS)]
  {
    FloorDrops(hat);
    var run := SEVERE_THEN_MILD;
    GateAlone(hat, run[0].user, History(run[..0]), AtTurn(run, 0, hat));
    GateAlone(hat, run[1].user, History(run[..1]), AtTurn(run, 1, hat));
  }

  /** The refund with ideal replies, at one turn of a conversation. */
  function TurnPass(hat: HatConfig, exchanges: seq<Exchange>, k: nat): Pass
    requires k < |exchanges|
  {
    Processed(PLAIN_TOOLS, hat, exchanges[k].user, History(exchanges[..k]), RefundRequest(IDEAL_REPLIES))
  }
}
