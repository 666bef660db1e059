/**
  One pass of a message through the pipeline. Everything a language model or a tool
  contributes is an arbitrary input; the control code around it is deterministic.
  */
module AgentLoop {
  import opened Core
  import opened Conversation
  import opened RiskClassifier
  import opened Evaluators
  import opened ParameterGate
  import opened EscalationGate
  import opened RiskFloor
  import E = Executor

  /** The replies of the models and tools during one pass; None is an unusable reply. */
  datatype Oracle = Oracle(
    intent: Option<string>,
    proposal: Option<seq<Candidate>>,
    treeFails: bool,
    replies: Replies,
    toolReply: E.ToolReply,
    responseFails: bool)

  datatype PipelineResult = PipelineResult(
    candidates: seq<Candidate>,
    classification: RiskClassification,
    execution: E.ExecutionResult,
    bypassed: bool,
    escalationTrigger: Option<string>,
    shortCircuit: bool,
    floorTool: Option<string>,
    floorValue: Option<Tier>,
    situation: Option<RiskClassification>)

  /** A pass ends with a result, or an exception reaches the caller. */
  datatype Outcome = Aborted | Done(result: PipelineResult)

  datatype Pass = Pass(outcome: Outcome, calls: seq<E.Call>)

  const EXEMPT_INTENTS := {"general_inquiry"}

  predicate Defensive(c: Candidate) {
    c.toolName == CONVERSE || c.toolName == ESCALATE
  }

  predicate ShouldEvaluateSituation(intent: string, top: Candidate, escalation: EscalationResult) {
    Defensive(top) && (escalation.triggered || intent !in EXEMPT_INTENTS)
  }

  function Plain(tier: Tier, score: real): RiskClassification {
    RiskClassification(tier, score, map[], [], None, None, None)
  }

  function EscalationFloor(escalation: EscalationResult): Option<Tier> {
    if escalation.triggered then Some(escalation.minTier) else None
  }

  /** The first candidate whose tool declares exactly this floor. */
  function FloorTrigger(candidates: seq<Candidate>, tools: Tools, floor: Tier): Option<string> {
    if candidates == [] then None
    else if DeclaredFloor(candidates[0], tools) == Some(floor) then Some(candidates[0].toolName)
    else FloorTrigger(candidates[1..], tools, floor)
  }

  method FindFloorTrigger(candidates: seq<Candidate>, tools: Tools, floor: Tier) returns (r: Option<string>)
    ensures r == FloorTrigger(candidates, tools, floor)
  {
    for i := 0 to |candidates|
      invariant FloorTrigger(candidates, tools, floor) == FloorTrigger(candidates[i..], tools, floor)
    {
      assert candidates[i..][1..] == candidates[i + 1..];
      var tool := FindTool(tools, candidates[i].toolName);
      if tool.Some? && tool.value.riskFloor == Some(floor) {
        return Some(candidates[i].toolName);
      }
    }
    return None;
  }

  /*** The paths ***/

  /** A tool is prohibited by policy: refuse without evaluating anything. */
  function Refused(candidates: seq<Candidate>, tools: Tools, oracle: Oracle): Pass {
    if oracle.responseFails then Pass(Aborted, [])
    else
      var rc := Plain(Red, -1.0).(overrideReason := Some(ProhibitedTool));
      Pass(Done(PipelineResult(
        candidates, rc, E.ExecutionResult(E.Top(candidates), false, Red), false, None, true,
        FloorTrigger(candidates, tools, Red), Some(Red), None)), [])
  }

  /** Small talk: answer without any evaluation. */
  function Bypassed(candidates: seq<Candidate>, escalation: EscalationResult, oracle: Oracle): Pass {
    if oracle.responseFails then Pass(Aborted, [])
    else
      Pass(Done(PipelineResult(
        candidates, Plain(Green, 0.0), E.ExecutionResult(E.Top(candidates), true, Green), true,
        escalation.matchedTrigger, false, None, None, None)), [])
  }

  /** A defensive answer whose request is evaluated for the record. */
  function SituationEvaluated(candidates: seq<Candidate>, hat: HatConfig, escalation: EscalationResult,
                              panel: Option<seq<EvaluatorResult>>, oracle: Oracle): Pass
  {
    if oracle.treeFails || panel.None? || oracle.responseFails then Pass(Aborted, [])
    else
      var rc := Classified(panel.value, Some(hat), candidates, EscalationFloor(escalation));
      Pass(Done(PipelineResult(
        candidates, Plain(rc.tier, rc.weightedScore), E.ExecutionResult(E.Top(candidates), true, rc.tier), false,
        escalation.matchedTrigger, false, None, None, Some(rc))), [])
  }

  /** The classification of the action path; without a candidate there is no tree to evaluate. */
  function PanelClassification(candidates: seq<Candidate>, hat: HatConfig, minTier: Option<Tier>,
                               panel: Option<seq<EvaluatorResult>>, oracle: Oracle): Option<RiskClassification>
  {
    if candidates == [] then Some(Plain(Green, 0.0))
    else if oracle.treeFails || panel.None? then None
    else Some(Classified(panel.value, Some(hat), candidates, minTier))
  }

  /** Evaluate the proposal and act on it at the tier it is given. */
  function Acted(candidates: seq<Candidate>, tools: Tools, hat: HatConfig, escalation: EscalationResult,
                 floor: Option<Tier>, panel: Option<seq<EvaluatorResult>>, oracle: Oracle): Pass
  {
    var rc := PanelClassification(candidates, hat, MaxTier(EscalationFloor(escalation), floor), panel, oracle);
    if rc.None? then Pass(Aborted, [])
    else
      var step := E.Tiered(rc.value.tier, candidates, tools, oracle.toolReply);
      if step.result.None? then Pass(Aborted, step.calls)
      else if step.result.value.riskTier.Rank() <= 1 && oracle.responseFails then Pass(Aborted, step.calls)
      else
        Pass(Done(PipelineResult(
          candidates, rc.value, step.result.value, false, escalation.matchedTrigger, false,
          if floor.Some? then FloorTrigger(candidates, tools, floor.value) else None, floor, None)), step.calls)
  }

  /** The path that the surviving candidates take. */
  function Routed(intent: string, candidates: seq<Candidate>, tools: Tools, hat: HatConfig, escalation: EscalationResult,
                  floor: Option<Tier>, panel: Option<seq<EvaluatorResult>>, oracle: Oracle): Pass
  {
    if floor == Some(Red) then Refused(candidates, tools, oracle)
    else if candidates != [] && Defensive(candidates[0]) then
      if ShouldEvaluateSituation(intent, candidates[0], escalation)
      then SituationEvaluated(candidates, hat, escalation, panel, oracle)
      else Bypassed(candidates, escalation, oracle)
    else Acted(candidates, tools, hat, escalation, floor, panel, oracle)
  }

  /** The whole pass, as a function of configuration, message, history and replies. */
  function Processed(tools: Tools, hat: HatConfig, message: string, history: seq<Turn>, oracle: Oracle): Pass {
    if oracle.intent.None? || oracle.proposal.None? then Pass(Aborted, [])
    else
      var candidates := Gated(oracle.proposal.value, tools, Placeholders(hat.placeholderPatterns));
      Routed(oracle.intent.value, candidates, tools, hat, CheckEscalation(message, hat, history),
             ProposalFloor(candidates, tools), PanelResults(oracle.replies), oracle)
  }

  class AgentLoop {
    const registry: E.ToolRegistry
    const executor: E.Executor
    const hat: HatConfig

    constructor (registry: E.ToolRegistry, hat: HatConfig)
      ensures this.registry == registry && this.hat == hat && executor.registry == registry
    {
      this.registry := registry;
      this.hat := hat;
      executor := new E.Executor(registry);
    }

    method Process(message: string, history: seq<Turn>, oracle: Oracle) returns (outcome: Outcome)
      requires executor.registry == registry
      modifies registry`calls
      ensures var pass := Processed(registry.tools, hat, message, history, oracle);
              outcome == pass.outcome && registry.calls == old(registry.calls) + pass.calls
    {
      if oracle.intent.None? || oracle.proposal.None? {
        return Aborted;
      }
      var proposal := oracle.proposal.value;
      var tools := registry.tools;
      var gate := Validate(proposal, tools, Placeholders(hat.placeholderPatterns));
      if gate.promotedConverse || |gate.surviving| < |gate.original| {
        proposal := gate.surviving;
      }
      assert proposal == Gated(oracle.proposal.value, tools, Placeholders(hat.placeholderPatterns));
      var escalation := CheckEscalation(message, hat, history);
      var floor := GetProposalFloor(proposal, tools);

      if floor == Some(Red) {
        outcome := Refuse(proposal, oracle);
        return;
      }

      if proposal != [] && Defensive(proposal[0]) {
        if ShouldEvaluateSituation(oracle.intent.value, proposal[0], escalation) {
          outcome := HandleConverseWithEvaluation(proposal, escalation, oracle);
        } else {
          outcome := HandleConverse(proposal, escalation, oracle);
        }
        return;
      }

      outcome := Act(proposal, escalation, floor, oracle);
    }

    /** The RED short-circuit of a prohibited tool. */
    method Refuse(candidates: seq<Candidate>, oracle: Oracle) returns (outcome: Outcome)
      ensures outcome == Refused(candidates, registry.tools, oracle).outcome
    {
      var tool := FindFloorTrigger(candidates, registry.tools, Red);
      if oracle.responseFails {
        return Aborted;
      }
      var execution := E.ExecutionResult(E.Top(candidates), false, Red);
      var rc := Plain(Red, -1.0).(overrideReason := Some(ProhibitedTool));
      return Done(PipelineResult(candidates, rc, execution, false, None, true, tool, Some(Red), None));
    }

    /** The action path: evaluate, classify, act, and word the outcome. */
    method Act(candidates: seq<Candidate>, escalation: EscalationResult, floor: Option<Tier>, oracle: Oracle)
      returns (outcome: Outcome)
      requires executor.registry == registry
      modifies registry`calls
      ensures var pass := Acted(candidates, registry.tools, hat, escalation, floor, PanelResults(oracle.replies), oracle);
              outcome == pass.outcome && registry.calls == old(registry.calls) + pass.calls
    {
      var rc := RunEvaluationPanel(candidates, MaxTier(EscalationFloor(escalation), floor), oracle);
      if rc.None? {
        return Aborted;
      }
      var execution := executor.TieredExecute(rc.value.tier, candidates, oracle.toolReply);
      if execution.None? {
        return Aborted;
      }
      if (execution.value.riskTier == Green || execution.value.riskTier == Yellow) && oracle.responseFails {
        return Aborted;
      }
      var floorTool := None;
      if floor.Some? {
        floorTool := FindFloorTrigger(candidates, registry.tools, floor.value);
      }
      return Done(PipelineResult(
        candidates, rc.value, execution.value, false, escalation.matchedTrigger, false, floorTool, floor, None));
    }

    method HandleConverse(candidates: seq<Candidate>, escalation: EscalationResult, oracle: Oracle)
      returns (outcome: Outcome)
      requires candidates != []
      ensures outcome == Bypassed(candidates, escalation, oracle).outcome
    {
      if oracle.responseFails {
        return Aborted;
      }
      var execution := E.ExecutionResult(candidates[0], true, Green);
      return Done(PipelineResult(
        candidates, Plain(Green, 0.0), execution, true, escalation.matchedTrigger, false, None, None, None));
    }

    method HandleConverseWithEvaluation(candidates: seq<Candidate>, escalation: EscalationResult, oracle: Oracle)
      returns (outcome: Outcome)
      requires candidates != []
      ensures outcome == SituationEvaluated(candidates, hat, escalation, PanelResults(oracle.replies), oracle).outcome
    {
      if oracle.treeFails {
        return Aborted;
      }
      var results := RunPanel(oracle.replies);
      if results.None? {
        return Aborted;
      }
      var rc := Classify(results.value, Some(hat), candidates, EscalationFloor(escalation));
      if oracle.responseFails {
        return Aborted;
      }
      var execution := E.ExecutionResult(candidates[0], true, rc.tier);
      return Done(PipelineResult(
        candidates, Plain(rc.tier, rc.weightedScore), execution, false,
        escalation.matchedTrigger, false, None, None, Some(rc)));
    }

    method RunEvaluationPanel(candidates: seq<Candidate>, minTier: Option<Tier>, oracle: Oracle)
      returns (rc: Option<RiskClassification>)
      ensures rc == PanelClassification(candidates, hat, minTier, PanelResults(oracle.replies), oracle)
    {
      if candidates == [] {
        return Some(Plain(Green, 0.0));
      }
      if oracle.treeFails {
        return None;
      }
      var results := RunPanel(oracle.replies);
      if results.None? {
        return None;
      }
      var classification := Classify(results.value, Some(hat), candidates, minTier);
      return Some(classification);
    }
  }
}
