/** The tool registry with a trace of its calls, and the four tiered ways to act on a proposal. */
module Executor {
  import opened Core

  /** What a tool does when it is run: raise, or return with or without success. */
  datatype ToolReply = Raises | Returns(success: bool)

  datatype Call = Call(toolName: string, parameters: Dict)

  datatype ExecutionResult = ExecutionResult(actionTaken: Candidate, success: bool, riskTier: Tier)

  /** What a step did: its result, or nothing when an exception passed through, and the calls it made. */
  datatype Step = Step(result: Option<ExecutionResult>, calls: seq<Call>)

  const NO_CANDIDATE := Candidate("none", [])
  /** The fixed part of the escalation request; its third field carries explanation text. */
  const ESCALATION_PARAMETERS: Dict := [("reason", Text("Risk assessment: ORANGE")), ("priority", Text("high"))]

  /** An unknown tool is answered without running anything. */
  function CallReply(tools: Tools, name: string, reply: ToolReply): ToolReply {
    if name in tools then reply else Returns(false)
  }

  class ToolRegistry {
    var tools: Tools
    ghost var calls: seq<Call>

    constructor (tools: Tools)
      ensures this.tools == tools && calls == []
    {
      this.tools := tools;
      calls := [];
    }

    method Execute(name: string, parameters: Dict, reply: ToolReply) returns (r: ToolReply)
      modifies this`calls
      ensures calls == old(calls) + [Call(name, parameters)]
      ensures r == CallReply(tools, name, reply)
    {
      calls := calls + [Call(name, parameters)];
      if name !in tools {
        return Returns(false);
      }
      return reply;
    }
  }

  function Top(candidates: seq<Candidate>): Candidate {
    if candidates == [] then NO_CANDIDATE else candidates[0]
  }

  function Finish(c: Candidate, reply: ToolReply, tier: Tier, calls: seq<Call>): Step {
    match reply
    case Raises => Step(None, calls)
    case Returns(success) => Step(Some(ExecutionResult(c, success, tier)), calls)
  }

  /** GREEN: run the top candidate, unless there is none or it is conversational. */
  function Executed(candidates: seq<Candidate>, tools: Tools, reply: ToolReply): Step {
    var c := Top(candidates);
    if candidates == [] then Step(Some(ExecutionResult(c, false, Green)), [])
    else if c.toolName == CONVERSE then Step(Some(ExecutionResult(c, true, Green)), [])
    else Finish(c, CallReply(tools, c.toolName, reply), Green, [Call(c.toolName, c.parameters)])
  }

  /** ORANGE: call the escalation tool if there is one, and say so if it worked. */
  function Escalated(candidates: seq<Candidate>, tools: Tools, reply: ToolReply): Step {
    if ESCALATE !in tools then Step(Some(ExecutionResult(Top(candidates), false, Orange)), [])
    else
      var calls := [Call(ESCALATE, ESCALATION_PARAMETERS)];
      if reply == Returns(true) then Step(Some(ExecutionResult(Candidate(ESCALATE, []), true, Orange)), calls)
      else Finish(Top(candidates), reply, Orange, calls)
  }

  function Tiered(tier: Tier, candidates: seq<Candidate>, tools: Tools, reply: ToolReply): Step {
    match tier
    case Green => Executed(candidates, tools, reply)
    case Yellow => Step(Some(ExecutionResult(Top(candidates), true, Yellow)), [])
    case Orange => Escalated(candidates, tools, reply)
    case Red => Step(Some(ExecutionResult(Top(candidates), false, Red)), [])
  }

  class Executor {
    const registry: ToolRegistry

    constructor (registry: ToolRegistry)
      ensures this.registry == registry
    {
      this.registry := registry;
    }

    method Execute(candidates: seq<Candidate>, reply: ToolReply) returns (r: Option<ExecutionResult>)
      modifies registry`calls
      ensures r == Executed(candidates, registry.tools, reply).result
      ensures registry.calls == old(registry.calls) + Executed(candidates, registry.tools, reply).calls
    {
      if candidates == [] {
        return Some(ExecutionResult(NO_CANDIDATE, false, Green));
      }
      var c := candidates[0];
      if c.toolName == CONVERSE {
        return Some(ExecutionResult(c, true, Green));
      }
      var answer := registry.Execute(c.toolName, c.parameters, reply);
      if answer.Raises? {
        return None;
      }
      return Some(ExecutionResult(c, answer.success, Green));
    }

    method BuildEscalation(candidates: seq<Candidate>, reply: ToolReply) returns (r: Option<ExecutionResult>)
      modifies registry`calls
      ensures r == Escalated(candidates, registry.tools, reply).result
      ensures registry.calls == old(registry.calls) + Escalated(candidates, registry.tools, reply).calls
    {
      var c := Top(candidates);
      var answer := Returns(false);
      if ESCALATE in registry.tools {
        answer := registry.Execute(ESCALATE, ESCALATION_PARAMETERS, reply);
        if answer.Raises? {
          return None;
        }
      }
      if answer.success {
        return Some(ExecutionResult(Candidate(ESCALATE, []), true, Orange));
      }
      return Some(ExecutionResult(c, false, Orange));
    }

    method TieredExecute(tier: Tier, candidates: seq<Candidate>, reply: ToolReply) returns (r: Option<ExecutionResult>)
      modifies registry`calls
      ensures r == Tiered(tier, candidates, registry.tools, reply).result
      ensures registry.calls == old(registry.calls) + Tiered(tier, candidates, registry.tools, reply).calls
    {
      if tier == Green {
        r := Execute(candidates, reply);
        if r.Some? {
          r := Some(r.value.(riskTier := Green));
        }
        return;
      }
      if tier == Yellow {
        return Some(ExecutionResult(Top(candidates), true, Yellow));
      }
      if tier == Orange {
        r := BuildEscalation(candidates, reply);
        return;
      }
      return Some(ExecutionResult(Top(candidates), false, Red));
    }
  }
}
