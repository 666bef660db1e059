/**
  Retry and reconnect control of the MCP client. The transport is an arbitrary answer to
  each request; requests are told apart by their JSON-RPC id.
  */
module McpClient {
  import opened Core

  /** The answer to one POST. A listing names the tools; a missing name is None. */
  datatype Answer =
    | Timeout
    | Unreachable
    | Broken
    | RpcError
    | Reply(tools: seq<Option<string>>)

  datatype Failure = ConnectionError | TimeoutError | ToolNotFound | OtherError

  datatype Result<+T> = Ok(value: T) | Raised(failure: Failure)

  /** The answers are indexed by request id, so that every adaptive transport is one of them. */
  datatype Config = Config(maxRetries: nat, baseDelay: real, transport: nat -> Answer)

  datatype State = State(connected: bool, requestId: nat, tools: set<string>, posted: seq<nat>, slept: real)

  function Pow2(n: nat): nat {
    if n == 0 then 1 else 2 * Pow2(n - 1)
  }

  function Delay(cfg: Config, attempt: nat): real
    requires attempt > 0
  {
    cfg.baseDelay * Pow2(attempt - 1) as real
  }

  /** The state after taking the next id and posting with it. */
  function Posted(s: State): State {
    s.(requestId := s.requestId + 1, posted := s.posted + [s.requestId + 1])
  }

  /** The state before a retry: a reconnect attempt if asked for, then the delay. */
  function Retried(cfg: Config, s: State, reconnect: bool, attempt: nat): (State, Result<()>)
    requires attempt > 0
    decreases if reconnect then 2 else 0, 0, 0
  {
    var (s1, r) := if reconnect && !s.connected then Connected(cfg, s) else (s, Ok(()));
    if r == Raised(OtherError) then (s1, r)
    else (s1.(slept := s1.slept + Delay(cfg, attempt)), Ok(()))
  }

  /** How one attempt ends: with a failure that is retried, or for good. */
  datatype Attempt = Again(failure: Failure) | Ended(result: Result<seq<Option<string>>>)

  /** One attempt: what comes before a retry, then a post and its answer. */
  function Attempted(cfg: Config, s: State, reconnect: bool, attempt: nat): (State, Attempt)
    decreases if reconnect then 2 else 0, 0, 1
  {
    var (s1, r) := if attempt > 0 then Retried(cfg, s, reconnect, attempt) else (s, Ok(()));
    if r.Raised? then (s1, Ended(Raised(r.failure)))
    else
      var s2 := Posted(s1);
      match cfg.transport(s2.requestId)
      case Timeout => (s2.(connected := false), Again(TimeoutError))
      case Unreachable => (s2.(connected := false), Again(ConnectionError))
      case Broken => (s2, Ended(Raised(OtherError)))
      case RpcError => (s2, Ended(Raised(ConnectionError)))
      case Reply(tools) => (s2, Ended(Ok(tools)))
  }

  /** The attempts from the given one on; last is the failure of the attempt before. */
  function Sent(cfg: Config, s: State, reconnect: bool, attempt: nat, last: Failure): (State, Result<seq<Option<string>>>)
    decreases if reconnect then 2 else 0, 1, cfg.maxRetries - attempt
  {
    if attempt >= cfg.maxRetries then (s, Raised(last))
    else
      var (s1, end) := Attempted(cfg, s, reconnect, attempt);
      match end
      case Again(failure) => Sent(cfg, s1, reconnect, attempt + 1, failure)
      case Ended(result) => (s1, result)
  }

  /** The names before the first missing one. */
  function Names(tools: seq<Option<string>>): set<string> {
    if tools == [] || tools[0].None? then {} else {tools[0].value} + Names(tools[1..])
  }

  predicate AllNamed(tools: seq<Option<string>>) {
    forall i :: 0 <= i < |tools| ==> tools[i].Some?
  }

  function Connected(cfg: Config, s: State): (State, Result<()>)
    decreases 1, 0, 0
  {
    var (s1, init) := Sent(cfg, s, false, 0, OtherError);
    if init.Raised? then (s1, Raised(if init.failure == OtherError then ConnectionError else init.failure))
    else
      var (s2, listing) := Sent(cfg, s1, false, 0, OtherError);
      if listing.Raised? then (s2, Raised(listing.failure))
      else if !AllNamed(listing.value) then (s2.(tools := Names(listing.value)), Raised(OtherError))
      else (s2.(tools := Names(listing.value), connected := true), Ok(()))
  }

  function Called(cfg: Config, s: State, tool: string): (State, Result<()>) {
    if tool !in s.tools then (s, Raised(ToolNotFound))
    else
      var (s1, r) := Sent(cfg, s, true, 0, OtherError);
      (s1, if r.Ok? then Ok(()) else Raised(r.failure))
  }

  class MCPClient {
    const cfg: Config
    var connected: bool
    var requestId: nat
    var tools: set<string>
    ghost var posted: seq<nat>
    ghost var slept: real

    constructor (cfg: Config)
      ensures this.cfg == cfg && View() == State(false, 0, {}, [], 0.0)
    {
      this.cfg := cfg;
      connected, requestId, tools, posted, slept := false, 0, {}, [], 0.0;
    }

    ghost function View(): State
      reads this
    {
      State(connected, requestId, tools, posted, slept)
    }

    method Post() returns (answer: Answer)
      modifies this
      ensures View() == Posted(old(View())) && answer == cfg.transport(requestId)
    {
      requestId := requestId + 1;
      posted := posted + [requestId];
      answer := cfg.transport(requestId);
    }

    method SendJsonRpc(reconnect: bool) returns (r: Result<seq<Option<string>>>)
      modifies this
      ensures (View(), r) == Sent(cfg, old(View()), reconnect, 0, OtherError)
      decreases if reconnect then 2 else 0
    {
      var last := OtherError;
      for attempt := 0 to cfg.maxRetries
        invariant Sent(cfg, View(), reconnect, attempt, last) == Sent(cfg, old(View()), reconnect, 0, OtherError)
      {
        ghost var before := View();
        if attempt > 0 {
          if reconnect && !connected {
            var reconnected := Connect();
            if reconnected == Raised(OtherError) {
              assert Retried(cfg, before, reconnect, attempt) == (View(), reconnected);
              return Raised(OtherError);
            }
          }
          slept := slept + Delay(cfg, attempt);
          assert Retried(cfg, before, reconnect, attempt) == (View(), Ok(()));
        }
        var answer := Post();
        match answer {
          case Timeout =>
            last, connected := TimeoutError, false;
          case Unreachable =>
            last, connected := ConnectionError, false;
          case Broken =>
            return Raised(OtherError);
          case RpcError =>
            return Raised(ConnectionError);
          case Reply(tools) =>
            return Ok(tools);
        }
      }
      return Raised(last);
    }

    method Connect() returns (r: Result<()>)
      modifies this
      ensures (View(), r) == Connected(cfg, old(View()))
      decreases 1
    {
      var init := SendJsonRpc(false);
      if init.Raised? {
        return Raised(if init.failure == OtherError then ConnectionError else init.failure);
      }
      var listing := SendJsonRpc(false);
      if listing.Raised? {
        return Raised(listing.failure);
      }
      tools := {};
      ghost var names := Names(listing.value);
      for i := 0 to |listing.value|
        invariant names == tools + Names(listing.value[i..])
        invariant forall j :: 0 <= j < i ==> listing.value[j].Some?
        invariant connected == Sent(cfg, Sent(cfg, old(View()), false, 0, OtherError).0, false, 0, OtherError).0.connected
        invariant View() == Sent(cfg, Sent(cfg, old(View()), false, 0, OtherError).0, false, 0, OtherError).0.(tools := tools)
      {
        assert listing.value[i..][1..] == listing.value[i + 1..];
        if listing.value[i].None? {
          return Raised(OtherError);
        }
        tools := tools + {listing.value[i].value};
      }
      connected := true;
      return Ok(());
    }

    method CallTool(tool: string) returns (r: Result<()>)
      modifies this
      ensures (View(), r) == Called(cfg, old(View()), tool)
    {
      if tool !in tools {
        return Raised(ToolNotFound);
      }
      var reply := SendJsonRpc(true);
      return if reply.Ok? then Ok(()) else Raised(reply.failure);
    }
  }
}
