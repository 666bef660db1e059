/** Bounds on what one tool call of the MCP client can cost, and what its outcome means. */
module McpLaws {
  import opened Core
  import opened McpClient

  /*** Request ids ***/

  /** Every post since the earlier state used the next id in turn. */
  predicate Advanced(before: State, after: State) {
    && after.requestId >= before.requestId
    && after.posted == before.posted + seq(after.requestId - before.requestId, i => before.requestId + 1 + i)
  }

  lemma AdvancedTransitive(a: State, b: State, c: State)
    requires Advanced(a, b) && Advanced(b, c)
    ensures Advanced(a, c)
  {
  }

  lemma {:induction false} AttemptAdvances(cfg: Config, s: State, reconnect: bool, attempt: nat)
    ensures Advanced(s, Attempted(cfg, s, reconnect, attempt).0)
    decreases if reconnect then 2 else 0, 0, 1
  {
    var s1 := if attempt > 0 then Retried(cfg, s, reconnect, attempt).0 else s;
    if attempt > 0 && reconnect && !s.connected {
      ConnectedAdvances(cfg, s);
    }
    assert Advanced(s, s1);
    AdvancedTransitive(s, s1, Posted(s1));
  }

  lemma {:induction false} SentAdvances(cfg: Config, s: State, reconnect: bool, attempt: nat, last: Failure)
    ensures Advanced(s, Sent(cfg, s, reconnect, attempt, last).0)
    decreases if reconnect then 2 else 0, 1, cfg.maxRetries - attempt
  {
    if attempt < cfg.maxRetries {
      var (s1, end) := Attempted(cfg, s, reconnect, attempt);
      AttemptAdvances(cfg, s, reconnect, attempt);
      if end.Again? {
        SentAdvances(cfg, s1, reconnect, attempt + 1, end.failure);
        AdvancedTransitive(s, s1, Sent(cfg, s1, reconnect, attempt + 1, end.failure).0);
      }
    }
  }

  lemma {:induction false} ConnectedAdvances(cfg: Config, s: State)
    ensures Advanced(s, Connected(cfg, s).0)
    decreases 1, 0, 0
  {
    var (s1, init) := Sent(cfg, s, false, 0, OtherError);
    SentAdvances(cfg, s, false, 0, OtherError);
    SentAdvances(cfg, s1, false, 0, OtherError);
    AdvancedTransitive(s, s1, Sent(cfg, s1, false, 0, OtherError).0);
  }

  /** Across all nested reconnects, a call's requests carry consecutive, hence strictly increasing, ids. */
  lemma IdsIncrease(cfg: Config, s: State, tool: string)
    ensures var after := Called(cfg, s, tool).0;
            && s.posted <= after.posted
            && |after.posted| - |s.posted| == after.requestId - s.requestId
            && forall i :: |s.posted| <= i < |after.posted| ==> after.posted[i] == s.requestId + 1 + (i - |s.posted|)
  {
    if tool in s.tools {
      SentAdvances(cfg, s, true, 0, OtherError);
    }
  }

  /*** Bounds ***/

  /** The delays before attempts from the given one on sum to this many base delays. */
  function Backoff(attempt: nat, retries: nat): nat
    decreases retries - attempt
  {
    if attempt >= retries then 0 else (if attempt > 0 then Pow2(attempt - 1) else 0) + Backoff(attempt + 1, retries)
  }

  lemma {:induction false} BackoffClosed(attempt: nat, retries: nat)
    requires 1 <= attempt <= retries
    ensures Backoff(attempt, retries) == Pow2(retries - 1) - Pow2(attempt - 1)
    ensures Pow2(attempt - 1) <= Pow2(retries - 1)
    decreases retries - attempt
  {
    if attempt < retries {
      BackoffClosed(attempt + 1, retries);
    }
  }

  lemma BackoffTotal(retries: nat)
    requires retries >= 1
    ensures Backoff(0, retries) == Pow2(retries - 1) - 1
  {
    BackoffClosed(1, retries);
  }

  /** At most this many posts, and at most this many base delays of sleep. */
  predicate Within(cfg: Config, before: State, after: State, posts: nat, delays: nat) {
    && after.requestId <= before.requestId + posts
    && after.slept <= before.slept + cfg.baseDelay * delays as real
  }

  lemma WithinSum(cfg: Config, a: State, b: State, c: State, p: nat, d: nat, q: nat, e: nat)
    requires Within(cfg, a, b, p, d) && Within(cfg, b, c, q, e)
    ensures Within(cfg, a, c, p + q, d + e)
  {
    assert cfg.baseDelay * (d + e) as real == cfg.baseDelay * d as real + cfg.baseDelay * e as real;
  }

  lemma WithinMore(cfg: Config, a: State, b: State, p: nat, d: nat, q: nat, e: nat)
    requires Within(cfg, a, b, p, d) && p <= q && d <= e && cfg.baseDelay >= 0.0
    ensures Within(cfg, a, b, q, e)
  {
    assert cfg.baseDelay * (e - d) as real >= 0.0;
    assert cfg.baseDelay * e as real == cfg.baseDelay * d as real + cfg.baseDelay * (e - d) as real;
  }

  /** What one reconnect may cost: two full rounds of attempts. */
  function ReconnectPosts(cfg: Config): nat { 2 * cfg.maxRetries }
  function ReconnectDelays(cfg: Config): nat { 2 * Backoff(0, cfg.maxRetries) }

  /** What one attempt may cost. */
  function AttemptPosts(cfg: Config, reconnect: bool, attempt: nat): nat {
    (if reconnect && attempt > 0 then ReconnectPosts(cfg) else 0) + 1
  }

  function AttemptDelays(cfg: Config, reconnect: bool, attempt: nat): nat {
    (if reconnect && attempt > 0 then ReconnectDelays(cfg) else 0) + (if attempt > 0 then Pow2(attempt - 1) else 0)
  }

  function PostBound(cfg: Config, reconnect: bool, attempt: nat): nat
    decreases cfg.maxRetries - attempt
  {
    if attempt >= cfg.maxRetries then 0
    else AttemptPosts(cfg, reconnect, attempt) + PostBound(cfg, reconnect, attempt + 1)
  }

  function DelayBound(cfg: Config, reconnect: bool, attempt: nat): nat
    decreases cfg.maxRetries - attempt
  {
    if attempt >= cfg.maxRetries then 0
    else AttemptDelays(cfg, reconnect, attempt) + DelayBound(cfg, reconnect, attempt + 1)
  }

  lemma {:induction false} PlainBounds(cfg: Config, attempt: nat)
    ensures PostBound(cfg, false, attempt) == if attempt >= cfg.maxRetries then 0 else cfg.maxRetries - attempt
    ensures DelayBound(cfg, false, attempt) == Backoff(attempt, cfg.maxRetries)
    decreases cfg.maxRetries - attempt
  {
    if attempt < cfg.maxRetries {
      PlainBounds(cfg, attempt + 1);
    }
  }

  lemma {:induction false} ReconnectBounds(cfg: Config, attempt: nat)
    requires 1 <= attempt <= cfg.maxRetries
    ensures PostBound(cfg, true, attempt) == (cfg.maxRetries - attempt) * (ReconnectPosts(cfg) + 1)
    ensures DelayBound(cfg, true, attempt) ==
            (cfg.maxRetries - attempt) * ReconnectDelays(cfg) + Backoff(attempt, cfg.maxRetries)
    decreases cfg.maxRetries - attempt
  {
    if attempt < cfg.maxRetries {
      ReconnectBounds(cfg, attempt + 1);
      var k := cfg.maxRetries - attempt;
      assert k * (ReconnectPosts(cfg) + 1) == (k - 1) * (ReconnectPosts(cfg) + 1) + (ReconnectPosts(cfg) + 1);
      assert k * ReconnectDelays(cfg) == (k - 1) * ReconnectDelays(cfg) + ReconnectDelays(cfg);
    }
  }

  lemma {:induction false} RetriedWithin(cfg: Config, s: State, reconnect: bool, attempt: nat)
    requires cfg.baseDelay >= 0.0 && 0 < attempt < cfg.maxRetries
    ensures Within(cfg, s, Retried(cfg, s, reconnect, attempt).0,
                   if reconnect then ReconnectPosts(cfg) else 0,
                   (if reconnect then ReconnectDelays(cfg) else 0) + Pow2(attempt - 1))
    decreases if reconnect then 2 else 0, 0, 0
  {
    var (s1, r) := if reconnect && !s.connected then Connected(cfg, s) else (s, Ok(()));
    var p, d := if reconnect then ReconnectPosts(cfg) else 0, if reconnect then ReconnectDelays(cfg) else 0;
    if reconnect && !s.connected {
      ConnectedWithin(cfg, s);
    } else {
      WithinMore(cfg, s, s, 0, 0, p, d);
    }
    assert Within(cfg, s, s1, p, d);
    WithinMore(cfg, s, s1, p, d, p, d + Pow2(attempt - 1));
    var s2 := s1.(slept := s1.slept + Delay(cfg, attempt));
    WithinSum(cfg, s, s1, s2, p, d, 0, Pow2(attempt - 1));
  }

  lemma {:induction false} AttemptWithin(cfg: Config, s: State, reconnect: bool, attempt: nat)
    requires cfg.baseDelay >= 0.0 && attempt < cfg.maxRetries
    ensures Within(cfg, s, Attempted(cfg, s, reconnect, attempt).0,
                   AttemptPosts(cfg, reconnect, attempt), AttemptDelays(cfg, reconnect, attempt))
    decreases if reconnect then 2 else 0, 0, 1
  {
    var s1 := if attempt > 0 then Retried(cfg, s, reconnect, attempt).0 else s;
    var p, d := AttemptPosts(cfg, reconnect, attempt) - 1, AttemptDelays(cfg, reconnect, attempt);
    if attempt > 0 {
      RetriedWithin(cfg, s, reconnect, attempt);
    }
    assert Within(cfg, s, s1, p, d);
    WithinMore(cfg, s, s1, p, d, p + 1, d);
    WithinSum(cfg, s, s1, Posted(s1), p, d, 1, 0);
  }

  lemma {:induction false} SentWithin(cfg: Config, s: State, reconnect: bool, attempt: nat, last: Failure)
    requires cfg.baseDelay >= 0.0
    ensures Within(cfg, s, Sent(cfg, s, reconnect, attempt, last).0,
                   PostBound(cfg, reconnect, attempt), DelayBound(cfg, reconnect, attempt))
    decreases if reconnect then 2 else 0, 1, cfg.maxRetries - attempt
  {
    if attempt < cfg.maxRetries {
      var (s1, end) := Attempted(cfg, s, reconnect, attempt);
      var p, d := AttemptPosts(cfg, reconnect, attempt), AttemptDelays(cfg, reconnect, attempt);
      var q, e := PostBound(cfg, reconnect, attempt + 1), DelayBound(cfg, reconnect, attempt + 1);
      AttemptWithin(cfg, s, reconnect, attempt);
      WithinMore(cfg, s, s1, p, d, p + q, d + e);
      if end.Again? {
        SentWithin(cfg, s1, reconnect, attempt + 1, end.failure);
        WithinSum(cfg, s, s1, Sent(cfg, s1, reconnect, attempt + 1, end.failure).0, p, d, q, e);
      }
    }
  }

  lemma {:induction false} ConnectedWithin(cfg: Config, s: State)
    requires cfg.baseDelay >= 0.0
    ensures Within(cfg, s, Connected(cfg, s).0, ReconnectPosts(cfg), ReconnectDelays(cfg))
    decreases 1, 0, 0
  {
    var r, b := cfg.maxRetries, Backoff(0, cfg.maxRetries);
    PlainBounds(cfg, 0);
    var (s1, init) := Sent(cfg, s, false, 0, OtherError);
    SentWithin(cfg, s, false, 0, OtherError);
    SentWithin(cfg, s1, false, 0, OtherError);
    WithinSum(cfg, s, s1, Sent(cfg, s1, false, 0, OtherError).0, r, b, r, b);
    WithinMore(cfg, s, s1, r, b, r + r, b + b);
  }

  lemma ClosedBounds(cfg: Config)
    requires cfg.maxRetries >= 1
    ensures PostBound(cfg, true, 0) == 2 * cfg.maxRetries * cfg.maxRetries - cfg.maxRetries
    ensures DelayBound(cfg, true, 0) == (2 * cfg.maxRetries - 1) * (Pow2(cfg.maxRetries - 1) - 1)
  {
    var r, b := cfg.maxRetries, Pow2(cfg.maxRetries - 1) - 1;
    ReconnectBounds(cfg, 1);
    BackoffTotal(r);
    BackoffClosed(1, r);
    PostArithmetic(r);
    DelayArithmetic(r, b);
    assert PostBound(cfg, true, 0) == 1 + PostBound(cfg, true, 1);
    assert DelayBound(cfg, true, 0) == DelayBound(cfg, true, 1);
  }

  lemma PostArithmetic(r: nat)
    ensures 1 + (r - 1) * (2 * r + 1) == 2 * r * r - r
  {
  }

  lemma DelayArithmetic(r: nat, b: nat)
    ensures (r - 1) * (2 * b) + b == (2 * r - 1) * b
  {
  }

  /** One call, with all its reconnects, posts at most 2R^2 - R requests and sleeps at most b(2R-1)(2^(R-1)-1). */
  lemma CallBounds(cfg: Config, s: State, tool: string)
    requires cfg.maxRetries >= 1 && cfg.baseDelay >= 0.0
    ensures var after, r := Called(cfg, s, tool).0, cfg.maxRetries;
            && after.requestId - s.requestId <= 2 * r * r - r
            && after.slept - s.slept <= cfg.baseDelay * ((2 * r - 1) * (Pow2(r - 1) - 1)) as real
  {
    BackoffClosed(1, cfg.maxRetries);
    ClosedBounds(cfg);
    SentWithin(cfg, s, true, 0, OtherError);
    WithinMore(cfg, s, s, 0, 0, PostBound(cfg, true, 0), DelayBound(cfg, true, 0));
  }

  /*** The bounds are attained ***/

  /** Answers that make every round fail as late as possible: only the last initialize of each reconnect succeeds. */
  function Slowest(start: nat, retries: nat, id: nat): Answer
    decreases id
  {
    if id <= start then Timeout
    else if id <= start + 2 * retries + 1 then if id == start + retries + 1 then Reply([]) else Timeout
    else Slowest(start, retries, id - (2 * retries + 1))
  }

  /** Exactly this many posts and base delays of sleep. */
  predicate Cost(cfg: Config, before: State, after: State, posts: nat, delays: nat) {
    && after.requestId == before.requestId + posts
    && after.slept == before.slept + cfg.baseDelay * delays as real
  }

  lemma CostSum(cfg: Config, a: State, b: State, c: State, p: nat, d: nat, q: nat, e: nat)
    requires Cost(cfg, a, b, p, d) && Cost(cfg, b, c, q, e)
    ensures Cost(cfg, a, c, p + q, d + e)
  {
    assert cfg.baseDelay * (d + e) as real == cfg.baseDelay * d as real + cfg.baseDelay * e as real;
  }

  /** The delay and the post of a plain attempt. */
  function PlainStep(cfg: Config, s: State, attempt: nat): State {
    Posted(if attempt > 0 then s.(slept := s.slept + Delay(cfg, attempt)) else s)
  }

  lemma PlainStepCost(cfg: Config, s: State, attempt: nat)
    ensures Cost(cfg, s, PlainStep(cfg, s, attempt), 1, if attempt > 0 then Pow2(attempt - 1) else 0)
  {
  }

  lemma PlainStepSent(cfg: Config, s: State, attempt: nat, last: Failure)
    requires attempt < cfg.maxRetries
    ensures var s2 := PlainStep(cfg, s, attempt);
            && (cfg.transport(s2.requestId) == Timeout ==>
                  Sent(cfg, s, false, attempt, last) == Sent(cfg, s2.(connected := false), false, attempt + 1, TimeoutError))
            && (cfg.transport(s2.requestId) == Reply([]) ==> Sent(cfg, s, false, attempt, last) == (s2, Ok([])))
  {
  }

  /** A plain round whose answers are timeouts up to the last one. */
  lemma {:induction false} SlowRound(cfg: Config, s: State, attempt: nat, last: Failure)
    requires attempt < cfg.maxRetries
    requires forall id :: s.requestId < id < s.requestId + (cfg.maxRetries - attempt) ==> cfg.transport(id) == Timeout
    requires cfg.transport(s.requestId + (cfg.maxRetries - attempt)) in {Timeout, Reply([])}
    ensures var (after, r) := Sent(cfg, s, false, attempt, last);
            && Cost(cfg, s, after, cfg.maxRetries - attempt, Backoff(attempt, cfg.maxRetries))
            && (cfg.transport(after.requestId) == Timeout ==> r == Raised(TimeoutError) && !after.connected)
            && (cfg.transport(after.requestId) == Reply([]) ==> r == Ok([]))
    decreases cfg.maxRetries - attempt
  {
    var s2 := PlainStep(cfg, s, attempt);
    PlainStepCost(cfg, s, attempt);
    PlainStepSent(cfg, s, attempt, last);
    if attempt + 1 < cfg.maxRetries {
      var s3 := s2.(connected := false);
      SlowRound(cfg, s3, attempt + 1, TimeoutError);
      CostSum(cfg, s, s3, Sent(cfg, s3, false, attempt + 1, TimeoutError).0,
              1, if attempt > 0 then Pow2(attempt - 1) else 0,
              cfg.maxRetries - attempt - 1, Backoff(attempt + 1, cfg.maxRetries));
    }
  }

  /** From this id on, the transport repeats the slowest block. */
  ghost predicate SlowFrom(cfg: Config, base: nat) {
    forall id: nat :: id > base ==> cfg.transport(id) == Slowest(base, cfg.maxRetries, id)
  }

  lemma {:induction false} SlowestShift(start: nat, retries: nat, id: nat)
    requires id > start + 2 * retries + 1
    ensures Slowest(start, retries, id) == Slowest(start + 2 * retries + 1, retries, id)
    decreases id
  {
    var block := 2 * retries + 1;
    if id - block > start + block {
      SlowestShift(start, retries, id - block);
    }
  }

  lemma NextBlock(cfg: Config, base: nat)
    requires SlowFrom(cfg, base)
    ensures SlowFrom(cfg, base + 2 * cfg.maxRetries + 1)
  {
    var next := base + 2 * cfg.maxRetries + 1;
    forall id: nat | id > next ensures cfg.transport(id) == Slowest(next, cfg.maxRetries, id) {
      SlowestShift(base, cfg.maxRetries, id);
    }
  }

  lemma SlowReconnect(cfg: Config, base: nat, s: State)
    requires SlowFrom(cfg, base) && cfg.maxRetries >= 1 && s.requestId == base + 1
    ensures var (after, r) := Connected(cfg, s);
            r == Raised(TimeoutError) && Cost(cfg, s, after, ReconnectPosts(cfg), ReconnectDelays(cfg))
  {
    var r, b := cfg.maxRetries, Backoff(0, cfg.maxRetries);
    SlowRound(cfg, s, 0, OtherError);
    var s1 := Sent(cfg, s, false, 0, OtherError).0;
    SlowRound(cfg, s1, 0, OtherError);
    CostSum(cfg, s, s1, Sent(cfg, s1, false, 0, OtherError).0, r, b, r, b);
  }

  /** A retry of the call on the slowest transport: a failed reconnect, the delay, and a timeout. */
  lemma SlowRetry(cfg: Config, base: nat, s: State, attempt: nat, last: Failure) returns (next: State)
    requires SlowFrom(cfg, base) && 1 <= attempt < cfg.maxRetries && s.requestId == base + 1 && !s.connected
    ensures Sent(cfg, s, true, attempt, last) == Sent(cfg, next, true, attempt + 1, TimeoutError)
    ensures Cost(cfg, s, next, ReconnectPosts(cfg) + 1, ReconnectDelays(cfg) + Pow2(attempt - 1))
    ensures !next.connected
  {
    SlowReconnect(cfg, base, s);
    var s1 := Connected(cfg, s).0;
    var s2 := s1.(slept := s1.slept + Delay(cfg, attempt));
    next := Posted(s2).(connected := false);
    assert Retried(cfg, s, true, attempt) == (s2, Ok(()));
    NextBlock(cfg, base);
    assert cfg.transport(next.requestId) == Slowest(base + 2 * cfg.maxRetries + 1, cfg.maxRetries, next.requestId) == Timeout;
    CostSum(cfg, s, s1, next, ReconnectPosts(cfg), ReconnectDelays(cfg), 1, Pow2(attempt - 1));
  }

  lemma {:induction false} SlowCall(cfg: Config, base: nat, s: State, attempt: nat, last: Failure)
    requires SlowFrom(cfg, base) && 1 <= attempt <= cfg.maxRetries && s.requestId == base + 1 && !s.connected
    ensures Cost(cfg, s, Sent(cfg, s, true, attempt, last).0, PostBound(cfg, true, attempt), DelayBound(cfg, true, attempt))
    decreases cfg.maxRetries - attempt
  {
    if attempt < cfg.maxRetries {
      var next := SlowRetry(cfg, base, s, attempt, last);
      NextBlock(cfg, base);
      SlowCall(cfg, base + 2 * cfg.maxRetries + 1, next, attempt + 1, TimeoutError);
      CostSum(cfg, s, next, Sent(cfg, next, true, attempt + 1, TimeoutError).0,
              ReconnectPosts(cfg) + 1, ReconnectDelays(cfg) + Pow2(attempt - 1),
              PostBound(cfg, true, attempt + 1), DelayBound(cfg, true, attempt + 1));
    }
  }

  /** For every number of retries there is a transport that makes a call cost exactly the bounds. */
  lemma BoundsAttained(retries: nat, baseDelay: real, s: State, tool: string) returns (cfg: Config)
    requires retries >= 1 && tool in s.tools
    ensures cfg.maxRetries == retries && cfg.baseDelay == baseDelay
    ensures var after, r := Called(cfg, s, tool).0, retries;
            && after.requestId - s.requestId == 2 * r * r - r
            && after.slept - s.slept == baseDelay * ((2 * r - 1) * (Pow2(r - 1) - 1)) as real
  {
    hide Called, Slowest, Pow2;
    cfg := Config(retries, baseDelay, (id: nat) => Slowest(s.requestId, retries, id));
    assert SlowFrom(cfg, s.requestId);
    SlowestCall(cfg, s, tool);
    AttainedClosed(cfg, s, Called(cfg, s, tool).0);
  }

  lemma SlowestCall(cfg: Config, s: State, tool: string)
    requires cfg.maxRetries >= 1 && tool in s.tools && SlowFrom(cfg, s.requestId)
    ensures Cost(cfg, s, Called(cfg, s, tool).0, 1 + PostBound(cfg, true, 1), 0 + DelayBound(cfg, true, 1))
  {
    var s1 := Posted(s).(connected := false);
    assert cfg.transport(s1.requestId) == Slowest(s.requestId, cfg.maxRetries, s.requestId + 1) == Timeout;
    assert Sent(cfg, s, true, 0, OtherError) == Sent(cfg, s1, true, 1, TimeoutError);
    SlowCall(cfg, s.requestId, s1, 1, TimeoutError);
    CostSum(cfg, s, s1, Sent(cfg, s1, true, 1, TimeoutError).0, 1, 0, PostBound(cfg, true, 1), DelayBound(cfg, true, 1));
  }

  lemma AttainedClosed(cfg: Config, s: State, after: State)
    requires cfg.maxRetries >= 1
    requires Cost(cfg, s, after, 1 + PostBound(cfg, true, 1), 0 + DelayBound(cfg, true, 1))
    ensures var r := cfg.maxRetries;
            && after.requestId - s.requestId == 2 * r * r - r
            && after.slept - s.slept == cfg.baseDelay * ((2 * r - 1) * (Pow2(r - 1) - 1)) as real
  {
    ClosedBounds(cfg);
    BackoffClosed(1, cfg.maxRetries);
    assert PostBound(cfg, true, 0) == 1 + PostBound(cfg, true, 1);
    assert DelayBound(cfg, true, 0) == DelayBound(cfg, true, 1);
  }

  /*** Outcomes ***/

  /**
    A call that posted ends as its last post was answered. Anything else that is raised comes from a
    broken answer, or from a listing with a nameless tool, which only a reconnect asks for.
    */
  predicate DecidedBy(answer: Answer, reconnect: bool, r: Result<seq<Option<string>>>) {
    match r
    case Ok(tools) => answer == Reply(tools)
    case Raised(TimeoutError) => answer == Timeout
    case Raised(ConnectionError) => answer == Unreachable || answer == RpcError
    case Raised(ToolNotFound) => false
    case Raised(OtherError) => answer == Broken || (reconnect && answer.Reply? && !AllNamed(answer.tools))
  }

  /** The outcome agrees with the answer to the last post, and running out of attempts leaves the client disconnected. */
  predicate Decided(cfg: Config, reconnect: bool, after: State, r: Result<seq<Option<string>>>) {
    var answer := cfg.transport(after.requestId);
    DecidedBy(answer, reconnect, r) && (answer == Timeout || answer == Unreachable ==> !after.connected)
  }

  /** A reconnect breaks off a call only after a broken listing or one with a nameless tool. */
  lemma {:induction false} ReconnectBreaksOff(cfg: Config, s: State)
    requires cfg.maxRetries >= 1 && Connected(cfg, s).1 == Raised(OtherError)
    ensures Decided(cfg, true, Connected(cfg, s).0, Raised(OtherError))
    decreases false, cfg.maxRetries + 1
  {
    var s1 := Sent(cfg, s, false, 0, OtherError).0;
    LastPostDecides(cfg, s1, false, 0, OtherError);
  }

  lemma AttemptDecides(cfg: Config, s: State, reconnect: bool, attempt: nat)
    requires cfg.maxRetries >= 1
    requires reconnect && attempt > 0 && !s.connected && Connected(cfg, s).1 == Raised(OtherError) ==>
               Decided(cfg, true, Connected(cfg, s).0, Raised(OtherError))
    ensures var (after, end) := Attempted(cfg, s, reconnect, attempt);
            match end
            case Again(failure) => Decided(cfg, reconnect, after, Raised(failure))
            case Ended(r) => Decided(cfg, reconnect, after, r)
  {
  }

  lemma {:induction false} LastPostDecides(cfg: Config, s: State, reconnect: bool, attempt: nat, last: Failure)
    requires attempt < cfg.maxRetries
    ensures Decided(cfg, reconnect, Sent(cfg, s, reconnect, attempt, last).0, Sent(cfg, s, reconnect, attempt, last).1)
    decreases reconnect, cfg.maxRetries - attempt
  {
    if reconnect && attempt > 0 && !s.connected && Connected(cfg, s).1 == Raised(OtherError) {
      ReconnectBreaksOff(cfg, s);
    }
    AttemptDecides(cfg, s, reconnect, attempt);
    var (s1, end) := Attempted(cfg, s, reconnect, attempt);
    if end.Again? && attempt + 1 < cfg.maxRetries {
      LastPostDecides(cfg, s1, reconnect, attempt + 1, end.failure);
    }
  }

  lemma {:induction false} NamesMeaning(tools: seq<Option<string>>, name: string)
    requires AllNamed(tools)
    ensures name in Names(tools) <==> Some(name) in tools
  {
    if tools != [] {
      assert AllNamed(tools[1..]);
      NamesMeaning(tools[1..], name);
    }
  }

  /** A plain round touches neither the tools nor, but for failures, the connected flag. */
  lemma {:induction false} PlainNeverConnects(cfg: Config, s: State, attempt: nat, last: Failure)
    ensures Sent(cfg, s, false, attempt, last).0.connected ==> s.connected
    ensures Sent(cfg, s, false, attempt, last).0.tools == s.tools
    decreases cfg.maxRetries - attempt
  {
    if attempt < cfg.maxRetries {
      var (s1, end) := Attempted(cfg, s, false, attempt);
      if end.Again? {
        PlainNeverConnects(cfg, s1, attempt + 1, end.failure);
      }
    }
  }

  predicate Retryable(answer: Answer) {
    answer == Timeout || answer == Unreachable
  }

  /** The request with this id is the first after the base that is answered, and all before it can be retried. */
  predicate FirstReplyAt(cfg: Config, base: nat, id: nat) {
    id > base && cfg.transport(id).Reply? && forall j: nat :: base < j < id ==> Retryable(cfg.transport(j))
  }

  /** The round started at this base is answered by the request with this id, within the attempts it has. */
  predicate AnsweredBy(cfg: Config, base: nat, attempts: nat, id: nat) {
    id <= base + attempts && FirstReplyAt(cfg, base, id)
  }

  /** A plain round succeeds exactly when some attempt is answered and all before it were retryable, and stops there. */
  lemma {:induction false} RoundSucceedsIff(cfg: Config, s: State, attempt: nat, last: Failure)
    requires attempt <= cfg.maxRetries
    ensures var (after, r) := Sent(cfg, s, false, attempt, last);
            && (r.Ok? ==> AnsweredBy(cfg, s.requestId, cfg.maxRetries - attempt, after.requestId)
                          && r.value == cfg.transport(after.requestId).tools)
            && (forall id: nat :: FirstReplyAt(cfg, s.requestId, id) && id <= s.requestId + (cfg.maxRetries - attempt) ==>
                  r.Ok? && after.requestId == id)
    decreases cfg.maxRetries - attempt
  {
    if attempt < cfg.maxRetries {
      var (s1, end) := Attempted(cfg, s, false, attempt);
      var now := s.requestId + 1;
      assert s1.requestId == now;
      if end.Again? {
        RoundSucceedsIff(cfg, s1, attempt + 1, end.failure);
      }
      assert forall id: nat :: FirstReplyAt(cfg, s.requestId, id) <==>
               (id == now && cfg.transport(now).Reply?) || (Retryable(cfg.transport(now)) && FirstReplyAt(cfg, now, id));
    }
  }

  /** The first round is answered by one request and the second, complete, by another. */
  predicate Listed(cfg: Config, base: nat, init: nat, listing: nat) {
    && AnsweredBy(cfg, base, cfg.maxRetries, init)
    && AnsweredBy(cfg, init, cfg.maxRetries, listing)
    && AllNamed(cfg.transport(listing).tools)
  }

  /**
    A connect succeeds exactly when both its rounds are answered and the listing names every tool.
    Then the client is connected and knows just the listed tools; otherwise it is not newly connected.
    */
  lemma ConnectMeaning(cfg: Config, s: State)
    ensures var (after, r) := Connected(cfg, s);
            && (r.Ok? <==> exists init: nat, listing: nat :: Listed(cfg, s.requestId, init, listing))
            && (forall init: nat, listing: nat :: Listed(cfg, s.requestId, init, listing) ==>
                  && after.connected && after.requestId == listing
                  && forall name :: name in after.tools <==> Some(name) in cfg.transport(listing).tools)
            && (r.Raised? && after.connected ==> s.connected)
  {
    var (s1, init) := Sent(cfg, s, false, 0, OtherError);
    var (s2, listing) := Sent(cfg, s1, false, 0, OtherError);
    RoundSucceedsIff(cfg, s, 0, OtherError);
    RoundSucceedsIff(cfg, s1, 0, OtherError);
    PlainNeverConnects(cfg, s, 0, OtherError);
    PlainNeverConnects(cfg, s1, 0, OtherError);
    if Connected(cfg, s).1.Ok? {
      assert Listed(cfg, s.requestId, s1.requestId, s2.requestId);
      forall name ensures name in Connected(cfg, s).0.tools <==> Some(name) in cfg.transport(s2.requestId).tools {
        NamesMeaning(listing.value, name);
      }
    }
  }

  /*** Failures ***/

  /** The request with this id is the first after the base whose answer is not retried. */
  predicate FirstSettledAt(cfg: Config, base: nat, id: nat) {
    id > base && !Retryable(cfg.transport(id)) && forall j: nat :: base < j < id ==> Retryable(cfg.transport(j))
  }

  /** How an answer ends a round: a reply or an error at once, and what is retried once the attempts are used up. */
  function Verdict(answer: Answer): Result<seq<Option<string>>> {
    match answer
    case Timeout => Raised(TimeoutError)
    case Unreachable => Raised(ConnectionError)
    case Broken => Raised(OtherError)
    case RpcError => Raised(ConnectionError)
    case Reply(tools) => Ok(tools)
  }

  /** A plain round ends at the first answer that is not retried, or with its last attempt, as that answer says. */
  lemma {:induction false} RoundEnds(cfg: Config, s: State, attempt: nat, last: Failure)
    requires attempt < cfg.maxRetries
    ensures var (after, r) := Sent(cfg, s, false, attempt, last);
            var final := s.requestId + (cfg.maxRetries - attempt);
            && s.requestId < after.requestId <= final
            && r == Verdict(cfg.transport(after.requestId))
            && after.connected == (s.connected && !Retryable(cfg.transport(s.requestId + 1)))
            && (FirstSettledAt(cfg, s.requestId, after.requestId)
                || (after.requestId == final && forall j: nat :: s.requestId < j <= final ==> Retryable(cfg.transport(j))))
    decreases cfg.maxRetries - attempt
  {
    var (s1, end) := Attempted(cfg, s, false, attempt);
    assert s1.requestId == s.requestId + 1;
    if end.Again? && attempt + 1 < cfg.maxRetries {
      RoundEnds(cfg, s1, attempt + 1, end.failure);
    }
  }

  /** Initialize was answered, and the listing ended on a broken answer or on a tool without a name. */
  ghost predicate BreaksOff(cfg: Config, base: nat) {
    exists init: nat, listing: nat ::
      AnsweredBy(cfg, base, cfg.maxRetries, init) && listing <= init + cfg.maxRetries && FirstSettledAt(cfg, init, listing)
      && BadListing(cfg.transport(listing))
  }

  predicate BadListing(answer: Answer) {
    answer == Broken || (answer.Reply? && !AllNamed(answer.tools))
  }

  /**
    How a connect fails, by the transport's answers alone. A broken initialize is a connection error; anything
    else than a timeout or a connection error is raised exactly when the listing breaks off.
    */
  lemma ConnectFails(cfg: Config, s: State)
    requires cfg.maxRetries >= 1
    ensures var (after, r) := Connected(cfg, s);
            && (r == Raised(OtherError) <==> BreaksOff(cfg, s.requestId))
            && ((forall init: nat :: !AnsweredBy(cfg, s.requestId, cfg.maxRetries, init)) ==>
                  r == Raised(if cfg.transport(after.requestId) == Timeout then TimeoutError else ConnectionError)
                  && after.tools == s.tools)
            && r != Raised(ToolNotFound)
  {
    var (s1, init) := Sent(cfg, s, false, 0, OtherError);
    RoundEnds(cfg, s, 0, OtherError);
    RoundSucceedsIff(cfg, s, 0, OtherError);
    PlainNeverConnects(cfg, s, 0, OtherError);
    if init.Ok? {
      var (s2, listing) := Sent(cfg, s1, false, 0, OtherError);
      RoundEnds(cfg, s1, 0, OtherError);
      assert AnsweredBy(cfg, s.requestId, cfg.maxRetries, s1.requestId);
      if Connected(cfg, s).1 == Raised(OtherError) {
        assert BadListing(cfg.transport(s2.requestId)) && FirstSettledAt(cfg, s1.requestId, s2.requestId);
      }
      if i: nat, l: nat :| AnsweredBy(cfg, s.requestId, cfg.maxRetries, i) && l <= i + cfg.maxRetries
                           && FirstSettledAt(cfg, i, l) && BadListing(cfg.transport(l)) {
        SettledOnce(cfg, s1.requestId, s2.requestId, l);
      }
    }
  }

  lemma SettledOnce(cfg: Config, base: nat, i: nat, j: nat)
    requires FirstSettledAt(cfg, base, j)
    ensures FirstSettledAt(cfg, base, i) ==> i == j
    ensures i >= j ==> exists k: nat :: base < k <= i && !Retryable(cfg.transport(k))
  {
    if i >= j {
      assert base < j <= i && !Retryable(cfg.transport(j));
    }
  }

  /** What a connect knows of the tools afterwards: the names before the first missing one of an answered listing, or what it knew. */
  lemma ConnectTools(cfg: Config, s: State)
    requires cfg.maxRetries >= 1
    ensures var after := Connected(cfg, s).0;
            && (forall init: nat, listing: nat :: AnsweredBy(cfg, s.requestId, cfg.maxRetries, init)
                                                  && AnsweredBy(cfg, init, cfg.maxRetries, listing) ==>
                  forall name :: name in after.tools <==> NamedEarly(cfg.transport(listing).tools, name))
            && ((forall init: nat, listing: nat :: !(AnsweredBy(cfg, s.requestId, cfg.maxRetries, init)
                                                     && AnsweredBy(cfg, init, cfg.maxRetries, listing))) ==>
                  after.tools == s.tools)
  {
    var (s1, init) := Sent(cfg, s, false, 0, OtherError);
    var (s2, listing) := Sent(cfg, s1, false, 0, OtherError);
    RoundSucceedsIff(cfg, s, 0, OtherError);
    RoundSucceedsIff(cfg, s1, 0, OtherError);
    PlainNeverConnects(cfg, s, 0, OtherError);
    PlainNeverConnects(cfg, s1, 0, OtherError);
    if init.Ok? && listing.Ok? {
      assert AnsweredBy(cfg, s.requestId, cfg.maxRetries, s1.requestId) && AnsweredBy(cfg, s1.requestId, cfg.maxRetries, s2.requestId);
      forall name ensures name in Names(listing.value) <==> NamedEarly(listing.value, name) {
        EarlyNames(listing.value, name);
      }
    }
  }

  /** Some tool has the name, and no tool up to it lacks one. */
  predicate NamedEarly(tools: seq<Option<string>>, name: string) {
    exists i :: 0 <= i < |tools| && tools[i] == Some(name) && forall j :: 0 <= j < i ==> tools[j].Some?
  }

  lemma {:induction false} EarlyNames(tools: seq<Option<string>>, name: string)
    ensures name in Names(tools) <==> NamedEarly(tools, name)
  {
    if tools != [] && tools[0].Some? {
      EarlyNames(tools[1..], name);
      if NamedEarly(tools[1..], name) {
        var i :| 0 <= i < |tools[1..]| && tools[1..][i] == Some(name) && forall j :: 0 <= j < i ==> tools[1..][j].Some?;
        assert tools[i + 1] == Some(name);
        assert forall j :: 0 <= j < i + 1 ==> j == 0 || tools[j] == tools[1..][j - 1];
      }
      if NamedEarly(tools, name) {
        var i :| 0 <= i < |tools| && tools[i] == Some(name) && forall j :: 0 <= j < i ==> tools[j].Some?;
        assert i > 0 ==> tools[1..][i - 1] == Some(name);
      }
    }
  }

  /**
    A call that reconnects before an attempt is broken off exactly when the listing breaks off. In every other
    case, whether the reconnect succeeded or not, it sleeps and posts again with the next id, and that
    answer decides the attempt.
    */
  lemma CallGoesOn(cfg: Config, s: State, attempt: nat, last: Failure)
    requires 0 < attempt < cfg.maxRetries && !s.connected
    ensures var (after, r) := Sent(cfg, s, true, attempt, last);
            var reconnected := Connected(cfg, s).0;
            if BreaksOff(cfg, s.requestId) then after == reconnected && r == Raised(OtherError)
            else
              var answer := cfg.transport(reconnected.requestId + 1);
              && after.requestId > reconnected.requestId
              && (!Retryable(answer) || attempt + 1 == cfg.maxRetries ==>
                    && after.requestId == reconnected.requestId + 1 && r == Verdict(answer)
                    && after.connected == (reconnected.connected && !Retryable(answer)) && after.tools == reconnected.tools
                    && after.slept == reconnected.slept + Delay(cfg, attempt))
              && (Retryable(answer) && attempt + 1 < cfg.maxRetries ==>
                    exists next: State :: next.requestId == reconnected.requestId + 1 && !next.connected
                      && (after, r) == Sent(cfg, next, true, attempt + 1, if answer == Timeout then TimeoutError else ConnectionError))
  {
    ConnectFails(cfg, s);
    SentAdvances(cfg, s, true, attempt, last);
    var (s1, end) := Attempted(cfg, s, true, attempt);
    if end.Again? {
      SentAdvances(cfg, s1, true, attempt + 1, end.failure);
    }
  }

  /** An unknown tool is refused without a post; a known one is posted at once, connected or not, and that answer decides the attempt. */
  lemma CallStarts(cfg: Config, s: State, tool: string)
    requires cfg.maxRetries >= 1
    ensures var (after, r) := Called(cfg, s, tool);
            if tool !in s.tools then after == s && r == Raised(ToolNotFound)
            else
              var answer := cfg.transport(s.requestId + 1);
              && r != Raised(ToolNotFound)
              && (!Retryable(answer) || cfg.maxRetries == 1 ==>
                    && after.requestId == s.requestId + 1 && after.slept == s.slept && after.tools == s.tools
                    && after.connected == (s.connected && !Retryable(answer))
                    && (r.Ok? <==> answer.Reply?) && (r.Raised? ==> Verdict(answer) == Raised(r.failure)))
              && (Retryable(answer) && cfg.maxRetries > 1 ==>
                    exists next: State :: next.requestId == s.requestId + 1 && !next.connected && next.tools == s.tools
                      && after == Sent(cfg, next, true, 1, if answer == Timeout then TimeoutError else ConnectionError).0)
  {
    if tool in s.tools {
      LastPostDecides(cfg, s, true, 0, OtherError);
      var (s1, end) := Attempted(cfg, s, true, 0);
      assert Sent(cfg, s, true, 0, OtherError) ==
             match end case Again(failure) => Sent(cfg, s1, true, 1, failure) case Ended(result) => (s1, result);
    }
  }
}
