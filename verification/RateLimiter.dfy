/** The in-memory sliding-window rate limiter, over whole runs of requests. */
module RateLimiter {
  import opened Core
  import opened Clocks

  const WINDOW := 60.0

  type Windows = map<string, seq<real>>

  datatype Request = Request(key: string, limit: int, now: real)

  function When(r: Request): real {
    r.now
  }

  function Entries(windows: Windows, key: string): seq<real> {
    if key in windows then windows[key] else []
  }

  /** The entries of the last 60 seconds. */
  function Recent(times: seq<real>, now: real): seq<real> {
    if times == [] then []
    else (if times[0] > now - WINDOW then [times[0]] else []) + Recent(times[1..], now)
  }

  predicate Allowed(windows: Windows, r: Request) {
    |Recent(Entries(windows, r.key), r.now)| < r.limit
  }

  function Checked(windows: Windows, r: Request): Windows {
    var kept := Recent(Entries(windows, r.key), r.now);
    windows[r.key := if Allowed(windows, r) then kept + [r.now] else kept]
  }

  class RateLimiter {
    var windows: Windows

    constructor ()
      ensures windows == map[]
    {
      windows := map[];
    }

    method Check(key: string, limit: int, now: real) returns (ok: bool)
      modifies this
      ensures ok <==> Allowed(old(windows), Request(key, limit, now))
      ensures windows == Checked(old(windows), Request(key, limit, now))
    {
      if key !in windows {
        windows := windows[key := []];
      }
      windows := windows[key := Recent(windows[key], now)];
      if |windows[key]| >= limit {
        return false;
      }
      windows := windows[key := windows[key] + [now]];
      return true;
    }
  }

  /*** Runs ***/

  /** The limiter's state after a run of requests. */
  function After(requests: seq<Request>): Windows {
    if requests == [] then map[] else Checked(After(Init(requests)), Last(requests))
  }

  /** When the run's requests for a key were accepted. */
  function Accepted(requests: seq<Request>, key: string): seq<real> {
    if requests == [] then []
    else if Last(requests).key == key && Allowed(After(Init(requests)), Last(requests))
    then Accepted(Init(requests), key) + [Last(requests).now]
    else Accepted(Init(requests), key)
  }

  predicate FixedLimit(requests: seq<Request>, key: string, limit: int) {
    forall i :: 0 <= i < |requests| && requests[i].key == key ==> requests[i].limit == limit
  }

  lemma {:induction false} RecentAppend(s: seq<real>, t: seq<real>, now: real)
    ensures Recent(s + t, now) == Recent(s, now) + Recent(t, now)
  {
    if s == [] {
      assert s + t == t;
    } else {
      RecentAppend(s[1..], t, now);
      assert (s + t)[1..] == s[1..] + t;
      Associative(if s[0] > now - WINDOW then [s[0]] else [], Recent(s[1..], now), Recent(t, now));
    }
  }

  /** A half-open interval of 60 seconds from a, closed on the left or on the right. */
  predicate Within(t: real, a: real, closedLeft: bool) {
    if closedLeft then a <= t < a + 60.0 else a < t <= a + 60.0
  }

  function Inside(times: seq<real>, a: real, closedLeft: bool): nat {
    if times == [] then 0
    else (if Within(times[0], a, closedLeft) then 1 else 0) + Inside(times[1..], a, closedLeft)
  }

  lemma {:induction false} InsideAppend(s: seq<real>, t: real, a: real, closedLeft: bool)
    ensures Inside(s + [t], a, closedLeft) == Inside(s, a, closedLeft) + if Within(t, a, closedLeft) then 1 else 0
  {
    if s == [] {
      assert s + [t] == [t];
    } else {
      InsideAppend(s[1..], t, a, closedLeft);
      assert (s + [t])[1..] == s[1..] + [t];
    }
  }

  lemma {:induction false} InsideIsRecent(times: seq<real>, a: real, closedLeft: bool, now: real)
    requires Within(now, a, closedLeft)
    ensures Inside(times, a, closedLeft) <= |Recent(times, now)|
  {
    if times != [] {
      InsideIsRecent(times[1..], a, closedLeft, now);
    }
  }

  /** The requests of a run that concern one key. */
  function Only(requests: seq<Request>, key: string): seq<Request> {
    if requests == [] then []
    else if Last(requests).key == key then Only(Init(requests), key) + [Last(requests)]
    else Only(Init(requests), key)
  }

  /** What happens to a key depends on its own requests alone. */
  lemma {:induction false} KeysIndependent(requests: seq<Request>, key: string)
    ensures Entries(After(requests), key) == Entries(After(Only(requests, key)), key)
    ensures Accepted(requests, key) == Accepted(Only(requests, key), key)
  {
    if requests != [] {
      var before, r := Init(requests), Last(requests);
      KeysIndependent(before, key);
      if r.key == key {
        var only := Only(requests, key);
        assert Init(only) == Only(before, key) && Last(only) == r;
      }
    }
  }

  /*** What pruning forgets ***/

  /** What the limiter holds of a key are readings of the clock. */
  lemma {:induction false} EntriesAreReadings(requests: seq<Request>, clock: seq<real>, key: string)
    requires Follows(requests, clock, When)
    ensures forall t :: t in Entries(After(requests), key) ==> t in clock
  {
    if requests != [] {
      var k :| 0 <= k < |clock| && ReadAt(requests, clock, k, When);
      EntriesAreReadings(Init(requests), clock[..k + 1], key);
      RecentIsPart(Entries(After(Init(requests)), key), Last(requests).now);
    }
  }

  lemma {:induction false} RecentIsPart(times: seq<real>, now: real)
    ensures forall t :: t in Recent(times, now) ==> t in times
  {
    if times != [] {
      RecentIsPart(times[1..], now);
    }
  }

  /** A pruning at reading k leaves every entry whose loss would relate it to now. */
  lemma Survives(before: seq<Request>, clock: seq<real>, k: nat, key: string, now: real, related: Relation, t: real)
    requires k < |clock| && Follows(before, clock[..k + 1], When) && t in Entries(After(before), key)
    requires !Revived(clock + [now], related) && (t <= clock[k] - WINDOW ==> related(t, clock[k], now))
    ensures t > clock[k] - WINDOW
  {
    EntriesAreReadings(before, clock[..k + 1], key);
    var i :| 0 <= i < k + 1 && clock[..k + 1][i] == t;
    var all := clock + [now];
    assert all[i] == t && all[k] == clock[k] && all[|clock|] == now;
    assert i < k ==> !related(all[i], all[k], all[|clock|]);
  }

  /** After a check, accepted or refused, the limiter holds nothing of the key that is 60 seconds old. */
  lemma CheckPrunes(requests: seq<Request>)
    requires requests != []
    ensures forall t :: t in Entries(After(requests), Last(requests).key) ==> Last(requests).now - t < 60.0
  {
    RecentIsYoung(Entries(After(Init(requests)), Last(requests).key), Last(requests).now);
  }

  lemma {:induction false} RecentIsYoung(times: seq<real>, now: real)
    ensures forall t :: t in Recent(times, now) ==> now - t < 60.0
  {
    if times != [] {
      RecentIsYoung(times[1..], now);
    }
  }

  /*** Acceptance ***/

  /** How many of the times are less than 60 seconds before now, or after it. */
  function Younger(times: seq<real>, now: real): nat {
    if times == [] then 0 else (if now - times[0] < 60.0 then 1 else 0) + Younger(times[1..], now)
  }

  lemma {:induction false} RecentAreYounger(times: seq<real>, now: real)
    ensures |Recent(times, now)| == Younger(times, now)
  {
    if times != [] {
      RecentAreYounger(times[1..], now);
    }
  }

  /** The latest request is accepted exactly when fewer than its limit were accepted in the 60 seconds before it. */
  predicate AcceptedAsCounted(requests: seq<Request>)
    requires requests != []
  {
    var r := Last(requests);
    Allowed(After(Init(requests)), r) <==> Younger(Accepted(Init(requests), r.key), r.now) < r.limit
  }

  /** So is every request of every run at these readings. */
  ghost predicate CountsLastMinute(clock: seq<real>) {
    forall requests: seq<Request> :: requests != [] && Follows(requests, clock, When) ==> AcceptedAsCounted(requests)
  }

  /** Pruning at a reading does not matter to a later count, if it drops nothing that this would count. */
  lemma {:induction false} RecentKept(times: seq<real>, at: real, now: real)
    requires forall t :: t in times && t > now - WINDOW ==> t > at - WINDOW
    ensures Recent(Recent(times, at), now) == Recent(times, now)
  {
    if times != [] {
      assert forall t :: t in times[1..] ==> t in times;
      RecentKept(times[1..], at, now);
      assert times[0] in times;
      if times[0] > at - WINDOW {
        assert Recent(times, at)[1..] == Recent(times[1..], at);
      } else {
        assert Recent(times, at) == Recent(times[1..], at);
      }
    }
  }

  /** Without a return up to now, the pruned list of a key answers like the full record of its acceptances. */
  lemma {:induction false} EntriesAreRecent(requests: seq<Request>, clock: seq<real>, key: string, now: real)
    requires Follows(requests, clock, When) && !Revived(clock + [now], Returning(60.0))
    ensures Recent(Entries(After(requests), key), now) == Recent(Accepted(requests, key), now)
  {
    if requests != [] {
      var before, r := Init(requests), Last(requests);
      var k :| 0 <= k < |clock| && ReadAt(requests, clock, k, When);
      EarlierRevival(clock, k, now, Returning(60.0));
      EntriesAreRecent(before, clock[..k + 1], key, now);
      if r.key == key {
        var stored := Entries(After(before), key);
        forall t | t in stored && t > now - WINDOW ensures t > r.now - WINDOW {
          Survives(before, clock, k, key, now, Returning(60.0), t);
        }
        RecentKept(stored, r.now, now);
        RecentAppend(Recent(stored, r.now), [r.now], now);
        RecentAppend(Accepted(before, key), [r.now], now);
      }
    }
  }

  lemma AcceptedWithoutReturn(requests: seq<Request>, clock: seq<real>)
    requires requests != [] && Follows(requests, clock, When) && !Revived(clock, Returning(60.0))
    ensures AcceptedAsCounted(requests)
  {
    var k :| 0 <= k < |clock| && ReadAt(requests, clock, k, When);
    ReturningStepsBack(60.0);
    SameReading(clock, k, Returning(60.0));
    EntriesAreRecent(Init(requests), clock[..k + 1], Last(requests).key, Last(requests).now);
    RecentAreYounger(Accepted(Init(requests), Last(requests).key), Last(requests).now);
  }

  /** Every request is accepted as counted exactly when no window that had passed has not passed any more. */
  lemma CountsIff(clock: seq<real>)
    ensures CountsLastMinute(clock) <==> !Revived(clock, Returning(60.0))
  {
    var related := Returning(60.0);
    if i, j, k :| 0 <= i < j < k < |clock| && related(clock[i], clock[j], clock[k]) {
      ThreeFollow(clock, i, j, k);
      ReturnForgets(clock[i], clock[j], clock[k]);
    } else {
      forall requests: seq<Request> | requests != [] && Follows(requests, clock, When) ensures AcceptedAsCounted(requests) {
        AcceptedWithoutReturn(requests, clock);
      }
    }
  }

  /** One request before a pruning, one at it and one after the step back, at limit 2. */
  function Three(past: real, later: real, now: real): seq<Request> {
    [Request("k", 2, past), Request("k", 2, later), Request("k", 2, now)]
  }

  lemma ThreeFollow(clock: seq<real>, i: nat, j: nat, k: nat)
    requires i < j < k < |clock|
    ensures Follows(Three(clock[i], clock[j], clock[k]), clock, When)
  {
    var run := Three(clock[i], clock[j], clock[k]);
    var run2, run1 := Init(run), Init(Init(run));
    var clock2 := clock[..k + 1];
    assert run1 == [run[0]] && Init(run1) == [];
    assert ReadAt(run1, clock2[..j + 1], i, When);
    assert ReadAt(run2, clock2, j, When);
    assert ReadAt(run, clock, k, When);
  }

  /** The third request is accepted although two were accepted in the minute before it. */
  lemma ReturnForgets(past: real, later: real, now: real)
    requires Returning(60.0)(past, later, now)
    ensures !AcceptedAsCounted(Three(past, later, now))
  {
    hide Accepted, After;
    var r1, r2, r3 := Request("k", 2, past), Request("k", 2, later), Request("k", 2, now);
    InitialState("k");
    Displays(past, later, later, now);
    Displays(r1, r2, r3, r3);
    RecentOfTwo(past, past, past);
    RecentOfTwo(past, past, later);
    RecentOfTwo(later, later, now);
    RecentOfTwo(past, later, now);
    RecentAreYounger([past, later], now);
    Admit([], r1, [], []);
    Admit([r1], r2, [past], [past]);
    assert Init(Three(past, later, now)) == [r1, r2] && Last(Three(past, later, now)) == r3;
  }

  /** Accepted at 100, at 170, and at 120 by a clock that stepped back, although 120 already sees two at limit 2. */
  lemma ClockStepMiscounts()
    ensures !AcceptedAsCounted([Request("k", 2, 100.0), Request("k", 2, 170.0), Request("k", 2, 120.0)])
  {
    ReturnForgets(100.0, 170.0, 120.0);
  }

  /** If the clock never steps back, a request is accepted exactly when fewer than its limit were in the last 60 seconds. */
  lemma AcceptedIff(requests: seq<Request>)
    requires requests != [] && Nondecreasing(requests, When)
    ensures AcceptedAsCounted(requests)
  {
    ReturningStepsBack(60.0);
    OwnClock(requests, When);
    NondecreasingUnrevived(requests, When, Returning(60.0));
    AcceptedWithoutReturn(requests, Times(requests, When));
  }

  /*** The limit in every minute ***/

  /** After a reading has made room for it, an earlier one is less than a minute away again. */
  predicate Revives(past: real, later: real, now: real) {
    later >= past + 60.0 && past - 60.0 < now < past + 60.0
  }

  /** Every run at these readings keeps every fixed limit in every half-open minute. */
  ghost predicate KeepsLimits(clock: seq<real>) {
    forall requests: seq<Request>, key: string, limit: int, a: real, closedLeft: bool ::
      Follows(requests, clock, When) && FixedLimit(requests, key, limit) ==>
        Inside(Accepted(requests, key), a, closedLeft) <= if limit > 0 then limit else 0
  }

  /** Pruning at a later reading drops nothing of the interval, if nothing is left behind by it. */
  lemma {:induction false} InsideKept(times: seq<real>, at: real, a: real, closedLeft: bool)
    requires forall t :: t in times && Within(t, a, closedLeft) ==> t > at - WINDOW
    ensures Inside(Recent(times, at), a, closedLeft) == Inside(times, a, closedLeft)
  {
    if times != [] {
      InsideKept(times[1..], at, a, closedLeft);
      assert times[0] in times;
      if times[0] > at - WINDOW {
        assert Recent(times, at)[1..] == Recent(times[1..], at);
      } else {
        assert Recent(times, at) == Recent(times[1..], at);
      }
    }
  }

  /** Without a revival up to now, the limiter still holds all acceptances of any minute around now. */
  lemma {:induction false} HoldsInterval(requests: seq<Request>, clock: seq<real>, key: string, a: real, closedLeft: bool, now: real)
    requires Follows(requests, clock, When) && !Revived(clock + [now], Revives) && Within(now, a, closedLeft)
    ensures Inside(Accepted(requests, key), a, closedLeft) <= Inside(Entries(After(requests), key), a, closedLeft)
  {
    if requests != [] {
      var before, r := Init(requests), Last(requests);
      var k :| 0 <= k < |clock| && ReadAt(requests, clock, k, When);
      EarlierRevival(clock, k, now, Revives);
      HoldsInterval(before, clock[..k + 1], key, a, closedLeft, now);
      if r.key == key {
        var stored := Entries(After(before), key);
        forall t | t in stored && Within(t, a, closedLeft) ensures t > r.now - WINDOW {
          Survives(before, clock, k, key, now, Revives, t);
        }
        InsideKept(stored, r.now, a, closedLeft);
        InsideAppend(Recent(stored, r.now), r.now, a, closedLeft);
        InsideAppend(Accepted(before, key), r.now, a, closedLeft);
      }
    }
  }

  lemma {:induction false} LimitWithoutRevival(requests: seq<Request>, clock: seq<real>, key: string, limit: int, a: real, closedLeft: bool)
    requires Follows(requests, clock, When) && !Revived(clock, Revives) && FixedLimit(requests, key, limit)
    ensures Inside(Accepted(requests, key), a, closedLeft) <= if limit > 0 then limit else 0
  {
    if requests != [] {
      var before, r := Init(requests), Last(requests);
      var k :| 0 <= k < |clock| && ReadAt(requests, clock, k, When);
      assert StepsBack(Revives);
      SameReading(clock, k, Revives);
      LimitWithoutRevival(before, clock[..k + 1], key, limit, a, closedLeft);
      if r.key == key && Allowed(After(before), r) {
        InsideAppend(Accepted(before, key), r.now, a, closedLeft);
        if Within(r.now, a, closedLeft) {
          HoldsInterval(before, clock[..k + 1], key, a, closedLeft, r.now);
          InsideIsRecent(Entries(After(before), key), a, closedLeft, r.now);
        }
      }
    }
  }

  /** If the clock never steps back, any 60 seconds hold at most limit acceptances of a key. */
  lemma WindowLimit(requests: seq<Request>, key: string, limit: int, a: real, closedLeft: bool)
    requires Nondecreasing(requests, When) && FixedLimit(requests, key, limit)
    ensures Inside(Accepted(requests, key), a, closedLeft) <= if limit > 0 then limit else 0
  {
    OwnClock(requests, When);
    assert StepsBack(Revives);
    NondecreasingUnrevived(requests, When, Revives);
    LimitWithoutRevival(requests, Times(requests, When), key, limit, a, closedLeft);
  }

  /** Two requests before a pruning, one at it and one after the step back, all at limit 2. */
  function StepBack(past: real, later: real, now: real): seq<Request> {
    [Request("k", 2, past), Request("k", 2, past), Request("k", 2, later), Request("k", 2, now)]
  }

  /** At a revival a limit of 2 lets three requests into a minute. */
  lemma RevivalExceeds(past: real, later: real, now: real)
    requires Revives(past, later, now)
    ensures Inside(Accepted(StepBack(past, later, now), "k"), if past <= now then past else now, true) == 3
  {
    hide Accepted, StepBack;
    StepBackAccepted(past, later, now);
    Displays(past, past, later, now);
    var a := if past <= now then past else now;
    InsideAppend([], past, a, true);
    InsideAppend([past], past, a, true);
    InsideAppend([past, past], later, a, true);
    InsideAppend([past, past, later], now, a, true);
  }

  lemma StepBackAccepted(past: real, later: real, now: real)
    requires Revives(past, later, now)
    ensures Accepted(StepBack(past, later, now), "k") == [past, past, later, now]
  {
    hide Accepted, After;
    InitialState("k");
    var r1, r3, r4 := Request("k", 2, past), Request("k", 2, later), Request("k", 2, now);
    Displays(past, past, later, now);
    Displays(r1, r1, r3, r4);
    RecentOfTwo(past, past, past);
    RecentOfTwo(past, past, later);
    RecentOfTwo(later, later, now);
    Admit([], r1, [], []);
    Admit([r1], r1, [past], [past]);
    Admit([r1, r1], r3, [past, past], [past, past]);
    Admit([r1, r1, r3], r4, [later], [past, past, later]);
  }

  lemma InitialState(key: string)
    ensures Entries(After([]), key) == [] && Accepted([], key) == []
  {
  }

  lemma StepBackFollows(clock: seq<real>, i: nat, j: nat, k: nat)
    requires i < j < k < |clock|
    ensures Follows(StepBack(clock[i], clock[j], clock[k]), clock, When)
  {
    var run := StepBack(clock[i], clock[j], clock[k]);
    var run3, run2, run1 := Init(run), Init(Init(run)), Init(Init(Init(run)));
    var clock3, clock2 := clock[..k + 1], clock[..k + 1][..j + 1];
    assert run1 == [run[0]] && Init(run1) == [];
    assert ReadAt(run1, clock2[..i + 1], i, When);
    assert ReadAt(run2, clock2, i, When);
    assert ReadAt(run3, clock3, j, When);
    assert ReadAt(run, clock, k, When);
  }

  /** The limits are kept at a clock's readings exactly when none of them is revived. */
  lemma LimitsKeptIff(clock: seq<real>)
    ensures KeepsLimits(clock) <==> !Revived(clock, Revives)
  {
    if i, j, k :| 0 <= i < j < k < |clock| && Revives(clock[i], clock[j], clock[k]) {
      var run := StepBack(clock[i], clock[j], clock[k]);
      StepBackFollows(clock, i, j, k);
      RevivalExceeds(clock[i], clock[j], clock[k]);
      assert FixedLimit(run, "k", 2);
      assert !KeepsLimits(clock);
    } else {
      forall requests: seq<Request>, key: string, limit: int, a: real, closedLeft: bool
        | Follows(requests, clock, When) && FixedLimit(requests, key, limit)
        ensures Inside(Accepted(requests, key), a, closedLeft) <= if limit > 0 then limit else 0
      {
        LimitWithoutRevival(requests, clock, key, limit, a, closedLeft);
      }
    }
  }

  /** With a clock that steps back the limit can be exceeded: three acceptances within 21 seconds at limit 2. */
  lemma ClockStepBreaksLimit()
    ensures var requests := [Request("k", 2, 100.0), Request("k", 2, 101.0), Request("k", 2, 170.0), Request("k", 2, 120.0)];
            Inside(Accepted(requests, "k"), 99.0, false) == 3
  {
    var r1, r2, r3, r4 := Request("k", 2, 100.0), Request("k", 2, 101.0), Request("k", 2, 170.0), Request("k", 2, 120.0);
    hide Accepted, After;
    InitialState("k");
    Displays(100.0, 101.0, 170.0, 120.0);
    Displays(r1, r2, r3, r4);
    RecentOfTwo(100.0, 100.0, 100.0);
    RecentOfTwo(100.0, 101.0, 101.0);
    RecentOfTwo(100.0, 101.0, 170.0);
    RecentOfTwo(170.0, 170.0, 120.0);
    Admit([], r1, [], []);
    Admit([r1], r2, [100.0], [100.0]);
    Admit([r1, r2], r3, [100.0, 101.0], [100.0, 101.0]);
    Admit([r1, r2, r3], r4, [170.0], [100.0, 101.0, 170.0]);
    InsideAppend([], 100.0, 99.0, false);
    InsideAppend([100.0], 101.0, 99.0, false);
    InsideAppend([100.0, 101.0], 170.0, 99.0, false);
    InsideAppend([100.0, 101.0, 170.0], 120.0, 99.0, false);
  }

  /** One accepted request, given what the limiter holds and has accepted of its key. */
  lemma Admit(s: seq<Request>, r: Request, held: seq<real>, accepted: seq<real>)
    requires Entries(After(s), r.key) == held && Accepted(s, r.key) == accepted
    requires |Recent(held, r.now)| < r.limit
    ensures Entries(After(s + [r]), r.key) == Recent(held, r.now) + [r.now]
    ensures Accepted(s + [r], r.key) == accepted + [r.now]
  {
    assert Init(s + [r]) == s && Last(s + [r]) == r;
  }

  lemma RecentOfTwo(x: real, y: real, now: real)
    ensures Recent([], now) == []
    ensures Recent([x], now) == if x > now - WINDOW then [x] else []
    ensures Recent([x, y], now) == (if x > now - WINDOW then [x] else []) + (if y > now - WINDOW then [y] else [])
  {
    assert [x][1..] == [] && [x, y][1..] == [y] && [y][1..] == [];
    assert Recent([y], now) == if y > now - WINDOW then [y] else [];
  }

  lemma Displays<T>(a: T, b: T, c: T, d: T)
    ensures [] + [a] == [a] && [a] + [b] == [a, b] && [a, b] + [c] == [a, b, c] && [a, b, c] + [d] == [a, b, c, d]
    ensures [] + [c] == [c]
  {
  }
}
