/** Webhook routing with a pruned record of the events seen in the last five minutes. */
module EventRouter {
  import opened Core
  import opened Clocks

  const DEDUP_WINDOW := 300.0
  const MEMORY_UPDATE := "memory_update"

  datatype Event = Event(source: string, eventType: string, entityId: string, timestamp: int)

  /** The configured topics of each source; a topic can be listed without an action. */
  type Webhooks = map<string, map<string, Option<string>>>

  type Seen = map<Event, real>

  predicate Duplicate(seen: Seen, event: Event, now: real) {
    event in seen && now - seen[event] < DEDUP_WINDOW
  }

  function Pruned(seen: Seen, now: real): (r: Seen)
    ensures forall e :: e in r <==> e in seen && now - seen[e] < DEDUP_WINDOW
    ensures forall e :: e in r ==> r[e] == seen[e]
  {
    map e | e in seen && now - seen[e] < DEDUP_WINDOW :: seen[e]
  }

  /** The record after an event; a duplicate leaves it alone. */
  function Recorded(seen: Seen, event: Event, now: real): Seen {
    if Duplicate(seen, event, now) then seen else Pruned(seen[event := now], now)
  }

  function ActionFor(webhooks: Webhooks, event: Event, topic: string): Option<string> {
    if event.source !in webhooks then None
    else if topic in webhooks[event.source] then Some(webhooks[event.source][topic].GetOr(MEMORY_UPDATE))
    else Some(MEMORY_UPDATE)
  }

  class EventRouter {
    const webhooks: Webhooks
    var seen: Seen

    constructor (webhooks: Webhooks)
      ensures this.webhooks == webhooks && seen == map[]
    {
      this.webhooks := webhooks;
      seen := map[];
    }

    method Route(event: Event, topic: string, now: real) returns (action: Option<string>)
      modifies this
      ensures seen == Recorded(old(seen), event, now)
      ensures action == if Duplicate(old(seen), event, now) then None else ActionFor(webhooks, event, topic)
    {
      if event in seen {
        var prev := seen[event];
        if now - prev < DEDUP_WINDOW {
          return None;
        }
      }
      seen := seen[event := now];
      seen := Pruned(seen, now);

      var events: map<string, Option<string>> := map[];
      if event.source in webhooks {
        events := webhooks[event.source];
      }
      if topic !in events {
        if event.source in webhooks {
          return Some(MEMORY_UPDATE);
        }
        return None;
      }
      return Some(events[topic].GetOr(MEMORY_UPDATE));
    }
  }

  /** An unknown source is ignored; a known one has its configured action, and a memory update where none is configured. */
  lemma ActionMeaning(webhooks: Webhooks, event: Event, topic: string)
    ensures var action := ActionFor(webhooks, event, topic);
            && (action.None? <==> event.source !in webhooks)
            && (event.source in webhooks ==>
                  forall configured :: topic in webhooks[event.source] && webhooks[event.source][topic] == Some(configured) ==>
                    action == Some(configured))
            && (event.source in webhooks && (topic !in webhooks[event.source] || webhooks[event.source][topic].None?) ==>
                  action == Some("memory_update"))
  {
  }

  /*** Runs ***/

  datatype Arrival = Arrival(event: Event, now: real)

  function When(a: Arrival): real {
    a.now
  }

  function After(run: seq<Arrival>): Seen {
    if run == [] then map[] else Recorded(After(Init(run)), Last(run).event, Last(run).now)
  }

  /** The same record without any pruning. */
  function Unpruned(run: seq<Arrival>): Seen {
    if run == [] then map[]
    else
      var before, a := Unpruned(Init(run)), Last(run);
      if Duplicate(before, a.event, a.now) then before else before[a.event := a.now]
  }

  /** Arrival i is let through by the deduplication. */
  predicate Passes(run: seq<Arrival>, i: nat)
    requires i < |run|
  {
    !Duplicate(After(run[..i]), run[i].event, run[i].now)
  }

  /*** What pruning forgets ***/

  /** What the record holds are readings of the clock. */
  lemma {:induction false} SeenAreReadings(run: seq<Arrival>, clock: seq<real>)
    requires Follows(run, clock, When)
    ensures forall e :: e in After(run) ==> After(run)[e] in clock
  {
    if run != [] {
      var k :| 0 <= k < |clock| && ReadAt(run, clock, k, When);
      SeenAreReadings(Init(run), clock[..k + 1]);
    }
  }

  /** An arrival changes what is a duplicate, without a return up to now, only for its own event. */
  lemma OtherEventsKept(run: seq<Arrival>, clock: seq<real>, k: nat, event: Event, now: real)
    requires run != [] && k < |clock| && ReadAt(run, clock, k, When) && event != Last(run).event
    requires !Revived(clock + [now], Returning(300.0))
    ensures Duplicate(After(run), event, now) <==> Duplicate(After(Init(run)), event, now)
  {
    var before := After(Init(run));
    SeenAreReadings(Init(run), clock[..k + 1]);
    if event in before && Last(run).now - before[event] >= DEDUP_WINDOW {
      var i :| 0 <= i < k + 1 && clock[..k + 1][i] == before[event];
      var all, related := clock + [now], Returning(300.0);
      assert all[i] == before[event] && all[k] == clock[k] && all[|clock|] == now;
      assert i < k ==> !related(all[i], all[k], all[|clock|]);
    }
  }

  /** Without a return up to now, the pruned and the unpruned record agree on what is a duplicate. */
  lemma {:induction false} PruningInvisible(run: seq<Arrival>, clock: seq<real>, event: Event, now: real)
    requires Follows(run, clock, When)
    requires !Revived(clock, Returning(300.0)) && !Revived(clock + [now], Returning(300.0))
    ensures Duplicate(After(run), event, now) <==> Duplicate(Unpruned(run), event, now)
  {
    if run != [] {
      var before, a, related := Init(run), Last(run), Returning(300.0);
      var k :| 0 <= k < |clock| && ReadAt(run, clock, k, When);
      ReturningStepsBack(300.0);
      SameReading(clock, k, related);
      EarlierRevival(clock, k, now, related);
      PruningInvisible(before, clock[..k + 1], event, now);
      PruningInvisible(before, clock[..k + 1], a.event, a.now);
      if event != a.event {
        OtherEventsKept(run, clock, k, event, now);
      }
    }
  }

  /** Some pass of the event is younger than the window. */
  predicate PassedRecently(run: seq<Arrival>, event: Event, now: real) {
    exists j :: 0 <= j < |run| && run[j].event == event && Passes(run, j) && now - run[j].now < DEDUP_WINDOW
  }

  lemma PassedRecentlyStep(run: seq<Arrival>, event: Event, now: real)
    requires run != []
    ensures PassedRecently(run, event, now) <==>
            PassedRecently(Init(run), event, now)
            || (Last(run).event == event && Passes(run, |run| - 1) && now - Last(run).now < DEDUP_WINDOW)
  {
    var before := Init(run);
    assert forall j :: 0 <= j < |before| ==> before[j] == run[j] && before[..j] == run[..j];
    assert forall j :: 0 <= j < |before| ==> Passes(before, j) == Passes(run, j);
    if PassedRecently(before, event, now) {
      var j :| 0 <= j < |before| && before[j].event == event && Passes(before, j) && now - before[j].now < DEDUP_WINDOW;
      assert run[j].event == event && Passes(run, j);
    }
    if PassedRecently(run, event, now) {
      var j :| 0 <= j < |run| && run[j].event == event && Passes(run, j) && now - run[j].now < DEDUP_WINDOW;
      assert j < |before| ==> before[j].event == event && Passes(before, j);
    }
  }

  /** Without a return up to now, the record calls an event a duplicate exactly when it passed recently. */
  lemma {:induction false} LastPass(run: seq<Arrival>, clock: seq<real>, event: Event, now: real)
    requires Follows(run, clock, When) && !Revived(clock + [now], Returning(300.0))
    ensures Duplicate(After(run), event, now) <==> PassedRecently(run, event, now)
  {
    if run != [] {
      var before, a := Init(run), Last(run);
      var k :| 0 <= k < |clock| && ReadAt(run, clock, k, When);
      EarlierRevival(clock, k, now, Returning(300.0));
      LastPass(before, clock[..k + 1], event, now);
      PassedRecentlyStep(run, event, now);
      assert run[..|run| - 1] == before;
      if event != a.event {
        OtherEventsKept(run, clock, k, event, now);
      }
    }
  }

  /*** The decisions of a run ***/

  /** Pruning does not change the decision on arrival i. */
  predicate SameDecision(run: seq<Arrival>, i: nat)
    requires i < |run|
  {
    Passes(run, i) <==> !Duplicate(Unpruned(run[..i]), run[i].event, run[i].now)
  }

  /** Arrival i passes exactly when no earlier pass of its event is younger than the window. */
  predicate Spaced(run: seq<Arrival>, i: nat)
    requires i < |run|
  {
    Passes(run, i) <==>
    forall j :: 0 <= j < i && run[j].event == run[i].event && Passes(run, j) ==> run[i].now - run[j].now >= 300.0
  }

  lemma DecisionWithoutReturn(run: seq<Arrival>, clock: seq<real>, i: nat)
    requires Follows(run, clock, When) && !Revived(clock, Returning(300.0)) && i < |run|
    ensures SameDecision(run, i) && Spaced(run, i)
  {
    var k := PrefixRead(run, clock, i, When);
    assert Init(run[..i + 1]) == run[..i] && Last(run[..i + 1]) == run[i];
    ReturningStepsBack(300.0);
    SameReading(clock, k, Returning(300.0));
    PruningInvisible(run[..i], clock[..k + 1], run[i].event, run[i].now);
    LastPass(run[..i], clock[..k + 1], run[i].event, run[i].now);
    PassedBefore(run, i);
  }

  lemma PassedBefore(run: seq<Arrival>, i: nat)
    requires i < |run|
    ensures PassedRecently(run[..i], run[i].event, run[i].now) <==>
            exists j :: 0 <= j < i && run[j].event == run[i].event && Passes(run, j) && run[i].now - run[j].now < DEDUP_WINDOW
  {
    assert forall j :: 0 <= j < i ==> run[..i][j] == run[j] && run[..i][..j] == run[..j];
    assert forall j :: 0 <= j < i ==> Passes(run[..i], j) == Passes(run, j);
    if j :| 0 <= j < i && run[..i][j].event == run[i].event && Passes(run[..i], j) && run[i].now - run[..i][j].now < DEDUP_WINDOW {
      assert Passes(run, j) && run[j].event == run[i].event;
    }
    if j :| 0 <= j < i && run[j].event == run[i].event && Passes(run, j) && run[i].now - run[j].now < DEDUP_WINDOW {
      assert Passes(run[..i], j) && run[..i][j].event == run[i].event;
    }
  }

  /** Pruning changes no decision of any run at these readings. */
  ghost predicate KeepsDecisions(clock: seq<real>) {
    forall run: seq<Arrival>, i: nat :: Follows(run, clock, When) && i < |run| ==> SameDecision(run, i)
  }

  /** Passes of one event are apart in every run at these readings. */
  ghost predicate KeepsSpacing(clock: seq<real>) {
    forall run: seq<Arrival>, i: nat :: Follows(run, clock, When) && i < |run| ==> Spaced(run, i)
  }

  /** An event, another one that prunes it, and the first again. */
  function Again(event: Event, other: Event, past: real, later: real, now: real): seq<Arrival> {
    [Arrival(event, past), Arrival(other, later), Arrival(event, now)]
  }

  lemma AgainFollows(event: Event, other: Event, clock: seq<real>, i: nat, j: nat, k: nat)
    requires i < j < k < |clock|
    ensures Follows(Again(event, other, clock[i], clock[j], clock[k]), clock, When)
  {
    var run := Again(event, other, clock[i], clock[j], clock[k]);
    var run2, run1 := Init(run), Init(Init(run));
    var clock2 := clock[..k + 1];
    assert run1 == [run[0]] && Init(run1) == [];
    assert ReadAt(run1, clock2[..j + 1], i, When);
    assert ReadAt(run2, clock2, j, When);
    assert ReadAt(run, clock, k, When);
  }

  /** The pruned event passes again within the window of its first pass. */
  lemma PrunedPassesAgain(event: Event, other: Event, past: real, later: real, now: real)
    requires event != other && Returning(300.0)(past, later, now)
    ensures var run := Again(event, other, past, later, now);
            Passes(run, 0) && Passes(run, 2) && !SameDecision(run, 2) && !Spaced(run, 2)
  {
    var run := Again(event, other, past, later, now);
    assert run[..1] == [run[0]] && run[..2] == [run[0], run[1]] && run[..0] == [];
    assert Init(run[..1]) == [] && Init(run[..2]) == run[..1];
    assert After(run[..1]) == map[event := past] && Unpruned(run[..1]) == map[event := past];
    assert After(run[..2]) == map[other := later] && Unpruned(run[..2]) == map[event := past, other := later];
    assert Passes(run, 0) && Passes(run, 2);
  }

  /** Decisions and spacing are kept at a clock's readings exactly when no window that had passed has not passed any more. */
  lemma DecisionsKeptIff(clock: seq<real>)
    ensures KeepsDecisions(clock) <==> !Revived(clock, Returning(300.0))
    ensures KeepsSpacing(clock) <==> !Revived(clock, Returning(300.0))
  {
    var related := Returning(300.0);
    if i, j, k :| 0 <= i < j < k < |clock| && related(clock[i], clock[j], clock[k]) {
      var event, other := Event("a", "", "", 0), Event("b", "", "", 0);
      assert "a"[0] != "b"[0];
      var run := Again(event, other, clock[i], clock[j], clock[k]);
      AgainFollows(event, other, clock, i, j, k);
      PrunedPassesAgain(event, other, clock[i], clock[j], clock[k]);
      assert |run| == 3;
    } else {
      forall run: seq<Arrival>, i: nat | Follows(run, clock, When) && i < |run|
        ensures SameDecision(run, i) && Spaced(run, i)
      {
        DecisionWithoutReturn(run, clock, i);
      }
    }
  }

  /** A first event at 0, another at 400, and a clock that says 100 when the first comes again: it passes twice in 100 seconds. */
  lemma ClockStepPassesAgain()
    ensures var first, other := Event("a", "", "", 0), Event("b", "", "", 0);
            var run := [Arrival(first, 0.0), Arrival(other, 400.0), Arrival(first, 100.0)];
            Passes(run, 0) && Passes(run, 2) && !SameDecision(run, 2) && !Spaced(run, 2)
  {
    var first, other := Event("a", "", "", 0), Event("b", "", "", 0);
    assert "a"[0] != "b"[0];
    PrunedPassesAgain(first, other, 0.0, 400.0, 100.0);
  }

  lemma DecisionsOfOwnClock(run: seq<Arrival>, i: nat)
    requires Nondecreasing(run, When) && i < |run|
    ensures SameDecision(run, i) && Spaced(run, i)
  {
    ReturningStepsBack(300.0);
    OwnClock(run, When);
    NondecreasingUnrevived(run, When, Returning(300.0));
    DecisionWithoutReturn(run, Times(run, When), i);
  }

  /** If the clock never steps back, an event passes exactly when no pass of the same event is younger than the window. */
  lemma PassesIff(run: seq<Arrival>, i: nat)
    requires Nondecreasing(run, When) && i < |run|
    ensures Spaced(run, i)
  {
    DecisionsOfOwnClock(run, i);
  }

  /** If the clock never steps back, pruning changes no decision of any run. */
  lemma SameDecisions(run: seq<Arrival>, i: nat)
    requires Nondecreasing(run, When) && i < |run|
    ensures SameDecision(run, i)
  {
    DecisionsOfOwnClock(run, i);
  }

  /** After a pass, every entry left is younger than the window, and the event itself is among them. */
  lemma PassLeavesYoungEntries(run: seq<Arrival>, i: nat)
    requires i < |run| && Passes(run, i)
    ensures var left := After(run[..i + 1]);
            run[i].event in left && forall e :: e in left ==> run[i].now - left[e] < 300.0
  {
    assert Init(run[..i + 1]) == run[..i];
  }
}
