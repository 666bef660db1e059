/** Runs of timed requests, and clocks whose readings may step back. */
module Clocks {
  import opened Core

  /** The times of the elements never step back. */
  predicate Nondecreasing<T>(run: seq<T>, time: T -> real) {
    forall i, j :: 0 <= i < j < |run| ==> time(run[i]) <= time(run[j])
  }

  /** The run happens at the given readings, in their order; a reading can serve any number of elements. */
  predicate Follows<T>(run: seq<T>, clock: seq<real>, time: T -> real)
    decreases |run|, 1
  {
    run != [] ==> exists k :: 0 <= k < |clock| && ReadAt(run, clock, k, time)
  }

  /** The last element happens at reading k and the others no later. */
  predicate ReadAt<T>(run: seq<T>, clock: seq<real>, k: nat, time: T -> real)
    requires run != [] && k < |clock|
    decreases |run|, 0
  {
    time(Last(run)) == clock[k] && Follows(Init(run), clock[..k + 1], time)
  }

  /** How a past reading, a later one and the current one can be related. */
  type Relation = (real, real, real) -> bool

  /** Three readings in this order are related. */
  predicate Revived(clock: seq<real>, related: Relation) {
    exists i, j, k :: 0 <= i < j < k < |clock| && related(clock[i], clock[j], clock[k])
  }

  /** The clock has stepped back between the later reading and now. */
  ghost predicate StepsBack(related: Relation) {
    forall past, later, now :: related(past, later, now) ==> now < later
  }

  lemma Unrelated(past: real, later: real, now: real, related: Relation)
    requires StepsBack(related) && later <= now
    ensures !related(past, later, now)
  {
  }

  /** A window that had passed since a reading has not passed any more. */
  function Returning(window: real): Relation {
    (past, later, now) => later >= past + window && now < past + window
  }

  lemma ReturningStepsBack(window: real)
    ensures StepsBack(Returning(window))
  {
  }

  lemma EarlierRevival(clock: seq<real>, k: nat, now: real, related: Relation)
    requires k < |clock|
    ensures Revived(clock[..k + 1] + [now], related) ==> Revived(clock + [now], related)
  {
    var all, part := clock + [now], clock[..k + 1] + [now];
    if i, j, m :| 0 <= i < j < m < |part| && related(part[i], part[j], part[m]) {
      var n := if m == k + 1 then |clock| else m;
      assert related(all[i], all[j], all[n]);
    }
  }

  /** Reading the clock up to a point, and once more there, revives nothing new. */
  lemma SameReading(clock: seq<real>, k: nat, related: Relation)
    requires k < |clock| && StepsBack(related)
    ensures Revived(clock[..k + 1], related) || Revived(clock[..k + 1] + [clock[k]], related) ==> Revived(clock, related)
  {
    var part, again := clock[..k + 1], clock[..k + 1] + [clock[k]];
    if i, j, m :| 0 <= i < j < m < |part| && related(part[i], part[j], part[m]) {
      assert related(clock[i], clock[j], clock[m]);
    }
    if i, j, m :| 0 <= i < j < m < |again| && related(again[i], again[j], again[m]) {
      var n := if m == k + 1 then k else m;
      if j == k {
        Unrelated(again[i], clock[k], clock[k], related);
      }
      assert j < n && related(clock[i], clock[j], clock[n]);
    }
  }

  /** Every element of a run has its reading. */
  lemma {:induction false} PrefixRead<T>(run: seq<T>, clock: seq<real>, i: nat, time: T -> real) returns (k: nat)
    requires Follows(run, clock, time) && i < |run|
    ensures k < |clock| && ReadAt(run[..i + 1], clock, k, time)
    decreases |run|
  {
    k :| 0 <= k < |clock| && ReadAt(run, clock, k, time);
    if i == |run| - 1 {
      assert run[..i + 1] == run;
    } else {
      var m := PrefixRead(Init(run), clock[..k + 1], i, time);
      assert Init(run)[..i + 1] == run[..i + 1] && clock[..k + 1][..m + 1] == clock[..m + 1];
      k := m;
    }
  }

  /** The readings at which a run happens. */
  function Times<T>(run: seq<T>, time: T -> real): (times: seq<real>)
    ensures |times| == |run| && forall i :: 0 <= i < |run| ==> times[i] == time(run[i])
  {
    seq(|run|, i requires 0 <= i < |run| => time(run[i]))
  }

  lemma {:induction false} FollowsLonger<T>(run: seq<T>, clock: seq<real>, longer: seq<real>, time: T -> real)
    requires Follows(run, clock, time) && clock <= longer
    ensures Follows(run, longer, time)
  {
    if run != [] {
      var k :| 0 <= k < |clock| && ReadAt(run, clock, k, time);
      assert longer[..k + 1] == clock[..k + 1];
      assert ReadAt(run, longer, k, time);
    }
  }

  /** Every run follows its own times, and if these never step back nothing is revived. */
  lemma {:induction false} OwnClock<T>(run: seq<T>, time: T -> real)
    ensures Follows(run, Times(run, time), time)
    decreases |run|
  {
    if run != [] {
      var times, n := Times(run, time), |run| - 1;
      OwnClock(Init(run), time);
      FollowsLonger(Init(run), Times(Init(run), time), times, time);
      assert times[..n + 1] == times;
      assert ReadAt(run, times, n, time);
    }
  }

  lemma NondecreasingUnrevived<T>(run: seq<T>, time: T -> real, related: Relation)
    requires Nondecreasing(run, time) && StepsBack(related)
    ensures !Revived(Times(run, time), related)
  {
    var times := Times(run, time);
    forall i, j, k | 0 <= i < j < k < |times| ensures !related(times[i], times[j], times[k]) {
      Unrelated(times[i], times[j], times[k], related);
    }
  }
}
