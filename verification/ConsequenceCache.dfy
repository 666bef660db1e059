/**
  The consequence cache under concurrent analyses. One analysis runs in two steps, from its
  start to the wait for the model and from the model's answer to its end; the steps of any
  number of analyses interleave.
  */
module ConsequenceCache {
  import opened Core
  import opened Consequence
  import opened CacheKey

  datatype Config = Config(hat: string, tools: Tools, defaultTtl: int)

  datatype CachedTree = CachedTree(tree: Tree, cachedAt: real, hitCount: nat)

  type Cache = map<string, CachedTree>

  /** The tool's own time to live takes precedence. */
  function Ttl(cfg: Config, c: Candidate): real {
    match FindTool(cfg.tools, c.toolName)
    case None => cfg.defaultTtl as real
    case Some(tool) => tool.cacheTtl.GetOr(cfg.defaultTtl) as real
  }

  function CandidateKey(cfg: Config, c: Candidate): string {
    KeyOf(cfg.hat, c)
  }

  predicate Hit(cfg: Config, cache: Cache, c: Candidate, now: real) {
    var key := CandidateKey(cfg, c);
    key in cache && now - cache[key].cachedAt < Ttl(cfg, c)
  }

  /** The cache after a hit: the entry's count goes up by one. */
  function Counted(cache: Cache, key: string): Cache
    requires key in cache
  {
    cache[key := cache[key].(hitCount := cache[key].hitCount + 1)]
  }

  /** The cache after a generation; a time to live of zero or less stores nothing. */
  function Stored(cfg: Config, cache: Cache, tree: Tree, now: real): Cache {
    if Ttl(cfg, tree.candidate) > 0.0
    then cache[CandidateKey(cfg, tree.candidate) := CachedTree(tree, now, 0)]
    else cache
  }

  function Rebound(tree: Tree, c: Candidate): Tree {
    tree.(candidate := c)
  }

  ghost function TotalHits(cache: Cache): nat {
    if cache == map[] then 0
    else
      var key :| key in cache;
      cache[key].hitCount + TotalHits(cache - {key})
  }

  class ConsequenceEngine {
    const cfg: Config
    var cache: Cache

    constructor (cfg: Config)
      ensures this.cfg == cfg && cache == map[]
    {
      this.cfg := cfg;
      cache := map[];
    }

    /** An analysis up to the wait for the model: its tree on a hit, nothing on a miss. */
    method BeginAnalysis(c: Candidate, now: real) returns (tree: Option<Tree>)
      modifies this
      ensures if Hit(cfg, old(cache), c, now)
              then tree == Some(Rebound(old(cache)[CandidateKey(cfg, c)].tree, c)) && cache == Counted(old(cache), CandidateKey(cfg, c))
              else tree == None && cache == old(cache)
    {
      var ttl := cfg.defaultTtl;
      var tool := FindTool(cfg.tools, c.toolName);
      if tool.Some? && tool.value.cacheTtl.Some? {
        ttl := tool.value.cacheTtl.value;
      }
      var key := CandidateKey(cfg, c);
      if key in cache {
        var cached := cache[key];
        if now - cached.cachedAt < ttl as real {
          cache := cache[key := cached.(hitCount := cached.hitCount + 1)];
          return Some(Rebound(cached.tree, c));
        }
      }
      return None;
    }

    /** An analysis from the model's answer to its end. */
    method FinishAnalysis(c: Candidate, items: seq<Item>, ids: IdSupply, now: real) returns (tree: Tree)
      modifies this
      ensures tree == TreeOf(c, Parse(items, ids, [], 0))
      ensures cache == Stored(cfg, old(cache), tree, now)
    {
      tree := BuildTree(c, items, ids);
      if Ttl(cfg, c) > 0.0 {
        cache := cache[CandidateKey(cfg, c) := CachedTree(tree, now, 0)];
      }
    }

    method ClearCache()
      modifies this
      ensures cache == map[]
    {
      cache := map[];
    }

    method CacheStats() returns (entries: nat, totalHits: nat)
      ensures entries == |cache| && totalHits == TotalHits(cache)
    {
      entries := |cache|;
      totalHits := 0;
      var rest := cache;
      while rest != map[]
        invariant totalHits + TotalHits(rest) == TotalHits(cache)
        decreases rest.Keys
      {
        var key :| key in rest;
        TotalHitsWithout(rest, key);
        totalHits := totalHits + rest[key].hitCount;
        rest := rest - {key};
      }
    }
  }

  /*** Sums of hits ***/

  lemma {:induction false} TotalHitsWithout(cache: Cache, key: string)
    requires key in cache
    ensures TotalHits(cache) == cache[key].hitCount + TotalHits(cache - {key})
    decreases |cache|
  {
    var first :| first in cache && TotalHits(cache) == cache[first].hitCount + TotalHits(cache - {first});
    if first != key {
      TotalHitsWithout(cache - {first}, key);
      TotalHitsWithout(cache - {key}, first);
      assert cache - {first} - {key} == cache - {key} - {first};
    }
  }

  lemma TotalHitsUpdate(cache: Cache, key: string, entry: CachedTree)
    ensures TotalHits(cache[key := entry]) ==
            TotalHits(cache) + entry.hitCount - (if key in cache then cache[key].hitCount else 0)
  {
    var updated := cache[key := entry];
    TotalHitsWithout(updated, key);
    if key in cache {
      TotalHitsWithout(cache, key);
      assert updated - {key} == cache - {key};
    } else {
      assert updated - {key} == cache;
    }
  }

  /*** Interleaved analyses ***/

  /** Where a finished analysis got its tree: from its own generation, or from an entry stored at a time. */
  datatype Source = Generated | FromCache(storedAt: real, usedAt: real)

  datatype Task = Waiting(candidate: Candidate) | Finished(candidate: Candidate, tree: Tree, source: Source) | Failed

  /** One answer of the model. */
  datatype Delivery = Delivery(candidate: Candidate, roots: seq<Node>, at: real)

  /** The engine's cache with the state of every analysis and a record of what happened. */
  datatype World = World(
    cache: Cache,
    tasks: map<nat, Task>,
    deliveries: seq<Delivery>,
    hits: nat,
    lostHits: nat,
    now: real)

  datatype Event =
    | Begin(task: nat, candidate: Candidate, at: real)
    | Deliver(task: nat, roots: seq<Node>, at: real)
    | Fail(task: nat, at: real)
    | Clear(at: real)

  predicate Enabled(w: World, e: Event) {
    && e.at >= w.now
    && match e
       case Begin(task, _, _) => task !in w.tasks
       case Deliver(task, _, _) => task in w.tasks && w.tasks[task].Waiting?
       case Fail(task, _) => task in w.tasks && w.tasks[task].Waiting?
       case Clear(_) => true
  }

  function EntryHits(cache: Cache, key: string): nat {
    if key in cache then cache[key].hitCount else 0
  }

  ghost function Step(cfg: Config, w: World, e: Event): World
    requires Enabled(w, e)
  {
    match e
    case Begin(task, c, at) =>
      if Hit(cfg, w.cache, c, at) then
        var cached := w.cache[CandidateKey(cfg, c)];
        w.(cache := Counted(w.cache, CandidateKey(cfg, c)),
           tasks := w.tasks[task := Finished(c, Rebound(cached.tree, c), FromCache(cached.cachedAt, at))],
           hits := w.hits + 1, now := at)
      else w.(tasks := w.tasks[task := Waiting(c)], now := at)
    case Deliver(task, roots, at) =>
      var c := w.tasks[task].candidate;
      var tree := TreeOf(c, roots);
      w.(cache := Stored(cfg, w.cache, tree, at),
         tasks := w.tasks[task := Finished(c, tree, Generated)],
         deliveries := w.deliveries + [Delivery(c, roots, at)],
         lostHits := w.lostHits + (if Ttl(cfg, c) > 0.0 then EntryHits(w.cache, CandidateKey(cfg, c)) else 0),
         now := at)
    case Fail(task, at) => w.(tasks := w.tasks[task := Failed], now := at)
    case Clear(at) => w.(cache := map[], lostHits := w.lostHits + TotalHits(w.cache), now := at)
  }

  function Start(now: real): World {
    World(map[], map[], [], 0, 0, now)
  }

  /** The world after a run; an event that cannot happen when it comes is passed over. */
  ghost function After(cfg: Config, start: real, events: seq<Event>): World {
    if events == [] then Start(start)
    else
      var w, e := After(cfg, start, events[..|events| - 1]), events[|events| - 1];
      if Enabled(w, e) then Step(cfg, w, e) else w
  }

  /** A delivery that explains a tree for a candidate. */
  predicate Explains(cfg: Config, d: Delivery, c: Candidate, tree: Tree) {
    CandidateKey(cfg, d.candidate) == CandidateKey(cfg, c) && tree == TreeOf(c, d.roots)
  }

  /** An entry holds what the model delivered for its own key, at the time it says. */
  predicate EntrySound(cfg: Config, deliveries: seq<Delivery>, now: real, key: string, cached: CachedTree) {
    && CandidateKey(cfg, cached.tree.candidate) == key
    && Ttl(cfg, cached.tree.candidate) > 0.0
    && cached.cachedAt <= now
    && Delivery(cached.tree.candidate, cached.tree.roots, cached.cachedAt) in deliveries
    && cached.tree == TreeOf(cached.tree.candidate, cached.tree.roots)
  }

  /** A finished analysis has a tree bound to its own candidate, delivered for its key and young enough. */
  predicate TaskSound(cfg: Config, deliveries: seq<Delivery>, task: Task) {
    task.Finished? ==>
      && task.tree.candidate == task.candidate
      && match task.source
         case Generated => exists d :: d in deliveries && d.candidate == task.candidate && Explains(cfg, d, task.candidate, task.tree)
         case FromCache(storedAt, usedAt) =>
           && storedAt <= usedAt && usedAt - storedAt < Ttl(cfg, task.candidate)
           && exists d :: d in deliveries && d.at == storedAt && Explains(cfg, d, task.candidate, task.tree)
  }

  predicate Sound(cfg: Config, w: World) {
    && (forall key :: key in w.cache ==> EntrySound(cfg, w.deliveries, w.now, key, w.cache[key]))
    && (forall task :: task in w.tasks ==> TaskSound(cfg, w.deliveries, w.tasks[task]))
  }

  lemma LaterStillSound(cfg: Config, deliveries: seq<Delivery>, d: Delivery, now: real, later: real, key: string, cached: CachedTree, task: Task)
    requires now <= later
    ensures EntrySound(cfg, deliveries, now, key, cached) ==> EntrySound(cfg, deliveries + [d], later, key, cached)
    ensures EntrySound(cfg, deliveries, now, key, cached) ==> EntrySound(cfg, deliveries, later, key, cached)
    ensures TaskSound(cfg, deliveries, task) ==> TaskSound(cfg, deliveries + [d], task)
  {
    assert forall x :: x in deliveries ==> x in deliveries + [d];
  }

  lemma StepSound(cfg: Config, w: World, e: Event)
    requires Sound(cfg, w) && Enabled(w, e)
    ensures Sound(cfg, Step(cfg, w, e))
  {
    match e
    case Begin(task, c, at) => BeginSound(cfg, w, task, c, at);
    case Deliver(task, roots, at) => DeliverSound(cfg, w, task, roots, at);
    case Fail(task, at) =>
    case Clear(at) =>
  }

  lemma BeginSound(cfg: Config, w: World, task: nat, c: Candidate, at: real)
    requires Sound(cfg, w) && Enabled(w, Begin(task, c, at))
    ensures Sound(cfg, Step(cfg, w, Begin(task, c, at)))
  {
    var after := Step(cfg, w, Begin(task, c, at));
    forall key | key in after.cache ensures EntrySound(cfg, w.deliveries, at, key, after.cache[key]) {
      assert EntrySound(cfg, w.deliveries, w.now, key, w.cache[key]);
      assert after.cache[key].tree == w.cache[key].tree && after.cache[key].cachedAt == w.cache[key].cachedAt;
    }
    forall other | other in after.tasks ensures TaskSound(cfg, w.deliveries, after.tasks[other]) {
      if other == task {
        BeginTaskSound(cfg, w, c, at);
      } else {
        assert TaskSound(cfg, w.deliveries, w.tasks[other]);
      }
    }
  }

  lemma BeginTaskSound(cfg: Config, w: World, c: Candidate, at: real)
    requires Sound(cfg, w) && at >= w.now
    ensures Hit(cfg, w.cache, c, at) ==>
              var cached := w.cache[CandidateKey(cfg, c)];
              TaskSound(cfg, w.deliveries, Finished(c, Rebound(cached.tree, c), FromCache(cached.cachedAt, at)))
  {
    if Hit(cfg, w.cache, c, at) {
      var cached := w.cache[CandidateKey(cfg, c)];
      assert EntrySound(cfg, w.deliveries, w.now, CandidateKey(cfg, c), cached);
      var d := Delivery(cached.tree.candidate, cached.tree.roots, cached.cachedAt);
      assert d in w.deliveries && Explains(cfg, d, c, Rebound(cached.tree, c));
    }
  }

  lemma DeliverSound(cfg: Config, w: World, task: nat, roots: seq<Node>, at: real)
    requires Sound(cfg, w) && Enabled(w, Deliver(task, roots, at))
    ensures Sound(cfg, Step(cfg, w, Deliver(task, roots, at)))
  {
    var c := w.tasks[task].candidate;
    var d := Delivery(c, roots, at);
    var after := Step(cfg, w, Deliver(task, roots, at));
    assert after.deliveries == w.deliveries + [d];
    assert d in after.deliveries && Explains(cfg, d, c, TreeOf(c, roots));
    forall key | key in after.cache ensures EntrySound(cfg, after.deliveries, at, key, after.cache[key]) {
      if after.cache[key] != CachedTree(TreeOf(c, roots), at, 0) {
        LaterStillSound(cfg, w.deliveries, d, w.now, at, key, w.cache[key], Failed);
      }
    }
    forall other | other in after.tasks ensures TaskSound(cfg, after.deliveries, after.tasks[other]) {
      if other != task {
        LaterStillSound(cfg, w.deliveries, d, w.now, at, "", CachedTree(TreeOf(c, roots), at, 0), w.tasks[other]);
      }
    }
  }

  /**
    Under every interleaving, entries hold what was generated for their own key, every finished
    analysis has a tree bound to its own candidate, and every hit was younger than its time to live.
    */
  lemma {:induction false} AlwaysSound(cfg: Config, start: real, events: seq<Event>)
    ensures Sound(cfg, After(cfg, start, events))
  {
    if events != [] {
      var before, e := events[..|events| - 1], events[|events| - 1];
      AlwaysSound(cfg, start, before);
      if Enabled(After(cfg, start, before), e) {
        StepSound(cfg, After(cfg, start, before), e);
      }
    }
  }

  /*** Accounting ***/

  function FromCacheTasks(tasks: map<nat, Task>): set<nat> {
    set task | task in tasks && tasks[task].Finished? && tasks[task].source.FromCache?
  }

  function GeneratedTasks(tasks: map<nat, Task>): set<nat> {
    set task | task in tasks && tasks[task].Finished? && tasks[task].source.Generated?
  }

  /** Every finished analysis is one generation or one hit, and every hit is still counted or was overwritten. */
  ghost predicate Accounted(w: World) {
    && |w.deliveries| == |GeneratedTasks(w.tasks)|
    && w.hits == |FromCacheTasks(w.tasks)|
    && w.hits == TotalHits(w.cache) + w.lostHits
  }

  lemma TaskSets(tasks: map<nat, Task>, task: nat, now: Task)
    requires task in tasks ==> !tasks[task].Finished?
    ensures FromCacheTasks(tasks[task := now]) ==
            FromCacheTasks(tasks) + if now.Finished? && now.source.FromCache? then {task} else {}
    ensures GeneratedTasks(tasks[task := now]) ==
            GeneratedTasks(tasks) + if now.Finished? && now.source.Generated? then {task} else {}
    ensures task !in FromCacheTasks(tasks) && task !in GeneratedTasks(tasks)
  {
  }

  lemma StepAccounted(cfg: Config, w: World, e: Event)
    requires Accounted(w) && Enabled(w, e)
    ensures Accounted(Step(cfg, w, e))
  {
    match e
    case Begin(task, c, at) => BeginAccounted(cfg, w, task, c, at);
    case Deliver(task, roots, at) => DeliverAccounted(cfg, w, task, roots, at);
    case Fail(task, at) => TaskSets(w.tasks, task, Failed);
    case Clear(at) =>
  }

  lemma BeginAccounted(cfg: Config, w: World, task: nat, c: Candidate, at: real)
    requires Accounted(w) && Enabled(w, Begin(task, c, at))
    ensures Accounted(Step(cfg, w, Begin(task, c, at)))
  {
    var after := Step(cfg, w, Begin(task, c, at));
    TaskSets(w.tasks, task, after.tasks[task]);
    if Hit(cfg, w.cache, c, at) {
      CountedOnce(w.cache, CandidateKey(cfg, c));
      assert |FromCacheTasks(after.tasks)| == |FromCacheTasks(w.tasks)| + 1;
      assert GeneratedTasks(after.tasks) == GeneratedTasks(w.tasks);
    }
  }

  lemma CountedOnce(cache: Cache, key: string)
    requires key in cache
    ensures TotalHits(Counted(cache, key)) == TotalHits(cache) + 1
  {
    var entry := cache[key];
    TotalHitsUpdate(cache, key, entry.(hitCount := entry.hitCount + 1));
  }

  lemma DeliverAccounted(cfg: Config, w: World, task: nat, roots: seq<Node>, at: real)
    requires Accounted(w) && Enabled(w, Deliver(task, roots, at))
    ensures Accounted(Step(cfg, w, Deliver(task, roots, at)))
  {
    var c := w.tasks[task].candidate;
    var after := Step(cfg, w, Deliver(task, roots, at));
    TaskSets(w.tasks, task, Finished(c, TreeOf(c, roots), Generated));
    TotalHitsUpdate(w.cache, CandidateKey(cfg, c), CachedTree(TreeOf(c, roots), at, 0));
    assert |GeneratedTasks(after.tasks)| == |GeneratedTasks(w.tasks)| + 1;
    assert FromCacheTasks(after.tasks) == FromCacheTasks(w.tasks);
  }

  lemma {:induction false} AlwaysAccounted(cfg: Config, start: real, events: seq<Event>)
    ensures Accounted(After(cfg, start, events))
  {
    if events != [] {
      var before, e := events[..|events| - 1], events[|events| - 1];
      AlwaysAccounted(cfg, start, before);
      if Enabled(After(cfg, start, before), e) {
        StepAccounted(cfg, After(cfg, start, before), e);
      }
    }
  }

  function FinishedTasks(tasks: map<nat, Task>): set<nat> {
    set task | task in tasks && tasks[task].Finished?
  }

  /** Generations plus hits are the completed analyses, and the statistics never report more hits than there were. */
  lemma HitsAndGenerations(cfg: Config, start: real, events: seq<Event>)
    ensures var w := After(cfg, start, events);
            && |w.deliveries| + w.hits == |FinishedTasks(w.tasks)|
            && TotalHits(w.cache) <= w.hits
            && (TotalHits(w.cache) == w.hits <==> w.lostHits == 0)
  {
    var w := After(cfg, start, events);
    AlwaysAccounted(cfg, start, events);
    assert FinishedTasks(w.tasks) == GeneratedTasks(w.tasks) + FromCacheTasks(w.tasks);
    assert GeneratedTasks(w.tasks) !! FromCacheTasks(w.tasks);
  }

  /*** Transparency ***/

  lemma FinishedExplained(cfg: Config, w: World, task: nat) returns (d: Delivery)
    requires Sound(cfg, w) && task in w.tasks && w.tasks[task].Finished?
    ensures d in w.deliveries && Explains(cfg, d, w.tasks[task].candidate, w.tasks[task].tree)
  {
    var t := w.tasks[task];
    assert TaskSound(cfg, w.deliveries, t);
    d :| d in w.deliveries && Explains(cfg, d, t.candidate, t.tree);
  }

  /**
    If the model's answer depends on the key alone, up to the identifiers that every generation draws
    afresh, then every analysis ends as it would without a cache.
    */
  lemma CacheTransparent(cfg: Config, start: real, events: seq<Event>, model: string -> seq<Node>)
    requires forall d :: d in After(cfg, start, events).deliveries ==>
               Anonymous(d.roots) == Anonymous(model(CandidateKey(cfg, d.candidate)))
    ensures forall task :: task in After(cfg, start, events).tasks && After(cfg, start, events).tasks[task].Finished? ==>
              var t := After(cfg, start, events).tasks[task];
              SameButIds(t.tree, TreeOf(t.candidate, model(CandidateKey(cfg, t.candidate))))
  {
    AlwaysSound(cfg, start, events);
    var w := After(cfg, start, events);
    forall task | task in w.tasks && w.tasks[task].Finished?
      ensures SameButIds(w.tasks[task].tree, TreeOf(w.tasks[task].candidate, model(CandidateKey(cfg, w.tasks[task].candidate))))
    {
      var d := FinishedExplained(cfg, w, task);
      SameRoots(w.tasks[task].candidate, d.roots, model(CandidateKey(cfg, d.candidate)));
    }
  }

  /** A finished analysis shares tool and parameter shape with the generation that its tree comes from. */
  lemma SharedShape(cfg: Config, start: real, events: seq<Event>, task: nat) returns (d: Delivery)
    requires task in After(cfg, start, events).tasks && After(cfg, start, events).tasks[task].Finished?
    ensures var w := After(cfg, start, events);
            && d in w.deliveries && d.candidate.toolName == w.tasks[task].candidate.toolName
            && Shape(d.candidate.parameters) == Shape(w.tasks[task].candidate.parameters)
            && w.tasks[task].tree == TreeOf(w.tasks[task].candidate, d.roots)
  {
    AlwaysSound(cfg, start, events);
    var w := After(cfg, start, events);
    d := FinishedExplained(cfg, w, task);
    KeyIff(cfg.hat, d.candidate, w.tasks[task].candidate);
  }

  /*** Time to live ***/

  /** A tree lives as long as its tool declares, if that is registered and declares it, or else as long as the engine says. */
  predicate LivesFor(cfg: Config, c: Candidate, ttl: int) {
    if c.toolName in cfg.tools && cfg.tools[c.toolName].cacheTtl.Some? then ttl == cfg.tools[c.toolName].cacheTtl.value
    else ttl == cfg.defaultTtl
  }

  /** Every hit is younger than the time to live, so without a positive one there is none. */
  lemma HitsAreYoung(cfg: Config, start: real, events: seq<Event>, task: nat, ttl: int)
    requires task in After(cfg, start, events).tasks && After(cfg, start, events).tasks[task].Finished?
    requires LivesFor(cfg, After(cfg, start, events).tasks[task].candidate, ttl)
    ensures var source := After(cfg, start, events).tasks[task].source;
            source.FromCache? ==> 0.0 <= source.usedAt - source.storedAt < ttl as real
  {
    AlwaysSound(cfg, start, events);
  }

  predicate NoClear(events: seq<Event>) {
    forall e :: e in events ==> !e.Clear?
  }

  /** An entry for the key, stored at this time or later. */
  predicate EntrySince(cache: Cache, key: string, at: real) {
    key in cache && cache[key].cachedAt >= at
  }

  lemma StepKeepsEntry(cfg: Config, w: World, e: Event, key: string, at: real)
    requires Sound(cfg, w) && Enabled(w, e) && !e.Clear? && EntrySince(w.cache, key, at)
    ensures EntrySince(Step(cfg, w, e).cache, key, at)
  {
    assert EntrySound(cfg, w.deliveries, w.now, key, w.cache[key]);
  }

  /** Until the cache is cleared, a key that has an entry keeps one, and time goes on. */
  lemma {:induction false} EntryStays(cfg: Config, start: real, before: seq<Event>, between: seq<Event>, key: string, at: real)
    requires NoClear(between) && EntrySince(After(cfg, start, before).cache, key, at)
    ensures EntrySince(After(cfg, start, before + between).cache, key, at)
    decreases |between|
  {
    hide Step, Enabled, Sound, EntrySince;
    if between == [] {
      assert before + between == before;
    } else {
      var all, e := before + between, Last(between);
      assert Init(all) == before + Init(between) && Last(all) == e;
      EntryStays(cfg, start, before, Init(between), key, at);
      AlwaysSound(cfg, start, Init(all));
      if Enabled(After(cfg, start, Init(all)), e) {
        StepKeepsEntry(cfg, After(cfg, start, Init(all)), e, key, at);
      }
    }
  }

  lemma {:induction false} NowGrows(cfg: Config, start: real, before: seq<Event>, between: seq<Event>)
    ensures After(cfg, start, before + between).now >= After(cfg, start, before).now
    decreases |between|
  {
    if between == [] {
      assert before + between == before;
    } else {
      var all := before + between;
      assert Init(all) == before + Init(between) && Last(all) == Last(between);
      NowGrows(cfg, start, before, Init(between));
    }
  }

  /** A generation with a positive time to live leaves an entry. */
  lemma DeliveryStored(cfg: Config, w: World, task: nat, roots: seq<Node>, at: real, ttl: int)
    requires Enabled(w, Deliver(task, roots, at)) && LivesFor(cfg, w.tasks[task].candidate, ttl) && ttl > 0
    ensures EntrySince(Step(cfg, w, Deliver(task, roots, at)).cache, CandidateKey(cfg, w.tasks[task].candidate), at)
  {
  }

  /** An analysis that begins while its key has an entry younger than the time to live is a hit. */
  lemma YoungEntryHit(cfg: Config, w: World, task: nat, c: Candidate, at: real, since: real, ttl: int)
    requires Enabled(w, Begin(task, c, at)) && EntrySince(w.cache, CandidateKey(cfg, c), since)
    requires LivesFor(cfg, c, ttl) && at - since < ttl as real
    ensures var t := Step(cfg, w, Begin(task, c, at)).tasks[task];
            t.Finished? && t.source.FromCache? && t.source.storedAt >= since && t.source.usedAt == at && t.tree.candidate == c
  {
  }

  /**
    The converse for whole runs: after a generation, and until the cache is cleared, every analysis for the
    same tool and parameter types within the time to live is served from the cache.
    */
  lemma YoungGenerationServes(cfg: Config, start: real, before: seq<Event>, task: nat, roots: seq<Node>, stored: real,
                              between: seq<Event>, next: nat, c: Candidate, at: real, ttl: int)
    requires Enabled(After(cfg, start, before), Deliver(task, roots, stored)) && NoClear(between)
    requires Enabled(After(cfg, start, before + [Deliver(task, roots, stored)] + between), Begin(next, c, at))
    requires var d := After(cfg, start, before).tasks[task].candidate;
             d.toolName == c.toolName && SameKinds(d.parameters, c.parameters)
    requires LivesFor(cfg, c, ttl) && at - stored < ttl as real
    ensures var after := After(cfg, start, before + [Deliver(task, roots, stored)] + between + [Begin(next, c, at)]);
            && next in after.tasks
            && var t := after.tasks[next];
            t.Finished? && t.source.FromCache? && t.source.storedAt >= stored && t.source.usedAt == at && t.tree.candidate == c
  {
    var w0, delivery := After(cfg, start, before), Deliver(task, roots, stored);
    var first, d := before + [delivery], w0.tasks[task].candidate;
    assert Init(first) == before && Last(first) == delivery;
    NowGrows(cfg, start, first, between);
    DeliveryStored(cfg, w0, task, roots, stored, ttl);
    KeyMeaning(cfg.hat, d, c);
    EntryStays(cfg, start, first, between, CandidateKey(cfg, c), stored);
    var all, begin := first + between, Begin(next, c, at);
    assert Init(all + [begin]) == all && Last(all + [begin]) == begin;
    YoungEntryHit(cfg, After(cfg, start, all), next, c, at, stored, ttl);
  }

  /** Every entry was stored at this time or later. */
  predicate AllSince(cache: Cache, at: real) {
    forall key :: key in cache ==> cache[key].cachedAt >= at
  }

  lemma StepSince(cfg: Config, w: World, e: Event, at: real)
    requires Enabled(w, e) && w.now >= at && AllSince(w.cache, at)
    ensures Step(cfg, w, e).now >= at && AllSince(Step(cfg, w, e).cache, at)
  {
  }

  lemma {:induction false} ClearedStays(cfg: Config, start: real, before: seq<Event>, between: seq<Event>, at: real)
    requires After(cfg, start, before).now >= at && AllSince(After(cfg, start, before).cache, at)
    ensures var w := After(cfg, start, before + between);
            w.now >= at && AllSince(w.cache, at)
    decreases |between|
  {
    hide Step, Enabled, AllSince;
    if between == [] {
      assert before + between == before;
    } else {
      var all := before + between;
      assert Init(all) == before + Init(between) && Last(all) == Last(between);
      ClearedStays(cfg, start, before, Init(between), at);
      if Enabled(After(cfg, start, Init(all)), Last(all)) {
        StepSince(cfg, After(cfg, start, Init(all)), Last(all), at);
      }
    }
  }

  /** After the cache was cleared, no analysis is served from anything that was stored before. */
  lemma ClearForgets(cfg: Config, start: real, before: seq<Event>, cleared: real, between: seq<Event>, next: nat, c: Candidate, at: real)
    requires Enabled(After(cfg, start, before), Clear(cleared))
    requires Enabled(After(cfg, start, before + [Clear(cleared)] + between), Begin(next, c, at))
    ensures var after := After(cfg, start, before + [Clear(cleared)] + between + [Begin(next, c, at)]);
            && next in after.tasks
            && var t := after.tasks[next];
            t.Finished? ==> t.source.FromCache? && t.source.storedAt >= cleared
  {
    var first := before + [Clear(cleared)];
    assert Init(first) == before && Last(first) == Clear(cleared);
    ClearedStays(cfg, start, first, between, cleared);
    var all, begin := first + between, Begin(next, c, at);
    assert Init(all + [begin]) == all && Last(all + [begin]) == begin;
  }

  /** A tool without a positive time to live is analysed afresh every time. */
  lemma NoCachingWithoutTtl(cfg: Config, start: real, events: seq<Event>, task: nat, ttl: int)
    requires task in After(cfg, start, events).tasks && After(cfg, start, events).tasks[task].Finished?
    requires LivesFor(cfg, After(cfg, start, events).tasks[task].candidate, ttl) && ttl <= 0
    ensures After(cfg, start, events).tasks[task].source.Generated?
  {
    HitsAreYoung(cfg, start, events, task, ttl);
  }
}
