/** Runs of an operator that may stop at any point and start again from what its store holds. */
module Lives {
  import opened Prelude
  import opened TestModel
  import opened CollectionSteps
  import opened CollectionInvariant
  import opened Keys
  import opened DatabaseSteps
  import opened DatabaseInvariant
  import opened WriteBack
  import opened Resolving
  import opened Coherence
  import opened Reload
  import opened NextIds
  import opened StoredIds
  import opened SubmissionDates
  import opened Restarts
  import opened OldKeys
  import Reachable
  import RetryChains

  // ---- Where a run may stop ----

  /** Only resolving writes to the store. */
  lemma OnlyResolvingWrites(db: Database, s: Step)
    requires !Resolves(db, s) && !s.DroppingOldKeys?
    ensures Next(db, s).store == db.store
  {
    hide Submit, RoundFrom, Settle, Sweep;
    assert db.(store := db.store) == db;
    match s
    case Submitting(_, _) => SubmittingKnown(db, s);
    case Processing(visits) => RoundStore(db, db.store, visits, 0, 0);
    case Settlement(_) =>
    case Sweeping(jobs) => SweepStore(db, db.store, jobs);
    case DroppingOldKeys =>
  }

  lemma SubmittingKnown(db: Database, s: Step)
    requires s.Submitting? && s.kube.uid in db.collections
    ensures Next(db, s) == db
  {
  }

  lemma ResolvingStepSettles(db: Database, s: Step)
    requires RunOk(db) && StepOk(s) && Resolves(db, s)
    ensures StoreOk(Next(db, s))
  {
    hide RunOk, Submit, RoundFrom, Settle, Sweep, Settled, IsUid;
    NextCoheres(db, s);
    match s
    case Submitting(kube, delay) => SubmittingCoheres(db, kube, delay);
    case Settlement(settling) => SettlingCoheres(db, settling);
    case _ =>
  }

  lemma EmptyStoreIsOk()
    ensures StoreOk(EMPTY_DATABASE)
  {
    hide RunOk;
    EmptyIsOk();
  }

  /** Wherever a run stops, its store is that of the last time it was brought up to date, and can be loaded. */
  lemma {:induction false} StoreOfStoppedRun(steps: seq<Step>)
    requires StepsOk(steps)
    ensures
      var last := Run(steps[..LastResolve(steps)]);
      StoreOk(last) && Run(steps).store == last.store
  {
    hide RunOk, Next, Resolves, StoreOk, StepOk;
    if steps == [] {
      assert steps[..0] == steps;
      EmptyStoreIsOk();
    } else {
      var n := |steps| - 1;
      var before, s := steps[..n], steps[n];
      EveryRunIsCoherent(before);
      if Resolves(Run(before), s) {
        assert steps[..|steps|] == steps;
        ResolvingStepSettles(Run(before), s);
      } else {
        StoreOfStoppedRun(before);
        assert before[..LastResolve(before)] == steps[..LastResolve(before)];
        NothingWritten(Run(before), s);
      }
    }
  }

  lemma NothingWritten(db: Database, s: Step)
    requires RunOk(db) && !Resolves(db, s)
    ensures Next(db, s).store == db.store
  {
    hide Submit, RoundFrom, Settle, Sweep, WriteBackOk, DatabaseOk, DropOldKeys;
    if s.DroppingOldKeys? {
      NoKeyIsOld(db);
    } else {
      OnlyResolvingWrites(db, s);
    }
  }

  // ---- Worlds ----

  /** The operator's database; the database as it was when the store was last brought up to date; and the collections
      that the last restart did not find again, as long as their keys are not removed. */
  datatype World = World(db: Database, saved: Database, lost: set<string>)

  const FIRST_WORLD := World(EMPTY_DATABASE, EMPTY_DATABASE, {})

  /** A step, or a crash and the database that is loaded after it. */
  datatype Event =
    | Stepping(step: Step)
    | Restarting(fetch: (string, string) -> Option<KubeTest>, loaded: Database)

  /** What is required of a world to start again: every stored id is the number of stored entries, which can be read off
      the store; no KoupletTest has been edited meanwhile; and nothing is left over from the restart before. */
  ghost predicate EventOk(w: World, e: Event) {
    match e
    case Stepping(s) => StepOk(s) && (s.Submitting? ==> IsUuid(s.kube.uid) && s.kube.uid !in w.lost)
    case Restarting(fetch, d) =>
      && w.lost == {}
      && Restarted(w.saved, fetch, d) && NewlyStarted(d) && w.saved.clock <= d.clock
      && NothingEdited(w.saved, fetch)
      && IdsStored(w.db.store, d.collections.Keys)
  }

  ghost function After(w: World, e: Event): World {
    match e
    case Restarting(_, d) => World(d, d, Lost(w.saved, d))
    case Stepping(s) =>
      var d := Next(w.db, s);
      if s.DroppingOldKeys? then World(d, w.saved.(store := d.store), {})
      else if Resolves(w.db, s) then World(d, d, w.lost)
      else World(d, w.saved, w.lost)
  }

  ghost function Life(events: seq<Event>): World {
    if events == [] then FIRST_WORLD else After(Life(events[..|events| - 1]), events[|events| - 1])
  }

  ghost predicate LifeOk(events: seq<Event>) {
    events == [] || (LifeOk(events[..|events| - 1]) && EventOk(Life(events[..|events| - 1]), events[|events| - 1]))
  }

  /** Apart from what is left of lost collections, the database satisfies every invariant of a run, and what is in the
      store can be loaded. */
  ghost predicate WorldOk(w: World) {
    && RunOk(Cleared(w.db, w.lost)) && LeftOver(w.db, w.lost)
    && StoreOk(Cleared(w.saved, w.lost)) && w.saved.store == w.db.store && Canonical(w.saved.collections.Keys)
    && DatesOk(w.db) && DatesOk(w.saved)
  }

  // ---- A step ----

  lemma LeftOverIsApart(db: Database, lost: set<string>)
    requires LeftOver(db, lost)
    ensures Apart(db, lost)
  {
    hide IsUid, IsRecordOf, BelongsToAny;
    forall u | u in lost
      ensures IsUid(u)
    {
      assert IsUuid(u);
    }
  }

  lemma KeysAfter(db: Database, s: Step, u: string)
    requires RunOk(db) && StepOk(s) && u in Next(db, s).collections.Keys
    ensures u in db.collections.Keys || (s.Submitting? && u == s.kube.uid)
  {
    hide RunOk, RoundFrom, Sweep, CompleteCollections, Resolve, PutAll, WithTests, CreationMarks, Deletions;
    if !Resolves(db, s) {
      SameKeys(db, s);
    } else if s.Settlement? {
      SameCollections(db, s.settling);
      ResolveKeepsMemory(Collect(CompleteCollections(db, s.settling.endDelay, s.settling.cleanupDelay), s.settling.gone));
    } else {
      ResolveKeepsMemory(Enlist(db, WithTests(s.kube, db.clock + s.delay, |s.kube.tests|), db.clock + s.delay,
                                CreationMarks(s.kube.uid, |s.kube.tests|)));
    }
  }

  lemma StillLeftOver(w: World, s: Step)
    requires WorldOk(w) && EventOk(w, Stepping(s))
    ensures LeftOver(Next(w.db, s), w.lost)
    ensures Cleared(Next(w.db, s), w.lost) == Next(Cleared(w.db, w.lost), s)
  {
    hide RunOk, StoreOk, Next, BelongsToAny, IsRecordOf, IsUuid, DatesOk, IsUid, Cleared;
    LeftOverIsApart(w.db, w.lost);
    NextIgnores(w.db, w.lost, s);
    ClearedFields(w.db, w.lost);
    ClearedFields(Next(w.db, s), w.lost);
    forall u | u in Next(w.db, s).collections.Keys
      ensures u !in w.lost && IsUuid(u)
    {
      KeysAfter(Cleared(w.db, w.lost), s, u);
    }
  }

  lemma ClearedFields(db: Database, lost: set<string>)
    ensures Cleared(db, lost) == db.(store := Cleared(db, lost).store)
  {
    hide BelongsToAny;
  }

  lemma StepKeepsWorld(w: World, s: Step)
    requires WorldOk(w) && EventOk(w, Stepping(s)) && !s.DroppingOldKeys?
    ensures WorldOk(After(w, Stepping(s)))
  {
    hide RunOk, StoreOk, Next, LeftOver, DatesOk, Cleared, Resolves, Canonical;
    var d := Next(w.db, s);
    StillLeftOver(w, s);
    NextCoheres(Cleared(w.db, w.lost), s);
    DatesAfter(w, s);
    CanonicalAfter(d, w.lost);
    ClearedFields(w.db, w.lost);
    SameResolves(w.db, Cleared(w.db, w.lost), s);
    if Resolves(w.db, s) {
      ResolvingStepSettles(Cleared(w.db, w.lost), s);
    } else {
      OnlyResolvingWrites(w.db, s);
    }
  }

  lemma SameResolves(db: Database, d: Database, s: Step)
    ensures d.collections == db.collections ==> (Resolves(d, s) <==> Resolves(db, s))
  {
  }

  lemma CanonicalAfter(d: Database, lost: set<string>)
    requires LeftOver(d, lost)
    ensures Canonical(d.collections.Keys)
  {
  }

  lemma DatesAfter(w: World, s: Step)
    requires WorldOk(w) && StepOk(s)
    ensures DatesOk(Next(w.db, s))
  {
    hide WriteBackOk, DatabaseOk, StoreOk, Next, LeftOver, DatesOk, Cleared;
    ClearingKeepsMemory(w.db, w.lost);
    NextKeepsDates(w.db, s);
  }

  // ---- The removal of old keys ----

  lemma NothingToClear(db: Database)
    ensures Cleared(db, {}) == db
  {
    hide BelongsTo;
    assert Cleared(db, {}).store == db.store;
  }

  lemma DatesOfCleared(db: Database, lost: set<string>)
    requires DatesOk(db)
    ensures DatesOk(Cleared(db, lost))
  {
    hide BelongsToAny, Millis, DateOf;
  }

  lemma SavedIsCleared(w: World)
    requires w.saved.store == w.db.store
    ensures w.saved.(store := Cleared(w.db, w.lost).store) == Cleared(w.saved, w.lost)
  {
    hide BelongsToAny;
  }

  lemma NothingLeftOver(db: Database, lost: set<string>)
    requires LeftOver(db, lost)
    ensures LeftOver(Cleared(db, lost), {})
  {
    hide IsUuid, IsRecordOf, BelongsTo;
  }

  lemma DroppingKeepsWorld(w: World)
    requires WorldOk(w)
    ensures WorldOk(After(w, Stepping(DroppingOldKeys)))
  {
    hide WriteBackOk, DatabaseOk, StoreOk, LeftOver, DatesOk, Cleared, DropOldKeys, Canonical;
    RemovalIsExact(w.db, w.lost);
    SavedIsCleared(w);
    NothingLeftOver(w.db, w.lost);
    NothingToClear(Cleared(w.db, w.lost));
    NothingToClear(Cleared(w.saved, w.lost));
    DatesOfCleared(w.db, w.lost);
    DatesOfCleared(w.saved, w.lost);
    ClearedFields(w.saved, w.lost);
  }

  // ---- A restart ----

  lemma LostAreRecords(db: Database, d: Database, key: string)
    requires StoreOk(db) && key in db.store && BelongsToAny(key, Lost(db, d))
    ensures IsRecordOf(key, Lost(db, d))
  {
    hide StoreOk, StoreKey, BelongsTo, DatabaseOk, DirtyOk, Coherent, IsUid, Live;
    StoreParts(db);
    var u :| u in Lost(db, d) && BelongsTo(key, u);
    LostAreUids(db, d, u);
    assert Known(db.collections, key);
    BelongingIsNoStart(key, u);
    var m :| Live(db.collections, m) && StoreKey(m) == key;
    HasUidOf(db.collections, m);
    HeldParts(db, m.uid);
    UpdateBelongs(m, u);
    LiveIdIsThere(db, m);
    if !m.CollectionShallow? {
      EntriesAreNumbered(db, m.uid, m.id);
    }
  }

  lemma LiveIdIsThere(db: Database, m: Mark)
    requires Live(db.collections, m)
    ensures m.uid in db.collections && (m.CollectionShallow? || m.id in db.collections[m.uid].entries)
  {
  }

  lemma BelongingIsNoStart(key: string, u: string)
    requires BelongsTo(key, u)
    ensures !(START_TIME <= key)
  {
    EntityParts(u);
    assert COLLECTION <= key by {
      if COLLECTION + u <= key {
        assert key[..16] == (COLLECTION + u)[..16] == COLLECTION;
      } else {
        assert key[..16] == (ENTITY + u)[..16] == COLLECTION;
      }
    }
    NotAStart(key);
  }

  lemma RestartLeavesOver(db: Database, fetch: (string, string) -> Option<KubeTest>, d: Database)
    requires StoreOk(db) && AllRebuilt(db, fetch, d.collections) && d.store == db.store && Canonical(db.collections.Keys)
    ensures LeftOver(d, Lost(db, d))
  {
    hide StoreOk, BelongsToAny, IsRecordOf, IsUuid, Rebuilt, IsFound;
    forall key | key in d.store && BelongsToAny(key, Lost(db, d))
      ensures IsRecordOf(key, Lost(db, d))
    {
      LostAreRecords(db, d, key);
    }
    assert d.collections.Keys <= db.collections.Keys;
  }

  /** The loaded lists stand in the order of their dates, together as well. */
  lemma RestartDates(db: Database, fetch: (string, string) -> Option<KubeTest>, d: Database)
    requires DatabaseOk(db) && DatesOk(db) && Restarted(db, fetch, d) && db.clock <= d.clock
    ensures DatesOk(d)
  {
    hide DatabaseOk, ByDate, Rebuilt, IsFound, Millis, StartFound, NoDuplicates, DateOf;
    MillisMonotone(db.clock, d.clock);
    PartsByDate(db.collections, db.running, db.waiting);
    ListParts(db);
    forall u | u in d.collections
      ensures d.collections[u].dateSubmitted <= Millis(d.clock)
    {
      RebuiltInBucket(db, fetch, d.collections, u);
    }
    forall u, v | u in d.running && v in d.waiting
      ensures DateOf(d.collections, u) <= DateOf(d.collections, v)
    {
      RebuiltInBucket(db, fetch, d.collections, u);
      RebuiltInBucket(db, fetch, d.collections, v);
      DatesAre(db, d, u);
      DatesAre(db, d, v);
    }
    JoinedByDate(d.collections, d.running, d.waiting);
  }

  lemma DatesAre(db: Database, d: Database, u: string)
    requires u in db.collections && u in d.collections
    requires d.collections[u].dateSubmitted == db.collections[u].dateSubmitted
    ensures DateOf(d.collections, u) == DateOf(db.collections, u)
  {
  }

  lemma RestartKeepsWorld(w: World, fetch: (string, string) -> Option<KubeTest>, d: Database)
    requires WorldOk(w) && EventOk(w, Restarting(fetch, d))
    ensures WorldOk(After(w, Restarting(fetch, d)))
  {
    hide WriteBackOk, DatabaseOk, StoreOk, LeftOver, DatesOk, Cleared, Canonical, NothingEdited, IdsStored, NewlyStarted,
      Settled, AllRebuilt, ByDate, ListedByBucket, StartFound;
    var db := w.saved;
    NothingToClear(db);
    StoreParts(db);
    RestartIsOkExactlyWhen(db, fetch, d);
    RestartLeavesOver(db, fetch, d);
    RestartDates(db, fetch, d);
    CanonicalAfter(d, Lost(db, d));
    SettledIsStoreOk(Cleared(d, Lost(db, d)));
  }

  lemma SettledIsStoreOk(db: Database)
    requires RunOk(db) && Settled(db)
    ensures StoreOk(db)
  {
  }

  // ---- Every life ----

  lemma AfterKeepsWorld(w: World, e: Event)
    requires WorldOk(w) && EventOk(w, e)
    ensures WorldOk(After(w, e))
  {
    hide WorldOk, EventOk, After;
    match e
    case Restarting(fetch, d) => RestartKeepsWorld(w, fetch, d);
    case Stepping(s) =>
      if s.DroppingOldKeys? {
        DroppingKeepsWorld(w);
      } else {
        StepKeepsWorld(w, s);
      }
  }

  lemma FirstWorldIsOk()
    ensures WorldOk(FIRST_WORLD)
  {
    hide StoreOk, RunOk, BelongsToAny, Cleared;
    EmptyIsOk();
    EmptyStoreIsOk();
    NothingToClear(EMPTY_DATABASE);
  }

  /** However often the operator stops, and wherever: if it starts again only from stores whose ids are current, then at
      every time its database satisfies every invariant of a run, apart from what is left over of lost collections. */
  lemma {:induction false} EveryLifeIsOk(events: seq<Event>)
    requires LifeOk(events)
    ensures WorldOk(Life(events))
  {
    hide WorldOk, EventOk, After;
    if events == [] {
      FirstWorldIsOk();
    } else {
      EveryLifeIsOk(events[..|events| - 1]);
      AfterKeepsWorld(Life(events[..|events| - 1]), events[|events| - 1]);
    }
  }

  /** In every life, the scheduled removal takes away the keys of the collections that were not found again, all of
      them and no other. */
  lemma RemovalTakesTheLost(events: seq<Event>)
    requires LifeOk(events)
    ensures DropOldKeys(Life(events).db) == Cleared(Life(events).db, Life(events).lost)
  {
    hide StoreOk, DatabaseOk, WriteBackOk, LeftOver, DatesOk, Cleared, DropOldKeys, Canonical, Life, LifeOk;
    EveryLifeIsOk(events);
    RemovalIsExact(Life(events).db, Life(events).lost);
  }

  /** In every life, once a collection has completed, every test of its specification has been tried to the end. */
  lemma CompletedIsDealtWith(events: seq<Event>, uid: string, t: int)
    requires LifeOk(events) && uid in Life(events).db.completed
    ensures uid in Life(events).db.collections
    ensures
      var c := Life(events).db.collections[uid];
      && CollectionOk(c)
      && (0 <= t < |c.kube.tests| ==> t in c.entries && RetryChains.DealtWith(c, t, RetryChains.Chain(c, t)))
  {
    hide StoreOk, DatabaseOk, WriteBackOk, LeftOver, DatesOk, Cleared, Canonical, Life, LifeOk, CollectionOk, Forest,
      RetryChains.DealtWith, RetryChains.Chain;
    EveryLifeIsOk(events);
    var db := Life(events).db;
    ClearingKeepsMemory(db, Life(events).lost);
    Reachable.CompletedIsComplete(db, uid);
    Reachable.PartitionOf(db.collections[uid]);
    if 0 <= t < |db.collections[uid].kube.tests| {
      RetryChains.NoTestIsDropped(db.collections[uid], t);
    }
  }

  /** In every life, the order in which collections run and wait survives a restart. */
  lemma OrderSurvives(events: seq<Event>, fetch: (string, string) -> Option<KubeTest>, d: Database)
    requires LifeOk(events) && EventOk(Life(events), Restarting(fetch, d))
    requires DistinctDates(Life(events).saved.collections)
    ensures
      var db := Life(events).saved;
      d.waiting == Remaining(db, fetch, db.waiting) && d.running == Remaining(db, fetch, db.running)
  {
    hide DatabaseOk, WriteBackOk, LeftOver, DatesOk, Cleared, Canonical, Life, LifeOk, Remaining, Restarted, NewlyStarted,
      NothingEdited, IdsStored, DistinctDates, StoreOk;
    EveryLifeIsOk(events);
    NothingToClear(Life(events).saved);
    StoreParts(Life(events).saved);
    RestartKeepsOrder(Life(events).saved, fetch, d);
  }
}
