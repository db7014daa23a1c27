/** The store and memory over whole runs. */
module Coherence {
  import opened Prelude
  import opened TestModel
  import opened CollectionSteps
  import opened CollectionInvariant
  import opened CollectionProofs
  import opened Keys
  import opened DatabaseSteps
  import opened DatabaseInvariant
  import opened WriteBack
  import opened Coverage
  import opened Resolving

  ghost predicate RunOk(db: Database) {
    DatabaseOk(db) && WriteBackOk(db)
  }

  // ---- Rounds ----

  lemma SameUids(before: map<string, Collection>, after: map<string, Collection>)
    requires UidsOk(before) && after.Keys == before.Keys
    ensures UidsOk(after)
  {
    hide IsUid;
    forall u | u in after
      ensures IsUid(u)
    {
      assert u in before.Keys;
    }
  }

  lemma AbsorbCoheres(db: Database, uid: string, o: Outcome)
    requires WriteBackOk(db) && uid in db.collections && db.collections[uid].uid == uid && o.coll.uid == uid
    requires Recorded(db.collections, db.collections[uid], o.coll, o.marks)
    ensures WriteBackOk(Absorb(db, uid, o))
  {
    hide Covered, PutAll;
    var after := db.collections[uid := o.coll];
    assert db.collections[uid := db.collections[uid]] == db.collections;
    SameUids(db.collections, after);
    RecordedChangeKeeps(db, after, o.marks);
    OtherFieldsDoNotMatter(db.(collections := after, dirty := PutAll(db.dirty, o.marks)), Absorb(db, uid, o));
  }

  lemma RewriteCoheres(db: Database, c: Collection, now: int)
    requires WriteBackOk(db) && c.uid in db.collections && db.collections[c.uid].entries == c.entries
    ensures WriteBackOk(Rewrite(db, c, now))
  {
    hide DirtyOk, Coherent, OnlyKnown, UpdateKey;
    var after := db.collections[c.uid := c];
    var marks := [CollectionShallow(c.uid)];
    forall m | Live(after, m)
      ensures CoveredAt(db.collections, after, marks, m)
    {
    }
    assert IsUid(c.uid);
    SameUids(db.collections, after);
    RecordedChangeKeeps(db, after, marks);
    assert marks[..0] == [];
    assert PutAll(db.dirty, marks) == Put(db.dirty, CollectionShallow(c.uid));
    OtherFieldsDoNotMatter(db.(collections := after, dirty := PutAll(db.dirty, marks)), Rewrite(db, c, now));
  }

  lemma MarkPrimaryCoheres(db: Database, uid: string, delay: nat)
    requires WriteBackOk(db) && uid in db.collections && db.collections[uid].uid == uid
    ensures WriteBackOk(MarkPrimary(db, uid, delay))
  {
    hide WriteBackOk, Rewrite;
    if db.collections[uid].startTime.None? {
      var now := db.clock + delay;
      RewriteCoheres(db, db.collections[uid].(startTime := Some(Millis(now))), now);
    }
  }

  lemma VisitCoheres(db: Database, uid: string, visit: Visit, first: bool)
    requires RunOk(db) && uid in db.collections && db.collections[uid].bucket == RunningBucket
    ensures
      var o := ProcessCollection(db.collections[uid], db.clock, db.starts, visit.cluster);
      RunOk(AfterVisit(db, uid, o, first, visit.primaryDelay))
  {
    hide ProcessCollection, WriteBackOk, DatabaseOk, Recorded, CollectionOk, MarkPrimary, PutAll;
    HeldParts(db, uid);
    var o := ProcessCollection(db.collections[uid], db.clock, db.starts, visit.cluster);
    ProcessRecorded(db.collections, db.collections[uid], db.clock, db.starts, visit.cluster);
    ProcessKeepsHeader(db.collections[uid], db.clock, db.starts, visit.cluster);
    VisitedIsOk(db, uid, visit, first);
    AbsorbCoheres(db, uid, o);
    MarkPrimaryCoheres(Absorb(db, uid, o), uid, visit.primaryDelay);
  }

  lemma VisitedIsOk(db: Database, uid: string, visit: Visit, first: bool)
    requires DatabaseOk(db) && uid in db.collections && db.collections[uid].bucket == RunningBucket
    ensures
      var o := ProcessCollection(db.collections[uid], db.clock, db.starts, visit.cluster);
      DatabaseOk(AfterVisit(db, uid, o, first, visit.primaryDelay))
  {
    hide ProcessCollection, DatabaseOk, CollectionOk, AfterVisit;
    HeldParts(db, uid);
    var o := ProcessCollection(db.collections[uid], db.clock, db.starts, visit.cluster);
    ProcessedIsHeld(uid, db.collections[uid], db.clock, db.starts, visit.cluster);
    VisitKeeps(db, uid, o, first, visit.primaryDelay);
  }

  lemma AdmitCoheres(db: Database)
    requires RunOk(db) && db.waiting != []
    ensures db.waiting[0] in db.collections && WriteBackOk(Admit(db))
  {
    hide WriteBackOk, DatabaseOk, Rewrite;
    AdmitKeeps(db);
    var uid := db.waiting[0];
    HeldParts(db, uid);
    var moved := db.(waiting := db.waiting[1..], running := db.running + [uid]);
    OtherFieldsDoNotMatter(db, moved);
    RewriteCoheres(moved, db.collections[uid].(status := CollectionRunning, bucket := RunningBucket), db.clock);
  }

  lemma {:induction false} RoundCoheres(db: Database, visits: nat -> Visit, at: nat, inQueue: nat)
    requires RunOk(db)
    ensures RunOk(RoundFrom(db, visits, at, inQueue).db)
    decreases |db.running| - at
  {
    hide RunOk, ProcessCollection, AfterVisit, Admit;
    if at >= |db.running| {
      if db.waiting != [] {
        AdmitRunOk(db);
      }
    } else {
      RunParts(db);
      RunningIsHeld(db, at);
      var uid := db.running[at];
      VisitCoheres(db, uid, visits(at), at == 0);
      var o := ProcessCollection(db.collections[uid], db.clock, db.starts, visits(at).cluster);
      if !o.changed {
        RoundCoheres(AfterVisit(db, uid, o, at == 0, visits(at).primaryDelay), visits, at + 1,
                     inQueue + |o.coll.queued| + |o.coll.retry|);
      }
    }
  }

  lemma AdmitRunOk(db: Database)
    requires RunOk(db) && db.waiting != []
    ensures db.waiting[0] in db.collections && RunOk(Admit(db))
  {
    hide WriteBackOk, DatabaseOk, Admit;
    AdmitKeeps(db);
    AdmitCoheres(db);
  }

  // ---- Settling ----

  lemma MarkIfCompleteCoheres(d: Database, uid: string, delay: nat)
    requires WriteBackOk(d) && (uid in d.collections ==> d.collections[uid].uid == uid)
    ensures WriteBackOk(MarkIfComplete(d, uid, delay))
  {
    hide WriteBackOk, Rewrite;
    if uid in d.collections && IsComplete(d.collections[uid]) {
      var now := d.clock + delay;
      var moved := d.(completed := d.completed + [uid]);
      OtherFieldsDoNotMatter(d, moved);
      RewriteCoheres(moved, d.collections[uid].(bucket := CompletedBucket, status := CollectionComplete, endTime := Some(Millis(now))), now);
    }
  }

  lemma {:induction false} MarkCompleteCoheres(db: Database, endDelay: nat -> nat, n: nat)
    requires RunOk(db) && n <= |db.running|
    ensures WriteBackOk(MarkComplete(db, endDelay, n))
  {
    hide RunOk, MarkIfComplete, WriteBackOk;
    RunParts(db);
    if n > 0 {
      MarkCompleteCoheres(db, endDelay, n - 1);
      MarkCompleteKeeps(db, endDelay, n - 1);
      var d := MarkComplete(db, endDelay, n - 1);
      MarkedHasUid(db, d, n - 1, db.running[n - 1]);
      MarkIfCompleteCoheres(d, db.running[n - 1], endDelay(n - 1));
    }
  }

  lemma RunParts(db: Database)
    requires RunOk(db)
    ensures DatabaseOk(db) && WriteBackOk(db)
  {
  }

  lemma MarkedHasUid(db: Database, d: Database, n: nat, uid: string)
    requires n <= |db.running| && MarkedUpTo(db, d, n)
    ensures uid in d.collections ==> d.collections[uid].uid == uid
  {
    hide HeldOk;
    if uid in d.collections {
      CollectionIsHeld(d, uid);
      HeldHasUid(uid, d.collections[uid]);
    }
  }

  lemma RemovalMarksFit(times: seq<int>)
    ensures forall m :: m in RemovalMarks(times) ==> MarkFits(m)
  {
  }

  lemma ForgettingCoheres(d: Database, delay: nat)
    requires WriteBackOk(d)
    ensures WriteBackOk(ForgetOldStarts(d, delay))
  {
    hide WriteBackOk, PutAll, RemovalMarks, Filter, Recent;
    var before := d.clock + delay - SECONDS_REMEMBERED * NANOS_PER_SECOND;
    var r := ForgetOldStarts(d, delay);
    var marks := RemovalMarks(Filter(d.starts, t => t <= before));
    RemovalMarksFit(Filter(d.starts, t => t <= before));
    PlainMarksCohere(d, marks);
    OtherFieldsDoNotMatter(d.(dirty := PutAll(d.dirty, marks)), r);
  }

  lemma PlainMarksCohere(d: Database, marks: seq<Mark>)
    requires WriteBackOk(d) && forall m :: m in marks ==> MarkFits(m)
    ensures WriteBackOk(d.(dirty := PutAll(d.dirty, marks)))
  {
    hide MarkFits, PutAll;
    forall m | Live(d.collections, m)
      ensures CoveredAt(d.collections, d.collections, marks, m)
    {
    }
    RecordedChangeKeeps(d, d.collections, marks);
    assert d.(collections := d.collections, dirty := PutAll(d.dirty, marks)) == d.(dirty := PutAll(d.dirty, marks));
  }

  lemma CompleteCollectionsCoheres(db: Database, endDelay: nat -> nat, cleanupDelay: nat)
    requires RunOk(db)
    ensures WriteBackOk(CompleteCollections(db, endDelay, cleanupDelay))
  {
    hide RunOk, MarkComplete, WriteBackOk, ForgetOldStarts, StillRunningList;
    MarkCompleteCoheres(db, endDelay, |db.running|);
    var marked := MarkComplete(db, endDelay, |db.running|);
    var d := marked.(running := StillRunningList(db));
    OtherFieldsDoNotMatter(marked, d);
    ForgettingCoheres(d, cleanupDelay);
  }

  lemma CollectDrops(c: Database, gone: set<string>)
    requires WriteBackOk(c)
    ensures Dropped(c, Collect(c, gone), gone * c.collections.Keys)
  {
    hide WriteBackOk;
  }

  /** After Process has settled, the store agrees with memory, nothing is pending, and every key of the
      collections whose KoupletTest is gone has been removed. */
  lemma SettlingCoheres(db: Database, s: Settling)
    requires RunOk(db)
    ensures WriteBackOk(Settle(db, s)) && Settled(Settle(db, s))
    ensures forall key, u :: key in Settle(db, s).store && u in s.gone && u in db.collections ==> !BelongsTo(key, u)
  {
    hide RunOk, CompleteCollections, WriteBackOk, Resolve, Settled, Deletions, BelongsTo;
    CompleteCollectionsCoheres(db, s.endDelay, s.cleanupDelay);
    var c := CompleteCollections(db, s.endDelay, s.cleanupDelay);
    SameCollections(db, s);
    CollectDrops(c, s.gone);
    ResolvingSettles(c, Collect(c, s.gone), s.gone * c.collections.Keys);
  }

  lemma SameCollections(db: Database, s: Settling)
    requires RunOk(db)
    ensures CompleteCollections(db, s.endDelay, s.cleanupDelay).collections.Keys == db.collections.Keys
  {
    hide DatabaseOk, WriteBackOk, MarkComplete, StillRunningList, Recent, PutAll;
    MarkCompleteKeeps(db, s.endDelay, |db.running|);
  }

  // ---- Submitting ----

  lemma NothingDropped(d: Database)
    requires WriteBackOk(d)
    ensures Dropped(d, d, {})
  {
    hide WriteBackOk;
    assert Deletions({}) == map[];
  }

  /** A new collection is recorded in full. */
  lemma EnlistCoheres(db: Database, kube: KubeTest, now: int)
    requires RunOk(db) && IsUid(kube.uid) && kube.uid !in db.collections
    ensures WriteBackOk(Enlist(db, WithTests(kube, now, |kube.tests|), now, CreationMarks(kube.uid, |kube.tests|)))
  {
    hide RunOk, WriteBackOk, WithTests, CreationMarks, Covered, PutAll;
    RunParts(db);
    var c := WithTests(kube, now, |kube.tests|);
    var marks := CreationMarks(kube.uid, |kube.tests|);
    CreationRecorded(db.collections, kube, now);
    var d := Enlist(db, c, now, marks);
    UidsWithOneMore(db, kube.uid, c);
    RecordedChangeKeeps(db, d.collections, marks);
    OtherFieldsDoNotMatter(db.(collections := d.collections, dirty := PutAll(db.dirty, marks)), d);
  }

  /** After a collection has been submitted, the store agrees with memory and nothing is pending. */
  lemma SubmittingCoheres(db: Database, kube: KubeTest, delay: nat)
    requires RunOk(db) && IsUid(kube.uid)
    ensures WriteBackOk(Submit(db, kube, delay))
    ensures kube.uid !in db.collections ==> Settled(Submit(db, kube, delay))
  {
    hide RunOk, WriteBackOk, WithTests, CreationMarks, Covered, Resolve, Settled, Dropped, PutAll, Enlist;
    RunParts(db);
    if kube.uid !in db.collections {
      var now := db.clock + delay;
      EnlistCoheres(db, kube, now);
      var d := Enlist(db, WithTests(kube, now, |kube.tests|), now, CreationMarks(kube.uid, |kube.tests|));
      NothingDropped(d);
      ResolvingSettles(d, d, {});
    }
  }

  lemma UidsWithOneMore(db: Database, uid: string, c: Collection)
    requires WriteBackOk(db) && IsUid(uid)
    ensures UidsOk(db.collections[uid := c])
  {
    hide IsUid, Coherent, OnlyKnown, DirtyOk;
  }

  // ---- The scheduled clean-up of jobs ----

  lemma SweepJobCoheres(db: Database, job: Job)
    requires RunOk(db)
    ensures WriteBackOk(SweepJob(db, job))
  {
    hide RunOk, WriteBackOk, Put, MarkFits;
    RunParts(db);
    if job.collection.Some? && job.entry.Some? {
      var uid, id := job.collection.value, job.entry.value;
      var now := db.clock + job.delay;
      OtherFieldsDoNotMatter(db, db.(clock := now));
      if uid in db.collections && id in db.collections[uid].entries {
        HeldParts(db, uid);
        SweptCoheres(db, uid, id, now);
      }
    }
  }

  lemma SweptCoheres(db: Database, uid: string, id: int, now: int)
    requires WriteBackOk(db) && uid in db.collections && db.collections[uid].uid == uid && IsUid(uid)
    requires id in db.collections[uid].entries
    ensures
      var c := db.collections[uid];
      var c' := WithEntry(c, id, c.entries[id].(cluster := None));
      WriteBackOk(db.(collections := db.collections[uid := c'], clock := now, dirty := Put(db.dirty, EntryShallow(uid, id))))
  {
    hide WriteBackOk, Covered, Put;
    var c := db.collections[uid];
    var c' := WithEntry(c, id, c.entries[id].(cluster := None));
    var after := db.collections[uid := c'];
    var marks := [EntryShallow(uid, id)];
    EntryChangeRecorded(db.collections, c, id, c.entries[id].(cluster := None), c', marks);
    assert db.collections[uid := c] == db.collections;
    WriteBackParts(db);
    SameUids(db.collections, after);
    RecordedChangeKeeps(db, after, marks);
    assert PutAll(db.dirty, marks) == Put(db.dirty, EntryShallow(uid, id)) by {
      assert marks[..0] == [];
    }
    OtherFieldsDoNotMatter(
      db.(collections := after, dirty := PutAll(db.dirty, marks)),
      db.(collections := after, clock := now, dirty := Put(db.dirty, EntryShallow(uid, id))));
  }

  lemma {:induction false} SweepCoheres(db: Database, jobs: seq<Job>)
    requires RunOk(db)
    ensures RunOk(Sweep(db, jobs))
  {
    hide WriteBackOk, DatabaseOk, SweepJob;
    if jobs != [] {
      SweepCoheres(db, jobs[..|jobs| - 1]);
      SweepJobKeeps(Sweep(db, jobs[..|jobs| - 1]), jobs[|jobs| - 1]);
      SweepJobCoheres(Sweep(db, jobs[..|jobs| - 1]), jobs[|jobs| - 1]);
    }
  }

  // ---- Every run ----

  lemma NextCoheres(db: Database, s: Step)
    requires RunOk(db) && StepOk(s)
    ensures RunOk(Next(db, s))
  {
    hide DatabaseOk, WriteBackOk, Submit, RoundFrom, Settle, Sweep, DropOldKeys, Settled;
    NextKeeps(db, s);
    match s
    case Submitting(kube, delay) => SubmittingCoheres(db, kube, delay);
    case Processing(visits) => RoundCoheres(db, visits, 0, 0);
    case Settlement(settling) => SettlingCoheres(db, settling);
    case Sweeping(jobs) => SweepCoheres(db, jobs);
    case DroppingOldKeys => NoKeyIsOld(db);
  }

  lemma EmptyIsOk()
    ensures RunOk(EMPTY_DATABASE)
  {
  }

  /** In every run, every record of every live collection and entry is in the store as it is in memory, or is
      pending; and the store holds nothing else but start times. */
  lemma {:induction false} EveryRunIsCoherent(steps: seq<Step>)
    requires StepsOk(steps)
    ensures RunOk(Run(steps))
  {
    hide RunOk, Next;
    if steps == [] {
      EmptyIsOk();
    } else {
      EveryRunIsCoherent(steps[..|steps| - 1]);
      NextCoheres(Run(steps[..|steps| - 1]), steps[|steps| - 1]);
    }
  }

  /** Whatever has happened before, a run that ends with the end of Process leaves store and memory in agreement. */
  lemma SettledAfterProcess(steps: seq<Step>)
    requires StepsOk(steps) && steps != [] && steps[|steps| - 1].Settlement?
    ensures Settled(Run(steps))
  {
    hide RunOk, Settle, Settled, Submit, RoundFrom, Sweep, DropOldKeys, StepOk;
    EveryRunIsCoherent(steps[..|steps| - 1]);
    SettlingCoheres(Run(steps[..|steps| - 1]), steps[|steps| - 1].settling);
  }
}
