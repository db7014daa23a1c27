/** How far the stored `nextTestEntryID` of a collection lags behind: a retry takes an id without recording that
    the collection changed, so the id is only stored with the next change of the collection's own fields. */
module NextIds {
  import opened Prelude
  import opened TestModel
  import opened CollectionSteps
  import opened CollectionInvariant
  import opened Keys
  import opened DatabaseSteps
  import opened DatabaseInvariant
  import opened WriteBack
  import opened Resolving
  import opened Coherence
  import opened Reload
  import Coverage
  import ProcessLoop
  import RetryChains

  /** How many of the three changes of its own fields a collection has gone through: its admission, its start
      as the first running one, and its completion. */
  function HeaderEvents(c: Collection): nat {
    (if c.bucket.WaitingBucket? then 0 else 1) + (if c.startTime.None? then 0 else 1)
    + (if c.bucket.CompletedBucket? then 1 else 0)
  }

  predicate IsMarked(db: Database, uid: string) {
    Pending(db.dirty, CollectionShallow(uid))
  }

  /** Between two states a collection stays, ids are only ever added, and the collection is marked exactly when its
      own fields have changed. */
  ghost predicate Tracks(db: Database, d: Database, uid: string) {
    && uid in db.collections && uid in d.collections
    && db.collections[uid].nextId <= d.collections[uid].nextId
    && HeaderEvents(db.collections[uid]) <= HeaderEvents(d.collections[uid])
    && (IsMarked(d, uid) <==> IsMarked(db, uid) || HeaderEvents(db.collections[uid]) < HeaderEvents(d.collections[uid]))
    && d.store == db.store
  }

  // ---- Marks of a collection's operations ----

  predicate AboutEntries(marks: seq<Mark>) {
    forall m :: m in marks ==> !m.CollectionShallow?
  }

  lemma HandleJobIds(c: Collection, clock: int, job: Job, ingest: string -> seq<Totals>)
    requires job.entry.Some?
    ensures AboutEntries(HandleJob(c, clock, job, ingest).marks) && c.nextId <= HandleJob(c, clock, job, ingest).coll.nextId
  {
  }

  lemma {:induction false} RunJobsIds(c: Collection, clock: int, jobs: seq<Job>, ingest: string -> seq<Totals>)
    requires forall job :: job in jobs ==> job.entry.Some?
    ensures AboutEntries(RunJobs(c, clock, jobs, ingest).marks) && c.nextId <= RunJobs(c, clock, jobs, ingest).coll.nextId
  {
    hide HandleJob;
    if jobs != [] {
      RunJobsIds(c, clock, jobs[..|jobs| - 1], ingest);
      var before := RunJobs(c, clock, jobs[..|jobs| - 1], ingest);
      HandleJobIds(before.coll, before.clock, jobs[|jobs| - 1], ingest);
    }
  }

  lemma {:induction false} StartTestsIds(c: Collection, clock: int, starts: seq<int>, budget: int,
                                         answers: nat -> Answer, attempt: nat)
    ensures
      var o := StartTests(c, clock, starts, budget, answers, attempt);
      AboutEntries(o.marks) && o.coll.nextId == c.nextId
    decreases if budget > 0 then budget else 0
  {
    hide CanStartMore, FirstWaiting;
    if budget > 0 {
      var turn := TakeTurn(c, answers(attempt));
      var time := clock + answers(attempt).checkDelay + answers(attempt).startDelay;
      if turn.Begun? {
        StartTestsIds(turn.coll, time, starts + [time], budget - 1, answers, attempt + 1);
      }
    }
  }

  /** Processing a collection never marks the collection itself, although every retry takes a new id. */
  lemma ProcessMarksEntriesOnly(c: Collection, clock: int, starts: seq<int>, cluster: Cluster)
    ensures
      var o := ProcessCollection(c, clock, starts, cluster);
      AboutEntries(o.marks) && c.nextId <= o.coll.nextId
  {
    hide RunJobs, StartTests, KoupletJobs, Uncompleted;
    if cluster.Cluster? {
      var jobs := KoupletJobs(cluster.jobs, c.uid);
      RunJobsIds(c, clock, jobs, cluster.ingest);
      var finished := RunJobs(c, clock, jobs, cluster.ingest);
      var budget := ActiveLimit(finished.coll.kube) - Uncompleted(KoupletJobs(cluster.jobs, finished.coll.uid));
      StartTestsIds(finished.coll, finished.clock, starts, budget, cluster.answers, 0);
    }
  }

  // ---- The parts of a step ----

  lemma TracksTwice(a: Database, b: Database, c: Database, uid: string)
    requires Tracks(a, b, uid) && Tracks(b, c, uid)
    ensures Tracks(a, c, uid)
  {
    hide IsMarked, HeaderEvents;
  }

  lemma TracksItself(db: Database, uid: string)
    requires uid in db.collections
    ensures Tracks(db, db, uid)
  {
  }

  /** Other fields than those of the collections, the pending writes and the store. */
  lemma OtherFieldsTrack(db: Database, d: Database, e: Database, uid: string)
    requires Tracks(db, d, uid) && e.collections == d.collections && e.dirty == d.dirty && e.store == d.store
    ensures Tracks(db, e, uid)
  {
    hide HeaderEvents;
  }

  lemma AbsorbTracks(db: Database, v: string, o: Outcome, uid: string)
    requires DirtyOk(db.dirty) && v in db.collections && uid in db.collections && IsUid(uid)
    requires SameHeader(db.collections[v], o.coll) && db.collections[v].nextId <= o.coll.nextId
    requires AboutEntries(o.marks) && forall m :: m in o.marks ==> MarkFits(m)
    ensures Tracks(db, Absorb(db, v, o), uid)
  {
    hide PutAll, DirtyOk, MarkFits, UpdateKey;
    CollectionMarkFits(uid);
    PutAllExactly(db.dirty, o.marks, CollectionShallow(uid));
  }

  /** A change of a collection's own fields marks this collection and no other. */
  lemma RewriteTracks(db: Database, c: Collection, now: int, uid: string)
    requires DirtyOk(db.dirty) && c.uid in db.collections && uid in db.collections && IsUid(uid) && IsUid(c.uid)
    requires HeaderEvents(db.collections[c.uid]) < HeaderEvents(c) && db.collections[c.uid].nextId == c.nextId
    ensures Tracks(db, Rewrite(db, c, now), uid)
  {
    hide DirtyOk, MarkFits, UpdateKey, HeaderEvents, IsUid;
    CollectionMarkFits(uid);
    CollectionMarkFits(c.uid);
    var marks := [CollectionShallow(c.uid)];
    PutAllExactly(db.dirty, marks, CollectionShallow(uid));
    assert marks[..0] == [];
    assert PutAll(db.dirty, marks) == Put(db.dirty, CollectionShallow(c.uid));
  }

  lemma PrimaryTracks(db: Database, v: string, delay: nat, uid: string)
    requires WriteBackOk(db) && v in db.collections && db.collections[v].uid == v && uid in db.collections
    ensures Tracks(db, MarkPrimary(db, v, delay), uid)
  {
    hide WriteBackOk, Rewrite, IsUid, DirtyOk, Tracks;
    WriteBackParts(db);
    TracksItself(db, uid);
    if db.collections[v].startTime.None? {
      var now := db.clock + delay;
      RewriteTracks(db, db.collections[v].(startTime := Some(Millis(now))), now, uid);
    }
  }

  lemma VisitTracks(db: Database, v: string, visit: Visit, first: bool, uid: string)
    requires RunOk(db) && v in db.collections && db.collections[v].bucket == RunningBucket && uid in db.collections
    ensures
      var o := ProcessCollection(db.collections[v], db.clock, db.starts, visit.cluster);
      Tracks(db, AfterVisit(db, v, o, first, visit.primaryDelay), uid)
  {
    hide ProcessCollection, WriteBackOk, DatabaseOk, Coverage.Recorded, CollectionOk, MarkPrimary, Absorb, Tracks, IsUid,
      DirtyOk, MarkFits;
    RunParts(db);
    HeldParts(db, v);
    HeldParts(db, uid);
    WriteBackParts(db);
    var c := db.collections[v];
    var o := ProcessCollection(c, db.clock, db.starts, visit.cluster);
    Coverage.ProcessRecorded(db.collections, c, db.clock, db.starts, visit.cluster);
    Coverage.RecordedMarksFit(db.collections, c, o.coll, o.marks);
    ProcessKeepsHeader(c, db.clock, db.starts, visit.cluster);
    ProcessMarksEntriesOnly(c, db.clock, db.starts, visit.cluster);
    AbsorbTracks(db, v, o, uid);
    if first {
      AbsorbHolds(db, v, o);
      PrimaryTracks(Absorb(db, v, o), v, visit.primaryDelay, uid);
      TracksTwice(db, Absorb(db, v, o), MarkPrimary(Absorb(db, v, o), v, visit.primaryDelay), uid);
    }
  }

  lemma AbsorbHolds(db: Database, v: string, o: Outcome)
    requires WriteBackOk(db) && v in db.collections && db.collections[v].uid == v && SameHeader(db.collections[v], o.coll)
    requires Coverage.Recorded(db.collections, db.collections[v], o.coll, o.marks)
    ensures WriteBackOk(Absorb(db, v, o)) && v in Absorb(db, v, o).collections && Absorb(db, v, o).collections[v].uid == v
    ensures Absorb(db, v, o).collections.Keys == db.collections.Keys
  {
    hide WriteBackOk, Coverage.Recorded, PutAll;
    AbsorbCoheres(db, v, o);
  }

  lemma AdmitTracks(db: Database, uid: string)
    requires RunOk(db) && db.waiting != [] && uid in db.collections
    ensures db.waiting[0] in db.collections && Tracks(db, Admit(db), uid)
  {
    hide WriteBackOk, DatabaseOk, Rewrite, IsUid, DirtyOk, Tracks;
    RunParts(db);
    AdmitKeepsLists(db);
    var v := db.waiting[0];
    HeldParts(db, v);
    HeldParts(db, uid);
    WriteBackParts(db);
    var moved := db.(waiting := db.waiting[1..], running := db.running + [v]);
    RewriteTracks(moved, db.collections[v].(status := CollectionRunning, bucket := RunningBucket), db.clock, uid);
    TracksFrom(db, moved, Admit(db), uid);
  }

  lemma TracksFrom(db: Database, e: Database, d: Database, uid: string)
    requires Tracks(e, d, uid) && e.collections == db.collections && e.dirty == db.dirty && e.store == db.store
    ensures Tracks(db, d, uid)
  {
    hide HeaderEvents;
  }

  lemma {:induction false} RoundTracks(db: Database, visits: nat -> Visit, at: nat, inQueue: nat, uid: string)
    requires RunOk(db) && uid in db.collections
    ensures Tracks(db, RoundFrom(db, visits, at, inQueue).db, uid)
    decreases |db.running| - at
  {
    hide RunOk, ProcessCollection, AfterVisit, Admit, Tracks;
    TracksItself(db, uid);
    if at >= |db.running| {
      if db.waiting != [] {
        AdmitTracks(db, uid);
      }
    } else {
      RunParts(db);
      RunningIsHeld(db, at);
      var v := db.running[at];
      VisitTracks(db, v, visits(at), at == 0, uid);
      var o := ProcessCollection(db.collections[v], db.clock, db.starts, visits(at).cluster);
      if !o.changed {
        var d := AfterVisit(db, v, o, at == 0, visits(at).primaryDelay);
        VisitCoheres(db, v, visits(at), at == 0);
        TracksKeeps(db, d, uid);
        RoundTracks(d, visits, at + 1, inQueue + |o.coll.queued| + |o.coll.retry|, uid);
        TracksTwice(db, d, RoundFrom(db, visits, at, inQueue).db, uid);
      }
    }
  }

  lemma TracksKeeps(db: Database, d: Database, uid: string)
    requires Tracks(db, d, uid)
    ensures uid in d.collections
  {
  }

  lemma CompletionTracks(d: Database, v: string, delay: nat, uid: string)
    requires WriteBackOk(d) && uid in d.collections
    requires v in d.collections ==> d.collections[v].uid == v && d.collections[v].bucket == RunningBucket
    ensures Tracks(d, MarkIfComplete(d, v, delay), uid)
  {
    hide WriteBackOk, Rewrite, IsUid, DirtyOk, Tracks, IsComplete;
    WriteBackParts(d);
    TracksItself(d, uid);
    if v in d.collections && IsComplete(d.collections[v]) {
      var now := d.clock + delay;
      var moved := d.(completed := d.completed + [v]);
      var c := d.collections[v].(bucket := CompletedBucket, status := CollectionComplete, endTime := Some(Millis(now)));
      RewriteTracks(moved, c, now, uid);
      TracksFrom(d, moved, MarkIfComplete(d, v, delay), uid);
    }
  }

  lemma {:induction false} MarkCompleteTracks(db: Database, endDelay: nat -> nat, n: nat, uid: string)
    requires RunOk(db) && n <= |db.running| && uid in db.collections
    ensures Tracks(db, MarkComplete(db, endDelay, n), uid)
  {
    hide RunOk, MarkIfComplete, WriteBackOk, Tracks, DatabaseOk, MarkedUpTo;
    RunParts(db);
    TracksItself(db, uid);
    if n > 0 {
      var d := MarkComplete(db, endDelay, n - 1);
      MarkCompleteTracks(db, endDelay, n - 1, uid);
      TracksKeeps(db, d, uid);
      MarkCompleteCoheres(db, endDelay, n - 1);
      MarkCompleteKeeps(db, endDelay, n - 1);
      NotYetMarked(db, d, n - 1);
      CompletionTracks(d, db.running[n - 1], endDelay(n - 1), uid);
      TracksTwice(db, d, MarkComplete(db, endDelay, n), uid);
    }
  }

  lemma ForgettingTracks(d: Database, delay: nat, uid: string)
    requires WriteBackOk(d) && uid in d.collections
    ensures Tracks(d, ForgetOldStarts(d, delay), uid)
  {
    hide WriteBackOk, PutAll, MarkFits, IsUid, UpdateKey, Filter, Recent, DirtyOk;
    WriteBackParts(d);
    var before := d.clock + delay - SECONDS_REMEMBERED * NANOS_PER_SECOND;
    var forgotten := Filter(d.starts, t => t <= before);
    RemovalMarksFit(forgotten);
    CollectionMarkFits(uid);
    PutAllExactly(d.dirty, RemovalMarks(forgotten), CollectionShallow(uid));
  }

  lemma CompletingTracks(db: Database, endDelay: nat -> nat, cleanupDelay: nat, uid: string)
    requires RunOk(db) && uid in db.collections
    ensures Tracks(db, CompleteCollections(db, endDelay, cleanupDelay), uid)
  {
    hide RunOk, MarkComplete, WriteBackOk, ForgetOldStarts, StillRunningList, Tracks;
    MarkCompleteTracks(db, endDelay, |db.running|, uid);
    MarkCompleteCoheres(db, endDelay, |db.running|);
    var marked := MarkComplete(db, endDelay, |db.running|);
    var d := marked.(running := StillRunningList(db));
    OtherFieldsTrack(db, marked, d, uid);
    OtherFieldsDoNotMatter(marked, d);
    TracksKeeps(db, d, uid);
    ForgettingTracks(d, cleanupDelay, uid);
    TracksTwice(db, d, ForgetOldStarts(d, cleanupDelay), uid);
  }

  lemma SweepJobTracks(db: Database, job: Job, uid: string)
    requires RunOk(db) && uid in db.collections
    ensures Tracks(db, SweepJob(db, job), uid)
  {
    hide WriteBackOk, DatabaseOk, MarkFits, IsUid, UpdateKey, DirtyOk, PutAll, Put;
    RunParts(db);
    WriteBackParts(db);
    if job.collection.Some? && job.entry.Some? && job.collection.value in db.collections {
      HeldParts(db, job.collection.value);
      var mark := EntryShallow(job.collection.value, job.entry.value);
      EntryMarkFits(job.collection.value, job.entry.value);
      CollectionMarkFits(uid);
      PutAllExactly(db.dirty, [mark], CollectionShallow(uid));
      PutOne(db.dirty, mark);
    }
  }

  lemma {:induction false} SweepTracks(db: Database, jobs: seq<Job>, uid: string)
    requires RunOk(db) && uid in db.collections
    ensures Tracks(db, Sweep(db, jobs), uid)
  {
    hide RunOk, SweepJob, Tracks;
    TracksItself(db, uid);
    if jobs != [] {
      var d := Sweep(db, jobs[..|jobs| - 1]);
      SweepTracks(db, jobs[..|jobs| - 1], uid);
      TracksKeeps(db, d, uid);
      SweepCoheres(db, jobs[..|jobs| - 1]);
      SweepJobTracks(d, jobs[|jobs| - 1], uid);
      TracksTwice(db, d, Sweep(db, jobs), uid);
    }
  }

  // ---- What a resolve stores ----

  lemma ResolvingStoresId(c: Database, d: Database, gone: set<string>, uid: string)
    requires Dropped(c, d, gone) && uid in d.collections && IsUid(uid)
    ensures StoredNextId(Resolve(d).store, uid) ==
              if IsMarked(c, uid) then d.collections[uid].nextId else StoredNextId(c.store, uid)
  {
    hide Resolve, UpdateKey, WriteBackOk, Deletions, IsUid, MarkFits;
    var m := CollectionShallow(uid);
    CollectionMarkFits(uid);
    StaysPending(c, d, gone, m);
    if IsMarked(c, uid) {
      PendingIsWritten(c, d, gone, m);
    } else {
      NotPendingIsKept(c, d, gone, m);
    }
  }

  /** Whether a step brings the store up to date. */
  predicate Resolves(db: Database, s: Step) {
    s.Settlement? || (s.Submitting? && s.kube.uid !in db.collections)
  }

  function EventsOf(db: Database, uid: string): nat {
    if uid in db.collections then 1 + HeaderEvents(db.collections[uid]) else 0
  }

  /** What a resolving step does to the id of a collection that is there after it. */
  ghost predicate StoresId(db: Database, d: Database, uid: string) {
    && uid in d.collections
    && (uid in db.collections ==>
          && db.collections[uid].nextId <= d.collections[uid].nextId
          && HeaderEvents(db.collections[uid]) <= HeaderEvents(d.collections[uid]))
    && StoredNextId(d.store, uid) ==
         (if IsMarked(db, uid) || EventsOf(db, uid) < EventsOf(d, uid) then d.collections[uid].nextId
          else StoredNextId(db.store, uid))
  }

  lemma SettlingStoresId(db: Database, s: Settling, uid: string)
    requires RunOk(db) && uid in Settle(db, s).collections
    ensures uid in db.collections && StoresId(db, Settle(db, s), uid)
  {
    hide RunOk, CompleteCollections, WriteBackOk, Resolve, Deletions, StoredNextId, IsUid, Pending;
    var c := CompleteCollections(db, s.endDelay, s.cleanupDelay);
    var d := Collect(c, s.gone);
    ResolveKeepsMemory(d);
    SameCollections(db, s);
    CompletingTracks(db, s.endDelay, s.cleanupDelay, uid);
    CompleteCollectionsCoheres(db, s.endDelay, s.cleanupDelay);
    CollectDrops(c, s.gone);
    RunParts(db);
    HeldParts(db, uid);
    ResolvingStoresId(c, d, s.gone * c.collections.Keys, uid);
  }

  lemma ResolveKeepsMemory(d: Database)
    ensures Resolve(d) == d.(store := Resolve(d).store, dirty := map[])
  {
  }

  lemma SubmittingStoresId(db: Database, kube: KubeTest, delay: nat, uid: string)
    requires RunOk(db) && IsUid(kube.uid) && kube.uid !in db.collections && uid in Submit(db, kube, delay).collections
    ensures StoresId(db, Submit(db, kube, delay), uid)
  {
    hide RunOk, WriteBackOk, WithTests, CreationMarks, Resolve, IsUid, StoredNextId, PutAll, MarkFits, DirtyOk, UpdateKey;
    RunParts(db);
    WriteBackParts(db);
    var now := db.clock + delay;
    var c, marks := WithTests(kube, now, |kube.tests|), CreationMarks(kube.uid, |kube.tests|);
    var d := Enlist(db, c, now, marks);
    ResolveKeepsMemory(d);
    EnlistCoheres(db, kube, now);
    NothingDropped(d);
    WriteBackParts(d);
    ResolvingStoresId(d, d, {}, uid);
    Coverage.CreationMarksFit(kube.uid, |kube.tests|);
    CollectionMarkFits(uid);
    PutAllExactly(db.dirty, marks, CollectionShallow(uid));
    CreationMarksOne(kube.uid, |kube.tests|, uid);
  }

  lemma {:induction false} CreationMarksOne(uid: string, n: nat, other: string)
    ensures CollectionShallow(other) in CreationMarks(uid, n) <==> other == uid
  {
    if n > 0 {
      CreationMarksOne(uid, n - 1, other);
    }
  }

  /** A step keeps a collection's id and mark in step with its own fields, or stores the id if it was marked. */
  lemma NextTracks(db: Database, s: Step, uid: string)
    requires RunOk(db) && StepOk(s) && uid in Next(db, s).collections
    ensures Resolves(db, s) ==> StoresId(db, Next(db, s), uid) && Next(db, s).dirty == map[]
    ensures !Resolves(db, s) ==> Tracks(db, Next(db, s), uid)
    ensures !Resolves(db, s) ==> Next(db, s).collections.Keys == db.collections.Keys
  {
    hide RunOk, WriteBackOk, RoundFrom, Sweep, DropOldKeys, Tracks, StoresId, CompleteCollections, Resolve, Enlist,
      Collect, WithTests;
    RunParts(db);
    if !Resolves(db, s) {
      SameKeys(db, s);
    }
    match s
    case Submitting(kube, delay) =>
      if kube.uid in db.collections {
        TracksItself(db, uid);
      } else {
        SubmittingStoresId(db, kube, delay, uid);
        ResolveKeepsMemory(Enlist(db, WithTests(kube, db.clock + delay, |kube.tests|), db.clock + delay,
                                  CreationMarks(kube.uid, |kube.tests|)));
      }
    case Processing(visits) =>
      RoundTracks(db, visits, 0, 0, uid);
    case Settlement(settling) =>
      SettlingStoresId(db, settling, uid);
      ResolveKeepsMemory(Collect(CompleteCollections(db, settling.endDelay, settling.cleanupDelay), settling.gone));
    case Sweeping(jobs) =>
      SweepTracks(db, jobs, uid);
    case DroppingOldKeys =>
      NoKeyIsOld(db);
      TracksItself(db, uid);
  }

  lemma {:induction false} RoundKeepsKeys(db: Database, visits: nat -> Visit, at: nat, inQueue: nat)
    requires RunOk(db)
    ensures RoundFrom(db, visits, at, inQueue).db.collections.Keys == db.collections.Keys
    decreases |db.running| - at
  {
    hide WriteBackOk, DatabaseOk, ProcessCollection, AfterVisit, IsUid, HeldOk;
    RunParts(db);
    if at >= |db.running| {
      if db.waiting != [] {
        AdmitKeepsLists(db);
        HeldParts(db, db.waiting[0]);
      }
    } else {
      RunningIsHeld(db, at);
      var v := db.running[at];
      HeldParts(db, v);
      var o := ProcessCollection(db.collections[v], db.clock, db.starts, visits(at).cluster);
      ProcessKeepsHeader(db.collections[v], db.clock, db.starts, visits(at).cluster);
      ProcessLoop.VisitCollections(db, v, o, at == 0, visits(at).primaryDelay);
      if !o.changed {
        VisitCoheres(db, v, visits(at), at == 0);
        RoundKeepsKeys(AfterVisit(db, v, o, at == 0, visits(at).primaryDelay), visits, at + 1,
                       inQueue + |o.coll.queued| + |o.coll.retry|);
      }
    }
  }

  lemma {:induction false} SweepKeepsKeys(db: Database, jobs: seq<Job>)
    ensures Sweep(db, jobs).collections.Keys == db.collections.Keys
  {
    hide Put;
    if jobs != [] {
      SweepKeepsKeys(db, jobs[..|jobs| - 1]);
    }
  }

  lemma SameKeys(db: Database, s: Step)
    requires RunOk(db) && !Resolves(db, s)
    ensures Next(db, s).collections.Keys == db.collections.Keys
  {
    hide RunOk, RoundFrom, Sweep, Resolve, Settle;
    match s
    case Submitting(kube, delay) =>
    case Processing(visits) => RoundKeepsKeys(db, visits, 0, 0);
    case Settlement(settling) =>
    case Sweeping(jobs) => SweepKeepsKeys(db, jobs);
    case DroppingOldKeys =>
  }
}
