/** The start times in the store: over every run in which no two tests start in the same millisecond, every
    remembered start is stored or about to be, and nothing else is stored as a start time than what was one. */
module StartTimes {
  import opened Prelude
  import opened Text
  import opened TestModel
  import opened CollectionSteps
  import opened Keys
  import opened DatabaseSteps
  import opened Limits
  import opened StartLedger
  import opened WriteBack
  import opened Resolving
  import opened Coherence
  import CollectionInvariant
  import Coverage
  import DatabaseInvariant
  import Termination
  import Restarts
  import Reload

  // ---- The start marks of an outcome ----

  predicate IsStartMark(m: Mark) {
    m.AddStart? || m.RemoveStart?
  }

  /** The start marks of an operation are those of the tests it started. */
  ghost predicate MarksBegun(marks: seq<Mark>, begun: seq<Start>) {
    && (forall m :: m in marks && IsStartMark(m) ==> m.AddStart? && m.time in Times(begun))
    && (forall t :: t in Times(begun) ==> AddStart(t) in marks)
  }

  lemma HandleJobMarks(c: Collection, clock: int, job: Job, ingest: string -> seq<Totals>)
    requires job.entry.Some?
    ensures forall m :: m in HandleJob(c, clock, job, ingest).marks ==> !IsStartMark(m)
  {
    hide Depth, Percentage, SuiteIn;
  }

  lemma {:induction false} RunJobsMarks(c: Collection, clock: int, jobs: seq<Job>, ingest: string -> seq<Totals>)
    requires forall job :: job in jobs ==> job.entry.Some?
    ensures forall m :: m in RunJobs(c, clock, jobs, ingest).marks ==> !IsStartMark(m)
  {
    hide HandleJob;
    if jobs != [] {
      RunJobsMarks(c, clock, jobs[..|jobs| - 1], ingest);
      var before := RunJobs(c, clock, jobs[..|jobs| - 1], ingest);
      HandleJobMarks(before.coll, before.clock, jobs[|jobs| - 1], ingest);
    }
  }

  lemma BeginMarks(c: Collection, id: int, time: int, o: Outcome)
    requires MarksBegun(o.marks, o.begun)
    ensures MarksBegun(Begin(c, id, time, o).marks, Begin(c, id, time, o).begun)
  {
    var s := Start(time, Nodes(c.kube), PeriodSeconds(c.kube));
    assert Times([s] + o.begun) == [time] + Times(o.begun);
  }

  lemma {:induction false} StartTestsMarks(c: Collection, clock: int, starts: seq<int>, budget: int,
                                           answers: nat -> Answer, attempt: nat)
    requires clock >= 0
    ensures
      var o := StartTests(c, clock, starts, budget, answers, attempt);
      MarksBegun(o.marks, o.begun) && o.clock >= 0 && forall t :: t in Times(o.begun) ==> t >= 0
    decreases if budget > 0 then budget else 0
  {
    hide TakeTurn, CanStartMore, MarksBegun;
    NoMarks();
    var answer := answers(attempt);
    var now := clock + answer.checkDelay;
    if budget > 0 && CanStartMore(starts, now, c.kube) {
      var turn := TakeTurn(c, answer);
      if turn.Begun? {
        var time := now + answer.startDelay;
        StartTestsMarks(turn.coll, time, starts + [time], budget - 1, answers, attempt + 1);
        var o := StartTests(turn.coll, time, starts + [time], budget - 1, answers, attempt + 1);
        BeginMarks(c, turn.id, time, o);
        assert Times([Start(time, Nodes(c.kube), PeriodSeconds(c.kube))] + o.begun) == [time] + Times(o.begun);
      }
    }
  }

  lemma NoMarks()
    ensures MarksBegun([], []) && Times([]) == []
  {
  }

  lemma ProcessMarks(c: Collection, clock: int, starts: seq<int>, cluster: Cluster)
    requires clock >= 0
    ensures
      var o := ProcessCollection(c, clock, starts, cluster);
      MarksBegun(o.marks, o.begun) && o.clock >= 0 && forall t :: t in Times(o.begun) ==> t >= 0
  {
    hide RunJobs, StartTests, KoupletJobs, Uncompleted;
    if cluster.Cluster? {
      var jobs := KoupletJobs(cluster.jobs, c.uid);
      RunJobsMarks(c, clock, jobs, cluster.ingest);
      RunJobsTime(c, clock, jobs, cluster.ingest);
      Termination.RunJobsNeverRefuses(c, clock, jobs, cluster.ingest);
      var finished := RunJobs(c, clock, jobs, cluster.ingest);
      var budget := ActiveLimit(finished.coll.kube) - Uncompleted(KoupletJobs(cluster.jobs, finished.coll.uid));
      StartTestsMarks(finished.coll, finished.clock, starts, budget, cluster.answers, 0);
    }
  }

  // ---- The invariant ----

  /** No two tests start in the same millisecond. */
  ghost predicate DistinctMillis(history: seq<Start>) {
    forall i, j :: 0 <= i < j < |history| ==> Millis(history[i].time) != Millis(history[j].time)
  }

  /** Pending and stored start times are times of starts. */
  ghost predicate OnlyStarts(db: Database) {
    && db.clock >= 0
    && (forall t :: t in Times(db.history) ==> t >= 0)
    && (forall t :: t in db.starts ==> t in Times(db.history))
    && (forall k {:trigger db.dirty[k]} :: k in db.dirty && IsStartMark(db.dirty[k]) ==> db.dirty[k].time in Times(db.history))
    && (forall key :: key in db.store && START_TIME <= key ==> IsStartKey(db.history, key))
  }

  ghost predicate IsStartKey(history: seq<Start>, key: string) {
    exists t :: t in Times(history) && key == StartKey(Millis(t))
  }

  ghost predicate IsStored(db: Database, t: int) {
    Pending(db.dirty, AddStart(t)) || StartKey(Millis(t)) in db.store
  }

  /** Remembered starts are stored or will be, and none of them is to be removed. */
  ghost predicate StartsStored(db: Database) {
    && (forall t :: t in db.starts ==> IsStored(db, t))
    && (forall k {:trigger db.dirty[k]} :: k in db.dirty && db.dirty[k].RemoveStart? ==> db.dirty[k].time !in db.starts)
  }

  ghost predicate StartTimesOk(db: Database) {
    OnlyStarts(db) && (DistinctMillis(db.history) ==> StartsStored(db))
  }

  // ---- Pending writes ----

  /** Starts are added, and recorded. */
  lemma AddingStarts(db: Database, d: Database, marks: seq<Mark>, begun: seq<Start>)
    requires StartTimesOk(db) && DirtyOk(db.dirty) && MarksBegun(marks, begun) && forall m :: m in marks ==> MarkFits(m)
    requires d.clock >= 0 && forall t :: t in Times(begun) ==> t >= 0
    requires d.history == db.history + begun && d.starts == db.starts + Times(begun)
    requires d.dirty == PutAll(db.dirty, marks) && d.store == db.store
    ensures StartTimesOk(d)
  {
    hide UpdateKey, StoreKey, MarkFits, PutAll, Times;
    TimesAppend(db.history, begun);
    AddingKeepsOnlyStarts(db, d, marks, begun);
    if DistinctMillis(d.history) {
      DistinctFront(db.history, begun);
      AddingKeepsStored(db, d, marks, begun);
    }
  }

  lemma DistinctFront(a: seq<Start>, b: seq<Start>)
    requires DistinctMillis(a + b)
    ensures DistinctMillis(a)
    ensures forall s, t :: s in Times(a) && t in Times(b) ==> Millis(s) != Millis(t)
  {
    hide Millis;
    forall i, j | 0 <= i < j < |a|
      ensures Millis(a[i].time) != Millis(a[j].time)
    {
      assert (a + b)[i] == a[i] && (a + b)[j] == a[j];
    }
    forall s, t | s in Times(a) && t in Times(b)
      ensures Millis(s) != Millis(t)
    {
      var i :| 0 <= i < |a| && Times(a)[i] == s;
      var j :| 0 <= j < |b| && Times(b)[j] == t;
      assert (a + b)[i] == a[i] && (a + b)[|a| + j] == b[j];
    }
  }

  lemma AddingKeepsOnlyStarts(db: Database, d: Database, marks: seq<Mark>, begun: seq<Start>)
    requires OnlyStarts(db) && MarksBegun(marks, begun)
    requires d.clock >= 0 && forall t :: t in Times(begun) ==> t >= 0
    requires d.history == db.history + begun && d.starts == db.starts + Times(begun)
    requires d.dirty == PutAll(db.dirty, marks) && d.store == db.store
    ensures OnlyStarts(d)
  {
    hide UpdateKey, PutAll, Times;
    TimesAppend(db.history, begun);
    forall k | k in d.dirty && IsStartMark(d.dirty[k])
      ensures d.dirty[k].time in Times(d.history)
    {
      PutAllIs(db.dirty, marks, k);
    }
    forall key | key in d.store && START_TIME <= key
      ensures IsStartKey(d.history, key)
    {
      assert IsStartKey(db.history, key);
    }
  }

  lemma AddingKeepsStored(db: Database, d: Database, marks: seq<Mark>, begun: seq<Start>)
    requires OnlyStarts(db) && StartsStored(db) && DirtyOk(db.dirty) && MarksBegun(marks, begun)
    requires forall m :: m in marks ==> MarkFits(m)
    requires forall s, t :: s in Times(db.history) && t in Times(begun) ==> Millis(s) != Millis(t)
    requires d.starts == db.starts + Times(begun) && d.dirty == PutAll(db.dirty, marks) && d.store == db.store
    ensures StartsStored(d)
  {
    hide UpdateKey, StoreKey, PutAll, Times, Millis, DirtyOk, Pending, StartKey;
    forall t | t in d.starts
      ensures IsStored(d, t)
    {
      PutAllKeeps(db.dirty, marks, AddStart(t));
      if t in db.starts {
        assert IsStored(db, t);
      }
    }
    forall k | k in d.dirty && d.dirty[k].RemoveStart?
      ensures d.dirty[k].time !in d.starts
    {
      PutAllIs(db.dirty, marks, k);
    }
  }

  /** Old starts are forgotten, and their removal recorded. */
  lemma ForgettingStarts(db: Database, delay: nat)
    requires StartTimesOk(db) && DirtyOk(db.dirty)
    ensures StartTimesOk(ForgetOldStarts(db, delay))
  {
    hide UpdateKey, StoreKey, PutAll, Times, Millis, Pending, StartKey, DirtyOk, Filter, Recent, RemovalMarks;
    var d := ForgetOldStarts(db, delay);
    var before := d.clock - SECONDS_REMEMBERED * NANOS_PER_SECOND;
    var marks := RemovalMarks(Filter(db.starts, t => t <= before));
    RemovalsAre(db.starts, before);
    RemovalMarksFit(Filter(db.starts, t => t <= before));
    assert d.dirty == PutAll(db.dirty, marks);
    forall k | k in d.dirty
      ensures IsStartMark(d.dirty[k]) ==> d.dirty[k].time in Times(d.history)
      ensures StartsStored(db) && d.dirty[k].RemoveStart? ==> d.dirty[k].time !in d.starts
    {
      PutAllIs(db.dirty, marks, k);
    }
    if StartsStored(db) {
      forall t | t in d.starts
        ensures IsStored(d, t)
      {
        PutAllKeeps(db.dirty, marks, AddStart(t));
        assert IsStored(db, t);
      }
    }
  }

  lemma RemovalsAre(starts: seq<int>, before: int)
    ensures
      var marks := RemovalMarks(Filter(starts, t => t <= before));
      && (forall m :: m in marks ==> m.RemoveStart? && m.time in starts && m.time <= before)
      && (forall t :: t in Recent(starts, before) ==> t in starts && t > before)
  {
    var past := Filter(starts, t => t <= before);
    forall m | m in RemovalMarks(past)
      ensures m.RemoveStart? && m.time in starts && m.time <= before
    {
      var i :| 0 <= i < |past| && RemovalMarks(past)[i] == m;
      var t := past[i];
      assert t in past;
    }
  }

  /** Records that are not about start times change nothing. */
  lemma OtherMarks(db: Database, d: Database, marks: seq<Mark>)
    requires StartTimesOk(db) && DirtyOk(db.dirty)
    requires forall m :: m in marks ==> MarkFits(m) && !IsStartMark(m)
    requires d.history == db.history && d.starts == db.starts && d.store == db.store && d.clock >= 0
    requires d.dirty == PutAll(db.dirty, marks)
    ensures StartTimesOk(d)
  {
    hide UpdateKey, StoreKey, PutAll, Times, Millis, Pending, StartKey, DirtyOk, MarkFits;
    forall k | k in d.dirty && IsStartMark(d.dirty[k])
      ensures k in db.dirty && d.dirty[k] == db.dirty[k]
    {
      PutAllIs(db.dirty, marks, k);
    }
    forall t | IsStored(db, t)
      ensures IsStored(d, t)
    {
      StartMarksFit(t);
      PutAllKeeps(db.dirty, marks, AddStart(t));
    }
  }

  // ---- Resolving ----

  lemma ResolvedStarts(db: Database, d: Database, gone: set<string>)
    requires Dropped(db, d, gone) && d.history == db.history && d.starts == db.starts && d.clock == db.clock
    requires StartTimesOk(db)
    ensures StartTimesOk(Resolve(d))
    ensures DistinctMillis(db.history) ==> forall t :: t in db.starts ==> StartKey(Millis(t)) in Resolve(d).store
  {
    hide UpdateKey, StoreKey, Times, Millis, Pending, StartKey, WriteBackOk, IsStored, StartsStored, Dropped;
    var r := Resolve(d);
    forall key | key in r.store && START_TIME <= key
      ensures IsStartKey(r.history, key)
    {
      StartKeysAfterwards(db, d, gone, key);
    }
    if DistinctMillis(db.history) {
      forall t | t in db.starts
        ensures StartKey(Millis(t)) in r.store
      {
        RememberedIsWritten(db, d, gone, t);
      }
      EmptyIsStored(r);
    }
  }

  lemma EmptyIsStored(r: Database)
    requires r.dirty == map[] && forall t :: t in r.starts ==> StartKey(Millis(t)) in r.store
    ensures StartsStored(r)
  {
    hide StartKey, Millis;
  }

  lemma StartKeysAfterwards(db: Database, d: Database, gone: set<string>, key: string)
    requires Dropped(db, d, gone) && OnlyStarts(db) && key in Resolve(d).store && START_TIME <= key
    ensures IsStartKey(db.history, key)
  {
    hide UpdateKey, StoreKey, Times, Millis, WriteBackOk, Dropped, Doomed, IsRemoved;
    if key in WrittenKeys(d) {
      var k :| k in d.dirty && IsWritten(d, k) && StoreKey(d.dirty[k]) == key;
      PendingIs(db, d, gone, k);
      var m := d.dirty[k];
      if IsUpdate(m) {
        UpdateIsNoStart(m);
        assert false;
      }
      AddKeyIs(m);
    } else {
      SameStoreAs(db, d, gone);
    }
  }

  lemma AddKeyIs(m: Mark)
    requires m.AddStart? || m.RemoveStart?
    ensures StoreKey(m) == StartKey(Millis(m.time))
  {
  }

  lemma SameStoreAs(db: Database, d: Database, gone: set<string>)
    requires Dropped(db, d, gone)
    ensures d.store == db.store
  {
    hide WriteBackOk;
  }

  lemma RememberedIsWritten(db: Database, d: Database, gone: set<string>, t: int)
    requires Dropped(db, d, gone) && d.history == db.history && d.starts == db.starts
    requires OnlyStarts(db) && StartsStored(db) && DistinctMillis(db.history) && t in db.starts
    ensures StartKey(Millis(t)) in Resolve(d).store
  {
    hide UpdateKey, StoreKey, Times, Millis, WriteBackOk, Dropped, Doomed, IsRemoved, StartKey, DistinctMillis;
    assert IsStored(db, t);
    StartMarksFit(t);
    AddKeyIs(AddStart(t));
    if Pending(db.dirty, AddStart(t)) {
      StaysPending(db, d, gone, AddStart(t));
      var k := UpdateKey(AddStart(t));
      assert IsWritten(d, k);
      assert StartKey(Millis(t)) in WrittenKeys(d);
    } else {
      SameStoreAs(db, d, gone);
      RememberedIsKept(db, d, gone, t);
    }
  }

  lemma RememberedIsKept(db: Database, d: Database, gone: set<string>, t: int)
    requires Dropped(db, d, gone) && OnlyStarts(db) && StartsStored(db) && DistinctMillis(db.history) && t in db.starts
    ensures !IsRemoved(d, StartKey(Millis(t)))
  {
    hide UpdateKey, StoreKey, Times, Millis, WriteBackOk, Dropped, Doomed, StartKey, BelongsTo, IsStored, Pending;
    var key := StartKey(Millis(t));
    forall k | k in d.dirty && d.dirty[k].RemoveStart?
      ensures key != StoreKey(d.dirty[k])
    {
      PendingIs(db, d, gone, k);
      var u := db.dirty[k].time;
      AddKeyIs(d.dirty[k]);
      DifferentKeys(db.history, t, u);
    }
    forall u
      ensures !BelongsTo(key, u)
    {
      StartKeyBelongsToNone(Millis(t), u);
    }
  }

  lemma DifferentKeys(history: seq<Start>, t: int, u: int)
    requires DistinctMillis(history) && t in Times(history) && u in Times(history) && t != u
    ensures StartKey(Millis(t)) != StartKey(Millis(u))
  {
    var i :| 0 <= i < |history| && Times(history)[i] == t;
    var j :| 0 <= j < |history| && Times(history)[j] == u;
    assert Millis(t) != Millis(u);
    if StartKey(Millis(t)) == StartKey(Millis(u)) {
      SameMillis(Millis(t), Millis(u));
    }
  }

  // ---- The steps ----

  ghost predicate Good(db: Database) {
    RunOk(db) && StartTimesOk(db)
  }

  lemma RewriteStarts(db: Database, c: Collection, now: int)
    requires StartTimesOk(db) && DirtyOk(db.dirty) && IsUid(c.uid) && now >= 0
    ensures StartTimesOk(Rewrite(db, c, now))
  {
    hide StartTimesOk, DirtyOk, Put;
    var marks := [CollectionShallow(c.uid)];
    assert marks[..0] == [];
    assert PutAll(db.dirty, marks) == Put(db.dirty, CollectionShallow(c.uid));
    OtherMarks(db, Rewrite(db, c, now), marks);
  }

  /** Fields that start times do not depend on. */
  lemma OtherFields(db: Database, d: Database)
    requires StartTimesOk(db) && d.clock >= 0
    requires d.history == db.history && d.starts == db.starts && d.dirty == db.dirty && d.store == db.store
    ensures StartTimesOk(d)
  {
    hide Times, StartKey, Millis, Pending;
    forall t | IsStored(db, t)
      ensures IsStored(d, t)
    {
    }
  }

  lemma ClockIsPositive(db: Database)
    requires StartTimesOk(db)
    ensures db.clock >= 0
  {
  }

  lemma VisitStarts(db: Database, uid: string, visit: Visit, first: bool)
    requires Good(db) && uid in db.collections && db.collections[uid].bucket == RunningBucket
    ensures
      var o := ProcessCollection(db.collections[uid], db.clock, db.starts, visit.cluster);
      StartTimesOk(AfterVisit(db, uid, o, first, visit.primaryDelay))
  {
    hide ProcessCollection, WriteBackOk, DatabaseInvariant.DatabaseOk, CollectionInvariant.CollectionOk, StartTimesOk,
      PutAll, Coverage.Recorded, MarksBegun, DirtyOk, MarkFits, Rewrite, Times, IsUid;
    RunParts(db);
    DatabaseInvariant.HeldParts(db, uid);
    ClockIsPositive(db);
    WriteBackParts(db);
    var c := db.collections[uid];
    var o := ProcessCollection(c, db.clock, db.starts, visit.cluster);
    ProcessMarks(c, db.clock, db.starts, visit.cluster);
    Coverage.ProcessRecorded(db.collections, c, db.clock, db.starts, visit.cluster);
    DatabaseInvariant.ProcessKeepsHeader(c, db.clock, db.starts, visit.cluster);
    Coverage.RecordedMarksFit(db.collections, c, o.coll, o.marks);
    var d := Absorb(db, uid, o);
    AddingStarts(db, d, o.marks, o.begun);
    StartMarksFit(0);
    PutAllKeeps(db.dirty, o.marks, AddStart(0));
    RewriteStarts(d, o.coll.(startTime := Some(Millis(d.clock + visit.primaryDelay))), d.clock + visit.primaryDelay);
  }

  lemma AdmitStarts(db: Database)
    requires Good(db) && db.waiting != []
    ensures db.waiting[0] in db.collections && StartTimesOk(Admit(db))
  {
    hide WriteBackOk, DatabaseInvariant.DatabaseOk, StartTimesOk, DirtyOk, Rewrite, IsUid,
      CollectionInvariant.CollectionOk;
    RunParts(db);
    DatabaseInvariant.AdmitKeeps(db);
    var uid := db.waiting[0];
    DatabaseInvariant.HeldParts(db, uid);
    ClockIsPositive(db);
    WriteBackParts(db);
    var moved := db.(waiting := db.waiting[1..], running := db.running + [uid]);
    OtherFields(db, moved);
    RewriteStarts(moved, db.collections[uid].(status := CollectionRunning, bucket := RunningBucket), db.clock);
  }

  lemma {:induction false} RoundStarts(db: Database, visits: nat -> Visit, at: nat, inQueue: nat)
    requires Good(db)
    ensures StartTimesOk(RoundFrom(db, visits, at, inQueue).db)
    decreases |db.running| - at
  {
    hide RunOk, StartTimesOk, ProcessCollection, AfterVisit, Admit;
    if at >= |db.running| {
      if db.waiting != [] {
        AdmitStarts(db);
      }
    } else {
      RunParts(db);
      DatabaseInvariant.RunningIsHeld(db, at);
      var uid := db.running[at];
      VisitStarts(db, uid, visits(at), at == 0);
      VisitCoheres(db, uid, visits(at), at == 0);
      var o := ProcessCollection(db.collections[uid], db.clock, db.starts, visits(at).cluster);
      if !o.changed {
        RoundStarts(AfterVisit(db, uid, o, at == 0, visits(at).primaryDelay), visits, at + 1,
                    inQueue + |o.coll.queued| + |o.coll.retry|);
      }
    }
  }

  lemma MarkIfCompleteStarts(d: Database, uid: string, delay: nat)
    requires StartTimesOk(d) && WriteBackOk(d) && (uid in d.collections ==> d.collections[uid].uid == uid)
    ensures StartTimesOk(MarkIfComplete(d, uid, delay))
  {
    hide WriteBackOk, StartTimesOk, DirtyOk, Rewrite, IsUid;
    WriteBackParts(d);
    ClockIsPositive(d);
    if uid in d.collections && IsComplete(d.collections[uid]) {
      var now := d.clock + delay;
      var moved := d.(completed := d.completed + [uid]);
      OtherFields(d, moved);
      RewriteStarts(moved, d.collections[uid].(bucket := CompletedBucket, status := CollectionComplete, endTime := Some(Millis(now))), now);
    }
  }

  lemma {:induction false} MarkCompleteStarts(db: Database, endDelay: nat -> nat, n: nat)
    requires Good(db) && n <= |db.running|
    ensures StartTimesOk(MarkComplete(db, endDelay, n))
  {
    hide RunOk, StartTimesOk, MarkIfComplete, WriteBackOk, DatabaseInvariant.DatabaseOk;
    RunParts(db);
    if n > 0 {
      MarkCompleteStarts(db, endDelay, n - 1);
      MarkCompleteCoheres(db, endDelay, n - 1);
      DatabaseInvariant.MarkCompleteKeeps(db, endDelay, n - 1);
      var d := MarkComplete(db, endDelay, n - 1);
      MarkedHasUid(db, d, n - 1, db.running[n - 1]);
      MarkIfCompleteStarts(d, db.running[n - 1], endDelay(n - 1));
    }
  }

  lemma CompleteCollectionsStarts(db: Database, endDelay: nat -> nat, cleanupDelay: nat)
    requires Good(db)
    ensures StartTimesOk(CompleteCollections(db, endDelay, cleanupDelay))
  {
    hide RunOk, StartTimesOk, MarkComplete, WriteBackOk, ForgetOldStarts, StillRunningList, DirtyOk;
    MarkCompleteStarts(db, endDelay, |db.running|);
    MarkCompleteCoheres(db, endDelay, |db.running|);
    var marked := MarkComplete(db, endDelay, |db.running|);
    var d := marked.(running := StillRunningList(db));
    ClockIsPositive(marked);
    OtherFields(marked, d);
    WriteBackParts(marked);
    ForgettingStarts(d, cleanupDelay);
  }

  lemma SettleStarts(db: Database, s: Settling)
    requires Good(db)
    ensures StartTimesOk(Settle(db, s))
    ensures DistinctMillis(Settle(db, s).history) ==>
              forall t :: t in Settle(db, s).starts ==> StartKey(Millis(t)) in Settle(db, s).store
  {
    hide RunOk, CompleteCollections, WriteBackOk, StartTimesOk, Dropped, StartKey, Millis, DistinctMillis;
    var c := CompleteCollections(db, s.endDelay, s.cleanupDelay);
    CompleteCollectionsStarts(db, s.endDelay, s.cleanupDelay);
    CompleteCollectionsCoheres(db, s.endDelay, s.cleanupDelay);
    CollectDrops(c, s.gone);
    ResolvedStarts(c, Collect(c, s.gone), s.gone * c.collections.Keys);
  }

  lemma {:induction false} CreationMarksAreOther(uid: string, n: nat)
    ensures forall m :: m in CreationMarks(uid, n) ==> !IsStartMark(m)
  {
    if n > 0 {
      CreationMarksAreOther(uid, n - 1);
    }
  }

  lemma SubmitStarts(db: Database, kube: KubeTest, delay: nat)
    requires Good(db) && IsUid(kube.uid)
    ensures StartTimesOk(Submit(db, kube, delay))
  {
    hide RunOk, StartTimesOk, WriteBackOk, WithTests, CreationMarks, PutAll, IsUid, DirtyOk, MarkFits, Dropped, Resolve;
    if kube.uid !in db.collections {
      RunParts(db);
      WriteBackParts(db);
      ClockIsPositive(db);
      var now := db.clock + delay;
      var marks := CreationMarks(kube.uid, |kube.tests|);
      var d := Enlist(db, WithTests(kube, now, |kube.tests|), now, marks);
      CreationMarksAreOther(kube.uid, |kube.tests|);
      Coverage.CreationMarksFit(kube.uid, |kube.tests|);
      OtherMarks(db, d, marks);
      EnlistCoheres(db, kube, now);
      NothingDropped(d);
      ResolvedStarts(d, d, {});
    }
  }

  lemma SweepJobStarts(db: Database, job: Job)
    requires Good(db)
    ensures StartTimesOk(SweepJob(db, job))
  {
    hide RunOk, StartTimesOk, WriteBackOk, Put, MarkFits, DirtyOk, IsUid;
    RunParts(db);
    WriteBackParts(db);
    ClockIsPositive(db);
    if job.collection.Some? && job.entry.Some? {
      var uid, id := job.collection.value, job.entry.value;
      var now := db.clock + job.delay;
      OtherFields(db, db.(clock := now));
      if uid in db.collections && id in db.collections[uid].entries {
        WriteBackParts(db);
        EntryMarkFits(uid, id);
        var marks := [EntryShallow(uid, id)];
        assert marks[..0] == [];
        assert PutAll(db.dirty, marks) == Put(db.dirty, EntryShallow(uid, id));
        var c := db.collections[uid];
        OtherMarks(db, db.(collections := db.collections[uid := WithEntry(c, id, c.entries[id].(cluster := None))],
                           clock := now, dirty := Put(db.dirty, EntryShallow(uid, id))), marks);
      }
    }
  }

  lemma {:induction false} SweepStarts(db: Database, jobs: seq<Job>)
    requires Good(db)
    ensures StartTimesOk(Sweep(db, jobs))
  {
    hide RunOk, StartTimesOk, SweepJob;
    if jobs != [] {
      SweepStarts(db, jobs[..|jobs| - 1]);
      SweepCoheres(db, jobs[..|jobs| - 1]);
      SweepJobStarts(Sweep(db, jobs[..|jobs| - 1]), jobs[|jobs| - 1]);
    }
  }

  lemma NextStarts(db: Database, s: Step)
    requires Good(db) && StepOk(s)
    ensures StartTimesOk(Next(db, s))
  {
    hide RunOk, StartTimesOk, Submit, RoundFrom, Settle, Sweep, DropOldKeys, DistinctMillis;
    match s
    case Submitting(kube, delay) => SubmitStarts(db, kube, delay);
    case Processing(visits) => RoundStarts(db, visits, 0, 0);
    case Settlement(settling) => SettleStarts(db, settling);
    case Sweeping(jobs) => SweepStarts(db, jobs);
    case DroppingOldKeys =>
      RunParts(db);
      NoKeyIsOld(db);
  }

  lemma EmptyIsGood()
    ensures StartTimesOk(EMPTY_DATABASE)
  {
  }

  /** In every run, stored start times are times of starts; and when no two tests started in the same millisecond,
      every remembered start is stored or about to be. */
  lemma {:induction false} EveryRunKeepsStartTimes(steps: seq<Step>)
    requires StepsOk(steps)
    ensures StartTimesOk(Run(steps))
  {
    hide RunOk, StartTimesOk, Next;
    if steps == [] {
      EmptyIsGood();
    } else {
      EveryRunKeepsStartTimes(steps[..|steps| - 1]);
      EveryRunIsCoherent(steps[..|steps| - 1]);
      NextStarts(Run(steps[..|steps| - 1]), steps[|steps| - 1]);
    }
  }

  // ---- Reloading ----

  lemma MillisInKey(millis: int)
    requires millis >= 0
    ensures ParseDecimal(AfterLastHyphen(StartKey(millis))) == Some(millis)
  {
    Reload.DecimalHasNoHyphen(millis);
    DecimalRoundTrip(millis);
    var before := START_TIME[..|START_TIME| - 1];
    assert START_TIME == before + "-";
    assert StartKey(millis) == before + "-" + Decimal(millis);
    AfterLastHyphenOf(before, Decimal(millis));
  }

  /** The start times that loading finds, after Process has settled: each is a start there was, to the millisecond; and
      when no two tests started in the same millisecond, every remembered start is among them. */
  lemma LoadedStartTimes(steps: seq<Step>, t: int)
    requires StepsOk(steps) && steps != [] && steps[|steps| - 1].Settlement?
    ensures Restarts.StartFound(Run(steps).store, t) ==>
              exists s :: s in Times(Run(steps).history) && t == Millis(s) * NANOS_PER_MILLI
    ensures DistinctMillis(Run(steps).history) && t in Run(steps).starts ==>
              Restarts.StartFound(Run(steps).store, Millis(t) * NANOS_PER_MILLI)
  {
    hide RunOk, Settle, Submit, RoundFrom, Sweep, DropOldKeys, StepOk, StartKey, Millis, DistinctMillis, ParseDecimal,
      AfterLastHyphen, Times;
    EveryRunKeepsStartTimes(steps);
    EveryRunIsCoherent(steps[..|steps| - 1]);
    EveryRunKeepsStartTimes(steps[..|steps| - 1]);
    SettleStarts(Run(steps[..|steps| - 1]), steps[|steps| - 1].settling);
    FoundIsAStart(Run(steps), t);
    if DistinctMillis(Run(steps).history) && t in Run(steps).starts {
      RememberedIsFound(Run(steps), t);
    }
  }

  lemma FoundIsAStart(db: Database, t: int)
    requires StartTimesOk(db)
    ensures Restarts.StartFound(db.store, t) ==> exists s :: s in Times(db.history) && t == Millis(s) * NANOS_PER_MILLI
  {
    hide StartKey, ParseDecimal, AfterLastHyphen, Times, StartsStored;
    if Restarts.StartFound(db.store, t) {
      var key, millis :| Restarts.StartUnder(db.store, key, millis) && t == millis * NANOS_PER_MILLI;
      assert IsStartKey(db.history, key);
      var s :| s in Times(db.history) && key == StartKey(Millis(s));
      MillisInKey(Millis(s));
    }
  }

  lemma RememberedIsFound(db: Database, t: int)
    requires StartTimesOk(db) && t in db.starts && StartKey(Millis(t)) in db.store
    ensures Restarts.StartFound(db.store, Millis(t) * NANOS_PER_MILLI)
  {
    hide ParseDecimal, AfterLastHyphen, Times, StartsStored;
    MillisInKey(Millis(t));
    assert Restarts.StartUnder(db.store, StartKey(Millis(t)), Millis(t));
  }

  // ---- Which start times are left in the store ----

  ghost predicate AddPending(dirty: map<string, Mark>, millis: int) {
    exists t :: Pending(dirty, AddStart(t)) && Millis(t) == millis
  }

  ghost predicate RemovePending(dirty: map<string, Mark>, millis: int) {
    exists t :: Pending(dirty, RemoveStart(t)) && Millis(t) == millis
  }

  /** After resolving, a start time is in the store exactly when a start of its millisecond was about to be added, or it
      was there and none was about to be removed: additions win over removals. */
  lemma StartIsLeftExactlyWhen(db: Database, d: Database, gone: set<string>, millis: int)
    requires Dropped(db, d, gone)
    ensures StartKey(millis) in Resolve(d).store <==>
              AddPending(d.dirty, millis) || (StartKey(millis) in d.store && !RemovePending(d.dirty, millis))
  {
    hide UpdateKey, StoreKey, Millis, WriteBackOk, Dropped, Doomed, IsRemoved, StartKey, BelongsTo;
    WrittenStart(db, d, gone, millis);
    RemovedStart(db, d, gone, millis);
  }

  lemma WrittenStart(db: Database, d: Database, gone: set<string>, millis: int)
    requires Dropped(db, d, gone)
    ensures StartKey(millis) in WrittenKeys(d) <==> AddPending(d.dirty, millis)
  {
    hide UpdateKey, StoreKey, Millis, WriteBackOk, Dropped, Doomed, StartKey;
    var key := StartKey(millis);
    if key in WrittenKeys(d) {
      var k :| k in d.dirty && IsWritten(d, k) && StoreKey(d.dirty[k]) == key;
      PendingIs(db, d, gone, k);
      var m := d.dirty[k];
      StartKeyIsStart(millis);
      if IsUpdate(m) {
        UpdateIsNoStart(m);
        assert false;
      }
      AddKeyIs(m);
      SameMillis(Millis(m.time), millis);
      assert Pending(d.dirty, AddStart(m.time));
    }
    if AddPending(d.dirty, millis) {
      var t :| Pending(d.dirty, AddStart(t)) && Millis(t) == millis;
      AddKeyIs(AddStart(t));
      assert IsWritten(d, UpdateKey(AddStart(t)));
    }
  }

  lemma RemovedStart(db: Database, d: Database, gone: set<string>, millis: int)
    requires Dropped(db, d, gone)
    ensures IsRemoved(d, StartKey(millis)) <==> RemovePending(d.dirty, millis)
  {
    hide UpdateKey, StoreKey, Millis, WriteBackOk, Dropped, Doomed, StartKey, BelongsTo;
    var key := StartKey(millis);
    forall u
      ensures !BelongsTo(key, u)
    {
      StartKeyBelongsToNone(millis, u);
    }
    if IsRemoved(d, key) {
      var k :| k in d.dirty && d.dirty[k].RemoveStart? && key == StoreKey(d.dirty[k]);
      PendingIs(db, d, gone, k);
      AddKeyIs(d.dirty[k]);
      SameMillis(Millis(d.dirty[k].time), millis);
      assert Pending(d.dirty, RemoveStart(d.dirty[k].time));
    }
    if RemovePending(d.dirty, millis) {
      var t :| Pending(d.dirty, RemoveStart(t)) && Millis(t) == millis;
      AddKeyIs(RemoveStart(t));
      assert d.dirty[UpdateKey(RemoveStart(t))].RemoveStart?;
    }
  }

  lemma StartKeyIsStart(millis: int)
    ensures START_TIME <= StartKey(millis)
  {
  }

  lemma SameMillis(a: int, b: int)
    requires StartKey(a) == StartKey(b)
    ensures a == b
  {
    ConcatCancelLeft(START_TIME, Decimal(a), Decimal(b));
    DecimalInjective(a, b);
  }

  /** A start that is to be removed leaves the store exactly when no start of its millisecond is still to be added. */
  lemma RemovedStartStaysExactlyWhen(db: Database, d: Database, gone: set<string>, t: int)
    requires Dropped(db, d, gone) && Pending(d.dirty, RemoveStart(t))
    ensures StartKey(Millis(t)) in Resolve(d).store <==> AddPending(d.dirty, Millis(t))
  {
    hide UpdateKey, WriteBackOk, Dropped, StartKey, Millis, Resolve;
    StartIsLeftExactlyWhen(db, d, gone, Millis(t));
  }
}
