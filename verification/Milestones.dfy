/** When a collection is created, admitted, started as the first one and completed, when a start is forgotten and when an
    entry forgets its job, told from the fields of the database and the clock alone. */
module Milestones {
  import opened Prelude
  import opened TestModel
  import opened CollectionSteps
  import opened CollectionInvariant
  import opened CollectionProofs
  import opened Keys
  import opened DatabaseSteps
  import opened DatabaseInvariant
  import opened WriteBack
  import Coherence
  import ProcessLoop
  import SubmissionDates

  /** `ms` is the millisecond of the time `t`. */
  predicate IsMillisecond(ms: int, t: int) {
    if t >= 0 then ms * 1_000_000 <= t < (ms + 1) * 1_000_000 else (ms - 1) * 1_000_000 < t <= ms * 1_000_000
  }

  lemma MillisIs(t: int)
    ensures IsMillisecond(Millis(t), t)
  {
  }

  // ---- Creation ----

  lemma {:induction false} HeaderOfNew(kube: KubeTest, now: int, n: nat)
    requires n <= |kube.tests|
    ensures
      var c := WithTests(kube, now, n);
      && c.status == CollectionWaiting && c.bucket == WaitingBucket && c.dateSubmitted == Millis(now)
      && c.startTime.None? && c.endTime.None?
  {
    hide Millis;
    if n > 0 {
      HeaderOfNew(kube, now, n - 1);
    }
  }

  /** Every field of a collection that has just been created. */
  lemma NewCollectionIs(kube: KubeTest, now: int)
    ensures
      var c, n := WithTests(kube, now, |kube.tests|), |kube.tests|;
      && c.kube == kube && c.uid == kube.uid && c.nextId == n
      && |c.queued| == n && (forall i :: 0 <= i < n ==> c.queued[i] == i)
      && c.retry == [] && c.running == [] && c.completed == []
      && (forall i :: i in c.entries <==> 0 <= i < n)
      && (forall i :: 0 <= i < n ==>
            c.entries[i] == Entry(i, None, EntryWaiting, None, kube.tests[i], None, false, InQueued))
      && c.status == CollectionWaiting && c.bucket == WaitingBucket && IsMillisecond(c.dateSubmitted, now)
      && c.startTime.None? && c.endTime.None?
  {
    hide Millis, IsMillisecond, WithTests;
    NewTestsQueued(kube, now, |kube.tests|);
    HeaderOfNew(kube, now, |kube.tests|);
    MillisIs(now);
  }

  // ---- Admission ----

  /** The collection has a queued test or a retry. */
  predicate HasWaiting(db: Database, uid: string) {
    uid in db.collections && (db.collections[uid].queued != [] || db.collections[uid].retry != [])
  }

  /** The first waiting collection is the last running one. */
  predicate IsAdmitted(db: Database, d: Database) {
    && db.waiting != []
    && d.waiting == db.waiting[1..] && d.running == db.running + [db.waiting[0]]
    && db.waiting[0] in db.collections && db.waiting[0] in d.collections
    && d.collections[db.waiting[0]] ==
         db.collections[db.waiting[0]].(status := CollectionRunning, bucket := RunningBucket)
  }

  ghost predicate SomeWaitFrom(db: Database, at: nat, d: Database) {
    exists k :: at <= k < |db.running| && HasWaiting(d, db.running[k])
  }

  /** A collection that comes before those still to be visited is left alone. */
  lemma {:induction false} RoundLeaves(db: Database, visits: nat -> Visit, at: nat, inQueue: nat, u: string)
    requires DatabaseOk(db) && u in db.collections && u !in db.running[if at <= |db.running| then at else |db.running|..]
    requires db.waiting == [] || u != db.waiting[0]
    ensures
      var d := RoundFrom(db, visits, at, inQueue).db;
      u in d.collections && d.collections[u] == db.collections[u]
    decreases |db.running| - at
  {
    hide DatabaseOk, ProcessCollection, AfterVisit, RoundFrom, CollectionOk;
    RoundOnce(db, visits, at, inQueue);
    if at >= |db.running| {
      if db.waiting != [] {
        AdmitKeeps(db);
        HeldParts(db, db.waiting[0]);
      }
    } else {
      RunningIsHeld(db, at);
      var v := db.running[at];
      HeldParts(db, v);
      assert v in db.running[at..];
      var o := ProcessCollection(db.collections[v], db.clock, db.starts, visits(at).cluster);
      ProcessKeepsHeader(db.collections[v], db.clock, db.starts, visits(at).cluster);
      ProcessLoop.VisitCollections(db, v, o, at == 0, visits(at).primaryDelay);
      Coherence.VisitedIsOk(db, v, visits(at), at == 0);
      if !o.changed {
        assert forall x :: x in db.running[at + 1..] ==> x in db.running[at..];
        RoundLeaves(AfterVisit(db, v, o, at == 0, visits(at).primaryDelay), visits, at + 1,
                    inQueue + |o.coll.queued| + |o.coll.retry|, u);
      }
    }
  }

  /** How a round from position `at` on ends: with a change of a running collection, with an admission because nothing waits in
      those it went through, or without a change because something does or no collection waits. */
  ghost predicate RoundEnds(db: Database, at: nat, inQueue: nat, r: RoundResult) {
    match r.updated
    case Some(u) =>
      || (u in db.running && r.db.waiting == db.waiting && r.db.running == db.running)
      || (db.waiting != [] && u == db.waiting[0] && IsAdmitted(db, r.db) && inQueue == 0 && !SomeWaitFrom(db, at, r.db))
    case None =>
      r.db.waiting == db.waiting && r.db.running == db.running
      && (db.waiting == [] || inQueue > 0 || SomeWaitFrom(db, at, r.db))
  }

  lemma VisitedIsLeft(db: Database, d: Database, v: string, at: nat)
    requires DatabaseOk(db) && at < |db.running| && v == db.running[at]
    requires DatabaseOk(d) && d.running == db.running && d.waiting == db.waiting && v in d.collections
    ensures v !in d.running[at + 1..] && (d.waiting != [] ==> v != d.waiting[0] && d.waiting[0] !in d.running)
  {
    hide HeldOk, InOrder;
    if d.waiting != [] {
      var w := d.waiting[0];
      assert w in d.waiting;
    }
    assert v in d.running;
  }

  lemma EndsOneEarlier(db: Database, d: Database, v: string, at: nat, queue: nat, more: nat, r: RoundResult)
    requires at < |db.running| && v == db.running[at] && d.running == db.running && d.waiting == db.waiting
    requires forall u :: u != v ==> (u in d.collections <==> u in db.collections)
    requires forall u :: u != v && u in db.collections && u in d.collections ==> d.collections[u] == db.collections[u]
    requires d.waiting != [] ==> v != d.waiting[0]
    requires HasWaiting(r.db, v) <==> more > 0
    requires RoundEnds(d, at + 1, queue + more, r)
    ensures RoundEnds(db, at, queue, r)
  {
    hide HasWaiting;
    assert SomeWaitFrom(db, at, r.db) <==> HasWaiting(r.db, v) || SomeWaitFrom(d, at + 1, r.db) by {
      if HasWaiting(r.db, v) {
        assert HasWaiting(r.db, db.running[at]);
      }
      if SomeWaitFrom(db, at, r.db) {
        var k :| at <= k < |db.running| && HasWaiting(r.db, db.running[k]);
        assert k > at ==> HasWaiting(r.db, d.running[k]);
      }
      if SomeWaitFrom(d, at + 1, r.db) {
        var k :| at + 1 <= k < |d.running| && HasWaiting(r.db, d.running[k]);
        assert HasWaiting(r.db, db.running[k]);
      }
    }
  }

  lemma {:induction false} RoundFromEnds(db: Database, visits: nat -> Visit, at: nat, inQueue: nat)
    requires DatabaseOk(db) && at <= |db.running|
    ensures RoundEnds(db, at, inQueue, RoundFrom(db, visits, at, inQueue))
    decreases |db.running| - at
  {
    hide DatabaseOk, ProcessCollection, AfterVisit, RoundFrom, CollectionOk, RoundEnds;
    RoundOnce(db, visits, at, inQueue);
    if at == |db.running| {
      LastEnds(db, inQueue, RoundFrom(db, visits, at, inQueue));
    } else {
      RunningIsHeld(db, at);
      var v := db.running[at];
      HeldParts(db, v);
      var o := ProcessCollection(db.collections[v], db.clock, db.starts, visits(at).cluster);
      var d := AfterVisit(db, v, o, at == 0, visits(at).primaryDelay);
      ProcessKeepsHeader(db.collections[v], db.clock, db.starts, visits(at).cluster);
      ProcessLoop.VisitCollections(db, v, o, at == 0, visits(at).primaryDelay);
      Coherence.VisitedIsOk(db, v, visits(at), at == 0);
      VisitedIsLeft(db, d, v, at);
      if o.changed {
        ChangeEnds(db, d, at, inQueue, RoundFrom(db, visits, at, inQueue));
      } else {
        var more := |o.coll.queued| + |o.coll.retry|;
        RoundFromEnds(d, visits, at + 1, inQueue + more);
        RoundLeaves(d, visits, at + 1, inQueue + more, v);
        SameKeysButOne(db, d, v);
        EndsOneEarlier(db, d, v, at, inQueue, more, RoundFrom(db, visits, at, inQueue));
      }
    }
  }

  lemma SameKeysButOne(db: Database, d: Database, v: string)
    requires d.collections.Keys == db.collections.Keys
    ensures forall u :: u != v ==> (u in d.collections <==> u in db.collections)
  {
    forall u
      ensures u in d.collections <==> u in db.collections
    {
      assert u in d.collections.Keys <==> u in db.collections.Keys;
    }
  }

  lemma ChangeEnds(db: Database, d: Database, at: nat, inQueue: nat, r: RoundResult)
    requires at < |db.running| && r.db == d && r.updated == Some(db.running[at])
    requires d.running == db.running && d.waiting == db.waiting
    ensures RoundEnds(db, at, inQueue, r)
  {
    assert db.running[at] in db.running;
  }

  lemma LastEnds(db: Database, inQueue: nat, r: RoundResult)
    requires DatabaseOk(db)
    requires if inQueue == 0 && db.waiting != [] && db.waiting[0] in db.collections
             then r == RoundResult(Admit(db), Some(db.waiting[0]), 0, false) else r == RoundResult(db, None, 0, false)
    ensures RoundEnds(db, |db.running|, inQueue, r)
  {
    hide InOrder, CollectionOk, Put;
    if db.waiting != [] {
      AdmitKeepsLists(db);
      HeldParts(db, db.waiting[0]);
    }
  }

  /** A round ends in one of three ways: a running collection changes and the lists stay; or the first waiting collection is
      admitted, and then none of the running ones has a test that waits; or nothing happens, and then one of them has, or no
      collection waits. */
  lemma AdmitsExactlyWhen(db: Database, visits: nat -> Visit)
    requires DatabaseOk(db)
    ensures
      var r := Round(db, visits);
      match r.updated
      case Some(u) =>
        || (u in db.running && r.db.waiting == db.waiting && r.db.running == db.running)
        || (db.waiting != [] && u == db.waiting[0] && IsAdmitted(db, r.db)
            && forall v :: v in db.running ==> !HasWaiting(r.db, v))
      case None =>
        r.db.waiting == db.waiting && r.db.running == db.running
        && (db.waiting == [] || exists v :: v in db.running && HasWaiting(r.db, v))
  {
    hide DatabaseOk, RoundFrom, HasWaiting, IsAdmitted;
    RoundFromEnds(db, visits, 0, 0);
    var r := Round(db, visits);
    if v :| v in db.running && HasWaiting(r.db, v) {
      var k :| 0 <= k < |db.running| && db.running[k] == v;
      assert HasWaiting(r.db, db.running[k]);
    }
    if SomeWaitFrom(db, 0, r.db) {
      var k :| 0 <= k < |db.running| && HasWaiting(r.db, db.running[k]);
      assert db.running[k] in db.running;
    }
  }

  // ---- The first start ----

  lemma {:induction false} OthersKeepStartTimes(db: Database, visits: nat -> Visit, at: nat, inQueue: nat)
    requires DatabaseOk(db) && at > 0
    ensures
      var d := RoundFrom(db, visits, at, inQueue).db;
      forall u :: u in db.collections ==> u in d.collections && d.collections[u].startTime == db.collections[u].startTime
    decreases |db.running| - at
  {
    hide DatabaseOk, ProcessCollection, RoundFrom, CollectionOk, PutAll;
    RoundOnce(db, visits, at, inQueue);
    if at >= |db.running| {
      if db.waiting != [] {
        AdmitKeeps(db);
        HeldParts(db, db.waiting[0]);
      }
    } else {
      RunningIsHeld(db, at);
      var v := db.running[at];
      HeldParts(db, v);
      var o := ProcessCollection(db.collections[v], db.clock, db.starts, visits(at).cluster);
      ProcessKeepsHeader(db.collections[v], db.clock, db.starts, visits(at).cluster);
      Coherence.VisitedIsOk(db, v, visits(at), false);
      if !o.changed {
        OthersKeepStartTimes(AfterVisit(db, v, o, false, visits(at).primaryDelay), visits, at + 1,
                             inQueue + |o.coll.queued| + |o.coll.retry|);
      }
    }
  }

  /** The first running collection has a start time after a round: the one it had, or the millisecond of the time read after it
      was processed. No other collection gets one. */
  lemma FirstGetsAStartTime(db: Database, visits: nat -> Visit)
    requires DatabaseOk(db) && db.running != []
    ensures db.running[0] in db.collections
    ensures
      var u, d := db.running[0], Round(db, visits).db;
      var processed := ProcessCollection(db.collections[u], db.clock, db.starts, visits(0).cluster).clock;
      && u in d.collections && d.collections[u].startTime.Some?
      && (if db.collections[u].startTime.Some? then d.collections[u].startTime == db.collections[u].startTime
          else IsMillisecond(d.collections[u].startTime.value, processed + visits(0).primaryDelay))
      && (forall v :: v in db.collections && v != u ==> v in d.collections && d.collections[v].startTime == db.collections[v].startTime)
  {
    hide DatabaseOk, ProcessCollection, RoundFrom, CollectionOk, PutAll, Put, Millis, IsMillisecond;
    RoundOnce(db, visits, 0, 0);
    RunningIsHeld(db, 0);
    var u := db.running[0];
    HeldParts(db, u);
    var o := ProcessCollection(db.collections[u], db.clock, db.starts, visits(0).cluster);
    ProcessKeepsHeader(db.collections[u], db.clock, db.starts, visits(0).cluster);
    Coherence.VisitedIsOk(db, u, visits(0), true);
    MillisIs(o.clock + visits(0).primaryDelay);
    if !o.changed {
      OthersKeepStartTimes(AfterVisit(db, u, o, true, visits(0).primaryDelay), visits, 1, |o.coll.queued| + |o.coll.retry|);
    }
  }

  // ---- Completion ----

  /** Every test has finished. */
  predicate AllFinished(c: Collection) {
    forall i :: i in c.entries ==> c.entries[i].bucket == InCompleted
  }

  lemma CompleteIsAllFinished(c: Collection)
    requires CollectionOk(c)
    ensures IsComplete(c) <==> AllFinished(c)
  {
    hide Forest, Retried, Shapes, NoDuplicates;
    if AllFinished(c) {
      NoneListed(c, c.queued, InQueued);
      NoneListed(c, c.retry, InRetry);
      NoneListed(c, c.running, InRunning);
    }
    if IsComplete(c) {
      forall i | i in c.entries
        ensures c.entries[i].bucket == InCompleted
      {
        assert i !in c.queued && i !in c.retry && i !in c.running;
        match c.entries[i].bucket
        case InQueued => assert false;
        case InRetry => assert false;
        case InRunning => assert false;
        case InCompleted =>
      }
    }
  }

  lemma NoneListed(c: Collection, ids: seq<int>, bucket: EntryBucket)
    requires Lists(c, ids, bucket) && AllFinished(c) && bucket != InCompleted
    ensures ids == []
  {
    hide Lists, AllFinished;
    if |ids| > 0 {
      HasFirst(ids);
      ListedIsNotFinished(c, ids, bucket, ids[0]);
    }
  }

  lemma ListedIsNotFinished(c: Collection, ids: seq<int>, bucket: EntryBucket, i: int)
    requires Lists(c, ids, bucket) && bucket != InCompleted && i in ids
    ensures !AllFinished(c)
  {
    assert i in c.entries && c.entries[i].bucket == bucket;
  }

  /** A collection once it has been marked complete at time `t`. */
  predicate CompletedAt(c: Collection, d: Collection, t: int) {
    && d == c.(status := CollectionComplete, bucket := CompletedBucket, endTime := d.endTime)
    && d.endTime.Some? && IsMillisecond(d.endTime.value, t)
  }

  /** The time at which the running collection at position `k` is looked at. */
  function LookedAt(db: Database, endDelay: nat -> nat, k: nat): int
    requires k < |db.running|
  {
    MarkComplete(db, endDelay, k).clock + endDelay(k)
  }

  lemma {:induction false} MarkedAt(db: Database, endDelay: nat -> nat, n: nat, k: nat)
    requires DatabaseOk(db) && k < n <= |db.running|
    ensures db.running[k] in db.collections
    ensures
      var u, d := db.running[k], MarkComplete(db, endDelay, n);
      && u in d.collections
      && (if IsComplete(db.collections[u]) then CompletedAt(db.collections[u], d.collections[u], LookedAt(db, endDelay, k))
          else d.collections[u] == db.collections[u])
  {
    hide DatabaseOk, MarkIfComplete, IsComplete, IsMillisecond, Millis, MarkedUpTo, CollectionOk;
    RunningIsHeld(db, k);
    RunningIsHeld(db, n - 1);
    MarkCompleteKeeps(db, endDelay, n - 1);
    var before := MarkComplete(db, endDelay, n - 1);
    NotYetMarked(db, before, n - 1);
    OnlyOneIsMarked(before, db.running[n - 1], endDelay(n - 1));
    if k == n - 1 {
      if IsComplete(db.collections[db.running[k]]) {
        MarkedNow(before, db.running[k], endDelay(k));
      }
    } else {
      MarkedAt(db, endDelay, n - 1, k);
      DifferentRunning(db, k, n - 1);
    }
  }

  lemma DifferentRunning(db: Database, j: nat, k: nat)
    requires DatabaseOk(db) && j < k < |db.running|
    ensures db.running[j] != db.running[k]
  {
    hide HeldOk, InOrder;
  }

  lemma MarkedNow(d: Database, uid: string, delay: nat)
    requires uid in d.collections && d.collections[uid].uid == uid && IsComplete(d.collections[uid])
    ensures
      var d' := MarkIfComplete(d, uid, delay);
      uid in d'.collections && CompletedAt(d.collections[uid], d'.collections[uid], d.clock + delay)
  {
    hide Millis, Put;
    MillisIs(d.clock + delay);
  }

  /** At the end of Process a running collection completes exactly when all its tests have finished; it is then marked so with
      the millisecond of the time, and moves to the completed ones. */
  lemma CompletesExactlyWhen(db: Database, endDelay: nat -> nat, cleanupDelay: nat, k: nat)
    requires DatabaseOk(db) && k < |db.running|
    ensures db.running[k] in db.collections
    ensures
      var u, c := db.running[k], db.collections[db.running[k]];
      var d := CompleteCollections(db, endDelay, cleanupDelay);
      && u in d.collections
      && (AllFinished(c) <==> u in d.completed) && (AllFinished(c) <==> u !in d.running)
      && (if AllFinished(c) then CompletedAt(c, d.collections[u], LookedAt(db, endDelay, k)) else d.collections[u] == c)
  {
    hide DatabaseOk, MarkComplete, IsComplete, AllFinished, CompletedAt, LookedAt, StillRunningList, ForgetOldStarts, CollectionOk;
    RunningIsHeld(db, k);
    var u := db.running[k];
    HeldParts(db, u);
    CompleteIsAllFinished(db.collections[u]);
    MarkedAt(db, endDelay, |db.running|, k);
    CompleteCollectionsKeeps(db, endDelay, cleanupDelay);
    SubmissionDates.CompletedLists(db, endDelay, cleanupDelay);
    InItsList(CompleteCollections(db, endDelay, cleanupDelay), u);
    if AllFinished(db.collections[u]) {
      CompletedBucketIs(db.collections[u], MarkComplete(db, endDelay, |db.running|).collections[u], LookedAt(db, endDelay, k));
    }
  }

  lemma CompletedBucketIs(c: Collection, d: Collection, t: int)
    requires CompletedAt(c, d, t)
    ensures d.bucket == CompletedBucket
  {
  }

  lemma InItsList(db: Database, u: string)
    requires DatabaseOk(db) && u in db.collections
    ensures u in db.running <==> db.collections[u].bucket == RunningBucket
    ensures u in db.completed <==> db.collections[u].bucket == CompletedBucket
  {
    hide HeldOk, InOrder, NoDuplicates;
  }

  // ---- Forgetting ----

  lemma {:induction false} FilterCounts(s: seq<int>, keep: int -> bool, t: int)
    ensures multiset(Filter(s, keep))[t] == if keep(t) then multiset(s)[t] else 0
  {
    if s != [] {
      var front, last := s[..|s| - 1], s[|s| - 1];
      assert s == front + [last];
      FilterCounts(front, keep, t);
    }
  }

  /** A start is forgotten exactly when it is an hour old or older; each start that is forgotten is to be removed from the
      store, and the others keep their number and their order. */
  lemma ForgetsExactlyWhen(d: Database, delay: nat, t: int)
    requires DirtyOk(d.dirty)
    ensures
      var r, hourAgo := ForgetOldStarts(d, delay), d.clock + delay - 3600 * 1_000_000_000;
      && multiset(r.starts)[t] == (if t > hourAgo then multiset(d.starts)[t] else 0)
      && (Pending(r.dirty, RemoveStart(t)) <==> Pending(d.dirty, RemoveStart(t)) || (t in d.starts && t <= hourAgo))
      && (Sorted(d.starts) ==> Sorted(r.starts))
      && r.clock == d.clock + delay
  {
    hide PutAll, DirtyOk;
    var hourAgo := d.clock + delay - SECONDS_REMEMBERED * NANOS_PER_SECOND;
    FilterCounts(d.starts, x => x > hourAgo, t);
    if Sorted(d.starts) {
      FilterSorted(d.starts, x => x > hourAgo);
    }
    var gone := Filter(d.starts, x => x <= hourAgo);
    RemovalsAre(gone, t);
    Coherence.RemovalMarksFit(gone);
    StartMarksFit(t);
    PutAllExactly(d.dirty, RemovalMarks(gone), RemoveStart(t));
  }

  ghost predicate Sorted(times: seq<int>) {
    forall i, j :: 0 <= i < j < |times| ==> times[i] <= times[j]
  }

  lemma {:induction false} FilterSorted(s: seq<int>, keep: int -> bool)
    requires Sorted(s)
    ensures Sorted(Filter(s, keep))
  {
    if s != [] {
      var front, last := s[..|s| - 1], s[|s| - 1];
      FilterSorted(front, keep);
      forall x | x in Filter(front, keep)
        ensures x <= last
      {
        var i :| 0 <= i < |front| && front[i] == x;
        assert s[i] == x;
      }
      var kept := Filter(front, keep);
      forall i, j | 0 <= i < j < |kept + [last]|
        ensures (kept + [last])[i] <= (kept + [last])[j]
      {
        assert kept[i] in kept;
      }
    }
  }

  lemma RemovalsAre(times: seq<int>, t: int)
    ensures RemoveStart(t) in RemovalMarks(times) <==> t in times
  {
    if t in times {
      var i :| 0 <= i < |times| && times[i] == t;
      assert RemovalMarks(times)[i] == RemoveStart(t);
    }
  }

  // ---- Jobs that are cleaned up ----

  /** The job is one of an entry in memory. */
  predicate IsKnown(db: Database, job: Job) {
    && job.collection.Some? && job.collection.value in db.collections
    && job.entry.Some? && job.entry.value in db.collections[job.collection.value].entries
  }

  /** The entry of a job forgets it exactly when the test has been processed and the job completed more than two minutes ago;
      this is recorded. Nothing else changes. */
  lemma ForgetsJobExactlyWhen(db: Database, job: Job)
    requires DirtyOk(db.dirty) && UidsOk(db.collections)
    ensures
      var d, now := SweepJob(db, job), db.clock + job.delay;
      if !IsKnown(db, job) then d == db
      else
        var u, i := job.collection.value, job.entry.value;
        var e := db.collections[u].entries[i];
        var forgets := e.processed && job.completionTime.Some? && job.completionTime.value < now - 120 * 1_000_000_000;
        && d == db.(collections := d.collections, clock := now, dirty := d.dirty)
        && (if forgets then
              && d.collections == db.collections[u := db.collections[u].(
                   entries := db.collections[u].entries[i := e.(cluster := None)])]
              && Pending(d.dirty, EntryShallow(u, i))
            else d.collections == db.collections && d.dirty == db.dirty)
  {
    hide UpdateKey, DirtyOk, IsUid;
  }

  /** The job at position `k` makes the entry `i` of the collection `u` forget its job when it has its turn. */
  predicate ForgetsAt(db: Database, jobs: seq<Job>, k: nat, u: string, i: int)
    requires u in db.collections && i in db.collections[u].entries && k < |jobs|
  {
    && jobs[k].collection == Some(u) && jobs[k].entry == Some(i) && db.collections[u].entries[i].processed
    && jobs[k].completionTime.Some?
    && jobs[k].completionTime.value < Sweep(db, jobs[..k]).clock + jobs[k].delay - 120 * 1_000_000_000
  }

  /** What an entry is after the first `n` jobs have been cleaned up. */
  ghost predicate SweptTo(db: Database, jobs: seq<Job>, n: nat, u: string, i: int, d: Database)
    requires u in db.collections && i in db.collections[u].entries && n <= |jobs|
  {
    && u in d.collections && i in d.collections[u].entries
    && d.collections[u].entries[i] ==
         if exists k: nat :: k < n && ForgetsAt(db, jobs, k, u, i) then db.collections[u].entries[i].(cluster := None)
         else db.collections[u].entries[i]
  }

  lemma {:induction false} SweepForgetsExactlyWhen(db: Database, jobs: seq<Job>, n: nat, u: string, i: int)
    requires u in db.collections && i in db.collections[u].entries && n <= |jobs|
    ensures SweptTo(db, jobs, n, u, i, Sweep(db, jobs[..n]))
  {
    hide ForgetsAt, SweepJob;
    if n == 0 {
      assert Sweep(db, jobs[..0]) == db;
    } else {
      SweepForgetsExactlyWhen(db, jobs, n - 1, u, i);
      assert jobs[..n][..n - 1] == jobs[..n - 1];
      var before := Sweep(db, jobs[..n - 1]);
      OneSwept(db, before, jobs, n - 1, u, i);
      assert (exists k: nat :: k < n && ForgetsAt(db, jobs, k, u, i)) <==>
        (exists k: nat :: k < n - 1 && ForgetsAt(db, jobs, k, u, i)) || ForgetsAt(db, jobs, n - 1, u, i);
    }
  }

  lemma OneSwept(db: Database, before: Database, jobs: seq<Job>, k: nat, u: string, i: int)
    requires u in db.collections && i in db.collections[u].entries && k < |jobs| && before == Sweep(db, jobs[..k])
    requires u in before.collections && i in before.collections[u].entries
    requires before.collections[u].entries[i] in
               {db.collections[u].entries[i], db.collections[u].entries[i].(cluster := None)}
    ensures
      var d, e := SweepJob(before, jobs[k]), before.collections[u].entries[i];
      && u in d.collections && i in d.collections[u].entries
      && d.collections[u].entries[i] == if ForgetsAt(db, jobs, k, u, i) then e.(cluster := None) else e
  {
    hide Put, Sweep;
  }

  // ---- The end of Process ----

  /** The end of Process as a whole: exactly the collections whose KoupletTest is gone leave; of the others, the running ones
      whose tests have all finished complete, and the rest stay as they are. */
  lemma SettlesExactly(db: Database, s: Settling)
    requires DatabaseOk(db)
    ensures Settle(db, s).collections.Keys == db.collections.Keys - s.gone
    ensures forall u :: u in db.collections && u !in s.gone && u !in db.running ==>
              u in Settle(db, s).collections && Settle(db, s).collections[u] == db.collections[u]
    ensures forall k: nat :: k < |db.running| && db.running[k] !in s.gone ==> SettledAt(db, s, k)
  {
    hide DatabaseOk, CompleteCollections, Resolve, Deletions, SettledAt, MarkComplete;
    var c := CompleteCollections(db, s.endDelay, s.cleanupDelay);
    var d := Settle(db, s);
    CompletedLeaves(db, s);
    Collected(c, s.gone);
    forall k: nat | k < |db.running| && db.running[k] !in s.gone
      ensures SettledAt(db, s, k)
    {
      CompletesExactlyWhen(db, s.endDelay, s.cleanupDelay, k);
      StaysSettled(db, c, d, s, k);
    }
  }

  /** What becomes of the running collection at position `k`. */
  ghost predicate SettledAt(db: Database, s: Settling, k: nat)
    requires k < |db.running|
  {
    var u, d := db.running[k], Settle(db, s);
    && u in db.collections && u in d.collections
    && var c := db.collections[u];
    && (AllFinished(c) <==> u in d.completed) && (AllFinished(c) <==> u !in d.running)
    && (if AllFinished(c) then CompletedAt(c, d.collections[u], LookedAt(db, s.endDelay, k)) else d.collections[u] == c)
  }

  lemma CompletedLeaves(db: Database, s: Settling)
    requires DatabaseOk(db)
    ensures
      var c := CompleteCollections(db, s.endDelay, s.cleanupDelay);
      && c.collections.Keys == db.collections.Keys
      && forall u :: u in db.collections && u !in db.running ==> c.collections[u] == db.collections[u]
  {
    hide DatabaseOk, MarkComplete, StillRunningList, ForgetOldStarts, CollectionsOk, ListsCollections;
    MarkCompleteKeeps(db, s.endDelay, |db.running|);
    SubmissionDates.CompletedLists(db, s.endDelay, s.cleanupDelay);
    assert db.running[..|db.running|] == db.running;
  }

  lemma Collected(c: Database, gone: set<string>)
    ensures
      var d := Resolve(Collect(c, gone));
      && d.collections.Keys == c.collections.Keys - gone
      && (forall u :: u in d.collections ==> d.collections[u] == c.collections[u])
      && (forall u :: u in c.collections && u !in gone ==>
            (u in d.running <==> u in c.running) && (u in d.completed <==> u in c.completed))
  {
    hide Deletions, IsRemoved, WrittenKeys;
  }

  lemma StaysSettled(db: Database, c: Database, d: Database, s: Settling, k: nat)
    requires k < |db.running| && db.running[k] in db.collections && db.running[k] in c.collections
    requires d == Settle(db, s) && db.running[k] in d.collections
    requires
      var u := db.running[k];
      && d.collections[u] == c.collections[u]
      && (u in d.running <==> u in c.running) && (u in d.completed <==> u in c.completed)
      && (AllFinished(db.collections[u]) <==> u in c.completed) && (AllFinished(db.collections[u]) <==> u !in c.running)
      && (if AllFinished(db.collections[u]) then CompletedAt(db.collections[u], c.collections[u], LookedAt(db, s.endDelay, k))
          else c.collections[u] == db.collections[u])
    ensures SettledAt(db, s, k)
  {
    hide AllFinished, CompletedAt, LookedAt, Settle;
  }
}
