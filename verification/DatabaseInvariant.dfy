/** What every step keeps true of the database: the three lists partition the collections, every collection
    satisfies its invariant, and collections run in the order they were submitted. */
module DatabaseInvariant {
  import opened Prelude
  import opened TestModel
  import opened CollectionSteps
  import opened CollectionInvariant
  import opened CollectionProofs
  import opened DatabaseSteps

  ghost predicate ListsCollections(db: Database, uids: seq<string>, bucket: CollectionBucket) {
    && NoDuplicates(uids)
    && (forall u :: u in uids <==> u in db.collections && db.collections[u].bucket == bucket)
  }

  /** Bucket and status of a collection agree, and a completed collection is complete. */
  ghost predicate HeaderOk(c: Collection) {
    match c.bucket
    case WaitingBucket => c.status == CollectionWaiting && c.endTime.None?
    case RunningBucket => c.status == CollectionRunning && c.endTime.None?
    case CompletedBucket => c.status == CollectionComplete && c.endTime.Some? && IsComplete(c)
  }

  ghost predicate HeldOk(uid: string, c: Collection) {
    IsUid(uid) && c.uid == uid && CollectionOk(c) && HeaderOk(c)
  }

  ghost predicate CollectionsOk(db: Database) {
    forall u {:trigger HeldOk(u, db.collections[u])} :: u in db.collections ==> HeldOk(u, db.collections[u])
  }

  ghost predicate ListsOk(db: Database) {
    && ListsCollections(db, db.waiting, WaitingBucket)
    && ListsCollections(db, db.running, RunningBucket)
    && ListsCollections(db, db.completed, CompletedBucket)
  }

  /** Running collections, then waiting ones, stand in the order of their submission. */
  ghost predicate InOrder(db: Database) {
    Subsequence(db.running + db.waiting, db.submitted)
  }

  ghost predicate DatabaseOk(db: Database) {
    CollectionsOk(db) && ListsOk(db) && InOrder(db)
  }

  /** A collection whose header changes keeps its invariant. */
  lemma HeaderDoesNotMatter(c: Collection, c': Collection)
    requires CollectionOk(c)
    requires c'.kube == c.kube && c'.uid == c.uid && c'.nextId == c.nextId && c'.entries == c.entries
    requires c'.queued == c.queued && c'.retry == c.retry && c'.running == c.running && c'.completed == c.completed
    ensures CollectionOk(c')
  {
    ForestKept(c, c');
    RetriedKept(c, c');
  }

  // ---- A round ----

  lemma AbsorbKeeps(db: Database, uid: string, o: Outcome)
    requires DatabaseOk(db) && uid in db.collections
    requires HeldOk(uid, o.coll) && o.coll.bucket == db.collections[uid].bucket
    ensures DatabaseOk(Absorb(db, uid, o))
  {
  }

  lemma RewriteKeeps(db: Database, c: Collection, now: int)
    requires DatabaseOk(db) && c.uid in db.collections
    requires HeldOk(c.uid, c) && c.bucket == db.collections[c.uid].bucket
    ensures DatabaseOk(Rewrite(db, c, now))
  {
  }

  /** Processing a collection leaves its header alone. */
  lemma ProcessKeepsHeader(c: Collection, clock: int, starts: seq<int>, cluster: Cluster)
    ensures
      var c' := ProcessCollection(c, clock, starts, cluster).coll;
      SameHeader(c, c')
  {
    hide RunJobs, StartTests, KoupletJobs, Uncompleted;
    if cluster.Cluster? {
      RunJobsKeepsHeader(c, clock, KoupletJobs(cluster.jobs, c.uid), cluster.ingest);
      var finished := RunJobs(c, clock, KoupletJobs(cluster.jobs, c.uid), cluster.ingest);
      var budget := ActiveLimit(finished.coll.kube) - Uncompleted(KoupletJobs(cluster.jobs, finished.coll.uid));
      StartTestsKeepsHeader(finished.coll, finished.clock, starts, budget, cluster.answers, 0);
    }
  }

  ghost predicate SameHeader(c: Collection, c': Collection) {
    && c'.uid == c.uid && c'.kube == c.kube && c'.bucket == c.bucket && c'.status == c.status
    && c'.dateSubmitted == c.dateSubmitted && c'.startTime == c.startTime && c'.endTime == c.endTime
  }

  lemma HandleJobKeepsHeader(c: Collection, clock: int, job: Job, ingest: string -> seq<Totals>)
    requires job.entry.Some?
    ensures SameHeader(c, HandleJob(c, clock, job, ingest).coll)
  {
  }

  lemma {:induction false} RunJobsKeepsHeader(c: Collection, clock: int, jobs: seq<Job>, ingest: string -> seq<Totals>)
    requires forall job :: job in jobs ==> job.entry.Some?
    ensures SameHeader(c, RunJobs(c, clock, jobs, ingest).coll)
  {
    hide HandleJob;
    if jobs != [] {
      RunJobsKeepsHeader(c, clock, jobs[..|jobs| - 1], ingest);
      var before := RunJobs(c, clock, jobs[..|jobs| - 1], ingest);
      HandleJobKeepsHeader(before.coll, before.clock, jobs[|jobs| - 1], ingest);
    }
  }

  lemma {:induction false} StartTestsKeepsHeader(c: Collection, clock: int, starts: seq<int>, budget: int,
                                                 answers: nat -> Answer, attempt: nat)
    ensures SameHeader(c, StartTests(c, clock, starts, budget, answers, attempt).coll)
    decreases if budget > 0 then budget else 0
  {
    if budget > 0 {
      var turn := TakeTurn(c, answers(attempt));
      var time := clock + answers(attempt).checkDelay + answers(attempt).startDelay;
      if turn.Begun? {
        StartTestsKeepsHeader(turn.coll, time, starts + [time], budget - 1, answers, attempt + 1);
      }
    }
  }

  lemma ProcessedIsHeld(uid: string, c: Collection, clock: int, starts: seq<int>, cluster: Cluster)
    requires HeldOk(uid, c) && c.bucket == RunningBucket
    ensures HeldOk(uid, ProcessCollection(c, clock, starts, cluster).coll)
    ensures ProcessCollection(c, clock, starts, cluster).coll.bucket == RunningBucket
  {
    ProcessKeepsInvariant(c, clock, starts, cluster);
    ProcessKeepsHeader(c, clock, starts, cluster);
  }

  lemma StartTimeIsHeader(uid: string, c: Collection, time: int)
    requires HeldOk(uid, c)
    ensures HeldOk(uid, c.(startTime := Some(time)))
  {
    HeaderDoesNotMatter(c, c.(startTime := Some(time)));
  }

  lemma MarkPrimaryKeeps(db: Database, uid: string, delay: nat)
    requires DatabaseOk(db) && uid in db.collections
    ensures DatabaseOk(MarkPrimary(db, uid, delay))
  {
    hide CollectionOk;
    var c := db.collections[uid];
    assert HeldOk(uid, c);
    if c.startTime.None? {
      var now := db.clock + delay;
      StartTimeIsHeader(uid, c, Millis(now));
      RewriteKeeps(db, c.(startTime := Some(Millis(now))), now);
    }
  }

  /** Visiting one running collection keeps the database in order. */
  lemma VisitKeeps(db: Database, uid: string, o: Outcome, first: bool, delay: nat)
    requires DatabaseOk(db) && uid in db.collections
    requires HeldOk(uid, o.coll) && o.coll.bucket == db.collections[uid].bucket
    ensures DatabaseOk(AfterVisit(db, uid, o, first, delay))
  {
    AbsorbKeeps(db, uid, o);
    if first {
      MarkPrimaryKeeps(Absorb(db, uid, o), uid, delay);
    }
  }

  lemma AdmitKeeps(db: Database)
    requires DatabaseOk(db) && db.waiting != []
    ensures db.waiting[0] in db.collections
    ensures DatabaseOk(Admit(db))
    ensures Admit(db).running + Admit(db).waiting == db.running + db.waiting
  {
    hide CollectionOk, ListsCollections, Subsequence;
    var uid := db.waiting[0];
    AdmitKeepsLists(db);
    assert HeldOk(uid, db.collections[uid]);
    AdmittedIsHeld(uid, db.collections[uid]);
    assert db.waiting == [uid] + db.waiting[1..];
    assert Admit(db).running + Admit(db).waiting == db.running + db.waiting;
  }

  lemma AdmittedIsHeld(uid: string, c: Collection)
    requires HeldOk(uid, c) && c.bucket == WaitingBucket
    ensures HeldOk(uid, c.(status := CollectionRunning, bucket := RunningBucket))
  {
    HeaderDoesNotMatter(c, c.(status := CollectionRunning, bucket := RunningBucket));
  }

  lemma AdmitKeepsLists(db: Database)
    requires CollectionsOk(db) && ListsOk(db) && db.waiting != []
    ensures db.waiting[0] in db.collections && db.collections[db.waiting[0]].bucket == WaitingBucket
    ensures ListsOk(Admit(db))
  {
    hide CollectionOk, HeaderOk, NoDuplicates;
    var uid := db.waiting[0];
    assert uid in db.waiting;
    assert HeldOk(uid, db.collections[uid]);
    TailMembers(db.waiting);
    AppendMembers(db.running, uid);
  }

  /** A round, unrolled once. */
  lemma RoundOnce(db: Database, visits: nat -> Visit, at: nat, inQueue: nat)
    ensures
      var r := RoundFrom(db, visits, at, inQueue);
      if at >= |db.running| then
        if inQueue == 0 && db.waiting != [] && db.waiting[0] in db.collections then
          r == RoundResult(Admit(db), Some(db.waiting[0]), 0, false)
        else r == RoundResult(db, None, 0, false)
      else if db.running[at] in db.collections then
        var uid := db.running[at];
        var o := ProcessCollection(db.collections[uid], db.clock, db.starts, visits(at).cluster);
        var d := AfterVisit(db, uid, o, at == 0, visits(at).primaryDelay);
        if o.changed then r == RoundResult(d, Some(uid), |o.begun|, o.refused)
        else r == RoundFrom(d, visits, at + 1, inQueue + |o.coll.queued| + |o.coll.retry|)
      else r == RoundResult(db, None, 0, false)
  {
    hide ProcessCollection, AfterVisit, Admit;
  }

  lemma {:induction false} RoundFromKeeps(db: Database, visits: nat -> Visit, at: nat, inQueue: nat)
    requires DatabaseOk(db)
    ensures DatabaseOk(RoundFrom(db, visits, at, inQueue).db)
    decreases |db.running| - at
  {
    hide HeldOk, ProcessCollection, AfterVisit, Admit, InOrder;
    if at >= |db.running| {
      if db.waiting != [] {
        AdmitKeeps(db);
      }
    } else {
      var uid := db.running[at];
      assert uid in db.running;
      assert HeldOk(uid, db.collections[uid]);
      ProcessedIsHeld(uid, db.collections[uid], db.clock, db.starts, visits(at).cluster);
      var o := ProcessCollection(db.collections[uid], db.clock, db.starts, visits(at).cluster);
      VisitKeeps(db, uid, o, at == 0, visits(at).primaryDelay);
      var d := AfterVisit(db, uid, o, at == 0, visits(at).primaryDelay);
      if !o.changed {
        RoundFromKeeps(d, visits, at + 1, inQueue + |o.coll.queued| + |o.coll.retry|);
      }
    }
  }

  // ---- Settling ----

  /** Where MarkComplete stands after the first `n` running collections. */
  ghost predicate MarkedUpTo(db: Database, d: Database, n: nat)
    requires n <= |db.running|
  {
    && d.collections.Keys == db.collections.Keys
    && d.waiting == db.waiting && d.running == db.running && d.submitted == db.submitted
    && CollectionsOk(d)
    && ListsCollections(d, d.waiting, WaitingBucket)
    && ListsCollections(d, d.completed, CompletedBucket)
    && (forall u :: u in d.collections && u !in db.running[..n] ==> d.collections[u] == db.collections[u])
    && (forall u :: u in db.running[..n] ==>
          u in d.collections
          && if IsComplete(db.collections[u]) then d.collections[u].bucket == CompletedBucket
             else d.collections[u] == db.collections[u])
  }

  lemma CompletionIsHeader(uid: string, c: Collection, time: int)
    requires HeldOk(uid, c) && IsComplete(c)
    ensures HeldOk(uid, c.(bucket := CompletedBucket, status := CollectionComplete, endTime := Some(time)))
  {
    HeaderDoesNotMatter(c, c.(bucket := CompletedBucket, status := CollectionComplete, endTime := Some(time)));
  }

  lemma MarkOneComplete(d: Database, uid: string, delay: nat)
    requires CollectionsOk(d) && uid in d.collections
    requires ListsCollections(d, d.waiting, WaitingBucket) && ListsCollections(d, d.completed, CompletedBucket)
    requires d.collections[uid].bucket == RunningBucket
    ensures
      var d' := MarkIfComplete(d, uid, delay);
      && CollectionsOk(d')
      && ListsCollections(d', d'.waiting, WaitingBucket) && ListsCollections(d', d'.completed, CompletedBucket)
  {
    hide CollectionOk;
    assert HeldOk(uid, d.collections[uid]);
    if IsComplete(d.collections[uid]) {
      CompletionIsHeader(uid, d.collections[uid], Millis(d.clock + delay));
      AppendMembers(d.completed, uid);
    }
  }

  lemma MarkIfCompleteKeeps(db: Database, d: Database, n: nat, delay: nat)
    requires DatabaseOk(db) && n < |db.running| && MarkedUpTo(db, d, n)
    ensures MarkedUpTo(db, MarkIfComplete(d, db.running[n], delay), n + 1)
  {
    hide HeldOk, InOrder, IsComplete, MarkIfComplete, ListsCollections, CollectionsOk;
    var uid := db.running[n];
    assert db.running[..n + 1] == db.running[..n] + [uid];
    NotYetMarked(db, d, n);
    MarkOneComplete(d, uid, delay);
    OnlyOneIsMarked(d, uid, delay);
  }

  lemma NotYetMarked(db: Database, d: Database, n: nat)
    requires DatabaseOk(db) && n < |db.running| && MarkedUpTo(db, d, n)
    ensures
      var uid := db.running[n];
      && uid !in db.running[..n] && uid in d.collections && uid in db.collections
      && d.collections[uid] == db.collections[uid]
      && d.collections[uid].bucket == RunningBucket && d.collections[uid].uid == uid
  {
    hide InOrder, IsComplete, CollectionOk;
    var uid := db.running[n];
    assert uid in db.running;
    assert HeldOk(uid, d.collections[uid]);
  }

  lemma OnlyOneIsMarked(d: Database, uid: string, delay: nat)
    requires uid in d.collections && d.collections[uid].uid == uid
    ensures
      var d' := MarkIfComplete(d, uid, delay);
      && d'.collections.Keys == d.collections.Keys
      && d'.waiting == d.waiting && d'.running == d.running && d'.submitted == d.submitted
      && (forall u :: u in d.collections && u != uid ==> d'.collections[u] == d.collections[u])
      && if IsComplete(d.collections[uid]) then d'.collections[uid].bucket == CompletedBucket else d' == d
  {
    hide IsComplete;
  }

  lemma HeldHasUid(uid: string, c: Collection)
    requires HeldOk(uid, c)
    ensures c.uid == uid && IsUid(uid)
  {
  }

  lemma {:induction false} MarkCompleteKeeps(db: Database, endDelay: nat -> nat, n: nat)
    requires DatabaseOk(db) && n <= |db.running|
    ensures MarkedUpTo(db, MarkComplete(db, endDelay, n), n)
  {
    hide MarkIfComplete;
    if n > 0 {
      MarkCompleteKeeps(db, endDelay, n - 1);
      MarkIfCompleteKeeps(db, MarkComplete(db, endDelay, n - 1), n - 1, endDelay(n - 1));
    }
  }

  lemma {:induction false} FilterSubsequence(s: seq<string>, rest: seq<string>, long: seq<string>, keep: string -> bool)
    requires Subsequence(s + rest, long)
    requires forall u :: u in rest ==> keep(u)
    ensures Subsequence(Filter(s, keep) + rest, long)
  {
    SubsequenceFilter(s + rest, long, keep);
    FilterAppend(s, rest, keep);
    FilterAll(rest, keep);
  }

  lemma RunningAfterCompletion(db: Database, d: Database)
    requires DatabaseOk(db) && MarkedUpTo(db, d, |db.running|)
    ensures ListsCollections(d, StillRunningList(db), RunningBucket)
  {
    hide HeldOk, InOrder;
    assert db.running[..|db.running|] == db.running;
    var keep := uid => StillRunning(db, uid);
    FilterDistinct(db.running, keep);
    var still := StillRunningList(db);
    forall u
      ensures u in still <==> u in d.collections && d.collections[u].bucket == RunningBucket
    {
      assert u in still <==> u in db.running && StillRunning(db, u);
    }
  }

  /** After the completed collections have left, the lists partition the collections again. */
  lemma CompleteCollectionsKeeps(db: Database, endDelay: nat -> nat, cleanupDelay: nat)
    requires DatabaseOk(db)
    ensures DatabaseOk(CompleteCollections(db, endDelay, cleanupDelay))
  {
    hide HeldOk, MarkComplete, MarkedUpTo, DatabaseOk, ForgetOldStarts, StillRunningList;
    MarkCompleteKeeps(db, endDelay, |db.running|);
    var d := MarkComplete(db, endDelay, |db.running|);
    RunningAfterCompletion(db, d);
    OrderWithoutCompleted(db);
    RetireKeeps(db, d, StillRunningList(db));
    ForgettingKeeps(d.(running := StillRunningList(db)), cleanupDelay);
  }

  lemma RetireKeeps(db: Database, d: Database, still: seq<string>)
    requires MarkedUpTo(db, d, |db.running|)
    requires ListsCollections(d, still, RunningBucket) && Subsequence(still + db.waiting, db.submitted)
    ensures DatabaseOk(d.(running := still))
  {
    hide HeldOk;
  }

  lemma ForgettingKeeps(d: Database, delay: nat)
    requires DatabaseOk(d)
    ensures DatabaseOk(ForgetOldStarts(d, delay))
  {
    hide HeldOk;
  }

  lemma OrderWithoutCompleted(db: Database)
    requires DatabaseOk(db)
    ensures Subsequence(StillRunningList(db) + db.waiting, db.submitted)
  {
    var keep := uid => StillRunning(db, uid) || uid !in db.running;
    FilterSubsequence(db.running, db.waiting, db.submitted, keep);
    FilterSame(db.running, keep, uid => StillRunning(db, uid));
  }

  lemma {:induction false} FilterSame(s: seq<string>, keep: string -> bool, other: string -> bool)
    requires forall u :: u in s ==> keep(u) == other(u)
    ensures Filter(s, keep) == Filter(s, other)
  {
    if s != [] {
      var last := s[|s| - 1];
      assert last in s;
      FilterSame(s[..|s| - 1], keep, other);
    }
  }

  lemma {:induction false} WithoutNone(s: seq<string>)
    ensures Without(s, {}) == s
  {
    if s != [] {
      WithoutNone(s[..|s| - 1]);
    }
  }

  lemma CollectKeeps(db: Database, gone: set<string>)
    requires DatabaseOk(db)
    ensures DatabaseOk(Collect(db, gone))
  {
    var g := gone * db.collections.Keys;
    var keep := uid => uid !in g;
    FilterDistinct(db.waiting, keep);
    FilterDistinct(db.running, keep);
    FilterDistinct(db.completed, keep);
    SubsequenceFilter(db.running + db.waiting, db.submitted, keep);
    FilterAppend(db.running, db.waiting, keep);
    var d := Collect(db, gone);
    forall u | u in d.collections
      ensures HeldOk(u, d.collections[u])
    {
      assert HeldOk(u, db.collections[u]);
    }
  }

  lemma SettleKeeps(db: Database, s: Settling)
    requires DatabaseOk(db)
    ensures DatabaseOk(Settle(db, s))
  {
    hide CompleteCollections, Collect, Resolve, DatabaseOk;
    CompleteCollectionsKeeps(db, s.endDelay, s.cleanupDelay);
    CollectKeeps(CompleteCollections(db, s.endDelay, s.cleanupDelay), s.gone);
    ResolveKeeps(Collect(CompleteCollections(db, s.endDelay, s.cleanupDelay), s.gone));
  }

  // ---- Submitting and clean-up tasks ----

  lemma EnlistKeepsLists(db: Database, c: Collection, now: int, marks: seq<Mark>)
    requires ListsOk(db) && c.uid !in db.collections && c.bucket == WaitingBucket
    ensures ListsOk(Enlist(db, c, now, marks))
  {
    hide PutAll;
    AppendMembers(db.waiting, c.uid);
  }

  lemma EnlistKeeps(db: Database, c: Collection, now: int, marks: seq<Mark>)
    requires DatabaseOk(db) && c.uid !in db.collections
    requires HeldOk(c.uid, c) && c.bucket == WaitingBucket
    ensures DatabaseOk(Enlist(db, c, now, marks))
  {
    hide CollectionOk, Subsequence, PutAll;
    AppendMembers(db.waiting, c.uid);
    SubsequenceExtend(db.running + db.waiting, db.submitted, c.uid);
    assert db.running + (db.waiting + [c.uid]) == (db.running + db.waiting) + [c.uid];
    var d := Enlist(db, c, now, marks);
    assert d.running + d.waiting == (db.running + db.waiting) + [c.uid];
    EnlistKeepsLists(db, c, now, marks);
    forall u | u in d.collections
      ensures HeldOk(u, d.collections[u])
    {
      if u != c.uid {
        CollectionIsHeld(db, u);
      }
    }
  }

  lemma SubmitKeeps(db: Database, kube: KubeTest, delay: nat)
    requires DatabaseOk(db) && IsUid(kube.uid)
    ensures DatabaseOk(Submit(db, kube, delay))
  {
    hide CollectionOk, CollectionsOk, ListsOk, InOrder, CreationMarks;
    if kube.uid !in db.collections {
      var now := db.clock + delay;
      NewCollectionOk(kube, now);
      NewCollectionHeader(kube, now, |kube.tests|);
      EnlistKeeps(db, WithTests(kube, now, |kube.tests|), now, CreationMarks(kube.uid, |kube.tests|));
      ResolveKeeps(Enlist(db, WithTests(kube, now, |kube.tests|), now, CreationMarks(kube.uid, |kube.tests|)));
    }
  }

  lemma ResolveKeeps(db: Database)
    requires DatabaseOk(db)
    ensures DatabaseOk(Resolve(db))
  {
  }

  lemma {:induction false} NewCollectionHeader(kube: KubeTest, clock: int, n: nat)
    requires n <= |kube.tests|
    ensures
      var c := WithTests(kube, clock, n);
      && c.uid == kube.uid && c.bucket == WaitingBucket && c.status == CollectionWaiting && c.endTime.None?
      && c.startTime.None?
  {
    if n > 0 {
      NewCollectionHeader(kube, clock, n - 1);
    }
  }

  /** Replacing a collection by one in the same bucket. */
  lemma ReplaceKeeps(db: Database, uid: string, c: Collection, clock: int, dirty: map<string, Mark>)
    requires DatabaseOk(db) && uid in db.collections
    requires HeldOk(uid, c) && c.bucket == db.collections[uid].bucket
    ensures DatabaseOk(db.(collections := db.collections[uid := c], clock := clock, dirty := dirty))
  {
    hide HeldOk;
  }

  lemma ClockKeeps(db: Database, clock: int)
    requires DatabaseOk(db)
    ensures DatabaseOk(db.(clock := clock))
  {
    hide HeldOk;
  }

  lemma SweptIsHeld(uid: string, c: Collection, id: int)
    requires HeldOk(uid, c) && id in c.entries
    ensures HeldOk(uid, WithEntry(c, id, c.entries[id].(cluster := None)))
  {
    ForgettingTheJobKeeps(c, id);
  }

  lemma SweepJobKeeps(db: Database, job: Job)
    requires DatabaseOk(db)
    ensures DatabaseOk(SweepJob(db, job))
  {
    hide HeldOk, CollectionsOk, ListsOk, InOrder;
    if job.collection.Some? && job.entry.Some? {
      var uid, id := job.collection.value, job.entry.value;
      if uid in db.collections && id in db.collections[uid].entries {
        var now := db.clock + job.delay;
        CollectionIsHeld(db, uid);
        SweptIsHeld(uid, db.collections[uid], id);
        ReplaceKeeps(db, uid, WithEntry(db.collections[uid], id, db.collections[uid].entries[id].(cluster := None)),
                     now, Put(db.dirty, EntryShallow(uid, id)));
        ClockKeeps(db, now);
      }
    }
  }

  lemma CollectionIsHeld(db: Database, uid: string)
    requires CollectionsOk(db) && uid in db.collections
    ensures HeldOk(uid, db.collections[uid])
  {
  }

  lemma ForgettingTheJobKeeps(c: Collection, id: int)
    requires CollectionOk(c) && id in c.entries
    ensures CollectionOk(WithEntry(c, id, c.entries[id].(cluster := None)))
  {
    var c' := WithEntry(c, id, c.entries[id].(cluster := None));
    ForestKept(c, c');
    RetriedKept(c, c');
    assert Shape(c.entries[id]);
  }

  lemma {:induction false} SweepKeeps(db: Database, jobs: seq<Job>)
    requires DatabaseOk(db)
    ensures DatabaseOk(Sweep(db, jobs))
  {
    if jobs != [] {
      SweepKeeps(db, jobs[..|jobs| - 1]);
      SweepJobKeeps(Sweep(db, jobs[..|jobs| - 1]), jobs[|jobs| - 1]);
    }
  }

  lemma HeldParts(db: Database, uid: string)
    requires DatabaseOk(db) && uid in db.collections
    ensures HeldOk(uid, db.collections[uid])
    ensures CollectionOk(db.collections[uid]) && IsUid(uid) && db.collections[uid].uid == uid
    ensures uid in db.running <==> db.collections[uid].bucket == RunningBucket
  {
    hide CollectionOk, InOrder;
    CollectionIsHeld(db, uid);
  }

  lemma RunningIsHeld(db: Database, at: nat)
    requires DatabaseOk(db) && at < |db.running|
    ensures db.running[at] in db.collections && db.collections[db.running[at]].bucket == RunningBucket
  {
    hide HeldOk, InOrder;
    var uid := db.running[at];
    assert uid in db.running;
  }

  // ---- Every run ----

  lemma NextKeeps(db: Database, s: Step)
    requires DatabaseOk(db) && StepOk(s)
    ensures DatabaseOk(Next(db, s))
  {
    hide DatabaseOk, Submit, RoundFrom, Settle, Sweep, DropOldKeys;
    match s
    case Submitting(kube, delay) => SubmitKeeps(db, kube, delay);
    case Processing(visits) => RoundFromKeeps(db, visits, 0, 0);
    case Settlement(settling) => SettleKeeps(db, settling);
    case Sweeping(jobs) => SweepKeeps(db, jobs);
    case DroppingOldKeys => DropKeeps(db);
  }

  lemma DropKeeps(db: Database)
    requires DatabaseOk(db)
    ensures DatabaseOk(DropOldKeys(db))
  {
    hide HeldOk;
  }

  /** In every run, whatever the cluster answers: the lists partition the collections, every collection's
      entries are partitioned into bounded retry chains, and the order of submission is kept. */
  lemma {:induction false} EveryRunIsOk(steps: seq<Step>)
    requires StepsOk(steps)
    ensures DatabaseOk(Run(steps))
  {
    if steps != [] {
      EveryRunIsOk(steps[..|steps| - 1]);
      NextKeeps(Run(steps[..|steps| - 1]), steps[|steps| - 1]);
    }
  }
}
