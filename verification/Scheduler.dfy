/** Test collections and the database as the operator holds them: objects that share their entries between lists
    and a map, and that the methods change in place. */
module Scheduler {
  import opened Prelude
  import opened TestModel
  import opened CollectionSteps
  import opened CollectionInvariant
  import opened DatabaseSteps
  import opened Records
  import CollectionProofs
  import Coherence
  import DatabaseInvariant
  import Junit
  import Termination
  import WriteBack
  import opened FileStore
  import opened Keys

  /** The jobs that belong to a collection. */
  method GetKoupletJobs(jobs: seq<Job>, uid: string) returns (result: seq<Job>)
    ensures result == KoupletJobs(jobs, uid)
  {
    result := [];
    for i := 0 to |jobs|
      invariant result == Filter(jobs[..i], (job: Job) => IsKoupletJob(job, uid))
    {
      assert jobs[..i + 1][..i] == jobs[..i];
      if jobs[i].collection == Some(uid) && jobs[i].entry.Some? {
        result := result + [jobs[i]];
      }
    }
    assert jobs[..|jobs|] == jobs;
  }

  method CountUncompleted(jobs: seq<Job>) returns (existingJobs: nat)
    ensures existingJobs == Uncompleted(jobs)
  {
    existingJobs := 0;
    for i := 0 to |jobs|
      invariant existingJobs == Uncompleted(jobs[..i])
    {
      assert jobs[..i + 1][..i] == jobs[..i];
      if jobs[i].completionTime.None? {
        existingJobs := existingJobs + 1;
      }
    }
    assert jobs[..|jobs|] == jobs;
  }

  /** The position of the first entry that waits. */
  method FindWaiting(tests: seq<TestEntry>, ghost testEntries: map<int, TestEntry>) returns (at: nat)
    requires AllIn(tests, testEntries)
    ensures at == FirstWaiting(EntryViews(testEntries), Ids(tests))
    ensures at <= |tests|
  {
    at := 0;
    while at < |tests| && tests[at].status != EntryWaiting
      invariant at <= |tests|
      invariant forall i :: 0 <= i < at ==> tests[i].status != EntryWaiting
    {
      at := at + 1;
    }
    FirstIs(EntryViews(testEntries), Ids(tests), at);
  }

  lemma FirstIs(entries: map<int, Entry>, ids: seq<int>, at: nat)
    requires at <= |ids| && forall i :: 0 <= i < |ids| ==> ids[i] in entries
    requires forall i :: 0 <= i < at ==> entries[ids[i]].status != EntryWaiting
    requires at < |ids| ==> entries[ids[at]].status == EntryWaiting
    ensures FirstWaiting(entries, ids) == at
  {
    var f := FirstWaiting(entries, ids);
  }

  /** What came of an attempt to start a test. */
  datatype Tried = NoneLeft | NotCreated | Running

  /** An outcome after more has gone before. */
  function Preceded(o: Outcome, marks: seq<Mark>, begun: seq<Start>, changed: bool): Outcome {
    o.(marks := marks + o.marks, begun := begun + o.begun, changed := changed || o.changed)
  }

  lemma NothingBefore(o: Outcome)
    ensures Preceded(o, [], [], false) == o
  {
    assert [] + o.marks == o.marks && [] + o.begun == o.begun;
  }

  /** The loop of processWaitingTests, unrolled once. */
  lemma StartTestsOnce(c: Collection, clock: int, starts: seq<int>, budget: int, answers: nat -> Answer, attempt: nat,
                       marks: seq<Mark>, begun: seq<Start>, changed: bool)
    ensures
      var o := StartTests(c, clock, starts, budget, answers, attempt);
      var now := clock + answers(attempt).checkDelay;
      if budget <= 0 then o == Unchanged(c, clock)
      else if !CanStartMore(starts, now, c.kube) then o == Unchanged(c, now)
      else
        match TakeTurn(c, answers(attempt))
        case Nothing => o == Unchanged(c, now)
        case Refused(back) => o == Outcome(back, now, [], [], true, true)
        case Begun(c1, id) =>
          var time := now + answers(attempt).startDelay;
          var rest := StartTests(c1, time, starts + [time], budget - 1, answers, attempt + 1);
          Preceded(o, marks, begun, changed) ==
            Preceded(rest, marks + [AddStart(time), EntryShallow(c.uid, id)],
                     begun + [Start(time, Nodes(c.kube), PeriodSeconds(c.kube))], true)
  {
    hide TakeTurn, CanStartMore;
  }

  class TestCollection {
    const kubeObj: KubeTest
    const uuid: string
    var queuedTests: seq<TestEntry>
    var runningTests: seq<TestEntry>
    var completedTests: seq<TestEntry>
    var testsForRetry: seq<TestEntry>
    var testEntries: map<int, TestEntry>
    var nextTestEntryID: int
    var status: CollectionStatus
    var dateSubmitted: int
    var startTime: Option<int>
    var endTime: Option<int>
    var bucket: CollectionBucket

    constructor (kube: KubeTest, now: int)
      ensures Valid() && View() == EmptyCollection(kube, now) && testEntries == map[]
      ensures uuid == kube.uid && kubeObj == kube && nextTestEntryID == 0
    {
      kubeObj, uuid := kube, kube.uid;
      queuedTests, runningTests, completedTests, testsForRetry := [], [], [], [];
      testEntries, nextTestEntryID := map[], 0;
      status, bucket := CollectionWaiting, WaitingBucket;
      dateSubmitted, startTime, endTime := Millis(now), None, None;
    }

    /** A collection with the fields that were stored of it. */
    constructor Restored(kube: KubeTest, status: CollectionStatus, dateSubmitted: int, startTime: Option<int>,
                         endTime: Option<int>, nextTestEntryID: int, bucket: CollectionBucket)
      ensures Valid() && testEntries == map[] && uuid == kube.uid && this.bucket == bucket
      ensures View() == Collection(kube, [], [], [], [], map[], nextTestEntryID, kube.uid, status, dateSubmitted,
                                   startTime, endTime, bucket)
    {
      kubeObj, uuid := kube, kube.uid;
      queuedTests, runningTests, completedTests, testsForRetry, testEntries := [], [], [], [], map[];
      this.status, this.dateSubmitted, this.startTime, this.endTime := status, dateSubmitted, startTime, endTime;
      this.nextTestEntryID, this.bucket := nextTestEntryID, bucket;
    }

    /** The lists and the map share their entries, and each entry stands under its own id. */
    ghost predicate Valid()
      reads `testEntries, `queuedTests, `runningTests, `completedTests, `testsForRetry
    {
      && OwnIds(testEntries, this)
      && AllIn(queuedTests, testEntries) && AllIn(runningTests, testEntries)
      && AllIn(completedTests, testEntries) && AllIn(testsForRetry, testEntries)
    }

    ghost function View(): Collection
      reads this, testEntries.Values
    {
      Collection(kubeObj, Ids(queuedTests), Ids(runningTests), Ids(completedTests), Ids(testsForRetry),
                 EntryViews(testEntries), nextTestEntryID, uuid, status, dateSubmitted, startTime, endTime, bucket)
    }

    // ---- Finishing tests ----

    /** Retries point back to older entries that exist, so that the walk to the first attempt ends. */
    ghost predicate Chained()
      reads `testEntries
    {
      forall i :: i in testEntries && testEntries[i].retryFromID.Some? ==>
        0 <= testEntries[i].retryFromID.value < i && testEntries[i].retryFromID.value in testEntries
    }

    /** How many retries lie behind an entry. */
    method NumRetries(e: TestEntry) returns (numRetries: nat)
      requires Valid() && Chained() && e.id in testEntries && testEntries[e.id] == e
      ensures numRetries == Depth(EntryViews(testEntries), e.id)
    {
      numRetries := 0;
      var currEntry := e;
      while currEntry.retryFromID.Some?
        invariant currEntry.id in testEntries && testEntries[currEntry.id] == currEntry
        invariant numRetries + Depth(EntryViews(testEntries), currEntry.id) == Depth(EntryViews(testEntries), e.id)
        decreases currEntry.id
      {
        numRetries := numRetries + 1;
        currEntry := testEntries[currEntry.retryFromID.value];
      }
    }

    /** Take the entry with this id out of the running tests, if it is there. */
    method TakeFromRunning(id: int) returns (found: Option<TestEntry>)
      requires Valid()
      modifies this`runningTests
      ensures Valid()
      ensures
        var at := IndexOf(old(View()).running, id);
        && (found.None? <==> at == |old(View()).running|)
        && View() == (if found.None? then old(View()) else old(View()).(running := RemoveAt(old(View()).running, at)))
        && (found.Some? ==> found.value.id == id && id in testEntries && testEntries[id] == found.value)
    {
      var tests := runningTests;
      for i := 0 to |tests|
        invariant runningTests == tests
        invariant forall j :: 0 <= j < i ==> tests[j].id != id
      {
        if tests[i].id == id {
          IndexIs(Ids(tests), id, i);
          IdsRemoveAt(tests, i);
          assert tests[i] in tests;
          runningTests := RemoveAt(tests, i);
          return Some(tests[i]);
        }
      }
      found := None;
      assert id !in Ids(tests);
    }

    /** What an operation on the collection did, to the collection and to the database around it. */
    twostate predicate Effect(db: KoupletDB, o: Outcome, changed: bool)
      reads this, testEntries.Values, db, db.persistenceContext
    {
      && View() == o.coll
      && db.Advanced(o)
      && changed == o.changed
    }

    /** Entries come and go, but nothing that was made for another collection. */
    twostate predicate OwnEntries()
      reads this
    {
      forall e :: e in testEntries.Values ==> e in old(testEntries).Values || fresh(e)
    }

    /** The result of a finished test is recorded and the test joins the completed ones. */
    method RecordResult(e: TestEntry, result: TestResult, pc: PersistenceContext)
      requires Valid() && Chained() && e.id in testEntries && testEntries[e.id] == e
      modifies this`completedTests, e`result, e`bucket, pc`entryMap
      ensures Valid() && Chained()
      ensures View() == WithEntry(old(View()), e.id, e.View()).(completed := old(View()).completed + [e.id])
      ensures e.View() == old(e.View()).(result := Some(result), bucket := InCompleted)
      ensures pc.entryMap == PutAll(old(pc.entryMap), [EntryResult(uuid, e.id), EntryShallow(uuid, e.id)])
    {
      hide TestEntry.View, PutAll;
      e.MoveToCompleted(result);
      IdsOfOneMore(completedTests, e);
      completedTests := completedTests + [e];
      OneEntryChanged(old(EntryViews(testEntries)), testEntries, e, this);
      pc.PutTwo(EntryResult(uuid, e.id), EntryShallow(uuid, e.id));
    }

    method GetAndIncrementNextTestEntryID() returns (result: int)
      modifies this`nextTestEntryID
      ensures result == old(nextTestEntryID) && View() == old(View()).(nextId := result + 1)
      ensures nextTestEntryID == result + 1
    {
      result := nextTestEntryID;
      nextTestEntryID := nextTestEntryID + 1;
    }

    method AddToTestsForRetry(e: TestEntry)
      requires Valid() && Chained() && e.owner == this && e.id !in testEntries
      requires e.retryFromID.Some? ==> 0 <= e.retryFromID.value < e.id && e.retryFromID.value in testEntries
      modifies this`testsForRetry, this`testEntries
      ensures Valid() && Chained() && testEntries == old(testEntries)[e.id := e]
      ensures View() == WithEntry(old(View()), e.id, e.View()).(retry := old(View()).retry + [e.id])
    {
      hide TestEntry.View, Ids, EntryViews;
      OneEntryAdded(testEntries, e);
      testEntries := testEntries[e.id := e];
      IdsOfOneMore(testsForRetry, e);
      testsForRetry := testsForRetry + [e];
    }

    /** The entry with this id, if it is running, completes with its result. */
    method CompleteEntry(id: int, suite: Option<Totals>, log: Option<string>, xml: Option<string>, pc: PersistenceContext)
      returns (found: Option<TestEntry>)
      requires Valid() && Chained() && id in testEntries
      modifies this`runningTests, this`completedTests, testEntries.Values, pc`entryMap
      ensures Valid() && Chained() && testEntries[id].id == id
      ensures found == if id in old(View()).running then Some(testEntries[id]) else None
      ensures View() == if found.Some? then FinishedEntry(old(View()), id, DoneEntry(old(View()), id, suite, log, xml)) else old(View())
      ensures pc.entryMap ==
                if found.Some? then PutAll(old(pc.entryMap), [EntryResult(uuid, id), EntryShallow(uuid, id)])
                else old(pc.entryMap)
    {
      hide PutAll, View, TestEntry.View, Chained, ResultOf;
      Fields();
      found := TakeFromRunning(id);
      if found.None? {
        return;
      }
      var e := found.value;
      Fields();
      assert e.View() == old(View()).entries[id];
      var result := ResultOf(id, Entry(e.id, e.retryFromID, e.status, e.result, e.testEntry, e.clusterResource, e.processed, e.bucket), suite, log, xml);
      ViewIs(e);
      RecordResult(e, result, pc);
    }

    /** handleFinishedRunningTestJob */
    method HandleFinishedRunningTestJob(id: int, podLog: string, report: string, job: Job, suite: Option<Totals>,
                                        db: KoupletDB)
      returns (changed: bool)
      requires Valid() && Chained() && id in testEntries && 0 <= id < nextTestEntryID && nextTestEntryID !in testEntries
      modifies this, testEntries.Values, db.persistenceContext`entryMap
      ensures Valid() && Chained() && OwnEntries()
      ensures Effect(db, Finish(old(View()), old(db.clock), id, podLog, report, job, suite), changed)
    {
      hide PutAll, View, DoneEntry, Retries, Valid, Chained, Times, Finish, FinishedEntry;
      var log := if kubeObj.objectStorage && |podLog| > 0 then Some(job.podLogObject) else None;
      var xml := if kubeObj.objectStorage && |report| > 0 then Some(job.junitObject) else None;
      Fields();
      ghost var c := View();
      NothingPut(db);
      FinishIs(c, db.clock, id, podLog, report, job, suite);
      var found := CompleteEntry(id, suite, log, xml, db.persistenceContext);
      if found.None? {
        return false;
      }
      RetryIfFailed(found.value, suite, db);
      WriteBack.PutAllAppend(old(db.persistenceContext.entryMap), [EntryResult(uuid, id), EntryShallow(uuid, id)],
                             [EntryShallow(uuid, c.nextId), EntrySpec(uuid, c.nextId)]);
      changed := true;
    }

    /** A test that failed is retried while retries remain. */
    method RetryIfFailed(e: TestEntry, suite: Option<Totals>, db: KoupletDB)
      requires Valid() && Chained() && e.id in testEntries && testEntries[e.id] == e
      requires nextTestEntryID !in testEntries && 0 <= e.id < nextTestEntryID
      modifies this`testsForRetry, this`testEntries, this`nextTestEntryID, db.persistenceContext`entryMap
      ensures Valid() && Chained() && OwnEntries()
      ensures
        var c := old(View());
        if Retries(c, e.id, suite) then
          && View() == CollectionProofs.AddRetry(c, e.id)
          && db.persistenceContext.entryMap ==
               PutAll(old(db.persistenceContext.entryMap), [EntryShallow(uuid, c.nextId), EntrySpec(uuid, c.nextId)])
        else View() == c && db.persistenceContext.entryMap == old(db.persistenceContext.entryMap)
    {
      hide PutAll, View, Depth;
      Fields();
      var testSuccess := PassedTests(suite) > 0 && FailedTests(suite) == 0;
      if !testSuccess {
        var numRetries := NumRetries(e);
        if numRetries < FailureRetries(kubeObj) {
          AddRetry(e, db.persistenceContext);
        }
      }
    }

    method AddToQueuedTests(e: TestEntry)
      requires Valid() && e.owner == this && e.id !in testEntries
      modifies this`queuedTests, this`testEntries
      ensures Valid() && testEntries == old(testEntries)[e.id := e]
      ensures View() == WithEntry(old(View()), e.id, e.View()).(queued := old(View()).queued + [e.id])
    {
      hide TestEntry.View, Ids, EntryViews;
      OneEntryAdded(testEntries, e);
      IdsOfOneMore(queuedTests, e);
      queuedTests := queuedTests + [e];
      testEntries := testEntries[e.id := e];
    }

    /** A test of the specification gets its entry in the queue. */
    method QueueTest(test: TestSpec, pc: PersistenceContext)
      requires Valid() && nextTestEntryID !in testEntries
      modifies this`queuedTests, this`testEntries, this`nextTestEntryID, pc`entryMap
      ensures Valid() && OwnEntries()
      ensures
        var c, n := old(View()), old(nextTestEntryID);
        && View() == WithEntry(c, n, NewEntry(n, test)).(nextId := n + 1, queued := c.queued + [n])
        && nextTestEntryID == n + 1 && testEntries.Keys == old(testEntries).Keys + {n}
        && pc.entryMap == PutAll(old(pc.entryMap), [EntryShallow(uuid, n), EntrySpec(uuid, n)])
    {
      hide PutAll, View, TestEntry.View;
      var n := GetAndIncrementNextTestEntryID();
      var curr := new TestEntry(NewEntry(n, test), this);
      AddToQueuedTests(curr);
      pc.PutTwo(EntryShallow(uuid, n), EntrySpec(uuid, n));
    }

    /** Every test of the specification is queued, after the collection itself was recorded. */
    method QueueTests(pc: PersistenceContext, ghost now: int, ghost pending: map<string, Mark>)
      requires Valid() && View() == EmptyCollection(kubeObj, now) && testEntries == map[] && nextTestEntryID == 0
      requires pc.entryMap == PutAll(pending, CreationMarks(uuid, 0))
      modifies this`queuedTests, this`testEntries, this`nextTestEntryID, pc`entryMap
      ensures Valid() && fresh(testEntries.Values)
      ensures View() == WithTests(kubeObj, now, |kubeObj.tests|)
      ensures pc.entryMap == PutAll(pending, CreationMarks(uuid, |kubeObj.tests|))
    {
      hide PutAll, View, TestEntry.View, EmptyCollection, NewEntry, Valid;
      for i := 0 to |kubeObj.tests|
        invariant Valid() && fresh(testEntries.Values)
        invariant View() == WithTests(kubeObj, now, i)
        invariant nextTestEntryID == i && forall k :: k in testEntries <==> 0 <= k < i
        invariant pc.entryMap == PutAll(pending, CreationMarks(uuid, i))
      {
        WriteBack.PutAllAppend(pending, CreationMarks(uuid, i), [EntryShallow(uuid, i), EntrySpec(uuid, i)]);
        QueueTest(kubeObj.tests[i], pc);
      }
    }

    method AddEntry(te: TestEntry)
      requires Valid() && te.owner == this && te.id !in testEntries
      modifies this`testEntries
      ensures Valid() && testEntries == old(testEntries)[te.id := te]
      ensures View() == WithEntry(old(View()), te.id, te.View())
    {
      hide TestEntry.View, Ids, EntryViews;
      OneEntryAdded(testEntries, te);
      testEntries := testEntries[te.id := te];
    }

    method AppendToBucket(te: TestEntry)
      requires Valid() && te.id in testEntries && testEntries[te.id] == te
      modifies this`queuedTests, this`runningTests, this`testsForRetry, this`completedTests
      ensures Valid() && View() == InBucket(old(View()), te.id, te.bucket)
    {
      hide TestEntry.View, Ids, EntryViews, OwnIds;
      IdsOfOneMore(queuedTests, te);
      IdsOfOneMore(runningTests, te);
      IdsOfOneMore(testsForRetry, te);
      IdsOfOneMore(completedTests, te);
      match te.bucket {
        case InQueued => queuedTests := queuedTests + [te];
        case InRunning => runningTests := runningTests + [te];
        case InRetry => testsForRetry := testsForRetry + [te];
        case InCompleted => completedTests := completedTests + [te];
      }
    }

    /** addToTestEntriesForPersistence: an entry that was stored goes back to its bucket. */
    method AddToTestEntriesForPersistence(te: TestEntry)
      requires Valid() && te.owner == this && te.id !in testEntries
      modifies this`testEntries, this`queuedTests, this`runningTests, this`testsForRetry, this`completedTests
      ensures Valid() && testEntries == old(testEntries)[te.id := te]
      ensures View() == WithStored(old(View()), te.id, te.View())
    {
      hide TestEntry.View, View, Valid, InBucket;
      ViewIs(te);
      AddEntry(te);
      AppendToBucket(te);
    }

    method SetBuckets(queued: seq<TestEntry>, running: seq<TestEntry>, completed: seq<TestEntry>, retry: seq<TestEntry>)
      requires Valid() && AllIn(queued, testEntries) && AllIn(running, testEntries)
      requires AllIn(completed, testEntries) && AllIn(retry, testEntries)
      modifies this`queuedTests, this`runningTests, this`completedTests, this`testsForRetry
      ensures Valid()
      ensures View() == old(View()).(queued := Ids(queued), running := Ids(running), completed := Ids(completed), retry := Ids(retry))
    {
      hide AllIn, OwnIds, EntryViews, Ids;
      queuedTests, runningTests, completedTests, testsForRetry := queued, running, completed, retry;
    }

    method SetSpec(te: TestEntry, spec: TestSpec)
      requires Valid() && te.id in testEntries && testEntries[te.id] == te
      modifies te`testEntry
      ensures View() == WithEntry(old(View()), te.id, old(View()).entries[te.id].(spec := spec))
    {
      hide TestEntry.View;
      te.SetTestEntry(spec);
      OneEntryChanged(old(EntryViews(testEntries)), testEntries, te, this);
    }

    method SetResult(te: TestEntry, r: TestResult)
      requires Valid() && te.id in testEntries && testEntries[te.id] == te
      modifies te`result
      ensures View() == WithEntry(old(View()), te.id, old(View()).entries[te.id].(result := Some(r)))
    {
      hide TestEntry.View;
      te.SetResult(r);
      OneEntryChanged(old(EntryViews(testEntries)), testEntries, te, this);
    }

    // ---- Processing running jobs ----

    /** Ids are handed out in order, and the one to be handed out next is not in use. */
    ghost predicate Numbered()
      reads `testEntries, `nextTestEntryID
    {
      nextTestEntryID !in testEntries && forall i :: i in testEntries ==> 0 <= i < nextTestEntryID
    }

    lemma OkIsChained()
      requires Valid() && CollectionOk(View())
      ensures Chained() && Numbered()
    {
      var c := View();
      forall i | i in testEntries && testEntries[i].retryFromID.Some?
        ensures 0 <= testEntries[i].retryFromID.value < i && testEntries[i].retryFromID.value in testEntries
      {
        assert c.entries[i] == testEntries[i].View();
        assert Linked(c, i);
      }
      assert c.entries.Keys == testEntries.Keys;
    }

    /** A running test is marked complete or expired. */
    method MarkFinished(e: TestEntry, expired: bool, pc: PersistenceContext)
      requires Valid() && e.id in testEntries && testEntries[e.id] == e
      modifies e`processed, e`status, pc`entryMap
      ensures
        var status := if expired then EntryExpired else EntryComplete;
        View() == WithEntry(old(View()), e.id, old(View()).entries[e.id].(processed := true, status := status))
      ensures pc.entryMap == PutAll(old(pc.entryMap), [EntryShallow(uuid, e.id)])
    {
      hide TestEntry.View, PutAll;
      if expired {
        e.MarkAsExpiredAndPersist(uuid, pc);
      } else {
        e.MarkAsCompleteAndPersist(uuid, pc);
      }
      OneEntryChanged(old(EntryViews(testEntries)), testEntries, e, this);
    }

    /** The end of both ways in which a test finishes: it is marked, and then handled. */
    method FinishAs(id: int, expired: bool, podLog: string, report: string, job: Job, suite: Option<Totals>, db: KoupletDB)
      returns (changed: bool)
      requires Valid() && Chained() && Numbered() && id in testEntries
      modifies this, testEntries.Values, db.persistenceContext`entryMap
      ensures Valid() && Chained() && OwnEntries()
      ensures
        var c := old(View());
        var status := if expired then EntryExpired else EntryComplete;
        var c0 := WithEntry(c, id, c.entries[id].(processed := true, status := status));
        var o := Finish(c0, old(db.clock), id, podLog, report, job, suite);
        Effect(db, o.(marks := [EntryShallow(c.uid, id)] + o.marks), changed)
    {
      hide PutAll, View, Finish, Chained, Times;
      Fields();
      ghost var before, c := db.persistenceContext.entryMap, View();
      var e := testEntries[id];
      assert e.id == id;
      MarkFinished(e, expired, db.persistenceContext);
      ghost var o := Finish(View(), db.clock, id, podLog, report, job, suite);
      changed := HandleFinishedRunningTestJob(id, podLog, report, job, suite, db);
      WriteBack.PutAllAppend(before, [EntryShallow(uuid, id)], o.marks);
    }

    method ProcessCompletedJob(id: int, job: Job, ingest: string -> seq<Totals>, db: KoupletDB) returns (changed: bool)
      requires Valid() && Chained() && Numbered() && id in testEntries
      modifies this, testEntries.Values, db.persistenceContext`entryMap
      ensures Valid() && Chained() && OwnEntries()
      ensures Effect(db, CompleteJob(old(View()), old(db.clock), id, job, ingest), changed)
    {
      hide PutAll, View, Finish, Chained, Times, Junit.ExtractReport;
      Fields();
      NothingPut(db);
      var testEntry := testEntries[id];
      if testEntry.processed {
        return false;
      }
      var podLogs, junitXml := "", "";
      var testSuite: Option<Totals> := None;
      if job.podLog.Some? {
        podLogs := job.podLog.value;
        junitXml := Junit.FindReport(podLogs);
        var suites := ingest(junitXml);
        if |suites| == 1 {
          testSuite := Some(suites[0]);
        }
      }
      changed := FinishAs(id, false, podLogs, junitXml, job, testSuite, db);
    }

    /** Whether a job that started at `start` has run past its time. */
    method HasExpired(id: int, start: int, now: int) returns (expired: bool)
      requires id in testEntries
      ensures expired <==> now - start > ExpireSeconds(kubeObj, testEntries[id].View()) * NANOS_PER_SECOND
    {
      var expireTimeInSeconds := DEFAULT_EXPIRE_TIME_IN_SECONDS;
      if kubeObj.defaultTestExpireTime.Some? {
        expireTimeInSeconds := kubeObj.defaultTestExpireTime.value;
      }
      if testEntries[id].testEntry.timeout.Some? {
        expireTimeInSeconds := testEntries[id].testEntry.timeout.value;
      }
      expired := now - start > expireTimeInSeconds * NANOS_PER_SECOND;
    }

    /** One turn of the loop of processRunningJobs. */
    method ProcessRunningJob(job: Job, ingest: string -> seq<Totals>, db: KoupletDB) returns (changed: bool)
      requires Valid() && CollectionOk(View()) && job.entry.Some?
      modifies this, testEntries.Values, db`clock, db.persistenceContext`entryMap
      ensures Valid() && CollectionOk(View()) && OwnEntries()
      ensures Effect(db, HandleJob(old(View()), old(db.clock), job, ingest), changed)
    {
      hide PutAll, View, Finish, Chained, CompleteJob, CollectionOk, ExpireSeconds, TestEntry.View, Times;
      Fields();
      NothingPut(db);
      OkIsChained();
      CollectionProofs.HandleJobKeepsInvariant(View(), db.clock, job, ingest);
      var testEntryID := job.entry.value;
      if testEntryID !in testEntries {
        return false;
      }
      ViewIs(testEntries[testEntryID]);
      if testEntries[testEntryID].status != EntryRunning {
        return false;
      }
      if job.completionTime.Some? {
        changed := ProcessCompletedJob(testEntryID, job, ingest, db);
      } else if job.startTime.Some? {
        var now := db.Now(job.delay);
        var expired := HasExpired(testEntryID, job.startTime.value, now);
        if expired {
          changed := FinishAs(testEntryID, true, "", "", job, None, db);
        } else {
          changed := false;
        }
      } else {
        changed := false;
      }
    }

    method ProcessRunningJobs(jobs: seq<Job>, ingest: string -> seq<Totals>, db: KoupletDB) returns (stateChanged: bool)
      requires Valid() && CollectionOk(View())
      modifies this, testEntries.Values, db`clock, db.persistenceContext`entryMap
      ensures Valid() && CollectionOk(View()) && OwnEntries()
      ensures Effect(db, RunJobs(old(View()), old(db.clock), KoupletJobs(jobs, uuid), ingest), stateChanged)
    {
      hide PutAll, View, HandleJob, CollectionOk, Valid, Times;
      NothingPut(db);
      stateChanged := false;
      ghost var c, clock := View(), db.clock;
      ghost var pending := db.persistenceContext.entryMap;
      var mine := GetKoupletJobs(jobs, uuid);
      assert forall job :: job in mine ==> job.entry.Some?;
      for i := 0 to |mine|
        invariant Valid() && CollectionOk(View())
        invariant OwnEntries()
        invariant Effect(db, RunJobs(c, clock, mine[..i], ingest), stateChanged)
      {
        assert mine[i] in mine;
        ghost var before := RunJobs(c, clock, mine[..i], ingest);
        ghost var o := HandleJob(before.coll, before.clock, mine[i], ingest);
        assert mine[..i + 1][..i] == mine[..i];
        Termination.HandleJobNeverRefuses(before.coll, before.clock, mine[i], ingest);
        Termination.RunJobsNeverRefuses(c, clock, mine[..i], ingest);
        WriteBack.PutAllAppend(pending, before.marks, o.marks);
        NothingPut(db);
        var changed := ProcessRunningJob(mine[i], ingest, db);
        stateChanged := stateChanged || changed;
      }
      assert mine[..|mine|] == mine;
    }

    // ---- Starting waiting tests ----

    /** The first waiting test, taken out of its list: of the queued ones, or else of the retries. */
    method TakeWaiting() returns (toRun: Option<TestEntry>, fromQueuedTests: bool)
      requires Valid()
      modifies this`queuedTests, this`testsForRetry
      ensures Valid()
      ensures
        var c, pick := old(View()), PickFirst(old(View()));
        if pick.None? then toRun.None? && View() == c
        else
          && toRun.Some? && fromQueuedTests == pick.value.0
          && toRun.value.id == Picked(c).0 && View() == Picked(c).1
          && toRun.value.id in testEntries && testEntries[toRun.value.id] == toRun.value
    {
      hide FirstWaiting, EntryViews;
      toRun, fromQueuedTests := None, false;
      var at := FindWaiting(queuedTests, testEntries);
      if at < |queuedTests| {
        toRun, fromQueuedTests := Some(queuedTests[at]), true;
        assert queuedTests[at] in queuedTests;
        IdsRemoveAt(queuedTests, at);
        queuedTests := RemoveAt(queuedTests, at);
        return;
      }
      at := FindWaiting(testsForRetry, testEntries);
      if at < |testsForRetry| {
        toRun := Some(testsForRetry[at]);
        assert testsForRetry[at] in testsForRetry;
        IdsRemoveAt(testsForRetry, at);
        testsForRetry := RemoveAt(testsForRetry, at);
      }
    }

    /** Whether the job of a test was created. */
    method CreateJob(answer: Answer) returns (ok: bool)
      ensures ok <==> Accepted(answer, uuid)
    {
      ok := answer.instance.Some?;
      if ok {
        ok := answer.instance.value == uuid;
      }
      if ok {
        ok := answer.referenced;
      }
      if ok {
        ok := answer.created;
      }
    }

    /** A test whose job could not be created goes to the end of the list it came from. */
    method PutBack(toRun: TestEntry, fromQueuedTests: bool)
      requires Valid() && toRun.id in testEntries && testEntries[toRun.id] == toRun
      modifies this`queuedTests, this`testsForRetry
      ensures Valid()
      ensures View() == if fromQueuedTests then old(View()).(queued := old(View()).queued + [toRun.id])
                        else old(View()).(retry := old(View()).retry + [toRun.id])
    {
      hide EntryViews, OwnIds;
      IdsOfOneMore(queuedTests, toRun);
      IdsOfOneMore(testsForRetry, toRun);
      if fromQueuedTests {
        queuedTests := queuedTests + [toRun];
      } else {
        testsForRetry := testsForRetry + [toRun];
      }
    }

    /** A test whose job was created is running from now on, and its start is remembered. */
    method BeginTest(toRun: TestEntry, answer: Answer, db: KoupletDB)
      requires Valid() && toRun.id in testEntries && testEntries[toRun.id] == toRun
      modifies this`runningTests, toRun, db`clock, db`testStartTimes, db`history, db.persistenceContext`entryMap
      ensures Valid()
      ensures
        var c := old(View());
        View() == WithEntry(c, toRun.id, Started(c.entries[toRun.id], answer)).(running := c.running + [toRun.id])
      ensures db.Began(kubeObj, answer.startDelay, [EntryShallow(uuid, toRun.id)])
    {
      hide PutAll, TestEntry.View, EntryViews, Ids;
      toRun.SetClusterResource(ClusterResource(answer.jobNamespace, answer.jobName));
      db.AddTestStartTimeAndPersist(answer.startDelay, Nodes(kubeObj), PeriodSeconds(kubeObj));
      IdsOfOneMore(runningTests, toRun);
      runningTests := runningTests + [toRun];
      toRun.MarkAsRunningAndPersist(uuid, db.persistenceContext);
      OneEntryChanged(old(EntryViews(testEntries)), testEntries, toRun, this);
      WriteBack.PutAllAppend(old(db.persistenceContext.entryMap), [AddStart(db.clock)], [EntryShallow(uuid, toRun.id)]);
    }

    /** One attempt to start a test. */
    method StartNext(answer: Answer, db: KoupletDB) returns (tried: Tried)
      requires Valid()
      modifies this`queuedTests, this`testsForRetry, this`runningTests, testEntries.Values
      modifies db`clock, db`testStartTimes, db`history, db.persistenceContext`entryMap
      ensures Valid()
      ensures
        match TakeTurn(old(View()), answer)
        case Nothing => tried == NoneLeft && View() == old(View()) && db.Untouched()
        case Refused(c) => tried == NotCreated && View() == c && db.Untouched()
        case Begun(c, id) => tried == Running && View() == c && db.Began(kubeObj, answer.startDelay, [EntryShallow(uuid, id)])
    {
      hide PutAll, View, TestEntry.View, PickFirst, EntryViews, Ids;
      Fields();
      var toRun, fromQueuedTests := TakeWaiting();
      if toRun.None? {
        return NoneLeft;
      }
      Fields();
      var created := CreateJob(answer);
      if !created {
        PutBack(toRun.value, fromQueuedTests);
        return NotCreated;
      }
      BeginTest(toRun.value, answer, db);
      tried := Running;
    }

    method ProcessWaitingTests(jobs: seq<Job>, answers: nat -> Answer, db: KoupletDB) returns (stateChanged: bool)
      requires Valid()
      modifies this`queuedTests, this`testsForRetry, this`runningTests, testEntries.Values
      modifies db`clock, db`testStartTimes, db`history, db.persistenceContext`entryMap
      ensures Valid()
      ensures Effect(db, RunWaiting(old(View()), old(db.clock), old(db.testStartTimes), jobs, answers), stateChanged)
    {
      hide PutAll, View, KoupletJobs, Uncompleted, StartTests, Valid, CountAfter, TakeTurn;
      Fields();
      var numberOfNodes := Nodes(kubeObj);
      var testsToRun := GetOr(kubeObj.maxActiveTests, DEFAULT_TESTS_TO_RUN);
      var mine := GetKoupletJobs(jobs, uuid);
      var existingJobs := CountUncompleted(mine);
      stateChanged := StartUpTo(testsToRun * numberOfNodes - existingJobs, answers, db);
    }

    /** The loop of processWaitingTests. */
    method StartUpTo(budget: int, answers: nat -> Answer, db: KoupletDB) returns (stateChanged: bool)
      requires Valid()
      modifies this`queuedTests, this`testsForRetry, this`runningTests, testEntries.Values
      modifies db`clock, db`testStartTimes, db`history, db.persistenceContext`entryMap
      ensures Valid()
      ensures Effect(db, StartTests(old(View()), old(db.clock), old(db.testStartTimes), budget, answers, 0), stateChanged)
    {
      hide PutAll, View, StartTests, Valid, CountAfter, TakeTurn, Times;
      var testsToRunTotal, attempt := budget, 0;
      ghost var total := StartTests(View(), db.clock, db.testStartTimes, budget, answers, 0);
      ghost var marks, begun := [], [];
      stateChanged := false;
      NothingPut(db);
      Fields();
      NothingBefore(total);
      while testsToRunTotal > 0
        invariant Valid() && View().kube == kubeObj && View().uid == uuid
        invariant marks + [] == marks && begun + [] == begun
        invariant total == Preceded(StartTests(View(), db.clock, db.testStartTimes, testsToRunTotal, answers, attempt), marks, begun, stateChanged)
        invariant db.Recorded(marks, begun)
      {
        StartTestsOnce(View(), db.clock, db.testStartTimes, testsToRunTotal, answers, attempt, marks, begun, stateChanged);
        var can := db.CanWeRunMoreTests(Nodes(kubeObj), PeriodSeconds(kubeObj), answers(attempt).checkDelay);
        if !can {
          return;
        }
        ghost var c := View();
        var tried := StartNext(answers(attempt), db);
        if tried == NoneLeft {
          return;
        }
        if tried == NotCreated {
          return true;
        }
        Fields();
        ghost var id := TakeTurn(c, answers(attempt)).id;
        ghost var more, start := [AddStart(db.clock), EntryShallow(uuid, id)], [Start(db.clock, Nodes(kubeObj), PeriodSeconds(kubeObj))];
        assert [AddStart(db.clock)] + [EntryShallow(uuid, id)] == more;
        WriteBack.PutAllAppend(old(db.persistenceContext.entryMap), marks, more);
        TimesSnoc(begun, start[0]);
        Regroup(old(db.testStartTimes), Times(begun), [db.clock]);
        Regroup(old(db.history), begun, start);
        marks, begun, stateChanged := marks + more, begun + start, true;
        testsToRunTotal, attempt := testsToRunTotal - 1, attempt + 1;
      }
      StartTestsOnce(View(), db.clock, db.testStartTimes, testsToRunTotal, answers, attempt, marks, begun, stateChanged);
    }

    /** TestCollection.process */
    method Process(cluster: Cluster, db: KoupletDB) returns (stateChanged: bool)
      requires Valid() && CollectionOk(View())
      modifies this, testEntries.Values
      modifies db`clock, db`testStartTimes, db`history, db.persistenceContext`entryMap
      ensures Valid() && OwnEntries()
      ensures Effect(db, ProcessCollection(old(View()), old(db.clock), old(db.testStartTimes), cluster), stateChanged)
    {
      hide PutAll, View, RunJobs, RunWaiting, KoupletJobs, Valid, CollectionOk, Times;
      Fields();
      NothingPut(db);
      if cluster.ListFailed? {
        return false;
      }
      ghost var finished := RunJobs(View(), db.clock, KoupletJobs(cluster.jobs, uuid), cluster.ingest);
      Termination.RunJobsNeverRefuses(View(), db.clock, KoupletJobs(cluster.jobs, uuid), cluster.ingest);
      stateChanged := ProcessRunningJobs(cluster.jobs, cluster.ingest, db);
      if !stateChanged {
        ghost var o := RunWaiting(View(), db.clock, db.testStartTimes, cluster.jobs, cluster.answers);
        WriteBack.PutAllAppend(old(db.persistenceContext.entryMap), finished.marks, o.marks);
        NothingPut(db);
        stateChanged := ProcessWaitingTests(cluster.jobs, cluster.answers, db);
      }
    }

    /** isComplete */
    predicate HasNothingLeft()
      reads this
    {
      |queuedTests| == 0 && |runningTests| == 0 && |testsForRetry| == 0
    }

    lemma HasNothingLeftIs()
      ensures HasNothingLeft() <==> IsComplete(View())
    {
    }

    /** The job of a finished test has been deleted. */
    method ForgetJob(te: TestEntry, pc: PersistenceContext)
      requires Valid() && te.id in testEntries && testEntries[te.id] == te
      modifies te`clusterResource, pc`entryMap
      ensures View() == WithEntry(old(View()), te.id, old(View()).entries[te.id].(cluster := None))
      ensures pc.entryMap == PutAll(old(pc.entryMap), [EntryShallow(uuid, te.id)])
    {
      hide TestEntry.View, PutAll;
      te.ForgetJob(uuid, pc);
      OneEntryChanged(old(EntryViews(testEntries)), testEntries, te, this);
    }

    // ---- Header changes ----

    method MarkAsPrimary(now: int)
      modifies this`startTime
      ensures View() == old(View()).(startTime := Some(Millis(now)))
    {
      startTime := Some(Millis(now));
    }

    method MarkAsRunning()
      modifies this`status, this`bucket
      ensures View() == old(View()).(status := CollectionRunning, bucket := RunningBucket)
    {
      status, bucket := CollectionRunning, RunningBucket;
    }

    method MarkAsComplete(now: int)
      modifies this`status, this`bucket, this`endTime
      ensures View() == old(View()).(bucket := CompletedBucket, status := CollectionComplete, endTime := Some(Millis(now)))
    {
      bucket, status := CompletedBucket, CollectionComplete;
      endTime := Some(Millis(now));
    }

    lemma NothingPut(db: KoupletDB)
      ensures db.testStartTimes + Times([]) == db.testStartTimes
      ensures db.history + [] == db.history
      ensures PutAll(db.persistenceContext.entryMap, []) == db.persistenceContext.entryMap
    {
    }

    lemma Fields()
      ensures View().entries == EntryViews(testEntries)
      ensures View().nextId == nextTestEntryID && View().kube == kubeObj && View().uid == uuid
      ensures View().queued == Ids(queuedTests) && View().retry == Ids(testsForRetry)
      ensures View().running == Ids(runningTests) && View().completed == Ids(completedTests)
    {
    }

    /** A failed test gets a new entry, to be started again. */
    method AddRetry(e: TestEntry, pc: PersistenceContext)
      requires Valid() && Chained() && e.id in testEntries && testEntries[e.id] == e
      requires nextTestEntryID !in testEntries && 0 <= e.id < nextTestEntryID
      modifies this`testsForRetry, this`testEntries, this`nextTestEntryID, pc`entryMap
      ensures Valid() && Chained() && OwnEntries()
      ensures View() == CollectionProofs.AddRetry(old(View()), e.id)
      ensures
        var n := old(nextTestEntryID);
        pc.entryMap == PutAll(old(pc.entryMap), [EntryShallow(uuid, n), EntrySpec(uuid, n)])
    {
      hide PutAll, View, TestEntry.View, Chained;
      ghost var c := View();
      assert c.entries[e.id] == e.View() && c.nextId == nextTestEntryID by {
        Fields();
      }
      assert e.View().spec == e.testEntry by {
        ViewIs(e);
      }
      var n := GetAndIncrementNextTestEntryID();
      var again := new TestEntry(Entry(n, Some(e.id), EntryWaiting, None, e.testEntry, None, false, InRetry), this);
      AddToTestsForRetry(again);
      pc.PutTwo(EntryShallow(uuid, n), EntrySpec(uuid, n));
    }
  }

  /** A collection with a stored entry put back into its bucket. */
  function WithStored(c: Collection, id: int, e: Entry): Collection {
    InBucket(WithEntry(c, id, e), id, e.bucket)
  }

  function InBucket(c: Collection, id: int, bucket: EntryBucket): Collection {
    match bucket
    case InQueued => c.(queued := c.queued + [id])
    case InRunning => c.(running := c.running + [id])
    case InRetry => c.(retry := c.retry + [id])
    case InCompleted => c.(completed := c.completed + [id])
  }

  /** The test that a turn of the loop of processWaitingTests tries to start, and the collection without it. */
  function Picked(c: Collection): (int, Collection)
    requires PickFirst(c).Some?
  {
    var (fromQueued, at) := PickFirst(c).value;
    if fromQueued then (c.queued[at], c.(queued := RemoveAt(c.queued, at)))
    else (c.retry[at], c.(retry := RemoveAt(c.retry, at)))
  }

  ghost predicate Retries(c: Collection, id: int, suite: Option<Totals>) {
    !SuiteSuccess(suite) && Depth(c.entries, id) < FailureRetries(c.kube)
  }

  ghost function FinishedEntry(c: Collection, id: int, done: Entry): Collection
  {
    var at := IndexOf(c.running, id);
    if at < |c.running| then
      WithEntry(c, id, done).(running := RemoveAt(c.running, at), completed := c.completed + [id])
    else c
  }

  ghost function DoneEntry(c: Collection, id: int, suite: Option<Totals>, log: Option<string>, xml: Option<string>): Entry
    requires id in c.entries
  {
    c.entries[id].(result := Some(ResultOf(id, c.entries[id], suite, log, xml)), bucket := InCompleted)
  }

  /** What finishing a test comes to, in two parts. */
  lemma FinishIs(c: Collection, clock: int, id: int, podLog: string, report: string, job: Job, suite: Option<Totals>)
    requires id in c.entries
    ensures
      var log := if c.kube.objectStorage && |podLog| > 0 then Some(job.podLogObject) else None;
      var xml := if c.kube.objectStorage && |report| > 0 then Some(job.junitObject) else None;
      var c1 := FinishedEntry(c, id, DoneEntry(c, id, suite, log, xml));
      var marks := [EntryResult(c.uid, id), EntryShallow(c.uid, id)];
      Finish(c, clock, id, podLog, report, job, suite) ==
        if id !in c.running then Unchanged(c, clock)
        else if Retries(c1, id, suite) then
          Outcome(CollectionProofs.AddRetry(c1, id), clock,
                  marks + [EntryShallow(c.uid, c.nextId), EntrySpec(c.uid, c.nextId)], [], true, false)
        else Outcome(c1, clock, marks, [], true, false)
    ensures
      forall done {:trigger FinishedEntry(c, id, done)} ::
        var c1 := FinishedEntry(c, id, done);
        c1.nextId == c.nextId && c1.uid == c.uid && c1.kube == c.kube && c1.entries.Keys == c.entries.Keys
  {
    hide ResultOf, Depth;
  }

  lemma ViewIs(e: TestEntry)
    ensures e.View() == Entry(e.id, e.retryFromID, e.status, e.result, e.testEntry, e.clusterResource, e.processed, e.bucket)
  {
  }

  class KoupletDB {
    var waitingCollections: seq<TestCollection>
    var runningCollections: seq<TestCollection>
    var completedCollections: seq<TestCollection>
    var collections: map<string, TestCollection>
    const persistenceContext: PersistenceContext
    var testStartTimes: seq<int>
    /** The time as it was last read. */
    var clock: int
    ghost var history: seq<Start>
    ghost var submitted: seq<string>

    constructor (pc: PersistenceContext)
      ensures persistenceContext == pc && collections == map[] && testStartTimes == []
      ensures waitingCollections == [] && runningCollections == [] && completedCollections == []
    {
      persistenceContext := pc;
      waitingCollections, runningCollections, completedCollections, collections := [], [], [], map[];
      testStartTimes, clock, history, submitted := [], 0, [], [];
    }

    /** The lists and the map share their collections, and each collection stands under its own UID. */
    ghost predicate Valid()
      reads `waitingCollections, `runningCollections, `completedCollections, `collections, collections.Values
    {
      && OwnUuids(collections)
      && (forall u {:trigger collections[u]} :: u in collections ==> collections[u].Valid())
      && AllHeld(waitingCollections, collections) && AllHeld(runningCollections, collections)
      && AllHeld(completedCollections, collections)
    }

    /** Everything the database consists of. */
    ghost function Parts(): set<object>
      reads this, collections.Values
    {
      {this, persistenceContext, persistenceContext.store} + collections.Values + EntriesOf(collections)
    }

    ghost function View(): Database
      requires Clean(persistenceContext.store.files)
      reads this, persistenceContext, persistenceContext.store, collections.Values, EntriesOf(collections)
    {
      Database(CollectionViews(collections), Uuids(waitingCollections), Uuids(runningCollections),
               Uuids(completedCollections), testStartTimes, clock, persistenceContext.entryMap,
               Contents(persistenceContext.store.files), history, submitted)
    }

    lemma OthersAreApart(c: TestCollection)
      requires Valid() && c.uuid in collections && collections[c.uuid] == c
      ensures forall u {:trigger collections[u]} :: u in collections && collections[u] != c ==>
                collections[u].testEntries.Values !! c.testEntries.Values
    {
      forall u | u in collections && collections[u] != c
        ensures collections[u].testEntries.Values !! c.testEntries.Values
      {
        assert collections[u].Valid() && collections[c.uuid].Valid();
        assert forall e :: e in collections[u].testEntries.Values ==> e.owner == collections[u];
        assert forall e :: e in c.testEntries.Values ==> e.owner == c;
      }
    }

    method ProcessOne(c: TestCollection, cluster: Cluster) returns (changed: bool)
      requires Valid() && c.uuid in collections && collections[c.uuid] == c && CollectionOk(c.View())
      modifies this`clock, this`testStartTimes, this`history, persistenceContext`entryMap, c, c.testEntries.Values
      ensures Valid() && c.OwnEntries()
      ensures
        var o := ProcessCollection(old(c.View()), old(clock), old(testStartTimes), cluster);
        && CollectionViews(collections) == old(CollectionViews(collections))[c.uuid := o.coll]
        && Advanced(o) && changed == o.changed
    {
      hide PutAll, ProcessCollection, TestCollection.View, TestCollection.Valid, CollectionOk, Times, AllHeld,
        CollectionViews, EntriesOf, TestCollection.OwnEntries, IsKoupletJob, CanStartMore;
      OthersAreApart(c);
      ghost var before := CollectionViews(collections);
      changed := c.Process(cluster, this);
      forall u | u in collections && collections[u] != c
        ensures collections[u].View() == before[u] && collections[u].Valid()
      {
      }
      OneCollectionChanged(before, collections, c);
    }

    /** One running collection is processed. */
    method Visit(c: TestCollection, cluster: Cluster) returns (changed: bool)
      requires Valid() && Clean(persistenceContext.store.files)
      requires c.uuid in collections && collections[c.uuid] == c && CollectionOk(c.View())
      modifies this`clock, this`testStartTimes, this`history, persistenceContext`entryMap, c, c.testEntries.Values
      ensures Valid() && Clean(persistenceContext.store.files) && c.OwnEntries()
      ensures
        var o := ProcessCollection(old(c.View()), old(clock), old(testStartTimes), cluster);
        View() == Absorb(old(View()), c.uuid, o) && changed == o.changed
    {
      hide PutAll, ProcessCollection, TestCollection.View, Valid, CollectionOk, Times, Contents, CollectionViews,
        EntriesOf;
      changed := ProcessOne(c, cluster);
    }

    /** A collection's own fields have changed to `h`, and that is recorded. */
    twostate predicate HeaderChanged(c: TestCollection, h: Collection)
      requires c.uuid in old(collections)
      reads this, persistenceContext, collections.Values, EntriesOf(collections)
    {
      && CollectionViews(collections) == old(CollectionViews(collections))[c.uuid := h]
      && persistenceContext.entryMap == Put(old(persistenceContext.entryMap), CollectionShallow(c.uuid))
    }

    method RecordHeader(c: TestCollection)
      modifies persistenceContext`entryMap
      ensures persistenceContext.entryMap == Put(old(persistenceContext.entryMap), CollectionShallow(c.uuid))
    {
      persistenceContext.PutEntry(CollectionShallow(c.uuid));
      assert [CollectionShallow(c.uuid)][..0] == [];
    }

    method SetPrimary(c: TestCollection, delay: nat)
      requires Valid() && c.uuid in collections && collections[c.uuid] == c
      modifies this`clock, c`startTime, persistenceContext`entryMap
      ensures Valid() && HeaderChanged(c, old(c.View()).(startTime := Some(Millis(clock))))
      ensures clock == old(clock) + delay
    {
      hide Put, CollectionViews, EntriesOf, TestCollection.View, TestCollection.Valid, AllHeld;
      ghost var before, v := CollectionViews(collections), c.View();
      var startTime := Now(delay);
      RecordHeader(c);
      assert c.View() == v;
      c.MarkAsPrimary(startTime);
      forall u | u in collections && collections[u] != c
        ensures collections[u].View() == before[u] && collections[u].Valid()
      {
      }
      OneCollectionChanged(before, collections, c);
      assert persistenceContext.entryMap == Put(old(persistenceContext.entryMap), CollectionShallow(c.uuid));
    }

    method MarkAsPrimary(c: TestCollection, delay: nat)
      requires Valid() && Clean(persistenceContext.store.files) && c.uuid in collections && collections[c.uuid] == c
      requires c.startTime.None?
      modifies this`clock, c`startTime, persistenceContext`entryMap
      ensures Valid() && Clean(persistenceContext.store.files)
      ensures View() == MarkPrimary(old(View()), c.uuid, delay)
    {
      hide Put, Contents, CollectionViews, EntriesOf, TestCollection.View, Valid, View, AllHeld, MarkPrimary, Uuids;
      HeaderIs(c);
      ViewParts();
      MarkPrimaryIs(View(), c.uuid, delay);
      SetPrimary(c, delay);
      ViewParts();
    }

    lemma MarkPrimaryIs(db: Database, uid: string, delay: nat)
      requires uid in db.collections && db.collections[uid].startTime.None? && db.collections[uid].uid == uid
      ensures MarkPrimary(db, uid, delay) == Database(
        db.collections[uid := db.collections[uid].(startTime := Some(Millis(db.clock + delay)))],
        db.waiting, db.running, db.completed, db.starts, db.clock + delay, Put(db.dirty, CollectionShallow(uid)),
        db.store, db.history, db.submitted)
    {
    }

    method SetRunning(c: TestCollection)
      requires Valid() && c.uuid in collections && collections[c.uuid] == c
      modifies c`status, c`bucket, persistenceContext`entryMap
      ensures Valid() && HeaderChanged(c, old(c.View()).(status := CollectionRunning, bucket := RunningBucket))
    {
      hide Put, CollectionViews, EntriesOf, TestCollection.View, TestCollection.Valid, AllHeld;
      ghost var before := CollectionViews(collections);
      RecordHeader(c);
      c.MarkAsRunning();
      forall u | u in collections && collections[u] != c
        ensures collections[u].View() == before[u] && collections[u].Valid()
      {
      }
      OneCollectionChanged(before, collections, c);
    }

    /** The first waiting collection moves to the end of the running ones. */
    method MoveToRunning()
      requires waitingCollections != [] && Valid()
      modifies this`waitingCollections, this`runningCollections
      ensures Valid()
      ensures Uuids(waitingCollections) == old(Uuids(waitingCollections))[1..]
      ensures Uuids(runningCollections) == old(Uuids(runningCollections)) + [old(Uuids(waitingCollections))[0]]
    {
      hide OwnUuids, TestCollection.Valid;
      var newRunning := waitingCollections[0];
      assert newRunning in waitingCollections;
      waitingCollections := waitingCollections[1..];
      runningCollections := runningCollections + [newRunning];
    }

    method AdmitParts(newRunning: TestCollection)
      requires Valid() && waitingCollections != [] && waitingCollections[0] == newRunning
      requires newRunning.uuid in collections && collections[newRunning.uuid] == newRunning
      modifies this`waitingCollections, this`runningCollections, persistenceContext`entryMap
      modifies newRunning`status, newRunning`bucket
      ensures Valid()
      ensures HeaderChanged(newRunning, old(newRunning.View()).(status := CollectionRunning, bucket := RunningBucket))
      ensures Uuids(waitingCollections) == old(Uuids(waitingCollections))[1..]
      ensures Uuids(runningCollections) == old(Uuids(runningCollections)) + [newRunning.uuid]
    {
      hide Put, CollectionViews, EntriesOf, TestCollection.View, Valid, Uuids, OwnUuids, AllHeld, TestCollection.Valid;
      WaitingIsHeld();
      SetRunning(newRunning);
      ghost var views := CollectionViews(collections);
      MoveToRunning();
      assert CollectionViews(collections) == views;
    }

    method AdmitFirst(newRunning: TestCollection)
      requires Valid() && Clean(persistenceContext.store.files)
      requires waitingCollections != [] && waitingCollections[0] == newRunning
      modifies this`waitingCollections, this`runningCollections, persistenceContext`entryMap
      modifies newRunning`status, newRunning`bucket
      ensures Valid() && Clean(persistenceContext.store.files)
      ensures newRunning.uuid in old(View()).collections && old(View()).waiting[0] == newRunning.uuid
      ensures View() == Admit(old(View()))
      ensures EntriesOf(collections) == old(EntriesOf(collections))
    {
      hide Put, Contents, CollectionViews, TestCollection.View, Valid, View, AllHeld, EntriesOf, Admit, Uuids, OwnUuids;
      WaitingIsHeld();
      HeaderIs(newRunning);
      ViewParts();
      AdmitIs(View());
      AdmitParts(newRunning);
      ViewParts();
    }

    lemma ViewParts()
      requires Clean(persistenceContext.store.files)
      ensures View() == Database(
        CollectionViews(collections), Uuids(waitingCollections), Uuids(runningCollections), Uuids(completedCollections),
        testStartTimes, clock, persistenceContext.entryMap, Contents(persistenceContext.store.files), history, submitted)
    {
    }

    lemma WaitingIsHeld()
      requires Valid() && waitingCollections != []
      ensures
        var c := waitingCollections[0];
        c.uuid in collections && collections[c.uuid] == c && Uuids(waitingCollections)[0] == c.uuid
    {
      assert waitingCollections[0] in waitingCollections;
    }

    lemma AdmitIs(db: Database)
      requires db.waiting != [] && db.waiting[0] in db.collections && db.collections[db.waiting[0]].uid == db.waiting[0]
      ensures
        var uid := db.waiting[0];
        Admit(db) == Database(
          db.collections[uid := db.collections[uid].(status := CollectionRunning, bucket := RunningBucket)],
          db.waiting[1..], db.running + [uid], db.completed, db.starts, db.clock, Put(db.dirty, CollectionShallow(uid)),
          db.store, db.history, db.submitted)
    {
    }

    /** The running collection at position `index` is visited, and its entries stay among those of the database. */
    method VisitNext(index: nat, visit: Visit) returns (changed: bool, waitingTests: nat)
      requires Valid() && Clean(persistenceContext.store.files)
      requires index < |runningCollections| && DatabaseInvariant.DatabaseOk(View())
      modifies this`clock, this`testStartTimes, this`history, persistenceContext`entryMap
      modifies collections.Values, EntriesOf(collections)
      ensures Valid() && Clean(persistenceContext.store.files) && DatabaseInvariant.DatabaseOk(View())
      ensures NoForeignEntries() && runningCollections == old(runningCollections)
      ensures
        var db, uid := old(View()), runningCollections[index].uuid;
        && uid in db.collections && db.running[index] == uid
        && var o := ProcessCollection(db.collections[uid], db.clock, db.starts, visit.cluster);
        && View() == AfterVisit(db, uid, o, index == 0, visit.primaryDelay)
        && changed == o.changed && waitingTests == |o.coll.queued| + |o.coll.retry|
    {
      hide Contents, CollectionViews, TestCollection.View, Valid, DatabaseInvariant.DatabaseOk, CollectionOk, Clean,
        AfterVisit, ProcessCollection, View;
      RunningIsHeld(index);
      var c := runningCollections[index];
      EntriesAreParts(c);
      changed, waitingTests := VisitAt(index, visit);
    }

    method VisitAll(visits: nat -> Visit) returns (updated: Option<TestCollection>, testsInQueue: nat)
      requires Valid() && Clean(persistenceContext.store.files) && DatabaseInvariant.DatabaseOk(View())
      modifies this`clock, this`testStartTimes, this`history, persistenceContext`entryMap
      modifies collections.Values, EntriesOf(collections)
      ensures Valid() && Clean(persistenceContext.store.files) && NoForeignEntries()
      ensures
        var r := RoundFrom(old(View()), visits, 0, 0);
        if updated.Some? then r.db == View() && r.updated == Some(updated.value.uuid)
        else r == RoundFrom(View(), visits, |runningCollections|, testsInQueue)
    {
      hide Contents, CollectionViews, TestCollection.View, Valid, RoundFrom, DatabaseInvariant.DatabaseOk, Clean,
        AfterVisit, ProcessCollection, View, EntriesOf;
      testsInQueue := 0;
      for index := 0 to |runningCollections|
        invariant Valid() && Clean(persistenceContext.store.files) && DatabaseInvariant.DatabaseOk(View())
        invariant NoForeignEntries()
        invariant RoundFrom(old(View()), visits, 0, 0) == RoundFrom(View(), visits, index, testsInQueue)
      {
        DatabaseInvariant.RoundOnce(View(), visits, index, testsInQueue);
        ViewParts();
        var c := runningCollections[index];
        var processStateChanged, waitingTests := VisitNext(index, visits(index));
        if processStateChanged {
          return Some(c), testsInQueue;
        }
        testsInQueue := testsInQueue + waitingTests;
      }
      updated := None;
    }

    /** subProcess: one round. */
    method SubProcess(visits: nat -> Visit) returns (updated: Option<TestCollection>)
      requires Valid() && Clean(persistenceContext.store.files) && DatabaseInvariant.DatabaseOk(View())
      modifies this, persistenceContext, collections.Values, EntriesOf(collections)
      ensures Valid() && Clean(persistenceContext.store.files) && NoForeignEntries() && collections == old(collections)
      ensures View() == Round(old(View()), visits).db
      ensures Round(old(View()), visits).updated == if updated.Some? then Some(updated.value.uuid) else None
    {
      hide Contents, CollectionViews, TestCollection.View, Valid, RoundFrom, DatabaseInvariant.DatabaseOk, Clean,
        View, EntriesOf, Admit;
      var testsInQueue;
      updated, testsInQueue := VisitAll(visits);
      if updated.Some? {
        return;
      }
      ViewParts();
      DatabaseInvariant.RoundOnce(View(), visits, |runningCollections|, testsInQueue);
      if testsInQueue == 0 && |waitingCollections| > 0 {
        WaitingIsHeld();
        updated := Some(waitingCollections[0]);
        AdmitFirst(waitingCollections[0]);
      }
    }

    /** addToBucketForPersistence: a collection that was stored goes back to its list. */
    method AddToBucketForPersistence(tc: TestCollection)
      requires Valid() && tc.Valid() && tc.uuid !in collections
      modifies this`collections, this`waitingCollections, this`runningCollections, this`completedCollections
      ensures Valid() && collections == old(collections)[tc.uuid := tc]
      ensures Uuids(waitingCollections) ==
                old(Uuids(waitingCollections)) + if tc.bucket.WaitingBucket? then [tc.uuid] else []
      ensures Uuids(runningCollections) ==
                old(Uuids(runningCollections)) + if tc.bucket.RunningBucket? then [tc.uuid] else []
      ensures Uuids(completedCollections) ==
                old(Uuids(completedCollections)) + if tc.bucket.CompletedBucket? then [tc.uuid] else []
    {
      hide TestCollection.Valid, Uuids;
      UuidsOfOneMore(waitingCollections, tc);
      UuidsOfOneMore(runningCollections, tc);
      UuidsOfOneMore(completedCollections, tc);
      collections := collections[tc.uuid := tc];
      match tc.bucket {
        case WaitingBucket => waitingCollections := waitingCollections + [tc];
        case RunningBucket => runningCollections := runningCollections + [tc];
        case CompletedBucket => completedCollections := completedCollections + [tc];
      }
    }

    /** The three lists in another order. */
    method SetLists(waiting: seq<TestCollection>, running: seq<TestCollection>, completed: seq<TestCollection>)
      requires Valid() && AllHeld(waiting, collections) && AllHeld(running, collections) && AllHeld(completed, collections)
      modifies this`waitingCollections, this`runningCollections, this`completedCollections
      ensures Valid()
      ensures waitingCollections == waiting && runningCollections == running && completedCollections == completed
    {
      hide AllHeld, OwnUuids, TestCollection.Valid;
      waitingCollections, runningCollections, completedCollections := waiting, running, completed;
    }

    // ---- New collections ----

    /** A new collection, with every test of its specification queued, joins the waiting ones. */
    method AddCollection(kube: KubeTest, delay: nat) returns (result: TestCollection)
      requires Valid() && kube.uid !in collections
      modifies this`clock, this`waitingCollections, this`collections, this`submitted, persistenceContext`entryMap
      ensures Valid() && fresh(result) && fresh(result.testEntries.Values)
      ensures clock == old(clock) + delay && submitted == old(submitted) + [kube.uid]
      ensures result.uuid == kube.uid && collections == old(collections)[kube.uid := result]
      ensures result.View() == WithTests(kube, clock, |kube.tests|)
      ensures Uuids(waitingCollections) == old(Uuids(waitingCollections)) + [kube.uid]
      ensures persistenceContext.entryMap ==
                PutAll(old(persistenceContext.entryMap), CreationMarks(kube.uid, |kube.tests|))
    {
      hide PutAll, TestCollection.View, TestCollection.Valid, Valid, WithTests, Uuids;
      var now := Now(delay);
      result := new TestCollection(kube, now);
      submitted := submitted + [kube.uid];
      persistenceContext.PutEntry(CollectionShallow(kube.uid));
      result.QueueTests(persistenceContext, now, old(persistenceContext.entryMap));
      JoinWaiting(result);
    }

    method JoinWaiting(c: TestCollection)
      requires Valid() && c.Valid() && c.uuid !in collections
      modifies this`waitingCollections, this`collections
      ensures Valid() && collections == old(collections)[c.uuid := c]
      ensures Uuids(waitingCollections) == old(Uuids(waitingCollections)) + [c.uuid]
    {
      hide TestCollection.Valid, Uuids;
      UuidsOfOneMore(waitingCollections, c);
      waitingCollections := waitingCollections + [c];
      collections := collections[c.uuid := c];
    }

    /** GetOrCreateCollection, for a KoupletTest that is new, up to the writing of the store. */
    method CreateCollection(kube: KubeTest, delay: nat) returns (result: TestCollection)
      requires Valid() && Clean(persistenceContext.store.files) && kube.uid !in collections
      modifies this`clock, this`waitingCollections, this`collections, this`submitted, persistenceContext`entryMap
      ensures Valid() && Clean(persistenceContext.store.files)
      ensures fresh(result) && fresh(result.testEntries.Values) && collections == old(collections)[kube.uid := result]
      ensures
        var db := old(View());
        var now := db.clock + delay;
        View() == Enlist(db, WithTests(kube, now, |kube.tests|), now, CreationMarks(kube.uid, |kube.tests|))
    {
      hide *;
      ViewParts();
      ghost var made, marks := WithTests(kube, clock + delay, |kube.tests|), CreationMarks(kube.uid, |kube.tests|);
      WithTestsHasUid(kube, clock + delay);
      EnlistIs(View(), made, clock + delay, marks);
      result := AddParts(kube, delay, made, marks);
      ViewParts();
    }

    method AddParts(kube: KubeTest, delay: nat, ghost made: Collection, ghost marks: seq<Mark>) returns (result: TestCollection)
      requires Valid() && kube.uid !in collections
      requires made == WithTests(kube, clock + delay, |kube.tests|) && marks == CreationMarks(kube.uid, |kube.tests|)
      modifies this`clock, this`waitingCollections, this`collections, this`submitted, persistenceContext`entryMap
      ensures Valid() && fresh(result) && fresh(result.testEntries.Values)
      ensures clock == old(clock) + delay && submitted == old(submitted) + [kube.uid]
      ensures collections == old(collections)[kube.uid := result]
      ensures CollectionViews(collections) == old(CollectionViews(collections))[kube.uid := made]
      ensures Uuids(waitingCollections) == old(Uuids(waitingCollections)) + [kube.uid]
      ensures persistenceContext.entryMap == PutAll(old(persistenceContext.entryMap), marks)
    {
      hide PutAll, TestCollection.View, Valid, WithTests, Uuids, CreationMarks, EntriesOf;
      ghost var before := CollectionViews(collections);
      result := AddCollection(kube, delay);
      assert CollectionViews(collections) == before[kube.uid := result.View()];
    }

    lemma EnlistIs(db: Database, c: Collection, now: int, marks: seq<Mark>)
      ensures Enlist(db, c, now, marks) == Database(
        db.collections[c.uid := c], db.waiting + [c.uid], db.running, db.completed, db.starts, now,
        PutAll(db.dirty, marks), db.store, db.history, db.submitted + [c.uid])
    {
    }

    lemma WithTestsHasUid(kube: KubeTest, now: int)
      ensures WithTests(kube, now, |kube.tests|).uid == kube.uid
    {
    }

    // ---- Completing collections ----

    method SetComplete(c: TestCollection, now: int)
      requires Valid() && c.uuid in collections && collections[c.uuid] == c
      modifies c`status, c`bucket, c`endTime, persistenceContext`entryMap
      ensures Valid()
      ensures HeaderChanged(c, old(c.View()).(bucket := CompletedBucket, status := CollectionComplete, endTime := Some(Millis(now))))
    {
      hide Put, CollectionViews, EntriesOf, TestCollection.View, TestCollection.Valid, AllHeld;
      ghost var before := CollectionViews(collections);
      RecordHeader(c);
      c.MarkAsComplete(now);
      forall u | u in collections && collections[u] != c
        ensures collections[u].View() == before[u] && collections[u].Valid()
      {
      }
      OneCollectionChanged(before, collections, c);
    }

    method AppendCompleted(c: TestCollection)
      requires Valid() && c.uuid in collections && collections[c.uuid] == c
      modifies this`completedCollections
      ensures Valid() && CollectionViews(collections) == old(CollectionViews(collections))
      ensures Uuids(completedCollections) == old(Uuids(completedCollections)) + [c.uuid]
    {
      hide OwnUuids, TestCollection.Valid, CollectionViews, EntriesOf;
      UuidsOfOneMore(completedCollections, c);
      completedCollections := completedCollections + [c];
    }

    method CompleteParts(c: TestCollection, delay: nat)
      requires Valid() && c.uuid in collections && collections[c.uuid] == c
      modifies this`clock, this`completedCollections, c`status, c`bucket, c`endTime, persistenceContext`entryMap
      ensures Valid() && clock == old(clock) + delay
      ensures HeaderChanged(c, old(c.View()).(bucket := CompletedBucket, status := CollectionComplete, endTime := Some(Millis(clock))))
      ensures Uuids(completedCollections) == old(Uuids(completedCollections)) + [c.uuid]
    {
      hide Put, CollectionViews, EntriesOf, TestCollection.View, Valid, Uuids;
      ghost var views, v := CollectionViews(collections), c.View();
      var endTime := Now(delay);
      assert CollectionViews(collections) == views && c.View() == v;
      SetComplete(c, endTime);
      AppendCompleted(c);
    }

    /** A collection that has nothing left to do joins the completed ones and is marked complete. */
    method Complete(c: TestCollection, delay: nat)
      requires Valid() && Clean(persistenceContext.store.files) && c.uuid in collections && collections[c.uuid] == c
      requires IsComplete(c.View())
      modifies this`clock, this`completedCollections, c`status, c`bucket, c`endTime, persistenceContext`entryMap
      ensures Valid() && Clean(persistenceContext.store.files)
      ensures View() == MarkIfComplete(old(View()), c.uuid, delay)
    {
      hide Put, Contents, CollectionViews, TestCollection.View, View, EntriesOf, MarkIfComplete, Valid, IsComplete,
        Uuids;
      HeaderIs(c);
      ViewParts();
      MarkIfCompleteIs(View(), c.uuid, delay);
      CompleteParts(c, delay);
      ViewParts();
    }

    lemma MarkIfCompleteIs(db: Database, uid: string, delay: nat)
      requires uid in db.collections && db.collections[uid].uid == uid && IsComplete(db.collections[uid])
      ensures MarkIfComplete(db, uid, delay) == Database(
        db.collections[uid := db.collections[uid].(bucket := CompletedBucket, status := CollectionComplete, endTime := Some(Millis(db.clock + delay)))],
        db.waiting, db.running, db.completed + [uid], db.starts, db.clock + delay, Put(db.dirty, CollectionShallow(uid)),
        db.store, db.history, db.submitted)
    {
    }

    /** One turn of the loop that marks collections complete. */
    method CompleteIfDone(c: TestCollection, delay: nat) returns (complete: bool)
      requires Valid() && Clean(persistenceContext.store.files) && c.uuid in collections && collections[c.uuid] == c
      modifies this`clock, this`completedCollections, c`status, c`bucket, c`endTime, persistenceContext`entryMap
      ensures Valid() && Clean(persistenceContext.store.files) && EntriesOf(collections) == old(EntriesOf(collections))
      ensures complete <==> IsComplete(old(c.View()))
      ensures View() == if complete then MarkIfComplete(old(View()), c.uuid, delay) else old(View())
    {
      hide Contents, CollectionViews, TestCollection.View, Valid, View, EntriesOf, MarkIfComplete, IsComplete, Clean,
        Uuids;
      c.HasNothingLeftIs();
      complete := c.HasNothingLeft();
      if complete {
        Complete(c, delay);
      }
    }

    /** The complete ones among the running collections are marked complete; the others are returned. */
    method MarkCompleteOnes(endDelay: nat -> nat)
      returns (newRunningCollections: seq<TestCollection>, collectionMoved: bool)
      requires Valid() && Clean(persistenceContext.store.files) && DatabaseInvariant.DatabaseOk(View())
      modifies this`clock, this`completedCollections, collections.Values, persistenceContext`entryMap
      ensures Valid() && Clean(persistenceContext.store.files) && EntriesOf(collections) == old(EntriesOf(collections))
      ensures View() == MarkComplete(old(View()), endDelay, |runningCollections|)
      ensures Uuids(newRunningCollections) == StillRunningList(old(View()))
      ensures forall c :: c in newRunningCollections ==> c in runningCollections
      ensures collectionMoved <==> |newRunningCollections| < |runningCollections|
    {
      hide *;
      newRunningCollections, collectionMoved := [], false;
      ghost var db := View();
      ViewParts();
      FilterNone(db, endDelay);
      for i := 0 to |runningCollections|
        invariant Valid() && Clean(persistenceContext.store.files) && EntriesOf(collections) == old(EntriesOf(collections))
        invariant View() == MarkComplete(db, endDelay, i) && View().running == db.running
        invariant Uuids(newRunningCollections) == Filter(db.running[..i], uid => StillRunning(db, uid))
        invariant forall c :: c in newRunningCollections ==> c in runningCollections
        invariant |newRunningCollections| <= i && (collectionMoved <==> |newRunningCollections| < i)
      {
        var c := runningCollections[i];
        CompletingIs(db, View(), endDelay, i);
        StillRunningOnce(db, View(), i);
        RunningIsListed(i);
        UuidsOfOneMore(newRunningCollections, c);
        var complete := CompleteIfDone(c, endDelay(i));
        if !complete {
          newRunningCollections := newRunningCollections + [c];
        } else {
          collectionMoved := true;
        }
      }
      assert db.running[..|db.running|] == db.running;
    }

    lemma FilterNone(db: Database, endDelay: nat -> nat)
      ensures MarkComplete(db, endDelay, 0) == db
      ensures StillRunningList(db) == Filter(db.running, uid => StillRunning(db, uid))
      ensures Uuids([]) == Filter(db.running[..0], uid => StillRunning(db, uid))
      ensures |Uuids(runningCollections)| == |runningCollections|
    {
    }

    lemma RunningIsListed(index: nat)
      requires Valid() && index < |runningCollections| && Clean(persistenceContext.store.files)
      ensures
        var c := runningCollections[index];
        && c.uuid in collections && collections[c.uuid] == c
        && c.uuid in View().collections && View().collections[c.uuid] == c.View()
        && View().running[index] == c.uuid
    {
      hide TestCollection.View, TestCollection.Valid;
      assert runningCollections[index] in runningCollections;
    }

    /** The next turn of the loop that marks collections complete. */
    lemma CompletingIs(db: Database, d: Database, endDelay: nat -> nat, i: nat)
      requires DatabaseInvariant.DatabaseOk(db) && i < |db.running| && d == MarkComplete(db, endDelay, i)
      ensures
        var uid := db.running[i];
        && uid in d.collections && uid in db.collections && d.collections[uid] == db.collections[uid]
        && MarkComplete(db, endDelay, i + 1).running == db.running
        && MarkComplete(db, endDelay, i + 1) ==
             if IsComplete(d.collections[uid]) then MarkIfComplete(d, uid, endDelay(i)) else d
    {
      hide DatabaseInvariant.HeldOk, IsComplete, DatabaseInvariant.InOrder;
      var uid := db.running[i];
      DatabaseInvariant.MarkCompleteKeeps(db, endDelay, i);
      DatabaseInvariant.MarkCompleteKeeps(db, endDelay, i + 1);
      assert uid in db.running;
      assert uid !in db.running[..i];
    }

    lemma StillRunningOnce(db: Database, d: Database, i: nat)
      requires i < |db.running| && db.running[i] in d.collections && db.running[i] in db.collections
      requires d.collections[db.running[i]] == db.collections[db.running[i]]
      ensures Filter(db.running[..i + 1], u => StillRunning(db, u)) ==
                Filter(db.running[..i], u => StillRunning(db, u)) +
                if IsComplete(d.collections[db.running[i]]) then [] else [db.running[i]]
    {
      hide IsComplete;
      assert db.running[..i + 1][..i] == db.running[..i];
    }

    // ---- Cleaning up ----

    /** Record the removal of some start times. */
    method RemoveStartTimes(times: seq<int>)
      modifies persistenceContext`entryMap
      ensures persistenceContext.entryMap == PutAll(old(persistenceContext.entryMap), RemovalMarks(times))
    {
      hide Put;
      for i := 0 to |times|
        invariant persistenceContext.entryMap == PutAll(old(persistenceContext.entryMap), RemovalMarks(times[..i]))
      {
        persistenceContext.PutEntry(RemoveStart(times[i]));
        assert RemovalMarks(times[..i + 1]) == RemovalMarks(times[..i]) + [RemoveStart(times[i])];
        WriteBack.PutAllAppend(old(persistenceContext.entryMap), RemovalMarks(times[..i]), [RemoveStart(times[i])]);
      }
      assert times[..|times|] == times;
    }

    /** cleanupOldTestStartTimes */
    method ForgetStartTimes(delay: nat)
      modifies this`clock, this`testStartTimes, persistenceContext`entryMap
      ensures
        var before := clock - SECONDS_REMEMBERED * NANOS_PER_SECOND;
        && clock == old(clock) + delay
        && testStartTimes == Recent(old(testStartTimes), before)
        && persistenceContext.entryMap ==
             PutAll(old(persistenceContext.entryMap), RemovalMarks(Filter(old(testStartTimes), t => t <= before)))
    {
      hide PutAll, RemovalMarks, Recent, Filter;
      var now := Now(delay);
      var beforeTime := now - SECONDS_REMEMBERED * NANOS_PER_SECOND;
      var filtered, unfiltered := SplitTimes(testStartTimes, beforeTime);
      RemoveStartTimes(filtered);
      testStartTimes := unfiltered;
    }

    /** The times up to a point, and the later ones. */
    method SplitTimes(times: seq<int>, beforeTime: int) returns (filtered: seq<int>, unfiltered: seq<int>)
      ensures filtered == Filter(times, t => t <= beforeTime)
      ensures unfiltered == Recent(times, beforeTime)
    {
      filtered, unfiltered := [], [];
      for i := 0 to |times|
        invariant filtered == Filter(times[..i], t => t <= beforeTime)
        invariant unfiltered == Recent(times[..i], beforeTime)
      {
        assert times[..i + 1][..i] == times[..i];
        if times[i] > beforeTime {
          unfiltered := unfiltered + [times[i]];
        } else {
          filtered := filtered + [times[i]];
        }
      }
      assert times[..|times|] == times;
    }

    lemma ForgetIs(db: Database, delay: nat)
      ensures
        var before := db.clock + delay - SECONDS_REMEMBERED * NANOS_PER_SECOND;
        ForgetOldStarts(db, delay) == Database(
          db.collections, db.waiting, db.running, db.completed, Recent(db.starts, before), db.clock + delay,
          PutAll(db.dirty, RemovalMarks(Filter(db.starts, t => t <= before))), db.store, db.history, db.submitted)
    {
      hide PutAll, RemovalMarks, Filter, Recent;
    }

    method CleanupOldTestStartTimes(delay: nat)
      requires Valid() && Clean(persistenceContext.store.files)
      modifies this`clock, this`testStartTimes, persistenceContext`entryMap
      ensures Valid() && Clean(persistenceContext.store.files)
      ensures View() == ForgetOldStarts(old(View()), delay)
    {
      hide Contents, CollectionViews, TestCollection.View, Valid, View, EntriesOf, Uuids, Recent, PutAll, RemovalMarks, Filter,
        ForgetOldStarts;
      ghost var db := View();
      ViewParts();
      ForgetIs(db, delay);
      ForgetStartTimes(delay);
      assert CollectionViews(collections) == db.collections;
      ViewParts();
    }

    method SetRunningCollections(list: seq<TestCollection>)
      requires Valid() && Clean(persistenceContext.store.files) && forall c :: c in list ==> c in runningCollections
      modifies this`runningCollections
      ensures Valid() && Clean(persistenceContext.store.files)
      ensures View() == old(View()).(running := Uuids(list))
    {
      hide Contents, CollectionViews, TestCollection.View, EntriesOf, TestCollection.Valid, OwnUuids, Uuids;
      runningCollections := list;
    }

    /** The part of Process that moves complete collections out of the running ones. */
    method MoveComplete(endDelay: nat -> nat, cleanupDelay: nat)
      requires Valid() && Clean(persistenceContext.store.files) && DatabaseInvariant.DatabaseOk(View())
      modifies this`clock, this`testStartTimes, this`completedCollections, this`runningCollections
      modifies collections.Values, persistenceContext`entryMap
      ensures Valid() && Clean(persistenceContext.store.files) && EntriesOf(collections) == old(EntriesOf(collections))
      ensures View() == CompleteCollections(old(View()), endDelay, cleanupDelay)
    {
      hide Contents, CollectionViews, TestCollection.View, Valid, View, EntriesOf, MarkComplete, StillRunningList,
        ForgetOldStarts, Clean, Uuids, DatabaseInvariant.DatabaseOk;
      ghost var db := View();
      ViewParts();
      var newRunningCollections, collectionMoved := MarkCompleteOnes(endDelay);
      ForgettingCommutes(View(), cleanupDelay, Uuids(newRunningCollections));
      assert |Uuids(newRunningCollections)| == |newRunningCollections| && |db.running| == |runningCollections|;
      if collectionMoved {
        CleanupOldTestStartTimes(cleanupDelay);
      }
      SetRunningCollections(newRunningCollections);
    }

    /** The list without the collection that has this UID. */
    method RemoveByUUID(uuid: string, input: seq<TestCollection>) returns (result: seq<TestCollection>)
      ensures Uuids(result) == Without(Uuids(input), {uuid})
      ensures forall c :: c in result ==> c in input && c.uuid != uuid
    {
      result := [];
      for i := 0 to |input|
        invariant Uuids(result) == Without(Uuids(input[..i]), {uuid})
        invariant forall c :: c in result ==> c in input && c.uuid != uuid
      {
        assert input[..i + 1] == input[..i] + [input[i]];
        UuidsOfOneMore(input[..i], input[i]);
        UuidsOfOneMore(result, input[i]);
        assert Uuids(input[..i + 1])[..i] == Uuids(input[..i]);
        if input[i].uuid != uuid {
          result := result + [input[i]];
        }
      }
      assert input[..|input|] == input;
    }

    /** One collection is dropped, and its deletion recorded. */
    method Drop(uuid: string)
      requires Valid() && uuid in collections
      modifies this`collections, this`waitingCollections, this`runningCollections, this`completedCollections
      modifies persistenceContext`entryMap
      ensures Valid() && collections == old(collections) - {uuid}
      ensures Uuids(waitingCollections) == Without(old(Uuids(waitingCollections)), {uuid})
      ensures Uuids(runningCollections) == Without(old(Uuids(runningCollections)), {uuid})
      ensures Uuids(completedCollections) == Without(old(Uuids(completedCollections)), {uuid})
      ensures persistenceContext.entryMap == Put(old(persistenceContext.entryMap), DeleteCollection(uuid))
    {
      hide Without, Put, TestCollection.Valid, Uuids, AllHeld, OwnUuids;
      var waiting := RemoveByUUID(uuid, waitingCollections);
      var running := RemoveByUUID(uuid, runningCollections);
      var completed := RemoveByUUID(uuid, completedCollections);
      HeldWithout(waiting, waitingCollections, uuid);
      HeldWithout(running, runningCollections, uuid);
      HeldWithout(completed, completedCollections, uuid);
      collections := collections - {uuid};
      waitingCollections, runningCollections, completedCollections := waiting, running, completed;
      persistenceContext.PutEntry(DeleteCollection(uuid));
      assert [DeleteCollection(uuid)][..0] == [];
    }

    lemma HeldWithout(list: seq<TestCollection>, before: seq<TestCollection>, uuid: string)
      requires AllHeld(before, collections) && OwnUuids(collections)
      requires forall c :: c in list ==> c in before && c.uuid != uuid
      ensures AllHeld(list, collections - {uuid}) && OwnUuids(collections - {uuid})
    {
    }

    /** cleanupOldTestCollections, when the KoupletTests of the collections `gone` cannot be found any more. */
    method CleanupOldTestCollections(gone: set<string>)
      requires Valid() && Clean(persistenceContext.store.files)
      modifies this`collections, this`waitingCollections, this`runningCollections, this`completedCollections
      modifies persistenceContext`entryMap
      ensures Valid() && Clean(persistenceContext.store.files)
      ensures View() == Collect(old(View()), gone)
      ensures collections.Values <= old(collections.Values)
    {
      hide Contents, TestCollection.View, Valid, Collect, Clean, Uuids, Put, EntriesOf, CollectionViews, View,
        WithoutOne;
      var toDelete := set u | u in collections && u in gone;
      ghost var db := View();
      ghost var all := collections;
      ViewParts();
      CollectsOnlyOwn(db, gone);
      NothingCollected(db);
      ghost var dropped: set<string> := {};
      while toDelete != {}
        invariant Valid() && Clean(persistenceContext.store.files)
        invariant collections == all - dropped && toDelete !! dropped && toDelete <= all.Keys
        invariant toDelete + dropped == gone * all.Keys
        invariant View() == Collect(db, dropped)
        decreases toDelete
      {
        var uuid :| uuid in toDelete;
        CollectOneMore(db, dropped, uuid);
        DropOne(uuid);
        toDelete, dropped := toDelete - {uuid}, dropped + {uuid};
      }
      assert dropped == gone * db.collections.Keys;
    }

    method DropOne(uuid: string)
      requires Valid() && uuid in collections && Clean(persistenceContext.store.files)
      modifies this`collections, this`waitingCollections, this`runningCollections, this`completedCollections
      modifies persistenceContext`entryMap
      ensures Valid() && Clean(persistenceContext.store.files) && collections == old(collections) - {uuid}
      ensures View() == WithoutOne(old(View()), uuid)
    {
      hide Contents, TestCollection.View, Valid, Uuids, Without, Put, EntriesOf;
      ghost var before := CollectionViews(collections);
      Drop(uuid);
      assert CollectionViews(collections) == before - {uuid};
    }

    ghost function WithoutOne(db: Database, uuid: string): Database {
      db.(collections := db.collections - {uuid},
          waiting := Without(db.waiting, {uuid}),
          running := Without(db.running, {uuid}),
          completed := Without(db.completed, {uuid}),
          dirty := Put(db.dirty, DeleteCollection(uuid)))
    }

    lemma NothingCollected(db: Database)
      ensures Collect(db, {}) == db
    {
      DatabaseInvariant.WithoutNone(db.waiting);
      DatabaseInvariant.WithoutNone(db.running);
      DatabaseInvariant.WithoutNone(db.completed);
      assert {} * db.collections.Keys == {};
    }

    lemma {:induction false} WithoutTwice(s: seq<string>, g: set<string>, h: set<string>)
      ensures Without(Without(s, g), h) == Without(s, g + h)
    {
      if s != [] {
        var front, last := s[..|s| - 1], s[|s| - 1];
        WithoutTwice(front, g, h);
        if last !in g {
          assert (Without(front, g) + [last])[..|Without(front, g)|] == Without(front, g);
        }
      }
    }

    lemma CollectsOnlyOwn(db: Database, gone: set<string>)
      ensures Collect(db, gone * db.collections.Keys) == Collect(db, gone)
    {
      assert gone * db.collections.Keys * db.collections.Keys == gone * db.collections.Keys;
    }

    lemma CollectOneMore(db: Database, dropped: set<string>, uuid: string)
      requires dropped <= db.collections.Keys && uuid in db.collections && uuid !in dropped
      ensures Collect(db, dropped + {uuid}) == WithoutOne(Collect(db, dropped), uuid)
    {
      hide Without;
      WithoutTwice(db.waiting, dropped, {uuid});
      WithoutTwice(db.running, dropped, {uuid});
      WithoutTwice(db.completed, dropped, {uuid});
      assert dropped * db.collections.Keys == dropped;
      assert (dropped + {uuid}) * db.collections.Keys == dropped + {uuid};
      DeletionsOneMore(db.dirty, dropped, uuid);
    }

    lemma DeletionsOneMore(dirty: map<string, Mark>, dropped: set<string>, uuid: string)
      ensures dirty + Deletions(dropped + {uuid}) == Put(dirty + Deletions(dropped), DeleteCollection(uuid))
    {
      hide UpdateKey, Deletions;
      var key := UpdateKey(DeleteCollection(uuid));
      var l, r := Deletions(dropped + {uuid}), Deletions(dropped)[key := DeleteCollection(uuid)];
      forall k | k in l || k in r
        ensures k in l && k in r && l[k] == r[k]
      {
        SameDeletion(dropped, uuid, k);
      }
      assert l == r;
    }

    lemma SameDeletion(dropped: set<string>, uuid: string, k: string)
      requires k in Deletions(dropped + {uuid}) || k in Deletions(dropped) || k == UpdateKey(DeleteCollection(uuid))
      ensures
        var r := Deletions(dropped)[UpdateKey(DeleteCollection(uuid)) := DeleteCollection(uuid)];
        k in Deletions(dropped + {uuid}) && k in r && Deletions(dropped + {uuid})[k] == r[k]
    {
      hide UpdateKey, Deletions;
      var l, r := Deletions(dropped + {uuid}), Deletions(dropped)[UpdateKey(DeleteCollection(uuid)) := DeleteCollection(uuid)];
      assert k in l;
      var u := l[k].uid;
      assert u in dropped + {uuid};
      assert k in r;
      DeletionKeyIs(u, r[k].uid);
    }

    lemma DeletionKeyIs(u: string, v: string)
      requires UpdateKey(DeleteCollection(u)) == UpdateKey(DeleteCollection(v))
      ensures u == v
    {
      DeletionKeysDiffer();
    }

    method ForgetJobOf(c: TestCollection, te: TestEntry, delay: nat)
      requires Valid() && c.uuid in collections && collections[c.uuid] == c
      requires te.id in c.testEntries && c.testEntries[te.id] == te
      modifies this`clock, te`clusterResource, persistenceContext`entryMap
      ensures Valid() && clock == old(clock) + delay
      ensures CollectionViews(collections) ==
                old(CollectionViews(collections))[c.uuid := WithEntry(old(c.View()), te.id, old(c.View()).entries[te.id].(cluster := None))]
      ensures persistenceContext.entryMap == Put(old(persistenceContext.entryMap), EntryShallow(c.uuid, te.id))
    {
      hide Put, CollectionViews, EntriesOf, TestCollection.View, TestCollection.Valid, AllHeld;
      OthersAreApart(c);
      ghost var before := CollectionViews(collections);
      var now := Now(delay);
      c.ForgetJob(te, persistenceContext);
      assert [EntryShallow(c.uuid, te.id)][..0] == [];
      forall u | u in collections && collections[u] != c
        ensures collections[u].View() == before[u] && collections[u].Valid()
      {
      }
      OneCollectionChanged(before, collections, c);
    }

    /** The job of an entry has been deleted. */
    method ForgetJobAt(c: TestCollection, te: TestEntry, delay: nat)
      requires Valid() && Clean(persistenceContext.store.files) && c.uuid in collections && collections[c.uuid] == c
      requires te.id in c.testEntries && c.testEntries[te.id] == te
      modifies this`clock, te`clusterResource, persistenceContext`entryMap
      ensures Valid() && Clean(persistenceContext.store.files)
      ensures
        var db, v := old(View()), old(c.View());
        View() == Database(
          db.collections[c.uuid := WithEntry(v, te.id, v.entries[te.id].(cluster := None))], db.waiting, db.running,
          db.completed, db.starts, db.clock + delay, Put(db.dirty, EntryShallow(c.uuid, te.id)), db.store, db.history,
          db.submitted)
    {
      hide *;
      ViewParts();
      HeaderIs(c);
      ForgetJobOf(c, te, delay);
      assert persistenceContext.entryMap == Put(old(View()).dirty, EntryShallow(c.uuid, te.id));
      ViewParts();
    }

    /** One turn of the loop of cleanupOldJobs. */
    method CleanupOldJob(job: Job)
      requires Valid() && Clean(persistenceContext.store.files)
      modifies this`clock, EntriesOf(collections), persistenceContext`entryMap
      ensures Valid() && Clean(persistenceContext.store.files)
      ensures View() == SweepJob(old(View()), job)
    {
      hide Put, Contents, CollectionViews, EntriesOf, TestCollection.View, Valid, View, SweepJob, Uuids;
      ViewParts();
      SweepJobIs(View(), job);
      if job.collection.None? || job.entry.None? {
        return;
      }
      if job.collection.value !in collections {
        return;
      }
      var tc := collections[job.collection.value];
      CollectionIsListed(job.collection.value);
      if job.entry.value !in tc.testEntries {
        return;
      }
      var te := tc.testEntries[job.entry.value];
      EntryIsPart(tc, job.entry.value);
      var old2Minutes := clock + job.delay - SECONDS_BEFORE_SWEEP * NANOS_PER_SECOND;
      if job.completionTime.None? || job.completionTime.value >= old2Minutes || !te.processed {
        PassTime(job.delay);
      } else {
        ForgetJobAt(tc, te, job.delay);
      }
    }

    method PassTime(delay: nat)
      requires Clean(persistenceContext.store.files) && Valid()
      modifies this`clock
      ensures Valid() && View() == old(View()).(clock := old(clock) + delay)
    {
      hide Contents, CollectionViews, EntriesOf, Valid, View, Uuids, TestCollection.View;
      ghost var views := CollectionViews(collections);
      ViewParts();
      clock := clock + delay;
      assert CollectionViews(collections) == views;
      ViewParts();
    }

    lemma CollectionIsListed(uid: string)
      requires Valid() && uid in collections
      ensures collections[uid].uuid == uid && collections[uid] in collections.Values
      ensures CollectionViews(collections)[uid] == collections[uid].View()
      ensures collections[uid].View().entries.Keys == collections[uid].testEntries.Keys
    {
    }

    lemma EntryIsPart(c: TestCollection, id: int)
      requires Valid() && c in collections.Values && c.uuid in collections && collections[c.uuid] == c && id in c.testEntries
      ensures c.testEntries[id] in EntriesOf(collections) && c.testEntries[id].id == id
      ensures id in c.View().entries && c.View().entries[id].processed == c.testEntries[id].processed
    {
      var te := c.testEntries[id];
      assert id in c.testEntries.Keys && te in c.testEntries.Values;
    }

    lemma SweepJobIs(db: Database, job: Job)
      ensures SweepJob(db, job) ==
        if job.collection.None? || job.entry.None? || job.collection.value !in db.collections
           || job.entry.value !in db.collections[job.collection.value].entries then db
        else
          var uid, id, now := job.collection.value, job.entry.value, db.clock + job.delay;
          var c := db.collections[uid];
          if job.completionTime.None? || job.completionTime.value >= now - SECONDS_BEFORE_SWEEP * NANOS_PER_SECOND
             || !c.entries[id].processed then db.(clock := now)
          else Database(
            db.collections[uid := WithEntry(c, id, c.entries[id].(cluster := None))], db.waiting, db.running, db.completed,
            db.starts, now, Put(db.dirty, EntryShallow(uid, id)), db.store, db.history, db.submitted)
    {
    }

    /** cleanupOldJobs */
    method CleanupOldJobs(jobs: seq<Job>)
      requires Valid() && Clean(persistenceContext.store.files)
      modifies this`clock, EntriesOf(collections), persistenceContext`entryMap
      ensures Valid() && Clean(persistenceContext.store.files)
      ensures View() == Sweep(old(View()), jobs)
    {
      hide Contents, CollectionViews, EntriesOf, TestCollection.View, Valid, View, SweepJob, Uuids, Clean;
      for i := 0 to |jobs|
        invariant Valid() && Clean(persistenceContext.store.files)
        invariant EntriesOf(collections) == old(EntriesOf(collections))
        invariant View() == Sweep(old(View()), jobs[..i])
      {
        assert jobs[..i + 1][..i] == jobs[..i];
        CleanupOldJob(jobs[i]);
      }
      assert jobs[..|jobs|] == jobs;
    }

    lemma ForgettingCommutes(db: Database, delay: nat, running: seq<string>)
      ensures ForgetOldStarts(db, delay).(running := running) == ForgetOldStarts(db.(running := running), delay)
    {
    }

    /** No entry that existed before has come into the database. */
    twostate predicate NoForeignEntries()
      reads this, collections.Values
    {
      forall e :: e in EntriesOf(collections) ==> e in old(EntriesOf(collections)) || fresh(e)
    }

    lemma EntriesAreParts(c: TestCollection)
      requires c in collections.Values
      ensures forall e :: e in c.testEntries.Values ==> e in EntriesOf(collections)
    {
    }

    lemma OnlyTheFirstTime(db: Database, uid: string, delay: nat)
      requires uid in db.collections
      ensures db.collections[uid].startTime.Some? ==> MarkPrimary(db, uid, delay) == db
    {
    }

    lemma HeaderIs(c: TestCollection)
      ensures c.View().startTime == c.startTime && c.View().uid == c.uuid
    {
    }

    /** The collection at position `index` of the running ones is visited; `waitingTests` wait in it afterwards. */
    method VisitAt(index: nat, visit: Visit) returns (changed: bool, waitingTests: nat)
      requires Valid() && Clean(persistenceContext.store.files)
      requires index < |runningCollections| && DatabaseInvariant.DatabaseOk(View())
      modifies this`clock, this`testStartTimes, this`history, persistenceContext`entryMap
      modifies runningCollections[index], runningCollections[index].testEntries.Values
      ensures Valid() && Clean(persistenceContext.store.files) && runningCollections[index].OwnEntries()
      ensures runningCollections == old(runningCollections)
      ensures DatabaseInvariant.DatabaseOk(View())
      ensures
        var db, c := old(View()), runningCollections[index];
        var o := ProcessCollection(old(c.View()), db.clock, db.starts, visit.cluster);
        && View() == AfterVisit(db, c.uuid, o, index == 0, visit.primaryDelay)
        && changed == o.changed && waitingTests == |o.coll.queued| + |o.coll.retry|
    {
      hide PutAll, ProcessCollection, TestCollection.View, Valid, CollectionOk, Contents,
        DatabaseInvariant.DatabaseOk, MarkPrimary, Absorb, CollectionViews, EntriesOf;
      RunningIsHeld(index);
      var c := runningCollections[index];
      ghost var db, o := View(), ProcessCollection(c.View(), clock, testStartTimes, visit.cluster);
      Coherence.VisitedIsOk(db, c.uuid, visit, index == 0);
      changed := Visit(c, visit.cluster);
      HeaderIs(c);
      c.Fields();
      assert View().collections[c.uuid] == c.View();
      AbsorbIs(db, c.uuid, o);
      OnlyTheFirstTime(View(), c.uuid, visit.primaryDelay);
      waitingTests := |c.queuedTests| + |c.testsForRetry|;
      if index == 0 && c.startTime.None? {
        MarkAsPrimary(c, visit.primaryDelay);
      }
    }

    lemma AbsorbIs(db: Database, uid: string, o: Outcome)
      ensures Absorb(db, uid, o).collections == db.collections[uid := o.coll]
    {
    }

    lemma RunningIsHeld(index: nat)
      requires Valid() && Clean(persistenceContext.store.files)
      requires index < |runningCollections| && DatabaseInvariant.DatabaseOk(View())
      ensures
        var c := runningCollections[index];
        && c.uuid in collections && collections[c.uuid] == c && CollectionOk(c.View())
        && View().running[index] == c.uuid
        && c.uuid in View().collections && View().collections[c.uuid] == c.View()
        && c.View().bucket == RunningBucket
    {
      hide CollectionOk, TestCollection.View, TestCollection.Valid;
      var c := runningCollections[index];
      RunningIsListed(index);
      DatabaseInvariant.RunningIsHeld(View(), index);
      DatabaseInvariant.HeldParts(View(), c.uuid);
    }

    /** The clock, the starts and the pending writes after an operation on a collection. */
    twostate predicate Advanced(o: Outcome)
      reads this, persistenceContext
    {
      && clock == o.clock
      && testStartTimes == old(testStartTimes) + Times(o.begun)
      && history == old(history) + o.begun
      && persistenceContext.entryMap == PutAll(old(persistenceContext.entryMap), o.marks)
    }

    twostate predicate Untouched()
      reads this, persistenceContext
    {
      && clock == old(clock) && testStartTimes == old(testStartTimes) && history == old(history)
      && persistenceContext.entryMap == old(persistenceContext.entryMap)
    }

    /** Some tests were started, and some pending writes recorded. */
    twostate predicate Recorded(marks: seq<Mark>, begun: seq<Start>)
      reads this, persistenceContext
    {
      && testStartTimes == old(testStartTimes) + Times(begun)
      && history == old(history) + begun
      && persistenceContext.entryMap == PutAll(old(persistenceContext.entryMap), marks)
    }

    /** A test was started, `delay` after the clock was last read. */
    twostate predicate Began(kube: KubeTest, delay: nat, marks: seq<Mark>)
      reads this, persistenceContext
    {
      && clock == old(clock) + delay
      && testStartTimes == old(testStartTimes) + [clock]
      && history == old(history) + [Start(clock, Nodes(kube), PeriodSeconds(kube))]
      && persistenceContext.entryMap == PutAll(old(persistenceContext.entryMap), [AddStart(clock)] + marks)
    }

    method AddTestStartTimeAndPersist(delay: nat, ghost nodes: int, ghost period: int)
      modifies this`clock, this`testStartTimes, this`history, persistenceContext`entryMap
      ensures clock == old(clock) + delay
      ensures testStartTimes == old(testStartTimes) + [clock]
      ensures history == old(history) + [Start(clock, nodes, period)]
      ensures persistenceContext.entryMap == PutAll(old(persistenceContext.entryMap), [AddStart(clock)])
    {
      var testStartTime := Now(delay);
      testStartTimes := testStartTimes + [testStartTime];
      history := history + [Start(testStartTime, nodes, period)];
      persistenceContext.PutEntry(AddStart(testStartTime));
    }

    method CanWeRunMoreTests(maxTestsToRunInPeriod: int, everyXSeconds: int, delay: nat) returns (can: bool)
      modifies this`clock
      ensures clock == old(clock) + delay
      ensures can <==> CountAfter(testStartTimes, clock - everyXSeconds * NANOS_PER_SECOND) < maxTestsToRunInPeriod
    {
      var now := Now(delay);
      var beforeTime := now - everyXSeconds * NANOS_PER_SECOND;
      var count := 0;
      var times := testStartTimes;
      for i := 0 to |times|
        invariant count == CountAfter(times[..i], beforeTime)
        invariant clock == now
      {
        assert times[..i + 1][..i] == times[..i];
        if times[i] > beforeTime {
          count := count + 1;
        }
      }
      assert times[..|times|] == times;
      can := count < maxTestsToRunInPeriod;
    }

    method Now(delay: nat) returns (now: int)
      modifies this`clock
      ensures now == clock == old(clock) + delay
    {
      clock := clock + delay;
      now := clock;
    }
  }

  function Uuids(s: seq<TestCollection>): (r: seq<string>)
    ensures |r| == |s|
  {
    seq(|s|, i requires 0 <= i < |s| => s[i].uuid)
  }

  lemma UuidsOfOneMore(s: seq<TestCollection>, c: TestCollection)
    ensures Uuids(s + [c]) == Uuids(s) + [c.uuid]
  {
  }

  ghost predicate AllHeld(s: seq<TestCollection>, collections: map<string, TestCollection>) {
    forall c :: c in s ==> c.uuid in collections && collections[c.uuid] == c
  }

  ghost predicate OwnUuids(collections: map<string, TestCollection>) {
    forall u {:trigger collections[u]} :: u in collections ==> collections[u].uuid == u
  }

  ghost function EntriesOf(collections: map<string, TestCollection>): set<TestEntry>
    reads collections.Values`testEntries
  {
    set c, e | c in collections.Values && e in c.testEntries.Values :: e
  }

  ghost function CollectionViews(collections: map<string, TestCollection>): (r: map<string, Collection>)
    reads collections.Values, EntriesOf(collections)
    ensures r.Keys == collections.Keys
    ensures forall u {:trigger collections[u]} {:trigger r[u]} :: u in r ==> r[u] == collections[u].View()
  {
    map u | u in collections :: collections[u].View()
  }

  /** When one collection changed, the views change under its UID only. */
  lemma OneCollectionChanged(before: map<string, Collection>, collections: map<string, TestCollection>, c: TestCollection)
    requires OwnUuids(collections) && c.uuid in collections && collections[c.uuid] == c
    requires before.Keys == collections.Keys
    requires forall u {:trigger collections[u]} :: u in collections && collections[u] != c ==> collections[u].View() == before[u]
    ensures CollectionViews(collections) == before[c.uuid := c.View()]
  {
    hide TestCollection.View;
    var after := CollectionViews(collections);
    forall u | u in collections && u != c.uuid
      ensures after[u] == before[u]
    {
      assert collections[u].uuid == u;
    }
    assert after[c.uuid] == collections[c.uuid].View();
    assert after == before[c.uuid := c.View()];
  }

  lemma IndexIs(ids: seq<int>, id: int, at: nat)
    requires at < |ids| && ids[at] == id && forall j :: 0 <= j < at ==> ids[j] != id
    ensures IndexOf(ids, id) == at
  {
    var k := IndexOf(ids, id);
    forall j | 0 <= j < k
      ensures ids[j] != id
    {
      assert ids[..k][j] == ids[j];
    }
  }
}
