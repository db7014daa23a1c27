/** The operations on a collection keep its invariant. */
module CollectionProofs {
  import opened Prelude
  import opened TestModel
  import opened CollectionSteps
  import opened CollectionInvariant

  // ---- Finishing a test ----

  /** The entry with its final status and result. */
  function Done(e: Entry, status: EntryStatus, result: TestResult): Entry {
    e.(processed := true, status := status, result := Some(result), bucket := InCompleted)
  }

  function MoveToCompleted(c: Collection, id: int, done: Entry): Collection
    requires id in c.running
  {
    WithEntry(c, id, done).(running := RemoveAt(c.running, IndexOf(c.running, id)),
                        completed := c.completed + [id])
  }

  ghost predicate Finishes(c: Collection, id: int, status: EntryStatus, result: TestResult) {
    && id in c.entries && c.entries[id].status == EntryRunning
    && (status == EntryComplete || status == EntryExpired)
    && Shape(Done(c.entries[id], status, result))
  }

  lemma RunningIsListed(c: Collection, id: int)
    requires CollectionOk(c) && id in c.entries && c.entries[id].status == EntryRunning
    ensures c.entries[id].bucket == InRunning && id in c.running && !c.entries[id].processed
    ensures forall j :: !IsRetryOf(c, j, id)
  {
    assert Shape(c.entries[id]);
    forall j
      ensures !IsRetryOf(c, j, id)
    {
      if j in c.entries {
        assert Linked(c, j);
      }
    }
  }

  lemma CompletionKeepsPartition(c: Collection, id: int, status: EntryStatus, result: TestResult)
    requires CollectionOk(c) && Finishes(c, id, status, result)
    ensures id in c.running
    ensures Partition(MoveToCompleted(c, id, Done(c.entries[id], status, result)))
    ensures Shapes(MoveToCompleted(c, id, Done(c.entries[id], status, result)))
  {
    RunningIsListed(c, id);
    RemoveAtMembers(c.running, IndexOf(c.running, id));
    AppendMembers(c.completed, id);
  }

  lemma CompletionKeepsLinks(c: Collection, id: int, status: EntryStatus, result: TestResult)
    requires CollectionOk(c) && Finishes(c, id, status, result)
    ensures id in c.running
    ensures SameLinks(c, MoveToCompleted(c, id, Done(c.entries[id], status, result)))
  {
    RunningIsListed(c, id);
    var c' := MoveToCompleted(c, id, Done(c.entries[id], status, result));
    assert c'.entries.Keys == c.entries.Keys;
  }

  /** Completing a running test keeps everything except that the test may now owe a retry. */
  lemma CompletionKeepsForest(c: Collection, id: int, status: EntryStatus, result: TestResult)
    requires CollectionOk(c) && Finishes(c, id, status, result)
    ensures id in c.running
    ensures
      var c' := MoveToCompleted(c, id, Done(c.entries[id], status, result));
      && Forest(c')
      && Depth(c'.entries, id) == Depth(c.entries, id)
      && (forall j :: !IsRetryOf(c', j, id))
      && (forall i :: i != id && OwesRetry(c', i) ==> HasRetry(c', i))
  {
    RunningIsListed(c, id);
    CompletionKeepsLinks(c, id, status, result);
    var c' := MoveToCompleted(c, id, Done(c.entries[id], status, result));
    ForestKept(c, c');
    forall j
      ensures !IsRetryOf(c', j, id)
    {
      assert !IsRetryOf(c, j, id);
    }
    forall i | i != id && OwesRetry(c', i)
      ensures HasRetry(c', i)
    {
      RetryKept(c, c', i);
    }
  }

  function AddRetry(c: Collection, parent: int): Collection
    requires parent in c.entries
  {
    WithEntry(c, c.nextId, RetryOf(parent, c.entries[parent], c.nextId)).(nextId := c.nextId + 1, retry := c.retry + [c.nextId])
  }

  lemma RetryKeepsPartition(c: Collection, parent: int)
    requires Partition(c) && Shapes(c) && Forest(c) && parent in c.entries
    ensures Partition(AddRetry(c, parent)) && Shapes(AddRetry(c, parent))
  {
    var c' := AddRetry(c, parent);
    var n := c.nextId;
    assert n !in c.entries;
    AppendMembers(c.retry, n);
  }

  lemma RetryKeepsLinks(c: Collection, parent: int)
    requires Shapes(c) && Forest(c) && OwesRetry(c, parent)
    ensures
      var c' := AddRetry(c, parent);
      && c.nextId !in c.entries && Linked(c', c.nextId)
      && (forall i :: i in c.entries ==> Linked(c', i))
      && (forall i :: i in c.entries ==> Depth(c'.entries, i) == Depth(c.entries, i))
  {
    var c' := AddRetry(c, parent);
    var n := c.nextId;
    assert n !in c.entries;
    ForestIsClosed(c);
    forall i | i in c.entries
      ensures Depth(c'.entries, i) == Depth(c.entries, i) && Linked(c', i)
    {
      DepthKept(c.entries, c'.entries, i);
      assert Linked(c, i);
    }
    assert Linked(c, parent);
  }

  lemma RetryKeepsForest(c: Collection, parent: int)
    requires Shapes(c) && Forest(c) && OwesRetry(c, parent)
    requires forall j :: !IsRetryOf(c, j, parent)
    ensures Forest(AddRetry(c, parent))
    ensures IsRetryOf(AddRetry(c, parent), c.nextId, parent)
    ensures Depth(AddRetry(c, parent).entries, c.nextId) == Depth(c.entries, parent) + 1
    ensures forall i :: i in c.entries ==> Depth(AddRetry(c, parent).entries, i) == Depth(c.entries, i)
  {
    var c' := AddRetry(c, parent);
    var n := c.nextId;
    assert n !in c.entries;
    RetryKeepsLinks(c, parent);
    assert Depth(c'.entries, n) == Depth(c'.entries, parent) + 1;
    forall i | i in c'.entries
      ensures Linked(c', i) && Depth(c'.entries, i) <= RetryLimit(c.kube)
    {
      assert i != n ==> i in c.entries;
    }
    forall p, i, j | IsRetryOf(c', i, p) && IsRetryOf(c', j, p)
      ensures i == j
    {
      RetriesAfter(c, parent, i, p);
      RetriesAfter(c, parent, j, p);
    }
  }

  lemma RetriesAfter(c: Collection, parent: int, i: int, p: int)
    requires Shapes(c) && Forest(c) && parent in c.entries
    ensures IsRetryOf(AddRetry(c, parent), i, p) <==> IsRetryOf(c, i, p) || (i == c.nextId && p == parent)
  {
    assert c.nextId !in c.entries;
  }

  lemma RetryKeepsInvariant(c: Collection, parent: int)
    requires c.uid == c.kube.uid && Partition(c) && Shapes(c) && Forest(c)
    requires OwesRetry(c, parent)
    requires forall j :: !IsRetryOf(c, j, parent)
    requires forall i :: i != parent && OwesRetry(c, i) ==> HasRetry(c, i)
    ensures CollectionOk(AddRetry(c, parent))
  {
    RetryKeepsPartition(c, parent);
    RetryKeepsForest(c, parent);
    var c' := AddRetry(c, parent);
    forall i | OwesRetry(c', i)
      ensures HasRetry(c', i)
    {
      assert i != c.nextId;
      if i == parent {
        assert IsRetryOf(c', c.nextId, i);
      } else {
        assert OwesRetry(c, i);
        var j :| IsRetryOf(c, j, i);
        RetriesAfter(c, parent, j, i);
      }
    }
  }

  // ---- handleFinishedRunningTestJob ----

  /** A result says 100 percent exactly when its suite passed. */
  lemma PercentMeansSuccess(suite: Option<Totals>, result: TestResult)
    requires exists id, e, log, report :: result == ResultOf(id, e, suite, log, report)
    ensures result.percent.Some? && result.percent.value <= 100
    ensures result.percent.value == 100 <==> SuiteSuccess(suite)
  {
    if suite.Some? && suite.value.tests > 0 {
      PercentBelowHundred(PassedTests(suite), suite.value.tests);
    }
  }

  lemma PercentBelowHundred(part: int, whole: int)
    requires whole > 0 && part <= whole
    ensures Percentage(part, whole) <= 100
    ensures Percentage(part, whole) == 100 <==> part == whole
  {
    if part == whole {
      GoDivOf(100, whole);
    } else {
      GoDivBelow(100 * part, whole, 100);
    }
  }

  /** The result that finishing a test records. */
  function FinalResult(c: Collection, id: int, status: EntryStatus, podLog: string, report: string, job: Job,
                       suite: Option<Totals>): TestResult
    requires id in c.entries
  {
    ResultOf(id, c.entries[id].(status := status), suite,
             if c.kube.objectStorage && |podLog| > 0 then Some(job.podLogObject) else None,
             if c.kube.objectStorage && |report| > 0 then Some(job.junitObject) else None)
  }

  lemma FinalResultFits(c: Collection, id: int, status: EntryStatus, podLog: string, report: string, job: Job,
                        suite: Option<Totals>)
    requires CollectionOk(c) && id in c.entries && c.entries[id].status == EntryRunning
    requires status == EntryComplete || status == EntryExpired
    ensures
      var result := FinalResult(c, id, status, podLog, report, job, suite);
      && Finishes(c, id, status, result)
      && (Succeeded(Done(c.entries[id], status, result)) <==> SuiteSuccess(suite))
  {
    RunningIsListed(c, id);
    var result := FinalResult(c, id, status, podLog, report, job, suite);
    PercentMeansSuccess(suite, result);
  }

  /** The collection, the persistence records and the report of a change that finishing a test leaves:
      the test completes, and it is retried exactly when it failed with retries remaining. */
  function Finished(c: Collection, clock: int, id: int, done: Entry): Outcome
    requires id in c.running
  {
    var c1 := MoveToCompleted(c, id, done);
    if !Succeeded(done) && Depth(c1.entries, id) < FailureRetries(c.kube) then
      Outcome(AddRetry(c1, id), clock,
              [EntryResult(c.uid, id), EntryShallow(c.uid, id),
               EntryShallow(c.uid, c.nextId), EntrySpec(c.uid, c.nextId)], [], true, false)
    else Outcome(c1, clock, [EntryResult(c.uid, id), EntryShallow(c.uid, id)], [], true, false)
  }

  lemma FinishEffect(c: Collection, clock: int, id: int, status: EntryStatus, podLog: string, report: string,
                     job: Job, suite: Option<Totals>)
    requires id in c.entries && id in c.running
    requires
      var done := Done(c.entries[id], status, FinalResult(c, id, status, podLog, report, job, suite));
      Succeeded(done) <==> SuiteSuccess(suite)
    ensures
      var done := Done(c.entries[id], status, FinalResult(c, id, status, podLog, report, job, suite));
      var c0 := WithEntry(c, id, c.entries[id].(processed := true, status := status));
      Finish(c0, clock, id, podLog, report, job, suite) == Finished(c, clock, id, done)
  {
    var c0 := WithEntry(c, id, c.entries[id].(processed := true, status := status));
    var done := Done(c.entries[id], status, FinalResult(c, id, status, podLog, report, job, suite));
    assert c0.entries[id := done] == c.entries[id := done];
  }

  lemma OwesRetryWhenFailed(c: Collection, id: int, status: EntryStatus, result: TestResult)
    requires CollectionOk(c) && Finishes(c, id, status, result)
    ensures id in c.running
    ensures
      var done := Done(c.entries[id], status, result);
      var c1 := MoveToCompleted(c, id, done);
      OwesRetry(c1, id) <==> !Succeeded(done) && Depth(c1.entries, id) < FailureRetries(c.kube)
  {
    RunningIsListed(c, id);
  }

  lemma FinishedKeepsInvariant(c: Collection, clock: int, id: int, status: EntryStatus, result: TestResult)
    requires CollectionOk(c) && Finishes(c, id, status, result)
    ensures id in c.running
    ensures CollectionOk(Finished(c, clock, id, Done(c.entries[id], status, result)).coll)
  {
    CompletionKeepsPartition(c, id, status, result);
    CompletionKeepsForest(c, id, status, result);
    OwesRetryWhenFailed(c, id, status, result);
    var c1 := MoveToCompleted(c, id, Done(c.entries[id], status, result));
    if OwesRetry(c1, id) {
      RetryKeepsInvariant(c1, id);
    }
  }

  /** Finishing a running test in either way leaves `Finished` and keeps the invariant. */
  lemma FinishKeepsInvariant(c: Collection, clock: int, id: int, status: EntryStatus, podLog: string,
                             report: string, job: Job, suite: Option<Totals>)
    requires CollectionOk(c) && id in c.entries && c.entries[id].status == EntryRunning
    requires status == EntryComplete || status == EntryExpired
    ensures id in c.running
    ensures
      var done := Done(c.entries[id], status, FinalResult(c, id, status, podLog, report, job, suite));
      var c0 := WithEntry(c, id, c.entries[id].(processed := true, status := status));
      && Finish(c0, clock, id, podLog, report, job, suite) == Finished(c, clock, id, done)
      && CollectionOk(Finished(c, clock, id, done).coll)
  {
    RunningIsListed(c, id);
    FinalResultFits(c, id, status, podLog, report, job, suite);
    FinishEffect(c, clock, id, status, podLog, report, job, suite);
    FinishedKeepsInvariant(c, clock, id, status, FinalResult(c, id, status, podLog, report, job, suite));
  }

  // ---- processRunningJobs ----

  lemma HandleJobKeepsInvariant(c: Collection, clock: int, job: Job, ingest: string -> seq<Totals>)
    requires CollectionOk(c) && job.entry.Some?
    ensures CollectionOk(HandleJob(c, clock, job, ingest).coll)
    ensures HandleJob(c, clock, job, ingest).changed || HandleJob(c, clock, job, ingest).coll == c
  {
    var id := job.entry.value;
    if id in c.entries && c.entries[id].status == EntryRunning {
      RunningIsListed(c, id);
      var podLog := GetOr(job.podLog, "");
      if job.completionTime.Some? {
        var report := if job.podLog.Some? then Junit.ExtractReport(podLog) else "";
        var suite := SuiteIn(job.podLog, ingest);
        FinishKeepsInvariant(c, clock, id, EntryComplete, podLog, report, job, suite);
      } else if job.startTime.Some? {
        FinishKeepsInvariant(c, clock + job.delay, id, EntryExpired, "", "", job, None);
      }
    }
  }

  lemma {:induction false} RunJobsKeepsInvariant(c: Collection, clock: int, jobs: seq<Job>, ingest: string -> seq<Totals>)
    requires CollectionOk(c) && forall job :: job in jobs ==> job.entry.Some?
    ensures CollectionOk(RunJobs(c, clock, jobs, ingest).coll)
    ensures !RunJobs(c, clock, jobs, ingest).changed ==> RunJobs(c, clock, jobs, ingest).coll == c
  {
    hide CollectionOk, HandleJob;
    if jobs != [] {
      RunJobsKeepsInvariant(c, clock, jobs[..|jobs| - 1], ingest);
      var before := RunJobs(c, clock, jobs[..|jobs| - 1], ingest);
      HandleJobKeepsInvariant(before.coll, before.clock, jobs[|jobs| - 1], ingest);
    }
  }

  // ---- processWaitingTests ----

  /** A test whose job could not be created goes to the back of the list it came from. */
  function PutBack(c: Collection, fromQueued: bool): Collection
    requires if fromQueued then c.queued != [] else c.retry != []
  {
    if fromQueued then c.(queued := c.queued[1..] + [c.queued[0]])
    else c.(retry := c.retry[1..] + [c.retry[0]])
  }

  lemma RotateMembers(s: seq<int>)
    requires s != [] && NoDuplicates(s)
    ensures NoDuplicates(s[1..] + [s[0]])
    ensures forall x :: x in s[1..] + [s[0]] <==> x in s
  {
    var head := s[0];
    assert s == [head] + s[1..];
    assert head !in s[1..];
  }

  lemma PutBackKeepsInvariant(c: Collection, fromQueued: bool)
    requires CollectionOk(c)
    requires if fromQueued then c.queued != [] else c.retry != []
    ensures CollectionOk(PutBack(c, fromQueued))
  {
    RotateMembers(if fromQueued then c.queued else c.retry);
    var c' := PutBack(c, fromQueued);
    assert SameLinks(c, c');
    ForestKept(c, c');
    RetriedKept(c, c');
  }

  /** A turn of the loop tries the first queued test, or the first retry when no test is queued. */
  lemma TurnTakesTheFirst(c: Collection, answer: Answer)
    requires CollectionOk(c)
    ensures c.queued == [] && c.retry == [] ==> TakeTurn(c, answer) == Nothing
    ensures c.queued != [] || c.retry != [] ==>
      var fromQueued := c.queued != [];
      var id := if fromQueued then c.queued[0] else c.retry[0];
      && id in c.entries
      && TakeTurn(c, answer) ==
           if Accepted(answer, c.uid) then Begun(MoveToRunning(c, fromQueued, answer), id)
           else Refused(PutBack(c, fromQueued))
  {
    FirstIsWaiting(c);
    if c.queued != [] {
      HeadIsListed(c, c.queued, InQueued);
      assert RemoveAt(c.queued, 0) == c.queued[1..];
    } else if c.retry != [] {
      HeadIsListed(c, c.retry, InRetry);
      assert RemoveAt(c.retry, 0) == c.retry[1..];
    }
  }

  lemma TurnKeepsInvariant(c: Collection, answer: Answer)
    requires CollectionOk(c)
    ensures TakeTurn(c, answer).Refused? ==> CollectionOk(TakeTurn(c, answer).coll)
    ensures TakeTurn(c, answer).Begun? ==> CollectionOk(TakeTurn(c, answer).coll)
  {
    TurnTakesTheFirst(c, answer);
    if c.queued != [] || c.retry != [] {
      var fromQueued := c.queued != [];
      if Accepted(answer, c.uid) {
        StartKeepsInvariant(c, fromQueued, answer);
      } else {
        PutBackKeepsInvariant(c, fromQueued);
      }
    }
  }

  lemma {:induction false} StartTestsKeepsInvariant(c: Collection, clock: int, starts: seq<int>, budget: int,
                                                    answers: nat -> Answer, attempt: nat)
    requires CollectionOk(c)
    ensures CollectionOk(StartTests(c, clock, starts, budget, answers, attempt).coll)
    decreases if budget > 0 then budget else 0
  {
    hide TakeTurn, CollectionOk;
    if budget > 0 && CanStartMore(starts, clock + answers(attempt).checkDelay, c.kube) {
      TurnKeepsInvariant(c, answers(attempt));
      var turn := TakeTurn(c, answers(attempt));
      if turn.Begun? {
        var time := clock + answers(attempt).checkDelay + answers(attempt).startDelay;
        StartTestsKeepsInvariant(turn.coll, time, starts + [time], budget - 1, answers, attempt + 1);
      }
    }
  }

  lemma StartTestsReportsChange(c: Collection, clock: int, starts: seq<int>, budget: int,
                                answers: nat -> Answer, attempt: nat)
    ensures
      var o := StartTests(c, clock, starts, budget, answers, attempt);
      !o.changed ==> o == Unchanged(c, o.clock)
  {
  }

  /** Processing a collection, whatever the cluster answers, keeps the invariant; and a collection that
      reports no change is exactly as before. */
  lemma ProcessKeepsInvariant(c: Collection, clock: int, starts: seq<int>, cluster: Cluster)
    requires CollectionOk(c)
    ensures CollectionOk(ProcessCollection(c, clock, starts, cluster).coll)
    ensures !ProcessCollection(c, clock, starts, cluster).changed ==>
              ProcessCollection(c, clock, starts, cluster).coll == c
  {
    hide CollectionOk, RunJobs, StartTests, KoupletJobs;
    if cluster.Cluster? {
      var jobs := KoupletJobs(cluster.jobs, c.uid);
      RunJobsKeepsInvariant(c, clock, jobs, cluster.ingest);
      var finished := RunJobs(c, clock, jobs, cluster.ingest);
      if !finished.changed {
        var budget := ActiveLimit(c.kube) - Uncompleted(jobs);
        StartTestsKeepsInvariant(c, finished.clock, starts, budget, cluster.answers, 0);
        StartTestsReportsChange(c, finished.clock, starts, budget, cluster.answers, 0);
      }
    }
  }

  // ---- New collections ----

  lemma {:induction false} NewTestsQueued(kube: KubeTest, clock: int, n: nat)
    requires n <= |kube.tests|
    ensures
      var c := WithTests(kube, clock, n);
      && c.kube == kube && c.retry == [] && c.running == [] && c.completed == []
      && |c.queued| == n && (forall i :: 0 <= i < n ==> c.queued[i] == i)
      && (forall i :: i in c.entries <==> 0 <= i < n)
      && (forall i :: 0 <= i < n ==> c.entries[i] == NewEntry(i, kube.tests[i]))
  {
    if n > 0 {
      NewTestsQueued(kube, clock, n - 1);
    }
  }

  lemma NewCollectionOk(kube: KubeTest, clock: int)
    ensures CollectionOk(WithTests(kube, clock, |kube.tests|))
  {
    hide WithTests;
    NewTestsQueued(kube, clock, |kube.tests|);
    var c := WithTests(kube, clock, |kube.tests|);
    assert forall i :: i in c.entries ==> Depth(c.entries, i) == 0;
    forall i
      ensures i in c.queued <==> i in c.entries
    {
      if i in c.entries {
        assert c.queued[i] == i;
      }
    }
  }
}
