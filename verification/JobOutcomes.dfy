/** What becomes of a running test, told from its job, its settings and the clock alone. */
module JobOutcomes {
  import opened Prelude
  import opened TestModel
  import opened CollectionSteps
  import opened CollectionInvariant
  import opened CollectionProofs
  import opened Starts
  import Junit
  import StartLedger
  import Termination

  // ---- Percentages and results ----

  /** `percent` is the integer part of 100 * part / whole. */
  predicate IsPercentage(percent: int, part: int, whole: int) {
    if whole == 0 then percent == -0x8000_0000_0000_0000
    else if part >= 0 then percent * whole <= 100 * part < (percent + 1) * whole
    else (percent - 1) * whole < 100 * part <= percent * whole
  }

  lemma PercentageIs(part: int, whole: int)
    requires whole >= 0
    ensures IsPercentage(Percentage(part, whole), part, whole)
  {
  }

  /** What a result says of an entry whose report reads as `suite`, and where its log and its report are kept. */
  predicate Reports(r: TestResult, e: Entry, status: string, suite: Option<Totals>, log: Option<string>, report: Option<string>) {
    && r.id == e.id && r.status == status
    && r.test == e.spec.values && r.labels == e.spec.labels
    && r.retryFrom == e.retryFrom && r.cluster == e.cluster
    && r.log == log && r.result == report
    && match suite
       case Some(s) =>
         && r.numTests == Some(s.tests) && r.numErrors == Some(s.errors) && r.numFailures == Some(s.failed)
         && r.testTime == Some(s.durationMillis)
         && r.percent.Some? && IsPercentage(r.percent.value, s.tests - s.failed - s.errors, s.tests)
       case None =>
         && r.numTests == Some(0) && r.numErrors == Some(0) && r.numFailures == Some(0)
         && r.testTime == Some(0) && r.percent == Some(0)
  }

  lemma ResultReports(e: Entry, suite: Option<Totals>, log: Option<string>, report: Option<string>)
    ensures Reports(ResultOf(e.id, e, suite, log, report), e, EntryStatusName(e.status), suite, log, report)
  {
    if suite.Some? {
      PercentageIs(suite.value.tests - suite.value.failed - suite.value.errors, suite.value.tests);
    }
  }

  // ---- The jobs of other tests ----

  /** The job at position `i` is the only one of the entry `id` of the collection `uid`. */
  predicate OnlyJob(jobs: seq<Job>, i: int, uid: string, id: int) {
    && 0 <= i < |jobs|
    && jobs[i].collection == Some(uid) && jobs[i].entry == Some(id)
    && NoJobIn(jobs[..i], uid, id) && NoJobIn(jobs[i + 1..], uid, id)
  }

  predicate NoJobIn(jobs: seq<Job>, uid: string, id: int) {
    forall job :: job in jobs && job.collection == Some(uid) ==> job.entry != Some(id)
  }

  /** An entry of one collection is the same in another. */
  ghost predicate Keeps(c: Collection, d: Collection, id: int) {
    id in c.entries && id in d.entries && d.entries[id] == c.entries[id]
  }

  lemma FinishLeaves(c: Collection, clock: int, id: int, podLog: string, report: string, job: Job, suite: Option<Totals>)
    requires id in c.entries && c.nextId !in c.entries
    ensures
      var d := Finish(c, clock, id, podLog, report, job, suite).coll;
      && d.kube == c.kube && d.uid == c.uid && id in d.entries
      && (forall i :: i in c.entries && i != id ==> Keeps(c, d, i))
      && (forall j, p :: p != id && IsRetryOf(d, j, p) ==> IsRetryOf(c, j, p))
  {
    hide ResultOf, SuiteSuccess, Depth;
  }

  /** A job changes no entry but its own, and that one only while it is running. */
  lemma HandleJobLeaves(c: Collection, clock: int, job: Job, ingest: string -> seq<Totals>)
    requires CollectionOk(c) && job.entry.Some?
    ensures
      var d := HandleJob(c, clock, job, ingest).coll;
      && d.kube == c.kube && d.uid == c.uid
      && (forall i :: i in c.entries && (i != job.entry.value || c.entries[i].status != EntryRunning) ==> Keeps(c, d, i))
      && (forall i :: i in c.entries ==> i in d.entries)
      && (forall j, p :: p != job.entry.value && IsRetryOf(d, j, p) ==> IsRetryOf(c, j, p))
  {
    hide CollectionOk, Finish, SuiteIn, Junit.ExtractReport;
    NextIsNew(c);
    var id := job.entry.value;
    if id in c.entries {
      var complete := WithEntry(c, id, c.entries[id].(processed := true, status := EntryComplete));
      var expired := WithEntry(c, id, c.entries[id].(processed := true, status := EntryExpired));
      var podLog := GetOr(job.podLog, "");
      FinishLeaves(complete, clock, id, podLog, if job.podLog.Some? then Junit.ExtractReport(podLog) else "", job,
                   SuiteIn(job.podLog, ingest));
      FinishLeaves(expired, clock + job.delay, id, "", "", job, None);
      var d := HandleJob(c, clock, job, ingest).coll;
      forall i | i in c.entries && (i != id || c.entries[i].status != EntryRunning)
        ensures Keeps(c, d, i)
      {
        assert i != id ==> Keeps(complete, Finish(complete, clock, id, podLog,
          if job.podLog.Some? then Junit.ExtractReport(podLog) else "", job, SuiteIn(job.podLog, ingest)).coll, i);
        assert i != id ==> Keeps(expired, Finish(expired, clock + job.delay, id, "", "", job, None).coll, i);
      }
    }
  }

  lemma NextIsNew(c: Collection)
    requires CollectionOk(c)
    ensures c.nextId !in c.entries
  {
  }

  lemma {:induction false} RunJobsLeave(c: Collection, clock: int, jobs: seq<Job>, ingest: string -> seq<Totals>, id: int)
    requires CollectionOk(c) && id in c.entries && forall job :: job in jobs ==> job.entry.Some?
    requires c.entries[id].status != EntryRunning || forall job :: job in jobs ==> job.entry != Some(id)
    ensures
      var o := RunJobs(c, clock, jobs, ingest);
      && Keeps(c, o.coll, id) && o.coll.kube == c.kube && o.coll.uid == c.uid
      && ((forall job :: job in jobs ==> job.entry != Some(id)) ==> forall j :: IsRetryOf(o.coll, j, id) ==> IsRetryOf(c, j, id))
  {
    hide CollectionOk, HandleJob;
    if jobs != [] {
      var front, last := jobs[..|jobs| - 1], jobs[|jobs| - 1];
      assert last in jobs;
      RunJobsLeave(c, clock, front, ingest, id);
      RunJobsKeepsInvariant(c, clock, front, ingest);
      var before := RunJobs(c, clock, front, ingest);
      HandleJobLeaves(before.coll, before.clock, last, ingest);
    }
  }

  /** The loop over a list of jobs that has two parts. */
  lemma {:induction false} RunJobsAppend(c: Collection, clock: int, a: seq<Job>, b: seq<Job>, ingest: string -> seq<Totals>)
    requires forall job :: job in a + b ==> job.entry.Some?
    requires (forall job :: job in a ==> job.entry.Some?) && forall job :: job in b ==> job.entry.Some?
    ensures
      var first := RunJobs(c, clock, a, ingest);
      var second := RunJobs(first.coll, first.clock, b, ingest);
      var o := RunJobs(c, clock, a + b, ingest);
      o.coll == second.coll && o.clock == second.clock && o.changed == (first.changed || second.changed)
  {
    hide HandleJob;
    if b == [] {
      assert a + b == a;
    } else {
      var front, last := b[..|b| - 1], b[|b| - 1];
      assert (a + b)[..|a + b| - 1] == a + front;
      assert forall job :: job in a + front ==> job in a + b;
      RunJobsAppend(c, clock, a, front, ingest);
    }
  }

  lemma RunOneJob(c: Collection, clock: int, job: Job, ingest: string -> seq<Totals>)
    requires job.entry.Some?
    ensures
      var o, h := RunJobs(c, clock, [job], ingest), HandleJob(c, clock, job, ingest);
      o.coll == h.coll && o.clock == h.clock && o.changed == h.changed
  {
    hide HandleJob;
    assert [job][..0] == [];
    assert RunJobs(c, clock, [job][..0], ingest) == Unchanged(c, clock);
  }

  lemma JobsSplit(jobs: seq<Job>, i: nat, uid: string)
    requires i < |jobs| && IsKoupletJob(jobs[i], uid)
    ensures KoupletJobs(jobs, uid) == KoupletJobs(jobs[..i], uid) + ([jobs[i]] + KoupletJobs(jobs[i + 1..], uid))
  {
    hide IsKoupletJob;
    var keep := (job: Job) => IsKoupletJob(job, uid);
    assert jobs == jobs[..i] + ([jobs[i]] + jobs[i + 1..]);
    FilterAppend(jobs[..i], [jobs[i]] + jobs[i + 1..], keep);
    FilterAppend([jobs[i]], jobs[i + 1..], keep);
    assert [jobs[i]][..0] == [];
    assert Filter([jobs[i]], keep) == [jobs[i]];
  }

  // ---- The turn of the only job of a test ----

  /** The collection and the clock as they are when the job at position `i` has its turn. */
  function BeforeTurn(c: Collection, clock: int, cluster: Cluster, i: int): Outcome
    requires cluster.Cluster? && 0 <= i < |cluster.jobs|
  {
    RunJobs(c, clock, KoupletJobs(cluster.jobs[..i], c.uid), cluster.ingest)
  }

  lemma OthersComeBefore(c: Collection, clock: int, cluster: Cluster, i: int, id: int)
    requires CollectionOk(c) && cluster.Cluster? && OnlyJob(cluster.jobs, i, c.uid, id) && id in c.entries
    ensures
      var before := BeforeTurn(c, clock, cluster, i);
      CollectionOk(before.coll) && Keeps(c, before.coll, id) && before.coll.kube == c.kube && before.coll.uid == c.uid
  {
    hide CollectionOk;
    RunJobsLeave(c, clock, KoupletJobs(cluster.jobs[..i], c.uid), cluster.ingest, id);
    RunJobsKeepsInvariant(c, clock, KoupletJobs(cluster.jobs[..i], c.uid), cluster.ingest);
  }

  /** What is left of an entry that no longer waits is decided when the running jobs have been looked at. */
  lemma FinishedIsFinal(c: Collection, clock: int, starts: seq<int>, cluster: Cluster, id: int)
    requires CollectionOk(c) && cluster.Cluster? && id in c.entries && c.entries[id].status != EntryWaiting
    ensures
      var finished := RunJobs(c, clock, KoupletJobs(cluster.jobs, c.uid), cluster.ingest);
      id in finished.coll.entries ==> Keeps(finished.coll, ProcessCollection(c, clock, starts, cluster).coll, id)
  {
    hide CollectionOk, RunJobs, StartTests, KoupletJobs, Uncompleted;
    var jobs := KoupletJobs(cluster.jobs, c.uid);
    RunJobsKeepsInvariant(c, clock, jobs, cluster.ingest);
    var finished := RunJobs(c, clock, jobs, cluster.ingest);
    if !finished.changed {
      var budget := ActiveLimit(c.kube) - Uncompleted(jobs);
      StartTestsLeave(c, finished.clock, starts, budget, cluster.answers, 0, id);
    }
  }

  /** Processing a collection leaves a running test as the turn of its only job leaves it. */
  lemma OnlyJobDecides(c: Collection, clock: int, starts: seq<int>, cluster: Cluster, i: int, id: int)
    requires CollectionOk(c) && cluster.Cluster? && OnlyJob(cluster.jobs, i, c.uid, id)
    requires id in c.entries && c.entries[id].status == EntryRunning
    ensures
      var before := BeforeTurn(c, clock, cluster, i);
      var h := HandleJob(before.coll, before.clock, cluster.jobs[i], cluster.ingest);
      var d := ProcessCollection(c, clock, starts, cluster).coll;
      && CollectionOk(h.coll) && Keeps(h.coll, d, id)
      && (h.coll.entries[id].status != EntryRunning ==>
            && (forall j :: j in h.coll.entries && h.coll.entries[j].status == EntryWaiting ==> Keeps(h.coll, d, j))
            && (forall j :: IsRetryOf(d, j, id) ==> IsRetryOf(h.coll, j, id)))
  {
    hide CollectionOk, HandleJob, ProcessCollection, RunJobs, KoupletJobs;
    OthersComeBefore(c, clock, cluster, i, id);
    var job, before := cluster.jobs[i], BeforeTurn(c, clock, cluster, i);
    var pre, post := KoupletJobs(cluster.jobs[..i], c.uid), KoupletJobs(cluster.jobs[i + 1..], c.uid);
    JobsSplit(cluster.jobs, i, c.uid);
    RunJobsAppend(c, clock, pre, [job] + post, cluster.ingest);
    RunJobsAppend(before.coll, before.clock, [job], post, cluster.ingest);
    RunOneJob(before.coll, before.clock, job, cluster.ingest);
    var h := HandleJob(before.coll, before.clock, job, cluster.ingest);
    HandleJobKeepsInvariant(before.coll, before.clock, job, cluster.ingest);
    HandleJobLeaves(before.coll, before.clock, job, cluster.ingest);
    RunJobsLeave(h.coll, h.clock, post, cluster.ingest, id);
    FinishedIsFinal(c, clock, starts, cluster, id);
    if h.coll.entries[id].status != EntryRunning {
      ChangesEndTheTurn(c, clock, starts, cluster);
      forall j | j in h.coll.entries && h.coll.entries[j].status == EntryWaiting
        ensures Keeps(h.coll, ProcessCollection(c, clock, starts, cluster).coll, j)
      {
        RunJobsLeave(h.coll, h.clock, post, cluster.ingest, j);
      }
    }
  }

  /** When looking at the running jobs has changed something, nothing is started. */
  lemma ChangesEndTheTurn(c: Collection, clock: int, starts: seq<int>, cluster: Cluster)
    requires cluster.Cluster?
    ensures
      var finished := RunJobs(c, clock, KoupletJobs(cluster.jobs, c.uid), cluster.ingest);
      finished.changed ==> ProcessCollection(c, clock, starts, cluster) == finished
  {
    hide RunJobs, KoupletJobs;
  }

  // ---- How a test finishes ----

  /** The entry `e`, finished with this status and a result. */
  predicate FinishedAs(e: Entry, done: Entry, status: EntryStatus, name: string, suite: Option<Totals>,
                       log: Option<string>, report: Option<string>) {
    && done == e.(status := status, processed := true, bucket := InCompleted, result := done.result)
    && done.result.Some? && Reports(done.result.value, e, name, suite, log, report)
  }

  /** The only retry of an entry is as new. */
  ghost predicate RetryIsNew(d: Collection, id: int, spec: TestSpec) {
    forall j :: IsRetryOf(d, j, id) ==> d.entries[j] == Entry(j, Some(id), EntryWaiting, None, spec, None, false, InRetry)
  }

  lemma FinishingGives(c: Collection, clock: int, id: int, status: EntryStatus, podLog: string, report: string,
                       job: Job, suite: Option<Totals>)
    requires CollectionOk(c) && id in c.entries && c.entries[id].status == EntryRunning
    requires status == EntryComplete || status == EntryExpired
    ensures
      var c0 := WithEntry(c, id, c.entries[id].(processed := true, status := status));
      var d := Finish(c0, clock, id, podLog, report, job, suite).coll;
      && id in d.entries
      && FinishedAs(c.entries[id], d.entries[id], status, EntryStatusName(status), suite,
                    if c.kube.objectStorage && podLog != "" then Some(job.podLogObject) else None,
                    if c.kube.objectStorage && report != "" then Some(job.junitObject) else None)
      && RetryIsNew(d, id, c.entries[id].spec)
  {
    hide CollectionOk, Finish, ResultOf, Reports, Succeeded, Depth;
    FinishKeepsInvariant(c, clock, id, status, podLog, report, job, suite);
    RunningIsListed(c, id);
    IdIs(c, id);
    var log := if c.kube.objectStorage && |podLog| > 0 then Some(job.podLogObject) else None;
    var xml := if c.kube.objectStorage && |report| > 0 then Some(job.junitObject) else None;
    SameReports(c.entries[id], status, suite, log, xml);
    var done := Done(c.entries[id], status, FinalResult(c, id, status, podLog, report, job, suite));
    NextIsNew(c);
    var d := Finished(c, clock, id, done).coll;
    assert d.entries[id] == done;
    forall j | IsRetryOf(d, j, id)
      ensures d.entries[j] == Entry(j, Some(id), EntryWaiting, None, c.entries[id].spec, None, false, InRetry)
    {
      assert j != c.nextId ==> IsRetryOf(c, j, id);
    }
  }

  lemma SameReports(e: Entry, status: EntryStatus, suite: Option<Totals>, log: Option<string>, report: Option<string>)
    ensures Reports(ResultOf(e.id, e.(status := status), suite, log, report), e, EntryStatusName(status), suite, log, report)
  {
    hide IsPercentage, Percentage;
    ResultReports(e.(status := status), suite, log, report);
  }

  lemma IdIs(c: Collection, id: int)
    requires CollectionOk(c) && id in c.entries
    ensures c.entries[id].id == id
  {
  }

  // ---- Expiry ----

  /** The time for which a test may run: its own timeout, else the KoupletTest's, else an hour, in nanoseconds. */
  function TimeLimit(kube: KubeTest, spec: TestSpec): int {
    1_000_000_000 *
    match spec.timeout
    case Some(seconds) => seconds
    case None => match kube.defaultTestExpireTime case Some(seconds) => seconds case None => 3600
  }

  /** The time that is read for the job at position `i`. */
  function TimeRead(c: Collection, clock: int, cluster: Cluster, i: int): int
    requires cluster.Cluster? && 0 <= i < |cluster.jobs|
  {
    BeforeTurn(c, clock, cluster, i).clock + cluster.jobs[i].delay
  }

  lemma TurnOfStartedJob(c: Collection, clock: int, job: Job, ingest: string -> seq<Totals>, id: int)
    requires CollectionOk(c) && id in c.entries && c.entries[id].status == EntryRunning
    requires job.entry == Some(id) && job.completionTime.None? && job.startTime.Some?
    ensures
      var d := HandleJob(c, clock, job, ingest).coll;
      && id in d.entries
      && if clock + job.delay - job.startTime.value > TimeLimit(c.kube, c.entries[id].spec)
         then FinishedAs(c.entries[id], d.entries[id], EntryExpired, "Expired", None, None, None)
              && RetryIsNew(d, id, c.entries[id].spec)
         else d == c
  {
    hide CollectionOk, Finish, FinishedAs, RetryIsNew;
    FinishingGives(c, clock + job.delay, id, EntryExpired, "", "", job, None);
  }

  /** The retry is as new after the rest of the jobs, too. */
  lemma RetryStaysNew(c: Collection, clock: int, starts: seq<int>, cluster: Cluster, i: int, id: int, spec: TestSpec)
    requires CollectionOk(c) && id in c.entries && c.entries[id].status == EntryRunning
    requires cluster.Cluster? && OnlyJob(cluster.jobs, i, c.uid, id)
    requires
      var before := BeforeTurn(c, clock, cluster, i);
      var h := HandleJob(before.coll, before.clock, cluster.jobs[i], cluster.ingest).coll;
      id in h.entries && h.entries[id].bucket == InCompleted && RetryIsNew(h, id, spec)
    ensures RetryIsNew(ProcessCollection(c, clock, starts, cluster).coll, id, spec)
  {
    hide CollectionOk, HandleJob, ProcessCollection, RunJobs, KoupletJobs;
    OnlyJobDecides(c, clock, starts, cluster, i, id);
    var before := BeforeTurn(c, clock, cluster, i);
    var h := HandleJob(before.coll, before.clock, cluster.jobs[i], cluster.ingest).coll;
    CompletedIsNotRunning(h, id);
    SameRetries(h, ProcessCollection(c, clock, starts, cluster).coll, id, spec);
  }

  lemma CompletedIsNotRunning(c: Collection, id: int)
    requires CollectionOk(c) && id in c.entries && c.entries[id].bucket == InCompleted
    ensures c.entries[id].status != EntryRunning
  {
  }

  /** Whether a finished test is retried shows in its result and its depth. */
  lemma RetriedExactlyWhen(c: Collection, id: int)
    requires CollectionOk(c) && id in c.entries && c.entries[id].bucket == InCompleted
    ensures c.entries[id].result.Some?
    ensures
      var r := c.entries[id].result.value;
      HasRetry(c, id) <==>
        && !(r.numTests.Some? && r.numTests.value > 0 && r.numErrors in {None, Some(0)} && r.numFailures in {None, Some(0)})
        && Depth(c.entries, id) < match c.kube.failureRetries case Some(n) => n case None => 2
  {
    assert Shape(c.entries[id]);
    if j :| IsRetryOf(c, j, id) {
      assert Linked(c, j);
      assert Depth(c.entries, j) == Depth(c.entries, id) + 1;
    }
    assert OwesRetry(c, id) ==> HasRetry(c, id);
  }

  lemma SameRetries(h: Collection, d: Collection, id: int, spec: TestSpec)
    requires forall j :: j in h.entries && h.entries[j].status == EntryWaiting ==> Keeps(h, d, j)
    requires forall j :: IsRetryOf(d, j, id) ==> IsRetryOf(h, j, id)
    requires RetryIsNew(h, id, spec)
    ensures RetryIsNew(d, id, spec)
  {
  }

  /** A running test whose only job has started and not completed is expired exactly when it has been running for longer than
      its limit, and is untouched otherwise. */
  lemma ExpiresExactlyWhen(c: Collection, clock: int, starts: seq<int>, cluster: Cluster, i: int, id: int)
    requires CollectionOk(c) && id in c.entries && c.entries[id].status == EntryRunning
    requires cluster.Cluster? && OnlyJob(cluster.jobs, i, c.uid, id)
    requires cluster.jobs[i].startTime.Some? && cluster.jobs[i].completionTime.None?
    ensures
      var e, d := c.entries[id], ProcessCollection(c, clock, starts, cluster).coll;
      var tooLong := TimeRead(c, clock, cluster, i) - cluster.jobs[i].startTime.value > TimeLimit(c.kube, e.spec);
      && id in d.entries
      && (d.entries[id].status == EntryExpired && d.entries[id].bucket == InCompleted <==> tooLong)
      && (tooLong ==> FinishedAs(e, d.entries[id], EntryExpired, "Expired", None, None, None) && RetryIsNew(d, id, e.spec))
      && (!tooLong ==> d.entries[id] == e)
  {
    hide CollectionOk, HandleJob, ProcessCollection, RunJobs, KoupletJobs, TimeLimit, Reports;
    OthersComeBefore(c, clock, cluster, i, id);
    OnlyJobDecides(c, clock, starts, cluster, i, id);
    var before := BeforeTurn(c, clock, cluster, i);
    TurnOfStartedJob(before.coll, before.clock, cluster.jobs[i], cluster.ingest, id);
    var h := HandleJob(before.coll, before.clock, cluster.jobs[i], cluster.ingest).coll;
    if h.entries[id].bucket == InCompleted && RetryIsNew(h, id, c.entries[id].spec) {
      RetryStaysNew(c, clock, starts, cluster, i, id, c.entries[id].spec);
    }
  }

  // ---- Completion ----

  /** The one suite in the report of the job's log, if the log can be fetched and the report reads as one suite. */
  function ReportedSuite(job: Job, ingest: string -> seq<Totals>): Option<Totals> {
    match job.podLog
    case None => None
    case Some(log) => var suites := ingest(Junit.ExtractReport(log)); if |suites| == 1 then Some(suites[0]) else None
  }

  /** Where the log and the report of a job are kept: when there is a storage, and what is to be kept is not empty. */
  function KeptLog(kube: KubeTest, job: Job): Option<string> {
    if kube.objectStorage && job.podLog.Some? && job.podLog.value != "" then Some(job.podLogObject) else None
  }

  function KeptReport(kube: KubeTest, job: Job): Option<string> {
    if kube.objectStorage && job.podLog.Some? && Junit.ExtractReport(job.podLog.value) != "" then Some(job.junitObject)
    else None
  }

  lemma TurnOfCompletedJob(c: Collection, clock: int, job: Job, ingest: string -> seq<Totals>, id: int)
    requires CollectionOk(c) && id in c.entries && c.entries[id].status == EntryRunning
    requires job.entry == Some(id) && job.completionTime.Some?
    ensures
      var d := HandleJob(c, clock, job, ingest).coll;
      && id in d.entries
      && FinishedAs(c.entries[id], d.entries[id], EntryComplete, "Complete", ReportedSuite(job, ingest),
                    KeptLog(c.kube, job), KeptReport(c.kube, job))
      && RetryIsNew(d, id, c.entries[id].spec)
  {
    hide CollectionOk, Finish, FinishedAs, RetryIsNew, Junit.ExtractReport;
    RunningIsListed(c, id);
    var podLog := GetOr(job.podLog, "");
    var report := if job.podLog.Some? then Junit.ExtractReport(podLog) else "";
    FinishingGives(c, clock, id, EntryComplete, podLog, report, job, SuiteIn(job.podLog, ingest));
    assert SuiteIn(job.podLog, ingest) == ReportedSuite(job, ingest);
  }

  /** A running test whose only job has completed is complete, with the counts of its suite in its result and the places
      where its log and its report are kept. */
  lemma CompletesWithItsSuite(c: Collection, clock: int, starts: seq<int>, cluster: Cluster, i: int, id: int)
    requires CollectionOk(c) && id in c.entries && c.entries[id].status == EntryRunning
    requires cluster.Cluster? && OnlyJob(cluster.jobs, i, c.uid, id) && cluster.jobs[i].completionTime.Some?
    ensures
      var job, d := cluster.jobs[i], ProcessCollection(c, clock, starts, cluster).coll;
      && id in d.entries
      && FinishedAs(c.entries[id], d.entries[id], EntryComplete, "Complete", ReportedSuite(job, cluster.ingest),
                    KeptLog(c.kube, job), KeptReport(c.kube, job))
      && RetryIsNew(d, id, c.entries[id].spec)
  {
    hide CollectionOk, HandleJob, ProcessCollection, RunJobs, KoupletJobs, Reports, ReportedSuite, KeptLog, KeptReport;
    OthersComeBefore(c, clock, cluster, i, id);
    OnlyJobDecides(c, clock, starts, cluster, i, id);
    var before := BeforeTurn(c, clock, cluster, i);
    TurnOfCompletedJob(before.coll, before.clock, cluster.jobs[i], cluster.ingest, id);
    RetryStaysNew(c, clock, starts, cluster, i, id, c.entries[id].spec);
  }

  // ---- Otherwise ----

  /** A running test goes on as it is while its only job has neither completed nor started. */
  lemma NotStartedGoesOn(c: Collection, clock: int, starts: seq<int>, cluster: Cluster, i: int, id: int)
    requires CollectionOk(c) && id in c.entries && c.entries[id].status == EntryRunning
    requires cluster.Cluster? && OnlyJob(cluster.jobs, i, c.uid, id)
    requires cluster.jobs[i].startTime.None? && cluster.jobs[i].completionTime.None?
    ensures Keeps(c, ProcessCollection(c, clock, starts, cluster).coll, id)
  {
    hide CollectionOk, ProcessCollection, RunJobs, KoupletJobs;
    OthersComeBefore(c, clock, cluster, i, id);
    OnlyJobDecides(c, clock, starts, cluster, i, id);
  }

  /** A test that is not running, or has no job in the list, is not touched by the jobs; if it does not wait, it is not
      touched at all. */
  lemma WithoutJobGoesOn(c: Collection, clock: int, starts: seq<int>, cluster: Cluster, id: int)
    requires CollectionOk(c) && id in c.entries && c.entries[id].status != EntryWaiting
    requires cluster.Cluster? ==> c.entries[id].status != EntryRunning || NoJobIn(cluster.jobs, c.uid, id)
    ensures Keeps(c, ProcessCollection(c, clock, starts, cluster).coll, id)
  {
    hide CollectionOk, RunJobs, KoupletJobs;
    if cluster.Cluster? {
      RunJobsLeave(c, clock, KoupletJobs(cluster.jobs, c.uid), cluster.ingest, id);
      FinishedIsFinal(c, clock, starts, cluster, id);
    }
  }

  /** When no job comes before it, the clock is read once for the job. */
  lemma TimeReadFirst(c: Collection, clock: int, cluster: Cluster, i: int)
    requires cluster.Cluster? && 0 <= i < |cluster.jobs|
    ensures TimeRead(c, clock, cluster, i) >= clock + cluster.jobs[i].delay
    ensures (forall job :: job in cluster.jobs[..i] ==> job.collection != Some(c.uid)) ==>
              TimeRead(c, clock, cluster, i) == clock + cluster.jobs[i].delay
  {
    var mine := KoupletJobs(cluster.jobs[..i], c.uid);
    StartLedger.RunJobsTime(c, clock, mine, cluster.ingest);
    if forall job :: job in cluster.jobs[..i] ==> job.collection != Some(c.uid) {
      if |mine| > 0 {
        HasFirst(mine);
      }
    }
  }

  // ---- Looking at jobs comes before starting tests ----

  /** A test that was running has completed or expired. */
  ghost predicate HasFinished(c: Collection, d: Collection, id: int) {
    && id in c.entries && c.entries[id].status == EntryRunning
    && id in d.entries && d.entries[id].bucket == InCompleted
  }

  lemma ChangedTurn(c: Collection, clock: int, job: Job, ingest: string -> seq<Totals>)
    requires CollectionOk(c) && job.entry.Some?
    ensures
      var o := HandleJob(c, clock, job, ingest);
      o.changed ==> HasFinished(c, o.coll, job.entry.value)
  {
    hide CollectionOk, Finish, Reports, RetryIsNew, Junit.ExtractReport;
    var id := job.entry.value;
    if id in c.entries && c.entries[id].status == EntryRunning {
      if job.completionTime.Some? {
        TurnOfCompletedJob(c, clock, job, ingest, id);
      } else if job.startTime.Some? {
        TurnOfStartedJob(c, clock, job, ingest, id);
      }
    }
  }

  lemma {:induction false} ChangedTurns(c: Collection, clock: int, jobs: seq<Job>, ingest: string -> seq<Totals>)
    requires CollectionOk(c) && forall job :: job in jobs ==> job.entry.Some?
    ensures
      var o := RunJobs(c, clock, jobs, ingest);
      o.changed ==> exists id :: HasFinished(c, o.coll, id)
  {
    hide CollectionOk, HandleJob;
    if jobs != [] {
      var front, last := jobs[..|jobs| - 1], jobs[|jobs| - 1];
      assert last in jobs;
      ChangedTurns(c, clock, front, ingest);
      RunJobsKeepsInvariant(c, clock, front, ingest);
      var before := RunJobs(c, clock, front, ingest);
      ChangedTurn(before.coll, before.clock, last, ingest);
      HandleJobLeaves(before.coll, before.clock, last, ingest);
      if before.changed {
        var id :| HasFinished(c, before.coll, id);
        CompletedIsNotRunning(before.coll, id);
        assert HasFinished(c, RunJobs(c, clock, jobs, ingest).coll, id);
      } else if HandleJob(before.coll, before.clock, last, ingest).changed {
        assert HasFinished(c, RunJobs(c, clock, jobs, ingest).coll, last.entry.value);
      }
    }
  }

  /** Tests are started when, and only when, no running test has just finished; then nothing has changed before. */
  lemma FinishingComesFirst(c: Collection, clock: int, starts: seq<int>, cluster: Cluster)
    requires CollectionOk(c) && cluster.Cluster?
    ensures
      var o := ProcessCollection(c, clock, starts, cluster);
      var now := RunJobs(c, clock, KoupletJobs(cluster.jobs, c.uid), cluster.ingest).clock;
      if exists id :: HasFinished(c, o.coll, id) then o.begun == []
      else
        var w := RunWaiting(c, now, starts, cluster.jobs, cluster.answers);
        o.coll == w.coll && o.clock == w.clock && o.begun == w.begun && o.refused == w.refused
  {
    hide CollectionOk, RunJobs, KoupletJobs, RunWaiting;
    var jobs := KoupletJobs(cluster.jobs, c.uid);
    RunJobsKeepsInvariant(c, clock, jobs, cluster.ingest);
    ChangedTurns(c, clock, jobs, cluster.ingest);
    Termination.RunJobsNeverRefuses(c, clock, jobs, cluster.ingest);
    var o, finished := ProcessCollection(c, clock, starts, cluster), RunJobs(c, clock, jobs, cluster.ingest);
    if !finished.changed {
      if id :| HasFinished(c, o.coll, id) {
        RunWaitingLeaves(c, finished.clock, starts, cluster.jobs, cluster.answers, id);
        RunningIsListed(c, id);
      }
    }
  }

  lemma RunWaitingLeaves(c: Collection, clock: int, starts: seq<int>, jobs: seq<Job>, answers: nat -> Answer, id: int)
    requires CollectionOk(c) && id in c.entries && c.entries[id].status != EntryWaiting
    ensures Keeps(c, RunWaiting(c, clock, starts, jobs, answers).coll, id)
  {
    hide CollectionOk, StartTests, KoupletJobs, Uncompleted;
    StartTestsLeave(c, clock, starts, ActiveLimit(c.kube) - Uncompleted(KoupletJobs(jobs, c.uid)), answers, 0, id);
  }
}
