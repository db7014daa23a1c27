/** What one processing of a test collection does to it, as functions on values. */
module CollectionSteps {
  import opened Prelude
  import opened TestModel
  import Junit

  /** A collection after an operation, the clock, the persistence records the operation put
      (in order), the tests it started, whether it reports a change, and whether it ended with a
      job that could not be created. */
  datatype Outcome = Outcome(
    coll: Collection, clock: int, marks: seq<Mark>, begun: seq<Start>, changed: bool, refused: bool)

  function Unchanged(c: Collection, clock: int): Outcome {
    Outcome(c, clock, [], [], false, false)
  }

  function WithEntry(c: Collection, id: int, e: Entry): Collection {
    c.(entries := c.entries[id := e])
  }

  // ---- Results ----

  /** int(float32(NaN)) on amd64 */
  const NOT_A_NUMBER_AS_INT := -0x8000_0000_0000_0000

  /** `int(100 * part / whole)` */
  function Percentage(part: int, whole: int): int
    requires whole >= 0
  {
    if whole == 0 then NOT_A_NUMBER_AS_INT else GoDiv(100 * part, whole)
  }

  function FailedTests(suite: Option<Totals>): nat {
    if suite.Some? then suite.value.failed + suite.value.errors else 0
  }

  function PassedTests(suite: Option<Totals>): int {
    if suite.Some? then suite.value.tests - suite.value.failed - suite.value.errors else 0
  }

  predicate SuiteSuccess(suite: Option<Totals>) {
    PassedTests(suite) > 0 && FailedTests(suite) == 0
  }

  function ResultOf(id: int, e: Entry, suite: Option<Totals>, log: Option<string>, report: Option<string>): TestResult {
    TestResult(
      id, e.spec.values, EntryStatusName(e.status),
      Some(if suite.Some? then Percentage(PassedTests(suite), suite.value.tests) else 0),
      Some(if suite.Some? then suite.value.tests else 0),
      Some(if suite.Some? then suite.value.errors else 0),
      Some(if suite.Some? then suite.value.failed else 0),
      Some(if suite.Some? then suite.value.durationMillis else 0),
      e.spec.labels, report, log, e.retryFrom, e.cluster)
  }

  /** Whether an entry has a result, and the result counts tests of which none failed. */
  predicate Succeeded(e: Entry) {
    && e.result.Some?
    && GetOr(e.result.value.numTests, 0) > 0
    && GetOr(e.result.value.numErrors, 0) == 0
    && GetOr(e.result.value.numFailures, 0) == 0
  }

  // ---- Retry chains ----

  /** How many retries lie behind an entry. */
  function Depth(entries: map<int, Entry>, id: int): nat
    decreases id
  {
    if id in entries && entries[id].retryFrom.Some? && 0 <= entries[id].retryFrom.value < id then
      1 + Depth(entries, entries[id].retryFrom.value)
    else 0
  }

  /** The entry that starts the chain of an entry. */
  function Root(entries: map<int, Entry>, id: int): int
    decreases id
  {
    if id in entries && entries[id].retryFrom.Some? && 0 <= entries[id].retryFrom.value < id then
      Root(entries, entries[id].retryFrom.value)
    else id
  }

  // ---- Finishing running tests ----

  function RetryOf(parent: int, e: Entry, id: int): Entry {
    Entry(id, Some(parent), EntryWaiting, None, e.spec, None, false, InRetry)
  }

  /** handleFinishedRunningTestJob: the entry `id` leaves the running bucket with its result, and
      a failed test with retries remaining gets a new entry in the retry bucket. */
  function Finish(c: Collection, clock: int, id: int, podLog: string, report: string, job: Job,
                  suite: Option<Totals>): Outcome
    requires id in c.entries
  {
    var at := IndexOf(c.running, id);
    if at == |c.running| then Unchanged(c, clock)
    else
      var log := if c.kube.objectStorage && |podLog| > 0 then Some(job.podLogObject) else None;
      var xml := if c.kube.objectStorage && |report| > 0 then Some(job.junitObject) else None;
      var e := c.entries[id];
      var done := e.(result := Some(ResultOf(id, e, suite, log, xml)), bucket := InCompleted);
      var c1 := WithEntry(c, id, done).(running := RemoveAt(c.running, at), completed := c.completed + [id]);
      var marks := [EntryResult(c.uid, id), EntryShallow(c.uid, id)];
      if !SuiteSuccess(suite) && Depth(c1.entries, id) < FailureRetries(c.kube) then
        var again := RetryOf(id, done, c1.nextId);
        Outcome(
          WithEntry(c1, c1.nextId, again).(nextId := c1.nextId + 1, retry := c1.retry + [c1.nextId]),
          clock, marks + [EntryShallow(c.uid, c1.nextId), EntrySpec(c.uid, c1.nextId)], [], true, false)
      else
        Outcome(c1, clock, marks, [], true, false)
  }

  function SuiteIn(podLog: Option<string>, ingest: string -> seq<Totals>): Option<Totals> {
    if podLog.None? then None
    else
      var suites := ingest(Junit.ExtractReport(podLog.value));
      if |suites| == 1 then Some(suites[0]) else None
  }

  /** processCompletedJob */
  function CompleteJob(c: Collection, clock: int, id: int, job: Job, ingest: string -> seq<Totals>): Outcome
    requires id in c.entries
  {
    if c.entries[id].processed then Unchanged(c, clock)
    else
      var c1 := WithEntry(c, id, c.entries[id].(processed := true, status := EntryComplete));
      var podLog := GetOr(job.podLog, "");
      var report := if job.podLog.Some? then Junit.ExtractReport(podLog) else "";
      var o := Finish(c1, clock, id, podLog, report, job, SuiteIn(job.podLog, ingest));
      o.(marks := [EntryShallow(c.uid, id)] + o.marks)
  }

  function ExpireSeconds(kube: KubeTest, e: Entry): int {
    GetOr(e.spec.timeout, GetOr(kube.defaultTestExpireTime, DEFAULT_EXPIRE_TIME_IN_SECONDS))
  }

  function ExpireJob(c: Collection, clock: int, id: int, job: Job): Outcome
    requires id in c.entries
  {
    var c1 := WithEntry(c, id, c.entries[id].(processed := true, status := EntryExpired));
    var o := Finish(c1, clock, id, "", "", job, None);
    o.(marks := [EntryShallow(c.uid, id)] + o.marks)
  }

  /** One turn of the loop of processRunningJobs. */
  function HandleJob(c: Collection, clock: int, job: Job, ingest: string -> seq<Totals>): Outcome
    requires job.entry.Some?
  {
    var id := job.entry.value;
    if id !in c.entries || c.entries[id].status != EntryRunning then Unchanged(c, clock)
    else if job.completionTime.Some? then CompleteJob(c, clock, id, job, ingest)
    else if job.startTime.Some? then
      var now := clock + job.delay;
      if now - job.startTime.value > ExpireSeconds(c.kube, c.entries[id]) * NANOS_PER_SECOND then
        ExpireJob(c, now, id, job)
      else Unchanged(c, now)
    else Unchanged(c, clock)
  }

  /** processRunningJobs, on the jobs that belong to the collection. */
  function RunJobs(c: Collection, clock: int, jobs: seq<Job>, ingest: string -> seq<Totals>): Outcome
    requires forall job :: job in jobs ==> job.entry.Some?
  {
    if jobs == [] then Unchanged(c, clock)
    else
      var before := RunJobs(c, clock, jobs[..|jobs| - 1], ingest);
      var last := jobs[|jobs| - 1];
      var o := HandleJob(before.coll, before.clock, last, ingest);
      o.(marks := before.marks + o.marks, changed := before.changed || o.changed)
  }

  // ---- Starting waiting tests ----

  /** The position of the first id whose entry is waiting. */
  function FirstWaiting(entries: map<int, Entry>, ids: seq<int>): (at: nat)
    ensures at <= |ids|
    ensures at < |ids| ==> ids[at] in entries && entries[ids[at]].status == EntryWaiting
    ensures forall i :: 0 <= i < at ==> ids[i] !in entries || entries[ids[i]].status != EntryWaiting
  {
    if ids == [] then 0
    else if ids[0] in entries && entries[ids[0]].status == EntryWaiting then 0
    else 1 + FirstWaiting(entries, ids[1..])
  }

  /** canWeRunMoreTests */
  function CountAfter(times: seq<int>, before: int): (n: nat)
    ensures n <= |times|
  {
    if times == [] then 0
    else CountAfter(times[..|times| - 1], before) + (if times[|times| - 1] > before then 1 else 0)
  }

  predicate CanStartMore(starts: seq<int>, now: int, kube: KubeTest) {
    CountAfter(starts, now - PeriodSeconds(kube) * NANOS_PER_SECOND) < Nodes(kube)
  }

  /** The entry as it is once its job has been created. */
  function Started(e: Entry, answer: Answer): Entry {
    e.(cluster := Some(ClusterResource(answer.jobNamespace, answer.jobName)),
       status := EntryRunning, bucket := InRunning)
  }

  /** One turn of the loop of processWaitingTests: nothing to start, a job that could not be
      created (its test goes to the back of its list), or a started test. */
  datatype Turn =
    | Nothing
    | Refused(coll: Collection)
    | Begun(coll: Collection, id: int)

  function PickFirst(c: Collection): Option<(bool, nat)> {
    var q, r := FirstWaiting(c.entries, c.queued), FirstWaiting(c.entries, c.retry);
    if q < |c.queued| then Some((true, q))
    else if r < |c.retry| then Some((false, r))
    else None
  }

  function TakeTurn(c: Collection, answer: Answer): Turn {
    var pick := PickFirst(c);
    if pick.None? then Nothing
    else
      var (fromQueued, at) := pick.value;
      var id := if fromQueued then c.queued[at] else c.retry[at];
      var picked :=
        if fromQueued then c.(queued := RemoveAt(c.queued, at)) else c.(retry := RemoveAt(c.retry, at));
      if Accepted(answer, c.uid) then
        Begun(WithEntry(picked, id, Started(c.entries[id], answer)).(running := picked.running + [id]), id)
      else if fromQueued then Refused(picked.(queued := picked.queued + [id]))
      else Refused(picked.(retry := picked.retry + [id]))
  }

  /** The loop of processWaitingTests, from its `attempt`-th turn on, with `budget` tests still to start. */
  function StartTests(c: Collection, clock: int, starts: seq<int>, budget: int, answers: nat -> Answer,
                      attempt: nat): Outcome
    decreases if budget > 0 then budget else 0
  {
    if budget <= 0 then Unchanged(c, clock)
    else
      var answer := answers(attempt);
      var now := clock + answer.checkDelay;
      if !CanStartMore(starts, now, c.kube) then Unchanged(c, now)
      else
        match TakeTurn(c, answer)
        case Nothing => Unchanged(c, now)
        case Refused(back) => Outcome(back, now, [], [], true, true)
        case Begun(c1, id) =>
          var time := now + answer.startDelay;
          var o := StartTests(c1, time, starts + [time], budget - 1, answers, attempt + 1);
          Begin(c, id, time, o)
  }

  /** An outcome preceded by the start of one more test. */
  function Begin(c: Collection, id: int, time: int, o: Outcome): Outcome {
    o.(marks := [AddStart(time), EntryShallow(c.uid, id)] + o.marks,
       begun := [Start(time, Nodes(c.kube), PeriodSeconds(c.kube))] + o.begun,
       changed := true)
  }

  function Uncompleted(jobs: seq<Job>): nat {
    |Filter(jobs, (job: Job) => job.completionTime.None?)|
  }

  /** processWaitingTests */
  function RunWaiting(c: Collection, clock: int, starts: seq<int>, jobs: seq<Job>, answers: nat -> Answer): Outcome
  {
    StartTests(c, clock, starts, ActiveLimit(c.kube) - Uncompleted(KoupletJobs(jobs, c.uid)), answers, 0)
  }

  /** TestCollection.process */
  function ProcessCollection(c: Collection, clock: int, starts: seq<int>, cluster: Cluster): Outcome
  {
    if cluster.ListFailed? then Unchanged(c, clock)
    else
      var finished := RunJobs(c, clock, KoupletJobs(cluster.jobs, c.uid), cluster.ingest);
      if finished.changed then finished
      else
        var o := RunWaiting(finished.coll, finished.clock, starts, cluster.jobs, cluster.answers);
        o.(marks := finished.marks + o.marks)
  }

  predicate IsComplete(c: Collection) {
    c.queued == [] && c.running == [] && c.retry == []
  }

  // ---- New collections ----

  function NewEntry(id: int, spec: TestSpec): Entry {
    Entry(id, None, EntryWaiting, None, spec, None, false, InQueued)
  }

  function EmptyCollection(kube: KubeTest, clock: int): Collection {
    Collection(kube, [], [], [], [], map[], 0, kube.uid, CollectionWaiting, Millis(clock), None, None, WaitingBucket)
  }

  /** The collection once its first `n` tests have been queued. */
  function WithTests(kube: KubeTest, clock: int, n: nat): (c: Collection)
    requires n <= |kube.tests|
    ensures c.nextId == n && c.uid == kube.uid
  {
    if n == 0 then EmptyCollection(kube, clock)
    else
      var c := WithTests(kube, clock, n - 1);
      WithEntry(c, n - 1, NewEntry(n - 1, kube.tests[n - 1])).(nextId := n, queued := c.queued + [n - 1])
  }

  function CreationMarks(uid: string, n: nat): seq<Mark> {
    if n == 0 then [CollectionShallow(uid)]
    else CreationMarks(uid, n - 1) + [EntryShallow(uid, n - 1), EntrySpec(uid, n - 1)]
  }
}
