/** One step of a KoupletBuild, as a function on values. Every reading of the clock and every answer of the
    cluster is an input, so nothing is assumed about them. */
module BuildSteps {
  import opened Prelude
  import opened Text

  datatype BuildState = BuildWaiting | BuildRunning | BuildCompleted | BuildExpired

  datatype Attempt = Attempt(
    jobName: string,
    jobUid: string,
    queueTime: int,
    startTime: Option<int>,
    completionTime: Option<int>,
    succeeded: Option<bool>)

  datatype Build = Build(
    name: string,
    uid: string,
    kubeName: string,
    state: BuildState,
    success: Option<bool>,
    active: seq<Attempt>,
    completed: seq<Attempt>,
    creationTime: int,
    startTime: Option<int>,
    completionTime: Option<int>)

  /** `spec.buildConstraints` */
  datatype Constraints = Constraints(
    maxJobWaitStartTime: Option<int>,
    maxJobBuildTime: Option<int>,
    maxAttempts: Option<int>,
    maxOverallTime: Option<int>)

  const DEFAULT_MAX_ATTEMPTS := 5
  const DEFAULT_MAX_OVERALL_TIME_IN_SECONDS := 7200
  const DEFAULT_MAX_JOB_BUILD_TIME_IN_SECONDS := 3600
  const DEFAULT_MAX_JOB_WAIT_START_TIME_IN_SECONDS := 3600

  // ---- What a step meets ----

  /** What a look at the job of an attempt finds. A job that exists but could not be read counts as one without
      any status. */
  datatype JobSight =
    | JobMissing
    | JobUnreadable
    | JobSeen(finished: bool, startTime: Option<int>, completionTime: Option<int>, exitCode: Option<int>)

  /** A look, and the clock as it is read after it. */
  datatype Sight = Sight(job: JobSight, waitNow: int, buildNow: int, endNow: int)

  datatype Creation =
    | CreationFailed
    | Created(jobUid: string, queueTime: int)

  /** The KoupletBuild as it is fetched by name (if it can be), what the looks find, the readings of the
      clock of the later checks, and the answer to the creation of a job. */
  datatype Input = Input(
    instance: Option<Option<Constraints>>,
    sights: nat -> Sight,
    attemptsNow: int,
    overallNow: int,
    overallEnd: int,
    successNow: int,
    creation: Creation)

  function Limit(instance: Option<Constraints>, field: Constraints -> Option<int>, default: int): int {
    if instance.Some? && field(instance.value).Some? then field(instance.value).value else default
  }

  function MaxAttempts(instance: Option<Constraints>): int {
    Limit(instance, (c: Constraints) => c.maxAttempts, DEFAULT_MAX_ATTEMPTS)
  }

  function MaxOverallTime(instance: Option<Constraints>): int {
    Limit(instance, (c: Constraints) => c.maxOverallTime, DEFAULT_MAX_OVERALL_TIME_IN_SECONDS)
  }

  function MaxJobBuildTime(instance: Option<Constraints>): int {
    Limit(instance, (c: Constraints) => c.maxJobBuildTime, DEFAULT_MAX_JOB_BUILD_TIME_IN_SECONDS)
  }

  function MaxJobWaitStartTime(instance: Option<Constraints>): int {
    Limit(instance, (c: Constraints) => c.maxJobWaitStartTime, DEFAULT_MAX_JOB_WAIT_START_TIME_IN_SECONDS)
  }

  const TWO_TO_THE_63 := 0x8000_0000_0000_0000
  const TWO_TO_THE_64 := 0x1_0000_0000_0000_0000

  /** The value that an int64 computation leaves. */
  function Wrap64(n: int): (r: int)
    ensures -TWO_TO_THE_63 <= r < TWO_TO_THE_63
    ensures -TWO_TO_THE_63 <= n < TWO_TO_THE_63 ==> r == n
  {
    (n + TWO_TO_THE_63) % TWO_TO_THE_64 - TWO_TO_THE_63
  }

  /** `t.Add(time.Duration(seconds) * time.Second)` */
  function After(t: int, seconds: int): int {
    t + Wrap64(seconds * NANOS_PER_SECOND)
  }

  // ---- Scanning the active attempts ----

  /** The scan of the active attempts so far: the attempts and the build's start time and success as they are
      now, and the job UIDs of the attempts to remove. */
  datatype Scan = Scan(
    active: seq<Attempt>, startTime: Option<int>, success: Option<bool>, removed: seq<string>, changed: bool)

  function Finished(job: JobSight): bool {
    job.JobSeen? && job.finished
  }

  function StartOf(job: JobSight): Option<int> {
    if job.JobSeen? then job.startTime else None
  }

  predicate ExitedWell(job: JobSight) {
    job.JobSeen? && job.finished && job.exitCode == Some(0)
  }

  /** The attempt after its job has been looked at. */
  function Observed(a: Attempt, sight: Sight): Attempt {
    if sight.job.JobMissing? then a
    else if !Finished(sight.job) then
      if a.startTime.None? then a.(startTime := StartOf(sight.job)) else a
    else
      a.(completionTime :=
           if a.completionTime.Some? then a.completionTime
           else Some(GetOr(sight.job.completionTime, sight.endNow)),
         succeeded := Some(ExitedWell(sight.job)))
  }

  /** Whether the job took too long to start, whether or not it has started by now. */
  predicate WaitedTooLong(instance: Option<Constraints>, a: Attempt, sight: Sight) {
    sight.waitNow > After(a.queueTime, MaxJobWaitStartTime(instance))
  }

  predicate RanTooLong(instance: Option<Constraints>, sight: Sight) {
    && StartOf(sight.job).Some?
    && sight.buildNow > After(StartOf(sight.job).value, MaxJobBuildTime(instance))
  }

  /** The job UIDs that a look adds to the ones to remove: none, one, or the same one twice. */
  function Removals(instance: Option<Constraints>, a: Attempt, sight: Sight): seq<string> {
    if sight.job.JobMissing? || Finished(sight.job) then [a.jobUid]
    else
      (if WaitedTooLong(instance, a, sight) then [a.jobUid] else []) +
      (if RanTooLong(instance, sight) then [a.jobUid] else [])
  }

  function LookAt(instance: Option<Constraints>, s: Scan, a: Attempt, sight: Sight): Scan {
    var observed := Observed(a, sight);
    var start := if !Finished(sight.job) && s.startTime.None? then StartOf(sight.job) else s.startTime;
    Scan(
      s.active + [observed],
      start,
      if ExitedWell(sight.job) then Some(true) else s.success,
      s.removed + Removals(instance, a, sight),
      s.changed || start != s.startTime || observed != a || Finished(sight.job))
  }

  /** The scan of the first `n` active attempts. */
  function ScanOf(b: Build, instance: Option<Constraints>, sights: nat -> Sight, n: nat): (s: Scan)
    requires n <= |b.active|
    ensures |s.active| == n
  {
    if n == 0 then Scan([], b.startTime, b.success, [], false)
    else LookAt(instance, ScanOf(b, instance, sights, n - 1), b.active[n - 1], sights(n - 1))
  }

  /** The attempts to remove move, in order, from the active to the completed ones. */
  function MoveRemoved(b: Build, s: Scan): Build {
    b.(active := Filter(s.active, (a: Attempt) => a.jobUid !in s.removed),
       completed := b.completed + Filter(s.active, (a: Attempt) => a.jobUid in s.removed),
       startTime := s.startTime,
       success := s.success)
  }

  predicate AnyRemoved(s: Scan) {
    Filter(s.active, (a: Attempt) => a.jobUid in s.removed) != []
  }

  // ---- The checks ----

  function Expire(b: Build, now: int): Build {
    b.(state := BuildExpired, success := Some(false), completionTime := Some(now))
  }

  predicate OutOfAttempts(b: Build, instance: Option<Constraints>) {
    |b.completed| >= MaxAttempts(instance)
  }

  predicate OutOfTime(b: Build, instance: Option<Constraints>, now: int) {
    now > After(b.creationTime, MaxOverallTime(instance))
  }

  predicate HasSuccess(b: Build) {
    exists a | a in b.completed :: a.succeeded == Some(true)
  }

  function JobName(kubeName: string, number: nat): string {
    "builder-job-" + kubeName + "-attempt-" + Decimal(number)
  }

  /** newBuildAttempt */
  function NewAttempt(b: Build, jobUid: string, queueTime: int): Attempt {
    Attempt(JobName(b.kubeName, |b.completed| + 1), jobUid, queueTime, None, None, None)
  }

  // ---- The step ----

  predicate Terminal(b: Build) {
    b.state == BuildCompleted || b.state == BuildExpired
  }

  /** A build after a step, and whether the step reports a change. */
  datatype StepResult = StepResult(build: Build, changed: bool)

  function Scanned(b: Build, input: Input): StepResult
    requires input.instance.Some?
  {
    var s := ScanOf(b, input.instance.value, input.sights, |b.active|);
    StepResult(MoveRemoved(b, s), s.changed || AnyRemoved(s))
  }

  /** The two checks that expire a build. */
  function Checked(r: StepResult, input: Input): StepResult
    requires input.instance.Some?
  {
    var first :=
      if OutOfAttempts(r.build, input.instance.value) then StepResult(Expire(r.build, input.attemptsNow), true) else r;
    if OutOfTime(first.build, input.instance.value, input.overallNow) then
      StepResult(Expire(first.build, input.overallEnd), true)
    else first
  }

  /** The rest of the step, for a build that is still running: completion, or a new attempt. */
  function Concluded(r: StepResult, input: Input): StepResult {
    if r.build.state != BuildRunning then r
    else if HasSuccess(r.build) then
      StepResult(
        r.build.(state := BuildCompleted, completionTime := Some(input.successNow), success := Some(true)), true)
    else if r.build.active == [] && input.creation.Created? then
      StepResult(
        r.build.(active := [NewAttempt(r.build, input.creation.jobUid, input.creation.queueTime)]), true)
    else r
  }

  /** subProcess */
  function Step(b: Build, input: Input): StepResult {
    if input.instance.None? || Terminal(b) then StepResult(b, false)
    else Concluded(Checked(Scanned(b.(state := BuildRunning), input), input), input)
  }

  // ---- Runs ----

  function NewBuild(name: string, uid: string, now: int): Build {
    Build(name, uid, name, BuildWaiting, None, [], [], now, None, None)
  }

  /** The build after `n` steps. */
  function Steps(b: Build, inputs: nat -> Input, n: nat): Build {
    if n == 0 then b else Step(Steps(b, inputs, n - 1), inputs(n - 1)).build
  }

  /** No step sees a specification that allows more than `max` attempts. */
  ghost predicate Within(inputs: nat -> Input, max: int) {
    forall k {:trigger inputs(k)} :: AtMost(inputs(k), max)
  }

  predicate AtMost(input: Input, max: int) {
    input.instance.Some? ==> MaxAttempts(input.instance.value) <= max
  }
}
