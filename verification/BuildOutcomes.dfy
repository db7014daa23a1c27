/** What a step makes of a build, told from the fields of the cluster's answers, the settings and the clock alone. */
module BuildOutcomes {
  import opened Prelude
  import opened Text
  import opened BuildSteps
  import opened BuildProofs

  // ---- Settings ----

  function MaximumOf(constraints: Option<Constraints>): int {
    if constraints.Some? && constraints.value.maxAttempts.Some? then constraints.value.maxAttempts.value else 5
  }

  function WaitSeconds(constraints: Option<Constraints>): int {
    if constraints.Some? && constraints.value.maxJobWaitStartTime.Some? then constraints.value.maxJobWaitStartTime.value else 3600
  }

  function BuildSeconds(constraints: Option<Constraints>): int {
    if constraints.Some? && constraints.value.maxJobBuildTime.Some? then constraints.value.maxJobBuildTime.value else 3600
  }

  function OverallSeconds(constraints: Option<Constraints>): int {
    if constraints.Some? && constraints.value.maxOverallTime.Some? then constraints.value.maxOverallTime.value else 7200
  }

  /** A number of seconds as a duration of nanoseconds: a 64-bit integer, which wraps around after 292 years. */
  predicate IsDuration(d: int, seconds: int) {
    && -0x8000_0000_0000_0000 <= d < 0x8000_0000_0000_0000
    && (d - seconds * 1_000_000_000) % 0x1_0000_0000_0000_0000 == 0
  }

  lemma WithoutOverflow(seconds: int)
    requires -9_223_372_036 <= seconds <= 9_223_372_036
    ensures IsDuration(seconds * 1_000_000_000, seconds)
  {
  }

  lemma AfterIs(t: int, seconds: int, d: int)
    requires IsDuration(d, seconds)
    ensures BuildSteps.After(t, seconds) == t + d
  {
    WrapIs(seconds * NANOS_PER_SECOND, d);
  }

  lemma WrapIs(n: int, d: int)
    requires -TWO_TO_THE_63 <= d < TWO_TO_THE_63 && (d - n) % TWO_TO_THE_64 == 0
    ensures Wrap64(n) == d
  {
    var r := Wrap64(n);
    var q := (n + TWO_TO_THE_63) / TWO_TO_THE_64;
    assert r == n - q * TWO_TO_THE_64;
    var k := (d - n) / TWO_TO_THE_64;
    assert d == n + k * TWO_TO_THE_64;
    assert d - r == (k + q) * TWO_TO_THE_64;
  }

  /** The limits of a step, as durations. */
  datatype Limits = Limits(wait: int, build: int, overall: int)

  predicate AreLimits(l: Limits, constraints: Option<Constraints>) {
    && IsDuration(l.wait, WaitSeconds(constraints))
    && IsDuration(l.build, BuildSeconds(constraints))
    && IsDuration(l.overall, OverallSeconds(constraints))
  }

  lemma SettingsAre(constraints: Option<Constraints>)
    ensures MaxAttempts(constraints) == MaximumOf(constraints)
    ensures MaxJobWaitStartTime(constraints) == WaitSeconds(constraints)
    ensures MaxJobBuildTime(constraints) == BuildSeconds(constraints)
    ensures MaxOverallTime(constraints) == OverallSeconds(constraints)
  {
  }

  // ---- What is seen of the active attempt ----

  /** The job of the active attempt is gone or finished, or it has waited or run for too long. */
  predicate MustLeave(a: Attempt, sight: Sight, l: Limits) {
    match sight.job
    case JobMissing => true
    case JobUnreadable => sight.waitNow > a.queueTime + l.wait
    case JobSeen(finished, startTime, _, _) =>
      || finished
      || sight.waitNow > a.queueTime + l.wait
      || (startTime.Some? && sight.buildNow > startTime.value + l.build)
  }

  /** The attempt after its job has been looked at: a job that goes on may give it a start time, a finished one gives it a
      completion time and says, by exit code zero, that it has succeeded. */
  predicate SeenAs(a: Attempt, sight: Sight, seen: Attempt) {
    match sight.job
    case JobMissing => seen == a
    case JobUnreadable => seen == a
    case JobSeen(finished, startTime, completionTime, exitCode) =>
      && seen.jobName == a.jobName && seen.jobUid == a.jobUid && seen.queueTime == a.queueTime
      && if finished then
           && seen.startTime == a.startTime
           && seen.completionTime == (if a.completionTime.Some? then a.completionTime
                                      else if completionTime.Some? then completionTime else Some(sight.endNow))
           && seen.succeeded == Some(exitCode == Some(0))
         else
           && seen.startTime == (if a.startTime.Some? then a.startTime else startTime)
           && seen.completionTime == a.completionTime && seen.succeeded == a.succeeded
  }

  lemma SeenIs(a: Attempt, sight: Sight)
    ensures SeenAs(a, sight, Observed(a, sight))
  {
  }

  lemma LeavesIs(constraints: Option<Constraints>, a: Attempt, sight: Sight, l: Limits)
    requires AreLimits(l, constraints)
    ensures Removals(constraints, a, sight) != [] <==> MustLeave(a, sight, l)
  {
    hide IsDuration, BuildSteps.After, Limit;
    SettingsAre(constraints);
    AfterIs(a.queueTime, WaitSeconds(constraints), l.wait);
    var start := StartOf(sight.job);
    if start.Some? {
      AfterIs(start.value, BuildSeconds(constraints), l.build);
    }
  }

  predicate Exits(sight: Sight, code: int) {
    sight.job.JobSeen? && sight.job.finished && sight.job.exitCode == Some(code)
  }

  /** How many attempts are over once the step has looked at the active one. */
  function Over(b: Build, input: Input, l: Limits): nat {
    |b.completed| + if b.active != [] && MustLeave(b.active[0], input.sights(0), l) then 1 else 0
  }

  // ---- How a build ends ----

  lemma OverIs(b: Build, input: Input, l: Limits)
    requires |b.active| <= 1 && input.instance.Some? && AreLimits(l, input.instance.value)
    ensures CompletedAfterScan(b, input) == Over(b, input, l)
  {
    hide Removals, MustLeave, IsDuration;
    if b.active != [] {
      LeavesIs(input.instance.value, b.active[0], input.sights(0), l);
    }
  }

  lemma TimeIs(b: Build, input: Input, l: Limits)
    requires input.instance.Some? && AreLimits(l, input.instance.value)
    ensures OutOfTime(b, input.instance.value, input.overallNow) <==> input.overallNow > b.creationTime + l.overall
  {
    hide IsDuration, BuildSteps.After, Limit;
    SettingsAre(input.instance.value);
    AfterIs(b.creationTime, OverallSeconds(input.instance.value), l.overall);
  }

  /** A build that goes on completes exactly when the job of its active attempt is seen finished with exit code zero, this is
      not the last permitted attempt, and the overall time has not passed. */
  lemma CompletesOnExitZero(b: Build, input: Input, l: Limits)
    requires BuildOk(b) && (b.state == BuildWaiting || b.state == BuildRunning)
    requires input.instance.Some? && AreLimits(l, input.instance.value)
    ensures Step(b, input).build.state == BuildCompleted <==>
              && b.active != [] && Exits(input.sights(0), 0)
              && |b.completed| + 1 < MaximumOf(input.instance.value)
              && input.overallNow <= b.creationTime + l.overall
  {
    hide Step, BuildOk, IsDuration, Removals, OutOfTime, MaxAttempts;
    AtMostOne(b);
    CompletesExactlyWhen(b, input);
    SettingsAre(input.instance.value);
    OverIs(b, input, l);
    TimeIs(b, input, l);
  }

  lemma AtMostOne(b: Build)
    requires BuildOk(b)
    ensures |b.active| <= 1
  {
  }

  /** It expires exactly when the attempts that are over reach the maximum, or the overall time has passed. */
  lemma ExpiresOnLimits(b: Build, input: Input, l: Limits)
    requires BuildOk(b) && (b.state == BuildWaiting || b.state == BuildRunning)
    requires input.instance.Some? && AreLimits(l, input.instance.value)
    ensures Step(b, input).build.state == BuildExpired <==>
              Over(b, input, l) >= MaximumOf(input.instance.value) || input.overallNow > b.creationTime + l.overall
  {
    hide Step, BuildOk, IsDuration, Removals, OutOfTime, MaxAttempts, Over;
    AtMostOne(b);
    ExpiresExactlyWhen(b, input);
    SettingsAre(input.instance.value);
    OverIs(b, input, l);
    TimeIs(b, input, l);
  }

  // ---- What a step leaves ----

  /** The attempts after a step that does not end the build and finds none active: a new one, if its job was created. */
  predicate NextAttempt(b: Build, over: nat, creation: Creation, active: seq<Attempt>) {
    active == match creation
              case CreationFailed => []
              case Created(jobUid, queueTime) =>
                [Attempt("builder-job-" + b.kubeName + "-attempt-" + Decimal(over + 1), jobUid, queueTime, None, None, None)]
  }

  /** The attempts of a build after a step: the active one, as it has been seen, stays or is over; when none is left and the
      build goes on, a new one is made. */
  predicate AttemptsAfter(b: Build, input: Input, l: Limits, d: Build) {
    var goesOn := d.state == BuildRunning;
    if b.active == [] then
      d.completed == b.completed && if goesOn then NextAttempt(b, |b.completed|, input.creation, d.active) else d.active == []
    else if MustLeave(b.active[0], input.sights(0), l) then
      && |d.completed| == |b.completed| + 1 && d.completed[..|b.completed|] == b.completed
      && SeenAs(b.active[0], input.sights(0), d.completed[|b.completed|])
      && if goesOn then NextAttempt(b, |b.completed| + 1, input.creation, d.active) else d.active == []
    else d.completed == b.completed && |d.active| == 1 && SeenAs(b.active[0], input.sights(0), d.active[0])
  }

  /** The start of a build is the first start that is seen of a job that goes on; its completion is the time read by the
      check that ended it, the last one if both did. */
  predicate TimesAfter(b: Build, input: Input, l: Limits, d: Build) {
    && d.startTime == (
         if b.startTime.None? && b.active != [] && input.sights(0).job.JobSeen? && !input.sights(0).job.finished
         then input.sights(0).job.startTime else b.startTime)
    && d.completionTime == (
         match d.state
         case BuildCompleted => Some(input.successNow)
         case BuildExpired =>
           Some(if input.overallNow > b.creationTime + l.overall then input.overallEnd else input.attemptsNow)
         case _ => None)
    && d.success == (match d.state case BuildCompleted => Some(true) case BuildExpired => Some(false) case _ => None)
    && d.name == b.name && d.uid == b.uid && d.kubeName == b.kubeName && d.creationTime == b.creationTime
  }

  lemma ScannedAttempts(b: Build, input: Input, l: Limits)
    requires BuildOk(b) && b.state == BuildRunning && input.instance.Some? && AreLimits(l, input.instance.value)
    ensures
      var d := Scanned(b, input).build;
      if b.active == [] then d == b
      else
        && d == b.(active := d.active, completed := d.completed, startTime := d.startTime, success := d.success)
        && d.startTime == (
             if b.startTime.None? && input.sights(0).job.JobSeen? && !input.sights(0).job.finished
             then input.sights(0).job.startTime else b.startTime)
        && if MustLeave(b.active[0], input.sights(0), l) then
             && d.active == [] && |d.completed| == |b.completed| + 1 && d.completed[..|b.completed|] == b.completed
             && SeenAs(b.active[0], input.sights(0), d.completed[|b.completed|])
           else d.completed == b.completed && |d.active| == 1 && SeenAs(b.active[0], input.sights(0), d.active[0])
  {
    hide JobName, Scanned, IsDuration, Removals, MustLeave, SeenAs;
    if b.active == [] {
      ScannedNone(b, input);
    } else {
      ScannedSingle(b, input);
      ScanKeepsRest(b, input);
      LeavesIs(input.instance.value, b.active[0], input.sights(0), l);
      SeenIs(b.active[0], input.sights(0));
    }
  }

  lemma AttemptsGive(b: Build, input: Input, l: Limits)
    requires BuildOk(b) && (b.state == BuildWaiting || b.state == BuildRunning)
    requires input.instance.Some? && AreLimits(l, input.instance.value)
    ensures
      var d := Step(b, input).build;
      d.state != BuildWaiting && AttemptsAfter(b, input, l, d)
  {
    hide Scanned, IsDuration, MustLeave, SeenAs, OutOfTime, OutOfAttempts, BuildOk, JobName;
    var running := b.(state := BuildRunning);
    RunningIsOk(b);
    ScannedAttempts(running, input, l);
    ScannedOk(running, input);
    CheckedOk(running, Scanned(running, input), input);
    NextIs(running, input, |b.completed|);
  }

  lemma TimesGive(b: Build, input: Input, l: Limits)
    requires BuildOk(b) && (b.state == BuildWaiting || b.state == BuildRunning)
    requires input.instance.Some? && AreLimits(l, input.instance.value)
    ensures TimesAfter(b, input, l, Step(b, input).build)
  {
    hide Scanned, IsDuration, MustLeave, SeenAs, OutOfTime, OutOfAttempts, BuildOk, JobName;
    var running := b.(state := BuildRunning);
    RunningIsOk(b);
    ScannedAttempts(running, input, l);
    TimeIs(Scanned(running, input).build, input, l);
    TimeIs(Expire(Scanned(running, input).build, input.attemptsNow), input, l);
    StepKeeps(b, input);
    OutcomeIs(Step(b, input).build);
  }

  /** Every field of a build after a step that reached its KoupletBuild, by the state in which the step leaves it. */
  lemma StepGives(b: Build, input: Input, l: Limits)
    requires BuildOk(b) && (b.state == BuildWaiting || b.state == BuildRunning)
    requires input.instance.Some? && AreLimits(l, input.instance.value)
    ensures
      var d := Step(b, input).build;
      d.state != BuildWaiting && AttemptsAfter(b, input, l, d) && TimesAfter(b, input, l, d)
  {
    hide Step, IsDuration, BuildOk, AttemptsAfter, TimesAfter;
    AttemptsGive(b, input, l);
    TimesGive(b, input, l);
  }

  lemma RunningIsOk(b: Build)
    requires BuildOk(b) && (b.state == BuildWaiting || b.state == BuildRunning)
    ensures BuildOk(b.(state := BuildRunning)) && b.success.None? && b.completionTime.None? && |b.active| <= 1
  {
  }

  lemma OutcomeIs(b: Build)
    requires BuildOk(b)
    ensures b.success == (match b.state case BuildCompleted => Some(true) case BuildExpired => Some(false) case _ => None)
    ensures b.state == BuildRunning || b.state == BuildWaiting ==> b.completionTime.None?
  {
  }

  lemma NextIs(b: Build, input: Input, over: nat)
    ensures JobName(b.kubeName, over + 1) == "builder-job-" + b.kubeName + "-attempt-" + Decimal(over + 1)
    ensures JobName(b.kubeName, over + 2) == "builder-job-" + b.kubeName + "-attempt-" + Decimal(over + 2)
  {
  }

  /** A build that has ended, or whose KoupletBuild cannot be fetched, stays as it is. */
  lemma OtherwiseNothing(b: Build, input: Input)
    requires input.instance.None? || b.state == BuildCompleted || b.state == BuildExpired
    ensures Step(b, input) == StepResult(b, false)
  {
  }

  /** The active attempt leaves the active list exactly when its job is missing or finished or has waited or run for too long;
      and it has succeeded then exactly when the job finished with exit code zero. */
  lemma AttemptLeavesExactlyWhen(b: Build, input: Input, l: Limits)
    requires BuildOk(b) && (b.state == BuildWaiting || b.state == BuildRunning) && b.active != []
    requires input.instance.Some? && AreLimits(l, input.instance.value)
    ensures
      var d := Step(b, input).build;
      var leaves := forall a :: a in d.active ==> a.jobName != b.active[0].jobName;
      && (leaves <==> MustLeave(b.active[0], input.sights(0), l))
      && (leaves ==> |d.completed| == |b.completed| + 1 && d.completed[|b.completed|].jobName == b.active[0].jobName
                     && (d.completed[|b.completed|].succeeded == Some(true) <==> Exits(input.sights(0), 0)))
      && (!leaves ==> d.completed == b.completed)
  {
    hide Step, IsDuration;
    StepGives(b, input, l);
    ActiveIsNumbered(b);
    var d := Step(b, input).build;
    if MustLeave(b.active[0], input.sights(0), l) && JobName(b.kubeName, |b.completed| + 2) == JobName(b.kubeName, |b.completed| + 1) {
      JobNameInjective(b.kubeName, |b.completed| + 2, |b.completed| + 1);
    }
    if !MustLeave(b.active[0], input.sights(0), l) {
      assert d.active[0] in d.active;
    }
  }

  lemma ActiveIsNumbered(b: Build)
    requires BuildOk(b) && b.active != []
    ensures b.active[0].jobName == JobName(b.kubeName, |b.completed| + 1) && b.active[0].succeeded.None?
  {
  }

  /** In every run the overall time counts from the creation of the build. */
  lemma {:induction false} CreationIsKept(name: string, uid: string, now: int, inputs: nat -> Input, n: nat)
    ensures
      var b := Steps(NewBuild(name, uid, now), inputs, n);
      b.creationTime == now && b.name == name && b.kubeName == name && b.uid == uid
  {
    hide Step;
    if n > 0 {
      CreationIsKept(name, uid, now, inputs, n - 1);
      StepKeepsIdentity(Steps(NewBuild(name, uid, now), inputs, n - 1), inputs(n - 1));
    }
  }

  lemma StepKeepsIdentity(b: Build, input: Input)
    ensures
      var d := Step(b, input).build;
      d.creationTime == b.creationTime && d.name == b.name && d.kubeName == b.kubeName && d.uid == b.uid
  {
    hide ScanOf, AnyRemoved, HasSuccess, OutOfAttempts, OutOfTime;
  }
}
