/** What every step of a build keeps, how a build ends, and why its loop of steps stops. */
module BuildProofs {
  import opened Prelude
  import opened Text
  import opened BuildSteps

  // ---- The invariant ----

  predicate NoneSucceeded(attempts: seq<Attempt>) {
    forall a :: a in attempts ==> a.succeeded != Some(true)
  }

  /** State, success and completion time agree; a build that goes on has no successful attempt. */
  predicate OutcomeOk(b: Build) {
    match b.state
    case BuildCompleted => b.success == Some(true) && b.completionTime.Some?
    case BuildExpired => b.success == Some(false) && b.completionTime.Some?
    case BuildWaiting => b.success.None? && b.completionTime.None? && NoneSucceeded(b.completed)
    case BuildRunning => b.success.None? && b.completionTime.None? && NoneSucceeded(b.completed)
  }

  /** The attempts are numbered in the order they were made, and at most one is active. */
  predicate AttemptsOk(b: Build) {
    && (forall i :: 0 <= i < |b.completed| ==> b.completed[i].jobName == JobName(b.kubeName, i + 1))
    && |b.active| <= 1
    && (b.active != [] ==> b.active[0].jobName == JobName(b.kubeName, |b.completed| + 1) && b.active[0].succeeded.None?)
  }

  predicate WithinLimit(b: Build, max: int) {
    |b.completed| + |b.active| <= Max(0, max)
  }

  predicate BuildOk(b: Build) {
    OutcomeOk(b) && AttemptsOk(b)
  }

  // ---- The scan of at most one attempt ----

  lemma SingleScan(b: Build, instance: Option<Constraints>, sights: nat -> Sight)
    requires |b.active| == 1
    ensures
      var s := ScanOf(b, instance, sights, 1);
      && s == LookAt(instance, Scan([], b.startTime, b.success, [], false), b.active[0], sights(0))
      && s.active == [Observed(b.active[0], sights(0))]
      && s.removed == Removals(instance, b.active[0], sights(0))
  {
    assert ScanOf(b, instance, sights, 0) == Scan([], b.startTime, b.success, [], false);
    assert [] + [Observed(b.active[0], sights(0))] == [Observed(b.active[0], sights(0))];
    assert [] + Removals(instance, b.active[0], sights(0)) == Removals(instance, b.active[0], sights(0));
  }

  lemma FilterSingle<T(!new)>(x: T, keep: T -> bool)
    ensures Filter([x], keep) == if keep(x) then [x] else []
  {
    assert [x][..0] == [];
    assert Filter([x][..0], keep) == [];
  }

  /** What a scan does to a build with one active attempt: the attempt stays or moves, once, even when its
      job UID is listed for removal twice. */
  predicate MovesOnce(b: Build, r: StepResult, input: Input)
    requires |b.active| == 1 && input.instance.Some?
  {
    var a := Observed(b.active[0], input.sights(0));
    if Removals(input.instance.value, b.active[0], input.sights(0)) != [] then
      r.build.active == [] && r.build.completed == b.completed + [a] && r.changed
    else
      r.build.active == [a] && r.build.completed == b.completed
  }

  lemma ScannedSingle(b: Build, input: Input)
    requires |b.active| == 1 && input.instance.Some?
    ensures MovesOnce(b, Scanned(b, input), input)
    ensures
      var r := Scanned(b, input);
      var sight := input.sights(0);
      && r.build.startTime == (if !Finished(sight.job) && b.startTime.None? then StartOf(sight.job) else b.startTime)
      && r.build.success == (if ExitedWell(sight.job) then Some(true) else b.success)
      && (r.changed <==>
            r.build.startTime != b.startTime || Observed(b.active[0], sight) != b.active[0]
            || Removals(input.instance.value, b.active[0], sight) != [])
  {
    hide WaitedTooLong, RanTooLong;
    SingleScan(b, input.instance.value, input.sights);
    var a := Observed(b.active[0], input.sights(0));
    var removed := Removals(input.instance.value, b.active[0], input.sights(0));
    FilterSingle(a, (x: Attempt) => x.jobUid in removed);
    FilterSingle(a, (x: Attempt) => x.jobUid !in removed);
    assert a.jobUid in removed <==> removed != [];
    assert b.completed + [] == b.completed;
  }

  lemma ScanKeepsRest(b: Build, input: Input)
    requires |b.active| == 1 && input.instance.Some?
    ensures
      var r := Scanned(b, input).build;
      r == b.(active := r.active, completed := r.completed, startTime := r.startTime, success := r.success)
  {
  }

  lemma ScannedNone(b: Build, input: Input)
    requires b.active == [] && input.instance.Some?
    ensures Scanned(b, input) == StepResult(b, false)
  {
    assert b.completed + [] == b.completed;
  }

  // ---- Every step keeps the invariant ----

  /** The step sees the job of the active attempt end with exit code zero. */
  predicate SeesSuccess(b: Build, input: Input) {
    b.active != [] && ExitedWell(input.sights(0).job)
  }

  /** Between the scan and the checks: as in the invariant, but an attempt may just have succeeded. */
  predicate ScanOk(b: Build, r: StepResult) {
    && AttemptsOk(r.build)
    && r.build.state == b.state && r.build.completionTime == b.completionTime
    && r.build.kubeName == b.kubeName && r.build.name == b.name && r.build.uid == b.uid
    && r.build.creationTime == b.creationTime
    && (HasSuccess(r.build) <==> r.build.success == Some(true))
    && (!HasSuccess(r.build) ==> r.build.success == b.success && NoneSucceeded(r.build.completed))
    && |r.build.completed| + |r.build.active| == |b.completed| + |b.active|
    && b.completed <= r.build.completed
  }

  lemma ScannedOk(b: Build, input: Input)
    requires BuildOk(b) && b.state == BuildRunning && input.instance.Some?
    ensures ScanOk(b, Scanned(b, input))
    ensures HasSuccess(Scanned(b, input).build) <==> SeesSuccess(b, input)
  {
    hide JobName, Scanned;
    if b.active == [] {
      ScannedNone(b, input);
    } else {
      SingleScanOk(b, input);
    }
  }

  lemma SingleScanOk(b: Build, input: Input)
    requires BuildOk(b) && b.state == BuildRunning && input.instance.Some? && b.active != []
    ensures ScanOk(b, Scanned(b, input))
    ensures HasSuccess(Scanned(b, input).build) <==> SeesSuccess(b, input)
  {
    hide JobName, Scanned, WaitedTooLong, RanTooLong;
    ScannedSingle(b, input);
    ScanKeepsRest(b, input);
    var r := Scanned(b, input);
    var a := Observed(b.active[0], input.sights(0));
    SuccessOfOneMore(b.completed, a);
    if r.build.active == [] {
      assert r.build.completed[|b.completed|] == a;
      assert r.build.completed[..|b.completed|] == b.completed;
    }
  }

  lemma SuccessOfOneMore(before: seq<Attempt>, a: Attempt)
    requires NoneSucceeded(before)
    ensures (exists x | x in before + [a] :: x.succeeded == Some(true)) <==> a.succeeded == Some(true)
    ensures a.succeeded != Some(true) ==> NoneSucceeded(before + [a])
  {
    assert a in before + [a];
  }

  /** What is the same after the checks. */
  lemma CheckedOk(b: Build, r: StepResult, input: Input)
    requires ScanOk(b, r) && b.state == BuildRunning && b.success.None? && input.instance.Some?
    ensures
      var c := Checked(r, input);
      && c.build.active == r.build.active && c.build.completed == r.build.completed
      && c.build.kubeName == r.build.kubeName && c.build.startTime == r.build.startTime
      && (c.build.state == BuildRunning <==>
            !OutOfAttempts(r.build, input.instance.value) && !OutOfTime(r.build, input.instance.value, input.overallNow))
      && (c.build.state == BuildRunning ==> c == r)
      && (c.build.state != BuildRunning ==> c.changed && c.build.state == BuildExpired && OutcomeOk(c.build))
  {
  }

  /** Every step keeps the invariant, and completed attempts are never changed or forgotten. */
  lemma StepKeeps(b: Build, input: Input)
    requires BuildOk(b)
    ensures BuildOk(Step(b, input).build)
    ensures b.completed <= Step(b, input).build.completed
    ensures Step(b, input).build.kubeName == b.kubeName
  {
    hide Scanned, Checked, OutOfTime, OutOfAttempts, JobName;
    if input.instance.Some? && !Terminal(b) {
      var running := b.(state := BuildRunning);
      ScannedOk(running, input);
      CheckedOk(running, Scanned(running, input), input);
    }
  }

  lemma StepKeepsLimit(b: Build, input: Input, max: int)
    requires BuildOk(b) && WithinLimit(b, max) && AtMost(input, max)
    ensures WithinLimit(Step(b, input).build, max)
  {
    hide Scanned, Checked, OutOfTime, JobName, MaxAttempts, MaxOverallTime;
    if input.instance.Some? && !Terminal(b) {
      var running := b.(state := BuildRunning);
      ScannedOk(running, input);
      CheckedOk(running, Scanned(running, input), input);
    }
  }

  // ---- Runs ----

  lemma {:induction false} EveryStepIsOk(b: Build, inputs: nat -> Input, n: nat)
    requires BuildOk(b)
    ensures BuildOk(Steps(b, inputs, n))
    ensures b.completed <= Steps(b, inputs, n).completed
    ensures Steps(b, inputs, n).kubeName == b.kubeName
  {
    hide Step, BuildOk;
    if n > 0 {
      EveryStepIsOk(b, inputs, n - 1);
      StepKeeps(Steps(b, inputs, n - 1), inputs(n - 1));
    }
  }

  /** In every run of a new build, whatever the cluster answers and however its specification changes: state,
      success and completion time agree, at most one attempt is active, and the attempts are numbered from one. */
  lemma EveryBuildIsOk(name: string, uid: string, now: int, inputs: nat -> Input, n: nat)
    ensures BuildOk(Steps(NewBuild(name, uid, now), inputs, n))
  {
    EveryStepIsOk(NewBuild(name, uid, now), inputs, n);
  }

  /** Attempts are never more than the specification has ever allowed. */
  lemma {:induction false} AttemptsAreBounded(name: string, uid: string, now: int, inputs: nat -> Input, n: nat, max: int)
    requires Within(inputs, max)
    ensures WithinLimit(Steps(NewBuild(name, uid, now), inputs, n), max)
  {
    hide Step, AtMost, BuildOk;
    if n > 0 {
      AttemptsAreBounded(name, uid, now, inputs, n - 1, max);
      EveryBuildIsOk(name, uid, now, inputs, n - 1);
      assert AtMost(inputs(n - 1), max);
      StepKeepsLimit(Steps(NewBuild(name, uid, now), inputs, n - 1), inputs(n - 1), max);
    }
  }

  lemma JobNameInjective(kubeName: string, i: nat, j: nat)
    requires JobName(kubeName, i) == JobName(kubeName, j)
    ensures i == j
  {
    ConcatCancelLeft("builder-job-" + kubeName + "-attempt-", Decimal(i), Decimal(j));
    DecimalInjective(i, j);
  }

  /** No two attempts of a build share a job name. */
  lemma JobNamesNeverRepeat(b: Build)
    requires BuildOk(b)
    ensures NoDuplicates(b.completed + b.active)
    ensures forall i, j :: 0 <= i < j < |b.completed + b.active| ==>
              (b.completed + b.active)[i].jobName != (b.completed + b.active)[j].jobName
  {
    hide JobName, OutcomeOk;
    var all := b.completed + b.active;
    forall i, j | 0 <= i < j < |all|
      ensures all[i].jobName != all[j].jobName
    {
      assert all[i].jobName == JobName(b.kubeName, i + 1) && all[j].jobName == JobName(b.kubeName, j + 1);
      if all[i].jobName == all[j].jobName {
        JobNameInjective(b.kubeName, i + 1, j + 1);
      }
    }
  }

  /** A completed or expired build stays as it is for ever. */
  lemma {:induction false} TerminalIsFinal(b: Build, inputs: nat -> Input, n: nat)
    requires Terminal(b)
    ensures Steps(b, inputs, n) == b
  {
    if n > 0 {
      TerminalIsFinal(b, inputs, n - 1);
    }
  }

  // ---- How a build ends ----

  /** The attempts that are completed once the scan is over. */
  function CompletedAfterScan(b: Build, input: Input): nat
    requires input.instance.Some?
  {
    |b.completed| +
    if b.active != [] && Removals(input.instance.value, b.active[0], input.sights(0)) != [] then 1 else 0
  }

  /** Exactly when a build that goes on completes: the step sees a success while attempts remain and the overall time
      has not passed. A success in the last permitted attempt expires the build. */
  lemma CompletesExactlyWhen(b: Build, input: Input)
    requires BuildOk(b) && !Terminal(b)
    ensures Step(b, input).build.state == BuildCompleted <==>
              && input.instance.Some?
              && SeesSuccess(b, input)
              && CompletedAfterScan(b, input) < MaxAttempts(input.instance.value)
              && !OutOfTime(b, input.instance.value, input.overallNow)
  {
    hide Scanned, Checked, JobName, MaxAttempts, MaxOverallTime, MaxJobBuildTime, MaxJobWaitStartTime;
    if input.instance.Some? {
      var running := b.(state := BuildRunning);
      ScannedOk(running, input);
      CheckedOk(running, Scanned(running, input), input);
      CompletedCount(running, input);
    }
  }

  lemma CompletedCount(b: Build, input: Input)
    requires |b.active| <= 1 && input.instance.Some?
    ensures |Scanned(b, input).build.completed| == CompletedAfterScan(b, input)
  {
    hide WaitedTooLong, RanTooLong, Scanned;
    if b.active == [] {
      ScannedNone(b, input);
    } else {
      ScannedSingle(b, input);
    }
  }

  /** Exactly when it expires. */
  lemma ExpiresExactlyWhen(b: Build, input: Input)
    requires BuildOk(b) && !Terminal(b)
    ensures Step(b, input).build.state == BuildExpired <==>
              && input.instance.Some?
              && (|| CompletedAfterScan(b, input) >= MaxAttempts(input.instance.value)
                  || OutOfTime(b, input.instance.value, input.overallNow))
  {
    hide Scanned, Checked, JobName, MaxAttempts, MaxOverallTime, MaxJobBuildTime, MaxJobWaitStartTime;
    if input.instance.Some? {
      var running := b.(state := BuildRunning);
      ScannedOk(running, input);
      CheckedOk(running, Scanned(running, input), input);
      CompletedCount(running, input);
    }
  }

  /** A success that is seen in the last permitted attempt does not complete the build: it expires, although it has a
      successful attempt. */
  lemma LastSuccessExpires(b: Build, input: Input)
    requires BuildOk(b) && !Terminal(b) && input.instance.Some? && SeesSuccess(b, input)
    requires |b.completed| + 1 >= MaxAttempts(input.instance.value)
    ensures Step(b, input).build.state == BuildExpired && Step(b, input).build.success == Some(false)
    ensures HasSuccess(Step(b, input).build)
  {
    hide MaxAttempts, OutOfTime, Removals, Observed, ScanOf;
    var r := b.(state := BuildRunning);
    assert Removals(input.instance.value, b.active[0], input.sights(0)) != [] by {
      FinishedIsRemoved(input.instance.value, b.active[0], input.sights(0));
    }
    ExpiresExactlyWhen(b, input);
    ScannedOk(r, input);
    CheckedOk(r, Scanned(r, input), input);
    StepKeeps(b, input);
  }

  lemma FinishedIsRemoved(instance: Option<Constraints>, a: Attempt, sight: Sight)
    requires ExitedWell(sight.job)
    ensures Removals(instance, a, sight) != []
  {
  }

  /** What is left to do. */
  function Measure(b: Build, max: int): nat {
    if Terminal(b) then 0
    else
      1 + 4 * Max(0, max - |b.completed|)
      + (if b.active == [] then 2 else 0)
      + (if b.active != [] && b.active[0].startTime.None? then 1 else 0)
      + (if b.startTime.None? then 1 else 0)
  }

  lemma ScanMeasure(b: Build, input: Input, max: int)
    requires BuildOk(b) && b.state == BuildRunning && input.instance.Some?
    ensures
      var r := Scanned(b, input);
      && (r.build.startTime.None? ==> b.startTime.None?)
      && (r.build.completed == b.completed ==>
            && (r.changed ==> Measure(r.build, max) < Measure(b, max))
            && (!r.changed ==> r.build == b)
            && |r.build.active| == |b.active|)
      && (r.build.completed != b.completed ==> r.changed && |r.build.completed| == |b.completed| + 1 && r.build.active == [])
  {
    hide JobName, Scanned, WaitedTooLong, RanTooLong, OutcomeOk;
    if b.active == [] {
      ScannedNone(b, input);
    } else {
      ScannedSingle(b, input);
      ScanKeepsRest(b, input);
      var a := Observed(b.active[0], input.sights(0));
      var r := Scanned(b, input);
      if r.build.active == [] {
        assert |r.build.completed| == |b.completed| + 1;
      } else if !r.changed {
        assert b.active == [a];
      }
    }
  }

  /** A step that reports a change leaves less to do. One that reports none changes nothing, except
      that a waiting build counts as running from then on. */
  lemma StepDecreases(b: Build, input: Input, max: int)
    requires BuildOk(b) && AtMost(input, max)
    ensures
      var r := Step(b, input);
      && (r.changed ==> Measure(r.build, max) < Measure(b, max))
      && (!r.changed ==> r.build == b || (b.state == BuildWaiting && r.build == b.(state := BuildRunning)))
  {
    hide Scanned, Checked, OutOfTime, JobName, MaxAttempts;
    if input.instance.Some? && !Terminal(b) {
      var running := b.(state := BuildRunning);
      ScannedOk(running, input);
      ScanMeasure(running, input, max);
      CheckedOk(running, Scanned(running, input), input);
      RunningHasAttempts(running, input, max);
    }
  }

  lemma RunningHasAttempts(b: Build, input: Input, max: int)
    requires input.instance.Some? && AtMost(input, max)
    requires ScanOk(b, Scanned(b, input)) && b.state == BuildRunning && b.success.None?
    ensures Checked(Scanned(b, input), input).build.state == BuildRunning ==> |Scanned(b, input).build.completed| < max
  {
    hide Scanned, OutOfTime, MaxAttempts;
  }

  /** The first `n` steps all report a change. */
  ghost predicate AllChange(b: Build, inputs: nat -> Input, n: nat) {
    forall k: nat :: k < n ==> ChangesAt(b, inputs, k)
  }

  predicate ChangesAt(b: Build, inputs: nat -> Input, k: nat) {
    Step(Steps(b, inputs, k), inputs(k)).changed
  }

  lemma {:induction false} StepsUseUpTheMeasure(b: Build, inputs: nat -> Input, n: nat, max: int)
    requires BuildOk(b) && Within(inputs, max) && AllChange(b, inputs, n)
    ensures Measure(Steps(b, inputs, n), max) + n <= Measure(b, max)
  {
    hide Step, AtMost, BuildOk, Measure;
    if n > 0 {
      StepsUseUpTheMeasure(b, inputs, n - 1, max);
      EveryStepIsOk(b, inputs, n - 1);
      assert ChangesAt(b, inputs, n - 1) && AtMost(inputs(n - 1), max);
      StepDecreases(Steps(b, inputs, n - 1), inputs(n - 1), max);
    }
  }

  /** Whatever the cluster answers, at most this many steps in a row report a change. */
  lemma ProcessStops(b: Build, inputs: nat -> Input, n: nat, max: int)
    requires BuildOk(b) && Within(inputs, max) && AllChange(b, inputs, n)
    ensures n <= 5 + 4 * Max(0, max - |b.completed|)
  {
    StepsUseUpTheMeasure(b, inputs, n, max);
  }

  // ---- A waiting build ----

  /** A waiting build behaves as a running one as soon as its KoupletBuild can be fetched. */
  lemma WaitingActsAsRunning(b: Build, input: Input)
    requires b.state == BuildWaiting && input.instance.Some?
    ensures Step(b, input) == Step(b.(state := BuildRunning), input)
  {
  }

  lemma NoSuccess(b: Build)
    requires NoneSucceeded(b.completed)
    ensures !HasSuccess(b)
  {
  }

  /** Exactly when the change from waiting to running goes unreported, and so unsaved: when nothing else happens. */
  lemma UnreportedExactlyWhen(b: Build, input: Input)
    requires BuildOk(b) && b.state == BuildWaiting && b.active == []
    ensures !Step(b, input).changed && Step(b, input).build != b <==>
              && input.instance.Some?
              && input.creation.CreationFailed?
              && !OutOfAttempts(b, input.instance.value)
              && !OutOfTime(b, input.instance.value, input.overallNow)
  {
    hide JobName, MaxAttempts, MaxOverallTime;
    if input.instance.Some? {
      ScannedNone(b.(state := BuildRunning), input);
      NoSuccess(b);
    }
  }
}
