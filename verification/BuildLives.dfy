/** Builds over restarts: the operator may stop at any point and go on from the record of the build. */
module BuildLives {
  import opened Prelude
  import opened BuildSteps
  import opened BuildProofs
  import opened BuildStore
  import opened BuildDatabase

  /** A build and its record. */
  datatype BuildWorld = BuildWorld(build: Build, record: BuildJson)

  /** The steps of one call of process, the last of which reports no change; or a crash, after which the KoupletBuild is
      found again under its name. A crash during process is one before it: nothing is written until its end. */
  datatype BuildEvent =
    | Processing(inputs: nat -> Input, rounds: nat)
    | Reloading

  ghost predicate IsProcess(b: Build, inputs: nat -> Input, rounds: nat, max: int) {
    Within(inputs, max) && rounds > 0 && AllChange(b, inputs, rounds - 1) && !ChangesAt(b, inputs, rounds - 1)
  }

  ghost predicate BuildEventOk(w: BuildWorld, e: BuildEvent, max: int) {
    e.Processing? ==> IsProcess(w.build, e.inputs, e.rounds, max)
  }

  function Restored(j: BuildJson): Build {
    var loaded := OfJson(j, Found(j.name));
    if loaded.LoadedBuild? then loaded.build else NewBuild(j.name, j.uid, 0)
  }

  function AfterEvent(w: BuildWorld, e: BuildEvent): BuildWorld {
    match e
    case Reloading => BuildWorld(Restored(w.record), w.record)
    case Processing(inputs, rounds) =>
      var b := Steps(w.build, inputs, rounds);
      BuildWorld(b, if rounds > 1 then ToJson(b) else w.record)
  }

  /** A new build is processed and written before anything else happens to it. */
  function FirstWorld(name: string, uid: string, now: int, inputs: nat -> Input, rounds: nat): BuildWorld {
    var b := Steps(NewBuild(name, uid, now), inputs, rounds);
    BuildWorld(b, ToJson(b))
  }

  function Life(first: BuildWorld, events: seq<BuildEvent>): BuildWorld {
    if events == [] then first else AfterEvent(Life(first, events[..|events| - 1]), events[|events| - 1])
  }

  ghost predicate LifeOk(first: BuildWorld, events: seq<BuildEvent>, max: int) {
    events == [] ||
    (LifeOk(first, events[..|events| - 1], max)
     && BuildEventOk(Life(first, events[..|events| - 1]), events[|events| - 1], max))
  }

  ghost predicate WorldOk(w: BuildWorld, max: int) {
    BuildOk(w.build) && WithinLimit(w.build, max) && Saved(w.build, w.record) && w.build.kubeName == w.build.name
  }

  // ---- Steps ----

  lemma StepKeepsNames(b: Build, input: Input)
    ensures Step(b, input).build.name == b.name && Step(b, input).build.kubeName == b.kubeName
  {
    hide ScanOf, AnyRemoved, HasSuccess, OutOfAttempts, OutOfTime;
  }

  lemma {:induction false} StepsKeep(b: Build, inputs: nat -> Input, n: nat, max: int)
    requires BuildOk(b) && WithinLimit(b, max) && Within(inputs, max)
    ensures
      var c := Steps(b, inputs, n);
      BuildOk(c) && WithinLimit(c, max) && c.name == b.name && c.kubeName == b.kubeName && b.completed <= c.completed
  {
    hide Step, BuildOk, WithinLimit, AtMost;
    if n > 0 {
      StepsKeep(b, inputs, n - 1, max);
      var before := Steps(b, inputs, n - 1);
      assert AtMost(inputs(n - 1), max);
      StepKeeps(before, inputs(n - 1));
      StepKeepsLimit(before, inputs(n - 1), max);
      StepKeepsNames(before, inputs(n - 1));
    }
  }

  lemma ProcessKeepsWorld(w: BuildWorld, inputs: nat -> Input, rounds: nat, max: int)
    requires WorldOk(w, max) && IsProcess(w.build, inputs, rounds, max)
    ensures WorldOk(AfterEvent(w, Processing(inputs, rounds)), max)
  {
    hide Step, BuildOk, WithinLimit, AtMost, ToJson, Saved;
    StepsKeep(w.build, inputs, rounds, max);
    SavedNow(Steps(w.build, inputs, rounds));
    if rounds == 1 {
      assert Steps(w.build, inputs, 0) == w.build;
      assert AtMost(inputs(0), max);
      QuietStepKeepsSaved(w.build, inputs(0), max, w.record);
    }
  }

  lemma SavedNow(b: Build)
    ensures Saved(b, ToJson(b))
  {
    hide ToJson;
  }

  // ---- Restarts ----

  /** What of a build does not depend on times; one that counts as running may have been stored as waiting. */
  ghost predicate SameCourse(b: Build, c: Build) {
    && (c.state == b.state || (b.state == BuildRunning && c.state == BuildWaiting))
    && c.success == b.success && c.name == b.name && c.uid == b.uid
    && c.completionTime.Some? == b.completionTime.Some?
    && SameAttempts(b.active, c.active) && SameAttempts(b.completed, c.completed)
  }

  ghost predicate SameAttempts(s: seq<Attempt>, t: seq<Attempt>) {
    |t| == |s| && forall i :: 0 <= i < |s| ==> SameAttempt(s[i], t[i])
  }

  predicate SameAttempt(a: Attempt, b: Attempt) {
    b.jobName == a.jobName && b.jobUid == a.jobUid && b.succeeded == a.succeeded
  }

  lemma AttemptsAreTheSame(s: seq<Attempt>)
    ensures SameAttempts(s, AttemptsOfJson(AttemptsToJson(s)))
  {
    hide ToMillis, FromMillis;
  }

  lemma StateRoundTrip(s: BuildState)
    ensures StateOf(StateName(s)) == Some(s)
  {
  }

  lemma RestoredIs(b: Build, j: BuildJson)
    requires Saved(b, j) && b.kubeName == b.name
    ensures SameCourse(b, Restored(j)) && Restored(j).kubeName == b.name
    ensures OfJson(j, Found(j.name)).LoadedBuild?
  {
    hide ToMillis, FromMillis, StateName, StateOf, AttemptsToJson, AttemptsOfJson, SameAttempts;
    StateRoundTrip(b.state);
    StateRoundTrip(BuildWaiting);
    AttemptsAreTheSame(b.active);
    AttemptsAreTheSame(b.completed);
  }

  lemma SameCourseKeepsOk(b: Build, c: Build, max: int)
    requires BuildOk(b) && WithinLimit(b, max) && SameCourse(b, c) && c.kubeName == b.kubeName
    ensures BuildOk(c) && WithinLimit(c, max)
  {
    if NoneSucceeded(b.completed) {
      forall a | a in c.completed
        ensures a.succeeded != Some(true)
      {
        var i :| 0 <= i < |c.completed| && c.completed[i] == a;
        assert SameAttempt(b.completed[i], c.completed[i]);
        assert b.completed[i] in b.completed;
      }
    }
  }

  lemma OptionIsBounded(o: Option<int>)
    ensures MillisOk(MapOption(o, ToMillis))
  {
    if o.Some? {
      MillisAreBounded(o.value);
    }
  }

  /** What the operator writes never overflows when it is read. */
  lemma WrittenIsInBounds(b: Build)
    ensures JsonMillisOk(ToJson(b))
  {
    hide ToMillis, StateName;
    MillisAreBounded(b.creationTime);
    OptionIsBounded(b.startTime);
    OptionIsBounded(b.completionTime);
    AttemptsAreBoundedIn(b.active);
    AttemptsAreBoundedIn(b.completed);
  }

  lemma AttemptsAreBoundedIn(s: seq<Attempt>)
    ensures forall j :: j in AttemptsToJson(s) ==> AttemptMillisOk(j)
  {
    hide ToMillis;
    forall j | j in AttemptsToJson(s)
      ensures AttemptMillisOk(j)
    {
      var i :| 0 <= i < |s| && AttemptsToJson(s)[i] == j;
      MillisAreBounded(s[i].queueTime);
      OptionIsBounded(s[i].startTime);
      OptionIsBounded(s[i].completionTime);
    }
  }

  lemma RestoredIsSaved(b: Build, j: BuildJson)
    requires Saved(b, j) && b.kubeName == b.name
    ensures Saved(Restored(j), j)
  {
    hide ToJson, OfJson, JsonMillisOk;
    RestoredIs(b, j);
    WrittenIsInBounds(b);
    WrittenIsInBounds(b.(state := BuildWaiting));
    StateIsKnown(b, j);
    JsonRoundTrip(j, j.name);
  }

  lemma StateIsKnown(b: Build, j: BuildJson)
    requires Saved(b, j)
    ensures StateOf(j.state).Some?
  {
    hide ToMillis, AttemptsToJson;
  }

  lemma ReloadKeepsWorld(w: BuildWorld, max: int)
    requires WorldOk(w, max)
    ensures WorldOk(AfterEvent(w, Reloading), max) && SameCourse(w.build, AfterEvent(w, Reloading).build)
  {
    hide BuildOk, WithinLimit, Saved, SameCourse, Restored;
    RestoredIs(w.build, w.record);
    RestoredIsSaved(w.build, w.record);
    SameCourseKeepsOk(w.build, Restored(w.record), max);
    NameIsTheSame(w.build, Restored(w.record));
  }

  lemma NameIsTheSame(b: Build, c: Build)
    requires SameCourse(b, c)
    ensures c.name == b.name
  {
    hide SameAttempts;
  }

  // ---- Every life of a build ----

  lemma FirstWorldIsOk(name: string, uid: string, now: int, inputs: nat -> Input, rounds: nat, max: int)
    requires Within(inputs, max)
    ensures WorldOk(FirstWorld(name, uid, now, inputs, rounds), max)
  {
    hide Step, BuildOk, WithinLimit, ToJson, Saved;
    var b := NewBuild(name, uid, now);
    NewBuildIsOk(name, uid, now, max);
    StepsKeep(b, inputs, rounds, max);
    SavedNow(Steps(b, inputs, rounds));
  }

  lemma NewBuildIsOk(name: string, uid: string, now: int, max: int)
    ensures BuildOk(NewBuild(name, uid, now)) && WithinLimit(NewBuild(name, uid, now), max)
  {
  }

  /** However often the operator stops and goes on from the record: state, success and completion time agree, at most
      one attempt is active, the attempts are numbered from one, they are never more than the specification has ever
      allowed, and the record is that of the build. */
  lemma {:induction false} EveryBuildLifeIsOk(first: BuildWorld, events: seq<BuildEvent>, max: int)
    requires WorldOk(first, max) && LifeOk(first, events, max)
    ensures WorldOk(Life(first, events), max)
  {
    hide WorldOk, BuildEventOk, AfterEvent;
    if events != [] {
      EveryBuildLifeIsOk(first, events[..|events| - 1], max);
      AfterKeepsWorld(Life(first, events[..|events| - 1]), events[|events| - 1], max);
    }
  }

  lemma AfterKeepsWorld(w: BuildWorld, e: BuildEvent, max: int)
    requires WorldOk(w, max) && BuildEventOk(w, e, max)
    ensures WorldOk(AfterEvent(w, e), max)
  {
    hide WorldOk, AfterEvent, IsProcess;
    match e
    case Processing(inputs, rounds) => ProcessKeepsWorld(w, inputs, rounds, max);
    case Reloading => ReloadKeepsWorld(w, max);
  }

  /** Attempts are only ever added, and they keep their jobs and their outcomes. */
  ghost predicate Extends(b: Build, c: Build) {
    |b.completed| <= |c.completed| && SameAttempts(b.completed, c.completed[..|b.completed|])
  }

  lemma ExtendsTwice(a: Build, b: Build, c: Build)
    requires Extends(a, b) && Extends(b, c)
    ensures Extends(a, c)
  {
    hide SameAttempt;
    forall i | 0 <= i < |a.completed|
      ensures SameAttempt(a.completed[i], c.completed[..|a.completed|][i])
    {
      assert SameAttempt(a.completed[i], b.completed[..|a.completed|][i]);
      assert SameAttempt(b.completed[i], c.completed[..|b.completed|][i]);
      SameAttemptTwice(a.completed[i], b.completed[i], c.completed[i]);
    }
  }

  lemma SameAttemptTwice(a: Attempt, b: Attempt, c: Attempt)
    requires SameAttempt(a, b) && SameAttempt(b, c)
    ensures SameAttempt(a, c)
  {
  }

  /** What a build has come to survives everything: its completed attempts with their outcomes, and, once it has completed
      or expired, its state and its success. */
  ghost predicate Preserves(b: Build, c: Build) {
    Extends(b, c) && (Terminal(b) ==> c.state == b.state && c.success == b.success && |c.completed| == |b.completed|)
  }

  lemma AfterPreserves(w: BuildWorld, e: BuildEvent, max: int)
    requires WorldOk(w, max) && BuildEventOk(w, e, max)
    ensures Preserves(w.build, AfterEvent(w, e).build)
  {
    hide BuildOk, WithinLimit, Saved, Step, AtMost, ToJson, Restored;
    match e
    case Processing(inputs, rounds) =>
      StepsKeep(w.build, inputs, rounds, max);
      if Terminal(w.build) {
        TerminalIsFinal(w.build, inputs, rounds);
      }
    case Reloading =>
      ReloadKeepsWorld(w, max);
      var c := Restored(w.record);
      assert c.completed[..|c.completed|] == c.completed;
  }

  lemma {:induction false} LifePreserves(first: BuildWorld, events: seq<BuildEvent>, n: nat, max: int)
    requires WorldOk(first, max) && LifeOk(first, events, max) && n <= |events|
    ensures Preserves(Life(first, events[..n]).build, Life(first, events).build)
    decreases |events|
  {
    hide WorldOk, BuildEventOk, AfterEvent, Preserves;
    if n == |events| {
      assert events[..n] == events;
      PreservesItself(Life(first, events).build);
    } else {
      var before, last := events[..|events| - 1], events[|events| - 1];
      assert before[..n] == events[..n];
      LifePreserves(first, before, n, max);
      EveryBuildLifeIsOk(first, before, max);
      AfterPreserves(Life(first, before), last, max);
      PreservesTwice(Life(first, events[..n]).build, Life(first, before).build, Life(first, events).build);
    }
  }

  lemma PreservesItself(b: Build)
    ensures Preserves(b, b)
  {
    assert b.completed[..|b.completed|] == b.completed;
  }

  lemma PreservesTwice(a: Build, b: Build, c: Build)
    requires Preserves(a, b) && Preserves(b, c)
    ensures Preserves(a, c)
  {
    hide Extends;
    ExtendsTwice(a, b, c);
  }

  /** After a restart every step is the step of the build that was written, with its times cut to the millisecond. */
  lemma RestartActsTheSame(b: Build, j: BuildJson, input: Input)
    requires Saved(b, j) && b.kubeName == b.name && BuildInRange(b) && input.instance.Some?
    ensures Step(Restored(j), input) == Step(Cut(b), input)
  {
    hide Step, ToJson, OfJson, CutAttempts;
    var waiting := b.(state := BuildWaiting);
    if j == ToJson(b) {
      JsonHasName(b);
      BuildRoundTrip(b);
    } else {
      JsonHasName(waiting);
      BuildRoundTrip(waiting);
      SavedActsTheSame(Cut(b), input);
    }
  }

  lemma JsonHasName(b: Build)
    ensures ToJson(b).name == b.name
  {
  }
}
