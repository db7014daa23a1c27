/** The rate limit of a whole run holds exactly for periods of at most an hour: for a longer one there is a run in which
    a test starts too early, because the starts before it have been forgotten. */
module LongPeriods {
  import opened Prelude
  import opened TestModel
  import opened CollectionSteps
  import opened CollectionInvariant
  import opened DatabaseSteps
  import opened DatabaseInvariant
  import opened Limits
  import opened StartLedger
  import opened UniformLimits
  import opened NextIds
  import CollectionProofs
  import Examples

  ghost predicate AllHaveLimit(steps: seq<Step>, nodes: int, period: int) {
    StepsOk(steps) && forall i :: 0 <= i < |steps| && steps[i].Submitting? ==> HasLimit(steps[i].kube, nodes, period)
  }

  /** The window of the length of the period that begins at `from` holds no more starts than there are nodes. */
  ghost predicate WindowIsLimited(steps: seq<Step>, nodes: int, period: int, from: int) {
    CountWithin(Times(Run(steps).history), from, from + period * NANOS_PER_SECOND) <= nodes
  }

  // ---- The run ----

  const FIRST := "00000000-0000-0000-0000-000000000001"
  const SECOND := "00000000-0000-0000-0000-000000000002"
  const AN_HOUR := SECONDS_REMEMBERED * NANOS_PER_SECOND

  /** `count` tests on `nodes` nodes, all of which could be active at once. */
  function Kube(uid: string, count: nat, nodes: nat, period: int): KubeTest {
    KubeTest("ns", uid, uid, seq(count, _ => TestSpec(None, [], [], [])), Some(nodes), Some(nodes + 1), Some(period), None, None,
             false)
  }

  const YES := Answer(0, Some(SECOND), true, true, "ns", "job", 0)

  function Visiting(): nat -> Visit {
    at => Visit(Cluster([], Examples.Ingest(), k => YES), 0)
  }

  function Ending(): Settling {
    Settling(n => 0, AN_HOUR, {})
  }

  /** Two KoupletTests: one without tests, and one with a test more than there are nodes. Both are admitted, one test is
      started on each node, an hour later the first collection is found complete, and the last test is started. */
  function EarlyRun(nodes: nat, period: int): seq<Step> {
    [Submitting(Kube(FIRST, 0, nodes, period), 0), Submitting(Kube(SECOND, nodes + 1, nodes, period), 0),
     Processing(Visiting()), Processing(Visiting()), Processing(Visiting()), Settlement(Ending()), Processing(Visiting())]
  }

  // ---- Starting a test on each node ----

  ghost predicate AllYes(answers: nat -> Answer, uid: string) {
    forall k: nat :: Accepted(answers(k), uid) && answers(k).checkDelay == 0 && answers(k).startDelay == 0
  }

  lemma RoomUntilFull(kube: KubeTest, m: nat)
    requires PeriodSeconds(kube) > 0
    ensures CanStartMore(Zeros(m), 0, kube) <==> m < Nodes(kube)
  {
    ZerosAreCounted(m, -PeriodSeconds(kube) * NANOS_PER_SECOND);
  }

  lemma OneMoreZero(m: nat)
    ensures Zeros(m) + [0] == Zeros(m + 1) && [0] + Zeros(m) == Zeros(m + 1)
  {
  }

  lemma {:induction false} OneOnEachNode(c: Collection, m: nat, budget: int, answers: nat -> Answer, attempt: nat)
    requires CollectionOk(c) && AllYes(answers, c.uid) && PeriodSeconds(c.kube) > 0
    requires m <= Nodes(c.kube) && Nodes(c.kube) - m <= budget && Nodes(c.kube) - m <= |c.queued|
    ensures
      var o := StartTests(c, 0, Zeros(m), budget, answers, attempt);
      && Times(o.begun) == Zeros(Nodes(c.kube) - m) && o.clock == 0 && !o.refused
      && (o.changed <==> m < Nodes(c.kube))
    decreases Nodes(c.kube) - m
  {
    hide CollectionOk, CanStartMore, TakeTurn, Zeros, Nodes, PeriodSeconds;
    RoomUntilFull(c.kube, m);
    assert Accepted(answers(attempt), c.uid);
    if m < Nodes(c.kube) {
      CollectionProofs.TurnTakesTheFirst(c, answers(attempt));
      CollectionProofs.TurnKeepsInvariant(c, answers(attempt));
      var turn := TakeTurn(c, answers(attempt));
      BegunLists(c, answers(attempt));
      TurnKeepsKube(c, answers(attempt));
      OneMoreZero(m);
      OneOnEachNode(turn.coll, m + 1, budget - 1, answers, attempt + 1);
      OneMoreZero(Nodes(c.kube) - m - 1);
      var o := StartTests(turn.coll, 0, Zeros(m + 1), budget - 1, answers, attempt + 1);
      TimesOfBegin(c, turn.id, 0, o);
    } else {
      assert Zeros(0) == [];
    }
  }

  lemma TurnKeepsKube(c: Collection, answer: Answer)
    ensures TakeTurn(c, answer).Begun? ==> TakeTurn(c, answer).coll.kube == c.kube && TakeTurn(c, answer).coll.uid == c.uid
  {
    hide FirstWaiting;
  }

  lemma TimesOfBegin(c: Collection, id: int, time: int, o: Outcome)
    ensures Times(Begin(c, id, time, o).begun) == [time] + Times(o.begun)
  {
  }

  // ---- The database on its way ----

  /** The database holds the two collections. */
  ghost predicate Two(db: Database, a: Collection, b: Collection, waiting: seq<string>, running: seq<string>,
                      starts: seq<int>, clock: int, times: seq<int>) {
    && db.collections == map[FIRST := a, SECOND := b] && a.uid == FIRST && b.uid == SECOND
    && db.waiting == waiting && db.running == running
    && db.starts == starts && db.clock == clock && Times(db.history) == times
  }

  lemma RunSnoc(steps: seq<Step>, n: nat)
    requires n < |steps|
    ensures Run(steps[..n + 1]) == Next(Run(steps[..n]), steps[n])
  {
    assert steps[..n + 1][..n] == steps[..n];
  }

  /** A collection in which nothing waits is not changed by its processing. */
  lemma NothingToDo(c: Collection, clock: int, starts: seq<int>)
    requires c.queued == [] && c.retry == []
    ensures ProcessCollection(c, clock, starts, Visiting()(0).cluster) == Unchanged(c, clock)
  {
    hide CanStartMore;
    assert KoupletJobs([], c.uid) == [];
    assert RunJobs(c, clock, [], Examples.Ingest()) == Unchanged(c, clock);
  }

  /** Its visit at the first position gives it its start time, if it has none. */
  lemma IdleVisit(db: Database, uid: string)
    requires uid in db.collections && db.collections[uid].uid == uid
    requires db.collections[uid].queued == [] && db.collections[uid].retry == []
    ensures
      var c := db.collections[uid];
      var o := ProcessCollection(c, db.clock, db.starts, Visiting()(0).cluster);
      var d := AfterVisit(db, uid, o, true, 0);
      && o == Unchanged(c, db.clock)
      && d.collections == db.collections[uid := if c.startTime.Some? then c else c.(startTime := Some(Millis(db.clock)))]
      && d.waiting == db.waiting && d.running == db.running && d.completed == db.completed && d.starts == db.starts
      && d.clock == db.clock && d.history == db.history && d.submitted == db.submitted
  {
    hide ProcessCollection, Put, PutAll, Millis;
    NothingToDo(db.collections[uid], db.clock, db.starts);
    assert db.starts + Times([]) == db.starts && db.history + [] == db.history;
  }

  lemma TwoSubmitted(nodes: nat, period: int)
    requires nodes > 0
    ensures
      var a, b := WithTests(Kube(FIRST, 0, nodes, period), 0, 0), WithTests(Kube(SECOND, nodes + 1, nodes, period), 0, nodes + 1);
      Two(Run(EarlyRun(nodes, period)[..2]), a, b, [FIRST, SECOND], [], [], 0, [])
  {
    hide Resolve, WithTests, Next;
    var steps := EarlyRun(nodes, period);
    RunSnoc(steps, 0);
    RunSnoc(steps, 1);
    assert steps[..0] == [];
    Submitted(EMPTY_DATABASE, Kube(FIRST, 0, nodes, period));
    Submitted(Run(steps[..1]), Kube(SECOND, nodes + 1, nodes, period));
  }

  lemma Submitted(db: Database, kube: KubeTest)
    requires kube.uid !in db.collections
    ensures
      var d := Next(db, Submitting(kube, 0));
      && d.collections == db.collections[kube.uid := WithTests(kube, db.clock, |kube.tests|)]
      && d.waiting == db.waiting + [kube.uid] && d.running == db.running && d.starts == db.starts && d.clock == db.clock
      && d.history == db.history
  {
    hide Resolve, WithTests;
    var c := WithTests(kube, db.clock, |kube.tests|);
    ResolveKeepsMemory(Enlist(db, c, db.clock, CreationMarks(kube.uid, |kube.tests|)));
  }

  /** The first round admits the first collection, the second one the second. */
  lemma TwoAdmitted(db: Database, a: Collection, b: Collection)
    requires Two(db, a, b, [FIRST, SECOND], [], [], 0, [])
    ensures
      var a' := a.(status := CollectionRunning, bucket := RunningBucket);
      Two(Next(db, Processing(Visiting())), a', b, [SECOND], [FIRST], [], 0, [])
  {
    hide Put;
    RoundOnce(db, Visiting(), 0, 0);
  }

  lemma BothAdmitted(db: Database, a: Collection, b: Collection)
    requires Two(db, a, b, [SECOND], [FIRST], [], 0, []) && a.queued == [] && a.retry == [] && a.startTime.None?
    ensures
      var a', b' := a.(startTime := Some(0)), b.(status := CollectionRunning, bucket := RunningBucket);
      Two(Next(db, Processing(Visiting())), a', b', [], [FIRST, SECOND], [], 0, [])
  {
    hide Put, ProcessCollection, AfterVisit;
    IdleVisit(db, FIRST);
    var d := AfterVisit(db, FIRST, Unchanged(a, 0), true, 0);
    RoundOnce(db, Visiting(), 0, 0);
    RoundOnce(d, Visiting(), 1, 0);
  }

  /** The third round starts the tests of the second collection. */
  lemma Starting(db: Database, a: Collection, b: Collection, running: seq<string>, starts: seq<int>, clock: int, times: seq<int>)
    requires Two(db, a, b, [], running, starts, clock, times)
    requires running == [FIRST, SECOND] && a.queued == [] && a.retry == [] && a.startTime.Some?
    requires ProcessCollection(b, clock, starts, Visiting()(1).cluster).changed
    requires ProcessCollection(b, clock, starts, Visiting()(1).cluster).coll.uid == SECOND
    ensures
      var o := ProcessCollection(b, clock, starts, Visiting()(1).cluster);
      Two(Next(db, Processing(Visiting())), a, o.coll, [], running, starts + Times(o.begun), o.clock, times + Times(o.begun))
  {
    hide Put, PutAll, ProcessCollection;
    IdleVisit(db, FIRST);
    var d := AfterVisit(db, FIRST, Unchanged(a, clock), true, 0);
    RoundOnce(db, Visiting(), 0, 0);
    RoundOnce(d, Visiting(), 1, 0);
    var o := ProcessCollection(b, clock, starts, Visiting()(1).cluster);
    TimesAppend(d.history, o.begun);
  }

  /** An hour later the first collection is found complete, and all starts are forgotten. */
  lemma FirstCompletes(db: Database, a: Collection, b: Collection, starts: seq<int>)
    requires Two(db, a, b, [], [FIRST, SECOND], starts, 0, starts) && (forall i :: 0 <= i < |starts| ==> starts[i] == 0)
    requires IsComplete(a) && !IsComplete(b)
    ensures
      var d := Next(db, Settlement(Ending()));
      && d.collections.Keys == {FIRST, SECOND} && d.collections[SECOND] == b && d.running == [SECOND]
      && d.starts == [] && d.clock == AN_HOUR && d.history == db.history
  {
    hide Resolve, IsComplete, Put, PutAll, RemovalMarks, Filter;
    var s := Ending();
    var m := MarkIfComplete(db, FIRST, 0);
    assert db.running[..0] == [];
    assert MarkComplete(db, s.endDelay, 0) == db;
    assert MarkComplete(db, s.endDelay, 1) == m;
    assert m.collections[SECOND] == b;
    assert MarkComplete(db, s.endDelay, 2) == m;
    StillRunningOfTwo(db);
    var c := CompleteCollections(db, s.endDelay, s.cleanupDelay);
    assert c == ForgetOldStarts(m.(running := [SECOND]), AN_HOUR);
    NoneRecent(starts, 0);
    WithoutNone(c.running);
    var d := Collect(c, {});
    assert {} * c.collections.Keys == {};
    assert d.collections == c.collections;
    ResolveKeepsMemory(d);
  }

  lemma StillRunningOfTwo(db: Database)
    requires db.running == [FIRST, SECOND] && FIRST in db.collections && SECOND in db.collections
    requires IsComplete(db.collections[FIRST]) && !IsComplete(db.collections[SECOND])
    ensures StillRunningList(db) == [SECOND]
  {
    hide IsComplete;
    assert db.running == [FIRST] + [SECOND];
    FilterAppend([FIRST], [SECOND], uid => StillRunning(db, uid));
    assert [FIRST][..0] == [] && [SECOND][..0] == [];
  }

  /** Then the last test starts. */
  lemma LastStarts(db: Database, b: Collection)
    requires SECOND in db.collections && db.collections[SECOND] == b && db.running == [SECOND]
    requires db.starts == [] && db.clock == AN_HOUR
    requires b.uid == SECOND && CollectionOk(b) && b.queued != [] && ActiveLimit(b.kube) > 0
    ensures
      var times := Times(Next(db, Processing(Visiting())).history);
      |times| > |db.history| && times[..|db.history|] == Times(db.history) && times[|db.history|] == AN_HOUR
  {
    hide Put, PutAll, ProcessCollection, CollectionOk;
    FirstBegun(b, AN_HOUR);
    var o := ProcessCollection(b, AN_HOUR, [], Visiting()(0).cluster);
    RoundOnce(db, Visiting(), 0, 0);
    TimesAppend(db.history, o.begun);
  }

  lemma FirstBegun(b: Collection, clock: int)
    requires b.uid == SECOND && CollectionOk(b) && b.queued != [] && ActiveLimit(b.kube) > 0
    ensures
      var o := ProcessCollection(b, clock, [], Visiting()(0).cluster);
      o.changed && o.begun != [] && Times(o.begun)[0] == clock
  {
    hide CollectionOk, TakeTurn, ActiveLimit;
    var answers := Visiting()(0).cluster.answers;
    assert KoupletJobs([], b.uid) == [];
    assert RunJobs(b, clock, [], Examples.Ingest()) == Unchanged(b, clock);
    assert CanStartMore([], clock, b.kube);
    CollectionProofs.TurnTakesTheFirst(b, YES);
    var o := StartTests(b, clock, [], ActiveLimit(b.kube), answers, 0);
    assert o.begun != [] && o.begun[0].time == clock;
  }

  // ---- The window that holds too many starts ----

  lemma {:induction false} WithinAppend(a: seq<int>, b: seq<int>, from: int, to: int)
    ensures CountWithin(a + b, from, to) == CountWithin(a, from, to) + CountWithin(b, from, to)
  {
    if b == [] {
      assert a + b == a;
    } else {
      WithinAppend(a, b[..|b| - 1], from, to);
      assert (a + b)[..|a + b| - 1] == a + b[..|b| - 1];
    }
  }

  lemma {:induction false} ZerosAreWithin(n: nat, from: int, to: int)
    requires from < 0 <= to
    ensures CountWithin(Zeros(n), from, to) == n
  {
    if n > 0 {
      assert Zeros(n)[..n - 1] == Zeros(n - 1);
      ZerosAreWithin(n - 1, from, to);
    }
  }

  /** `n` starts at the beginning and one more an hour later. */
  lemma TooMany(times: seq<int>, n: nat, to: int)
    requires |times| > n && times[..n] == Zeros(n) && times[n] == AN_HOUR <= to
    ensures CountWithin(times, -1, to) > n
  {
    assert times == times[..n] + [times[n]] + times[n + 1..];
    assert [times[n]][..0] == [];
    WithinAppend(times[..n] + [times[n]], times[n + 1..], -1, to);
    WithinAppend(times[..n], [times[n]], -1, to);
    ZerosAreWithin(n, -1, to);
  }

  lemma EarlySteps(nodes: nat, period: int)
    requires nodes > 0
    ensures AllHaveLimit(EarlyRun(nodes, period), nodes, period)
    ensures forall n: nat :: n <= 7 ==> StepsOk(EarlyRun(nodes, period)[..n])
    ensures EarlyRun(nodes, period)[..7] == EarlyRun(nodes, period)
  {
    assert StepsOk(EarlyRun(nodes, period)) by {
      assert IsUid(FIRST) && IsUid(SECOND);
    }
  }

  function SecondSubmitted(nodes: nat, period: int): Collection {
    WithTests(Kube(SECOND, nodes + 1, nodes, period), 0, nodes + 1)
  }

  lemma TheTwo(nodes: nat, period: int)
    requires nodes > 0
    ensures
      var a, b := WithTests(Kube(FIRST, 0, nodes, period), 0, 0), SecondSubmitted(nodes, period);
      && a.queued == [] && a.retry == [] && a.running == [] && a.startTime.None?
      && |b.queued| == nodes + 1 && b.uid == SECOND
      && Nodes(b.kube) == nodes && PeriodSeconds(b.kube) == period && ActiveLimit(b.kube) > nodes
  {
    hide WithTests;
    CollectionProofs.NewTestsQueued(Kube(FIRST, 0, nodes, period), 0, 0);
    CollectionProofs.NewTestsQueued(Kube(SECOND, nodes + 1, nodes, period), 0, nodes + 1);
    NewCollectionHeader(Kube(FIRST, 0, nodes, period), 0, 0);
    EnoughActive(nodes, nodes + 1);
  }

  lemma EnoughActive(nodes: nat, active: int)
    requires nodes > 0 && active > nodes
    ensures active * nodes > nodes
  {
  }

  /** On its visit the second collection starts one test on each node, and keeps one in its queue. */
  lemma FillsItsNodes(b: Collection, nodes: nat)
    requires b.uid == SECOND && CollectionOk(b) && |b.queued| == nodes + 1
    requires Nodes(b.kube) == nodes && PeriodSeconds(b.kube) > 0 && ActiveLimit(b.kube) > nodes
    ensures
      var o := ProcessCollection(b, 0, [], Visiting()(1).cluster);
      && o.changed && Times(o.begun) == Zeros(nodes) && o.clock == 0 && o.coll.queued != []
      && o.coll.uid == SECOND && o.coll.kube == b.kube
  {
    hide CollectionOk, StartTests, ActiveLimit, Nodes, PeriodSeconds;
    var answers := Visiting()(1).cluster.answers;
    assert KoupletJobs([], b.uid) == [];
    assert RunJobs(b, 0, [], Examples.Ingest()) == Unchanged(b, 0);
    assert Zeros(0) == [];
    OneOnEachNode(b, 0, ActiveLimit(b.kube), answers, 0);
    StartsFollowTheQueue(b, 0, [], ActiveLimit(b.kube), answers, 0);
    ProcessKeepsHeader(b, 0, [], Visiting()(1).cluster);
  }

  lemma AfterFilling(nodes: nat, period: int)
    requires nodes > 0 && period > 0
    ensures
      var db := Run(EarlyRun(nodes, period)[..5]);
      && {FIRST, SECOND} == db.collections.Keys
      && var a, b := db.collections[FIRST], db.collections[SECOND];
      && Two(db, a, b, [], [FIRST, SECOND], Zeros(nodes), 0, Zeros(nodes))
      && IsComplete(a) && !IsComplete(b) && b.queued != [] && ActiveLimit(b.kube) > 0
  {
    hide Run, Next, WithTests, CollectionOk, DatabaseOk, ProcessCollection, Nodes, PeriodSeconds, ActiveLimit, StepsOk;
    var steps := EarlyRun(nodes, period);
    EarlySteps(nodes, period);
    TheTwo(nodes, period);
    TwoSubmitted(nodes, period);
    var a, b := WithTests(Kube(FIRST, 0, nodes, period), 0, 0), SecondSubmitted(nodes, period);
    RunSnoc(steps, 2);
    TwoAdmitted(Run(steps[..2]), a, b);
    a := a.(status := CollectionRunning, bucket := RunningBucket);
    RunSnoc(steps, 3);
    BothAdmitted(Run(steps[..3]), a, b);
    a, b := a.(startTime := Some(0)), b.(status := CollectionRunning, bucket := RunningBucket);
    EveryRunIsOk(steps[..4]);
    HeldParts(Run(steps[..4]), SECOND);
    FillsItsNodes(b, nodes);
    RunSnoc(steps, 4);
    Starting(Run(steps[..4]), a, b, [FIRST, SECOND], [], 0, []);
    assert [] + Zeros(nodes) == Zeros(nodes);
  }

  /** For every number of nodes and every period of more than an hour the run holds a window with too many starts. */
  lemma EarlyRunExceeds(nodes: nat, period: int)
    requires nodes > 0 && period > SECONDS_REMEMBERED
    ensures !WindowIsLimited(EarlyRun(nodes, period), nodes, period, -1)
  {
    hide Run, Next, CollectionOk, DatabaseOk, IsComplete, ActiveLimit, StepsOk;
    var steps := EarlyRun(nodes, period);
    EarlySteps(nodes, period);
    AfterFilling(nodes, period);
    var db := Run(steps[..5]);
    var b := db.collections[SECOND];
    RunSnoc(steps, 5);
    FirstCompletes(db, db.collections[FIRST], b, Zeros(nodes));
    EveryRunIsOk(steps[..6]);
    HeldParts(Run(steps[..6]), SECOND);
    RunSnoc(steps, 6);
    LastStarts(Run(steps[..6]), b);
    TooMany(Times(Run(steps).history), nodes, -1 + period * NANOS_PER_SECOND);
  }

  /** The rate limit that all KoupletTests of a run share holds of every window of every run exactly when its period is at
      most an hour. */
  lemma RunsAreLimitedExactlyWhen(nodes: nat, period: int)
    requires nodes > 0
    ensures (forall steps, from :: AllHaveLimit(steps, nodes, period) ==> WindowIsLimited(steps, nodes, period, from))
            <==> period <= SECONDS_REMEMBERED
  {
    hide StepsOk, CountWithin, HasLimit, Run;
    if period <= SECONDS_REMEMBERED {
      forall steps, from | AllHaveLimit(steps, nodes, period)
        ensures WindowIsLimited(steps, nodes, period, from)
      {
        EveryRunIsLimited(steps, nodes, period, from);
      }
    } else {
      EarlySteps(nodes, period);
      EarlyRunExceeds(nodes, period);
    }
  }
}
