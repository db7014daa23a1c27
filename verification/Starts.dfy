/** Which tests start, told from the job list, the start times, the settings and the answers of the cluster alone. */
module Starts {
  import opened Prelude
  import opened TestModel
  import opened CollectionSteps
  import opened CollectionInvariant
  import opened CollectionProofs
  import opened DatabaseSteps
  import opened Limits

  // ---- The settings and what they are compared with ----

  /** The positions of the collection's jobs that have not completed. */
  function ActiveJobs(jobs: seq<Job>, uid: string): set<int> {
    set i | 0 <= i < |jobs| && jobs[i].collection == Some(uid) && jobs[i].entry.Some? && jobs[i].completionTime.None?
  }

  /** The positions of the starts after some time. */
  function StartsAfter(starts: seq<int>, time: int): set<int> {
    set i | 0 <= i < |starts| && starts[i] > time
  }

  /** `spec.numberOfNodes`, or one node. */
  function NodesOf(kube: KubeTest): int {
    match kube.numberOfNodes
    case Some(n) => if n > 0 then n else 1
    case None => 1
  }

  /** `spec.maxActiveTests`, or three tests, on each node. */
  function MaximumActive(kube: KubeTest): int {
    NodesOf(kube) * match kube.maxActiveTests case Some(n) => n case None => 3
  }

  /** `spec.minimumTimeBetweenTestRuns`, or two minutes, in nanoseconds. */
  function PeriodOf(kube: KubeTest): int {
    1_000_000_000 * match kube.minimumTimeBetweenTestRuns case Some(seconds) => seconds case None => 120
  }

  /** Fewer tests than there are nodes started within the period before `now`. */
  predicate RateAllows(kube: KubeTest, starts: seq<int>, now: int) {
    |StartsAfter(starts, now - PeriodOf(kube))| < NodesOf(kube)
  }

  /** The KoupletTest fetched by name is the collection's own, it can be set as owner, and the job is created. */
  predicate JobIsCreated(answer: Answer, uid: string) {
    match answer.instance
    case Some(found) => found == uid && answer.referenced && answer.created
    case None => false
  }

  // ---- They are what the operator computes ----

  lemma CountOneMore(jobs: seq<Job>, job: Job)
    ensures Uncompleted(jobs + [job]) == Uncompleted(jobs) + if job.completionTime.None? then 1 else 0
  {
    assert (jobs + [job])[..|jobs|] == jobs;
  }

  lemma ActiveOneMore(jobs: seq<Job>, uid: string)
    requires jobs != []
    ensures
      var n, last := |jobs| - 1, jobs[|jobs| - 1];
      |ActiveJobs(jobs, uid)| == |ActiveJobs(jobs[..n], uid)| +
        if last.collection == Some(uid) && last.entry.Some? && last.completionTime.None? then 1 else 0
  {
    var n, last := |jobs| - 1, jobs[|jobs| - 1];
    var before := ActiveJobs(jobs[..n], uid);
    if last.collection == Some(uid) && last.entry.Some? && last.completionTime.None? {
      assert ActiveJobs(jobs, uid) == before + {n};
    } else {
      assert ActiveJobs(jobs, uid) == before;
    }
  }

  lemma {:induction false} UncompletedIsActive(jobs: seq<Job>, uid: string)
    ensures Uncompleted(KoupletJobs(jobs, uid)) == |ActiveJobs(jobs, uid)|
  {
    hide Uncompleted, ActiveJobs;
    if jobs == [] {
      NoneActive(uid);
    } else {
      var n := |jobs| - 1;
      UncompletedIsActive(jobs[..n], uid);
      ActiveOneMore(jobs, uid);
      CountOneMore(KoupletJobs(jobs[..n], uid), jobs[n]);
    }
  }

  lemma NoneActive(uid: string)
    ensures Uncompleted(KoupletJobs([], uid)) == 0 == |ActiveJobs([], uid)|
  {
    assert ActiveJobs([], uid) == {};
  }

  lemma {:induction false} CountIsStartsAfter(starts: seq<int>, time: int)
    ensures CountAfter(starts, time) == |StartsAfter(starts, time)|
  {
    if starts == [] {
      assert StartsAfter(starts, time) == {};
    } else {
      var n := |starts| - 1;
      CountIsStartsAfter(starts[..n], time);
      assert StartsAfter(starts, time) == StartsAfter(starts[..n], time) + if starts[n] > time then {n} else {};
    }
  }

  lemma SettingsAre(kube: KubeTest)
    ensures Nodes(kube) == NodesOf(kube) && ActiveLimit(kube) == MaximumActive(kube)
    ensures PeriodSeconds(kube) * NANOS_PER_SECOND == PeriodOf(kube)
  {
  }

  lemma RateIs(kube: KubeTest, starts: seq<int>, now: int)
    ensures CanStartMore(starts, now, kube) <==> RateAllows(kube, starts, now)
  {
    hide CountAfter, StartsAfter, PeriodSeconds, Nodes, PeriodOf, NodesOf;
    SettingsAre(kube);
    CountIsStartsAfter(starts, now - PeriodOf(kube));
  }

  lemma AcceptedIs(answer: Answer, uid: string)
    ensures Accepted(answer, uid) <==> JobIsCreated(answer, uid)
  {
  }

  /** The budget of processWaitingTests: what the settings allow, less the jobs that have not completed. */
  lemma BudgetIs(c: Collection, clock: int, starts: seq<int>, jobs: seq<Job>, answers: nat -> Answer)
    ensures RunWaiting(c, clock, starts, jobs, answers) ==
              StartTests(c, clock, starts, MaximumActive(c.kube) - |ActiveJobs(jobs, c.uid)|, answers, 0)
  {
    hide StartTests, ActiveLimit, MaximumActive, Uncompleted, KoupletJobs, ActiveJobs;
    SettingsAre(c.kube);
    UncompletedIsActive(jobs, c.uid);
  }

  // ---- How many start ----

  /** processWaitingTests starts no more tests than the jobs that have not completed leave room for, in the order in which
      they wait. */
  lemma ActiveJobsAreLimited(c: Collection, clock: int, starts: seq<int>, jobs: seq<Job>, answers: nat -> Answer)
    requires CollectionOk(c)
    ensures
      var o := RunWaiting(c, clock, starts, jobs, answers);
      |o.begun| <= Max(0, MaximumActive(c.kube) - |ActiveJobs(jobs, c.uid)|) && StartedInOrder(c, o, |o.begun|)
  {
    hide CollectionOk, StartedInOrder, StartTests, RunWaiting, MaximumActive, ActiveJobs;
    BudgetIs(c, clock, starts, jobs, answers);
    StartsFollowTheQueue(c, clock, starts, MaximumActive(c.kube) - |ActiveJobs(jobs, c.uid)|, answers, 0);
  }

  /** A first test starts. */
  ghost predicate FirstStarts(c: Collection, clock: int, o: Outcome, answer: Answer) {
    && Waiting(c) != [] && o.begun != []
    && o.begun[0] == Start(clock + answer.checkDelay + answer.startDelay, NodesOf(c.kube),
                           match c.kube.minimumTimeBetweenTestRuns case Some(seconds) => seconds case None => 120)
    && var id := Waiting(c)[0];
    && id in o.coll.entries && id in c.entries
    && o.coll.entries[id] == c.entries[id].(
         status := EntryRunning, bucket := InRunning,
         cluster := Some(ClusterResource(answer.jobNamespace, answer.jobName)))
  }

  lemma OneStart(c: Collection, clock: int, starts: seq<int>, budget: int, answers: nat -> Answer)
    requires CollectionOk(c)
    ensures
      var o, now := StartTests(c, clock, starts, budget, answers, 0), clock + answers(0).checkDelay;
      if budget > 0 && Waiting(c) != [] && RateAllows(c.kube, starts, now) && JobIsCreated(answers(0), c.uid)
      then FirstStarts(c, clock, o, answers(0)) else o.begun == []
  {
    hide CollectionOk, TakeTurn, CanStartMore, RateAllows, Accepted, JobIsCreated, Nodes, PeriodSeconds, NodesOf;
    var now := clock + answers(0).checkDelay;
    RateIs(c.kube, starts, now);
    AcceptedIs(answers(0), c.uid);
    TurnTakesTheFirst(c, answers(0));
    if budget > 0 && CanStartMore(starts, now, c.kube) && TakeTurn(c, answers(0)).Begun? {
      FirstTurnStarts(c, clock, starts, budget, answers);
    }
  }

  lemma FirstTurnStarts(c: Collection, clock: int, starts: seq<int>, budget: int, answers: nat -> Answer)
    requires CollectionOk(c) && budget > 0 && CanStartMore(starts, clock + answers(0).checkDelay, c.kube)
    requires TakeTurn(c, answers(0)).Begun?
    ensures FirstStarts(c, clock, StartTests(c, clock, starts, budget, answers, 0), answers(0))
  {
    hide CollectionOk, TakeTurn, CanStartMore, Accepted;
    TurnTakesTheFirst(c, answers(0));
    TurnKeepsInvariant(c, answers(0));
    SettingsAre(c.kube);
    var turn := TakeTurn(c, answers(0));
    var time := clock + answers(0).checkDelay + answers(0).startDelay;
    StartTestsLeave(turn.coll, time, starts + [time], budget - 1, answers, 1, turn.id);
  }

  /** Tests that no longer wait are left alone. */
  lemma {:induction false} StartTestsLeave(c: Collection, clock: int, starts: seq<int>, budget: int, answers: nat -> Answer,
                                           attempt: nat, id: int)
    requires CollectionOk(c) && id in c.entries && c.entries[id].status != EntryWaiting
    ensures
      var d := StartTests(c, clock, starts, budget, answers, attempt).coll;
      id in d.entries && d.entries[id] == c.entries[id]
    decreases if budget > 0 then budget else 0
  {
    hide TakeTurn, CollectionOk, CanStartMore;
    if budget > 0 && CanStartMore(starts, clock + answers(attempt).checkDelay, c.kube) {
      TurnLeaves(c, answers(attempt), id);
      TurnKeepsInvariant(c, answers(attempt));
      var turn := TakeTurn(c, answers(attempt));
      if turn.Begun? {
        var time := clock + answers(attempt).checkDelay + answers(attempt).startDelay;
        StartTestsLeave(turn.coll, time, starts + [time], budget - 1, answers, attempt + 1, id);
      }
    }
  }

  lemma TurnLeaves(c: Collection, answer: Answer, id: int)
    requires CollectionOk(c) && id in c.entries && c.entries[id].status != EntryWaiting
    ensures
      var turn := TakeTurn(c, answer);
      !turn.Nothing? ==> id in turn.coll.entries && turn.coll.entries[id] == c.entries[id]
  {
    hide Partition, Forest, Retried;
  }

  /** A test starts exactly when one waits, fewer jobs than the settings allow are uncompleted, the rate allows a start, and
      the job of the first waiting test is created. It is then the first in line that starts, with its job. */
  lemma StartsExactlyWhen(c: Collection, clock: int, starts: seq<int>, jobs: seq<Job>, answers: nat -> Answer)
    requires CollectionOk(c)
    ensures
      var o := RunWaiting(c, clock, starts, jobs, answers);
      && (o.begun != [] <==>
            && Waiting(c) != []
            && |ActiveJobs(jobs, c.uid)| < MaximumActive(c.kube)
            && RateAllows(c.kube, starts, clock + answers(0).checkDelay)
            && JobIsCreated(answers(0), c.uid))
      && (o.begun != [] ==> FirstStarts(c, clock, o, answers(0)))
  {
    hide CollectionOk, StartTests, RunWaiting, MaximumActive, ActiveJobs, RateAllows, JobIsCreated;
    BudgetIs(c, clock, starts, jobs, answers);
    OneStart(c, clock, starts, MaximumActive(c.kube) - |ActiveJobs(jobs, c.uid)|, answers);
  }

  // ---- Why no more start ----

  /** After `o`, nothing else can start: none waits, the budget is used up, the rate forbids it, or a job was not created. */
  ghost predicate NoMoreCanStart(c: Collection, starts: seq<int>, budget: int, answers: nat -> Answer, attempt: nat, o: Outcome) {
    || |o.begun| == |Waiting(c)|
    || |o.begun| == Max(0, budget)
    || !RateAllows(c.kube, starts + Times(o.begun), o.clock)
    || (o.refused && !JobIsCreated(answers(attempt + |o.begun|), c.uid))
  }

  lemma {:induction false} NothingElseHoldsBack(c: Collection, clock: int, starts: seq<int>, budget: int,
                                                answers: nat -> Answer, attempt: nat)
    requires CollectionOk(c)
    ensures NoMoreCanStart(c, starts, budget, answers, attempt, StartTests(c, clock, starts, budget, answers, attempt))
    decreases if budget > 0 then budget else 0
  {
    hide TakeTurn, CollectionOk, CanStartMore, RateAllows, Accepted, JobIsCreated;
    var now := clock + answers(attempt).checkDelay;
    RateIs(c.kube, starts, now);
    AcceptedIs(answers(attempt), c.uid);
    assert starts + Times([]) == starts;
    TurnTakesTheFirst(c, answers(attempt));
    if budget > 0 && CanStartMore(starts, now, c.kube) && TakeTurn(c, answers(attempt)).Begun? {
      var turn := TakeTurn(c, answers(attempt));
      var time := now + answers(attempt).startDelay;
      TurnKeepsInvariant(c, answers(attempt));
      BegunLists(c, answers(attempt));
      NothingElseHoldsBack(turn.coll, time, starts + [time], budget - 1, answers, attempt + 1);
      var rest := StartTests(turn.coll, time, starts + [time], budget - 1, answers, attempt + 1);
      var s := Start(time, Nodes(c.kube), PeriodSeconds(c.kube));
      Limits.Regroup([], starts, s, rest.begun);
    }
  }

  /** processWaitingTests stops for one of four reasons only: no test waits any more, the uncompleted and the new jobs fill
      the limit, the rate forbids a further start, or a job could not be created. */
  lemma StopsForAReason(c: Collection, clock: int, starts: seq<int>, jobs: seq<Job>, answers: nat -> Answer)
    requires CollectionOk(c)
    ensures
      var o := RunWaiting(c, clock, starts, jobs, answers);
      || |o.begun| == |Waiting(c)|
      || |o.begun| == Max(0, MaximumActive(c.kube) - |ActiveJobs(jobs, c.uid)|)
      || !RateAllows(c.kube, starts + Times(o.begun), o.clock)
      || (o.refused && !JobIsCreated(answers(|o.begun|), c.uid))
  {
    hide CollectionOk, StartTests, RunWaiting, MaximumActive, ActiveJobs, RateAllows, JobIsCreated;
    BudgetIs(c, clock, starts, jobs, answers);
    NothingElseHoldsBack(c, clock, starts, MaximumActive(c.kube) - |ActiveJobs(jobs, c.uid)|, answers, 0);
  }
}
