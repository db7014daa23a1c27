/** Runs in which every KoupletTest has the same rate limit: then the limit holds of every window of time. */
module UniformLimits {
  import opened Prelude
  import opened TestModel
  import opened CollectionSteps
  import opened DatabaseSteps
  import opened Limits
  import opened StartLedger
  import DatabaseInvariant
  import Termination

  predicate HasLimit(kube: KubeTest, nodes: int, period: int) {
    Nodes(kube) == nodes && PeriodSeconds(kube) == period
  }

  ghost predicate StartsLimited(begun: seq<Start>, nodes: int, period: int) {
    forall s :: s in begun ==> s.nodes == nodes && s.period == period
  }

  ghost predicate AllLimited(collections: map<string, Collection>, nodes: int, period: int) {
    forall u :: u in collections ==> HasLimit(collections[u].kube, nodes, period)
  }

  /** Every collection has the limit, and every test was started under it. */
  ghost predicate Uniform(db: Database, nodes: int, period: int) {
    AllLimited(db.collections, nodes, period) && StartsLimited(db.history, nodes, period)
  }

  // ---- Steps ----

  lemma {:induction false} StartsAreLimited(c: Collection, clock: int, starts: seq<int>, budget: int,
                                            answers: nat -> Answer, attempt: nat)
    ensures StartsLimited(StartTests(c, clock, starts, budget, answers, attempt).begun, Nodes(c.kube), PeriodSeconds(c.kube))
    decreases if budget > 0 then budget else 0
  {
    hide Nodes, PeriodSeconds, CanStartMore, FirstWaiting;
    if budget > 0 {
      var turn := TakeTurn(c, answers(attempt));
      var time := clock + answers(attempt).checkDelay + answers(attempt).startDelay;
      if turn.Begun? {
        assert turn.coll.kube == c.kube;
        StartsAreLimited(turn.coll, time, starts + [time], budget - 1, answers, attempt + 1);
      }
    }
  }

  lemma ProcessIsLimited(c: Collection, clock: int, starts: seq<int>, cluster: Cluster)
    ensures
      var o := ProcessCollection(c, clock, starts, cluster);
      o.coll.kube == c.kube && StartsLimited(o.begun, Nodes(c.kube), PeriodSeconds(c.kube))
  {
    hide RunJobs, StartTests, KoupletJobs, Uncompleted, Nodes, PeriodSeconds;
    DatabaseInvariant.ProcessKeepsHeader(c, clock, starts, cluster);
    if cluster.Cluster? {
      var jobs := KoupletJobs(cluster.jobs, c.uid);
      DatabaseInvariant.RunJobsKeepsHeader(c, clock, jobs, cluster.ingest);
      Termination.RunJobsNeverRefuses(c, clock, jobs, cluster.ingest);
      var finished := RunJobs(c, clock, jobs, cluster.ingest);
      var budget := ActiveLimit(finished.coll.kube) - Uncompleted(KoupletJobs(cluster.jobs, finished.coll.uid));
      StartsAreLimited(finished.coll, finished.clock, starts, budget, cluster.answers, 0);
    }
  }

  lemma VisitKeepsUniform(db: Database, uid: string, visit: Visit, first: bool, nodes: int, period: int)
    requires Uniform(db, nodes, period) && uid in db.collections
    ensures
      var o := ProcessCollection(db.collections[uid], db.clock, db.starts, visit.cluster);
      Uniform(AfterVisit(db, uid, o, first, visit.primaryDelay), nodes, period)
  {
    hide ProcessCollection, Nodes, PeriodSeconds;
    ProcessIsLimited(db.collections[uid], db.clock, db.starts, visit.cluster);
  }

  lemma {:induction false} RoundKeepsUniform(db: Database, visits: nat -> Visit, at: nat, inQueue: nat, nodes: int, period: int)
    requires Uniform(db, nodes, period)
    ensures Uniform(RoundFrom(db, visits, at, inQueue).db, nodes, period)
    decreases |db.running| - at
  {
    hide ProcessCollection, AfterVisit, Nodes, PeriodSeconds;
    if at < |db.running| && db.running[at] in db.collections {
      var uid := db.running[at];
      var o := ProcessCollection(db.collections[uid], db.clock, db.starts, visits(at).cluster);
      VisitKeepsUniform(db, uid, visits(at), at == 0, nodes, period);
      if !o.changed {
        RoundKeepsUniform(AfterVisit(db, uid, o, at == 0, visits(at).primaryDelay), visits, at + 1,
                          inQueue + |o.coll.queued| + |o.coll.retry|, nodes, period);
      }
    }
  }

  lemma {:induction false} MarkCompleteKeepsUniform(db: Database, endDelay: nat -> nat, n: nat, nodes: int, period: int)
    requires Uniform(db, nodes, period) && n <= |db.running|
    ensures Uniform(MarkComplete(db, endDelay, n), nodes, period)
  {
    hide IsComplete, Nodes, PeriodSeconds;
    if n > 0 {
      MarkCompleteKeepsUniform(db, endDelay, n - 1, nodes, period);
    }
  }

  lemma {:induction false} SweepKeepsUniform(db: Database, jobs: seq<Job>, nodes: int, period: int)
    requires Uniform(db, nodes, period)
    ensures Uniform(Sweep(db, jobs), nodes, period)
  {
    hide Nodes, PeriodSeconds;
    if jobs != [] {
      SweepKeepsUniform(db, jobs[..|jobs| - 1], nodes, period);
    }
  }

  lemma NextKeepsUniform(db: Database, s: Step, nodes: int, period: int)
    requires Uniform(db, nodes, period) && (s.Submitting? ==> HasLimit(s.kube, nodes, period))
    ensures Uniform(Next(db, s), nodes, period)
  {
    hide Nodes, PeriodSeconds, MarkComplete, RoundFrom, Sweep;
    match s
    case Submitting(kube, delay) => NewHasKube(kube, db.clock + delay, |kube.tests|);
    case Processing(visits) => RoundKeepsUniform(db, visits, 0, 0, nodes, period);
    case Settlement(settling) => MarkCompleteKeepsUniform(db, settling.endDelay, |db.running|, nodes, period);
    case Sweeping(jobs) => SweepKeepsUniform(db, jobs, nodes, period);
    case DroppingOldKeys =>
  }

  lemma {:induction false} NewHasKube(kube: KubeTest, clock: int, n: nat)
    requires n <= |kube.tests|
    ensures WithTests(kube, clock, n).kube == kube
  {
    if n > 0 {
      NewHasKube(kube, clock, n - 1);
    }
  }

  lemma {:induction false} EveryRunIsUniform(steps: seq<Step>, nodes: int, period: int)
    requires forall i :: 0 <= i < |steps| && steps[i].Submitting? ==> HasLimit(steps[i].kube, nodes, period)
    ensures Uniform(Run(steps), nodes, period)
  {
    hide Next, HasLimit;
    if steps != [] {
      var n := |steps| - 1;
      EveryRunIsUniform(steps[..n], nodes, period);
      NextKeepsUniform(Run(steps[..n]), steps[n], nodes, period);
    }
  }

  /** In every run in which every KoupletTest allows `nodes` starts in a period of at most an hour, no window of that
      length, wherever it begins, holds more than `nodes` starts. */
  lemma EveryRunIsLimited(steps: seq<Step>, nodes: nat, period: int, from: int)
    requires forall i :: 0 <= i < |steps| && steps[i].Submitting? ==> HasLimit(steps[i].kube, nodes, period)
    requires period <= SECONDS_REMEMBERED
    ensures CountWithin(Times(Run(steps).history), from, from + period * NANOS_PER_SECOND) <= nodes
  {
    hide Respected, HasLimit, Run;
    EveryRunIsUniform(steps, nodes, period);
    EveryStartRespectsItsLimit(steps);
    var history := Run(steps).history;
    forall j: nat | j < |history|
      ensures Respected(history, j) && history[j].nodes == nodes && history[j].period == period
    {
      var s := history[j];
      assert s in history;
    }
    EveryWindowIsLimited(history, nodes, period, from);
  }
}
