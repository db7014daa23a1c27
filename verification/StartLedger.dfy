/** The rate limit over whole runs: although old start times are forgotten, no window of time ever holds
    more starts than the limit under which its last start was made. */
module StartLedger {
  import opened Prelude
  import opened TestModel
  import opened CollectionSteps
  import opened DatabaseSteps
  import opened Limits
  import Termination

  ghost predicate DatabaseLedgerOk(db: Database) {
    LedgerOk(db.history, db.starts, db.clock)
  }

  // ---- Rounds ----

  lemma HandleJobTime(c: Collection, clock: int, job: Job, ingest: string -> seq<Totals>)
    requires job.entry.Some?
    ensures HandleJob(c, clock, job, ingest).clock >= clock
  {
  }

  lemma {:induction false} RunJobsTime(c: Collection, clock: int, jobs: seq<Job>, ingest: string -> seq<Totals>)
    requires forall job :: job in jobs ==> job.entry.Some?
    ensures RunJobs(c, clock, jobs, ingest).clock >= clock
  {
    hide HandleJob;
    if jobs != [] {
      RunJobsTime(c, clock, jobs[..|jobs| - 1], ingest);
      var before := RunJobs(c, clock, jobs[..|jobs| - 1], ingest);
      HandleJobTime(before.coll, before.clock, jobs[|jobs| - 1], ingest);
    }
  }

  lemma ProcessLedger(c: Collection, clock: int, starts: seq<int>, cluster: Cluster, history: seq<Start>)
    requires LedgerOk(history, starts, clock)
    ensures
      var o := ProcessCollection(c, clock, starts, cluster);
      o.clock >= clock && LedgerOk(history + o.begun, starts + Times(o.begun), o.clock)
  {
    hide LedgerOk, RunJobs, StartTests, KoupletJobs;
    NoStarts(history, starts);
    if cluster.Cluster? {
      var jobs := KoupletJobs(cluster.jobs, c.uid);
      RunJobsTime(c, clock, jobs, cluster.ingest);
      Termination.RunJobsNeverRefuses(c, clock, jobs, cluster.ingest);
      var finished := RunJobs(c, clock, jobs, cluster.ingest);
      LedgerLater(history, starts, clock, finished.clock);
      var budget := ActiveLimit(finished.coll.kube) - Uncompleted(KoupletJobs(cluster.jobs, finished.coll.uid));
      StartTestsLedger(finished.coll, finished.clock, starts, budget, cluster.answers, 0, history);
    }
  }

  lemma VisitLedger(db: Database, uid: string, visit: Visit, first: bool)
    requires DatabaseLedgerOk(db) && uid in db.collections
    ensures
      var o := ProcessCollection(db.collections[uid], db.clock, db.starts, visit.cluster);
      DatabaseLedgerOk(AfterVisit(db, uid, o, first, visit.primaryDelay))
  {
    hide LedgerOk, ProcessCollection;
    ProcessLedger(db.collections[uid], db.clock, db.starts, visit.cluster, db.history);
    var o := ProcessCollection(db.collections[uid], db.clock, db.starts, visit.cluster);
    LedgerLater(db.history + o.begun, db.starts + Times(o.begun), o.clock, o.clock + visit.primaryDelay);
  }

  lemma {:induction false} RoundLedger(db: Database, visits: nat -> Visit, at: nat, inQueue: nat)
    requires DatabaseLedgerOk(db)
    ensures DatabaseLedgerOk(RoundFrom(db, visits, at, inQueue).db)
    decreases |db.running| - at
  {
    hide LedgerOk, ProcessCollection, AfterVisit;
    if at < |db.running| && db.running[at] in db.collections {
      var uid := db.running[at];
      VisitLedger(db, uid, visits(at), at == 0);
      var o := ProcessCollection(db.collections[uid], db.clock, db.starts, visits(at).cluster);
      var d := AfterVisit(db, uid, o, at == 0, visits(at).primaryDelay);
      if !o.changed {
        RoundLedger(d, visits, at + 1, inQueue + |o.coll.queued| + |o.coll.retry|);
      }
    }
  }

  // ---- Forgetting old starts ----

  lemma {:induction false} RecentOfSorted(times: seq<int>, before: int)
    requires Sorted(times)
    ensures
      var kept := Recent(times, before);
      && kept == times[|times| - |kept|..]
      && forall i :: 0 <= i < |times| - |kept| ==> times[i] <= before
  {
    if times != [] {
      var front, last := times[..|times| - 1], times[|times| - 1];
      SortedFront(times, |times| - 1);
      RecentOfSorted(front, before);
      if last <= before {
        NoneRecent(times, before);
      } else {
        var kept := Recent(front, before);
        assert Recent(times, before) == kept + [last];
        assert times[|front| - |kept|..] == front[|front| - |kept|..] + [last];
      }
    }
  }

  lemma {:induction false} NoneRecent(times: seq<int>, before: int)
    requires forall i :: 0 <= i < |times| ==> times[i] <= before
    ensures Recent(times, before) == []
  {
    if times != [] {
      NoneRecent(times[..|times| - 1], before);
    }
  }

  lemma ForgetLedger(db: Database, delay: nat)
    requires DatabaseLedgerOk(db)
    ensures DatabaseLedgerOk(ForgetOldStarts(db, delay))
  {
    hide LedgerOk, Recent;
    LedgerForgets(db.history, db.starts, db.clock, db.clock + delay);
  }

  lemma LedgerForgets(history: seq<Start>, starts: seq<int>, clock: int, now: int)
    requires LedgerOk(history, starts, clock) && clock <= now
    ensures LedgerOk(history, Recent(starts, now - SECONDS_REMEMBERED * NANOS_PER_SECOND), now)
  {
    hide Respected, Recent;
    var kept := Recent(starts, now - SECONDS_REMEMBERED * NANOS_PER_SECOND);
    SortedTail(Times(history), |history| - |starts|);
    RecentOfSorted(starts, now - SECONDS_REMEMBERED * NANOS_PER_SECOND);
    RememberFewer(Times(history), starts, clock, kept, now);
  }

  lemma SortedTail(times: seq<int>, from: nat)
    requires Sorted(times) && from <= |times|
    ensures Sorted(times[from..])
  {
  }

  lemma RememberFewer(times: seq<int>, starts: seq<int>, clock: int, kept: seq<int>, now: int)
    requires RemembersLatest(times, starts, clock) && clock <= now
    requires |kept| <= |starts| && kept == starts[|starts| - |kept|..]
    requires forall i :: 0 <= i < |starts| - |kept| ==> starts[i] <= now - SECONDS_REMEMBERED * NANOS_PER_SECOND
    ensures RemembersLatest(times, kept, now)
  {
    var k := |times| - |starts|;
    assert times[|times| - |kept|..] == starts[|starts| - |kept|..];
    forall i | 0 <= i < |times| - |kept|
      ensures times[i] <= now - SECONDS_REMEMBERED * NANOS_PER_SECOND
    {
      if i >= k {
        assert times[i] == starts[i - k];
      }
    }
  }

  // ---- Runs ----

  lemma {:induction false} MarkCompleteLedger(db: Database, endDelay: nat -> nat, n: nat)
    requires DatabaseLedgerOk(db) && n <= |db.running|
    ensures DatabaseLedgerOk(MarkComplete(db, endDelay, n))
  {
    hide LedgerOk;
    if n > 0 {
      MarkCompleteLedger(db, endDelay, n - 1);
      var d := MarkComplete(db, endDelay, n - 1);
      LedgerLater(d.history, d.starts, d.clock, d.clock + endDelay(n - 1));
    }
  }

  lemma {:induction false} SweepLedger(db: Database, jobs: seq<Job>)
    requires DatabaseLedgerOk(db)
    ensures DatabaseLedgerOk(Sweep(db, jobs))
  {
    hide LedgerOk;
    if jobs != [] {
      SweepLedger(db, jobs[..|jobs| - 1]);
      var d := Sweep(db, jobs[..|jobs| - 1]);
      LedgerLater(d.history, d.starts, d.clock, d.clock + jobs[|jobs| - 1].delay);
    }
  }

  lemma SettleLedger(db: Database, s: Settling)
    requires DatabaseLedgerOk(db)
    ensures DatabaseLedgerOk(Settle(db, s))
  {
    hide LedgerOk, MarkComplete, ForgetOldStarts, StillRunningList;
    MarkCompleteLedger(db, s.endDelay, |db.running|);
    var d := MarkComplete(db, s.endDelay, |db.running|).(running := StillRunningList(db));
    ForgetLedger(d, s.cleanupDelay);
  }

  lemma NextLedger(db: Database, s: Step)
    requires DatabaseLedgerOk(db)
    ensures DatabaseLedgerOk(Next(db, s))
  {
    hide LedgerOk, RoundFrom, Settle, Sweep;
    match s
    case Submitting(kube, delay) => LedgerLater(db.history, db.starts, db.clock, db.clock + delay);
    case Processing(visits) => RoundLedger(db, visits, 0, 0);
    case Settlement(settling) => SettleLedger(db, settling);
    case Sweeping(jobs) => SweepLedger(db, jobs);
    case DroppingOldKeys =>
  }

  /** In every run, every start respected its limit when counted against the whole history of starts. */
  lemma {:induction false} EveryStartRespectsItsLimit(steps: seq<Step>)
    ensures DatabaseLedgerOk(Run(steps))
    ensures forall j: nat :: j < |Run(steps).history| ==> Respected(Run(steps).history, j)
  {
    hide Next;
    if steps != [] {
      EveryStartRespectsItsLimit(steps[..|steps| - 1]);
      NextLedger(Run(steps[..|steps| - 1]), steps[|steps| - 1]);
    }
  }

  // ---- Any window ----

  /** How many of some times lie in (from, to]. */
  function CountWithin(times: seq<int>, from: int, to: int): nat {
    if times == [] then 0
    else
      CountWithin(times[..|times| - 1], from, to) +
      if from < times[|times| - 1] <= to then 1 else 0
  }

  lemma {:induction false} WithinIsAfter(times: seq<int>, from: int, to: int)
    ensures CountWithin(times, from, to) <= CountAfter(times, from)
  {
    if times != [] {
      WithinIsAfter(times[..|times| - 1], from, to);
    }
  }

  /** When every collection has the same limit, it holds of every window of the whole run. */
  lemma {:induction false} EveryWindowIsLimited(history: seq<Start>, nodes: nat, period: int, from: int)
    requires Sorted(Times(history)) && period <= SECONDS_REMEMBERED
    requires forall j: nat :: j < |history| ==>
      Respected(history, j) && history[j].nodes == nodes && history[j].period == period
    ensures CountWithin(Times(history), from, from + period * NANOS_PER_SECOND) <= nodes
  {
    if history != [] {
      var n := |history| - 1;
      var front, last := history[..n], history[n];
      var to := from + period * NANOS_PER_SECOND;
      assert Times(history)[..n] == Times(front);
      if from < last.time <= to {
        assert Respected(history, n);
        assert history[..n + 1] == history;
        WithinIsAfter(Times(history), from, to);
        LaterCountsFewer(Times(history), last.time - Period(last), from);
      } else {
        forall j: nat | j < |front|
          ensures Respected(front, j) && front[j].nodes == nodes && front[j].period == period
        {
          assert Respected(history, j);
          assert front[..j + 1] == history[..j + 1];
        }
        SortedFront(Times(history), n);
        EveryWindowIsLimited(front, nodes, period, from);
      }
    }
  }

  lemma SortedFront(times: seq<int>, n: nat)
    requires Sorted(times) && n <= |times|
    ensures Sorted(times[..n])
  {
  }

  // ---- Periods that outlast the memory of starts ----

  lemma {:induction false} RecentAreCounted(starts: seq<int>, cut: int, before: int)
    requires cut <= before
    ensures CountAfter(Recent(starts, cut), before) == CountAfter(starts, before)
  {
    if starts != [] {
      var front, last := starts[..|starts| - 1], starts[|starts| - 1];
      RecentAreCounted(front, cut, before);
      assert (Recent(front, cut) + [last])[..|Recent(front, cut)|] == Recent(front, cut);
    }
  }

  function Zeros(n: nat): (r: seq<int>)
    ensures |r| == n && forall i :: 0 <= i < n ==> r[i] == 0
  {
    seq(n, _ => 0)
  }

  lemma {:induction false} ZerosAreCounted(n: nat, before: int)
    requires before < 0
    ensures CountAfter(Zeros(n), before) == n
  {
    if n > 0 {
      assert Zeros(n)[..n - 1] == Zeros(n - 1);
      ZerosAreCounted(n - 1, before);
    }
  }

  /** Forgetting old starts at one time does not change the answer of the rate check at a later time. */
  ghost predicate Harmless(kube: KubeTest, starts: seq<int>, cleaned: int, now: int) {
    cleaned <= now ==>
      (CanStartMore(Recent(starts, cleaned - SECONDS_REMEMBERED * NANOS_PER_SECOND), now, kube) <==>
         CanStartMore(starts, now, kube))
  }

  /** Forgetting old starts is harmless exactly for periods of at most an hour: a longer limit is lifted an hour
      after its last permitted start. */
  lemma ForgettingIsHarmlessExactlyWhen(kube: KubeTest)
    ensures (forall starts, cleaned, now :: Harmless(kube, starts, cleaned, now)) <==> PeriodSeconds(kube) <= SECONDS_REMEMBERED
  {
    hide Recent, CountAfter;
    var memory := SECONDS_REMEMBERED * NANOS_PER_SECOND;
    if PeriodSeconds(kube) <= SECONDS_REMEMBERED {
      forall starts, cleaned, now | cleaned <= now
        ensures Harmless(kube, starts, cleaned, now)
      {
        RecentAreCounted(starts, cleaned - memory, now - PeriodSeconds(kube) * NANOS_PER_SECOND);
      }
    } else {
      var starts := Zeros(Nodes(kube));
      ZerosAreCounted(Nodes(kube), memory - PeriodSeconds(kube) * NANOS_PER_SECOND);
      NoneRecent(starts, 0);
      assert CountAfter([], memory - PeriodSeconds(kube) * NANOS_PER_SECOND) == 0;
      assert !Harmless(kube, starts, memory, memory);
    }
  }
}
