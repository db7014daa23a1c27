/** Why Process stops: a measure that no round increases, and that every round with a change decreases
    unless its only event was a job that could not be created. */
module Termination {
  import opened Prelude
  import opened TestModel
  import opened CollectionSteps
  import opened CollectionInvariant
  import opened CollectionProofs
  import opened DatabaseSteps
  import opened DatabaseInvariant

  // ---- One collection ----

  /** How much work a waiting entry can still cause: each remaining attempt starts once and ends once. */
  function WaitingCost(c: Collection): int -> int {
    i => 2 * (RetryLimit(c.kube) - Depth(c.entries, i) + 1)
  }

  function RunningCost(c: Collection): int -> int {
    i => 2 * (RetryLimit(c.kube) - Depth(c.entries, i)) + 1
  }

  function Weight(c: Collection): int {
    Sum(c.queued, WaitingCost(c)) + Sum(c.retry, WaitingCost(c)) + Sum(c.running, RunningCost(c))
  }

  lemma WeightNonNegative(c: Collection)
    requires Partition(c) && Forest(c)
    ensures Weight(c) >= 0
  {
    forall i | i in c.entries
      ensures Depth(c.entries, i) <= RetryLimit(c.kube)
    {
    }
    CostNonNegative(c, c.queued, WaitingCost(c));
    CostNonNegative(c, c.retry, WaitingCost(c));
    CostNonNegative(c, c.running, RunningCost(c));
  }

  lemma CostNonNegative(c: Collection, ids: seq<int>, cost: int -> int)
    requires forall i :: i in ids ==> i in c.entries
    requires forall i :: i in c.entries ==> cost(i) >= 0
    ensures Sum(ids, cost) >= 0
  {
    forall i | i in ids
      ensures cost(i) >= 0
    {
      assert i in c.entries;
    }
    SumNonNegative(ids, cost);
  }

  /** Costs only depend on the links. */
  lemma CostsKept(c: Collection, c': Collection, ids: seq<int>)
    requires Forest(c) && KeepsLinks(c.entries, c'.entries) && c'.kube == c.kube
    requires forall i :: i in ids ==> i in c.entries
    ensures Sum(ids, WaitingCost(c')) == Sum(ids, WaitingCost(c))
    ensures Sum(ids, RunningCost(c')) == Sum(ids, RunningCost(c))
  {
    ForestIsClosed(c);
    forall i | i in ids
      ensures Depth(c'.entries, i) == Depth(c.entries, i)
    {
      DepthKept(c.entries, c'.entries, i);
    }
    SumEqual(ids, WaitingCost(c'), WaitingCost(c));
    SumEqual(ids, RunningCost(c'), RunningCost(c));
  }

  /** The weight of a collection's lists, counted with another collection's links. */
  lemma WeightWithLinksOf(c: Collection, c': Collection)
    requires Partition(c) && Forest(c) && KeepsLinks(c.entries, c'.entries) && c'.kube == c.kube
    ensures Weight(c) == Sum(c.queued, WaitingCost(c')) + Sum(c.retry, WaitingCost(c')) + Sum(c.running, RunningCost(c'))
  {
    CostsKept(c, c', c.queued);
    CostsKept(c, c', c.retry);
    CostsKept(c, c', c.running);
  }

  /** Starting a test uses up one unit. */
  lemma StartWeighs(c: Collection, fromQueued: bool, answer: Answer)
    requires CollectionOk(c)
    requires if fromQueued then c.queued != [] else c.retry != []
    ensures (if fromQueued then c.queued[0] else c.retry[0]) in c.entries
    ensures Weight(MoveToRunning(c, fromQueued, answer)) == Weight(c) - 1
  {
    var c' := MoveToRunning(c, fromQueued, answer);
    var id := if fromQueued then c.queued[0] else c.retry[0];
    StartKeepsPartition(c, fromQueued, answer);
    WeightWithLinksOf(c, c');
    SumRemoveAt(if fromQueued then c.queued else c.retry, 0, WaitingCost(c'));
    SumSnoc(c.running, id, RunningCost(c'));
  }

  lemma PutBackWeighs(c: Collection, fromQueued: bool)
    requires CollectionOk(c)
    requires if fromQueued then c.queued != [] else c.retry != []
    ensures Weight(PutBack(c, fromQueued)) == Weight(c)
  {
    var c' := PutBack(c, fromQueued);
    WeightWithLinksOf(c, c');
    var s := if fromQueued then c.queued else c.retry;
    SumRemoveAt(s, 0, WaitingCost(c'));
    assert RemoveAt(s, 0) == s[1..];
    SumSnoc(s[1..], s[0], WaitingCost(c'));
  }

  lemma CompletionWeighs(c: Collection, id: int, done: Entry)
    requires CollectionOk(c) && id in c.running && id in c.entries && done.retryFrom == c.entries[id].retryFrom
    ensures Weight(MoveToCompleted(c, id, done)) ==
              Weight(c) - 2 * (RetryLimit(c.kube) - Depth(MoveToCompleted(c, id, done).entries, id)) - 1
  {
    var c' := MoveToCompleted(c, id, done);
    WeightWithLinksOf(c, c');
    SumRemoveAt(c.running, IndexOf(c.running, id), RunningCost(c'));
  }

  lemma RetryWeighs(c: Collection, parent: int)
    requires Partition(c) && Shapes(c) && Forest(c) && OwesRetry(c, parent)
    ensures Weight(AddRetry(c, parent)) == Weight(c) + 2 * (RetryLimit(c.kube) - Depth(c.entries, parent))
  {
    var c' := AddRetry(c, parent);
    var n := c.nextId;
    RetryKeepsLinks(c, parent);
    assert Linked(c', n);
    assert Depth(c'.entries, n) == Depth(c'.entries, parent) + 1;
    WeightWithLinksOf(c, c');
    SumSnoc(c.retry, n, WaitingCost(c'));
  }

  /** Finishing a test makes the collection lighter, even when it is retried. */
  lemma FinishedWeighs(c: Collection, clock: int, id: int, status: EntryStatus, result: TestResult)
    requires CollectionOk(c) && Finishes(c, id, status, result)
    ensures id in c.running
    ensures Weight(Finished(c, clock, id, Done(c.entries[id], status, result)).coll) < Weight(c)
  {
    var done := Done(c.entries[id], status, result);
    CompletionKeepsPartition(c, id, status, result);
    CompletionKeepsForest(c, id, status, result);
    OwesRetryWhenFailed(c, id, status, result);
    CompletionWeighs(c, id, done);
    var c1 := MoveToCompleted(c, id, done);
    assert Depth(c.entries, id) <= RetryLimit(c.kube);
    if OwesRetry(c1, id) {
      RetryWeighs(c1, id);
    }
  }

  lemma HandleJobWeighs(c: Collection, clock: int, job: Job, ingest: string -> seq<Totals>)
    requires CollectionOk(c) && job.entry.Some?
    ensures
      var o := HandleJob(c, clock, job, ingest);
      Weight(o.coll) <= Weight(c) && (o.changed ==> Weight(o.coll) < Weight(c))
  {
    hide CollectionOk, Weight, Finish, Finished, FinalResult, Finishes, Junit.ExtractReport;
    var id := job.entry.value;
    HandleJobKeepsInvariant(c, clock, job, ingest);
    if id in c.entries && c.entries[id].status == EntryRunning {
      RunningIsListed(c, id);
      var podLog := GetOr(job.podLog, "");
      if job.completionTime.Some? {
        var report := if job.podLog.Some? then Junit.ExtractReport(podLog) else "";
        var suite := SuiteIn(job.podLog, ingest);
        FinishKeepsInvariant(c, clock, id, EntryComplete, podLog, report, job, suite);
        FinalResultFits(c, id, EntryComplete, podLog, report, job, suite);
        FinishedWeighs(c, clock, id, EntryComplete, FinalResult(c, id, EntryComplete, podLog, report, job, suite));
      } else if job.startTime.Some? {
        FinishKeepsInvariant(c, clock + job.delay, id, EntryExpired, "", "", job, None);
        FinalResultFits(c, id, EntryExpired, "", "", job, None);
        FinishedWeighs(c, clock + job.delay, id, EntryExpired, FinalResult(c, id, EntryExpired, "", "", job, None));
      }
    }
  }

  lemma {:induction false} RunJobsWeighs(c: Collection, clock: int, jobs: seq<Job>, ingest: string -> seq<Totals>)
    requires CollectionOk(c) && forall job :: job in jobs ==> job.entry.Some?
    ensures
      var o := RunJobs(c, clock, jobs, ingest);
      Weight(o.coll) <= Weight(c) && (o.changed ==> Weight(o.coll) < Weight(c))
  {
    hide HandleJob, CollectionOk, Weight;
    if jobs != [] {
      RunJobsWeighs(c, clock, jobs[..|jobs| - 1], ingest);
      RunJobsKeepsInvariant(c, clock, jobs[..|jobs| - 1], ingest);
      var before := RunJobs(c, clock, jobs[..|jobs| - 1], ingest);
      HandleJobWeighs(before.coll, before.clock, jobs[|jobs| - 1], ingest);
    }
  }

  lemma TurnWeighs(c: Collection, answer: Answer)
    requires CollectionOk(c)
    ensures TakeTurn(c, answer).Refused? ==> Weight(TakeTurn(c, answer).coll) == Weight(c)
    ensures TakeTurn(c, answer).Begun? ==> Weight(TakeTurn(c, answer).coll) == Weight(c) - 1
  {
    TurnTakesTheFirst(c, answer);
    if c.queued != [] || c.retry != [] {
      if Accepted(answer, c.uid) {
        StartWeighs(c, c.queued != [], answer);
      } else {
        PutBackWeighs(c, c.queued != []);
      }
    }
  }

  /** Starting tests costs one unit a test. */
  lemma {:induction false} StartTestsWeighs(c: Collection, clock: int, starts: seq<int>, budget: int,
                                            answers: nat -> Answer, attempt: nat)
    requires CollectionOk(c)
    ensures
      var o := StartTests(c, clock, starts, budget, answers, attempt);
      Weight(o.coll) == Weight(c) - |o.begun|
    decreases if budget > 0 then budget else 0
  {
    hide TakeTurn, CollectionOk, Weight;
    if budget > 0 && CanStartMore(starts, clock + answers(attempt).checkDelay, c.kube) {
      TurnWeighs(c, answers(attempt));
      TurnKeepsInvariant(c, answers(attempt));
      var turn := TakeTurn(c, answers(attempt));
      if turn.Begun? {
        var time := clock + answers(attempt).checkDelay + answers(attempt).startDelay;
        StartTestsWeighs(turn.coll, time, starts + [time], budget - 1, answers, attempt + 1);
      }
    }
  }

  /** Whether an outcome changed anything beyond a job that could not be created. */
  predicate Productive(o: Outcome) {
    o.changed && (o.refused ==> o.begun != [])
  }

  lemma {:induction false} StartTestsProductive(c: Collection, clock: int, starts: seq<int>, budget: int,
                                                answers: nat -> Answer, attempt: nat)
    ensures
      var o := StartTests(c, clock, starts, budget, answers, attempt);
      && (o.changed <==> o.begun != [] || o.refused)
      && (o.begun == [] && o.refused ==> o.marks == [])
    decreases if budget > 0 then budget else 0
  {
  }

  lemma ProcessWeighs(c: Collection, clock: int, starts: seq<int>, cluster: Cluster)
    requires CollectionOk(c)
    ensures
      var o := ProcessCollection(c, clock, starts, cluster);
      && Weight(o.coll) <= Weight(c)
      && (Productive(o) <==> Weight(o.coll) < Weight(c))
  {
    hide CollectionOk, Weight, RunJobs, StartTests, KoupletJobs;
    if cluster.Cluster? {
      var jobs := KoupletJobs(cluster.jobs, c.uid);
      RunJobsWeighs(c, clock, jobs, cluster.ingest);
      RunJobsKeepsInvariant(c, clock, jobs, cluster.ingest);
      RunJobsNeverRefuses(c, clock, jobs, cluster.ingest);
      var finished := RunJobs(c, clock, jobs, cluster.ingest);
      if !finished.changed {
        var budget := ActiveLimit(c.kube) - Uncompleted(jobs);
        StartTestsWeighs(c, finished.clock, starts, budget, cluster.answers, 0);
        StartTestsProductive(c, finished.clock, starts, budget, cluster.answers, 0);
      }
    }
  }

  lemma HandleJobNeverRefuses(c: Collection, clock: int, job: Job, ingest: string -> seq<Totals>)
    requires job.entry.Some?
    ensures !HandleJob(c, clock, job, ingest).refused && HandleJob(c, clock, job, ingest).begun == []
  {
  }

  lemma {:induction false} RunJobsNeverRefuses(c: Collection, clock: int, jobs: seq<Job>, ingest: string -> seq<Totals>)
    requires forall job :: job in jobs ==> job.entry.Some?
    ensures !RunJobs(c, clock, jobs, ingest).refused && RunJobs(c, clock, jobs, ingest).begun == []
  {
    hide HandleJob;
    if jobs != [] {
      RunJobsNeverRefuses(c, clock, jobs[..|jobs| - 1], ingest);
      var before := RunJobs(c, clock, jobs[..|jobs| - 1], ingest);
      HandleJobNeverRefuses(before.coll, before.clock, jobs[|jobs| - 1], ingest);
    }
  }
}
