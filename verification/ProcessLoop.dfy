/** The loop of Process: its rounds keep the order of the collections and admit one only when nothing waits,
    and the loop stops unless job creation keeps failing. */
module ProcessLoop {
  import opened Prelude
  import opened TestModel
  import opened CollectionSteps
  import opened CollectionInvariant
  import opened CollectionProofs
  import opened DatabaseSteps
  import opened DatabaseInvariant
  import opened Termination
  import Limits

  // ---- The measure of a database ----

  function WeightIn(db: Database): string -> int {
    u => if u in db.collections then Weight(db.collections[u]) else 0
  }

  /** The work left in the collections that have not completed, and the collections still to be admitted. */
  function Measure(db: Database): int {
    Sum(db.running + db.waiting, WeightIn(db)) + |db.waiting|
  }

  /** Changing the weight of one element changes the sum by as much. */
  lemma {:induction false} SumOverChanged(s: seq<string>, f: string -> int, g: string -> int, x: string)
    requires NoDuplicates(s) && x in s
    requires forall u :: u in s && u != x ==> f(u) == g(u)
    ensures Sum(s, g) == Sum(s, f) - f(x) + g(x)
  {
    var front, last := s[..|s| - 1], s[|s| - 1];
    assert s == front + [last];
    assert last !in front;
    if x == last {
      SumEqual(front, f, g);
    } else {
      SumOverChanged(front, f, g, x);
    }
  }

  lemma MeasureNonNegative(db: Database)
    requires DatabaseOk(db)
    ensures Measure(db) >= 0
  {
    forall u | u in db.running + db.waiting
      ensures WeightIn(db)(u) >= 0
    {
      HeldWeighs(db, u);
    }
    SumNonNegative(db.running + db.waiting, WeightIn(db));
  }

  lemma HeldWeighs(db: Database, u: string)
    requires DatabaseOk(db)
    ensures u in db.collections ==> Weight(db.collections[u]) >= 0
  {
    if u in db.collections {
      CollectionIsHeld(db, u);
      WeightNonNegative(db.collections[u]);
    }
  }

  lemma RunningThenWaitingDistinct(db: Database)
    requires DatabaseOk(db)
    ensures NoDuplicates(db.running + db.waiting)
  {
    hide HeldOk, InOrder;
    forall i, j | 0 <= i < |db.running| && 0 <= j < |db.waiting|
      ensures db.running[i] != db.waiting[j]
    {
      var u := db.running[i];
      assert u in db.running;
      assert u !in db.waiting;
    }
  }

  /** Replacing a running collection changes the measure by the change of its weight. */
  lemma MeasureAfterChange(db: Database, d: Database, uid: string)
    requires DatabaseOk(db) && uid in db.running
    requires d.running == db.running && d.waiting == db.waiting
    requires d.collections.Keys == db.collections.Keys && uid in db.collections
    requires forall u :: u in db.collections && u != uid ==> d.collections[u] == db.collections[u]
    ensures Measure(d) == Measure(db) - Weight(db.collections[uid]) + Weight(d.collections[uid])
  {
    hide HeldOk, InOrder, Weight;
    RunningThenWaitingDistinct(db);
    assert uid in db.running + db.waiting;
    SumOverChanged(db.running + db.waiting, WeightIn(db), WeightIn(d), uid);
  }

  lemma WeightIgnoresHeader(c: Collection, c': Collection)
    requires c'.kube == c.kube && c'.entries == c.entries
    requires c'.queued == c.queued && c'.retry == c.retry && c'.running == c.running
    ensures Weight(c') == Weight(c)
  {
    SumEqual(c.queued, WaitingCost(c), WaitingCost(c'));
    SumEqual(c.retry, WaitingCost(c), WaitingCost(c'));
    SumEqual(c.running, RunningCost(c), RunningCost(c'));
  }

  lemma VisitCollections(db: Database, uid: string, o: Outcome, first: bool, delay: nat)
    requires uid in db.collections && o.coll.uid == uid
    ensures
      var d := AfterVisit(db, uid, o, first, delay);
      && d.collections.Keys == db.collections.Keys
      && (forall u :: u in db.collections && u != uid ==> d.collections[u] == db.collections[u])
      && SameWork(o.coll, d.collections[uid])
  {
  }

  /** Collections that differ in their header only. */
  ghost predicate SameWork(c: Collection, c': Collection) {
    && c'.kube == c.kube && c'.entries == c.entries && c'.nextId == c.nextId && c'.uid == c.uid
    && c'.queued == c.queued && c'.retry == c.retry && c'.running == c.running && c'.completed == c.completed
  }

  lemma VisitWeighs(db: Database, uid: string, visit: Visit, first: bool)
    requires DatabaseOk(db) && uid in db.running
    ensures uid in db.collections
    ensures
      var o := ProcessCollection(db.collections[uid], db.clock, db.starts, visit.cluster);
      var d := AfterVisit(db, uid, o, first, visit.primaryDelay);
      && DatabaseOk(d)
      && Measure(d) <= Measure(db)
      && (Productive(o) <==> Measure(d) < Measure(db))
  {
    hide ProcessCollection, AfterVisit, Measure, Weight, CollectionOk, Productive, InOrder;
    CollectionIsHeld(db, uid);
    var c := db.collections[uid];
    var o := ProcessCollection(c, db.clock, db.starts, visit.cluster);
    ProcessWeighs(c, db.clock, db.starts, visit.cluster);
    ProcessedIsHeld(uid, c, db.clock, db.starts, visit.cluster);
    VisitKeeps(db, uid, o, first, visit.primaryDelay);
    VisitCollections(db, uid, o, first, visit.primaryDelay);
    var d := AfterVisit(db, uid, o, first, visit.primaryDelay);
    MeasureAfterChange(db, d, uid);
    WeightIgnoresHeader(o.coll, d.collections[uid]);
  }

  lemma AdmitWeighs(db: Database)
    requires DatabaseOk(db) && db.waiting != []
    ensures db.waiting[0] in db.collections
    ensures Measure(Admit(db)) == Measure(db) - 1
  {
    hide Weight, HeldOk;
    AdmitKeeps(db);
    var uid := db.waiting[0];
    HeldParts(db, uid);
    var d := Admit(db);
    WeightIgnoresHeader(db.collections[uid], d.collections[uid]);
    SumEqual(db.running + db.waiting, WeightIn(db), WeightIn(d));
  }

  /** What a round achieved, if anything, beyond a job that could not be created. */
  predicate RoundProductive(r: RoundResult) {
    r.updated.Some? && (r.refused ==> r.begun > 0)
  }

  /** No round increases the measure, and a round decreases it exactly when it achieved something. */
  lemma {:induction false} RoundFromWeighs(db: Database, visits: nat -> Visit, at: nat, inQueue: nat)
    requires DatabaseOk(db)
    ensures
      var r := RoundFrom(db, visits, at, inQueue);
      && Measure(r.db) <= Measure(db)
      && (RoundProductive(r) <==> Measure(r.db) < Measure(db))
    decreases |db.running| - at
  {
    hide ProcessCollection, AfterVisit, Measure, Admit, CollectionsOk, InOrder;
    if at >= |db.running| {
      if db.waiting != [] {
        AdmitWeighs(db);
      }
    } else {
      var uid := db.running[at];
      assert uid in db.running;
      VisitWeighs(db, uid, visits(at), at == 0);
      var o := ProcessCollection(db.collections[uid], db.clock, db.starts, visits(at).cluster);
      var d := AfterVisit(db, uid, o, at == 0, visits(at).primaryDelay);
      if !o.changed {
        RoundFromWeighs(d, visits, at + 1, inQueue + |o.coll.queued| + |o.coll.retry|);
      }
    }
  }

  // ---- Admission ----

  ghost predicate NothingWaits(c: Collection) {
    c.queued == [] && c.retry == []
  }

  ghost predicate NothingWaitsFrom(db: Database, at: nat) {
    forall i :: at <= i < |db.running| ==>
      db.running[i] in db.collections && NothingWaits(db.collections[db.running[i]])
  }

  /** A round keeps the sequence of running, then waiting collections. It admits a collection only when
      no collection it went through has a queued test or a retry. */
  lemma {:induction false} RoundKeepsOrder(db: Database, visits: nat -> Visit, at: nat, inQueue: nat)
    requires DatabaseOk(db)
    ensures
      var r := RoundFrom(db, visits, at, inQueue);
      && r.db.running + r.db.waiting == db.running + db.waiting
      && (r.db.waiting == db.waiting ||
           (inQueue == 0 && NothingWaitsFrom(db, at)))
    decreases |db.running| - at
  {
    hide ProcessCollection, AfterVisit, Admit, CollectionOk, DatabaseOk, RoundFrom, NothingWaitsFrom;
    RoundOnce(db, visits, at, inQueue);
    NothingIsLeft(db, at);
    if at >= |db.running| {
      if db.waiting != [] {
        AdmitKeeps(db);
      }
    } else {
      RunningIsHeld(db, at);
      var uid := db.running[at];
      VisitWeighs(db, uid, visits(at), at == 0);
      HeldParts(db, uid);
      ProcessKeepsInvariant(db.collections[uid], db.clock, db.starts, visits(at).cluster);
      ProcessedIsHeld(uid, db.collections[uid], db.clock, db.starts, visits(at).cluster);
      var o := ProcessCollection(db.collections[uid], db.clock, db.starts, visits(at).cluster);
      var d := AfterVisit(db, uid, o, at == 0, visits(at).primaryDelay);
      VisitCollections(db, uid, o, at == 0, visits(at).primaryDelay);
      if !o.changed {
        RoundKeepsOrder(d, visits, at + 1, inQueue + |o.coll.queued| + |o.coll.retry|);
        NothingWaitsBefore(db, d, uid, at);
      }
    }
  }

  lemma NothingIsLeft(db: Database, at: nat)
    ensures at >= |db.running| ==> NothingWaitsFrom(db, at)
  {
  }

  lemma NothingWaitsBefore(db: Database, d: Database, uid: string, at: nat)
    requires at < |db.running| && uid == db.running[at] && uid in db.collections
    requires d.running == db.running && d.collections.Keys == db.collections.Keys
    requires forall u :: u in db.collections && u != uid ==> d.collections[u] == db.collections[u]
    ensures
      (NothingWaits(db.collections[uid]) && NothingWaitsFrom(d, at + 1)) ==> NothingWaitsFrom(db, at)
  {
  }

  // ---- The loop ----

  /** The database after `n` rounds. */
  function Rounds(db: Database, visits: nat -> nat -> Visit, n: nat): Database {
    if n == 0 then db else Round(Rounds(db, visits, n - 1), visits(n - 1)).db
  }

  predicate ChangesAt(db: Database, visits: nat -> nat -> Visit, k: nat) {
    Round(Rounds(db, visits, k), visits(k)).updated.Some?
  }

  /** The first `n` rounds all report a change. */
  ghost predicate Busy(db: Database, visits: nat -> nat -> Visit, n: nat) {
    forall k: nat :: k < n ==> ChangesAt(db, visits, k)
  }

  /** A round whose only event was a job that could not be created. */
  predicate RoundFruitless(r: RoundResult) {
    r.updated.Some? && r.refused && r.begun == 0
  }

  predicate FruitlessAt(db: Database, visits: nat -> nat -> Visit, k: nat) {
    RoundFruitless(Round(Rounds(db, visits, k), visits(k)))
  }

  function Fruitless(db: Database, visits: nat -> nat -> Visit, n: nat): nat {
    if n == 0 then 0
    else
      Fruitless(db, visits, n - 1) +
      if FruitlessAt(db, visits, n - 1) then 1 else 0
  }

  lemma {:induction false} RoundsKeep(db: Database, visits: nat -> nat -> Visit, n: nat)
    requires DatabaseOk(db)
    ensures DatabaseOk(Rounds(db, visits, n))
  {
    hide DatabaseOk, RoundFrom;
    if n > 0 {
      RoundsKeep(db, visits, n - 1);
      RoundFromKeeps(Rounds(db, visits, n - 1), visits(n - 1), 0, 0);
    }
  }

  lemma {:induction false} RoundsUseUpTheMeasure(db: Database, visits: nat -> nat -> Visit, n: nat)
    requires DatabaseOk(db) && Busy(db, visits, n)
    ensures Measure(Rounds(db, visits, n)) + n <= Measure(db) + Fruitless(db, visits, n)
  {
    hide DatabaseOk, RoundFrom, Measure;
    if n > 0 {
      RoundsUseUpTheMeasure(db, visits, n - 1);
      RoundsKeep(db, visits, n - 1);
      assert ChangesAt(db, visits, n - 1);
      RoundFromWeighs(Rounds(db, visits, n - 1), visits(n - 1), 0, 0);
    }
  }

  /** Whatever the cluster answers, Process goes through at most as many changing rounds as the measure
      of the database and the rounds that only failed to create a job allow. */
  lemma ProcessStops(db: Database, visits: nat -> nat -> Visit, n: nat)
    requires DatabaseOk(db) && Busy(db, visits, n)
    ensures n <= Measure(db) + Fruitless(db, visits, n)
  {
    RoundsUseUpTheMeasure(db, visits, n);
    RoundsKeep(db, visits, n);
    MeasureNonNegative(Rounds(db, visits, n));
  }

  lemma {:induction false} FruitlessAtMost(db: Database, visits: nat -> nat -> Visit, n: nat)
    ensures Fruitless(db, visits, n) <= n
  {
    hide FruitlessAt;
    if n > 0 {
      FruitlessAtMost(db, visits, n - 1);
    }
  }

  ghost predicate FewFruitless(db: Database, visits: nat -> nat -> Visit, bound: nat) {
    forall n: nat {:trigger Fruitless(db, visits, n)} :: Busy(db, visits, n) ==> Fruitless(db, visits, n) <= bound
  }

  /** Process comes to a round without a change exactly when only so many rounds do nothing but fail to create a job. */
  lemma ProcessStopsExactlyWhen(db: Database, visits: nat -> nat -> Visit)
    requires DatabaseOk(db)
    ensures (exists n: nat :: !ChangesAt(db, visits, n)) <==> (exists bound: nat :: FewFruitless(db, visits, bound))
  {
    hide DatabaseOk, Fruitless, Measure, ChangesAt;
    if n: nat :| !ChangesAt(db, visits, n) {
      forall m: nat | Busy(db, visits, m)
        ensures Fruitless(db, visits, m) <= n
      {
        FruitlessAtMost(db, visits, m);
      }
      assert FewFruitless(db, visits, n);
    } else {
      forall bound: nat
        ensures !FewFruitless(db, visits, bound)
      {
        MeasureNonNegative(db);
        var n := Measure(db) + bound + 1;
        assert Busy(db, visits, n);
        ProcessStops(db, visits, n);
      }
    }
  }

  // ---- The loop stops when every job can be created ----

  /** Every attempt to create a job for the collection at each position is accepted. */
  ghost predicate Accepting(visits: nat -> Visit, uids: seq<string>) {
    forall at: nat, k: nat {:trigger visits(at).cluster.answers(k)} ::
      at < |uids| && visits(at).cluster.Cluster? ==> Accepted(visits(at).cluster.answers(k), uids[at])
  }

  lemma {:induction false} AcceptedStarts(c: Collection, clock: int, starts: seq<int>, budget: int,
                                          answers: nat -> Answer, attempt: nat)
    requires forall k: nat :: Accepted(answers(k), c.uid)
    ensures !StartTests(c, clock, starts, budget, answers, attempt).refused
    decreases if budget > 0 then budget else 0
  {
    hide CanStartMore, FirstWaiting;
    if budget > 0 {
      var turn := TakeTurn(c, answers(attempt));
      var time := clock + answers(attempt).checkDelay + answers(attempt).startDelay;
      if turn.Begun? {
        AcceptedStarts(turn.coll, time, starts + [time], budget - 1, answers, attempt + 1);
      }
    }
  }

  lemma AcceptedProcess(c: Collection, clock: int, starts: seq<int>, cluster: Cluster)
    requires cluster.Cluster? ==> forall k: nat :: Accepted(cluster.answers(k), c.uid)
    ensures !ProcessCollection(c, clock, starts, cluster).refused
  {
    hide RunJobs, StartTests, KoupletJobs, Uncompleted;
    if cluster.Cluster? {
      var jobs := KoupletJobs(cluster.jobs, c.uid);
      RunJobsNeverRefuses(c, clock, jobs, cluster.ingest);
      RunJobsKeepsHeader(c, clock, jobs, cluster.ingest);
      var finished := RunJobs(c, clock, jobs, cluster.ingest);
      var budget := ActiveLimit(finished.coll.kube) - Uncompleted(KoupletJobs(cluster.jobs, finished.coll.uid));
      AcceptedStarts(finished.coll, finished.clock, starts, budget, cluster.answers, 0);
    }
  }

  lemma {:induction false} AcceptedRound(db: Database, visits: nat -> Visit, at: nat, inQueue: nat, uids: seq<string>)
    requires DatabaseOk(db) && Accepting(visits, uids) && db.running <= uids
    ensures !RoundFrom(db, visits, at, inQueue).refused
    decreases |db.running| - at
  {
    hide DatabaseOk, ProcessCollection, AfterVisit, Accepted;
    if at < |db.running| {
      RunningIsHeld(db, at);
      var uid := db.running[at];
      HeldParts(db, uid);
      assert uids[at] == uid;
      AcceptedProcess(db.collections[uid], db.clock, db.starts, visits(at).cluster);
      var o := ProcessCollection(db.collections[uid], db.clock, db.starts, visits(at).cluster);
      if !o.changed {
        VisitWeighs(db, uid, visits(at), at == 0);
        AcceptedRound(AfterVisit(db, uid, o, at == 0, visits(at).primaryDelay), visits, at + 1,
                      inQueue + |o.coll.queued| + |o.coll.retry|, uids);
      }
    }
  }

  lemma {:induction false} AcceptedRounds(db: Database, visits: nat -> nat -> Visit, n: nat)
    requires DatabaseOk(db) && forall k: nat :: Accepting(visits(k), db.running + db.waiting)
    ensures Rounds(db, visits, n).running + Rounds(db, visits, n).waiting == db.running + db.waiting
    ensures Fruitless(db, visits, n) == 0
  {
    hide DatabaseOk, RoundFrom, Accepting;
    if n > 0 {
      AcceptedRounds(db, visits, n - 1);
      RoundsKeep(db, visits, n - 1);
      var d := Rounds(db, visits, n - 1);
      assert d.running <= db.running + db.waiting;
      assert Accepting(visits(n - 1), db.running + db.waiting);
      AcceptedRound(d, visits(n - 1), 0, 0, db.running + db.waiting);
      RoundKeepsOrder(d, visits(n - 1), 0, 0);
    }
  }

  /** When every creation that is attempted succeeds, whatever else the cluster answers, Process comes to a round without
      a change, after no more rounds than the measure says. */
  lemma AcceptedProcessStops(db: Database, visits: nat -> nat -> Visit)
    requires DatabaseOk(db) && forall k: nat :: Accepting(visits(k), db.running + db.waiting)
    ensures exists n: nat :: n <= Measure(db) && !ChangesAt(db, visits, n)
  {
    hide DatabaseOk, Fruitless, Measure, ChangesAt, Accepting;
    MeasureNonNegative(db);
    var n := Measure(db) + 1;
    AcceptedRounds(db, visits, n);
    if Busy(db, visits, n) {
      ProcessStops(db, visits, n);
      assert false;
    }
  }

  // ---- The loop need not stop when no job can be created ----

  /** The first running collection has a test to start and may start it. */
  ghost predicate Ready(db: Database) {
    && DatabaseOk(db)
    && db.running != [] && db.running[0] in db.collections
    && var c := db.collections[db.running[0]];
    && !NothingWaits(c)
    && ActiveLimit(c.kube) > 0
    && CanStartMore(db.starts, db.clock, c.kube)
  }

  /** The cluster has no jobs and refuses to create any. */
  ghost predicate Refusing(visit: Visit, uid: string) {
    && visit.cluster.Cluster? && visit.cluster.jobs == []
    && forall k :: !Accepted(visit.cluster.answers(k), uid)
  }

  lemma RefusedOutcome(c: Collection, clock: int, starts: seq<int>, visit: Visit)
    requires CollectionOk(c) && Refusing(visit, c.uid)
    requires !NothingWaits(c) && ActiveLimit(c.kube) > 0 && CanStartMore(starts, clock, c.kube)
    ensures
      var o := ProcessCollection(c, clock, starts, visit.cluster);
      o == Outcome(PutBack(c, c.queued != []), clock + visit.cluster.answers(0).checkDelay, [], [], true, true)
  {
    hide CollectionOk, CountAfter, TakeTurn;
    TurnTakesTheFirst(c, visit.cluster.answers(0));
    Limits.LaterCountsFewer(starts, clock - PeriodSeconds(c.kube) * NANOS_PER_SECOND,
                     clock + visit.cluster.answers(0).checkDelay - PeriodSeconds(c.kube) * NANOS_PER_SECOND);
    assert KoupletJobs([], c.uid) == [];
  }

  /** The round in which the first collection's job was refused. */
  lemma RefusedRoundIs(db: Database, visits: nat -> Visit)
    requires Ready(db) && Refusing(visits(0), db.running[0])
    ensures
      var uid := db.running[0];
      var o := ProcessCollection(db.collections[uid], db.clock, db.starts, visits(0).cluster);
      && o == Outcome(PutBack(db.collections[uid], db.collections[uid].queued != []),
                      db.clock + visits(0).cluster.answers(0).checkDelay, [], [], true, true)
      && Round(db, visits) == RoundResult(AfterVisit(db, uid, o, true, visits(0).primaryDelay), Some(uid), 0, true)
  {
    hide HeldOk, ProcessCollection, CountAfter, AfterVisit, ListsOk, InOrder, PutBack;
    var uid := db.running[0];
    HeldParts(db, uid);
    RefusedOutcome(db.collections[uid], db.clock, db.starts, visits(0));
  }

  lemma StaysReady(db: Database, d: Database, c': Collection)
    requires Ready(db) && DatabaseOk(d) && d.running == db.running && d.starts == db.starts && d.clock >= db.clock
    requires db.running[0] in d.collections && SameWork(c', d.collections[db.running[0]])
    requires c' == PutBack(db.collections[db.running[0]], db.collections[db.running[0]].queued != [])
    ensures Ready(d)
  {
    hide DatabaseOk, CountAfter;
    var c := db.collections[db.running[0]];
    Limits.LaterCountsFewer(db.starts, db.clock - PeriodSeconds(c.kube) * NANOS_PER_SECOND,
                            d.clock - PeriodSeconds(c.kube) * NANOS_PER_SECOND);
  }

  lemma RefusedRound(db: Database, visits: nat -> Visit)
    requires Ready(db) && Refusing(visits(0), db.running[0])
    ensures RoundFruitless(Round(db, visits))
    ensures Round(db, visits).db.running == db.running
    ensures Ready(Round(db, visits).db)
  {
    hide HeldOk, ProcessCollection, CountAfter, RoundFrom, DatabaseOk, NothingWaits;
    RefusedRoundIs(db, visits);
    RoundFromKeeps(db, visits, 0, 0);
    var uid := db.running[0];
    HeldParts(db, uid);
    var o := ProcessCollection(db.collections[uid], db.clock, db.starts, visits(0).cluster);
    assert db.starts + Times([]) == db.starts;
    VisitCollections(db, uid, o, true, visits(0).primaryDelay);
    StaysReady(db, Round(db, visits).db, o.coll);
  }

  lemma {:induction false} RefusedRounds(db: Database, visits: nat -> nat -> Visit, n: nat)
    requires Ready(db) && forall k :: Refusing(visits(k)(0), db.running[0])
    ensures Ready(Rounds(db, visits, n)) && Rounds(db, visits, n).running == db.running
  {
    hide Ready, RoundFrom, Refusing;
    if n > 0 {
      RefusedRounds(db, visits, n - 1);
      RefusedRound(Rounds(db, visits, n - 1), visits(n - 1));
    }
  }

  /** While every creation is refused, as happens when the KoupletTest was replaced by another of the same
      name, every round reports a change: the loop of Process goes on for ever. */
  lemma ProcessCanGoOnForEver(db: Database, visits: nat -> nat -> Visit, n: nat)
    requires Ready(db) && forall k :: Refusing(visits(k)(0), db.running[0])
    ensures Busy(db, visits, n) && Fruitless(db, visits, n) == n
  {
    hide RoundFrom, Ready, Refusing;
    forall k: nat | k < n
      ensures FruitlessAt(db, visits, k) && ChangesAt(db, visits, k)
    {
      RefusedRounds(db, visits, k);
      RefusedRound(Rounds(db, visits, k), visits(k));
    }
    AllFruitless(db, visits, n);
  }

  lemma {:induction false} AllFruitless(db: Database, visits: nat -> nat -> Visit, n: nat)
    requires forall k: nat :: k < n ==> FruitlessAt(db, visits, k)
    ensures Fruitless(db, visits, n) == n
  {
    hide FruitlessAt, Rounds;
    if n > 0 {
      AllFruitless(db, visits, n - 1);
    }
  }
}
