/** Collections run in the order of the dates of their submission, so that sorting by date restores the lists. */
module SubmissionDates {
  import opened Prelude
  import opened TestModel
  import opened CollectionSteps
  import opened DatabaseSteps
  import opened DatabaseInvariant
  import Coherence
  import CollectionInvariant
  import ProcessLoop
  import StartLedger

  function DateOf(collections: map<string, Collection>, uid: string): int {
    if uid in collections then collections[uid].dateSubmitted else 0
  }

  ghost predicate ByDate(collections: map<string, Collection>, uids: seq<string>) {
    forall i, j :: 0 <= i < j < |uids| ==> DateOf(collections, uids[i]) <= DateOf(collections, uids[j])
  }

  /** No collection comes from the future, and running collections, then waiting ones, stand in the order of their
      dates. */
  ghost predicate DatesOk(db: Database) {
    && (forall u :: u in db.collections ==> db.collections[u].dateSubmitted <= Millis(db.clock))
    && ByDate(db.collections, db.running + db.waiting)
  }

  /** The collections that are left have the dates they had. */
  ghost predicate SameDates(db: Database, d: Database) {
    && d.collections.Keys <= db.collections.Keys
    && db.clock <= d.clock
    && (forall u :: u in d.collections ==> d.collections[u].dateSubmitted == db.collections[u].dateSubmitted)
  }

  lemma MillisMonotone(s: int, t: int)
    requires s <= t
    ensures Millis(s) <= Millis(t)
  {
    var a, b := Millis(s), Millis(t);
    if a > b {
      MulMonotone(b + 1, a, NANOS_PER_MILLI);
    }
  }

  lemma DatesStayBelow(db: Database, d: Database)
    requires DatesOk(db) && SameDates(db, d)
    ensures forall u :: u in d.collections ==> d.collections[u].dateSubmitted <= Millis(d.clock)
  {
    hide Millis;
    MillisMonotone(db.clock, d.clock);
  }

  // ---- Parts of a list ----

  lemma SameDatesByDate(c: map<string, Collection>, c': map<string, Collection>, uids: seq<string>)
    requires ByDate(c, uids) && forall u :: u in uids ==> DateOf(c', u) == DateOf(c, u)
    ensures ByDate(c', uids)
  {
    hide DateOf;
    forall i, j | 0 <= i < j < |uids|
      ensures DateOf(c', uids[i]) <= DateOf(c', uids[j])
    {
      assert uids[i] in uids && uids[j] in uids;
    }
  }

  lemma {:induction false} FilterByDate(c: map<string, Collection>, uids: seq<string>, keep: string -> bool)
    requires ByDate(c, uids)
    ensures ByDate(c, Filter(uids, keep))
  {
    hide DateOf;
    if uids != [] {
      var front, last := uids[..|uids| - 1], uids[|uids| - 1];
      FilterByDate(c, front, keep);
      forall u | u in Filter(front, keep)
        ensures DateOf(c, u) <= DateOf(c, last)
      {
        var i :| 0 <= i < |front| && front[i] == u;
        assert uids[i] == u;
      }
    }
  }

  lemma JoinedByDate(c: map<string, Collection>, a: seq<string>, b: seq<string>)
    requires ByDate(c, a) && ByDate(c, b) && forall u, v :: u in a && v in b ==> DateOf(c, u) <= DateOf(c, v)
    ensures ByDate(c, a + b)
  {
    hide DateOf;
    var all := a + b;
    forall i, j | 0 <= i < j < |all|
      ensures DateOf(c, all[i]) <= DateOf(c, all[j])
    {
      if i < |a| <= j {
        assert a[i] in a && b[j - |a|] in b;
      } else if j < |a| {
        assert all[i] == a[i] && all[j] == a[j];
      } else {
        assert all[i] == b[i - |a|] && all[j] == b[j - |a|];
      }
    }
  }

  lemma PartsByDate(c: map<string, Collection>, a: seq<string>, b: seq<string>)
    requires ByDate(c, a + b)
    ensures ByDate(c, a) && ByDate(c, b)
    ensures forall u, v :: u in a && v in b ==> DateOf(c, u) <= DateOf(c, v)
  {
    hide DateOf;
    var all := a + b;
    forall i, j | 0 <= i < j < |a|
      ensures DateOf(c, a[i]) <= DateOf(c, a[j])
    {
      assert all[i] == a[i] && all[j] == a[j];
    }
    forall i, j | 0 <= i < j < |b|
      ensures DateOf(c, b[i]) <= DateOf(c, b[j])
    {
      assert all[|a| + i] == b[i] && all[|a| + j] == b[j];
    }
    forall u, v | u in a && v in b
      ensures DateOf(c, u) <= DateOf(c, v)
    {
      var i :| 0 <= i < |a| && a[i] == u;
      var j :| 0 <= j < |b| && b[j] == v;
      assert all[i] == u && all[|a| + j] == v;
    }
  }

  // ---- The steps ----

  /** The dates and the order are kept when the lists together are. */
  lemma DatesKept(db: Database, d: Database)
    requires DatesOk(db) && SameDates(db, d) && d.running + d.waiting == db.running + db.waiting
    requires forall u :: u in d.running + d.waiting ==> u in d.collections
    ensures DatesOk(d)
  {
    hide Millis;
    DatesStayBelow(db, d);
    SameDatesByDate(db.collections, d.collections, d.running + d.waiting);
  }

  lemma ListedAreThere(db: Database)
    requires DatabaseOk(db)
    ensures forall u :: u in db.running || u in db.waiting ==> u in db.collections
  {
    hide HeldOk, InOrder, NoDuplicates;
  }

  lemma SameDatesTwice(a: Database, b: Database, c: Database)
    requires SameDates(a, b) && SameDates(b, c)
    ensures SameDates(a, c)
  {
    forall u | u in c.collections
      ensures u in a.collections && c.collections[u].dateSubmitted == a.collections[u].dateSubmitted
    {
      assert u in b.collections.Keys;
    }
  }

  lemma {:induction false} StartTestsTime(c: Collection, clock: int, starts: seq<int>, budget: int,
                                          answers: nat -> Answer, attempt: nat)
    ensures StartTests(c, clock, starts, budget, answers, attempt).clock >= clock
    decreases if budget > 0 then budget else 0
  {
    hide TakeTurn, CanStartMore;
    if budget > 0 && CanStartMore(starts, clock + answers(attempt).checkDelay, c.kube) {
      var turn := TakeTurn(c, answers(attempt));
      if turn.Begun? {
        var time := clock + answers(attempt).checkDelay + answers(attempt).startDelay;
        StartTestsTime(turn.coll, time, starts + [time], budget - 1, answers, attempt + 1);
      }
    }
  }

  lemma ProcessTime(c: Collection, clock: int, starts: seq<int>, cluster: Cluster)
    ensures ProcessCollection(c, clock, starts, cluster).clock >= clock
  {
    hide RunJobs, StartTests, KoupletJobs, Uncompleted;
    if cluster.Cluster? {
      var jobs := KoupletJobs(cluster.jobs, c.uid);
      StartLedger.RunJobsTime(c, clock, jobs, cluster.ingest);
      var finished := RunJobs(c, clock, jobs, cluster.ingest);
      var budget := ActiveLimit(finished.coll.kube) - Uncompleted(KoupletJobs(cluster.jobs, finished.coll.uid));
      StartTestsTime(finished.coll, finished.clock, starts, budget, cluster.answers, 0);
    }
  }

  lemma VisitDates(db: Database, uid: string, visit: Visit, first: bool)
    requires uid in db.collections && db.collections[uid].uid == uid
    ensures
      var o := ProcessCollection(db.collections[uid], db.clock, db.starts, visit.cluster);
      SameDates(db, AfterVisit(db, uid, o, first, visit.primaryDelay))
  {
    hide ProcessCollection, Millis, PutAll;
    var o := ProcessCollection(db.collections[uid], db.clock, db.starts, visit.cluster);
    ProcessTime(db.collections[uid], db.clock, db.starts, visit.cluster);
    ProcessKeepsHeader(db.collections[uid], db.clock, db.starts, visit.cluster);
  }

  lemma AdmitDates(db: Database)
    requires DatabaseOk(db) && db.waiting != []
    ensures db.waiting[0] in db.collections && SameDates(db, Admit(db))
  {
    hide InOrder, Put, CollectionInvariant.CollectionOk;
    AdmitKeepsLists(db);
    HeldParts(db, db.waiting[0]);
  }

  lemma {:induction false} RoundDates(db: Database, visits: nat -> Visit, at: nat, inQueue: nat)
    requires DatabaseOk(db)
    ensures SameDates(db, RoundFrom(db, visits, at, inQueue).db)
    decreases |db.running| - at
  {
    hide DatabaseOk, ProcessCollection, AfterVisit, Admit, RoundFrom, SameDates, HeldOk;
    RoundOnce(db, visits, at, inQueue);
    SameDatesItself(db);
    if at >= |db.running| {
      if db.waiting != [] {
        AdmitDates(db);
      }
    } else {
      RunningIsHeld(db, at);
      var uid := db.running[at];
      HeldParts(db, uid);
      VisitDates(db, uid, visits(at), at == 0);
      Coherence.VisitedIsOk(db, uid, visits(at), at == 0);
      var o := ProcessCollection(db.collections[uid], db.clock, db.starts, visits(at).cluster);
      var d := AfterVisit(db, uid, o, at == 0, visits(at).primaryDelay);
      if !o.changed {
        RoundDates(d, visits, at + 1, inQueue + |o.coll.queued| + |o.coll.retry|);
        SameDatesTwice(db, d, RoundFrom(d, visits, at + 1, inQueue + |o.coll.queued| + |o.coll.retry|).db);
      }
    }
  }

  lemma SameDatesItself(db: Database)
    ensures SameDates(db, db)
  {
  }

  lemma RoundKeepsDates(db: Database, visits: nat -> Visit)
    requires DatabaseOk(db) && DatesOk(db)
    ensures DatesOk(Round(db, visits).db)
  {
    hide DatabaseOk, DatesOk, SameDates, RoundFrom;
    RoundDates(db, visits, 0, 0);
    ProcessLoop.RoundKeepsOrder(db, visits, 0, 0);
    RoundFromKeeps(db, visits, 0, 0);
    ListedAreThere(Round(db, visits).db);
    DatesKept(db, Round(db, visits).db);
  }

  lemma {:induction false} MarkCompleteDates(db: Database, endDelay: nat -> nat, n: nat)
    requires n <= |db.running|
    requires forall u :: u in db.collections ==> db.collections[u].uid == u
    ensures SameDates(db, MarkComplete(db, endDelay, n))
    ensures
      var d := MarkComplete(db, endDelay, n);
      && d.waiting == db.waiting && d.running == db.running && d.collections.Keys == db.collections.Keys
      && (forall u :: u in d.collections ==> d.collections[u].uid == u)
  {
    hide Put, IsComplete, Millis;
    if n > 0 {
      MarkCompleteDates(db, endDelay, n - 1);
    }
  }

  lemma WithoutByDate(c: map<string, Collection>, uids: seq<string>, gone: set<string>)
    requires ByDate(c, uids)
    ensures ByDate(c, Without(uids, gone)) && forall u :: u in Without(uids, gone) ==> u in uids
  {
    FilterByDate(c, uids, uid => uid !in gone);
  }

  lemma StillRunningByDate(db: Database)
    requires ByDate(db.collections, db.running)
    ensures ByDate(db.collections, StillRunningList(db)) && forall u :: u in StillRunningList(db) ==> u in db.running
  {
    FilterByDate(db.collections, db.running, uid => StillRunning(db, uid));
  }

  /** The end of Process keeps the order of what is left. */
  lemma SettleKeepsDates(db: Database, s: Settling)
    requires DatabaseOk(db) && DatesOk(db)
    ensures DatesOk(Settle(db, s))
  {
    hide DatabaseOk, Settle, StillRunningList, SameDates, ByDate, DateOf, Without, Millis;
    var d := Settle(db, s);
    var g := s.gone * db.collections.Keys;
    SettleDates(db, s);
    DatesStayBelow(db, d);
    SettledLists(db, s);
    PartsByDate(db.collections, db.running, db.waiting);
    StillRunningByDate(db);
    WithoutByDate(db.collections, StillRunningList(db), g);
    WithoutByDate(db.collections, db.waiting, g);
    JoinedByDate(db.collections, d.running, d.waiting);
    SettleKeeps(db, s);
    ListedAreThere(d);
    SameDatesAt(db, d, d.running + d.waiting);
    SameDatesByDate(db.collections, d.collections, d.running + d.waiting);
  }

  lemma SameDatesAt(db: Database, d: Database, uids: seq<string>)
    requires SameDates(db, d) && forall u :: u in uids ==> u in d.collections
    ensures forall u :: u in uids ==> DateOf(d.collections, u) == DateOf(db.collections, u)
  {
    forall u | u in uids
      ensures DateOf(d.collections, u) == DateOf(db.collections, u)
    {
      assert u in d.collections.Keys;
    }
  }

  lemma SettledLists(db: Database, s: Settling)
    requires DatabaseOk(db)
    ensures
      var g := s.gone * db.collections.Keys;
      Settle(db, s).running == Without(StillRunningList(db), g) && Settle(db, s).waiting == Without(db.waiting, g)
  {
    hide DatabaseOk, CompleteCollections, MarkComplete, Resolve, StillRunningList, Without, Deletions;
    OwnUids(db);
    MarkCompleteDates(db, s.endDelay, |db.running|);
    CompletedLists(db, s.endDelay, s.cleanupDelay);
    CollectedLists(CompleteCollections(db, s.endDelay, s.cleanupDelay), s.gone);
  }

  lemma CompletedLists(db: Database, endDelay: nat -> nat, cleanupDelay: nat)
    ensures
      var m, c := MarkComplete(db, endDelay, |db.running|), CompleteCollections(db, endDelay, cleanupDelay);
      c.running == StillRunningList(db) && c.waiting == m.waiting && c.collections == m.collections
  {
    hide MarkComplete, StillRunningList, PutAll, Recent;
  }

  lemma CollectedLists(c: Database, gone: set<string>)
    ensures
      var g, d := gone * c.collections.Keys, Resolve(Collect(c, gone));
      d.running == Without(c.running, g) && d.waiting == Without(c.waiting, g)
  {
    hide Without, Deletions, IsRemoved, WrittenKeys;
  }

  lemma OwnUids(db: Database)
    requires DatabaseOk(db)
    ensures forall u :: u in db.collections ==> db.collections[u].uid == u
  {
    hide DatabaseOk, CollectionInvariant.CollectionOk;
    forall u | u in db.collections
      ensures db.collections[u].uid == u
    {
      HeldParts(db, u);
    }
  }

  lemma SettleDates(db: Database, s: Settling)
    requires DatabaseOk(db)
    ensures SameDates(db, Settle(db, s))
  {
    hide DatabaseOk, MarkComplete, PutAll, StillRunningList, Without, Deletions, Recent, IsRemoved, WrittenKeys;
    OwnUids(db);
    MarkCompleteDates(db, s.endDelay, |db.running|);
    CompletingDates(db, s.endDelay, s.cleanupDelay);
    CollectDates(CompleteCollections(db, s.endDelay, s.cleanupDelay), s.gone);
    SameDatesTwice(db, CompleteCollections(db, s.endDelay, s.cleanupDelay), Settle(db, s));
  }

  lemma CompletingDates(db: Database, endDelay: nat -> nat, cleanupDelay: nat)
    requires SameDates(db, MarkComplete(db, endDelay, |db.running|))
    ensures SameDates(db, CompleteCollections(db, endDelay, cleanupDelay))
  {
    hide MarkComplete, StillRunningList, PutAll, Recent;
  }

  lemma CollectDates(c: Database, gone: set<string>)
    ensures SameDates(c, Resolve(Collect(c, gone)))
  {
    hide Without, Deletions, IsRemoved, WrittenKeys;
  }

  lemma {:induction false} SweepDates(db: Database, jobs: seq<Job>)
    ensures SameDates(db, Sweep(db, jobs))
    ensures
      var d := Sweep(db, jobs);
      d.collections.Keys == db.collections.Keys && d.running == db.running && d.waiting == db.waiting
  {
    hide Put, SameDates;
    SameDatesItself(db);
    if jobs != [] {
      var before := Sweep(db, jobs[..|jobs| - 1]);
      SweepDates(db, jobs[..|jobs| - 1]);
      SweepJobDates(before, jobs[|jobs| - 1]);
      SameDatesTwice(db, before, Sweep(db, jobs));
    }
  }

  lemma SweepJobDates(db: Database, job: Job)
    ensures SameDates(db, SweepJob(db, job))
  {
    hide Put;
  }

  lemma {:induction false} NewCollectionDate(kube: KubeTest, clock: int, n: nat)
    requires n <= |kube.tests|
    ensures WithTests(kube, clock, n).dateSubmitted == Millis(clock)
  {
    if n > 0 {
      NewCollectionDate(kube, clock, n - 1);
    }
  }

  /** A new collection is the latest one, and joins at the end. */
  lemma SubmitKeepsDates(db: Database, kube: KubeTest, delay: nat)
    requires DatabaseOk(db) && DatesOk(db)
    ensures DatesOk(Submit(db, kube, delay))
  {
    hide DatabaseOk, WithTests, Millis, PutAll, Resolve, CreationMarks;
    if kube.uid !in db.collections {
      var now := db.clock + delay;
      var c := WithTests(kube, now, |kube.tests|);
      MillisMonotone(db.clock, now);
      NewCollectionDate(kube, now, |kube.tests|);
      ListedAreThere(db);
      NewestIsLast(db.collections, db.running + db.waiting, c);
      var d := Enlist(db, c, now, CreationMarks(kube.uid, |kube.tests|));
      assert d.running + d.waiting == (db.running + db.waiting) + [c.uid];
      ResolvedDates(d);
    }
  }

  lemma ResolvedDates(d: Database)
    requires DatesOk(d)
    ensures DatesOk(Resolve(d))
  {
    hide IsRemoved, WrittenKeys, Millis, DateOf;
  }

  lemma NewestIsLast(collections: map<string, Collection>, uids: seq<string>, c: Collection)
    requires ByDate(collections, uids) && c.uid !in collections && forall u :: u in uids ==> u in collections
    requires forall u :: u in collections ==> collections[u].dateSubmitted <= c.dateSubmitted
    ensures ByDate(collections[c.uid := c], uids + [c.uid])
  {
    var after := collections[c.uid := c];
    assert c.uid !in uids;
    SameDatesByDate(collections, after, uids);
    JoinedByDate(after, uids, [c.uid]);
  }

  lemma NextKeepsDates(db: Database, s: Step)
    requires DatabaseOk(db) && StepOk(s) && DatesOk(db)
    ensures DatesOk(Next(db, s))
  {
    hide DatabaseOk, DatesOk, Submit, RoundFrom, Settle, Sweep, StepOk;
    match s
    case Submitting(kube, delay) => SubmitKeepsDates(db, kube, delay);
    case Processing(visits) => RoundKeepsDates(db, visits);
    case Settlement(settling) => SettleKeepsDates(db, settling);
    case Sweeping(jobs) =>
      SweepDates(db, jobs);
      ListedAreThere(db);
      DatesKept(db, Sweep(db, jobs));
    case DroppingOldKeys =>
      DatesKeptWhenDropping(db);
  }

  lemma DatesKeptWhenDropping(db: Database)
    requires DatesOk(db)
    ensures DatesOk(DropOldKeys(db))
  {
    hide KeyIsLive, DateOf, Millis;
  }

  /** In every run, running collections and then waiting ones stand in the order of the dates of their submission. */
  lemma {:induction false} EveryRunIsByDate(steps: seq<Step>)
    requires StepsOk(steps)
    ensures DatesOk(Run(steps))
  {
    hide Next, StepOk, DatabaseOk;
    if steps != [] {
      EveryRunIsByDate(steps[..|steps| - 1]);
      EveryRunIsOk(steps[..|steps| - 1]);
      NextKeepsDates(Run(steps[..|steps| - 1]), steps[|steps| - 1]);
    }
  }

  // ---- Sorting restores the order ----

  /** No two collections were submitted in the same millisecond. */
  ghost predicate DistinctDates(collections: map<string, Collection>) {
    forall u, v :: u in collections && v in collections && collections[u].dateSubmitted == collections[v].dateSubmitted ==> u == v
  }

  lemma LatestIsLast(c: map<string, Collection>, uids: seq<string>, u: string)
    requires ByDate(c, uids) && u in uids
    ensures DateOf(c, u) <= DateOf(c, uids[|uids| - 1])
  {
    hide DateOf;
    var i :| 0 <= i < |uids| && uids[i] == u;
  }

  /** Two lists of the same collections in the order of their dates are the same. */
  lemma {:induction false} OrderIsDetermined(c: map<string, Collection>, a: seq<string>, b: seq<string>)
    requires DistinctDates(c) && ByDate(c, a) && ByDate(c, b) && NoDuplicates(a) && NoDuplicates(b)
    requires forall u :: (u in a <==> u in b)
    requires forall u :: u in a ==> u in c
    ensures a == b
  {
    hide NoDuplicates, ByDate, DistinctDates;
    if a == [] {
      EmptyHasNone(b);
    } else {
      assert a[0] in b;
      var m, n := |a| - 1, |b| - 1;
      LastIsSame(c, a, b);
      FrontIs(c, a);
      FrontIs(c, b);
      FrontsMatch(a[..m], b[..n], a[m]);
      FrontsMatch(b[..n], a[..m], b[n]);
      OrderIsDetermined(c, a[..m], b[..n]);
    }
  }

  lemma LastIsSame(c: map<string, Collection>, a: seq<string>, b: seq<string>)
    requires a != [] && b != [] && DistinctDates(c) && ByDate(c, a) && ByDate(c, b)
    requires forall u :: (u in a <==> u in b)
    requires forall u :: u in a ==> u in c
    ensures a[|a| - 1] == b[|b| - 1]
  {
    hide ByDate;
    var u, v := a[|a| - 1], b[|b| - 1];
    assert u in a && v in b;
    LatestIsLast(c, a, v);
    LatestIsLast(c, b, u);
  }

  lemma FrontsMatch(a: seq<string>, b: seq<string>, last: string)
    requires last !in a && forall u :: u in a + [last] ==> u in b + [last]
    ensures forall u :: u in a ==> u in b
  {
    forall u | u in a
      ensures u in b
    {
      assert u in a + [last];
    }
  }

  lemma EmptyHasNone(s: seq<string>)
    requires forall u :: u !in s
    ensures s == []
  {
    if |s| > 0 {
      HasFirst(s);
    }
  }

  lemma FrontIs(c: map<string, Collection>, s: seq<string>)
    requires s != [] && NoDuplicates(s) && ByDate(c, s)
    ensures ByDate(c, s[..|s| - 1])
    ensures s == s[..|s| - 1] + [s[|s| - 1]] && NoDuplicates(s[..|s| - 1])
    ensures s[|s| - 1] !in s[..|s| - 1]
  {
    var n := |s| - 1;
    var last := s[n];
    assert s == s[..n] + [last];
    assert last !in s[..n];
  }
}
