/** Everything that processing a collection changes is among the persistence records it puts. */
module Coverage {
  import opened Prelude
  import opened TestModel
  import opened CollectionSteps
  import opened CollectionInvariant
  import opened CollectionProofs
  import opened Keys
  import opened DatabaseSteps
  import opened DatabaseInvariant
  import opened WriteBack

  // ---- Composing recorded changes ----

  lemma CoveredAtTransitive(a: map<string, Collection>, b: map<string, Collection>, c: map<string, Collection>,
                            first: seq<Mark>, second: seq<Mark>, m: Mark)
    requires Covered(a, b, first) && Covered(b, c, second) && Live(c, m)
    ensures CoveredAt(a, c, first + second, m)
  {
    hide Fresh, SameStored, MarkFits, Live;
    assert CoveredAt(b, c, second, m);
    if m in second && Fresh(c, m).Some? {
      assert m in first + second;
    } else if Live(b, m) {
      assert SameFresh(b, c, m);
      assert CoveredAt(a, b, first, m);
      if m in first && Fresh(b, m).Some? {
        assert m in first + second;
      } else if Live(a, m) && Fresh(b, m).Some? {
        SameStoredTransitive(Fresh(a, m).value, Fresh(b, m).value, Fresh(c, m).value);
      }
    } else {
      NotLiveBefore(a, b, first, m);
    }
  }

  lemma NotLiveBefore(a: map<string, Collection>, b: map<string, Collection>, marks: seq<Mark>, m: Mark)
    requires Covered(a, b, marks) && !Live(b, m)
    ensures !Live(a, m)
  {
    hide Live, MarkFits, CoveredAt;
  }

  lemma CoveredTransitive(a: map<string, Collection>, b: map<string, Collection>, c: map<string, Collection>,
                          first: seq<Mark>, second: seq<Mark>)
    requires Covered(a, b, first) && Covered(b, c, second)
    ensures Covered(a, c, first + second)
  {
    hide CoveredAt, Live, MarkFits;
    forall m | Live(c, m)
      ensures CoveredAt(a, c, first + second, m)
    {
      CoveredAtTransitive(a, b, c, first, second, m);
    }
  }

  // ---- Elementary changes ----

  /** One collection in place of another. */
  ghost predicate Recorded(all: map<string, Collection>, c: Collection, c': Collection, marks: seq<Mark>) {
    Covered(all[c.uid := c], all[c.uid := c'], marks)
  }

  /** A change of one entry, or a new one: what changed of it is among the marks. */
  ghost predicate EntryRecorded(c: Collection, id: int, e: Entry, marks: seq<Mark>) {
    && EntryShallow(c.uid, id) in marks
    && (id in c.entries || EntrySpec(c.uid, id) in marks)
    && (id in c.entries ==> e.spec == c.entries[id].spec)
    && ((EntryResult(c.uid, id) in marks && e.result.Some?)
        || e.result == (if id in c.entries then c.entries[id].result else None))
  }

  lemma EntryChangeRecorded(all: map<string, Collection>, c: Collection, id: int, e: Entry, c': Collection, marks: seq<Mark>)
    requires SameHeader(c, c') && c'.entries == c.entries[id := e]
    requires EntryRecorded(c, id, e, marks) && forall m :: m in marks ==> MarkFits(m)
    ensures Recorded(all, c, c', marks)
  {
    hide MarkFits;
    var before, after := all[c.uid := c], all[c.uid := c'];
    forall m | Live(after, m)
      ensures CoveredAt(before, after, marks, m)
    {
      if m.uid == c.uid && !m.CollectionShallow? && m.id == id {
        EntryMarkRecorded(all, c, id, e, c', marks, m);
      }
    }
  }

  lemma EntryMarkRecorded(all: map<string, Collection>, c: Collection, id: int, e: Entry, c': Collection, marks: seq<Mark>, m: Mark)
    requires SameHeader(c, c') && c'.entries == c.entries[id := e]
    requires EntryRecorded(c, id, e, marks)
    requires IsUpdate(m) && m.uid == c.uid && !m.CollectionShallow? && m.id == id
    ensures CoveredAt(all[c.uid := c], all[c.uid := c'], marks, m)
  {
  }

  /** A change of the buckets alone writes nothing. */
  lemma SameEntriesRecorded(all: map<string, Collection>, c: Collection, c': Collection)
    requires SameHeader(c, c') && c'.entries == c.entries
    ensures Recorded(all, c, c', [])
  {
    var before, after := all[c.uid := c], all[c.uid := c'];
    forall m | Live(after, m)
      ensures CoveredAt(before, after, [], m)
    {
    }
  }

  lemma RecordedTransitive(all: map<string, Collection>, a: Collection, b: Collection, c: Collection,
                           first: seq<Mark>, second: seq<Mark>)
    requires a.uid == b.uid == c.uid
    requires Recorded(all, a, b, first) && Recorded(all, b, c, second)
    ensures Recorded(all, a, c, first + second)
  {
    hide Covered;
    CoveredTransitive(all[a.uid := a], all[a.uid := b], all[a.uid := c], first, second);
  }

  // ---- Finishing tests ----

  /** A finished test, and the retry it may get, are recorded. */
  lemma FinishedRecorded(all: map<string, Collection>, c: Collection, clock: int, id: int, done: Entry)
    requires CollectionOk(c) && IsUid(c.uid) && id in c.running && id in c.entries
    requires done.spec == c.entries[id].spec && done.result.Some?
    ensures Recorded(all, c, Finished(c, clock, id, done).coll, Finished(c, clock, id, done).marks)
    ensures SameHeader(c, Finished(c, clock, id, done).coll)
  {
    hide Recorded, CollectionOk;
    var c1 := MoveToCompleted(c, id, done);
    var first := [EntryResult(c.uid, id), EntryShallow(c.uid, id)];
    EntryChangeRecorded(all, c, id, done, c1, first);
    var o := Finished(c, clock, id, done);
    if o.coll != c1 {
      var n := c.nextId;
      NextIdIsNew(c);
      assert n !in c1.entries;
      var second := [EntryShallow(c.uid, n), EntrySpec(c.uid, n)];
      EntryChangeRecorded(all, c1, n, RetryOf(id, c1.entries[id], n), AddRetry(c1, id), second);
      RecordedTransitive(all, c, c1, AddRetry(c1, id), first, second);
      assert first + second == o.marks;
    }
  }

  lemma NextIdIsNew(c: Collection)
    requires CollectionOk(c)
    ensures c.nextId !in c.entries
    ensures forall i :: i in c.running ==> i in c.entries
  {
  }

  lemma HandleJobRecorded(all: map<string, Collection>, c: Collection, clock: int, job: Job, ingest: string -> seq<Totals>)
    requires CollectionOk(c) && IsUid(c.uid) && job.entry.Some?
    ensures
      var o := HandleJob(c, clock, job, ingest);
      Recorded(all, c, o.coll, o.marks)
  {
    hide Recorded, CollectionOk;
    SameEntriesRecorded(all, c, c);
    var id := job.entry.value;
    if id in c.entries && c.entries[id].status == EntryRunning {
      RunningIsListed(c, id);
      var podLog := GetOr(job.podLog, "");
      if job.completionTime.Some? {
        var report := if job.podLog.Some? then Junit.ExtractReport(podLog) else "";
        JobRecorded(all, c, clock, id, EntryComplete, podLog, report, job, SuiteIn(job.podLog, ingest));
      } else if job.startTime.Some? {
        JobRecorded(all, c, clock + job.delay, id, EntryExpired, "", "", job, None);
      }
    }
  }

  lemma JobRecorded(all: map<string, Collection>, c: Collection, clock: int, id: int, status: EntryStatus,
                    podLog: string, report: string, job: Job, suite: Option<Totals>)
    requires CollectionOk(c) && IsUid(c.uid) && id in c.entries && c.entries[id].status == EntryRunning
    requires status == EntryComplete || status == EntryExpired
    ensures
      var c0 := WithEntry(c, id, c.entries[id].(processed := true, status := status));
      var o := Finish(c0, clock, id, podLog, report, job, suite);
      Recorded(all, c, o.coll, [EntryShallow(c.uid, id)] + o.marks)
  {
    hide Recorded, CollectionOk, Finish, FinalResult, Finished;
    FinishKeepsInvariant(c, clock, id, status, podLog, report, job, suite);
    var done := Done(c.entries[id], status, FinalResult(c, id, status, podLog, report, job, suite));
    FinishedRecorded(all, c, clock, id, done);
    var o := Finished(c, clock, id, done);
    OneMoreMark(all, c, o.coll, EntryShallow(c.uid, id), o.marks);
  }

  /** A record more than needed does no harm, when what it is about can be written. */
  lemma OneMoreMark(all: map<string, Collection>, c: Collection, c': Collection, extra: Mark, marks: seq<Mark>)
    requires Recorded(all, c, c', marks) && MarkFits(extra)
    ensures Recorded(all, c, c', [extra] + marks)
  {
    hide Live, Fresh, MarkFits;
    var before, after := all[c.uid := c], all[c.uid := c'];
    forall m | Live(after, m)
      ensures CoveredAt(before, after, [extra] + marks, m)
    {
      assert CoveredAt(before, after, marks, m);
    }
  }

  lemma {:induction false} RunJobsRecorded(all: map<string, Collection>, c: Collection, clock: int, jobs: seq<Job>,
                                           ingest: string -> seq<Totals>)
    requires CollectionOk(c) && IsUid(c.uid) && forall job :: job in jobs ==> job.entry.Some?
    ensures
      var o := RunJobs(c, clock, jobs, ingest);
      Recorded(all, c, o.coll, o.marks)
  {
    hide CollectionOk, HandleJob, Recorded;
    if jobs == [] {
      SameEntriesRecorded(all, c, c);
    } else {
      var front, last := jobs[..|jobs| - 1], jobs[|jobs| - 1];
      RunJobsRecorded(all, c, clock, front, ingest);
      RunJobsKeepsInvariant(c, clock, front, ingest);
      RunJobsKeepsHeader(c, clock, front, ingest);
      var before := RunJobs(c, clock, front, ingest);
      HandleJobRecorded(all, before.coll, before.clock, last, ingest);
      HandleJobKeepsHeader(before.coll, before.clock, last, ingest);
      var o := HandleJob(before.coll, before.clock, last, ingest);
      RecordedTransitive(all, c, before.coll, o.coll, before.marks, o.marks);
    }
  }

  // ---- Starting tests ----

  lemma TurnRecorded(all: map<string, Collection>, c: Collection, answer: Answer, time: int)
    requires CollectionOk(c) && IsUid(c.uid)
    ensures
      var turn := TakeTurn(c, answer);
      && (turn.Refused? ==> Recorded(all, c, turn.coll, []))
      && (turn.Begun? ==> Recorded(all, c, turn.coll, [AddStart(time), EntryShallow(c.uid, turn.id)]))
  {
    hide Recorded, CollectionOk, TakeTurn;
    TurnTakesTheFirst(c, answer);
    if c.queued != [] || c.retry != [] {
      var fromQueued := c.queued != [];
      if Accepted(answer, c.uid) {
        var id := if fromQueued then c.queued[0] else c.retry[0];
        var marks := [AddStart(time), EntryShallow(c.uid, id)];
        EntryChangeRecorded(all, c, id, Started(c.entries[id], answer), MoveToRunning(c, fromQueued, answer), marks);
      } else {
        SameEntriesRecorded(all, c, PutBack(c, fromQueued));
      }
    }
  }

  lemma TurnKeepsHeader(c: Collection, answer: Answer)
    ensures TakeTurn(c, answer).Begun? ==> SameHeader(c, TakeTurn(c, answer).coll)
  {
  }

  lemma {:induction false} StartTestsRecorded(all: map<string, Collection>, c: Collection, clock: int, starts: seq<int>,
                                              budget: int, answers: nat -> Answer, attempt: nat)
    requires CollectionOk(c) && IsUid(c.uid)
    ensures
      var o := StartTests(c, clock, starts, budget, answers, attempt);
      Recorded(all, c, o.coll, o.marks)
    decreases if budget > 0 then budget else 0
  {
    hide CollectionOk, TakeTurn, Recorded, CanStartMore;
    SameEntriesRecorded(all, c, c);
    var answer := answers(attempt);
    var now := clock + answer.checkDelay;
    if budget > 0 && CanStartMore(starts, now, c.kube) {
      var turn := TakeTurn(c, answer);
      var time := now + answer.startDelay;
      TurnRecorded(all, c, answer, time);
      if turn.Begun? {
        TurnKeepsInvariant(c, answer);
        TurnKeepsHeader(c, answer);
        StartTestsRecorded(all, turn.coll, time, starts + [time], budget - 1, answers, attempt + 1);
        StartTestsKeepsHeader(turn.coll, time, starts + [time], budget - 1, answers, attempt + 1);
        var o := StartTests(turn.coll, time, starts + [time], budget - 1, answers, attempt + 1);
        RecordedTransitive(all, c, turn.coll, o.coll, [AddStart(time), EntryShallow(c.uid, turn.id)], o.marks);
      }
    }
  }

  /** Whatever the cluster answers, the records that processing a collection puts cover everything it changed. */
  lemma ProcessRecorded(all: map<string, Collection>, c: Collection, clock: int, starts: seq<int>, cluster: Cluster)
    requires CollectionOk(c) && IsUid(c.uid)
    ensures
      var o := ProcessCollection(c, clock, starts, cluster);
      Recorded(all, c, o.coll, o.marks)
  {
    hide CollectionOk, Recorded, RunJobs, StartTests, KoupletJobs, Uncompleted;
    if cluster.ListFailed? {
      SameEntriesRecorded(all, c, c);
    } else {
      var jobs := KoupletJobs(cluster.jobs, c.uid);
      RunJobsRecorded(all, c, clock, jobs, cluster.ingest);
      RunJobsKeepsInvariant(c, clock, jobs, cluster.ingest);
      RunJobsKeepsHeader(c, clock, jobs, cluster.ingest);
      var finished := RunJobs(c, clock, jobs, cluster.ingest);
      var budget := ActiveLimit(finished.coll.kube) - Uncompleted(jobs);
      StartTestsRecorded(all, finished.coll, finished.clock, starts, budget, cluster.answers, 0);
      StartTestsKeepsHeader(finished.coll, finished.clock, starts, budget, cluster.answers, 0);
      var o := StartTests(finished.coll, finished.clock, starts, budget, cluster.answers, 0);
      RecordedTransitive(all, c, finished.coll, o.coll, finished.marks, o.marks);
    }
  }

  // ---- New collections ----

  /** A new collection is recorded in full. */
  lemma {:induction false} CreationMarksCover(uid: string, n: nat, m: Mark)
    requires IsUpdate(m) && m.uid == uid && !m.EntryResult? && (m.CollectionShallow? || 0 <= m.id < n)
    ensures m in CreationMarks(uid, n)
  {
    if n > 0 {
      if m.CollectionShallow? || m.id < n - 1 {
        CreationMarksCover(uid, n - 1, m);
      }
    }
  }

  lemma {:induction false} CreationMarksFit(uid: string, n: nat)
    requires IsUid(uid)
    ensures forall m :: m in CreationMarks(uid, n) ==> MarkFits(m)
  {
    if n > 0 {
      CreationMarksFit(uid, n - 1);
    }
  }

  lemma CreationRecorded(all: map<string, Collection>, kube: KubeTest, now: int)
    requires IsUid(kube.uid) && kube.uid !in all
    ensures Covered(all, all[kube.uid := WithTests(kube, now, |kube.tests|)], CreationMarks(kube.uid, |kube.tests|))
  {
    hide CreationMarks, WithTests, MarkFits;
    var n := |kube.tests|;
    NewTestsQueued(kube, now, n);
    CreationMarksFit(kube.uid, n);
    var after := all[kube.uid := WithTests(kube, now, n)];
    forall m | Live(after, m)
      ensures CoveredAt(all, after, CreationMarks(kube.uid, n), m)
    {
      if m.uid == kube.uid && !m.EntryResult? {
        CreationMarksCover(kube.uid, n, m);
      }
    }
  }

  lemma RecordedMarksFit(all: map<string, Collection>, c: Collection, c': Collection, marks: seq<Mark>)
    requires Recorded(all, c, c', marks)
    ensures forall m :: m in marks ==> MarkFits(m)
  {
    hide MarkFits, Live, CoveredAt;
  }
}
