/** Concrete runs from the empty database that show what the code does in the cases its promises leave out. Each run
    submits one KoupletTest with one test and the default settings. */
module Examples {
  import opened Prelude
  import opened TestModel
  import opened CollectionSteps
  import opened Keys
  import opened DatabaseSteps
  import opened DatabaseInvariant
  import opened WriteBack
  import opened Resolving
  import opened Coherence
  import opened Reload
  import opened NextIds
  import opened StoredIds
  import opened ProcessLoop
  import opened StartTimes
  import Junit
  import Text

  // ---- The inputs ----

  const UID := "00000000-0000-0000-0000-000000000000"
  const SPEC_OF_TEST := TestSpec(None, [], [], [])
  const KUBE := KubeTest("ns", "test", UID, [SPEC_OF_TEST], None, None, None, None, None, false)

  const YES := Answer(0, Some(UID), true, true, "ns", "job", 0)
  const NO := Answer(0, Some("another"), true, true, "ns", "job", 0)

  /** The job of the test has completed; its log cannot be fetched. */
  const FAILED_JOB := Job("job", Some(UID), Some(0), Some(0), Some(0), None, "", "", 0)

  /** The job of the test has completed; its log holds a report of one passed test. */
  const PASSED_JOB := FAILED_JOB.(podLog := Some(""))

  function Ingest(): string -> seq<Totals> {
    report => [Totals(1, 0, 0, 0)]
  }

  function Seeing(jobs: seq<Job>, answer: Answer): Step {
    Processing(at => Visit(Cluster(jobs, Ingest(), k => answer), 0))
  }

  function Ending(cleanupDelay: nat): Step {
    Settlement(Settling(n => 0, cleanupDelay, {}))
  }

  // ---- The collection on its way ----

  const ENTRY := NewEntry(0, SPEC_OF_TEST)
  const SUBMITTED := Collection(KUBE, [0], [], [], [], map[0 := ENTRY], 1, UID, CollectionWaiting, 0, None, None, WaitingBucket)
  const ADMITTED := SUBMITTED.(status := CollectionRunning, bucket := RunningBucket)
  const BEGUN_ENTRY := Started(ENTRY, YES)
  const BEGUN := ADMITTED.(queued := [], running := [0], entries := map[0 := BEGUN_ENTRY], startTime := Some(0))

  /** The database holds one collection, in the list its bucket names. */
  ghost predicate Holds(db: Database, c: Collection, starts: seq<int>, clock: int) {
    && db.collections == map[UID := c] && db.starts == starts && db.clock == clock
    && db.waiting == (if c.bucket.WaitingBucket? then [UID] else [])
    && db.running == (if c.bucket.RunningBucket? then [UID] else [])
  }

  lemma RunSnoc(steps: seq<Step>, s: Step)
    ensures Run(steps + [s]) == Next(Run(steps), s)
  {
    assert (steps + [s])[..|steps|] == steps;
  }

  function Submission(): seq<Step> {
    [Submitting(KUBE, 0)]
  }

  function UpToAdmission(): seq<Step> {
    Submission() + [Seeing([], YES)]
  }

  function UpToStart(): seq<Step> {
    UpToAdmission() + [Seeing([], YES)]
  }

  lemma AfterSubmission()
    ensures Holds(Run(Submission()), SUBMITTED, [], 0)
  {
    hide Resolve;
    var c := WithTests(KUBE, 0, 1);
    assert WithTests(KUBE, 0, 0) == EmptyCollection(KUBE, 0);
    assert c == SUBMITTED;
    RunSnoc([], Submitting(KUBE, 0));
    assert [] + Submission() == Submission();
    ResolveKeepsMemory(Enlist(EMPTY_DATABASE, c, 0, CreationMarks(UID, 1)));
  }

  // ---- Rounds of a database with one collection ----

  lemma RoundAdmits(db: Database, visits: nat -> Visit, c: Collection, starts: seq<int>, clock: int)
    requires Holds(db, c, starts, clock) && c.bucket == WaitingBucket && c.uid == UID
    ensures Round(db, visits).db == Admit(db)
    ensures Holds(Admit(db), c.(status := CollectionRunning, bucket := RunningBucket), starts, clock)
    ensures Admit(db).dirty == Put(db.dirty, CollectionShallow(UID)) && Admit(db).store == db.store
  {
    hide Put;
    RoundOnce(db, visits, 0, 0);
  }

  /** The round in which the collection changed, at a time at which it had its start time already or got it now. */
  lemma RoundVisits(db: Database, visits: nat -> Visit, c: Collection, starts: seq<int>, clock: int)
    requires Holds(db, c, starts, clock) && c.bucket == RunningBucket && c.uid == UID
    requires ProcessCollection(c, clock, starts, visits(0).cluster).changed
    requires ProcessCollection(c, clock, starts, visits(0).cluster).coll.uid == UID
    requires ProcessCollection(c, clock, starts, visits(0).cluster).coll.bucket == RunningBucket
    ensures
      var o := ProcessCollection(c, clock, starts, visits(0).cluster);
      var now := o.clock + visits(0).primaryDelay;
      var d := Round(db, visits).db;
      && d.store == db.store
      && if o.coll.startTime.Some? then
           Holds(d, o.coll, starts + Times(o.begun), o.clock) && d.dirty == PutAll(db.dirty, o.marks)
         else
           && Holds(d, o.coll.(startTime := Some(Millis(now))), starts + Times(o.begun), now)
           && d.dirty == Put(PutAll(db.dirty, o.marks), CollectionShallow(UID))
  {
    hide ProcessCollection, Put, PutAll, Millis;
    RoundOnce(db, visits, 0, 0);
  }

  lemma AfterAdmission()
    ensures Holds(Run(UpToAdmission()), ADMITTED, [], 0)
  {
    hide Run, Admit, RoundFrom;
    AfterSubmission();
    RunSnoc(Submission(), Seeing([], YES));
    RoundAdmits(Run(Submission()), Seeing([], YES).visits, SUBMITTED, [], 0);
  }

  // ---- The start of the test ----

  lemma NoJobs(c: Collection, clock: int)
    ensures KoupletJobs([], c.uid) == [] && Uncompleted(KoupletJobs([], c.uid)) == 0
    ensures RunJobs(c, clock, KoupletJobs([], c.uid), Ingest()) == Unchanged(c, clock)
  {
  }

  lemma FirstTurn()
    ensures TakeTurn(ADMITTED, YES) == Turn.Begun(BEGUN.(startTime := None), 0)
  {
    assert FirstWaiting(ADMITTED.entries, ADMITTED.queued) == 0;
    assert map[0 := ENTRY][0 := BEGUN_ENTRY] == map[0 := BEGUN_ENTRY];
  }

  lemma SecondTurn()
    ensures TakeTurn(BEGUN.(startTime := None), YES) == Nothing
  {
    assert PickFirst(BEGUN.(startTime := None)).None?;
  }

  /** The loop that starts tests, one turn at a time. */
  lemma OneTurn(c: Collection, starts: seq<int>, budget: nat, answers: nat -> Answer, attempt: nat)
    requires budget > 0 && answers(attempt) == YES
    ensures
      var o := StartTests(c, 0, starts, budget, answers, attempt);
      if !CanStartMore(starts, 0, c.kube) then o == Unchanged(c, 0)
      else
        match TakeTurn(c, YES)
        case Nothing => o == Unchanged(c, 0)
        case Refused(_) => true
        case Begun(c1, id) => o == Begin(c, id, 0, StartTests(c1, 0, starts + [0], budget - 1, answers, attempt + 1))
  {
    hide TakeTurn, CanStartMore, Begin;
  }

  lemma TheStarts(answers: nat -> Answer)
    requires answers(0) == YES && answers(1) == YES
    ensures StartTests(ADMITTED, 0, [], 3, answers, 0) == Begin(ADMITTED, 0, 0, Unchanged(BEGUN.(startTime := None), 0))
  {
    hide TakeTurn, StartTests, Begin;
    FirstTurn();
    SecondTurn();
    OneTurn(ADMITTED, [], 3, answers, 0);
    assert [] + [0] == [0];
    OneTurn(BEGUN.(startTime := None), [0], 2, answers, 1);
  }

  lemma TheStart()
    ensures
      var o := ProcessCollection(ADMITTED, 0, [], Seeing([], YES).visits(0).cluster);
      && o.coll == BEGUN.(startTime := None) && o.clock == 0 && o.changed && !o.refused
      && o.marks == [AddStart(0), EntryShallow(UID, 0)] && Times(o.begun) == [0]
  {
    hide TakeTurn, StartTests, KoupletJobs, RunJobs, Uncompleted;
    NoJobs(ADMITTED, 0);
    TheStarts(Seeing([], YES).visits(0).cluster.answers);
  }

  lemma AfterStart()
    ensures Holds(Run(UpToStart()), BEGUN, [0], 0)
    ensures Run(UpToStart()).dirty ==
              Put(PutAll(Run(UpToAdmission()).dirty, [AddStart(0), EntryShallow(UID, 0)]), CollectionShallow(UID))
  {
    hide Run, ProcessCollection, RoundFrom, PutAll, Put;
    AfterAdmission();
    TheStart();
    RunSnoc(UpToAdmission(), Seeing([], YES));
    RoundVisits(Run(UpToAdmission()), Seeing([], YES).visits, ADMITTED, [], 0);
    assert [] + [0] == [0];
  }

  // ---- A retry that is not stored ----

  const FAILED_RESULT := ResultOf(0, BEGUN_ENTRY.(processed := true, status := EntryComplete), None, None, None)
  const FAILED_ENTRY := BEGUN_ENTRY.(processed := true, status := EntryComplete, result := Some(FAILED_RESULT), bucket := InCompleted)
  const FAILED := BEGUN.(running := [], completed := [0], retry := [1], nextId := 2,
                         entries := map[0 := FAILED_ENTRY, 1 := RetryOf(0, FAILED_ENTRY, 1)])

  function UpToEnd(): seq<Step> {
    UpToStart() + [Ending(0)]
  }

  function UpToFailure(): seq<Step> {
    UpToEnd() + [Seeing([FAILED_JOB], NO)]
  }

  /** Submit, admit, start, end of Process; the job fails, end of Process. */
  function LaggingRun(): seq<Step> {
    UpToFailure() + [Ending(0)]
  }

  /** The end of a Process in which the collection neither completes nor is gone. */
  lemma EndKeeps(db: Database, c: Collection, starts: seq<int>, clock: int)
    requires Holds(db, c, starts, clock) && c.bucket == RunningBucket && c.uid == UID && !IsComplete(c)
    ensures Holds(Next(db, Ending(0)), c, starts, clock)
  {
    hide Resolve, IsComplete;
    var s := Ending(0).settling;
    assert db.running[..0] == [];
    assert MarkComplete(db, s.endDelay, 0) == db;
    assert MarkComplete(db, s.endDelay, 1) == db;
    assert StillRunningList(db) == [UID];
    var done := CompleteCollections(db, s.endDelay, s.cleanupDelay);
    assert done.running == [UID];
    var d := Collect(done, {});
    assert d.collections == db.collections;
    assert Without([UID], {}) == [UID] && Without([], {}) == [];
    ResolveKeepsMemory(d);
  }

  lemma TheFailure()
    ensures
      var o := ProcessCollection(BEGUN, 0, [0], Seeing([FAILED_JOB], NO).visits(0).cluster);
      o.coll == FAILED && o.clock == 0 && o.changed && o.begun == []
  {
    var jobs := [FAILED_JOB];
    assert jobs[..0] == [];
    assert KoupletJobs(jobs, UID) == jobs;
    var ingest := Ingest();
    var marked := WithEntry(BEGUN, 0, BEGUN_ENTRY.(processed := true, status := EntryComplete));
    assert IndexOf(marked.running, 0) == 0;
    assert Finish(marked, 0, 0, "", "", FAILED_JOB, None).coll == FAILED by {
      assert RemoveAt([0], 0) == [];
    }
    assert RunJobs(BEGUN, 0, [], ingest) == Unchanged(BEGUN, 0);
    assert HandleJob(BEGUN, 0, FAILED_JOB, ingest).coll == FAILED;
  }

  lemma AfterFailure()
    ensures Holds(Run(UpToEnd()), BEGUN, [0], 0)
    ensures Holds(Run(UpToFailure()), FAILED, [0], 0)
    ensures Holds(Run(LaggingRun()), FAILED, [0], 0)
  {
    hide Run, ProcessCollection, RoundFrom, Next, Settle, PutAll;
    AfterStart();
    RunSnoc(UpToStart(), Ending(0));
    EndKeeps(Run(UpToStart()), BEGUN, [0], 0);
    TheFailure();
    RunSnoc(UpToEnd(), Seeing([FAILED_JOB], NO));
    NextRound(Run(UpToEnd()), Seeing([FAILED_JOB], NO));
    RoundVisits(Run(UpToEnd()), Seeing([FAILED_JOB], NO).visits, BEGUN, [0], 0);
    assert [0] + Times([]) == [0];
    RunSnoc(UpToFailure(), Ending(0));
    EndKeeps(Run(UpToFailure()), FAILED, [0], 0);
  }

  lemma NextRound(db: Database, s: Step)
    requires s.Processing?
    ensures Next(db, s) == Round(db, s.visits).db
  {
  }

  lemma ResolveSnoc(steps: seq<Step>, s: Step)
    ensures LastResolve(steps + [s]) == if Resolves(Run(steps), s) then |steps| + 1 else LastResolve(steps)
  {
    hide Run, Resolves;
    assert (steps + [s])[..|steps|] == steps;
  }

  /** The run leaves 1 as the stored `nextTestEntryID` of a collection that has two entries, although Process has come to
      its end: by ReloadIsOkExactlyWhen, what is loaded from this store hands out the id of the retry again. */
  lemma LaggingRunLags()
    ensures StepsOk(LaggingRun()) && StoreOk(Run(LaggingRun())) && UID in Run(LaggingRun()).collections
    ensures StoredNextId(Run(LaggingRun()).store, UID) == 1
    ensures Run(LaggingRun()).collections[UID].nextId == 2 == |StoredEntries(Run(LaggingRun()).store, UID)|
  {
    hide Run, Resolves, StoreOk, StoredNextId, StoredEntries, IsUid, HeaderEvents, WritesRecord;
    LaggingSteps();
    AfterFailure();
    LaggingWrites();
    WrittenNow(UpToEnd(), UID);
    NotWrittenNow(UpToFailure(), UID);
    NotWrittenNow(LaggingRun(), UID);
    StoreIsOkAfterProcess(LaggingRun());
    StoredEntriesAre(Run(LaggingRun()), UID);
    assert FAILED.entries.Keys == {0, 1};
  }

  lemma LaggingSteps()
    ensures StepsOk(UpToEnd()) && StepsOk(UpToFailure()) && StepsOk(LaggingRun())
    ensures UpToEnd()[..3] == UpToStart() && UpToFailure()[..4] == UpToEnd() && LaggingRun()[..5] == UpToFailure()
  {
    assert IsUid(UID);
  }

  /** The store was brought up to date by the submission and by each end of Process. */
  lemma LaggingResolves()
    ensures LastResolve(UpToStart()) == 1 && LastResolve(UpToFailure()) == 4
  {
    hide Run, Resolves, LastResolve;
    ResolvesOf();
    ResolveSnoc([], Submitting(KUBE, 0));
    assert [] + Submission() == Submission();
    ResolveSnoc(Submission(), Seeing([], YES));
    ResolveSnoc(UpToAdmission(), Seeing([], YES));
    ResolveSnoc(UpToStart(), Ending(0));
    ResolveSnoc(UpToEnd(), Seeing([FAILED_JOB], NO));
  }

  /** Only the first end of Process wrote the record of the collection. */
  lemma LaggingWrites()
    ensures WritesRecord(UpToEnd(), UID) && !WritesRecord(UpToFailure(), UID) && !WritesRecord(LaggingRun(), UID)
  {
    hide Run, Resolves, LastResolve, StepsOk;
    LaggingSteps();
    LaggingResolves();
    ResolvesOf();
    AfterSubmission();
    AfterFailure();
    assert UpToStart()[..1] == Submission();
  }

  lemma ResolvesOf()
    ensures Resolves(Run([]), Submitting(KUBE, 0))
    ensures forall db, cleanupDelay :: Resolves(db, Ending(cleanupDelay))
    ensures forall db, jobs, answer :: !Resolves(db, Seeing(jobs, answer))
  {
  }

  // ---- A start time that is forgotten but stays in the store ----

  const PASSED_RESULT :=
    ResultOf(0, BEGUN_ENTRY.(processed := true, status := EntryComplete), Some(Totals(1, 0, 0, 0)), None, None)
  const PASSED_ENTRY := BEGUN_ENTRY.(processed := true, status := EntryComplete, result := Some(PASSED_RESULT), bucket := InCompleted)
  const PASSED := BEGUN.(running := [], completed := [0], entries := map[0 := PASSED_ENTRY])
  const AN_HOUR := SECONDS_REMEMBERED * NANOS_PER_SECOND

  function UpToSuccess(): seq<Step> {
    UpToStart() + [Seeing([PASSED_JOB], NO)]
  }

  /** Submit; in one Process the test is admitted, starts and passes, and an hour later the collection is found complete. */
  function ForgettingRun(): seq<Step> {
    UpToSuccess() + [Ending(AN_HOUR)]
  }

  lemma TheSuccess()
    ensures
      var o := ProcessCollection(BEGUN, 0, [0], Seeing([PASSED_JOB], NO).visits(0).cluster);
      && o.coll == PASSED && o.clock == 0 && o.changed && o.begun == []
      && o.marks == [EntryShallow(UID, 0), EntryResult(UID, 0), EntryShallow(UID, 0)]
  {
    var jobs := [PASSED_JOB];
    assert jobs[..0] == [];
    assert KoupletJobs(jobs, UID) == jobs;
    var ingest := Ingest();
    NothingInTheLog();
    assert SuiteIn(Some(""), ingest) == Some(Totals(1, 0, 0, 0));
    var marked := WithEntry(BEGUN, 0, BEGUN_ENTRY.(processed := true, status := EntryComplete));
    assert IndexOf(marked.running, 0) == 0;
    assert Finish(marked, 0, 0, "", "", PASSED_JOB, Some(Totals(1, 0, 0, 0))).coll == PASSED by {
      assert RemoveAt([0], 0) == [];
    }
    assert RunJobs(BEGUN, 0, [], ingest) == Unchanged(BEGUN, 0);
    assert HandleJob(BEGUN, 0, PASSED_JOB, ingest).coll == PASSED;
  }

  lemma NothingInTheLog()
    ensures Junit.ExtractReport("") == ""
  {
    var lines := [""];
    assert Text.Lines("") == lines;
    assert lines[..0] == [];
  }

  lemma AfterSuccess()
    ensures Holds(Run(UpToSuccess()), PASSED, [0], 0)
    ensures Run(UpToSuccess()).dirty ==
              PutAll(Run(UpToStart()).dirty, [EntryShallow(UID, 0), EntryResult(UID, 0), EntryShallow(UID, 0)])
  {
    hide Run, ProcessCollection, RoundFrom, Next, PutAll;
    AfterStart();
    TheSuccess();
    RunSnoc(UpToStart(), Seeing([PASSED_JOB], NO));
    NextRound(Run(UpToStart()), Seeing([PASSED_JOB], NO));
    RoundVisits(Run(UpToStart()), Seeing([PASSED_JOB], NO).visits, BEGUN, [0], 0);
    assert [0] + Times([]) == [0];
  }

  /** The end of Process an hour after the test passed: the collection completes, and the start is forgotten. */
  lemma TheEnd(db: Database, endDelay: nat -> nat)
    requires Holds(db, PASSED, [0], 0) && endDelay(0) == 0
    ensures
      var m := MarkComplete(db, endDelay, 1);
      && m.dirty == Put(db.dirty, CollectionShallow(UID)) && m.starts == [0] && m.clock == 0
      && CompleteCollections(db, endDelay, AN_HOUR) == ForgetOldStarts(m.(running := []), AN_HOUR)
  {
    hide Put, ForgetOldStarts;
    assert db.running[..0] == [];
    assert MarkComplete(db, endDelay, 0) == db;
    assert MarkComplete(db, endDelay, 1) == MarkIfComplete(db, UID, 0);
    assert StillRunningList(db) == [];
  }

  lemma TheForgetting(m: Database)
    requires m.starts == [0] && m.clock == 0
    ensures
      var c := ForgetOldStarts(m.(running := []), AN_HOUR);
      c.starts == [] && c.dirty == PutAll(m.dirty, [RemoveStart(0)])
  {
    hide PutAll;
    assert [0][..0] == [];
    assert Filter([0], (t: int) => t <= 0) == [0] && Recent([0], 0) == [];
    assert RemovalMarks([0]) == [RemoveStart(0)];
  }

  /** Then the start is still to be added and also to be removed. */
  lemma EndForgets(db: Database, endDelay: nat -> nat)
    requires RunOk(db) && Holds(db, PASSED, [0], 0) && Pending(db.dirty, AddStart(0)) && endDelay(0) == 0
    ensures
      var c := CompleteCollections(db, endDelay, AN_HOUR);
      c.starts == [] && Pending(c.dirty, AddStart(0)) && Pending(c.dirty, RemoveStart(0))
  {
    hide RunOk, Put, UpdateKey, PutAll, MarkFits, Pending, CompleteCollections, MarkComplete, ForgetOldStarts, WriteBackOk,
      DirtyOk;
    RunParts(db);
    WriteBackParts(db);
    TheEnd(db, endDelay);
    var m := MarkComplete(db, endDelay, 1);
    MarkCompleteCoheres(db, endDelay, 1);
    WriteBackParts(m);
    TheForgetting(m);
    StartMarksFit(0);
    assert IsUid(UID);
    CollectionMarkFits(UID);
    PutOne(db.dirty, CollectionShallow(UID));
    PutAllExactly(db.dirty, [CollectionShallow(UID)], AddStart(0));
    PutAllExactly(m.dirty, [RemoveStart(0)], AddStart(0));
    PutAllExactly(m.dirty, [RemoveStart(0)], RemoveStart(0));
  }

  /** The marks that the start of the test leaves, and those that its end adds. */
  lemma MarksStay(dirty: map<string, Mark>, begun: map<string, Mark>, finished: map<string, Mark>)
    requires DirtyOk(dirty) && begun == Put(PutAll(dirty, [AddStart(0), EntryShallow(UID, 0)]), CollectionShallow(UID))
    requires finished == PutAll(begun, [EntryShallow(UID, 0), EntryResult(UID, 0), EntryShallow(UID, 0)])
    ensures Pending(finished, AddStart(0))
  {
    hide Put, UpdateKey, PutAll, MarkFits, Pending, DirtyOk;
    MarksOfTheTestFit();
    var marks := [AddStart(0), EntryShallow(UID, 0)];
    PutAllKeeps(dirty, marks, AddStart(0));
    assert marks[0] in marks;
    PutKeeps(PutAll(dirty, marks), CollectionShallow(UID), AddStart(0));
    PutAllKeeps(begun, [EntryShallow(UID, 0), EntryResult(UID, 0), EntryShallow(UID, 0)], AddStart(0));
  }

  lemma StartIsPending()
    ensures RunOk(Run(UpToSuccess())) && Pending(Run(UpToSuccess()).dirty, AddStart(0))
  {
    hide RunOk, Run, Put, PutAll, Pending, WriteBackOk, DirtyOk, StepOk, Holds;
    ForgettingSteps();
    AfterStart();
    AfterSuccess();
    EveryRunIsCoherent(UpToAdmission());
    EveryRunIsCoherent(UpToSuccess());
    RunParts(Run(UpToAdmission()));
    WriteBackParts(Run(UpToAdmission()));
    MarksStay(Run(UpToAdmission()).dirty, Run(UpToStart()).dirty, Run(UpToSuccess()).dirty);
  }

  lemma MarksOfTheTestFit()
    ensures MarkFits(AddStart(0)) && MarkFits(CollectionShallow(UID))
    ensures MarkFits(EntryShallow(UID, 0)) && MarkFits(EntryResult(UID, 0))
  {
    assert IsUid(UID);
  }

  lemma ForgettingSteps()
    ensures StepsOk(UpToAdmission()) && StepsOk(UpToStart()) && StepsOk(UpToSuccess()) && StepsOk(ForgettingRun())
  {
    assert IsUid(UID);
  }

  /** The run forgets the start of its only test, and leaves it in the store. */
  lemma ForgettingRunKeepsTheStart()
    ensures StepsOk(ForgettingRun()) && StoreOk(Run(ForgettingRun()))
    ensures Run(ForgettingRun()).starts == [] && StartKey(0) in Run(ForgettingRun()).store
  {
    hide RunOk, Run, CompleteCollections, Resolve, WriteBackOk, StepOk, StoreOk, StartKey, UpdateKey, Deletions, Dropped,
      Holds;
    ForgettingSteps();
    AfterSuccess();
    StartIsPending();
    var db := Run(UpToSuccess());
    var s := Ending(AN_HOUR).settling;
    EndForgets(db, s.endDelay);
    CompleteCollectionsCoheres(db, s.endDelay, s.cleanupDelay);
    var c := CompleteCollections(db, s.endDelay, s.cleanupDelay);
    CollectDrops(c, {});
    assert {} * c.collections.Keys == {};
    NothingIsDropped(c);
    RemovedStartStaysExactlyWhen(c, Collect(c, {}), {}, 0);
    ResolveKeepsMemory(Collect(c, {}));
    RunSnoc(UpToSuccess(), Ending(AN_HOUR));
    StoreIsOkAfterProcess(ForgettingRun());
    assert Millis(0) == 0 && AddPending(Collect(c, {}).dirty, 0);
  }

  lemma NothingIsDropped(c: Database)
    ensures Collect(c, {}).dirty == c.dirty && Collect(c, {}).starts == c.starts
  {
    assert Deletions({} * c.collections.Keys) == map[];
  }

  // ---- A Process that does not end ----

  function Refusal(): nat -> nat -> Visit {
    k => at => Visit(Cluster([], Ingest(), attempt => NO), 0)
  }

  /** One KoupletTest has been submitted and admitted, when it is replaced by another one of the same name: the next
      Process never comes to a round without a change. */
  lemma ReplacedTestGoesOnForEver(n: nat)
    ensures StepsOk(UpToAdmission()) && Ready(Run(UpToAdmission()))
    ensures Busy(Run(UpToAdmission()), Refusal(), n) && Fruitless(Run(UpToAdmission()), Refusal(), n) == n
  {
    hide Run, DatabaseOk, Busy, Fruitless, StepOk;
    ForgettingSteps();
    AfterAdmission();
    EveryRunIsOk(UpToAdmission());
    var db := Run(UpToAdmission());
    assert CanStartMore(db.starts, db.clock, KUBE) && ActiveLimit(KUBE) > 0;
    assert Ready(db);
    assert forall k :: Refusing(Refusal()(k)(0), UID);
    ProcessCanGoOnForEver(db, Refusal(), n);
  }
}
