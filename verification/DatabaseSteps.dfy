/** The steps of the KoupletTest database, as functions on values: submitting a collection, one round of
    processing, settling what the rounds left, and the two scheduled clean-up tasks. */
module DatabaseSteps {
  import opened Prelude
  import opened Text
  import opened TestModel
  import opened CollectionSteps
  import opened Keys

  // ---- Stored values ----

  datatype CollectionJson = CollectionJson(
    parentBucket: string, kubeNamespace: string, kubeName: string, kubeUid: string,
    nextTestEntryId: int, uid: string, status: string,
    dateSubmitted: int, startTime: Option<int>, endTime: Option<int>)

  datatype EntryJson = EntryJson(
    parentBucket: string, id: int, retryFromId: Option<int>, status: string,
    cluster: Option<ClusterResource>, processed: bool)

  datatype Stored =
    | StoredCollection(collection: CollectionJson)
    | StoredEntry(entry: EntryJson)
    | StoredResult(result: TestResult)
    | StoredSpec(spec: TestSpec)
    | StoredNothing

  /** generateJSONTestCollection */
  function ToCollectionJson(c: Collection): CollectionJson {
    CollectionJson(
      CollectionBucketName(c.bucket), c.kube.namespace, c.kube.name, c.kube.uid,
      c.nextId, c.uid, CollectionStatusName(c.status), c.dateSubmitted, c.startTime, c.endTime)
  }

  /** generateJSONTestEntryShallow */
  function ToEntryJson(e: Entry): EntryJson {
    EntryJson(EntryBucketName(e.bucket), e.id, e.retryFrom, EntryStatusName(e.status), e.cluster, e.processed)
  }

  // ---- The database ----

  /** The three collection lists hold UIDs. `starts` is the list of remembered start times, `history` every
      start there has been and `submitted` every collection that was created, in order. */
  datatype Database = Database(
    collections: map<string, Collection>,
    waiting: seq<string>,
    running: seq<string>,
    completed: seq<string>,
    starts: seq<int>,
    clock: int,
    dirty: map<string, Mark>,
    store: map<string, Stored>,
    history: seq<Start>,
    submitted: seq<string>)

  const EMPTY_DATABASE := Database(map[], [], [], [], [], 0, map[], map[], [], [])

  // ---- Pending writes ----

  /** putEntry */
  function Put(dirty: map<string, Mark>, m: Mark): map<string, Mark> {
    dirty[UpdateKey(m) := m]
  }

  function PutAll(dirty: map<string, Mark>, marks: seq<Mark>): map<string, Mark> {
    if marks == [] then dirty else Put(PutAll(dirty, marks[..|marks| - 1]), marks[|marks| - 1])
  }

  /** The collections whose deletion is pending. */
  ghost predicate Doomed(dirty: map<string, Mark>, uid: string) {
    exists k :: k in dirty && dirty[k] == DeleteCollection(uid)
  }

  /** The value that a pending update would write, if what it is about still exists. */
  function Fresh(collections: map<string, Collection>, m: Mark): Option<Stored> {
    match m
    case AddStart(_) => Some(StoredNothing)
    case RemoveStart(_) => None
    case DeleteCollection(_) => None
    case CollectionShallow(uid) =>
      if uid in collections then Some(StoredCollection(ToCollectionJson(collections[uid]))) else None
    case EntryShallow(uid, id) =>
      if uid in collections && id in collections[uid].entries
      then Some(StoredEntry(ToEntryJson(collections[uid].entries[id]))) else None
    case EntryResult(uid, id) =>
      if uid in collections && id in collections[uid].entries && collections[uid].entries[id].result.Some?
      then Some(StoredResult(collections[uid].entries[id].result.value)) else None
    case EntrySpec(uid, id) =>
      if uid in collections && id in collections[uid].entries
      then Some(StoredSpec(collections[uid].entries[id].spec)) else None
  }

  /** Whether resolving writes the record at key `k` of the pending writes. */
  ghost predicate IsWritten(db: Database, k: string) {
    && k in db.dirty
    && Fresh(db.collections, db.dirty[k]).Some?
    && (HasUid(db.dirty[k]) ==> !Doomed(db.dirty, db.dirty[k].uid))
  }

  ghost predicate IsRemoved(db: Database, key: string) {
    || (exists k :: k in db.dirty && db.dirty[k].RemoveStart? && key == StoreKey(db.dirty[k]))
    || (exists uid :: Doomed(db.dirty, uid) && BelongsTo(key, uid))
  }

  ghost function WrittenKeys(db: Database): set<string> {
    set k | k in db.dirty && IsWritten(db, k) :: StoreKey(db.dirty[k])
  }

  ghost function WrittenValue(db: Database, key: string): Stored
    requires key in WrittenKeys(db)
  {
    var k :| IsWritten(db, k) && StoreKey(db.dirty[k]) == key;
    Fresh(db.collections, db.dirty[k]).value
  }

  /** resolve: bring the store up to date and forget the pending writes. Deletions come first. */
  ghost function Resolve(db: Database): Database {
    var kept := map key | key in db.store && !IsRemoved(db, key) :: db.store[key];
    var written := map key | key in WrittenKeys(db) :: WrittenValue(db, key);
    db.(store := kept + written, dirty := map[])
  }

  // ---- Submitting ----

  /** GetOrCreateCollection */
  ghost function Submit(db: Database, kube: KubeTest, delay: nat): Database {
    if kube.uid in db.collections then db
    else
      var now := db.clock + delay;
      Resolve(Enlist(db, WithTests(kube, now, |kube.tests|), now, CreationMarks(kube.uid, |kube.tests|)))
  }

  /** A new collection joins the end of the waiting list. */
  function Enlist(db: Database, c: Collection, now: int, marks: seq<Mark>): Database {
    db.(collections := db.collections[c.uid := c],
        waiting := db.waiting + [c.uid],
        clock := now,
        dirty := PutAll(db.dirty, marks),
        submitted := db.submitted + [c.uid])
  }

  // ---- One round ----

  function Times(begun: seq<Start>): (r: seq<int>)
    ensures |r| == |begun|
  {
    seq(|begun|, i requires 0 <= i < |begun| => begun[i].time)
  }

  lemma TimesSnoc(history: seq<Start>, s: Start)
    ensures Times(history + [s]) == Times(history) + [s.time]
  {
  }

  lemma TimesAppend(a: seq<Start>, b: seq<Start>)
    ensures Times(a + b) == Times(a) + Times(b)
    ensures forall t :: t in Times(a + b) <==> t in Times(a) || t in Times(b)
  {
  }

  /** The database after one of its collections has been processed. */
  function Absorb(db: Database, uid: string, o: Outcome): Database {
    db.(collections := db.collections[uid := o.coll],
        clock := o.clock,
        starts := db.starts + Times(o.begun),
        history := db.history + o.begun,
        dirty := PutAll(db.dirty, o.marks))
  }

  /** Replace a collection, at time `now`, and record that its own fields changed. */
  function Rewrite(db: Database, c: Collection, now: int): Database {
    db.(collections := db.collections[c.uid := c], clock := now,
        dirty := Put(db.dirty, CollectionShallow(c.uid)))
  }

  /** What the cluster answers while the collection at one position is processed. */
  datatype Visit = Visit(cluster: Cluster, primaryDelay: nat)

  /** A round: the database after it, the collection that changed, and how it changed. */
  datatype RoundResult = RoundResult(db: Database, updated: Option<string>, begun: nat, refused: bool)

  /** The first collection in the running list gets its start time when it is first seen there. */
  function MarkPrimary(db: Database, uid: string, delay: nat): Database
    requires uid in db.collections
  {
    if db.collections[uid].startTime.Some? then db
    else
      var now := db.clock + delay;
      Rewrite(db, db.collections[uid].(startTime := Some(Millis(now))), now)
  }

  /** The database after the collection `uid` has been visited with outcome `o`. */
  function AfterVisit(db: Database, uid: string, o: Outcome, first: bool, delay: nat): (r: Database)
    ensures r.running == db.running && r.waiting == db.waiting && r.submitted == db.submitted
  {
    var d := Absorb(db, uid, o);
    if first then MarkPrimary(d, uid, delay) else d
  }

  /** Move the first waiting collection to the running list. */
  function Admit(db: Database): Database
    requires db.waiting != [] && db.waiting[0] in db.collections
  {
    var uid := db.waiting[0];
    var c := db.collections[uid].(status := CollectionRunning, bucket := RunningBucket);
    Rewrite(db.(waiting := db.waiting[1..], running := db.running + [uid]), c, db.clock)
  }

  /** The loop of subProcess from position `at` on; `inQueue` counts the tests that still wait in the
      collections before it. */
  function RoundFrom(db: Database, visits: nat -> Visit, at: nat, inQueue: nat): RoundResult
    decreases |db.running| - at
  {
    if at >= |db.running| then
      if inQueue == 0 && db.waiting != [] && db.waiting[0] in db.collections then
        RoundResult(Admit(db), Some(db.waiting[0]), 0, false)
      else RoundResult(db, None, 0, false)
    else if db.running[at] !in db.collections then RoundResult(db, None, 0, false)
    else
      var uid := db.running[at];
      var o := ProcessCollection(db.collections[uid], db.clock, db.starts, visits(at).cluster);
      var d := AfterVisit(db, uid, o, at == 0, visits(at).primaryDelay);
      if o.changed then RoundResult(d, Some(uid), |o.begun|, o.refused)
      else RoundFrom(d, visits, at + 1, inQueue + |o.coll.queued| + |o.coll.retry|)
  }

  /** subProcess */
  function Round(db: Database, visits: nat -> Visit): RoundResult {
    RoundFrom(db, visits, 0, 0)
  }

  // ---- Settling ----

  /** What the rest of Process meets: the time that passes before each completion is recorded and before
      old start times are dropped, and the collections whose KoupletTest is gone. */
  datatype Settling = Settling(endDelay: nat -> nat, cleanupDelay: nat, gone: set<string>)

  /** A running collection that has nothing left to do is marked complete. */
  function MarkIfComplete(d: Database, uid: string, delay: nat): Database {
    if uid !in d.collections || !IsComplete(d.collections[uid]) then d
    else
      var now := d.clock + delay;
      Rewrite(
        d.(completed := d.completed + [uid]),
        d.collections[uid].(bucket := CompletedBucket, status := CollectionComplete, endTime := Some(Millis(now))),
        now)
  }

  /** The complete collections among the first `n` running ones are marked complete. */
  function MarkComplete(db: Database, endDelay: nat -> nat, n: nat): Database
    requires n <= |db.running|
  {
    if n == 0 then db
    else MarkIfComplete(MarkComplete(db, endDelay, n - 1), db.running[n - 1], endDelay(n - 1))
  }

  predicate StillRunning(db: Database, uid: string) {
    uid in db.collections && !IsComplete(db.collections[uid])
  }

  const SECONDS_REMEMBERED := 3600

  function RemovalMarks(times: seq<int>): seq<Mark> {
    seq(|times|, i requires 0 <= i < |times| => RemoveStart(times[i]))
  }

  /** cleanupOldTestStartTimes */
  function ForgetOldStarts(db: Database, delay: nat): Database {
    var now := db.clock + delay;
    var before := now - SECONDS_REMEMBERED * NANOS_PER_SECOND;
    db.(clock := now,
        starts := Recent(db.starts, before),
        dirty := PutAll(db.dirty, RemovalMarks(Filter(db.starts, t => t <= before))))
  }

  function Recent(starts: seq<int>, before: int): (r: seq<int>)
    ensures |r| <= |starts|
  {
    Filter(starts, t => t > before)
  }

  function StillRunningList(db: Database): seq<string> {
    Filter(db.running, uid => StillRunning(db, uid))
  }

  /** The completed collections leave the running list. */
  function CompleteCollections(db: Database, endDelay: nat -> nat, cleanupDelay: nat): Database {
    var d := MarkComplete(db, endDelay, |db.running|).(running := StillRunningList(db));
    if |d.running| < |db.running| then ForgetOldStarts(d, cleanupDelay) else d
  }

  /** The list without the collections that are gone. */
  function Without(uids: seq<string>, gone: set<string>): seq<string> {
    Filter(uids, uid => uid !in gone)
  }

  /** cleanupOldTestCollections */
  function Collect(db: Database, gone: set<string>): Database {
    var g := gone * db.collections.Keys;
    db.(collections := map uid | uid in db.collections && uid !in g :: db.collections[uid],
        waiting := Without(db.waiting, g),
        running := Without(db.running, g),
        completed := Without(db.completed, g),
        dirty := db.dirty + Deletions(g))
  }

  /** The pending deletions of some collections, under their keys. */
  function Deletions(gone: set<string>): (r: map<string, Mark>)
    ensures forall k :: k in r ==> r[k].DeleteCollection? && r[k].uid in gone && k == UpdateKey(r[k])
    ensures forall u :: u in gone ==> UpdateKey(DeleteCollection(u)) in r
  {
    DeletionKeysDiffer();
    map uid | uid in gone :: UpdateKey(DeleteCollection(uid)) := DeleteCollection(uid)
  }

  lemma DeletionKeysDiffer()
    ensures forall u, v :: UpdateKey(DeleteCollection(u)) == UpdateKey(DeleteCollection(v)) ==> u == v
  {
    forall u, v | UpdateKey(DeleteCollection(u)) == UpdateKey(DeleteCollection(v))
      ensures u == v
    {
      var k, l := UpdateKey(DeleteCollection(u)), UpdateKey(DeleteCollection(v));
      assert k[2..|k| - 3] == u && l[2..|l| - 3] == v;
    }
  }

  /** The part of Process after its rounds. */
  ghost function Settle(db: Database, s: Settling): Database {
    Resolve(Collect(CompleteCollections(db, s.endDelay, s.cleanupDelay), s.gone))
  }

  // ---- Scheduled tasks ----

  const SECONDS_BEFORE_SWEEP := 120

  /** One turn of the loop of cleanupOldJobs. */
  function SweepJob(db: Database, job: Job): Database {
    if job.collection.None? || job.entry.None? then db
    else
      var uid, id := job.collection.value, job.entry.value;
      if uid !in db.collections || id !in db.collections[uid].entries then db
      else
        var now := db.clock + job.delay;
        var c := db.collections[uid];
        if job.completionTime.None? || job.completionTime.value >= now - SECONDS_BEFORE_SWEEP * NANOS_PER_SECOND
           || !c.entries[id].processed
        then db.(clock := now)
        else
          db.(collections := db.collections[uid := WithEntry(c, id, c.entries[id].(cluster := None))],
              clock := now,
              dirty := Put(db.dirty, EntryShallow(uid, id)))
  }

  /** cleanupOldJobs */
  function Sweep(db: Database, jobs: seq<Job>): Database {
    if jobs == [] then db else SweepJob(Sweep(db, jobs[..|jobs| - 1]), jobs[|jobs| - 1])
  }

  /** taskRemoveOldDatabaseKeys */
  function DropOldKeys(db: Database): Database {
    db.(store := map key | key in db.store && KeyIsLive(db, key) :: db.store[key])
  }

  predicate KeyIsLive(db: Database, key: string) {
    COLLECTION <= key ==> exists uid | uid in db.collections :: Contains(key, uid)
  }

  // ---- Runs ----

  datatype Step =
    | Submitting(kube: KubeTest, delay: nat)
    | Processing(visits: nat -> Visit)
    | Settlement(settling: Settling)
    | Sweeping(jobs: seq<Job>)
    | DroppingOldKeys

  /** What Kubernetes guarantees about the objects it hands out. */
  ghost predicate StepOk(s: Step) {
    s.Submitting? ==> IsUid(s.kube.uid)
  }

  ghost function Next(db: Database, s: Step): Database {
    match s
    case Submitting(kube, delay) => Submit(db, kube, delay)
    case Processing(visits) => Round(db, visits).db
    case Settlement(settling) => Settle(db, settling)
    case Sweeping(jobs) => Sweep(db, jobs)
    case DroppingOldKeys => DropOldKeys(db)
  }

  ghost predicate StepsOk(steps: seq<Step>) {
    forall i :: 0 <= i < |steps| ==> StepOk(steps[i])
  }

  /** The state after a run from the empty database. */
  ghost function Run(steps: seq<Step>): Database {
    if steps == [] then EMPTY_DATABASE else Next(Run(steps[..|steps| - 1]), steps[|steps| - 1])
  }
}
