/** The entities of the KoupletTest operator, and what the cluster can answer to it.
    Times are nanoseconds since the epoch unless a name says otherwise. */
module TestModel {
  import opened Prelude
  import opened Text

  // ---- Kubernetes objects ----

  datatype NameValue = NameValue(name: string, value: string)

  /** One entry of `spec.tests`. */
  datatype TestSpec = TestSpec(
    timeout: Option<int>, env: seq<NameValue>, values: seq<NameValue>, labels: seq<NameValue>)

  /** The parts of a KoupletTest object that the operator's decisions depend on. */
  datatype KubeTest = KubeTest(
    namespace: string, name: string, uid: string,
    tests: seq<TestSpec>,
    numberOfNodes: Option<int>,
    maxActiveTests: Option<int>,
    minimumTimeBetweenTestRuns: Option<int>,
    failureRetries: Option<int>,
    defaultTestExpireTime: Option<int>,
    objectStorage: bool)

  datatype ClusterResource = ClusterResource(namespace: string, jobName: string)

  datatype TestResult = TestResult(
    id: int, test: seq<NameValue>, status: string,
    percent: Option<int>, numTests: Option<int>, numErrors: Option<int>, numFailures: Option<int>,
    testTime: Option<int>, labels: seq<NameValue>,
    result: Option<string>, log: Option<string>,
    retryFrom: Option<int>, cluster: Option<ClusterResource>)

  /** A Kubernetes UID is a 36 character UUID in hexadecimal digits and hyphens. */
  predicate IsUid(s: string) {
    |s| == 36 && forall i :: 0 <= i < |s| ==> s[i] == '-' || '0' <= s[i] <= '9' || 'a' <= s[i] <= 'f'
  }

  // ---- The operator's own records ----

  datatype EntryStatus = EntryWaiting | EntryRunning | EntryComplete | EntryExpired

  datatype EntryBucket = InQueued | InRunning | InCompleted | InRetry

  datatype CollectionStatus = CollectionWaiting | CollectionRunning | CollectionComplete

  datatype CollectionBucket = WaitingBucket | RunningBucket | CompletedBucket

  datatype Entry = Entry(
    id: int,
    retryFrom: Option<int>,
    status: EntryStatus,
    result: Option<TestResult>,
    spec: TestSpec,
    cluster: Option<ClusterResource>,
    processed: bool,
    bucket: EntryBucket)

  /** A test collection. The four buckets list entry ids, `entries` holds the entries themselves. */
  datatype Collection = Collection(
    kube: KubeTest,
    queued: seq<int>,
    running: seq<int>,
    completed: seq<int>,
    retry: seq<int>,
    entries: map<int, Entry>,
    nextId: int,
    uid: string,
    status: CollectionStatus,
    dateSubmitted: int,
    startTime: Option<int>,
    endTime: Option<int>,
    bucket: CollectionBucket)

  function EntryStatusName(s: EntryStatus): string {
    match s
    case EntryWaiting => "Waiting"
    case EntryRunning => "Running"
    case EntryComplete => "Complete"
    case EntryExpired => "Expired"
  }

  function EntryBucketName(b: EntryBucket): string {
    match b
    case InQueued => "Queued"
    case InRunning => "Running"
    case InCompleted => "Completed"
    case InRetry => "Retry"
  }

  function CollectionStatusName(s: CollectionStatus): string {
    match s
    case CollectionWaiting => "Waiting"
    case CollectionRunning => "Running"
    case CollectionComplete => "Complete"
  }

  function CollectionBucketName(b: CollectionBucket): string {
    match b
    case WaitingBucket => "Waiting"
    case RunningBucket => "Running"
    case CompletedBucket => "Completed"
  }

  // ---- Settings, with the defaults of a spec that leaves them out ----

  const DEFAULT_TESTS_TO_RUN := 3
  const DEFAULT_EXPIRE_TIME_IN_SECONDS := 3600
  const DEFAULT_TEST_RETRIES := 2
  const DEFAULT_TIME_BETWEEN_TEST_RUNS_IN_SECONDS := 120
  const DEFAULT_NUMBER_OF_NODES := 1

  function Nodes(kube: KubeTest): (n: int)
    ensures n > 0
  {
    if kube.numberOfNodes.Some? && kube.numberOfNodes.value > 0 then kube.numberOfNodes.value
    else DEFAULT_NUMBER_OF_NODES
  }

  /** How many of a collection's jobs may be uncompleted at once. */
  function ActiveLimit(kube: KubeTest): int {
    GetOr(kube.maxActiveTests, DEFAULT_TESTS_TO_RUN) * Nodes(kube)
  }

  function PeriodSeconds(kube: KubeTest): int {
    GetOr(kube.minimumTimeBetweenTestRuns, DEFAULT_TIME_BETWEEN_TEST_RUNS_IN_SECONDS)
  }

  function FailureRetries(kube: KubeTest): int {
    GetOr(kube.failureRetries, DEFAULT_TEST_RETRIES)
  }

  /** The depth of the last retry a test can have. */
  function RetryLimit(kube: KubeTest): nat {
    Max(0, FailureRetries(kube))
  }

  // ---- What the cluster answers ----

  /** The totals of a parsed JUnit suite. */
  datatype Totals = Totals(tests: nat, failed: nat, errors: nat, durationMillis: int)

  /** One item of the job list. `entry` is the entry-id label, when it is there and is an integer.
      `podLog` is the log of the job's pod, when it can be fetched. `delay` is the time that passes
      before the clock is read for this job. */
  datatype Job = Job(
    name: string,
    collection: Option<string>,
    entry: Option<int>,
    startTime: Option<int>,
    completionTime: Option<int>,
    podLog: Option<string>,
    podLogObject: string,
    junitObject: string,
    delay: nat)

  /** What happens around one attempt to start a test: the time that passes before the rate
      check, the UID of the KoupletTest that is fetched by name (if there is one), whether the owner
      reference can be set and the job created, the names the job gets, and the time that passes
      before the start is recorded. */
  datatype Answer = Answer(
    checkDelay: nat,
    instance: Option<string>,
    referenced: bool,
    created: bool,
    jobNamespace: string,
    jobName: string,
    startDelay: nat)

  predicate Accepted(answer: Answer, uid: string) {
    answer.instance == Some(uid) && answer.referenced && answer.created
  }

  /** What one collection sees when it is processed: the job and pod lists (or an error),
      the JUnit library's reading of an XML text, and the answers to the attempts in order. */
  datatype Cluster =
    | ListFailed
    | Cluster(jobs: seq<Job>, ingest: string -> seq<Totals>, answers: nat -> Answer)

  predicate IsKoupletJob(job: Job, uid: string) {
    job.collection == Some(uid) && job.entry.Some?
  }

  /** getKoupletJobs */
  function KoupletJobs(jobs: seq<Job>, uid: string): (r: seq<Job>)
    ensures forall job :: job in r <==> job in jobs && IsKoupletJob(job, uid)
  {
    Filter(jobs, (job: Job) => IsKoupletJob(job, uid))
  }

  // ---- Records of pending writes ----

  /** A persistence entry: what has changed since the store was last brought up to date. */
  datatype Mark =
    | AddStart(time: int)
    | RemoveStart(time: int)
    | CollectionShallow(uid: string)
    | EntryShallow(uid: string, id: int)
    | EntryResult(uid: string, id: int)
    | EntrySpec(uid: string, id: int)
    | DeleteCollection(uid: string)

  /** The record that a test was started: when, and under which limit (`nodes` per `period` seconds). */
  datatype Start = Start(time: int, nodes: int, period: int)
}
