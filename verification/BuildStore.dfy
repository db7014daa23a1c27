/** How builds are stored: their JSON records, in which times are whole milliseconds, and their keys. */
module BuildStore {
  import opened Prelude
  import opened Text
  import opened BuildSteps

  // ---- Times ----

  const MAX_MILLIS := 9223372036854

  /** convertTime */
  function ToMillis(t: int): int {
    GoDiv(Wrap64(t), NANOS_PER_MILLI)
  }

  /** convertInt64ToTime: seconds and remaining nanoseconds are computed apart, and put together by time.Unix. */
  function FromMillis(millis: int): int {
    var inNanos := Wrap64(millis * NANOS_PER_MILLI);
    var inSeconds := GoDiv(GoDiv(inNanos, NANOS_PER_MILLI), 1000);
    var remainingNanos := inNanos - inSeconds * NANOS_PER_MILLI * 1000;
    inSeconds * NANOS_PER_SECOND + remainingNanos
  }

  lemma FromMillisIs(millis: int)
    ensures FromMillis(millis) == Wrap64(millis * NANOS_PER_MILLI)
  {
  }

  /** A stored time survives being read and written again exactly when it does not overflow. */
  lemma MillisRoundTrip(millis: int)
    ensures ToMillis(FromMillis(millis)) == millis <==> -MAX_MILLIS <= millis <= MAX_MILLIS
  {
    FromMillisIs(millis);
    if -MAX_MILLIS <= millis <= MAX_MILLIS {
      GoDivOf(millis, NANOS_PER_MILLI);
    } else {
      MillisAreBounded(Wrap64(millis * NANOS_PER_MILLI));
    }
  }

  lemma MillisAreBounded(t: int)
    ensures -MAX_MILLIS <= ToMillis(t) <= MAX_MILLIS
  {
    var q := ToMillis(t);
    if q > MAX_MILLIS {
      MulMonotone(MAX_MILLIS + 1, q, NANOS_PER_MILLI);
    } else if q < -MAX_MILLIS {
      MulMonotone(q, -MAX_MILLIS - 1, NANOS_PER_MILLI);
    }
  }

  /** The time with what is below a millisecond cut off. */
  function Truncated(t: int): int {
    GoDiv(t, NANOS_PER_MILLI) * NANOS_PER_MILLI
  }

  /** A time that is written and read again is the time cut off to the millisecond. */
  lemma TimeRoundTrip(t: int)
    requires -TWO_TO_THE_63 <= t < TWO_TO_THE_63
    ensures FromMillis(ToMillis(t)) == Truncated(t)
  {
    MillisAreBounded(t);
    FromMillisIs(ToMillis(t));
  }

  lemma TruncatedTwice(t: int)
    ensures Truncated(Truncated(t)) == Truncated(t)
  {
    GoDivOf(GoDiv(t, NANOS_PER_MILLI), NANOS_PER_MILLI);
  }

  lemma TruncatedMonotone(s: int, t: int)
    requires s <= t
    ensures Truncated(s) <= Truncated(t)
  {
    var p, q := GoDiv(s, NANOS_PER_MILLI), GoDiv(t, NANOS_PER_MILLI);
    if q < p {
      MulMonotone(q + 1, p, NANOS_PER_MILLI);
    }
  }

  // ---- Records ----

  datatype AttemptJson = AttemptJson(
    jobName: string, jobUid: string, queueTime: int,
    startTime: Option<int>, completionTime: Option<int>, succeeded: Option<bool>)

  datatype BuildJson = BuildJson(
    name: string, uid: string, state: string, success: Option<bool>,
    active: seq<AttemptJson>, completed: seq<AttemptJson>,
    creationTime: int, startTime: Option<int>, completionTime: Option<int>)

  function StateName(s: BuildState): string {
    match s
    case BuildWaiting => "Waiting"
    case BuildRunning => "Running"
    case BuildCompleted => "Completed"
    case BuildExpired => "Expired"
  }

  /** convertStringToBuildStatusState */
  function StateOf(name: string): Option<BuildState> {
    if name == "Waiting" then Some(BuildWaiting)
    else if name == "Running" then Some(BuildRunning)
    else if name == "Completed" then Some(BuildCompleted)
    else if name == "Expired" then Some(BuildExpired)
    else None
  }

  function MapOption(o: Option<int>, f: int -> int): Option<int> {
    if o.Some? then Some(f(o.value)) else None
  }

  function AttemptToJson(a: Attempt): AttemptJson {
    AttemptJson(a.jobName, a.jobUid, ToMillis(a.queueTime),
                MapOption(a.startTime, ToMillis), MapOption(a.completionTime, ToMillis), a.succeeded)
  }

  function AttemptOfJson(j: AttemptJson): Attempt {
    Attempt(j.jobName, j.jobUid, FromMillis(j.queueTime),
            MapOption(j.startTime, FromMillis), MapOption(j.completionTime, FromMillis), j.succeeded)
  }

  function AttemptsToJson(s: seq<Attempt>): seq<AttemptJson> {
    seq(|s|, i requires 0 <= i < |s| => AttemptToJson(s[i]))
  }

  function AttemptsOfJson(s: seq<AttemptJson>): seq<Attempt> {
    seq(|s|, i requires 0 <= i < |s| => AttemptOfJson(s[i]))
  }

  /** convertBuildStatusToJSON */
  function ToJson(b: Build): BuildJson {
    BuildJson(b.name, b.uid, StateName(b.state), b.success, AttemptsToJson(b.active), AttemptsToJson(b.completed),
              ToMillis(b.creationTime), MapOption(b.startTime, ToMillis), MapOption(b.completionTime, ToMillis))
  }

  /** What fetching the KoupletBuild by the stored name gives: the object (its name is the stored name, its
      UID need not be), that there is none, or another error. */
  datatype Fetched = FetchFailed | NotFound | Found(kubeName: string)

  /** What becomes of a stored record: a build, nothing but the removal of the record, or, when its state is
      unknown or its object could not be fetched, an entry without a build. */
  datatype Loaded = LoadedBuild(build: Build) | LoadedNothing | LoadedNil

  /** convertJSONToBuildStatus */
  function OfJson(j: BuildJson, fetched: Fetched): Loaded {
    if StateOf(j.state).None? then LoadedNil
    else
      match fetched
      case NotFound => LoadedNothing
      case FetchFailed => LoadedNil
      case Found(kubeName) =>
        LoadedBuild(Build(
          j.name, j.uid, kubeName, StateOf(j.state).value, j.success,
          AttemptsOfJson(j.active), AttemptsOfJson(j.completed),
          FromMillis(j.creationTime), MapOption(j.startTime, FromMillis), MapOption(j.completionTime, FromMillis)))
  }

  // ---- Round trips ----

  predicate MillisOk(o: Option<int>) {
    o.Some? ==> -MAX_MILLIS <= o.value <= MAX_MILLIS
  }

  predicate AttemptMillisOk(j: AttemptJson) {
    -MAX_MILLIS <= j.queueTime <= MAX_MILLIS && MillisOk(j.startTime) && MillisOk(j.completionTime)
  }

  predicate JsonMillisOk(j: BuildJson) {
    && -MAX_MILLIS <= j.creationTime <= MAX_MILLIS && MillisOk(j.startTime) && MillisOk(j.completionTime)
    && (forall a :: a in j.active ==> AttemptMillisOk(a))
    && (forall a :: a in j.completed ==> AttemptMillisOk(a))
  }

  lemma OptionRoundTrip(o: Option<int>)
    ensures MapOption(MapOption(o, FromMillis), ToMillis) == o <==> MillisOk(o)
  {
    if o.Some? {
      MillisRoundTrip(o.value);
    }
  }

  lemma AttemptJsonRoundTrip(j: AttemptJson)
    ensures AttemptToJson(AttemptOfJson(j)) == j <==> AttemptMillisOk(j)
  {
    MillisRoundTrip(j.queueTime);
    OptionRoundTrip(j.startTime);
    OptionRoundTrip(j.completionTime);
  }

  lemma AttemptsJsonRoundTrip(s: seq<AttemptJson>)
    ensures AttemptsToJson(AttemptsOfJson(s)) == s <==> forall a :: a in s ==> AttemptMillisOk(a)
  {
    hide AttemptToJson, AttemptOfJson, AttemptMillisOk;
    var t := AttemptsToJson(AttemptsOfJson(s));
    forall i | 0 <= i < |s|
      ensures t[i] == s[i] <==> AttemptMillisOk(s[i])
    {
      AttemptJsonRoundTrip(s[i]);
    }
    if t == s {
      forall a | a in s
        ensures AttemptMillisOk(a)
      {
        var i :| 0 <= i < |s| && s[i] == a;
      }
    }
  }

  /** A record with a known state survives being read and written again exactly when none of its times overflows. */
  lemma JsonRoundTrip(j: BuildJson, kubeName: string)
    requires StateOf(j.state).Some?
    ensures OfJson(j, Found(kubeName)).LoadedBuild?
    ensures ToJson(OfJson(j, Found(kubeName)).build) == j <==> JsonMillisOk(j)
  {
    hide AttemptsToJson, AttemptsOfJson, FromMillis, ToMillis, AttemptMillisOk;
    MillisRoundTrip(j.creationTime);
    OptionRoundTrip(j.startTime);
    OptionRoundTrip(j.completionTime);
    AttemptsJsonRoundTrip(j.active);
    AttemptsJsonRoundTrip(j.completed);
  }

  predicate InRange(t: int) {
    -TWO_TO_THE_63 <= t < TWO_TO_THE_63
  }

  predicate OptionInRange(o: Option<int>) {
    o.Some? ==> InRange(o.value)
  }

  predicate AttemptInRange(a: Attempt) {
    InRange(a.queueTime) && OptionInRange(a.startTime) && OptionInRange(a.completionTime)
  }

  predicate BuildInRange(b: Build) {
    && InRange(b.creationTime) && OptionInRange(b.startTime) && OptionInRange(b.completionTime)
    && (forall a :: a in b.active ==> AttemptInRange(a))
    && (forall a :: a in b.completed ==> AttemptInRange(a))
  }

  function CutAttempt(a: Attempt): Attempt {
    a.(queueTime := Truncated(a.queueTime),
       startTime := MapOption(a.startTime, Truncated),
       completionTime := MapOption(a.completionTime, Truncated))
  }

  function CutAttempts(s: seq<Attempt>): seq<Attempt> {
    seq(|s|, i requires 0 <= i < |s| => CutAttempt(s[i]))
  }

  /** The build with every time cut off to the millisecond. */
  function Cut(b: Build): Build {
    b.(creationTime := Truncated(b.creationTime),
       startTime := MapOption(b.startTime, Truncated),
       completionTime := MapOption(b.completionTime, Truncated),
       active := CutAttempts(b.active),
       completed := CutAttempts(b.completed))
  }

  lemma OptionTimeRoundTrip(o: Option<int>)
    requires OptionInRange(o)
    ensures MapOption(MapOption(o, ToMillis), FromMillis) == MapOption(o, Truncated)
  {
    if o.Some? {
      TimeRoundTrip(o.value);
    }
  }

  lemma AttemptRoundTrip(a: Attempt)
    requires AttemptInRange(a)
    ensures AttemptOfJson(AttemptToJson(a)) == CutAttempt(a)
  {
    hide ToMillis, FromMillis, Truncated;
    TimeRoundTrip(a.queueTime);
    OptionTimeRoundTrip(a.startTime);
    OptionTimeRoundTrip(a.completionTime);
  }

  lemma AttemptsRoundTrip(s: seq<Attempt>)
    requires forall a :: a in s ==> AttemptInRange(a)
    ensures AttemptsOfJson(AttemptsToJson(s)) == CutAttempts(s)
  {
    hide AttemptToJson, AttemptOfJson, CutAttempt, AttemptInRange;
    forall i | 0 <= i < |s|
      ensures AttemptOfJson(AttemptToJson(s[i])) == CutAttempt(s[i])
    {
      AttemptRoundTrip(s[i]);
    }
  }

  /** A build that is written and read again, while its object still exists, is the same but for what its
      times have below a millisecond. */
  lemma BuildRoundTrip(b: Build)
    requires BuildInRange(b)
    ensures OfJson(ToJson(b), Found(b.kubeName)) == LoadedBuild(Cut(b))
  {
    hide AttemptsToJson, AttemptsOfJson, FromMillis, ToMillis, AttemptInRange, Truncated;
    TimeRoundTrip(b.creationTime);
    OptionTimeRoundTrip(b.startTime);
    OptionTimeRoundTrip(b.completionTime);
    AttemptsRoundTrip(b.active);
    AttemptsRoundTrip(b.completed);
  }

  // ---- Keys ----

  const BUILD := "kouplet-build-"

  function BuildKey(name: string, uid: string): string {
    BUILD + name + "-" + uid
  }

  /** UIDs of one length make the keys of different builds different, whatever their names. */
  lemma BuildKeyInjective(name: string, uid: string, name': string, uid': string)
    requires |uid| == |uid'| && BuildKey(name, uid) == BuildKey(name', uid')
    ensures name == name' && uid == uid'
  {
    ConcatSplit(BUILD + name + "-", uid, BUILD + name' + "-", uid');
    assert (BUILD + name + "-")[..|BUILD + name|] == BUILD + name;
    assert (BUILD + name' + "-")[..|BUILD + name'|] == BUILD + name';
    ConcatCancelLeft(BUILD, name, name');
  }

  /** Two builds with these UIDs share a key, under some names. */
  ghost predicate CanCollide(uid: string, uid': string) {
    exists name, name' :: (name, uid) != (name', uid') && BuildKey(name, uid) == BuildKey(name', uid')
  }

  ghost predicate EndsIn(s: string, tail: string) {
    exists front :: s == front + tail
  }

  lemma CollisionOf(front: string, uid: string, uid': string)
    requires uid' == front + ("-" + uid)
    ensures CanCollide(uid, uid') && CanCollide(uid', uid)
  {
    var name := "a-" + front;
    assert BuildKey(name, uid) == BuildKey("a", uid') by {
      assert BuildKey("a", uid') == BUILD + "a" + "-" + (front + ("-" + uid)) == BUILD + ("a-" + front) + "-" + uid;
    }
    assert |uid| != |uid'|;
    assert (name, uid) != ("a", uid');
  }

  lemma CollisionEnds(name: string, uid: string, name': string, uid': string)
    requires BuildKey(name, uid) == BuildKey(name', uid') && |uid| < |uid'|
    ensures EndsIn(uid', "-" + uid)
  {
    var key := BuildKey(name, uid);
    var n := |uid'| - |uid| - 1;
    assert key[|key| - |uid'|..] == uid';
    assert key[|key| - |uid| - 1..] == "-" + uid;
    assert uid'[n..] == "-" + uid;
    assert uid' == uid'[..n] + ("-" + uid);
  }

  /** Exactly when UIDs are safe to append to names: neither is a hyphen and the other at the end of something. */
  lemma KeysCollideExactlyWhen(uid: string, uid': string)
    ensures CanCollide(uid, uid') <==> EndsIn(uid', "-" + uid) || EndsIn(uid, "-" + uid')
  {
    if name, name' :| (name, uid) != (name', uid') && BuildKey(name, uid) == BuildKey(name', uid') {
      if |uid| == |uid'| {
        BuildKeyInjective(name, uid, name', uid');
      } else if |uid| < |uid'| {
        CollisionEnds(name, uid, name', uid');
      } else {
        CollisionEnds(name', uid', name, uid);
      }
    }
    if front :| uid' == front + ("-" + uid) {
      CollisionOf(front, uid, uid');
    }
    if front :| uid == front + ("-" + uid') {
      CollisionOf(front, uid', uid);
    }
  }

  /** A record becomes a build exactly when its state has one of the four names and the KoupletBuild is found; the record is
      removed exactly when the state has such a name and there is no KoupletBuild. */
  lemma LoadedExactlyWhen(j: BuildJson, fetched: Fetched)
    ensures
      var known := j.state in {"Waiting", "Running", "Completed", "Expired"};
      && (OfJson(j, fetched).LoadedBuild? <==> known && fetched.Found?)
      && (OfJson(j, fetched).LoadedNothing? <==> known && fetched.NotFound?)
  {
  }
}
