/** The database of builds and its store: builds are saved when they change and rebuilt from their records. */
module BuildDatabase {
  import opened Prelude
  import opened Text
  import opened BuildSteps
  import BuildProofs
  import opened BuildStore
  import opened Builds
  import opened FileStore

  // ---- What the store holds of a build ----

  /** The stored record is the build as it is, except that a build may be stored as waiting while it already
      counts as running. */
  predicate Saved(b: Build, j: BuildJson) {
    j == ToJson(b) || (b.state == BuildRunning && j == ToJson(b.(state := BuildWaiting)))
  }

  /** Steps without a change leave a saved build saved. */
  lemma QuietStepKeepsSaved(b: Build, input: Input, max: int, j: BuildJson)
    requires BuildProofs.BuildOk(b) && AtMost(input, max)
    requires Saved(b, j) && !Step(b, input).changed
    ensures Saved(Step(b, input).build, j)
  {
    hide Step, ToJson;
    BuildProofs.StepDecreases(b, input, max);
    if b.state == BuildWaiting {
      assert b.(state := BuildRunning).(state := BuildWaiting) == b;
    }
  }

  /** The difference does not matter: from the stored state, once the KoupletBuild can be fetched, every step is the same. */
  lemma SavedActsTheSame(b: Build, input: Input)
    requires b.state == BuildRunning && input.instance.Some?
    ensures Step(b.(state := BuildWaiting), input) == Step(b, input)
  {
    BuildProofs.WaitingActsAsRunning(b.(state := BuildWaiting), input);
    assert b.(state := BuildWaiting).(state := BuildRunning) == b;
  }

  /** A restored build is one the operator could have had itself. */
  lemma CutKeepsOk(b: Build)
    requires BuildProofs.BuildOk(b)
    ensures BuildProofs.BuildOk(Cut(b))
  {
    var c := Cut(b);
    if BuildProofs.NoneSucceeded(b.completed) {
      forall a | a in c.completed
        ensures a.succeeded != Some(true)
      {
        var i :| 0 <= i < |c.completed| && c.completed[i] == a;
        assert b.completed[i] in b.completed;
      }
    }
  }

  // ---- Keys in the directory ----

  /** The file of a build is found again by its key exactly when the name of the build does not contain the suffix
      of the files. */
  lemma BuildIsListedExactlyWhen(name: string, uid: string)
    requires '.' !in uid
    ensures StripTxt(FileName(BuildKey(name, uid))) == BuildKey(name, uid) <==> !Contains(name, TXT)
  {
    StripRoundTrip(BuildKey(name, uid));
    KeyContains(name, uid);
  }

  lemma KeyContains(name: string, uid: string)
    requires '.' !in uid
    ensures Contains(BuildKey(name, uid), TXT) <==> Contains(name, TXT)
  {
    if Contains(name, TXT) {
      var i :| 0 <= i <= |name| - |TXT| && TXT <= name[i..];
      assert BuildKey(name, uid)[|BUILD| + i..] == name[i..] + "-" + uid;
    }
    if Contains(BuildKey(name, uid), TXT) {
      KeyContainsInName(name, uid);
    }
  }

  lemma KeyContainsInName(name: string, uid: string)
    requires '.' !in uid && Contains(BuildKey(name, uid), TXT)
    ensures Contains(name, TXT)
  {
    hide Contains;
    var key, n := BuildKey(name, uid), |BUILD|;
    var i := Found(key);
    assert key[i] == '.' && key[i + 1] == 't' && key[i + 2] == 'x' && key[i + 3] == 't';
    KeyCharacters(name, uid, i);
    KeyCharacters(name, uid, n + |name|);
    assert n <= i && i + 3 < n + |name|;
    assert name[i - n..][..4] == TXT;
    FoundAt(name, i - n);
  }

  lemma Found(s: string) returns (i: nat)
    requires Contains(s, TXT)
    ensures i + 4 <= |s| && s[i] == '.' && s[i + 1] == 't' && s[i + 2] == 'x' && s[i + 3] == 't'
  {
    var k :| 0 <= k <= |s| - |TXT| && TXT <= s[k..];
    assert s[k..][0] == '.' && s[k..][1] == 't' && s[k..][2] == 'x' && s[k..][3] == 't';
    i := k;
  }

  lemma FoundAt(s: string, i: nat)
    requires i + 4 <= |s| && TXT <= s[i..]
    ensures Contains(s, TXT)
  {
  }

  lemma KeyCharacters(name: string, uid: string, k: nat)
    requires k < |BuildKey(name, uid)| && '.' !in uid
    ensures
      var key, n := BuildKey(name, uid), |BUILD|;
      && (k < n ==> key[k] != '.')
      && (n <= k < n + |name| ==> key[k] == name[k - n])
      && (k == n + |name| ==> key[k] == '-')
      && (n + |name| < k ==> key[k] != '.')
  {
    var n := |BUILD|;
    if n + |name| < k {
      assert BuildKey(name, uid)[k] == uid[k - n - |name| - 1];
    }
  }

  // ---- Reading and writing attempts ----

  method WriteAttempts(attempts: seq<BuildAttempt>) returns (r: seq<AttemptJson>)
    ensures r == AttemptsToJson(Views(attempts))
  {
    r := [];
    for i := 0 to |attempts|
      invariant |r| == i && forall k :: 0 <= k < i ==> r[k] == AttemptToJson(attempts[k].View())
    {
      var a := attempts[i];
      r := r + [AttemptJson(a.jobName, a.jobUid, ToMillis(a.jobQueueTime),
                            MapOption(a.jobStartTime, ToMillis), MapOption(a.jobCompletionTime, ToMillis),
                            a.jobSucceeded)];
    }
  }

  method ReadAttempts(records: seq<AttemptJson>) returns (r: seq<BuildAttempt>)
    ensures Views(r) == AttemptsOfJson(records)
    ensures NoDuplicates(r) && fresh(r)
  {
    r := [];
    for i := 0 to |records|
      invariant |r| == i && fresh(r) && NoDuplicates(r)
      invariant forall k :: 0 <= k < i ==> r[k].View() == AttemptOfJson(records[k])
    {
      var j := records[i];
      var a := new BuildAttempt(j.jobName, j.jobUid, FromMillis(j.queueTime));
      a.jobStartTime := MapOption(j.startTime, FromMillis);
      a.jobCompletionTime := MapOption(j.completionTime, FromMillis);
      a.jobSucceeded := j.succeeded;
      r := r + [a];
    }
  }

  method WriteBuild(b: BuildStatus) returns (j: BuildJson)
    ensures j == ToJson(b.View())
  {
    var active := WriteAttempts(b.activeAttempts);
    var completed := WriteAttempts(b.completedAttempts);
    j := BuildJson(b.name, b.uid, StateName(b.state), b.successResult, active, completed,
                   ToMillis(b.kubeCreationTime), MapOption(b.startTime, ToMillis),
                   MapOption(b.completionTime, ToMillis));
  }

  /** convertJSONToBuildStatus; the second result says that the record is to be removed. */
  method ReadBuild(j: BuildJson, fetched: Fetched) returns (b: BuildStatus?, remove: bool)
    ensures remove <==> OfJson(j, fetched).LoadedNothing?
    ensures b == null <==> !OfJson(j, fetched).LoadedBuild?
    ensures b != null ==> fresh(b) && b.Valid() && b.View() == OfJson(j, fetched).build
  {
    var active := ReadAttempts(j.active);
    var completed := ReadAttempts(j.completed);
    var state := StateOf(j.state);
    if state.None? || fetched.FetchFailed? {
      return null, false;
    }
    if fetched.NotFound? {
      return null, true;
    }
    b := new BuildStatus.Restored(
      j.name, j.uid, fetched.kubeName, state.value, j.success, active, completed,
      FromMillis(j.creationTime), MapOption(j.startTime, FromMillis), MapOption(j.completionTime, FromMillis));
    remove := false;
  }

  // ---- Processing one build ----

  /** process: the steps, and the build is written when one of them changed it or it is new. Afterwards it is saved. */
  method ProcessBuild(b: BuildStatus, store: FilePersistence<BuildJson>, inputs: nat -> Input, initialCreation: bool,
                      ghost max: int)
    returns (ghost rounds: nat)
    requires b.Valid() && BuildProofs.BuildOk(b.View()) && Within(inputs, max)
    requires initialCreation ||
             (BuildFile(b) in store.files && Saved(b.View(), store.files[BuildFile(b)]))
    modifies b, b.activeAttempts, store
    ensures b.Valid() && BuildProofs.BuildOk(b.View())
    ensures b.View() == Steps(old(b.View()), inputs, rounds)
    ensures BuildFile(b) in store.files && Saved(b.View(), store.files[BuildFile(b)])
    ensures forall name :: name != BuildFile(b) ==> (name in store.files <==> name in old(store.files))
    ensures forall name :: name != BuildFile(b) && name in store.files ==> store.files[name] == old(store.files)[name]
  {
    hide Step, ToJson, BuildProofs.BuildOk, FileName, BuildKey, KeyOf;
    ghost var before := b.View();
    var changed;
    changed, rounds := b.RunSteps(inputs, max);
    if changed || initialCreation {
      var j := WriteBuild(b);
      store.WriteValues(map[BuildKey(b.name, b.uid) := j]);
    } else {
      assert Steps(before, inputs, 0) == before;
      assert AtMost(inputs(0), max);
      QuietStepKeepsSaved(before, inputs(0), max, store.files[BuildFile(b)]);
    }
  }

  function BuildFile(b: BuildStatus): string {
    FileName(BuildKey(b.name, b.uid))
  }

  // ---- Loading ----

  /** What a record becomes when it is loaded. */
  function LoadedFrom(j: BuildJson, fetch: string -> Fetched): Loaded {
    OfJson(j, fetch(j.name))
  }

  /** The records of a directory stand under their own keys, one for each UID. */
  ghost predicate RecordsOk(records: map<string, BuildJson>) {
    && (forall key :: key in records ==> key == BuildKey(records[key].name, records[key].uid))
    && (forall k, l :: k in records && l in records && records[k].uid == records[l].uid ==> k == l)
  }

  /** What a record became, as an object. */
  ghost predicate IsRestored(b: BuildStatus?, loaded: Loaded)
    reads b
    reads if b == null then [] else b.activeAttempts
    reads if b == null then [] else b.completedAttempts
  {
    match loaded
    case LoadedBuild(build) => b != null && b.Valid() && b.View() == build
    case LoadedNil => b == null
    case LoadedNothing => false
  }

  ghost predicate RecordRestored(builds: map<string, BuildStatus?>, j: BuildJson, loaded: Loaded)
    reads if j.uid in builds then {builds[j.uid]} else {}
    reads if j.uid in builds && builds[j.uid] != null then builds[j.uid].activeAttempts else []
    reads if j.uid in builds && builds[j.uid] != null then builds[j.uid].completedAttempts else []
  {
    if loaded.LoadedNothing? then j.uid !in builds else j.uid in builds && IsRestored(builds[j.uid], loaded)
  }

  lemma OtherRecordsStay(builds: map<string, BuildStatus?>, records: map<string, BuildJson>, todo: set<string>,
                         uid: string, b: BuildStatus?, fetch: string -> Fetched)
    requires forall key {:trigger records[key]} :: key in records && key !in todo ==>
               records[key].uid != uid && RecordRestored(builds, records[key], LoadedFrom(records[key], fetch))
    ensures forall key {:trigger records[key]} :: key in records && key !in todo ==>
              RecordRestored(builds[uid := b], records[key], LoadedFrom(records[key], fetch))
  {
    hide IsRestored, LoadedFrom;
  }

  lemma ThisRecordIsRestored(builds: map<string, BuildStatus?>, j: BuildJson, b: BuildStatus?, fetch: string -> Fetched)
    requires j.uid !in builds
    requires b == null <==> !OfJson(j, fetch(j.name)).LoadedBuild?
    requires b != null ==> b.Valid() && b.View() == OfJson(j, fetch(j.name)).build
    ensures
      var loaded := LoadedFrom(j, fetch);
      RecordRestored(if loaded.LoadedNothing? then builds else builds[j.uid := b], j, loaded)
    ensures LoadedFrom(j, fetch) == OfJson(j, fetch(j.name))
  {
  }

  ghost predicate RestoredFrom(records: map<string, BuildJson>, key: string, uid: string) {
    key in records && records[key].uid == uid
  }

  /** Every record that is not still to do has been restored, and nothing else. */
  method LoadRecord(builds: map<string, BuildStatus?>, ghost records: map<string, BuildJson>, ghost todo: set<string>,
                    ghost key: string, j: BuildJson, fetch: string -> Fetched)
    returns (builds': map<string, BuildStatus?>, remove: bool)
    requires key in todo && key in records && records[key] == j && j.uid !in builds
    requires forall k {:trigger records[k]} :: k in records && k !in todo ==>
               records[k].uid != j.uid && RecordRestored(builds, records[k], LoadedFrom(records[k], fetch))
    ensures forall k {:trigger records[k]} :: k in records && k !in todo - {key} ==>
              RecordRestored(builds', records[k], LoadedFrom(records[k], fetch))
    ensures remove <==> LoadedFrom(j, fetch).LoadedNothing?
    ensures builds'.Keys == if remove then builds.Keys else builds.Keys + {j.uid}
  {
    hide OfJson, IsRestored, RecordRestored, LoadedFrom;
    var b;
    b, remove := ReadBuild(j, fetch(j.name));
    assert forall k {:trigger records[k]} :: k in records && k !in todo ==>
      RecordRestored(builds, records[k], LoadedFrom(records[k], fetch));
    OtherRecordsStay(builds, records, todo, j.uid, b, fetch);
    ThisRecordIsRestored(builds, j, b, fetch);
    builds' := if remove then builds else builds[j.uid := b];
  }

  method LoadRecords(values: map<string, Option<BuildJson>>, ghost records: map<string, BuildJson>, fetch: string -> Fetched)
    returns (builds: map<string, BuildStatus?>, keysToDelete: seq<string>)
    requires RecordsOk(records)
    requires values.Keys == records.Keys && forall key :: key in records ==> values[key] == Some(records[key])
    ensures forall key {:trigger records[key]} :: key in records ==>
              RecordRestored(builds, records[key], LoadedFrom(records[key], fetch))
    ensures forall uid :: uid in builds ==> exists key :: RestoredFrom(records, key, uid)
    ensures NoDuplicates(keysToDelete)
    ensures forall key :: key in keysToDelete <==> key in records && LoadedFrom(records[key], fetch).LoadedNothing?
  {
    hide BuildKey, LoadedFrom, RecordRestored;
    builds, keysToDelete := map[], [];
    var todo := values.Keys;
    while todo != {}
      invariant todo <= values.Keys
      invariant forall key {:trigger records[key]} :: key in records && key !in todo ==>
                  RecordRestored(builds, records[key], LoadedFrom(records[key], fetch))
      invariant forall uid :: uid in builds ==> exists key :: key !in todo && RestoredFrom(records, key, uid)
      invariant NoDuplicates(keysToDelete)
      invariant forall key :: key in keysToDelete <==>
                  key in records && key !in todo && LoadedFrom(records[key], fetch).LoadedNothing?
      decreases todo
    {
      var key :| key in todo;
      assert values[key] == Some(records[key]);
      var j := values[key].value;
      assert RestoredFrom(records, key, j.uid);
      var remove;
      builds, remove := LoadRecord(builds, records, todo, key, j, fetch);
      if remove {
        AppendMembers(keysToDelete, key);
        keysToDelete := keysToDelete + [BuildKey(j.name, j.uid)];
      }
      todo := todo - {key};
    }
  }

  /** The records of builds in a directory. */
  ghost function BuildRecords(files: map<string, BuildJson>): map<string, BuildJson>
    requires Clean(files)
  {
    map key | key in Contents(files) && BUILD <= key :: Contents(files)[key]
  }

  /** All the records of builds, under their keys. */
  method ReadRecords(store: FilePersistence<BuildJson>) returns (values: map<string, Option<BuildJson>>)
    requires Clean(store.files)
    ensures values.Keys == BuildRecords(store.files).Keys
    ensures forall key :: key in values ==> values[key] == Some(BuildRecords(store.files)[key])
  {
    hide FileName, StripTxt;
    var keys := store.ListKeysByPrefix(BUILD);
    values := store.ReadValues(keys);
    ReadingsOfPresent(store.files, keys);
  }

  lemma AreContents(files: map<string, BuildJson>)
    requires Clean(files)
    ensures BuildRecords(files).Keys <= Contents(files).Keys
  {
  }

  /** Records whose KoupletBuild is gone are removed; the builds are not touched by that. */
  method RemoveObsolete(store: FilePersistence<BuildJson>, keysToDelete: seq<string>, ghost builds: map<string, BuildStatus?>,
                        ghost records: map<string, BuildJson>, ghost fetch: string -> Fetched)
    requires Clean(store.files) && NoDuplicates(keysToDelete)
    requires forall key :: key in keysToDelete ==> key in Contents(store.files)
    requires forall key {:trigger records[key]} :: key in records ==>
               RecordRestored(builds, records[key], LoadedFrom(records[key], fetch))
    modifies store
    ensures Clean(store.files)
    ensures Contents(store.files) == old(Contents(store.files)) - set key | key in keysToDelete
    ensures forall key {:trigger records[key]} :: key in records ==>
              RecordRestored(builds, records[key], LoadedFrom(records[key], fetch))
  {
    hide LoadedFrom, RecordRestored, Clean, Contents, NoDuplicates;
    if |keysToDelete| > 0 {
      RemoveKeys(store, keysToDelete);
    } else {
      assert (set key | key in keysToDelete) == {};
    }
  }

  /** load: every record becomes its build again, and the records of builds whose KoupletBuild is gone are
      removed from the directory. */
  method Load(store: FilePersistence<BuildJson>, fetch: string -> Fetched)
    returns (builds: map<string, BuildStatus?>, ghost records: map<string, BuildJson>, ghost obsolete: set<string>)
    requires Clean(store.files) && RecordsOk(BuildRecords(store.files))
    modifies store
    ensures records == old(BuildRecords(store.files))
    ensures forall key {:trigger records[key]} :: key in records ==>
              RecordRestored(builds, records[key], LoadedFrom(records[key], fetch))
    ensures forall uid :: uid in builds ==> exists key :: RestoredFrom(records, key, uid)
    ensures forall key :: key in obsolete <==> key in records && LoadedFrom(records[key], fetch).LoadedNothing?
    ensures Clean(store.files) && Contents(store.files) == old(Contents(store.files)) - obsolete
  {
    hide LoadedFrom, RecordRestored, RecordsOk, Clean, Contents, BuildRecords, NoDuplicates, RestoredFrom;
    AreContents(store.files);
    records := BuildRecords(store.files);
    var values := ReadRecords(store);
    var keysToDelete;
    builds, keysToDelete := LoadRecords(values, records, fetch);
    obsolete := set key | key in keysToDelete;
    RemoveObsolete(store, keysToDelete, builds, records, fetch);
  }
}
