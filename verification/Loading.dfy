/** Loading the database from its store: the loops of load, on the store of a settled database. */
module Loading {
  import opened Prelude
  import opened Text
  import opened TestModel
  import opened CollectionSteps
  import opened CollectionInvariant
  import opened Keys
  import opened DatabaseSteps
  import opened FileStore
  import opened Records
  import opened Scheduler
  import opened Reload
  import opened Restarts
  import opened SubmissionDates
  import opened WriteBack
  import DatabaseInvariant

  // ---- How far the entries of a collection have been rebuilt ----

  /** An entry as it is once its shallow record has been read, and perhaps its specification and its result. */
  function Partial(e: Entry, hasSpec: bool, hasResult: bool): Entry {
    e.(spec := if hasSpec then e.spec else NO_SPEC, result := if hasResult then e.result else None)
  }

  ghost predicate RebuiltSoFar(c: Collection, target: map<int, Entry>, ids: set<int>, specs: set<int>, results: set<int>) {
    && c.entries.Keys == ids <= target.Keys
    && (forall id :: id in ids ==> c.entries[id] == Partial(target[id], id in specs, id in results))
    && Partition(c)
  }

  lemma StoredKeepsPartition(c: Collection, id: int, e: Entry)
    requires Partition(c) && id !in c.entries
    ensures Partition(WithStored(c, id, e))
  {
    match e.bucket
    case InQueued => AppendMembers(c.queued, id);
    case InRunning => AppendMembers(c.running, id);
    case InRetry => AppendMembers(c.retry, id);
    case InCompleted => AppendMembers(c.completed, id);
  }

  lemma OneMoreEntry(c: Collection, target: map<int, Entry>, ids: set<int>, id: int)
    requires RebuiltSoFar(c, target, ids, {}, {}) && id in target && id !in ids
    ensures RebuiltSoFar(WithStored(c, id, Partial(target[id], false, false)), target, ids + {id}, {}, {})
  {
    hide Partition;
    StoredKeepsPartition(c, id, Partial(target[id], false, false));
  }

  lemma SameBucketsKeepPartition(c: Collection, id: int, e: Entry)
    requires Partition(c) && id in c.entries && c.entries[id].bucket == e.bucket
    ensures Partition(WithEntry(c, id, e))
  {
  }

  lemma OneMoreSpec(c: Collection, target: map<int, Entry>, ids: set<int>, specs: set<int>, id: int)
    requires RebuiltSoFar(c, target, ids, specs, {}) && id in ids
    ensures RebuiltSoFar(WithEntry(c, id, c.entries[id].(spec := target[id].spec)), target, ids, specs + {id}, {})
  {
    hide Partition;
    SameBucketsKeepPartition(c, id, c.entries[id].(spec := target[id].spec));
  }

  lemma OneMoreResult(c: Collection, target: map<int, Entry>, ids: set<int>, specs: set<int>, results: set<int>, id: int)
    requires RebuiltSoFar(c, target, ids, specs, results) && id in ids
    ensures RebuiltSoFar(WithEntry(c, id, c.entries[id].(result := target[id].result)), target, ids, specs, results + {id})
  {
    hide Partition;
    SameBucketsKeepPartition(c, id, c.entries[id].(result := target[id].result));
  }

  // ---- Reading a family of keys ----

  /** All the values under the keys of a family of a collection. */
  method ReadFamily(store: FilePersistence<Stored>, uid: string, family: string, ghost contents: map<string, Stored>)
    returns (values: map<string, Option<Stored>>)
    requires Clean(store.files) && Contents(store.files) == contents
    ensures forall key :: key in values <==> key in contents && ChildPrefix(uid, family) <= key
    ensures forall key :: key in values ==> values[key] == Some(contents[key])
  {
    hide FileName, StripTxt;
    var keys := store.ListKeysByPrefix(ChildPrefix(uid, family));
    values := store.ReadValues(keys);
    ReadingsOfPresent(store.files, keys);
  }

  // ---- Shallow records ----

  /** The record of one entry is read. */
  method ReadEntry(tc: TestCollection, value: Option<Stored>, ghost target: map<int, Entry>, ghost ids: set<int>, ghost id: int)
    requires tc.Valid() && RebuiltSoFar(tc.View(), target, ids, {}, {}) && id in target && id !in ids
    requires target[id].id == id && value == Some(StoredEntry(ToEntryJson(target[id])))
    modifies tc`testEntries, tc`queuedTests, tc`runningTests, tc`testsForRetry, tc`completedTests
    ensures tc.Valid() && RebuiltSoFar(tc.View(), target, ids + {id}, {}, {})
    ensures SameFields(old(tc.View()), tc.View())
    ensures forall e :: e in tc.testEntries.Values ==> e in old(tc.testEntries.Values) || fresh(e)
  {
    hide TestCollection.View, TestCollection.Valid, RebuiltSoFar;
    tc.Fields();
    KeysOf(tc.View(), target, ids, {}, {});
    EntryJsonRoundTrip(target[id]);
    OneMoreEntry(tc.View(), target, ids, id);
    if value.None? || !value.value.StoredEntry? {
      return;
    }
    var entry := EntryOfJson(value.value.entry);
    if entry.None? {
      return;
    }
    var newTestEntry := new TestEntry(entry.value, tc);
    tc.AddToTestEntriesForPersistence(newTestEntry);
  }

  lemma KeysOf(c: Collection, target: map<int, Entry>, ids: set<int>, specs: set<int>, results: set<int>)
    requires RebuiltSoFar(c, target, ids, specs, results)
    ensures c.entries.Keys == ids
  {
  }

  /** Everything about a collection but its tests. */
  ghost predicate SameFields(c: Collection, c': Collection) {
    && c'.kube == c.kube && c'.uid == c.uid && c'.nextId == c.nextId && c'.status == c.status && c'.bucket == c.bucket
    && c'.dateSubmitted == c.dateSubmitted && c'.startTime == c.startTime && c'.endTime == c.endTime
  }

  lemma SameFieldsTwice(a: Collection, b: Collection, c: Collection)
    ensures SameFields(a, a)
    ensures SameFields(a, b) && SameFields(b, c) ==> SameFields(a, c)
  {
  }

  /** The ids of the entries whose keys in a family are among some keys. */
  ghost function IdsIn(c: Collection, uid: string, family: string, keys: set<string>): set<int> {
    set id | id in c.entries && ChildKey(uid, family, id) in keys
  }

  lemma NoneYet(c: Collection, uid: string, family: string)
    ensures IdsIn(c, uid, family, {}) == {}
  {
  }

  /** One key more of a family is one id more. */
  lemma OneMoreId(c: Collection, uid: string, family: string, keys: set<string>, id: int)
    requires id in c.entries && IsUid(uid) && family in {SHALLOW, RESULT, SPEC}
    ensures IdsIn(c, uid, family, keys + {ChildKey(uid, family, id)}) == IdsIn(c, uid, family, keys) + {id}
    ensures ChildKey(uid, family, id) !in keys ==> id !in IdsIn(c, uid, family, keys)
  {
    hide ChildKey, IsUid;
    forall i | i in c.entries && ChildKey(uid, family, i) == ChildKey(uid, family, id)
      ensures i == id
    {
      ChildKeyInjective(uid, family, i, uid, family, id);
    }
  }

  lemma UidOf(db: Database, uid: string)
    requires StoreOk(db) && uid in db.collections
    ensures IsUid(uid)
  {
    hide IsUid, StoreOk, WriteBackOk;
    StoreParts(db);
    WriteBackParts(db);
  }

  /** A key of a family stands for one entry. */
  lemma EntryOfKey(db: Database, uid: string, family: string, key: string) returns (id: int)
    requires StoreOk(db) && uid in db.collections && family in {SHALLOW, RESULT, SPEC}
    requires key in db.store && ChildPrefix(uid, family) <= key
    ensures id in db.collections[uid].entries && key == ChildKey(uid, family, id) && id >= 0
    ensures
      var e := db.collections[uid].entries[id];
      && e.id == id
      && (family == SHALLOW ==> db.store[key] == StoredEntry(ToEntryJson(e)))
      && (family == SPEC ==> db.store[key] == StoredSpec(e.spec))
      && (family == RESULT ==> e.result.Some? && e.result.value.id == id && db.store[key] == StoredResult(e.result.value))
  {
    hide StoreOk, ChildPrefix;
    var m := ChildKeysAre(db, uid, family, key);
    StoreParts(db);
    EntriesAreNumbered(db, uid, m.id);
    FamiliesDiffer();
    id := m.id;
  }

  method ReadEntryAt(tc: TestCollection, ghost key: string, value: Option<Stored>, ghost db: Database, ghost seen: set<string>)
    requires StoreOk(db) && tc.uuid in db.collections && tc.Valid()
    requires key in db.store && ChildPrefix(tc.uuid, SHALLOW) <= key && key !in seen && value == Some(db.store[key])
    requires
      var c := db.collections[tc.uuid];
      RebuiltSoFar(tc.View(), c.entries, IdsIn(c, tc.uuid, SHALLOW, seen), {}, {})
    modifies tc`testEntries, tc`queuedTests, tc`runningTests, tc`testsForRetry, tc`completedTests
    ensures tc.Valid() && SameFields(old(tc.View()), tc.View())
    ensures
      var c := db.collections[tc.uuid];
      RebuiltSoFar(tc.View(), c.entries, IdsIn(c, tc.uuid, SHALLOW, seen + {key}), {}, {})
    ensures forall e :: e in tc.testEntries.Values ==> e in old(tc.testEntries.Values) || fresh(e)
  {
    hide TestCollection.View, TestCollection.Valid, RebuiltSoFar, StoreOk, ChildKey, ChildPrefix, ToEntryJson, IsUid;
    ghost var c := db.collections[tc.uuid];
    UidOf(db, tc.uuid);
    ghost var id := EntryOfKey(db, tc.uuid, SHALLOW, key);
    OneMoreId(c, tc.uuid, SHALLOW, seen, id);
    ReadEntry(tc, value, c.entries, IdsIn(c, tc.uuid, SHALLOW, seen), id);
  }

  /** The shallow records of a collection are read, in any order. */
  method ReadEntries(tc: TestCollection, store: FilePersistence<Stored>, ghost db: Database)
    requires Clean(store.files) && Contents(store.files) == db.store && StoreOk(db) && tc.uuid in db.collections
    requires tc.Valid() && RebuiltSoFar(tc.View(), db.collections[tc.uuid].entries, {}, {}, {})
    modifies tc`testEntries, tc`queuedTests, tc`runningTests, tc`testsForRetry, tc`completedTests
    ensures tc.Valid() && SameFields(old(tc.View()), tc.View())
    ensures RebuiltSoFar(tc.View(), db.collections[tc.uuid].entries, db.collections[tc.uuid].entries.Keys, {}, {})
    ensures forall e :: e in tc.testEntries.Values ==> e in old(tc.testEntries.Values) || fresh(e)
  {
    hide TestCollection.View, TestCollection.Valid, RebuiltSoFar, StoreOk, Contents, Clean, ChildKey, ChildPrefix,
      ToEntryJson, IsUid, IdsIn, SameFields;
    ghost var uid, c := tc.uuid, db.collections[tc.uuid];
    var values := ReadFamily(store, tc.uuid, SHALLOW, db.store);
    var todo := values.Keys;
    ghost var seen: set<string> := {};
    SameFieldsTwice(tc.View(), tc.View(), tc.View());
    NoneYet(c, uid, SHALLOW);
    while todo != {}
      invariant seen !! todo && seen + todo == values.Keys
      invariant tc.Valid() && SameFields(old(tc.View()), tc.View())
      invariant RebuiltSoFar(tc.View(), c.entries, IdsIn(c, uid, SHALLOW, seen), {}, {})
      invariant forall e :: e in tc.testEntries.Values ==> e in old(tc.testEntries.Values) || fresh(e)
      decreases todo
    {
      var key :| key in todo;
      ghost var before := tc.View();
      ReadEntryAt(tc, key, values[key], db, seen);
      SameFieldsTwice(old(tc.View()), before, tc.View());
      todo, seen := todo - {key}, seen + {key};
    }
    AllShallow(db, uid, seen);
  }

  lemma AllShallow(db: Database, uid: string, keys: set<string>)
    requires StoreOk(db) && uid in db.collections
    requires forall key :: key in db.store && ChildPrefix(uid, SHALLOW) <= key ==> key in keys
    ensures IdsIn(db.collections[uid], uid, SHALLOW, keys) == db.collections[uid].entries.Keys
  {
    hide StoreOk, ChildPrefix;
    forall id | id in db.collections[uid].entries
      ensures ChildKey(uid, SHALLOW, id) in keys
    {
      ChildIsStored(db, EntryShallow(uid, id));
      PrefixOfKey(uid, SHALLOW, id);
    }
  }

  lemma PrefixOfKey(uid: string, family: string, id: int)
    ensures ChildPrefix(uid, family) <= ChildKey(uid, family, id)
  {
  }

  // ---- Specifications ----

  method ReadSpec(tc: TestCollection, key: string, value: Option<Stored>, ghost target: map<int, Entry>, ghost ids: set<int>,
                  ghost specs: set<int>, ghost id: int)
    requires tc.Valid() && RebuiltSoFar(tc.View(), target, ids, specs, {}) && id in ids && id in target
    requires ParseDecimal(AfterLastHyphen(key)) == Some(id) && value == Some(StoredSpec(target[id].spec))
    modifies tc.testEntries.Values
    ensures tc.Valid() && RebuiltSoFar(tc.View(), target, ids, specs + {id}, {}) && SameFields(old(tc.View()), tc.View())
  {
    hide TestCollection.View, RebuiltSoFar, TestEntry.View, ParseDecimal, AfterLastHyphen;
    tc.Fields();
    KeysOf(tc.View(), target, ids, specs, {});
    OneMoreSpec(tc.View(), target, ids, specs, id);
    var testEntryId := ParseDecimal(AfterLastHyphen(key));
    if testEntryId.None? || value.None? || !value.value.StoredSpec? || testEntryId.value !in tc.testEntries {
      return;
    }
    tc.SetSpec(tc.testEntries[testEntryId.value], value.value.spec);
  }

  method ReadSpecAt(tc: TestCollection, key: string, value: Option<Stored>, ghost db: Database, ghost seen: set<string>)
    requires StoreOk(db) && tc.uuid in db.collections && tc.Valid()
    requires key in db.store && ChildPrefix(tc.uuid, SPEC) <= key && value == Some(db.store[key])
    requires
      var c := db.collections[tc.uuid];
      RebuiltSoFar(tc.View(), c.entries, c.entries.Keys, IdsIn(c, tc.uuid, SPEC, seen), {})
    modifies tc.testEntries.Values
    ensures tc.Valid() && SameFields(old(tc.View()), tc.View())
    ensures
      var c := db.collections[tc.uuid];
      RebuiltSoFar(tc.View(), c.entries, c.entries.Keys, IdsIn(c, tc.uuid, SPEC, seen + {key}), {})
  {
    hide TestCollection.View, TestCollection.Valid, RebuiltSoFar, StoreOk, ChildKey, ChildPrefix, ParseDecimal,
      AfterLastHyphen, IsUid;
    ghost var c := db.collections[tc.uuid];
    UidOf(db, tc.uuid);
    ghost var id := EntryOfKey(db, tc.uuid, SPEC, key);
    IdInKey(tc.uuid, SPEC, id);
    OneMoreId(c, tc.uuid, SPEC, seen, id);
    ReadSpec(tc, key, value, c.entries, c.entries.Keys, IdsIn(c, tc.uuid, SPEC, seen), id);
  }

  method ReadSpecs(tc: TestCollection, store: FilePersistence<Stored>, ghost db: Database)
    requires Clean(store.files) && Contents(store.files) == db.store && StoreOk(db) && tc.uuid in db.collections
    requires tc.Valid() && RebuiltSoFar(tc.View(), db.collections[tc.uuid].entries, db.collections[tc.uuid].entries.Keys, {}, {})
    modifies tc.testEntries.Values
    ensures tc.Valid() && SameFields(old(tc.View()), tc.View())
    ensures
      var c := db.collections[tc.uuid];
      RebuiltSoFar(tc.View(), c.entries, c.entries.Keys, c.entries.Keys, {})
  {
    hide TestCollection.View, TestCollection.Valid, RebuiltSoFar, StoreOk, Contents, Clean, ChildKey, ChildPrefix,
      ParseDecimal, AfterLastHyphen, IsUid, IdsIn, SameFields;
    ghost var uid, c := tc.uuid, db.collections[tc.uuid];
    var values := ReadFamily(store, tc.uuid, SPEC, db.store);
    var todo := values.Keys;
    ghost var seen: set<string> := {};
    SameFieldsTwice(tc.View(), tc.View(), tc.View());
    NoneYet(c, uid, SPEC);
    while todo != {}
      invariant seen !! todo && seen + todo == values.Keys
      invariant tc.Valid() && SameFields(old(tc.View()), tc.View())
      invariant RebuiltSoFar(tc.View(), c.entries, c.entries.Keys, IdsIn(c, uid, SPEC, seen), {})
      decreases todo
    {
      var key :| key in todo;
      ghost var before := tc.View();
      ReadSpecAt(tc, key, values[key], db, seen);
      SameFieldsTwice(old(tc.View()), before, tc.View());
      todo, seen := todo - {key}, seen + {key};
    }
    AllSpecs(db, uid, seen);
  }

  lemma AllSpecs(db: Database, uid: string, keys: set<string>)
    requires StoreOk(db) && uid in db.collections
    requires forall key :: key in db.store && ChildPrefix(uid, SPEC) <= key ==> key in keys
    ensures IdsIn(db.collections[uid], uid, SPEC, keys) == db.collections[uid].entries.Keys
  {
    hide StoreOk, ChildPrefix;
    forall id | id in db.collections[uid].entries
      ensures ChildKey(uid, SPEC, id) in keys
    {
      ChildIsStored(db, EntrySpec(uid, id));
      PrefixOfKey(uid, SPEC, id);
    }
  }

  // ---- Results ----

  method ReadResult(tc: TestCollection, value: Option<Stored>, ghost target: map<int, Entry>, ghost ids: set<int>,
                    ghost specs: set<int>, ghost results: set<int>, ghost id: int)
    requires tc.Valid() && RebuiltSoFar(tc.View(), target, ids, specs, results) && id in ids && id in target
    requires target[id].result.Some? && target[id].result.value.id == id
    requires value == Some(StoredResult(target[id].result.value))
    modifies tc.testEntries.Values
    ensures tc.Valid() && SameFields(old(tc.View()), tc.View())
    ensures RebuiltSoFar(tc.View(), target, ids, specs, results + {id})
  {
    hide TestCollection.View, RebuiltSoFar, TestEntry.View;
    tc.Fields();
    KeysOf(tc.View(), target, ids, specs, results);
    OneMoreResult(tc.View(), target, ids, specs, results, id);
    if value.None? || !value.value.StoredResult? {
      return;
    }
    var teResult := value.value.result;
    if teResult.id !in tc.testEntries {
      return;
    }
    tc.SetResult(tc.testEntries[teResult.id], teResult);
  }

  method ReadResultAt(tc: TestCollection, ghost key: string, value: Option<Stored>, ghost db: Database, ghost seen: set<string>)
    requires StoreOk(db) && tc.uuid in db.collections && tc.Valid()
    requires key in db.store && ChildPrefix(tc.uuid, RESULT) <= key && value == Some(db.store[key])
    requires
      var c := db.collections[tc.uuid];
      RebuiltSoFar(tc.View(), c.entries, c.entries.Keys, c.entries.Keys, IdsIn(c, tc.uuid, RESULT, seen))
    modifies tc.testEntries.Values
    ensures tc.Valid() && SameFields(old(tc.View()), tc.View())
    ensures
      var c := db.collections[tc.uuid];
      RebuiltSoFar(tc.View(), c.entries, c.entries.Keys, c.entries.Keys, IdsIn(c, tc.uuid, RESULT, seen + {key}))
  {
    hide TestCollection.View, TestCollection.Valid, RebuiltSoFar, StoreOk, ChildKey, ChildPrefix, IsUid;
    ghost var c := db.collections[tc.uuid];
    UidOf(db, tc.uuid);
    ghost var id := EntryOfKey(db, tc.uuid, RESULT, key);
    OneMoreId(c, tc.uuid, RESULT, seen, id);
    ReadResult(tc, value, c.entries, c.entries.Keys, c.entries.Keys, IdsIn(c, tc.uuid, RESULT, seen), id);
  }

  method ReadResults(tc: TestCollection, store: FilePersistence<Stored>, ghost db: Database)
    requires Clean(store.files) && Contents(store.files) == db.store && StoreOk(db) && tc.uuid in db.collections
    requires tc.Valid()
    requires
      var c := db.collections[tc.uuid];
      RebuiltSoFar(tc.View(), c.entries, c.entries.Keys, c.entries.Keys, {})
    modifies tc.testEntries.Values
    ensures tc.Valid() && SameFields(old(tc.View()), tc.View())
    ensures tc.View().entries == db.collections[tc.uuid].entries && Partition(tc.View())
  {
    hide TestCollection.View, TestCollection.Valid, RebuiltSoFar, StoreOk, Contents, Clean, ChildKey, ChildPrefix,
      IsUid, IdsIn, SameFields, Partition;
    ghost var uid, c := tc.uuid, db.collections[tc.uuid];
    var values := ReadFamily(store, tc.uuid, RESULT, db.store);
    var todo := values.Keys;
    ghost var seen: set<string> := {};
    SameFieldsTwice(tc.View(), tc.View(), tc.View());
    NoneYet(c, uid, RESULT);
    while todo != {}
      invariant seen !! todo && seen + todo == values.Keys
      invariant tc.Valid() && SameFields(old(tc.View()), tc.View())
      invariant RebuiltSoFar(tc.View(), c.entries, c.entries.Keys, c.entries.Keys, IdsIn(c, uid, RESULT, seen))
      decreases todo
    {
      var key :| key in todo;
      ghost var before := tc.View();
      ReadResultAt(tc, key, values[key], db, seen);
      SameFieldsTwice(old(tc.View()), before, tc.View());
      todo, seen := todo - {key}, seen + {key};
    }
    AllResults(db, uid, tc.View(), seen);
  }

  lemma AllResults(db: Database, uid: string, c': Collection, keys: set<string>)
    requires StoreOk(db) && uid in db.collections
    requires forall key :: key in db.store && ChildPrefix(uid, RESULT) <= key ==> key in keys
    requires
      var c := db.collections[uid];
      RebuiltSoFar(c', c.entries, c.entries.Keys, c.entries.Keys, IdsIn(c, uid, RESULT, keys))
    ensures c'.entries == db.collections[uid].entries && Partition(c')
  {
    hide StoreOk, ChildPrefix, Partition;
    var c := db.collections[uid];
    forall id | id in c.entries
      ensures c'.entries[id] == c.entries[id]
    {
      if c.entries[id].result.Some? {
        ChildIsStored(db, EntryResult(uid, id));
        PrefixOfKey(uid, RESULT, id);
      }
    }
  }

  // ---- Sorting ----

  ghost predicate SortedBy<T>(s: seq<T>, key: map<T, int>)
    requires forall x :: x in s ==> x in key
  {
    forall i, j :: 0 <= i < j < |s| ==> key[s[i]] <= key[s[j]]
  }

  /** A sorted list with one more element in its place: behind the elements that are not greater. */
  method Insert<T>(s: seq<T>, x: T, key: map<T, int>) returns (r: seq<T>)
    requires x in key && forall y :: y in s ==> y in key
    requires SortedBy(s, key)
    ensures forall y :: y in r <==> y in s || y == x
    ensures |r| == |s| + 1 && (NoDuplicates(s) && x !in s ==> NoDuplicates(r))
    ensures SortedBy(r, key)
  {
    var at := |s|;
    while at > 0 && key[s[at - 1]] > key[x]
      invariant 0 <= at <= |s|
      invariant forall i :: at <= i < |s| ==> key[s[i]] > key[x]
    {
      at := at - 1;
    }
    r := s[..at] + [x] + s[at..];
    InsertedMembers(s, x, at);
    InsertedSorted(s, x, at, key);
  }

  lemma InsertedMembers<T>(s: seq<T>, x: T, at: nat)
    requires at <= |s|
    ensures
      var r := s[..at] + [x] + s[at..];
      && (forall y :: y in r <==> y in s || y == x)
      && (NoDuplicates(s) && x !in s ==> NoDuplicates(r))
  {
    var r := s[..at] + [x] + s[at..];
    assert s == s[..at] + s[at..];
    forall y
      ensures y in r <==> y in s || y == x
    {
      assert y in s <==> y in s[..at] || y in s[at..];
    }
    if NoDuplicates(s) && x !in s {
      forall i, j | 0 <= i < j < |r|
        ensures r[i] != r[j]
      {
        assert r[i] == if i < at then s[i] else if i == at then x else s[i - 1];
        assert r[j] == if j < at then s[j] else if j == at then x else s[j - 1];
      }
    }
  }

  lemma InsertedSorted<T>(s: seq<T>, x: T, at: nat, key: map<T, int>)
    requires x in key && (forall y :: y in s ==> y in key) && SortedBy(s, key) && at <= |s|
    requires at > 0 ==> key[s[at - 1]] <= key[x]
    requires forall i :: at <= i < |s| ==> key[s[i]] > key[x]
    ensures
      var r := s[..at] + [x] + s[at..];
      (forall y :: y in r ==> y in key) && SortedBy(r, key)
  {
    var r := s[..at] + [x] + s[at..];
    forall i, j | 0 <= i < j < |r|
      ensures r[i] in key && r[j] in key && key[r[i]] <= key[r[j]]
    {
      assert r[i] == if i < at then s[i] else if i == at then x else s[i - 1];
      assert r[j] == if j < at then s[j] else if j == at then x else s[j - 1];
      assert i < at ==> key[s[i]] <= key[s[at - 1]];
    }
  }

  /** sort.SliceStable by a key. */
  method SortBy<T>(s: seq<T>, key: map<T, int>) returns (r: seq<T>)
    requires forall x :: x in s ==> x in key
    ensures forall x :: x in r <==> x in s
    ensures |r| == |s| && (NoDuplicates(s) ==> NoDuplicates(r))
    ensures SortedBy(r, key)
  {
    r := [];
    for i := 0 to |s|
      invariant forall x :: x in r <==> x in s[..i]
      invariant |r| == i && (NoDuplicates(s) ==> NoDuplicates(r))
      invariant SortedBy(r, key)
    {
      assert s[..i + 1] == s[..i] + [s[i]];
      assert NoDuplicates(s) ==> s[i] !in s[..i];
      r := Insert(r, s[i], key);
    }
    assert s[..|s|] == s;
  }

  function IdKeys(s: seq<TestEntry>): (r: map<TestEntry, int>)
    ensures r.Keys == set e | e in s
    ensures forall e :: e in r ==> r[e] == e.id
  {
    map e | e in s :: e.id
  }

  /** A bucket in the order of the ids. */
  method SortById(s: seq<TestEntry>, ghost testEntries: map<int, TestEntry>) returns (r: seq<TestEntry>)
    requires AllIn(s, testEntries) && NoDuplicates(Ids(s))
    ensures AllIn(r, testEntries) && SortedById(Ids(r)) && NoDuplicates(Ids(r))
    ensures forall id :: id in Ids(r) <==> id in Ids(s)
  {
    DistinctEntries(s);
    r := SortBy(s, IdKeys(s));
    SortedIds(s, r, testEntries);
  }

  lemma DistinctEntries(s: seq<TestEntry>)
    requires NoDuplicates(Ids(s))
    ensures NoDuplicates(s)
  {
    forall i, j | 0 <= i < j < |s|
      ensures s[i] != s[j]
    {
      assert Ids(s)[i] != Ids(s)[j];
    }
  }

  lemma SortedIds(s: seq<TestEntry>, r: seq<TestEntry>, testEntries: map<int, TestEntry>)
    requires AllIn(s, testEntries) && NoDuplicates(r) && forall e :: e in r <==> e in s
    requires forall i, j :: 0 <= i < j < |r| ==> r[i].id <= r[j].id
    ensures AllIn(r, testEntries) && SortedById(Ids(r)) && NoDuplicates(Ids(r))
    ensures forall id :: id in Ids(r) <==> id in Ids(s)
  {
    forall i, j | 0 <= i < j < |r|
      ensures r[i].id < r[j].id
    {
      assert r[i] in s && r[j] in s;
    }
    forall id
      ensures id in Ids(r) <==> id in Ids(s)
    {
      if id in Ids(r) {
        var i :| 0 <= i < |r| && Ids(r)[i] == id;
        assert r[i] in s;
        var j :| 0 <= j < |s| && s[j] == r[i];
        assert Ids(s)[j] == id;
      }
      if id in Ids(s) {
        var i :| 0 <= i < |s| && Ids(s)[i] == id;
        assert s[i] in r;
        var j :| 0 <= j < |r| && r[j] == s[i];
        assert Ids(r)[j] == id;
      }
    }
  }

  /** The four buckets are sorted. */
  method SortBuckets(tc: TestCollection)
    requires tc.Valid() && Partition(tc.View())
    modifies tc`queuedTests, tc`runningTests, tc`completedTests, tc`testsForRetry
    ensures tc.Valid() && Partition(tc.View()) && SameFields(old(tc.View()), tc.View())
    ensures tc.View().entries == old(tc.View()).entries && BucketsSorted(tc.View())
  {
    hide NoDuplicates, OwnIds, EntryViews, Ids, TestEntry.View, Partition, AllIn, SortedById;
    ghost var c := tc.View();
    tc.Fields();
    BucketsAreDistinct(c);
    var queued := SortById(tc.queuedTests, tc.testEntries);
    var running := SortById(tc.runningTests, tc.testEntries);
    var completed := SortById(tc.completedTests, tc.testEntries);
    var retry := SortById(tc.testsForRetry, tc.testEntries);
    SortingKeepsPartition(c, Ids(queued), Ids(running), Ids(completed), Ids(retry));
    tc.SetBuckets(queued, running, completed, retry);
  }

  lemma BucketsAreDistinct(c: Collection)
    requires Partition(c)
    ensures NoDuplicates(c.queued) && NoDuplicates(c.running) && NoDuplicates(c.completed) && NoDuplicates(c.retry)
  {
  }

  lemma SortingKeepsPartition(c: Collection, queued: seq<int>, running: seq<int>, completed: seq<int>, retry: seq<int>)
    requires Partition(c)
    requires NoDuplicates(queued) && NoDuplicates(running) && NoDuplicates(completed) && NoDuplicates(retry)
    requires forall i :: (i in queued <==> i in c.queued)
    requires forall i :: (i in running <==> i in c.running)
    requires forall i :: (i in completed <==> i in c.completed)
    requires forall i :: (i in retry <==> i in c.retry)
    ensures Partition(c.(queued := queued, running := running, completed := completed, retry := retry))
  {
  }

  ghost predicate BucketsSorted(c: Collection) {
    SortedById(c.queued) && SortedById(c.retry) && SortedById(c.running) && SortedById(c.completed)
  }

  /** The tests of one collection are loaded. */
  method LoadTests(tc: TestCollection, store: FilePersistence<Stored>, ghost db: Database)
    requires Clean(store.files) && Contents(store.files) == db.store && StoreOk(db) && tc.uuid in db.collections
    requires tc.Valid() && tc.testEntries == map[] && NoBuckets(tc.View())
    modifies tc
    ensures tc.Valid() && fresh(tc.testEntries.Values) && SameFields(old(tc.View()), tc.View())
    ensures tc.View().entries == db.collections[tc.uuid].entries && Partition(tc.View()) && BucketsSorted(tc.View())
  {
    hide TestCollection.View, TestCollection.Valid, RebuiltSoFar, StoreOk, Contents, Clean, BucketsSorted;
    tc.Fields();
    NothingRebuilt(tc.View(), db.collections[tc.uuid].entries);
    ReadEntries(tc, store, db);
    ReadSpecs(tc, store, db);
    ReadResults(tc, store, db);
    SortBuckets(tc);
  }

  ghost predicate NoBuckets(c: Collection) {
    c.queued == [] && c.retry == [] && c.running == [] && c.completed == []
  }

  lemma NothingRebuilt(c: Collection, target: map<int, Entry>)
    requires c.entries == map[] && NoBuckets(c)
    ensures RebuiltSoFar(c, target, {}, {}, {})
  {
  }

  // ---- Collections ----

  /** A collection as its own record describes it, without its tests. */
  ghost predicate HeaderRead(c: Collection, kube: KubeTest, c': Collection) {
    && c'.kube == kube && c'.uid == c.uid && c'.nextId == c.nextId && c'.status == c.status && c'.bucket == c.bucket
    && c'.dateSubmitted == c.dateSubmitted && c'.startTime == c.startTime && c'.endTime == c.endTime
    && NoBuckets(c')
  }

  /** What a record and a fetched object make, if the record can be read and the object is the same. */
  method RestoreCollection(j: CollectionJson, fetch: (string, string) -> Option<KubeTest>, ghost c: Collection)
    returns (tc: TestCollection?)
    requires RecordOf(j, c) && c.uid == c.kube.uid
    ensures tc != null <==> IsFound(fetch, c)
    ensures tc != null ==>
              && fresh(tc) && tc.Valid() && tc.testEntries == map[] && tc.uuid == c.uid && tc.bucket == c.bucket
              && HeaderRead(c.(nextId := j.nextTestEntryId), FoundFor(fetch, c).value, tc.View())
  {
    var instance := fetch(j.kubeNamespace, j.kubeName);
    if instance.None? {
      return null;
    }
    if instance.value.uid != j.kubeUid {
      return null;
    }
    var status, bucket := CollectionStatusOf(j.status), CollectionBucketOf(j.parentBucket);
    if status.None? || bucket.None? {
      return null;
    }
    tc := new TestCollection.Restored(instance.value, status.value, j.dateSubmitted, j.startTime, j.endTime,
                                      j.nextTestEntryId, bucket.value);
  }

  /** The record of a collection, as it stands under its key. */
  method ReadRecord(store: FilePersistence<Stored>, key: string) returns (j: Option<CollectionJson>)
    requires Clean(store.files)
    ensures key in Contents(store.files) && Contents(store.files)[key].StoredCollection? ==>
              j == Some(Contents(store.files)[key].collection)
  {
    hide FileName, StripTxt;
    assert [key][..0] == [];
    var values := store.ReadValues([key]);
    if key !in values || values[key].None? || !values[key].value.StoredCollection? {
      return None;
    }
    j := Some(values[key].value.collection);
  }

  /** The headers of the collections whose keys are among `seen` have been read. */
  ghost predicate HeadersRead(db: Database, fetch: (string, string) -> Option<KubeTest>, seen: set<string>, views: map<string, Collection>) {
    && (forall u :: u in views <==> u in db.collections && EntityKey(u) in seen && IsFound(fetch, db.collections[u]))
    && (forall u {:trigger views[u]} :: u in views ==>
          HeaderRead(AsStored(db, u), FoundFor(fetch, db.collections[u]).value, views[u]))
  }

  lemma OneMoreHeader(db: Database, fetch: (string, string) -> Option<KubeTest>, seen: set<string>, views: map<string, Collection>,
                      uid: string, view: Collection)
    requires HeadersRead(db, fetch, seen, views) && uid in db.collections
    ensures !IsFound(fetch, db.collections[uid]) ==> HeadersRead(db, fetch, seen + {EntityKey(uid)}, views)
    ensures IsFound(fetch, db.collections[uid])
            && HeaderRead(AsStored(db, uid), FoundFor(fetch, db.collections[uid]).value, view)
            ==> HeadersRead(db, fetch, seen + {EntityKey(uid)}, views[uid := view])
    ensures EntityKey(uid) !in seen ==> uid !in views
  {
    hide IsFound, HeaderRead, EntityKey;
    forall u | EntityKey(u) == EntityKey(uid)
      ensures u == uid
    {
      EntityKeyInjective(u, uid);
    }
  }

  lemma OneMoreListed(views: map<string, Collection>, waiting: seq<string>, running: seq<string>, completed: seq<string>,
                      uid: string, view: Collection)
    requires ListedByBucket(views, waiting, running, completed) && uid !in views
    ensures ListedByBucket(views[uid := view],
                           waiting + if view.bucket.WaitingBucket? then [uid] else [],
                           running + if view.bucket.RunningBucket? then [uid] else [],
                           completed + if view.bucket.CompletedBucket? then [uid] else [])
  {
    OneMoreHeld(views, waiting, WaitingBucket, uid, view);
    OneMoreHeld(views, running, RunningBucket, uid, view);
    OneMoreHeld(views, completed, CompletedBucket, uid, view);
  }

  lemma OneMoreHeld(views: map<string, Collection>, uids: seq<string>, bucket: CollectionBucket, uid: string, view: Collection)
    requires Holds(views, uids, bucket) && uid !in views
    ensures Holds(views[uid := view], uids + if view.bucket == bucket then [uid] else [], bucket)
  {
    assert uid !in uids;
    AppendMembers(uids, uid);
    assert uids + [] == uids;
  }

  /** What has been loaded so far, before any test has been. */
  ghost predicate LoadedSoFar(result: KoupletDB, db: Database, fetch: (string, string) -> Option<KubeTest>, seen: set<string>)
    reads result, result.collections.Values, EntriesOf(result.collections)
  {
    && result.Valid()
    && HeadersRead(db, fetch, seen, CollectionViews(result.collections))
    && Listed(result)
    && (forall c :: c in result.collections.Values ==> c.testEntries == map[])
  }

  ghost predicate Listed(result: KoupletDB)
    reads result`collections, result`waitingCollections, result`runningCollections, result`completedCollections
    reads result.collections.Values, EntriesOf(result.collections)
  {
    ListedByBucket(CollectionViews(result.collections), Uuids(result.waitingCollections), Uuids(result.runningCollections),
                   Uuids(result.completedCollections))
  }

  /** One stored collection joins the database. */
  method AddCollection(result: KoupletDB, tc: TestCollection, ghost db: Database,
                       fetch: (string, string) -> Option<KubeTest>, ghost seen: set<string>)
    requires LoadedSoFar(result, db, fetch, seen) && tc.Valid() && tc.uuid in db.collections && tc.uuid !in result.collections
    requires IsFound(fetch, db.collections[tc.uuid]) && EntityKey(tc.uuid) !in seen
    requires
      var c := db.collections[tc.uuid];
      HeaderRead(AsStored(db, tc.uuid), FoundFor(fetch, c).value, tc.View()) && tc.testEntries == map[] && tc.bucket == c.bucket
    modifies result`collections, result`waitingCollections, result`runningCollections, result`completedCollections
    ensures LoadedSoFar(result, db, fetch, seen + {EntityKey(tc.uuid)})
    ensures result.collections == old(result.collections)[tc.uuid := tc]
  {
    hide HeadersRead, HeaderRead, ListedByBucket, KoupletDB.Valid, TestCollection.View, TestCollection.Valid,
      EntityKey, EntriesOf, CollectionViews;
    ghost var views := CollectionViews(result.collections);
    OneMoreHeader(db, fetch, seen, views, tc.uuid, tc.View());
    BucketIs(AsStored(db, tc.uuid), FoundFor(fetch, db.collections[tc.uuid]).value, tc.View());
    OneMoreListed(views, Uuids(result.waitingCollections), Uuids(result.runningCollections),
                  Uuids(result.completedCollections), tc.uuid, tc.View());
    result.AddToBucketForPersistence(tc);
    assert CollectionViews(result.collections) == views[tc.uuid := tc.View()];
  }

  lemma BucketIs(c: Collection, kube: KubeTest, view: Collection)
    requires HeaderRead(c, kube, view)
    ensures view.bucket == c.bucket
  {
  }

  /** One turn of the loop over the entity keys. */
  method ReadCollection(result: KoupletDB, store: FilePersistence<Stored>, key: string,
                        fetch: (string, string) -> Option<KubeTest>, ghost db: Database, ghost seen: set<string>)
    requires Clean(store.files) && Contents(store.files) == db.store && StoreOk(db)
    requires key in db.store && ENTITY <= key && key !in seen && LoadedSoFar(result, db, fetch, seen)
    modifies result`collections, result`waitingCollections, result`runningCollections, result`completedCollections
    ensures LoadedSoFar(result, db, fetch, seen + {key})
    ensures forall c :: c in result.collections.Values ==> c in old(result.collections.Values) || fresh(c)
  {
    hide LoadedSoFar, StoreOk, Contents, Clean, IsFound, HeaderRead, EntityKey, RecordOf, TestCollection.View,
      TestCollection.Valid;
    ghost var uid := EntityKeysAre(db, key);
    UidsMatch(db, uid);
    AlreadySeen(result, db, fetch, seen, uid);
    assert forall e :: e in EntriesOf(result.collections) ==> allocated(e);
    var j := ReadRecord(store, key);
    if j.None? {
      return;
    }
    var tc := RestoreCollection(j.value, fetch, db.collections[uid]);
    assert db.collections[uid].(nextId := j.value.nextTestEntryId) == AsStored(db, uid);
    assert LoadedSoFar(result, db, fetch, seen);
    if tc != null {
      AddCollection(result, tc, db, fetch, seen);
    } else {
      NotFoundChangesNothing(result, db, fetch, seen, uid);
    }
  }

  lemma UidsMatch(db: Database, uid: string)
    requires StoreOk(db) && uid in db.collections
    ensures db.collections[uid].uid == uid && db.collections[uid].kube.uid == uid
  {
    hide IsUid, WriteBackOk, Partition, Shapes, Forest, Retried, DatabaseInvariant.ListsOk, DatabaseInvariant.InOrder;
    StoreParts(db);
    DatabaseInvariant.CollectionIsHeld(db, uid);
  }

  lemma AlreadySeen(result: KoupletDB, db: Database, fetch: (string, string) -> Option<KubeTest>, seen: set<string>, uid: string)
    requires LoadedSoFar(result, db, fetch, seen) && uid in db.collections && EntityKey(uid) !in seen
    ensures uid !in result.collections
  {
    hide HeaderRead, IsFound, ListedByBucket, KoupletDB.Valid, EntityKey;
  }

  lemma NotFoundChangesNothing(result: KoupletDB, db: Database, fetch: (string, string) -> Option<KubeTest>, seen: set<string>, uid: string)
    requires LoadedSoFar(result, db, fetch, seen) && uid in db.collections && !IsFound(fetch, db.collections[uid])
    ensures LoadedSoFar(result, db, fetch, seen + {EntityKey(uid)})
  {
    hide HeadersRead, HeaderRead, ListedByBucket, KoupletDB.Valid, EntityKey;
    OneMoreHeader(db, fetch, seen, CollectionViews(result.collections), uid, db.collections[uid]);
  }

  ghost function KeysBefore(keys: seq<string>, n: nat): set<string>
    requires n <= |keys|
  {
    set key | key in keys[..n]
  }

  /** Every stored collection whose KoupletTest is still there joins the new database. */
  method ReadCollections(pc: PersistenceContext, fetch: (string, string) -> Option<KubeTest>, ghost db: Database)
    returns (result: KoupletDB, ghost seen: set<string>)
    requires Clean(pc.store.files) && Contents(pc.store.files) == db.store && StoreOk(db)
    ensures fresh(result) && result.persistenceContext == pc && fresh(result.collections.Values)
    ensures result.testStartTimes == []
    ensures LoadedSoFar(result, db, fetch, seen)
    ensures forall key :: key in seen <==> key in db.store && ENTITY <= key
  {
    hide StoreOk, Contents, Clean, LoadedSoFar;
    result := new KoupletDB(pc);
    var entities := pc.store.ListKeysByPrefix(ENTITY);
    NothingLoaded(result, db, fetch);
    assert KeysBefore(entities, 0) == {};
    for i := 0 to |entities|
      invariant LoadedSoFar(result, db, fetch, KeysBefore(entities, i)) && fresh(result.collections.Values)
      invariant result.testStartTimes == []
    {
      assert entities[i] in entities;
      KeysOneMore(entities, i);
      ReadCollection(result, pc.store, entities[i], fetch, db, KeysBefore(entities, i));
    }
    seen := KeysBefore(entities, |entities|);
    assert entities[..|entities|] == entities;
  }

  lemma KeysOneMore(keys: seq<string>, i: nat)
    requires i < |keys| && NoDuplicates(keys)
    ensures KeysBefore(keys, i + 1) == KeysBefore(keys, i) + {keys[i]}
    ensures keys[i] !in KeysBefore(keys, i)
  {
    assert keys[..i + 1] == keys[..i] + [keys[i]];
    var key := keys[i];
    assert key !in keys[..i];
  }

  lemma NothingLoaded(result: KoupletDB, db: Database, fetch: (string, string) -> Option<KubeTest>)
    requires result.collections == map[] && result.waitingCollections == [] && result.runningCollections == []
    requires result.completedCollections == []
    ensures LoadedSoFar(result, db, fetch, {})
  {
  }

  // ---- The tests of every collection ----

  /** How far the tests have been loaded: those of the collections that are not still to do. */
  ghost predicate TestsLoaded(result: KoupletDB, db: Database, fetch: (string, string) -> Option<KubeTest>, todo: set<string>)
    reads result, result.collections.Values, EntriesOf(result.collections)
  {
    && result.Valid() && Listed(result) && todo <= result.collections.Keys <= db.collections.Keys
    && (forall u {:trigger result.collections[u]} :: u in result.collections ==>
          LoadedAs(result.collections[u], AsStored(db, u), FoundFor(fetch, db.collections[u]), u in todo))
  }

  ghost predicate LoadedAs(tc: TestCollection, c: Collection, kube: Option<KubeTest>, headerOnly: bool)
    reads tc, tc.testEntries.Values
  {
    && kube.Some?
    && if headerOnly then HeaderRead(c, kube.value, tc.View()) && tc.testEntries == map[]
       else Rebuilt(c, kube.value, tc.View())
  }

  lemma LoadedIsRebuilt(c: Collection, kube: KubeTest, before: Collection, after: Collection)
    requires HeaderRead(c, kube, before) && SameFields(before, after)
    requires after.entries == c.entries && Partition(after) && BucketsSorted(after)
    ensures Rebuilt(c, kube, after)
  {
    hide Partition;
  }

  /** The tests of one collection. */
  method LoadTestsOf(result: KoupletDB, uid: string, store: FilePersistence<Stored>, ghost db: Database,
                     fetch: (string, string) -> Option<KubeTest>, ghost todo: set<string>)
    requires Clean(store.files) && Contents(store.files) == db.store && StoreOk(db)
    requires TestsLoaded(result, db, fetch, todo) && uid in todo
    modifies result.collections.Values
    ensures TestsLoaded(result, db, fetch, todo - {uid})
  {
    hide StoreOk, Contents, Clean, HeaderRead, Rebuilt, TestCollection.View, TestCollection.Valid, EntriesOf,
      BucketsSorted, SameFields, ListedByBucket, CollectionViews, Partition;
    var tc := result.collections[uid];
    result.CollectionIsListed(uid);
    result.OthersAreApart(tc);
    ghost var views := CollectionViews(result.collections);
    ghost var kube := FoundFor(fetch, db.collections[uid]);
    assert LoadedAs(tc, AsStored(db, uid), kube, true);
    HasNoBuckets(AsStored(db, uid), kube.value, tc.View());
    LoadTests(tc, store, db);
    LoadedIsRebuilt(AsStored(db, uid), kube.value, views[uid], tc.View());
    forall u | u in result.collections && result.collections[u] != tc
      ensures result.collections[u].View() == views[u] && result.collections[u].Valid()
    {
    }
    OneCollectionChanged(views, result.collections, tc);
    SameBucket(views[uid], tc.View());
    StillListed(views, uid, tc.View(), Uuids(result.waitingCollections), Uuids(result.runningCollections), Uuids(result.completedCollections));
  }

  lemma HasNoBuckets(c: Collection, kube: KubeTest, view: Collection)
    requires HeaderRead(c, kube, view)
    ensures NoBuckets(view)
  {
  }

  lemma SameBucket(before: Collection, after: Collection)
    requires SameFields(before, after)
    ensures after.bucket == before.bucket
  {
  }

  lemma StillListed(views: map<string, Collection>, uid: string, view: Collection, waiting: seq<string>, running: seq<string>, completed: seq<string>)
    requires ListedByBucket(views, waiting, running, completed) && uid in views && view.bucket == views[uid].bucket
    ensures ListedByBucket(views[uid := view], waiting, running, completed)
  {
  }

  /** The tests of all collections, in any order. */
  method LoadAllTests(result: KoupletDB, store: FilePersistence<Stored>, ghost db: Database,
                      fetch: (string, string) -> Option<KubeTest>)
    requires Clean(store.files) && Contents(store.files) == db.store && StoreOk(db)
    requires TestsLoaded(result, db, fetch, result.collections.Keys)
    modifies result.collections.Values
    ensures TestsLoaded(result, db, fetch, {})
  {
    hide StoreOk, Contents, Clean, TestsLoaded;
    var todo := result.collections.Keys;
    while todo != {}
      invariant todo <= result.collections.Keys && TestsLoaded(result, db, fetch, todo)
      decreases todo
    {
      var uid :| uid in todo;
      LoadTestsOf(result, uid, store, db, fetch, todo);
      todo := todo - {uid};
    }
  }

  // ---- Start times ----

  function TimeKeys(times: seq<int>): (r: map<int, int>)
    ensures forall t :: t in r <==> t in times
    ensures forall t :: t in r ==> r[t] == t
  {
    map t | t in times :: t
  }

  method ReadStartTimes(store: FilePersistence<Stored>) returns (times: seq<int>)
    requires Clean(store.files)
    ensures forall t :: t in times <==> StartFound(Contents(store.files), t)
    ensures SortedTimes(times)
  {
    hide Contents, Clean, ParseDecimal, AfterLastHyphen;
    var keys := store.ListKeysByPrefix(START_TIME);
    var found := ParseTimes(keys);
    ghost var contents := Contents(store.files);
    forall t
      ensures t in found <==> StartFound(contents, t)
    {
      if t in found {
        var i, millis :| 0 <= i < |keys| && ParseDecimal(AfterLastHyphen(keys[i])) == Some(millis) && t == millis * NANOS_PER_MILLI;
        assert keys[i] in keys;
        assert StartUnder(contents, keys[i], millis);
      }
      if StartFound(contents, t) {
        var key, millis :| StartUnder(contents, key, millis) && t == millis * NANOS_PER_MILLI;
        assert key in keys;
        var i :| 0 <= i < |keys| && keys[i] == key;
        assert ParseDecimal(AfterLastHyphen(keys[i])) == Some(millis);
      }
    }
    times := SortBy(found, TimeKeys(found));
  }

  method ParseTimes(keys: seq<string>) returns (found: seq<int>)
    ensures forall t :: t in found <==>
              exists i, millis :: 0 <= i < |keys| && ParseDecimal(AfterLastHyphen(keys[i])) == Some(millis) && t == millis * NANOS_PER_MILLI
  {
    hide ParseDecimal, AfterLastHyphen;
    found := [];
    for n := 0 to |keys|
      invariant forall t :: t in found <==>
                  exists i, millis :: 0 <= i < n && ParseDecimal(AfterLastHyphen(keys[i])) == Some(millis) && t == millis * NANOS_PER_MILLI
    {
      var startTimeValue := ParseDecimal(AfterLastHyphen(keys[n]));
      if startTimeValue.Some? {
        found := found + [startTimeValue.value * NANOS_PER_MILLI];
      }
    }
  }

  // ---- The order of the collections ----

  function DateKeys(s: seq<TestCollection>): (r: map<TestCollection, int>)
    reads s
    ensures r.Keys == set c | c in s
    ensures forall c :: c in r ==> r[c] == c.dateSubmitted
  {
    map c | c in s :: c.dateSubmitted
  }

  ghost predicate SortedByDate(s: seq<TestCollection>)
    reads s
  {
    forall i, j :: 0 <= i < j < |s| ==> s[i].dateSubmitted <= s[j].dateSubmitted
  }

  method SortByDate(s: seq<TestCollection>, ghost collections: map<string, TestCollection>) returns (r: seq<TestCollection>)
    requires AllHeld(s, collections) && NoDuplicates(Uuids(s))
    ensures AllHeld(r, collections) && NoDuplicates(Uuids(r)) && SortedByDate(r)
    ensures forall u :: u in Uuids(r) <==> u in Uuids(s)
  {
    DistinctCollections(s);
    r := SortBy(s, DateKeys(s));
    SameUuids(s, r, collections);
  }

  lemma DistinctCollections(s: seq<TestCollection>)
    requires NoDuplicates(Uuids(s))
    ensures NoDuplicates(s)
  {
    forall i, j | 0 <= i < j < |s|
      ensures s[i] != s[j]
    {
      assert Uuids(s)[i] != Uuids(s)[j];
    }
  }

  lemma SameUuids(s: seq<TestCollection>, r: seq<TestCollection>, collections: map<string, TestCollection>)
    requires AllHeld(s, collections) && NoDuplicates(r) && forall c :: c in r <==> c in s
    ensures AllHeld(r, collections) && NoDuplicates(Uuids(r))
    ensures forall u :: u in Uuids(r) <==> u in Uuids(s)
  {
    forall i, j | 0 <= i < j < |r|
      ensures Uuids(r)[i] != Uuids(r)[j]
    {
      assert r[i] in s && r[j] in s;
    }
    forall u
      ensures u in Uuids(r) <==> u in Uuids(s)
    {
      if u in Uuids(r) {
        var i :| 0 <= i < |r| && Uuids(r)[i] == u;
        assert r[i] in s;
        var j :| 0 <= j < |s| && s[j] == r[i];
        assert Uuids(s)[j] == u;
      }
      if u in Uuids(s) {
        var i :| 0 <= i < |s| && Uuids(s)[i] == u;
        assert s[i] in r;
        var j :| 0 <= j < |r| && r[j] == s[i];
        assert Uuids(r)[j] == u;
      }
    }
  }

  /** The lists of a database hold the same collections in another order. */
  ghost predicate Reordered(result: KoupletDB, waiting: seq<TestCollection>, running: seq<TestCollection>, completed: seq<TestCollection>)
    reads result
  {
    && AllHeld(waiting, result.collections) && AllHeld(running, result.collections) && AllHeld(completed, result.collections)
    && NoDuplicates(Uuids(waiting)) && NoDuplicates(Uuids(running)) && NoDuplicates(Uuids(completed))
    && (forall u :: u in Uuids(waiting) <==> u in Uuids(result.waitingCollections))
    && (forall u :: u in Uuids(running) <==> u in Uuids(result.runningCollections))
    && (forall u :: u in Uuids(completed) <==> u in Uuids(result.completedCollections))
  }

  method SortedLists(result: KoupletDB) returns (waiting: seq<TestCollection>, running: seq<TestCollection>, completed: seq<TestCollection>)
    requires result.Valid() && NoDuplicates(Uuids(result.waitingCollections))
    requires NoDuplicates(Uuids(result.runningCollections)) && NoDuplicates(Uuids(result.completedCollections))
    ensures Reordered(result, waiting, running, completed)
    ensures SortedByDate(waiting) && SortedByDate(running) && SortedByDate(completed)
  {
    hide NoDuplicates, TestCollection.Valid, OwnUuids, Uuids, AllHeld, SortedByDate, CollectionViews;
    waiting := SortByDate(result.waitingCollections, result.collections);
    running := SortByDate(result.runningCollections, result.collections);
    completed := SortByDate(result.completedCollections, result.collections);
  }

  lemma StillListedInOrder(result: KoupletDB, waiting: seq<TestCollection>, running: seq<TestCollection>, completed: seq<TestCollection>)
    requires Listed(result) && Reordered(result, waiting, running, completed)
    ensures ListedByBucket(CollectionViews(result.collections), Uuids(waiting), Uuids(running), Uuids(completed))
  {
    hide CollectionViews, Uuids, NoDuplicates;
  }

  method SortLists(result: KoupletDB)
    requires result.Valid() && Listed(result)
    modifies result`waitingCollections, result`runningCollections, result`completedCollections
    ensures result.Valid() && Listed(result) && CollectionViews(result.collections) == old(CollectionViews(result.collections))
    ensures SortedByDate(result.waitingCollections) && SortedByDate(result.runningCollections)
    ensures SortedByDate(result.completedCollections)
  {
    hide *;
    ghost var views := CollectionViews(result.collections);
    ListedOnce(result);
    EntriesAreAllocated(result);
    var waiting, running, completed := SortedLists(result);
    assert CollectionViews(result.collections) == views;
    StillListedInOrder(result, waiting, running, completed);
    AllAreHeld(result, waiting, running, completed);
    result.SetLists(waiting, running, completed);
    assert CollectionViews(result.collections) == views;
    IsListed(result);
  }

  lemma IsListed(result: KoupletDB)
    requires ListedByBucket(CollectionViews(result.collections), Uuids(result.waitingCollections),
                            Uuids(result.runningCollections), Uuids(result.completedCollections))
    ensures Listed(result)
  {
  }

  lemma EntriesAreAllocated(result: KoupletDB)
    ensures forall e :: e in EntriesOf(result.collections) ==> allocated(e)
  {
  }

  lemma AllAreHeld(result: KoupletDB, waiting: seq<TestCollection>, running: seq<TestCollection>, completed: seq<TestCollection>)
    requires Reordered(result, waiting, running, completed)
    ensures AllHeld(waiting, result.collections) && AllHeld(running, result.collections) && AllHeld(completed, result.collections)
  {
  }

  lemma ListedOnce(result: KoupletDB)
    requires Listed(result)
    ensures NoDuplicates(Uuids(result.waitingCollections)) && NoDuplicates(Uuids(result.runningCollections))
    ensures NoDuplicates(Uuids(result.completedCollections))
  {
  }

  // ---- load ----

  lemma HeadersAreAll(result: KoupletDB, db: Database, fetch: (string, string) -> Option<KubeTest>, seen: set<string>)
    requires LoadedSoFar(result, db, fetch, seen) && StoreOk(db)
    requires forall key :: key in seen <==> key in db.store && ENTITY <= key
    ensures TestsLoaded(result, db, fetch, result.collections.Keys)
    ensures forall u :: u in result.collections <==> u in db.collections && IsFound(fetch, db.collections[u])
  {
    hide HeaderRead, StoreOk, ListedByBucket, EntityKey, EntriesOf, TestCollection.View, KoupletDB.Valid;
    forall u | u in db.collections
      ensures EntityKey(u) in seen
    {
      EntityIsStored(db, u);
    }
    assert result.collections.Keys == CollectionViews(result.collections).Keys;
    forall u | u in result.collections
      ensures LoadedAs(result.collections[u], AsStored(db, u), FoundFor(fetch, db.collections[u]), true)
    {
      assert result.collections[u] in result.collections.Values;
    }
  }

  lemma TestsAreAll(result: KoupletDB, db: Database, fetch: (string, string) -> Option<KubeTest>)
    requires TestsLoaded(result, db, fetch, {})
    requires forall u :: u in result.collections <==> u in db.collections && IsFound(fetch, db.collections[u])
    ensures AllRebuilt(db, fetch, CollectionViews(result.collections)) && result.Valid() && Listed(result)
  {
    hide ListedByBucket, EntriesOf, TestCollection.View, KoupletDB.Valid, Rebuilt, IsFound;
    forall u | u in result.collections
      ensures Rebuilt(AsStored(db, u), FoundFor(fetch, db.collections[u]).value, CollectionViews(result.collections)[u])
    {
      assert LoadedAs(result.collections[u], AsStored(db, u), FoundFor(fetch, db.collections[u]), false);
    }
  }

  /** The collections and their tests, in a new database. */
  method LoadDatabase(pc: PersistenceContext, fetch: (string, string) -> Option<KubeTest>, ghost db: Database)
    returns (result: KoupletDB)
    requires Clean(pc.store.files) && Contents(pc.store.files) == db.store && StoreOk(db)
    ensures fresh(result) && result.persistenceContext == pc && result.testStartTimes == []
    ensures result.Valid() && AllRebuilt(db, fetch, CollectionViews(result.collections)) && Listed(result)
  {
    hide StoreOk, Contents, Clean, LoadedSoFar, TestsLoaded, AllRebuilt, Listed, IsFound, KoupletDB.Valid;
    ghost var seen;
    result, seen := ReadCollections(pc, fetch, db);
    HeadersAreAll(result, db, fetch, seen);
    LoadAllTests(result, pc.store, db, fetch);
    TestsAreAll(result, db, fetch);
  }

  /** load, at time `now`, from the store of a database that had been settled. */
  method Load(pc: PersistenceContext, fetch: (string, string) -> Option<KubeTest>, now: int, ghost db: Database)
    returns (result: KoupletDB)
    requires Clean(pc.store.files) && Contents(pc.store.files) == db.store && StoreOk(db)
    ensures fresh(result) && result.persistenceContext == pc && result.Valid()
    ensures Restarted(db, fetch, result.View()) && result.clock == now
    ensures pc.entryMap == map[] ==> NewlyStarted(result.View())
  {
    hide StoreOk, Contents, Clean, AllRebuilt, Listed, SortedByDate, StartFound, KoupletDB.Valid, CollectionViews, Restarted,
      ByDate, Uuids, ListedByBucket;
    result := LoadDatabase(pc, fetch, db);
    EntriesAreAllocated(result);
    var times := ReadStartTimes(pc.store);
    SetTimesAndSort(result, times, now, db, fetch);
    LoadedIsRestarted(result, db, fetch);
  }

  /** The parts of the new database, put together. */
  lemma LoadedIsRestarted(result: KoupletDB, db: Database, fetch: (string, string) -> Option<KubeTest>)
    requires Clean(result.persistenceContext.store.files) && Contents(result.persistenceContext.store.files) == db.store
    requires result.Valid() && AllRebuilt(db, fetch, CollectionViews(result.collections)) && Listed(result)
    requires SortedByDate(result.waitingCollections) && SortedByDate(result.runningCollections)
    requires SortedByDate(result.completedCollections)
    requires forall t :: t in result.testStartTimes <==> StartFound(db.store, t)
    requires SortedTimes(result.testStartTimes)
    ensures Restarted(db, fetch, result.View())
  {
    hide Contents, Clean, AllRebuilt, StartFound, KoupletDB.Valid, CollectionViews, ByDate, Uuids, ListedByBucket, SortedByDate,
      SortedTimes;
    HeldByDatabase(result);
    ListIsByDate(result, result.waitingCollections);
    ListIsByDate(result, result.runningCollections);
    ListIsByDate(result, result.completedCollections);
  }

  lemma HeldByDatabase(result: KoupletDB)
    requires result.Valid()
    ensures AllHeld(result.waitingCollections, result.collections) && AllHeld(result.runningCollections, result.collections)
    ensures AllHeld(result.completedCollections, result.collections)
  {
  }

  lemma ListIsByDate(result: KoupletDB, s: seq<TestCollection>)
    requires AllHeld(s, result.collections) && SortedByDate(s)
    ensures ByDate(CollectionViews(result.collections), Uuids(s))
  {
  }

  method SetTimesAndSort(result: KoupletDB, times: seq<int>, now: int, ghost db: Database, fetch: (string, string) -> Option<KubeTest>)
    requires result.Valid() && AllRebuilt(db, fetch, CollectionViews(result.collections)) && Listed(result)
    modifies result
    ensures result.Valid() && AllRebuilt(db, fetch, CollectionViews(result.collections)) && Listed(result)
    ensures result.testStartTimes == times && result.clock == now
    ensures result.submitted == Uuids(result.runningCollections) + Uuids(result.waitingCollections)
    ensures SortedByDate(result.waitingCollections) && SortedByDate(result.runningCollections)
    ensures SortedByDate(result.completedCollections)
  {
    hide CollectionViews, EntriesOf, KoupletDB.Valid, Rebuilt, IsFound, SortedByDate, Listed;
    ghost var views := CollectionViews(result.collections);
    SortLists(result);
    SetTimes(result, times, now);
    assert CollectionViews(result.collections) == views;
  }

  method SetTimes(result: KoupletDB, times: seq<int>, now: int)
    requires result.Valid() && Listed(result)
    modifies result`testStartTimes, result`clock, result`submitted
    ensures result.Valid() && Listed(result) && result.testStartTimes == times && result.clock == now
    ensures result.submitted == Uuids(result.runningCollections) + Uuids(result.waitingCollections)
    ensures CollectionViews(result.collections) == old(CollectionViews(result.collections))
  {
    hide *;
    ghost var views := CollectionViews(result.collections);
    EntriesAreAllocated(result);
    result.testStartTimes, result.clock := times, now;
    assert CollectionViews(result.collections) == views && Listed(result) && result.Valid();
    result.submitted := Uuids(result.runningCollections) + Uuids(result.waitingCollections);
    assert CollectionViews(result.collections) == views;
  }
}
