/** The write-back of the database to the file store: the pending writes are resolved in loops over maps, whose order
    does not matter, and keys that belong to no collection are removed. */
module Persistence {
  import opened Prelude
  import opened Text
  import opened TestModel
  import opened Keys
  import opened DatabaseSteps
  import opened Records
  import opened Scheduler
  import opened FileStore
  import Resolving
  import WriteBack
  import CollectionSteps

  /** Pending writes stand under their own keys. */
  ghost predicate PendingOk(dirty: map<string, Mark>) {
    forall k {:trigger dirty[k]} :: k in dirty ==> k == UpdateKey(dirty[k]) && MarkOk(dirty[k])
  }

  // ---- Store keys and file names ----

  lemma DecimalHasNoDot(n: int)
    ensures '.' !in Decimal(n)
  {
  }

  /** No store key contains the suffix of the files. */
  lemma StoreKeyIsClean(m: Mark)
    requires MarkOk(m)
    ensures !Contains(StoreKey(m), TXT)
  {
    match m {
      case AddStart(time) => DecimalHasNoDot(Millis(time));
      case RemoveStart(time) => DecimalHasNoDot(Millis(time));
      case CollectionShallow(uid) => UidHasNoLetterN(uid);
      case DeleteCollection(uid) => UidHasNoLetterN(uid);
      case EntryShallow(uid, id) => DecimalHasNoDot(id); UidHasNoLetterN(uid);
      case EntryResult(uid, id) => DecimalHasNoDot(id); UidHasNoLetterN(uid);
      case EntrySpec(uid, id) => DecimalHasNoDot(id); UidHasNoLetterN(uid);
    }
    NoDotIsClean(StoreKey(m));
  }

  /** Pending writes of the same key write the same value. */
  lemma OneValuePerKey(collections: map<string, Collection>, m: Mark, n: Mark)
    requires MarkOk(m) && MarkOk(n) && StoreKey(m) == StoreKey(n)
    requires Fresh(collections, m).Some? && Fresh(collections, n).Some?
    ensures Fresh(collections, m) == Fresh(collections, n)
  {
    hide StoreKey;
    if IsUpdate(m) && IsUpdate(n) {
      StoreKeyInjective(m, n);
    } else if IsUpdate(m) {
      WriteBack.UpdateIsNoStart(m);
      Resolving.StartsAreStarts(n);
    } else if IsUpdate(n) {
      WriteBack.UpdateIsNoStart(n);
      Resolving.StartsAreStarts(m);
    }
  }

  // ---- Removing keys ----

  /** Remove every key with a prefix. */
  method RemoveByPrefix(store: FilePersistence<Stored>, prefix: string)
    requires Clean(store.files)
    modifies store
    ensures Clean(store.files)
    ensures Contents(store.files) == map key | key in old(Contents(store.files)) && !(prefix <= key) :: old(Contents(store.files))[key]
  {
    hide FileName, StripTxt, Contents;
    var matchingValues := store.ListKeysByPrefix(prefix);
    RemoveKeys(store, matchingValues);
  }

  /** Remove one key, if it is there. */
  method RemoveKey(store: FilePersistence<Stored>, key: string)
    requires Clean(store.files) && !Contains(key, TXT)
    modifies store
    ensures Clean(store.files)
    ensures Contents(store.files) == old(Contents(store.files)) - {key}
  {
    hide FileName, StripTxt;
    StripRoundTrip(key);
    var keys := [key];
    assert keys[1..] == [];
    ghost var n := Deleted(store.files, keys);
    DeletedContents(store.files, keys[..n]);
    var ok := store.DeleteByKey(keys);
    if n == 0 {
      assert keys[..n] == [];
      assert Contents(store.files) - {key} == Contents(store.files);
    } else {
      assert keys[..n] == [key];
    }
  }

  /** Remove every key of the collections to be deleted. */
  method RemoveCollections(store: FilePersistence<Stored>, toDelete: set<string>)
    requires Clean(store.files)
    modifies store
    ensures Clean(store.files)
    ensures Contents(store.files) == Kept(old(Contents(store.files)), toDelete)
  {
    hide BelongsTo, Contents, Clean;
    NothingDeleted(Contents(store.files));
    var todo := toDelete;
    while todo != {}
      invariant todo <= toDelete && Clean(store.files)
      invariant Contents(store.files) == Kept(old(Contents(store.files)), toDelete - todo)
      decreases todo
    {
      var tcUuid :| tcUuid in todo;
      KeptOneMore(old(Contents(store.files)), toDelete - todo, tcUuid);
      assert toDelete - todo + {tcUuid} == toDelete - (todo - {tcUuid});
      RemoveByPrefix(store, ENTITY + tcUuid);
      RemoveByPrefix(store, COLLECTION + tcUuid);
      todo := todo - {tcUuid};
    }
    assert toDelete - todo == toDelete;
  }

  /** What is left when the keys of some collections are removed. */
  ghost function Kept(contents: map<string, Stored>, gone: set<string>): map<string, Stored> {
    map key | key in contents && !BelongsToAny(key, gone) :: contents[key]
  }

  ghost predicate BelongsToAny(key: string, gone: set<string>) {
    exists uid :: uid in gone && BelongsTo(key, uid)
  }

  lemma NothingDeleted(contents: map<string, Stored>)
    ensures Kept(contents, {}) == contents
  {
  }

  lemma KeptOneMore(contents: map<string, Stored>, gone: set<string>, uid: string)
    ensures
      var c := Kept(contents, gone);
      var d := map key | key in c && !(ENTITY + uid <= key) :: c[key];
      (map key | key in d && !(COLLECTION + uid <= key) :: d[key]) == Kept(contents, gone + {uid})
  {
    forall key
      ensures BelongsToAny(key, gone + {uid}) <==> BelongsToAny(key, gone) || BelongsTo(key, uid)
    {
      if BelongsToAny(key, gone) {
        var v :| v in gone && BelongsTo(key, v);
        assert v in gone + {uid};
      }
      if BelongsTo(key, uid) {
        assert uid in gone + {uid};
      }
    }
  }

  // ---- resolve ----

  /** The collections whose deletion is pending. */
  method CollectionsToDelete(entryMap: map<string, Mark>) returns (toDelete: set<string>)
    ensures AreDoomed(toDelete, entryMap)
  {
    toDelete := {};
    var todo := entryMap.Keys;
    while todo != {}
      invariant todo <= entryMap.Keys
      invariant forall uid :: uid in toDelete <==> exists k :: k in entryMap && k !in todo && entryMap[k] == DeleteCollection(uid)
      decreases todo
    {
      var k :| k in todo;
      if entryMap[k].DeleteCollection? {
        toDelete := toDelete + {entryMap[k].uid};
      }
      todo := todo - {k};
    }
  }

  ghost predicate AreDoomed(uids: set<string>, dirty: map<string, Mark>) {
    forall uid :: uid in uids <==> Doomed(dirty, uid)
  }

  ghost predicate AreToProcess(entries: seq<Mark>, dirty: map<string, Mark>, toDelete: set<string>) {
    forall m :: m in entries <==> (exists k :: k in dirty && dirty[k] == m) && !IsAbout(m, toDelete)
  }

  /** The pending writes that are not about a collection to be deleted. */
  method EntriesToProcess(entryMap: map<string, Mark>, toDelete: set<string>) returns (entries: seq<Mark>)
    ensures AreToProcess(entries, entryMap, toDelete)
  {
    entries := [];
    var todo := entryMap.Keys;
    while todo != {}
      invariant todo <= entryMap.Keys
      invariant forall m :: m in entries <==>
                  (exists k :: k in entryMap && k !in todo && entryMap[k] == m) && !IsAbout(m, toDelete)
      decreases todo
    {
      var k :| k in todo;
      if !IsAbout(entryMap[k], toDelete) {
        entries := entries + [entryMap[k]];
      }
      todo := todo - {k};
    }
  }

  predicate IsAbout(m: Mark, uids: set<string>) {
    HasUid(m) && m.uid in uids
  }

  /** The value a pending update writes, if what it is about is there. */
  function Marshal(db: KoupletDB, m: Mark): (r: Option<Stored>)
    requires db.Valid()
    reads db, db.collections.Values, EntriesOf(db.collections)
    ensures r == Fresh(CollectionViews(db.collections), m)
  {
    if m.AddStart? then Some(StoredNothing)
    else if !IsUpdate(m) || m.uid !in db.collections then None
    else
      var tc := db.collections[m.uid];
      if m.CollectionShallow? then Some(StoredCollection(MarshalCollection(tc)))
      else if m.id !in tc.testEntries then None
      else
        PartsAreThere(db.collections, tc, m.uid, m.id);
        MarshalEntry(tc.testEntries[m.id], m)
  }

  lemma PartsAreThere(collections: map<string, TestCollection>, tc: TestCollection, uid: string, id: int)
    requires uid in collections && collections[uid] == tc && id in tc.testEntries
    ensures tc in collections.Values && tc.testEntries[id] in EntriesOf(collections)
  {
    var te := tc.testEntries[id];
    assert uid in collections.Keys && id in tc.testEntries.Keys && te in tc.testEntries.Values;
  }

  /** generateJSONTestCollection */
  function MarshalCollection(tc: TestCollection): (j: CollectionJson)
    reads tc, tc.testEntries.Values
    ensures j == ToCollectionJson(tc.View())
  {
    CollectionJson(
      CollectionBucketName(tc.bucket), tc.kubeObj.namespace, tc.kubeObj.name, tc.kubeObj.uid,
      tc.nextTestEntryID, tc.uuid, CollectionStatusName(tc.status), tc.dateSubmitted, tc.startTime, tc.endTime)
  }

  /** generateJSONTestEntryShallow, or the result or the specification of an entry */
  function MarshalEntry(te: TestEntry, m: Mark): (r: Option<Stored>)
    requires IsUpdate(m) && !m.CollectionShallow?
    reads te
    ensures r == if m.EntryShallow? then Some(StoredEntry(ToEntryJson(te.View())))
                 else if m.EntrySpec? then Some(StoredSpec(te.View().spec))
                 else if te.View().result.Some? then Some(StoredResult(te.View().result.value))
                 else None
  {
    if m.EntryShallow? then
      Some(StoredEntry(EntryJson(
        EntryBucketName(te.bucket), te.id, te.retryFromID, EntryStatusName(te.status), te.clusterResource, te.processed)))
    else if m.EntrySpec? then Some(StoredSpec(te.testEntry))
    else if te.result.Some? then Some(StoredResult(te.result.value))
    else None
  }

  /** What has been gathered from some of the pending writes: values to be written, and removed start times. */
  ghost predicate Gathered(collections: map<string, Collection>, entries: seq<Mark>, kvResult: map<string, Stored>,
                           removed: set<string>) {
    && (forall key :: key in kvResult ==> exists m :: WritesKey(collections, entries, m, key, kvResult[key]))
    && (forall m :: m in entries && Fresh(collections, m).Some? ==> StoreKey(m) in kvResult)
    && AreRemovals(entries, removed)
  }

  /** The keys of the start times to be removed. */
  ghost predicate AreRemovals(entries: seq<Mark>, removed: set<string>) {
    forall key :: key in removed <==> exists m :: m in entries && m.RemoveStart? && StoreKey(m) == key
  }

  ghost predicate WritesKey(collections: map<string, Collection>, entries: seq<Mark>, m: Mark, key: string, value: Stored) {
    m in entries && StoreKey(m) == key && Fresh(collections, m) == Some(value)
  }

  lemma GatheredOneMore(collections: map<string, Collection>, entries: seq<Mark>, m: Mark, kvResult: map<string, Stored>,
                        removed: set<string>)
    requires Gathered(collections, entries, kvResult, removed)
    ensures
      var now := Fresh(collections, m);
      Gathered(collections, entries + [m],
               if now.Some? then kvResult[StoreKey(m) := now.value] else kvResult,
               if m.RemoveStart? then removed + {StoreKey(m)} else removed)
  {
    hide StoreKey, Fresh;
    var now := Fresh(collections, m);
    var kv := if now.Some? then kvResult[StoreKey(m) := now.value] else kvResult;
    forall key | key in kv
      ensures exists n :: WritesKey(collections, entries + [m], n, key, kv[key])
    {
      if now.Some? && key == StoreKey(m) {
        assert WritesKey(collections, entries + [m], m, key, kv[key]);
      } else {
        var n :| WritesKey(collections, entries, n, key, kvResult[key]);
        assert WritesKey(collections, entries + [m], n, key, kv[key]);
      }
    }
    RemovedOneMore(entries, m, removed);
  }

  lemma RemovedOneMore(entries: seq<Mark>, m: Mark, removed: set<string>)
    requires AreRemovals(entries, removed)
    ensures AreRemovals(entries + [m], if m.RemoveStart? then removed + {StoreKey(m)} else removed)
  {
    hide StoreKey;
    var r := if m.RemoveStart? then removed + {StoreKey(m)} else removed;
    forall key
      ensures key in r <==> exists n :: n in entries + [m] && n.RemoveStart? && StoreKey(n) == key
    {
      if key in removed {
        var n :| n in entries && n.RemoveStart? && StoreKey(n) == key;
        assert n in entries + [m];
      }
      if m.RemoveStart? && key == StoreKey(m) {
        assert m in entries + [m];
      }
    }
  }

  /** Gather the values to be written, and remove the old start times right away. */
  method Gather(db: KoupletDB, entries: seq<Mark>)
    returns (kvResult: map<string, Stored>, ghost removed: set<string>)
    requires db.Valid() && Clean(db.persistenceContext.store.files) && forall m :: m in entries ==> MarkOk(m)
    modifies db.persistenceContext.store
    ensures db.Valid() && Clean(db.persistenceContext.store.files)
    ensures CollectionViews(db.collections) == old(CollectionViews(db.collections))
    ensures Contents(db.persistenceContext.store.files) == old(Contents(db.persistenceContext.store.files)) - removed
    ensures Gathered(old(CollectionViews(db.collections)), entries, kvResult, removed)
  {
    hide *;
    kvResult, removed := map[], {};
    ghost var collections, contents := CollectionViews(db.collections), Contents(db.persistenceContext.store.files);
    NothingGathered(collections);
    for i := 0 to |entries|
      invariant db.Valid() && Clean(db.persistenceContext.store.files)
      invariant CollectionViews(db.collections) == collections
      invariant Contents(db.persistenceContext.store.files) == contents - removed
      invariant Gathered(collections, entries[..i], kvResult, removed)
    {
      assert entries[i] in entries;
      assert entries[..i + 1] == entries[..i] + [entries[i]];
      GatheredOneMore(collections, entries[..i], entries[i], kvResult, removed);
      kvResult := GatherOne(db, entries[i], kvResult);
      RemovedTwice(contents, removed, if entries[i].RemoveStart? then {StoreKey(entries[i])} else {});
      removed := if entries[i].RemoveStart? then removed + {StoreKey(entries[i])} else removed;
    }
    assert entries[..|entries|] == entries;
  }

  lemma RemovedTwice(contents: map<string, Stored>, removed: set<string>, more: set<string>)
    ensures contents - removed - more == contents - (removed + more)
  {
  }

  /** One turn of the loop of resolve. */
  method GatherOne(db: KoupletDB, m: Mark, kvResult: map<string, Stored>)
    returns (kvResult': map<string, Stored>)
    requires db.Valid() && Clean(db.persistenceContext.store.files) && MarkOk(m)
    modifies db.persistenceContext.store
    ensures db.Valid() && Clean(db.persistenceContext.store.files)
    ensures CollectionViews(db.collections) == old(CollectionViews(db.collections))
    ensures
      var now := Fresh(old(CollectionViews(db.collections)), m);
      kvResult' == if now.Some? then kvResult[StoreKey(m) := now.value] else kvResult
    ensures Contents(db.persistenceContext.store.files) ==
              old(Contents(db.persistenceContext.store.files)) - if m.RemoveStart? then {StoreKey(m)} else {}
  {
    hide Fresh, StoreKey, Contents, Clean, CollectionViews, EntriesOf, KoupletDB.Valid, Marshal;
    var value := Marshal(db, m);
    kvResult' := if value.Some? then kvResult[StoreKey(m) := value.value] else kvResult;
    if m.RemoveStart? {
      RemoveStartKey(db, m);
    }
  }

  method RemoveStartKey(db: KoupletDB, m: Mark)
    requires db.Valid() && Clean(db.persistenceContext.store.files) && MarkOk(m)
    modifies db.persistenceContext.store
    ensures db.Valid() && Clean(db.persistenceContext.store.files)
    ensures CollectionViews(db.collections) == old(CollectionViews(db.collections))
    ensures Contents(db.persistenceContext.store.files) == old(Contents(db.persistenceContext.store.files)) - {StoreKey(m)}
  {
    hide StoreKey, Contents, Clean, CollectionViews, EntriesOf, KoupletDB.Valid, MarkOk, Contains;
    StoreKeyIsClean(m);
    RemoveKey(db.persistenceContext.store, StoreKey(m));
  }

  lemma NothingGathered(collections: map<string, Collection>)
    ensures Gathered(collections, [], map[], {})
  {
  }

  /** The store after resolving, key by key: what was gathered wins over what is removed, and the order
      in which the pending writes were met does not matter. */
  lemma GatheredIsWritten(db: Database, toDelete: set<string>, entries: seq<Mark>, kvResult: map<string, Stored>,
                          removed: set<string>)
    requires PendingOk(db.dirty)
    requires AreDoomed(toDelete, db.dirty)
    requires AreToProcess(entries, db.dirty, toDelete)
    requires Gathered(db.collections, entries, kvResult, removed)
    ensures kvResult.Keys == WrittenKeys(db)
    ensures forall key :: key in kvResult ==> kvResult[key] == WrittenValue(db, key)
  {
    hide StoreKey, UpdateKey, Fresh, Doomed, AreRemovals, MarkOk;
    forall key | key in kvResult
      ensures key in WrittenKeys(db) && kvResult[key] == WrittenValue(db, key)
    {
      var m :| WritesKey(db.collections, entries, m, key, kvResult[key]);
      var k :| k in db.dirty && db.dirty[k] == m;
      assert IsWritten(db, k);
      var l :| IsWritten(db, l) && StoreKey(db.dirty[l]) == key && WrittenValue(db, key) == Fresh(db.collections, db.dirty[l]).value;
      WrittenIsFresh(db, l);
      OneValuePerKey(db.collections, m, db.dirty[l]);
    }
    forall key | key in WrittenKeys(db)
      ensures key in kvResult
    {
      var k :| k in db.dirty && IsWritten(db, k) && StoreKey(db.dirty[k]) == key;
      assert db.dirty[k] in entries;
    }
  }

  lemma WrittenIsFresh(db: Database, k: string)
    requires IsWritten(db, k)
    ensures k in db.dirty && Fresh(db.collections, db.dirty[k]).Some?
  {
  }

  lemma KeptIsNotRemoved(db: Database, toDelete: set<string>, entries: seq<Mark>, removed: set<string>)
    requires AreDoomed(toDelete, db.dirty)
    requires AreToProcess(entries, db.dirty, toDelete)
    requires AreRemovals(entries, removed)
    ensures Kept(db.store, toDelete) - removed == map key | key in db.store && !IsRemoved(db, key) :: db.store[key]
  {
    hide StoreKey, BelongsTo, Doomed;
    forall key
      ensures IsRemoved(db, key) <==> BelongsToAny(key, toDelete) || key in removed
    {
      if k :| k in db.dirty && db.dirty[k].RemoveStart? && key == StoreKey(db.dirty[k]) {
        assert db.dirty[k] in entries;
      }
      if key in removed {
        var m :| m in entries && m.RemoveStart? && StoreKey(m) == key;
      }
    }
  }

  /** What is to be deleted is deleted. */
  method DeleteDoomed(db: KoupletDB, toDelete: set<string>)
    requires db.Valid() && Clean(db.persistenceContext.store.files)
    modifies db.persistenceContext.store
    ensures db.Valid() && Clean(db.persistenceContext.store.files)
    ensures CollectionViews(db.collections) == old(CollectionViews(db.collections))
    ensures Contents(db.persistenceContext.store.files) == Kept(old(Contents(db.persistenceContext.store.files)), toDelete)
  {
    hide Contents, Clean, CollectionViews, EntriesOf, KoupletDB.Valid, Kept;
    RemoveCollections(db.persistenceContext.store, toDelete);
  }

  method ForgetPending(db: KoupletDB)
    requires db.Valid()
    modifies db.persistenceContext`entryMap
    ensures db.Valid() && db.persistenceContext.entryMap == map[]
    ensures CollectionViews(db.collections) == old(CollectionViews(db.collections))
  {
    hide CollectionViews, EntriesOf, KoupletDB.Valid;
    db.persistenceContext.entryMap := map[];
  }

  /** The values are gathered and written. */
  method WritePending(db: KoupletDB, entries: seq<Mark>, ghost view: Database, ghost toDelete: set<string>)
    requires db.Valid() && Clean(db.persistenceContext.store.files)
    requires PendingOk(view.dirty) && CollectionViews(db.collections) == view.collections
    requires Contents(db.persistenceContext.store.files) == Kept(view.store, toDelete)
    requires AreDoomed(toDelete, view.dirty)
    requires AreToProcess(entries, view.dirty, toDelete)
    modifies db.persistenceContext.store
    ensures db.Valid() && Clean(db.persistenceContext.store.files)
    ensures CollectionViews(db.collections) == view.collections
    ensures Contents(db.persistenceContext.store.files) == Resolve(view).store
  {
    hide Fresh, StoreKey, Contents, Clean, CollectionViews, EntriesOf, KoupletDB.Valid, Gathered, Kept, Doomed,
      WrittenValue, IsRemoved, IsWritten, WrittenKeys, Contains, MarkOk, Resolve, AreDoomed, AreToProcess;
    EntriesAreOk(view, entries, toDelete);
    var kvResult;
    ghost var removed;
    kvResult, removed := Gather(db, entries);
    GatheredIsWritten(view, toDelete, entries, kvResult, removed);
    ResolvedStore(view, toDelete, entries, kvResult, removed);
    WrittenKeysAreClean(view, kvResult);
    WriteAllOf(db, kvResult);
  }

  lemma ResolvedStore(db: Database, toDelete: set<string>, entries: seq<Mark>, kvResult: map<string, Stored>, removed: set<string>)
    requires PendingOk(db.dirty)
    requires AreDoomed(toDelete, db.dirty)
    requires AreToProcess(entries, db.dirty, toDelete)
    requires Gathered(db.collections, entries, kvResult, removed)
    ensures Kept(db.store, toDelete) - removed + kvResult == Resolve(db).store
  {
    hide Kept, IsRemoved, WrittenKeys, WrittenValue, MarkOk, StoreKey, Fresh, AreDoomed, AreToProcess;
    GatheredIsWritten(db, toDelete, entries, kvResult, removed);
    AreGathered(db.collections, entries, kvResult, removed);
    KeptIsNotRemoved(db, toDelete, entries, removed);
  }

  lemma EntriesAreOk(view: Database, entries: seq<Mark>, toDelete: set<string>)
    requires PendingOk(view.dirty)
    requires AreToProcess(entries, view.dirty, toDelete)
    ensures forall m :: m in entries ==> MarkOk(m)
  {
  }

  method WriteAllOf(db: KoupletDB, kvResult: map<string, Stored>)
    requires db.Valid() && Clean(db.persistenceContext.store.files)
    requires forall key :: key in kvResult ==> !Contains(key, TXT)
    modifies db.persistenceContext.store
    ensures db.Valid() && Clean(db.persistenceContext.store.files)
    ensures CollectionViews(db.collections) == old(CollectionViews(db.collections))
    ensures Contents(db.persistenceContext.store.files) == old(Contents(db.persistenceContext.store.files)) + kvResult
  {
    hide Contents, Clean, CollectionViews, EntriesOf, KoupletDB.Valid, Contains;
    WriteAll(db.persistenceContext.store, kvResult);
  }

  /** resolve */
  method ResolvePending(db: KoupletDB)
    requires db.Valid() && Clean(db.persistenceContext.store.files) && PendingOk(db.persistenceContext.entryMap)
    modifies db.persistenceContext`entryMap, db.persistenceContext.store
    ensures db.Valid() && Clean(db.persistenceContext.store.files)
    ensures db.View() == Resolve(old(db.View()))
  {
    hide Contents, Clean, CollectionViews, EntriesOf, KoupletDB.Valid, KoupletDB.View, PendingOk, Uuids;
    db.ViewParts();
    ResolveParts(db, db.View());
    db.ViewParts();
  }

  method ResolveParts(db: KoupletDB, ghost view: Database)
    requires db.Valid() && Clean(db.persistenceContext.store.files) && PendingOk(view.dirty)
    requires view.dirty == db.persistenceContext.entryMap && view.collections == CollectionViews(db.collections)
    requires view.store == Contents(db.persistenceContext.store.files)
    modifies db.persistenceContext`entryMap, db.persistenceContext.store
    ensures db.Valid() && Clean(db.persistenceContext.store.files) && db.persistenceContext.entryMap == map[]
    ensures CollectionViews(db.collections) == view.collections
    ensures Contents(db.persistenceContext.store.files) == Resolve(view).store
  {
    hide Contents, Clean, CollectionViews, EntriesOf, KoupletDB.Valid, Kept, PendingOk, Resolve, AreDoomed,
      AreToProcess;
    var toDelete := CollectionsToDelete(db.persistenceContext.entryMap);
    var entries := EntriesToProcess(db.persistenceContext.entryMap, toDelete);
    assert CollectionViews(db.collections) == view.collections;
    ForgetPending(db);
    assert CollectionViews(db.collections) == view.collections;
    assert Contents(db.persistenceContext.store.files) == view.store;
    DeleteDoomed(db, toDelete);
    assert CollectionViews(db.collections) == view.collections;
    WritePending(db, entries, view, toDelete);
  }

  lemma AreGathered(collections: map<string, Collection>, entries: seq<Mark>, kvResult: map<string, Stored>, removed: set<string>)
    requires Gathered(collections, entries, kvResult, removed)
    ensures AreRemovals(entries, removed)
  {
  }

  lemma WrittenKeysAreClean(db: Database, kvResult: map<string, Stored>)
    requires PendingOk(db.dirty) && kvResult.Keys == WrittenKeys(db)
    ensures forall key :: key in kvResult ==> !Contains(key, TXT)
  {
    hide StoreKey, Contains, Doomed, Fresh;
    forall key | key in kvResult
      ensures !Contains(key, TXT)
    {
      var k :| k in db.dirty && IsWritten(db, k) && StoreKey(db.dirty[k]) == key;
      StoreKeyIsClean(db.dirty[k]);
    }
  }

  method WriteAll(store: FilePersistence<Stored>, kvResult: map<string, Stored>)
    requires Clean(store.files) && forall key :: key in kvResult ==> !Contains(key, TXT)
    modifies store
    ensures Clean(store.files) && Contents(store.files) == old(Contents(store.files)) + kvResult
  {
    hide Contents, Contains, Clean;
    if |kvResult| > 0 {
      WrittenContents(store.files, kvResult);
      store.WriteValues(kvResult);
    } else {
      assert kvResult == map[];
    }
  }

  // ---- taskRemoveOldDatabaseKeys ----

  /** Whether the key contains the UID of some collection. */
  method MatchesCollection(key: string, collectionUuids: set<string>) returns (matches: bool)
    ensures matches <==> exists uid :: uid in collectionUuids && Contains(key, uid)
  {
    var todo := collectionUuids;
    while todo != {}
      invariant todo <= collectionUuids
      invariant forall uid :: uid in collectionUuids && uid !in todo ==> !Contains(key, uid)
      decreases todo
    {
      var collUuid :| collUuid in todo;
      if Contains(key, collUuid) {
        return true;
      }
      todo := todo - {collUuid};
    }
    return false;
  }

  /** The keys among `keys` in which no collection's UID occurs. */
  method OldKeys(keys: seq<string>, collectionUuids: set<string>) returns (keysToDelete: seq<string>)
    requires NoDuplicates(keys)
    ensures NoDuplicates(keysToDelete)
    ensures forall key :: key in keysToDelete <==>
              key in keys && !(exists uid :: uid in collectionUuids && Contains(key, uid))
  {
    keysToDelete := [];
    for i := 0 to |keys|
      invariant NoDuplicates(keysToDelete)
      invariant forall key :: key in keysToDelete <==>
                  key in keys[..i] && !(exists uid :: uid in collectionUuids && Contains(key, uid))
    {
      var key := keys[i];
      assert keys[..i + 1] == keys[..i] + [key];
      assert key !in keys[..i];
      var matches := MatchesCollection(key, collectionUuids);
      if !matches {
        keysToDelete := keysToDelete + [key];
      }
    }
    assert keys[..|keys|] == keys;
  }

  method RemoveOldKeys(store: FilePersistence<Stored>, collectionUuids: set<string>, ghost db: Database)
    requires Clean(store.files) && Contents(store.files) == db.store && collectionUuids == db.collections.Keys
    modifies store
    ensures Clean(store.files) && Contents(store.files) == DropOldKeys(db).store
  {
    hide Contents, Clean, Contains;
    var allDbKeys := store.ListKeysByPrefix(COLLECTION);
    var keysToDelete := OldKeys(allDbKeys, collectionUuids);
    RemoveKeys(store, keysToDelete);
    forall key | key in db.store
      ensures KeyIsLive(db, key) <==> key !in keysToDelete
    {
      assert key in keysToDelete <==> COLLECTION <= key && !(exists uid :: uid in collectionUuids && Contains(key, uid));
    }
  }

  method TaskRemoveOldDatabaseKeys(db: KoupletDB)
    requires db.Valid() && Clean(db.persistenceContext.store.files)
    modifies db.persistenceContext.store
    ensures db.Valid() && Clean(db.persistenceContext.store.files)
    ensures db.View() == DropOldKeys(old(db.View()))
  {
    hide Contents, Clean, CollectionViews, EntriesOf, KoupletDB.Valid, KoupletDB.View, Uuids, KeyIsLive;
    db.ViewParts();
    ghost var views := CollectionViews(db.collections);
    RemoveOldKeys(db.persistenceContext.store, db.collections.Keys, db.View());
    assert CollectionViews(db.collections) == views;
    db.ViewParts();
  }
}
