/** What a restart makes of the store: the database that load builds, how far it is the one that was there before, and
    exactly when it satisfies every invariant again. */
module Restarts {
  import opened Prelude
  import opened Text
  import opened TestModel
  import opened CollectionSteps
  import opened CollectionInvariant
  import opened Keys
  import opened DatabaseSteps
  import opened DatabaseInvariant
  import opened WriteBack
  import opened Resolving
  import opened Coherence
  import opened Reload
  import opened StoredIds
  import opened SubmissionDates

  // ---- The loaded database ----

  /** The KoupletTest of a collection, as it can be fetched now. */
  function FoundFor(fetch: (string, string) -> Option<KubeTest>, c: Collection): Option<KubeTest> {
    fetch(c.kube.namespace, c.kube.name)
  }

  /** The KoupletTest of a collection can still be found, and is still the same object. */
  predicate IsFound(fetch: (string, string) -> Option<KubeTest>, c: Collection) {
    FoundFor(fetch, c).Some? && FoundFor(fetch, c).value.uid == c.kube.uid
  }

  /** A start time that loading finds under some key, to the millisecond. */
  ghost predicate StartFound(store: map<string, Stored>, t: int) {
    exists key, millis :: StartUnder(store, key, millis) && t == millis * NANOS_PER_MILLI
  }

  predicate StartUnder(store: map<string, Stored>, key: string, millis: int) {
    key in store && START_TIME <= key && ParseDecimal(AfterLastHyphen(key)) == Some(millis)
  }

  /** Each of three lists holds, once each, the collections whose bucket names it. */
  ghost predicate ListedByBucket(views: map<string, Collection>, waiting: seq<string>, running: seq<string>, completed: seq<string>) {
    && Holds(views, waiting, WaitingBucket) && Holds(views, running, RunningBucket) && Holds(views, completed, CompletedBucket)
  }

  ghost predicate Holds(views: map<string, Collection>, uids: seq<string>, bucket: CollectionBucket) {
    NoDuplicates(uids) && forall u :: u in uids <==> u in views && views[u].bucket == bucket
  }

  /** Every collection whose KoupletTest is still there has been rebuilt, and there are no others. */
  ghost predicate AllRebuilt(db: Database, fetch: (string, string) -> Option<KubeTest>, collections: map<string, Collection>) {
    && (forall u :: u in collections <==> u in db.collections && IsFound(fetch, db.collections[u]))
    && (forall u {:trigger collections[u]} :: u in collections ==>
          Rebuilt(AsStored(db, u), FoundFor(fetch, db.collections[u]).value, collections[u]))
  }

  ghost predicate SortedTimes(times: seq<int>) {
    forall i, j :: 0 <= i < j < |times| ==> times[i] <= times[j]
  }

  /** `d` is what load makes of the store of `db`: its collections in the lists they were in, sorted by their dates, and
      the start times that are stored. */
  ghost predicate Restarted(db: Database, fetch: (string, string) -> Option<KubeTest>, d: Database) {
    && AllRebuilt(db, fetch, d.collections)
    && ListedByBucket(d.collections, d.waiting, d.running, d.completed)
    && ByDate(d.collections, d.waiting) && ByDate(d.collections, d.running) && ByDate(d.collections, d.completed)
    && (forall t :: t in d.starts <==> StartFound(db.store, t))
    && SortedTimes(d.starts)
    && d.store == db.store
  }

  // ---- The order of the lists ----

  /** The UIDs of those collections in a list whose KoupletTest is still there, in the same order. */
  function Remaining(db: Database, fetch: (string, string) -> Option<KubeTest>, uids: seq<string>): (r: seq<string>)
    ensures forall u :: u in r <==> u in uids && u in db.collections && IsFound(fetch, db.collections[u])
  {
    Filter(uids, u => u in db.collections && IsFound(fetch, db.collections[u]))
  }

  lemma RemainingKeeps(db: Database, fetch: (string, string) -> Option<KubeTest>, uids: seq<string>)
    requires NoDuplicates(uids) && ByDate(db.collections, uids)
    ensures NoDuplicates(Remaining(db, fetch, uids)) && ByDate(db.collections, Remaining(db, fetch, uids))
  {
    FilterDistinct(uids, u => u in db.collections && IsFound(fetch, db.collections[u]));
    FilterByDate(db.collections, uids, u => u in db.collections && IsFound(fetch, db.collections[u]));
  }

  /** A restart keeps the order in which collections run and wait, if no two were submitted in the same millisecond. */
  lemma RestartKeepsOrder(db: Database, fetch: (string, string) -> Option<KubeTest>, d: Database)
    requires DatabaseOk(db) && DatesOk(db) && DistinctDates(db.collections) && Restarted(db, fetch, d)
    ensures d.waiting == Remaining(db, fetch, db.waiting) && d.running == Remaining(db, fetch, db.running)
  {
    hide DatabaseOk, Remaining, ByDate, Rebuilt, IsFound, DistinctDates, NoDuplicates;
    PartsByDate(db.collections, db.running, db.waiting);
    ListParts(db);
    ListIsTheSame(db, fetch, d, db.waiting, d.waiting, WaitingBucket);
    ListIsTheSame(db, fetch, d, db.running, d.running, RunningBucket);
  }

  lemma ListParts(db: Database)
    requires DatabaseOk(db)
    ensures ListsCollections(db, db.waiting, WaitingBucket) && ListsCollections(db, db.running, RunningBucket)
  {
    hide HeldOk, InOrder, ListsCollections;
  }

  lemma ListIsTheSame(db: Database, fetch: (string, string) -> Option<KubeTest>, d: Database,
                      before: seq<string>, after: seq<string>, bucket: CollectionBucket)
    requires AllRebuilt(db, fetch, d.collections) && DistinctDates(db.collections)
    requires ListsCollections(db, before, bucket) && ByDate(db.collections, before)
    requires Holds(d.collections, after, bucket) && ByDate(d.collections, after)
    ensures after == Remaining(db, fetch, before)
  {
    hide Remaining, ByDate, IsFound, DistinctDates, NoDuplicates, DateOf;
    RemainingKeeps(db, fetch, before);
    forall u
      ensures u in after <==> u in Remaining(db, fetch, before)
    {
      if u in d.collections {
        RebuiltInBucket(db, fetch, d.collections, u);
      }
    }
    RebuiltDates(db, fetch, d.collections, after);
    SameDatesByDate(d.collections, db.collections, after);
    OrderIsDetermined(db.collections, after, Remaining(db, fetch, before));
  }

  lemma RebuiltInBucket(db: Database, fetch: (string, string) -> Option<KubeTest>, collections: map<string, Collection>, u: string)
    requires AllRebuilt(db, fetch, collections) && u in collections
    ensures u in db.collections && collections[u].bucket == db.collections[u].bucket
    ensures collections[u].dateSubmitted == db.collections[u].dateSubmitted
  {
    hide IsFound;
  }

  lemma RebuiltDates(db: Database, fetch: (string, string) -> Option<KubeTest>, collections: map<string, Collection>, uids: seq<string>)
    requires AllRebuilt(db, fetch, collections) && forall u :: u in uids ==> u in collections
    ensures forall u :: u in uids ==> DateOf(db.collections, u) == DateOf(collections, u) && u in db.collections
  {
    hide AllRebuilt;
    forall u | u in uids
      ensures DateOf(db.collections, u) == DateOf(collections, u) && u in db.collections
    {
      RebuiltInBucket(db, fetch, collections, u);
    }
  }

  // ---- Exactly when the loaded database is in order ----

  /** No KoupletTest was edited while the operator was away. */
  ghost predicate NothingEdited(db: Database, fetch: (string, string) -> Option<KubeTest>) {
    forall u :: u in db.collections && IsFound(fetch, db.collections[u]) ==>
                  FoundFor(fetch, db.collections[u]).value == db.collections[u].kube
  }

  /** Nothing is pending, and the order of submission is counted anew. */
  ghost predicate NewlyStarted(d: Database) {
    d.dirty == map[] && d.submitted == d.running + d.waiting
  }

  /** The stored `nextTestEntryID` of each of these collections is the number of its stored entries. */
  ghost predicate IdsStored(store: map<string, Stored>, uids: set<string>) {
    forall u :: u in uids ==> StoredNextId(store, u) == |StoredEntries(store, u)|
  }

  /** The collections that a restart does not find again. */
  function Lost(db: Database, d: Database): set<string> {
    db.collections.Keys - d.collections.Keys
  }

  predicate BelongsToAny(key: string, uids: set<string>) {
    exists u :: u in uids && BelongsTo(key, u)
  }

  /** A database without what the store holds of some collections. */
  function Cleared(db: Database, lost: set<string>): Database {
    db.(store := map key | key in db.store && !BelongsToAny(key, lost) :: db.store[key])
  }

  lemma RestoredIsOk(db: Database, fetch: (string, string) -> Option<KubeTest>, d: Database, u: string)
    requires StoreOk(db) && AllRebuilt(db, fetch, d.collections) && NothingEdited(db, fetch) && u in d.collections
    ensures CollectionOk(d.collections[u]) <==> StoredNextId(db.store, u) == |StoredEntries(db.store, u)|
    ensures u in db.collections && d.collections[u].bucket == db.collections[u].bucket
    ensures IsUid(u) && d.collections[u].uid == u && HeaderOk(d.collections[u])
  {
    hide StoreOk, StoredNextId, StoredEntries, CollectionOk, IsFound, IsUid, DatabaseOk, Partition;
    StoreParts(db);
    CollectionIsHeldIn(db, u);
    var c, c' := db.collections[u], d.collections[u];
    ReloadIsOkExactlyWhen(db, u, c');
    RestoredHeader(c, AsStored(db, u), c');
  }

  lemma CollectionIsHeldIn(db: Database, u: string)
    requires DatabaseOk(db) && u in db.collections
    ensures HeldOk(u, db.collections[u])
  {
    hide HeldOk, ListsOk, InOrder;
  }

  lemma RestoredHeader(c: Collection, stored: Collection, c': Collection)
    requires HeaderOk(c) && CollectionOk(c) && stored == c.(nextId := stored.nextId) && Rebuilt(stored, c.kube, c')
    ensures HeaderOk(c')
  {
    hide Shapes, Forest, Retried, Partition, SortedById;
    PartitionHasNoIds(c, stored);
    BucketsAreTheSame(stored, c.kube, c');
  }

  lemma PartitionHasNoIds(c: Collection, stored: Collection)
    requires Partition(c) && stored == c.(nextId := stored.nextId)
    ensures Partition(stored)
  {
  }

  lemma {:induction false} SubsequenceItself(s: seq<string>)
    ensures Subsequence(s, s)
  {
    if s != [] {
      SubsequenceItself(s[..|s| - 1]);
    }
  }

  lemma ListedInOrder(d: Database)
    requires ListedByBucket(d.collections, d.waiting, d.running, d.completed) && NewlyStarted(d)
    ensures ListsOk(d) && InOrder(d)
  {
    hide Subsequence, NoDuplicates;
    SubsequenceItself(d.running + d.waiting);
  }

  lemma RestoredDatabaseIsOk(db: Database, fetch: (string, string) -> Option<KubeTest>, d: Database)
    requires StoreOk(db) && Restarted(db, fetch, d) && NothingEdited(db, fetch) && NewlyStarted(d)
    ensures DatabaseOk(d) <==> IdsStored(db.store, d.collections.Keys)
  {
    hide StoreOk, StoredNextId, StoredEntries, CollectionOk, IsFound, IsUid, Rebuilt, ListedByBucket, ByDate, StartFound,
      NothingEdited, ListsOk, InOrder, HeaderOk;
    ListedInOrder(d);
    forall u | u in d.collections
      ensures HeldOk(u, d.collections[u]) <==> StoredNextId(db.store, u) == |StoredEntries(db.store, u)|
    {
      RestoredIsOk(db, fetch, d, u);
    }
  }

  // ---- The store after a restart ----

  /** A rebuilt collection, but for the next id and the order in the buckets. */
  lemma RebuiltIs(db: Database, fetch: (string, string) -> Option<KubeTest>, collections: map<string, Collection>, u: string)
    requires AllRebuilt(db, fetch, collections) && NothingEdited(db, fetch) && u in collections
    ensures u in db.collections && collections[u].entries == db.collections[u].entries
    ensures RecordOf(ToCollectionJson(collections[u]), db.collections[u])
  {
    hide StoredNextId, Partition, SortedById;
    assert Rebuilt(AsStored(db, u), FoundFor(fetch, db.collections[u]).value, collections[u]);
  }

  lemma LiveAgain(db: Database, fetch: (string, string) -> Option<KubeTest>, d: Database, m: Mark)
    requires AllRebuilt(db, fetch, d.collections) && NothingEdited(db, fetch)
    ensures Live(d.collections, m) <==> Live(db.collections, m) && m.uid in d.collections
    ensures Live(d.collections, m) ==> SameFresh(db.collections, d.collections, m)
  {
    hide AllRebuilt, NothingEdited, ToCollectionJson, ToEntryJson;
    if HasUid(m) && m.uid in d.collections {
      RebuiltIs(db, fetch, d.collections, m.uid);
    }
  }

  lemma LostAreUids(db: Database, d: Database, u: string)
    requires StoreOk(db) && u in Lost(db, d)
    ensures IsUid(u) && u in db.collections
  {
    hide StoreOk, IsUid, CollectionOk, DatabaseOk, WriteBackOk;
    StoreParts(db);
    HeldParts(db, u);
  }

  /** What is live again is stored under a key of no lost collection. */
  lemma LiveIsNotLost(db: Database, d: Database, m: Mark)
    requires StoreOk(db) && Live(db.collections, m) && m.uid in d.collections
    ensures !BelongsToAny(StoreKey(m), Lost(db, d))
  {
    hide StoreOk, IsUid, BelongsTo, StoreKey, WriteBackOk, DatabaseOk, CollectionOk;
    StoreParts(db);
    HeldParts(db, m.uid);
    if u :| u in Lost(db, d) && BelongsTo(StoreKey(m), u) {
      LostAreUids(db, d, u);
      UpdateBelongs(m, u);
      assert false;
    }
  }

  lemma RestoredAgrees(db: Database, fetch: (string, string) -> Option<KubeTest>, d: Database, m: Mark)
    requires StoreOk(db) && AllRebuilt(db, fetch, d.collections) && NothingEdited(db, fetch)
    requires d.store == db.store && Live(d.collections, m)
    ensures Agrees(Cleared(d, Lost(db, d)).store, d.collections, m)
  {
    hide StoreOk, AllRebuilt, NothingEdited, StoreKey, Fresh, Live, BelongsToAny, DatabaseOk, WriteBackOk, SameStored;
    LiveAgain(db, fetch, d, m);
    StoreParts(db);
    assert Agrees(db.store, db.collections, m);
    HasUidOf(d.collections, m);
    LiveIsNotLost(db, d, m);
    if Fresh(db.collections, m).Some? && Fresh(d.collections, m).Some? {
      SameStoredTransitive(db.store[StoreKey(m)], Fresh(db.collections, m).value, Fresh(d.collections, m).value);
    }
  }

  lemma HasUidOf(collections: map<string, Collection>, m: Mark)
    requires Live(collections, m)
    ensures HasUid(m) && m.uid in collections && IsUpdate(m)
  {
  }

  lemma RestoredIsKnown(db: Database, fetch: (string, string) -> Option<KubeTest>, d: Database, key: string)
    requires StoreOk(db) && AllRebuilt(db, fetch, d.collections) && NothingEdited(db, fetch)
    requires key in db.store && !BelongsToAny(key, Lost(db, d))
    ensures Known(d.collections, key)
  {
    hide StoreOk, AllRebuilt, NothingEdited, StoreKey, Live, BelongsTo, DatabaseOk, DirtyOk, Coherent;
    StoreParts(db);
    assert Known(db.collections, key);
    if !(START_TIME <= key) {
      var m :| Live(db.collections, m) && StoreKey(m) == key;
      HasUidOf(db.collections, m);
      LiveAgain(db, fetch, d, m);
      if m.uid !in d.collections {
        OwnKeyBelongs(db, d, m);
        assert false;
      }
    }
  }

  lemma OwnKeyBelongs(db: Database, d: Database, m: Mark)
    requires StoreOk(db) && Live(db.collections, m) && m.uid !in d.collections
    ensures BelongsToAny(StoreKey(m), Lost(db, d))
  {
    hide StoreOk, IsUid, BelongsTo, StoreKey;
    LostAreUids(db, d, m.uid);
    UpdateBelongs(m, m.uid);
  }

  /** Apart from what is left of lost collections, the store agrees with the loaded database. */
  lemma RestoredIsSettled(db: Database, fetch: (string, string) -> Option<KubeTest>, d: Database)
    requires StoreOk(db) && Restarted(db, fetch, d) && NothingEdited(db, fetch) && NewlyStarted(d)
    ensures WriteBackOk(Cleared(d, Lost(db, d))) && Settled(Cleared(d, Lost(db, d)))
  {
    hide StoreOk, AllRebuilt, Agrees, Live, Known, BelongsToAny, ListedByBucket, ByDate, StartFound, NothingEdited;
    var c := Cleared(d, Lost(db, d));
    forall m | Live(c.collections, m)
      ensures Agrees(c.store, c.collections, m)
    {
      RestoredAgrees(db, fetch, d, m);
    }
    forall key | key in c.store
      ensures Known(c.collections, key)
    {
      RestoredIsKnown(db, fetch, d, key);
    }
    RestoredUids(db, fetch, d);
  }

  lemma RestoredUids(db: Database, fetch: (string, string) -> Option<KubeTest>, d: Database)
    requires StoreOk(db) && AllRebuilt(db, fetch, d.collections)
    ensures UidsOk(d.collections)
  {
    hide StoreOk, IsUid, Rebuilt, IsFound, CollectionOk, DatabaseOk, WriteBackOk;
    StoreParts(db);
    forall u | u in d.collections
      ensures IsUid(u)
    {
      HeldParts(db, u);
    }
  }

  lemma ClearingKeepsMemory(d: Database, lost: set<string>)
    ensures DatabaseOk(Cleared(d, lost)) <==> DatabaseOk(d)
  {
    hide HeldOk, BelongsToAny;
  }

  /** Once what is left of lost collections is out of the store, the loaded database satisfies every invariant of a run
      exactly when each stored `nextTestEntryID` is the number of stored entries, which can be read off the store before. */
  lemma RestartIsOkExactlyWhen(db: Database, fetch: (string, string) -> Option<KubeTest>, d: Database)
    requires StoreOk(db) && Restarted(db, fetch, d) && NothingEdited(db, fetch) && NewlyStarted(d)
    ensures RunOk(Cleared(d, Lost(db, d))) <==> IdsStored(db.store, d.collections.Keys)
    ensures Settled(Cleared(d, Lost(db, d)))
  {
    hide StoreOk, Restarted, DatabaseOk, WriteBackOk, IdsStored, Settled, NothingEdited, NewlyStarted;
    RestoredIsSettled(db, fetch, d);
    RestoredDatabaseIsOk(db, fetch, d);
    ClearingKeepsMemory(d, Lost(db, d));
  }

  // ---- Which collections come back ----

  /** A collection comes back exactly when the object that is now found under the namespace and name of its KoupletTest
      has its own UID. */
  lemma ComesBackExactlyWhen(db: Database, fetch: (string, string) -> Option<KubeTest>, d: Database, u: string)
    requires StoreOk(db) && Restarted(db, fetch, d)
    ensures u in d.collections <==>
              u in db.collections
              && match fetch(db.collections[u].kube.namespace, db.collections[u].kube.name)
                 case Some(found) => found.uid == u
                 case None => false
  {
    hide StoreOk, Rebuilt, DatabaseOk, WriteBackOk, ListedByBucket, ByDate, StartFound, Partition, Shapes, Forest, Retried;
    StoreParts(db);
    if u in db.collections {
      HeldParts(db, u);
    }
  }
}
