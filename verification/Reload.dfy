/** What the store of a settled database holds, key by key, and what loading makes of it. */
module Reload {
  import opened Prelude
  import opened Text
  import opened TestModel
  import opened CollectionSteps
  import opened CollectionInvariant
  import opened Keys
  import opened DatabaseSteps
  import opened DatabaseInvariant
  import opened WriteBack
  import opened Resolving
  import opened Coherence

  // ---- Reading records ----

  function EntryStatusOf(name: string): Option<EntryStatus> {
    if name == "Waiting" then Some(EntryWaiting)
    else if name == "Running" then Some(EntryRunning)
    else if name == "Complete" then Some(EntryComplete)
    else if name == "Expired" then Some(EntryExpired)
    else None
  }

  function EntryBucketOf(name: string): Option<EntryBucket> {
    if name == "Queued" then Some(InQueued)
    else if name == "Running" then Some(InRunning)
    else if name == "Completed" then Some(InCompleted)
    else if name == "Retry" then Some(InRetry)
    else None
  }

  function CollectionStatusOf(name: string): Option<CollectionStatus> {
    if name == "Waiting" then Some(CollectionWaiting)
    else if name == "Running" then Some(CollectionRunning)
    else if name == "Complete" then Some(CollectionComplete)
    else None
  }

  function CollectionBucketOf(name: string): Option<CollectionBucket> {
    if name == "Waiting" then Some(WaitingBucket)
    else if name == "Running" then Some(RunningBucket)
    else if name == "Completed" then Some(CompletedBucket)
    else None
  }

  const NO_SPEC := TestSpec(None, [], [], [])

  /** The entry that a shallow record stands for, without its specification and its result. */
  function EntryOfJson(j: EntryJson): Option<Entry> {
    var status, bucket := EntryStatusOf(j.status), EntryBucketOf(j.parentBucket);
    if status.None? || bucket.None? then None
    else Some(Entry(j.id, j.retryFromId, status.value, None, NO_SPEC, j.cluster, j.processed, bucket.value))
  }

  lemma EntryJsonRoundTrip(e: Entry)
    ensures EntryOfJson(ToEntryJson(e)) == Some(e.(result := None, spec := NO_SPEC))
  {
  }

  // ---- The store of a settled database ----

  ghost predicate StoreOk(db: Database) {
    RunOk(db) && Settled(db)
  }

  lemma StoreParts(db: Database)
    requires StoreOk(db)
    ensures WriteBackOk(db) && DatabaseOk(db)
    ensures forall m {:trigger Agrees(db.store, db.collections, m)} ::
              Live(db.collections, m) ==> Agrees(db.store, db.collections, m)
  {
    hide DatabaseOk, WriteBackOk, Agrees, Live;
  }

  /** However a run went, the end of Process leaves a store that can be loaded. */
  lemma StoreIsOkAfterProcess(steps: seq<Step>)
    requires StepsOk(steps) && steps != [] && steps[|steps| - 1].Settlement?
    ensures StoreOk(Run(steps))
  {
    hide RunOk, Settled, Next, StepsOk;
    EveryRunIsCoherent(steps);
    SettledAfterProcess(steps);
  }

  lemma NotAStart(key: string)
    requires COLLECTION <= key
    ensures !(START_TIME <= key)
  {
    assert key[5] == COLLECTION[5] == 'c' && START_TIME[5] == 's';
    assert |START_TIME| == 16 && |COLLECTION| == 16;
    NoPrefix(START_TIME, key, 5);
  }

  /** A key in a family of a collection is the key of one of its entries, and holds what that entry holds. */
  lemma ChildKeysAre(db: Database, uid: string, family: string, key: string) returns (m: Mark)
    requires StoreOk(db) && uid in db.collections && family in {SHALLOW, RESULT, SPEC}
    requires key in db.store && ChildPrefix(uid, family) <= key
    ensures m.EntryShallow? || m.EntryResult? || m.EntrySpec?
    ensures m.uid == uid && FamilyOf(m) == family && Live(db.collections, m) && StoreKey(m) == key
    ensures Fresh(db.collections, m) == Some(db.store[key])
  {
    hide Fresh, IsUid, Coherent, DirtyOk, DatabaseOk;
    StoreParts(db);
    ChildParts(uid, family, key[|ChildPrefix(uid, family)|..]);
    NotAStart(key);
    assert Known(db.collections, key);
    m :| Live(db.collections, m) && StoreKey(m) == key;
    if m.CollectionShallow? {
      EntityIsNoChild(m.uid, uid, family, "");
      assert false;
    }
    ChildPrefixMatches(m.uid, FamilyOf(m), m.id, uid, family);
    assert Agrees(db.store, db.collections, m);
    ChildrenAreExact(db, m);
  }

  /** The records of entries agree exactly. */
  lemma ChildrenAreExact(db: Database, m: Mark)
    requires Live(db.collections, m) && !m.CollectionShallow? && Agrees(db.store, db.collections, m)
    ensures StoreKey(m) in db.store ==> Fresh(db.collections, m) == Some(db.store[StoreKey(m)])
    ensures Fresh(db.collections, m).Some? ==> StoreKey(m) in db.store
  {
    hide StoreKey;
  }

  /** The record of every entry is there. */
  lemma ChildIsStored(db: Database, m: Mark)
    requires StoreOk(db) && Live(db.collections, m) && !m.CollectionShallow? && Fresh(db.collections, m).Some?
    ensures StoreKey(m) in db.store && Fresh(db.collections, m) == Some(db.store[StoreKey(m)])
  {
    hide Fresh, StoreKey, Live, DatabaseOk, WriteBackOk;
    StoreParts(db);
    assert Agrees(db.store, db.collections, m);
    ChildrenAreExact(db, m);
  }

  /** A collection record, but for `nextTestEntryID`. */
  ghost predicate RecordOf(j: CollectionJson, c: Collection) {
    j.(nextTestEntryId := 0) == ToCollectionJson(c).(nextTestEntryId := 0)
  }

  /** An entity key is the key of a collection, and holds its record. */
  lemma EntityKeysAre(db: Database, key: string) returns (uid: string)
    requires StoreOk(db) && key in db.store && ENTITY <= key
    ensures uid in db.collections && key == EntityKey(uid)
    ensures db.store[key].StoredCollection? && RecordOf(db.store[key].collection, db.collections[uid])
  {
    hide IsUid, Coherent, DirtyOk, DatabaseOk;
    StoreParts(db);
    assert COLLECTION <= key by {
      assert ENTITY[..|COLLECTION|] == COLLECTION;
      assert key[..|ENTITY|] == ENTITY;
      assert key[..|COLLECTION|] == COLLECTION;
    }
    NotAStart(key);
    assert Known(db.collections, key);
    var m :| Live(db.collections, m) && StoreKey(m) == key;
    if !m.CollectionShallow? {
      EntityIsNoChild(m.uid, m.uid, FamilyOf(m), Decimal(m.id));
      assert false;
    }
    assert Agrees(db.store, db.collections, m);
    uid := m.uid;
  }

  lemma EntityIsStored(db: Database, uid: string)
    requires StoreOk(db) && uid in db.collections
    ensures EntityKey(uid) in db.store && ENTITY <= EntityKey(uid)
  {
    hide IsUid, DatabaseOk, WriteBackOk;
    StoreParts(db);
    assert Live(db.collections, CollectionShallow(uid));
    assert Agrees(db.store, db.collections, CollectionShallow(uid));
  }

  // ---- Ids in keys ----

  lemma DecimalHasNoHyphen(n: nat)
    ensures '-' !in Decimal(n)
  {
  }

  /** The id that loading takes from the end of a key is the entry's. */
  lemma IdInKey(uid: string, family: string, id: nat)
    requires family in {SHALLOW, RESULT, SPEC}
    ensures ParseDecimal(AfterLastHyphen(ChildKey(uid, family, id))) == Some(id)
  {
    DecimalHasNoHyphen(id);
    DecimalRoundTrip(id);
    var before := COLLECTION + uid + family[..|family| - 1];
    assert family == family[..|family| - 1] + "-";
    assert ChildKey(uid, family, id) == before + "-" + Decimal(id);
    AfterLastHyphenOf(before, Decimal(id));
  }

  lemma EntriesAreNumbered(db: Database, uid: string, id: int)
    requires DatabaseOk(db) && uid in db.collections && id in db.collections[uid].entries
    ensures id >= 0 && db.collections[uid].entries[id].id == id
    ensures db.collections[uid].entries[id].result.Some? ==> db.collections[uid].entries[id].result.value.id == id
  {
    hide ListsOk, InOrder, IsUid;
    CollectionIsHeld(db, uid);
    assert Shape(db.collections[uid].entries[id]);
  }

  // ---- What loading rebuilds ----

  ghost predicate SortedById(ids: seq<int>) {
    forall i, j :: 0 <= i < j < |ids| ==> ids[i] < ids[j]
  }

  /** The `nextTestEntryID` in the record of a collection. */
  function StoredNextId(store: map<string, Stored>, uid: string): int {
    var key := EntityKey(uid);
    if key in store && store[key].StoredCollection? then store[key].collection.nextTestEntryId else 0
  }

  /** A collection as its records describe it: only its next id may be another than in memory. */
  function AsStored(db: Database, uid: string): Collection
    requires uid in db.collections
  {
    db.collections[uid].(nextId := StoredNextId(db.store, uid))
  }

  /** `c'` is `c` with the KoupletTest as it is now, and with every bucket in the order of the ids. */
  ghost predicate Rebuilt(c: Collection, kube: KubeTest, c': Collection) {
    && c'.kube == kube && c'.uid == c.uid && c'.entries == c.entries && c'.nextId == c.nextId
    && c'.status == c.status && c'.bucket == c.bucket
    && c'.dateSubmitted == c.dateSubmitted && c'.startTime == c.startTime && c'.endTime == c.endTime
    && Partition(c')
    && SortedById(c'.queued) && SortedById(c'.retry) && SortedById(c'.running) && SortedById(c'.completed)
  }

  /** Each bucket that is rebuilt holds what it held. */
  lemma BucketsAreTheSame(c: Collection, kube: KubeTest, c': Collection)
    requires Partition(c) && Rebuilt(c, kube, c')
    ensures forall i :: (i in c'.queued <==> i in c.queued) && (i in c'.retry <==> i in c.retry)
    ensures forall i :: (i in c'.running <==> i in c.running) && (i in c'.completed <==> i in c.completed)
    ensures |c'.queued| == |c.queued| && |c'.retry| == |c.retry|
    ensures |c'.running| == |c.running| && |c'.completed| == |c.completed|
  {
    SameLength(c.queued, c'.queued);
    SameLength(c.retry, c'.retry);
    SameLength(c.running, c'.running);
    SameLength(c.completed, c'.completed);
  }

  /** A collection that is rebuilt while its KoupletTest is the same is in order exactly when it gets its next id back. */
  lemma OkExactlyWithSameId(c: Collection, c': Collection)
    requires CollectionOk(c) && Rebuilt(c.(nextId := c'.nextId), c.kube, c')
    ensures CollectionOk(c') <==> c'.nextId == c.nextId
    ensures c.nextId > c'.nextId >= 0 ==> c'.nextId in c'.entries
  {
    assert c'.nextId !in c'.entries || !CollectionOk(c');
    assert c.nextId !in c.entries;
    if c'.nextId == c.nextId {
      SameEntriesSameForest(c, c');
    }
  }

  lemma SameEntriesSameForest(c: Collection, c': Collection)
    requires CollectionOk(c) && c'.entries == c.entries && c'.kube == c.kube && c'.uid == c.uid && c'.nextId == c.nextId
    requires Partition(c')
    ensures CollectionOk(c')
  {
    forall i | i in c'.entries
      ensures Linked(c', i)
    {
      assert Linked(c, i);
    }
    forall p, i, j | IsRetryOf(c', i, p) && IsRetryOf(c', j, p)
      ensures i == j
    {
      assert IsRetryOf(c, i, p) && IsRetryOf(c, j, p);
    }
    forall i | OwesRetry(c', i)
      ensures HasRetry(c', i)
    {
      assert OwesRetry(c, i);
      var j :| IsRetryOf(c, j, i);
      assert IsRetryOf(c', j, i);
    }
  }

  lemma SameLength(s: seq<int>, t: seq<int>)
    requires NoDuplicates(s) && NoDuplicates(t) && forall x :: x in s <==> x in t
    ensures |s| == |t|
  {
    SizeOf(s);
    SizeOf(t);
    assert (set x | x in s) == (set x | x in t);
  }

  lemma {:induction false} SizeOf(s: seq<int>)
    requires NoDuplicates(s)
    ensures |set x | x in s| == |s|
  {
    if s != [] {
      var front, last := s[..|s| - 1], s[|s| - 1];
      assert s == front + [last];
      SizeOf(front);
      assert last !in front;
      assert (set x | x in s) == (set x | x in front) + {last};
    }
  }
}
