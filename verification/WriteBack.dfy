/** The store lags behind memory, but never without a pending write that will catch it up. */
module WriteBack {
  import opened Prelude
  import opened TestModel
  import opened CollectionSteps
  import opened Keys
  import opened DatabaseSteps

  // ---- What coherence means ----

  /** An update about something that exists. */
  predicate Live(collections: map<string, Collection>, m: Mark) {
    && IsUpdate(m)
    && m.uid in collections
    && (m.CollectionShallow? || m.id in collections[m.uid].entries)
  }

  /** Equality of stored values, except that a stored `nextTestEntryID` may be out of date: a retry takes a new
      id without recording that the collection changed. */
  predicate SameStored(a: Stored, b: Stored) {
    if a.StoredCollection? && b.StoredCollection? then
      a.collection.(nextTestEntryId := 0) == b.collection.(nextTestEntryId := 0)
    else a == b
  }

  /** The store holds what would be written now. */
  predicate Agrees(store: map<string, Stored>, collections: map<string, Collection>, m: Mark) {
    var now := Fresh(collections, m);
    if now.Some? then StoreKey(m) in store && SameStored(store[StoreKey(m)], now.value)
    else StoreKey(m) !in store
  }

  predicate Pending(dirty: map<string, Mark>, m: Mark) {
    UpdateKey(m) in dirty && dirty[UpdateKey(m)] == m
  }

  /** The store agrees, or a pending write will make it agree. */
  ghost predicate UpToDate(db: Database, m: Mark) {
    || (Pending(db.dirty, m) && Fresh(db.collections, m).Some?)
    || Agrees(db.store, db.collections, m)
  }

  /** Every record of everything in memory is in the store or pending. */
  ghost predicate Coherent(db: Database) {
    forall m {:trigger UpToDate(db, m)} :: Live(db.collections, m) ==> UpToDate(db, m)
  }

  ghost predicate MarkFits(m: Mark) {
    MarkOk(m) && !m.DeleteCollection?
  }

  /** Pending writes stand under their own keys; between steps no deletion is pending. */
  ghost predicate DirtyOk(dirty: map<string, Mark>) {
    forall k {:trigger dirty[k]} :: k in dirty ==> k == UpdateKey(dirty[k]) && MarkFits(dirty[k])
  }

  ghost predicate UidsOk(collections: map<string, Collection>) {
    forall u :: u in collections ==> IsUid(u)
  }

  ghost predicate Known(collections: map<string, Collection>, key: string) {
    START_TIME <= key || exists m :: Live(collections, m) && StoreKey(m) == key
  }

  /** The store holds nothing but start times and records of what is in memory. */
  ghost predicate OnlyKnown(db: Database) {
    forall key {:trigger Known(db.collections, key)} :: key in db.store ==> Known(db.collections, key)
  }

  ghost predicate WriteBackOk(db: Database) {
    UidsOk(db.collections) && DirtyOk(db.dirty) && Coherent(db) && OnlyKnown(db)
  }

  // ---- Pending writes accumulate ----

  lemma CollectionMarkFits(uid: string)
    requires IsUid(uid)
    ensures MarkFits(CollectionShallow(uid))
  {
  }

  lemma EntryMarkFits(uid: string, id: int)
    requires IsUid(uid)
    ensures MarkFits(EntryShallow(uid, id))
  {
  }

  lemma StartMarksFit(t: int)
    ensures MarkFits(AddStart(t)) && MarkFits(RemoveStart(t))
  {
  }

  lemma PutOne(dirty: map<string, Mark>, m: Mark)
    ensures PutAll(dirty, [m]) == Put(dirty, m)
  {
    assert [m][..0] == [];
  }

  lemma WriteBackParts(db: Database)
    requires WriteBackOk(db)
    ensures DirtyOk(db.dirty) && UidsOk(db.collections)
  {
    hide DirtyOk, Coherent, OnlyKnown;
  }

  lemma LiveFits(collections: map<string, Collection>, m: Mark)
    requires UidsOk(collections) && Live(collections, m)
    ensures MarkFits(m)
  {
  }

  lemma PutKeeps(dirty: map<string, Mark>, n: Mark, m: Mark)
    requires DirtyOk(dirty) && MarkFits(n) && MarkFits(m)
    ensures DirtyOk(Put(dirty, n))
    ensures Pending(dirty, m) || m == n ==> Pending(Put(dirty, n), m)
  {
    if UpdateKey(m) == UpdateKey(n) {
      UpdateKeyInjective(m, n);
    }
  }

  lemma {:induction false} PutAllKeeps(dirty: map<string, Mark>, marks: seq<Mark>, m: Mark)
    requires DirtyOk(dirty) && MarkFits(m) && forall n :: n in marks ==> MarkFits(n)
    ensures DirtyOk(PutAll(dirty, marks))
    ensures Pending(dirty, m) || m in marks ==> Pending(PutAll(dirty, marks), m)
  {
    hide MarkFits, Pending, Put;
    if marks != [] {
      var front, last := marks[..|marks| - 1], marks[|marks| - 1];
      assert marks == front + [last];
      assert last in marks;
      PutAllKeeps(dirty, front, m);
      PutKeeps(PutAll(dirty, front), last, m);
    }
  }

  /** A pending record after more were put is an old one or one of these. */
  lemma {:induction false} PutAllIs(dirty: map<string, Mark>, marks: seq<Mark>, k: string)
    requires k in PutAll(dirty, marks)
    ensures (k in dirty && PutAll(dirty, marks)[k] == dirty[k]) || PutAll(dirty, marks)[k] in marks
  {
    hide UpdateKey;
    if marks != [] {
      var front, last := marks[..|marks| - 1], marks[|marks| - 1];
      assert marks == front + [last];
      assert last in marks;
      if k != UpdateKey(last) {
        PutAllIs(dirty, front, k);
      }
    }
  }

  lemma PutAllExactly(dirty: map<string, Mark>, marks: seq<Mark>, m: Mark)
    requires DirtyOk(dirty) && MarkFits(m) && forall n :: n in marks ==> MarkFits(n)
    ensures Pending(PutAll(dirty, marks), m) <==> Pending(dirty, m) || m in marks
  {
    hide UpdateKey, MarkFits, DirtyOk, PutAll;
    PutAllKeeps(dirty, marks, m);
    if Pending(PutAll(dirty, marks), m) {
      PutAllIs(dirty, marks, UpdateKey(m));
    }
  }

  lemma {:induction false} PutAllAppend(dirty: map<string, Mark>, a: seq<Mark>, b: seq<Mark>)
    ensures PutAll(dirty, a + b) == PutAll(PutAll(dirty, a), b)
  {
    hide Put;
    if b == [] {
      assert a + b == a;
    } else {
      PutAllAppend(dirty, a, b[..|b| - 1]);
      assert (a + b)[..|a + b| - 1] == a + b[..|b| - 1];
    }
  }

  // ---- Changing memory while recording what changes ----

  predicate SameFresh(before: map<string, Collection>, after: map<string, Collection>, m: Mark) {
    var a, b := Fresh(before, m), Fresh(after, m);
    if a.Some? && b.Some? then SameStored(a.value, b.value) else a == b
  }

  /** What is live after a change was recorded as changed, or reads as before, or is new and has nothing
      to write. */
  ghost predicate CoveredAt(before: map<string, Collection>, after: map<string, Collection>, marks: seq<Mark>, m: Mark) {
    || (m in marks && Fresh(after, m).Some?)
    || (Live(before, m) && SameFresh(before, after, m))
    || (!Live(before, m) && Fresh(after, m).None?)
  }

  /** A change that is recorded completely: what was live still is, and every record that would now be
      written differently is among the marks. */
  ghost predicate Covered(before: map<string, Collection>, after: map<string, Collection>, marks: seq<Mark>) {
    && (forall m :: m in marks ==> MarkFits(m))
    && (forall m {:trigger Live(after, m)} :: Live(before, m) ==> Live(after, m))
    && (forall m {:trigger CoveredAt(before, after, marks, m)} :: Live(after, m) ==> CoveredAt(before, after, marks, m))
  }

  lemma UnknownKeyIsFree(db: Database, m: Mark)
    requires WriteBackOk(db) && IsUpdate(m) && MarkFits(m) && !Live(db.collections, m)
    ensures StoreKey(m) !in db.store
  {
    hide UpdateKey, UpToDate;
    if StoreKey(m) in db.store {
      assert Known(db.collections, StoreKey(m));
      UpdateIsNoStart(m);
      var n :| Live(db.collections, n) && StoreKey(n) == StoreKey(m);
      StoreKeyInjective(m, n);
    }
  }

  lemma UpdateIsNoStart(m: Mark)
    requires IsUpdate(m)
    ensures !(START_TIME <= StoreKey(m))
  {
    UpdateContainsUid(m);
    var key := StoreKey(m);
    assert key[5] == COLLECTION[5] == 'c' && START_TIME[5] == 's';
    assert |START_TIME| == 16 && |COLLECTION| == 16;
    Text.NoPrefix(START_TIME, key, 5);
  }

  lemma SameStoredTransitive(a: Stored, b: Stored, c: Stored)
    requires SameStored(a, b) && SameStored(b, c)
    ensures SameStored(a, c)
  {
  }

  lemma StaysUpToDate(db: Database, after: map<string, Collection>, marks: seq<Mark>, m: Mark)
    requires WriteBackOk(db) && MarkFits(m) && Live(after, m)
    requires (forall n :: n in marks ==> MarkFits(n)) && CoveredAt(db.collections, after, marks, m)
    ensures UpToDate(db.(collections := after, dirty := PutAll(db.dirty, marks)), m)
  {
    hide StoreKey, UpdateKey, MarkFits, OnlyKnown, SameStored, Fresh;
    PutAllKeeps(db.dirty, marks, m);
    if Live(db.collections, m) {
      assert UpToDate(db, m);
      if SameFresh(db.collections, after, m) && !Pending(db.dirty, m) && Fresh(after, m).Some? {
        SameStoredTransitive(db.store[StoreKey(m)], Fresh(db.collections, m).value, Fresh(after, m).value);
      }
    } else if Fresh(after, m).None? {
      UnknownKeyIsFree(db, m);
    }
  }

  /** A change of memory whose every part was recorded keeps the store and the pending writes coherent. */
  lemma RecordedChangeKeeps(db: Database, after: map<string, Collection>, marks: seq<Mark>)
    requires WriteBackOk(db) && UidsOk(after) && Covered(db.collections, after, marks)
    ensures WriteBackOk(db.(collections := after, dirty := PutAll(db.dirty, marks)))
  {
    hide StoreKey, UpdateKey, CoveredAt, UpToDate, Agrees, Pending, PutAll;
    var d := db.(collections := after, dirty := PutAll(db.dirty, marks));
    PutAllKeeps(db.dirty, marks, AddStart(0));
    forall m | Live(after, m)
      ensures UpToDate(d, m)
    {
      LiveFits(after, m);
      assert CoveredAt(db.collections, after, marks, m);
      StaysUpToDate(db, after, marks, m);
    }
    forall key | key in d.store
      ensures Known(after, key)
    {
      assert Known(db.collections, key);
      if !(START_TIME <= key) {
        var m :| Live(db.collections, m) && StoreKey(m) == key;
        assert Live(after, m);
      }
    }
  }

  /** Fields that neither memory nor the store's view of it consists of. */
  lemma OtherFieldsDoNotMatter(db: Database, d: Database)
    requires WriteBackOk(db)
    requires d.collections == db.collections && d.dirty == db.dirty && d.store == db.store
    ensures WriteBackOk(d)
  {
    hide StoreKey, UpdateKey, Agrees, Live, Known;
    forall m | Live(d.collections, m)
      ensures UpToDate(d, m)
    {
      assert UpToDate(db, m);
    }
  }
}
