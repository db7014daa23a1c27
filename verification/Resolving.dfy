/** Resolving the pending writes makes the store agree with memory, and a pending deletion removes the records of
    its own collection and of no other. */
module Resolving {
  import opened Prelude
  import opened Text
  import opened TestModel
  import opened CollectionSteps
  import opened Keys
  import opened DatabaseSteps
  import opened WriteBack

  /** The store holds exactly what memory would write now, and nothing is pending. */
  ghost predicate Settled(db: Database) {
    && db.dirty == map[]
    && forall m {:trigger Agrees(db.store, db.collections, m)} ::
         Live(db.collections, m) ==> Agrees(db.store, db.collections, m)
  }

  /** A database in which some collections have been dropped and their deletion is pending. */
  ghost predicate Dropped(db: Database, d: Database, gone: set<string>) {
    && WriteBackOk(db)
    && gone <= db.collections.Keys
    && d.collections == (map u | u in db.collections && u !in gone :: db.collections[u])
    && d.dirty == db.dirty + Deletions(gone)
    && d.store == db.store
  }

  // ---- The pending writes ----

  /** A pending record is an old one or one of the deletions. */
  lemma PendingIs(db: Database, d: Database, gone: set<string>, k: string)
    requires Dropped(db, d, gone) && k in d.dirty
    ensures MarkOk(d.dirty[k]) && k == UpdateKey(d.dirty[k])
    ensures d.dirty[k].DeleteCollection? ==> d.dirty[k].uid in gone
    ensures !d.dirty[k].DeleteCollection? ==> k in db.dirty && d.dirty[k] == db.dirty[k]
  {
    hide UpdateKey, Coherent, OnlyKnown;
    if k in Deletions(gone) {
      var u :| u in gone && k == UpdateKey(DeleteCollection(u));
      assert u in db.collections;
    } else {
      assert k in db.dirty;
      assert MarkFits(db.dirty[k]);
    }
  }

  lemma DoomedIsGone(db: Database, d: Database, gone: set<string>, u: string)
    requires Dropped(db, d, gone)
    ensures Doomed(d.dirty, u) <==> u in gone
  {
    hide UpdateKey, WriteBackOk;
    if Doomed(d.dirty, u) {
      var k :| k in d.dirty && d.dirty[k] == DeleteCollection(u);
      PendingIs(db, d, gone, k);
    }
    if u in gone {
      var k := UpdateKey(DeleteCollection(u));
      assert k in Deletions(gone);
      assert k in d.dirty && d.dirty[k].DeleteCollection?;
      var v :| v in gone && k == UpdateKey(DeleteCollection(v));
      DeletionKeysDiffer();
    }
  }

  lemma StaysPending(db: Database, d: Database, gone: set<string>, m: Mark)
    requires Dropped(db, d, gone) && MarkFits(m)
    ensures Pending(d.dirty, m) <==> Pending(db.dirty, m)
  {
    hide UpdateKey, Coherent, OnlyKnown;
    var k := UpdateKey(m);
    if k in Deletions(gone) {
      var u :| u in gone && k == UpdateKey(DeleteCollection(u));
      assert u in db.collections;
      UpdateKeyInjective(m, DeleteCollection(u));
      assert false;
    }
  }

  // ---- What is written and removed ----

  lemma UpdateIsKept(db: Database, d: Database, gone: set<string>, m: Mark)
    requires Dropped(db, d, gone) && IsUpdate(m) && MarkOk(m) && m.uid !in gone
    ensures !IsRemoved(d, StoreKey(m))
  {
    hide UpdateKey, Coherent, OnlyKnown, BelongsTo, Doomed, Dropped;
    var key := StoreKey(m);
    if k :| k in d.dirty && d.dirty[k].RemoveStart? && key == StoreKey(d.dirty[k]) {
      UpdateIsNoStart(m);
      assert false;
    }
    if u :| Doomed(d.dirty, u) && BelongsTo(key, u) {
      DoomedIsGone(db, d, gone, u);
      GoneIsUid(db, d, gone, u);
      UpdateBelongs(m, u);
      assert false;
    }
  }

  lemma GoneIsUid(db: Database, d: Database, gone: set<string>, u: string)
    requires Dropped(db, d, gone) && u in gone
    ensures IsUid(u) && u in db.collections
  {
    hide DirtyOk, Coherent, OnlyKnown, IsUid;
  }

  /** Two pending writes of one key are the same, so the order of writing does not matter. */
  lemma OneWriterPerUpdate(db: Database, d: Database, gone: set<string>, k: string, m: Mark)
    requires Dropped(db, d, gone) && IsWritten(d, k)
    requires IsUpdate(m) && MarkOk(m) && StoreKey(d.dirty[k]) == StoreKey(m)
    ensures d.dirty[k] == m && k == UpdateKey(m)
  {
    hide UpdateKey, StoreKey, Dropped, Doomed;
    PendingIs(db, d, gone, k);
    UpdateIsNoStart(m);
    StartsAreStarts(d.dirty[k]);
    StoreKeyInjective(d.dirty[k], m);
  }

  lemma StartsAreStarts(m: Mark)
    ensures m.AddStart? || m.RemoveStart? ==> START_TIME <= StoreKey(m)
  {
  }

  lemma PendingIsWritten(db: Database, d: Database, gone: set<string>, m: Mark)
    requires Dropped(db, d, gone) && Live(d.collections, m) && MarkFits(m)
    requires Pending(d.dirty, m) && Fresh(d.collections, m).Some?
    ensures StoreKey(m) in Resolve(d).store
    ensures Resolve(d).store[StoreKey(m)] == Fresh(d.collections, m).value
  {
    hide UpdateKey, StoreKey, Fresh, Doomed, IsRemoved, MarkOk, WriteBackOk;
    var k := UpdateKey(m);
    DoomedIsGone(db, d, gone, m.uid);
    assert IsWritten(d, k);
    assert StoreKey(m) in WrittenKeys(d);
    var l :| IsWritten(d, l) && StoreKey(d.dirty[l]) == StoreKey(m) &&
             WrittenValue(d, StoreKey(m)) == Fresh(d.collections, d.dirty[l]).value;
    OneWriterPerUpdate(db, d, gone, l, m);
  }

  lemma NotPendingIsKept(db: Database, d: Database, gone: set<string>, m: Mark)
    requires Dropped(db, d, gone) && IsUpdate(m) && m.uid !in gone && MarkFits(m)
    requires !Pending(d.dirty, m) || Fresh(d.collections, m).None?
    ensures StoreKey(m) in Resolve(d).store <==> StoreKey(m) in d.store
    ensures StoreKey(m) in d.store ==> Resolve(d).store[StoreKey(m)] == d.store[StoreKey(m)]
  {
    hide UpdateKey, StoreKey, Fresh, Doomed, IsRemoved, MarkOk, Dropped;
    UpdateIsKept(db, d, gone, m);
    if StoreKey(m) in WrittenKeys(d) {
      var k :| k in d.dirty && IsWritten(d, k) && StoreKey(d.dirty[k]) == StoreKey(m);
      OneWriterPerUpdate(db, d, gone, k, m);
      assert false;
    }
  }

  // ---- The store after resolving ----

  lemma LiveBefore(db: Database, d: Database, gone: set<string>, m: Mark)
    requires Dropped(db, d, gone) && Live(d.collections, m)
    ensures Live(db.collections, m) && MarkFits(m) && m.uid !in gone
    ensures Fresh(d.collections, m) == Fresh(db.collections, m)
  {
    hide DirtyOk, Coherent, OnlyKnown, IsUid, ToCollectionJson, ToEntryJson;
  }

  lemma AgreesAfterwards(db: Database, d: Database, gone: set<string>, m: Mark)
    requires Dropped(db, d, gone) && Live(d.collections, m)
    ensures Agrees(Resolve(d).store, d.collections, m)
  {
    hide UpdateKey, StoreKey, Fresh, Doomed, IsRemoved, MarkFits, DirtyOk, OnlyKnown, Resolve, Deletions;
    LiveBefore(db, d, gone, m);
    assert UpToDate(db, m);
    StaysPending(db, d, gone, m);
    if Pending(d.dirty, m) && Fresh(d.collections, m).Some? {
      PendingIsWritten(db, d, gone, m);
    } else {
      NotPendingIsKept(db, d, gone, m);
    }
  }

  lemma WrittenIsKnown(db: Database, d: Database, gone: set<string>, k: string)
    requires Dropped(db, d, gone) && IsWritten(d, k)
    ensures Known(d.collections, StoreKey(d.dirty[k]))
    ensures forall u :: u in gone ==> !BelongsTo(StoreKey(d.dirty[k]), u)
  {
    hide UpdateKey, StoreKey, Dropped, Doomed, BelongsTo, Known, IsUid;
    var m := d.dirty[k];
    PendingIs(db, d, gone, k);
    forall u | u in gone
      ensures !BelongsTo(StoreKey(m), u)
    {
      GoneIsUid(db, d, gone, u);
      DoomedIsGone(db, d, gone, u);
      WrittenBelongs(m, u);
    }
    WrittenWasLive(d.collections, m);
  }

  lemma WrittenBelongs(m: Mark, u: string)
    requires MarkOk(m) && IsUid(u) && (IsUpdate(m) ==> m.uid != u) && !m.DeleteCollection? && !m.RemoveStart?
    ensures !BelongsTo(StoreKey(m), u)
  {
    if m.AddStart? {
      StartKeyBelongsToNone(Millis(m.time), u);
    } else {
      UpdateBelongs(m, u);
    }
  }

  lemma WrittenWasLive(collections: map<string, Collection>, m: Mark)
    requires Fresh(collections, m).Some?
    ensures Known(collections, StoreKey(m))
  {
    if m.AddStart? {
      StartsAreStarts(m);
    } else {
      assert Live(collections, m);
    }
  }

  lemma KeptIsKnown(db: Database, d: Database, gone: set<string>, key: string)
    requires Dropped(db, d, gone) && key in d.store && !IsRemoved(d, key)
    ensures Known(d.collections, key)
    ensures forall u :: u in gone ==> !BelongsTo(key, u)
  {
    hide UpdateKey, StoreKey, Fresh, DirtyOk, BelongsTo, Doomed;
    forall u | u in gone
      ensures !BelongsTo(key, u)
    {
      DoomedIsGone(db, d, gone, u);
    }
    assert Known(db.collections, key);
    if !(START_TIME <= key) {
      var m :| Live(db.collections, m) && StoreKey(m) == key;
      if m.uid in gone {
        UpdateBelongs(m, m.uid);
        assert false;
      }
      assert Live(d.collections, m);
    }
  }

  /** After resolving, nothing is pending, the store agrees with memory, and no key of a collection
      that was dropped is left. */
  lemma ResolvingSettles(db: Database, d: Database, gone: set<string>)
    requires Dropped(db, d, gone)
    ensures Settled(Resolve(d)) && WriteBackOk(Resolve(d))
    ensures forall key, u :: key in Resolve(d).store && u in gone ==> !BelongsTo(key, u)
  {
    hide UpdateKey, StoreKey, Fresh, Agrees, Known, Live, BelongsTo, IsUid, Dropped, IsRemoved;
    var r := Resolve(d);
    forall m | Live(d.collections, m)
      ensures Agrees(r.store, d.collections, m)
    {
      AgreesAfterwards(db, d, gone, m);
    }
    forall key | key in r.store
      ensures Known(d.collections, key) && forall u :: u in gone ==> !BelongsTo(key, u)
    {
      if key in WrittenKeys(d) {
        var k :| k in d.dirty && IsWritten(d, k) && StoreKey(d.dirty[k]) == key;
        WrittenIsKnown(db, d, gone, k);
      } else {
        KeptIsKnown(db, d, gone, key);
      }
    }
    UidsAfterwards(db, d, gone);
  }

  lemma UidsAfterwards(db: Database, d: Database, gone: set<string>)
    requires Dropped(db, d, gone)
    ensures UidsOk(d.collections)
  {
    hide IsUid, Coherent, OnlyKnown, DirtyOk;
  }

  // ---- The scheduled removal of old keys ----

  /** The scheduled removal of old keys finds nothing to remove: what belongs to no collection is
      removed when the collection is. */
  lemma NoKeyIsOld(db: Database)
    requires WriteBackOk(db)
    ensures DropOldKeys(db) == db
  {
    hide StoreKey, DirtyOk, Coherent;
    forall key | key in db.store
      ensures KeyIsLive(db, key)
    {
      assert Known(db.collections, key);
      if START_TIME <= key {
        assert key[5] == START_TIME[5] == 's' && COLLECTION[5] == 'c';
        NoPrefix(COLLECTION, key, 5);
      } else {
        var m :| Live(db.collections, m) && StoreKey(m) == key;
        UpdateContainsUid(m);
      }
    }
  }
}
