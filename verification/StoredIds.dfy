/** The stored `nextTestEntryID` over whole runs: how far it lags behind memory, and what that means for a reload. */
module StoredIds {
  import opened Prelude
  import opened TestModel
  import opened CollectionSteps
  import opened CollectionInvariant
  import opened Keys
  import opened DatabaseSteps
  import opened DatabaseInvariant
  import opened WriteBack
  import opened Coherence
  import opened Reload
  import opened NextIds
  import RetryChains

  // ---- The steps that matter ----

  /** The number of steps up to the last one that brought the store up to date. */
  ghost function LastResolve(steps: seq<Step>): (k: nat)
    ensures k <= |steps|
  {
    if steps == [] then 0
    else
      var before := steps[..|steps| - 1];
      if Resolves(Run(before), steps[|steps| - 1]) then |steps| else LastResolve(before)
  }

  /** The last step brought the store up to date, and since the time before that this had been done, the collection was
      created, admitted, started as the first one, or completed. */
  ghost predicate WritesRecord(steps: seq<Step>, uid: string)
    requires steps != []
  {
    var before := steps[..|steps| - 1];
    && Resolves(Run(before), steps[|steps| - 1])
    && EventsOf(Run(before[..LastResolve(before)]), uid) < EventsOf(Run(steps), uid)
  }

  /** The number of steps up to the last one that wrote the record of the collection itself. */
  ghost function LastWritten(steps: seq<Step>, uid: string): (k: nat)
    ensures k <= |steps|
  {
    if steps == [] then 0
    else if WritesRecord(steps, uid) then |steps|
    else LastWritten(steps[..|steps| - 1], uid)
  }

  /** Since the store was last brought up to date, collections have neither come nor gone, and one is marked exactly
      when its own fields have changed. */
  ghost predicate MarkedSince(r: Database, db: Database, uid: string) {
    && uid in r.collections && uid in db.collections
    && HeaderEvents(r.collections[uid]) <= HeaderEvents(db.collections[uid])
    && (IsMarked(db, uid) <==> HeaderEvents(r.collections[uid]) < HeaderEvents(db.collections[uid]))
  }

  lemma {:induction false} MarksSinceResolve(steps: seq<Step>, uid: string)
    requires StepsOk(steps) && uid in Run(steps).collections
    ensures Run(steps[..LastResolve(steps)]).collections.Keys == Run(steps).collections.Keys
    ensures MarkedSince(Run(steps[..LastResolve(steps)]), Run(steps), uid)
  {
    hide RunOk, Next, Resolves, Tracks, StoresId, MarkedSince;
    var n := |steps| - 1;
    var before, last := steps[..n], steps[n];
    EveryRunIsCoherent(before);
    NextTracks(Run(before), last, uid);
    if Resolves(Run(before), last) {
      assert steps[..|steps|] == steps;
      NothingMarked(Run(steps), uid);
    } else {
      TrackedIsThere(Run(before), Run(steps), uid);
      MarksSinceResolve(before, uid);
      assert before[..LastResolve(before)] == steps[..LastResolve(before)];
      StillMarkedSince(Run(before[..LastResolve(before)]), Run(before), Run(steps), uid);
    }
  }

  lemma NothingMarked(db: Database, uid: string)
    requires uid in db.collections && db.dirty == map[]
    ensures MarkedSince(db, db, uid)
  {
  }

  lemma TrackedIsThere(db: Database, d: Database, uid: string)
    requires Tracks(db, d, uid)
    ensures uid in db.collections && db.collections[uid].nextId <= d.collections[uid].nextId && d.store == db.store
  {
  }

  lemma StillMarkedSince(r: Database, db: Database, d: Database, uid: string)
    requires MarkedSince(r, db, uid) && Tracks(db, d, uid)
    ensures MarkedSince(r, d, uid)
  {
    hide HeaderEvents, IsMarked;
  }

  // ---- The stored id ----

  /** In every run the stored id of a collection is the id it had when its record was last written; ids are only ever
      added, so the stored one never runs ahead. */
  lemma {:induction false} StoredIdOfRun(steps: seq<Step>, uid: string)
    requires StepsOk(steps) && uid in Run(steps).collections
    ensures
      var k := LastWritten(steps, uid);
      && k > 0 && uid in Run(steps[..k]).collections
      && StoredNextId(Run(steps).store, uid) == Run(steps[..k]).collections[uid].nextId
      && Run(steps[..k]).collections[uid].nextId <= Run(steps).collections[uid].nextId
  {
    hide RunOk, Next, Resolves, Tracks, StoredNextId, HeaderEvents, MarkedSince;
    var n := |steps| - 1;
    var before, last := steps[..n], steps[n];
    EveryRunIsCoherent(before);
    NextTracks(Run(before), last, uid);
    if WritesRecord(steps, uid) {
      assert steps[..|steps|] == steps;
      WrittenNow(steps, uid);
    } else {
      NotWrittenNow(steps, uid);
      StoredIdOfRun(before, uid);
      assert before[..LastWritten(before, uid)] == steps[..LastWritten(before, uid)];
    }
  }

  lemma WrittenNow(steps: seq<Step>, uid: string)
    requires StepsOk(steps) && steps != [] && uid in Run(steps).collections && WritesRecord(steps, uid)
    ensures StoredNextId(Run(steps).store, uid) == Run(steps).collections[uid].nextId
  {
    hide RunOk, Next, Resolves, Tracks, StoredNextId, HeaderEvents;
    var before, last := steps[..|steps| - 1], steps[|steps| - 1];
    EveryRunIsCoherent(before);
    NextTracks(Run(before), last, uid);
    if uid in Run(before).collections {
      MarksSinceResolve(before, uid);
    }
  }

  lemma NotWrittenNow(steps: seq<Step>, uid: string)
    requires StepsOk(steps) && steps != [] && uid in Run(steps).collections && !WritesRecord(steps, uid)
    ensures
      var before := Run(steps[..|steps| - 1]);
      && uid in before.collections && before.collections[uid].nextId <= Run(steps).collections[uid].nextId
      && StoredNextId(Run(steps).store, uid) == StoredNextId(before.store, uid)
  {
    hide RunOk, Next, Resolves, Tracks, StoredNextId, HeaderEvents;
    var before, last := steps[..|steps| - 1], steps[|steps| - 1];
    EveryRunIsCoherent(before);
    NextTracks(Run(before), last, uid);
    if Resolves(Run(before), last) {
      if uid in Run(before).collections {
        MarksSinceResolve(before, uid);
      } else {
        NotThereAtResolve(before, uid);
        assert false;
      }
    } else {
      TrackedIsThere(Run(before), Run(steps), uid);
    }
  }

  lemma {:induction false} NotThereAtResolve(steps: seq<Step>, uid: string)
    requires StepsOk(steps) && uid !in Run(steps).collections
    ensures uid !in Run(steps[..LastResolve(steps)]).collections
  {
    hide RunOk, Next, Resolves;
    if steps == [] {
      assert steps[..0] == steps;
    } else {
      var n := |steps| - 1;
      EveryRunIsCoherent(steps[..n]);
      if Resolves(Run(steps[..n]), steps[n]) {
        assert steps[..|steps|] == steps;
      } else {
        SameKeys(Run(steps[..n]), steps[n]);
        assert uid !in Run(steps[..n]).collections.Keys;
        NotThereAtResolve(steps[..n], uid);
        assert steps[..n][..LastResolve(steps[..n])] == steps[..LastResolve(steps[..n])];
      }
    }
  }

  /** In every run the stored id is the current one exactly when no test of the collection has been retried since its
      record was last written. */
  lemma StoredIdIsCurrentExactlyWhen(steps: seq<Step>, uid: string)
    requires StepsOk(steps) && uid in Run(steps).collections
    ensures
      var k := LastWritten(steps, uid);
      && uid in Run(steps[..k]).collections
      && var written, now := Run(steps[..k]).collections[uid], Run(steps).collections[uid];
      && written.entries.Keys <= now.entries.Keys
      && now.nextId - StoredNextId(Run(steps).store, uid) == |now.entries| - |written.entries|
      && (StoredNextId(Run(steps).store, uid) == now.nextId <==> written.entries.Keys == now.entries.Keys)
  {
    hide Run, StepOk;
    StoredIdOfRun(steps, uid);
    var k := LastWritten(steps, uid);
    IdsOfRun(steps[..k], uid);
    IdsOfRun(steps, uid);
    var written, now := Run(steps[..k]).collections[uid], Run(steps).collections[uid];
    FewerIds(written, now);
  }

  lemma FewerIds(a: Collection, b: Collection)
    requires Numbered(a) && Numbered(b) && a.nextId <= b.nextId
    ensures a.entries.Keys <= b.entries.Keys
    ensures a.nextId == b.nextId <==> a.entries.Keys == b.entries.Keys
  {
    forall i | i in a.entries.Keys
      ensures i in b.entries.Keys
    {
      assert i in a.entries;
    }
    assert a.nextId < b.nextId ==> a.nextId in b.entries.Keys && a.nextId !in a.entries.Keys;
    if a.nextId == b.nextId {
      forall i | i in b.entries.Keys
        ensures i in a.entries.Keys
      {
        assert i in b.entries;
      }
    }
  }

  /** Ids are handed out without gaps. */
  ghost predicate Numbered(c: Collection) {
    |c.entries| == c.nextId && forall i :: i in c.entries <==> 0 <= i < c.nextId
  }

  lemma IdsOfRun(steps: seq<Step>, uid: string)
    requires StepsOk(steps) && uid in Run(steps).collections
    ensures Numbered(Run(steps).collections[uid])
  {
    hide Run, StepOk, DatabaseOk;
    EveryRunIsOk(steps);
    HeldParts(Run(steps), uid);
    RetryChains.EntriesAreBounded(Run(steps).collections[uid]);
  }

  // ---- What a reload makes of it ----

  /** The keys of the entries that are stored of a collection. */
  function StoredEntries(store: map<string, Stored>, uid: string): set<string> {
    set key | key in store && ChildPrefix(uid, SHALLOW) <= key
  }

  function ShallowKeys(uid: string, ids: set<int>): set<string> {
    set id | id in ids :: ChildKey(uid, SHALLOW, id)
  }

  lemma {:induction false} AsManyKeys(uid: string, ids: set<int>)
    requires IsUid(uid)
    ensures |ShallowKeys(uid, ids)| == |ids|
  {
    hide ChildKey, IsUid;
    if ids != {} {
      var id := AnyOf(ids);
      var rest := ids - {id};
      AsManyKeys(uid, rest);
      forall other | other in rest
        ensures ChildKey(uid, SHALLOW, other) != ChildKey(uid, SHALLOW, id)
      {
        if ChildKey(uid, SHALLOW, other) == ChildKey(uid, SHALLOW, id) {
          ChildKeyInjective(uid, SHALLOW, other, uid, SHALLOW, id);
        }
      }
      assert ShallowKeys(uid, ids) == ShallowKeys(uid, rest) + {ChildKey(uid, SHALLOW, id)};
    }
  }

  lemma StoredEntriesAre(db: Database, uid: string)
    requires StoreOk(db) && uid in db.collections
    ensures |StoredEntries(db.store, uid)| == |db.collections[uid].entries|
  {
    hide StoreOk, ChildKey, ChildPrefix, IsUid, Fresh;
    StoreParts(db);
    HeldParts(db, uid);
    var ids := db.collections[uid].entries.Keys;
    AsManyKeys(uid, ids);
    forall key
      ensures key in StoredEntries(db.store, uid) <==> key in ShallowKeys(uid, ids)
    {
      if key in StoredEntries(db.store, uid) {
        IsShallowKey(db, uid, key);
      }
      if key in ShallowKeys(uid, ids) {
        var id :| id in ids && key == ChildKey(uid, SHALLOW, id);
        ShallowIsStored(db, uid, id);
      }
    }
    assert StoredEntries(db.store, uid) == ShallowKeys(uid, ids);
  }

  lemma IsShallowKey(db: Database, uid: string, key: string)
    requires StoreOk(db) && uid in db.collections && key in db.store && ChildPrefix(uid, SHALLOW) <= key
    ensures key in ShallowKeys(uid, db.collections[uid].entries.Keys)
  {
    hide StoreOk, ChildKey, ChildPrefix, IsUid, Fresh;
    var m := ChildKeysAre(db, uid, SHALLOW, key);
    FamiliesDiffer();
    assert m.id in db.collections[uid].entries.Keys;
  }

  lemma ShallowIsStored(db: Database, uid: string, id: int)
    requires StoreOk(db) && uid in db.collections && id in db.collections[uid].entries
    ensures ChildKey(uid, SHALLOW, id) in StoredEntries(db.store, uid)
  {
    hide StoreOk, IsUid;
    ChildIsStored(db, EntryShallow(uid, id));
  }

  /** A reloaded collection whose KoupletTest is the same satisfies the whole invariant exactly when the `nextTestEntryID`
      in its record is the number of its stored entries. When it is less, the next retry gets the id of an entry that
      exists. Both numbers can be read off the store before loading. */
  lemma ReloadIsOkExactlyWhen(db: Database, uid: string, c': Collection)
    requires StoreOk(db) && uid in db.collections && Rebuilt(AsStored(db, uid), db.collections[uid].kube, c')
    ensures CollectionOk(c') <==> StoredNextId(db.store, uid) == |StoredEntries(db.store, uid)|
    ensures 0 <= StoredNextId(db.store, uid) < |StoredEntries(db.store, uid)| ==> c'.nextId in c'.entries
  {
    hide StoreOk, StoredNextId, StoredEntries, CollectionOk;
    StoreParts(db);
    HeldParts(db, uid);
    StoredEntriesAre(db, uid);
    var c := db.collections[uid];
    ForestOf(c);
    RetryChains.EntriesAreBounded(c);
    OkExactlyWithSameId(c, c');
  }

  lemma ForestOf(c: Collection)
    requires CollectionOk(c)
    ensures Forest(c)
  {
  }
}
