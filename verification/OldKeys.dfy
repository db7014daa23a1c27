/** Keys of collections that a restart did not find again: no step looks at them, and the scheduled removal takes away
    exactly these. */
module OldKeys {
  import opened Prelude
  import opened Text
  import opened TestModel
  import opened CollectionSteps
  import opened CollectionInvariant
  import opened Keys
  import opened DatabaseSteps
  import opened DatabaseInvariant
  import opened WriteBack
  import opened Resolving
  import opened Coherence
  import opened Restarts
  import NextIds

  // ---- Which UIDs a key contains ----

  /** The canonical form of a UID: five groups of 8, 4, 4, 4 and 12 hexadecimal digits. */
  predicate IsUuid(u: string) {
    IsUid(u) && forall i :: 0 <= i < |u| ==> (u[i] == '-' <==> i in {8, 13, 18, 23})
  }

  /** A window of a text that shows a UID shows none of the letters that no UID has, and no hyphen at its ends. */
  lemma WindowOf(s: string, v: string, k: nat)
    requires IsUuid(v) && k + 36 <= |s| && v <= s[k..]
    ensures forall i :: k <= i < k + 36 ==> s[i] == '-' || '0' <= s[i] <= '9' || 'a' <= s[i] <= 'f'
    ensures s[k] != '-' && s[k + 35] != '-' && s[k + 8] == '-'
  {
    assert forall i :: 0 <= i < 36 ==> s[k + i] == s[k..][i] == v[i];
    forall i | k <= i < k + 36
      ensures s[i] == '-' || '0' <= s[i] <= '9' || 'a' <= s[i] <= 'f'
    {
      assert s[k + (i - k)] == v[i - k];
    }
  }

  lemma EntityContains(u: string, v: string)
    requires IsUuid(u) && IsUuid(v)
    ensures Contains(EntityKey(u), v) <==> u == v
  {
    var key := EntityKey(u);
    assert |ENTITY| == 23 && ENTITY[21] == 'y' && ENTITY[22] == '-';
    assert key[21] == 'y' && key[22] == '-';
    assert key[23..] == u;
    if Contains(key, v) {
      var k :| 0 <= k <= |key| - |v| && v <= key[k..];
      WindowOf(key, v, k);
      assert k == 23;
    }
  }

  /** Where the text before the id of a key ends. */
  lemma FamilyEnds(family: string)
    requires family in {SHALLOW, RESULT, SPEC}
    ensures 4 <= |family| <= 30 && family[0] == '-' && family[1] == 't' && family[|family| - 1] == '-'
    ensures family[|family| - 2] !in "-abcdef0123456789"
  {
  }

  /** The characters around the UID in the key of an entry; its id begins at `e`. */
  predicate LaidOut(key: string, e: nat) {
    && 56 <= e <= 82 && e <= |key|
    && key[14] == 'n' && key[15] == '-' && key[52] == '-' && key[53] == 't'
    && key[e - 2] !in "-abcdef0123456789" && key[e - 1] == '-'
    && forall i :: e <= i < |key| ==> key[i] != '-'
  }

  lemma ChildIsLaidOut(u: string, family: string, id: nat)
    requires IsUuid(u) && family in {SHALLOW, RESULT, SPEC}
    ensures LaidOut(ChildKey(u, family, id), 52 + |family|)
    ensures ChildKey(u, family, id)[16..52] == u
  {
    hide Decimal, IsUuid;
    FamilyEnds(family);
    NoHyphen(id);
    UuidSize(u);
    var key, dec := ChildKey(u, family, id), Decimal(id);
    var e := 52 + |family|;
    assert |COLLECTION| == 16 && COLLECTION[14] == 'n' && COLLECTION[15] == '-';
    assert forall i :: 0 <= i < 36 ==> key[16 + i] == u[i];
    assert key[16..52] == u;
    assert forall i :: 0 <= i < |family| ==> key[52 + i] == family[i];
    assert forall i :: e <= i < |key| ==> key[i] == dec[i - e];
  }

  lemma NotHex(c: char)
    requires c == '-' || '0' <= c <= '9' || 'a' <= c <= 'f'
    ensures c in "-abcdef0123456789" && c != 'n' && c != 't'
  {
    var hex := "-abcdef0123456789";
    var i := if c == '-' then 0 else if c <= '9' then 7 + (c as int - '0' as int) else 1 + (c as int - 'a' as int);
    assert hex[i] == c;
  }

  lemma WindowIsTheUid(key: string, e: nat, v: string, k: nat)
    requires LaidOut(key, e) && IsUuid(v) && k + 36 <= |key| && v <= key[k..]
    ensures k == 16
  {
    WindowOf(key, v, k);
    if k <= 14 {
      NotHex(key[14]);
    } else if 18 <= k <= 53 {
      NotHex(key[53]);
    } else if 54 <= k <= e - 2 {
      NotHex(key[e - 2]);
    }
  }

  lemma ChildContains(u: string, family: string, id: nat, v: string)
    requires IsUuid(u) && IsUuid(v) && family in {SHALLOW, RESULT, SPEC}
    ensures Contains(ChildKey(u, family, id), v) <==> u == v
  {
    hide LaidOut, IsUuid;
    ChildIsLaidOut(u, family, id);
    UuidSize(v);
    var key := ChildKey(u, family, id);
    if Contains(key, v) {
      var k :| 0 <= k <= |key| - |v| && v <= key[k..];
      WindowIsTheUid(key, 52 + |family|, v, k);
      assert v == key[16..][..36] == key[16..52];
    }
    if u == v {
      var dec := Decimal(id);
      ChildParts(u, family, dec);
      Regroup(COLLECTION, u, family + dec);
      ContainsInTheMiddle(COLLECTION, u, family + dec);
    }
  }

  lemma UuidSize(u: string)
    requires IsUuid(u)
    ensures |u| == 36 && IsUid(u)
  {
  }

  lemma NoHyphen(id: nat)
    ensures forall i :: 0 <= i < |Decimal(id)| ==> Decimal(id)[i] != '-'
  {
  }

  /** The key of a record contains the UID of its own collection and of no other. */
  lemma UpdateContainsOnly(m: Mark, v: string)
    requires IsUpdate(m) && IsUuid(m.uid) && IsUuid(v) && (m.CollectionShallow? || m.id >= 0)
    ensures Contains(StoreKey(m), v) <==> m.uid == v
  {
    hide IsUuid, Contains;
    if m.CollectionShallow? {
      EntityContains(m.uid, v);
    } else {
      ChildContains(m.uid, FamilyOf(m), m.id, v);
    }
  }

  // ---- The removal ----

  ghost predicate Canonical(uids: set<string>) {
    forall u :: u in uids ==> IsUuid(u)
  }

  /** The key of a record of one of some collections. */
  ghost predicate IsRecordOf(key: string, uids: set<string>) {
    exists m :: IsUpdate(m) && m.uid in uids && (m.CollectionShallow? || m.id >= 0) && StoreKey(m) == key
  }

  /** What the store still has of lost collections are records of theirs, and none of them is in memory. */
  ghost predicate LeftOver(db: Database, lost: set<string>) {
    && lost !! db.collections.Keys
    && Canonical(lost) && Canonical(db.collections.Keys)
    && (forall key {:trigger BelongsToAny(key, lost)} :: key in db.store && BelongsToAny(key, lost) ==> IsRecordOf(key, lost))
  }

  lemma RecordIsNotLive(db: Database, lost: set<string>, key: string)
    requires LeftOver(db, lost) && IsRecordOf(key, lost)
    ensures !KeyIsLive(db, key)
  {
    hide IsUuid, StoreKey, Contains;
    var m :| IsUpdate(m) && m.uid in lost && (m.CollectionShallow? || m.id >= 0) && StoreKey(m) == key;
    UpdateContainsUid(m);
    forall v | v in db.collections
      ensures !Contains(key, v)
    {
      assert v in db.collections.Keys;
      UpdateContainsOnly(m, v);
    }
  }

  lemma ClearedIsLive(db: Database, lost: set<string>, key: string)
    requires WriteBackOk(Cleared(db, lost)) && key in db.store && !BelongsToAny(key, lost)
    ensures KeyIsLive(db, key)
  {
    hide WriteBackOk, BelongsToAny, Contains;
    NoKeyIsOld(Cleared(db, lost));
    assert key in Cleared(db, lost).store;
    assert key in DropOldKeys(Cleared(db, lost)).store;
  }

  /** The scheduled removal takes away every key of a lost collection, and nothing else. */
  lemma RemovalIsExact(db: Database, lost: set<string>)
    requires WriteBackOk(Cleared(db, lost)) && LeftOver(db, lost)
    ensures DropOldKeys(db) == Cleared(db, lost)
  {
    hide WriteBackOk, BelongsToAny, KeyIsLive, LeftOver;
    forall key | key in db.store
      ensures KeyIsLive(db, key) <==> !BelongsToAny(key, lost)
    {
      if BelongsToAny(key, lost) {
        IsLeftOver(db, lost, key);
        RecordIsNotLive(db, lost, key);
      } else {
        ClearedIsLive(db, lost, key);
      }
    }
  }

  lemma IsLeftOver(db: Database, lost: set<string>, key: string)
    requires LeftOver(db, lost) && key in db.store && BelongsToAny(key, lost)
    ensures IsRecordOf(key, lost)
  {
    hide Canonical, IsRecordOf;
  }

  // ---- No step looks at them ----

  lemma VisitStore(db: Database, store: map<string, Stored>, uid: string, o: Outcome, first: bool, delay: nat)
    ensures AfterVisit(db.(store := store), uid, o, first, delay) == AfterVisit(db, uid, o, first, delay).(store := store)
  {
    hide PutAll, Put, Millis;
  }

  lemma AdmitStore(db: Database, store: map<string, Stored>)
    ensures db.waiting != [] && db.waiting[0] in db.collections ==> Admit(db.(store := store)) == Admit(db).(store := store)
  {
    hide Put;
  }

  lemma RoundStore(db: Database, store: map<string, Stored>, visits: nat -> Visit, at: nat, inQueue: nat)
    ensures
      var r := RoundFrom(db, visits, at, inQueue);
      RoundFrom(db.(store := store), visits, at, inQueue) == r.(db := r.db.(store := store))
    decreases |db.running| - at
  {
    hide ProcessCollection, AfterVisit, Admit, RoundFrom;
    RoundOnce(db, visits, at, inQueue);
    RoundOnce(db.(store := store), visits, at, inQueue);
    AdmitStore(db, store);
    if at < |db.running| && db.running[at] in db.collections {
      var uid := db.running[at];
      var o := ProcessCollection(db.collections[uid], db.clock, db.starts, visits(at).cluster);
      var d := AfterVisit(db, uid, o, at == 0, visits(at).primaryDelay);
      VisitStore(db, store, uid, o, at == 0, visits(at).primaryDelay);
      if !o.changed {
        RoundStore(d, store, visits, at + 1, inQueue + |o.coll.queued| + |o.coll.retry|);
      }
    }
  }

  lemma {:induction false} MarkCompleteStore(db: Database, store: map<string, Stored>, endDelay: nat -> nat, n: nat)
    requires n <= |db.running|
    ensures MarkComplete(db.(store := store), endDelay, n) == MarkComplete(db, endDelay, n).(store := store)
  {
    hide MarkIfComplete;
    if n > 0 {
      MarkCompleteStore(db, store, endDelay, n - 1);
      MarkIfCompleteStore(MarkComplete(db, endDelay, n - 1), store, db.running[n - 1], endDelay(n - 1));
    }
  }

  lemma MarkIfCompleteStore(d: Database, store: map<string, Stored>, uid: string, delay: nat)
    ensures MarkIfComplete(d.(store := store), uid, delay) == MarkIfComplete(d, uid, delay).(store := store)
  {
    hide Put, Millis, IsComplete;
  }

  lemma CompletingStore(db: Database, store: map<string, Stored>, endDelay: nat -> nat, cleanupDelay: nat)
    ensures CompleteCollections(db.(store := store), endDelay, cleanupDelay) ==
              CompleteCollections(db, endDelay, cleanupDelay).(store := store)
  {
    hide MarkComplete, PutAll, Recent, Filter;
    MarkCompleteStore(db, store, endDelay, |db.running|);
    StillRunningStore(db, store);
    ForgettingStore(MarkComplete(db, endDelay, |db.running|).(running := StillRunningList(db)), store, cleanupDelay);
  }

  lemma ForgettingStore(d: Database, store: map<string, Stored>, delay: nat)
    ensures ForgetOldStarts(d.(store := store), delay) == ForgetOldStarts(d, delay).(store := store)
  {
    hide PutAll, Recent, RemovalMarks;
  }

  lemma StillRunningStore(db: Database, store: map<string, Stored>)
    ensures StillRunningList(db.(store := store)) == StillRunningList(db)
  {
    var other := db.(store := store);
    FilterSame(db.running, uid => StillRunning(other, uid), uid => StillRunning(db, uid));
  }

  lemma CollectingStore(db: Database, store: map<string, Stored>, gone: set<string>)
    ensures Collect(db.(store := store), gone) == Collect(db, gone).(store := store)
  {
    hide Without, Deletions;
  }

  lemma {:induction false} SweepStore(db: Database, store: map<string, Stored>, jobs: seq<Job>)
    ensures Sweep(db.(store := store), jobs) == Sweep(db, jobs).(store := store)
  {
    hide SweepJob;
    if jobs != [] {
      SweepStore(db, store, jobs[..|jobs| - 1]);
      SweepJobStore(Sweep(db, jobs[..|jobs| - 1]), store, jobs[|jobs| - 1]);
    }
  }

  lemma SweepJobStore(db: Database, store: map<string, Stored>, job: Job)
    ensures SweepJob(db.(store := store), job) == SweepJob(db, job).(store := store)
  {
    hide Put, WithEntry;
  }

  // ---- Resolving ----

  lemma SameWritten(d: Database, lost: set<string>)
    ensures WrittenKeys(Cleared(d, lost)) == WrittenKeys(d)
    ensures forall k :: IsWritten(Cleared(d, lost), k) <==> IsWritten(d, k)
    ensures forall key :: IsRemoved(Cleared(d, lost), key) <==> IsRemoved(d, key)
  {
    hide BelongsToAny, StoreKey, Fresh, BelongsTo, Doomed;
  }

  /** What is written is determined by its key, whichever pending record stands for it. */
  lemma WrittenIs(c: Database, d: Database, gone: set<string>, k: string)
    requires Dropped(c, d, gone) && IsWritten(d, k)
    ensures StoreKey(d.dirty[k]) in WrittenKeys(d)
    ensures WrittenValue(d, StoreKey(d.dirty[k])) == Fresh(d.collections, d.dirty[k]).value
  {
    hide Dropped, StoreKey, Doomed, Fresh;
    var m := d.dirty[k];
    var l :| IsWritten(d, l) && StoreKey(d.dirty[l]) == StoreKey(m) && WrittenValue(d, StoreKey(m)) == Fresh(d.collections, d.dirty[l]).value;
    WrittenParts(d, k);
    WrittenParts(d, l);
    PendingIs(c, d, gone, k);
    PendingIs(c, d, gone, l);
    WrittenKind(d.collections, m);
    WrittenKind(d.collections, d.dirty[l]);
    if IsUpdate(m) {
      OneWriterPerUpdate(c, d, gone, l, m);
    } else if IsUpdate(d.dirty[l]) {
      OneWriterPerUpdate(c, d, gone, k, d.dirty[l]);
    }
  }

  lemma WrittenParts(d: Database, k: string)
    requires IsWritten(d, k)
    ensures k in d.dirty && Fresh(d.collections, d.dirty[k]).Some?
  {
  }

  lemma WrittenKind(collections: map<string, Collection>, m: Mark)
    requires Fresh(collections, m).Some?
    ensures IsUpdate(m) || (m.AddStart? && Fresh(collections, m) == Some(StoredNothing))
  {
  }

  /** Resolving writes and removes the same, whether or not the store has something left of lost collections. */
  lemma ResolvingIgnores(c: Database, d: Database, gone: set<string>, lost: set<string>)
    requires Dropped(c, Cleared(d, lost), gone) && lost !! c.collections.Keys && forall u :: u in lost ==> IsUid(u)
    ensures Cleared(Resolve(d), lost) == Resolve(Cleared(d, lost))
    ensures forall key :: key in Resolve(d).store && BelongsToAny(key, lost) ==> key in d.store
  {
    hide StoreKey, Fresh, IsWritten, IsRemoved, Dropped, WrittenKeys, BelongsToAny, IsUid;
    var e := Cleared(d, lost);
    SameWritten(d, lost);
    forall key | key in WrittenKeys(d)
      ensures WrittenValue(d, key) == WrittenValue(e, key) && !BelongsToAny(key, lost)
    {
      WrittenAlike(c, d, gone, lost, key);
    }
    NextIds.ResolveKeepsMemory(d);
    NextIds.ResolveKeepsMemory(e);
    StoreAlike(d, lost);
  }

  lemma StoreAlike(d: Database, lost: set<string>)
    requires WrittenKeys(Cleared(d, lost)) == WrittenKeys(d)
    requires forall key :: IsRemoved(Cleared(d, lost), key) <==> IsRemoved(d, key)
    requires forall key :: key in WrittenKeys(d) ==>
               WrittenValue(d, key) == WrittenValue(Cleared(d, lost), key) && !BelongsToAny(key, lost)
    ensures Cleared(Resolve(d), lost).store == Resolve(Cleared(d, lost)).store
    ensures forall key :: key in Resolve(d).store && BelongsToAny(key, lost) ==> key in d.store
  {
    hide IsRemoved, WrittenKeys, BelongsToAny, WrittenValue;
  }

  lemma WrittenAlike(c: Database, d: Database, gone: set<string>, lost: set<string>, key: string)
    requires Dropped(c, Cleared(d, lost), gone) && lost !! c.collections.Keys && forall u :: u in lost ==> IsUid(u)
    requires key in WrittenKeys(d) && key in WrittenKeys(Cleared(d, lost))
    ensures WrittenValue(d, key) == WrittenValue(Cleared(d, lost), key) && !BelongsToAny(key, lost)
  {
    hide StoreKey, Fresh, Dropped, BelongsToAny, IsUid;
    var e := Cleared(d, lost);
    var k :| IsWritten(d, k) && StoreKey(d.dirty[k]) == key && WrittenValue(d, key) == Fresh(d.collections, d.dirty[k]).value;
    SameWritten(d, lost);
    WrittenParts(d, k);
    WrittenIs(c, e, gone, k);
    WrittenIsNotLost(c, e, gone, lost, k);
  }

  lemma WrittenIsNotLost(c: Database, e: Database, gone: set<string>, lost: set<string>, k: string)
    requires Dropped(c, e, gone) && lost !! c.collections.Keys && (forall u :: u in lost ==> IsUid(u))
    requires IsWritten(e, k)
    ensures k in e.dirty && !BelongsToAny(StoreKey(e.dirty[k]), lost)
  {
    hide StoreKey, Dropped, BelongsTo, IsUid, Doomed;
    var m := e.dirty[k];
    PendingIs(c, e, gone, k);
    WrittenIsThere(c, e, gone, m);
    forall u | u in lost
      ensures !BelongsTo(StoreKey(m), u)
    {
      WrittenBelongs(m, u);
    }
  }

  lemma WrittenIsThere(c: Database, e: Database, gone: set<string>, m: Mark)
    requires Dropped(c, e, gone) && Fresh(e.collections, m).Some?
    ensures IsUpdate(m) ==> m.uid in c.collections.Keys
    ensures !m.DeleteCollection? && !m.RemoveStart?
  {
    hide WriteBackOk, Deletions;
  }

  // ---- Every step ----

  ghost predicate Apart(db: Database, lost: set<string>) {
    lost !! db.collections.Keys && forall u :: u in lost ==> IsUid(u)
  }

  /** A step from a store with keys of lost collections is the step from the store without them. */
  ghost predicate Ignores(db: Database, lost: set<string>, s: Step) {
    && Cleared(Next(db, s), lost) == Next(Cleared(db, lost), s)
    && (forall key :: key in Next(db, s).store && BelongsToAny(key, lost) ==> key in db.store)
  }

  lemma SettlingIgnores(db: Database, lost: set<string>, s: Settling)
    requires RunOk(Cleared(db, lost)) && Apart(db, lost)
    ensures Cleared(Settle(db, s), lost) == Settle(Cleared(db, lost), s)
    ensures forall key :: key in Settle(db, s).store && BelongsToAny(key, lost) ==> key in db.store
  {
    hide RunOk, CompleteCollections, Resolve, Deletions, BelongsToAny, IsUid, Collect, Dropped, WriteBackOk;
    var store := Cleared(db, lost).store;
    var c := CompleteCollections(db, s.endDelay, s.cleanupDelay);
    var cleared := CompleteCollections(Cleared(db, lost), s.endDelay, s.cleanupDelay);
    CompletingStore(db, store, s.endDelay, s.cleanupDelay);
    CompletingStore(db, db.store, s.endDelay, s.cleanupDelay);
    assert db.(store := db.store) == db;
    assert c.store == db.store;
    assert cleared == Cleared(c, lost);
    CollectingStore(c, store, s.gone);
    CollectingStore(c, c.store, s.gone);
    assert c.(store := c.store) == c;
    assert Cleared(Collect(c, s.gone), lost) == Collect(cleared, s.gone);
    CompleteCollectionsCoheres(Cleared(db, lost), s.endDelay, s.cleanupDelay);
    CollectDrops(cleared, s.gone);
    SameCollections(Cleared(db, lost), s);
    ResolvingIgnores(cleared, Collect(c, s.gone), s.gone * cleared.collections.Keys, lost);
  }

  lemma SubmittingIgnores(db: Database, lost: set<string>, kube: KubeTest, delay: nat)
    requires RunOk(Cleared(db, lost)) && Apart(db, lost) && IsUid(kube.uid) && kube.uid !in lost
    ensures Cleared(Submit(db, kube, delay), lost) == Submit(Cleared(db, lost), kube, delay)
    ensures forall key :: key in Submit(db, kube, delay).store && BelongsToAny(key, lost) ==> key in db.store
  {
    hide RunOk, WithTests, CreationMarks, PutAll, Resolve, BelongsToAny, IsUid, Dropped, WriteBackOk;
    if kube.uid !in db.collections {
      var now := db.clock + delay;
      var c, marks := WithTests(kube, now, |kube.tests|), CreationMarks(kube.uid, |kube.tests|);
      var d := Enlist(db, c, now, marks);
      assert Cleared(d, lost) == Enlist(Cleared(db, lost), c, now, marks);
      EnlistCoheres(Cleared(db, lost), kube, now);
      NothingDropped(Cleared(d, lost));
      ResolvingIgnores(Cleared(d, lost), d, {}, lost);
    }
  }

  lemma DroppingIgnores(db: Database, lost: set<string>)
    ensures Cleared(DropOldKeys(db), lost) == DropOldKeys(Cleared(db, lost))
  {
    hide BelongsToAny, KeyIsLive;
    forall key
      ensures KeyIsLive(Cleared(db, lost), key) <==> KeyIsLive(db, key)
    {
      LiveIsAboutMemory(db, Cleared(db, lost), key);
    }
    assert Cleared(DropOldKeys(db), lost).store == DropOldKeys(Cleared(db, lost)).store;
  }

  lemma LiveIsAboutMemory(db: Database, d: Database, key: string)
    requires d.collections == db.collections
    ensures KeyIsLive(d, key) <==> KeyIsLive(db, key)
  {
  }

  /** No step looks at what the store still has of lost collections, or adds to it. */
  lemma NextIgnores(db: Database, lost: set<string>, s: Step)
    requires RunOk(Cleared(db, lost)) && Apart(db, lost) && StepOk(s) && (s.Submitting? ==> s.kube.uid !in lost)
    ensures Ignores(db, lost, s)
  {
    hide RunOk, Submit, RoundFrom, Settle, Sweep, DropOldKeys, BelongsToAny, IsUid;
    var store := Cleared(db, lost).store;
    assert db.(store := db.store) == db;
    match s
    case Submitting(kube, delay) => SubmittingIgnores(db, lost, kube, delay);
    case Processing(visits) =>
      RoundStore(db, store, visits, 0, 0);
      RoundStore(db, db.store, visits, 0, 0);
    case Settlement(settling) => SettlingIgnores(db, lost, settling);
    case Sweeping(jobs) =>
      SweepStore(db, store, jobs);
      SweepStore(db, db.store, jobs);
    case DroppingOldKeys =>
      DroppingIgnores(db, lost);
      DroppingAddsNothing(db);
  }

  lemma DroppingAddsNothing(db: Database)
    ensures forall key :: key in DropOldKeys(db).store ==> key in db.store
  {
    hide KeyIsLive;
  }
}
