/** The objects that collections and the database are made of: test entries, and the record of pending writes. */
module Records {
  import opened Prelude
  import opened TestModel
  import opened CollectionSteps
  import opened DatabaseSteps
  import opened FileStore
  import WriteBack

  /** PersistenceContext; `entryMap` holds the pending writes under their keys. */
  class PersistenceContext {
    var entryMap: map<string, Mark>
    const store: FilePersistence<Stored>

    constructor (store: FilePersistence<Stored>)
      ensures this.store == store && entryMap == map[]
    {
      this.store := store;
      entryMap := map[];
    }

    method PutEntry(m: Mark)
      modifies this`entryMap
      ensures entryMap == PutAll(old(entryMap), [m])
    {
      entryMap := Put(entryMap, m);
      assert [m][..0] == [];
    }

    method PutTwo(m: Mark, n: Mark)
      modifies this`entryMap
      ensures entryMap == PutAll(old(entryMap), [m, n])
    {
      PutEntry(m);
      PutEntry(n);
      assert [m, n] == [m] + [n];
      WriteBack.PutAllAppend(old(entryMap), [m], [n]);
    }
  }

  /** TestEntry; `owner` is the collection it was made for. */
  class TestEntry {
    const id: int
    const retryFromID: Option<int>
    ghost const owner: object
    var status: EntryStatus
    var result: Option<TestResult>
    var testEntry: TestSpec
    var clusterResource: Option<ClusterResource>
    var processed: bool
    var bucket: EntryBucket

    constructor (e: Entry, ghost owner: object)
      ensures View() == e && this.owner == owner && id == e.id && retryFromID == e.retryFrom
    {
      id, retryFromID, status, result := e.id, e.retryFrom, e.status, e.result;
      testEntry, clusterResource, processed, bucket := e.spec, e.cluster, e.processed, e.bucket;
      this.owner := owner;
    }

    ghost function View(): Entry
      reads this
    {
      Entry(id, retryFromID, status, result, testEntry, clusterResource, processed, bucket)
    }

    method MoveToCompleted(r: TestResult)
      modifies this`result, this`bucket
      ensures View() == old(View()).(result := Some(r), bucket := InCompleted)
    {
      result, bucket := Some(r), InCompleted;
    }

    method SetClusterResource(resource: ClusterResource)
      modifies this`clusterResource
      ensures View() == old(View()).(cluster := Some(resource))
    {
      clusterResource := Some(resource);
    }

    method SetTestEntry(spec: TestSpec)
      modifies this`testEntry
      ensures View() == old(View()).(spec := spec)
    {
      testEntry := spec;
    }

    method SetResult(r: TestResult)
      modifies this`result
      ensures View() == old(View()).(result := Some(r))
    {
      result := Some(r);
    }

    method ForgetJob(uid: string, pc: PersistenceContext)
      modifies this`clusterResource, pc`entryMap
      ensures View() == old(View()).(cluster := None)
      ensures pc.entryMap == PutAll(old(pc.entryMap), [EntryShallow(uid, id)])
    {
      clusterResource := None;
      pc.PutEntry(EntryShallow(uid, id));
    }

    method MarkAsExpiredAndPersist(uid: string, pc: PersistenceContext)
      modifies this`processed, this`status, pc`entryMap
      ensures View() == old(View()).(processed := true, status := EntryExpired)
      ensures pc.entryMap == PutAll(old(pc.entryMap), [EntryShallow(uid, id)])
    {
      processed, status := true, EntryExpired;
      pc.PutEntry(EntryShallow(uid, id));
    }

    method MarkAsRunningAndPersist(uid: string, pc: PersistenceContext)
      modifies this`status, this`bucket, pc`entryMap
      ensures View() == old(View()).(status := EntryRunning, bucket := InRunning)
      ensures pc.entryMap == PutAll(old(pc.entryMap), [EntryShallow(uid, id)])
    {
      status, bucket := EntryRunning, InRunning;
      pc.PutEntry(EntryShallow(uid, id));
    }

    method MarkAsCompleteAndPersist(uid: string, pc: PersistenceContext)
      modifies this`processed, this`status, pc`entryMap
      ensures View() == old(View()).(processed := true, status := EntryComplete)
      ensures pc.entryMap == PutAll(old(pc.entryMap), [EntryShallow(uid, id)])
    {
      processed, status := true, EntryComplete;
      pc.PutEntry(EntryShallow(uid, id));
    }
  }

  /** The ids of a list of entries. */
  function Ids(s: seq<TestEntry>): (r: seq<int>)
    ensures |r| == |s|
  {
    seq(|s|, i requires 0 <= i < |s| => s[i].id)
  }

  lemma IdsOfOneMore(s: seq<TestEntry>, e: TestEntry)
    ensures Ids(s + [e]) == Ids(s) + [e.id]
  {
  }

  lemma IdsRemoveAt(s: seq<TestEntry>, at: nat)
    requires at < |s|
    ensures Ids(RemoveAt(s, at)) == RemoveAt(Ids(s), at)
  {
  }

  /** Every entry of the list is the one the map holds under its id. */
  ghost predicate AllIn(s: seq<TestEntry>, testEntries: map<int, TestEntry>) {
    forall e :: e in s ==> e.id in testEntries && testEntries[e.id] == e
  }

  ghost predicate OwnIds(testEntries: map<int, TestEntry>, owner: object) {
    && (forall i :: i in testEntries ==> testEntries[i].id == i)
    && (forall e :: e in testEntries.Values ==> e.owner == owner)
  }

  ghost function EntryViews(testEntries: map<int, TestEntry>): (r: map<int, Entry>)
    reads testEntries.Values
    ensures r.Keys == testEntries.Keys
    ensures forall i :: i in r ==> r[i] == testEntries[i].View()
  {
    map i | i in testEntries :: testEntries[i].View()
  }

  /** When one entry changed, the views change under its id only. */
  lemma OneEntryChanged(before: map<int, Entry>, testEntries: map<int, TestEntry>, e: TestEntry, owner: object)
    requires OwnIds(testEntries, owner) && e.id in testEntries && testEntries[e.id] == e
    requires before.Keys == testEntries.Keys
    requires forall i :: i in testEntries && testEntries[i] != e ==> testEntries[i].View() == before[i]
    ensures EntryViews(testEntries) == before[e.id := e.View()]
  {
    hide TestEntry.View;
    var after := EntryViews(testEntries);
    forall i | i in testEntries && i != e.id
      ensures after[i] == before[i]
    {
      assert testEntries[i].id == i;
      assert testEntries[i] != e;
    }
    assert after[e.id] == e.View();
    assert after == before[e.id := e.View()];
  }

  lemma OneEntryAdded(testEntries: map<int, TestEntry>, e: TestEntry)
    ensures EntryViews(testEntries[e.id := e]) == EntryViews(testEntries)[e.id := e.View()]
  {
  }
}
