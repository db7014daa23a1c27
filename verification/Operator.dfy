/** What the operator does with its database: submit a KoupletTest, process all collections, and clean up. Each is the
    step of the same name on the database's value. */
module Operator {
  import opened Prelude
  import opened TestModel
  import opened CollectionSteps
  import opened DatabaseSteps
  import opened FileStore
  import Keys
  import opened Records
  import opened Scheduler
  import opened Persistence
  import opened Coherence
  import opened WriteBack
  import opened Resolving
  import opened ProcessLoop
  import DatabaseInvariant

  lemma DroppedIsPendingOk(db: Database, d: Database, gone: set<string>)
    requires Dropped(db, d, gone)
    ensures PendingOk(d.dirty)
  {
    hide Dropped;
    forall k | k in d.dirty
      ensures k == Keys.UpdateKey(d.dirty[k]) && Keys.MarkOk(d.dirty[k])
    {
      PendingIs(db, d, gone, k);
    }
  }

  /** The database once a new collection has joined it. */
  ghost function WithNew(db: Database, kube: KubeTest, delay: nat): Database {
    var now := db.clock + delay;
    Enlist(db, WithTests(kube, now, |kube.tests|), now, CreationMarks(kube.uid, |kube.tests|))
  }

  /** What creating a collection leaves can be resolved. */
  lemma NewIsPendingOk(db: Database, kube: KubeTest, delay: nat)
    requires RunOk(db) && IsUid(kube.uid) && kube.uid !in db.collections
    ensures PendingOk(WithNew(db, kube, delay).dirty)
    ensures Submit(db, kube, delay) == Resolve(WithNew(db, kube, delay))
  {
    hide RunOk, Enlist, WithTests, CreationMarks, PendingOk, IsUid, WriteBackOk, Dropped, Resolve;
    var d := WithNew(db, kube, delay);
    EnlistCoheres(db, kube, db.clock + delay);
    NothingDropped(d);
    DroppedIsPendingOk(d, d, {});
  }

  method SubmitNew(db: KoupletDB, kube: KubeTest, delay: nat, ghost d: Database) returns (result: TestCollection)
    requires db.Valid() && Clean(db.persistenceContext.store.files) && kube.uid !in db.collections
    requires d == WithNew(db.View(), kube, delay) && PendingOk(d.dirty)
    modifies db`clock, db`waitingCollections, db`collections, db`submitted
    modifies db.persistenceContext`entryMap, db.persistenceContext.store
    ensures db.Valid() && Clean(db.persistenceContext.store.files)
    ensures kube.uid in db.collections && db.collections[kube.uid] == result && result.uuid == kube.uid
    ensures db.View() == Resolve(d)
  {
    hide Clean, KoupletDB.Valid, KoupletDB.View, Resolve, Enlist, CollectionViews, EntriesOf, Uuids, WithTests,
      PendingOk, CreationMarks;
    result := db.CreateCollection(kube, delay);
    assert db.View() == d;
    db.ViewParts();
    ResolvePending(db);
    db.CollectionIsListed(kube.uid);
  }

  /** GetOrCreateCollection */
  method GetOrCreateCollection(db: KoupletDB, kube: KubeTest, delay: nat) returns (result: TestCollection)
    requires db.Valid() && Clean(db.persistenceContext.store.files) && RunOk(db.View()) && IsUid(kube.uid)
    modifies db`clock, db`waitingCollections, db`collections, db`submitted
    modifies db.persistenceContext`entryMap, db.persistenceContext.store
    ensures db.Valid() && Clean(db.persistenceContext.store.files) && RunOk(db.View())
    ensures db.View() == Submit(old(db.View()), kube, delay)
    ensures kube.uid in db.collections && db.collections[kube.uid] == result && result.uuid == kube.uid
  {
    hide Clean, KoupletDB.Valid, KoupletDB.View, RunOk, Resolve, WithNew, CollectionViews, EntriesOf, Uuids,
      PendingOk, IsUid, WriteBackOk, Submit;
    db.ViewParts();
    NextCoheres(db.View(), Submitting(kube, delay));
    SubmitOfKnown(db.View(), kube, delay);
    if kube.uid in db.collections {
      db.CollectionIsListed(kube.uid);
      return db.collections[kube.uid];
    }
    NewIsPendingOk(db.View(), kube, delay);
    result := SubmitNew(db, kube, delay, WithNew(db.View(), kube, delay));
  }

  lemma SubmitOfKnown(db: Database, kube: KubeTest, delay: nat)
    ensures kube.uid in db.collections ==> Submit(db, kube, delay) == db
  {
  }

  /** The loop of Process. It stops because every round that is not fruitless leaves less to do. */
  method RunRounds(db: KoupletDB, visits: nat -> nat -> Visit, ghost fruitless: nat) returns (ghost rounds: nat)
    requires db.Valid() && Clean(db.persistenceContext.store.files) && RunOk(db.View())
    requires FewFruitless(db.View(), visits, fruitless)
    modifies db, db.persistenceContext, db.collections.Values, EntriesOf(db.collections)
    ensures db.Valid() && Clean(db.persistenceContext.store.files) && RunOk(db.View())
    ensures db.collections == old(db.collections) && db.NoForeignEntries()
    ensures rounds > 0 && db.View() == Rounds(old(db.View()), visits, rounds)
    ensures Busy(old(db.View()), visits, rounds - 1) && !ChangesAt(old(db.View()), visits, rounds - 1)
  {
    hide Clean, KoupletDB.Valid, KoupletDB.View, RunOk, CollectionViews, EntriesOf, DatabaseInvariant.DatabaseOk,
      RoundFrom, Measure, Fruitless;
    ghost var view := db.View();
    RunParts(view);
    rounds := 0;
    var k := 0;
    while true
      invariant db.Valid() && Clean(db.persistenceContext.store.files) && RunOk(db.View())
      invariant db.collections == old(db.collections) && db.NoForeignEntries()
      invariant k == rounds && db.View() == Rounds(view, visits, rounds) && Busy(view, visits, rounds)
      decreases Measure(view) + fruitless - rounds
    {
      RunParts(db.View());
      ProcessStops(view, visits, rounds);
      RoundCoheres(db.View(), visits(k), 0, 0);
      var updated := db.SubProcess(visits(k));
      assert ChangesAt(view, visits, rounds) <==> updated.Some?;
      k, rounds := k + 1, rounds + 1;
      if updated.None? {
        return;
      }
      assert Fruitless(view, visits, rounds) <= fruitless;
      ProcessStops(view, visits, rounds);
    }
  }

  /** The part of Process after its rounds. */
  method SettleRounds(db: KoupletDB, s: Settling)
    requires db.Valid() && Clean(db.persistenceContext.store.files) && RunOk(db.View())
    modifies db, db.persistenceContext, db.persistenceContext.store, db.collections.Values
    ensures db.Valid() && Clean(db.persistenceContext.store.files)
    ensures db.View() == Settle(old(db.View()), s)
  {
    hide Clean, KoupletDB.Valid, KoupletDB.View, RunOk, Resolve, CollectionViews, EntriesOf,
      DatabaseInvariant.DatabaseOk, PendingOk, WriteBackOk, CompleteCollections, Collect, Dropped;
    ghost var view := db.View();
    RunParts(view);
    ghost var c := CompleteCollections(view, s.endDelay, s.cleanupDelay);
    CompleteCollectionsCoheres(view, s.endDelay, s.cleanupDelay);
    CollectDrops(c, s.gone);
    DroppedIsPendingOk(c, Collect(c, s.gone), s.gone * c.collections.Keys);
    db.MoveComplete(s.endDelay, s.cleanupDelay);
    assert db.View() == c;
    db.CleanupOldTestCollections(s.gone);
    assert db.View() == Collect(c, s.gone);
    db.ViewParts();
    ResolvePending(db);
  }

  /** Process, on a cluster that refuses to create jobs in at most `fruitless` rounds. Afterwards the store agrees with
      memory and nothing is pending. */
  method Process(db: KoupletDB, visits: nat -> nat -> Visit, s: Settling, ghost fruitless: nat) returns (ghost rounds: nat)
    requires db.Valid() && Clean(db.persistenceContext.store.files) && RunOk(db.View())
    requires FewFruitless(db.View(), visits, fruitless)
    modifies db, db.persistenceContext, db.persistenceContext.store, db.collections.Values, EntriesOf(db.collections)
    ensures db.Valid() && Clean(db.persistenceContext.store.files) && RunOk(db.View())
    ensures rounds > 0 && !ChangesAt(old(db.View()), visits, rounds - 1)
    ensures db.View() == Settle(Rounds(old(db.View()), visits, rounds), s)
    ensures Settled(db.View())
  {
    hide Clean, KoupletDB.Valid, KoupletDB.View, RunOk, CollectionViews, EntriesOf, Settle, Settled, Rounds,
      Fruitless, Busy, WriteBackOk, ChangesAt;
    rounds := RunRounds(db, visits, fruitless);
    NextCoheres(db.View(), Settlement(s));
    SettlingCoheres(db.View(), s);
    SettleRounds(db, s);
  }
}
