/** What holds of every collection in every run. */
module Reachable {
  import opened Prelude
  import opened TestModel
  import opened CollectionSteps
  import opened CollectionInvariant
  import opened RetryChains
  import opened DatabaseSteps
  import opened DatabaseInvariant

  /** In every run, the entries of every collection fall into the four buckets, form retry chains that begin at
      tests of the specification, and are no more than the retry limit allows. */
  lemma EveryCollectionIsBounded(steps: seq<Step>, uid: string)
    requires StepsOk(steps) && uid in Run(steps).collections
    ensures
      var c := Run(steps).collections[uid];
      && CollectionOk(c)
      && NoDuplicates(c.queued + c.retry + c.running + c.completed)
      && (forall i :: i in c.queued + c.retry + c.running + c.completed <==> i in c.entries)
      && |c.entries| <= |c.kube.tests| * (1 + RetryLimit(c.kube))
  {
    hide Run, CollectionOk, DatabaseOk, StepsOk, Forest, Partition;
    EveryRunIsOk(steps);
    HeldParts(Run(steps), uid);
    var c := Run(steps).collections[uid];
    PartitionOf(c);
    BucketsPartitionEntries(c);
    EntriesAreBounded(c);
  }

  lemma PartitionOf(c: Collection)
    requires CollectionOk(c)
    ensures Partition(c) && Forest(c)
  {
    hide Partition, Forest;
  }

  /** In every run, once a collection has completed, every test of its specification has been tried to the end:
      its chain of attempts is finished, and its last attempt succeeded or was the last one permitted. */
  lemma EveryCompletedTestIsDealtWith(steps: seq<Step>, uid: string, t: int)
    requires StepsOk(steps) && uid in Run(steps).collections && uid in Run(steps).completed
    requires 0 <= t < |Run(steps).collections[uid].kube.tests|
    ensures
      var c := Run(steps).collections[uid];
      Forest(c) && t in c.entries && DealtWith(c, t, Chain(c, t))
  {
    hide Run, CollectionOk, DatabaseOk, StepsOk, DealtWith, Chain, Forest;
    EveryRunIsOk(steps);
    CompletedIsComplete(Run(steps), uid);
    PartitionOf(Run(steps).collections[uid]);
    NoTestIsDropped(Run(steps).collections[uid], t);
  }

  lemma CompletedIsComplete(db: Database, uid: string)
    requires DatabaseOk(db) && uid in db.completed
    ensures uid in db.collections && CollectionOk(db.collections[uid]) && IsComplete(db.collections[uid])
  {
    hide CollectionOk, InOrder;
    CollectionIsHeld(db, uid);
  }
}
