/** What every operation keeps true of a test collection: the four buckets partition the entries,
    and the entries form a bounded forest of linear retry chains. */
module CollectionInvariant {
  import opened Prelude
  import opened TestModel
  import opened CollectionSteps

  // ---- The invariant ----

  /** A bucket lists, once each, exactly the entries whose bucket field names it. */
  ghost predicate Lists(c: Collection, ids: seq<int>, bucket: EntryBucket) {
    && NoDuplicates(ids)
    && (forall i :: i in ids <==> i in c.entries && c.entries[i].bucket == bucket)
  }

  ghost predicate Partition(c: Collection) {
    && Lists(c, c.queued, InQueued)
    && Lists(c, c.retry, InRetry)
    && Lists(c, c.running, InRunning)
    && Lists(c, c.completed, InCompleted)
  }

  /** Status, bucket and result of an entry agree. */
  ghost predicate Shape(e: Entry) {
    match e.bucket
    case InQueued => e.status == EntryWaiting && !e.processed && e.result.None? && e.retryFrom.None?
    case InRetry => e.status == EntryWaiting && !e.processed && e.result.None? && e.retryFrom.Some?
    case InRunning => e.status == EntryRunning && !e.processed && e.result.None?
    case InCompleted =>
      && (e.status == EntryComplete || e.status == EntryExpired)
      && e.processed
      && e.result.Some?
      && e.result.value.id == e.id
      && e.result.value.percent.Some? && e.result.value.percent.value <= 100
      && (e.result.value.percent.value == 100 <==> Succeeded(e))
  }

  ghost predicate Shapes(c: Collection) {
    forall i :: i in c.entries ==> c.entries[i].id == i && Shape(c.entries[i])
  }

  /** An original test carries the spec's test, a retry points to an older entry that failed. */
  ghost predicate Linked(c: Collection, i: int)
    requires i in c.entries
  {
    var e := c.entries[i];
    match e.retryFrom
    case None => 0 <= i < |c.kube.tests| && e.spec == c.kube.tests[i]
    case Some(p) =>
      && |c.kube.tests| <= i
      && 0 <= p < i
      && p in c.entries
      && c.entries[p].bucket == InCompleted
      && !Succeeded(c.entries[p])
      && e.spec == c.entries[p].spec
  }

  ghost predicate IsRetryOf(c: Collection, child: int, parent: int) {
    child in c.entries && c.entries[child].retryFrom == Some(parent)
  }

  ghost predicate Forest(c: Collection) {
    && (forall i :: i in c.entries <==> 0 <= i < c.nextId)
    && |c.kube.tests| <= c.nextId
    && (forall i {:trigger Linked(c, i)} :: i in c.entries ==> Linked(c, i))
    && (forall p, i, j :: IsRetryOf(c, i, p) && IsRetryOf(c, j, p) ==> i == j)
    && (forall i {:trigger Depth(c.entries, i)} :: i in c.entries ==> Depth(c.entries, i) <= RetryLimit(c.kube))
  }

  /** A failed entry that is not at the retry limit has been retried. */
  ghost predicate Retried(c: Collection) {
    forall i :: OwesRetry(c, i) ==> HasRetry(c, i)
  }

  ghost predicate OwesRetry(c: Collection, i: int) {
    && i in c.entries
    && c.entries[i].bucket == InCompleted
    && !Succeeded(c.entries[i])
    && Depth(c.entries, i) < RetryLimit(c.kube)
  }

  ghost predicate HasRetry(c: Collection, i: int) {
    exists j :: IsRetryOf(c, j, i)
  }

  ghost predicate CollectionOk(c: Collection) {
    c.uid == c.kube.uid && Partition(c) && Shapes(c) && Forest(c) && Retried(c)
  }

  // ---- Consequences of the partition ----

  /** No entry is in a bucket twice or in two buckets, and every entry is in one. */
  lemma BucketsPartitionEntries(c: Collection)
    requires Partition(c)
    ensures NoDuplicates(c.queued + c.retry + c.running + c.completed)
    ensures forall i :: i in c.queued + c.retry + c.running + c.completed <==> i in c.entries
  {
    var all := c.queued + c.retry + c.running + c.completed;
    forall i | i in c.entries
      ensures i in all
    {
      match c.entries[i].bucket
      case InQueued => assert i in c.queued;
      case InRetry => assert i in c.retry;
      case InRunning => assert i in c.running;
      case InCompleted => assert i in c.completed;
    }
    DistinctTogether(c.queued, c.retry);
    DistinctTogether(c.queued + c.retry, c.running);
    DistinctTogether(c.queued + c.retry + c.running, c.completed);
  }

  lemma DistinctTogether(a: seq<int>, b: seq<int>)
    requires NoDuplicates(a) && NoDuplicates(b)
    requires forall x :: x in a ==> x !in b
    ensures NoDuplicates(a + b)
  {
    forall i, j | 0 <= i < |a| && 0 <= j < |b|
      ensures a[i] != b[j]
    {
      var x := a[i];
      assert x in a;
    }
  }

  /** The head of a bucket is an entry with that bucket's shape. */
  lemma HeadIsListed(c: Collection, ids: seq<int>, bucket: EntryBucket)
    requires Lists(c, ids, bucket) && Shapes(c) && ids != []
    ensures ids[0] in c.entries && c.entries[ids[0]].bucket == bucket
    ensures c.entries[ids[0]].id == ids[0] && Shape(c.entries[ids[0]])
  {
    var head := ids[0];
    assert head in ids;
  }

  lemma FirstIsWaiting(c: Collection)
    requires Partition(c) && Shapes(c)
    ensures FirstWaiting(c.entries, c.queued) == 0
    ensures FirstWaiting(c.entries, c.retry) == 0
  {
    if c.queued != [] {
      HeadIsListed(c, c.queued, InQueued);
    }
    if c.retry != [] {
      HeadIsListed(c, c.retry, InRetry);
    }
  }

  // ---- Depth does not change while links are kept ----

  ghost predicate KeepsLinks(before: map<int, Entry>, after: map<int, Entry>) {
    forall i :: i in before ==> i in after && after[i].retryFrom == before[i].retryFrom
  }

  ghost predicate Closed(entries: map<int, Entry>) {
    forall i :: i in entries && entries[i].retryFrom.Some? ==> entries[i].retryFrom.value in entries
  }

  lemma {:induction false} DepthKept(before: map<int, Entry>, after: map<int, Entry>, i: int)
    requires KeepsLinks(before, after) && Closed(before) && i in before
    ensures Depth(after, i) == Depth(before, i)
    ensures Root(after, i) == Root(before, i)
    decreases i
  {
    if before[i].retryFrom.Some? && 0 <= before[i].retryFrom.value < i {
      DepthKept(before, after, before[i].retryFrom.value);
    }
  }

  lemma ForestIsClosed(c: Collection)
    requires Forest(c)
    ensures Closed(c.entries)
  {
    forall i | i in c.entries && c.entries[i].retryFrom.Some?
      ensures c.entries[i].retryFrom.value in c.entries
    {
      assert Linked(c, i);
    }
  }

  // ---- Moves between buckets ----

  /** Two collections with the same entries, except that some have moved on. */
  ghost predicate SameLinks(c: Collection, c': Collection) {
    && c'.kube == c.kube && c'.uid == c.uid && c'.nextId == c.nextId
    && c'.entries.Keys == c.entries.Keys
    && (forall i :: i in c.entries ==>
          && c'.entries[i].retryFrom == c.entries[i].retryFrom
          && c'.entries[i].spec == c.entries[i].spec
          && (c.entries[i].bucket == InCompleted ==>
                c'.entries[i].bucket == InCompleted && c'.entries[i].result == c.entries[i].result))
  }

  lemma ForestKept(c: Collection, c': Collection)
    requires Forest(c) && SameLinks(c, c')
    ensures Forest(c')
    ensures forall i :: i in c.entries ==> Depth(c'.entries, i) == Depth(c.entries, i)
  {
    ForestIsClosed(c);
    forall i | i in c.entries
      ensures Depth(c'.entries, i) == Depth(c.entries, i) && Linked(c', i)
    {
      DepthKept(c.entries, c'.entries, i);
      assert Linked(c, i);
    }
    forall p, i, j | IsRetryOf(c', i, p) && IsRetryOf(c', j, p)
      ensures i == j
    {
      assert IsRetryOf(c, i, p) && IsRetryOf(c, j, p);
    }
  }

  lemma RetriedKept(c: Collection, c': Collection)
    requires Forest(c) && Retried(c) && SameLinks(c, c')
    requires forall i :: i in c.entries ==> (c'.entries[i].bucket == InCompleted ==> c.entries[i].bucket == InCompleted)
    ensures Retried(c')
  {
    ForestKept(c, c');
    forall i | OwesRetry(c', i)
      ensures HasRetry(c', i)
    {
      RetryKept(c, c', i);
    }
  }

  lemma RetryKept(c: Collection, c': Collection, i: int)
    requires Forest(c) && Retried(c) && SameLinks(c, c')
    requires OwesRetry(c', i) && i in c.entries && c.entries[i].bucket == InCompleted
    ensures HasRetry(c', i)
  {
    ForestKept(c, c');
    assert OwesRetry(c, i);
    var j :| IsRetryOf(c, j, i);
    assert IsRetryOf(c', j, i);
  }

  /** Starting a test keeps the invariant. */
  lemma StartKeepsInvariant(c: Collection, fromQueued: bool, answer: Answer)
    requires CollectionOk(c)
    requires if fromQueued then c.queued != [] else c.retry != []
    ensures CollectionOk(MoveToRunning(c, fromQueued, answer))
    ensures SameLinks(c, MoveToRunning(c, fromQueued, answer))
  {
    var c' := MoveToRunning(c, fromQueued, answer);
    var id := if fromQueued then c.queued[0] else c.retry[0];
    StartKeepsPartition(c, fromQueued, answer);
    assert id in (if fromQueued then c.queued else c.retry);
    assert c'.entries.Keys == c.entries.Keys;
    ForestKept(c, c');
    RetriedKept(c, c');
  }

  function MoveToRunning(c: Collection, fromQueued: bool, answer: Answer): Collection
    requires if fromQueued then c.queued != [] else c.retry != []
    requires (if fromQueued then c.queued[0] else c.retry[0]) in c.entries
  {
    var id := if fromQueued then c.queued[0] else c.retry[0];
    var picked := if fromQueued then c.(queued := RemoveAt(c.queued, 0)) else c.(retry := RemoveAt(c.retry, 0));
    WithEntry(picked, id, Started(c.entries[id], answer)).(running := picked.running + [id])
  }

  lemma StartKeepsPartition(c: Collection, fromQueued: bool, answer: Answer)
    requires Partition(c) && Shapes(c)
    requires if fromQueued then c.queued != [] else c.retry != []
    ensures (if fromQueued then c.queued[0] else c.retry[0]) in c.entries
    ensures Partition(MoveToRunning(c, fromQueued, answer))
  {
    if fromQueued {
      RemoveAtMembers(c.queued, 0);
      assert c.queued[0] in c.queued;
      AppendMembers(c.running, c.queued[0]);
    } else {
      RemoveAtMembers(c.retry, 0);
      assert c.retry[0] in c.retry;
      AppendMembers(c.running, c.retry[0]);
    }
  }
}
