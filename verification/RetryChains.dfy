/** Retry chains: every walk from a retry ends at a test of the spec, the number of entries is bounded,
    and a complete collection has dealt with every test. */
module RetryChains {
  import opened Prelude
  import opened TestModel
  import opened CollectionSteps
  import opened CollectionInvariant

  // ---- Walking back ----

  /** The walk along `retryFrom` stays inside the collection and ends at a test of the spec. */
  lemma {:induction false} WalkEndsAtATest(c: Collection, i: int)
    requires Forest(c) && i in c.entries
    ensures Root(c.entries, i) in c.entries
    ensures 0 <= Root(c.entries, i) < |c.kube.tests|
    ensures c.entries[Root(c.entries, i)].retryFrom.None?
    ensures c.entries[i].spec == c.kube.tests[Root(c.entries, i)]
    decreases i
  {
    assert Linked(c, i);
    if c.entries[i].retryFrom.Some? {
      WalkEndsAtATest(c, c.entries[i].retryFrom.value);
    }
  }

  /** An entry is determined by the test it belongs to and by how many retries lie behind it. */
  lemma {:induction false} ChainsAreLinear(c: Collection, i: int, j: int)
    requires Forest(c) && i in c.entries && j in c.entries
    requires Root(c.entries, i) == Root(c.entries, j) && Depth(c.entries, i) == Depth(c.entries, j)
    ensures i == j
    decreases i
  {
    assert Linked(c, i);
    assert Linked(c, j);
    if c.entries[i].retryFrom.Some? {
      var p, q := c.entries[i].retryFrom.value, c.entries[j].retryFrom.value;
      ChainsAreLinear(c, p, q);
      assert IsRetryOf(c, i, p) && IsRetryOf(c, j, p);
    }
  }

  // ---- Counting entries ----

  function UpTo(n: nat): (s: set<int>)
    ensures forall x :: x in s <==> 0 <= x < n
    ensures |s| == n
  {
    if n == 0 then {} else UpTo(n - 1) + {n - 1}
  }

  function Image(code: int -> int, k: nat): set<int> {
    set i | 0 <= i < k :: code(i)
  }

  lemma {:induction false} ImageSize(code: int -> int, k: nat)
    requires forall i, j :: 0 <= i < j < k ==> code(i) != code(j)
    ensures |Image(code, k)| == k
  {
    if k > 0 {
      ImageSize(code, k - 1);
      assert Image(code, k) == Image(code, k - 1) + {code(k - 1)};
    }
  }

  lemma Pigeonhole(code: int -> int, k: nat, holes: nat)
    requires forall i :: 0 <= i < k ==> 0 <= code(i) < holes
    requires forall i, j :: 0 <= i < j < k ==> code(i) != code(j)
    ensures k <= holes
  {
    ImageSize(code, k);
    SubsetIsSmaller(Image(code, k), UpTo(holes));
  }

  lemma PairCodes(a: nat, x: nat, b: nat, y: nat, width: nat)
    requires x < width && y < width
    requires a * width + x == b * width + y
    ensures a == b && x == y
  {
    if a < b {
      MulMonotone(a + 1, b, width);
    } else if b < a {
      MulMonotone(b + 1, a, width);
    }
  }

  /** The test and the retry number of an entry, as one number. */
  function Code(c: Collection, i: int): int {
    Root(c.entries, i) * (1 + RetryLimit(c.kube)) + Depth(c.entries, i)
  }

  lemma CodeInRange(c: Collection, i: int)
    requires Forest(c) && i in c.entries
    ensures 0 <= Code(c, i) < |c.kube.tests| * (1 + RetryLimit(c.kube))
  {
    WalkEndsAtATest(c, i);
    MulMonotone(Root(c.entries, i) + 1, |c.kube.tests|, 1 + RetryLimit(c.kube));
    MulMonotone(0, Root(c.entries, i), 1 + RetryLimit(c.kube));
  }

  lemma CodesDiffer(c: Collection, i: int, j: int)
    requires Forest(c) && i in c.entries && j in c.entries && i != j
    ensures Code(c, i) != Code(c, j)
  {
    WalkEndsAtATest(c, i);
    WalkEndsAtATest(c, j);
    if Code(c, i) == Code(c, j) {
      PairCodes(Root(c.entries, i), Depth(c.entries, i), Root(c.entries, j), Depth(c.entries, j),
                1 + RetryLimit(c.kube));
      ChainsAreLinear(c, i, j);
    }
  }

  /** There are at most |tests| * (1 + retries) entries. */
  lemma EntriesAreBounded(c: Collection)
    requires Forest(c)
    ensures |c.entries| == c.nextId <= |c.kube.tests| * (1 + RetryLimit(c.kube))
  {
    var code := i => Code(c, i);
    MulMonotone(0, |c.kube.tests|, 1 + RetryLimit(c.kube));
    forall i | 0 <= i < c.nextId
      ensures 0 <= code(i) < |c.kube.tests| * (1 + RetryLimit(c.kube))
    {
      CodeInRange(c, i);
    }
    forall i, j | 0 <= i < j < c.nextId
      ensures code(i) != code(j)
    {
      CodesDiffer(c, i, j);
    }
    Pigeonhole(code, c.nextId, |c.kube.tests| * (1 + RetryLimit(c.kube)));
    assert c.entries.Keys == UpTo(c.nextId);
  }

  // ---- Walking forward ----

  /** An entry followed by its retries, in order. */
  ghost function Chain(c: Collection, i: int): seq<int>
    requires Forest(c) && i in c.entries
    decreases c.nextId - i
  {
    if HasRetry(c, i) then
      var j :| IsRetryOf(c, j, i);
      assert Linked(c, j);
      [i] + Chain(c, j)
    else [i]
  }

  ghost predicate ChainLink(c: Collection, chain: seq<int>, k: nat)
    requires k < |chain|
  {
    && chain[k] in c.entries
    && (k + 1 < |chain| ==> IsRetryOf(c, chain[k + 1], chain[k]))
  }

  lemma {:induction false} ChainIsLinked(c: Collection, i: int)
    requires Forest(c) && i in c.entries
    ensures
      var chain := Chain(c, i);
      && chain != [] && chain[0] == i
      && (forall k :: 0 <= k < |chain| ==> ChainLink(c, chain, k))
      && chain[|chain| - 1] in c.entries && !HasRetry(c, chain[|chain| - 1])
    decreases c.nextId - i
  {
    if HasRetry(c, i) {
      var j :| IsRetryOf(c, j, i) && Chain(c, i) == [i] + Chain(c, j);
      assert Linked(c, j);
      ChainIsLinked(c, j);
      var chain, rest := Chain(c, i), Chain(c, j);
      forall k | 0 <= k < |chain|
        ensures ChainLink(c, chain, k)
      {
        if k > 0 {
          assert ChainLink(c, rest, k - 1);
        }
      }
    }
  }

  lemma {:induction false} DepthsAlongChain(c: Collection, t: int, k: nat)
    requires Forest(c) && 0 <= t < |c.kube.tests|
    requires t in c.entries && k < |Chain(c, t)|
    ensures Chain(c, t)[k] in c.entries
    ensures Root(c.entries, Chain(c, t)[k]) == t && Depth(c.entries, Chain(c, t)[k]) == k
  {
    ChainIsLinked(c, t);
    assert Linked(c, t);
    var chain := Chain(c, t);
    assert ChainLink(c, chain, k);
    if k > 0 {
      DepthsAlongChain(c, t, k - 1);
      assert ChainLink(c, chain, k - 1);
      assert Linked(c, chain[k]);
    }
  }

  /** The chain of a test is made of exactly the entries that belong to the test. */
  lemma {:induction false} ChainIsTheWholeTest(c: Collection, i: int)
    requires Forest(c) && i in c.entries
    ensures Root(c.entries, i) in c.entries
    ensures
      var chain := Chain(c, Root(c.entries, i));
      Depth(c.entries, i) < |chain| && chain[Depth(c.entries, i)] == i
    decreases i
  {
    WalkEndsAtATest(c, i);
    assert Linked(c, i);
    var t := Root(c.entries, i);
    var chain := Chain(c, t);
    ChainIsLinked(c, t);
    if c.entries[i].retryFrom.Some? {
      var p := c.entries[i].retryFrom.value;
      ChainIsTheWholeTest(c, p);
      var d := Depth(c.entries, p);
      assert IsRetryOf(c, i, p);
      assert HasRetry(c, p);
      assert ChainLink(c, chain, d);
      assert IsRetryOf(c, chain[d + 1], p);
    }
  }

  ghost predicate Finished(c: Collection, i: int) {
    i in c.entries && c.entries[i].bucket == InCompleted
  }

  ghost predicate Passed(c: Collection, i: int) {
    i in c.entries && Succeeded(c.entries[i])
  }

  /** What has become of one test of a complete collection. */
  ghost predicate DealtWith(c: Collection, t: int, chain: seq<int>) {
    && chain != [] && chain[0] == t
    && |chain| <= 1 + RetryLimit(c.kube)
    && (forall k :: 0 <= k < |chain| ==> ChainLink(c, chain, k))
    && (forall i :: i in chain <==> i in c.entries && Root(c.entries, i) == t)
    && (forall k :: 0 <= k < |chain| ==> Finished(c, chain[k]))
    && (forall k :: 0 <= k < |chain| - 1 ==> !Passed(c, chain[k]))
    && (Passed(c, chain[|chain| - 1]) || |chain| == 1 + RetryLimit(c.kube))
  }

  lemma ChainMembers(c: Collection, t: int)
    requires Forest(c) && 0 <= t < |c.kube.tests|
    ensures t in c.entries
    ensures forall i :: i in Chain(c, t) <==> i in c.entries && Root(c.entries, i) == t
  {
    var chain := Chain(c, t);
    forall i
      ensures i in chain <==> i in c.entries && Root(c.entries, i) == t
    {
      if i in chain {
        var k :| 0 <= k < |chain| && chain[k] == i;
        DepthsAlongChain(c, t, k);
      }
      if i in c.entries && Root(c.entries, i) == t {
        ChainIsTheWholeTest(c, i);
      }
    }
  }

  /** A complete collection has dealt with every test of its spec: the test's entries form one chain, all
      are finished, all but the last failed, and the last succeeded unless every permitted retry was used. */
  lemma NoTestIsDropped(c: Collection, t: int)
    requires CollectionOk(c) && IsComplete(c) && 0 <= t < |c.kube.tests|
    ensures t in c.entries && DealtWith(c, t, Chain(c, t))
  {
    var chain := Chain(c, t);
    ChainIsLinked(c, t);
    ChainMembers(c, t);
    forall k | 0 <= k < |chain|
      ensures Finished(c, chain[k])
      ensures k + 1 < |chain| ==> !Passed(c, chain[k])
    {
      assert ChainLink(c, chain, k);
      assert chain[k] !in c.queued && chain[k] !in c.retry && chain[k] !in c.running;
      if k + 1 < |chain| {
        assert ChainLink(c, chain, k + 1);
        assert Linked(c, chain[k + 1]);
      }
    }
    var last := chain[|chain| - 1];
    DepthsAlongChain(c, t, |chain| - 1);
    assert Depth(c.entries, last) <= RetryLimit(c.kube);
    assert !OwesRetry(c, last);
  }
}
