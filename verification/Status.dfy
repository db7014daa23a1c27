/** The percentage that a KoupletTest's status reports. */
module Status {
  import opened Prelude
  import opened TestModel
  import opened CollectionSteps
  import opened CollectionInvariant
  import opened RetryChains
  import JobOutcomes

  /** Whether some attempt at a test of the spec succeeded. */
  ghost predicate TestPassed(c: Collection, t: int) {
    exists k :: PassedFor(c, k, t)
  }

  ghost predicate PassedFor(c: Collection, k: int, t: int) {
    Passed(c, k) && Root(c.entries, k) == t
  }

  ghost function PassedTests(c: Collection): set<int> {
    set t | 0 <= t < |c.kube.tests| && TestPassed(c, t)
  }

  function PercentOf(e: Entry): int {
    if e.result.Some? && e.result.value.percent.Some? then e.result.value.percent.value else 0
  }

  lemma PercentShowsPassing(c: Collection, k: int)
    requires Shapes(c) && k in c.entries
    ensures PercentOf(c.entries[k]) <= 100
    ensures PercentOf(c.entries[k]) == 100 <==> Passed(c, k)
  {
    assert Shape(c.entries[k]);
  }

  /** getTestEntryRetry */
  method FirstAttempt(c: Collection, k: int) returns (first: Entry)
    requires Shapes(c) && Forest(c) && k in c.entries
    ensures first.id == Root(c.entries, k)
  {
    first := c.entries[k];
    while first.retryFrom.Some?
      invariant first.id in c.entries && c.entries[first.id] == first
      invariant Root(c.entries, first.id) == Root(c.entries, k)
      decreases first.id
    {
      assert Linked(c, first.id);
      if first.retryFrom.value !in c.entries {
        return;
      }
      first := c.entries[first.retryFrom.value];
    }
  }

  /** The best percentage seen for each test among the entries `seen`. */
  ghost predicate BestSoFar(c: Collection, seen: set<int>, best: map<int, int>) {
    && (forall k :: k in seen && k in c.entries ==> Root(c.entries, k) in best)
    && (forall t :: t in best ==> 0 <= t < |c.kube.tests| && best[t] <= 100)
    && (forall t :: t in best && best[t] == 100 ==> exists k :: k in seen && PassedFor(c, k, t))
    && (forall t, k :: t in best && k in seen && PassedFor(c, k, t) ==> best[t] == 100)
  }

  lemma BestStep(c: Collection, seen: set<int>, best: map<int, int>, k: int)
    requires Shapes(c) && Forest(c) && k in c.entries && BestSoFar(c, seen, best)
    ensures
      var t, p := Root(c.entries, k), PercentOf(c.entries[k]);
      BestSoFar(c, seen + {k}, if t !in best || p > best[t] then best[t := p] else best)
  {
    var t, p := Root(c.entries, k), PercentOf(c.entries[k]);
    PercentShowsPassing(c, k);
    WalkEndsAtATest(c, k);
    var best' := if t !in best || p > best[t] then best[t := p] else best;
    forall u | u in best' && best'[u] == 100
      ensures exists j :: j in seen + {k} && PassedFor(c, j, u)
    {
      if u in best && best[u] == 100 {
        var j :| j in seen && PassedFor(c, j, u);
        assert j in seen + {k};
      } else {
        assert PassedFor(c, k, u);
      }
    }
    forall u, j | u in best' && j in seen + {k} && PassedFor(c, j, u)
      ensures best'[u] == 100
    {
    }
  }

  lemma BestOfAll(c: Collection, best: map<int, int>)
    requires CollectionOk(c) && BestSoFar(c, c.entries.Keys, best)
    ensures best.Keys == UpTo(|c.kube.tests|)
    ensures forall t :: t in best ==> (best[t] == 100 <==> t in PassedTests(c))
  {
    forall t | 0 <= t < |c.kube.tests|
      ensures t in best
    {
      assert Linked(c, t);
      assert Root(c.entries, t) == t;
    }
    forall t | t in best
      ensures best[t] == 100 <==> t in PassedTests(c)
    {
      if TestPassed(c, t) {
        var k :| PassedFor(c, k, t);
        assert k in c.entries.Keys;
      }
    }
  }

  lemma CountedAll(c: Collection, best: map<int, int>, hundred: set<int>)
    requires CollectionOk(c) && BestSoFar(c, c.entries.Keys, best)
    requires forall t :: t in hundred <==> t in best && best[t] == 100
    ensures |best.Keys| == |c.kube.tests| && hundred == PassedTests(c)
  {
    BestOfAll(c, best);
  }

  /** `percent` is the share of the spec's tests of which some attempt succeeded, rounded down. */
  ghost predicate IsShareOfPassed(percent: int, c: Collection) {
    var p, n := |PassedTests(c)|, |c.kube.tests|;
    if n > 0 then percent * n <= 100 * p < (percent + 1) * n else percent == -0x8000_0000_0000_0000
  }

  lemma ShareOfPassed(c: Collection)
    ensures IsShareOfPassed(Percentage(|PassedTests(c)|, |c.kube.tests|), c)
  {
    hide PassedTests;
    JobOutcomes.PercentageIs(|PassedTests(c)|, |c.kube.tests|);
  }

  /** The percentage of generateStatus, in whatever order the two maps are walked. */
  method StatusPercent(c: Collection) returns (percent: int)
    requires CollectionOk(c)
    ensures IsShareOfPassed(percent, c)
  {
    var best: map<int, int> := map[];
    var todo := c.entries.Keys;
    while todo != {}
      invariant todo <= c.entries.Keys
      invariant BestSoFar(c, c.entries.Keys - todo, best)
    {
      ghost var some := AnyOf(todo);
      var k :| k in todo;
      BestStep(c, c.entries.Keys - todo, best, k);
      assert c.entries.Keys - (todo - {k}) == (c.entries.Keys - todo) + {k};
      var current := PercentOf(c.entries[k]);
      var parent := FirstAttempt(c, k);
      if parent.id !in best || current > best[parent.id] {
        best := best[parent.id := current];
      }
      todo := todo - {k};
    }
    assert c.entries.Keys - todo == c.entries.Keys;
    percent := PercentOfBest(c, best);
    ShareOfPassed(c);
  }

  method PercentOfBest(c: Collection, best: map<int, int>) returns (percent: int)
    requires CollectionOk(c) && BestSoFar(c, c.entries.Keys, best)
    ensures percent == Percentage(|PassedTests(c)|, |c.kube.tests|)
  {
    BestOfAll(c, best);
    var success, numTests := 0, 0;
    ghost var hundred: set<int> := {};
    var todo := best.Keys;
    while todo != {}
      invariant todo <= best.Keys
      invariant forall t :: t in hundred <==> t in best && t !in todo && best[t] == 100
      invariant success == |hundred|
      invariant numTests == |best.Keys| - |todo|
    {
      var t :| t in todo;
      assert Linked(c, t);
      if t in c.entries && c.entries[t].retryFrom.None? {
        if best[t] == 100 {
          hundred := hundred + {t};
          success := success + 1;
        }
        numTests := numTests + 1;
      }
      todo := todo - {t};
    }
    CountedAll(c, best, hundred);
    percent := Percentage(success, numTests);
  }
}
