/** Small vocabulary shared by every component: options, Go's integer division,
    and the sequence facts the bucket proofs need. */
module Prelude {

  datatype Option<+T> = None | Some(value: T)

  function GetOr<T>(o: Option<T>, default: T): T {
    if o.Some? then o.value else default
  }

  /** Go's `/` on signed integers truncates toward zero. */
  function GoDiv(a: int, b: int): (q: int)
    requires b > 0
    ensures a >= 0 ==> q * b <= a < (q + 1) * b
    ensures a <= 0 ==> (q - 1) * b < a <= q * b
  {
    if a >= 0 then a / b else -((-a) / b)
  }

  lemma MulMonotone(a: int, b: int, c: int)
    requires a <= b && c >= 0
    ensures a * c <= b * c
  {
  }

  /** A dividend below `k` times the divisor gives a quotient below `k`. */
  lemma GoDivBelow(a: int, b: int, k: int)
    requires b > 0 && k > 0 && a < k * b
    ensures GoDiv(a, b) < k
  {
    var q := GoDiv(a, b);
    if q >= k {
      MulMonotone(k, q, b);
    }
  }

  lemma GoDivOf(k: int, b: int)
    requires b > 0
    ensures GoDiv(k * b, b) == k
  {
    var q := GoDiv(k * b, b);
    if q < k {
      MulMonotone(q + 1, k, b);
    } else if q > k {
      MulMonotone(k + 1, q, b);
    }
  }

  const NANOS_PER_MILLI := 1000000
  const NANOS_PER_SECOND := 1000000000

  /** `t.UnixNano() / 1000000` */
  function Millis(t: int): int {
    GoDiv(t, NANOS_PER_MILLI)
  }

  function Max(a: int, b: int): int {
    if a >= b then a else b
  }

  /** What `append(s[:at], s[at+1:]...)` leaves in a slice. */
  function RemoveAt<T>(s: seq<T>, at: nat): (r: seq<T>)
    requires at < |s|
  {
    s[..at] + s[at + 1..]
  }

  ghost predicate NoDuplicates<T>(s: seq<T>) {
    forall i, j :: 0 <= i < j < |s| ==> s[i] != s[j]
  }

  lemma RemoveAtMembers<T>(s: seq<T>, at: nat)
    requires at < |s| && NoDuplicates(s)
    ensures NoDuplicates(RemoveAt(s, at))
    ensures forall x :: x in RemoveAt(s, at) <==> x in s && x != s[at]
  {
    var r := RemoveAt(s, at);
    forall x | x in s && x != s[at]
      ensures x in r
    {
      var i :| 0 <= i < |s| && s[i] == x;
      assert r[if i < at then i else i - 1] == x;
    }
  }

  lemma TailMembers<T>(s: seq<T>)
    requires s != [] && NoDuplicates(s)
    ensures NoDuplicates(s[1..])
    ensures forall x :: x in s[1..] <==> x in s && x != s[0]
  {
    RemoveAtMembers(s, 0);
    assert RemoveAt(s, 0) == s[1..];
  }

  lemma HasFirst<T>(s: seq<T>)
    requires |s| > 0
    ensures s[0] in s
  {
  }

  lemma AppendMembers<T>(s: seq<T>, x: T)
    requires NoDuplicates(s) && x !in s
    ensures NoDuplicates(s + [x])
    ensures forall y :: y in s + [x] <==> y in s || y == x
  {
  }

  lemma Regroup<T>(a: seq<T>, b: seq<T>, c: seq<T>)
    ensures (a + b) + c == a + (b + c)
  {
  }

  ghost function AnyOf<T>(s: set<T>): (x: T)
    requires s != {}
    ensures x in s
  {
    var x :| x in s; x
  }

  lemma {:induction false} SubsetIsSmaller<T>(a: set<T>, b: set<T>)
    requires a <= b
    ensures |a| <= |b|
  {
    if a != {} {
      var x :| x in a;
      SubsetIsSmaller(a - {x}, b - {x});
    }
  }

  /** The position of the first occurrence of `x`, or the length when there is none. */
  function IndexOf<T(==)>(s: seq<T>, x: T): (at: nat)
    ensures at <= |s|
    ensures at < |s| ==> s[at] == x
    ensures x !in s[..at]
    ensures at == |s| <==> x !in s
  {
    if s == [] then 0
    else if s[0] == x then 0
    else
      var rest := IndexOf(s[1..], x);
      assert s[..rest + 1] == [s[0]] + s[1..][..rest];
      rest + 1
  }

  function Filter<T(!new)>(s: seq<T>, keep: T -> bool): (r: seq<T>)
    ensures forall x :: x in r <==> x in s && keep(x)
    ensures |r| <= |s|
  {
    if s == [] then []
    else
      var front := Filter(s[..|s| - 1], keep);
      var last := s[|s| - 1];
      assert s == s[..|s| - 1] + [last];
      if keep(last) then front + [last] else front
  }

  lemma {:induction false} FilterDistinct<T(!new)>(s: seq<T>, keep: T -> bool)
    requires NoDuplicates(s)
    ensures NoDuplicates(Filter(s, keep))
  {
    if s != [] {
      FilterDistinct(s[..|s| - 1], keep);
    }
  }

  lemma {:induction false} FilterAll<T(!new)>(s: seq<T>, keep: T -> bool)
    requires forall x :: x in s ==> keep(x)
    ensures Filter(s, keep) == s
  {
    if s != [] {
      FilterAll(s[..|s| - 1], keep);
      assert s == s[..|s| - 1] + [s[|s| - 1]];
    }
  }

  lemma {:induction false} FilterAppend<T(!new)>(a: seq<T>, b: seq<T>, keep: T -> bool)
    ensures Filter(a + b, keep) == Filter(a, keep) + Filter(b, keep)
  {
    if b == [] {
      assert a + b == a;
    } else {
      FilterAppend(a, b[..|b| - 1], keep);
      assert (a + b)[..|a + b| - 1] == a + b[..|b| - 1];
    }
  }

  /** `short` can be obtained from `long` by deleting elements. */
  ghost predicate Subsequence<T>(short: seq<T>, long: seq<T>) {
    if short == [] then true
    else if long == [] then false
    else if short[|short| - 1] == long[|long| - 1] then Subsequence(short[..|short| - 1], long[..|long| - 1])
    else Subsequence(short, long[..|long| - 1])
  }

  lemma {:induction false} SubsequenceSkip<T>(short: seq<T>, long: seq<T>, x: T)
    requires Subsequence(short, long)
    ensures Subsequence(short, long + [x])
    decreases |long|, 1
  {
    assert (long + [x])[..|long|] == long;
    if short != [] && short[|short| - 1] == x {
      SubsequenceShorten(short, long);
    }
  }

  lemma {:induction false} SubsequenceShorten<T>(short: seq<T>, long: seq<T>)
    requires short != [] && Subsequence(short, long)
    ensures Subsequence(short[..|short| - 1], long)
    decreases |long|, 0
  {
    var front := long[..|long| - 1];
    assert long == front + [long[|long| - 1]];
    if short[|short| - 1] == long[|long| - 1] {
      SubsequenceSkip(short[..|short| - 1], front, long[|long| - 1]);
    } else {
      SubsequenceShorten(short, front);
      SubsequenceSkip(short[..|short| - 1], front, long[|long| - 1]);
    }
  }

  lemma SubsequenceExtend<T>(short: seq<T>, long: seq<T>, x: T)
    requires Subsequence(short, long)
    ensures Subsequence(short + [x], long + [x])
  {
    assert (short + [x])[..|short|] == short;
    assert (long + [x])[..|long|] == long;
  }

  lemma {:induction false} SubsequenceFilter<T(!new)>(short: seq<T>, long: seq<T>, keep: T -> bool)
    requires Subsequence(short, long)
    ensures Subsequence(Filter(short, keep), long)
  {
    if short != [] {
      var front := long[..|long| - 1];
      var last := long[|long| - 1];
      assert long == front + [last];
      if short[|short| - 1] == last {
        SubsequenceFilter(short[..|short| - 1], front, keep);
        var kept := Filter(short[..|short| - 1], keep);
        SubsequenceSkip(kept, front, last);
        SubsequenceExtend(kept, front, last);
      } else {
        SubsequenceFilter(short, front, keep);
        SubsequenceSkip(Filter(short, keep), front, last);
      }
    }
  }

  /** The sum of a weight over a sequence. */
  function Sum<T>(s: seq<T>, weight: T -> int): int {
    if s == [] then 0 else Sum(s[..|s| - 1], weight) + weight(s[|s| - 1])
  }

  lemma {:induction false} SumAppend<T>(a: seq<T>, b: seq<T>, weight: T -> int)
    ensures Sum(a + b, weight) == Sum(a, weight) + Sum(b, weight)
  {
    if b == [] {
      assert a + b == a;
    } else {
      SumAppend(a, b[..|b| - 1], weight);
      assert (a + b)[..|a + b| - 1] == a + b[..|b| - 1];
    }
  }

  lemma {:induction false} SumSnoc<T>(a: seq<T>, x: T, weight: T -> int)
    ensures Sum(a + [x], weight) == Sum(a, weight) + weight(x)
  {
    assert (a + [x])[..|a|] == a;
  }

  lemma {:induction false} SumRemoveAt<T>(s: seq<T>, at: nat, weight: T -> int)
    requires at < |s|
    ensures Sum(RemoveAt(s, at), weight) == Sum(s, weight) - weight(s[at])
  {
    var before, x, after := s[..at], s[at], s[at + 1..];
    assert s == before + [x] + after;
    SumAppend(before + [x], after, weight);
    SumSnoc(before, x, weight);
    SumAppend(before, after, weight);
  }

  lemma {:induction false} SumEqual<T>(s: seq<T>, f: T -> int, g: T -> int)
    requires forall x :: x in s ==> f(x) == g(x)
    ensures Sum(s, f) == Sum(s, g)
  {
    if s != [] {
      SumEqual(s[..|s| - 1], f, g);
    }
  }

  lemma {:induction false} SumNonNegative<T>(s: seq<T>, f: T -> int)
    requires forall x :: x in s ==> f(x) >= 0
    ensures Sum(s, f) >= 0
  {
    if s != [] {
      SumNonNegative(s[..|s| - 1], f);
    }
  }
}
