/** Strings as the program uses them: decimal numerals, substring tests and splitting. */
module Text {
  import opened Prelude

  function DigitChar(d: nat): (c: char)
    requires d < 10
    ensures '0' <= c <= '9'
  {
    ('0' as int + d) as char
  }

  /** The numeral of a non-negative integer. */
  function Digits(n: nat): (s: string)
    ensures s != []
    ensures forall i :: 0 <= i < |s| ==> '0' <= s[i] <= '9'
  {
    if n < 10 then [DigitChar(n)] else Digits(n / 10) + [DigitChar(n % 10)]
  }

  /** `strconv.Itoa` and `%d` */
  function Decimal(n: int): string {
    if n < 0 then "-" + Digits(-n) else Digits(n)
  }

  function DigitsValue(s: string): int
    requires forall i :: 0 <= i < |s| ==> '0' <= s[i] <= '9'
  {
    if s == [] then 0
    else 10 * DigitsValue(s[..|s| - 1]) + (s[|s| - 1] as int - '0' as int)
  }

  /** `strconv.Atoi` on text without a plus sign; anything else is an error. */
  function ParseDecimal(s: string): Option<int> {
    if s == [] then None
    else if s[0] == '-' then
      if |s| > 1 && forall i :: 1 <= i < |s| ==> '0' <= s[i] <= '9' then Some(-DigitsValue(s[1..])) else None
    else if forall i :: 0 <= i < |s| ==> '0' <= s[i] <= '9' then Some(DigitsValue(s))
    else None
  }

  lemma {:induction false} DigitsRoundTrip(n: nat)
    ensures DigitsValue(Digits(n)) == n
  {
    if n >= 10 {
      DigitsRoundTrip(n / 10);
      var s := Digits(n);
      assert s[..|s| - 1] == Digits(n / 10);
    } else {
      var s := Digits(n);
      assert s[..|s| - 1] == [];
    }
  }

  lemma NegativeRoundTrip(digits: string)
    requires digits != [] && forall i :: 0 <= i < |digits| ==> '0' <= digits[i] <= '9'
    ensures ParseDecimal("-" + digits) == Some(-DigitsValue(digits))
  {
    var s := "-" + digits;
    assert s[1..] == digits;
    assert forall i :: 1 <= i < |s| ==> s[i] == digits[i - 1];
  }

  lemma DecimalRoundTrip(n: int)
    ensures ParseDecimal(Decimal(n)) == Some(n)
  {
    if n < 0 {
      DigitsRoundTrip(-n);
      NegativeRoundTrip(Digits(-n));
    } else {
      DigitsRoundTrip(n);
    }
  }

  lemma DecimalInjective(a: int, b: int)
    requires Decimal(a) == Decimal(b)
    ensures a == b
  {
    DecimalRoundTrip(a);
    DecimalRoundTrip(b);
  }

  /** `strings.Index(s, t) != -1`, `strings.Contains(s, t)` */
  predicate Contains(s: string, t: string) {
    exists i :: 0 <= i <= |s| - |t| && t <= s[i..]
  }

  lemma ContainsInTheMiddle(before: string, t: string, after: string)
    ensures Contains(before + t + after, t)
  {
    assert (before + t + after)[|before|..] == t + after;
  }

  /** The text after the last hyphen, as `key[strings.LastIndex(key, "-")+1:]` */
  function AfterLastHyphen(s: string): string {
    if s == [] || s[|s| - 1] == '-' then []
    else AfterLastHyphen(s[..|s| - 1]) + [s[|s| - 1]]
  }

  lemma {:induction false} AfterLastHyphenOf(before: string, tail: string)
    requires '-' !in tail
    ensures AfterLastHyphen(before + "-" + tail) == tail
  {
    var s := before + "-" + tail;
    if tail == [] {
      assert s[|s| - 1] == '-';
    } else {
      var shorter := tail[..|tail| - 1];
      assert s[..|s| - 1] == before + "-" + shorter;
      assert s[|s| - 1] == tail[|tail| - 1];
      AfterLastHyphenOf(before, shorter);
    }
  }

  lemma ConcatCancelLeft(p: string, a: string, b: string)
    requires p + a == p + b
    ensures a == b
  {
    assert (p + a)[|p|..] == a;
    assert (p + b)[|p|..] == b;
  }

  /** Concatenations with heads of equal length agree part by part. */
  lemma ConcatSplit(p: string, a: string, q: string, b: string)
    requires |p| == |q|
    requires p + a == q + b
    ensures p == q && a == b
  {
    assert (p + a)[..|p|] == p;
    assert (q + b)[..|q|] == q;
    ConcatCancelLeft(p, a, b);
  }

  lemma PrefixCancel(p: string, a: string, b: string)
    ensures p + a <= p + b <==> a <= b
  {
    if a <= b {
      assert p + b == p + a + b[|a|..];
    }
    if p + a <= p + b {
      assert (p + b)[..|p + a|] == p + a;
      assert b == (p + b)[|p|..];
      assert a == (p + a)[|p|..];
    }
  }

  lemma NoPrefix(p: string, s: string, i: nat)
    requires i < |p| && i < |s| && p[i] != s[i]
    ensures !(p <= s)
  {
  }

  /** `strings.Split(s, "\n")` */
  function Lines(s: string): (r: seq<string>)
    ensures r != []
  {
    if s == [] then [[]]
    else
      var front := Lines(s[..|s| - 1]);
      if s[|s| - 1] == '\n' then front + [[]]
      else front[..|front| - 1] + [front[|front| - 1] + [s[|s| - 1]]]
  }

  /** Every line followed by a line break. */
  function Unlines(lines: seq<string>): string {
    if lines == [] then [] else Unlines(lines[..|lines| - 1]) + lines[|lines| - 1] + "\n"
  }

  lemma {:induction false} LinesRoundTrip(s: string)
    ensures Unlines(Lines(s)) == s + "\n"
    ensures forall line :: line in Lines(s) ==> '\n' !in line
  {
    if s == [] {
      assert Unlines([[]]) == Unlines([]) + [] + "\n";
    } else {
      var init, last := s[..|s| - 1], s[|s| - 1];
      LinesRoundTrip(init);
      var front := Lines(init);
      assert s == init + [last];
      if last == '\n' {
        assert (front + [[]])[..|front|] == front;
      } else {
        var body, line := front[..|front| - 1], front[|front| - 1];
        assert Lines(s) == body + [line + [last]];
        assert (body + [line + [last]])[..|body|] == body;
        assert Unlines(front) == Unlines(body) + line + "\n" == init + "\n";
        assert Unlines(body) + line == init by {
          assert (Unlines(body) + line + "\n")[..|init|] == init;
          assert (Unlines(body) + line + "\n")[..|init|] == Unlines(body) + line;
        }
        assert line in front;
      }
    }
  }
}
