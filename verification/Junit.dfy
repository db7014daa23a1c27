/** The one-pass scan of a pod log for the JUnit report inside it. */
module Junit {
  import opened Prelude
  import opened Text

  predicate Opens(line: string) {
    Contains(line, "<testsuite ")
  }

  predicate Closes(line: string) {
    Contains(line, "</testsuite")
  }

  /** The report after the scan has seen `lines`, and whether it is still inside an element. */
  function Scan(lines: seq<string>): (string, bool) {
    if lines == [] then ([], false)
    else
      var (xml, inside) := Scan(lines[..|lines| - 1]);
      var line := lines[|lines| - 1];
      var (xml', inside') := if Opens(line) then ([], true) else (xml, inside);
      (if inside' then xml' + line + "\n" else xml', inside' && !Closes(line))
  }

  function ExtractReport(podLog: string): string {
    Scan(Lines(podLog)).0
  }

  /** The line at which the last suite opens. */
  ghost predicate LastOpening(lines: seq<string>, at: nat) {
    at < |lines| && Contains(lines[at], "<testsuite ") && forall i :: at < i < |lines| ==> !Contains(lines[i], "<testsuite ")
  }

  /** One past the first line, from `at` on, that closes a suite, or the end of the log. */
  ghost predicate FirstClosing(lines: seq<string>, at: nat, end: nat) {
    && at < end <= |lines|
    && (forall i :: at <= i < end - 1 ==> !Contains(lines[i], "</testsuite"))
    && (end < |lines| ==> Contains(lines[end - 1], "</testsuite"))
  }

  lemma {:induction false} ScanWithoutOpening(lines: seq<string>)
    requires forall i :: 0 <= i < |lines| ==> !Opens(lines[i])
    ensures Scan(lines).0 == "" && !Scan(lines).1
  {
    hide Contains;
    if lines != [] {
      ScanWithoutOpening(lines[..|lines| - 1]);
    }
  }

  lemma {:induction false} ScanFromOpening(lines: seq<string>, at: nat, end: nat)
    requires LastOpening(lines, at) && FirstClosing(lines, at, end)
    ensures Scan(lines).0 == Unlines(lines[at..end])
    ensures Scan(lines).1 <==> end == |lines| && !Closes(lines[end - 1])
  {
    hide Contains;
    var n := |lines| - 1;
    var front := lines[..n];
    if at == n {
      assert lines[at..end] == [lines[at]];
      assert Unlines([lines[at]]) == Unlines([]) + lines[at] + "\n";
    } else if end <= n {
      assert lines[at..end] == front[at..end];
      assert LastOpening(front, at);
      ScanFromOpening(front, at, end);
    } else {
      assert LastOpening(front, at);
      assert FirstClosing(front, at, n);
      ScanFromOpening(front, at, n);
      assert lines[at..end] == front[at..n] + [lines[n]];
      assert lines[at..end][..|lines[at..end]| - 1] == front[at..n];
    }
  }

  /** The report is what lies between the last opening line and the first closing line from there on. */
  lemma ReportIsTheLastSuite(podLog: string, at: nat, end: nat)
    requires LastOpening(Lines(podLog), at) && FirstClosing(Lines(podLog), at, end)
    ensures ExtractReport(podLog) == Unlines(Lines(podLog)[at..end])
  {
    ScanFromOpening(Lines(podLog), at, end);
  }

  lemma NoSuiteNoReport(podLog: string)
    requires forall i :: 0 <= i < |Lines(podLog)| ==> !Contains(Lines(podLog)[i], "<testsuite ")
    ensures ExtractReport(podLog) == ""
  {
    ScanWithoutOpening(Lines(podLog));
  }

  /** A log with an opening line always has such a pair of lines. */
  lemma SuiteBoundsExist(lines: seq<string>)
    requires exists i :: 0 <= i < |lines| && Contains(lines[i], "<testsuite ")
    ensures exists at: nat, end: nat :: LastOpening(lines, at) && FirstClosing(lines, at, end)
  {
    hide Contains;
    var at := |lines| - 1;
    while !Opens(lines[at])
      invariant 0 <= at < |lines|
      invariant exists i :: 0 <= i <= at && Opens(lines[i])
      decreases at
      invariant forall i :: at < i < |lines| ==> !Opens(lines[i])
    {
      at := at - 1;
    }
    var end := at + 1;
    while end < |lines| && !Closes(lines[end - 1])
      invariant at < end <= |lines|
      invariant forall i :: at <= i < end - 1 ==> !Closes(lines[i])
    {
      end := end + 1;
    }
    assert LastOpening(lines, at) && FirstClosing(lines, at, end);
  }

  /** The scan as the operator runs it. */
  method FindReport(podLog: string) returns (junitXml: string)
    ensures junitXml == ExtractReport(podLog)
  {
    junitXml := "";
    var lineSeen := false;
    var lines := Lines(podLog);
    for i := 0 to |lines|
      invariant (junitXml, lineSeen) == Scan(lines[..i])
    {
      var line := lines[i];
      assert lines[..i + 1][..i] == lines[..i];
      if Opens(line) {
        junitXml := "";
        lineSeen := true;
      }
      if lineSeen {
        junitXml := junitXml + line + "\n";
      }
      if Closes(line) {
        lineSeen := false;
      }
    }
    assert lines[..|lines|] == lines;
  }
}
