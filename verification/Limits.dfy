/** The two limits on starting tests: how many jobs of a collection are active, and how many tests start in a
    period of time. */
module Limits {
  import opened Prelude
  import opened TestModel
  import opened CollectionSteps
  import opened CollectionInvariant
  import opened CollectionProofs
  import opened DatabaseSteps

  // ---- Order and number of starts ----

  /** What waits in a collection, in the order in which it is started. */
  function Waiting(c: Collection): seq<int> {
    c.queued + c.retry
  }

  /** The queue and the retries that are left once the first `m` waiting tests have started. */
  function QueueAfter(c: Collection, m: nat): seq<int>
    requires m <= |Waiting(c)|
  {
    if m <= |c.queued| then c.queued[m..] else []
  }

  function RetryAfter(c: Collection, m: nat): seq<int>
    requires m <= |Waiting(c)|
  {
    if m <= |c.queued| then c.retry else c.retry[m - |c.queued|..]
  }

  function Rotated(s: seq<int>): seq<int> {
    if s == [] then s else s[1..] + [s[0]]
  }

  /** `o` started the first `m` waiting tests in order; a test whose job could not be created, the next one,
      went to the back of its own list. */
  ghost predicate StartedInOrder(c: Collection, o: Outcome, m: nat) {
    && m <= |Waiting(c)|
    && o.coll.running == c.running + Waiting(c)[..m]
    && (if !o.refused then o.coll.queued == QueueAfter(c, m) && o.coll.retry == RetryAfter(c, m)
        else if QueueAfter(c, m) != [] then
          o.coll.queued == Rotated(QueueAfter(c, m)) && o.coll.retry == RetryAfter(c, m)
        else o.coll.queued == [] && RetryAfter(c, m) != [] && o.coll.retry == Rotated(RetryAfter(c, m)))
  }

  lemma OneMoreStarted(c: Collection, c1: Collection, o: Outcome, rest: Outcome, m: nat)
    requires Waiting(c) != [] && StartedInOrder(c1, rest, m)
    requires c1.queued == (if c.queued != [] then c.queued[1..] else [])
    requires c1.retry == (if c.queued != [] then c.retry else c.retry[1..])
    requires c1.running == c.running + [Waiting(c)[0]]
    requires o.coll == rest.coll && o.refused == rest.refused
    ensures StartedInOrder(c, o, m + 1)
  {
    assert Waiting(c1) == Waiting(c)[1..];
    assert Waiting(c)[..m + 1] == [Waiting(c)[0]] + Waiting(c1)[..m];
    assert QueueAfter(c, m + 1) == QueueAfter(c1, m);
    assert RetryAfter(c, m + 1) == RetryAfter(c1, m);
  }

  lemma NothingStarted(c: Collection)
    ensures Waiting(c)[..0] == [] && QueueAfter(c, 0) == c.queued && RetryAfter(c, 0) == c.retry
  {
  }

  /** Queued tests start in the order of the list, retries only when no test is queued any more, and never
      more tests than the budget. */
  lemma {:induction false} StartsFollowTheQueue(c: Collection, clock: int, starts: seq<int>, budget: int,
                                                answers: nat -> Answer, attempt: nat)
    requires CollectionOk(c)
    ensures
      var o := StartTests(c, clock, starts, budget, answers, attempt);
      StartedInOrder(c, o, |o.begun|) && |o.begun| <= Max(0, budget)
    decreases if budget > 0 then budget else 0
  {
    hide TakeTurn, CollectionOk, StartedInOrder, CanStartMore;
    NothingStarted(c);
    if budget > 0 && CanStartMore(starts, clock + answers(attempt).checkDelay, c.kube) {
      TurnTakesTheFirst(c, answers(attempt));
      TurnKeepsInvariant(c, answers(attempt));
      var turn := TakeTurn(c, answers(attempt));
      if turn.Begun? {
        var time := clock + answers(attempt).checkDelay + answers(attempt).startDelay;
        StartsFollowTheQueue(turn.coll, time, starts + [time], budget - 1, answers, attempt + 1);
        var rest := StartTests(turn.coll, time, starts + [time], budget - 1, answers, attempt + 1);
        var o := StartTests(c, clock, starts, budget, answers, attempt);
        BegunLists(c, answers(attempt));
        OneMoreStarted(c, turn.coll, o, rest, |rest.begun|);
      } else {
        StoppedInOrder(c, clock, starts, budget, answers, attempt);
      }
    } else {
      StoppedInOrder(c, clock, starts, budget, answers, attempt);
    }
  }

  lemma BegunLists(c: Collection, answer: Answer)
    requires CollectionOk(c) && TakeTurn(c, answer).Begun?
    ensures
      var c1 := TakeTurn(c, answer).coll;
      && Waiting(c) != []
      && c1.queued == (if c.queued != [] then c.queued[1..] else [])
      && c1.retry == (if c.queued != [] then c.retry else c.retry[1..])
      && c1.running == c.running + [Waiting(c)[0]]
  {
    hide CollectionOk, TakeTurn;
    TurnTakesTheFirst(c, answer);
    if c.queued != [] {
      assert RemoveAt(c.queued, 0) == c.queued[1..];
    } else {
      assert RemoveAt(c.retry, 0) == c.retry[1..];
    }
  }

  lemma StoppedInOrder(c: Collection, clock: int, starts: seq<int>, budget: int, answers: nat -> Answer, attempt: nat)
    requires CollectionOk(c)
    requires budget <= 0 || !CanStartMore(starts, clock + answers(attempt).checkDelay, c.kube)
          || !TakeTurn(c, answers(attempt)).Begun?
    ensures
      var o := StartTests(c, clock, starts, budget, answers, attempt);
      StartedInOrder(c, o, 0) && o.begun == []
  {
    hide CollectionOk, TakeTurn, CanStartMore;
    TurnTakesTheFirst(c, answers(attempt));
    NothingStarted(c);
  }

  // ---- Counting starts ----

  lemma {:induction false} CountAppend(a: seq<int>, b: seq<int>, before: int)
    ensures CountAfter(a + b, before) == CountAfter(a, before) + CountAfter(b, before)
  {
    if b == [] {
      assert a + b == a;
    } else {
      CountAppend(a, b[..|b| - 1], before);
      assert (a + b)[..|a + b| - 1] == a + b[..|b| - 1];
    }
  }

  lemma {:induction false} CountNone(times: seq<int>, before: int)
    requires forall i :: 0 <= i < |times| ==> times[i] <= before
    ensures CountAfter(times, before) == 0
  {
    if times != [] {
      CountNone(times[..|times| - 1], before);
    }
  }

  lemma {:induction false} LaterCountsFewer(times: seq<int>, before: int, later: int)
    requires before <= later
    ensures CountAfter(times, later) <= CountAfter(times, before)
  {
    if times != [] {
      LaterCountsFewer(times[..|times| - 1], before, later);
    }
  }

  lemma CountSnoc(times: seq<int>, time: int, before: int)
    ensures CountAfter(times + [time], before) == CountAfter(times, before) + (if time > before then 1 else 0)
  {
    assert (times + [time])[..|times|] == times;
  }

  // ---- The ledger of starts ----

  function Period(s: Start): int {
    s.period * NANOS_PER_SECOND
  }

  /** Start `j` respected its limit: of all starts up to it, at most `nodes` lie within the period before it. */
  ghost predicate Respected(history: seq<Start>, j: nat)
    requires j < |history|
  {
    history[j].period <= SECONDS_REMEMBERED ==>
      CountAfter(Times(history[..j + 1]), history[j].time - Period(history[j])) <= history[j].nodes
  }

  ghost predicate Sorted(times: seq<int>) {
    forall i, j :: 0 <= i < j < |times| ==> times[i] <= times[j]
  }

  /** The remembered starts are the latest ones, what was forgotten is old, and every start respected its limit. */
  ghost predicate LedgerOk(history: seq<Start>, starts: seq<int>, clock: int) {
    && Sorted(Times(history))
    && (forall i :: 0 <= i < |history| ==> history[i].time <= clock)
    && RemembersLatest(Times(history), starts, clock)
    && (forall j: nat :: j < |history| ==> Respected(history, j))
  }

  ghost predicate RemembersLatest(times: seq<int>, starts: seq<int>, clock: int) {
    && |starts| <= |times|
    && starts == times[|times| - |starts|..]
    && (forall i :: 0 <= i < |times| - |starts| ==> times[i] <= clock - SECONDS_REMEMBERED * NANOS_PER_SECOND)
  }

  lemma RememberedCount(times: seq<int>, starts: seq<int>, clock: int, before: int)
    requires RemembersLatest(times, starts, clock)
    requires before >= clock - SECONDS_REMEMBERED * NANOS_PER_SECOND
    ensures CountAfter(times, before) == CountAfter(starts, before)
  {
    var k := |times| - |starts|;
    assert times == times[..k] + starts;
    CountAppend(times[..k], starts, before);
    CountNone(times[..k], before);
  }

  lemma LedgerLater(history: seq<Start>, starts: seq<int>, clock: int, later: int)
    requires LedgerOk(history, starts, clock) && clock <= later
    ensures LedgerOk(history, starts, later)
  {
  }

  /** A start that passes the rate check respects its limit against the whole history. */
  lemma NewStartRespects(history: seq<Start>, starts: seq<int>, clock: int, now: int, s: Start)
    requires LedgerOk(history, starts, clock) && clock <= now <= s.time
    requires CountAfter(starts, now - Period(s)) < s.nodes
    ensures Respected(history + [s], |history|)
  {
    hide Respected, Sorted;
    var all := history + [s];
    assert all[..|history| + 1] == all;
    TimesSnoc(history, s);
    if s.period <= SECONDS_REMEMBERED {
      RememberedCount(Times(history), starts, clock, now - Period(s));
      LaterCountsFewer(Times(history), now - Period(s), s.time - Period(s));
      CountSnoc(Times(history), s.time, s.time - Period(s));
    }
    RespectedWhen(all, |history|);
  }

  lemma RespectedWhen(history: seq<Start>, j: nat)
    requires j < |history|
    requires history[j].period <= SECONDS_REMEMBERED ==>
      CountAfter(Times(history[..j + 1]), history[j].time - Period(history[j])) <= history[j].nodes
    ensures Respected(history, j)
  {
  }

  lemma RespectedStays(history: seq<Start>, s: Start, j: nat)
    requires j < |history| && Respected(history, j)
    ensures Respected(history + [s], j)
  {
    assert (history + [s])[..j + 1] == history[..j + 1];
  }

  lemma LedgerStep(history: seq<Start>, starts: seq<int>, clock: int, now: int, s: Start)
    requires LedgerOk(history, starts, clock) && clock <= now <= s.time
    requires CountAfter(starts, now - Period(s)) < s.nodes
    ensures LedgerOk(history + [s], starts + [s.time], s.time)
  {
    hide Respected;
    var all := history + [s];
    NewStartRespects(history, starts, clock, now, s);
    forall j: nat | j < |all|
      ensures Respected(all, j)
    {
      if j < |history| {
        RespectedStays(history, s, j);
      }
    }
    TimesSnoc(history, s);
    RememberMore(Times(history), starts, clock, s.time);
  }

  lemma RememberMore(times: seq<int>, starts: seq<int>, clock: int, time: int)
    requires RemembersLatest(times, starts, clock) && clock <= time
    ensures RemembersLatest(times + [time], starts + [time], time)
  {
    var k := |times| - |starts|;
    assert (times + [time])[k..] == times[k..] + [time];
  }

  lemma {:induction false} StartTestsLedger(c: Collection, clock: int, starts: seq<int>, budget: int,
                                            answers: nat -> Answer, attempt: nat, history: seq<Start>)
    requires LedgerOk(history, starts, clock)
    ensures
      var o := StartTests(c, clock, starts, budget, answers, attempt);
      o.clock >= clock && LedgerOk(history + o.begun, starts + Times(o.begun), o.clock)
    decreases if budget > 0 then budget else 0
  {
    hide TakeTurn, LedgerOk;
    var answer := answers(attempt);
    var now := clock + answer.checkDelay;
    NoStarts(history, starts);
    LedgerLater(history, starts, clock, now);
    if budget > 0 && CanStartMore(starts, now, c.kube) {
      var turn := TakeTurn(c, answer);
      if turn.Begun? {
        var time := now + answer.startDelay;
        var s := Start(time, Nodes(c.kube), PeriodSeconds(c.kube));
        LedgerStep(history, starts, clock, now, s);
        StartTestsLedger(turn.coll, time, starts + [time], budget - 1, answers, attempt + 1, history + [s]);
        var rest := StartTests(turn.coll, time, starts + [time], budget - 1, answers, attempt + 1);
        Regroup(history, starts, s, rest.begun);
      }
    }
  }

  lemma NoStarts(history: seq<Start>, starts: seq<int>)
    ensures history + [] == history && starts + Times([]) == starts
  {
  }

  lemma Regroup(history: seq<Start>, starts: seq<int>, s: Start, rest: seq<Start>)
    ensures history + [s] + rest == history + ([s] + rest)
    ensures starts + [s.time] + Times(rest) == starts + Times([s] + rest)
  {
  }
}
