/** KoupletBuilds as the operator holds them: objects whose fields the steps update in place. */
module Builds {
  import opened Prelude
  import opened Text
  import opened BuildSteps
  import BuildProofs

  class BuildAttempt {
    const jobName: string
    const jobUid: string
    const jobQueueTime: int
    var jobStartTime: Option<int>
    var jobCompletionTime: Option<int>
    var jobSucceeded: Option<bool>

    constructor (name: string, uid: string, queueTime: int)
      ensures View() == Attempt(name, uid, queueTime, None, None, None)
    {
      jobName, jobUid, jobQueueTime := name, uid, queueTime;
      jobStartTime, jobCompletionTime, jobSucceeded := None, None, None;
    }

    ghost function View(): Attempt
      reads this
    {
      Attempt(jobName, jobUid, jobQueueTime, jobStartTime, jobCompletionTime, jobSucceeded)
    }
  }

  ghost function Views(s: seq<BuildAttempt>): (r: seq<Attempt>)
    reads s
    ensures |r| == |s|
  {
    seq(|s|, i requires 0 <= i < |s| reads s => s[i].View())
  }

  function Uids(s: seq<BuildAttempt>): (r: seq<string>)
    ensures |r| == |s|
  {
    seq(|s|, i requires 0 <= i < |s| => s[i].jobUid)
  }

  class BuildStatus {
    const name: string
    const uid: string
    const kubeName: string
    var state: BuildState
    var successResult: Option<bool>
    var activeAttempts: seq<BuildAttempt>
    var completedAttempts: seq<BuildAttempt>
    const kubeCreationTime: int
    var startTime: Option<int>
    var completionTime: Option<int>

    constructor (name: string, uid: string, now: int)
      ensures Valid() && View() == NewBuild(name, uid, now)
      ensures activeAttempts == [] && completedAttempts == []
    {
      this.name, this.uid, this.kubeName, this.kubeCreationTime := name, uid, name, now;
      state, successResult, startTime, completionTime := BuildWaiting, None, None, None;
      activeAttempts, completedAttempts := [], [];
    }

    /** A build as it was stored, with the attempts already made. */
    constructor Restored(name: string, uid: string, kubeName: string, state: BuildState, success: Option<bool>,
                         active: seq<BuildAttempt>, completed: seq<BuildAttempt>,
                         creationTime: int, startTime: Option<int>, completionTime: Option<int>)
      requires NoDuplicates(active) && forall a :: a in active ==> a !in completed
      ensures Valid() && activeAttempts == active && completedAttempts == completed
      ensures View() == Build(name, uid, kubeName, state, success, Views(active), Views(completed),
                              creationTime, startTime, completionTime)
    {
      this.name, this.uid, this.kubeName, this.kubeCreationTime := name, uid, kubeName, creationTime;
      this.state, this.successResult, this.startTime, this.completionTime := state, success, startTime, completionTime;
      activeAttempts, completedAttempts := active, completed;
    }

    /** No attempt is listed twice. */
    ghost predicate Valid()
      reads this
    {
      NoDuplicates(activeAttempts) && forall a :: a in activeAttempts ==> a !in completedAttempts
    }

    ghost function View(): Build
      reads this, activeAttempts, completedAttempts
    {
      Build(name, uid, kubeName, state, successResult, Views(activeAttempts), Views(completedAttempts),
            kubeCreationTime, startTime, completionTime)
    }

    /** The first part of the look at the job of an active attempt that has not finished. */
    method ObserveRunning(a: BuildAttempt, sight: Sight) returns (changed: bool)
      requires !sight.job.JobMissing? && !Finished(sight.job)
      modifies this`startTime, a`jobStartTime
      ensures a.View() == Observed(old(a.View()), sight)
      ensures startTime == if old(startTime).None? then StartOf(sight.job) else old(startTime)
      ensures changed <==> startTime != old(startTime) || a.View() != old(a.View())
    {
      changed := false;
      var start := StartOf(sight.job);
      if startTime.None? && start.Some? {
        startTime := start;
        changed := true;
      }
      if a.jobStartTime.None? && start.Some? {
        a.jobStartTime := start;
        changed := true;
      }
    }

    method ObserveFinished(a: BuildAttempt, sight: Sight)
      requires Finished(sight.job)
      modifies this`successResult, a`jobCompletionTime, a`jobSucceeded
      ensures a.View() == Observed(old(a.View()), sight)
      ensures successResult == if ExitedWell(sight.job) then Some(true) else old(successResult)
    {
      if a.jobCompletionTime.None? {
        a.jobCompletionTime := Some(GetOr(sight.job.completionTime, sight.endNow));
      }
      var jobSucceeded := sight.job.exitCode == Some(0);
      a.jobSucceeded := Some(jobSucceeded);
      if jobSucceeded {
        successResult := Some(true);
      }
    }

    /** One turn of the scan, after the scan so far `s`: what it changes, and how often it lists the attempt
        for removal. */
    method Look(ghost s: Scan, a: BuildAttempt, instance: Option<Constraints>, sight: Sight)
      returns (remove: seq<BuildAttempt>, changed: bool)
      requires s.startTime == startTime && s.success == successResult
      modifies this`startTime, this`successResult, a
      ensures LookAt(instance, s, old(a.View()), sight) ==
                Scan(s.active + [a.View()], startTime, successResult, s.removed + Uids(remove), s.changed || changed)
    {
      remove, changed := [], false;
      if sight.job.JobMissing? {
        remove := [a];
      } else if !Finished(sight.job) {
        changed := ObserveRunning(a, sight);
        if sight.waitNow > After(a.jobQueueTime, MaxJobWaitStartTime(instance)) {
          remove := remove + [a];
        }
        var start := StartOf(sight.job);
        if start.Some? {
          if sight.buildNow > After(start.value, MaxJobBuildTime(instance)) {
            remove := remove + [a];
          }
        }
      } else {
        ObserveFinished(a, sight);
        remove, changed := [a], true;
      }
      assert Uids(remove) == Removals(instance, old(a.View()), sight);
    }

    /** Where the scan stands: the first `n` attempts have been looked at. */
    ghost predicate ScannedTo(b: Build, s: Scan, n: nat, toRemove: seq<BuildAttempt>, changed: bool)
      requires n <= |activeAttempts|
      reads this, activeAttempts
    {
      && |b.active| == |activeAttempts|
      && s == Scan(Views(activeAttempts[..n]), startTime, successResult, Uids(toRemove), changed)
      && (forall j :: n <= j < |activeAttempts| ==> activeAttempts[j].View() == b.active[j])
    }

    method ScanActive(input: Input) returns (toRemove: seq<BuildAttempt>, changed: bool)
      requires Valid() && input.instance.Some?
      modifies this`startTime, this`successResult, activeAttempts
      ensures ScanOf(old(View()), input.instance.value, input.sights, |activeAttempts|) ==
                Scan(Views(activeAttempts), startTime, successResult, Uids(toRemove), changed)
      ensures Views(completedAttempts) == old(Views(completedAttempts))
    {
      hide LookAt, NoDuplicates;
      toRemove, changed := [], false;
      ghost var b := View();
      for i := 0 to |activeAttempts|
        invariant ScannedTo(b, ScanOf(b, input.instance.value, input.sights, i), i, toRemove, changed)
        invariant forall a :: a in completedAttempts ==> a.View() == old(a.View())
      {
        assert activeAttempts[i] in activeAttempts;
        toRemove, changed := ScanNext(b, ScanOf(b, input.instance.value, input.sights, i), i, input, toRemove, changed);
      }
      assert activeAttempts[..|activeAttempts|] == activeAttempts;
    }

    method ScanNext(ghost b: Build, ghost s: Scan, i: nat, input: Input, toRemove: seq<BuildAttempt>, changed: bool)
      returns (toRemove': seq<BuildAttempt>, changed': bool)
      requires Valid() && input.instance.Some? && i < |activeAttempts| && ScannedTo(b, s, i, toRemove, changed)
      modifies this`startTime, this`successResult, activeAttempts[i]
      ensures ScannedTo(b, LookAt(input.instance.value, s, b.active[i], input.sights(i)), i + 1, toRemove', changed')
    {
      hide LookAt;
      var a := activeAttempts[i];
      var remove, lookChanged := Look(s, a, input.instance.value, input.sights(i));
      assert Views(activeAttempts[..i]) == s.active;
      assert activeAttempts[..i + 1] == activeAttempts[..i] + [a];
      ViewsOfOneMore(activeAttempts[..i], a);
      assert Uids(toRemove + remove) == Uids(toRemove) + Uids(remove);
      toRemove', changed' := toRemove + remove, changed || lookChanged;
    }

    /** Whether an attempt with this job UID is listed. */
    method Listed(toRemove: seq<BuildAttempt>, jobUid: string) returns (found: bool)
      ensures found <==> jobUid in Uids(toRemove)
    {
      for i := 0 to |toRemove|
        invariant forall j :: 0 <= j < i ==> toRemove[j].jobUid != jobUid
      {
        if jobUid == toRemove[i].jobUid {
          assert Uids(toRemove)[i] == jobUid;
          return true;
        }
      }
      return false;
    }

    /** The listed attempts move from the active to the completed ones. */
    method MoveListed(toRemove: seq<BuildAttempt>) returns (anyMatches: bool)
      requires Valid()
      modifies this`activeAttempts, this`completedAttempts
      ensures Valid()
      ensures
        var active := old(Views(activeAttempts));
        && Views(activeAttempts) == Filter(active, (a: Attempt) => a.jobUid !in Uids(toRemove))
        && Views(completedAttempts) ==
             old(Views(completedAttempts)) + Filter(active, (a: Attempt) => a.jobUid in Uids(toRemove))
        && anyMatches == (Filter(active, (a: Attempt) => a.jobUid in Uids(toRemove)) != [])
      ensures forall a :: a in activeAttempts ==> a in old(activeAttempts)
    {
      hide Moved, Filter, NoDuplicates;
      var all, done := activeAttempts, completedAttempts;
      var newActive: seq<BuildAttempt> := [];
      var moved: seq<BuildAttempt> := [];
      ghost var removed := Uids(toRemove);
      NothingMoved(all, removed);
      for i := 0 to |all|
        invariant Moved(all, removed, i, newActive, moved)
      {
        MovedOneMore(all, removed, i, newActive, moved);
        var matchInRemove := Listed(toRemove, all[i].jobUid);
        if matchInRemove {
          moved := moved + [all[i]];
        } else {
          newActive := newActive + [all[i]];
        }
      }
      AllMoved(all, removed, newActive, moved);
      assert Views(done + moved) == Views(done) + Views(moved);
      anyMatches := moved != [];
      activeAttempts, completedAttempts := newActive, done + moved;
    }

    method ExpireIfOutOfAttempts(instance: Option<Constraints>, now: int) returns (changed: bool)
      modifies this`state, this`successResult, this`completionTime
      ensures changed <==> OutOfAttempts(View(), instance)
      ensures View() == if changed then Expire(old(View()), now) else old(View())
    {
      changed := |completedAttempts| >= MaxAttempts(instance);
      if changed {
        state, successResult, completionTime := BuildExpired, Some(false), Some(now);
      }
    }

    method ExpireIfOutOfTime(instance: Option<Constraints>, now: int, end: int) returns (changed: bool)
      modifies this`state, this`successResult, this`completionTime
      ensures changed <==> OutOfTime(old(View()), instance, now)
      ensures View() == if changed then Expire(old(View()), end) else old(View())
    {
      changed := now > After(kubeCreationTime, MaxOverallTime(instance));
      if changed {
        state, successResult, completionTime := BuildExpired, Some(false), Some(end);
      }
    }

    method AnySucceeded() returns (found: bool)
      ensures found <==> HasSuccess(View())
    {
      for i := 0 to |completedAttempts|
        invariant forall j :: 0 <= j < i ==> completedAttempts[j].jobSucceeded != Some(true)
      {
        if completedAttempts[i].jobSucceeded == Some(true) {
          assert View().completed[i] in View().completed;
          return true;
        }
      }
      return false;
    }

    /** The end of a step: a successful attempt completes the build, otherwise a new attempt is started
        when none is active. */
    method Conclude(input: Input) returns (changed: bool)
      requires Valid()
      modifies this`state, this`successResult, this`completionTime, this`activeAttempts
      ensures Valid()
      ensures Concluded(StepResult(old(View()), false), input) == StepResult(View(), changed)
      ensures completedAttempts == old(completedAttempts)
      ensures forall a :: a in activeAttempts ==> a in old(activeAttempts) || fresh(a)
    {
      changed := false;
      if state != BuildRunning {
        return;
      }
      var success := AnySucceeded();
      if success {
        state, completionTime, successResult := BuildCompleted, Some(input.successNow), Some(true);
        return true;
      }
      if activeAttempts == [] {
        if input.creation.Created? {
          var number := |completedAttempts| + 1;
          var a := new BuildAttempt(JobName(kubeName, number), input.creation.jobUid, input.creation.queueTime);
          activeAttempts := [a];
          assert Views([a]) == [a.View()];
          return true;
        }
      }
    }

    /** subProcess */
    method SubProcess(input: Input) returns (changed: bool)
      requires Valid()
      modifies this, activeAttempts
      ensures Valid()
      ensures Step(old(View()), input) == StepResult(View(), changed)
      ensures forall a :: a in activeAttempts ==> a in old(activeAttempts) || fresh(a)
    {
      hide NoDuplicates, Scanned, Checked, Concluded;
      changed := false;
      if input.instance.None? {
        return;
      }
      if state == BuildWaiting {
        state := BuildRunning;
      }
      if state == BuildCompleted || state == BuildExpired {
        return;
      }
      assert View() == old(View()).(state := BuildRunning);
      var scanChanged := ScanAndMove(input);
      var checkChanged := Check(input);
      var concludeChanged := Conclude(input);
      changed := scanChanged || checkChanged || concludeChanged;
      ghost var scanned := Scanned(old(View()).(state := BuildRunning), input);
      ChangesAccumulate(scanned, input);
      ChangesAccumulate(Checked(scanned, input), input);
    }

    /** The loop of process: steps until one reports no change. `rounds` counts them. It stops because each
        change leaves less to do, provided the specification does not go on to allow ever more attempts. */
    method RunSteps(inputs: nat -> Input, ghost max: int) returns (changed: bool, ghost rounds: nat)
      requires Valid() && BuildProofs.BuildOk(View()) && Within(inputs, max)
      modifies this, activeAttempts
      ensures Valid() && BuildProofs.BuildOk(View())
      ensures rounds > 0 && View() == Steps(old(View()), inputs, rounds)
      ensures BuildProofs.AllChange(old(View()), inputs, rounds - 1)
      ensures !BuildProofs.ChangesAt(old(View()), inputs, rounds - 1)
      ensures changed <==> rounds > 1
    {
      hide Step, BuildProofs.BuildOk, BuildProofs.Measure, AtMost;
      changed, rounds := false, 0;
      ghost var first := activeAttempts;
      var k := 0;
      while true
        invariant Valid() && BuildProofs.BuildOk(View())
        invariant k == rounds && View() == Steps(old(View()), inputs, rounds)
        invariant BuildProofs.AllChange(old(View()), inputs, rounds)
        invariant changed <==> rounds > 0
        invariant forall a :: a in activeAttempts ==> a in first || fresh(a)
        decreases BuildProofs.Measure(View(), max)
      {
        assert AtMost(inputs(k), max);
        BuildProofs.StepDecreases(View(), inputs(k), max);
        BuildProofs.StepKeeps(View(), inputs(k));
        assert forall i :: 0 <= i < |activeAttempts| ==> activeAttempts[i] in first || fresh(activeAttempts[i]);
        var stateChanged := SubProcess(inputs(k));
        k, rounds := k + 1, rounds + 1;
        if !stateChanged {
          assert !BuildProofs.ChangesAt(old(View()), inputs, rounds - 1);
          return;
        }
        assert BuildProofs.ChangesAt(old(View()), inputs, rounds - 1);
        changed := true;
      }
    }

    method ScanAndMove(input: Input) returns (changed: bool)
      requires Valid() && input.instance.Some?
      modifies this`startTime, this`successResult, this`activeAttempts, this`completedAttempts, activeAttempts
      ensures Valid()
      ensures Scanned(old(View()), input) == StepResult(View(), changed)
      ensures forall a :: a in activeAttempts ==> a in old(activeAttempts)
    {
      hide ScanOf, NoDuplicates;
      var toRemove, scanChanged := ScanActive(input);
      var anyMatches := MoveListed(toRemove);
      changed := scanChanged || anyMatches;
    }

    method Check(input: Input) returns (changed: bool)
      requires Valid() && input.instance.Some?
      modifies this`state, this`successResult, this`completionTime
      ensures Checked(StepResult(old(View()), false), input) == StepResult(View(), changed)
    {
      var attemptsChanged := ExpireIfOutOfAttempts(input.instance.value, input.attemptsNow);
      var timeChanged := ExpireIfOutOfTime(input.instance.value, input.overallNow, input.overallEnd);
      changed := attemptsChanged || timeChanged;
    }
  }

  ghost predicate Among(s: seq<BuildAttempt>, t: seq<BuildAttempt>) {
    forall a :: a in s ==> a in t
  }

  /** The first `n` attempts have been divided into those that stay and those that move. */
  ghost predicate Moved(all: seq<BuildAttempt>, removed: seq<string>, n: nat, stay: seq<BuildAttempt>, move: seq<BuildAttempt>)
    requires n <= |all|
    reads all, stay, move
  {
    && Among(stay, all[..n]) && Among(move, all[..n])
    && NoDuplicates(stay) && (forall a :: a in stay ==> a !in move)
    && Views(stay) == Filter(Views(all[..n]), (a: Attempt) => a.jobUid !in removed)
    && Views(move) == Filter(Views(all[..n]), (a: Attempt) => a.jobUid in removed)
  }

  lemma NothingMoved(all: seq<BuildAttempt>, removed: seq<string>)
    ensures Moved(all, removed, 0, [], [])
  {
  }

  lemma MovedOneMore(all: seq<BuildAttempt>, removed: seq<string>, n: nat, stay: seq<BuildAttempt>, move: seq<BuildAttempt>)
    requires NoDuplicates(all) && n < |all| && Moved(all, removed, n, stay, move)
    ensures all[n].jobUid in removed ==> Moved(all, removed, n + 1, stay, move + [all[n]])
    ensures all[n].jobUid !in removed ==> Moved(all, removed, n + 1, stay + [all[n]], move)
  {
    hide NoDuplicates, Filter;
    var a := all[n];
    NotBefore(all, n);
    assert all[..n + 1] == all[..n] + [a];
    ViewsOfOneMore(all[..n], a);
    ViewsOfOneMore(stay, a);
    ViewsOfOneMore(move, a);
    FilterOneMore(Views(all[..n]), a.View(), (x: Attempt) => x.jobUid !in removed);
    FilterOneMore(Views(all[..n]), a.View(), (x: Attempt) => x.jobUid in removed);
    AttemptsAppend(stay, a);
  }

  lemma AllMoved(all: seq<BuildAttempt>, removed: seq<string>, stay: seq<BuildAttempt>, move: seq<BuildAttempt>)
    requires Moved(all, removed, |all|, stay, move)
    ensures Among(stay, all) && Among(move, all) && NoDuplicates(stay) && forall a :: a in stay ==> a !in move
    ensures Views(stay) == Filter(Views(all), (a: Attempt) => a.jobUid !in removed)
    ensures Views(move) == Filter(Views(all), (a: Attempt) => a.jobUid in removed)
  {
    assert all[..|all|] == all;
  }

  lemma NotBefore(s: seq<BuildAttempt>, i: nat)
    requires NoDuplicates(s) && i < |s|
    ensures s[i] !in s[..i]
  {
  }

  lemma AttemptsAppend(s: seq<BuildAttempt>, a: BuildAttempt)
    requires NoDuplicates(s)
    ensures a !in s ==> NoDuplicates(s + [a])
  {
  }

  /** The report of a change accumulates over the parts of a step. */
  lemma ChangesAccumulate(r: StepResult, input: Input)
    requires input.instance.Some?
    ensures Checked(r, input).build == Checked(StepResult(r.build, false), input).build
    ensures Checked(r, input).changed == (r.changed || Checked(StepResult(r.build, false), input).changed)
    ensures Concluded(r, input).build == Concluded(StepResult(r.build, false), input).build
    ensures Concluded(r, input).changed == (r.changed || Concluded(StepResult(r.build, false), input).changed)
  {
  }

  lemma ViewsOfOneMore(s: seq<BuildAttempt>, a: BuildAttempt)
    ensures Views(s + [a]) == Views(s) + [a.View()]
  {
  }

  lemma FilterOneMore<T(!new)>(s: seq<T>, x: T, keep: T -> bool)
    ensures Filter(s + [x], keep) == if keep(x) then Filter(s, keep) + [x] else Filter(s, keep)
  {
    assert (s + [x])[..|s|] == s;
  }
}
