/**
 What the calls and notifications of the controller achieve by the time they
 return.  Each is followed from the action that starts its goroutine to the state
 in which the goroutine is gone, through whatever the others do meanwhile.
 */
module LifecycleCalls {
  import opened Tables
  import opened Lifecycle
  import opened LifecycleInvariant
  import opened LifecycleSafety
  import opened LifecycleSteps
  import opened LifecycleFrames
  import opened LifecycleTheorems

  /** Goroutine t, started by action a, runs in every state after it up to j. */
  ghost predicate RunsFrom(states: seq<Sys>, a: nat, j: nat, t: nat) {
    forall k :: a < k <= j && k < |states| ==> t in states[k].threads
  }

  /** Goroutine t is started by action a, gone in state j and not before, with no crash in between. */
  ghost predicate Spans(states: seq<Sys>, actions: seq<Action>, a: nat, j: nat, t: nat) {
    && IsRun(states, actions) && a < j < |states| && NoCrash(actions, a, j)
    && RunsFrom(states, a, j - 1, t) && t !in states[j].threads
  }

  /** The last step of a call that takes more than one. */
  lemma SpanEnds(states: seq<Sys>, actions: seq<Action>, a: nat, j: nat, t: nat)
    requires Spans(states, actions, a, j, t) && j > a + 1
    ensures IsRun(states, actions) && NoCrash(actions, a, j - 1) && RunsFrom(states, a, j - 1, t) && t in states[j - 1].threads
    ensures !actions[j - 1].Crash? && Enabled(states[j - 1], actions[j - 1])
    ensures Inv(states[j - 1]) && states[j] == Step(states[j - 1], actions[j - 1])
  {
    hide Step, Inv, Enabled;
    ReachableInv(states, actions, j - 1);
  }

  // ---- What a call may have met -----------------------------------------------------------

  /** The controller takes no call, or knows no run of this task. */
  predicate Unanswerable(s: Sys, task: Id) {
    s.closed || s.unavailable || task !in s.ix.byTask
  }

  ghost predicate WasUnanswerable(states: seq<Sys>, a: nat, j: nat, task: Id) {
    exists k :: a <= k < j && k < |states| && Unanswerable(states[k], task)
  }

  predicate RegisteredFor(s: Sys, task: Id, r: Id) {
    task in s.ix.byTask && s.ix.byTask[task] == r
  }

  ghost predicate WasFound(states: seq<Sys>, a: nat, j: nat, task: Id, r: Id) {
    exists k :: a <= k < j && k < |states| && RegisteredFor(states[k], task, r)
  }

  predicate IsOver(s: Sys, r: Id) {
    r in s.rt && s.rt[r].terminal
  }

  ghost predicate WasOver(states: seq<Sys>, a: nat, j: nat, r: Id) {
    exists k :: a <= k < j && k < |states| && IsOver(states[k], r)
  }

  // ---- Stop ---------------------------------------------------------------------------------

  predicate Requested(s: Sys, r: Id) {
    r in s.rt && s.rt[r].stopRequested
  }

  /** Run r was found for the task, and was over by then or has its stop requested now. */
  ghost predicate Heard(states: seq<Sys>, a: nat, j: nat, task: Id, r: Id)
    requires j < |states|
  {
    WasFound(states, a, j, task, r) && (WasOver(states, a, j, r) || Requested(states[j], r))
  }

  ghost predicate IsHeard(states: seq<Sys>, a: nat, j: nat, task: Id)
    requires j < |states|
  {
    exists r :: Heard(states, a, j, task, r)
  }

  /** Where the goroutine of a Stop call is before its request is raised. */
  ghost predicate StopOnItsWay(states: seq<Sys>, a: nat, j: nat, task: Id, th: Thread)
    requires j < |states|
  {
    && !th.failing
    && (|| th.pc == Available(task, false) || th.pc == Lookup(task, false)
        || (!HasNoRun(th.pc) && WasFound(states, a, j, task, th.run)
            && (th.pc.StopCheck? || th.pc.RequestStop? || Requested(states[j], th.run))))
  }

  /** One step of the goroutine: it only gives up before a terminal run. */
  lemma StopMoves(v: View, pc: Pc, reply: Reply)
    requires !HasNoRun(pc) && (pc.StopCheck? || pc.RequestStop? || v.a.stopRequested)
    requires Knows(v.a, v.self, pc, v.closed)
    ensures var (v', next) := RunStep(v, pc, reply);
            v'.a.stopRequested || (next.Goto? && next.pc.RequestStop?) || (next.Return? && pc.StopCheck? && v.a.terminal)
  {
    if v.a.stopRequested {
      hide RunStep;
      RunStepKeepsBargain(v, pc, reply);
    }
  }

  lemma FoundStays(states: seq<Sys>, a: nat, j: nat, task: Id, r: Id)
    requires WasFound(states, a, j, task, r) || (a <= j < |states| && RegisteredFor(states[j], task, r))
    ensures WasFound(states, a, j + 1, task, r)
  {
  }

  lemma StopGoesOn(states: seq<Sys>, actions: seq<Action>, a: nat, j: nat, t: nat, task: Id)
    requires IsRun(states, actions) && a < j < |actions| && Inv(states[j]) && !actions[j].Crash?
    requires t in states[j].threads && StopOnItsWay(states, a, j, task, states[j].threads[t])
    ensures t in states[j + 1].threads ==> StopOnItsWay(states, a, j + 1, task, states[j + 1].threads[t])
    ensures t !in states[j + 1].threads ==>
              WasUnanswerable(states, a, j + 1, task) || IsHeard(states, a, j + 1, task)
  {
    hide Inv, Step, RunStep, Knows, RecordOk, KeepsBargain, Evolves, ThreadStep;
    var (s, s', th) := (states[j], states[j + 1], states[j].threads[t]);
    assert s' == Step(s, actions[j]) && Enabled(s, actions[j]);
    if Actor(actions[j]) == Some(t) {
      RunSteps(s, t, actions[j].reply);
      if HasNoRun(th.pc) {
        LookupAnswers(s, t, actions[j].reply, task);
        assert s.closed || s.unavailable || task !in s.ix.byTask ==> Unanswerable(states[j], task);
        if task in s.ix.byTask {
          FoundStays(states, a, j, task, s.ix.byTask[task]);
        }
      } else {
        var r := th.run;
        OwnStep(s, t, actions[j].reply);
        StopMoves(View(r, t, s.closed, s.rt[r], s.db, s.ix), th.pc, actions[j].reply);
        FoundStays(states, a, j, task, r);
        NextHasRun(s.rt[r], s'.rt[r], t, th.pc, RunStep(View(r, t, s.closed, s.rt[r], s.db, s.ix), th.pc, actions[j].reply).1, s.closed);
        assert th.pc.StopCheck? && s.rt[r].terminal ==> IsOver(states[j], r);
        if t !in s'.threads {
          assert Heard(states, a, j + 1, task, r);
        }
      }
    } else {
      StepLeavesOthers(s, actions[j], t);
      if !HasNoRun(th.pc) {
        FoundStays(states, a, j, task, th.run);
        if Requested(s, th.run) {
          StaysRequested(s, actions[j], th.run);
        }
      }
    }
  }

  lemma NextHasRun(a: Active, a': Active, t: nat, pc: Pc, next: Next, closed: bool)
    requires KeepsBargain(a, a', t, pc, next, closed)
    ensures next.Goto? ==> !HasNoRun(next.pc)
  {
  }

  lemma StaysRequested(s: Sys, a: Action, r: Id)
    requires Inv(s) && Enabled(s, a) && !a.Crash? && Requested(s, r)
    ensures Requested(Step(s, a), r)
  {
    hide Inv, Step;
    StepEvolves(s, a, r);
  }

  /** The availability check and the lookup of a Stop call. */
  lemma LookupAnswers(s: Sys, t: nat, reply: Reply, task: Id)
    requires t in s.threads && !s.threads[t].failing
    requires s.threads[t].pc == Available(task, false) || s.threads[t].pc == Lookup(task, false)
    ensures var s' := ThreadStep(s, t, reply);
            && s'.rt == s.rt
            && (t !in s'.threads ==> Unanswerable(s, task))
            && (t in s'.threads ==> !s'.threads[t].failing)
            && (t in s'.threads && s'.threads[t].pc != Lookup(task, false) ==>
                  s'.threads[t].pc.StopCheck? && RegisteredFor(s, task, s'.threads[t].run))
  {
  }

  lemma {:induction false} StopIsOnItsWay(states: seq<Sys>, actions: seq<Action>, a: nat, j: nat, t: nat, task: Id)
    requires IsRun(states, actions) && a < j < |states| && NoCrash(actions, a, j)
    requires actions[a] == CallStop(t, task) && RunsFrom(states, a, j, t)
    ensures StopOnItsWay(states, a, j, task, states[j].threads[t])
  {
    if j == a + 1 {
      assert states[j] == Step(states[a], actions[a]);
    } else {
      hide StopOnItsWay, Step, Inv;
      StopIsOnItsWay(states, actions, a, j - 1, t, task);
      ReachableInv(states, actions, j - 1);
      StopGoesOn(states, actions, a, j - 1, t, task);
    }
  }

  /**
   Every Stop call is heard: once it has returned, the controller was closed or
   unavailable or knew no run of the task at some time during the call, or the run
   it found was over by then, or that run has its stop requested.
   */
  lemma EveryStopIsHeard(states: seq<Sys>, actions: seq<Action>, a: nat, j: nat, t: nat, task: Id)
    requires Spans(states, actions, a, j, t) && actions[a] == CallStop(t, task)
    ensures WasUnanswerable(states, a, j, task) || IsHeard(states, a, j, task)
  {
    hide StopOnItsWay, Step, Inv, Heard;
    if j == a + 1 {
      CallIsPresent(states, actions, a, t);
    } else {
      SpanEnds(states, actions, a, j, t);
      hide IsRun, Spans, NoCrash, RunsFrom;
      StopIsOnItsWay(states, actions, a, j - 1, t, task);
      StopGoesOn(states, actions, a, j - 1, t, task);
    }
  }

  lemma CallIsPresent(states: seq<Sys>, actions: seq<Action>, a: nat, t: nat)
    requires IsRun(states, actions) && a < |actions|
    requires (actions[a].CallStop? || actions[a].CallSteer? || actions[a].FailActiveRuns?) && actions[a].t == t
    ensures t in states[a + 1].threads
  {
  }

  /**
   No accepted stop is lost: a Stop call has returned in state j, having met neither
   a refusal nor a run that was over; then in any later state of the same process in
   which the controller is open and nobody works on the run it found, that run is
   terminal, its end is stored and it is out of the indexes.
   */
  lemma AcceptedStopEndsItsRun(states: seq<Sys>, actions: seq<Action>, a: nat, j: nat, t: nat, task: Id, i: nat) returns (r: Id)
    requires Spans(states, actions, a, j, t) && actions[a] == CallStop(t, task)
    requires !WasUnanswerable(states, a, j, task)
    requires forall q :: WasFound(states, a, j, task, q) ==> !WasOver(states, a, j, q)
    requires j <= i < |states| && NoCrash(actions, j, i) && !states[i].closed
    ensures WasFound(states, a, j, task, r) && Requested(states[i], r)
    ensures (forall u :: !AtWork(states[i], u, r)) ==>
              states[i].rt[r].terminal && states[i].rt[r].commits != [] && states[i].rt[r].gone
  {
    EveryStopIsHeard(states, actions, a, j, t, task);
    r :| Heard(states, a, j, task, r);
    hide Step, Inv;
    RecordsStay(states, actions, j, i, r);
    if forall u :: !AtWork(states[i], u, r) {
      NoStopIsLost(states, actions, i, states[i], r);
    }
  }
}
