/** What a Steer call achieves by the time it returns. */
module LifecycleSteer {
  import opened Tables
  import opened Lifecycle
  import opened LifecycleInvariant
  import opened LifecycleSafety
  import opened LifecycleSteps
  import opened LifecycleFrames
  import opened LifecycleCalls
  import opened LifecycleEvents

  /** The run has no thread or no turn to steer. */
  predicate Unsteerable(s: Sys, r: Id) {
    r in s.rt && ((s.rt[r].thread == NO_ID && s.rt[r].storedThread == NO_ID) || s.rt[r].turn == NO_ID)
  }

  ghost predicate WasUnsteerable(states: seq<Sys>, a: nat, j: nat, r: Id) {
    exists k :: a <= k < j && k < |states| && Unsteerable(states[k], r)
  }

  /** Goroutine t's call of the app-server ended this way. */
  predicate Calls(s: Sys, a: Action, t: nat, reply: Reply) {
    a == Action.Run(t, reply) && t in s.threads && s.threads[t].pc.SteerCall?
  }

  ghost predicate WasRefused(states: seq<Sys>, actions: seq<Action>, a: nat, j: nat, t: nat) {
    exists k, reply :: a <= k < j && k < |states| && k < |actions| && Calls(states[k], actions[k], t, reply)
                       && (reply.CallFailed? || reply.id == NO_ID)
  }

  ghost predicate WasAccepted(states: seq<Sys>, actions: seq<Action>, a: nat, j: nat, t: nat, turn: Id) {
    turn != NO_ID && exists k :: a <= k < j && k < |states| && k < |actions| && Calls(states[k], actions[k], t, Returned(turn))
  }

  /** Run r was found; it was over or had nothing to steer, or the app-server refused, or its turn id was taken over. */
  ghost predicate Steered(states: seq<Sys>, actions: seq<Action>, a: nat, j: nat, t: nat, task: Id, r: Id) {
    && WasFound(states, a, j, task, r)
    && (|| WasOver(states, a, j, r) || WasUnsteerable(states, a, j, r) || WasRefused(states, actions, a, j, t)
        || AcceptedTurnIsTaken(states, actions, a, j, t, r))
  }

  ghost predicate AcceptedTurnIsTaken(states: seq<Sys>, actions: seq<Action>, a: nat, j: nat, t: nat, r: Id) {
    exists turn :: WasAccepted(states, actions, a, j, t, turn) && TurnIsTaken(states, a, j, r, turn)
  }

  ghost predicate IsSteered(states: seq<Sys>, actions: seq<Action>, a: nat, j: nat, t: nat, task: Id) {
    exists r :: Steered(states, actions, a, j, t, task, r)
  }

  ghost predicate SteerOnItsWay(states: seq<Sys>, actions: seq<Action>, a: nat, j: nat, t: nat, task: Id, th: Thread) {
    && !th.failing
    && (|| th.pc == Available(task, true) || th.pc == Lookup(task, true)
        || (!HasNoRun(th.pc) && WasFound(states, a, j, task, th.run)
            && (IsSteerPc(th.pc)
                || (IsSetTurnPc(th.pc) && th.pc.andThen.ToExit? && WasAccepted(states, actions, a, j, t, th.pc.turn)
                    && TakesTurn(states, a, j, th.run, th.pc.turn, th.pc)))))
  }

  lemma SteerLookupAnswers(s: Sys, t: nat, reply: Reply, task: Id)
    requires t in s.threads && !s.threads[t].failing
    requires s.threads[t].pc == Available(task, true) || s.threads[t].pc == Lookup(task, true)
    ensures var s' := ThreadStep(s, t, reply);
            && (t !in s'.threads ==> Unanswerable(s, task))
            && (t in s'.threads ==> !s'.threads[t].failing)
            && (t in s'.threads && s'.threads[t].pc != Lookup(task, true) ==>
                  s'.threads[t].pc.SteerCheck? && RegisteredFor(s, task, s'.threads[t].run))
  {
  }

  /** The steps of a Steer call on its run: why it may return, and what it goes on with. */
  lemma SteerMoves(v: View, pc: Pc, reply: Reply)
    requires IsSteerPc(pc)
    ensures var (v', next) := RunStep(v, pc, reply);
            && (next.Return? ==>
                  || (pc.SteerCheck? && v.a.terminal)
                  || (pc.SteerIds? && ((v.a.thread == NO_ID && v.a.storedThread == NO_ID) || v.a.turn == NO_ID))
                  || (pc.SteerCall? && (reply.CallFailed? || reply.id == NO_ID)))
            && (next.Goto? && !IsSteerPc(next.pc) ==>
                  pc.SteerCall? && reply.Returned? && reply.id != NO_ID && next.pc == ReadIds(reply.id, ToExit))
  {
  }

  lemma AnswersStay(states: seq<Sys>, actions: seq<Action>, a: nat, j: nat, t: nat, turn: Id)
    ensures WasAccepted(states, actions, a, j, t, turn) ==> WasAccepted(states, actions, a, j + 1, t, turn)
  {
  }

  lemma SteerGoesOnWithRun(states: seq<Sys>, actions: seq<Action>, a: nat, j: nat, t: nat, task: Id)
    requires IsRun(states, actions) && a < j < |actions| && Inv(states[j]) && Actor(actions[j]) == Some(t)
    requires t in states[j].threads && SteerOnItsWay(states, actions, a, j, t, task, states[j].threads[t])
    requires IsSteerPc(states[j].threads[t].pc)
    ensures t in states[j + 1].threads ==> SteerOnItsWay(states, actions, a, j + 1, t, task, states[j + 1].threads[t])
    ensures t !in states[j + 1].threads ==> Steered(states, actions, a, j + 1, t, task, states[j].threads[t].run)
  {
    hide Inv, Step, RunStep, Knows, RecordOk, KeepsBargain, Evolves, ThreadStep, WasUnanswerable, TurnWasSet, TurnWasIndexed;
    var (s, th, reply) := (states[j], states[j].threads[t], actions[j].reply);
    assert states[j + 1] == Step(s, actions[j]) && Enabled(s, actions[j]);
    RunSteps(s, t, reply);
    OwnStep(s, t, reply);
    var v := View(th.run, t, s.closed, s.rt[th.run], s.db, s.ix);
    SteerMoves(v, th.pc, reply);
    NextHasRun(s.rt[th.run], RunStep(v, th.pc, reply).0.a, t, th.pc, RunStep(v, th.pc, reply).1, s.closed);
    FoundStays(states, a, j, task, th.run);
    assert th.pc.SteerCall? ==> Calls(states[j], actions[j], t, reply);
    assert th.pc.SteerCheck? && v.a.terminal ==> IsOver(states[j], th.run);
    assert th.pc.SteerIds? && ((v.a.thread == NO_ID && v.a.storedThread == NO_ID) || v.a.turn == NO_ID) ==> Unsteerable(states[j], th.run);
  }

  lemma SteerGoesOnInSetTurn(states: seq<Sys>, actions: seq<Action>, a: nat, j: nat, t: nat, task: Id)
    requires IsRun(states, actions) && a < j < |actions| && Inv(states[j]) && Actor(actions[j]) == Some(t)
    requires t in states[j].threads && SteerOnItsWay(states, actions, a, j, t, task, states[j].threads[t])
    requires IsSetTurnPc(states[j].threads[t].pc)
    ensures t in states[j + 1].threads ==> SteerOnItsWay(states, actions, a, j + 1, t, task, states[j + 1].threads[t])
    ensures t !in states[j + 1].threads ==> Steered(states, actions, a, j + 1, t, task, states[j].threads[t].run)
  {
    hide Inv, Step, RunStep, Knows, RecordOk, KeepsBargain, Evolves, ThreadStep, WasUnanswerable, TurnWasSet, TurnWasIndexed, WasOver;
    hide WasAccepted, WasRefused, WasUnsteerable, TurnIsTaken, WasFound, Calls;
    var (s, th, reply) := (states[j], states[j].threads[t], actions[j].reply);
    assert states[j + 1] == Step(s, actions[j]) && Enabled(s, actions[j]);
    RunSteps(s, t, reply);
    OwnStep(s, t, reply);
    ToExitStays(View(th.run, t, s.closed, s.rt[th.run], s.db, s.ix), th.pc, reply);
    LeavesSetTurn(View(th.run, t, s.closed, s.rt[th.run], s.db, s.ix), th.pc, reply);
    TurnGoesOn(states, actions, a, j, t, th.run, th.pc.turn);
    FoundStays(states, a, j, task, th.run);
    AnswersStay(states, actions, a, j, t, th.pc.turn);
  }

  lemma SteerWaits(states: seq<Sys>, actions: seq<Action>, a: nat, j: nat, t: nat, task: Id, th: Thread)
    requires SteerOnItsWay(states, actions, a, j, t, task, th)
    ensures SteerOnItsWay(states, actions, a, j + 1, t, task, th)
  {
    hide WasFound, WasAccepted, TurnWasSet, TurnIsTaken, WasOver;
    if !HasNoRun(th.pc) {
      FoundStays(states, a, j, task, th.run);
      if IsSetTurnPc(th.pc) {
        AnswersStay(states, actions, a, j, t, th.pc.turn);
        TakenStays(states, a, j, th.run, th.pc.turn);
      }
    }
  }

  lemma SteerGoesOn(states: seq<Sys>, actions: seq<Action>, a: nat, j: nat, t: nat, task: Id)
    requires IsRun(states, actions) && a < j < |actions| && Inv(states[j]) && !actions[j].Crash?
    requires t in states[j].threads && SteerOnItsWay(states, actions, a, j, t, task, states[j].threads[t])
    ensures t in states[j + 1].threads ==> SteerOnItsWay(states, actions, a, j + 1, t, task, states[j + 1].threads[t])
    ensures t !in states[j + 1].threads ==>
              WasUnanswerable(states, a, j + 1, task) || IsSteered(states, actions, a, j + 1, t, task)
  {
    hide Inv, Step, RunStep, ThreadStep, Steered, TakesTurn, WasAccepted;
    var (s, th) := (states[j], states[j].threads[t]);
    assert states[j + 1] == Step(s, actions[j]) && Enabled(s, actions[j]);
    if Actor(actions[j]) != Some(t) {
      hide SteerOnItsWay;
      StepLeavesOthers(s, actions[j], t);
      SteerWaits(states, actions, a, j, t, task, th);
    } else if IsSteerPc(th.pc) {
      hide SteerOnItsWay;
      SteerGoesOnWithRun(states, actions, a, j, t, task);
    } else if IsSetTurnPc(th.pc) {
      hide SteerOnItsWay;
      SteerGoesOnInSetTurn(states, actions, a, j, t, task);
    } else {
      RunSteps(s, t, actions[j].reply);
      SteerLookupAnswers(s, t, actions[j].reply, task);
      assert s.closed || s.unavailable || task !in s.ix.byTask ==> Unanswerable(states[j], task);
      if task in s.ix.byTask {
        FoundStays(states, a, j, task, s.ix.byTask[task]);
      }
    }
  }

  lemma {:induction false} SteerIsOnItsWay(states: seq<Sys>, actions: seq<Action>, a: nat, j: nat, t: nat, task: Id)
    requires IsRun(states, actions) && a < j < |states| && NoCrash(actions, a, j)
    requires actions[a] == CallSteer(t, task) && RunsFrom(states, a, j, t)
    ensures SteerOnItsWay(states, actions, a, j, t, task, states[j].threads[t])
  {
    if j == a + 1 {
      assert states[j] == Step(states[a], actions[a]);
    } else {
      hide SteerOnItsWay, Step, Inv;
      SteerIsOnItsWay(states, actions, a, j - 1, t, task);
      ReachableInv(states, actions, j - 1);
      SteerGoesOn(states, actions, a, j - 1, t, task);
    }
  }

  /**
   A Steer call that has returned met a refusal of the controller, a run that was
   over or had no thread or turn, or a refusal of the app-server; or the turn id the
   app-server answered with was given to the run and filed for it, unless the run
   was over by then.
   */
  lemma EverySteerIsAnswered(states: seq<Sys>, actions: seq<Action>, a: nat, j: nat, t: nat, task: Id)
    requires Spans(states, actions, a, j, t) && actions[a] == CallSteer(t, task)
    ensures WasUnanswerable(states, a, j, task) || IsSteered(states, actions, a, j, t, task)
  {
    hide SteerOnItsWay, Step, Inv, IsSteered;
    if j == a + 1 {
      CallIsPresent(states, actions, a, t);
    } else {
      SteerIsOnItsWay(states, actions, a, j - 1, t, task);
      ReachableInv(states, actions, j - 1);
      SteerGoesOn(states, actions, a, j - 1, t, task);
    }
  }
}
