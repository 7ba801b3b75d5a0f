/** What the notifications of the app-server, Steer calls and the loss of the app-server achieve. */
module LifecycleEvents {
  import opened Tables
  import opened Lifecycle
  import opened LifecycleInvariant
  import opened LifecycleSafety
  import opened LifecycleSteps
  import opened LifecycleFrames
  import opened LifecycleCalls

  /** The run a notification is for: the one filed under its turn, else the one filed under its thread. */
  predicate LeadsTo(ix: Indexes, thread: Id, turn: Id, r: Id) {
    if turn != NO_ID && (thread, turn) in ix.byTurn then ix.byTurn[(thread, turn)] == r
    else thread in ix.byThread && ix.byThread[thread] == r
  }

  lemma NextHasRunToo(s: Sys, t: nat, reply: Reply)
    requires Inv(s) && t in s.threads && !HasNoRun(s.threads[t].pc) && !s.threads[t].failing
    ensures var s' := ThreadStep(s, t, reply);
            t in s'.threads ==> !HasNoRun(s'.threads[t].pc) && s'.threads[t].run == s.threads[t].run && !s'.threads[t].failing
  {
    hide Inv, ThreadStep, RunStep, Knows, RecordOk, HasNoRun, KeepsBargain;
    OwnStep(s, t, reply);
    var (r, pc) := (s.threads[t].run, s.threads[t].pc);
    var (v', next) := RunStep(View(r, t, s.closed, s.rt[r], s.db, s.ix), pc, reply);
    NextHasRun(s.rt[r], v'.a, t, pc, next, s.closed);
  }

  lemma NotificationIsPresent(states: seq<Sys>, actions: seq<Action>, a: nat, t: nat, thread: Id, turn: Id, r: Id)
    requires IsRun(states, actions) && a < |actions| && LeadsTo(states[a].ix, thread, turn, r)
    requires (turn != NO_ID && actions[a] == TurnStarted(t, thread, turn))
             || (actions[a].TurnCompleted? && actions[a] == TurnCompleted(t, thread, turn, actions[a].status))
    ensures t in states[a + 1].threads
  {
    assert states[a + 1] == Step(states[a], actions[a]);
  }

  // ---- setTurn -------------------------------------------------------------------------------

  ghost predicate TurnWasSet(states: seq<Sys>, a: nat, j: nat, r: Id, turn: Id) {
    exists k :: a <= k <= j && k < |states| && HasTurn(states[k], r, turn)
  }

  predicate HasTurn(s: Sys, r: Id, turn: Id) {
    r in s.rt && s.rt[r].turn == turn
  }

  ghost predicate TurnWasIndexed(states: seq<Sys>, a: nat, j: nat, r: Id, turn: Id) {
    exists k :: a <= k <= j && k < |states| && HasTurnIndexed(states[k], r, turn)
  }

  predicate HasTurnIndexed(s: Sys, r: Id, turn: Id) {
    r in s.rt && (s.rt[r].thread, turn) in s.ix.byTurn && s.ix.byTurn[(s.rt[r].thread, turn)] == r
  }

  /** Run r had this turn, and was found under it, unless it was over. */
  ghost predicate TurnIsTaken(states: seq<Sys>, a: nat, j: nat, r: Id, turn: Id) {
    WasOver(states, a, j + 1, r) || (TurnWasSet(states, a, j, r, turn) && TurnWasIndexed(states, a, j, r, turn))
  }

  /** A goroutine somewhere in `setTurn`, or behind it. */
  ghost predicate TakesTurn(states: seq<Sys>, a: nat, j: nat, r: Id, turn: Id, pc: Pc) {
    if IsSetTurnPc(pc) then pc.turn == turn && (pc.IndexTurn? ==> WasOver(states, a, j + 1, r) || TurnWasSet(states, a, j, r, turn))
    else TurnIsTaken(states, a, j, r, turn)
  }

  lemma TakenStays(states: seq<Sys>, a: nat, j: nat, r: Id, turn: Id)
    ensures TurnWasSet(states, a, j, r, turn) ==> TurnWasSet(states, a, j + 1, r, turn)
    ensures TurnWasIndexed(states, a, j, r, turn) ==> TurnWasIndexed(states, a, j + 1, r, turn)
    ensures WasOver(states, a, j + 1, r) ==> WasOver(states, a, j + 2, r)
    ensures TurnIsTaken(states, a, j, r, turn) ==> TurnIsTaken(states, a, j + 1, r, turn)
    ensures a <= j + 1 < |states| && HasTurn(states[j + 1], r, turn) ==> TurnWasSet(states, a, j + 1, r, turn)
    ensures a <= j + 1 < |states| && HasTurnIndexed(states[j + 1], r, turn) ==> TurnWasIndexed(states, a, j + 1, r, turn)
    ensures a <= j < |states| && IsOver(states[j], r) ==> WasOver(states, a, j + 1, r)
  {
  }

  /** The regions of `setTurn`, one at a time. */
  lemma SetTurnMoves(v: View, pc: Pc, reply: Reply)
    requires IsSetTurnPc(pc) && Knows(v.a, v.self, pc, v.closed)
    ensures var (v', next) := RunStep(v, pc, reply);
            match pc
            case ReadIds(turn, _) => next.Goto? && next.pc.PutTurn? && next.pc.turn == turn
            case PutTurn(thread, turn, _) =>
              v.a.terminal || (v'.a.turn == turn && next.Goto? && next.pc.IndexTurn? && next.pc.turn == turn)
            case IndexTurn(thread, turn, _) =>
              && !(next.Goto? && IsSetTurnPc(next.pc))
              && (v.a.terminal || (v'.a.thread == thread && (thread, turn) in v'.ix.byTurn && v'.ix.byTurn[(thread, turn)] == v.run))
            case _ => true
  {
  }

  lemma LeavesSetTurn(v: View, pc: Pc, reply: Reply)
    requires IsSetTurnPc(pc)
    ensures var next := RunStep(v, pc, reply).1;
            next.Goto? && IsSetTurnPc(next.pc) ==> next.pc.turn == pc.turn && (next.pc.IndexTurn? ==> pc.PutTurn?)
  {
  }

  lemma TurnGoesOn(states: seq<Sys>, actions: seq<Action>, a: nat, j: nat, t: nat, r: Id, turn: Id)
    requires IsRun(states, actions) && a <= j < |actions| && Inv(states[j]) && Actor(actions[j]) == Some(t)
    requires t in states[j].threads && states[j].threads[t].run == r && IsSetTurnPc(states[j].threads[t].pc)
    requires TakesTurn(states, a, j, r, turn, states[j].threads[t].pc)
    ensures t in states[j + 1].threads && IsSetTurnPc(states[j + 1].threads[t].pc) ==>
              TakesTurn(states, a, j + 1, r, turn, states[j + 1].threads[t].pc)
    ensures (t in states[j + 1].threads && IsSetTurnPc(states[j + 1].threads[t].pc)) || TurnIsTaken(states, a, j + 1, r, turn)
  {
    hide Inv, Step, RunStep, Knows, RecordOk, KeepsBargain, Evolves, ThreadStep;
    hide TurnWasSet, TurnWasIndexed, WasOver;
    var (s, th, reply) := (states[j], states[j].threads[t], actions[j].reply);
    assert states[j + 1] == Step(s, actions[j]) && Enabled(s, actions[j]);
    RunSteps(s, t, reply);
    OwnStep(s, t, reply);
    var v := View(r, t, s.closed, s.rt[r], s.db, s.ix);
    SetTurnMoves(v, th.pc, reply);
    LeavesSetTurn(v, th.pc, reply);
    TakenStays(states, a, j, r, turn);
  }

  // ---- turn/started ----------------------------------------------------------------------------

  /** The goroutine of a turn/started notification is in `setTurn`, for this run and turn. */
  ghost predicate TurnBegins(states: seq<Sys>, a: nat, j: nat, r: Id, turn: Id, th: Thread) {
    th.run == r && !th.failing && IsSetTurnPc(th.pc) && th.pc.andThen.ToExit? && TakesTurn(states, a, j, r, turn, th.pc)
  }

  lemma ToExitStays(v: View, pc: Pc, reply: Reply)
    requires IsSetTurnPc(pc) && pc.andThen.ToExit?
    ensures var next := RunStep(v, pc, reply).1; next.Goto? ==> IsSetTurnPc(next.pc) && next.pc.andThen.ToExit?
  {
  }

  lemma TurnBeginsOn(states: seq<Sys>, actions: seq<Action>, a: nat, j: nat, t: nat, r: Id, turn: Id)
    requires IsRun(states, actions) && a <= j < |actions| && Inv(states[j]) && !actions[j].Crash?
    requires t in states[j].threads && TurnBegins(states, a, j, r, turn, states[j].threads[t])
    ensures t in states[j + 1].threads ==> TurnBegins(states, a, j + 1, r, turn, states[j + 1].threads[t])
    ensures t !in states[j + 1].threads ==> TurnIsTaken(states, a, j + 1, r, turn)
  {
    hide Inv, Step, RunStep, Knows, RecordOk, KeepsBargain, Evolves, ThreadStep, TurnIsTaken;
    hide TurnWasSet, TurnWasIndexed, WasOver;
    var (s, th) := (states[j], states[j].threads[t]);
    assert states[j + 1] == Step(s, actions[j]) && Enabled(s, actions[j]);
    if Actor(actions[j]) == Some(t) {
      var reply := actions[j].reply;
      RunSteps(s, t, reply);
      OwnStep(s, t, reply);
      ToExitStays(View(r, t, s.closed, s.rt[r], s.db, s.ix), th.pc, reply);
      TurnGoesOn(states, actions, a, j, t, r, turn);
    } else {
      StepLeavesOthers(s, actions[j], t);
      TakenStays(states, a, j, r, turn);
    }
  }

  lemma {:induction false} TurnIsBeginning(states: seq<Sys>, actions: seq<Action>, a: nat, j: nat, t: nat, thread: Id, turn: Id, r: Id)
    requires IsRun(states, actions) && a < j < |states| && NoCrash(actions, a, j)
    requires actions[a] == TurnStarted(t, thread, turn) && turn != NO_ID && LeadsTo(states[a].ix, thread, turn, r)
    requires RunsFrom(states, a, j, t)
    ensures TurnBegins(states, a + 1, j, r, turn, states[j].threads[t])
  {
    if j == a + 1 {
      assert states[j] == Step(states[a], actions[a]);
    } else {
      hide TurnBegins, Step, Inv;
      TurnIsBeginning(states, actions, a, j - 1, t, thread, turn, r);
      ReachableInv(states, actions, j - 1);
      TurnBeginsOn(states, actions, a + 1, j - 1, t, r, turn);
    }
  }

  /**
   A turn/started notification that leads to a run gives it the turn and files it
   under the turn, unless the run is over by then.
   */
  lemma EveryStartedTurnIsTaken(states: seq<Sys>, actions: seq<Action>, a: nat, j: nat, t: nat, thread: Id, turn: Id, r: Id)
    requires Spans(states, actions, a, j, t) && actions[a] == TurnStarted(t, thread, turn)
    requires turn != NO_ID && LeadsTo(states[a].ix, thread, turn, r)
    ensures TurnIsTaken(states, a + 1, j, r, turn)
  {
    hide TurnBegins, Step, Inv, TurnIsTaken;
    if j == a + 1 {
      NotificationIsPresent(states, actions, a, t, thread, turn, r);
    } else {
      SpanEnds(states, actions, a, j, t);
      hide IsRun, Spans, NoCrash, RunsFrom;
      TurnIsBeginning(states, actions, a, j - 1, t, thread, turn, r);
      TurnBeginsOn(states, actions, a + 1, j - 1, t, r, turn);
    }
  }

  // ---- turn/completed ------------------------------------------------------------------------

  /** The goroutine of a turn/completed notification will finish this run, or it is over. */
  ghost predicate TurnEnds(s: Sys, r: Id, th: Thread) {
    && th.run == r && r in s.rt && !th.failing && !HasNoRun(th.pc)
    && (s.rt[r].terminal || th.pc.Finish? || (IsSetTurnPc(th.pc) && th.pc.andThen.ToFinish?))
  }

  lemma EndMoves(v: View, pc: Pc, reply: Reply)
    requires pc.Finish? || (IsSetTurnPc(pc) && pc.andThen.ToFinish?)
    ensures var (v', next) := RunStep(v, pc, reply);
            v'.a.terminal || (next.Goto? && (next.pc.Finish? || (IsSetTurnPc(next.pc) && next.pc.andThen.ToFinish?)))
  {
  }

  lemma TurnEndsOn(s: Sys, a: Action, t: nat, r: Id)
    requires Inv(s) && Enabled(s, a) && !a.Crash? && t in s.threads && TurnEnds(s, r, s.threads[t])
    ensures t in Step(s, a).threads ==> TurnEnds(Step(s, a), r, Step(s, a).threads[t])
    ensures t !in Step(s, a).threads ==> IsOver(Step(s, a), r)
  {
    hide Inv, Step, RunStep, Knows, RecordOk, KeepsBargain, ThreadStep;
    StepEvolves(s, a, r);
    if Actor(a) == Some(t) {
      var th := s.threads[t];
      RunSteps(s, t, a.reply);
      OwnStep(s, t, a.reply);
      NextHasRunToo(s, t, a.reply);
      if !s.rt[r].terminal {
        EndMoves(View(r, t, s.closed, s.rt[r], s.db, s.ix), th.pc, a.reply);
      }
    } else {
      StepLeavesOthers(s, a, t);
    }
  }

  lemma {:induction false} TurnIsEnding(states: seq<Sys>, actions: seq<Action>, a: nat, j: nat, t: nat, thread: Id, turn: Id, status: Status, r: Id)
    requires IsRun(states, actions) && a < j < |states| && NoCrash(actions, a, j)
    requires actions[a] == TurnCompleted(t, thread, turn, status) && LeadsTo(states[a].ix, thread, turn, r)
    requires RunsFrom(states, a, j, t)
    ensures TurnEnds(states[j], r, states[j].threads[t])
  {
    hide Inv;
    ReachableInv(states, actions, j - 1);
    if j == a + 1 {
      NotifiedRunIsKnown(states[a], thread, turn, r);
      assert states[j] == Step(states[a], actions[a]);
    } else {
      hide TurnEnds, Step;
      TurnIsEnding(states, actions, a, j - 1, t, thread, turn, status, r);
      TurnEndsOn(states[j - 1], actions[j - 1], t, r);
    }
  }

  lemma NotifiedRunIsKnown(s: Sys, thread: Id, turn: Id, r: Id)
    requires Inv(s) && LeadsTo(s.ix, thread, turn, r)
    ensures r in s.rt
  {
    hide Consistent, RecordsOk, ThreadsOk, OwedOk, RouterOk, LogOk;
  }

  /** A turn/completed notification that leads to a run ends it. */
  lemma EveryCompletedTurnEndsItsRun(states: seq<Sys>, actions: seq<Action>, a: nat, j: nat, t: nat, thread: Id, turn: Id, status: Status, r: Id)
    requires Spans(states, actions, a, j, t) && actions[a] == TurnCompleted(t, thread, turn, status)
    requires LeadsTo(states[a].ix, thread, turn, r)
    ensures IsOver(states[j], r)
  {
    hide TurnEnds, Step, Inv;
    if j == a + 1 {
      NotificationIsPresent(states, actions, a, t, thread, turn, r);
    } else {
      SpanEnds(states, actions, a, j, t);
      hide IsRun, Spans, NoCrash, RunsFrom;
      TurnIsEnding(states, actions, a, j - 1, t, thread, turn, status, r);
      TurnEndsOn(states[j - 1], actions[j - 1], t, r);
    }
  }

  // ---- The loss of the app-server ------------------------------------------------------------

  /** A run of the snapshot is over, about to be finished, or still on the list. */
  predicate WillFail(s: Sys, q: Id, th: Thread) {
    q in s.rt && (s.rt[q].terminal || q in th.todo || (th.run == q && th.pc.Finish?))
  }

  ghost predicate Failing(s: Sys, snapshot: set<Id>, th: Thread) {
    th.failing && !th.pc.Available? && !th.pc.Lookup? && forall q :: q in snapshot ==> WillFail(s, q, th)
  }

  lemma FailingPicks(s: Sys, t: nat, reply: Reply, snapshot: set<Id>)
    requires t in s.threads && s.threads[t].pc.FailNext? && Failing(s, snapshot, s.threads[t])
    ensures var s' := ThreadStep(s, t, reply);
            && (t in s'.threads ==> Failing(s', snapshot, s'.threads[t]))
            && (t !in s'.threads ==> forall q :: q in snapshot ==> IsOver(s', q))
  {
    hide RunStep;
    assert forall q :: q in snapshot ==> WillFail(s, q, s.threads[t]);
  }

  lemma FailingOnOwn(s: Sys, t: nat, reply: Reply, snapshot: set<Id>)
    requires Inv(s) && t in s.threads && Failing(s, snapshot, s.threads[t])
    ensures var s' := ThreadStep(s, t, reply);
            && (t in s'.threads ==> Failing(s', snapshot, s'.threads[t]))
            && (t !in s'.threads ==> forall q :: q in snapshot ==> IsOver(s', q))
  {
    hide Inv, RunStep, Knows, RecordOk, ThreadStep, KeepsBargain;
    var th := s.threads[t];
    if th.pc.FailNext? {
      hide Failing;
      FailingPicks(s, t, reply, snapshot);
    } else {
      hide HasNoRun;
      OwnStep(s, t, reply);
      var v := View(th.run, t, s.closed, s.rt[th.run], s.db, s.ix);
      var (v', next) := RunStep(v, th.pc, reply);
      NextIsNoCall(v.a, v'.a, t, th.pc, next, s.closed);
      forall q | q in snapshot
        ensures IsOver(ThreadStep(s, t, reply), q) || q in th.todo
      {
        assert WillFail(s, q, th);
        if q in s.rt { RunEvolves(s, t, reply, q); }
        if th.pc.Finish? {
          FinishLeaves(v, th.pc, reply);
        }
      }
    }
  }

  lemma NextIsNoCall(a: Active, a': Active, t: nat, pc: Pc, next: Next, closed: bool)
    requires KeepsBargain(a, a', t, pc, next, closed)
    ensures next.Goto? ==> !next.pc.Available? && !next.pc.Lookup?
  {
  }

  /** `finish` does not come back to its start. */
  lemma FinishLeaves(v: View, pc: Pc, reply: Reply)
    requires pc.Finish?
    ensures RunStep(v, pc, reply).0.a.terminal
  {
  }

  lemma FailingOn(s: Sys, a: Action, t: nat, snapshot: set<Id>)
    requires Inv(s) && Enabled(s, a) && !a.Crash? && t in s.threads && Failing(s, snapshot, s.threads[t])
    ensures t in Step(s, a).threads ==> Failing(Step(s, a), snapshot, Step(s, a).threads[t])
    ensures t !in Step(s, a).threads ==> forall q :: q in snapshot ==> IsOver(Step(s, a), q)
  {
    hide Inv, Step, ThreadStep;
    if Actor(a) == Some(t) {
      RunSteps(s, t, a.reply);
      FailingOnOwn(s, t, a.reply, snapshot);
    } else {
      StepLeavesOthers(s, a, t);
      forall q | q in snapshot ensures WillFail(Step(s, a), q, s.threads[t]) {
        StepEvolves(s, a, q);
      }
    }
  }

  lemma {:induction false} RunsAreFailing(states: seq<Sys>, actions: seq<Action>, a: nat, j: nat, t: nat)
    requires IsRun(states, actions) && a < j < |states| && NoCrash(actions, a, j)
    requires actions[a] == FailActiveRuns(t) && RunsFrom(states, a, j, t)
    ensures Failing(states[j], states[a].ix.byRun.Keys, states[j].threads[t])
  {
    hide Inv;
    ReachableInv(states, actions, j - 1);
    if j == a + 1 {
      RegisteredRunsAreKnown(states[a]);
      assert states[j] == Step(states[a], actions[a]);
    } else {
      hide Failing, Step;
      RunsAreFailing(states, actions, a, j - 1, t);
      FailingOn(states[j - 1], actions[j - 1], t, states[a].ix.byRun.Keys);
    }
  }

  lemma RegisteredRunsAreKnown(s: Sys)
    requires Inv(s)
    ensures s.ix.byRun.Keys <= s.rt.Keys
  {
    hide Consistent, RecordsOk, ThreadsOk, OwedOk, RouterOk, LogOk;
  }

  /** Once `FailActiveRuns` has returned, every run that was registered when it began is over. */
  lemma EveryRegisteredRunIsFailed(states: seq<Sys>, actions: seq<Action>, a: nat, j: nat, t: nat, q: Id)
    requires Spans(states, actions, a, j, t) && actions[a] == FailActiveRuns(t) && q in states[a].ix.byRun
    ensures IsOver(states[j], q)
  {
    hide Failing, Step, Inv;
    if j == a + 1 {
      CallIsPresent(states, actions, a, t);
    } else {
      SpanEnds(states, actions, a, j, t);
      hide IsRun, Spans, NoCrash, RunsFrom;
      RunsAreFailing(states, actions, a, j - 1, t);
      FailingOn(states[j - 1], actions[j - 1], t, states[a].ix.byRun.Keys);
    }
  }
}
