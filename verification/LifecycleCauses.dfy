/**
 Where the terminal status of a run comes from.  What a goroutine was started for
 and how its calls ended is read off the actions of a run, not off its steps; the
 status it finishes a run with is then decided by that.
 */
module LifecycleCauses {
  import opened Tables
  import opened Lifecycle
  import opened LifecycleInvariant
  import opened LifecycleSafety
  import opened LifecycleSteps
  import opened LifecycleFrames
  import opened LifecycleCalls

  datatype Cause = Nothing | Launching | Stopping | Steering | TurnBegan | TurnEnded(status: Status) | FailingAll

  /**
   What a goroutine has behind it: why it was started; whether its StartThread,
   ResumeThread or StartTurn failed, whether as canceled and whether a stop had been
   requested by then; whether StartTurn gave it a turn; whether it looked for a stop
   request while one was open; and whether its Interrupt failed, if it called it.
   */
  datatype Past = Past(
    cause: Cause, callFailed: bool, callCanceled: bool, asked: bool, turned: bool, took: bool, interrupt: Option<bool>)

  function NewPast(cause: Cause): Past {
    Past(cause, false, false, false, false, false, None)
  }

  predicate IsOpenRequest(a: Active) {
    a.stopRequested && !a.stopHandled
  }

  /** The cause an action starts goroutine t with, if it starts it. */
  function CauseOf(a: Action, t: nat): Cause {
    match a
    case Enqueue(u, _) => if u == t then Launching else Nothing
    case CallStop(u, _) => if u == t then Stopping else Nothing
    case CallSteer(u, _) => if u == t then Steering else Nothing
    case TurnStarted(u, _, _) => if u == t then TurnBegan else Nothing
    case TurnCompleted(u, _, _, status) => if u == t then TurnEnded(status) else Nothing
    case FailActiveRuns(u) => if u == t then FailingAll else Nothing
    case _ => Nothing
  }

  /** What a call adds to the past of the goroutine that made it. */
  function Remember(p: Past, pc: Pc, reply: Reply, a: Active): Past {
    if (pc.Open? || pc.OpenTurn?) && reply.CallFailed?
    then p.(callFailed := true, callCanceled := reply.canceled, asked := a.stopRequested)
    else if pc.OpenTurn? then p.(turned := reply.id != NO_ID)
    else if pc.TakeStop1? || pc.TakeStop2? || pc.StopTake? then p.(took := IsOpenRequest(a))
    else if pc.Interrupt? then p.(interrupt := Some(reply.CallFailed?))
    else p
  }

  function Recall(p: Past, s: Sys, a: Action, t: nat): Past {
    if !CauseOf(a, t).Nothing? then NewPast(CauseOf(a, t))
    else if a.Run? && a.t == t && t in s.threads && s.threads[t].run in s.rt
    then Remember(p, s.threads[t].pc, a.reply, s.rt[s.threads[t].run])
    else p
  }

  ghost function PastOf(states: seq<Sys>, actions: seq<Action>, i: nat, t: nat): Past
    requires i < |states| && |states| == |actions| + 1
  {
    if i == 0 then NewPast(Nothing)
    else Recall(PastOf(states, actions, i - 1, t), states[i - 1], actions[i - 1], t)
  }

  /** The status a goroutine with this past may bring to a run with this record. */
  predicate Brings(p: Past, a: Active, status: Status) {
    match p.cause
    case TurnEnded(st) => status == st
    case FailingAll => status == Failed
    case Stopping =>
      (p.interrupt.Some? <==> p.took) && status == if p.interrupt == Some(true) then Failed else Canceled
    case Launching =>
      if p.took && p.turned then p.interrupt.Some? && status == if p.interrupt.value then Failed else Canceled
      else if p.took then p.interrupt.None? && status == Canceled
      else if p.callFailed then
        && (status == Canceled || status == Failed)
        && (p.callCanceled || p.asked ==> status == Canceled)
        && (status == Canceled ==> p.callCanceled || a.stopRequested)
      else status == Failed
    case _ => false
  }

  // ---- Where a goroutine can be, given its past --------------------------------------------

  ghost predicate FinishesWith(p: Past, a: Active, pc: Pc) {
    IsFinalizing(pc) || (pc.Finish? && Brings(p, a, pc.status))
  }

  ghost predicate Launches(p: Past, a: Active, pc: Pc) {
    || FinishesWith(p, a, pc)
    || (&& p.interrupt.None?
        && (|| (pc.LaunchError? && p.callFailed && p.callCanceled == pc.canceled && (p.asked ==> a.stopRequested) && !p.took && !p.turned)
            || (pc.Interrupt? && !p.callFailed && p.took && p.turned)
            || (IsLaunchPc(pc) && !pc.LaunchError? && !p.callFailed && !p.took && p.turned == HasTurned(pc))
            || (IsSetTurnPc(pc) && pc.andThen.ToLaunch? && !p.callFailed && !p.took && p.turned)))
  }

  predicate HasTurned(pc: Pc) {
    pc.TurnSet? || pc.StartRun2? || pc.SetState2? || pc.TakeStop2?
  }

  ghost predicate Stops(p: Past, a: Active, pc: Pc) {
    FinishesWith(p, a, pc) || (IsStopPc(pc) && p.interrupt.None? && (p.took <==> pc.StartInterrupt? || pc.Interrupt?))
  }

  /** A goroutine with a run is where its past leads. */
  ghost predicate Fits(p: Past, a: Active, pc: Pc) {
    match p.cause
    case Launching => Launches(p, a, pc)
    case Stopping => Stops(p, a, pc)
    case Steering => IsSteerPc(pc) || (IsSetTurnPc(pc) && pc.andThen.ToExit?)
    case TurnBegan => IsSetTurnPc(pc) && pc.andThen.ToExit?
    case TurnEnded(st) => FinishesWith(p, a, pc) || (IsSetTurnPc(pc) && pc.andThen == ToFinish(st))
    case FailingAll => FinishesWith(p, a, pc)
    case Nothing => false
  }

  /** A goroutine without a run is where its past leads. */
  ghost predicate FitsFree(p: Past, pc: Pc) {
    match p.cause
    case Stopping => ((pc.Available? || pc.Lookup?) && !pc.steer) && p.interrupt.None? && !p.took
    case Steering => (pc.Available? || pc.Lookup?) && pc.steer
    case FailingAll => pc.FailNext?
    case _ => false
  }

  ghost predicate ThreadFits(p: Past, rt: map<Id, Active>, t: nat, th: Thread) {
    && (th.failing <==> p.cause.FailingAll?)
    && if HasNoRun(th.pc) then FitsFree(p, th.pc) else th.run in rt && Fits(p, rt[th.run], th.pc)
  }

  // ---- One step ------------------------------------------------------------------------------

  lemma OthersFit(p: Past, a: Active, a': Active, t: nat, pc: Pc)
    requires Fits(p, a, pc) && Evolves(a, a', t)
    ensures Fits(p, a', pc)
  {
  }

  lemma LaunchFits(v: View, pc: Pc, reply: Reply, p: Past)
    requires p.cause.Launching? && Launches(p, v.a, pc) && Knows(v.a, v.self, pc, v.closed) && IsLaunchPc(pc)
    ensures var (v', next) := LaunchStep(v, pc, reply);
            next.Goto? ==> Launches(Remember(p, pc, reply, v.a), v'.a, next.pc)
  {
    hide StartRun;
  }

  lemma LaunchTailFits(v: View, pc: Pc, reply: Reply, p: Past)
    requires p.cause.Launching? && Launches(p, v.a, pc) && Knows(v.a, v.self, pc, v.closed) && !IsLaunchPc(pc)
    ensures var (v', next) := RunStep(v, pc, reply);
            next.Goto? ==> Launches(Remember(p, pc, reply, v.a), v'.a, next.pc)
  {
  }

  lemma StopFits(v: View, pc: Pc, reply: Reply, p: Past)
    requires p.cause.Stopping? && Stops(p, v.a, pc) && !FinishesWith(p, v.a, pc)
    ensures var (v', next) := RunStep(v, pc, reply);
            next.Goto? ==> Stops(Remember(p, pc, reply, v.a), v'.a, next.pc)
  {
    hide LaunchStep, SetTurnStep, SteerStep, FinishStep;
  }

  lemma FinishFits(v: View, pc: Pc, reply: Reply, p: Past)
    requires FinishesWith(p, v.a, pc)
    ensures var (v', next) := RunStep(v, pc, reply);
            && Remember(p, pc, reply, v.a) == p
            && (next.Goto? ==> FinishesWith(p, v'.a, next.pc))
  {
    hide LaunchStep, SetTurnStep, StopStep, SteerStep, FinishRun, Unregister, Brings;
  }

  lemma FinishersFit(p: Past, a: Active, next: Next)
    requires next.Goto? ==> FinishesWith(p, a, next.pc)
    requires p.cause.Stopping? || p.cause.TurnEnded? || p.cause.FailingAll? || next.Return? || IsFinalizing(next.pc)
    ensures next.Goto? && !p.cause.Steering? && !p.cause.TurnBegan? && !p.cause.Nothing? ==> Fits(p, a, next.pc)
  {
  }

  lemma RestFits(v: View, pc: Pc, reply: Reply, p: Past)
    requires !p.cause.Stopping? && !p.cause.Launching? && Fits(p, v.a, pc) && !FinishesWith(p, v.a, pc)
    ensures var (v', next) := RunStep(v, pc, reply);
            next.Goto? ==> Fits(Remember(p, pc, reply, v.a), v'.a, next.pc)
  {
    hide LaunchStep, StopStep, FinishStep;
  }

  lemma OwnFits(v: View, pc: Pc, reply: Reply, p: Past)
    requires Fits(p, v.a, pc) && Knows(v.a, v.self, pc, v.closed)
    ensures var (v', next) := RunStep(v, pc, reply);
            next.Goto? ==> Fits(Remember(p, pc, reply, v.a), v'.a, next.pc)
  {
    hide RunStep, Knows, Launches, Stops, LaunchStep;
    if p.cause.Launching? && IsLaunchPc(pc) {
      RunStepLaunches(v, pc, reply);
      LaunchFits(v, pc, reply, p);
    } else if p.cause.Launching? {
      LaunchTailFits(v, pc, reply, p);
    } else if FinishesWith(p, v.a, pc) {
      FinishFits(v, pc, reply, p);
      FinishersFit(p, RunStep(v, pc, reply).0.a, RunStep(v, pc, reply).1);
    } else if p.cause.Stopping? {
      StopFits(v, pc, reply, p);
    } else {
      RestFits(v, pc, reply, p);
    }
  }

  lemma RunStepLaunches(v: View, pc: Pc, reply: Reply)
    requires IsLaunchPc(pc)
    ensures RunStep(v, pc, reply) == LaunchStep(v, pc, reply)
  {
  }

  // ---- All steps -----------------------------------------------------------------------------

  lemma KnownRuns(s: Sys, t: nat)
    requires Inv(s) && t in s.threads
    ensures s.threads[t].todo <= s.rt.Keys && forall k :: k in s.ix.byTask ==> s.ix.byTask[k] in s.rt
  {
    hide Consistent, RecordsOk, OwedOk, LogOk, RouterOk;
    assert ThreadOk(s.rt, t, s.threads[t]);
  }

  lemma FailNextFits(s: Sys, t: nat, reply: Reply, p: Past)
    requires t in s.threads && s.threads[t].pc.FailNext? && ThreadFits(p, s.rt, t, s.threads[t]) && s.threads[t].todo <= s.rt.Keys
    ensures t in FailStep(s, t, reply).threads ==> ThreadFits(p, s.rt, t, FailStep(s, t, reply).threads[t])
  {
  }

  lemma LookupFits(s: Sys, t: nat, p: Past)
    requires t in s.threads && (s.threads[t].pc.Available? || s.threads[t].pc.Lookup?) && ThreadFits(p, s.rt, t, s.threads[t])
    requires forall k :: k in s.ix.byTask ==> s.ix.byTask[k] in s.rt
    ensures t in LookupStep(s, t).threads ==> ThreadFits(p, s.rt, t, LookupStep(s, t).threads[t])
  {
  }

  lemma FreeFits(s: Sys, t: nat, reply: Reply, p: Past)
    requires Inv(s) && t in s.threads && HasNoRun(s.threads[t].pc) && ThreadFits(p, s.rt, t, s.threads[t])
    ensures var s' := ThreadStep(s, t, reply);
            t in s'.threads ==> ThreadFits(p, s'.rt, t, s'.threads[t])
  {
    hide Inv, RunStep, FailStep, LookupStep, ThreadFits;
    KnownRuns(s, t);
    FreeStep(s, t, reply);
    if s.threads[t].pc.FailNext? {
      FailNextFits(s, t, reply, p);
    } else {
      LookupFits(s, t, p);
    }
  }

  lemma OwnThreadFits(s: Sys, t: nat, reply: Reply, p: Past)
    requires Inv(s) && t in s.threads && !HasNoRun(s.threads[t].pc) && ThreadFits(p, s.rt, t, s.threads[t])
    ensures var (s', r) := (ThreadStep(s, t, reply), s.threads[t].run);
            r in s.rt
            && (t in s'.threads ==>
                  ThreadFits(Remember(p, s.threads[t].pc, reply, s.rt[r]), s'.rt, t, s'.threads[t]))
  {
    hide Inv, RunStep, Knows, RecordOk, KeepsBargain, ThreadStep, Fits;
    var (r, pc) := (s.threads[t].run, s.threads[t].pc);
    OwnStep(s, t, reply);
    var v := View(r, t, s.closed, s.rt[r], s.db, s.ix);
    var (v', next) := RunStep(v, pc, reply);
    OwnFits(v, pc, reply, p);
    NextHasRun(s.rt[r], v'.a, t, pc, next, s.closed);
  }

  lemma OtherThreadFits(s: Sys, a: Action, u: nat, p: Past)
    requires Inv(s) && Enabled(s, a) && !a.Crash? && u in s.threads && Actor(a) != Some(u) && ThreadFits(p, s.rt, u, s.threads[u])
    ensures u in Step(s, a).threads && ThreadFits(p, Step(s, a).rt, u, Step(s, a).threads[u])
  {
    hide Inv, Step, Fits, FitsFree, ThreadStep, RunStep, Evolves, Knows, RecordOk, KeepsBargain;
    var th := s.threads[u];
    StepLeavesOthers(s, a, u);
    if !HasNoRun(th.pc) {
      StepEvolves(s, a, th.run);
      if a.Run? {
        OthersFit(p, s.rt[th.run], Step(s, a).rt[th.run], a.t, th.pc);
      }
    }
  }

  ghost predicate StartsRight(s: Sys, a: Action, t: nat)
    requires Enabled(s, a)
  {
    t in Step(s, a).threads ==>
      && !CauseOf(a, t).Nothing?
      && ThreadFits(NewPast(CauseOf(a, t)), Step(s, a).rt, t, Step(s, a).threads[t])
  }

  lemma NotificationFits(s: Sys, t: nat, thread: Id, turn: Id, andThen: Then, p: Past)
    requires t !in s.threads && t in Notification(s, t, thread, turn, andThen).threads
    requires ActiveFor(s.ix, thread, turn).Some? ==> ActiveFor(s.ix, thread, turn).value in s.rt
    requires (andThen.ToExit? && p.cause == TurnBegan) || (andThen.ToFinish? && p.cause == TurnEnded(andThen.status))
    ensures var s' := Notification(s, t, thread, turn, andThen); ThreadFits(p, s'.rt, t, s'.threads[t])
  {
    hide ActiveFor;
  }

  lemma NotifiedThreadFits(s: Sys, a: Action, t: nat)
    requires Inv(s) && Enabled(s, a) && t !in s.threads && (a.TurnStarted? || a.TurnCompleted?)
    ensures StartsRight(s, a, t)
  {
    hide Inv, Notification, ActiveFor, ThreadFits;
    NotifiedRunIsActive(s, a.thread, a.turn);
    var andThen := if a.TurnStarted? then ToExit else ToFinish(a.status);
    assert Step(s, a) == Notification(s, a.t, a.thread, a.turn, andThen);
    OnlyOneIsNotified(s, a.t, a.thread, a.turn, andThen, t);
    if t in Step(s, a).threads {
      NotificationFits(s, t, a.thread, a.turn, andThen, NewPast(CauseOf(a, t)));
    }
  }

  lemma OnlyOneIsNotified(s: Sys, u: nat, thread: Id, turn: Id, andThen: Then, t: nat)
    ensures t != u ==> (t in Notification(s, u, thread, turn, andThen).threads <==> t in s.threads)
  {
  }

  lemma NotifiedRunIsActive(s: Sys, thread: Id, turn: Id)
    requires Inv(s)
    ensures ActiveFor(s.ix, thread, turn).Some? ==> ActiveFor(s.ix, thread, turn).value in s.rt
  {
    hide Consistent, RecordsOk, ThreadsOk, OwedOk, LogOk, RouterOk, ActiveFor;
    if ActiveFor(s.ix, thread, turn).Some? {
      ActiveForIsKnown(s.rt, s.ix, thread, turn);
    }
  }

  lemma CalledThreadFits(s: Sys, a: Action, t: nat)
    requires Enabled(s, a) && t !in s.threads && (a.CallStop? || a.CallSteer? || a.FailActiveRuns?)
    ensures StartsRight(s, a, t)
  {
  }

  lemma LaunchedThreadFits(s: Sys, a: Action, t: nat)
    requires Enabled(s, a) && t !in s.threads && a.Enqueue?
    ensures StartsRight(s, a, t)
  {
  }

  lemma NoThreadIsNew(s: Sys, a: Action, t: nat)
    requires Enabled(s, a) && t !in s.threads
    requires !a.Run? && !a.TurnStarted? && !a.TurnCompleted? && !a.CallStop? && !a.CallSteer? && !a.FailActiveRuns? && !a.Enqueue?
    ensures t !in Step(s, a).threads
  {
    hide AdmitNewTask, AttachThread, AdmitResumeRun, AdmitRestart, FinishRun, RecoverRunning, HasActiveTask;
  }

  lemma NewThreadFits(s: Sys, a: Action, t: nat)
    requires Inv(s) && Enabled(s, a) && t !in s.threads
    ensures StartsRight(s, a, t)
  {
    hide Inv, ThreadStep, Step, ThreadFits;
    if a.Run? {
      RunSteps(s, a.t, a.reply);
      RunLeavesOthers(s, a.t, a.reply, t);
    } else if a.TurnStarted? || a.TurnCompleted? {
      NotifiedThreadFits(s, a, t);
    } else if a.CallStop? || a.CallSteer? || a.FailActiveRuns? {
      CalledThreadFits(s, a, t);
    } else if a.Enqueue? {
      LaunchedThreadFits(s, a, t);
    } else {
      NoThreadIsNew(s, a, t);
    }
  }

  lemma {:induction false} ReachableFits(states: seq<Sys>, actions: seq<Action>, i: nat, t: nat)
    requires IsRun(states, actions) && i < |states| && t in states[i].threads
    ensures ThreadFits(PastOf(states, actions, i, t), states[i].rt, t, states[i].threads[t])
  {
    hide Inv, Step, ThreadFits, ThreadStep;
    if i > 0 {
      var (s, a) := (states[i - 1], actions[i - 1]);
      assert Enabled(s, a) && states[i] == Step(s, a);
      ReachableInv(states, actions, i - 1);
      if t !in s.threads {
        NewThreadFits(s, a, t);
      } else {
        ReachableFits(states, actions, i - 1, t);
        OldThreadsHaveNoNewCause(s, a, t);
        if Actor(a) == Some(t) {
          RunSteps(s, t, a.reply);
          if HasNoRun(s.threads[t].pc) {
            FreeFits(s, t, a.reply, PastOf(states, actions, i - 1, t));
          } else {
            OwnThreadFits(s, t, a.reply, PastOf(states, actions, i - 1, t));
          }
        } else {
          OtherThreadFits(s, a, t, PastOf(states, actions, i - 1, t));
        }
      }
    }
  }

  lemma OldThreadsHaveNoNewCause(s: Sys, a: Action, t: nat)
    requires Enabled(s, a) && t in s.threads && t in Step(s, a).threads
    ensures CauseOf(a, t).Nothing? && !a.Crash?
  {
  }

  // ---- The status of a run ---------------------------------------------------------------------

  /** Action k is the one by which goroutine t makes run r terminal. */
  ghost predicate WinsAt(states: seq<Sys>, actions: seq<Action>, k: nat, t: nat, r: Id) {
    && k < |actions| && k + 1 < |states| && actions[k].Run? && actions[k].t == t && t in states[k].threads
    && r in states[k].rt && !states[k].rt[r].terminal && IsOver(states[k + 1], r)
  }

  lemma WinnerFinishes(v: View, pc: Pc, reply: Reply)
    requires !v.a.terminal
    ensures var a' := RunStep(v, pc, reply).0.a; a'.terminal ==> pc.Finish? && a'.verdict == pc.status && a'.winner == Some(v.self)
  {
    hide LaunchStep, FinishRun, Unregister;
    LaunchNeverFinishes(v, pc, reply);
  }

  lemma LaunchNeverFinishes(v: View, pc: Pc, reply: Reply)
    ensures LaunchStep(v, pc, reply).0.a.terminal == v.a.terminal
  {
    hide StartRun;
  }

  /**
   The status a run ends with is the one its winner was started or led to finish
   with: that of the turn/completed notification, failed after the loss of the
   app-server, canceled for a stop unless Interrupt failed, and Interrupt is called
   exactly by a goroutine that took the request; for a launch that took it, canceled
   before its turn was started and by Interrupt after that; else canceled if a call
   of its was canceled or failed after a stop was requested, and failed otherwise.
   */
  lemma WinnerBringsItsStatus(states: seq<Sys>, actions: seq<Action>, k: nat, t: nat, r: Id)
    requires IsRun(states, actions) && WinsAt(states, actions, k, t, r)
    ensures var a' := states[k + 1].rt[r];
            a'.winner == Some(t) && IsTerminal(a'.verdict) && Brings(PastOf(states, actions, k, t), states[k].rt[r], a'.verdict)
  {
    hide Inv, Step, RunStep, ThreadStep, Knows, RecordOk, KeepsBargain, Evolves;
    var (s, reply) := (states[k], actions[k].reply);
    assert states[k + 1] == Step(s, actions[k]) && Enabled(s, actions[k]);
    ReachableInv(states, actions, k);
    RunSteps(s, t, reply);
    StepEvolves(s, actions[k], r);
    var pc := s.threads[t].pc;
    OwnStep(s, t, reply);
    WinnerFinishes(View(r, t, s.closed, s.rt[r], s.db, s.ix), pc, reply);
    ReachableFits(states, actions, k, t);
    StatusIsTerminal(s.rt[r], t, pc, s.closed);
  }

  lemma StatusIsTerminal(a: Active, t: nat, pc: Pc, closed: bool)
    requires Knows(a, t, pc, closed) && pc.Finish?
    ensures IsTerminal(pc.status)
  {
  }

  /** Every terminal run was won by some goroutine in this process, and its verdict is still the one it won with. */
  lemma {:induction false} EveryVerdictWasWon(states: seq<Sys>, actions: seq<Action>, i: nat, r: Id) returns (k: nat, t: nat)
    requires IsRun(states, actions) && i < |states| && IsOver(states[i], r)
    ensures k < i && NoCrash(actions, k, i) && WinsAt(states, actions, k, t, r)
    ensures states[i].rt[r].verdict == states[k + 1].rt[r].verdict && states[i].rt[r].winner == Some(t)
  {
    hide Inv, Step, ThreadStep, Evolves;
    var (s, a) := (states[i - 1], actions[i - 1]);
    assert Enabled(s, a) && states[i] == Step(s, a);
    ReachableInv(states, actions, i - 1);
    NewRecordsAreOpen(s, a, r);
    StepEvolves(s, a, r);
    if s.rt[r].terminal {
      k, t := EveryVerdictWasWon(states, actions, i - 1, r);
      if a.Run? { EvolvesIsLater(s.rt[r], states[i].rt[r], a.t); }
    } else {
      k, t := i - 1, a.t;
      WinnerBringsItsStatus(states, actions, k, t, r);
    }
  }

  lemma NewRecordsAreOpen(s: Sys, a: Action, r: Id)
    requires Inv(s) && Enabled(s, a) && IsOver(Step(s, a), r)
    ensures r in s.rt && !a.Crash?
  {
    if a.Run? {
      hide Inv, ThreadStep, RunStep, Knows, RecordOk, KeepsBargain;
      RunSteps(s, a.t, a.reply);
      if HasNoRun(s.threads[a.t].pc) {
        FreeStep(s, a.t, a.reply);
      } else {
        OwnStep(s, a.t, a.reply);
      }
    } else {
      hide Inv, AdmitNewTask, AttachThread, AdmitResumeRun, AdmitRestart, FinishRun, RecoverRunning, HasActiveTask, ActiveFor;
    }
  }

  /** The cause of a goroutine is that of the action that started it, as long as it runs. */
  lemma {:induction false} CauseStays(states: seq<Sys>, actions: seq<Action>, a: nat, k: nat, t: nat)
    requires IsRun(states, actions) && a < k < |states| && !CauseOf(actions[a], t).Nothing? && RunsFrom(states, a, k, t)
    ensures PastOf(states, actions, k, t).cause == CauseOf(actions[a], t)
  {
    hide Recall, Step;
    RecallsCause(PastOf(states, actions, k - 1, t), states[k - 1], actions[k - 1], t);
    if k > a + 1 {
      CauseStays(states, actions, a, k - 1, t);
      assert states[k] == Step(states[k - 1], actions[k - 1]) && Enabled(states[k - 1], actions[k - 1]);
      OldThreadsHaveNoNewCause(states[k - 1], actions[k - 1], t);
    }
  }

  lemma RecallsCause(p: Past, s: Sys, a: Action, t: nat)
    ensures Recall(p, s, a, t).cause == if CauseOf(a, t).Nothing? then p.cause else CauseOf(a, t)
  {
  }

  /**
   A turn that completed decides: when the goroutine of a turn/completed notification
   wins a run, the run ends with the status of the notification, and so it is stored.
   */
  lemma CompletedTurnDecidesTheStatus(states: seq<Sys>, actions: seq<Action>, a: nat, k: nat, i: nat, t: nat, thread: Id, turn: Id, status: Status, r: Id)
    requires IsRun(states, actions) && a < k < |actions| && actions[a] == TurnCompleted(t, thread, turn, status)
    requires WinsAt(states, actions, k, t, r) && RunsFrom(states, a, k, t)
    requires k < i < |states| && NoCrash(actions, k, i)
    ensures r in states[i].rt && states[i].rt[r].verdict == status
    ensures r in states[i].db.runs && (states[i].rt[r].commits != [] ==> states[i].db.runs[r].status == status)
  {
    hide Inv, Step, PastOf;
    CauseStays(states, actions, a, k, t);
    WinnerBringsItsStatus(states, actions, k, t, r);
    RecordsStay(states, actions, k + 1, i, r);
    ReachableInv(states, actions, i);
    RecordFromInv(states[i], r);
  }

  lemma RecordFromInv(s: Sys, r: Id)
    requires Inv(s) && r in s.rt
    ensures RecordOk(s.db, r, s.rt[r])
  {
  }
}
