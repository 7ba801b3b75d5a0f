/**
 What holds in every reachable state of `Lifecycle`.  The invariant is stated
 goroutine by goroutine: `PcOk` says what a goroutine knows about its run at each
 program counter, `Evolves` what every other goroutine leaves alone.
 */
module LifecycleInvariant {
  import opened Tables
  import opened Lifecycle

  // ---- What a goroutine knows ---------------------------------------------------

  ghost predicate ThenOk(a: Active, t: nat, andThen: Then) {
    match andThen
    case ToLaunch(thread) => a.launcher == t && thread != NO_ID && a.thread == thread
    case ToFinish(status) => IsTerminal(status)
    case ToExit => true
  }

  ghost predicate PcOk(a: Active, t: nat, pc: Pc) {
    match pc
    case Open => a.launcher == t && a.thread == NO_ID
    case LaunchError(_) => a.launcher == t
    case Opened(thread) => a.launcher == t && thread != NO_ID && a.thread == NO_ID
    case SetThread(thread) => a.launcher == t && thread != NO_ID && a.thread == NO_ID
    case IndexThread(thread) => a.launcher == t && thread != NO_ID && a.thread == thread
    case ThreadSet(thread) => a.launcher == t && thread != NO_ID && (a.terminal || a.thread == thread)
    case StartRun1(thread) => a.launcher == t && thread != NO_ID && a.thread == thread
    case SetState1(thread, _) => a.launcher == t && thread != NO_ID && a.thread == thread
    case TakeStop1(thread) => a.launcher == t && thread != NO_ID && a.thread == thread
    case OpenTurn(thread) => a.launcher == t && thread != NO_ID && a.thread == thread
    case TurnSet(thread, turn) => a.launcher == t && turn != NO_ID && a.thread == thread && (a.terminal || a.turn != NO_ID)
    case StartRun2(thread, turn) => a.launcher == t && turn != NO_ID && a.thread == thread && a.turn != NO_ID
    case SetState2(thread, turn, _) => a.launcher == t && turn != NO_ID && a.thread == thread && a.turn != NO_ID
    case TakeStop2(thread, turn) => a.launcher == t && turn != NO_ID && a.thread == thread && a.turn != NO_ID
    case ReadIds(turn, andThen) => turn != NO_ID && a.thread != NO_ID && ThenOk(a, t, andThen)
    case PutTurn(thread, turn, andThen) => turn != NO_ID && thread != NO_ID && a.thread == thread && ThenOk(a, t, andThen)
    case IndexTurn(thread, turn, andThen) =>
      turn != NO_ID && thread != NO_ID && a.thread == thread && a.turn != NO_ID && ThenOk(a, t, andThen)
    case StopIds => a.stopRequested
    case StopTake => a.stopRequested
    case StartCancel => a.stopRequested
    case StartInterrupt => a.stopRequested && a.stopHandled && a.taker == Some(t) && a.interrupts == 0
    case Interrupt => a.stopRequested && a.stopHandled && a.taker == Some(t) && a.interrupts == 0
    case SteerCall => a.thread != NO_ID
    case Finish(status) => IsTerminal(status)
    case FinishIds => a.terminal && a.winner == Some(t) && a.commits == [] && !a.gone
    case Persist(thread, turn) =>
      a.terminal && a.winner == Some(t) && a.commits == [] && !a.gone && thread == EffectiveThread(a) && turn == a.turn
    case Unregistering => a.terminal && a.winner == Some(t) && a.commits != [] && !a.gone
    case _ => true
  }

  /** What a step of goroutine `t` leaves alone in the record of a run. */
  ghost predicate Evolves(a: Active, a': Active, t: nat) {
    && a'.task == a.task && a'.key == a.key && a'.launcher == a.launcher
    && (a.terminal ==> a'.terminal && a'.verdict == a.verdict && a'.winner == a.winner && a'.turn == a.turn)
    && (a.terminal ==> a'.thread == a.thread)
    && (a.thread != NO_ID || a.terminal ==> EffectiveThread(a') == EffectiveThread(a))
    && (a.thread != NO_ID ==> a'.thread == a.thread)
    && (a'.thread != a.thread ==> a.launcher == t)
    && (a.turn != NO_ID ==> a'.turn != NO_ID)
    && (a.stopRequested ==> a'.stopRequested)
    && (a.stopHandled ==> a'.stopHandled && a'.taker == a.taker)
    && (a'.interrupts != a.interrupts ==> a.taker == Some(t))
    && (a'.commits != a.commits || a'.gone != a.gone ==> a.winner == Some(t))
  }

  lemma OthersKeepTheirPc(a: Active, a': Active, t: nat, other: nat, pc: Pc)
    requires Evolves(a, a', t) && other != t && PcOk(a, other, pc)
    ensures PcOk(a', other, pc)
  {
  }

  // ---- The record of a run and its rows --------------------------------------------

  /** What the record of a run says about itself. */
  ghost predicate RecordSane(a: Active) {
    && (a.commits != [] ==> a.terminal)
    && (a.terminal ==> IsTerminal(a.verdict) && a.winner.Some?)
    && (a.turn != NO_ID ==> a.thread != NO_ID)
    && (a.stopHandled ==> a.stopRequested && a.taker.Some?)
    && (a.taker.Some? ==> a.stopHandled)
    && a.interrupts <= 1 && (a.interrupts == 1 ==> a.stopHandled)
    && (a.gone ==> a.commits != [])
  }

  /** The history of a run agrees with its row: at most one commit, of the winner's status. */
  ghost predicate RowOk(db: Db, r: Id, a: Active) {
    && r in db.runs && db.runs[r].task == a.task
    && (a.commits == [] ==> IsActive(db.runs[r].status))
    && (a.commits != [] ==> a.commits == [a.verdict] && db.runs[r].status == a.verdict)
  }

  ghost predicate RecordOk(db: Db, r: Id, a: Active) {
    RecordSane(a) && RowOk(db, r, a)
  }

  ghost predicate RecordsOk(db: Db, rt: map<Id, Active>) {
    forall r :: r in rt ==> RecordOk(db, r, rt[r])
  }

  // ---- The indexes ---------------------------------------------------------------------

  ghost predicate ByRunOk(rt: map<Id, Active>, ix: Indexes) {
    && (forall r :: r in ix.byRun <==> r in rt && !rt[r].gone)
    && (forall r :: r in ix.byRun ==> ix.byRun[r] == r)
  }

  ghost predicate ByTaskOk(rt: map<Id, Active>, ix: Indexes) {
    && (forall r :: r in rt && !rt[r].gone ==> rt[r].task in ix.byTask && ix.byTask[rt[r].task] == r)
    && (forall k :: k in ix.byTask ==> ix.byTask[k] in rt && !rt[ix.byTask[k]].gone && rt[ix.byTask[k]].task == k)
  }

  ghost predicate ByThreadOk(rt: map<Id, Active>, ix: Indexes) {
    forall k :: k in ix.byThread ==>
      k != NO_ID && ix.byThread[k] in rt && !rt[ix.byThread[k]].gone && rt[ix.byThread[k]].thread == k
  }

  /** An entry of a run that is gone can only be for a turn id that was superseded. */
  ghost predicate ByTurnOk(rt: map<Id, Active>, ix: Indexes) {
    forall k :: k in ix.byTurn ==>
      k.0 != NO_ID && k.1 != NO_ID && ix.byTurn[k] in rt && rt[ix.byTurn[k]].thread == k.0
      && (rt[ix.byTurn[k]].gone ==> rt[ix.byTurn[k]].turn != k.1)
  }

  ghost predicate IndexesOk(rt: map<Id, Active>, ix: Indexes) {
    ByRunOk(rt, ix) && ByTaskOk(rt, ix) && ByThreadOk(rt, ix) && ByTurnOk(rt, ix)
  }

  // ---- The goroutines that are still owed ------------------------------------------------

  ghost predicate HasNoRun(pc: Pc) {
    pc.FailNext? || pc.Available? || pc.Lookup?
  }

  ghost predicate ThreadOk(rt: map<Id, Active>, t: nat, th: Thread) {
    && (HasNoRun(th.pc) || (th.run in rt && PcOk(rt[th.run], t, th.pc)))
    && th.todo <= rt.Keys
  }

  ghost predicate ThreadsOk(rt: map<Id, Active>, threads: map<nat, Thread>) {
    forall t :: t in threads ==> ThreadOk(rt, t, threads[t])
  }

  /** The launch goroutine before the turn id of its run is known. */
  predicate BeforeTurn(pc: Pc) {
    pc.Open? || pc.LaunchError? || pc.Opened? || pc.SetThread? || pc.IndexThread? || pc.ThreadSet? || pc.StartRun1?
    || pc.SetState1? || pc.TakeStop1? || pc.OpenTurn? || pc.Finish?
    || (pc.ReadIds? && pc.andThen.ToLaunch?) || (pc.PutTurn? && pc.andThen.ToLaunch?)
  }

  ghost predicate LaunchAlive(rt: map<Id, Active>, threads: map<nat, Thread>, r: Id)
    requires r in rt
  {
    var a := rt[r];
    !a.terminal && a.turn == NO_ID ==>
      a.launcher in threads && threads[a.launcher].run == r && BeforeTurn(threads[a.launcher].pc)
  }

  predicate IsFinalizing(pc: Pc) {
    pc.FinishIds? || pc.Persist? || pc.Unregistering?
  }

  /** While the controller is open the winner of a termination keeps at it until the run is gone. */
  ghost predicate WinnerAlive(rt: map<Id, Active>, threads: map<nat, Thread>, closed: bool, r: Id)
    requires r in rt
  {
    var a := rt[r];
    a.terminal && !a.gone && !closed ==>
      a.winner.Some? && a.winner.value in threads && threads[a.winner.value].run == r
      && IsFinalizing(threads[a.winner.value].pc)
  }

  /**
   A goroutine at `pc` will make its run terminal if a stop was requested:
   some will finish anyway, the others because they still look at the request,
   which works as long as nobody has taken it.
   */
  predicate CarriesStop(pc: Pc, handled: bool) {
    || pc.Finish? || pc.LaunchError? || pc.StartCancel? || pc.StartInterrupt? || pc.Interrupt?
    || (!handled && (pc.Open? || pc.Opened? || pc.SetThread? || pc.IndexThread? || pc.ThreadSet? || pc.StartRun1?
                     || pc.SetState1? || pc.TakeStop1? || pc.OpenTurn? || pc.TurnSet? || pc.StartRun2? || pc.SetState2?
                     || pc.TakeStop2? || (IsSetTurnPc(pc) && pc.andThen.ToLaunch?) || pc.StopIds? || pc.StopTake?))
  }

  ghost predicate Carrier(rt: map<Id, Active>, threads: map<nat, Thread>, r: Id, t: nat) {
    r in rt && t in threads && threads[t].run == r && CarriesStop(threads[t].pc, rt[r].stopHandled)
  }

  /** An accepted stop is always in somebody's hands. */
  ghost predicate StopCarried(rt: map<Id, Active>, threads: map<nat, Thread>, closed: bool, r: Id)
    requires r in rt
  {
    rt[r].stopRequested && !rt[r].terminal && !closed ==> exists t :: Carrier(rt, threads, r, t)
  }

  ghost predicate OwedOk(rt: map<Id, Active>, threads: map<nat, Thread>, closed: bool) {
    forall r :: r in rt ==> LaunchAlive(rt, threads, r) && WinnerAlive(rt, threads, closed, r) && StopCarried(rt, threads, closed, r)
  }

  // ---- The router and the logs -----------------------------------------------------------------

  ghost predicate PlacedOk(db: Db, rt: map<Id, Active>, run: Id) {
    run in db.runs && IsActive(db.runs[run].status) && run !in rt
  }

  ghost predicate RouterOk(s: Sys) {
    match s.router
    case Free => true
    case Placed(run, task, _, _) => PlacedOk(s.db, s.rt, run) && s.db.runs[run].task == task
    case Failing(run, _, _) => PlacedOk(s.db, s.rt, run)
    case RestartAllowed(key) => !HasActiveTask(s.db)
    case RestartAdmitted(key) => !HasActiveTask(s.db) && key in s.db.dedup && key !in s.restarts
  }

  ghost predicate LogOk(s: Sys) {
    && (forall i :: 0 <= i < |s.log| ==> s.log[i].key in s.db.dedup)
    && (forall i, j :: 0 <= i < j < |s.log| ==> s.log[i].key != s.log[j].key)
    && (forall i :: 0 <= i < |s.restarts| ==> s.restarts[i] in s.db.dedup)
    && (forall i, j :: 0 <= i < j < |s.restarts| ==> s.restarts[i] != s.restarts[j])
  }

  ghost predicate DownOk(s: Sys) {
    !s.up ==> s.rt == map[] && s.threads == map[] && s.ix == NO_INDEXES && s.router == Free
  }

  ghost predicate Inv(s: Sys) {
    && Consistent(s.db)
    && RecordsOk(s.db, s.rt)
    && IndexesOk(s.rt, s.ix)
    && ThreadsOk(s.rt, s.threads)
    && OwedOk(s.rt, s.threads, s.closed)
    && RouterOk(s) && LogOk(s) && DownOk(s)
  }

  // ---- The bargain of one step -----------------------------------------------------------

  /** What the step of goroutine `t` still does for its own run. */
  ghost predicate KeepsDuties(a: Active, a': Active, t: nat, pc: Pc, next: Next, closed: bool) {
    && (!a'.terminal && a'.turn == NO_ID && a'.launcher == t ==> next.Goto? && BeforeTurn(next.pc))
    && (a'.terminal && !a'.gone && !closed && a'.winner == Some(t) ==> next.Goto? && IsFinalizing(next.pc))
    && (a'.terminal && !a.terminal ==> a'.winner == Some(t))
    && (a'.stopRequested && !a'.terminal && !closed ==>
          // it carries the request on,
          || (next.Goto? && CarriesStop(next.pc, a'.stopHandled))
          // it never carried it,
          || (a'.stopHandled == a.stopHandled && a.stopRequested && !CarriesStop(pc, a.stopHandled))
          // or it leaves it to the launch goroutine, which has yet to look
          || (a' == a && a.turn == NO_ID && !a.stopHandled && a.launcher != t))
  }

  /** What goroutine `t` may assume about its run before it steps. */
  ghost predicate Knows(a: Active, t: nat, pc: Pc, closed: bool) {
    && !HasNoRun(pc) && PcOk(a, t, pc)
    && (a.turn != NO_ID ==> a.thread != NO_ID)
    && (a.stopHandled ==> a.stopRequested && a.taker.Some?)
    && (a.taker.Some? ==> a.stopHandled)
    && (!a.stopHandled ==> a.interrupts == 0)
    && (a.terminal ==> IsTerminal(a.verdict) && a.winner.Some?)
    && (!a.terminal ==> a.commits == [] && !a.gone)
    && (!a.terminal && a.turn == NO_ID && a.launcher == t ==> BeforeTurn(pc))
    && (a.terminal && !a.gone && !closed && a.winner == Some(t) ==> IsFinalizing(pc))
  }

  ghost predicate KeepsBargain(a: Active, a': Active, t: nat, pc: Pc, next: Next, closed: bool) {
    && Evolves(a, a', t)
    && (next.Goto? ==> !HasNoRun(next.pc) && PcOk(a', t, next.pc))
    && KeepsDuties(a, a', t, pc, next, closed)
  }

  /** `launch` up to its first StartRun. */
  lemma LaunchThreadKeepsBargain(v: View, pc: Pc, reply: Reply)
    requires Knows(v.a, v.self, pc, v.closed)
    requires pc.Open? || pc.LaunchError? || pc.Opened? || pc.SetThread? || pc.IndexThread? || pc.ThreadSet?
    ensures var (v', next) := LaunchStep(v, pc, reply); KeepsBargain(v.a, v'.a, v.self, pc, next, v.closed)
  {
  }

  /** `launch` around its first StartRun. */
  lemma LaunchStartKeepsBargain(v: View, pc: Pc, reply: Reply)
    requires Knows(v.a, v.self, pc, v.closed) && (pc.StartRun1? || pc.SetState1?)
    ensures var (v', next) := LaunchStep(v, pc, reply); KeepsBargain(v.a, v'.a, v.self, pc, next, v.closed)
  {
  }

  /** `launch` up to the return of StartTurn. */
  lemma LaunchTurnKeepsBargain(v: View, pc: Pc, reply: Reply)
    requires Knows(v.a, v.self, pc, v.closed) && (pc.TakeStop1? || pc.OpenTurn?)
    ensures var (v', next) := LaunchStep(v, pc, reply); KeepsBargain(v.a, v'.a, v.self, pc, next, v.closed)
  {
  }

  /** `launch` after setTurn. */
  lemma LaunchEndKeepsBargain(v: View, pc: Pc, reply: Reply)
    requires Knows(v.a, v.self, pc, v.closed)
    requires pc.TurnSet? || pc.StartRun2? || pc.SetState2? || pc.TakeStop2?
    ensures var (v', next) := LaunchStep(v, pc, reply); KeepsBargain(v.a, v'.a, v.self, pc, next, v.closed)
  {
  }

  lemma SetTurnKeepsBargain(v: View, pc: Pc)
    requires Knows(v.a, v.self, pc, v.closed) && (pc.ReadIds? || pc.PutTurn?)
    ensures var (v', next) := SetTurnStep(v, pc); KeepsBargain(v.a, v'.a, v.self, pc, next, v.closed)
  {
  }

  lemma IndexTurnKeepsBargain(v: View, pc: Pc)
    requires Knows(v.a, v.self, pc, v.closed) && pc.IndexTurn?
    ensures var (v', next) := SetTurnStep(v, pc); KeepsBargain(v.a, v'.a, v.self, pc, next, v.closed)
  {
  }

  lemma StopRequestKeepsBargain(v: View, pc: Pc, reply: Reply)
    requires Knows(v.a, v.self, pc, v.closed) && (pc.StopCheck? || pc.RequestStop?)
    ensures var (v', next) := StopStep(v, pc, reply); KeepsBargain(v.a, v'.a, v.self, pc, next, v.closed)
  {
  }

  lemma StopDecisionKeepsBargain(v: View, pc: Pc, reply: Reply)
    requires Knows(v.a, v.self, pc, v.closed) && (pc.StopIds? || pc.StopTake?)
    ensures var (v', next) := StopStep(v, pc, reply); KeepsBargain(v.a, v'.a, v.self, pc, next, v.closed)
  {
  }

  lemma StopWorkerKeepsBargain(v: View, pc: Pc, reply: Reply)
    requires Knows(v.a, v.self, pc, v.closed)
    requires pc.StartCancel? || pc.StartInterrupt? || pc.Interrupt?
    ensures var (v', next) := StopStep(v, pc, reply); KeepsBargain(v.a, v'.a, v.self, pc, next, v.closed)
  {
  }

  lemma SteerStepKeepsBargain(v: View, pc: Pc, reply: Reply)
    requires Knows(v.a, v.self, pc, v.closed) && IsSteerPc(pc)
    ensures var (v', next) := SteerStep(v, pc, reply); KeepsBargain(v.a, v'.a, v.self, pc, next, v.closed)
  {
  }

  lemma FinishKeepsBargain(v: View, pc: Pc, reply: Reply)
    requires Knows(v.a, v.self, pc, v.closed) && (pc.Finish? || pc.FinishIds?)
    ensures var (v', next) := FinishStep(v, pc, reply); KeepsBargain(v.a, v'.a, v.self, pc, next, v.closed)
  {
  }

  lemma FinalizeKeepsBargain(v: View, pc: Pc, reply: Reply)
    requires Knows(v.a, v.self, pc, v.closed) && (pc.Persist? || pc.Unregistering?)
    ensures var (v', next) := FinishStep(v, pc, reply); KeepsBargain(v.a, v'.a, v.self, pc, next, v.closed)
  {
  }

  lemma RunStepKeepsBargain(v: View, pc: Pc, reply: Reply)
    requires Knows(v.a, v.self, pc, v.closed)
    ensures var (v', next) := RunStep(v, pc, reply); KeepsBargain(v.a, v'.a, v.self, pc, next, v.closed)
  {
    hide LaunchStep, SetTurnStep, StopStep, SteerStep, FinishStep, Knows, KeepsBargain;
    if pc.StartRun1? || pc.SetState1? {
      LaunchStartKeepsBargain(v, pc, reply);
    } else if pc.TakeStop1? || pc.OpenTurn? {
      LaunchTurnKeepsBargain(v, pc, reply);
    } else if pc.TurnSet? || pc.StartRun2? || pc.SetState2? || pc.TakeStop2? {
      LaunchEndKeepsBargain(v, pc, reply);
    } else if IsLaunchPc(pc) {
      LaunchThreadKeepsBargain(v, pc, reply);
    } else if pc.IndexTurn? {
      IndexTurnKeepsBargain(v, pc);
    } else if IsSetTurnPc(pc) {
      SetTurnKeepsBargain(v, pc);
    } else if pc.StopCheck? || pc.RequestStop? {
      StopRequestKeepsBargain(v, pc, reply);
    } else if pc.StopIds? || pc.StopTake? {
      StopDecisionKeepsBargain(v, pc, reply);
    } else if IsStopPc(pc) {
      StopWorkerKeepsBargain(v, pc, reply);
    } else if IsSteerPc(pc) {
      SteerStepKeepsBargain(v, pc, reply);
    } else if pc.Persist? || pc.Unregistering? {
      FinalizeKeepsBargain(v, pc, reply);
    } else {
      KnownPcs(v.a, v.self, pc, v.closed);
      FinishKeepsBargain(v, pc, reply);
    }
  }

  lemma KnownPcs(a: Active, t: nat, pc: Pc, closed: bool)
    requires Knows(a, t, pc, closed)
    ensures !HasNoRun(pc)
  {
  }
}
