/**
 The run lifecycle as a step system.  One atomic step is one mutex region or one
 SQL transaction of the source, one call of the app-server or one channel
 operation; every goroutine has a program counter, and any goroutine may step at
 any time.  API calls return whatever they like.
 */
module Lifecycle {
  import opened Tables

  // ---- The runtime record of a run -------------------------------------------

  /**
   `activeRun`.  The last six fields are history: who launched the run, who won
   its termination and with which status, who took its stop request, how often
   Interrupt was called and which terminal statuses were committed for it.
   */
  datatype Active = Active(
    task: Id, key: Id, storedThread: Id, thread: Id, turn: Id,
    terminal: bool, stopRequested: bool, stopHandled: bool,
    launcher: nat, winner: Option<nat>, verdict: Status, taker: Option<nat>,
    interrupts: nat, commits: seq<Status>, gone: bool)

  /** `ids`: the thread falls back to the one stored with the task. */
  function EffectiveThread(a: Active): Id {
    if a.thread == NO_ID then a.storedThread else a.thread
  }

  /** `markTerminal`, with the history of the winner. */
  function MarkTerminal(a: Active, who: nat, verdict: Status): (Active, bool) {
    if a.terminal then (a, false) else (a.(terminal := true, winner := Some(who), verdict := verdict), true)
  }

  /** `takeStopRequest`. */
  function TakeStopRequest(a: Active, who: nat): (Active, bool) {
    if !a.stopRequested || a.stopHandled then (a, false) else (a.(stopHandled := true, taker := Some(who)), true)
  }

  // ---- The four index maps ------------------------------------------------------

  datatype Indexes = Indexes(byRun: map<Id, Id>, byTask: map<Id, Id>, byThread: map<Id, Id>, byTurn: map<(Id, Id), Id>)

  const NO_INDEXES := Indexes(map[], map[], map[], map[])

  /** The indexed part of `Enqueue`. */
  function Register(ix: Indexes, run: Id, task: Id): Indexes {
    ix.(byRun := ix.byRun[run := run], byTask := ix.byTask[task := run])
  }

  /** `activeFor`: by turn first, then by thread whatever the turn. */
  function ActiveFor(ix: Indexes, thread: Id, turn: Id): Option<Id> {
    if turn != NO_ID && (thread, turn) in ix.byTurn then Some(ix.byTurn[(thread, turn)])
    else if thread in ix.byThread then Some(ix.byThread[thread])
    else None
  }

  /** `unregister`. */
  function Unregister(ix: Indexes, run: Id, task: Id, thread: Id, turn: Id): Indexes {
    Indexes(ix.byRun - {run},
            ix.byTask - {task},
            if thread != NO_ID && thread in ix.byThread && ix.byThread[thread] == run
            then ix.byThread - {thread} else ix.byThread,
            if turn != NO_ID && (thread, turn) in ix.byTurn && ix.byTurn[(thread, turn)] == run
            then ix.byTurn - {(thread, turn)} else ix.byTurn)
  }

  // ---- Goroutines ------------------------------------------------------------------

  /** What follows `setTurn` in its three callers. */
  datatype Then = ToLaunch(thread: Id) | ToFinish(status: Status) | ToExit

  datatype Pc =
    // launch
    | Open
    | LaunchError(canceled: bool)
    | Opened(thread: Id)
    | SetThread(thread: Id)
    | IndexThread(thread: Id)
    | ThreadSet(thread: Id)
    | StartRun1(thread: Id)
    | SetState1(thread: Id, stored: Id)
    | TakeStop1(thread: Id)
    | OpenTurn(thread: Id)
    | TurnSet(thread: Id, turn: Id)
    | StartRun2(thread: Id, turn: Id)
    | SetState2(thread: Id, turn: Id, stored: Id)
    | TakeStop2(thread: Id, turn: Id)
    // setTurn
    | ReadIds(turn: Id, andThen: Then)
    | PutTurn(thread: Id, turn: Id, andThen: Then)
    | IndexTurn(thread: Id, turn: Id, andThen: Then)
    // the availability check and the `byTask` lookup of Stop and Steer
    | Available(task: Id, steer: bool)
    | Lookup(task: Id, steer: bool)
    // Stop and its worker
    | StopCheck
    | RequestStop
    | StopIds
    | StopTake
    | StartCancel
    | StartInterrupt
    | Interrupt
    // Steer
    | SteerCheck
    | SteerIds
    | SteerCall
    // finish: beginFinish, finalize, persistTerminalState, unregister
    | Finish(status: Status)
    | FinishIds
    | Persist(thread: Id, turn: Id)
    | Unregistering
    // FailActiveRuns
    | FailNext

  /** `todo` is the snapshot a FailActiveRuns goroutine still walks. */
  datatype Thread = Thread(run: Id, pc: Pc, failing: bool, todo: set<Id>)

  /** The single goroutine that handles inbound events, between two of its steps. */
  datatype Router =
    | Free
    | Placed(run: Id, task: Id, key: Id, stored: Id)
    | Failing(run: Id, key: Id, stored: Id)
    | RestartAllowed(key: Id)
    | RestartAdmitted(key: Id)

  /** What each committed admission created, in order. */
  datatype Effect = TaskCreated(key: Id, task: Id, run: Id) | TaskAttached(key: Id, task: Id)
                  | RunCreated(key: Id, task: Id, run: Id) | RestartGranted(key: Id)

  datatype Sys = Sys(
    up: bool, closed: bool, unavailable: bool,
    db: Db, rt: map<Id, Active>, ix: Indexes, threads: map<nat, Thread>, router: Router,
    log: seq<Effect>, restarts: seq<Id>)

  /** How a call of the app-server or of the store ends. */
  datatype Reply = Returned(id: Id) | CallFailed(canceled: bool)

  // ---- The steps of a goroutine that owns a run ---------------------------------------

  /** What a goroutine sees, and leaves behind, in one atomic step. */
  datatype View = View(run: Id, self: nat, closed: bool, a: Active, db: Db, ix: Indexes)

  datatype Next = Goto(pc: Pc) | Return

  function Continue(turn: Id, andThen: Then): Next {
    match andThen
    case ToLaunch(thread) => Goto(TurnSet(thread, turn))
    case ToFinish(status) => Goto(Finish(status))
    case ToExit => Return
  }

  function StoreStart(v: View, thread: Id, turn: Id, reply: Reply): (View, Next) {
    var (db', started) := StartRun(v.db, v.run, thread, turn);
    if reply.CallFailed? || !started then (v, Goto(Finish(Failed)))
    else
      var stored := db'.tasks[db'.runs[v.run].task].thread;
      (v.(db := db'), Goto(if turn == NO_ID then SetState1(thread, stored) else SetState2(thread, turn, stored)))
  }

  /** `launch`. */
  function LaunchStep(v: View, pc: Pc, reply: Reply): (View, Next) {
    match pc
    case Open =>
      (v, if reply.CallFailed? then Goto(LaunchError(reply.canceled))
          else if reply.id == NO_ID then Goto(Finish(Failed))
          else Goto(Opened(reply.id)))
    case LaunchError(canceled) => (v, Goto(Finish(if canceled || v.a.stopRequested then Canceled else Failed)))
    case Opened(thread) => (v, if v.a.terminal then Return else Goto(SetThread(thread)))
    case SetThread(thread) =>
      if v.a.terminal then (v, Goto(ThreadSet(thread)))
      else (v.(a := v.a.(thread := thread)), Goto(IndexThread(thread)))
    case IndexThread(thread) =>
      (if v.a.terminal then v else v.(ix := v.ix.(byThread := v.ix.byThread[thread := v.run])), Goto(ThreadSet(thread)))
    case ThreadSet(thread) => (v, if v.a.terminal then Return else Goto(StartRun1(thread)))
    case StartRun1(thread) => StoreStart(v, thread, NO_ID, reply)
    case SetState1(thread, stored) => (v.(a := v.a.(storedThread := stored)), Goto(TakeStop1(thread)))
    case TakeStop1(thread) =>
      var (a', taken) := TakeStopRequest(v.a, v.self);
      (v.(a := a'), if taken then Goto(Finish(Canceled)) else Goto(OpenTurn(thread)))
    case OpenTurn(thread) =>
      (v, if reply.CallFailed? then Goto(LaunchError(reply.canceled))
          else if reply.id == NO_ID then Goto(Finish(Failed))
          else Goto(ReadIds(reply.id, ToLaunch(thread))))
    case TurnSet(thread, turn) => (v, if v.a.terminal then Return else Goto(StartRun2(thread, turn)))
    case StartRun2(thread, turn) => StoreStart(v, thread, turn, reply)
    case SetState2(thread, turn, stored) => (v.(a := v.a.(storedThread := stored)), Goto(TakeStop2(thread, turn)))
    case TakeStop2(thread, turn) =>
      var (a', taken) := TakeStopRequest(v.a, v.self);
      (v.(a := a'), if taken then Goto(Interrupt) else Return)
    case _ => (v, Goto(pc))
  }

  /** `setTurn`, which the launch, event and Steer goroutines share. */
  function SetTurnStep(v: View, pc: Pc): (View, Next) {
    match pc
    case ReadIds(turn, andThen) => (v, Goto(PutTurn(EffectiveThread(v.a), turn, andThen)))
    case PutTurn(thread, turn, andThen) =>
      if v.a.terminal then (v, Continue(turn, andThen))
      else (v.(a := v.a.(turn := turn)),
            if thread != NO_ID then Goto(IndexTurn(thread, turn, andThen)) else Continue(turn, andThen))
    case IndexTurn(thread, turn, andThen) =>
      (if v.a.terminal then v else v.(ix := v.ix.(byTurn := v.ix.byTurn[(thread, turn) := v.run])), Continue(turn, andThen))
    case _ => (v, Goto(pc))
  }

  /** `Stop` after its lookup, and the goroutine it starts. */
  function StopStep(v: View, pc: Pc, reply: Reply): (View, Next) {
    match pc
    case StopCheck => (v, if v.a.terminal then Return else Goto(RequestStop))
    case RequestStop => (v.(a := v.a.(stopRequested := true)), Goto(StopIds))
    case StopIds =>
      (v, if EffectiveThread(v.a) == NO_ID then Goto(StartCancel)
          else if v.a.turn == NO_ID then Return
          else Goto(StopTake))
    case StopTake =>
      var (a', taken) := TakeStopRequest(v.a, v.self);
      (v.(a := a'), if taken then Goto(StartInterrupt) else Return)
    case StartCancel => (v, if v.closed then Return else Goto(Finish(Canceled)))
    case StartInterrupt => (v, if v.closed then Return else Goto(Interrupt))
    case Interrupt =>
      (v.(a := v.a.(interrupts := v.a.interrupts + 1)), Goto(Finish(if reply.CallFailed? then Failed else Canceled)))
    case _ => (v, Goto(pc))
  }

  /** `Steer` after its lookup. */
  function SteerStep(v: View, pc: Pc, reply: Reply): (View, Next) {
    match pc
    case SteerCheck => (v, if v.a.terminal then Return else Goto(SteerIds))
    case SteerIds => (v, if EffectiveThread(v.a) == NO_ID || v.a.turn == NO_ID then Return else Goto(SteerCall))
    case SteerCall => (v, if reply.CallFailed? || reply.id == NO_ID then Return else Goto(ReadIds(reply.id, ToExit)))
    case _ => (v, Goto(pc))
  }

  function ExitCode(status: Status): int {
    if status == Succeeded then 0 else -1
  }

  /** `finish`: markTerminal, then finalize with the retries of `persistTerminalState`. */
  function FinishStep(v: View, pc: Pc, reply: Reply): (View, Next) {
    match pc
    case Finish(status) =>
      var (a', won) := MarkTerminal(v.a, v.self, status);
      (v.(a := a'), if won then Goto(FinishIds) else Return)
    case FinishIds => (v, Goto(Persist(EffectiveThread(v.a), v.a.turn)))
    case Persist(thread, turn) =>
      var (db', written) := FinishRun(v.db, v.a.key, v.run, thread, turn, v.a.verdict, ExitCode(v.a.verdict));
      if reply.CallFailed? || !written then (v, if v.closed then Return else Goto(pc))
      else (v.(db := db', a := v.a.(commits := v.a.commits + [v.a.verdict])), Goto(Unregistering))
    case Unregistering =>
      (v.(ix := Unregister(v.ix, v.run, v.a.task, EffectiveThread(v.a), v.a.turn), a := v.a.(gone := true)), Return)
    case _ => (v, Goto(pc))
  }

  predicate IsLaunchPc(pc: Pc) {
    pc.Open? || pc.LaunchError? || pc.Opened? || pc.SetThread? || pc.IndexThread? || pc.ThreadSet? || pc.StartRun1?
    || pc.SetState1? || pc.TakeStop1? || pc.OpenTurn? || pc.TurnSet? || pc.StartRun2? || pc.SetState2? || pc.TakeStop2?
  }

  predicate IsSetTurnPc(pc: Pc) {
    pc.ReadIds? || pc.PutTurn? || pc.IndexTurn?
  }

  predicate IsStopPc(pc: Pc) {
    pc.StopCheck? || pc.RequestStop? || pc.StopIds? || pc.StopTake? || pc.StartCancel? || pc.StartInterrupt? || pc.Interrupt?
  }

  predicate IsSteerPc(pc: Pc) {
    pc.SteerCheck? || pc.SteerIds? || pc.SteerCall?
  }

  function RunStep(v: View, pc: Pc, reply: Reply): (View, Next) {
    if IsLaunchPc(pc) then LaunchStep(v, pc, reply)
    else if IsSetTurnPc(pc) then SetTurnStep(v, pc)
    else if IsStopPc(pc) then StopStep(v, pc, reply)
    else if IsSteerPc(pc) then SteerStep(v, pc, reply)
    else FinishStep(v, pc, reply)
  }

  // ---- One step of goroutine t ---------------------------------------------------------

  function Move(s: Sys, t: nat, next: Next): Sys
    requires t in s.threads
  {
    var th := s.threads[t];
    match next
    case Goto(pc) => s.(threads := s.threads[t := th.(pc := pc)])
    // the loop of FailActiveRuns goes on with the rest of its snapshot
    case Return => if th.failing then s.(threads := s.threads[t := th.(pc := FailNext)]) else s.(threads := s.threads - {t})
  }

  function FailStep(s: Sys, t: nat, reply: Reply): Sys
    requires t in s.threads
  {
    var th := s.threads[t];
    if reply.Returned? && reply.id in th.todo
    then s.(threads := s.threads[t := th.(run := reply.id, pc := Finish(Failed), todo := th.todo - {reply.id})])
    else if th.todo == {} then s.(threads := s.threads - {t})
    else s
  }

  function LookupStep(s: Sys, t: nat): Sys
    requires t in s.threads
  {
    match s.threads[t].pc
    case Available(task, steer) =>
      Move(s, t, if s.closed || s.unavailable then Return else Goto(Lookup(task, steer)))
    case Lookup(task, steer) =>
      if task in s.ix.byTask
      then s.(threads := s.threads[t := s.threads[t].(run := s.ix.byTask[task], pc := if steer then SteerCheck else StopCheck)])
      else Move(s, t, Return)
    case _ => s
  }

  function ThreadStep(s: Sys, t: nat, reply: Reply): Sys
    requires t in s.threads
  {
    var (r, pc) := (s.threads[t].run, s.threads[t].pc);
    if pc.FailNext? then FailStep(s, t, reply)
    else if pc.Available? || pc.Lookup? then LookupStep(s, t)
    else if r !in s.rt then s
    else
      var (v, next) := RunStep(View(r, t, s.closed, s.rt[r], s.db, s.ix), pc, reply);
      Move(s.(rt := s.rt[r := v.a], db := v.db, ix := v.ix), t, next)
  }

  // ---- Calls and notifications that start a goroutine ----------------------------------

  function Spawn(s: Sys, t: nat, run: Id, pc: Pc): Sys {
    s.(threads := s.threads[t := Thread(run, pc, false, {})])
  }

  /** turn/started and turn/completed: `setTurn` returns at once for an empty turn id. */
  function Notification(s: Sys, t: nat, thread: Id, turn: Id, andThen: Then): Sys {
    match ActiveFor(s.ix, thread, turn)
    case None => s
    case Some(r) =>
      if turn != NO_ID then Spawn(s, t, r, ReadIds(turn, andThen))
      else if andThen.ToFinish? then Spawn(s, t, r, Finish(andThen.status))
      else s
  }

  // ---- The router --------------------------------------------------------------------------

  function Logged(s: Sys, db: Db, effect: Effect, router: Router): Sys {
    s.(db := db, log := s.log + [effect], router := router)
  }

  function RouterNewTask(s: Sys, key: Id, task: Id, run: Id, owner: Id): Sys {
    var (db', a) := AdmitNewTask(s.db, key, task, run, owner);
    if a == Admitted then Logged(s, db', TaskCreated(key, task, run), Placed(run, task, key, NO_ID)) else s
  }

  function RouterAttach(s: Sys, key: Id, task: Id, thread: Id, owner: Id): Sys {
    var (db', a) := AttachThread(s.db, key, task, thread, owner);
    if thread != NO_ID && a == Admitted then Logged(s, db', TaskAttached(key, task), Free) else s
  }

  function RouterResume(s: Sys, key: Id, run: Id, task: Id, requester: Id): Sys {
    var (db', a) := AdmitResumeRun(s.db, key, run, task, requester);
    if a == Admitted then Logged(s, db', RunCreated(key, task, run), Placed(run, task, key, db'.tasks[task].thread))
    else s.(db := db')
  }

  /** `Enqueue`, or the failure of one of the steps before it. */
  function RouterEnqueue(s: Sys, t: nat, prepared: bool): Sys
    requires s.router.Placed?
  {
    var p := s.router;
    if !prepared || s.closed || s.unavailable || p.task in s.ix.byTask
    then s.(router := Failing(p.run, p.key, p.stored))
    else
      Spawn(s.(rt := s.rt[p.run := Active(p.task, p.key, p.stored, NO_ID, NO_ID, false, false, false,
                                          t, None, Idle, None, 0, [], false)],
               ix := Register(s.ix, p.run, p.task), router := Free),
            t, p.run, Open)
  }

  /** `failQueuedRun` tries once. */
  function RouterFail(s: Sys, stored: bool): Sys
    requires s.router.Failing?
  {
    var f := s.router;
    var (db', written) := FinishRun(s.db, f.key, f.run, f.stored, NO_ID, Failed, -1);
    s.(db := if stored && written then db' else s.db, router := Free)
  }

  /** `handleRestart` up to its guard. */
  function RouterAskRestart(s: Sys, key: Id): Sys {
    if HasActiveTask(s.db) then s else s.(router := RestartAllowed(key))
  }

  function RouterAdmitRestart(s: Sys, stored: bool): Sys
    requires s.router.RestartAllowed?
  {
    var key := s.router.key;
    var (db', a) := AdmitRestart(s.db, key);
    if stored && a == Admitted then Logged(s, db', RestartGranted(key), RestartAdmitted(key))
    else s.(router := Free)
  }

  /** The Restarting card is sent, then `restart()` is invoked. */
  function RouterRestart(s: Sys, notified: bool): Sys
    requires s.router.RestartAdmitted?
  {
    s.(restarts := if notified then s.restarts + [s.router.key] else s.restarts, router := Free)
  }

  // ---- The whole system ------------------------------------------------------------------------

  datatype Action =
    | Run(t: nat, reply: Reply)
    | CallStop(t: nat, task: Id)
    | CallSteer(t: nat, task: Id)
    | TurnStarted(t: nat, thread: Id, turn: Id)
    | TurnCompleted(t: nat, thread: Id, turn: Id, status: Status)
    | FailActiveRuns(t: nat)
    | NewTask(key: Id, task: Id, run: Id, owner: Id)
    | Attach(key: Id, task: Id, thread: Id, owner: Id)
    | ResumeTask(key: Id, run: Id, task: Id, requester: Id)
    | Enqueue(t: nat, prepared: bool)
    | FailQueuedRun(stored: bool)
    | AskRestart(key: Id)
    | AdmitTheRestart(stored: bool)
    | InvokeRestart(notified: bool)
    | Close
    | LoseAppServer
    | Crash
    | Recover

  /** A goroutine's number is never reused while it runs. */
  predicate Fresh(s: Sys, t: nat) {
    t !in s.threads
  }

  predicate Enabled(s: Sys, a: Action) {
    match a
    case Run(t, _) => t in s.threads
    case CallStop(t, _) => s.up && Fresh(s, t)
    case CallSteer(t, _) => s.up && Fresh(s, t)
    case TurnStarted(t, _, _) => s.up && Fresh(s, t)
    case TurnCompleted(t, _, _, status) => s.up && Fresh(s, t) && IsTerminal(status)
    case FailActiveRuns(t) => s.up && Fresh(s, t)
    case NewTask(_, _, _, _) => s.up && s.router.Free?
    case Attach(_, _, _, _) => s.up && s.router.Free?
    case ResumeTask(_, _, _, _) => s.up && s.router.Free?
    case Enqueue(t, _) => s.router.Placed? && Fresh(s, t)
    case FailQueuedRun(_) => s.router.Failing?
    case AskRestart(_) => s.up && s.router.Free?
    case AdmitTheRestart(_) => s.router.RestartAllowed?
    case InvokeRestart(_) => s.router.RestartAdmitted?
    case Close => s.up
    case LoseAppServer => s.up
    case Crash => s.up
    case Recover => !s.up
  }

  function Step(s: Sys, a: Action): Sys
    requires Enabled(s, a)
  {
    match a
    case Run(t, reply) => ThreadStep(s, t, reply)
    case CallStop(t, task) => Spawn(s, t, NO_ID, Available(task, false))
    case CallSteer(t, task) => Spawn(s, t, NO_ID, Available(task, true))
    case TurnStarted(t, thread, turn) => Notification(s, t, thread, turn, ToExit)
    case TurnCompleted(t, thread, turn, status) => Notification(s, t, thread, turn, ToFinish(status))
    case FailActiveRuns(t) => s.(threads := s.threads[t := Thread(NO_ID, FailNext, true, s.ix.byRun.Keys)])
    case NewTask(key, task, run, owner) => RouterNewTask(s, key, task, run, owner)
    case Attach(key, task, thread, owner) => RouterAttach(s, key, task, thread, owner)
    case ResumeTask(key, run, task, requester) => RouterResume(s, key, run, task, requester)
    case Enqueue(t, prepared) => RouterEnqueue(s, t, prepared)
    case FailQueuedRun(stored) => RouterFail(s, stored)
    case AskRestart(key) => RouterAskRestart(s, key)
    case AdmitTheRestart(stored) => RouterAdmitRestart(s, stored)
    case InvokeRestart(notified) => RouterRestart(s, notified)
    case Close => s.(closed := true)
    case LoseAppServer => if s.closed then s else s.(unavailable := true)
    case Crash => Sys(false, false, false, s.db, map[], NO_INDEXES, map[], Free, s.log, s.restarts)
    case Recover => s.(up := true, db := RecoverRunning(s.db))
  }

  const START := Sys(false, false, false, EMPTY_DB, map[], NO_INDEXES, map[], Free, [], [])

  /** `states` is a run of the system: it starts from an empty database, before the first start-up. */
  ghost predicate IsRun(states: seq<Sys>, actions: seq<Action>) {
    && |states| == |actions| + 1
    && states[0] == START
    && forall i :: 0 <= i < |actions| ==> Enabled(states[i], actions[i]) && states[i + 1] == Step(states[i], actions[i])
  }
}
