/**
 What the rows of the store hold in every reachable state: threads, turns and exit
 codes, and how far a launch has come.
 */
module LifecycleRows {
  import opened Tables
  import opened Lifecycle
  import opened LifecycleInvariant
  import opened LifecycleSafety
  import opened LifecycleSteps
  import opened LifecycleFrames
  import opened LifecycleTheorems

  /** A running run has a thread, and so has its task. */
  ghost predicate RunningHasThread(db: Db, r: Id) {
    r in db.runs && db.runs[r].status == Running ==>
      db.runs[r].thread != NO_ID && db.runs[r].task in db.tasks && db.tasks[db.runs[r].task].thread != NO_ID
  }

  /** The row of a finished run has the run's thread and turn and the exit code of its status. */
  ghost predicate EndIsStored(db: Db, r: Id, a: Active) {
    a.commits != [] ==>
      && r in db.runs && db.runs[r].task in db.tasks
      && db.runs[r].exitCode == (if db.runs[r].status == Succeeded then 0 else -1)
      && (a.thread != NO_ID ==> db.runs[r].thread == a.thread && db.tasks[db.runs[r].task].thread != NO_ID)
      && (a.turn != NO_ID ==> db.runs[r].turn == a.turn)
  }

  /** The run is stored as running on its thread, unless it is finished. */
  ghost predicate Started(db: Db, r: Id, a: Active) {
    a.commits == [] ==> r in db.runs && db.runs[r].status == Running && a.thread != NO_ID && db.runs[r].thread == a.thread
  }

  ghost predicate StartedTurn(db: Db, r: Id, a: Active, turn: Id) {
    a.commits == [] ==> r in db.runs && db.runs[r].turn == turn && turn != NO_ID
  }

  predicate AfterStart(pc: Pc) {
    pc.SetState1? || pc.TakeStop1? || pc.OpenTurn? || (IsSetTurnPc(pc) && pc.andThen.ToLaunch?) || pc.TurnSet? || pc.StartRun2?
    || AfterTurn(pc)
  }

  predicate AfterTurn(pc: Pc) {
    pc.SetState2? || pc.TakeStop2?
  }

  ghost predicate LaunchIsStored(db: Db, r: Id, a: Active, pc: Pc) {
    && (AfterStart(pc) ==> Started(db, r, a))
    && (AfterTurn(pc) ==> StartedTurn(db, r, a, pc.turn) && a.turn != NO_ID)
  }

  predicate IsLaunching(pc: Pc) {
    IsLaunchPc(pc) || (IsSetTurnPc(pc) && pc.andThen.ToLaunch?) || pc.Finish? || pc.Interrupt?
  }

  /** The launch of a live run is under way, or the run is stored as running with thread and turn. */
  ghost predicate LaunchedOrLaunching(db: Db, r: Id, a: Active, threads: map<nat, Thread>) {
    a.terminal
    || (a.launcher in threads && threads[a.launcher].run == r && IsLaunching(threads[a.launcher].pc))
    || IsLaunched(db, r, a)
  }

  ghost predicate IsLaunched(db: Db, r: Id, a: Active) {
    Started(db, r, a) && a.turn != NO_ID && r in db.runs && db.runs[r].turn != NO_ID
  }

  ghost predicate RunRowsOk(s: Sys, r: Id)
    requires r in s.rt
  {
    EndIsStored(s.db, r, s.rt[r]) && LaunchedOrLaunching(s.db, r, s.rt[r], s.threads)
  }

  ghost predicate ThreadRowsOk(s: Sys, t: nat)
    requires t in s.threads
  {
    !HasNoRun(s.threads[t].pc) && s.threads[t].run in s.rt ==>
      LaunchIsStored(s.db, s.threads[t].run, s.rt[s.threads[t].run], s.threads[t].pc)
  }

  ghost predicate RowsOk(s: Sys) {
    && (forall r :: r in s.db.runs ==> RunningHasThread(s.db, r))
    && (forall r :: r in s.rt ==> RunRowsOk(s, r))
    && (forall t :: t in s.threads ==> ThreadRowsOk(s, t))
  }

  // ---- A step on its own run -------------------------------------------------------------------

  /** What the step of goroutine t may do to the row of its run. */
  ghost predicate RowStep(v: View, pc: Pc, v': View) {
    || (v'.db == v.db && v'.a.commits == v.a.commits)
    || ((pc.StartRun1? || pc.StartRun2?) && v'.a.commits == v.a.commits
        && v'.db == StartRun(v.db, v.run, pc.thread, if pc.StartRun2? then pc.turn else NO_ID).0)
    || (pc.Persist? && v'.a == v.a.(commits := v.a.commits + [v.a.verdict])
        && v'.db == FinishRun(v.db, v.a.key, v.run, pc.thread, pc.turn, v.a.verdict, if v.a.verdict == Succeeded then 0 else -1).0)
  }

  lemma RunStepIsRowStep(v: View, pc: Pc, reply: Reply)
    requires !HasNoRun(pc)
    ensures RowStep(v, pc, RunStep(v, pc, reply).0)
  {
    hide RunStep, StartRun, FinishRun, Unregister;
    RunStepShape(v, pc, reply);
    if pc.Persist? {
      PersistOnlyCommits(v, pc, reply);
    }
  }

  lemma PersistOnlyCommits(v: View, pc: Pc, reply: Reply)
    requires pc.Persist?
    ensures var v' := RunStep(v, pc, reply).0; v'.a == v.a || v'.a == v.a.(commits := v.a.commits + [v.a.verdict])
  {
  }

  /** What launch goes on with once its StartRun has been stored. */
  ghost predicate InOrder(v: View, pc: Pc, v': View, next: Next) {
    && (next.Goto? && AfterStart(next.pc) ==>
          AfterStart(pc) || (pc.StartRun1? && v'.db == StartRun(v.db, v.run, pc.thread, NO_ID).0))
    && (next.Goto? && AfterTurn(next.pc) ==>
          (AfterTurn(pc) && next.pc.turn == pc.turn)
          || (pc.StartRun2? && v'.db == StartRun(v.db, v.run, pc.thread, pc.turn).0 && next.pc.turn == pc.turn))
    && (IsLaunching(pc) && next.Goto? && !IsLaunching(next.pc) ==> v'.a.terminal)
    && (IsLaunching(pc) && next.Return? ==> v'.a.terminal || AfterTurn(pc))
  }

  lemma LaunchInOrder(v: View, pc: Pc, reply: Reply)
    requires Knows(v.a, v.self, pc, v.closed) && IsLaunchPc(pc)
    ensures var (v', next) := LaunchStep(v, pc, reply); InOrder(v, pc, v', next)
  {
    hide StartRun;
  }

  lemma RestInOrder(v: View, pc: Pc, reply: Reply)
    requires Knows(v.a, v.self, pc, v.closed) && !IsLaunchPc(pc)
    ensures var (v', next) := RunStep(v, pc, reply); InOrder(v, pc, v', next)
  {
    hide LaunchStep, StartRun, FinishRun, Unregister;
  }

  lemma StepInOrder(v: View, pc: Pc, reply: Reply)
    requires Knows(v.a, v.self, pc, v.closed)
    ensures var (v', next) := RunStep(v, pc, reply); InOrder(v, pc, v', next)
  {
    hide LaunchStep, StartRun, FinishRun, Unregister, InOrder, Knows, SetTurnStep, StopStep, SteerStep, FinishStep;
    if IsLaunchPc(pc) {
      LaunchInOrder(v, pc, reply);
    } else {
      hide RunStep;
      RestInOrder(v, pc, reply);
    }
  }

  /** The rows of the run after the step. */
  lemma OwnRows(v: View, pc: Pc, v': View, next: Next)
    requires Consistent(v.db) && RecordOk(v.db, v.run, v.a) && Knows(v.a, v.self, pc, v.closed)
    requires RowStep(v, pc, v') && Evolves(v.a, v'.a, v.self)
    requires RunningHasThread(v.db, v.run) && EndIsStored(v.db, v.run, v.a)
    ensures RunningHasThread(v'.db, v.run) && EndIsStored(v'.db, v.run, v'.a)
    ensures Started(v.db, v.run, v.a) ==> Started(v'.db, v.run, v'.a)
    ensures v'.db != v.db && v'.a.commits == v.a.commits ==> pc.StartRun1? || pc.StartRun2?
    ensures IsLaunched(v.db, v.run, v.a) ==> IsLaunched(v'.db, v.run, v'.a)
  {
    hide Consistent;
    RunHasTask(v.db, v.run);
    hide StartRun, FinishRun;
    if v'.db != v.db && pc.Persist? {
      FinishRunStores(v.db, v.a.key, v.run, pc.thread, pc.turn, v.a.verdict, if v.a.verdict == Succeeded then 0 else -1);
    } else if v'.db != v.db {
      OnlyActiveRunsStart(v.db, v.run, pc.thread, if pc.StartRun2? then pc.turn else NO_ID);
      StartRunStores(v.db, v.run, pc.thread, if pc.StartRun2? then pc.turn else NO_ID);
    }
  }

  lemma RunHasTask(db: Db, r: Id)
    requires Consistent(db) && r in db.runs
    ensures db.runs[r].task in db.tasks
  {
  }

  lemma OnlyActiveRunsStart(db: Db, run: Id, thread: Id, turn: Id)
    ensures StartRun(db, run, thread, turn).0 != db ==> run in db.runs && IsActive(db.runs[run].status)
  {
  }

  /** A launch that goes on has stored what it should by then. */
  lemma OwnLaunchRows(v: View, pc: Pc, v': View, next: Next)
    requires Consistent(v.db) && RecordOk(v.db, v.run, v.a) && Knows(v.a, v.self, pc, v.closed)
    requires RowStep(v, pc, v') && InOrder(v, pc, v', next) && KeepsBargain(v.a, v'.a, v.self, pc, next, v.closed)
    requires LaunchIsStored(v.db, v.run, v.a, pc)
    requires RunningHasThread(v.db, v.run) && EndIsStored(v.db, v.run, v.a)
    ensures next.Goto? ==> LaunchIsStored(v'.db, v.run, v'.a, next.pc)
    ensures AfterTurn(pc) ==> IsLaunched(v'.db, v.run, v'.a) || v'.a.terminal
  {
    hide Consistent, StartRun, FinishRun, KeepsDuties;
    OwnRows(v, pc, v', next);
    if (pc.StartRun1? || pc.StartRun2?) && v.a.commits == [] {
      StartRunStores(v.db, v.run, pc.thread, if pc.StartRun2? then pc.turn else NO_ID);
    }
  }

  lemma OtherLaunchRows(v: View, pc: Pc, v': View, next: Next, u: nat, other: Pc)
    requires Knows(v.a, v.self, pc, v.closed) && RowStep(v, pc, v') && Evolves(v.a, v'.a, v.self)
    requires u != v.self && PcOk(v.a, u, other) && LaunchIsStored(v.db, v.run, v.a, other)
    requires v.a.commits != [] ==> v'.a.commits != []
    ensures LaunchIsStored(v'.db, v.run, v'.a, other)
  {
    hide StartRun, FinishRun;
  }

  // ---- A step on one run, seen from the others ----------------------------------------------------

  /** The rows of run q and the threads of tasks are as before. */
  ghost predicate RowsKept(db: Db, db': Db, q: Id) {
    && (q in db.runs <==> q in db'.runs)
    && (q in db.runs ==> db'.runs[q] == db.runs[q])
    && (forall k :: k in db.tasks ==> k in db'.tasks && (db.tasks[k].thread != NO_ID ==> db'.tasks[k].thread != NO_ID))
  }

  lemma KeptRowsAreOk(db: Db, db': Db, q: Id, a: Active, pc: Pc)
    requires RowsKept(db, db', q)
    ensures RunningHasThread(db, q) ==> RunningHasThread(db', q)
    ensures EndIsStored(db, q, a) ==> EndIsStored(db', q, a)
    ensures IsLaunched(db, q, a) ==> IsLaunched(db', q, a)
    ensures LaunchIsStored(db, q, a, pc) ==> LaunchIsStored(db', q, a, pc)
  {
    hide AfterStart, AfterTurn;
  }

  lemma StepKeepsRows(db: Db, db': Db, run: Id, q: Id)
    requires StoreBargain(db, db', run) && q != run
    ensures RowsKept(db, db', q)
  {
    hide Consistent;
  }

  /** The step of goroutine t, with all that is known about it. */
  ghost predicate OwnStepFacts(s: Sys, t: nat, v: View, v': View, next: Next, s': Sys)
    requires t in s.threads
  {
    var pc := s.threads[t].pc;
    && v.run in s.rt && s.threads[t].run == v.run && v.self == t && v.a == s.rt[v.run] && v.db == s.db && v.closed == s.closed
    && Consistent(v.db) && RecordOk(v.db, v.run, v.a) && Knows(v.a, t, pc, v.closed)
    && RowStep(v, pc, v') && InOrder(v, pc, v', next) && KeepsBargain(v.a, v'.a, t, pc, next, v.closed)
    && StoreBargain(s.db, v'.db, v.run)
    && s'.db == v'.db && s'.rt == s.rt[v.run := v'.a] && Moved(s.threads, s'.threads, t, next)
  }

  lemma OwnStepKnows(s: Sys, t: nat, reply: Reply) returns (v: View, v': View, next: Next)
    requires Inv(s) && t in s.threads && !HasNoRun(s.threads[t].pc)
    ensures OwnStepFacts(s, t, v, v', next, ThreadStep(s, t, reply))
  {
    hide Inv, RunStep, Knows, RecordOk, KeepsBargain, ThreadStep, RowStep, InOrder, StoreBargain, Consistent;
    var (r, pc) := (s.threads[t].run, s.threads[t].pc);
    OwnStep(s, t, reply);
    ConsistentFromInv(s);
    v := View(r, t, s.closed, s.rt[r], s.db, s.ix);
    v', next := RunStep(v, pc, reply).0, RunStep(v, pc, reply).1;
    RunStepIsRowStep(v, pc, reply);
    StepInOrder(v, pc, reply);
    RunStepStores(s, t, reply);
  }

  lemma EvolvesFromBargain(a: Active, a': Active, t: nat, pc: Pc, next: Next, closed: bool)
    requires KeepsBargain(a, a', t, pc, next, closed)
    ensures Evolves(a, a', t) && (next.Goto? ==> !HasNoRun(next.pc))
  {
  }

  lemma OwnRunRowsOk(s: Sys, t: nat, v: View, v': View, next: Next, s': Sys)
    requires t in s.threads && OwnStepFacts(s, t, v, v', next, s')
    requires RunningHasThread(s.db, v.run) && RunRowsOk(s, v.run) && LaunchIsStored(s.db, v.run, v.a, s.threads[t].pc)
    ensures RunningHasThread(s'.db, v.run) && RunRowsOk(s', v.run)
  {
    hide RowStep, Knows, RecordOk, KeepsBargain, StoreBargain, Consistent, EndIsStored, RunningHasThread, LaunchIsStored, IsLaunched;
    var pc := s.threads[t].pc;
    EvolvesFromBargain(v.a, v'.a, t, pc, next, v.closed);
    OwnRows(v, pc, v', next);
    OwnLaunchRows(v, pc, v', next);
  }

  lemma OwnThreadRowsOk(s: Sys, t: nat, v: View, v': View, next: Next, s': Sys, u: nat)
    requires t in s.threads && OwnStepFacts(s, t, v, v', next, s') && u in s'.threads
    requires RunningHasThread(s.db, v.run) && EndIsStored(s.db, v.run, v.a) && LaunchIsStored(s.db, v.run, v.a, s.threads[t].pc)
    requires u in s.threads ==> ThreadRowsOk(s, u) && ThreadOk(s.rt, u, s.threads[u])
    ensures ThreadRowsOk(s', u)
  {
    hide RowStep, Knows, RecordOk, KeepsBargain, StoreBargain, Consistent, EndIsStored, RunningHasThread, LaunchIsStored, InOrder, PcOk, Evolves;
    var pc := s.threads[t].pc;
    EvolvesFromBargain(v.a, v'.a, t, pc, next, v.closed);
    OwnLaunchRows(v, pc, v', next);
    if u != t && !HasNoRun(s.threads[u].pc) {
      if s.threads[u].run == v.run {
        CommitsStay(v, pc, v');
        OtherLaunchRows(v, pc, v', next, u, s.threads[u].pc);
      } else {
        StepKeepsRows(s.db, s'.db, v.run, s.threads[u].run);
        KeptRowsAreOk(s.db, s'.db, s.threads[u].run, s.rt[s.threads[u].run], s.threads[u].pc);
      }
    }
  }

  lemma CommitsStay(v: View, pc: Pc, v': View)
    requires RowStep(v, pc, v')
    ensures v.a.commits != [] ==> v'.a.commits != []
  {
  }

  lemma RunKeepsRows(s: Sys, t: nat, reply: Reply)
    requires Inv(s) && RowsOk(s) && t in s.threads && !HasNoRun(s.threads[t].pc)
    ensures RowsOk(ThreadStep(s, t, reply))
  {
    hide Inv, ThreadStep, RowStep, InOrder, Knows, RecordOk, KeepsBargain, StoreBargain, Consistent, EndIsStored, RunningHasThread, LaunchIsStored, IsLaunched;
    var s' := ThreadStep(s, t, reply);
    var v, v', next := OwnStepKnows(s, t, reply);
    assert ThreadRowsOk(s, t) && RunRowsOk(s, v.run);
    RunIsStored(s, v.run);
    OwnRunRowsOk(s, t, v, v', next, s');
    forall q | q in s'.db.runs ensures RunningHasThread(s'.db, q) {
      if q != v.run {
        StepKeepsRows(s.db, s'.db, v.run, q);
        KeptRowsAreOk(s.db, s'.db, q, v.a, s.threads[t].pc);
      }
    }
    forall q | q in s'.rt ensures RunRowsOk(s', q) {
      if q != v.run {
        assert RunRowsOk(s, q);
        StepKeepsRows(s.db, s'.db, v.run, q);
        KeptRowsAreOk(s.db, s'.db, q, s.rt[q], s.threads[t].pc);
      }
    }
    forall u | u in s'.threads ensures ThreadRowsOk(s', u) {
      if u in s.threads {
        ThreadFromInv(s, u);
      }
      OwnThreadRowsOk(s, t, v, v', next, s', u);
    }
  }

  lemma RunIsStored(s: Sys, r: Id)
    requires Inv(s) && r in s.rt
    ensures r in s.db.runs
  {
    assert RecordOk(s.db, r, s.rt[r]);
  }

  lemma ThreadFromInv(s: Sys, u: nat)
    requires Inv(s) && u in s.threads
    ensures ThreadOk(s.rt, u, s.threads[u])
  {
  }

  // ---- Steps of the router and of the environment ----------------------------------------------

  /** No row of a recorded run changes, none starts, and no task loses its thread. */
  ghost predicate CalmDb(db: Db, db': Db, rt: map<Id, Active>) {
    && (forall q :: q in db.runs ==> q in db'.runs && (db'.runs[q] == db.runs[q] || (q !in rt && IsActive(db.runs[q].status) && db'.runs[q].status != Running)))
    && (forall q :: q in db'.runs && q !in db.runs ==> db'.runs[q].status != Running)
    && (forall k :: k in db.tasks ==> k in db'.tasks && (db.tasks[k].thread != NO_ID ==> db'.tasks[k].thread != NO_ID))
  }

  /** What is new begins at the beginning. */
  ghost predicate CalmRuntime(s: Sys, s': Sys) {
    && (forall q :: q in s.rt ==> q in s'.rt && s'.rt[q] == s.rt[q])
    && (forall q :: q in s'.rt && q !in s.rt ==>
          s'.rt[q].commits == [] && s'.rt[q].launcher in s'.threads && s'.threads[s'.rt[q].launcher].run == q
          && s'.threads[s'.rt[q].launcher].pc.Open?)
    && (forall u :: u in s.threads ==> u in s'.threads && s'.threads[u] == s.threads[u])
    && (forall u :: u in s'.threads && u !in s.threads ==> !AfterStart(s'.threads[u].pc))
  }

  lemma CalmKeepsRows(s: Sys, s': Sys)
    requires RowsOk(s) && CalmDb(s.db, s'.db, s.rt) && CalmRuntime(s, s')
    requires RecordsOk(s.db, s.rt) && ThreadsOk(s.rt, s.threads)
    ensures RowsOk(s')
  {
    hide EndIsStored, LaunchIsStored, IsLaunched, RecordSane, PcOk;
    forall q | q in s'.db.runs ensures RunningHasThread(s'.db, q) {
      assert q in s.db.runs ==> RunningHasThread(s.db, q);
    }
    forall q | q in s'.rt ensures RunRowsOk(s', q) {
      if q in s.rt {
        assert RecordOk(s.db, q, s.rt[q]) && RunRowsOk(s, q);
        KeptRowsAreOk(s.db, s'.db, q, s.rt[q], Open);
      } else {
        NothingStoredYet(s'.db, q, s'.rt[q]);
      }
    }
    forall u | u in s'.threads ensures ThreadRowsOk(s', u) {
      if u in s.threads {
        assert ThreadRowsOk(s, u) && ThreadOk(s.rt, u, s.threads[u]);
        var q := s.threads[u].run;
        if q in s.rt {
          assert RecordOk(s.db, q, s.rt[q]);
          KeptRowsAreOk(s.db, s'.db, q, s.rt[q], s.threads[u].pc);
        }
      } else if s'.threads[u].run in s'.rt {
        NothingLaunchedYet(s'.db, s'.threads[u].run, s'.rt[s'.threads[u].run], s'.threads[u].pc);
      }
    }
  }

  lemma NothingStoredYet(db: Db, r: Id, a: Active)
    requires a.commits == []
    ensures EndIsStored(db, r, a)
  {
  }

  lemma NothingLaunchedYet(db: Db, r: Id, a: Active, pc: Pc)
    requires !AfterStart(pc)
    ensures LaunchIsStored(db, r, a, pc)
  {
  }

  lemma CalmDbReflexive(db: Db, rt: map<Id, Active>)
    ensures CalmDb(db, db, rt)
  {
  }

  lemma NewTaskIsCalm(s: Sys, key: Id, task: Id, run: Id, owner: Id)
    ensures CalmDb(s.db, RouterNewTask(s, key, task, run, owner).db, s.rt)
  {
    AdmitNewTaskStores(s.db, key, task, run, owner);
    hide AdmitNewTask;
  }

  lemma AttachIsCalm(s: Sys, key: Id, task: Id, thread: Id, owner: Id)
    ensures CalmDb(s.db, RouterAttach(s, key, task, thread, owner).db, s.rt)
  {
  }

  lemma ResumptionIsCalm(db: Db, rt: map<Id, Active>, key: Id, run: Id, task: Id, requester: Id)
    ensures CalmDb(db, AdmitResumeRun(db, key, run, task, requester).0, rt)
  {
    AdmitResumeGrows(db, key, run, task, requester);
    var (db', a) := AdmitResumeRun(db, key, run, task, requester);
    forall q | q in db'.runs && q !in db.runs ensures db'.runs[q].status == Queued {
    }
    hide AdmitResumeRun;
  }

  lemma ResumeIsCalm(s: Sys, key: Id, run: Id, task: Id, requester: Id)
    ensures CalmDb(s.db, RouterResume(s, key, run, task, requester).db, s.rt)
  {
    ResumptionIsCalm(s.db, s.rt, key, run, task, requester);
    hide AdmitResumeRun, CalmDb;
  }

  lemma RestartIsCalm(s: Sys, stored: bool)
    requires s.router.RestartAllowed?
    ensures CalmDb(s.db, RouterAdmitRestart(s, stored).db, s.rt)
  {
  }

  lemma FailingIsCalm(s: Sys, stored: bool)
    requires Inv(s) && s.router.Failing?
    ensures CalmDb(s.db, RouterFail(s, stored).db, s.rt)
  {
    RouterFromInv(s);
    ConsistentFromInv(s);
    hide Inv, FinishRun, Consistent;
    RunHasTask(s.db, s.router.run);
    FinishRunStores(s.db, s.router.key, s.router.run, s.router.stored, NO_ID, Failed, -1);
  }

  lemma RouterIsCalm(s: Sys, a: Action)
    requires Inv(s) && Enabled(s, a) && (a.NewTask? || a.Attach? || a.ResumeTask? || a.FailQueuedRun? || a.AdmitTheRestart?)
    ensures CalmDb(s.db, Step(s, a).db, s.rt)
  {
    hide Inv, CalmDb, RouterNewTask, RouterAttach, RouterResume, RouterFail, RouterAdmitRestart;
    match a
    case NewTask(key, task, run, owner) => NewTaskIsCalm(s, key, task, run, owner);
    case Attach(key, task, thread, owner) => AttachIsCalm(s, key, task, thread, owner);
    case ResumeTask(key, run, task, requester) => ResumeIsCalm(s, key, run, task, requester);
    case AdmitTheRestart(stored) => RestartIsCalm(s, stored);
    case FailQueuedRun(stored) => FailingIsCalm(s, stored);
  }

  /** A goroutine that starts is not past its start. */
  lemma SpawnIsCalm(s: Sys, t: nat, th: Thread)
    requires t !in s.threads && !AfterStart(th.pc)
    ensures CalmRuntime(s, s.(threads := s.threads[t := th]))
  {
    hide AfterStart;
  }

  lemma NotificationIsCalm(s: Sys, t: nat, thread: Id, turn: Id, andThen: Then)
    requires t !in s.threads && !andThen.ToLaunch?
    ensures var s' := Notification(s, t, thread, turn, andThen); CalmRuntime(s, s') && s'.db == s.db
  {
    hide ActiveFor, CalmRuntime;
    SameIsCalm(s, s);
    if ActiveFor(s.ix, thread, turn).Some? {
      var r := ActiveFor(s.ix, thread, turn).value;
      SpawnIsCalm(s, t, Thread(r, ReadIds(turn, andThen), false, {}));
      if andThen.ToFinish? {
        SpawnIsCalm(s, t, Thread(r, Finish(andThen.status), false, {}));
      }
    }
  }

  lemma SameIsCalm(s: Sys, s': Sys)
    requires s'.rt == s.rt && s'.threads == s.threads
    ensures CalmRuntime(s, s')
  {
  }

  lemma EnqueueIsCalm(s: Sys, t: nat, prepared: bool)
    requires RouterOk(s) && s.router.Placed? && t !in s.threads
    ensures var s' := RouterEnqueue(s, t, prepared); CalmRuntime(s, s') && s'.db == s.db
  {
    hide Register, HasActiveTask;
  }

  lemma RouterLeavesRuntime(s: Sys, a: Action)
    requires Enabled(s, a)
    requires a.NewTask? || a.Attach? || a.ResumeTask? || a.FailQueuedRun? || a.AdmitTheRestart? || a.AskRestart? || a.InvokeRestart?
             || a.Close? || a.LoseAppServer? || a.Recover?
    ensures CalmRuntime(s, Step(s, a))
    ensures a.AskRestart? || a.InvokeRestart? || a.Close? || a.LoseAppServer? ==> Step(s, a).db == s.db
  {
    hide AdmitNewTask, AttachThread, AdmitResumeRun, AdmitRestart, FinishRun, RecoverRunning, HasActiveTask, CalmRuntime;
    SameIsCalm(s, Step(s, a));
  }

  lemma RuntimeIsCalm(s: Sys, a: Action)
    requires Inv(s) && Enabled(s, a) && !a.Run? && !a.Crash?
    ensures CalmRuntime(s, Step(s, a))
    ensures a.Recover? || a.NewTask? || a.Attach? || a.ResumeTask? || a.FailQueuedRun? || a.AdmitTheRestart? || Step(s, a).db == s.db
  {
    RouterFromInv(s);
    hide Inv, RouterOk, CalmRuntime, Notification, RouterEnqueue, RouterNewTask, RouterAttach, RouterResume, RouterFail, RouterAdmitRestart;
    match a
    case CallStop(t, task) => SpawnIsCalm(s, t, Thread(NO_ID, Available(task, false), false, {}));
    case CallSteer(t, task) => SpawnIsCalm(s, t, Thread(NO_ID, Available(task, true), false, {}));
    case FailActiveRuns(t) => SpawnIsCalm(s, t, Thread(NO_ID, FailNext, true, s.ix.byRun.Keys));
    case TurnStarted(t, thread, turn) => NotificationIsCalm(s, t, thread, turn, ToExit);
    case TurnCompleted(t, thread, turn, status) => NotificationIsCalm(s, t, thread, turn, ToFinish(status));
    case Enqueue(t, prepared) => EnqueueIsCalm(s, t, prepared);
    case _ =>
      hide Step;
      RouterLeavesRuntime(s, a);
  }

  lemma RecoveryKeepsRows(s: Sys)
    requires Inv(s) && RowsOk(s) && !s.up
    ensures RowsOk(s.(up := true, db := RecoverRunning(s.db)))
  {
    RecoveryStores(s.db);
    hide RecoverRunning, Consistent, IndexesOk;
    forall q | q in s.db.runs ensures RunningHasThread(RecoverRunning(s.db), q) {
      assert RunningHasThread(s.db, q);
    }
  }

  lemma StepKeepsRowsOk(s: Sys, a: Action)
    requires Inv(s) && RowsOk(s) && Enabled(s, a)
    ensures RowsOk(Step(s, a))
  {
    hide Inv, RowsOk, Step, ThreadStep, RecoverRunning;
    if a.Run? {
      RunSteps(s, a.t, a.reply);
      if HasNoRun(s.threads[a.t].pc) {
        FreeKeepsRows(s, a.t, a.reply);
      } else {
        RunKeepsRows(s, a.t, a.reply);
      }
    } else if a.Crash? {
      CrashKeepsRows(s);
    } else if a.Recover? {
      RecoveryIs(s);
      RecoveryKeepsRows(s);
    } else {
      hide CalmDb, CalmRuntime;
      RuntimeIsCalm(s, a);
      CalmDbReflexive(s.db, s.rt);
      if Step(s, a).db != s.db {
        RouterIsCalm(s, a);
      }
      RecordsAndThreads(s);
      CalmKeepsRows(s, Step(s, a));
    }
  }

  lemma RecordsAndThreads(s: Sys)
    requires Inv(s)
    ensures RecordsOk(s.db, s.rt) && ThreadsOk(s.rt, s.threads)
  {
  }

  lemma RecoveryIs(s: Sys)
    requires Enabled(s, Recover)
    ensures Step(s, Recover) == s.(up := true, db := RecoverRunning(s.db))
  {
  }

  lemma CrashKeepsRows(s: Sys)
    requires RowsOk(s) && Enabled(s, Crash)
    ensures RowsOk(Step(s, Crash))
  {
  }

  lemma FreeKeepsRows(s: Sys, t: nat, reply: Reply)
    requires Inv(s) && RowsOk(s) && t in s.threads && HasNoRun(s.threads[t].pc)
    ensures RowsOk(ThreadStep(s, t, reply))
  {
    hide Inv, ThreadStep, RunningHasThread, EndIsStored, IsLaunched, LaunchIsStored;
    FreeStep(s, t, reply);
    FreeStepStarts(s, t, reply);
    var s' := ThreadStep(s, t, reply);
    forall q | q in s'.rt ensures RunRowsOk(s', q) {
      assert RunRowsOk(s, q);
    }
    forall u | u in s'.threads ensures ThreadRowsOk(s', u) {
      if u != t {
        assert ThreadRowsOk(s, u);
      } else if s'.threads[t].run in s'.rt {
        NothingLaunchedYet(s'.db, s'.threads[t].run, s'.rt[s'.threads[t].run], s'.threads[t].pc);
      }
    }
  }

  lemma FreeStepStarts(s: Sys, t: nat, reply: Reply)
    requires t in s.threads && HasNoRun(s.threads[t].pc)
    ensures t in ThreadStep(s, t, reply).threads ==> !AfterStart(ThreadStep(s, t, reply).threads[t].pc)
  {
    hide RunStep;
    if s.threads[t].pc.FailNext? {
      hide LookupStep;
    } else {
      hide FailStep;
    }
  }

  lemma {:induction false} ReachableRows(states: seq<Sys>, actions: seq<Action>, i: nat)
    requires IsRun(states, actions) && i < |states|
    ensures RowsOk(states[i])
  {
    if i > 0 {
      hide RowsOk, Inv, Step;
      ReachableRows(states, actions, i - 1);
      ReachableInv(states, actions, i - 1);
      StepKeepsRowsOk(states[i - 1], actions[i - 1]);
    }
  }

  // ---- What the rows are worth -------------------------------------------------------------------

  /**
   Once a run is running, it and its task have a thread; so from then on, after any
   crash and recovery, the creator of the task can continue it.
   */
  lemma StartedTaskCanResumeAfterACrash(states: seq<Sys>, actions: seq<Action>, i: nat, j: nat, r: Id, key: Id, run: Id)
    requires IsRun(states, actions) && i <= j < |actions| && actions[j] == Recover
    requires r in states[i].db.runs && states[i].db.runs[r].status == Running
    requires key != NO_ID && key !in states[j].db.dedup && run !in states[j].db.runs
    ensures states[i].db.runs[r].thread != NO_ID
    ensures var task := states[i].db.runs[r].task;
            && task in states[i].db.tasks && states[i].db.tasks[task].thread != NO_ID
            && AdmitResumeRun(states[j + 1].db, key, run, task, states[i].db.tasks[task].owner).1 == Admitted
  {
    hide Inv, Step, AdmitResumeRun, EndIsStored, IsLaunched, LaunchIsStored;
    ReachableRows(states, actions, i);
    assert RunningHasThread(states[i].db, r);
    EveryTaskCanResumeAfterACrash(states, actions, i, j, states[i].db.runs[r].task, key, run);
  }

  /**
   A finished run is stored with the thread and the turn it ended with and with exit
   code 0 exactly if it succeeded.
   */
  lemma EndsAreStored(states: seq<Sys>, actions: seq<Action>, i: nat, s: Sys, r: Id)
    requires At(states, actions, i, s) && r in s.rt && s.rt[r].commits != []
    ensures r in s.db.runs
    ensures var row := s.db.runs[r];
            && (row.exitCode == 0 <==> row.status == Succeeded) && (row.exitCode == 0 || row.exitCode == -1)
            && (s.rt[r].thread != NO_ID ==> row.thread == s.rt[r].thread)
            && (s.rt[r].turn != NO_ID ==> row.turn == s.rt[r].turn)
  {
    hide IsLaunched, LaunchIsStored, RunningHasThread;
    ReachableRows(states, actions, i);
    assert RunRowsOk(s, r);
  }

  /** A live run whose launch is over is stored as running, on its thread and with a turn. */
  lemma LaunchedRunIsRunning(states: seq<Sys>, actions: seq<Action>, i: nat, s: Sys, r: Id)
    requires At(states, actions, i, s) && r in s.rt && !s.rt[r].terminal
    requires forall t :: AtWork(s, t, r) ==> !IsLaunching(s.threads[t].pc)
    ensures s.rt[r].thread != NO_ID && s.rt[r].turn != NO_ID && r in s.db.runs
    ensures s.db.runs[r].status == Running && s.db.runs[r].thread == s.rt[r].thread && s.db.runs[r].turn != NO_ID
  {
    hide Inv, Step, IsRun, LaunchIsStored, RunningHasThread, EndIsStored, IsLaunching, HasNoRun;
    ReachableFacts(states, actions, i);
    RecordFromRows(s, r);
    assert RunRowsOk(s, r);
    var t := s.rt[r].launcher;
    LaunchersHaveRuns();
    assert t in s.threads && s.threads[t].run == r && IsLaunching(s.threads[t].pc) ==> AtWork(s, t, r);
  }

  lemma ReachableFacts(states: seq<Sys>, actions: seq<Action>, i: nat)
    requires IsRun(states, actions) && i < |states|
    ensures Inv(states[i]) && RowsOk(states[i])
  {
    ReachableInv(states, actions, i);
    ReachableRows(states, actions, i);
  }

  lemma LaunchersHaveRuns()
    ensures forall pc :: IsLaunching(pc) ==> !HasNoRun(pc)
  {
  }

  lemma RecordFromRows(s: Sys, r: Id)
    requires Inv(s) && r in s.rt && !s.rt[r].terminal
    ensures s.rt[r].commits == []
  {
    assert RecordOk(s.db, r, s.rt[r]);
  }

  // ---- Rows that are settled ---------------------------------------------------------------------

  lemma SettledOnOwnStep(s: Sys, t: nat, reply: Reply, r: Id)
    requires Inv(s) && t in s.threads && r in s.db.runs && IsTerminal(s.db.runs[r].status)
    ensures var s' := ThreadStep(s, t, reply); r in s'.db.runs && s'.db.runs[r] == s.db.runs[r]
  {
    hide Inv, ThreadStep, RowStep, InOrder, KeepsBargain, Consistent, StartRun, FinishRun;
    if HasNoRun(s.threads[t].pc) {
      FreeStep(s, t, reply);
    } else {
      var v, v', next := OwnStepKnows(s, t, reply);
      if v.run == r {
        SettledRun(v, s.threads[t].pc, v');
      }
    }
  }

  lemma SettledRun(v: View, pc: Pc, v': View)
    requires RecordOk(v.db, v.run, v.a) && Knows(v.a, v.self, pc, v.closed) && RowStep(v, pc, v')
    requires v.run in v.db.runs && IsTerminal(v.db.runs[v.run].status)
    ensures v'.db == v.db
  {
    hide StartRun, FinishRun;
    if pc.StartRun1? || pc.StartRun2? {
      OnlyActiveRunsStart(v.db, v.run, pc.thread, if pc.StartRun2? then pc.turn else NO_ID);
    }
  }

  lemma SettledStays(s: Sys, a: Action, r: Id)
    requires Inv(s) && Enabled(s, a) && r in s.db.runs && IsTerminal(s.db.runs[r].status)
    ensures r in Step(s, a).db.runs && Step(s, a).db.runs[r] == s.db.runs[r]
  {
    hide Inv, ThreadStep, Step, CalmRuntime;
    if a.Run? {
      RunSteps(s, a.t, a.reply);
      SettledOnOwnStep(s, a.t, a.reply, r);
    } else if a.NewTask? || a.Attach? || a.ResumeTask? || a.FailQueuedRun? || a.AdmitTheRestart? {
      RouterIsCalm(s, a);
    } else if a.Recover? {
      RecoveryIs(s);
      RecoveryStores(s.db);
    } else if a.Crash? {
      CrashKeepsDb(s);
    } else {
      RuntimeIsCalm(s, a);
    }
  }

  lemma CrashKeepsDb(s: Sys)
    requires Enabled(s, Crash)
    ensures Step(s, Crash).db == s.db
  {
  }

  /** The row of a finished run never changes again, through crashes and recoveries. */
  lemma {:induction false} FinishedRowsNeverChange(states: seq<Sys>, actions: seq<Action>, i: nat, j: nat, r: Id)
    requires IsRun(states, actions) && i <= j < |states|
    requires r in states[i].db.runs && IsTerminal(states[i].db.runs[r].status)
    ensures r in states[j].db.runs && states[j].db.runs[r] == states[i].db.runs[r]
  {
    hide Inv, Step;
    if i < j {
      FinishedRowsNeverChange(states, actions, i, j - 1, r);
      ReachableInv(states, actions, j - 1);
      SettledStays(states[j - 1], actions[j - 1], r);
    }
  }

  // ---- Whose task it is ------------------------------------------------------------------------

  /** This action creates the task for this user. */
  predicate Creates(a: Action, task: Id, owner: Id) {
    || (a.NewTask? && a.task == task && a.owner == owner)
    || (a.Attach? && a.task == task && a.owner == owner)
  }

  lemma NewTasksHaveCreators(s: Sys, a: Action, task: Id)
    requires Inv(s) && Enabled(s, a) && task !in s.db.tasks && task in Step(s, a).db.tasks
    ensures Creates(a, task, Step(s, a).db.tasks[task].owner)
  {
    hide Inv, ThreadStep, CalmRuntime, StoreBargain, RouterResume, RouterFail, RouterAdmitRestart, AdmitNewTask, Notification, RouterEnqueue;
    if a.Run? {
      RunSteps(s, a.t, a.reply);
      if HasNoRun(s.threads[a.t].pc) {
        FreeStep(s, a.t, a.reply);
      } else {
        RunStepStores(s, a.t, a.reply);
        StoreKeepsTasks(s.db, ThreadStep(s, a.t, a.reply).db, s.threads[a.t].run);
      }
    } else if a.NewTask? {
      AdmitNewTaskStores(s.db, a.key, a.task, a.run, a.owner);
    } else if a.ResumeTask? {
      ResumeMakesNoTask(s, a.key, a.run, a.task, a.requester);
    } else if a.Attach? {
    } else if a.FailQueuedRun? || a.AdmitTheRestart? {
      RouterMakesNoTask(s, a);
    } else if a.Recover? {
      RecoveryIs(s);
    } else if a.Crash? {
      CrashKeepsDb(s);
    } else {
      hide Step;
      RuntimeIsCalm(s, a);
    }
  }

  lemma ResumeMakesNoTask(s: Sys, key: Id, run: Id, task: Id, requester: Id)
    ensures RouterResume(s, key, run, task, requester).db.tasks.Keys == s.db.tasks.Keys
  {
    hide AcceptsRun;
  }

  lemma RouterMakesNoTask(s: Sys, a: Action)
    requires Enabled(s, a) && (a.FailQueuedRun? || a.AdmitTheRestart?)
    ensures Step(s, a).db.tasks.Keys == s.db.tasks.Keys
  {
  }

  lemma StoreKeepsTasks(db: Db, db': Db, run: Id)
    requires StoreBargain(db, db', run)
    ensures db'.tasks.Keys == db.tasks.Keys
  {
  }

  /** Every task belongs to the user of the event that created it. */
  lemma {:induction false} EveryTaskBelongsToItsCreator(states: seq<Sys>, actions: seq<Action>, i: nat, task: Id) returns (k: nat)
    requires IsRun(states, actions) && i < |states| && task in states[i].db.tasks
    ensures k < i && Creates(actions[k], task, states[i].db.tasks[task].owner)
  {
    hide Inv, Step, Creates;
    ReachableInv(states, actions, i - 1);
    if task in states[i - 1].db.tasks {
      k := EveryTaskBelongsToItsCreator(states, actions, i - 1, task);
      StepGrows(states[i - 1], actions[i - 1]);
    } else {
      NewTasksHaveCreators(states[i - 1], actions[i - 1], task);
      k := i - 1;
    }
  }
}
