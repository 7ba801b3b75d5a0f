/** Which runs start, and on which thread a launch opens. */
module LifecycleStarts {
  import opened Tables
  import opened Lifecycle
  import opened LifecycleInvariant
  import opened LifecycleSafety
  import opened LifecycleSteps
  import opened LifecycleFrames

  /** The launch of this run is about to call StartThread or ResumeThread. */
  predicate IsOpening(s: Sys, run: Id) {
    run in s.rt && s.rt[run].launcher in s.threads &&
    var th := s.threads[s.rt[run].launcher];
    th.run == run && th.pc.Open?
  }

  /** An admitted run that has not been opened yet has this thread with it. */
  predicate Brought(s: Sys, run: Id, thread: Id) {
    && run in s.db.runs
    && (s.router.Placed? && s.router.run == run ==> s.router.stored == thread)
    && (IsOpening(s, run) ==> s.rt[run].storedThread == thread)
  }

  // ---- Steps of goroutines -----------------------------------------------------------------

  lemma NeverBackToOpen(v: View, pc: Pc, reply: Reply)
    ensures RunStep(v, pc, reply).1.Goto? ==> !RunStep(v, pc, reply).1.pc.Open?
  {
    hide StartRun, FinishRun, Unregister;
  }

  lemma StoredByLauncher(v: View, pc: Pc, reply: Reply)
    requires PcOk(v.a, v.self, pc)
    ensures RunStep(v, pc, reply).0.a.storedThread == v.a.storedThread || v.a.launcher == v.self
  {
    hide StartRun, FinishRun, Unregister;
  }

  lemma FreeThreadsDoNotOpen(s: Sys, t: nat, reply: Reply)
    requires t in s.threads && HasNoRun(s.threads[t].pc)
    ensures var s' := ThreadStep(s, t, reply); t in s'.threads ==> !s'.threads[t].pc.Open?
  {
    hide RunStep;
  }

  /** The goroutine that steps is not opening its run afterwards. */
  lemma StepLeavesOpen(s: Sys, t: nat, reply: Reply)
    requires Inv(s) && t in s.threads
    ensures var s' := ThreadStep(s, t, reply); t in s'.threads ==> !s'.threads[t].pc.Open?
  {
    hide Inv, ThreadStep, RunStep, Knows, RecordOk, KeepsBargain, HasNoRun;
    if HasNoRun(s.threads[t].pc) {
      FreeThreadsDoNotOpen(s, t, reply);
    } else {
      OwnStep(s, t, reply);
      var r := s.threads[t].run;
      NeverBackToOpen(View(r, t, s.closed, s.rt[r], s.db, s.ix), s.threads[t].pc, reply);
    }
  }

  lemma KnowsItsPc(a: Active, t: nat, pc: Pc, closed: bool)
    requires Knows(a, t, pc, closed)
    ensures PcOk(a, t, pc)
  {
  }

  /** Only the launch goroutine stores another thread with the record. */
  lemma OthersLeaveStored(s: Sys, t: nat, reply: Reply, run: Id)
    requires Inv(s) && t in s.threads && run in s.rt && s.rt[run].launcher != t
    ensures run in ThreadStep(s, t, reply).rt && ThreadStep(s, t, reply).rt[run].storedThread == s.rt[run].storedThread
  {
    hide Inv, ThreadStep, RunStep, Knows, RecordOk, KeepsBargain, HasNoRun, PcOk;
    if HasNoRun(s.threads[t].pc) {
      FreeStep(s, t, reply);
    } else {
      OwnStep(s, t, reply);
      var r := s.threads[t].run;
      KnowsItsPc(s.rt[r], t, s.threads[t].pc, s.closed);
      StoredByLauncher(View(r, t, s.closed, s.rt[r], s.db, s.ix), s.threads[t].pc, reply);
    }
  }

  lemma MoveStays(s: Sys, t: nat, next: Next)
    requires t in s.threads
    ensures var s' := Move(s, t, next);
            s'.router == s.router && s'.db == s.db && s'.closed == s.closed && s'.unavailable == s.unavailable && s'.rt == s.rt
  {
  }

  lemma RunsAndRouterStay(s: Sys, t: nat, reply: Reply)
    requires t in s.threads
    ensures ThreadStep(s, t, reply).router == s.router && s.db.runs.Keys <= ThreadStep(s, t, reply).db.runs.Keys
    ensures ThreadStep(s, t, reply).closed == s.closed && ThreadStep(s, t, reply).unavailable == s.unavailable
    ensures ThreadStep(s, t, reply).rt.Keys == s.rt.Keys
  {
    hide RunStep, Move;
    var (r, pc) := (s.threads[t].run, s.threads[t].pc);
    if HasNoRun(pc) {
      hide ThreadStep;
      FreeStep(s, t, reply);
    } else if r in s.rt {
      var (v, next) := RunStep(View(r, t, s.closed, s.rt[r], s.db, s.ix), pc, reply);
      StepKeepsRunIds(View(r, t, s.closed, s.rt[r], s.db, s.ix), pc, reply);
      MoveStays(s.(rt := s.rt[r := v.a], db := v.db, ix := v.ix), t, next);
    }
  }

  lemma StepKeepsRunIds(v: View, pc: Pc, reply: Reply)
    ensures v.db.runs.Keys <= RunStep(v, pc, reply).0.db.runs.Keys
  {
    hide LaunchStep, Unregister;
    if IsLaunchPc(pc) {
      LaunchKeepsRunIds(v, pc, reply);
    }
  }

  lemma LaunchKeepsRunIds(v: View, pc: Pc, reply: Reply)
    ensures v.db.runs.Keys <= LaunchStep(v, pc, reply).0.db.runs.Keys
  {
  }

  lemma GoroutinesBring(s: Sys, t: nat, reply: Reply, run: Id, thread: Id)
    requires Inv(s) && t in s.threads && Brought(s, run, thread)
    ensures Brought(ThreadStep(s, t, reply), run, thread)
  {
    hide Inv, ThreadStep, Evolves;
    var s' := ThreadStep(s, t, reply);
    RunsAndRouterStay(s, t, reply);
    if IsOpening(s', run) {
      RunEvolves(s, t, reply, run);
      LauncherStays(s.rt[run], s'.rt[run], t);
      StepLeavesOpen(s, t, reply);
      RunLeavesOthers(s, t, reply, s.rt[run].launcher);
      OthersLeaveStored(s, t, reply, run);
    }
  }

  lemma LauncherStays(a: Active, a': Active, t: nat)
    requires Evolves(a, a', t)
    ensures a'.launcher == a.launcher
  {
  }

  // ---- All steps -----------------------------------------------------------------------------

  lemma KnownRecords(s: Sys)
    requires Inv(s)
    ensures s.rt.Keys <= s.db.runs.Keys
  {
    hide Consistent, IndexesOk, ThreadsOk, OwedOk, RouterOk, LogOk;
    forall r | r in s.rt ensures r in s.db.runs {
      assert RecordOk(s.db, r, s.rt[r]);
    }
  }

  lemma NotificationBrings(s: Sys, t: nat, thread: Id, turn: Id, andThen: Then, run: Id, stored: Id)
    requires Brought(s, run, stored) && t !in s.threads
    ensures Brought(Notification(s, t, thread, turn, andThen), run, stored)
  {
    hide ActiveFor;
  }

  /** An admission creates one run at most, under an id that is new. */
  lemma AdmissionsAreNew(db: Db, key: Id, task: Id, run: Id, owner: Id)
    ensures var (db', a) := AdmitNewTask(db, key, task, run, owner);
            db.runs.Keys <= db'.runs.Keys && if a == Admitted then run !in db.runs else db' == db
  {
  }

  lemma ContinuationsAreNew(db: Db, key: Id, run: Id, task: Id, requester: Id)
    ensures var (db', a) := AdmitResumeRun(db, key, run, task, requester);
            && db.runs.Keys <= db'.runs.Keys && (if a == Admitted then run !in db.runs else db'.runs == db.runs)
            && (a == Admitted ==> task in db.tasks && task in db'.tasks && db.tasks[task].thread != NO_ID
                                  && db'.tasks[task].thread == db.tasks[task].thread)
  {
    if AcceptsRun(db, run, task) {
      NewRunsAreNew(db, run, task);
    }
    hide AcceptsRun;
  }

  lemma NewRunsAreNew(db: Db, run: Id, task: Id)
    requires AcceptsRun(db, run, task)
    ensures run !in db.runs
  {
  }

  lemma RouterBrings(s: Sys, a: Action, run: Id, thread: Id)
    requires Enabled(s, a) && Brought(s, run, thread)
    requires a.NewTask? || a.Attach? || a.ResumeTask? || a.FailQueuedRun? || a.AskRestart? || a.AdmitTheRestart? || a.InvokeRestart?
    ensures Brought(Step(s, a), run, thread)
  {
    hide HasActiveTask, AdmitNewTask, AdmitResumeRun;
    if a.NewTask? {
      AdmissionsAreNew(s.db, a.key, a.task, a.run, a.owner);
    } else if a.ResumeTask? {
      ContinuationsAreNew(s.db, a.key, a.run, a.task, a.requester);
    }
  }

  lemma StepBrings(s: Sys, a: Action, run: Id, thread: Id)
    requires Inv(s) && Enabled(s, a) && Brought(s, run, thread)
    ensures Brought(Step(s, a), run, thread)
  {
    hide Inv, ThreadStep, Notification, RouterNewTask, RouterAttach, RouterResume, RouterFail, RouterAskRestart, RouterAdmitRestart;
    match a
    case Run(t, reply) =>
      RunSteps(s, t, reply);
      GoroutinesBring(s, t, reply, run, thread);
    case TurnStarted(t, th, turn) => NotificationBrings(s, t, th, turn, ToExit, run, thread);
    case TurnCompleted(t, th, turn, status) => NotificationBrings(s, t, th, turn, ToFinish(status), run, thread);
    case NewTask(_, _, _, _) => RouterBrings(s, a, run, thread);
    case Attach(_, _, _, _) => RouterBrings(s, a, run, thread);
    case ResumeTask(_, _, _, _) => RouterBrings(s, a, run, thread);
    case FailQueuedRun(_) => RouterBrings(s, a, run, thread);
    case AskRestart(_) => RouterBrings(s, a, run, thread);
    case AdmitTheRestart(_) => RouterBrings(s, a, run, thread);
    case InvokeRestart(_) => RouterBrings(s, a, run, thread);
    case _ =>
  }

  lemma {:induction false} StaysBrought(states: seq<Sys>, actions: seq<Action>, k: nat, i: nat, run: Id, thread: Id)
    requires IsRun(states, actions) && k <= i < |states| && Brought(states[k], run, thread)
    ensures Brought(states[i], run, thread)
  {
    hide Inv, Step, Brought;
    if k < i {
      StaysBrought(states, actions, k, i - 1, run, thread);
      ReachableInv(states, actions, i - 1);
      StepBrings(states[i - 1], actions[i - 1], run, thread);
    }
  }

  // ---- On which thread a launch opens ----------------------------------------------------------

  lemma NewTaskBrings(s: Sys, a: Action)
    requires Inv(s) && Enabled(s, a) && a.NewTask? && a.run !in s.db.runs && a.run in Step(s, a).db.runs
    ensures Brought(Step(s, a), a.run, NO_ID)
  {
    KnownRecords(s);
    AdmissionsAreNew(s.db, a.key, a.task, a.run, a.owner);
    hide Inv, AdmitNewTask;
  }

  lemma ContinuationBrings(s: Sys, a: Action)
    requires Inv(s) && Enabled(s, a) && a.ResumeTask? && a.run !in s.db.runs && a.run in Step(s, a).db.runs
    ensures a.task in s.db.tasks && s.db.tasks[a.task].thread != NO_ID && Brought(Step(s, a), a.run, s.db.tasks[a.task].thread)
  {
    KnownRecords(s);
    ContinuationsAreNew(s.db, a.key, a.run, a.task, a.requester);
    hide Inv, AdmitResumeRun;
  }

  /**
   A continuation resumes the thread of its task: whatever happens between its
   admission and its launch, the call that opens it names the thread the task had when
   it was admitted, which is not empty.
   */
  lemma ContinuationOpensItsThread(states: seq<Sys>, actions: seq<Action>, k: nat, i: nat, key: Id, run: Id, task: Id, requester: Id)
    requires IsRun(states, actions) && k < i < |states| && actions[k] == ResumeTask(key, run, task, requester)
    requires run !in states[k].db.runs && run in states[k + 1].db.runs
    ensures task in states[k].db.tasks && states[k].db.tasks[task].thread != NO_ID
    ensures IsOpening(states[i], run) ==> EffectiveThread(states[i].rt[run]) == states[k].db.tasks[task].thread
  {
    hide Inv, Step;
    ReachableInv(states, actions, k);
    assert states[k + 1] == Step(states[k], actions[k]) && Enabled(states[k], actions[k]);
    ContinuationBrings(states[k], actions[k]);
    StaysBrought(states, actions, k + 1, i, run, states[k].db.tasks[task].thread);
    if IsOpening(states[i], run) {
      ReachableInv(states, actions, i);
      NothingOpenedYet(states[i], run);
    }
  }

  lemma NothingOpenedYet(s: Sys, run: Id)
    requires Inv(s) && IsOpening(s, run)
    ensures s.rt[run].thread == NO_ID
  {
    hide Consistent, RecordsOk, IndexesOk, OwedOk, RouterOk, LogOk;
    assert ThreadOk(s.rt, s.rt[run].launcher, s.threads[s.rt[run].launcher]);
  }

  /** The run of a new task opens with no thread: it starts one. */
  lemma NewTaskOpensNoThread(states: seq<Sys>, actions: seq<Action>, k: nat, i: nat, key: Id, task: Id, run: Id, owner: Id)
    requires IsRun(states, actions) && k < i < |states| && actions[k] == NewTask(key, task, run, owner)
    requires run !in states[k].db.runs && run in states[k + 1].db.runs
    ensures IsOpening(states[i], run) ==> EffectiveThread(states[i].rt[run]) == NO_ID
  {
    hide Inv, Step;
    ReachableInv(states, actions, k);
    assert states[k + 1] == Step(states[k], actions[k]) && Enabled(states[k], actions[k]);
    NewTaskBrings(states[k], actions[k]);
    StaysBrought(states, actions, k + 1, i, run, NO_ID);
    if IsOpening(states[i], run) {
      ReachableInv(states, actions, i);
      NothingOpenedYet(states[i], run);
    }
  }

  // ---- After a loss ------------------------------------------------------------------------------

  predicate Refuses(s: Sys) {
    s.closed || s.unavailable
  }

  lemma RefusalStays(s: Sys, a: Action)
    requires Enabled(s, a) && !a.Crash?
    ensures Refuses(s) || a.LoseAppServer? || a.Close? ==> Refuses(Step(s, a)) && Step(s, a).rt.Keys == s.rt.Keys
  {
    hide ThreadStep, AdmitNewTask, AttachThread, AdmitResumeRun, AdmitRestart, FinishRun, RecoverRunning, HasActiveTask, ActiveFor;
    if a.Run? {
      RunsAndRouterStay(s, a.t, a.reply);
    }
  }

  /** Once the app-server is lost or the controller closed, no run starts in this process any more. */
  lemma {:induction false} NoRunStartsAfterALoss(states: seq<Sys>, actions: seq<Action>, i: nat, j: nat)
    requires IsRun(states, actions) && i < j < |states| && NoCrash(actions, i, j)
    requires actions[i].LoseAppServer? || actions[i].Close?
    ensures Refuses(states[j]) && states[j].rt.Keys == states[i].rt.Keys
  {
    hide Step, Refuses;
    if i + 1 < j {
      NoRunStartsAfterALoss(states, actions, i, j - 1);
    }
    RefusalStays(states[j - 1], actions[j - 1]);
  }
}
