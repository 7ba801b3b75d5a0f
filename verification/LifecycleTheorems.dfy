/** The promises of the run lifecycle, for every run of the whole system. */
module LifecycleTheorems {
  import opened Tables
  import opened Lifecycle
  import opened LifecycleInvariant
  import opened LifecycleSafety
  import opened LifecycleSteps

  /** s is a state of a run of the system. */
  ghost predicate At(states: seq<Sys>, actions: seq<Action>, i: nat, s: Sys) {
    IsRun(states, actions) && i < |states| && states[i] == s
  }

  /**
   In every reachable state, also between a crash and the next start, a task is
   queued or running exactly when one of its runs is, there is only one, and the
   statuses agree.
   */
  lemma TablesAlwaysAgree(states: seq<Sys>, actions: seq<Action>, i: nat, s: Sys)
    requires At(states, actions, i, s)
    ensures Consistent(s.db)
  {
    ReachableInv(states, actions, i);
  }

  // ---- Termination -----------------------------------------------------------------------

  /** At most one commit, of the winner's verdict; still active before it, out of the indexes only after it. */
  ghost predicate TerminatedOnce(s: Sys, r: Id)
    requires r in s.rt
  {
    var a := s.rt[r];
    && r in s.db.runs
    && |a.commits| <= 1
    && (a.commits != [] ==> a.terminal && a.commits == [a.verdict] && s.db.runs[r].status == a.verdict)
    && (a.commits == [] ==> IsActive(s.db.runs[r].status))
    && (r !in s.ix.byRun ==> a.commits != [])
  }

  /**
   Exactly-once termination: however many finishers race, a run has at most one
   commit, its status is the winner's verdict, nobody but the winner finalizes
   it, and it leaves the indexes only after the commit.
   */
  lemma TerminationIsExactlyOnce(states: seq<Sys>, actions: seq<Action>, i: nat, s: Sys, r: Id, t: nat)
    requires At(states, actions, i, s) && r in s.rt
    ensures TerminatedOnce(s, r)
    ensures t in s.threads && s.threads[t].run == r && IsFinalizing(s.threads[t].pc) ==> s.rt[r].winner == Some(t)
  {
    ReachableInv(states, actions, i);
    OneCommit(s, r, t);
  }

  lemma OneCommit(s: Sys, r: Id, t: nat)
    requires Inv(s) && r in s.rt
    ensures TerminatedOnce(s, r)
    ensures t in s.threads && s.threads[t].run == r && IsFinalizing(s.threads[t].pc) ==> s.rt[r].winner == Some(t)
  {
    hide Consistent, OwedOk, ByTaskOk, ByThreadOk, ByTurnOk, RouterOk, LogOk;
    assert RecordOk(s.db, r, s.rt[r]);
    assert t in s.threads ==> ThreadOk(s.rt, t, s.threads[t]);
  }

  /** The goroutine t works on run r. */
  ghost predicate AtWork(s: Sys, t: nat, r: Id) {
    t in s.threads && s.threads[t].run == r && !HasNoRun(s.threads[t].pc)
  }

  /** While the controller is open, a won termination is pursued by its winner until the run is gone. */
  lemma WonTerminationIsPursued(states: seq<Sys>, actions: seq<Action>, i: nat, s: Sys, r: Id)
    requires At(states, actions, i, s) && r in s.rt && s.rt[r].terminal && !s.closed && !s.rt[r].gone
    ensures s.rt[r].winner.Some? && AtWork(s, s.rt[r].winner.value, r) && IsFinalizing(s.threads[s.rt[r].winner.value].pc)
  {
    ReachableInv(states, actions, i);
    assert WinnerAlive(s.rt, s.threads, s.closed, r);
  }

  // ---- Stops ---------------------------------------------------------------------------------

  /**
   No accepted stop is lost: while the controller is open, once every goroutine
   working on a run has returned, a run whose stop was requested is terminal, its
   end is stored and it is out of the indexes.
   */
  lemma NoStopIsLost(states: seq<Sys>, actions: seq<Action>, i: nat, s: Sys, r: Id)
    requires At(states, actions, i, s) && r in s.rt && s.rt[r].stopRequested && !s.closed
    requires forall t :: !AtWork(s, t, r)
    ensures s.rt[r].terminal && s.rt[r].commits != [] && s.rt[r].gone
  {
    ReachableInv(states, actions, i);
    if !(s.rt[r].terminal && s.rt[r].commits != [] && s.rt[r].gone) {
      SomebodyIsAtWork(s, r);
    }
  }

  lemma SomebodyIsAtWork(s: Sys, r: Id)
    requires Inv(s) && r in s.rt && s.rt[r].stopRequested && !s.closed
    requires !(s.rt[r].terminal && s.rt[r].commits != [] && s.rt[r].gone)
    ensures exists t :: AtWork(s, t, r)
  {
    hide Consistent, IndexesOk, RouterOk, LogOk, ThreadsOk, RowOk;
    assert RecordOk(s.db, r, s.rt[r]);
    assert StopCarried(s.rt, s.threads, s.closed, r) && WinnerAlive(s.rt, s.threads, s.closed, r);
    if !s.rt[r].terminal {
      var t :| Carrier(s.rt, s.threads, r, t);
      assert AtWork(s, t, r);
    } else {
      assert AtWork(s, s.rt[r].winner.value, r);
    }
  }

  /**
   The reason: a requested stop is always in the hands of a goroutine that is
   bound to look at it or to finish the run, and only the one that took it calls
   Interrupt, once.
   */
  lemma StopIsAlwaysCarried(states: seq<Sys>, actions: seq<Action>, i: nat, s: Sys, r: Id, t: nat)
    requires At(states, actions, i, s) && r in s.rt
    ensures s.rt[r].stopRequested && !s.rt[r].terminal && !s.closed ==> exists u :: Carrier(s.rt, s.threads, r, u)
    ensures s.rt[r].interrupts <= 1 && (s.rt[r].interrupts == 1 ==> s.rt[r].stopRequested)
    ensures AtWork(s, t, r) && s.threads[t].pc.Interrupt? ==> s.rt[r].interrupts == 0 && s.rt[r].taker == Some(t)
  {
    ReachableInv(states, actions, i);
    assert StopCarried(s.rt, s.threads, s.closed, r);
    OneInterrupt(s, r, t);
  }

  lemma OneInterrupt(s: Sys, r: Id, t: nat)
    requires Inv(s) && r in s.rt
    ensures s.rt[r].interrupts <= 1 && (s.rt[r].interrupts == 1 ==> s.rt[r].stopRequested)
    ensures AtWork(s, t, r) && s.threads[t].pc.Interrupt? ==> s.rt[r].interrupts == 0 && s.rt[r].taker == Some(t)
  {
    hide Consistent, IndexesOk, RouterOk, LogOk, OwedOk, RowOk;
    assert RecordOk(s.db, r, s.rt[r]);
    assert t in s.threads ==> ThreadOk(s.rt, t, s.threads[t]);
  }

  // ---- Indexes ---------------------------------------------------------------------------------

  /** Nothing but an entry of a superseded turn id still leads to r. */
  ghost predicate OutOfTheIndexes(s: Sys, r: Id)
    requires r in s.rt
  {
    && r !in s.ix.byRun
    && (forall k :: k in s.ix.byTask ==> s.ix.byTask[k] != r)
    && (forall k :: k in s.ix.byThread ==> s.ix.byThread[k] != r)
    && (forall k :: k in s.ix.byTurn && s.ix.byTurn[k] == r ==> k.1 != s.rt[r].turn)
  }

  /**
   A run is registered until it is unregistered, and afterwards no entry leads to
   it but those of superseded turn ids; entries by thread and by turn are filed
   under the thread of their run.
   */
  lemma IndexesAreConsistent(states: seq<Sys>, actions: seq<Action>, i: nat, s: Sys, r: Id)
    requires At(states, actions, i, s) && r in s.rt
    ensures s.rt[r].gone ==> s.rt[r].terminal && OutOfTheIndexes(s, r)
    ensures !s.rt[r].gone ==> r in s.ix.byRun && s.rt[r].task in s.ix.byTask && s.ix.byTask[s.rt[r].task] == r
    ensures forall k :: k in s.ix.byThread && s.ix.byThread[k] == r ==> s.rt[r].thread == k
    ensures forall k :: k in s.ix.byTurn && s.ix.byTurn[k] == r ==> s.rt[r].thread == k.0
  {
    ReachableInv(states, actions, i);
    hide IndexesOk, Consistent, OwedOk, ThreadsOk, RowOk;
    assert RecordOk(s.db, r, s.rt[r]);
    IndexEntries(s.rt, s.ix, r);
  }

  lemma IndexEntries(rt: map<Id, Active>, ix: Indexes, r: Id)
    requires IndexesOk(rt, ix) && r in rt
    ensures rt[r].gone ==>
              && r !in ix.byRun
              && (forall k :: k in ix.byTask ==> ix.byTask[k] != r)
              && (forall k :: k in ix.byThread ==> ix.byThread[k] != r)
              && (forall k :: k in ix.byTurn && ix.byTurn[k] == r ==> k.1 != rt[r].turn)
    ensures !rt[r].gone ==> r in ix.byRun && rt[r].task in ix.byTask && ix.byTask[rt[r].task] == r
    ensures forall k :: k in ix.byThread && ix.byThread[k] == r ==> rt[r].thread == k
    ensures forall k :: k in ix.byTurn && ix.byTurn[k] == r ==> rt[r].thread == k.0
  {
  }
  // ---- Nothing is resurrected -------------------------------------------------------------

  lemma GrowsReflexive(db: Db)
    ensures Grows(db, db)
  {
  }

  lemma ThreadStepGrows(s: Sys, t: nat, reply: Reply)
    requires Inv(s) && t in s.threads
    ensures Grows(s.db, ThreadStep(s, t, reply).db)
  {
    hide RunStep, Grows, Inv;
    GrowsReflexive(s.db);
    if !HasNoRun(s.threads[t].pc) {
      RunStepStores(s, t, reply);
    }
  }

  lemma FailGrows(s: Sys, stored: bool)
    requires Inv(s) && s.router.Failing?
    ensures Grows(s.db, RouterFail(s, stored).db)
  {
    var f := s.router;
    FinishRunKeepsStoreBargain(s.db, f.key, f.run, f.stored, NO_ID, Failed, -1);
    GrowsReflexive(s.db);
  }

  lemma StepGrows(s: Sys, a: Action)
    requires Inv(s) && Enabled(s, a)
    ensures Grows(s.db, Step(s, a).db)
  {
    hide Inv, Grows, ThreadStep, AdmitNewTask, AdmitResumeRun, RecoverRunning, RouterFail;
    GrowsReflexive(s.db);
    match a
    case Run(t, reply) => ThreadStepGrows(s, t, reply);
    case NewTask(key, task, run, owner) => AdmitNewTaskGrows(s.db, key, task, run, owner);
    case Attach(key, task, thread, owner) => AttachThreadGrows(s.db, key, task, thread, owner);
    case ResumeTask(key, run, task, requester) => AdmitResumeGrows(s.db, key, run, task, requester);
    case FailQueuedRun(stored) => FailGrows(s, stored);
    case AdmitTheRestart(stored) => AdmitRestartGrows(s.db, s.router.key);
    case Recover => RecoverGrows(s.db);
    case _ =>
  }

  /**
   Over any stretch of any run, through crashes and restarts: a run's status only
   moves from queued over running to one terminal status, a task keeps its
   creator and never loses its thread, a dedup key stays taken.
   */
  lemma {:induction false} NothingIsResurrected(states: seq<Sys>, actions: seq<Action>, i: nat, j: nat)
    requires IsRun(states, actions) && i <= j < |states|
    ensures Grows(states[i].db, states[j].db)
  {
    hide Grows, Inv;
    if i == j {
      GrowsReflexive(states[i].db);
    } else {
      NothingIsResurrected(states, actions, i, j - 1);
      ReachableInv(states, actions, j - 1);
      StepGrows(states[j - 1], actions[j - 1]);
      GrowsTransitive(states[i].db, states[j - 1].db, states[j].db);
    }
  }

  // ---- Restarts of the service -----------------------------------------------------------------

  /**
   `restart()` is invoked only while no task is queued or running and every run
   this process ever took up has its end stored.
   */
  lemma RestartIsSafe(states: seq<Sys>, actions: seq<Action>, i: nat, s: Sys, r: Id)
    requires At(states, actions, i, s) && i < |actions| && states[i + 1].restarts != s.restarts
    ensures !HasActiveTask(s.db)
    ensures r in s.rt ==> s.rt[r].commits != []
  {
    hide Inv, ThreadStep, Notification;
    ReachableInv(states, actions, i);
    RestartOnlyFromAdmitted(s, actions[i]);
    RestartAdmittedIsIdle(s, r);
  }

  lemma RestartOnlyFromAdmitted(s: Sys, a: Action)
    requires Enabled(s, a) && Step(s, a).restarts != s.restarts
    ensures s.router.RestartAdmitted?
  {
    hide RunStep, AdmitNewTask, AttachThread, AdmitResumeRun, AdmitRestart, RecoverRunning, FinishRun, HasActiveTask, ActiveFor, Register;
  }

  lemma RestartAdmittedIsIdle(s: Sys, r: Id)
    requires Inv(s) && s.router.RestartAdmitted?
    ensures !HasActiveTask(s.db)
    ensures r in s.rt ==> s.rt[r].commits != []
  {
    hide OwedOk, ThreadsOk, IndexesOk, LogOk;
    if r in s.rt {
      assert RecordOk(s.db, r, s.rt[r]);
      if s.rt[r].commits == [] {
        assert ActiveRunOf(s.db, r, s.rt[r].task) && TaskAgrees(s.db, s.rt[r].task);
      }
    }
  }

  /**
   After any crash and restart nothing is active, and every task that ever had a
   thread can be continued by its creator with a fresh key and run id.
   */
  lemma EveryTaskCanResumeAfterACrash(states: seq<Sys>, actions: seq<Action>, i: nat, j: nat, task: Id, key: Id, run: Id)
    requires IsRun(states, actions) && i <= j < |actions| && actions[j] == Recover
    requires task in states[i].db.tasks && states[i].db.tasks[task].thread != NO_ID
    requires key != NO_ID && key !in states[j].db.dedup && run !in states[j].db.runs
    ensures var db := states[j + 1].db;
            && !HasActiveTask(db)
            && task in db.tasks
            && AdmitResumeRun(db, key, run, task, states[i].db.tasks[task].owner).1 == Admitted
  {
    hide RecoverRunning, AdmitResumeRun;
    NothingIsResurrected(states, actions, i, j);
    ReachableInv(states, actions, j);
    RecoverMakesConsistent(states[j].db);
    RecoveredTaskCanResume(states[j].db, key, run, task);
    NothingIsResurrected(states, actions, j, j + 1);
  }
}
