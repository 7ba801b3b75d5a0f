/** Admissions over whole histories: which event created which row. */
module LifecycleLog {
  import opened Tables
  import opened Lifecycle
  import opened LifecycleInvariant
  import opened LifecycleSafety
  import opened LifecycleSteps

  predicate MakesTask(e: Effect) {
    e.TaskCreated? || e.TaskAttached?
  }

  predicate MakesRun(e: Effect) {
    e.TaskCreated? || e.RunCreated?
  }

  function TasksOf(log: seq<Effect>): set<Id> {
    set i | 0 <= i < |log| && MakesTask(log[i]) :: log[i].task
  }

  function RunsOf(log: seq<Effect>): set<Id> {
    set i | 0 <= i < |log| && MakesRun(log[i]) :: log[i].run
  }

  /** The rows are those the log created, and no two entries created the same one. */
  ghost predicate LogExact(db: Db, log: seq<Effect>) {
    && db.tasks.Keys == TasksOf(log)
    && db.runs.Keys == RunsOf(log)
    && (forall i, j :: 0 <= i < j < |log| && MakesTask(log[i]) && MakesTask(log[j]) ==> log[i].task != log[j].task)
    && (forall i, j :: 0 <= i < j < |log| && MakesRun(log[i]) && MakesRun(log[j]) ==> log[i].run != log[j].run)
  }

  function NewTasks(e: Effect): set<Id> {
    if MakesTask(e) then {e.task} else {}
  }

  function NewRuns(e: Effect): set<Id> {
    if MakesRun(e) then {e.run} else {}
  }

  lemma RowsOfLongerLog(log: seq<Effect>, e: Effect)
    ensures TasksOf(log + [e]) == TasksOf(log) + NewTasks(e)
    ensures RunsOf(log + [e]) == RunsOf(log) + NewRuns(e)
  {
    var log' := log + [e];
    assert log'[|log|] == e && forall i :: 0 <= i < |log| ==> log'[i] == log[i];
    forall t | t in TasksOf(log) + NewTasks(e) ensures t in TasksOf(log') {
      if t in TasksOf(log) {
        var i :| 0 <= i < |log| && MakesTask(log[i]) && log[i].task == t;
        assert MakesTask(log'[i]) && log'[i].task == t;
      }
    }
    forall r | r in RunsOf(log) + NewRuns(e) ensures r in RunsOf(log') {
      if r in RunsOf(log) {
        var i :| 0 <= i < |log| && MakesRun(log[i]) && log[i].run == r;
        assert MakesRun(log'[i]) && log'[i].run == r;
      }
    }
  }

  lemma LogAppendsExactly(db: Db, db': Db, log: seq<Effect>, e: Effect)
    requires LogExact(db, log)
    requires db'.tasks.Keys == db.tasks.Keys + NewTasks(e) && NewTasks(e) !! db.tasks.Keys
    requires db'.runs.Keys == db.runs.Keys + NewRuns(e) && NewRuns(e) !! db.runs.Keys
    ensures LogExact(db', log + [e])
  {
    hide TasksOf, RunsOf;
    RowsOfLongerLog(log, e);
    forall i | 0 <= i < |log| && MakesTask(log[i]) ensures log[i].task in db.tasks { TaskIsLogged(log, i); }
    forall i | 0 <= i < |log| && MakesRun(log[i]) ensures log[i].run in db.runs { RunIsLogged(log, i); }
  }

  lemma TaskIsLogged(log: seq<Effect>, i: nat)
    requires i < |log| && MakesTask(log[i])
    ensures log[i].task in TasksOf(log)
  {
  }

  lemma RunIsLogged(log: seq<Effect>, i: nat)
    requires i < |log| && MakesRun(log[i])
    ensures log[i].run in RunsOf(log)
  {
  }

  /** A step either leaves the rows and the log alone, or logs exactly the rows it creates. */
  ghost predicate LogsItsRows(s: Sys, s': Sys) {
    || (s'.log == s.log && s'.db.tasks.Keys == s.db.tasks.Keys && s'.db.runs.Keys == s.db.runs.Keys)
    || (|s'.log| == |s.log| + 1 && s'.log == s.log + [s'.log[|s.log|]]
        && (var e := s'.log[|s.log|];
            && s'.db.tasks.Keys == s.db.tasks.Keys + NewTasks(e) && NewTasks(e) !! s.db.tasks.Keys
            && s'.db.runs.Keys == s.db.runs.Keys + NewRuns(e) && NewRuns(e) !! s.db.runs.Keys))
  }

  lemma ThreadStepRows(s: Sys, t: nat, reply: Reply)
    requires Inv(s) && t in s.threads
    ensures var s' := ThreadStep(s, t, reply);
            s'.log == s.log && s'.db.tasks.Keys == s.db.tasks.Keys && s'.db.runs.Keys == s.db.runs.Keys
  {
    hide RunStep, Inv, Grows, Consistent;
    if !HasNoRun(s.threads[t].pc) {
      RunStepStores(s, t, reply);
    }
  }

  lemma FailLogs(s: Sys, stored: bool)
    requires Inv(s) && s.router.Failing?
    ensures LogsItsRows(s, RouterFail(s, stored))
  {
    hide Consistent, OwedOk, ThreadsOk, IndexesOk, LogOk, Grows;
    var f := s.router;
    FinishRunKeepsStoreBargain(s.db, f.key, f.run, f.stored, NO_ID, Failed, -1);
  }

  lemma NewTaskLogs(s: Sys, key: Id, task: Id, run: Id, owner: Id)
    ensures LogsItsRows(s, RouterNewTask(s, key, task, run, owner))
  {
  }

  lemma AttachLogs(s: Sys, key: Id, task: Id, thread: Id, owner: Id)
    ensures LogsItsRows(s, RouterAttach(s, key, task, thread, owner))
  {
  }

  lemma ResumeLogs(s: Sys, key: Id, run: Id, task: Id, requester: Id)
    ensures LogsItsRows(s, RouterResume(s, key, run, task, requester))
  {
    hide CanStart;
  }

  lemma AdmitRestartLogs(s: Sys, stored: bool)
    requires s.router.RestartAllowed?
    ensures LogsItsRows(s, RouterAdmitRestart(s, stored))
  {
  }

  lemma StepLogs(s: Sys, a: Action)
    requires Inv(s) && Enabled(s, a)
    ensures LogsItsRows(s, Step(s, a))
  {
    hide Inv, TasksOf, RunsOf, ThreadStep, AdmitNewTask, AdmitResumeRun, RouterFail, RouterNewTask, RouterResume, RouterAttach, RouterAdmitRestart;
    if a.Run? {
      ThreadStepRows(s, a.t, a.reply);
    } else if a.FailQueuedRun? {
      FailLogs(s, a.stored);
    } else if a.NewTask? {
      NewTaskLogs(s, a.key, a.task, a.run, a.owner);
    } else if a.Attach? {
      AttachLogs(s, a.key, a.task, a.thread, a.owner);
    } else if a.ResumeTask? {
      ResumeLogs(s, a.key, a.run, a.task, a.requester);
    } else if a.AdmitTheRestart? {
      AdmitRestartLogs(s, a.stored);
    }
  }

  /**
   Over whole histories with crashes and restarts, every task and every run was
   created by exactly one admission, and no dedup key was ever admitted twice,
   nor restarted the service twice.
   */
  lemma {:induction false} EveryRowHasOneAdmission(states: seq<Sys>, actions: seq<Action>, i: nat)
    requires IsRun(states, actions) && i < |states|
    ensures LogExact(states[i].db, states[i].log)
    ensures forall j, k :: 0 <= j < k < |states[i].log| ==> states[i].log[j].key != states[i].log[k].key
    ensures forall j, k :: 0 <= j < k < |states[i].restarts| ==> states[i].restarts[j] != states[i].restarts[k]
  {
    LogKeysDistinct(states, actions, i);
    if i > 0 {
      EveryRowHasOneAdmission(states, actions, i - 1);
      ReachableInv(states, actions, i - 1);
      StepLogs(states[i - 1], actions[i - 1]);
      LogStaysExact(states[i - 1], states[i]);
    }
  }

  lemma LogStaysExact(s: Sys, s': Sys)
    requires LogExact(s.db, s.log) && LogsItsRows(s, s')
    ensures LogExact(s'.db, s'.log)
  {
    if |s'.log| > |s.log| {
      LogAppendsExactly(s.db, s'.db, s.log, s'.log[|s.log|]);
    }
  }

  lemma LogKeysDistinct(states: seq<Sys>, actions: seq<Action>, i: nat)
    requires IsRun(states, actions) && i < |states|
    ensures forall j, k :: 0 <= j < k < |states[i].log| ==> states[i].log[j].key != states[i].log[k].key
    ensures forall j, k :: 0 <= j < k < |states[i].restarts| ==> states[i].restarts[j] != states[i].restarts[k]
  {
    ReachableInv(states, actions, i);
  }
}
