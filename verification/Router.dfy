/**
 The router's handlers: ordered effects on the store and the controller with early
 exits.  Each handler is proved, statement by statement, to end in one of a few
 states; `Lifecycle` interleaves the same steps with everything else.
 */
module Router {
  import opened Tables
  import opened TaskStore
  import opened Controller
  import Lifecycle

  /**
   How a handler ends: refused by the store, run handed to the controller, run
   failed in the store, or left queued because the store could not even be told.
   */
  datatype Outcome = NotAdmitted(admission: Admission) | HandedOver | RunFailed | LeftQueued

  datatype RestartOutcome = Unsupported | Busy | CheckFailed | NotGranted(admission: Admission) | NotAnnounced | Restarted

  class Router {
    const store: Store
    const controller: Controller
    const routeAttempts: int

    /** The controller knows only runs the store has. */
    ghost predicate Valid()
      reads this, store, controller
    {
      controller.Valid() && controller.objects.Keys <= store.runs.Keys
    }

    constructor (store: Store, controller: Controller, routeAttempts: int)
      requires controller.Valid() && controller.objects.Keys <= store.runs.Keys
      ensures Valid() && this.store == store && this.controller == controller
    {
      this.store, this.controller, this.routeAttempts := store, controller, routeAttempts;
    }

    /** `insertRouteWithRetry`: at least one attempt, at most the configured number, the last one decides. */
    method InsertRouteWithRetry() returns (ok: bool, calls: nat)
      ensures 1 <= calls <= if routeAttempts <= 0 then 1 else routeAttempts
      ensures !ok ==> calls == if routeAttempts <= 0 then 1 else routeAttempts
    {
      var attempts := if routeAttempts <= 0 then 1 else routeAttempts;
      ok, calls := false, 0;
      while calls < attempts
        invariant 0 <= calls <= attempts && !ok
      {
        ok := *;
        calls := calls + 1;
        if ok {
          return;
        }
      }
    }

    /** The card, its place in the task's row and its route: any of them may fail. */
    method Prepare() returns (ok: bool)
    {
      var sent, stored: bool := *, *;
      if !sent || !stored {
        return false;
      }
      var routed, _ := InsertRouteWithRetry();
      ok := routed;
    }

    /** The run is failed; when even that fails it stays as it is. */
    method FailQueuedRun(key: Id, run: Id, thread: Id, fault: nat) returns (outcome: Outcome)
      requires Valid()
      modifies store
      ensures Valid() && store.sequences == old(store.sequences)
      ensures outcome == RunFailed || outcome == LeftQueued
      ensures outcome == RunFailed ==>
                (store.Contents(), true) == FinishRun(old(store.Contents()), key, run, thread, NO_ID, Failed, -1)
      ensures outcome == LeftQueued ==> store.Contents() == old(store.Contents()) && (fault != 0 || run !in old(store.runs))
    {
      var ok := store.FinishRun(key, run, thread, NO_ID, Failed, -1, fault);
      outcome := if ok then RunFailed else LeftQueued;
    }

    /** `Enqueue`: the run's object is made and registered, unless the controller cannot take it. */
    method Enqueue(task: Id, run: Id, key: Id, thread: Id) returns (ok: bool)
      requires Valid() && run in store.runs && run !in controller.objects
      modifies controller
      ensures Valid() && ok == !(controller.closed || controller.unavailable || task in old(controller.byTask))
      ensures controller.Indexes() == if ok then Lifecycle.Register(old(controller.Indexes()), run, task) else old(controller.Indexes())
      ensures ok ==> run in controller.byRun && fresh(controller.byRun[run])
                     && controller.byRun[run].State() == Lifecycle.Active(task, key, thread, NO_ID, NO_ID, false, false, false,
                                                                          0, None, Idle, None, 0, [], false)
    {
      var active := new ActiveRun(run, task, key, thread, 0);
      ok := controller.Register(active);
      assert ok ==> run in controller.Indexes().byRun;
      assert ok ==> controller.byRun[run].run == run && controller.Known(controller.byRun[run]);
    }

    /** An admitted run goes to the controller or is failed. */
    method HandOver(task: Id, run: Id, key: Id, thread: Id, prepared: bool, fault: nat) returns (outcome: Outcome)
      requires Valid() && run in store.runs && run !in controller.objects
      modifies store, controller
      ensures Valid() && store.sequences == old(store.sequences) && !outcome.NotAdmitted?
      ensures outcome == HandedOver ==>
                && store.Contents() == old(store.Contents())
                && controller.Indexes() == Lifecycle.Register(old(controller.Indexes()), run, task)
      ensures outcome != HandedOver ==> controller.Indexes() == old(controller.Indexes())
      ensures outcome == RunFailed ==>
                (store.Contents(), true) == FinishRun(old(store.Contents()), key, run, thread, NO_ID, Failed, -1)
      ensures outcome == LeftQueued ==> store.Contents() == old(store.Contents()) && fault != 0
    {
      if !prepared {
        outcome := FailQueuedRun(key, run, thread, fault);
        return;
      }
      var ok := Enqueue(task, run, key, thread);
      if ok {
        return HandedOver;
      }
      outcome := FailQueuedRun(key, run, thread, fault);
    }

    /** `startTask` from the admission on. */
    method StartTask(key: Id, task: Id, run: Id, owner: Id, fault: nat, failFault: nat) returns (outcome: Outcome)
      requires Valid()
      modifies store, controller
      ensures Valid() && store.sequences == old(store.sequences)
      ensures var (db, a) := AdmitNewTask(old(store.Contents()), key, task, run, owner);
              match outcome
              case NotAdmitted(b) =>
                && store.Contents() == old(store.Contents()) && controller.Indexes() == old(controller.Indexes())
                && (b == a || (fault != 0 && b == StoreError))
              case HandedOver =>
                && a == Admitted && store.Contents() == db
                && controller.Indexes() == Lifecycle.Register(old(controller.Indexes()), run, task)
              case RunFailed =>
                && a == Admitted && controller.Indexes() == old(controller.Indexes())
                && store.Contents() == FinishRun(db, key, run, NO_ID, NO_ID, Failed, -1).0
              case LeftQueued =>
                a == Admitted && controller.Indexes() == old(controller.Indexes()) && store.Contents() == db && failFault != 0
    {
      hide FinishRun;
      NoTraceUnlessAdmitted(store.Contents(), key, task, run, NO_ID, owner);
      var a := store.AdmitNewTask(key, task, run, owner, fault);
      if a != Admitted {
        return NotAdmitted(a);
      }
      var prepared := Prepare();
      outcome := HandOver(task, run, key, NO_ID, prepared, failFault);
    }

    /** `resumeTask` from the admission on; a refused event leaves its dedup row. */
    method ResumeTask(key: Id, run: Id, task: Id, requester: Id, hasCard: bool, fault: nat, failFault: nat) returns (outcome: Outcome)
      requires Valid()
      modifies store, controller
      ensures Valid() && store.sequences == old(store.sequences)
      ensures var (db, a) := AdmitResumeRun(old(store.Contents()), key, run, task, requester);
              match outcome
              case NotAdmitted(b) =>
                && controller.Indexes() == old(controller.Indexes()) && b != Admitted
                && ((b == a && store.Contents() == db) || (fault != 0 && b == StoreError && store.Contents() == old(store.Contents())))
              case HandedOver =>
                && a == Admitted && store.Contents() == db
                && controller.Indexes() == Lifecycle.Register(old(controller.Indexes()), run, task)
              case RunFailed =>
                && a == Admitted && controller.Indexes() == old(controller.Indexes())
                && store.Contents() == FinishRun(db, key, run, db.tasks[task].thread, NO_ID, Failed, -1).0
              case LeftQueued =>
                a == Admitted && controller.Indexes() == old(controller.Indexes()) && store.Contents() == db && failFault != 0
    {
      hide FinishRun;
      var a := store.AdmitResumeRun(key, run, task, requester, fault);
      if a != Admitted {
        return NotAdmitted(a);
      }
      var thread := store.tasks[task].thread;
      var prepared: bool := *;      // the project
      if prepared && !hasCard {
        prepared := Prepare();
      }
      outcome := HandOver(task, run, key, thread, prepared, failFault);
    }

    /** `handleRestart`. */
    method HandleRestart(key: Id, supervised: bool, healthy: bool, fault: nat) returns (outcome: RestartOutcome)
      requires Valid()
      modifies store
      ensures Valid() && store.tasks == old(store.tasks) && store.runs == old(store.runs)
      ensures outcome == Restarted || outcome == NotAnnounced ==>
                && !Tables.HasActiveTask(store.Contents())
                && key !in old(store.dedup)
                && (store.Contents(), Admitted) == AdmitRestart(old(store.Contents()), key)
      ensures outcome != Restarted && outcome != NotAnnounced ==> store.Contents() == old(store.Contents())
      ensures outcome == Busy ==> Tables.HasActiveTask(store.Contents())
    {
      if !supervised {
        return Unsupported;
      }
      var ok, active := store.HasActiveTask(healthy);
      if !ok {
        return CheckFailed;
      }
      if active {
        return Busy;
      }
      var a := store.AdmitRestart(key, fault);
      if a != Admitted {
        return NotGranted(a);
      }
      var announced: bool := *;
      outcome := if announced then Restarted else NotAnnounced;
    }
  }

  // ---- What the ends of a handler mean -------------------------------------------------------

  /**
   A run admitted and then failed by the router leaves consistent tables, a task
   that is not active and an event that is done; a task that had a thread can be
   continued at once.
   */
  lemma FailedRunFreesItsTask(db: Db, key: Id, run: Id, task: Id, requester: Id, nextKey: Id, nextRun: Id)
    requires Consistent(db) && AdmitResumeRun(db, key, run, task, requester).1 == Admitted
    requires nextKey != NO_ID && nextKey != key && nextKey !in db.dedup && nextRun != run && nextRun !in db.runs
    ensures var admitted := AdmitResumeRun(db, key, run, task, requester).0;
            var failed := FinishRun(admitted, key, run, admitted.tasks[task].thread, NO_ID, Failed, -1).0;
            && Consistent(failed) && failed.runs[run].status == Failed && failed.tasks[task].status == Failed
            && failed.dedup[key] == Dedup(Completed, Some(task), Some(run))
            && AdmitResumeRun(failed, nextKey, nextRun, task, requester).1 == Admitted
  {
    hide Consistent;
    var admitted := AdmitResumeRun(db, key, run, task, requester).0;
    AdmitResumeKeepsConsistent(db, key, run, task, requester);
    FinishRunKeepsConsistentIff(admitted, key, run, admitted.tasks[task].thread, NO_ID, Failed, -1);
    var failed := FinishRun(admitted, key, run, admitted.tasks[task].thread, NO_ID, Failed, -1).0;
    hide AcceptsRun;
    AdmitResumeKeepsConsistent(failed, nextKey, nextRun, task, requester);
  }

  // ---- The handlers as steps of `Lifecycle` ----------------------------------------------------

  /**
   The system hands an admitted run over, or fails it, exactly as `HandOver` does: when
   it can be prepared and the controller can take it, it is registered with a fresh
   record and its launch begins; otherwise the next step fails it in the store.
   */
  lemma StepsHandOver(s: Lifecycle.Sys, t: nat, prepared: bool)
    requires s.router.Placed? && s.router.run in s.db.runs && t !in s.threads
    ensures var (s', p) := (Lifecycle.Step(s, Lifecycle.Enqueue(t, prepared)), s.router);
            if prepared && !s.closed && !s.unavailable && p.task !in s.ix.byTask then
              && s'.router.Free? && s'.db == s.db && s'.ix == Lifecycle.Register(s.ix, p.run, p.task)
              && s'.rt == s.rt[p.run := Lifecycle.Active(p.task, p.key, p.stored, NO_ID, NO_ID, false, false, false,
                                                         t, None, Idle, None, 0, [], false)]
              && s'.threads == s.threads[t := Lifecycle.Thread(p.run, Lifecycle.Open, false, {})]
            else
              && s' == s.(router := Lifecycle.Failing(p.run, p.key, p.stored))
              && var failed := Lifecycle.Step(s', Lifecycle.FailQueuedRun(true));
                 failed.router.Free? && (failed.db, true) == FinishRun(s.db, p.key, p.run, p.stored, NO_ID, Failed, -1)
                 && Lifecycle.Step(s', Lifecycle.FailQueuedRun(false)) == s.(router := Lifecycle.Free)
  {
    hide Lifecycle.Register;
  }

  /**
   The system admits as the handlers do: a new task or a continuation that the store
   admits waits to be handed over with its thread, an attached one is done, and what the
   store does not admit leaves nothing but the row of a refusal.
   */
  lemma StepsAdmit(s: Lifecycle.Sys, key: Id, task: Id, run: Id, thread: Id, user: Id)
    requires s.up && s.router.Free?
    ensures var ((db, a), s') := (AdmitNewTask(s.db, key, task, run, user), Lifecycle.Step(s, Lifecycle.NewTask(key, task, run, user)));
            if a == Admitted
            then s'.db == db && s'.router == Lifecycle.Placed(run, task, key, NO_ID) && s'.log == s.log + [Lifecycle.TaskCreated(key, task, run)]
            else s' == s
    ensures var ((db, a), s') := (AdmitResumeRun(s.db, key, run, task, user), Lifecycle.Step(s, Lifecycle.ResumeTask(key, run, task, user)));
            && s'.db == db
            && if a == Admitted
               then task in s.db.tasks && s'.router == Lifecycle.Placed(run, task, key, s.db.tasks[task].thread)
                    && s'.log == s.log + [Lifecycle.RunCreated(key, task, run)]
               else s' == s.(db := db)
    ensures var ((db, a), s') := (AttachThread(s.db, key, task, thread, user), Lifecycle.Step(s, Lifecycle.Attach(key, task, thread, user)));
            if thread != NO_ID && a == Admitted
            then s'.db == db && s'.router.Free? && s'.log == s.log + [Lifecycle.TaskAttached(key, task)]
            else s' == s
  {
    hide AcceptsRun;
  }

  /** A restart that is asked for while nothing is active, with a fresh key, is invoked when store and notifier work. */
  lemma StepsRestart(s: Lifecycle.Sys, key: Id)
    requires s.up && s.router.Free? && !Tables.HasActiveTask(s.db) && key != NO_ID && key !in s.db.dedup
    ensures var s1 := Lifecycle.Step(s, Lifecycle.AskRestart(key));
            s1.router.RestartAllowed? &&
            var s2 := Lifecycle.Step(s1, Lifecycle.AdmitTheRestart(true));
            s2.router.RestartAdmitted? &&
            var s3 := Lifecycle.Step(s2, Lifecycle.InvokeRestart(true));
            && s3.restarts == s.restarts + [key] && key in s3.db.dedup && s3.db.tasks == s.db.tasks && s3.db.runs == s.db.runs
  {
    hide Tables.HasActiveTask;
  }
}
