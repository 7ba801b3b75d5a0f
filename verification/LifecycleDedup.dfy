/** Inbound events and the runs they started: an event is in progress exactly as long as its run is. */
module LifecycleDedup {
  import opened Tables
  import opened Lifecycle
  import opened LifecycleInvariant
  import opened LifecycleSafety
  import opened LifecycleSteps
  import opened LifecycleFrames
  import opened LifecycleTheorems
  import opened LifecycleRows

  /** The event of this key started run r and is in this state. */
  ghost predicate EventOf(db: Db, r: Id, key: Id, state: DedupState) {
    r in db.runs && key in db.dedup && db.dedup[key] == Dedup(state, Some(db.runs[r].task), Some(r))
  }

  /** An event in progress has started a run that is queued or running. */
  ghost predicate InProgress(db: Db, key: Id) {
    key in db.dedup && db.dedup[key].state == Processing ==>
      db.dedup[key].run.Some? && EventOf(db, db.dedup[key].run.value, key, Processing)
      && IsActive(db.runs[db.dedup[key].run.value].status)
  }

  ghost predicate HasEvent(db: Db, r: Id) {
    r in db.runs && IsActive(db.runs[r].status) ==> exists k :: EventOf(db, r, k, Processing)
  }

  ghost predicate OneEvent(db: Db, r: Id, k1: Id, k2: Id) {
    EventOf(db, r, k1, Processing) && EventOf(db, r, k2, Processing) ==> k1 == k2
  }

  ghost predicate EventsAgree(db: Db) {
    && NO_ID !in db.dedup
    && (forall k :: InProgress(db, k))
    && (forall r :: HasEvent(db, r))
    && (forall r, k1, k2 :: OneEvent(db, r, k1, k2))
  }

  ghost predicate RecordHasEvent(db: Db, r: Id, a: Active) {
    EventOf(db, r, a.key, if a.commits == [] then Processing else Completed)
  }

  ghost predicate RouterHasEvent(db: Db, router: Router) {
    match router
    case Placed(run, _, key, _) => EventOf(db, run, key, Processing)
    case Failing(run, key, _) => EventOf(db, run, key, Processing)
    case _ => true
  }

  ghost predicate EventsOk(s: Sys) {
    && EventsAgree(s.db)
    && (forall r :: r in s.rt ==> RecordHasEvent(s.db, r, s.rt[r]))
    && RouterHasEvent(s.db, s.router)
  }

  // ---- Transactions --------------------------------------------------------------------------

  /** A new run with a new key. */
  lemma AdmissionAgrees(db: Db, db': Db, key: Id, task: Id, run: Id)
    requires EventsAgree(db) && key != NO_ID && key !in db.dedup && run !in db.runs
    requires (forall r :: r in db.runs ==> r in db'.runs && db'.runs[r] == db.runs[r]) && run in db'.runs
    requires (forall r :: r in db'.runs ==> r in db.runs || r == run) && db'.runs[run].task == task && IsActive(db'.runs[run].status)
    requires db'.dedup == db.dedup[key := Dedup(Processing, Some(task), Some(run))]
    ensures EventsAgree(db') && EventOf(db', run, key, Processing)
  {
    forall k ensures InProgress(db', k) {
      assert InProgress(db, k);
    }
    forall r ensures HasEvent(db', r) {
      assert HasEvent(db, r);
      if r in db.runs && IsActive(db.runs[r].status) {
        var k :| EventOf(db, r, k, Processing);
        assert EventOf(db', r, k, Processing);
      } else {
        assert r == run ==> EventOf(db', run, key, Processing);
      }
    }
    forall r, k1, k2 ensures OneEvent(db', r, k1, k2) {
      assert OneEvent(db, r, k1, k2) && InProgress(db, k1) && InProgress(db, k2);
    }
  }

  /** A key that is taken without a run in progress. */
  lemma SettledKeyAgrees(db: Db, db': Db, key: Id, state: DedupState, task: Option<Id>)
    requires EventsAgree(db) && key != NO_ID && key !in db.dedup && state != Processing
    requires db'.runs == db.runs && db'.dedup == db.dedup[key := Dedup(state, task, None)]
    ensures EventsAgree(db')
  {
    forall k ensures InProgress(db', k) {
      assert InProgress(db, k);
    }
    forall r ensures HasEvent(db', r) {
      assert HasEvent(db, r);
      if r in db.runs && IsActive(db.runs[r].status) {
        var k :| EventOf(db, r, k, Processing);
        assert EventOf(db', r, k, Processing);
      }
    }
    forall r, k1, k2 ensures OneEvent(db', r, k1, k2) {
      assert OneEvent(db, r, k1, k2);
    }
  }

  /** Another run's event is untouched by what happens to run r and its key. */
  lemma OtherEvents(db: Db, db': Db, r: Id, key: Id, q: Id, k: Id, state: DedupState)
    requires EventOf(db, q, k, state) && k != key && q in db'.runs && db'.runs[q].task == db.runs[q].task
    requires k in db'.dedup && db'.dedup[k] == db.dedup[k]
    ensures EventOf(db', q, k, state)
  {
  }

  /** A run and its event end together. */
  lemma FinishAgrees(db: Db, key: Id, run: Id, thread: Id, turn: Id, status: Status, exitCode: int)
    requires EventsAgree(db) && EventOf(db, run, key, Processing) && db.runs[run].task in db.tasks && IsTerminal(status)
    ensures var db' := FinishRun(db, key, run, thread, turn, status, exitCode).0;
            EventsAgree(db') && EventOf(db', run, key, Completed)
  {
    var db' := FinishRun(db, key, run, thread, turn, status, exitCode).0;
    FinishRunStores(db, key, run, thread, turn, status, exitCode);
    hide FinishRun;
    forall k ensures InProgress(db', k) {
      assert InProgress(db, k) && OneEvent(db, run, k, key);
    }
    forall r ensures HasEvent(db', r) {
      assert HasEvent(db, r);
      if r in db.runs && IsActive(db.runs[r].status) && r != run {
        var k :| EventOf(db, r, k, Processing);
        assert EventOf(db', r, k, Processing);
      }
    }
    forall r, k1, k2 ensures OneEvent(db', r, k1, k2) {
      assert OneEvent(db, r, k1, k2);
    }
  }

  /** Starting a run leaves its event in progress. */
  lemma StartAgrees(db: Db, run: Id, thread: Id, turn: Id)
    requires EventsAgree(db) && Consistent(db)
    ensures EventsAgree(StartRun(db, run, thread, turn).0)
    ensures forall q, k, state :: EventOf(db, q, k, state) ==> EventOf(StartRun(db, run, thread, turn).0, q, k, state)
  {
    var db' := StartRun(db, run, thread, turn).0;
    if db' != db {
      OnlyActiveRunsStart(db, run, thread, turn);
      StartRunStores(db, run, thread, turn);
      hide StartRun, Consistent;
      forall k ensures InProgress(db', k) {
        assert InProgress(db, k);
      }
      forall r ensures HasEvent(db', r) {
        assert HasEvent(db, r);
        if r in db.runs && IsActive(db.runs[r].status) {
          var k :| EventOf(db, r, k, Processing);
          assert EventOf(db', r, k, Processing);
        }
      }
      forall r, k1, k2 ensures OneEvent(db', r, k1, k2) {
        assert OneEvent(db, r, k1, k2);
      }
    }
  }

  lemma RecoveryAgrees(db: Db)
    requires EventsAgree(db)
    ensures EventsAgree(RecoverRunning(db))
  {
    RecoveryStores(db);
    hide RecoverRunning;
    forall k ensures InProgress(RecoverRunning(db), k) {
      assert InProgress(db, k);
    }
  }

  // ---- Steps -----------------------------------------------------------------------------------

  /** Whatever else happened to the tables, the events of run q are as they were. */
  ghost predicate EventsKept(db: Db, db': Db, q: Id) {
    forall k, state :: EventOf(db, q, k, state) ==> EventOf(db', q, k, state)
  }

  lemma FinishKeepsOthers(db: Db, key: Id, run: Id, thread: Id, turn: Id, status: Status, exitCode: int, q: Id)
    requires EventOf(db, run, key, Processing) && db.runs[run].task in db.tasks && IsTerminal(status) && q != run
    ensures EventsKept(db, FinishRun(db, key, run, thread, turn, status, exitCode).0, q)
  {
    FinishRunStores(db, key, run, thread, turn, status, exitCode);
    hide FinishRun;
  }

  /** What the step of goroutine t does to events. */
  lemma OwnEvents(v: View, pc: Pc, v': View)
    requires Consistent(v.db) && RecordOk(v.db, v.run, v.a) && Knows(v.a, v.self, pc, v.closed) && RowStep(v, pc, v')
    requires v'.a.key == v.a.key && EventsAgree(v.db) && RecordHasEvent(v.db, v.run, v.a)
    ensures EventsAgree(v'.db) && RecordHasEvent(v'.db, v.run, v'.a)
    ensures forall q :: q != v.run ==> EventsKept(v.db, v'.db, q)
  {
    hide Consistent, EventsAgree, StartRun, FinishRun, RecordSane;
    RunHasTask(v.db, v.run);
    if v'.db == v.db && v'.a.commits == v.a.commits {
    } else if pc.Persist? {
      var exitCode := if v.a.verdict == Succeeded then 0 else -1;
      FinishAgrees(v.db, v.a.key, v.run, pc.thread, pc.turn, v.a.verdict, exitCode);
      forall q | q != v.run ensures EventsKept(v.db, v'.db, q) {
        FinishKeepsOthers(v.db, v.a.key, v.run, pc.thread, pc.turn, v.a.verdict, exitCode, q);
      }
    } else {
      StartAgrees(v.db, v.run, pc.thread, if pc.StartRun2? then pc.turn else NO_ID);
    }
  }

  lemma KeptEventsAreOk(db: Db, db': Db, q: Id, a: Active, router: Router)
    requires EventsKept(db, db', q)
    ensures RecordHasEvent(db, q, a) ==> RecordHasEvent(db', q, a)
    ensures RouterHasEvent(db, router) && (router.Placed? || router.Failing?) && router.run == q ==> RouterHasEvent(db', router)
  {
  }

  lemma RouterKeepsItsEvent(db: Db, db': Db, rt: map<Id, Active>, router: Router, run: Id)
    requires RouterHasEvent(db, router) && run in rt && forall q :: q != run ==> EventsKept(db, db', q)
    requires router.Placed? || router.Failing? ==> router.run !in rt
    ensures RouterHasEvent(db', router)
  {
    if router.Placed? || router.Failing? {
      assert EventsKept(db, db', router.run);
    }
  }

  lemma RouterRunIsElsewhere(s: Sys)
    requires Inv(s)
    ensures s.router.Placed? || s.router.Failing? ==> s.router.run !in s.rt
  {
    RouterFromInv(s);
  }

  lemma RecordsKeepTheirEvents(db: Db, db': Db, rt: map<Id, Active>, run: Id, a': Active, rt': map<Id, Active>)
    requires (forall q :: q in rt ==> RecordHasEvent(db, q, rt[q])) && forall q :: q != run ==> EventsKept(db, db', q)
    requires RecordHasEvent(db', run, a') && rt' == rt[run := a']
    ensures forall q :: q in rt' ==> RecordHasEvent(db', q, rt'[q])
  {
    hide EventsKept, RecordHasEvent;
    forall q | q in rt' ensures RecordHasEvent(db', q, rt'[q]) {
      if q != run {
        KeptEventsAreOk(db, db', q, rt[q], Free);
      }
    }
  }

  lemma OwnStepEvents(s: Sys, t: nat, v: View, v': View, next: Next, s': Sys)
    requires EventsOk(s) && t in s.threads && OwnStepFacts(s, t, v, v', next, s') && s'.router == s.router
    requires s.router.Placed? || s.router.Failing? ==> s.router.run !in s.rt
    ensures EventsOk(s')
  {
    hide RowStep, InOrder, Knows, RecordOk, KeepsBargain, StoreBargain, Consistent, EventsAgree, RecordHasEvent, EventsKept, RouterHasEvent;
    EvolvesFromBargain(v.a, v'.a, t, s.threads[t].pc, next, v.closed);
    OwnEvents(v, s.threads[t].pc, v');
    RecordsKeepTheirEvents(s.db, s'.db, s.rt, v.run, v'.a, s'.rt);
    RouterKeepsItsEvent(s.db, s'.db, s.rt, s.router, v.run);
  }

  lemma RunKeepsEvents(s: Sys, t: nat, reply: Reply)
    requires Inv(s) && EventsOk(s) && t in s.threads && !HasNoRun(s.threads[t].pc)
    ensures EventsOk(ThreadStep(s, t, reply))
  {
    hide Inv, ThreadStep, OwnStepFacts, EventsOk;
    RouterRunIsElsewhere(s);
    RunLeavesRouter(s, t, reply);
    var v, v', next := OwnStepKnows(s, t, reply);
    OwnStepEvents(s, t, v, v', next, ThreadStep(s, t, reply));
  }

  lemma RunLeavesRouter(s: Sys, t: nat, reply: Reply)
    requires t in s.threads
    ensures ThreadStep(s, t, reply).router == s.router
  {
    hide RunStep;
  }

  /** A step that admits nothing and ends nothing. */
  lemma QuietStepKeepsEvents(s: Sys, s': Sys)
    requires EventsOk(s) && s'.db == s.db
    requires forall q :: q in s'.rt && q !in s.rt ==> RecordHasEvent(s.db, q, s'.rt[q])
    requires forall q :: q in s.rt && q in s'.rt ==> s'.rt[q] == s.rt[q]
    requires RouterHasEvent(s.db, s'.router)
    ensures EventsOk(s')
  {
  }

  /** A step of the router on the tables: every recorded run keeps its event. */
  lemma RouterStepKeepsEvents(s: Sys, s': Sys)
    requires EventsOk(s) && s'.rt == s.rt && EventsAgree(s'.db) && RouterHasEvent(s'.db, s'.router)
    requires forall q :: q in s.rt ==> EventsKept(s.db, s'.db, q)
    ensures EventsOk(s')
  {
    forall q | q in s'.rt ensures RecordHasEvent(s'.db, q, s'.rt[q]) {
      KeptEventsAreOk(s.db, s'.db, q, s.rt[q], s.router);
    }
  }

  lemma NewKeyKeepsOthers(db: Db, db': Db, key: Id, row: Dedup, q: Id)
    requires key !in db.dedup && db'.dedup == db.dedup[key := row]
    requires q in db.runs ==> q in db'.runs && db'.runs[q] == db.runs[q]
    ensures EventsKept(db, db', q)
  {
  }

  lemma NewTaskKeepsEvents(s: Sys, key: Id, task: Id, run: Id, owner: Id)
    requires EventsOk(s) && s.router.Free?
    ensures EventsOk(RouterNewTask(s, key, task, run, owner))
  {
    var s' := RouterNewTask(s, key, task, run, owner);
    var a := AdmitNewTask(s.db, key, task, run, owner).1;
    AdmitNewTaskStores(s.db, key, task, run, owner);
    if a == Admitted {
      AdmissionAgrees(s.db, s'.db, key, task, run);
      forall q | q in s.rt ensures EventsKept(s.db, s'.db, q) {
        NewKeyKeepsOthers(s.db, s'.db, key, Dedup(Processing, Some(task), Some(run)), q);
      }
      RouterStepKeepsEvents(s, s');
    }
  }

  lemma AttachKeepsEvents(s: Sys, key: Id, task: Id, thread: Id, owner: Id)
    requires EventsOk(s) && s.router.Free?
    ensures EventsOk(RouterAttach(s, key, task, thread, owner))
  {
    var s' := RouterAttach(s, key, task, thread, owner);
    if s' != s {
      SettledKeyAgrees(s.db, s'.db, key, Completed, Some(task));
      forall q | q in s.rt ensures EventsKept(s.db, s'.db, q) {
        NewKeyKeepsOthers(s.db, s'.db, key, Dedup(Completed, Some(task), None), q);
      }
      RouterStepKeepsEvents(s, s');
    }
  }

  lemma ResumeKeepsEvents(s: Sys, key: Id, run: Id, task: Id, requester: Id)
    requires Inv(s) && EventsOk(s) && s.router.Free?
    ensures EventsOk(RouterResume(s, key, run, task, requester))
  {
    ConsistentFromInv(s);
    hide Inv, EventsAgree, EventsKept, AcceptsRun, RouterHasEvent, RecordHasEvent;
    var s' := RouterResume(s, key, run, task, requester);
    var (db', a) := AdmitResumeRun(s.db, key, run, task, requester);
    if db' != s.db {
      ResumptionAgrees(s.db, key, run, task, requester);
      RouterWithResume(s, key, run, task, requester);
      RouterStepKeepsEvents(s, s');
    } else {
      NothingResumed(s, key, run, task, requester);
    }
  }

  lemma NothingResumed(s: Sys, key: Id, run: Id, task: Id, requester: Id)
    requires AdmitResumeRun(s.db, key, run, task, requester).0 == s.db
    ensures RouterResume(s, key, run, task, requester) == s
  {
  }

  lemma ResumptionAgrees(db: Db, key: Id, run: Id, task: Id, requester: Id)
    requires Consistent(db) && EventsAgree(db)
    requires AdmitResumeRun(db, key, run, task, requester).0 != db
    ensures var (db', a) := AdmitResumeRun(db, key, run, task, requester);
            && EventsAgree(db') && (forall q :: q in db.runs ==> EventsKept(db, db', q))
            && (a == Admitted ==> EventOf(db', run, key, Processing))
  {
    var (db', a) := AdmitResumeRun(db, key, run, task, requester);
    hide Consistent, EventsAgree;
    assert key != NO_ID && key !in db.dedup;
    if a == Admitted {
      AdmissionAgrees(db, db', key, task, run);
    } else {
      SettledKeyAgrees(db, db', key, Rejected, None);
    }
    forall q | q in db.runs ensures EventsKept(db, db', q) {
      NewKeyKeepsOthers(db, db', key, db'.dedup[key], q);
    }
  }

  lemma RouterWithResume(s: Sys, key: Id, run: Id, task: Id, requester: Id)
    requires s.router.Free? && (AdmitResumeRun(s.db, key, run, task, requester).1 == Admitted ==>
                                  EventOf(AdmitResumeRun(s.db, key, run, task, requester).0, run, key, Processing))
    ensures var s' := RouterResume(s, key, run, task, requester);
            && s'.db == AdmitResumeRun(s.db, key, run, task, requester).0 && s'.rt == s.rt && RouterHasEvent(s'.db, s'.router)
  {
    hide AdmitResumeRun;
  }

  lemma RestartKeepsEvents(s: Sys, stored: bool)
    requires EventsOk(s) && s.router.RestartAllowed?
    ensures EventsOk(RouterAdmitRestart(s, stored))
  {
    var s' := RouterAdmitRestart(s, stored);
    if s'.db != s.db {
      SettledKeyAgrees(s.db, s'.db, s.router.key, Completed, None);
      forall q | q in s.rt ensures EventsKept(s.db, s'.db, q) {
        NewKeyKeepsOthers(s.db, s'.db, s.router.key, Dedup(Completed, None, None), q);
      }
      RouterStepKeepsEvents(s, s');
    }
  }

  lemma FailKeepsEvents(s: Sys, stored: bool)
    requires Inv(s) && EventsOk(s) && s.router.Failing?
    ensures EventsOk(RouterFail(s, stored))
  {
    RouterFromInv(s);
    ConsistentFromInv(s);
    hide Inv, EventsAgree, EventsKept, Consistent, FinishRun, RecordHasEvent;
    var (s', f) := (RouterFail(s, stored), s.router);
    RunHasTask(s.db, f.run);
    if s'.db != s.db {
      FinishAgrees(s.db, f.key, f.run, f.stored, NO_ID, Failed, -1);
      forall q | q in s.rt ensures EventsKept(s.db, s'.db, q) {
        FinishKeepsOthers(s.db, f.key, f.run, f.stored, NO_ID, Failed, -1, q);
      }
      RouterStepKeepsEvents(s, s');
    } else {
      QuietStepKeepsEvents(s, s');
    }
  }

  lemma EnqueueKeepsEvents(s: Sys, t: nat, prepared: bool)
    requires Inv(s) && EventsOk(s) && s.router.Placed?
    ensures EventsOk(RouterEnqueue(s, t, prepared))
  {
    RouterFromInv(s);
    hide Inv, EventsAgree, Register;
    QuietStepKeepsEvents(s, RouterEnqueue(s, t, prepared));
  }

  lemma OtherStepsKeepEvents(s: Sys, a: Action)
    requires Inv(s) && EventsOk(s) && Enabled(s, a)
    requires !a.Run? && !a.NewTask? && !a.Attach? && !a.ResumeTask? && !a.Enqueue? && !a.FailQueuedRun? && !a.AdmitTheRestart? && !a.Recover?
    ensures EventsOk(Step(s, a))
  {
    hide Inv, EventsAgree, HasActiveTask, ActiveFor, RecoverRunning, EventOf;
    QuietStepKeepsEvents(s, Step(s, a));
  }

  lemma RecoverKeepsEvents(s: Sys)
    requires Inv(s) && EventsOk(s) && !s.up
    ensures EventsOk(s.(up := true, db := RecoverRunning(s.db)))
  {
    RecoveryAgrees(s.db);
    DownIsEmpty(s);
    hide Inv, EventsAgree, RecoverRunning;
  }

  lemma DownIsEmpty(s: Sys)
    requires Inv(s) && !s.up
    ensures s.rt == map[] && s.router == Free
  {
  }

  lemma StepKeepsEvents(s: Sys, a: Action)
    requires Inv(s) && EventsOk(s) && Enabled(s, a)
    ensures EventsOk(Step(s, a))
  {
    hide Inv, EventsOk, ThreadStep, RouterNewTask, RouterAttach, RouterResume, RouterEnqueue, RouterFail, RouterAdmitRestart, Notification, RecoverRunning;
    match a
    case Run(t, reply) =>
      if HasNoRun(s.threads[t].pc) {
        FreeStep(s, t, reply);
        FreeKeepsEvents(s, t, reply);
      } else {
        RunKeepsEvents(s, t, reply);
      }
    case NewTask(key, task, run, owner) => NewTaskKeepsEvents(s, key, task, run, owner);
    case Attach(key, task, thread, owner) => AttachKeepsEvents(s, key, task, thread, owner);
    case ResumeTask(key, run, task, requester) => ResumeKeepsEvents(s, key, run, task, requester);
    case Enqueue(t, prepared) => EnqueueKeepsEvents(s, t, prepared);
    case FailQueuedRun(stored) => FailKeepsEvents(s, stored);
    case AdmitTheRestart(stored) => RestartKeepsEvents(s, stored);
    case Recover => RecoverKeepsEvents(s);
    case _ =>
      hide Step;
      OtherStepsKeepEvents(s, a);
  }

  lemma FreeKeepsEvents(s: Sys, t: nat, reply: Reply)
    requires EventsOk(s) && t in s.threads && ThreadStep(s, t, reply) == s.(threads := ThreadStep(s, t, reply).threads)
    ensures EventsOk(ThreadStep(s, t, reply))
  {
    hide ThreadStep, EventsAgree;
  }

  lemma {:induction false} ReachableEvents(states: seq<Sys>, actions: seq<Action>, i: nat)
    requires IsRun(states, actions) && i < |states|
    ensures EventsOk(states[i])
  {
    if i > 0 {
      hide EventsOk, Inv, Step;
      ReachableEvents(states, actions, i - 1);
      ReachableInv(states, actions, i - 1);
      StepKeepsEvents(states[i - 1], actions[i - 1]);
    }
  }

  /**
   In every reachable state an event is in progress exactly as long as the run it
   started is queued or running; there is one event for each such run, and the event
   of a finished run of this process is completed.
   */
  lemma EventsFollowTheirRuns(states: seq<Sys>, actions: seq<Action>, i: nat, s: Sys, key: Id, r: Id)
    requires At(states, actions, i, s)
    ensures key in s.db.dedup && s.db.dedup[key].state == Processing ==>
              && s.db.dedup[key].run.Some? && s.db.dedup[key].run.value in s.db.runs
              && IsActive(s.db.runs[s.db.dedup[key].run.value].status)
    ensures r in s.db.runs && IsActive(s.db.runs[r].status) ==> exists k :: EventOf(s.db, r, k, Processing)
    ensures r in s.rt && s.rt[r].commits != [] ==> EventOf(s.db, r, s.rt[r].key, Completed)
  {
    ReachableEvents(states, actions, i);
    assert InProgress(s.db, key) && HasEvent(s.db, r);
    assert r in s.rt ==> RecordHasEvent(s.db, r, s.rt[r]);
  }
}
