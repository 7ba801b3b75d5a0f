/** Every action of the system keeps the invariant; hence every reachable state satisfies it. */
module LifecycleSteps {
  import opened Tables
  import opened Lifecycle
  import opened LifecycleInvariant
  import opened LifecycleSafety

  // ---- Frames ------------------------------------------------------------------------

  /** A store step on a run without a runtime record, or on none, is invisible to the records. */
  lemma RowsElsewhere(db: Db, db': Db, rt: map<Id, Active>)
    requires RecordsOk(db, rt)
    requires forall r :: r in rt && r in db.runs ==> r in db'.runs && db'.runs[r] == db.runs[r]
    ensures RecordsOk(db', rt)
  {
    forall r | r in rt ensures RecordOk(db', r, rt[r]) {
      assert RecordOk(db, r, rt[r]);
    }
  }

  lemma LogExtends(s: Sys, s': Sys)
    requires LogOk(s) && Grows(s.db, s'.db) && s'.log == s.log && s'.restarts == s.restarts
    ensures LogOk(s')
  {
  }

  lemma LogAppends(s: Sys, s': Sys, effect: Effect)
    requires LogOk(s) && Grows(s.db, s'.db) && s'.log == s.log + [effect] && s'.restarts == s.restarts
    requires effect.key !in s.db.dedup && effect.key in s'.db.dedup
    ensures LogOk(s')
  {
  }

  /** The two maps differ at most in goroutine t. */
  ghost predicate SameButOne(threads: map<nat, Thread>, threads': map<nat, Thread>, t: nat) {
    && (forall u :: u != t ==> (u in threads' <==> u in threads))
    && (forall u :: u != t && u in threads ==> threads'[u] == threads[u])
  }

  lemma PutOrDrop(threads: map<nat, Thread>, t: nat, th: Thread)
    ensures SameButOne(threads, threads[t := th], t) && SameButOne(threads, threads - {t}, t)
  {
  }

  /** A goroutine that owes nothing may appear, change or go. */
  lemma FreeThreadKeepsOwed(rt: map<Id, Active>, threads: map<nat, Thread>, threads': map<nat, Thread>, t: nat, closed: bool)
    requires OwedOk(rt, threads, closed) && SameButOne(threads, threads', t)
    requires t in threads ==> HasNoRun(threads[t].pc)
    ensures OwedOk(rt, threads', closed)
  {
    forall q | q in rt
      ensures LaunchAlive(rt, threads', q) && WinnerAlive(rt, threads', closed, q) && StopCarried(rt, threads', closed, q)
    {
      assert LaunchAlive(rt, threads, q) && WinnerAlive(rt, threads, closed, q) && StopCarried(rt, threads, closed, q);
      if rt[q].stopRequested && !rt[q].terminal && !closed {
        var u :| Carrier(rt, threads, q, u);
        assert Carrier(rt, threads', q, u);
      }
    }
  }

  lemma FreeThreadKeepsThreads(rt: map<Id, Active>, threads: map<nat, Thread>, threads': map<nat, Thread>, t: nat)
    requires ThreadsOk(rt, threads) && SameButOne(threads, threads', t)
    requires t in threads' ==> ThreadOk(rt, t, threads'[t])
    ensures ThreadsOk(rt, threads')
  {
    forall u | u in threads' ensures ThreadOk(rt, u, threads'[u]) {
      assert u != t ==> ThreadOk(rt, u, threads[u]);
    }
  }

  lemma FreeThreadKeepsInv(s: Sys, threads': map<nat, Thread>, t: nat)
    requires Inv(s) && s.up
    requires t in s.threads ==> HasNoRun(s.threads[t].pc)
    requires t in threads' ==> ThreadOk(s.rt, t, threads'[t])
    requires SameButOne(s.threads, threads', t)
    ensures Inv(s.(threads := threads'))
  {
    FreeThreadKeepsOwed(s.rt, s.threads, threads', t, s.closed);
    FreeThreadKeepsThreads(s.rt, s.threads, threads', t);
  }

  lemma PutFreeThread(s: Sys, t: nat, th: Thread)
    requires Inv(s) && s.up && (t in s.threads ==> HasNoRun(s.threads[t].pc)) && ThreadOk(s.rt, t, th)
    ensures Inv(s.(threads := s.threads[t := th]))
  {
    PutOrDrop(s.threads, t, th);
    FreeThreadKeepsInv(s, s.threads[t := th], t);
  }

  lemma DropFreeThread(s: Sys, t: nat)
    requires Inv(s) && s.up && t in s.threads && HasNoRun(s.threads[t].pc)
    ensures Inv(s.(threads := s.threads - {t}))
  {
    PutOrDrop(s.threads, t, s.threads[t]);
    FreeThreadKeepsInv(s, s.threads - {t}, t);
  }

  // ---- Goroutines ------------------------------------------------------------------------

  lemma KnowsFromInv(s: Sys, t: nat)
    requires Inv(s) && t in s.threads && !HasNoRun(s.threads[t].pc)
    ensures s.threads[t].run in s.rt
    ensures Knows(s.rt[s.threads[t].run], t, s.threads[t].pc, s.closed)
    ensures RecordOk(s.db, s.threads[t].run, s.rt[s.threads[t].run])
  {
    hide PcOk, Consistent, IndexesOk, RouterOk, LogOk, RowOk, StopCarried;
    var r := s.threads[t].run;
    assert ThreadOk(s.rt, t, s.threads[t]);
    assert RecordOk(s.db, r, s.rt[r]);
    assert LaunchAlive(s.rt, s.threads, r) && WinnerAlive(s.rt, s.threads, s.closed, r);
  }

  lemma RouterUnmoved(s: Sys, s': Sys, r: Id)
    requires RouterOk(s) && r in s.rt && StoreBargain(s.db, s'.db, r)
    requires s'.router == s.router && s'.rt.Keys == s.rt.Keys && s'.restarts == s.restarts
    ensures RouterOk(s')
  {
  }

  lemma RecordsFollow(s: Sys, rt': map<Id, Active>, r: Id, a': Active, db': Db)
    requires RecordsOk(s.db, s.rt) && r in s.rt && StoreBargain(s.db, db', r) && RecordOk(db', r, a')
    requires rt' == s.rt[r := a']
    ensures RecordsOk(db', rt')
  {
    forall q | q in rt' ensures RecordOk(db', q, rt'[q]) {
      assert q != r ==> RecordOk(s.db, q, s.rt[q]);
    }
  }

  /** The goroutines after a step of t on run r. */
  lemma GoroutinesFollow(s: Sys, s': Sys, t: nat, r: Id, next: Next)
    requires ThreadsOk(s.rt, s.threads) && OwedOk(s.rt, s.threads, s.closed)
    requires t in s.threads && s.threads[t].run == r && r in s.rt && r in s'.rt && s'.rt == s.rt[r := s'.rt[r]]
    requires KeepsBargain(s.rt[r], s'.rt[r], t, s.threads[t].pc, next, s.closed)
    requires Moved(s.threads, s'.threads, t, next) && s'.closed == s.closed
    ensures ThreadsOk(s'.rt, s'.threads) && OwedOk(s'.rt, s'.threads, s'.closed)
  {
    StepKeepsThreads(s.rt, s.threads, s'.threads, t, r, s'.rt[r], next, s.closed);
    StepKeepsOwed(s.rt, s.threads, s'.threads, t, r, s'.rt[r], next, s.closed);
  }

  /** The rows, the router and the logs after a step on run r. */
  lemma StoreFollows(s: Sys, s': Sys, r: Id)
    requires RecordsOk(s.db, s.rt) && RouterOk(s) && LogOk(s)
    requires r in s.rt && r in s'.rt && s'.rt == s.rt[r := s'.rt[r]]
    requires StoreBargain(s.db, s'.db, r) && RecordOk(s'.db, r, s'.rt[r])
    requires s'.router == s.router && s'.restarts == s.restarts && s'.log == s.log
    ensures RecordsOk(s'.db, s'.rt) && RouterOk(s') && LogOk(s')
  {
    RecordsFollow(s, s'.rt, r, s'.rt[r], s'.db);
    RouterUnmoved(s, s', r);
    LogExtends(s, s');
  }

  lemma RunStepKeepsInv(s: Sys, s': Sys, t: nat, reply: Reply, v: View, v': View, next: Next)
    requires Inv(s) && t in s.threads && !HasNoRun(s.threads[t].pc) && s.threads[t].run in s.rt
    requires v == View(s.threads[t].run, t, s.closed, s.rt[s.threads[t].run], s.db, s.ix)
    requires (v', next) == RunStep(v, s.threads[t].pc, reply) && v'.run == v.run
    requires Moved(s.threads, s'.threads, t, next)
    requires s' == s.(rt := s.rt[v'.run := v'.a], db := v'.db, ix := v'.ix, threads := s'.threads)
    ensures Inv(s')
  {
    KnowsFromInv(s, t);
    var (r, pc) := (v.run, s.threads[t].pc);
    assert KeepsBargain(s.rt[r], s'.rt[r], t, pc, next, s.closed) by { RunStepKeepsBargain(v, pc, reply); }
    assert StoreBargain(s.db, s'.db, r) by { RunStepKeepsStoreBargain(v, pc, reply); }
    RunStepKeepsRecord(v, pc, reply, v', next);
    RunStepKeepsIndexes(s.rt, v, pc, reply);
    GoroutinesFollow(s, s', t, r, next);
    StoreFollows(s, s', r);
  }

  lemma RunStepKeepsRun(v: View, pc: Pc, reply: Reply)
    ensures RunStep(v, pc, reply).0.run == v.run
  {
  }

  /** In the store, too, the step is one on its own run. */
  lemma RunStepStores(s: Sys, t: nat, reply: Reply)
    requires Inv(s) && t in s.threads && !HasNoRun(s.threads[t].pc)
    ensures StoreBargain(s.db, ThreadStep(s, t, reply).db, s.threads[t].run) && ThreadStep(s, t, reply).log == s.log
  {
    hide RunStep, StoreBargain, Inv, Knows, RecordOk, Consistent;
    KnowsFromInv(s, t);
    ConsistentFromInv(s);
    var (r, pc) := (s.threads[t].run, s.threads[t].pc);
    RunStepKeepsStoreBargain(View(r, t, s.closed, s.rt[r], s.db, s.ix), pc, reply);
  }

  lemma ConsistentFromInv(s: Sys)
    requires Inv(s)
    ensures Consistent(s.db)
  {
  }

  lemma FailStepKeepsInv(s: Sys, t: nat, reply: Reply)
    requires Inv(s) && s.up && t in s.threads && s.threads[t].pc.FailNext?
    ensures Inv(FailStep(s, t, reply))
  {
    var th := s.threads[t];
    assert ThreadOk(s.rt, t, th);
    if reply.Returned? && reply.id in th.todo {
      PutFreeThread(s, t, th.(run := reply.id, pc := Finish(Failed), todo := th.todo - {reply.id}));
    } else if th.todo == {} {
      DropFreeThread(s, t);
    }
  }

  lemma MoveKeepsInv(s: Sys, t: nat, next: Next)
    requires Inv(s) && s.up && t in s.threads && HasNoRun(s.threads[t].pc) && (next.Goto? ==> HasNoRun(next.pc))
    ensures Inv(Move(s, t, next))
  {
    var th := s.threads[t];
    assert ThreadOk(s.rt, t, th);
    if next.Goto? {
      PutFreeThread(s, t, th.(pc := next.pc));
    } else if th.failing {
      PutFreeThread(s, t, th.(pc := FailNext));
    } else {
      DropFreeThread(s, t);
    }
  }

  lemma LookupFinds(rt: map<Id, Active>, ix: Indexes, t: nat, th: Thread, task: Id, pc: Pc)
    requires IndexesOk(rt, ix) && task in ix.byTask && th.todo <= rt.Keys && (pc == SteerCheck || pc == StopCheck)
    ensures ThreadOk(rt, t, th.(run := ix.byTask[task], pc := pc))
  {
  }

  lemma LookupStepKeepsInv(s: Sys, t: nat)
    requires Inv(s) && s.up && t in s.threads && (s.threads[t].pc.Available? || s.threads[t].pc.Lookup?)
    ensures Inv(LookupStep(s, t))
  {
    var th := s.threads[t];
    assert ThreadOk(s.rt, t, th);
    if th.pc.Available? {
      MoveKeepsInv(s, t, if s.closed || s.unavailable then Return else Goto(Lookup(th.pc.task, th.pc.steer)));
    } else if th.pc.task in s.ix.byTask {
      LookupFinds(s.rt, s.ix, t, th, th.pc.task, if th.pc.steer then SteerCheck else StopCheck);
      PutFreeThread(s, t, th.(run := s.ix.byTask[th.pc.task], pc := if th.pc.steer then SteerCheck else StopCheck));
    } else {
      MoveKeepsInv(s, t, Return);
    }
  }

  lemma ThreadStepKeepsInv(s: Sys, t: nat, reply: Reply)
    requires Inv(s) && t in s.threads
    ensures Inv(ThreadStep(s, t, reply))
  {
    var (r, pc) := (s.threads[t].run, s.threads[t].pc);
    if pc.FailNext? {
      FailStepKeepsInv(s, t, reply);
    } else if pc.Available? || pc.Lookup? {
      LookupStepKeepsInv(s, t);
    } else {
      KnowsFromInv(s, t);
      var v := View(r, t, s.closed, s.rt[r], s.db, s.ix);
      var (v', next) := RunStep(v, pc, reply);
      RunStepKeepsRun(v, pc, reply);
      MoveMoves(s.(rt := s.rt[r := v'.a], db := v'.db, ix := v'.ix), t, next);
      RunStepKeepsInv(s, ThreadStep(s, t, reply), t, reply, v, v', next);
    }
  }

  lemma NotificationKeepsInv(s: Sys, t: nat, thread: Id, turn: Id, andThen: Then)
    requires Inv(s) && s.up && Fresh(s, t)
    requires andThen.ToExit? || (andThen.ToFinish? && IsTerminal(andThen.status))
    ensures Inv(Notification(s, t, thread, turn, andThen))
  {
    if ActiveFor(s.ix, thread, turn).Some? {
      ActiveForIsKnown(s.rt, s.ix, thread, turn);
      NotifiedThreadOk(s.rt, t, ActiveFor(s.ix, thread, turn).value, turn, andThen);
      if turn != NO_ID {
        PutFreeThread(s, t, Thread(ActiveFor(s.ix, thread, turn).value, ReadIds(turn, andThen), false, {}));
      } else if andThen.ToFinish? {
        PutFreeThread(s, t, Thread(ActiveFor(s.ix, thread, turn).value, Finish(andThen.status), false, {}));
      }
    }
  }

  lemma NotifiedThreadOk(rt: map<Id, Active>, t: nat, r: Id, turn: Id, andThen: Then)
    requires r in rt && rt[r].thread != NO_ID
    requires andThen.ToExit? || (andThen.ToFinish? && IsTerminal(andThen.status))
    ensures turn != NO_ID ==> ThreadOk(rt, t, Thread(r, ReadIds(turn, andThen), false, {}))
    ensures andThen.ToFinish? ==> ThreadOk(rt, t, Thread(r, Finish(andThen.status), false, {}))
  {
  }

  /** A notification finds a run that has its thread. */
  lemma ActiveForIsKnown(rt: map<Id, Active>, ix: Indexes, thread: Id, turn: Id)
    requires IndexesOk(rt, ix) && ActiveFor(ix, thread, turn).Some?
    ensures var r := ActiveFor(ix, thread, turn).value; r in rt && rt[r].thread != NO_ID && rt[r].thread == thread
  {
  }

  // ---- The router -----------------------------------------------------------------------------

  lemma NewTaskKeepsInv(s: Sys, key: Id, task: Id, run: Id, owner: Id)
    requires Inv(s) && s.up && s.router.Free?
    ensures Inv(RouterNewTask(s, key, task, run, owner))
  {
    hide Consistent, OwedOk, ThreadsOk, IndexesOk, AcceptsRun;
    var s' := RouterNewTask(s, key, task, run, owner);
    AdmitNewTaskKeepsConsistent(s.db, key, task, run, owner);
    if s' != s {
      RowsElsewhere(s.db, s'.db, s.rt);
      LogAppends(s, s', TaskCreated(key, task, run));
    }
  }

  lemma AttachKeepsInv(s: Sys, key: Id, task: Id, thread: Id, owner: Id)
    requires Inv(s) && s.up && s.router.Free?
    ensures Inv(RouterAttach(s, key, task, thread, owner))
  {
    var s' := RouterAttach(s, key, task, thread, owner);
    AttachThreadKeepsConsistent(s.db, key, task, thread, owner);
    if s' != s {
      RowsElsewhere(s.db, s'.db, s.rt);
      LogAppends(s, s', TaskAttached(key, task));
    }
  }

  lemma RecordsHaveRows(db: Db, rt: map<Id, Active>)
    requires RecordsOk(db, rt)
    ensures rt.Keys <= db.runs.Keys
  {
    forall r | r in rt ensures r in db.runs {
      assert RecordOk(db, r, rt[r]);
    }
  }

  lemma ResumeKeepsInv(s: Sys, key: Id, run: Id, task: Id, requester: Id)
    requires Inv(s) && s.up && s.router.Free?
    ensures Inv(RouterResume(s, key, run, task, requester))
  {
    hide Consistent, OwedOk, ThreadsOk, IndexesOk, Grows, AcceptsRun, RecordSane, CanStart, HasActiveTask, RecordOk;
    var s' := RouterResume(s, key, run, task, requester);
    AdmitResumeKeepsConsistent(s.db, key, run, task, requester);
    AdmitResumeGrows(s.db, key, run, task, requester);
    RowsElsewhere(s.db, s'.db, s.rt);
    if AdmitResumeRun(s.db, key, run, task, requester).1 == Admitted {
      RecordsHaveRows(s.db, s.rt);
      LogAppends(s, s', RunCreated(key, task, run));
    } else {
      LogExtends(s, s');
    }
  }

  lemma RegisterKeepsIndexes(rt: map<Id, Active>, ix: Indexes, run: Id, a: Active)
    requires IndexesOk(rt, ix) && run !in rt && a.task !in ix.byTask && !a.gone
    ensures IndexesOk(rt[run := a], Register(ix, run, a.task))
  {
    var (rt', ix') := (rt[run := a], Register(ix, run, a.task));
    assert ByRunOk(rt', ix');
    assert ByTaskOk(rt', ix');
    assert ByThreadOk(rt', ix');
    assert ByTurnOk(rt', ix');
  }

  lemma EnqueueKeepsInv(s: Sys, t: nat, prepared: bool)
    requires Inv(s) && s.router.Placed? && Fresh(s, t)
    ensures Inv(RouterEnqueue(s, t, prepared))
  {
    var (s', p) := (RouterEnqueue(s, t, prepared), s.router);
    if s'.router.Free? {
      var a := s'.rt[p.run];
      RegisterKeepsIndexes(s.rt, s.ix, p.run, a);
      EnqueueKeepsThreads(s, t, p.run, a);
      forall q | q in s'.rt ensures RecordOk(s'.db, q, s'.rt[q]) {
        assert q != p.run ==> RecordOk(s.db, q, s.rt[q]);
      }
    }
  }

  lemma EnqueueKeepsThreads(s: Sys, t: nat, run: Id, a: Active)
    requires ThreadsOk(s.rt, s.threads) && OwedOk(s.rt, s.threads, s.closed) && Fresh(s, t) && run !in s.rt
    requires a.launcher == t && a.thread == NO_ID && !a.stopRequested && !a.terminal
    ensures ThreadsOk(s.rt[run := a], s.threads[t := Thread(run, Open, false, {})])
    ensures OwedOk(s.rt[run := a], s.threads[t := Thread(run, Open, false, {})], s.closed)
  {
    var (rt', threads') := (s.rt[run := a], s.threads[t := Thread(run, Open, false, {})]);
    PutOrDrop(s.threads, t, Thread(run, Open, false, {}));
    FreeThreadKeepsOwed(s.rt, s.threads, threads', t, s.closed);
    forall u | u in threads' ensures ThreadOk(rt', u, threads'[u]) {
      assert u != t ==> ThreadOk(s.rt, u, s.threads[u]);
    }
    forall q | q in rt'
      ensures LaunchAlive(rt', threads', q) && WinnerAlive(rt', threads', s.closed, q) && StopCarried(rt', threads', s.closed, q)
    {
      if q != run {
        assert LaunchAlive(s.rt, threads', q) && WinnerAlive(s.rt, threads', s.closed, q) && StopCarried(s.rt, threads', s.closed, q);
        if rt'[q].stopRequested && !rt'[q].terminal && !s.closed {
          var u :| Carrier(s.rt, threads', q, u);
          assert Carrier(rt', threads', q, u);
        }
      }
    }
  }

  lemma FailKeepsInv(s: Sys, stored: bool)
    requires Inv(s) && s.router.Failing?
    ensures Inv(RouterFail(s, stored))
  {
    var (s', f) := (RouterFail(s, stored), s.router);
    FinishRunKeepsStoreBargain(s.db, f.key, f.run, f.stored, NO_ID, Failed, -1);
    SameStoreKeepsBargain(s.db, f.run);
    RowsElsewhere(s.db, s'.db, s.rt);
    LogExtends(s, s');
  }

  lemma AdmitRestartKeepsInv(s: Sys, stored: bool)
    requires Inv(s) && s.router.RestartAllowed?
    ensures Inv(RouterAdmitRestart(s, stored))
  {
    var s' := RouterAdmitRestart(s, stored);
    DedupIsIrrelevant(s.db, s'.db.dedup);
    RowsElsewhere(s.db, s'.db, s.rt);
    if s'.log != s.log {
      LogAppends(s, s', RestartGranted(s.router.key));
    }
  }

  lemma RecoverKeepsInv(s: Sys)
    requires Inv(s) && !s.up
    ensures Inv(s.(up := true, db := RecoverRunning(s.db)))
  {
    RecoverMakesConsistent(s.db);
    LogExtends(s, s.(up := true, db := RecoverRunning(s.db)));
  }

  lemma CloseKeepsInv(s: Sys)
    requires Inv(s) && s.up
    ensures Inv(s.(closed := true))
  {
    forall q | q in s.rt
      ensures LaunchAlive(s.rt, s.threads, q) && WinnerAlive(s.rt, s.threads, true, q) && StopCarried(s.rt, s.threads, true, q)
    {
      assert LaunchAlive(s.rt, s.threads, q);
    }
  }

  lemma LossKeepsInv(s: Sys)
    requires Inv(s)
    ensures Inv(s.(unavailable := true))
  {
    hide Consistent, OwedOk, ThreadsOk, IndexesOk, RecordsOk;
  }

  lemma CrashKeepsInv(s: Sys)
    requires Inv(s)
    ensures Inv(Sys(false, false, false, s.db, map[], NO_INDEXES, map[], Free, s.log, s.restarts))
  {
    hide Consistent;
  }

  lemma CallKeepsInv(s: Sys, t: nat, task: Id, steer: bool)
    requires Inv(s) && s.up && Fresh(s, t)
    ensures Inv(Spawn(s, t, NO_ID, Available(task, steer)))
  {
    hide Inv;
    PutFreeThread(s, t, Thread(NO_ID, Available(task, steer), false, {}));
  }

  lemma SnapshotKeepsInv(s: Sys, t: nat)
    requires Inv(s) && s.up && Fresh(s, t)
    ensures Inv(s.(threads := s.threads[t := Thread(NO_ID, FailNext, true, s.ix.byRun.Keys)]))
  {
    hide Consistent, OwedOk, ThreadsOk, RecordsOk, RouterOk, LogOk, ByTaskOk, ByThreadOk, ByTurnOk;
    PutFreeThread(s, t, Thread(NO_ID, FailNext, true, s.ix.byRun.Keys));
  }

  lemma AskRestartKeepsInv(s: Sys, key: Id)
    requires Inv(s) && s.up && s.router.Free?
    ensures Inv(RouterAskRestart(s, key))
  {
    hide Consistent, OwedOk, ThreadsOk, IndexesOk, RecordsOk;
  }

  lemma InvokeRestartKeepsInv(s: Sys, notified: bool)
    requires Inv(s) && s.router.RestartAdmitted?
    ensures Inv(RouterRestart(s, notified))
  {
    hide Consistent, OwedOk, ThreadsOk, IndexesOk, RecordsOk;
  }

  // ---- All actions, all runs -----------------------------------------------------------------------

  lemma StepKeepsInv(s: Sys, a: Action)
    requires Inv(s) && Enabled(s, a)
    ensures Inv(Step(s, a))
  {
    hide ThreadStep, RouterNewTask, RouterAttach, RouterResume, RouterEnqueue, RouterFail, RouterAdmitRestart, Notification;
    hide Inv, Fresh, RecoverRunning;
    match a
    case Run(t, reply) => ThreadStepKeepsInv(s, t, reply);
    case CallStop(t, task) => CallKeepsInv(s, t, task, false);
    case CallSteer(t, task) => CallKeepsInv(s, t, task, true);
    case TurnStarted(t, thread, turn) => NotificationKeepsInv(s, t, thread, turn, ToExit);
    case TurnCompleted(t, thread, turn, status) => NotificationKeepsInv(s, t, thread, turn, ToFinish(status));
    case FailActiveRuns(t) => SnapshotKeepsInv(s, t);
    case NewTask(key, task, run, owner) => NewTaskKeepsInv(s, key, task, run, owner);
    case Attach(key, task, thread, owner) => AttachKeepsInv(s, key, task, thread, owner);
    case ResumeTask(key, run, task, requester) => ResumeKeepsInv(s, key, run, task, requester);
    case Enqueue(t, prepared) => EnqueueKeepsInv(s, t, prepared);
    case FailQueuedRun(stored) => FailKeepsInv(s, stored);
    case AskRestart(key) => AskRestartKeepsInv(s, key);
    case AdmitTheRestart(stored) => AdmitRestartKeepsInv(s, stored);
    case InvokeRestart(notified) => InvokeRestartKeepsInv(s, notified);
    case Close => CloseKeepsInv(s);
    case LoseAppServer => LossKeepsInv(s);
    case Crash => CrashKeepsInv(s);
    case Recover => RecoverKeepsInv(s);
  }

  lemma {:induction false} ReachableInv(states: seq<Sys>, actions: seq<Action>, i: nat)
    requires IsRun(states, actions) && i < |states|
    ensures Inv(states[i])
  {
    if i == 0 {
      assert Inv(START);
    } else {
      ReachableInv(states, actions, i - 1);
      StepKeepsInv(states[i - 1], actions[i - 1]);
    }
  }
}
