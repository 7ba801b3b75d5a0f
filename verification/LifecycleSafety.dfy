/** The invariant of `LifecycleInvariant` holds after every step of the system. */
module LifecycleSafety {
  import opened Tables
  import opened Lifecycle
  import opened LifecycleInvariant

  // ---- Rows: what a goroutine's step does to the store ---------------------------

  /** A step of a goroutine changes the row of its own run only, and starts nothing. */
  ghost predicate StoreBargain(db: Db, db': Db, run: Id) {
    && Consistent(db')
    && Grows(db, db')
    && db'.runs.Keys == db.runs.Keys && db'.tasks.Keys == db.tasks.Keys
    && (forall q :: q in db.runs && q != run ==> db'.runs[q] == db.runs[q])
    && (forall k :: k in db'.tasks && IsActive(db'.tasks[k].status) ==> k in db.tasks && IsActive(db.tasks[k].status))
  }

  lemma StartRunKeepsStoreBargain(db: Db, run: Id, thread: Id, turn: Id)
    requires Consistent(db)
    ensures StoreBargain(db, StartRun(db, run, thread, turn).0, run)
    ensures run in db.runs && IsActive(db.runs[run].status) ==>
              IsActive(StartRun(db, run, thread, turn).0.runs[run].status)
  {
    hide Consistent, Grows;
    StartRunKeepsConsistent(db, run, thread, turn);
    StartRunGrows(db, run, thread, turn);
  }

  lemma FinishRunFrames(db: Db, key: Id, run: Id, thread: Id, turn: Id, status: Status, exitCode: int)
    requires run in db.runs && db.runs[run].task in db.tasks && IsTerminal(status)
    ensures var db' := FinishRun(db, key, run, thread, turn, status, exitCode).0;
            && db'.runs.Keys == db.runs.Keys && db'.tasks.Keys == db.tasks.Keys
            && (forall q :: q in db.runs && q != run ==> db'.runs[q] == db.runs[q])
            && (forall k :: k in db'.tasks && IsActive(db'.tasks[k].status) ==> k in db.tasks && IsActive(db.tasks[k].status))
            && db'.runs[run].status == status
  {
  }

  lemma FinishRunKeepsStoreBargain(db: Db, key: Id, run: Id, thread: Id, turn: Id, status: Status, exitCode: int)
    requires Consistent(db) && run in db.runs && IsActive(db.runs[run].status) && IsTerminal(status)
    ensures StoreBargain(db, FinishRun(db, key, run, thread, turn, status, exitCode).0, run)
    ensures FinishRun(db, key, run, thread, turn, status, exitCode).0.runs[run].status == status
  {
    assert db.runs[run].task in db.tasks;
    hide Consistent, Grows, FinishRun;
    FinishRunFrames(db, key, run, thread, turn, status, exitCode);
    FinishRunKeepsConsistentIff(db, key, run, thread, turn, status, exitCode);
    FinishRunGrowsIff(db, key, run, thread, turn, status, exitCode);
  }

  lemma SameStoreKeepsBargain(db: Db, run: Id)
    requires Consistent(db)
    ensures StoreBargain(db, db, run)
  {
  }

  /** Only three program counters touch the store, only one of them the commits, and only three the indexes. */
  ghost predicate Shape(v: View, pc: Pc, v': View) {
    && v'.run == v.run
    && (if pc.StartRun1? then v'.db == v.db || v'.db == StartRun(v.db, v.run, pc.thread, NO_ID).0
        else if pc.StartRun2? then v'.db == v.db || v'.db == StartRun(v.db, v.run, pc.thread, pc.turn).0
        else if pc.Persist? then
          (v'.db == v.db && v'.a == v.a)
          || (v'.a.commits == v.a.commits + [v.a.verdict]
              && v'.db == FinishRun(v.db, v.a.key, v.run, pc.thread, pc.turn, v.a.verdict, ExitCode(v.a.verdict)).0)
        else v'.db == v.db)
    && (!pc.Persist? ==> v'.a.commits == v.a.commits)
    && (if pc.Unregistering? then
          v' == v.(ix := Unregister(v.ix, v.run, v.a.task, EffectiveThread(v.a), v.a.turn), a := v.a.(gone := true))
        else
          && v'.a.gone == v.a.gone
          && (v'.ix == v.ix
              || (pc.IndexThread? && !v.a.terminal && v'.a == v.a
                  && v'.ix == v.ix.(byThread := v.ix.byThread[pc.thread := v.run]))
              || (pc.IndexTurn? && !v.a.terminal && v'.a == v.a
                  && v'.ix == v.ix.(byTurn := v.ix.byTurn[(pc.thread, pc.turn) := v.run]))))
  }

  lemma LaunchStepShape(v: View, pc: Pc, reply: Reply)
    requires IsLaunchPc(pc)
    ensures Shape(v, pc, LaunchStep(v, pc, reply).0)
  {
    hide StartRun, FinishRun, Unregister;
  }

  lemma SetTurnStepShape(v: View, pc: Pc)
    requires IsSetTurnPc(pc)
    ensures Shape(v, pc, SetTurnStep(v, pc).0)
  {
    hide StartRun, FinishRun, Unregister;
  }

  lemma StopStepShape(v: View, pc: Pc, reply: Reply)
    requires IsStopPc(pc)
    ensures Shape(v, pc, StopStep(v, pc, reply).0)
  {
    hide StartRun, FinishRun, Unregister;
  }

  lemma SteerStepShape(v: View, pc: Pc, reply: Reply)
    requires IsSteerPc(pc)
    ensures Shape(v, pc, SteerStep(v, pc, reply).0)
  {
    hide StartRun, FinishRun, Unregister;
  }

  lemma FinishStepShape(v: View, pc: Pc, reply: Reply)
    requires pc.Finish? || pc.FinishIds? || pc.Persist? || pc.Unregistering?
    ensures Shape(v, pc, FinishStep(v, pc, reply).0)
  {
    hide StartRun, FinishRun, Unregister;
  }

  lemma RunStepShape(v: View, pc: Pc, reply: Reply)
    requires !HasNoRun(pc)
    ensures Shape(v, pc, RunStep(v, pc, reply).0)
  {
    hide LaunchStep, SetTurnStep, StopStep, SteerStep, FinishStep, Shape;
    if IsLaunchPc(pc) {
      LaunchStepShape(v, pc, reply);
    } else if IsSetTurnPc(pc) {
      SetTurnStepShape(v, pc);
    } else if IsStopPc(pc) {
      StopStepShape(v, pc, reply);
    } else if IsSteerPc(pc) {
      SteerStepShape(v, pc, reply);
    } else {
      FinishStepShape(v, pc, reply);
    }
  }

  lemma RunStepKeepsStoreBargain(v: View, pc: Pc, reply: Reply)
    requires Knows(v.a, v.self, pc, v.closed) && RecordOk(v.db, v.run, v.a) && Consistent(v.db)
    ensures var (v', next) := RunStep(v, pc, reply);
            && StoreBargain(v.db, v'.db, v.run)
            && (v'.a.commits == v.a.commits && v.a.commits == [] ==> IsActive(v'.db.runs[v.run].status))
            && (v'.a.commits == v.a.commits && v.a.commits != [] ==> v'.db.runs[v.run].status == v.db.runs[v.run].status)
            && (v'.a.commits != v.a.commits ==> v'.a.commits == [v.a.verdict] && v'.db.runs[v.run].status == v.a.verdict)
  {
    hide RunStep, Consistent;
    RunStepShape(v, pc, reply);
    SameStoreKeepsBargain(v.db, v.run);
    if pc.StartRun1? {
      StartRunKeepsStoreBargain(v.db, v.run, pc.thread, NO_ID);
    } else if pc.StartRun2? {
      StartRunKeepsStoreBargain(v.db, v.run, pc.thread, pc.turn);
    } else if pc.Persist? {
      FinishRunKeepsStoreBargain(v.db, v.a.key, v.run, pc.thread, pc.turn, v.a.verdict, ExitCode(v.a.verdict));
    }
  }

  lemma RunStepKeepsSane(v: View, pc: Pc, reply: Reply)
    requires Knows(v.a, v.self, pc, v.closed) && RecordSane(v.a)
    ensures var (v', next) := RunStep(v, pc, reply); RecordSane(v'.a)
  {
  }

  lemma RowFollows(v: View, v': View)
    requires RecordOk(v.db, v.run, v.a) && StoreBargain(v.db, v'.db, v.run)
    requires v'.a.task == v.a.task && (v.a.terminal ==> v'.a.verdict == v.a.verdict)
    requires v'.a.commits == v.a.commits && v.a.commits == [] ==> IsActive(v'.db.runs[v.run].status)
    requires v'.a.commits == v.a.commits && v.a.commits != [] ==> v'.db.runs[v.run].status == v.db.runs[v.run].status
    requires v'.a.commits != v.a.commits ==>
               v.a.terminal && v'.a.commits == [v.a.verdict] && v'.db.runs[v.run].status == v.a.verdict
    ensures RowOk(v'.db, v.run, v'.a)
  {
  }

  /** The record of the stepping goroutine's run still agrees with its row. */
  lemma RunStepKeepsRecord(v: View, pc: Pc, reply: Reply, v': View, next: Next)
    requires Knows(v.a, v.self, pc, v.closed) && RecordOk(v.db, v.run, v.a) && Consistent(v.db)
    requires (v', next) == RunStep(v, pc, reply)
    ensures RecordOk(v'.db, v.run, v'.a)
  {
    hide RunStep, Consistent;
    RunStepKeepsSane(v, pc, reply);
    RunStepKeepsStoreBargain(v, pc, reply);
    RunStepKeepsBargain(v, pc, reply);
    RunStepShape(v, pc, reply);
    RowFollows(v, v');
  }

  // ---- Indexes -----------------------------------------------------------------------

  lemma SameEntriesKeepIndexes(rt: map<Id, Active>, ix: Indexes, r: Id, a': Active, t: nat)
    requires IndexesOk(rt, ix) && r in rt && Evolves(rt[r], a', t) && a'.gone == rt[r].gone
    requires rt[r].gone ==> a'.turn == rt[r].turn
    ensures IndexesOk(rt[r := a'], ix)
  {
  }

  lemma PutThreadKeepsIndexes(rt: map<Id, Active>, ix: Indexes, r: Id, thread: Id)
    requires IndexesOk(rt, ix) && r in rt && !rt[r].gone && thread != NO_ID && rt[r].thread == thread
    ensures IndexesOk(rt, ix.(byThread := ix.byThread[thread := r]))
  {
  }

  lemma PutTurnKeepsIndexes(rt: map<Id, Active>, ix: Indexes, r: Id, thread: Id, turn: Id)
    requires IndexesOk(rt, ix) && r in rt && !rt[r].gone && thread != NO_ID && turn != NO_ID && rt[r].thread == thread
    ensures IndexesOk(rt, ix.(byTurn := ix.byTurn[(thread, turn) := r]))
  {
  }

  lemma UnregisterKeepsIndexes(rt: map<Id, Active>, ix: Indexes, r: Id)
    requires IndexesOk(rt, ix) && r in rt && !rt[r].gone && (rt[r].turn != NO_ID ==> rt[r].thread != NO_ID)
    ensures var a := rt[r];
            IndexesOk(rt[r := a.(gone := true)], Unregister(ix, r, a.task, EffectiveThread(a), a.turn))
  {
    var a := rt[r];
    var (rt', ix') := (rt[r := a.(gone := true)], Unregister(ix, r, a.task, EffectiveThread(a), a.turn));
    assert ByRunOk(rt', ix');
    assert ByTaskOk(rt', ix');
    assert ByThreadOk(rt', ix');
    assert ByTurnOk(rt', ix');
  }

  lemma RunStepKeepsIndexes(rt: map<Id, Active>, v: View, pc: Pc, reply: Reply)
    requires v.run in rt && rt[v.run] == v.a && IndexesOk(rt, v.ix)
    requires Knows(v.a, v.self, pc, v.closed) && (v.a.gone ==> v.a.terminal)
    ensures var (v', next) := RunStep(v, pc, reply); IndexesOk(rt[v.run := v'.a], v'.ix)
  {
    hide RunStep, IndexesOk;
    var (v', next) := RunStep(v, pc, reply);
    RunStepShape(v, pc, reply);
    if pc.Unregistering? {
      UnregisterKeepsIndexes(rt, v.ix, v.run);
    } else {
      RunStepKeepsBargain(v, pc, reply);
      SameEntriesKeepIndexes(rt, v.ix, v.run, v'.a, v.self);
      if v'.ix != v.ix && pc.IndexThread? {
        PutThreadKeepsIndexes(rt, v.ix, v.run, pc.thread);
      } else if v'.ix != v.ix {
        PutTurnKeepsIndexes(rt, v.ix, v.run, pc.thread, pc.turn);
      }
      assert v'.ix != v.ix ==> rt[v.run := v'.a] == rt;
    }
  }

  // ---- Goroutines ------------------------------------------------------------------------

  /** `threads'` is `threads` after goroutine t did `next`. */
  ghost predicate Moved(threads: map<nat, Thread>, threads': map<nat, Thread>, t: nat, next: Next)
    requires t in threads
  {
    && (forall u :: u != t ==> (u in threads' <==> u in threads))
    && (forall u :: u != t && u in threads ==> threads'[u] == threads[u])
    && (next.Goto? ==> t in threads')
    && (t in threads' ==> threads'[t].run == threads[t].run && threads'[t].todo == threads[t].todo
                          && threads'[t].pc == if next.Goto? then next.pc else FailNext)
  }

  lemma MoveMoves(s: Sys, t: nat, next: Next)
    requires t in s.threads
    ensures Moved(s.threads, Move(s, t, next).threads, t, next)
  {
  }

  lemma StepKeepsThreads(rt: map<Id, Active>, threads: map<nat, Thread>, threads': map<nat, Thread>,
                         t: nat, r: Id, a': Active, next: Next, closed: bool)
    requires ThreadsOk(rt, threads) && t in threads && r in rt && threads[t].run == r && Moved(threads, threads', t, next)
    requires KeepsBargain(rt[r], a', t, threads[t].pc, next, closed)
    ensures ThreadsOk(rt[r := a'], threads')
  {
    forall u | u in threads' ensures ThreadOk(rt[r := a'], u, threads'[u]) {
      assert ThreadOk(rt, u, threads[u]);
      if u != t && !HasNoRun(threads[u].pc) && threads[u].run == r {
        OthersKeepTheirPc(rt[r], a', t, u, threads[u].pc);
      }
    }
  }

  lemma StepKeepsStop(rt: map<Id, Active>, threads: map<nat, Thread>, threads': map<nat, Thread>,
                      t: nat, r: Id, a': Active, next: Next, closed: bool, q: Id)
    requires t in threads && r in rt && q in rt && threads[t].run == r && Moved(threads, threads', t, next)
    requires KeepsBargain(rt[r], a', t, threads[t].pc, next, closed)
    requires LaunchAlive(rt, threads, r) && StopCarried(rt, threads, closed, q)
    ensures StopCarried(rt[r := a'], threads', closed, q)
  {
    var rt' := rt[r := a'];
    if rt'[q].stopRequested && !rt'[q].terminal && !closed {
      if q != r {
        var u :| Carrier(rt, threads, q, u);
        assert Carrier(rt', threads', q, u);
      } else if next.Goto? && CarriesStop(next.pc, a'.stopHandled) {
        assert Carrier(rt', threads', r, t);
      } else if a' == rt[r] && a'.turn == NO_ID && !a'.stopHandled && a'.launcher != t {
        assert Carrier(rt', threads', r, a'.launcher);
      } else {
        var u :| Carrier(rt, threads, r, u);
        assert Carrier(rt', threads', r, u);
      }
    }
  }

  lemma StepKeepsOwed(rt: map<Id, Active>, threads: map<nat, Thread>, threads': map<nat, Thread>,
                      t: nat, r: Id, a': Active, next: Next, closed: bool)
    requires OwedOk(rt, threads, closed) && t in threads && r in rt && threads[t].run == r && Moved(threads, threads', t, next)
    requires KeepsBargain(rt[r], a', t, threads[t].pc, next, closed)
    ensures OwedOk(rt[r := a'], threads', closed)
  {
    var rt' := rt[r := a'];
    forall q | q in rt'
      ensures LaunchAlive(rt', threads', q) && WinnerAlive(rt', threads', closed, q) && StopCarried(rt', threads', closed, q)
    {
      assert LaunchAlive(rt, threads, q) && WinnerAlive(rt, threads, closed, q) && StopCarried(rt, threads, closed, q);
      assert LaunchAlive(rt, threads, r);
      StepKeepsStop(rt, threads, threads', t, r, a', next, closed, q);
    }
  }
}
