/**
 The controller's own objects: `activeRun` with its mutex-guarded fields and the
 four index maps, updated in place.  Each method is proved to compute the step
 of `Lifecycle` that models it, so what is proved there is about this code.
 */
module Controller {
  import opened Tables
  import Lifecycle

  class ActiveRun {
    const run: Id
    const task: Id
    const key: Id
    var storedThread: Id
    var thread: Id
    var turn: Id
    var terminal: bool
    var stopRequested: bool
    var stopHandled: bool
    ghost const launcher: nat
    ghost var winner: Option<nat>
    ghost var verdict: Status
    ghost var taker: Option<nat>
    ghost var interrupts: nat
    ghost var commits: seq<Status>
    ghost var gone: bool

    ghost function State(): Lifecycle.Active
      reads this
    {
      Lifecycle.Active(task, key, storedThread, thread, turn, terminal, stopRequested, stopHandled,
                       launcher, winner, verdict, taker, interrupts, commits, gone)
    }

    constructor (run: Id, task: Id, key: Id, storedThread: Id, ghost launcher: nat)
      ensures this.run == run
      ensures State() == Lifecycle.Active(task, key, storedThread, NO_ID, NO_ID, false, false, false,
                                          launcher, None, Idle, None, 0, [], false)
    {
      this.run, this.task, this.key, this.storedThread, this.launcher := run, task, key, storedThread, launcher;
      thread, turn, terminal, stopRequested, stopHandled := NO_ID, NO_ID, false, false, false;
      winner, verdict, taker, interrupts, commits, gone := None, Idle, None, 0, [], false;
    }

    method MarkTerminal(ghost who: nat, ghost status: Status) returns (won: bool)
      modifies this
      ensures (State(), won) == Lifecycle.MarkTerminal(old(State()), who, status)
    {
      if terminal {
        return false;
      }
      terminal := true;
      winner, verdict := Some(who), status;
      won := true;
    }

    method RequestStop()
      modifies this
      ensures State() == old(State()).(stopRequested := true)
    {
      stopRequested := true;
    }

    method TakeStopRequest(ghost who: nat) returns (taken: bool)
      modifies this
      ensures (State(), taken) == Lifecycle.TakeStopRequest(old(State()), who)
    {
      if !stopRequested || stopHandled {
        return false;
      }
      stopHandled := true;
      taker := Some(who);
      taken := true;
    }

    method Ids() returns (threadId: Id, turnId: Id)
      ensures threadId == Lifecycle.EffectiveThread(State()) && turnId == turn
    {
      threadId := thread;
      if threadId == NO_ID {
        threadId := storedThread;
      }
      turnId := turn;
    }

    /** The first region of `setThread`. */
    method PutThread(threadId: Id) returns (put: bool)
      modifies this
      ensures put == !old(terminal)
      ensures State() == if put then old(State()).(thread := threadId) else old(State())
    {
      if terminal {
        return false;
      }
      thread := threadId;
      put := true;
    }

    /** The second region of `setTurn`. */
    method PutTurn(turnId: Id) returns (put: bool)
      modifies this
      ensures put == !old(terminal)
      ensures State() == if put then old(State()).(turn := turnId) else old(State())
    {
      if terminal {
        return false;
      }
      turn := turnId;
      put := true;
    }
  }

  /** An index by reference, read as an index by run id. */
  ghost function RunIds<K>(index: map<K, ActiveRun>): map<K, Id> {
    map k | k in index :: index[k].run
  }

  lemma RunIdsPut<K>(index: map<K, ActiveRun>, k: K, active: ActiveRun)
    ensures RunIds(index[k := active]) == RunIds(index)[k := active.run]
  {
  }

  lemma RunIdsDrop<K>(index: map<K, ActiveRun>, k: K)
    ensures RunIds(index - {k}) == RunIds(index) - {k}
    ensures k in index <==> k in RunIds(index)
    ensures k in index ==> RunIds(index)[k] == index[k].run
  {
  }

  ghost predicate FiledByRun(index: map<Id, ActiveRun>) {
    forall k :: k in index ==> index[k].run == k
  }

  /** Every object of an index is the one registered under its run id. */
  ghost predicate AllKnown<K(!new)>(index: map<K, ActiveRun>, objects: map<Id, ActiveRun>) {
    forall k :: k in index ==> index[k].run in objects && objects[index[k].run] == index[k]
  }

  lemma PutKeepsKnown<K(!new)>(index: map<K, ActiveRun>, objects: map<Id, ActiveRun>, k: K, active: ActiveRun)
    requires AllKnown(index, objects) && active.run in objects && objects[active.run] == active
    ensures AllKnown(index[k := active], objects)
  {
  }

  lemma DropKeepsKnown<K(!new)>(index: map<K, ActiveRun>, objects: map<Id, ActiveRun>, k: K)
    requires AllKnown(index, objects)
    ensures AllKnown(index - {k}, objects)
  {
  }

  lemma DropKeepsFiled(index: map<Id, ActiveRun>, k: Id)
    requires FiledByRun(index)
    ensures FiledByRun(index - {k})
  {
  }

  lemma SameRunSameObject<K(!new)>(index: map<K, ActiveRun>, objects: map<Id, ActiveRun>, k: K, active: ActiveRun)
    requires AllKnown(index, objects) && active.run in objects && objects[active.run] == active
    ensures k in index ==> (index[k].run == active.run <==> index[k] == active)
  {
  }

  lemma NewObjectKeepsKnown<K(!new)>(index: map<K, ActiveRun>, objects: map<Id, ActiveRun>, active: ActiveRun)
    requires AllKnown(index, objects) && active.run !in objects
    ensures AllKnown(index, objects[active.run := active])
  {
  }

  /** How `Stop` ends in its caller. */
  datatype StopResult = NotRunning | CancelNow | LeftToLaunch | AlreadyTaken | InterruptNow

  class Controller {
    var byRun: map<Id, ActiveRun>
    var byTask: map<Id, ActiveRun>
    var byThread: map<Id, ActiveRun>
    var byTurn: map<(Id, Id), ActiveRun>
    var closed: bool
    var unavailable: bool
    ghost var objects: map<Id, ActiveRun>

    ghost predicate Known(active: ActiveRun)
      reads this
    {
      active.run in objects && objects[active.run] == active
    }

    /** Comparing references, as `unregister` does, is comparing run ids. */
    ghost predicate Valid()
      reads this
    {
      && FiledByRun(objects) && FiledByRun(byRun)
      && AllKnown(byRun, objects) && AllKnown(byTask, objects) && AllKnown(byThread, objects) && AllKnown(byTurn, objects)
    }

    ghost function Indexes(): Lifecycle.Indexes
      reads this
    {
      Lifecycle.Indexes(RunIds(byRun), RunIds(byTask), RunIds(byThread), RunIds(byTurn))
    }

    constructor ()
      ensures Valid() && Indexes() == Lifecycle.NO_INDEXES && !closed && !unavailable && objects == map[]
    {
      byRun, byTask, byThread, byTurn, objects := map[], map[], map[], map[], map[];
      closed, unavailable := false, false;
    }

    /** The locked part of `Enqueue`. */
    method Register(active: ActiveRun) returns (ok: bool)
      requires Valid() && active.run !in objects
      modifies this
      ensures Valid() && closed == old(closed) && unavailable == old(unavailable)
      ensures ok == !(closed || unavailable || active.task in old(byTask))
      ensures Indexes() == if ok then Lifecycle.Register(old(Indexes()), active.run, active.task) else old(Indexes())
      ensures objects == if ok then old(objects)[active.run := active] else old(objects)
    {
      hide RunIds, AllKnown;
      if closed || unavailable {
        return false;
      }
      if active.task in byTask {
        return false;
      }
      RunIdsPut(byRun, active.run, active);
      RunIdsPut(byTask, active.task, active);
      ghost var objects' := objects[active.run := active];
      NewObjectKeepsKnown(byRun, objects, active);
      NewObjectKeepsKnown(byTask, objects, active);
      NewObjectKeepsKnown(byThread, objects, active);
      NewObjectKeepsKnown(byTurn, objects, active);
      PutKeepsKnown(byRun, objects', active.run, active);
      PutKeepsKnown(byTask, objects', active.task, active);
      byRun := byRun[active.run := active];
      byTask := byTask[active.task := active];
      objects := objects';
      ok := true;
    }

    /** `setThread`, when nobody steps in between its two regions. */
    method SetThread(active: ActiveRun, thread: Id)
      requires Valid() && Known(active)
      modifies this, active
      ensures Valid() && objects == old(objects) && closed == old(closed) && unavailable == old(unavailable)
      ensures if thread == NO_ID || old(active.terminal)
              then active.State() == old(active.State()) && Indexes() == old(Indexes())
              else active.State() == old(active.State()).(thread := thread)
                   && Indexes() == old(Indexes()).(byThread := old(Indexes()).byThread[thread := active.run])
    {
      if thread == NO_ID {
        return;
      }
      var put := active.PutThread(thread);
      if !put {
        return;
      }
      if !active.terminal {
        hide RunIds;
        RunIdsPut(byThread, thread, active);
        byThread := byThread[thread := active];
      }
    }

    /** `setTurn`, when nobody steps in between its three regions. */
    method SetTurn(active: ActiveRun, turn: Id)
      requires Valid() && Known(active)
      modifies this, active
      ensures Valid() && objects == old(objects) && closed == old(closed) && unavailable == old(unavailable)
      ensures var thread := Lifecycle.EffectiveThread(old(active.State()));
              if turn == NO_ID || old(active.terminal)
              then active.State() == old(active.State()) && Indexes() == old(Indexes())
              else active.State() == old(active.State()).(turn := turn)
                   && Indexes() == (if thread == NO_ID then old(Indexes())
                                    else old(Indexes()).(byTurn := old(Indexes()).byTurn[(thread, turn) := active.run]))
    {
      if turn == NO_ID {
        return;
      }
      var thread, _ := active.Ids();
      var put := active.PutTurn(turn);
      if !put {
        return;
      }
      if thread != NO_ID {
        if !active.terminal {
          hide RunIds;
          RunIdsPut(byTurn, (thread, turn), active);
          byTurn := byTurn[(thread, turn) := active];
        }
      }
    }

    method ActiveFor(thread: Id, turn: Id) returns (active: ActiveRun?)
      requires Valid()
      ensures match Lifecycle.ActiveFor(Indexes(), thread, turn)
              case None => active == null
              case Some(r) => active != null && Known(active) && active.run == r
      ensures turn != NO_ID && (thread, turn) in byTurn ==> active == byTurn[(thread, turn)]
      ensures (turn == NO_ID || (thread, turn) !in byTurn) && thread in byThread ==> active == byThread[thread]
    {
      if turn != NO_ID && (thread, turn) in byTurn {
        return byTurn[(thread, turn)];
      }
      if thread in byThread {
        return byThread[thread];
      }
      active := null;
    }

    /** An entry goes only if it still leads to this run. */
    static method DropEntry<K(==)>(index: map<K, ActiveRun>, k: K, active: ActiveRun) returns (index': map<K, ActiveRun>)
      ensures index' == if k in index && index[k] == active then index - {k} else index
    {
      index' := index;
      if k in index && index[k] == active {
        index' := index - {k};
      }
    }

    method Unregister(active: ActiveRun)
      requires Valid() && Known(active)
      modifies this, active`gone
      ensures Valid() && objects == old(objects) && closed == old(closed) && unavailable == old(unavailable)
      ensures active.State() == old(active.State()).(gone := true)
      ensures Indexes() == Lifecycle.Unregister(old(Indexes()), active.run, active.task,
                                                Lifecycle.EffectiveThread(old(active.State())), old(active.turn))
    {
      hide RunIds, AllKnown, FiledByRun;
      DropKeepsFiled(byRun, active.run);
      DropKeepsKnown(byRun, objects, active.run);
      DropKeepsKnown(byTask, objects, active.task);
      byRun := byRun - {active.run};
      byTask := byTask - {active.task};
      var thread, turn := active.Ids();
      DropKeepsKnown(byThread, objects, thread);
      if thread != NO_ID {
        byThread := DropEntry(byThread, thread, active);
      }
      DropKeepsKnown(byTurn, objects, (thread, turn));
      if turn != NO_ID {
        byTurn := DropEntry(byTurn, (thread, turn), active);
      }
      active.gone := true;
      assert RunIds(byRun) == RunIds(old(byRun)) - {active.run} by { RunIdsDrop(old(byRun), active.run); }
      assert RunIds(byTask) == RunIds(old(byTask)) - {active.task} by { RunIdsDrop(old(byTask), active.task); }
      RunIdsDrop(old(byThread), thread);
      SameRunSameObject(old(byThread), objects, thread, active);
      RunIdsDrop(old(byTurn), (thread, turn));
      SameRunSameObject(old(byTurn), objects, (thread, turn), active);
    }

    /** `Stop` up to the goroutine it starts, when nobody steps in between; `who` will be that goroutine. */
    method Stop(task: Id, ghost who: nat) returns (result: StopResult, active: ActiveRun?)
      requires Valid()
      modifies objects.Values
      ensures Valid() && Indexes() == old(Indexes())
      ensures result == NotRunning <==> closed || unavailable || task !in byTask || old(byTask[task].terminal)
      ensures result != NotRunning ==>
                && active == byTask[task]
                && (var requested := old(byTask[task].State()).(stopRequested := true);
                    && (result == CancelNow <==> Lifecycle.EffectiveThread(requested) == NO_ID)
                    && (result == LeftToLaunch <==> Lifecycle.EffectiveThread(requested) != NO_ID && requested.turn == NO_ID)
                    && (result == InterruptNow ==> active.State() == requested.(stopHandled := true, taker := Some(who))
                                                   && !requested.stopHandled)
                    && (result == AlreadyTaken ==> requested.stopHandled)
                    && (result != InterruptNow ==> active.State() == requested))
      ensures forall k :: k in objects && (result == NotRunning || objects[k] != active) ==>
                objects[k].State() == old(objects[k].State())
    {
      active := null;
      if closed || unavailable || task !in byTask || byTask[task].terminal {
        return NotRunning, null;
      }
      active := byTask[task];
      active.RequestStop();
      var thread, turn := active.Ids();
      if thread == NO_ID {
        return CancelNow, active;
      }
      if turn == NO_ID {
        return LeftToLaunch, active;
      }
      var taken := active.TakeStopRequest(who);
      if !taken {
        return AlreadyTaken, active;
      }
      result := InterruptNow;
    }
  }

  // ---- The regions are the steps of Lifecycle ------------------------------------------

  /**
   Run one after the other without interference, the regions of `setTurn` have the
   effect `Controller.SetTurn` promises.
   */
  lemma SetTurnIsItsRegions(v: Lifecycle.View, turn: Id)
    requires turn != NO_ID && !v.a.terminal
    ensures var thread := Lifecycle.EffectiveThread(v.a);
            var (v1, n1) := Lifecycle.SetTurnStep(v, Lifecycle.ReadIds(turn, Lifecycle.ToExit));
            n1.Goto? &&
            var (v2, n2) := Lifecycle.SetTurnStep(v1, n1.pc);
            && (thread == NO_ID ==> n2 == Lifecycle.Return && v2 == v.(a := v.a.(turn := turn)))
            && (thread != NO_ID ==> n2.Goto?)
            && (n2.Goto? ==>
                  var (v3, n3) := Lifecycle.SetTurnStep(v2, n2.pc);
                  && n3 == Lifecycle.Return
                  && v3 == v.(a := v.a.(turn := turn), ix := v.ix.(byTurn := v.ix.byTurn[(thread, turn) := v.run])))
  {
  }

  lemma SetThreadIsItsRegions(v: Lifecycle.View, thread: Id, reply: Lifecycle.Reply)
    requires !v.a.terminal
    ensures var (v1, n1) := Lifecycle.LaunchStep(v, Lifecycle.SetThread(thread), reply);
            n1.Goto? &&
            var (v2, n2) := Lifecycle.LaunchStep(v1, n1.pc, reply);
            v2 == v.(a := v.a.(thread := thread), ix := v.ix.(byThread := v.ix.byThread[thread := v.run]))
  {
  }

  /** The regions of `Stop` up to the goroutine it starts: the five ends `Controller.Stop` names, with the record each leaves. */
  lemma StopIsItsRegions(v: Lifecycle.View, reply: Lifecycle.Reply)
    ensures var (v1, n1) := Lifecycle.StopStep(v, Lifecycle.StopCheck, reply);
            if v.a.terminal then v1 == v && n1 == Lifecycle.Return
            else
              n1.Goto? &&
              var (v2, n2) := Lifecycle.StopStep(v1, n1.pc, reply);
              n2.Goto? &&
              var (v3, n3) := Lifecycle.StopStep(v2, n2.pc, reply);
              var requested := v.a.(stopRequested := true);
              if v.a.thread == NO_ID && v.a.storedThread == NO_ID then v3 == v.(a := requested) && n3 == Lifecycle.Goto(Lifecycle.StartCancel)
              else if v.a.turn == NO_ID then v3 == v.(a := requested) && n3 == Lifecycle.Return
              else
                n3.Goto? &&
                var (v4, n4) := Lifecycle.StopStep(v3, n3.pc, reply);
                if v.a.stopHandled then v4 == v.(a := requested) && n4 == Lifecycle.Return
                else v4 == v.(a := requested.(stopHandled := true, taker := Some(v.self))) && n4 == Lifecycle.Goto(Lifecycle.StartInterrupt)
  {
  }

  /** `unregister` takes the run's own entries out, whatever else they are filed with, and leaves every other entry. */
  lemma UnregisterTakesOwnEntries(ix: Lifecycle.Indexes, run: Id, task: Id, thread: Id, turn: Id)
    ensures var ix' := Lifecycle.Unregister(ix, run, task, thread, turn);
            && (forall k :: k in ix'.byRun <==> k in ix.byRun && k != run)
            && (forall k :: k in ix'.byTask <==> k in ix.byTask && k != task)
            && (forall k :: k in ix'.byThread <==> k in ix.byThread && !(k == thread && thread != NO_ID && ix.byThread[k] == run))
            && (forall k :: k in ix'.byTurn <==> k in ix.byTurn && !(k == (thread, turn) && turn != NO_ID && ix.byTurn[k] == run))
            && (forall k :: k in ix'.byRun ==> ix'.byRun[k] == ix.byRun[k])
            && (forall k :: k in ix'.byTask ==> ix'.byTask[k] == ix.byTask[k])
            && (forall k :: k in ix'.byThread ==> ix'.byThread[k] == ix.byThread[k])
            && (forall k :: k in ix'.byTurn ==> ix'.byTurn[k] == ix.byTurn[k])
  {
  }
}
