/** What a step of the system leaves alone: the other goroutines, and what records never take back. */
module LifecycleFrames {
  import opened Tables
  import opened Lifecycle
  import opened LifecycleInvariant
  import opened LifecycleSafety
  import opened LifecycleSteps

  /** The goroutine that steps, if one does. */
  function Actor(a: Action): Option<nat> {
    if a.Run? then Some(a.t) else None
  }

  lemma RunSteps(s: Sys, t: nat, reply: Reply)
    requires Enabled(s, Action.Run(t, reply))
    ensures Step(s, Action.Run(t, reply)) == ThreadStep(s, t, reply)
  {
  }

  /** What every record keeps until a crash. */
  ghost predicate Later(a: Active, a': Active) {
    && a'.task == a.task && a'.key == a.key && a'.launcher == a.launcher
    && (a.terminal ==> a'.terminal && a'.verdict == a.verdict && a'.winner == a.winner && a'.thread == a.thread && a'.turn == a.turn)
    && (a.thread != NO_ID ==> a'.thread == a.thread)
    && (a.turn != NO_ID ==> a'.turn != NO_ID)
    && (a.stopRequested ==> a'.stopRequested)
    && (a.stopHandled ==> a'.stopHandled && a'.taker == a.taker)
  }

  lemma EvolvesIsLater(a: Active, a': Active, t: nat)
    requires Evolves(a, a', t)
    ensures Later(a, a')
  {
  }

  /** The step of goroutine t on its own run. */
  lemma OwnStep(s: Sys, t: nat, reply: Reply)
    requires Inv(s) && t in s.threads && !HasNoRun(s.threads[t].pc)
    ensures var (r, pc, s') := (s.threads[t].run, s.threads[t].pc, ThreadStep(s, t, reply));
            r in s.rt &&
            var (v', next) := RunStep(View(r, t, s.closed, s.rt[r], s.db, s.ix), pc, reply);
            && Knows(s.rt[r], t, pc, s.closed) && RecordOk(s.db, r, s.rt[r])
            && s'.rt == s.rt[r := v'.a] && s'.db == v'.db && s'.ix == v'.ix
            && Moved(s.threads, s'.threads, t, next) && KeepsBargain(s.rt[r], v'.a, t, pc, next, s.closed)
            && (next.Return? && !s.threads[t].failing ==> t !in s'.threads)
            && (t in s'.threads ==> s'.threads[t].failing == s.threads[t].failing)
            && (next.Return? && s.threads[t].failing ==> t in s'.threads)
  {
    hide Inv, RunStep, Knows, RecordOk, KeepsBargain;
    KnowsFromInv(s, t);
    var (r, pc) := (s.threads[t].run, s.threads[t].pc);
    var v := View(r, t, s.closed, s.rt[r], s.db, s.ix);
    RunStepKeepsRun(v, pc, reply);
    RunStepKeepsBargain(v, pc, reply);
    var (v', next) := RunStep(v, pc, reply);
    MoveMoves(s.(rt := s.rt[r := v'.a], db := v'.db, ix := v'.ix), t, next);
  }

  /** A goroutine without a run touches nothing but itself. */
  lemma FreeStep(s: Sys, t: nat, reply: Reply)
    requires t in s.threads && HasNoRun(s.threads[t].pc)
    ensures var s' := ThreadStep(s, t, reply);
            s' == s.(threads := s'.threads) && SameButOne(s.threads, s'.threads, t)
  {
    hide RunStep;
  }

  lemma RunLeavesOthers(s: Sys, t: nat, reply: Reply, u: nat)
    requires Inv(s) && t in s.threads && u != t
    ensures var s' := ThreadStep(s, t, reply);
            (u in s'.threads <==> u in s.threads) && (u in s.threads ==> s'.threads[u] == s.threads[u])
  {
    hide Inv, ThreadStep, RunStep, Knows, RecordOk, KeepsBargain, HasNoRun;
    if !HasNoRun(s.threads[t].pc) {
      OwnStep(s, t, reply);
    } else {
      FreeStep(s, t, reply);
    }
  }

  lemma RunEvolves(s: Sys, t: nat, reply: Reply, r: Id)
    requires Inv(s) && t in s.threads && r in s.rt
    ensures var s' := ThreadStep(s, t, reply);
            && r in s'.rt && Evolves(s.rt[r], s'.rt[r], t)
            && (HasNoRun(s.threads[t].pc) || s.threads[t].run != r ==> s'.rt[r] == s.rt[r])
  {
    hide Inv, ThreadStep, RunStep, Knows, RecordOk, HasNoRun, Evolves;
    EvolvesReflexive(s.rt[r], t);
    if !HasNoRun(s.threads[t].pc) {
      OwnStep(s, t, reply);
    } else {
      FreeStep(s, t, reply);
    }
  }

  lemma EvolvesReflexive(a: Active, t: nat)
    ensures Evolves(a, a, t)
  {
  }

  /** Only goroutines and the handing over of runs touch the records. */
  lemma OthersLeaveRecords(s: Sys, a: Action, r: Id)
    requires RouterOk(s) && Enabled(s, a) && !a.Crash? && !a.Run? && r in s.rt
    ensures r in Step(s, a).rt && Step(s, a).rt[r] == s.rt[r]
  {
    hide ThreadStep, AdmitNewTask, AttachThread, AdmitResumeRun, AdmitRestart, FinishRun, RecoverRunning, ActiveFor, HasActiveTask, Register;
  }

  lemma RouterFromInv(s: Sys)
    requires Inv(s)
    ensures RouterOk(s) && LogOk(s)
  {
  }

  /** A step of t leaves every other goroutine alone. */
  lemma StepLeavesOthers(s: Sys, a: Action, u: nat)
    requires Inv(s) && Enabled(s, a) && !a.Crash? && u in s.threads && Actor(a) != Some(u)
    ensures u in Step(s, a).threads && Step(s, a).threads[u] == s.threads[u]
  {
    hide Inv, ThreadStep;
    if a.Run? {
      RunLeavesOthers(s, a.t, a.reply, u);
    }
  }

  /** A step of t evolves the record of its own run, and no other. */
  lemma StepEvolves(s: Sys, a: Action, r: Id)
    requires Inv(s) && Enabled(s, a) && !a.Crash? && r in s.rt
    ensures r in Step(s, a).rt
    ensures a.Run? ==> Evolves(s.rt[r], Step(s, a).rt[r], a.t)
    ensures !a.Run? || HasNoRun(s.threads[a.t].pc) || s.threads[a.t].run != r ==> Step(s, a).rt[r] == s.rt[r]
  {
    hide ThreadStep, Evolves, Inv, HasNoRun, RouterOk;
    if a.Run? {
      RunEvolves(s, a.t, a.reply, r);
    } else {
      hide Step;
      RouterFromInv(s);
      OthersLeaveRecords(s, a, r);
    }
  }

  ghost predicate NoCrash(actions: seq<Action>, i: nat, j: nat) {
    forall k :: i <= k < j && k < |actions| ==> !actions[k].Crash?
  }

  /** Until a crash a record stays and takes nothing back. */
  lemma {:induction false} RecordsStay(states: seq<Sys>, actions: seq<Action>, i: nat, j: nat, r: Id)
    requires IsRun(states, actions) && i <= j < |states| && NoCrash(actions, i, j) && r in states[i].rt
    ensures r in states[j].rt && Later(states[i].rt[r], states[j].rt[r])
  {
    hide Step, Evolves, Inv;
    if i < j {
      RecordsStay(states, actions, i, j - 1, r);
      ReachableInv(states, actions, j - 1);
      StepEvolves(states[j - 1], actions[j - 1], r);
      if actions[j - 1].Run? {
        EvolvesIsLater(states[j - 1].rt[r], states[j].rt[r], actions[j - 1].t);
      }
    }
  }
}
