/**
 The store itself: tables updated in place inside transactions that roll back.
 Each method runs its statements in the order of the source and is proved to
 compute the transaction of `Tables` or `Sequences`.  The driver may report an
 error at some statement, `fault` (0: nowhere); then the call may also fail, but
 without a trace.
 */
module TaskStore {
  import opened Tables
  import opened Sequences

  class Store {
    var tasks: map<Id, Task>
    var runs: map<Id, Run>
    var dedup: map<Id, Dedup>
    var sequences: map<Id, int>

    ghost function Contents(): Db
      reads this
    {
      Db(tasks, runs, dedup)
    }

    constructor ()
      ensures Contents() == EMPTY_DB && sequences == map[]
    {
      tasks, runs, dedup, sequences := map[], map[], map[], map[];
    }

    method Rollback(saved: Db)
      modifies this
      ensures Contents() == saved && sequences == old(sequences)
    {
      tasks, runs, dedup := saved.tasks, saved.runs, saved.dedup;
    }

    /** INSERT OR IGNORE: the second result is false when the key was taken. */
    method InsertDedup(key: Id, healthy: bool) returns (ok: bool, inserted: bool)
      modifies this`dedup
      ensures ok == (key != NO_ID && healthy)
      ensures ok ==> inserted == (key !in old(dedup))
      ensures dedup == if ok && inserted then old(dedup)[key := Dedup(Processing, None, None)] else old(dedup)
    {
      if key == NO_ID || !healthy {
        return false, false;
      }
      ok, inserted := true, key !in dedup;
      if inserted {
        dedup := dedup[key := Dedup(Processing, None, None)];
      }
    }

    /** INSERT INTO runs, with the primary key, the foreign key and the partial index. */
    method InsertRun(run: Id, row: Run) returns (ok: bool)
      requires IsActive(row.status)
      modifies this`runs
      ensures ok == AcceptsRun(old(Contents()), run, row.task)
      ensures runs == if ok then old(runs)[run := row] else old(runs)
    {
      ok := run !in runs && row.task in tasks
            && !exists r :: r in runs && runs[r].task == row.task && IsActive(runs[r].status);
      if ok {
        runs := runs[run := row];
      }
    }

    method AdmitNewTask(key: Id, task: Id, run: Id, owner: Id, fault: nat) returns (a: Admission)
      modifies this
      ensures sequences == old(sequences)
      ensures (Contents(), a) == Tables.AdmitNewTask(old(Contents()), key, task, run, owner)
              || (fault != 0 && (Contents(), a) == (old(Contents()), StoreError))
    {
      ghost var before := Contents();
      var saved := Db(tasks, runs, dedup);
      var ok, inserted := InsertDedup(key, fault != 1);
      if !ok {
        return StoreError;
      } else if !inserted {
        return Refused(Replay);
      }
      if task in tasks {
        Rollback(saved);
        return StoreError;
      }
      tasks := tasks[task := Task(NO_ID, Queued, owner)];
      ghost var atInsert := Contents();
      var placed := InsertRun(run, Run(task, New, Queued, NO_ID, NO_ID, 0));
      assert placed == AcceptsRun(before.(tasks := before.tasks[task := Task(NO_ID, Queued, owner)]), run, task) by {
        SameRowsSameAnswer(atInsert, before.(tasks := before.tasks[task := Task(NO_ID, Queued, owner)]), run, task);
      }
      if !placed || fault > 1 {
        Rollback(saved);
        return StoreError;
      }
      dedup := dedup[key := dedup[key].(task := Some(task), run := Some(run))];
      assert dedup == before.dedup[key := Dedup(Processing, Some(task), Some(run))];
      a := Admitted;
    }

    static lemma SameRowsSameAnswer(db: Db, db': Db, run: Id, task: Id)
      requires db.tasks == db'.tasks && db.runs == db'.runs
      ensures AcceptsRun(db, run, task) == AcceptsRun(db', run, task)
    {
      assert forall r :: ActiveRunOf(db, r, task) <==> ActiveRunOf(db', r, task);
    }

    method AttachThread(key: Id, task: Id, thread: Id, owner: Id, fault: nat) returns (a: Admission)
      modifies this
      ensures sequences == old(sequences)
      ensures (Contents(), a) == Tables.AttachThread(old(Contents()), key, task, thread, owner)
              || (fault != 0 && (Contents(), a) == (old(Contents()), StoreError))
    {
      var saved := Db(tasks, runs, dedup);
      var ok, inserted := InsertDedup(key, fault != 1);
      if !ok {
        return StoreError;
      } else if !inserted {
        return Refused(Replay);
      }
      if task in tasks || fault > 1 {
        Rollback(saved);
        return StoreError;
      }
      tasks := tasks[task := Task(thread, Idle, owner)];
      dedup := dedup[key := Dedup(Completed, Some(task), dedup[key].run)];
      assert dedup == old(dedup)[key := Dedup(Completed, Some(task), None)];
      a := Admitted;
    }

    method HasActiveTask(healthy: bool) returns (ok: bool, active: bool)
      ensures ok == healthy && (ok ==> active == Tables.HasActiveTask(Contents()))
    {
      ok := healthy;
      active := exists t :: t in tasks && IsActive(tasks[t].status);
    }

    method AdmitRestart(key: Id, fault: nat) returns (a: Admission)
      modifies this
      ensures sequences == old(sequences)
      ensures (Contents(), a) == Tables.AdmitRestart(old(Contents()), key)
              || (fault != 0 && (Contents(), a) == (old(Contents()), StoreError))
    {
      var ok, inserted := InsertDedup(key, fault != 1);
      if !ok {
        return StoreError;
      } else if !inserted {
        return Refused(Replay);
      }
      dedup := dedup[key := dedup[key].(state := Completed)];
      assert dedup == old(dedup)[key := Dedup(Completed, None, None)];
      a := Admitted;
    }

    /** `failDedupTx` and the commit of the refusal. */
    method Refuse(key: Id, reason: Reason, ghost before: map<Id, Dedup>) returns (a: Admission)
      requires dedup == before[key := Dedup(Processing, None, None)]
      modifies this`dedup
      ensures a == Refused(reason) && dedup == before[key := Dedup(Rejected, None, None)]
    {
      dedup := dedup[key := dedup[key].(state := Rejected)];
      a := Refused(reason);
    }

    method AdmitResumeRun(key: Id, run: Id, task: Id, requester: Id, fault: nat) returns (a: Admission)
      modifies this
      ensures sequences == old(sequences)
      ensures (Contents(), a) == Tables.AdmitResumeRun(old(Contents()), key, run, task, requester)
              || (fault != 0 && (Contents(), a) == (old(Contents()), StoreError))
    {
      ghost var before := Contents();
      var saved := Db(tasks, runs, dedup);
      var ok, inserted := InsertDedup(key, fault != 1);
      if !ok {
        return StoreError;
      } else if !inserted {
        return Refused(Replay);
      }
      if task !in tasks {
        a := Refuse(key, RouteMiss, before.dedup);
        return;
      }
      var row := tasks[task];
      if row.owner != requester {
        a := Refuse(key, CreatorMismatch, before.dedup);
        return;
      }
      if row.thread == NO_ID {
        a := Refuse(key, MissingThread, before.dedup);
        return;
      }
      if !CanStart(row.status) {
        a := Refuse(key, ActiveRun, before.dedup);
        return;
      }
      ghost var atInsert := Contents();
      var placed := InsertRun(run, Run(task, Resume, Queued, row.thread, NO_ID, 0));
      assert placed == AcceptsRun(before, run, task) by { SameRowsSameAnswer(atInsert, before, run, task); }
      if !placed {
        a := Refuse(key, ActiveRun, before.dedup);
        return;
      }
      if fault > 1 {
        Rollback(saved);
        return StoreError;
      }
      tasks := tasks[task := row.(status := Queued)];
      dedup := dedup[key := dedup[key].(task := Some(task), run := Some(run))];
      assert dedup == before.dedup[key := Dedup(Processing, Some(task), Some(run))];
      a := Admitted;
    }

    method StartRun(run: Id, thread: Id, turn: Id, fault: nat) returns (ok: bool)
      modifies this
      ensures sequences == old(sequences)
      ensures (Contents(), ok) == Tables.StartRun(old(Contents()), run, thread, turn)
              || (fault != 0 && (Contents(), ok) == (old(Contents()), false))
    {
      var saved := Db(tasks, runs, dedup);
      if run !in runs {
        return false;
      }
      var task := runs[run].task;
      if IsActive(runs[run].status) {
        runs := runs[run := runs[run].(status := Promote(runs[run].status), thread := Coalesce(thread, runs[run].thread),
                                       turn := Coalesce(turn, runs[run].turn))];
      } else {
        return false;
      }
      if task in tasks && IsActive(tasks[task].status) {
        tasks := tasks[task := tasks[task].(status := Promote(tasks[task].status),
                                            thread := Coalesce(thread, tasks[task].thread))];
      }
      if task !in tasks || fault != 0 {
        Rollback(saved);
        return false;
      }
      ok := true;
    }

    method FinishRun(key: Id, run: Id, thread: Id, turn: Id, status: Status, exitCode: int, fault: nat) returns (ok: bool)
      modifies this
      ensures sequences == old(sequences)
      ensures (Contents(), ok) == Tables.FinishRun(old(Contents()), key, run, thread, turn, status, exitCode)
              || (fault != 0 && (Contents(), ok) == (old(Contents()), false))
    {
      if !IsTerminal(status) {
        return false;
      }
      var saved := Db(tasks, runs, dedup);
      if run !in runs {
        return false;
      }
      var task := runs[run].task;
      runs := runs[run := runs[run].(status := status, thread := Coalesce(thread, runs[run].thread),
                                     turn := Coalesce(turn, runs[run].turn), exitCode := exitCode)];
      if task in tasks {
        tasks := tasks[task := tasks[task].(status := status, thread := Coalesce(thread, tasks[task].thread))];
      }
      if key != NO_ID && key in dedup {
        dedup := dedup[key := Dedup(Completed, Some(task), Some(run))];
      }
      if fault != 0 {
        Rollback(saved);
        return false;
      }
      ok := true;
    }

    method RecoverRunning(fault: nat) returns (ok: bool)
      modifies this
      ensures sequences == old(sequences)
      ensures ok == (fault == 0)
      ensures Contents() == if ok then Tables.RecoverRunning(old(Contents())) else old(Contents())
    {
      var saved := Db(tasks, runs, dedup);
      runs := map r | r in runs ::
        if IsActive(runs[r].status) then runs[r].(status := Failed, exitCode := -1) else runs[r];
      tasks := map t | t in tasks ::
        if IsActive(tasks[t].status) then tasks[t].(status := Failed) else tasks[t];
      dedup := map k | k in dedup ::
        if dedup[k].state == Processing then dedup[k].(state := Rejected) else dedup[k];
      if fault != 0 {
        Rollback(saved);
        return false;
      }
      ok := true;
    }

    method ReserveCardStreamSequence(message: Id, minimum: int, count: int, fault: nat) returns (r: Reservation)
      modifies this`sequences
      ensures (sequences, r) == Reserve(old(sequences), message, minimum, count)
              || (fault != 0 && (sequences, r) == (old(sequences), NotReserved))
    {
      if message == NO_ID || minimum < 1 || minimum > MAX_SEQUENCE || count < 1 || count > MAX_SEQUENCE {
        return NotReserved;
      }
      var last := 0;
      if message in sequences {
        last := sequences[message];
      }
      var start := minimum;
      if last >= start {
        start := last + 1;
      }
      if start > MAX_SEQUENCE || count - 1 > MAX_SEQUENCE - start {
        return NotReserved;
      }
      last := start + count - 1;
      if fault != 0 {
        return NotReserved;
      }
      sequences := sequences[message := last];
      r := Reserved(start);
    }
  }
}
