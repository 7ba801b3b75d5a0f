/**
 The durable state of the bridge (tasks, runs and event_dedup) and what each
 store transaction does to it.  A transaction is a function of the tables it
 starts from; `TaskStore.dfy` shows that the imperative transactions compute it.

 Identifiers are compared for equality only, so they are numbers here; 0 is the
 empty string of the source, which stands for "no thread", "no turn" or "no key".
 */
module Tables {
  type Id = nat

  const NO_ID: Id := 0

  datatype Option<+T> = None | Some(value: T)

  datatype Status = Idle | Queued | Running | Succeeded | Failed | Canceled

  /** The statuses of the partial index `runs_one_active_per_task`. */
  predicate IsActive(status: Status) {
    status.Queued? || status.Running?
  }

  predicate IsTerminal(status: Status) {
    status.Succeeded? || status.Failed? || status.Canceled?
  }

  predicate CanStart(status: Status) {
    status.Idle? || IsTerminal(status)
  }

  datatype Task = Task(thread: Id, status: Status, owner: Id)

  datatype RunKind = New | Resume

  datatype Run = Run(task: Id, kind: RunKind, status: Status, thread: Id, turn: Id, exitCode: int)

  datatype DedupState = Processing | Completed | Rejected

  datatype Dedup = Dedup(state: DedupState, task: Option<Id>, run: Option<Id>)

  datatype Db = Db(tasks: map<Id, Task>, runs: map<Id, Run>, dedup: map<Id, Dedup>)

  const EMPTY_DB := Db(map[], map[], map[])

  /** Why a transaction that committed nevertheless created nothing. */
  datatype Reason = Replay | RouteMiss | CreatorMismatch | MissingThread | ActiveRun

  /** What the caller of an admission learns. */
  datatype Admission = Admitted | Refused(reason: Reason) | StoreError

  /** COALESCE(NULLIF(value,''), current). */
  function Coalesce(value: Id, current: Id): Id {
    if value != NO_ID then value else current
  }

  // ---- Consistency of the three tables -------------------------------------

  ghost predicate RunsHaveTasks(db: Db) {
    forall r :: r in db.runs ==> db.runs[r].task in db.tasks
  }

  /** `run` is an active run of `task`. */
  predicate ActiveRunOf(db: Db, run: Id, task: Id) {
    run in db.runs && db.runs[run].task == task && IsActive(db.runs[run].status)
  }

  /**
   A task is queued or running exactly when one of its runs is, that run is the
   only one, and the two statuses agree.
   */
  ghost predicate TaskAgrees(db: Db, task: Id)
    requires task in db.tasks
  {
    && (IsActive(db.tasks[task].status) ==> exists r :: ActiveRunOf(db, r, task))
    && (forall r :: ActiveRunOf(db, r, task) ==> db.runs[r].status == db.tasks[task].status)
    && (forall r1, r2 :: ActiveRunOf(db, r1, task) && ActiveRunOf(db, r2, task) ==> r1 == r2)
  }

  ghost predicate Consistent(db: Db) {
    && RunsHaveTasks(db)
    && (forall t :: t in db.tasks ==> TaskAgrees(db, t))
  }

  // ---- Transactions --------------------------------------------------------

  /** `HasActiveTask`: the guard of a service restart. */
  predicate HasActiveTask(db: Db) {
    exists t :: t in db.tasks && IsActive(db.tasks[t].status)
  }

  /** Whether the constraints on `runs` accept an active row: key, foreign key, partial index. */
  predicate AcceptsRun(db: Db, run: Id, task: Id) {
    run !in db.runs && task in db.tasks && !exists r :: r in db.runs && ActiveRunOf(db, r, task)
  }

  function AdmitNewTask(db: Db, key: Id, task: Id, run: Id, owner: Id): (Db, Admission) {
    if key == NO_ID then (db, StoreError)
    else if key in db.dedup then (db, Refused(Replay))
    else if task in db.tasks then (db, StoreError)
    else
      var db1 := db.(tasks := db.tasks[task := Task(NO_ID, Queued, owner)]);
      if !AcceptsRun(db1, run, task) then (db, StoreError)
      else
        (db1.(runs := db1.runs[run := Run(task, New, Queued, NO_ID, NO_ID, 0)],
              dedup := db1.dedup[key := Dedup(Processing, Some(task), Some(run))]),
         Admitted)
  }

  function AttachThread(db: Db, key: Id, task: Id, thread: Id, owner: Id): (Db, Admission) {
    if key == NO_ID then (db, StoreError)
    else if key in db.dedup then (db, Refused(Replay))
    else if task in db.tasks then (db, StoreError)
    else
      (db.(tasks := db.tasks[task := Task(thread, Idle, owner)],
           dedup := db.dedup[key := Dedup(Completed, Some(task), None)]),
       Admitted)
  }

  function AdmitRestart(db: Db, key: Id): (Db, Admission) {
    if key == NO_ID then (db, StoreError)
    else if key in db.dedup then (db, Refused(Replay))
    else (db.(dedup := db.dedup[key := Dedup(Completed, None, None)]), Admitted)
  }

  /** The row a refused continuation leaves behind, so that its event is not retried. */
  function RefuseEvent(db: Db, key: Id, reason: Reason): (Db, Admission) {
    (db.(dedup := db.dedup[key := Dedup(Rejected, None, None)]), Refused(reason))
  }

  function AdmitResumeRun(db: Db, key: Id, run: Id, task: Id, requester: Id): (Db, Admission) {
    if key == NO_ID then (db, StoreError)
    else if key in db.dedup then (db, Refused(Replay))
    else if task !in db.tasks then RefuseEvent(db, key, RouteMiss)
    else if db.tasks[task].owner != requester then RefuseEvent(db, key, CreatorMismatch)
    else if db.tasks[task].thread == NO_ID then RefuseEvent(db, key, MissingThread)
    else if !CanStart(db.tasks[task].status) then RefuseEvent(db, key, ActiveRun)
    else if !AcceptsRun(db, run, task) then RefuseEvent(db, key, ActiveRun)
    else
      var owner := db.tasks[task];
      (db.(tasks := db.tasks[task := owner.(status := Queued)],
           runs := db.runs[run := Run(task, Resume, Queued, owner.thread, NO_ID, 0)],
           dedup := db.dedup[key := Dedup(Processing, Some(task), Some(run))]),
       Admitted)
  }

  function Promote(status: Status): Status {
    if status == Queued then Running else status
  }

  /** `StartRun`; the flag is false when no queued or running row matched. */
  function StartRun(db: Db, run: Id, thread: Id, turn: Id): (result: (Db, bool))
    ensures result.1 ==> run in result.0.runs && result.0.runs[run].task in result.0.tasks
  {
    if run !in db.runs || !IsActive(db.runs[run].status) || db.runs[run].task !in db.tasks then (db, false)
    else
      var row := db.runs[run];
      var owner := db.tasks[row.task];
      (db.(runs := db.runs[run := row.(status := Promote(row.status),
                                       thread := Coalesce(thread, row.thread),
                                       turn := Coalesce(turn, row.turn))],
           tasks := if IsActive(owner.status)
                    then db.tasks[row.task := owner.(status := Promote(owner.status),
                                                     thread := Coalesce(thread, owner.thread))]
                    else db.tasks),
       true)
  }

  /** `FinishRun`; note that nothing here looks at the current status of the run. */
  function FinishRun(db: Db, key: Id, run: Id, thread: Id, turn: Id, status: Status, exitCode: int): (Db, bool) {
    if !IsTerminal(status) || run !in db.runs then (db, false)
    else
      var row := db.runs[run];
      (Db(if row.task in db.tasks
          then db.tasks[row.task := db.tasks[row.task].(status := status,
                                                        thread := Coalesce(thread, db.tasks[row.task].thread))]
          else db.tasks,
          db.runs[run := row.(status := status, thread := Coalesce(thread, row.thread),
                              turn := Coalesce(turn, row.turn), exitCode := exitCode)],
          if key != NO_ID && key in db.dedup
          then db.dedup[key := Dedup(Completed, Some(row.task), Some(run))]
          else db.dedup),
       true)
  }

  function RecoverRunning(db: Db): Db {
    Db(map t | t in db.tasks ::
         if IsActive(db.tasks[t].status) then db.tasks[t].(status := Failed) else db.tasks[t],
       map r | r in db.runs ::
         if IsActive(db.runs[r].status)
         then db.runs[r].(status := Failed, exitCode := -1) else db.runs[r],
       map k | k in db.dedup ::
         if db.dedup[k].state == Processing then db.dedup[k].(state := Rejected) else db.dedup[k])
  }

  // ---- What each transaction stores --------------------------------------------

  /** An admitted task is queued under its creator, without a thread, with one queued run and an event in progress. */
  lemma AdmitNewTaskStores(db: Db, key: Id, task: Id, run: Id, owner: Id)
    ensures var (db', a) := AdmitNewTask(db, key, task, run, owner);
            a == Admitted ==>
              && task !in db.tasks && run !in db.runs && key !in db.dedup
              && db'.tasks == db.tasks[task := Task(0, Queued, owner)]
              && db'.runs == db.runs[run := Run(task, New, Queued, 0, 0, 0)]
              && db'.dedup == db.dedup[key := Dedup(Processing, Some(task), Some(run))]
  {
  }

  /** An attached task is idle under its creator, with its thread and no run, and can be continued at once. */
  lemma AttachThreadStores(db: Db, key: Id, task: Id, thread: Id, owner: Id, nextKey: Id, run: Id)
    requires Consistent(db) && AttachThread(db, key, task, thread, owner).1 == Admitted && thread != NO_ID
    requires nextKey != NO_ID && nextKey != key && nextKey !in db.dedup && run !in db.runs
    ensures var db' := AttachThread(db, key, task, thread, owner).0;
            && task !in db.tasks && db'.tasks == db.tasks[task := Task(thread, Idle, owner)] && db'.runs == db.runs
            && db'.dedup == db.dedup[key := Dedup(Completed, Some(task), None)]
            && AdmitResumeRun(db', nextKey, run, task, owner).1 == Admitted
  {
    AttachThreadKeepsConsistent(db, key, task, thread, owner);
    AdmitResumeKeepsConsistent(AttachThread(db, key, task, thread, owner).0, nextKey, run, task, owner);
  }

  /** A continuation is queued on the thread of its task; a refusal says why, and only marks its event. */
  lemma AdmitResumeStores(db: Db, key: Id, run: Id, task: Id, requester: Id)
    requires Consistent(db) && key != NO_ID && key !in db.dedup && run !in db.runs
    ensures var (db', a) := AdmitResumeRun(db, key, run, task, requester);
            && (a == Refused(RouteMiss) <==> task !in db.tasks)
            && (a == Refused(CreatorMismatch) <==> task in db.tasks && db.tasks[task].owner != requester)
            && (a == Refused(MissingThread) <==> task in db.tasks && db.tasks[task].owner == requester && db.tasks[task].thread == 0)
            && (a == Refused(ActiveRun) <==> task in db.tasks && db.tasks[task].owner == requester && db.tasks[task].thread != 0
                                             && (db.tasks[task].status == Queued || db.tasks[task].status == Running))
            && (if a == Admitted then
                  && task in db.tasks
                  && db'.tasks == db.tasks[task := db.tasks[task].(status := Queued)]
                  && db'.runs == db.runs[run := Run(task, Resume, Queued, db.tasks[task].thread, 0, 0)]
                  && db'.dedup == db.dedup[key := Dedup(Processing, Some(task), Some(run))]
                else db' == db.(dedup := db.dedup[key := Dedup(Rejected, None, None)]))
  {
    AdmitResumeKeepsConsistent(db, key, run, task, requester);
  }

  /**
   A started run and its task are running; a thread or turn that is given is stored,
   one that is empty leaves what was there.
   */
  lemma StartRunStores(db: Db, run: Id, thread: Id, turn: Id)
    requires Consistent(db) && run in db.runs && IsActive(db.runs[run].status)
    ensures var ((db', started), row) := (StartRun(db, run, thread, turn), db.runs[run]);
            && started && row.task in db.tasks && db'.dedup == db.dedup
            && db'.runs.Keys == db.runs.Keys && db'.tasks.Keys == db.tasks.Keys
            && db'.runs[run].status == Running && db'.tasks[row.task].status == Running
            && (thread != 0 ==> db'.runs[run].thread == thread && db'.tasks[row.task].thread == thread)
            && (thread == 0 ==> db'.runs[run].thread == row.thread && db'.tasks[row.task].thread == db.tasks[row.task].thread)
            && (turn != 0 ==> db'.runs[run].turn == turn) && (turn == 0 ==> db'.runs[run].turn == row.turn)
            && db'.runs[run].task == row.task && db'.runs[run].kind == row.kind && db'.runs[run].exitCode == row.exitCode
            && db'.tasks[row.task].owner == db.tasks[row.task].owner
            && (forall r :: r in db.runs && r != run ==> db'.runs[r] == db.runs[r])
            && (forall t :: t in db.tasks && t != row.task ==> db'.tasks[t] == db.tasks[t])
  {
    assert ActiveRunOf(db, run, db.runs[run].task) && TaskAgrees(db, db.runs[run].task);
  }

  /** A finished run has its status, exit code, thread and turn; its task the status and the thread; its event is done. */
  lemma FinishRunStores(db: Db, key: Id, run: Id, thread: Id, turn: Id, status: Status, exitCode: int)
    requires run in db.runs && db.runs[run].task in db.tasks && IsTerminal(status)
    ensures var ((db', finished), row) := (FinishRun(db, key, run, thread, turn, status, exitCode), db.runs[run]);
            && finished && db'.runs.Keys == db.runs.Keys && db'.tasks.Keys == db.tasks.Keys
            && db'.runs[run].status == status && db'.tasks[row.task].status == status && db'.runs[run].exitCode == exitCode
            && (thread != 0 ==> db'.runs[run].thread == thread && db'.tasks[row.task].thread == thread)
            && (thread == 0 ==> db'.runs[run].thread == row.thread && db'.tasks[row.task].thread == db.tasks[row.task].thread)
            && (turn != 0 ==> db'.runs[run].turn == turn) && (turn == 0 ==> db'.runs[run].turn == row.turn)
            && db'.runs[run].task == row.task && db'.runs[run].kind == row.kind
            && db'.tasks[row.task].owner == db.tasks[row.task].owner
            && (forall r :: r in db.runs && r != run ==> db'.runs[r] == db.runs[r])
            && (forall t :: t in db.tasks && t != row.task ==> db'.tasks[t] == db.tasks[t])
            && (key != 0 && key in db.dedup ==> db'.dedup == db.dedup[key := Dedup(Completed, Some(row.task), Some(run))])
            && (key == 0 || key !in db.dedup ==> db'.dedup == db.dedup)
  {
  }

  /** Recovery fails exactly the queued and running tasks and runs and the events in progress, and changes nothing else. */
  lemma RecoveryStores(db: Db)
    ensures var db' := RecoverRunning(db);
            && db'.runs.Keys == db.runs.Keys && db'.tasks.Keys == db.tasks.Keys && db'.dedup.Keys == db.dedup.Keys
            && (forall r :: r in db.runs ==>
                  db'.runs[r] == if db.runs[r].status == Queued || db.runs[r].status == Running
                                 then db.runs[r].(status := Failed, exitCode := -1) else db.runs[r])
            && (forall t :: t in db.tasks ==>
                  db'.tasks[t] == if db.tasks[t].status == Queued || db.tasks[t].status == Running
                                  then db.tasks[t].(status := Failed) else db.tasks[t])
            && (forall k :: k in db.dedup ==>
                  db'.dedup[k] == if db.dedup[k].state == Processing then db.dedup[k].(state := Rejected) else db.dedup[k])
  {
  }

  // ---- Every transaction keeps the tables consistent -------------------------

  lemma AdmitNewTaskKeepsConsistent(db: Db, key: Id, task: Id, run: Id, owner: Id)
    requires Consistent(db)
    ensures Consistent(AdmitNewTask(db, key, task, run, owner).0)
    ensures AdmitNewTask(db, key, task, run, owner).1 == Admitted
            <==> key != NO_ID && key !in db.dedup && task !in db.tasks && run !in db.runs
  {
    var (db', result) := AdmitNewTask(db, key, task, run, owner);
    if result == Admitted {
      assert ActiveRunOf(db', run, task);
      forall t | t in db'.tasks && t != task ensures TaskAgrees(db', t) {
        assert TaskAgrees(db, t);
        assert forall r :: ActiveRunOf(db', r, t) <==> ActiveRunOf(db, r, t);
      }
    }
  }

  lemma AttachThreadKeepsConsistent(db: Db, key: Id, task: Id, thread: Id, owner: Id)
    requires Consistent(db)
    ensures Consistent(AttachThread(db, key, task, thread, owner).0)
  {
    var db' := AttachThread(db, key, task, thread, owner).0;
    forall t | t in db'.tasks ensures TaskAgrees(db', t) {
      assert forall r :: ActiveRunOf(db', r, t) <==> ActiveRunOf(db, r, t);
    }
  }

  /** A change of `event_dedup` alone is invisible to consistency. */
  lemma DedupIsIrrelevant(db: Db, dedup: map<Id, Dedup>)
    requires Consistent(db)
    ensures Consistent(db.(dedup := dedup))
  {
    var db' := db.(dedup := dedup);
    forall t | t in db'.tasks ensures TaskAgrees(db', t) {
      assert TaskAgrees(db, t);
      assert forall r :: ActiveRunOf(db', r, t) <==> ActiveRunOf(db, r, t);
    }
  }

  /** From consistent tables the partial index never rejects a task that passed the status test. */
  lemma PartialIndexNeverFires(db: Db, run: Id, task: Id)
    requires Consistent(db) && task in db.tasks && CanStart(db.tasks[task].status) && run !in db.runs
    ensures AcceptsRun(db, run, task)
  {
    assert TaskAgrees(db, task);
  }

  lemma AdmitResumeKeepsConsistent(db: Db, key: Id, run: Id, task: Id, requester: Id)
    requires Consistent(db)
    ensures Consistent(AdmitResumeRun(db, key, run, task, requester).0)
    ensures AdmitResumeRun(db, key, run, task, requester).1 == Admitted
            <==> key != NO_ID && key !in db.dedup && run !in db.runs && task in db.tasks
                 && db.tasks[task].owner == requester && db.tasks[task].thread != NO_ID
                 && !IsActive(db.tasks[task].status)
  {
    var (db', result) := AdmitResumeRun(db, key, run, task, requester);
    if task in db.tasks && CanStart(db.tasks[task].status) && run !in db.runs {
      PartialIndexNeverFires(db, run, task);
    }
    if result == Admitted {
      assert ActiveRunOf(db', run, task);
      assert TaskAgrees(db, task);
      forall r | ActiveRunOf(db', r, task) ensures r == run {
        assert r != run ==> ActiveRunOf(db, r, task);
      }
      forall t | t in db'.tasks && t != task ensures TaskAgrees(db', t) {
        assert TaskAgrees(db, t);
        assert forall r :: ActiveRunOf(db', r, t) <==> ActiveRunOf(db, r, t);
      }
    } else {
      DedupIsIrrelevant(db, db'.dedup);
    }
  }

  lemma StartRunKeepsConsistent(db: Db, run: Id, thread: Id, turn: Id)
    requires Consistent(db)
    ensures Consistent(StartRun(db, run, thread, turn).0)
    ensures StartRun(db, run, thread, turn).1 <==> run in db.runs && IsActive(db.runs[run].status)
  {
    var (db', started) := StartRun(db, run, thread, turn);
    if started {
      var task := db.runs[run].task;
      assert ActiveRunOf(db, run, task) && TaskAgrees(db, task);
      assert ActiveRunOf(db', run, task);
      forall t | t in db'.tasks ensures TaskAgrees(db', t) {
        assert TaskAgrees(db, t);
        assert forall r :: ActiveRunOf(db', r, t) <==> ActiveRunOf(db, r, t);
      }
    }
  }

  /**
   `FinishRun` has no status guard, so whether it keeps the tables consistent is
   up to its caller: it does exactly when the run is still active, or its task
   has no active run at all.
   */
  lemma FinishRunKeepsConsistentIff(db: Db, key: Id, run: Id, thread: Id, turn: Id, status: Status, exitCode: int)
    requires Consistent(db) && run in db.runs && IsTerminal(status)
    ensures Consistent(FinishRun(db, key, run, thread, turn, status, exitCode).0)
            <==> IsActive(db.runs[run].status) || !IsActive(db.tasks[db.runs[run].task].status)
  {
    var db' := FinishRun(db, key, run, thread, turn, status, exitCode).0;
    var task := db.runs[run].task;
    assert TaskAgrees(db, task);
    if IsActive(db.runs[run].status) || !IsActive(db.tasks[task].status) {
      assert IsActive(db.runs[run].status) ==> ActiveRunOf(db, run, task);
      forall r ensures !ActiveRunOf(db', r, task) {
        assert ActiveRunOf(db', r, task) ==> r != run && ActiveRunOf(db, r, task);
      }
      forall t | t in db'.tasks && t != task ensures TaskAgrees(db', t) {
        assert TaskAgrees(db, t);
        assert forall r :: ActiveRunOf(db', r, t) <==> ActiveRunOf(db, r, t);
      }
    } else {
      var r :| ActiveRunOf(db, r, task);
      assert ActiveRunOf(db', r, task);
      assert !TaskAgrees(db', task);
    }
  }

  /** Recovery makes any tables with intact foreign keys consistent, and leaves nothing active. */
  lemma RecoverMakesConsistent(db: Db)
    requires RunsHaveTasks(db)
    ensures Consistent(RecoverRunning(db)) && !HasActiveTask(RecoverRunning(db))
    ensures forall r :: r in RecoverRunning(db).runs ==> !IsActive(RecoverRunning(db).runs[r].status)
    ensures forall k :: k in RecoverRunning(db).dedup ==> RecoverRunning(db).dedup[k].state != Processing
  {
  }

  // ---- What no transaction ever undoes ---------------------------------------

  /** Queued, then running, then terminal for ever. */
  predicate StatusMoves(before: Status, after: Status) {
    before == after || (before == Queued && after == Running) || (IsActive(before) && IsTerminal(after))
  }

  /**
   Rows are never deleted, a run's status only moves forward, a task keeps its
   owner and never loses its thread, and a dedup key stays taken.
   */
  ghost predicate Grows(db: Db, db': Db) {
    && (forall r :: r in db.runs ==> r in db'.runs && db'.runs[r].task == db.runs[r].task
                                     && StatusMoves(db.runs[r].status, db'.runs[r].status))
    && (forall t :: t in db.tasks ==> t in db'.tasks && db'.tasks[t].owner == db.tasks[t].owner
                                      && (db.tasks[t].thread != NO_ID ==> db'.tasks[t].thread != NO_ID))
    && (forall k :: k in db.dedup ==> k in db'.dedup)
  }

  lemma GrowsTransitive(a: Db, b: Db, c: Db)
    requires Grows(a, b) && Grows(b, c)
    ensures Grows(a, c)
  {
  }

  lemma AdmitNewTaskGrows(db: Db, key: Id, task: Id, run: Id, owner: Id)
    ensures Grows(db, AdmitNewTask(db, key, task, run, owner).0)
  {
  }

  lemma AdmitResumeGrows(db: Db, key: Id, run: Id, task: Id, requester: Id)
    ensures Grows(db, AdmitResumeRun(db, key, run, task, requester).0)
    ensures forall r :: r in db.runs ==> AdmitResumeRun(db, key, run, task, requester).0.runs[r] == db.runs[r]
  {
  }

  lemma AttachThreadGrows(db: Db, key: Id, task: Id, thread: Id, owner: Id)
    ensures Grows(db, AttachThread(db, key, task, thread, owner).0)
  {
  }

  lemma AdmitRestartGrows(db: Db, key: Id)
    ensures Grows(db, AdmitRestart(db, key).0)
  {
  }

  lemma RecoverGrows(db: Db)
    ensures Grows(db, RecoverRunning(db))
  {
  }

  lemma StartRunGrows(db: Db, run: Id, thread: Id, turn: Id)
    ensures Grows(db, StartRun(db, run, thread, turn).0)
  {
  }

  /** `FinishRun` rewrites history unless the run was still active. */
  lemma FinishRunGrowsIff(db: Db, key: Id, run: Id, thread: Id, turn: Id, status: Status, exitCode: int)
    requires run in db.runs && IsTerminal(status) && db.runs[run].task in db.tasks
    ensures Grows(db, FinishRun(db, key, run, thread, turn, status, exitCode).0)
            <==> IsActive(db.runs[run].status) || db.runs[run].status == status
  {
    var db' := FinishRun(db, key, run, thread, turn, status, exitCode).0;
    assert run in db'.runs;
  }

  /**
   Resumability: after a crash and `RecoverRunning`, the creator of any task
   that ever had a thread can continue it with a fresh key and run id.
   */
  lemma RecoveredTaskCanResume(db: Db, key: Id, run: Id, task: Id)
    requires RunsHaveTasks(db) && task in db.tasks && db.tasks[task].thread != NO_ID
    requires key != NO_ID && key !in db.dedup && run !in db.runs
    ensures AdmitResumeRun(RecoverRunning(db), key, run, task, db.tasks[task].owner).1 == Admitted
  {
    RecoverMakesConsistent(db);
    AdmitResumeKeepsConsistent(RecoverRunning(db), key, run, task, db.tasks[task].owner);
  }

  /** A refusal or a store error leaves tasks and runs untouched; an error leaves no trace at all. */
  lemma NoTraceUnlessAdmitted(db: Db, key: Id, run: Id, task: Id, thread: Id, owner: Id)
    ensures var (db', a) := AdmitNewTask(db, key, task, run, owner); a != Admitted ==> db' == db
    ensures var (db', a) := AttachThread(db, key, task, thread, owner); a != Admitted ==> db' == db
    ensures var (db', a) := AdmitRestart(db, key); a != Admitted ==> db' == db
    ensures var (db', a) := AdmitResumeRun(db, key, run, task, owner);
            (a != Admitted ==> db'.tasks == db.tasks && db'.runs == db.runs)
            && (a == StoreError || a == Refused(Replay) ==> db' == db)
  {
  }
}
