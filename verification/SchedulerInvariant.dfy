/** The inductive invariant of the scheduler and the proof that every step keeps it. */
module SchedulerInvariant {
  import opened Wrappers
  import opened SchedulerState
  import opened IssueOrder
  import opened SchedulerSteps

  // ----- Invariants -------------------------------------------------------------------------

  ghost predicate StartLog(db: Db, starts: seq<TaskId>) {
    && (forall k :: 0 <= k < |starts| ==>
          starts[k] in db.tasks && db.tasks[starts[k]].startedAt.Some?
          && db.tasks[starts[k]].turn.Some?)
    && (forall j, k :: 0 <= j < k < |starts| ==>
          starts[j] != starts[k]
          && (db.tasks[starts[j]].issue == db.tasks[starts[k]].issue ==>
                db.tasks[starts[j]].turn.value < db.tasks[starts[k]].turn.value))
  }

  /** While a task owns its Issue's lock, no other task of the Issue has a container, unless the
      lock was claimed after a needed block had been dropped. */
  ghost predicate OwnerAlone(db: Db, tainted: set<IssueId>) {
    forall u :: u in db.tasks && db.tasks[u].issue in db.locks && db.tasks[u].issue !in tainted
                && db.tasks[u].container.Some?
                ==> db.locks[db.tasks[u].issue] == u
  }

  /** Between reconcile and pick, memory or its own lock guards every retained container, unless
      the block was dropped in between. */
  ghost predicate WindowBlocked(w: World) {
    forall u :: u in w.db.tasks && Retains(w.db, u) ==>
      IssueOf(w, u) in w.mem.runningIssues || Owns(w.db, IssueOf(w, u), u)
      || IssueOf(w, u) in w.hist.breached
  }

  ghost function IssueOf(w: World, t: TaskId): IssueId
    requires t in w.db.tasks
  {
    w.db.tasks[t].issue
  }

  /** Until it is claimed, the picked task's Issue has no lock, no RUNNING task and no container. */
  ghost predicate PickedClear(w: World)
    requires w.phase.Picked?
  {
    && w.phase.task in w.db.tasks
    && var i := w.db.tasks[w.phase.task].issue;
    && i !in w.db.locks
    && (forall u :: u in w.db.tasks && w.db.tasks[u].issue == i ==> !w.db.tasks[u].status.Running?)
    && (i !in w.hist.breached ==>
          forall u :: u in w.db.tasks && w.db.tasks[u].issue == i ==> w.db.tasks[u].container.None?)
    && |RunningTasks(w.db)| < w.phase.cap
  }

  lemma PickedTask(w: World)
    requires Inv(w) && w.phase.Picked?
    ensures PickedClear(w)
  {
    hide DbInv, StartLog, OwnerAlone;
  }

  ghost predicate PhaseInv(w: World) {
    && (w.phase.Window? ==> WindowBlocked(w))
    && (w.phase.Picked? ==> PickedClear(w))
  }

  ghost predicate Inv(w: World) {
    && DbInv(w.db)
    && StartLog(w.db, w.hist.starts)
    && |RunningTasks(w.db)| <= w.hist.cap
    && RunningLocked(w.db, w.hist.released)
    && OwnerAlone(w.db, w.hist.tainted)
    && PhaseInv(w)
  }

  // ----- Gentle changes ---------------------------------------------------------------------

  /** A change that starts nothing, gives a container only to a RUNNING task, and adds no lock. */
  ghost predicate Mild(db: Db, db': Db) {
    && Calm(db, db')
    && (forall t :: t in db.tasks && db'.tasks[t].container.Some? ==>
          db.tasks[t].container.Some? || db.tasks[t].status.Running?)
    && (forall i :: i in db'.locks ==> i in db.locks && db'.locks[i] == db.locks[i])
  }

  /** A mild change that takes a lock only from a task that is not RUNNING afterwards. */
  ghost predicate Gentle(db: Db, db': Db) {
    && Mild(db, db')
    && (forall i :: i in db.locks && i !in db'.locks && db.locks[i] in db.tasks ==>
          !db'.tasks[db.locks[i]].status.Running?)
  }

  lemma MildKeepsLocks(db: Db, db': Db)
    requires LockInv(db) && Mild(db, db')
    ensures LockInv(db')
  {
    assert forall t :: t in db'.tasks && db'.tasks[t].status.Running? ==> db.tasks[t].status.Running?;
  }

  lemma GentleKeepsLocks(db: Db, db': Db)
    requires LockInv(db) && Gentle(db, db')
    ensures LockInv(db')
  {
    MildKeepsLocks(db, db');
  }

  lemma GentleKeepsHeld(db: Db, db': Db, released: set<TaskId>)
    requires RunningLocked(db, released) && Gentle(db, db')
    ensures RunningLocked(db', released)
  {
    forall t | t in db'.tasks && db'.tasks[t].status.Running? && t !in released
      ensures db'.tasks[t].issue in db'.locks && db'.locks[db'.tasks[t].issue] == t
    {
      assert db.tasks[t].status.Running?;
    }
  }

  lemma MildKeepsDbInv(db: Db, db': Db)
    requires DbInv(db) && Mild(db, db')
    ensures DbInv(db') && Evolves(db, db')
    ensures |RunningTasks(db')| <= |RunningTasks(db)|
  {
    MildKeepsLocks(db, db');
    CalmKeepsOrder(db, db');
    hide LockInv, OrderInv, Evolves;
    assert RunningTasks(db') <= RunningTasks(db);
    SubsetSize(RunningTasks(db'), RunningTasks(db));
  }

  lemma MildKeepsOwnerAlone(db: Db, db': Db, tainted: set<IssueId>)
    requires LockInv(db) && Mild(db, db') && OwnerAlone(db, tainted)
    ensures OwnerAlone(db', tainted)
  {
    forall u | u in db'.tasks && db'.tasks[u].issue in db'.locks
               && db'.tasks[u].issue !in tainted && db'.tasks[u].container.Some?
      ensures db'.locks[db'.tasks[u].issue] == u
    {
      assert db.tasks[u].container.Some? || db.tasks[u].status.Running?;
    }
  }

  lemma LogSurvives(db: Db, db': Db, starts: seq<TaskId>)
    requires StartLog(db, starts) && Evolves(db, db')
    ensures StartLog(db', starts)
  {}

  /** Dropped blocks are no longer needed, and freed locks leave no container behind. */
  ghost predicate WindowSafe(w: World, w': World) {
    && w.hist.breached <= w'.hist.breached
    && (forall i :: i in w.db.locks && i !in w'.db.locks && w.db.locks[i] in w'.db.tasks ==>
          w'.db.tasks[w.db.locks[i]].container.None?)
    && (forall i :: i in w.mem.runningIssues && i !in w'.mem.runningIssues ==>
          !Exposed(w'.db, i) || i in w'.hist.breached)
    && (forall u :: u in w.db.tasks && u in w'.db.tasks && w.db.tasks[u].status.Running?
                    && Retains(w'.db, u) && !Owns(w.db, IssueOf(w, u), u)
                    ==> IssueOf(w, u) in w'.mem.runningIssues || IssueOf(w, u) in w'.hist.breached)
  }

  /** No task ends while leaving a container. */
  ghost predicate EndsClean(db: Db, db': Db) {
    forall u :: u in db.tasks && u in db'.tasks && db.tasks[u].status.Running? ==> !Retains(db', u)
  }

  lemma WindowSurvives(w: World, w': World)
    requires LockInv(w.db) && WindowBlocked(w)
    requires Mild(w.db, w'.db) && WindowSafe(w, w')
    ensures WindowBlocked(w')
  {
    forall u | u in w'.db.tasks && Retains(w'.db, u)
      ensures IssueOf(w', u) in w'.mem.runningIssues || Owns(w'.db, IssueOf(w', u), u)
              || IssueOf(w', u) in w'.hist.breached
    {
      var i := IssueOf(w', u);
      assert w.db.tasks[u].container.Some? || w.db.tasks[u].status.Running?;
    }
  }

  lemma PickedSurvives(w: World, w': World)
    requires LockInv(w.db) && w.phase.Picked? && PickedClear(w)
    requires Mild(w.db, w'.db) && w'.phase == w.phase
    requires w.hist.breached <= w'.hist.breached
    ensures PickedClear(w')
  {
    var i := w.db.tasks[w.phase.task].issue;
    forall u | u in w'.db.tasks && w'.db.tasks[u].issue == i && i !in w'.hist.breached
      ensures w'.db.tasks[u].container.None?
    {
      assert !w.db.tasks[u].status.Running?;
    }
    assert RunningTasks(w'.db) <= RunningTasks(w.db);
    SubsetSize(RunningTasks(w'.db), RunningTasks(w.db));
  }

  /** A step that is mild on the database keeps the invariant when it either leaves the window and
      the pick alone, or abandons the cycle, and accounts for the locks it takes. */
  lemma MildStepKeepsInv(w: World, w': World)
    requires Inv(w) && Mild(w.db, w'.db) && RunningLocked(w'.db, w'.hist.released)
    requires w'.hist.starts == w.hist.starts && w'.hist.cap == w.hist.cap
    requires w.hist.breached <= w'.hist.breached && w'.hist.tainted == w.hist.tainted
    requires w'.phase == w.phase || w'.phase in {Idle, Down, Swept}
    requires w'.phase.Window? ==> WindowSafe(w, w')
    ensures Inv(w') && Evolves(w.db, w'.db)
  {
    MildKeepsDbInv(w.db, w'.db);
    MildKeepsOwnerAlone(w.db, w'.db, w.hist.tainted);
    LogSurvives(w.db, w'.db, w.hist.starts);
    if w'.phase.Window? { WindowSurvives(w, w'); }
    if w'.phase.Picked? { PickedSurvives(w, w'); }
  }

  lemma GentleStepKeepsInv(w: World, w': World)
    requires Inv(w) && Gentle(w.db, w'.db) && w'.hist.released == w.hist.released
    requires w'.hist.starts == w.hist.starts && w'.hist.cap == w.hist.cap
    requires w.hist.breached <= w'.hist.breached && w'.hist.tainted == w.hist.tainted
    requires w'.phase == w.phase || w'.phase in {Idle, Down, Swept}
    requires w'.phase.Window? ==> WindowSafe(w, w')
    ensures Inv(w') && Evolves(w.db, w'.db)
  {
    assert RunningLocked(w.db, w.hist.released) by { HeldOf(w); }
    hide Inv, Evolves, RunningLocked, WindowSafe;
    GentleKeepsHeld(w.db, w'.db, w.hist.released);
    MildStepKeepsInv(w, w');
  }

  lemma HeldOf(w: World)
    requires Inv(w)
    ensures RunningLocked(w.db, w.hist.released) && LockInv(w.db)
  {
    hide RunningLocked, LockInv, OrderInv, StartLog, OwnerAlone, PhaseInv;
  }

  // ----- Steps on one row -------------------------------------------------------------------

  predicate GentleRow(a: Task, b: Task) {
    && b.issue == a.issue && b.created == a.created && b.turn == a.turn
    && b.startedAt == a.startedAt && b.timeoutSeconds == a.timeoutSeconds
    && (b.status.Waiting() ==> a.status.Waiting())
    && (b.status.Running? ==> a.status.Running?)
    && (b.container.Some? ==> a.container.Some? || a.status.Running?)
  }

  lemma RowChangeIsGentle(db: Db, t: TaskId, row: Task)
    requires t in db.tasks && GentleRow(db.tasks[t], row)
    ensures Gentle(db, db.(tasks := db.tasks[t := row]))
  {}

  lemma RowStepKeepsInv(w: World, t: TaskId, row: Task)
    requires Inv(w) && t in w.db.tasks && GentleRow(w.db.tasks[t], row)
    requires w.db.tasks[t].status.Running? ==> row.status.Running?
    ensures Inv(w.(db := w.db.(tasks := w.db.tasks[t := row])))
    ensures Evolves(w.db, w.db.(tasks := w.db.tasks[t := row]))
  {
    hide Inv, Evolves, Gentle;
    var d := w.db.(tasks := w.db.tasks[t := row]);
    RowChangeIsGentle(w.db, t, row);
    assert EndsClean(w.db, d);
    assert WindowSafe(w, w.(db := d));
    GentleStepKeepsInv(w, w.(db := d));
  }

  /** A worker that ends, whatever it leaves. */
  lemma WorkerEndsKeepsInv(w: World, t: TaskId, outcome: Status, left: Option<nat>)
    requires Inv(w) && Enabled(w, WorkerEnds(t, outcome, left))
    ensures var w' := EndWorker(w, t, outcome, left); Inv(w') && Evolves(w.db, w'.db)
  {
    hide Inv, Evolves, Gentle;
    var row := w.db.tasks[t].(status := outcome, container := left);
    RowChangeIsGentle(w.db, t, row);
    if w.phase.Window? {
      assert WindowSafe(w, EndWorker(w, t, outcome, left)) by {
        assert forall u :: u in w.db.tasks && u != t && w.db.tasks[u].status.Running? ==>
          !Retains(EndWorker(w, t, outcome, left).db, u);
      }
    }
    GentleStepKeepsInv(w, EndWorker(w, t, outcome, left));
  }

  /** Changing one row and then releasing its own lock, once it is no longer RUNNING. */
  lemma RowReleaseIsGentle(db: Db, t: TaskId, row: Task)
    requires t in db.tasks && GentleRow(db.tasks[t], row) && !row.status.Running?
    ensures Gentle(db, ReleaseLock(db.(tasks := db.tasks[t := row]), row.issue, t))
  {}

  lemma CancelConvergesKeepsInv(w: World, t: TaskId, absent: bool)
    requires Inv(w) && Enabled(w, CancelConverges(t, absent))
    ensures var w' := Apply(w, CancelConverges(t, absent)); Inv(w') && Evolves(w.db, w'.db)
  {
    hide Inv, Evolves, Gentle;
    var row := if absent then w.db.tasks[t].(container := None) else w.db.tasks[t];
    var d := w.db.(tasks := w.db.tasks[t := row]);
    assert d == if absent then WithoutContainer(w.db, t) else w.db;
    RowChangeIsGentle(w.db, t, row);
    if row.status.Terminal() { RowReleaseIsGentle(w.db, t, row); }
    GentleStepKeepsInv(w, Apply(w, CancelConverges(t, absent)));
  }

  // ----- Background coroutines --------------------------------------------------------------

  /** Dropping an Issue's block records a breach exactly when the block was still needed. */
  lemma DropIsWindowSafe(w: World, f: World, db: Db, i: IssueId)
    requires f.db == w.db && f.phase == w.phase && f.hist == w.hist
    requires f.mem.runningIssues == w.mem.runningIssues
    requires forall j :: j in w.db.locks && j !in db.locks && w.db.locks[j] in db.tasks ==>
               db.tasks[w.db.locks[j]].container.None?
    requires EndsClean(w.db, db)
    ensures w.phase.Window? ==> WindowSafe(w, DropIssue(f, db, i))
    ensures w.hist.breached <= DropIssue(f, db, i).hist.breached
  {}

  /** Releasing a task's own lock is mild whatever its status. */
  lemma ReleaseIsMild(db: Db, i: IssueId, t: TaskId)
    ensures Mild(db, ReleaseLock(db, i, t)) && EndsClean(db, ReleaseLock(db, i, t))
  {}

  /** Only the finalised task itself can be left RUNNING without its lock. */
  lemma FinaliseKeepsHeld(w: World, t: TaskId)
    requires t in w.db.tasks && LockInv(w.db) && RunningLocked(w.db, w.hist.released)
    ensures RunningLocked(FinaliseTask(w, t).db, FinaliseTask(w, t).hist.released)
  {}

  lemma FinaliseKeepsInv(w: World, t: TaskId)
    requires Inv(w) && Enabled(w, Finalise(t))
    ensures var w' := Apply(w, Finalise(t)); Inv(w') && Evolves(w.db, w'.db)
  {
    hide Inv, Evolves, Mild, LockInv, RunningLocked, WindowSafe, FinaliseTask;
    HeldOf(w);
    FinaliseKeepsHeld(w, t);
    FinaliseIsMild(w, t);
    if w.phase.Window? { FinaliseIsWindowSafe(w, t); }
    MildStepKeepsInv(w, FinaliseTask(w, t));
  }

  lemma FinaliseIsMild(w: World, t: TaskId)
    requires t in w.db.tasks
    ensures var w' := FinaliseTask(w, t);
      && Mild(w.db, w'.db) && w'.phase == w.phase && w.hist.breached <= w'.hist.breached
      && w'.hist.starts == w.hist.starts && w'.hist.cap == w.hist.cap && w'.hist.tainted == w.hist.tainted
  {
    hide Mild, EndsClean, Exposed;
    ReleaseIsMild(w.db, w.db.tasks[t].issue, t);
    MildRefl(w.db);
  }

  lemma FinaliseIsWindowSafe(w: World, t: TaskId)
    requires t in w.db.tasks && w.phase.Window?
    ensures WindowSafe(w, FinaliseTask(w, t))
  {
    hide Exposed, EndsClean, Mild;
    var i := w.db.tasks[t].issue;
    if w.db.tasks[t].container.None? && !(i in w.db.locks && w.db.locks[i] != t) {
      var d := DropIssue(Forget(w, t), ReleaseLock(w.db, i, t), i);
      ReleaseIsMild(w.db, i, t);
      DropIsWindowSafe(w, Forget(w, t), ReleaseLock(w.db, i, t), i);
      hide WindowSafe, DropIssue;
      assert WindowSafe(w, NoteRelease(d, t)) by { NoteIsWindowSafe(w, d, t); }
    } else {
      KeptIsWindowSafe(w, FinaliseTask(w, t));
    }
  }

  lemma NoteIsWindowSafe(w: World, d: World, t: TaskId)
    requires t in d.db.tasks && WindowSafe(w, d)
    ensures WindowSafe(w, NoteRelease(d, t))
  {
    hide Exposed;
  }

  lemma MildRefl(db: Db)
    ensures Mild(db, db) && Gentle(db, db) && EndsClean(db, db)
  {}

  /** A step that only adds to memory. */
  lemma KeptIsWindowSafe(w: World, w': World)
    requires w'.db == w.db && w.hist.breached <= w'.hist.breached
    requires w.mem.runningIssues <= w'.mem.runningIssues
    ensures WindowSafe(w, w')
  {}

  lemma BootstrapFailsKeepsInv(w: World, t: TaskId)
    requires Inv(w) && Enabled(w, BootstrapFails(t))
    ensures var w' := Apply(w, BootstrapFails(t)); Inv(w') && Evolves(w.db, w'.db)
  {
    hide Inv, Evolves, Gentle;
    var i := w.db.tasks[t].issue;
    var row := w.db.tasks[t].(status := Ended(w.db.tasks[t]));
    var db := SetStatus(w.db, t, Ended(w.db.tasks[t]));
    RowReleaseIsGentle(w.db, t, row);
    RowChangeIsGentle(w.db, t, row);
    if w.db.tasks[t].container.None? {
      DropIsWindowSafe(w, w, ReleaseLock(db, i, t), i);
    }
    GentleStepKeepsInv(w, FailBootstrap(w, t));
  }

  lemma BootstrapUnrecordedKeepsInv(w: World, t: TaskId)
    requires Inv(w) && Enabled(w, BootstrapUnrecorded(t))
    ensures var w' := Apply(w, BootstrapUnrecorded(t)); Inv(w') && Evolves(w.db, w'.db)
  {
    hide Inv, Evolves, Gentle, Mild, EndsClean, Exposed;
    MildRefl(w.db);
    if w.db.tasks[t].container.None? {
      DropIsWindowSafe(w, w, w.db, w.db.tasks[t].issue);
    } else {
      KeptIsWindowSafe(w, LoseBootstrap(w, t));
    }
    GentleStepKeepsInv(w, LoseBootstrap(w, t));
  }

  lemma CoordinatorAbsentKeepsInv(w: World, t: TaskId)
    requires Inv(w) && Enabled(w, CoordinatorAbsent(t))
    ensures var w' := Apply(w, CoordinatorAbsent(t)); Inv(w') && Evolves(w.db, w'.db)
  {
    hide Inv, Evolves, Gentle;
    var row := w.db.tasks[t].(status := Ended(w.db.tasks[t]), container := None,
                              logsFinalized := true);
    RowReleaseIsGentle(w.db, t, row);
    DropIsWindowSafe(w, Forget(w, t), EndAbsent(w.db, t), w.db.tasks[t].issue);
    GentleStepKeepsInv(w, Apply(w, CoordinatorAbsent(t)));
  }

  lemma CoordinatorStopsKeepsInv(w: World, t: TaskId)
    requires Inv(w) && Enabled(w, CoordinatorStops(t))
    ensures var w' := Apply(w, CoordinatorStops(t)); Inv(w') && Evolves(w.db, w'.db)
  {
    hide Inv, Evolves;
    DropIsWindowSafe(w, Forget(w, t), w.db, w.db.tasks[t].issue);
    GentleStepKeepsInv(w, Apply(w, CoordinatorStops(t)));
  }

  lemma ClearRetainedKeepsInv(w: World, t: TaskId)
    requires Inv(w) && Enabled(w, ClearRetained(t))
    ensures var w' := Apply(w, ClearRetained(t)); Inv(w') && Evolves(w.db, w'.db)
  {
    hide Inv, Evolves, Gentle;
    var row := w.db.tasks[t].(container := None);
    RowReleaseIsGentle(w.db, t, row);
    RowChangeIsGentle(w.db, t, row);
    var w' := ClearRetainedReference(w, t);
    assert !Exposed(w'.db, w.db.tasks[t].issue) || w'.mem.runningIssues == w.mem.runningIssues;
    GentleStepKeepsInv(w, w');
  }

  lemma CleanLocksKeepsInv(w: World)
    requires Inv(w)
    ensures Inv(w.(db := CleanStaleLocks(w.db)))
    ensures Gentle(w.db, CleanStaleLocks(w.db)) && Evolves(w.db, CleanStaleLocks(w.db))
  {
    hide *;
    CleanIsWindowSafe(w);
    GentleStepKeepsInv(w, w.(db := CleanStaleLocks(w.db)));
  }

  lemma CleanIsWindowSafe(w: World)
    ensures Gentle(w.db, CleanStaleLocks(w.db)) && WindowSafe(w, w.(db := CleanStaleLocks(w.db)))
  {}

  // ----- Cycle ------------------------------------------------------------------------------

  lemma RemediationIsGentle(db: Db, rejected: set<TaskId>)
    requires LockInv(db)
    ensures Gentle(db, RemediateAll(db, rejected))
  {}

  lemma RemediateKeepsInv(w: World, rejected: set<TaskId>)
    requires Inv(w) && Enabled(w, Remediate(rejected))
    ensures var w' := Apply(w, Remediate(rejected)); Inv(w') && Evolves(w.db, w'.db)
  {
    RemediationIsGentle(w.db, rejected);
    GentleStepKeepsInv(w, Apply(w, Remediate(rejected)));
  }

  /** Reconcile opens the window: every Issue with a retained container is blocked in memory. */
  lemma ReconcileKeepsInv(w: World, stuck: set<TaskId>)
    requires Inv(w) && Enabled(w, Reconcile(stuck))
    ensures var w' := Apply(w, Reconcile(stuck));
            && Inv(w') && Evolves(w.db, w'.db)
            && w'.mem.retained == RetainedIssues(w.db) && w'.mem.retained <= w'.mem.runningIssues
  {
    var w' := Apply(w, Reconcile(stuck));
    assert forall u :: u in w.db.tasks && Retains(w.db, u) ==>
             w.db.tasks[u].issue in RetainedIssues(w.db);
    assert WindowBlocked(w');
  }

  lemma QueueBulkIsGentle(db: Db, d: Db)
    requires Calm(db, d) && d.locks == db.locks
    requires forall t :: t in db.tasks ==> d.tasks[t].container == db.tasks[t].container
    ensures Gentle(db, d)
  {}

  lemma BulkKeepsInv(w: World, d: Db)
    requires Inv(w) && Gentle(w.db, d) && d.locks == w.db.locks && EndsClean(w.db, d)
    ensures Inv(w.(db := d)) && Inv(w.(db := d, phase := Idle)) && Evolves(w.db, d)
  {
    hide Inv, Evolves, Gentle;
    GentleStepKeepsInv(w, w.(db := d));
    GentleStepKeepsInv(w, w.(db := d, phase := Idle));
  }

  lemma NormaliseKeepsInv(w: World)
    requires Inv(w)
    ensures Inv(w.(db := NormaliseQueue(w.db))) && Evolves(w.db, NormaliseQueue(w.db))
  {
    NormaliseLeavesLegalHeads(w.db);
    QueueBulkIsGentle(w.db, NormaliseQueue(w.db));
    BulkKeepsInv(w, NormaliseQueue(w.db));
  }

  lemma PromoteKeepsInv(w: World, executable: set<TaskId>, parked: set<TaskId>)
    requires Inv(w)
    ensures var d := PromoteHeads(w.db, w.now, w.mem.runningIssues, executable, parked);
            Inv(w.(db := d)) && Evolves(w.db, d)
  {
    var d := PromoteHeads(w.db, w.now, w.mem.runningIssues, executable, parked);
    PromoteIsCalm(w.db, w.now, w.mem.runningIssues, executable, parked);
    QueueBulkIsGentle(w.db, d);
    BulkKeepsInv(w, d);
  }

  // ----- Steps that add, number or start tasks -----------------------------------------------

  /** A new row is unnumbered, or numbered above every existing row of its Issue. */
  ghost predicate AboveAll(db: Db, row: Task) {
    row.turn.Some? ==>
      forall t :: t in db.tasks && db.tasks[t].issue == row.issue && db.tasks[t].turn.Some?
                  ==> db.tasks[t].turn.value < row.turn.value
  }

  lemma InsertEvolves(db: Db, id: TaskId, row: Task)
    requires FreshRow(db, id, row)
    ensures Evolves(db, db.(tasks := db.tasks[id := row]))
  {}

  lemma InsertKeepsOrder(db: Db, id: TaskId, row: Task)
    requires DbInv(db) && FreshRow(db, id, row)
    requires AboveAll(db, row)
    ensures OrderInv(db.(tasks := db.tasks[id := row]))
    ensures Evolves(db, db.(tasks := db.tasks[id := row]))
  {
    InsertEvolves(db, id, row);
    hide LockInv, Rank, Evolves;
    var d := db.(tasks := db.tasks[id := row]);
    forall t | t in d.tasks && d.tasks[t].startedAt.Some?
      ensures d.tasks[t].turn.Some? && d.tasks[t].turn.value <= |EarlierNumbered(d, t)| + 1
    {
      EarlierNumberedGrows(db, d, t);
    }
  }

  lemma InsertKeepsLocks(db: Db, id: TaskId, row: Task)
    requires LockInv(db) && FreshRow(db, id, row)
    ensures LockInv(db.(tasks := db.tasks[id := row]))
  {}

  lemma InsertKeepsPhase(w: World, id: TaskId, row: Task)
    requires PhaseInv(w) && OwnerAlone(w.db, w.hist.tainted) && FreshRow(w.db, id, row)
    ensures var d := w.db.(tasks := w.db.tasks[id := row]);
            && PhaseInv(w.(db := d)) && OwnerAlone(d, w.hist.tainted)
            && RunningTasks(d) == RunningTasks(w.db)
  {
    var d := w.db.(tasks := w.db.tasks[id := row]);
    assert RunningTasks(d) == RunningTasks(w.db);
  }

  lemma InsertKeepsHeld(db: Db, id: TaskId, row: Task, released: set<TaskId>)
    requires RunningLocked(db, released) && FreshRow(db, id, row)
    ensures RunningLocked(db.(tasks := db.tasks[id := row]), released)
  {}

  lemma InsertKeepsInv(w: World, id: TaskId, row: Task)
    requires Inv(w) && FreshRow(w.db, id, row) && AboveAll(w.db, row)
    ensures var d := w.db.(tasks := w.db.tasks[id := row]); Inv(w.(db := d)) && Evolves(w.db, d)
  {
    hide OrderInv, LockInv, Evolves, StartLog, FreshRow, AboveAll, PhaseInv, OwnerAlone, RunningLocked;
    InsertKeepsOrder(w.db, id, row);
    InsertKeepsLocks(w.db, id, row);
    InsertKeepsPhase(w, id, row);
    InsertKeepsHeld(w.db, id, row, w.hist.released);
    LogSurvives(w.db, w.db.(tasks := w.db.tasks[id := row]), w.hist.starts);
  }

  /** The two tables differ at most in turn numbers. */
  ghost predicate SameButTurns(db: Db, d: Db) {
    && d.tasks.Keys == db.tasks.Keys && d.locks == db.locks
    && forall t :: t in db.tasks ==> d.tasks[t] == db.tasks[t].(turn := d.tasks[t].turn)
  }

  lemma RepairKeepsInv(w: World, i: IssueId, ok: bool)
    requires Inv(w) && EnsureIntegrity(w.db, i, ok).Some?
    ensures var d := EnsureIntegrity(w.db, i, ok).value; Inv(w.(db := d)) && Evolves(w.db, d)
  {
    var d := EnsureIntegrity(w.db, i, ok).value;
    IntegrityKeepsDbInv(w.db, i, ok);
    IntegrityNumbersIssue(w.db, i, ok);
    LogSurvives(w.db, d, w.hist.starts);
    assert SameButTurns(w.db, d);
    hide DbInv, Evolves, StartLog, EnsureIntegrity, CheckedIssue;
    SameButTurnsKeepsPhase(w, d);
  }

  lemma SameButTurnsKeepsPhase(w: World, d: Db)
    requires SameButTurns(w.db, d) && PhaseInv(w) && OwnerAlone(w.db, w.hist.tainted)
    ensures PhaseInv(w.(db := d)) && OwnerAlone(d, w.hist.tainted)
    ensures RunningTasks(d) == RunningTasks(w.db)
  {
    assert RunningTasks(d) == RunningTasks(w.db);
  }

  /** What a pick may rely on: its Issue is unlocked, and container-free unless breached. */
  lemma PickOpensClear(w: World, cap: nat, t: TaskId, executable: set<TaskId>)
    requires Inv(w) && w.phase.Window? && |RunningTasks(w.db)| < cap
    requires Pickable(w.db, t, w.mem.runningIssues, executable)
    ensures PickedClear(w.(phase := Picked(t, cap)))
  {
    var i := w.db.tasks[t].issue;
    forall u | u in w.db.tasks && w.db.tasks[u].issue == i && i !in w.hist.breached
      ensures w.db.tasks[u].container.None?
    {
      assert !w.db.tasks[u].status.Running?;
    }
  }

  lemma PickProceeds(w: World, cap: nat, t: TaskId, executable: set<TaskId>)
    requires Inv(w) && w.phase.Window? && |RunningTasks(w.db)| < cap
    requires Pickable(w.db, t, w.mem.runningIssues, executable)
    ensures Inv(w.(phase := Picked(t, cap)))
  {
    PickOpensClear(w, cap, t, executable);
    hide DbInv, StartLog, OwnerAlone, PickedClear, Pickable, WindowBlocked;
  }

  lemma CycleEnds(w: World)
    requires Inv(w)
    ensures Inv(w.(phase := Idle)) && Evolves(w.db, w.db)
  {
    hide Inv;
    assert Gentle(w.db, w.db);
    BulkKeepsInv(w, w.db);
  }

  lemma PickFails(w: World, t: TaskId)
    requires Inv(w) && t in w.db.tasks && w.db.tasks[t].status.Queued?
    ensures Inv(w.(phase := Idle, db := SetStatus(w.db, t, Failed))) && Evolves(w.db, SetStatus(w.db, t, Failed))
  {
    hide Inv, Evolves, Gentle;
    RowChangeIsGentle(w.db, t, w.db.tasks[t].(status := Failed));
    BulkKeepsInv(w, SetStatus(w.db, t, Failed));
  }

  lemma PickParks(w: World, parked: set<TaskId>)
    requires Inv(w)
    ensures Inv(w.(phase := Idle, db := ParkTasks(w.db, parked))) && Evolves(w.db, ParkTasks(w.db, parked))
  {
    QueueBulkIsGentle(w.db, ParkTasks(w.db, parked));
    hide Inv, Evolves, Gentle;
    BulkKeepsInv(w, ParkTasks(w.db, parked));
  }

  lemma PickKeepsInv(w: World, cap: nat, pick: Option<TaskId>, gate: Gate, executable: set<TaskId>)
    requires Inv(w) && w.phase.Window? && |RunningTasks(w.db)| < cap
    requires IsPick(w.db, w.mem.runningIssues, executable, pick)
    ensures var w' := ApplyPick(w, cap, pick, gate); Inv(w') && Evolves(w.db, w'.db)
  {
    assert pick.Some? ==> Pickable(w.db, pick.value, w.mem.runningIssues, executable);
    hide Inv, Evolves, IsPick, LegalHead, ParkTasks;
    CycleEnds(w);
    if pick.Some? {
      match gate
      case Proceed => PickProceeds(w, cap, pick.value, executable);
      case Skip =>
      case Fail => PickFails(w, pick.value);
      case Park(others) => PickParks(w, others + {pick.value});
    }
  }

  /** Every task of the Issue that ever started is numbered below the one being claimed. */
  lemma ClaimedComesLast(db: Db, checked: Option<Db>, t: TaskId, now: int, env: ClaimEnv, s: TaskId)
    requires t in db.tasks && CheckedIssue(db, checked, db.tasks[t].issue)
    requires ClaimChecked(db, checked, t, now, env).1 == Claimed
    requires OrderInv(checked.value)
    requires s in db.tasks && db.tasks[s].startedAt.Some? && db.tasks[s].issue == db.tasks[t].issue
    ensures var d := ClaimChecked(db, checked, t, now, env).0;
            d.tasks[s].turn.Some? && d.tasks[t].turn.Some?
            && d.tasks[s].turn.value < d.tasks[t].turn.value
  {
    assert StartedFirst(checked.value);
    ClaimIsStart(db, checked, t, now, env);
    hide ClaimChecked, OrderInv, ActivePredecessor, Rank;
    assert checked.value.tasks[s].startedAt.Some?;
  }

  lemma ClaimIsStart(db: Db, checked: Option<Db>, t: TaskId, now: int, env: ClaimEnv)
    requires ClaimChecked(db, checked, t, now, env).1 == Claimed
    ensures checked.Some? && t in checked.value.tasks
    ensures checked.value.tasks[t].status.Queued? && checked.value.tasks[t].turn.Some?
    ensures ClaimChecked(db, checked, t, now, env).0 == StartTask(checked.value, t, now, env.timeout)
  {
    hide ActivePredecessor, StartTask;
  }

  lemma ClaimExtendsLog(db: Db, d: Db, t: TaskId, starts: seq<TaskId>)
    requires StartLog(db, starts) && Evolves(db, d) && t in db.tasks && t in d.tasks
    requires db.tasks[t].startedAt.None? && d.tasks[t].startedAt.Some? && d.tasks[t].turn.Some?
    requires forall s :: s in db.tasks && db.tasks[s].startedAt.Some?
                         && db.tasks[s].issue == db.tasks[t].issue ==>
               s in d.tasks && d.tasks[s].turn.Some?
               && d.tasks[s].turn.value < d.tasks[t].turn.value
    ensures StartLog(d, starts + [t])
  {
    LogSurvives(db, d, starts);
  }

  lemma ClaimedLogs(db: Db, checked: Option<Db>, t: TaskId, now: int, env: ClaimEnv, d: Db, starts: seq<TaskId>)
    requires t in db.tasks && CheckedIssue(db, checked, db.tasks[t].issue)
    requires ClaimChecked(db, checked, t, now, env) == (d, Claimed)
    requires OrderInv(checked.value) && StatusCoherent(db) && StartLog(db, starts) && Evolves(db, d)
    ensures StartLog(d, starts + [t])
  {
    hide OrderInv, Evolves, ClaimChecked, CheckedIssue, StartLog;
    ClaimedMeans(db, checked, t, now, env);
    ClaimedIsNumbered(db, checked, t, now, env);
    forall s | s in db.tasks && db.tasks[s].startedAt.Some? && db.tasks[s].issue == db.tasks[t].issue
      ensures s in d.tasks && d.tasks[s].turn.Some? && d.tasks[s].turn.value < d.tasks[t].turn.value
    {
      ClaimedComesLast(db, checked, t, now, env, s);
    }
    ClaimExtendsLog(db, d, t, starts);
  }

  lemma ClaimAddsOneRunning(db: Db, d: Db, t: TaskId)
    requires t in db.tasks && !db.tasks[t].status.Running? && d.tasks.Keys == db.tasks.Keys
    requires d.tasks[t].status.Running?
    requires forall u :: u in db.tasks && u != t ==> d.tasks[u].status == db.tasks[u].status
    ensures |RunningTasks(d)| == |RunningTasks(db)| + 1
  {
    assert RunningTasks(d) == RunningTasks(db) + {t};
  }

  /** The claim step, in terms of the two tables and nothing else. */
  lemma ClaimedKeepsInv(w: World, d: Db, t: TaskId, w': World)
    requires Inv(w) && w.phase.Picked? && w.phase.task == t
    requires DbInv(d) && StartLog(d, w.hist.starts + [t]) && d.tasks.Keys == w.db.tasks.Keys
    requires t in d.tasks && d.tasks[t].status.Running? && w.db.tasks[t].status.Queued?
    requires d.tasks[t].issue == w.db.tasks[t].issue
    requires d.locks == w.db.locks[w.db.tasks[t].issue := t]
    requires forall u :: u in w.db.tasks && u != t ==>
               d.tasks[u] == w.db.tasks[u].(turn := d.tasks[u].turn)
    requires w'.db == d && w'.phase == Idle && w'.hist.starts == w.hist.starts + [t]
    requires w'.hist.released == w.hist.released
    requires w'.hist.tainted == if w.db.tasks[t].issue in w.hist.breached
                                then w.hist.tainted + {w.db.tasks[t].issue}
                                else w.hist.tainted - {w.db.tasks[t].issue}
    requires w'.hist.cap >= w.hist.cap && w'.hist.cap >= w.phase.cap
    ensures Inv(w')
  {
    hide DbInv, StartLog;
    ClaimAddsOneRunning(w.db, d, t);
    assert OwnerAlone(d, w'.hist.tainted);
  }

  lemma CommittedClaimKeepsInv(w: World, checked: Option<Db>, env: ClaimEnv, d: Db, w': World)
    requires Inv(w) && w.phase.Picked? && DbInv(d) && Evolves(w.db, d)
    requires CheckedIssue(w.db, checked, w.db.tasks[w.phase.task].issue)
    requires ClaimChecked(w.db, checked, w.phase.task, w.now, env) == (d, Claimed)
    requires OrderInv(checked.value)
    requires w'.db == d && w'.phase == Idle
    requires w'.hist.starts == w.hist.starts + [w.phase.task]
    requires w'.hist.released == w.hist.released
    requires w'.hist.tainted == if w.db.tasks[w.phase.task].issue in w.hist.breached
                                then w.hist.tainted + {w.db.tasks[w.phase.task].issue}
                                else w.hist.tainted - {w.db.tasks[w.phase.task].issue}
    requires w'.hist.cap >= w.hist.cap && w'.hist.cap >= w.phase.cap
    ensures Inv(w')
  {
    PickedTask(w);
    assert StatusCoherent(w.db) && StartLog(w.db, w.hist.starts) by { CoherentOf(w); }
    hide Inv, DbInv, OrderInv, Evolves, ClaimChecked, CheckedIssue, StartLog;
    var t := w.phase.task;
    ClaimedMeans(w.db, checked, t, w.now, env);
    ClaimedLogs(w.db, checked, t, w.now, env, d, w.hist.starts);
    ClaimedKeepsInv(w, d, t, w');
  }

  lemma CoherentOf(w: World)
    requires Inv(w)
    ensures StatusCoherent(w.db) && StartLog(w.db, w.hist.starts)
  {
    hide StartLog, StatusCoherent, OrderInv, OwnerAlone, PhaseInv;
  }

  lemma ClaimedIsNumbered(db: Db, checked: Option<Db>, t: TaskId, now: int, env: ClaimEnv)
    requires ClaimChecked(db, checked, t, now, env).1 == Claimed
    ensures ClaimChecked(db, checked, t, now, env).0.tasks[t].turn.Some?
  {}

  lemma ClaimKeepsInv(w: World, env: ClaimEnv)
    requires Inv(w) && w.phase.Picked?
    ensures var w' := ApplyClaim(w, env); Inv(w') && Evolves(w.db, w'.db)
  {
    hide *;
    PickedFacts(w);
    var t := w.phase.task;
    var i := w.db.tasks[t].issue;
    var checked := EnsureIntegrity(w.db, i, env.lineageOk);
    var d := ClaimTask(w.db, t, w.now, env).0;
    ClaimTaskIs(w.db, t, w.now, env);
    ClaimKeepsDbInv(w.db, t, w.now, env);
    IntegrityNumbersIssue(w.db, i, env.lineageOk);
    if ClaimTask(w.db, t, w.now, env).1 == Claimed {
      ClaimedWasChecked(w.db, checked, t, w.now, env);
      IntegrityKeepsDbInv(w.db, i, env.lineageOk);
      OrderOf(checked.value);
      ClaimedMeans(w.db, checked, t, w.now, env);
      AppliedClaim(w, env, d);
      CommittedClaimKeepsInv(w, checked, env, d, ApplyClaim(w, env));
    } else {
      UnappliedClaim(w, env, d);
      UnclaimedStep(w, checked, env, d);
    }
  }

  lemma PickedFacts(w: World)
    requires Inv(w) && w.phase.Picked?
    ensures w.phase.task in w.db.tasks && DbInv(w.db) && StartLog(w.db, w.hist.starts)
  {
    hide DbInv, StartLog, OwnerAlone;
  }

  lemma ClaimTaskIs(db: Db, t: TaskId, now: int, env: ClaimEnv)
    requires t in db.tasks
    ensures ClaimTask(db, t, now, env)
            == ClaimChecked(db, EnsureIntegrity(db, db.tasks[t].issue, env.lineageOk), t, now, env)
  {}

  lemma AppliedClaim(w: World, env: ClaimEnv, d: Db)
    requires w.phase.Picked? && w.phase.task in w.db.tasks && w.phase.task in d.tasks
    requires d.tasks[w.phase.task].issue == w.db.tasks[w.phase.task].issue
    requires ClaimTask(w.db, w.phase.task, w.now, env).0 == d
    requires ClaimTask(w.db, w.phase.task, w.now, env).1 == Claimed
    ensures var t, w' := w.phase.task, ApplyClaim(w, env);
      && w'.db == d && w'.phase == Idle && w'.hist.starts == w.hist.starts + [t]
      && w'.hist.cap >= w.hist.cap && w'.hist.cap >= w.phase.cap && w'.hist.released == w.hist.released
      && w'.hist.tainted == if w.db.tasks[t].issue in w.hist.breached
                            then w.hist.tainted + {w.db.tasks[t].issue}
                            else w.hist.tainted - {w.db.tasks[t].issue}
  {
    hide ClaimTask;
  }

  lemma UnappliedClaim(w: World, env: ClaimEnv, d: Db)
    requires w.phase.Picked? && ClaimTask(w.db, w.phase.task, w.now, env).0 == d
    requires ClaimTask(w.db, w.phase.task, w.now, env).1 != Claimed
    ensures ApplyClaim(w, env) == w.(db := d, phase := Idle)
  {
    hide ClaimTask;
  }

  lemma OrderOf(db: Db)
    requires DbInv(db)
    ensures OrderInv(db)
  {}

  lemma ClaimedWasChecked(db: Db, checked: Option<Db>, t: TaskId, now: int, env: ClaimEnv)
    requires ClaimChecked(db, checked, t, now, env).1 == Claimed
    ensures checked.Some? && t in ClaimChecked(db, checked, t, now, env).0.tasks
  {}

  lemma UnclaimedStep(w: World, checked: Option<Db>, env: ClaimEnv, d: Db)
    requires Inv(w) && w.phase.Picked? && w.phase.task in w.db.tasks && DbInv(d) && Evolves(w.db, d)
    requires CheckedIssue(w.db, checked, w.db.tasks[w.phase.task].issue)
    requires StartLog(w.db, w.hist.starts)
    requires ClaimChecked(w.db, checked, w.phase.task, w.now, env).0 == d
    requires ClaimChecked(w.db, checked, w.phase.task, w.now, env).1 != Claimed
    ensures Inv(w.(db := d, phase := Idle))
  {
    hide Inv, DbInv, Evolves, CheckedIssue, StartLog, ClaimChecked, Due, ActivePredecessor;
    var t := w.phase.task;
    LogSurvives(w.db, d, w.hist.starts);
    UnclaimedMeans(w.db, checked, t, w.now, env);
    UnclaimedRow(w.db, checked, t, w.now, env);
    UnclaimedKeepsInv(w, d, t);
  }

  lemma UnclaimedRow(db: Db, checked: Option<Db>, t: TaskId, now: int, env: ClaimEnv)
    requires t in db.tasks && CheckedIssue(db, checked, db.tasks[t].issue)
    requires ClaimChecked(db, checked, t, now, env).1 != Claimed
    ensures var d := ClaimChecked(db, checked, t, now, env).0;
            t in d.tasks && d.tasks[t].container == db.tasks[t].container
            && d.tasks[t].issue == db.tasks[t].issue
  {}

  lemma UnclaimedKeepsInv(w: World, d: Db, t: TaskId)
    requires Inv(w) && t in w.db.tasks && DbInv(d) && StartLog(d, w.hist.starts)
    requires d == w.db
             || (&& d.tasks.Keys == w.db.tasks.Keys && d.locks == w.db.locks
                 && w.db.tasks[t].status.Queued? && !d.tasks[t].status.Running?
                 && d.tasks[t].container == w.db.tasks[t].container
                 && d.tasks[t].issue == w.db.tasks[t].issue
                 && forall u :: u in w.db.tasks && u != t ==>
                      d.tasks[u] == w.db.tasks[u].(turn := d.tasks[u].turn))
    ensures Inv(w.(db := d, phase := Idle))
  {
    hide DbInv, StartLog;
    assert RunningTasks(d) == RunningTasks(w.db);
  }
}