/**
 The scheduler as a labelled transition system over the database, the process memory and the
 position inside a cycle. Steps of the API, of worker threads and of background coroutines
 may fall between any two cycle steps.
 */
module SchedulerSteps {
  import opened Wrappers
  import opened SchedulerState

  /** What owns a local asyncio handle. */
  datatype Handle = Worker | Resume | Coordinator

  /** Process memory; it is lost in a crash. `handles` holds the unfinished ones. */
  datatype Mem = Mem(
    runningTasks: set<TaskId>,
    runningIssues: set<IssueId>,
    retained: set<IssueId>,
    handles: map<TaskId, Handle>)

  const EMPTY_MEM: Mem := Mem({}, {}, {}, map[])

  /** Down: no cycle may run. Swept: remediation is done. Window: reconciled, not yet picked. */
  datatype Phase = Down | Idle | Swept | Window | Picked(task: TaskId, cap: nat)

  /** Observed history: claims in order, the largest capacity a claim saw, the Issues that were
      left without a needed block since the last reconcile, the Issues whose latest claim was made
      after that, and the tasks whose own finaliser took their lock while they were RUNNING. */
  datatype History = History(
    starts: seq<TaskId>,
    cap: nat,
    breached: set<IssueId>,
    tainted: set<IssueId>,
    released: set<TaskId>)

  datatype World = World(db: Db, mem: Mem, phase: Phase, hist: History, now: int)

  /** Answer of the readiness gate for a picked task. */
  datatype Gate = Proceed | Skip | Park(others: set<TaskId>) | Fail

  /** What startup recovery concluded from the daemons it could reach. */
  datatype Plan = Plan(
    rejected: set<TaskId>,  // legacy contracts to terminalise
    cleared: set<TaskId>,   // finalised terminal tasks whose container is gone
    stale: set<TaskId>,     // tasks loaded as RUNNING that ended during the scan
    resumed: set<TaskId>,   // loaded tasks with a new resume handle
    deferred: set<TaskId>)  // loaded tasks with a new coordinator

  datatype Step =
    // API, other processes and time
    | Tick(d: nat)
    | Append(id: TaskId, row: Task)
    | LegacyInsert(id: TaskId, row: Task)
    | CancelWaiting(t: TaskId)
    | RequestCancel(t: TaskId)
    | CancelConverges(t: TaskId, absent: bool)
    | Reschedule(t: TaskId, at: Option<int>)
    | Override(t: TaskId, status: Status)
    // worker threads
    | Publish(t: TaskId, c: nat)
    | Unpublish(t: TaskId)
    | WorkerEnds(t: TaskId, outcome: Status, left: Option<nat>)
    // background coroutines of the scheduler process
    | BootstrapFails(t: TaskId)
    | BootstrapUnrecorded(t: TaskId)
    | Finalise(t: TaskId)
    | CoordinatorAbsent(t: TaskId)
    | CoordinatorStops(t: TaskId)
    | ClearRetained(t: TaskId)
    | CleanLocks
    // the cycle
    | Remediate(rejected: set<TaskId>)
    | Reconcile(stuck: set<TaskId>)
    | RepairIssue(i: IssueId, lineageOk: bool)
    | Normalise
    | Promote(executable: set<TaskId>, parked: set<TaskId>)
    | Pick(cap: nat, executable: set<TaskId>, gate: Gate)
    | Claim(env: ClaimEnv)
    | EndCycle
    // process life
    | Crash
    | RecoverFails(plan: Plan, cleaned: bool)
    | Recover(plan: Plan)

  // ----- Durable effects --------------------------------------------------------------------

  predicate MaxTurn(db: Db, i: IssueId, n: nat) {
    && (forall t :: t in db.tasks && db.tasks[t].issue == i && db.tasks[t].turn.Some?
                    ==> db.tasks[t].turn.value <= n)
    && (n == 0 || exists t :: t in db.tasks && db.tasks[t].issue == i
                              && db.tasks[t].turn == Some(n))
  }

  predicate FreshRow(db: Db, id: TaskId, row: Task) {
    && id !in db.tasks
    && row.status.Pending? && row.container.None? && row.startedAt.None?
    && row.timeoutSeconds.None? && !row.cancelRequested
  }

  /** Stale pairs: the owner is missing, or terminal with no container. */
  predicate StaleLock(db: Db, i: IssueId)
    requires i in db.locks
  {
    var t := db.locks[i];
    t !in db.tasks || (db.tasks[t].status.Terminal() && db.tasks[t].container.None?)
  }

  function CleanStaleLocks(db: Db): Db {
    db.(locks := map i | i in db.locks && !StaleLock(db, i) :: db.locks[i])
  }

  function Ended(task: Task): Status {
    if task.cancelRequested then Cancelled else Failed
  }

  /** One rejected row: a RUNNING task keeps its container, a waiting one is cancelled. */
  function RemediatedRow(task: Task): Task {
    if task.status.Running? then task.(status := Ended(task))
    else task.(status := Cancelled, container := None)
  }

  predicate Remediable(db: Db, t: TaskId, rejected: set<TaskId>) {
    t in rejected && t in db.tasks && db.tasks[t].status.Active()
  }

  function RemediateAll(db: Db, rejected: set<TaskId>): Db {
    Db(map t | t in db.tasks ::
         if Remediable(db, t, rejected) then RemediatedRow(db.tasks[t]) else db.tasks[t],
       map i | i in db.locks && !Remediable(db, db.locks[i], rejected) :: db.locks[i])
  }

  function RemediatedIssues(db: Db, rejected: set<TaskId>): set<IssueId> {
    set t | t in db.tasks && Remediable(db, t, rejected) :: db.tasks[t].issue
  }

  /** The task ends with its container gone, and only its own lock is released. */
  function EndAbsent(db: Db, t: TaskId): Db
    requires t in db.tasks
  {
    var row := db.tasks[t].(status := Ended(db.tasks[t]), container := None, logsFinalized := true);
    ReleaseLock(db.(tasks := db.tasks[t := row]), row.issue, t)
  }

  predicate OtherContainer(db: Db, t: TaskId)
    requires t in db.tasks
  {
    exists u :: u in db.tasks && u != t && db.tasks[u].issue == db.tasks[t].issue
                && db.tasks[u].container.Some?
  }

  function WithoutContainer(db: Db, t: TaskId): Db
    requires t in db.tasks
  {
    db.(tasks := db.tasks[t := db.tasks[t].(container := None)])
  }

  // ----- In-memory effects ------------------------------------------------------------------

  function RetainedIssues(db: Db): set<IssueId> {
    set t | t in db.tasks && Retains(db, t) :: db.tasks[t].issue
  }

  function IssuesOf(db: Db, tasks: set<TaskId>): set<IssueId> {
    set t | t in tasks && t in db.tasks :: db.tasks[t].issue
  }

  /** A tracked task is kept while RUNNING, or while its worker still cleans up. */
  predicate StillTracked(db: Db, mem: Mem, stuck: set<TaskId>, t: TaskId) {
    && t in db.tasks
    && (db.tasks[t].status.Running?
        || (!db.tasks[t].status.Cancelled? && t in mem.handles && t !in stuck))
  }

  /** _reconcile_retained_issue_blocks followed by _reconcile_running_state. */
  function ReconcileMem(db: Db, mem: Mem, stuck: set<TaskId>): Mem {
    var retained := RetainedIssues(db);
    var issues := mem.runningIssues + retained;
    var kept := set t | t in mem.runningTasks && StillTracked(db, mem, stuck, t);
    var busy :=
      if mem.runningTasks != {} then set t | t in kept :: db.tasks[t].issue
      else set t | t in RunningTasks(db) :: db.tasks[t].issue;
    mem.(runningTasks := kept, retained := retained, runningIssues := issues * (busy + retained))
  }

  predicate Owns(db: Db, i: IssueId, t: TaskId) {
    i in db.locks && db.locks[i] == t
  }

  /** The Issue has a retained container that its own task's lock does not guard. */
  predicate Exposed(db: Db, i: IssueId) {
    exists t :: t in db.tasks && db.tasks[t].issue == i && Retains(db, t) && !Owns(db, i, t)
  }

  /** Drops an Issue from _running_issues; inside the window a needed block counts as breached. */
  function DropIssue(w: World, db: Db, i: IssueId): World {
    w.(db := db,
       mem := w.mem.(runningIssues := w.mem.runningIssues - {i}),
       hist := if w.phase.Window? && Exposed(db, i)
               then w.hist.(breached := w.hist.breached + {i}) else w.hist)
  }

  function Forget(w: World, t: TaskId): World {
    w.(mem := w.mem.(runningTasks := w.mem.runningTasks - {t}, handles := w.mem.handles - {t}))
  }

  function BlockFor(w: World, db: Db, i: IssueId): World {
    w.(db := db, mem := w.mem.(runningIssues := w.mem.runningIssues + {i},
                               retained := w.mem.retained + {i}))
  }

  /** End of _run_task_background or _resume_task_background, whatever the status of the row. */
  function FinaliseTask(w: World, t: TaskId): World
    requires t in w.db.tasks
  {
    var i := w.db.tasks[t].issue;
    var f := Forget(w, t);
    if i in w.db.locks && w.db.locks[i] != t then f
    else if w.db.tasks[t].container.Some? then BlockFor(f, w.db, i)
    else NoteRelease(DropIssue(f, ReleaseLock(w.db, i, t), i), t)
  }

  /** Records a task that lost its lock while RUNNING. */
  function NoteRelease(w: World, t: TaskId): World
    requires t in w.db.tasks
  {
    if w.db.tasks[t].status.Running? then w.(hist := w.hist.(released := w.hist.released + {t})) else w
  }

  /** A worker ends: a container it leaves behind is guarded by memory or its own lock, or by
      nothing when its lock was taken before. */
  function EndWorker(w: World, t: TaskId, outcome: Status, left: Option<nat>): World
    requires t in w.db.tasks
  {
    var i := w.db.tasks[t].issue;
    var db := w.db.(tasks := w.db.tasks[t := w.db.tasks[t].(status := outcome, container := left)]);
    w.(db := db,
       hist := if w.phase.Window? && left.Some? && !Owns(db, i, t) && i !in w.mem.runningIssues
               then w.hist.(breached := w.hist.breached + {i}) else w.hist)
  }

  function FailBootstrap(w: World, t: TaskId): World
    requires t in w.db.tasks
  {
    var i := w.db.tasks[t].issue;
    var db := SetStatus(w.db, t, Ended(w.db.tasks[t]));
    if w.db.tasks[t].container.Some? then BlockFor(w, db, i)
    else DropIssue(w, ReleaseLock(db, i, t), i)
  }

  /** A failed start whose terminal write was rolled back: only memory has changed. */
  function LoseBootstrap(w: World, t: TaskId): World
    requires t in w.db.tasks
  {
    var i := w.db.tasks[t].issue;
    if w.db.tasks[t].container.Some? then BlockFor(w, w.db, i) else DropIssue(w, w.db, i)
  }

  /** A coordinator that finds its task no longer RUNNING. */
  function StopCoordinator(w: World, t: TaskId): World
    requires t in w.db.tasks
  {
    DropIssue(Forget(w, t), w.db, w.db.tasks[t].issue)
  }

  function ClearRetainedReference(w: World, t: TaskId): World
    requires t in w.db.tasks
  {
    var i := w.db.tasks[t].issue;
    var db := WithoutContainer(w.db, t);
    if i in w.db.locks && w.db.locks[i] == t && !OtherContainer(w.db, t) then
      w.(db := ReleaseLock(db, i, t),
         mem := w.mem.(runningIssues := w.mem.runningIssues - {i},
                       retained := w.mem.retained - {i}))
    else
      w.(db := db)
  }

  // ----- Recovery ---------------------------------------------------------------------------

  function ClearFinalised(db: Db, cleared: set<TaskId>): Db {
    db.(tasks := map t | t in db.tasks ::
          if t in cleared && db.tasks[t].status.Terminal() then db.tasks[t].(container := None)
          else db.tasks[t])
  }

  /** The tasks recovery takes for RUNNING: it loads them before it scans the daemons, and does not
      look again. */
  function Stuck(db: Db, plan: Plan): set<TaskId> {
    set t | t in db.tasks && (db.tasks[t].status.Running? || (t in plan.stale && db.tasks[t].status.Terminal()))
  }

  /** Those with neither a handle nor a coordinator have no container left. */
  function AbsentTasks(db: Db, mem: Mem, plan: Plan): set<TaskId> {
    set t | t in Stuck(db, plan) && t !in mem.handles && t !in plan.resumed && t !in plan.deferred
  }

  /** Ends the given tasks and releases only their own locks. */
  function EndAll(db: Db, gone: set<TaskId>): Db {
    Db(map t | t in db.tasks ::
         if t in gone
         then db.tasks[t].(status := Ended(db.tasks[t]), container := None, logsFinalized := true)
         else db.tasks[t],
       map i | i in db.locks && db.locks[i] !in gone :: db.locks[i])
  }

  /** Those that have a handle or get one. */
  function OwnedTasks(db: Db, mem: Mem, plan: Plan): set<TaskId> {
    set t | t in Stuck(db, plan) && (t in mem.handles || t in plan.resumed || t in plan.deferred)
  }

  function Adopt(db: Db, mem: Mem, plan: Plan): Mem {
    var owned := OwnedTasks(db, mem, plan);
    mem.(runningTasks := mem.runningTasks + owned,
         runningIssues := mem.runningIssues + IssuesOf(db, owned),
         handles := map t | t in mem.handles.Keys + owned ::
           if t in mem.handles then mem.handles[t]
           else if t in plan.resumed then Resume else Coordinator)
  }

  /** The table after lock cleanup, remediation and clearing finalised references. */
  function BeforeSorting(db: Db, plan: Plan): Db {
    ClearFinalised(RemediateAll(CleanStaleLocks(db), plan.rejected), plan.cleared)
  }

  function SweptMem(db: Db, mem: Mem, rejected: set<TaskId>): Mem {
    mem.(runningIssues := mem.runningIssues - RemediatedIssues(CleanStaleLocks(db), rejected))
  }

  /** An attempt that raised: lock cleanup may or may not be committed, and so may the references
      in plan.cleared; remediation is, and the handles it made live on. */
  function AbandonRecovery(w: World, plan: Plan, cleaned: bool): World {
    var c := if cleaned then CleanStaleLocks(w.db) else w.db;
    var d := ClearFinalised(RemediateAll(c, plan.rejected), plan.cleared);
    w.(db := d, mem := Adopt(d, SweptMem(w.db, w.mem, plan.rejected), plan))
  }

  /** Every task taken for RUNNING keeps a handle, gets one, or ends. */
  function SortRunning(db: Db, mem: Mem, plan: Plan): (Db, Mem) {
    var e := EndAll(db, AbsentTasks(db, mem, plan));
    var m := Adopt(db, mem, plan);
    (e, m.(retained := m.retained + RetainedIssues(e),
           runningIssues := m.runningIssues + RetainedIssues(e)))
  }

  function RecoverWorld(w: World, plan: Plan): World {
    var (e, m) := SortRunning(BeforeSorting(w.db, plan),
                              SweptMem(w.db, w.mem, plan.rejected), plan);
    w.(db := e, phase := Idle, mem := m)
  }

  // ----- Transitions ------------------------------------------------------------------------

  predicate Up(w: World) { !w.phase.Down? }

  predicate Is(w: World, t: TaskId, s: Status) {
    t in w.db.tasks && w.db.tasks[t].status == s
  }

  predicate Enabled(w: World, step: Step) {
    match step
    case Tick(d) => true
    case Append(id, row) =>
      && FreshRow(w.db, id, row) && row.turn.Some? && row.turn.value > 0
      && MaxTurn(w.db, row.issue, row.turn.value - 1)
    case LegacyInsert(id, row) => FreshRow(w.db, id, row) && row.turn.None?
    case CancelWaiting(t) => t in w.db.tasks && w.db.tasks[t].status.Waiting()
    case RequestCancel(t) => Is(w, t, Running)
    case CancelConverges(t, absent) => t in w.db.tasks && w.db.tasks[t].cancelRequested
    case Reschedule(t, at) => t in w.db.tasks && w.db.tasks[t].status.Waiting()
    case Override(t, s) =>
      (Is(w, t, Completed) && s == Failed) || (Is(w, t, Failed) && s == Completed)
    case Publish(t, c) => Is(w, t, Running) && t in w.mem.handles
    case Unpublish(t) => t in w.db.tasks && t in w.mem.handles
    case WorkerEnds(t, outcome, left) =>
      Is(w, t, Running) && t in w.mem.handles && outcome.Terminal()
    case BootstrapFails(t) => Is(w, t, Running) && t in w.mem.handles
    case BootstrapUnrecorded(t) => Is(w, t, Running) && t in w.mem.handles
    case Finalise(t) => t in w.db.tasks && t in w.mem.handles
    case CoordinatorAbsent(t) => Is(w, t, Running) && t in w.mem.handles
    case CoordinatorStops(t) =>
      t in w.db.tasks && !w.db.tasks[t].status.Running? && t in w.mem.handles
    case ClearRetained(t) =>
      Up(w) && t in w.db.tasks && Retains(w.db, t) && t !in w.mem.handles
    case CleanLocks => Up(w)
    case Remediate(rejected) => w.phase.Idle?
    case Reconcile(stuck) => w.phase.Swept?
    case RepairIssue(i, ok) => w.phase.Window?
    case Normalise => w.phase.Window?
    case Promote(executable, parked) => w.phase.Window?
    case Pick(cap, executable, gate) => w.phase.Window? && |RunningTasks(w.db)| < cap
    case Claim(env) => w.phase.Picked?
    case EndCycle => Up(w)
    case Crash => true
    case RecoverFails(plan, cleaned) => w.phase.Down?
    case Recover(plan) => w.phase.Down?
  }

  function ApplyPick(w: World, cap: nat, pick: Option<TaskId>, gate: Gate): World
    requires pick.Some? ==> pick.value in w.db.tasks
  {
    if pick.None? then w.(phase := Idle) else
    var t := pick.value;
    match gate
    case Proceed => w.(phase := Picked(t, cap))
    case Skip => w.(phase := Idle)
    case Fail => w.(phase := Idle, db := SetStatus(w.db, t, Failed))
    case Park(others) => w.(phase := Idle, db := ParkTasks(w.db, others + {t}))
  }

  /** Returns QUEUED tasks of an unavailable runtime to PENDING. */
  function ParkTasks(db: Db, parked: set<TaskId>): Db {
    db.(tasks := map t | t in db.tasks ::
          if t in parked && db.tasks[t].status.Queued? then db.tasks[t].(status := Pending)
          else db.tasks[t])
  }

  function ApplyClaim(w: World, env: ClaimEnv): World
    requires w.phase.Picked?
  {
    var t := w.phase.task;
    var (d, o) := ClaimTask(w.db, t, w.now, env);
    if o == Claimed && t in d.tasks then
      w.(db := d, phase := Idle,
         mem := w.mem.(runningTasks := w.mem.runningTasks + {t},
                       runningIssues := w.mem.runningIssues + {d.tasks[t].issue},
                       handles := w.mem.handles[t := Worker]),
         hist := w.hist.(starts := w.hist.starts + [t],
                         cap := if w.phase.cap > w.hist.cap then w.phase.cap else w.hist.cap,
                         tainted := if d.tasks[t].issue in w.hist.breached
                                    then w.hist.tainted + {d.tasks[t].issue}
                                    else w.hist.tainted - {d.tasks[t].issue}))
    else
      w.(db := d, phase := Idle)
  }

  /** Next is a relation only because the pick is given by the order it must respect. */
  ghost predicate Next(w: World, step: Step, w': World) {
    && Enabled(w, step)
    && if step.Pick? then
         exists pick :: IsPick(w.db, w.mem.runningIssues, step.executable, pick)
                        && w' == ApplyPick(w, step.cap, pick, step.gate)
       else
         w' == Apply(w, step)
  }

  function Apply(w: World, step: Step): World
    requires Enabled(w, step) && !step.Pick?
  {
    match step
    case Tick(d) => w.(now := w.now + d)
    case Append(id, row) => w.(db := w.db.(tasks := w.db.tasks[id := row]))
    case LegacyInsert(id, row) => w.(db := w.db.(tasks := w.db.tasks[id := row]))
    case CancelWaiting(t) => w.(db := SetStatus(w.db, t, Cancelled))
    case RequestCancel(t) =>
      w.(db := w.db.(tasks := w.db.tasks[t := w.db.tasks[t].(cancelRequested := true)]))
    case CancelConverges(t, absent) =>
      var d := if absent then WithoutContainer(w.db, t) else w.db;
      w.(db := if d.tasks[t].status.Terminal() && d.tasks[t].container.None?
               then ReleaseLock(d, d.tasks[t].issue, t) else d)
    case Reschedule(t, at) =>
      w.(db := w.db.(tasks := w.db.tasks[t := w.db.tasks[t].(notBefore := at, status := Pending)]))
    case Override(t, s) => w.(db := SetStatus(w.db, t, s))
    case Publish(t, c) =>
      w.(db := w.db.(tasks := w.db.tasks[t := w.db.tasks[t].(container := Some(c))]))
    case Unpublish(t) => w.(db := WithoutContainer(w.db, t))
    case WorkerEnds(t, outcome, left) => EndWorker(w, t, outcome, left)
    case BootstrapFails(t) => FailBootstrap(w, t)
    case BootstrapUnrecorded(t) => LoseBootstrap(w, t)
    case Finalise(t) => FinaliseTask(w, t)
    case CoordinatorAbsent(t) =>
      DropIssue(Forget(w, t), EndAbsent(w.db, t), w.db.tasks[t].issue)
    case CoordinatorStops(t) => StopCoordinator(w, t)
    case ClearRetained(t) => ClearRetainedReference(w, t)
    case CleanLocks => w.(db := CleanStaleLocks(w.db))
    case Remediate(rejected) =>
      w.(db := RemediateAll(w.db, rejected), phase := Swept,
         mem := w.mem.(runningIssues :=
                         w.mem.runningIssues - RemediatedIssues(w.db, rejected)))
    case Reconcile(stuck) =>
      w.(mem := ReconcileMem(w.db, w.mem, stuck), phase := Window,
         hist := w.hist.(breached := {}))
    case RepairIssue(i, ok) =>
      var r := EnsureIntegrity(w.db, i, ok);
      if r.Some? then w.(db := r.value) else w
    case Normalise => w.(db := NormaliseQueue(w.db))
    case Promote(executable, parked) =>
      w.(db := PromoteHeads(w.db, w.now, w.mem.runningIssues, executable, parked))
    case Claim(env) => ApplyClaim(w, env)
    case EndCycle => w.(phase := Idle)
    case Crash => w.(mem := EMPTY_MEM, phase := Down)
    case RecoverFails(plan, cleaned) => AbandonRecovery(w, plan, cleaned)
    case Recover(plan) => RecoverWorld(w, plan)
  }
}
