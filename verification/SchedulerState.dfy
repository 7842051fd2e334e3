/** Task rows, Issue locks and the ordering predicates that every scheduler query shares. */
module SchedulerState {
  import opened Wrappers

  type TaskId = nat
  type IssueId = nat

  const TIMEOUT_MIN_SECONDS: int := 60
  const TIMEOUT_MAX_SECONDS: int := 28800

  datatype Status = Pending | Queued | Running | Completed | Failed | Cancelled
  {
    predicate Waiting() { Pending? || Queued? }
    predicate Active() { Waiting() || Running? }
    predicate Terminal() { !Active() }
  }

  /** One row of the tasks table; `turn` is issue_sequence and `notBefore` is scheduled_at. */
  datatype Task = Task(
    issue: IssueId,
    created: int,
    turn: Option<nat>,
    status: Status,
    priority: int,
    notBefore: Option<int>,
    container: Option<nat>,
    daemon: nat,
    cancelRequested: bool,
    startedAt: Option<int>,
    timeoutSeconds: Option<int>,
    logsFinalized: bool)

  /** The durable state: task rows and at most one lock row per Issue. */
  datatype Db = Db(tasks: map<TaskId, Task>, locks: map<IssueId, TaskId>)

  predicate Retains(db: Db, t: TaskId)
    requires t in db.tasks
  {
    db.tasks[t].status.Terminal() && db.tasks[t].container.Some?
  }

  predicate OnIssue(db: Db, t: TaskId, i: IssueId) {
    t in db.tasks && db.tasks[t].issue == i
  }

  function SetStatus(db: Db, t: TaskId, s: Status): Db
    requires t in db.tasks
  {
    db.(tasks := db.tasks[t := db.tasks[t].(status := s)])
  }

  /** Deletes only the exact (issue, owner) pair. */
  function ReleaseLock(db: Db, i: IssueId, owner: TaskId): Db {
    if i in db.locks && db.locks[i] == owner then db.(locks := db.locks - {i}) else db
  }

  function RunningTasks(db: Db): set<TaskId> {
    set t | t in db.tasks && db.tasks[t].status.Running?
  }

  // ----- Turn order -------------------------------------------------------------------------

  /** The deterministic (created_at, id) order of an Issue's rows. */
  predicate KeyLess(db: Db, u: TaskId, t: TaskId)
    requires u in db.tasks && t in db.tasks
  {
    db.tasks[u].created < db.tasks[t].created
    || (db.tasks[u].created == db.tasks[t].created && u < t)
  }

  function Earlier(db: Db, t: TaskId): set<TaskId>
    requires t in db.tasks
  {
    set u | u in db.tasks && db.tasks[u].issue == db.tasks[t].issue && KeyLess(db, u, t)
  }

  function EarlierNumbered(db: Db, t: TaskId): set<TaskId>
    requires t in db.tasks
  {
    set u | u in Earlier(db, t) && db.tasks[u].turn.Some?
  }

  function Rank(db: Db, t: TaskId): nat
    requires t in db.tasks
  {
    |Earlier(db, t)| + 1
  }

  predicate TurnsMatchRanks(db: Db, i: IssueId) {
    forall t :: t in db.tasks && db.tasks[t].issue == i && db.tasks[t].turn.Some?
                ==> db.tasks[t].turn.value == Rank(db, t)
  }

  function NumberIssue(db: Db, i: IssueId): Db {
    db.(tasks := map t | t in db.tasks ::
          if db.tasks[t].issue == i && db.tasks[t].turn.None?
          then db.tasks[t].(turn := Some(Rank(db, t)))
          else db.tasks[t])
  }

  /** ensure_issue_order_integrity_locked with repair; None when it raises. */
  function EnsureIntegrity(db: Db, i: IssueId, lineageOk: bool): Option<Db> {
    if TurnsMatchRanks(db, i) && lineageOk then Some(NumberIssue(db, i)) else None
  }

  predicate ActiveUnnumbered(db: Db, i: IssueId) {
    exists u :: u in db.tasks && db.tasks[u].issue == i && db.tasks[u].status.Active()
                && db.tasks[u].turn.None?
  }

  predicate ActivePredecessor(db: Db, t: TaskId)
    requires t in db.tasks
  {
    db.tasks[t].turn.Some?
    && exists u :: u in db.tasks && db.tasks[u].issue == db.tasks[t].issue
                   && db.tasks[u].status.Active() && db.tasks[u].turn.Some?
                   && db.tasks[u].turn.value < db.tasks[t].turn.value
  }

  predicate LegalHead(db: Db, t: TaskId)
    requires t in db.tasks
  {
    db.tasks[t].turn.Some?
    && !ActiveUnnumbered(db, db.tasks[t].issue)
    && !ActivePredecessor(db, t)
  }

  predicate Due(task: Task, now: int) {
    task.notBefore.None? || task.notBefore.value <= now
  }

  // ----- Queue maintenance (bulk updates) ---------------------------------------------------

  function NormaliseQueue(db: Db): Db {
    db.(tasks := map t | t in db.tasks ::
          if db.tasks[t].status.Queued? && !LegalHead(db, t)
          then db.tasks[t].(status := Pending)
          else db.tasks[t])
  }

  /** `executable` is the V2 contract filter; `parked` are heads whose Kit is known missing. */
  predicate Promotable(db: Db, t: TaskId, now: int, blocked: set<IssueId>,
                       executable: set<TaskId>, parked: set<TaskId>)
    requires t in db.tasks
  {
    && db.tasks[t].status.Pending?
    && Due(db.tasks[t], now)
    && LegalHead(db, t)
    && db.tasks[t].issue !in db.locks
    && db.tasks[t].issue !in blocked
    && t in executable
    && t !in parked
  }

  function PromoteHeads(db: Db, now: int, blocked: set<IssueId>,
                        executable: set<TaskId>, parked: set<TaskId>): Db
  {
    db.(tasks := map t | t in db.tasks ::
          if Promotable(db, t, now, blocked, executable, parked)
          then db.tasks[t].(status := Queued)
          else db.tasks[t])
  }

  // ----- Pick order -------------------------------------------------------------------------

  predicate Pickable(db: Db, t: TaskId, blocked: set<IssueId>, executable: set<TaskId>) {
    && t in db.tasks
    && db.tasks[t].status.Queued?
    && LegalHead(db, t)
    && db.tasks[t].issue !in db.locks
    && db.tasks[t].issue !in blocked
    && t in executable
  }

  /** ORDER BY priority, scheduled first, scheduled_at, created_at, id. */
  predicate Before(a: Task, aId: TaskId, b: Task, bId: TaskId) {
    if a.priority != b.priority then a.priority < b.priority
    else if a.notBefore.Some? != b.notBefore.Some? then a.notBefore.Some?
    else if a.notBefore.Some? && a.notBefore.value != b.notBefore.value then
      a.notBefore.value < b.notBefore.value
    else if a.created != b.created then a.created < b.created
    else aId < bId
  }

  predicate IsPick(db: Db, blocked: set<IssueId>, executable: set<TaskId>, r: Option<TaskId>) {
    match r
    case None => forall t :: t in db.tasks ==> !Pickable(db, t, blocked, executable)
    case Some(p) =>
      && Pickable(db, p, blocked, executable)
      && forall t :: t in db.tasks && t != p && Pickable(db, t, blocked, executable)
                     ==> Before(db.tasks[p], p, db.tasks[t], t)
  }

  // ----- Atomic claim -----------------------------------------------------------------------

  /** Answers of the helpers a claim consults. */
  datatype ClaimEnv = ClaimEnv(
    lineageOk: bool,
    rejection: Option<bool>, // Some(true): legacy contract, Some(false): other policy error
    overLimit: bool,
    timeout: int,            // the configured tier's seconds, possibly out of range
    commitOk: bool)

  datatype ClaimOutcome = Claimed | Demoted | Refused | RolledBack

  /** The lock insert and the RUNNING update commit together. */
  function StartTask(db: Db, t: TaskId, now: int, timeout: int): Db
    requires t in db.tasks
  {
    Db(db.tasks[t := db.tasks[t].(status := Running, startedAt := Some(now),
                                  timeoutSeconds := Some(timeout))],
       db.locks[db.tasks[t].issue := t])
  }

  /** The claim transaction after its integrity check answered `checked`. */
  function ClaimChecked(db: Db, checked: Option<Db>, t: TaskId, now: int, env: ClaimEnv)
    : (Db, ClaimOutcome)
  {
    if checked.None? || t !in checked.value.tasks then (db, RolledBack) else
    var d := checked.value;
    if !d.tasks[t].status.Queued? then (db, RolledBack)
    else if d.tasks[t].turn.None? || !Due(d.tasks[t], now) || ActivePredecessor(d, t) then
      (SetStatus(d, t, Pending), Demoted)
    else if env.rejection.Some? then
      (SetStatus(d, t, if env.rejection.value then Cancelled else Failed), Refused)
    else if env.overLimit then
      (SetStatus(d, t, Failed), Refused)
    else if d.tasks[t].issue in d.locks then (db, RolledBack)
    else if !(TIMEOUT_MIN_SECONDS <= env.timeout <= TIMEOUT_MAX_SECONDS) then (db, RolledBack)
    else if !env.commitOk then (db, RolledBack)
    else (StartTask(d, t, now, env.timeout), Claimed)
  }

  function ClaimTask(db: Db, t: TaskId, now: int, env: ClaimEnv): (Db, ClaimOutcome) {
    ClaimChecked(db, if t in db.tasks then EnsureIntegrity(db, db.tasks[t].issue, env.lineageOk)
                     else None, t, now, env)
  }
}
