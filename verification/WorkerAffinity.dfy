/** Pinning every Issue to one worker: ordered bulk updates against one priority choice. */
module WorkerAffinity {
  import opened Wrappers

  type IssueId = nat
  type TaskId = nat
  type WorkerId = nat

  datatype Status = Pending | Queued | Running | Done | Failed

  datatype Task = Task(issue: IssueId, status: Status, worker: Option<WorkerId>, startedAt: Option<int>)

  datatype Worker = Worker(enabled: bool, isDefault: bool)

  /** The tables: each Issue has a default worker, which the upgrade turns into its pinned one. */
  datatype Tables = Tables(
    issues: map<IssueId, Option<WorkerId>>,
    tasks: map<TaskId, Task>,
    workers: map<WorkerId, Worker>)

  // ----- ORDER BY ... LIMIT 1 ---------------------------------------------------------------

  datatype Key = Key(first: int, second: int, third: int)

  predicate KeyLess(a: Key, b: Key) {
    a.first < b.first || (a.first == b.first
      && (a.second < b.second || (a.second == b.second && a.third < b.third)))
  }

  predicate Injective(keys: map<nat, Key>) {
    forall a, b :: a in keys && b in keys && keys[a] == keys[b] ==> a == b
  }

  predicate IsFirst(keys: map<nat, Key>, t: nat) {
    t in keys && forall u :: u in keys ==> !KeyLess(keys[u], keys[t])
  }

  lemma {:induction false} FirstExists(keys: map<nat, Key>)
    requires keys != map[]
    ensures exists t :: IsFirst(keys, t)
    decreases |keys|
  {
    var x :| x in keys;
    var rest := keys - {x};
    if rest == map[] {
      assert keys == map[x := keys[x]];
      assert IsFirst(keys, x);
    } else {
      FirstExists(rest);
      var y :| IsFirst(rest, y);
      var z := if KeyLess(keys[x], keys[y]) then x else y;
      forall u | u in keys ensures !KeyLess(keys[u], keys[z]) {
        if u != x { assert u in rest; }
      }
      assert IsFirst(keys, z);
    }
  }

  function First(keys: map<nat, Key>): (r: nat)
    requires keys != map[] && Injective(keys)
    ensures IsFirst(keys, r)
  {
    FirstExists(keys);
    var t :| IsFirst(keys, t);
    t
  }

  /** Started last comes first, unstarted ones at the end; equal times by higher id. */
  function LatestKey(t: TaskId, task: Task): Key {
    if task.startedAt.Some? then Key(0, -task.startedAt.value, -(t as int)) else Key(1, 0, -(t as int))
  }

  /** Queued before pending, then by id. */
  function PlannedKey(t: TaskId, task: Task): Key {
    Key(if task.status.Queued? then 0 else 1, t, 0)
  }

  // ----- Candidates -------------------------------------------------------------------------

  predicate HasWorker(db: Tables, t: TaskId, i: IssueId) {
    t in db.tasks && db.tasks[t].issue == i && db.tasks[t].worker.Some?
  }

  predicate Known(db: Tables, t: TaskId, i: IssueId) {
    HasWorker(db, t, i) && db.tasks[t].worker.value in db.workers
  }

  predicate Waiting(s: Status) {
    s.Pending? || s.Queued?
  }

  function RunningOn(db: Tables, i: IssueId): (r: map<TaskId, Key>)
    ensures Injective(r) && r.Keys <= db.tasks.Keys
  {
    map t | t in db.tasks && HasWorker(db, t, i) && db.tasks[t].status.Running? :: LatestKey(t, db.tasks[t])
  }

  function StartedOn(db: Tables, i: IssueId): (r: map<TaskId, Key>)
    ensures Injective(r) && r.Keys <= db.tasks.Keys
  {
    map t | t in db.tasks && Known(db, t, i) && db.tasks[t].startedAt.Some? :: LatestKey(t, db.tasks[t])
  }

  function PlannedOn(db: Tables, i: IssueId): (r: map<TaskId, Key>)
    ensures Injective(r) && r.Keys <= db.tasks.Keys
  {
    map t | t in db.tasks && Known(db, t, i) && Waiting(db.tasks[t].status) :: PlannedKey(t, db.tasks[t])
  }

  function EnabledWorkers(db: Tables): (r: map<WorkerId, Key>)
    ensures Injective(r)
  {
    map w | w in db.workers && db.workers[w].enabled :: Key(if db.workers[w].isDefault then 0 else 1, w, 0)
  }

  function WorkerOfFirst(db: Tables, keys: map<TaskId, Key>): Option<WorkerId>
    requires keys != map[] && Injective(keys) && keys.Keys <= db.tasks.Keys
  {
    db.tasks[First(keys)].worker
  }

  // ----- One priority choice ----------------------------------------------------------------

  /** Running worker, else last started, else first planned, else the enabled default. */
  function Preferred(db: Tables, i: IssueId): Option<WorkerId>
    requires i in db.issues
  {
    if RunningOn(db, i) != map[] then WorkerOfFirst(db, RunningOn(db, i))
    else if StartedOn(db, i) != map[] then WorkerOfFirst(db, StartedOn(db, i))
    else if PlannedOn(db, i) != map[] then WorkerOfFirst(db, PlannedOn(db, i))
    else
      var w := db.issues[i];
      if w.Some? && w.value in db.workers && db.workers[w.value].enabled then w else None
  }

  function Choice(db: Tables, i: IssueId): Option<WorkerId>
    requires i in db.issues
  {
    if Preferred(db, i).Some? then Preferred(db, i)
    else if EnabledWorkers(db) != map[] then Some(First(EnabledWorkers(db)))
    else None
  }

  /** t has a worker that exists. */
  predicate OnKnownWorker(db: Tables, t: TaskId, i: IssueId) {
    t in db.tasks && db.tasks[t].issue == i && db.tasks[t].worker.Some? && db.tasks[t].worker.value in db.workers
  }

  /** t decides for its Issue as a RUNNING task: none with a worker started later, or at the same
      time with a higher id. */
  ghost predicate LatestRunning(db: Tables, i: IssueId, t: TaskId) {
    && t in db.tasks && db.tasks[t].issue == i && db.tasks[t].worker.Some? && db.tasks[t].status == Running
    && forall u :: u in db.tasks && u != t && db.tasks[u].issue == i && db.tasks[u].worker.Some?
                   && db.tasks[u].status == Running && db.tasks[u].startedAt.Some? ==>
         && db.tasks[t].startedAt.Some?
         && (db.tasks[u].startedAt.value < db.tasks[t].startedAt.value
             || (db.tasks[u].startedAt == db.tasks[t].startedAt && u < t))
  }

  /** The last started task with a known worker. */
  ghost predicate LastStarted(db: Tables, i: IssueId, t: TaskId) {
    && OnKnownWorker(db, t, i) && db.tasks[t].startedAt.Some?
    && forall u: TaskId :: OnKnownWorker(db, u, i) && u != t && db.tasks[u].startedAt.Some? ==>
         db.tasks[u].startedAt.value < db.tasks[t].startedAt.value
         || (db.tasks[u].startedAt.value == db.tasks[t].startedAt.value && u < t)
  }

  /** The first planned task with a known worker: a queued one if there is any, then by id. */
  ghost predicate FirstPlanned(db: Tables, i: IssueId, t: TaskId) {
    && OnKnownWorker(db, t, i) && db.tasks[t].status in {Pending, Queued}
    && forall u: TaskId :: OnKnownWorker(db, u, i) && u != t && db.tasks[u].status in {Pending, Queued} ==>
         if db.tasks[u].status == db.tasks[t].status then t < u else db.tasks[t].status == Queued
  }

  /** The fallback: an enabled default worker if there is any, then by id. */
  ghost predicate IsFallback(db: Tables, w: WorkerId) {
    && w in db.workers && db.workers[w].enabled
    && forall v :: v in db.workers && v != w && db.workers[v].enabled ==>
         if db.workers[v].isDefault == db.workers[w].isDefault then w < v else db.workers[w].isDefault
  }

  ghost predicate AnyRunning(db: Tables, i: IssueId) {
    exists t :: t in db.tasks && db.tasks[t].issue == i && db.tasks[t].worker.Some? && db.tasks[t].status == Running
  }

  ghost predicate AnyStarted(db: Tables, i: IssueId) {
    exists t: TaskId :: OnKnownWorker(db, t, i) && db.tasks[t].startedAt.Some?
  }

  ghost predicate AnyPlanned(db: Tables, i: IssueId) {
    exists t: TaskId :: OnKnownWorker(db, t, i) && db.tasks[t].status in {Pending, Queued}
  }

  /** w is the right worker for Issue i, in the rows' own fields. */
  ghost predicate RightWorker(db: Tables, i: IssueId, w: WorkerId)
    requires i in db.issues
  {
    if AnyRunning(db, i) then exists t :: LatestRunning(db, i, t) && db.tasks[t].worker == Some(w)
    else if AnyStarted(db, i) then exists t :: LastStarted(db, i, t) && db.tasks[t].worker == Some(w)
    else if AnyPlanned(db, i) then exists t :: FirstPlanned(db, i, t) && db.tasks[t].worker == Some(w)
    else if db.issues[i].Some? && db.issues[i].value in db.workers && db.workers[db.issues[i].value].enabled
    then db.issues[i] == Some(w)
    else IsFallback(db, w)
  }

  lemma RunningMeans(db: Tables, i: IssueId)
    ensures RunningOn(db, i) != map[] <==> AnyRunning(db, i)
  {
    hide LatestKey;
    if t :| t in db.tasks && db.tasks[t].issue == i && db.tasks[t].worker.Some? && db.tasks[t].status == Running {
      assert t in RunningOn(db, i);
    }
    if RunningOn(db, i) != map[] { var t :| t in RunningOn(db, i); }
  }

  lemma StartedMeans(db: Tables, i: IssueId)
    ensures StartedOn(db, i) != map[] <==> AnyStarted(db, i)
  {
    hide LatestKey;
    if t: TaskId :| OnKnownWorker(db, t, i) && db.tasks[t].startedAt.Some? { assert t in StartedOn(db, i); }
    if StartedOn(db, i) != map[] {
      var t :| t in StartedOn(db, i);
      assert OnKnownWorker(db, t, i);
    }
  }

  lemma PlannedMeans(db: Tables, i: IssueId)
    ensures PlannedOn(db, i) != map[] <==> AnyPlanned(db, i)
  {
    hide PlannedKey;
    if t: TaskId :| OnKnownWorker(db, t, i) && db.tasks[t].status in {Pending, Queued} {
      assert t in PlannedOn(db, i);
    }
    if PlannedOn(db, i) != map[] {
      var t :| t in PlannedOn(db, i);
      assert OnKnownWorker(db, t, i);
    }
  }

  lemma FirstRunningIsLatest(db: Tables, i: IssueId, t: TaskId)
    requires IsFirst(RunningOn(db, i), t)
    ensures LatestRunning(db, i, t)
  {
    forall u | u in db.tasks && u != t && db.tasks[u].issue == i && db.tasks[u].worker.Some?
               && db.tasks[u].status == Running && db.tasks[u].startedAt.Some?
      ensures db.tasks[t].startedAt.Some?
              && (db.tasks[u].startedAt.value < db.tasks[t].startedAt.value
                  || (db.tasks[u].startedAt == db.tasks[t].startedAt && u < t))
    {
      assert u in RunningOn(db, i);
    }
  }

  lemma FirstStartedIsLast(db: Tables, i: IssueId, t: TaskId)
    requires IsFirst(StartedOn(db, i), t)
    ensures LastStarted(db, i, t)
  {
    forall u: TaskId | OnKnownWorker(db, u, i) && u != t && db.tasks[u].startedAt.Some?
      ensures db.tasks[u].startedAt.value < db.tasks[t].startedAt.value
              || (db.tasks[u].startedAt.value == db.tasks[t].startedAt.value && u < t)
    {
      assert u in StartedOn(db, i);
    }
  }

  lemma FirstPlannedIsFirst(db: Tables, i: IssueId, t: TaskId)
    requires IsFirst(PlannedOn(db, i), t)
    ensures FirstPlanned(db, i, t)
  {
    forall u: TaskId | OnKnownWorker(db, u, i) && u != t && db.tasks[u].status in {Pending, Queued}
      ensures if db.tasks[u].status == db.tasks[t].status then t < u else db.tasks[t].status == Queued
    {
      assert u in PlannedOn(db, i);
    }
  }

  lemma FirstEnabledIsFallback(db: Tables, w: WorkerId)
    requires IsFirst(EnabledWorkers(db), w)
    ensures IsFallback(db, w)
  {
    forall v | v in db.workers && v != w && db.workers[v].enabled
      ensures if db.workers[v].isDefault == db.workers[w].isDefault then w < v else db.workers[w].isDefault
    {
      assert v in EnabledWorkers(db);
    }
  }

  /** The choice in the rows' own fields. */
  lemma ChoiceIsRight(db: Tables, i: IssueId)
    requires i in db.issues && Choice(db, i).Some?
    ensures RightWorker(db, i, Choice(db, i).value)
  {
    hide RunningOn, StartedOn, PlannedOn, EnabledWorkers, IsFirst, LatestRunning, LastStarted, FirstPlanned, IsFallback;
    hide AnyRunning, AnyStarted, AnyPlanned;
    RunningMeans(db, i);
    StartedMeans(db, i);
    PlannedMeans(db, i);
    if RunningOn(db, i) != map[] {
      FirstRunningIsLatest(db, i, First(RunningOn(db, i)));
      RunningHasWorker(db, i, First(RunningOn(db, i)));
    } else if StartedOn(db, i) != map[] {
      FirstStartedIsLast(db, i, First(StartedOn(db, i)));
      StartedHasWorker(db, i, First(StartedOn(db, i)));
    } else if PlannedOn(db, i) != map[] {
      FirstPlannedIsFirst(db, i, First(PlannedOn(db, i)));
      PlannedHasWorker(db, i, First(PlannedOn(db, i)));
    } else if EnabledWorkers(db) != map[] {
      FirstEnabledIsFallback(db, First(EnabledWorkers(db)));
    }
  }

  lemma RunningHasWorker(db: Tables, i: IssueId, t: TaskId)
    requires LatestRunning(db, i, t)
    ensures t in db.tasks && db.tasks[t].worker.Some?
  {}

  lemma StartedHasWorker(db: Tables, i: IssueId, t: TaskId)
    requires LastStarted(db, i, t)
    ensures t in db.tasks && db.tasks[t].worker.Some?
  {}

  lemma PlannedHasWorker(db: Tables, i: IssueId, t: TaskId)
    requires FirstPlanned(db, i, t)
    ensures t in db.tasks && db.tasks[t].worker.Some?
  {}

  /** No other worker is right: the choice is exact. */
  lemma RightWorkerIsUnique(db: Tables, i: IssueId, v: WorkerId, w: WorkerId)
    requires NoConflict(db) && i in db.issues && RightWorker(db, i, v) && RightWorker(db, i, w)
    ensures v == w
  {}

  /** Running tasks of one Issue share one worker. */
  ghost predicate NoConflict(db: Tables) {
    forall t, u :: t in db.tasks && u in db.tasks && db.tasks[t].issue == db.tasks[u].issue
                   && db.tasks[t].status.Running? && db.tasks[u].status.Running?
                   && db.tasks[t].worker.Some? && db.tasks[u].worker.Some?
                   ==> db.tasks[t].worker == db.tasks[u].worker
  }

  ghost predicate RunningAssigned(db: Tables) {
    forall t :: t in db.tasks && db.tasks[t].status.Running? ==>
      db.tasks[t].worker.Some? && db.tasks[t].worker.value in db.workers
  }

  ghost predicate Pinnable(db: Tables) {
    forall i :: i in db.issues ==> Choice(db, i).Some?
  }

  // ----- The upgrade ------------------------------------------------------------------------

  datatype UpgradeError = ConflictingWorkers | UnassignableTask | NoEnabledWorker

  class Upgrade {
    var issues: map<IssueId, Option<WorkerId>>
    var tasks: map<TaskId, Task>
    var workers: map<WorkerId, Worker>

    constructor (db: Tables)
      ensures Now() == db
    {
      issues, tasks, workers := db.issues, db.tasks, db.workers;
    }

    function Now(): Tables
      reads this
    {
      Tables(issues, tasks, workers)
    }

    method DropUnavailableDefaults()
      modifies this`issues
      ensures DefaultsDropped(old(Now()), issues)
    {
      issues := map i | i in issues ::
        var w := issues[i];
        if w.Some? && !(w.value in workers && workers[w.value].enabled) then None else w;
    }

    /** Issues with a running task. */
    method PinToRunning()
      modifies this`issues
      ensures PinnedToRunning(old(Now()), issues)
    {
      hide RunningOn, WorkerOfFirst;
      var db := Now();
      issues := map i | i in issues ::
        if RunningOn(db, i) != map[] then WorkerOfFirst(db, RunningOn(db, i)) else issues[i];
    }

    /** Issues with history and nothing running. */
    method PinToLastStarted()
      modifies this`issues
      ensures PinnedToStarted(old(Now()), issues)
    {
      hide RunningOn, StartedOn, WorkerOfFirst;
      var db := Now();
      issues := map i | i in issues ::
        if RunningOn(db, i) == map[] && StartedOn(db, i) != map[] then WorkerOfFirst(db, StartedOn(db, i)) else issues[i];
    }

    /** Issues that only have planned tasks. */
    method PinToPlanned()
      modifies this`issues
      ensures PinnedToPlanned(old(Now()), issues)
    {
      hide RunningOn, StartedOn, PlannedOn, WorkerOfFirst;
      var db := Now();
      issues := map i | i in issues ::
        if RunningOn(db, i) == map[] && StartedOn(db, i) == map[] && PlannedOn(db, i) != map[]
        then WorkerOfFirst(db, PlannedOn(db, i)) else issues[i];
    }

    /** Waiting tasks on another worker than the pinned one fail. */
    method FailOthers()
      modifies this`tasks
      ensures tasks == map t | t in old(tasks) ::
                         var task := old(tasks)[t];
                         if task.issue in issues && Waiting(task.status) && task.worker != issues[task.issue]
                         then task.(status := Failed) else task
    {
      tasks := map t | t in tasks ::
        var task := tasks[t];
        if task.issue in issues && Waiting(task.status) && task.worker != issues[task.issue]
        then task.(status := Failed) else task;
    }

    /** The two checks before anything is written. */
    method Guards() returns (error: Option<UpgradeError>)
      ensures error.None? <==> NoConflict(Now()) && RunningAssigned(Now())
    {
      var conflict := exists t, u :: t in tasks && u in tasks && tasks[t].issue == tasks[u].issue
                        && tasks[t].status.Running? && tasks[u].status.Running?
                        && tasks[t].worker.Some? && tasks[u].worker.Some? && tasks[t].worker != tasks[u].worker;
      if conflict {
        return Some(ConflictingWorkers);
      }
      var unassignable := exists t :: t in tasks && tasks[t].status.Running?
                            && (tasks[t].worker.None? || tasks[t].worker.value !in workers);
      if unassignable {
        return Some(UnassignableTask);
      }
      error := None;
    }

    /** The four updates by execution history, in order. */
    method PinByHistory()
      modifies this`issues
      ensures issues == map i | i in old(issues) :: Preferred(old(Now()), i)
    {
      hide DefaultsDropped, PinnedToRunning, PinnedToStarted, PinnedToPlanned, Preferred;
      ghost var db := Now();
      DropUnavailableDefaults();
      ghost var i1 := issues;
      PinToRunning();
      ghost var i2 := issues;
      PinToLastStarted();
      ghost var i3 := issues;
      PinToPlanned();
      StepsPrefer(db, i1, i2, i3, issues);
    }

    /** Issues still without a worker take the fallback, if there is one. */
    method PinRest() returns (r: Result<(), UpgradeError>)
      modifies this`issues
      ensures r.Ok? <==> EnabledWorkers(Now()) != map[] || forall i :: i in old(issues) ==> old(issues)[i].Some?
      ensures r.Ok? ==> issues == map i | i in old(issues) ::
                          if old(issues)[i].None? && EnabledWorkers(Now()) != map[]
                          then Some(First(EnabledWorkers(Now()))) else old(issues)[i]
    {
      hide EnabledWorkers, First;
      if exists i :: i in issues && issues[i].None? {
        var enabled := EnabledWorkers(Now());
        if enabled == map[] {
          return Err(NoEnabledWorker);
        }
        var fallback := First(enabled);
        ghost var was := Now();
        issues := map i | i in issues :: if issues[i].None? then Some(fallback) else issues[i];
        assert EnabledWorkers(Now()) == enabled by { EnabledIgnoresPins(was, issues); }
      }
      r := Ok(());
    }

    /** upgrade(): on an error the transaction leaves the tables as they were. */
    method Run() returns (r: Result<(), UpgradeError>)
      modifies this
      ensures r.Ok? <==> NoConflict(old(Now())) && RunningAssigned(old(Now())) && Pinnable(old(Now()))
      ensures Now() == if r.Ok? then After(old(Now())) else old(Now())
      ensures r.Ok? ==> forall i :: i in old(issues) ==>
                i in issues && issues[i].Some? && RightWorker(old(Now()), i, issues[i].value)
      ensures r.Ok? ==> forall t :: t in old(tasks) && old(tasks)[t].issue in old(issues) ==>
                (t in tasks && tasks[t].status == Failed && old(tasks)[t].status != Failed
                 <==> old(tasks)[t].status in {Pending, Queued} && old(tasks)[t].worker != issues[old(tasks)[t].issue])
    {
      hide EnabledWorkers, First, Preferred, NoConflict, RunningAssigned, RightWorker;
      ghost var db := Now();
      var error := Guards();
      if error.Some? {
        return Err(error.value);
      }
      var before := issues;
      PinByHistory();
      ghost var preferred := issues;
      assert forall i :: i in db.issues <==> i in preferred;
      assert forall i :: i in db.issues ==> preferred[i] == Preferred(db, i);
      r := PinRest();
      assert Now() == db.(issues := issues);
      EnabledIgnoresPins(db, issues);
      PinnableIff(db);
      if r.Err? {
        issues := before;
        return;
      }
      assert issues == map i | i in db.issues :: Choice(db, i);
      FailOthers();
      AfterIsRight(db);
    }
  }

  /** What a successful upgrade leaves, in the rows' own fields. */
  lemma AfterIsRight(db: Tables)
    requires Pinnable(db)
    ensures forall i :: i in db.issues ==>
              var pins := After(db).issues;
              i in pins && pins[i].Some? && RightWorker(db, i, pins[i].value)
    ensures forall t :: t in db.tasks && db.tasks[t].issue in db.issues ==>
              (t in After(db).tasks && After(db).tasks[t].status == Failed && db.tasks[t].status != Failed
               <==> db.tasks[t].status in {Pending, Queued} && db.tasks[t].worker != After(db).issues[db.tasks[t].issue])
  {
    hide Choice, RightWorker;
    forall i | i in db.issues ensures Choice(db, i).Some? && RightWorker(db, i, Choice(db, i).value) {
      ChoiceIsRight(db, i);
    }
  }

  lemma EnabledIgnoresPins(db: Tables, pins: map<IssueId, Option<WorkerId>>)
    ensures EnabledWorkers(db.(issues := pins)) == EnabledWorkers(db)
  {}

  function FailedOthers(tasks: map<TaskId, Task>, pinned: map<IssueId, Option<WorkerId>>): map<TaskId, Task> {
    map t | t in tasks ::
      var task := tasks[t];
      if task.issue in pinned && Waiting(task.status) && task.worker != pinned[task.issue]
      then task.(status := Failed) else task
  }

  /** The candidates do not depend on what is pinned so far. */
  lemma CandidatesIgnorePins(db: Tables, pins: map<IssueId, Option<WorkerId>>, i: IssueId)
    ensures RunningOn(db.(issues := pins), i) == RunningOn(db, i)
    ensures StartedOn(db.(issues := pins), i) == StartedOn(db, i)
    ensures PlannedOn(db.(issues := pins), i) == PlannedOn(db, i)
  {
    assert RunningOn(db.(issues := pins), i) == RunningOn(db, i);
  }

  type Pins = map<IssueId, Option<WorkerId>>

  /** The effect of each update on the table it found. */
  ghost predicate DefaultsDropped(db: Tables, pins: Pins) {
    pins == map i | i in db.issues ::
      var w := db.issues[i];
      if w.Some? && !(w.value in db.workers && db.workers[w.value].enabled) then None else w
  }

  ghost predicate PinnedToRunning(db: Tables, pins: Pins) {
    pins == map i | i in db.issues ::
      if RunningOn(db, i) != map[] then WorkerOfFirst(db, RunningOn(db, i)) else db.issues[i]
  }

  ghost predicate PinnedToStarted(db: Tables, pins: Pins) {
    pins == map i | i in db.issues ::
      if RunningOn(db, i) == map[] && StartedOn(db, i) != map[] then WorkerOfFirst(db, StartedOn(db, i))
      else db.issues[i]
  }

  ghost predicate PinnedToPlanned(db: Tables, pins: Pins) {
    pins == map i | i in db.issues ::
      if RunningOn(db, i) == map[] && StartedOn(db, i) == map[] && PlannedOn(db, i) != map[]
      then WorkerOfFirst(db, PlannedOn(db, i)) else db.issues[i]
  }

  lemma StepsKeepIssues(db: Tables, i1: Pins, i2: Pins, i3: Pins, i4: Pins)
    requires DefaultsDropped(db, i1) && PinnedToRunning(db.(issues := i1), i2)
    requires PinnedToStarted(db.(issues := i2), i3) && PinnedToPlanned(db.(issues := i3), i4)
    ensures forall i :: i in i4 <==> i in db.issues
  {
    hide RunningOn, StartedOn, PlannedOn, WorkerOfFirst;
    assert forall i :: i in i1 <==> i in db.issues;
    assert forall i :: i in i2 <==> i in i1;
    assert forall i :: i in i3 <==> i in i2;
  }

  /** The four updates in order amount to the preferred worker. */
  lemma StepsPrefer(db: Tables, i1: Pins, i2: Pins, i3: Pins, i4: Pins)
    requires DefaultsDropped(db, i1) && PinnedToRunning(db.(issues := i1), i2)
    requires PinnedToStarted(db.(issues := i2), i3) && PinnedToPlanned(db.(issues := i3), i4)
    ensures i4 == map i | i in db.issues :: Preferred(db, i)
  {
    hide DefaultsDropped, PinnedToRunning, PinnedToStarted, PinnedToPlanned, Preferred;
    StepsKeepIssues(db, i1, i2, i3, i4);
    forall i | i in db.issues ensures i4[i] == Preferred(db, i) {
      StepsPreferOne(db, i1, i2, i3, i4, i);
    }
  }

  lemma StepsPreferOne(db: Tables, i1: Pins, i2: Pins, i3: Pins, i4: Pins, i: IssueId)
    requires DefaultsDropped(db, i1) && PinnedToRunning(db.(issues := i1), i2)
    requires PinnedToStarted(db.(issues := i2), i3) && PinnedToPlanned(db.(issues := i3), i4)
    requires i in db.issues
    ensures i in i4 && i4[i] == Preferred(db, i)
  {
    hide RunningOn, StartedOn, PlannedOn, First;
    CandidatesIgnorePins(db, i1, i);
    CandidatesIgnorePins(db, i2, i);
    CandidatesIgnorePins(db, i3, i);
  }

  // ----- What the upgrade leaves ------------------------------------------------------------

  function After(db: Tables): Tables {
    var pinned := map i | i in db.issues :: Choice(db, i);
    Tables(pinned, FailedOthers(db.tasks, pinned), db.workers)
  }

  lemma ChosenWorkerExists(db: Tables, i: IssueId)
    requires RunningAssigned(db) && i in db.issues && Choice(db, i).Some?
    ensures Choice(db, i).value in db.workers
  {}

  /** Every Issue is pinned to an existing worker, and every task still active uses it. Only
      waiting tasks change, and only to failed. */
  lemma ActiveTasksUsePinnedWorker(db: Tables)
    requires NoConflict(db) && RunningAssigned(db) && Pinnable(db)
    ensures forall i :: i in db.issues ==> After(db).issues[i].Some? && After(db).issues[i].value in db.workers
    ensures forall t :: t in db.tasks && db.tasks[t].issue in db.issues
                        && (Waiting(After(db).tasks[t].status) || After(db).tasks[t].status.Running?)
                        ==> After(db).tasks[t].worker == After(db).issues[db.tasks[t].issue]
    ensures forall t :: t in db.tasks && After(db).tasks[t] != db.tasks[t] ==>
              Waiting(db.tasks[t].status) && After(db).tasks[t] == db.tasks[t].(status := Failed)
  {
    hide Preferred, First;
    forall i | i in db.issues ensures Choice(db, i).value in db.workers {
      ChosenWorkerExists(db, i);
    }
    forall t | t in db.tasks && db.tasks[t].issue in db.issues && db.tasks[t].status.Running?
      ensures db.tasks[t].worker == Choice(db, db.tasks[t].issue)
    {
      RunningWins(db, t);
    }
  }

  lemma RunningWins(db: Tables, t: TaskId)
    requires NoConflict(db) && RunningAssigned(db)
    requires t in db.tasks && db.tasks[t].status.Running? && db.tasks[t].issue in db.issues
    ensures db.tasks[t].worker == Choice(db, db.tasks[t].issue)
  {
    hide First;
    var i := db.tasks[t].issue;
    assert t in RunningOn(db, i);
    assert First(RunningOn(db, i)) in RunningOn(db, i);
  }

  /** The upgrade can be pinned exactly when some worker is enabled or no Issue needs one. */
  lemma PinnableIff(db: Tables)
    ensures Pinnable(db) <==> EnabledWorkers(db) != map[] || forall i :: i in db.issues ==> Preferred(db, i).Some?
  {}

  // ----- Running it again -------------------------------------------------------------------

  lemma SameHistory(db: Tables, i: IssueId)
    requires i in db.issues
    ensures RunningOn(After(db), i) == RunningOn(db, i) && StartedOn(After(db), i) == StartedOn(db, i)
    ensures forall t :: t in PlannedOn(After(db), i) ==> t in PlannedOn(db, i) && db.tasks[t].worker == Choice(db, i)
  {
    hide Choice;
  }

  lemma ChoiceIsStable(db: Tables, i: IssueId)
    requires RunningAssigned(db) && i in db.issues && Choice(db, i).Some?
    ensures Choice(After(db), i) == Choice(db, i)
  {
    hide RunningOn, StartedOn, PlannedOn, EnabledWorkers, First, After, WorkerOfFirst;
    SameHistory(db, i);
    SameRows(db, i);
    if RunningOn(db, i) != map[] {
      SameFirst(db, RunningOn(db, i));
    } else if StartedOn(db, i) != map[] {
      SameFirst(db, StartedOn(db, i));
    } else if PlannedOn(db, i) != map[] {
      PlannedStays(db, i);
    } else {
      assert PlannedOn(After(db), i).Keys == {};
    }
  }

  lemma SameFirst(db: Tables, keys: map<TaskId, Key>)
    requires keys != map[] && Injective(keys) && keys.Keys <= db.tasks.Keys
    ensures After(db).tasks.Keys == db.tasks.Keys
    ensures WorkerOfFirst(After(db), keys) == WorkerOfFirst(db, keys)
  {
    hide Choice, First;
    assert First(keys) in keys.Keys;
  }

  lemma SameRows(db: Tables, i: IssueId)
    requires i in db.issues
    ensures After(db).issues.Keys == db.issues.Keys && After(db).issues[i] == Choice(db, i)
    ensures After(db).workers == db.workers && EnabledWorkers(After(db)) == EnabledWorkers(db)
    ensures After(db).tasks.Keys == db.tasks.Keys
    ensures forall t :: t in db.tasks ==> After(db).tasks[t].worker == db.tasks[t].worker
    ensures EnabledWorkers(db) != map[] ==>
              First(EnabledWorkers(db)) in db.workers && db.workers[First(EnabledWorkers(db))].enabled
  {
    hide Choice, RunningOn, StartedOn, PlannedOn;
  }

  /** The planned task that decided stays planned, and all that stay agree with it. */
  lemma PlannedStays(db: Tables, i: IssueId)
    requires i in db.issues
    requires RunningOn(db, i) == map[] && StartedOn(db, i) == map[] && PlannedOn(db, i) != map[]
    ensures PlannedOn(After(db), i) != map[]
    ensures WorkerOfFirst(After(db), PlannedOn(After(db), i)) == Choice(db, i)
  {
    SameHistory(db, i);
    var t := First(PlannedOn(db, i));
    assert Choice(db, i) == db.tasks[t].worker;
    assert t in PlannedOn(After(db), i);
  }

  /** Running the upgrade again changes nothing. */
  lemma UpgradeIsIdempotent(db: Tables)
    requires NoConflict(db) && RunningAssigned(db) && Pinnable(db)
    ensures After(After(db)) == After(db)
  {
    hide Choice;
    forall i | i in db.issues ensures Choice(After(db), i) == Choice(db, i) {
      ChoiceIsStable(db, i);
    }
    assert After(After(db)).issues == After(db).issues;
    assert After(After(db)).tasks == After(db).tasks;
  }
}
