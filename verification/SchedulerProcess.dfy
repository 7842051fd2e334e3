/**
 The scheduler object: database rows and in-memory sets updated in place, method by method,
 each proved against the corresponding step of the transition system.
 */
module SchedulerProcess {
  import opened Wrappers
  import opened SchedulerState
  import opened IssueOrder
  import opened SchedulerSteps

  /** Rejected rows, except a freshly claimed one whose local worker has not written its
      attempt yet. */
  function Rejected(db: Db, mem: Mem, unexecutable: set<TaskId>, attempted: set<TaskId>)
    : set<TaskId>
  {
    set t | t in unexecutable && t in db.tasks && db.tasks[t].status.Active()
            && !(db.tasks[t].status.Running? && t !in attempted && t in mem.handles)
  }

  /** A world with this database and memory; nothing below depends on its other parts. */
  function AsWorld(db: Db, mem: Mem): World {
    World(db, mem, Idle, History([], 0, {}, {}, {}), 0)
  }

  class Scheduler {
    var tasks: map<TaskId, Task>
    var locks: map<IssueId, TaskId>
    var runningTasks: set<TaskId>
    var runningIssues: set<IssueId>
    var retained: set<IssueId>
    var handles: map<TaskId, Handle>

    function Tables(): Db reads this { Db(tasks, locks) }

    function Memory(): Mem reads this { Mem(runningTasks, runningIssues, retained, handles) }

    /** A new process over an existing database. */
    constructor (db: Db)
      ensures Tables() == db && Memory() == EMPTY_MEM
    {
      tasks, locks := db.tasks, db.locks;
      runningTasks, runningIssues, retained, handles := {}, {}, {}, map[];
    }

    method ReleaseIssueLock(i: IssueId, owner: TaskId) returns (released: bool)
      modifies this`locks
      ensures Tables() == ReleaseLock(old(Tables()), i, owner)
      ensures released <==> locks != old(locks)
    {
      released := i in locks && locks[i] == owner;
      if released {
        locks := locks - {i};
      }
    }

    /** Terminalises rejected contracts one row at a time. */
    method RemediateLegacyContracts(unexecutable: set<TaskId>, attempted: set<TaskId>)
      returns (terminalized: set<TaskId>)
      requires LocksSound(Tables())
      modifies this`tasks, this`locks, this`runningIssues
      ensures terminalized == Rejected(old(Tables()), old(Memory()), unexecutable, attempted)
      ensures forall t :: t in terminalized <==>
                && t in unexecutable && t in old(tasks) && old(tasks)[t].status in {Pending, Queued, Running}
                && (old(tasks)[t].status == Running && t in old(handles) ==> t in attempted)
      ensures Tables() == RemediateAll(old(Tables()), terminalized)
      ensures runningIssues
              == old(runningIssues) - RemediatedIssues(old(Tables()), terminalized)
    {
      ghost var db := Tables();
      terminalized := {};
      var issues: set<IssueId> := {};
      var rest := set t | t in tasks && tasks[t].status.Active();
      RemediateNothing(db);
      while rest != {}
        invariant tasks.Keys == db.tasks.Keys
        invariant Memory() == old(Memory())
        invariant forall t :: t in rest ==> t in db.tasks && tasks[t] == db.tasks[t]
        invariant forall t :: t in rest ==> db.tasks[t].status.Active() && t !in terminalized
        invariant terminalized + (rest * Rejected(db, Memory(), unexecutable, attempted))
                  == Rejected(db, Memory(), unexecutable, attempted)
        invariant Tables() == RemediateAll(db, terminalized)
        invariant issues == RemediatedIssues(db, terminalized)
        decreases rest
      {
        var t :| t in rest;
        rest := rest - {t};
        var bootstrapping := tasks[t].status.Running? && t !in attempted && t in handles;
        if !bootstrapping && t in unexecutable {
          var i := tasks[t].issue;
          tasks := tasks[t := RemediatedRow(tasks[t])];
          var released := ReleaseIssueLock(i, t);
          issues := issues + {i};
          RemediateOneMore(db, terminalized, t);
          terminalized := terminalized + {t};
        }
      }
      runningIssues := runningIssues - issues;
    }

    /** Discovers retained containers, then drops tracking that nothing backs any more. */
    method ReconcileRunningState(stuck: set<TaskId>)
      modifies this`runningTasks, this`runningIssues, this`retained
      ensures Memory() == ReconcileMem(Tables(), old(Memory()), stuck)
    {
      hide RetainedIssues, StillTracked, ReconcileMem;
      ghost var db, mem := Tables(), Memory();
      retained := RetainedIssues(Tables());
      runningIssues := runningIssues + retained;
      var activeIssues: set<IssueId> := {};
      if runningTasks != {} {
        var active: set<TaskId> := {};
        var rows := runningTasks;
        while rows != {}
          invariant rows <= mem.runningTasks
          invariant Tables() == db
          invariant Memory() == mem.(retained := RetainedIssues(db),
                                     runningIssues := mem.runningIssues + RetainedIssues(db))
          invariant forall t :: t in active <==> t in mem.runningTasks - rows && StillTracked(db, mem, stuck, t)
          invariant activeIssues == IssuesOf(db, active)
          decreases rows
        {
          var t :| t in rows;
          rows := rows - {t};
          TrackedWhen(db, mem, stuck, t);
          if t in tasks {
            var cleaning := !tasks[t].status.Cancelled? && t in handles && t !in stuck;
            if tasks[t].status.Running? || cleaning {
              active := active + {t};
              activeIssues := activeIssues + {tasks[t].issue};
            }
          }
        }
        runningTasks := active;
        assert active == Tracked(db, mem, stuck);
      } else {
        activeIssues := IssuesOf(Tables(), RunningTasks(Tables()));
        assert runningTasks == Tracked(db, mem, stuck);
      }
      runningIssues := runningIssues * (activeIssues + retained);
      ReconcileInParts(db, mem, stuck);
    }

    /** Repair Issue by Issue; an unrecoverable Issue is rolled back and stays closed. */
    method RepairActiveNullSequenceIssues(blockedLineage: set<IssueId>)
      requires DbInv(Tables())
      modifies this`tasks
      ensures DbInv(Tables()) && Evolves(old(Tables()), Tables())
      ensures forall i :: ActiveUnnumbered(Tables(), i) <==>
                ActiveUnnumbered(old(Tables()), i)
                && !(TurnsMatchRanks(old(Tables()), i) && i !in blockedLineage)
      ensures tasks.Keys == old(tasks).Keys
      ensures forall t :: t in tasks ==> tasks[t] == RepairedRow(old(Tables()), t, blockedLineage)
    {
      hide DbInv, Evolves, EnsureIntegrity, ActiveUnnumbered, TurnsMatchRanks, SameIssue, Rank;
      hide UnnumberedIssues, RepairTarget;
      ghost var db := Tables();
      var rest := UnnumberedIssues(Tables());
      ghost var all := rest;
      RepairStarts(db);
      while rest != {}
        invariant rest <= all && locks == db.locks
        invariant DbInv(Tables()) && Evolves(db, Tables())
        invariant forall i :: i !in all || i in rest ==> SameIssue(db, Tables(), i)
        invariant forall i :: i in all - rest ==>
                    (ActiveUnnumbered(Tables(), i)
                     <==> !(TurnsMatchRanks(db, i) && i !in blockedLineage))
        invariant forall i :: i in all - rest ==>
                    SameIssue(RepairTarget(db, i, blockedLineage), Tables(), i)
        decreases rest
      {
        var i :| i in rest;
        rest := rest - {i};
        var checked := EnsureIntegrity(Tables(), i, i !in blockedLineage);
        RepairOne(db, Tables(), i, blockedLineage);
        ghost var before := Tables();
        if checked.Some? {
          tasks := checked.value.tasks;
        }
        forall j | j in all - rest && j != i ensures SameIssue(RepairTarget(db, j, blockedLineage), Tables(), j) {
          SameIssueTrans(RepairTarget(db, j, blockedLineage), before, Tables(), j);
        }
      }
      forall i | i !in all ensures !ActiveUnnumbered(Tables(), i) {
        SameIssueSameChecks(db, Tables(), i);
      }
      RepairedRows(db, Tables(), all, blockedLineage);
    }

    /** Repair, normalise, promote: afterwards the queue holds only legal heads. */
    method MarkEligibleAsQueued(now: int, blockedLineage: set<IssueId>,
                                executable: set<TaskId>, parked: set<TaskId>)
      requires DbInv(Tables())
      modifies this`tasks
      ensures Evolves(old(Tables()), Tables()) && tasks.Keys == old(tasks).Keys
      ensures forall t :: t in tasks ==>
                tasks[t].status ==
                  if SmallestActive(Tables(), t)
                     && (old(tasks)[t].status == Queued
                         || (&& old(tasks)[t].status == Pending
                             && (tasks[t].notBefore.None? || tasks[t].notBefore.value <= now)
                             && tasks[t].issue !in locks && tasks[t].issue !in runningIssues
                             && t in executable && t !in parked))
                  then Queued
                  else if old(tasks)[t].status == Queued then Pending
                  else old(tasks)[t].status
      ensures forall t :: t in tasks && tasks[t].status.Queued? ==> SmallestActive(Tables(), t)
      ensures forall t, u :: t in tasks && u in tasks && t != u && tasks[t].issue == tasks[u].issue
                             && tasks[t].status.Queued?
                             ==> !tasks[u].status.Queued? && !tasks[u].status.Running?
    {
      hide DbInv, Evolves, SmallestActive, NormaliseQueue, PromoteHeads;
      RepairActiveNullSequenceIssues(blockedLineage);
      ghost var repaired := Tables();
      QueueUpdateKeepsLocks(repaired, now, runningIssues, executable, parked);
      ghost var d := PromoteHeads(NormaliseQueue(repaired), now, runningIssues, executable, parked);
      forall t | t in tasks
        ensures t in d.tasks && (SmallestActive(d, t) <==> SmallestActive(repaired, t))
        ensures d.tasks[t].status == MaintainedStatus(repaired, t, now, runningIssues, executable, parked)
        ensures d.tasks[t].issue == repaired.tasks[t].issue && d.tasks[t].notBefore == repaired.tasks[t].notBefore
      {
        MaintainedRow(repaired, now, runningIssues, executable, parked, t);
      }
      tasks := NormaliseQueue(Tables()).tasks;
      tasks := PromoteHeads(Tables(), now, runningIssues, executable, parked).tasks;
      assert Tables() == d;
      QueueHoldsOnlyHeads(repaired, now, runningIssues, executable, parked);
      QueueUpdateEvolves(repaired, now, runningIssues, executable, parked);
      EvolvesTrans(old(Tables()), repaired, Tables());
    }

    /** The best pickable head, and one whenever any exists. */
    method GetNextTask(executable: set<TaskId>) returns (r: Option<TaskId>)
      ensures IsPick(Tables(), runningIssues, executable, r)
      ensures r.Some? ==> forall u :: Pickable(Tables(), u, runningIssues, executable) ==>
                && tasks[r.value].priority <= tasks[u].priority
                && (tasks[r.value].priority == tasks[u].priority ==>
                      && (tasks[u].notBefore.Some? ==> tasks[r.value].notBefore.Some?
                                                       && tasks[r.value].notBefore.value <= tasks[u].notBefore.value)
                      && (tasks[r.value].notBefore == tasks[u].notBefore ==>
                            && tasks[r.value].created <= tasks[u].created
                            && (tasks[r.value].created == tasks[u].created ==> r.value <= u)))
    {
      var rest := set t | t in tasks && Pickable(Tables(), t, runningIssues, executable);
      r := None;
      ghost var all := rest;
      assert forall t :: t in tasks && Pickable(Tables(), t, runningIssues, executable)
                         ==> t in all;
      while rest != {}
        invariant rest <= all
        invariant r.None? <==> rest == all
        invariant r.Some? ==> r.value in all - rest
        invariant r.Some? ==> forall t :: t in all - rest && t != r.value ==>
                                Before(tasks[r.value], r.value, tasks[t], t)
        decreases rest
      {
        var t :| t in rest;
        rest := rest - {t};
        if r.None? || Before(tasks[t], t, tasks[r.value], r.value) {
          r := Some(t);
        }
      }
      if r.Some? { PickIsLeast(Tables(), runningIssues, executable, r.value); }
    }

    /** The atomic claim, re-reading everything the pick saw. */
    method ExecuteTask(t: TaskId, now: int, env: ClaimEnv) returns (o: ClaimOutcome)
      modifies this
      ensures (Tables(), o) == ClaimTask(old(Tables()), t, now, env)
      ensures o == Claimed ==>
                && t in tasks
                && Memory() == old(Memory()).(
                     runningTasks := old(runningTasks) + {t},
                     runningIssues := old(runningIssues) + {tasks[t].issue},
                     handles := old(handles)[t := Worker])
      ensures o != Claimed ==> Memory() == old(Memory())
    {
      hide ActivePredecessor, TurnsMatchRanks, Rank, Due;
      if t !in tasks {
        return RolledBack;
      }
      var i := tasks[t].issue;
      ghost var db := Tables();
      var checked := EnsureIntegrity(Tables(), i, env.lineageOk);
      assert ClaimTask(db, t, now, env) == ClaimChecked(db, checked, t, now, env);
      hide ClaimTask;
      if checked.None? {
        return RolledBack;
      }
      IntegrityKeepsRows(db, i, env.lineageOk);
      var rows := checked.value.tasks;
      hide EnsureIntegrity;
      if !rows[t].status.Queued? {
        return RolledBack;
      }
      if rows[t].turn.None? || !Due(rows[t], now) || ActivePredecessor(checked.value, t) {
        tasks := rows[t := rows[t].(status := Pending)];
        return Demoted;
      }
      if env.rejection.Some? {
        tasks := rows[t := rows[t].(status := if env.rejection.value then Cancelled else Failed)];
        return Refused;
      }
      if env.overLimit {
        tasks := rows[t := rows[t].(status := Failed)];
        return Refused;
      }
      if i in locks
         || !(TIMEOUT_MIN_SECONDS <= env.timeout <= TIMEOUT_MAX_SECONDS)
         || !env.commitOk
      {
        return RolledBack;
      }
      locks := locks[i := t];
      tasks := rows[t := rows[t].(status := Running, startedAt := Some(now),
                                  timeoutSeconds := Some(env.timeout))];
      runningTasks := runningTasks + {t};
      runningIssues := runningIssues + {i};
      handles := handles[t := Worker];
      o := Claimed;
    }

    /** The tail of a worker coroutine: only its own lock, and only when nothing is retained. */
    method FinaliseBackground(t: TaskId)
      requires t in tasks
      modifies this`locks, this`runningTasks, this`runningIssues, this`retained, this`handles
      ensures var w := FinaliseTask(AsWorld(old(Tables()), old(Memory())), t);
              Tables() == w.db && Memory() == w.mem
    {
      handles := handles - {t};
      runningTasks := runningTasks - {t};
      var i := tasks[t].issue;
      if i !in locks || locks[i] == t {
        if tasks[t].container.Some? {
          retained := retained + {i};
          runningIssues := runningIssues + {i};
        } else {
          runningIssues := runningIssues - {i};
          var released := ReleaseIssueLock(i, t);
        }
      }
    }

    /** Clears one container reference; the Issue opens only with its own lock and last one. */
    method ClearRetainedContainerReference(t: TaskId)
      requires t in tasks
      modifies this`tasks, this`locks, this`runningIssues, this`retained
      ensures var w := ClearRetainedReference(AsWorld(old(Tables()), old(Memory())), t);
              Tables() == w.db && Memory() == w.mem
    {
      var i := tasks[t].issue;
      var other := OtherContainer(Tables(), t);
      tasks := tasks[t := tasks[t].(container := None)];
      if i in locks && locks[i] == t && !other {
        var released := ReleaseIssueLock(i, t);
        retained := retained - {i};
        runningIssues := runningIssues - {i};
      }
    }
  }

  lemma IntegrityKeepsRows(db: Db, i: IssueId, ok: bool)
    requires EnsureIntegrity(db, i, ok).Some?
    ensures var d := EnsureIntegrity(db, i, ok).value;
            && d.locks == db.locks && d.tasks.Keys == db.tasks.Keys
            && forall t :: t in db.tasks ==> d.tasks[t].issue == db.tasks[t].issue
  {
    hide Rank, TurnsMatchRanks;
  }

  lemma TrackedWhen(db: Db, mem: Mem, stuck: set<TaskId>, t: TaskId)
    ensures StillTracked(db, mem, stuck, t)
            <==> t in db.tasks
                 && (db.tasks[t].status.Running?
                     || (!db.tasks[t].status.Cancelled? && t in mem.handles && t !in stuck))
  {}

  function Tracked(db: Db, mem: Mem, stuck: set<TaskId>): set<TaskId> {
    set t | t in mem.runningTasks && StillTracked(db, mem, stuck, t)
  }

  lemma ReconcileInParts(db: Db, mem: Mem, stuck: set<TaskId>)
    ensures var kept, held := Tracked(db, mem, stuck), RetainedIssues(db);
            var busy := IssuesOf(db, if mem.runningTasks != {} then kept else RunningTasks(db));
            ReconcileMem(db, mem, stuck)
            == Mem(kept, (mem.runningIssues + held) * (busy + held), held, mem.handles)
  {
    hide RetainedIssues;
    var kept := Tracked(db, mem, stuck);
    assert IssuesOf(db, kept) == set t | t in kept :: db.tasks[t].issue;
    assert IssuesOf(db, RunningTasks(db)) == set t | t in RunningTasks(db) :: db.tasks[t].issue;
  }

  lemma QueueUpdateKeepsLocks(db: Db, now: int, blocked: set<IssueId>,
                              executable: set<TaskId>, parked: set<TaskId>)
    ensures NormaliseQueue(db).locks == db.locks
    ensures PromoteHeads(NormaliseQueue(db), now, blocked, executable, parked).locks == db.locks
    ensures PromoteHeads(NormaliseQueue(db), now, blocked, executable, parked).tasks.Keys == db.tasks.Keys
  {}

  lemma QueueUpdateEvolves(db: Db, now: int, blocked: set<IssueId>,
                           executable: set<TaskId>, parked: set<TaskId>)
    ensures Evolves(db, PromoteHeads(NormaliseQueue(db), now, blocked, executable, parked))
  {
    var n := NormaliseQueue(db);
    NormaliseLeavesLegalHeads(db);
    CalmEvolves(db, n);
    PromoteIsCalm(n, now, blocked, executable, parked);
    var d := PromoteHeads(n, now, blocked, executable, parked);
    CalmEvolves(n, d);
    hide Evolves, NormaliseQueue, PromoteHeads;
    EvolvesTrans(db, n, d);
  }

  /** The rows of Issue i are the same in both tables. */
  ghost predicate SameIssue(db: Db, d: Db, i: IssueId) {
    && (forall t :: t in db.tasks && db.tasks[t].issue == i ==>
          t in d.tasks && d.tasks[t] == db.tasks[t])
    && (forall t :: t in d.tasks && d.tasks[t].issue == i ==>
          t in db.tasks && d.tasks[t] == db.tasks[t])
  }

  lemma SameIssueSameChecks(db: Db, d: Db, i: IssueId)
    requires SameIssue(db, d, i)
    ensures ActiveUnnumbered(d, i) <==> ActiveUnnumbered(db, i)
    ensures TurnsMatchRanks(d, i) <==> TurnsMatchRanks(db, i)
  {
    forall t | t in db.tasks && db.tasks[t].issue == i ensures Rank(d, t) == Rank(db, t) {
      assert Earlier(d, t) == Earlier(db, t);
    }
  }

  function UnnumberedIssues(db: Db): set<IssueId> {
    set t | t in db.tasks && db.tasks[t].status.Active() && db.tasks[t].turn.None?
      :: db.tasks[t].issue
  }

  lemma RepairStarts(db: Db)
    ensures forall i :: i in UnnumberedIssues(db) <==> ActiveUnnumbered(db, i)
    ensures forall i :: SameIssue(db, db, i)
    ensures Evolves(db, db)
  {
    EvolvesRefl(db);
  }

  lemma NumberIssueIsLocal(db: Db, i: IssueId)
    ensures forall j :: j != i ==> SameIssue(db, NumberIssue(db, i), j)
    ensures !ActiveUnnumbered(NumberIssue(db, i), i)
  {}

  lemma SameRows(db: Db)
    ensures forall i :: SameIssue(db, db, i)
  {}

  lemma SameIssueTrans(a: Db, b: Db, c: Db, i: IssueId)
    requires SameIssue(a, b, i) && SameIssue(b, c, i)
    ensures SameIssue(a, c, i)
  {}

  /** The table Issue i's repair aims at. */
  function RepairTarget(db: Db, i: IssueId, blocked: set<IssueId>): Db {
    if TurnsMatchRanks(db, i) && i !in blocked then NumberIssue(db, i) else db
  }

  lemma NumberingIsLocal(db: Db, before: Db, i: IssueId)
    requires SameIssue(db, before, i)
    ensures SameIssue(NumberIssue(db, i), NumberIssue(before, i), i)
  {
    forall t | t in db.tasks && db.tasks[t].issue == i ensures Rank(before, t) == Rank(db, t) {
      assert Earlier(before, t) == Earlier(db, t);
    }
    hide Rank;
  }

  /** A row after repair: it gets its rank when it has no number and its Issue is repaired. */
  ghost function RepairedRow(db: Db, t: TaskId, blocked: set<IssueId>): Task
    requires t in db.tasks
  {
    var i := db.tasks[t].issue;
    db.tasks[t].(turn :=
      if db.tasks[t].turn.None? && ActiveUnnumbered(db, i) && TurnsMatchRanks(db, i) && i !in blocked
      then Some(Rank(db, t)) else db.tasks[t].turn)
  }

  /** Repaired Issue by Issue, the table is repaired row by row. */
  lemma RepairedRows(db: Db, d: Db, all: set<IssueId>, blocked: set<IssueId>)
    requires forall i :: i in all <==> ActiveUnnumbered(db, i)
    requires forall i :: i in all ==> SameIssue(RepairTarget(db, i, blocked), d, i)
    requires forall i :: i !in all ==> SameIssue(db, d, i)
    ensures d.tasks.Keys == db.tasks.Keys
    ensures forall t :: t in d.tasks ==> d.tasks[t] == RepairedRow(db, t, blocked)
  {
    hide Rank, ActiveUnnumbered, TurnsMatchRanks;
    forall t | t in db.tasks ensures t in d.tasks {
      var i := db.tasks[t].issue;
      assert i in all ==> SameIssue(RepairTarget(db, i, blocked), d, i);
    }
    forall t | t in d.tasks
      ensures t in db.tasks && d.tasks[t] == RepairedRow(db, t, blocked)
    {
      var i := d.tasks[t].issue;
      assert i in all ==> SameIssue(RepairTarget(db, i, blocked), d, i);
    }
  }

  /** What one Issue's repair does to that Issue and leaves alone elsewhere. */
  lemma RepairOne(db: Db, before: Db, i: IssueId, blocked: set<IssueId>)
    requires DbInv(before) && Evolves(db, before) && SameIssue(db, before, i)
    ensures var r := EnsureIntegrity(before, i, i !in blocked);
            var d := if r.Some? then r.value else before;
            && DbInv(d) && Evolves(db, d) && d.locks == before.locks
            && (ActiveUnnumbered(d, i) <==>
                  ActiveUnnumbered(db, i) && !(TurnsMatchRanks(db, i) && i !in blocked))
            && SameIssue(RepairTarget(db, i, blocked), d, i)
            && (forall j :: j != i ==> SameIssue(before, d, j))
            && (forall j :: j != i && SameIssue(db, before, j) ==> SameIssue(db, d, j))
            && (forall j :: j != i ==> (ActiveUnnumbered(d, j) <==> ActiveUnnumbered(before, j)))
  {
    SameIssueSameChecks(db, before, i);
    NumberingIsLocal(db, before, i);
    var r := EnsureIntegrity(before, i, i !in blocked);
    if r.None? {
      SameRows(before);
    } else {
      var d := r.value;
      IntegrityKeepsDbInv(before, i, i !in blocked);
      EvolvesTrans(db, before, d);
      NumberIssueIsLocal(before, i);
      assert d.locks == before.locks;
      hide DbInv, Evolves, EnsureIntegrity, ActiveUnnumbered, TurnsMatchRanks, SameIssue;
      hide NumberIssue;
      forall j | j != i ensures ActiveUnnumbered(d, j) <==> ActiveUnnumbered(before, j) {
        SameIssueSameChecks(before, d, j);
      }
      forall j | j != i && SameIssue(db, before, j) ensures SameIssue(db, d, j) {
        SameIssueTrans(db, before, d, j);
      }
    }
  }

  lemma RemediateNothing(db: Db)
    ensures RemediateAll(db, {}) == db && RemediatedIssues(db, {}) == {}
  {
    assert RemediateAll(db, {}).tasks == db.tasks;
    assert RemediateAll(db, {}).locks == db.locks;
  }

  /** Remediation distributes over rows: one more row changes only that row and its own lock. */
  lemma RemediateOneMore(db: Db, done: set<TaskId>, t: TaskId)
    requires LocksSound(db) && t in db.tasks && db.tasks[t].status.Active() && t !in done
    ensures var a, b := RemediateAll(db, done), RemediateAll(db, done + {t});
            b == ReleaseLock(a.(tasks := a.tasks[t := RemediatedRow(db.tasks[t])]),
                             db.tasks[t].issue, t)
    ensures RemediatedIssues(db, done + {t}) == RemediatedIssues(db, done) + {db.tasks[t].issue}
  {
    var a, b := RemediateAll(db, done), RemediateAll(db, done + {t});
    var c := ReleaseLock(a.(tasks := a.tasks[t := RemediatedRow(db.tasks[t])]),
                         db.tasks[t].issue, t);
    assert b.tasks == c.tasks;
    assert b.locks == c.locks;
    assert forall u :: Remediable(db, u, done + {t}) <==> Remediable(db, u, done) || u == t;
  }
}
