/** Safety over whole runs of the scheduler: exclusion, turn order, containers and capacity. */
module SchedulerRuns {
  import opened Wrappers
  import opened SchedulerState
  import opened IssueOrder
  import opened SchedulerSteps
  import opened SchedulerInvariant

  // ----- Recovery keeps the invariant -------------------------------------------------------

  lemma GentleTrans(a: Db, b: Db, c: Db)
    requires Gentle(a, b) && Gentle(b, c)
    ensures Gentle(a, c)
  {}

  lemma CleanIsGentle(db: Db)
    ensures Gentle(db, CleanStaleLocks(db))
  {}

  lemma ClearFinalisedIsGentle(db: Db, cleared: set<TaskId>)
    ensures Gentle(db, ClearFinalised(db, cleared))
  {}

  lemma EndAllIsGentle(db: Db, gone: set<TaskId>)
    requires LockInv(db) && forall t :: t in gone ==> t in db.tasks
    ensures Gentle(db, EndAll(db, gone))
  {}

  lemma RemediationAfterCleanIsGentle(db: Db, rejected: set<TaskId>)
    requires LockInv(db)
    ensures Gentle(db, RemediateAll(CleanStaleLocks(db), rejected))
    ensures LockInv(RemediateAll(CleanStaleLocks(db), rejected))
  {
    var c := CleanStaleLocks(db);
    CleanIsGentle(db);
    GentleKeepsLocks(db, c);
    RemediationIsGentle(c, rejected);
    hide Gentle, LockInv, CleanStaleLocks, RemediateAll;
    GentleKeepsLocks(c, RemediateAll(c, rejected));
    GentleTrans(db, c, RemediateAll(c, rejected));
  }

  lemma RecoveryIsGentle(db: Db, mem: Mem, plan: Plan)
    requires LockInv(db)
    ensures Gentle(db, SortRunning(BeforeSorting(db, plan), mem, plan).0)
  {
    hide Gentle, LockInv;
    RemediationAfterCleanIsGentle(db, plan.rejected);
    var r := RemediateAll(CleanStaleLocks(db), plan.rejected);
    var s := ClearFinalised(r, plan.cleared);
    ClearFinalisedIsGentle(r, plan.cleared);
    GentleKeepsLocks(r, s);
    EndAllIsGentle(s, AbsentTasks(s, mem, plan));
    GentleTrans(db, r, s);
    GentleTrans(db, s, EndAll(s, AbsentTasks(s, mem, plan)));
  }

  ghost predicate Kept(w: World, w': World) {
    Inv(w') && Evolves(w.db, w'.db)
  }

  lemma RecoverKept(w: World, plan: Plan)
    requires Inv(w)
    ensures Kept(w, RecoverWorld(w, plan))
  {
    RecoveryIsGentle(w.db, SweptMem(w.db, w.mem, plan.rejected), plan);
    hide Inv, Gentle, Evolves, LockInv, SortRunning, BeforeSorting, SweptMem;
    GentleStepKeepsInv(w, RecoverWorld(w, plan));
  }

  /** What a failed attempt left in the table. */
  lemma AbandonIsGentle(db: Db, plan: Plan, cleaned: bool)
    requires LockInv(db)
    ensures var c := if cleaned then CleanStaleLocks(db) else db;
            Gentle(db, ClearFinalised(RemediateAll(c, plan.rejected), plan.cleared))
  {
    hide Gentle, LockInv;
    var r := RemediateAll(if cleaned then CleanStaleLocks(db) else db, plan.rejected);
    if cleaned {
      RemediationAfterCleanIsGentle(db, plan.rejected);
    } else {
      RemediationIsGentle(db, plan.rejected);
    }
    ClearFinalisedIsGentle(r, plan.cleared);
    GentleTrans(db, r, ClearFinalised(r, plan.cleared));
  }

  lemma AbandonKept(w: World, plan: Plan, cleaned: bool)
    requires Inv(w)
    requires w.phase.Down?
    ensures Kept(w, AbandonRecovery(w, plan, cleaned))
  {
    assert LockInv(w.db);
    hide Inv, Gentle, Evolves, LockInv, Adopt, RemediateAll, CleanStaleLocks, SweptMem, ClearFinalised;
    AbandonIsGentle(w.db, plan, cleaned);
    GentleStepKeepsInv(w, AbandonRecovery(w, plan, cleaned));
  }

  // ----- One step ---------------------------------------------------------------------------

  predicate RowStep(step: Step) {
    step.CancelWaiting? || step.RequestCancel? || step.Reschedule? || step.Override?
    || step.Publish? || step.Unpublish?
  }

  predicate BackgroundStep(step: Step) {
    step.WorkerEnds? || step.CancelConverges? || step.BootstrapFails? || step.BootstrapUnrecorded?
    || step.Finalise? || step.CoordinatorAbsent?
    || step.CoordinatorStops? || step.ClearRetained? || step.CleanLocks?
  }

  lemma RowStepKept(w: World, step: Step)
    requires Inv(w) && Enabled(w, step) && RowStep(step)
    ensures Kept(w, Apply(w, step))
  {
    hide Inv, Evolves;
    var a := w.db.tasks[step.t];
    match step
    case CancelWaiting(t) => RowStepKeepsInv(w, t, a.(status := Cancelled));
    case RequestCancel(t) => RowStepKeepsInv(w, t, a.(cancelRequested := true));
    case Reschedule(t, at) => RowStepKeepsInv(w, t, a.(notBefore := at, status := Pending));
    case Override(t, s) => RowStepKeepsInv(w, t, a.(status := s));
    case Publish(t, c) => RowStepKeepsInv(w, t, a.(container := Some(c)));
    case Unpublish(t) => RowStepKeepsInv(w, t, a.(container := None));
  }

  lemma BackgroundStepKept(w: World, step: Step)
    requires Inv(w) && Enabled(w, step) && BackgroundStep(step)
    ensures Kept(w, Apply(w, step))
  {
    hide Inv, Evolves, FinaliseTask, FailBootstrap, LoseBootstrap, ClearRetainedReference, DropIssue;
    hide CleanStaleLocks, EndAbsent, EndWorker, StopCoordinator;
    match step
    case WorkerEnds(t, outcome, left) => WorkerEndsKeepsInv(w, t, outcome, left);
    case BootstrapUnrecorded(t) => BootstrapUnrecordedKeepsInv(w, t);
    case CancelConverges(t, absent) => CancelConvergesKeepsInv(w, t, absent);
    case BootstrapFails(t) => BootstrapFailsKeepsInv(w, t);
    case Finalise(t) => FinaliseKeepsInv(w, t);
    case CoordinatorAbsent(t) => CoordinatorAbsentKeepsInv(w, t);
    case CoordinatorStops(t) => CoordinatorStopsKeepsInv(w, t);
    case ClearRetained(t) => ClearRetainedKeepsInv(w, t);
    case CleanLocks => CleanLocksKeepsInv(w);
  }

  lemma InsertStepKept(w: World, step: Step)
    requires Inv(w) && Enabled(w, step) && (step.Append? || step.LegacyInsert?)
    ensures Kept(w, Apply(w, step))
  {
    assert AboveAll(w.db, step.row);
    hide Inv, Evolves, AboveAll, FreshRow, MaxTurn;
    InsertKeepsInv(w, step.id, step.row);
  }

  /** A step that leaves the database alone and does not open the window. */
  lemma StillStepKept(w: World, w': World)
    requires Inv(w) && w'.db == w.db && w'.hist == w.hist
    requires w'.phase in {Idle, Down} || (w'.phase == w.phase && w'.mem == w.mem)
    ensures Kept(w, w')
  {
    hide Inv, Evolves;
    assert Gentle(w.db, w'.db);
    GentleStepKeepsInv(w, w');
  }

  lemma LifeStepKept(w: World, step: Step)
    requires Inv(w) && Enabled(w, step)
    requires step.Tick? || step.EndCycle? || step.Crash? || step.Recover? || step.RecoverFails?
    ensures Kept(w, Apply(w, step))
  {
    hide RecoverWorld, AbandonRecovery, Inv, Evolves, Kept;
    if step.Recover? {
      RecoverKept(w, step.plan);
    } else if step.RecoverFails? {
      AbandonKept(w, step.plan, step.cleaned);
    } else {
      StillStepKept(w, Apply(w, step));
    }
  }

  lemma CycleStepKept(w: World, step: Step)
    requires Inv(w) && Enabled(w, step)
    requires step.Remediate? || step.Reconcile? || step.RepairIssue? || step.Normalise?
             || step.Promote? || step.Claim?
    ensures Kept(w, Apply(w, step))
  {
    hide Inv, Evolves, NormaliseQueue, PromoteHeads, RemediateAll, RemediatedIssues, ReconcileMem;
    hide EnsureIntegrity, ApplyClaim;
    match step
    case Remediate(r) => RemediateKeepsInv(w, r);
    case Reconcile(stuck) => ReconcileKeepsInv(w, stuck);
    case RepairIssue(i, ok) =>
      if EnsureIntegrity(w.db, i, ok).Some? { RepairKeepsInv(w, i, ok); } else { EvolvesRefl(w.db); }
    case Normalise => NormaliseKeepsInv(w);
    case Promote(e, p) => PromoteKeepsInv(w, e, p);
    case Claim(env) => ClaimKeepsInv(w, env);
  }

  /** Every step keeps the invariant and undoes nothing durable. */
  lemma NextKeepsInv(w: World, step: Step, w': World)
    requires Inv(w) && Next(w, step, w')
    ensures Inv(w') && Evolves(w.db, w'.db)
  {
    hide Inv, Evolves, Apply;
    if step.Pick? {
      var pick :| IsPick(w.db, w.mem.runningIssues, step.executable, pick)
                  && w' == ApplyPick(w, step.cap, pick, step.gate);
      PickKeepsInv(w, step.cap, pick, step.gate, step.executable);
    } else if RowStep(step) {
      RowStepKept(w, step);
    } else if BackgroundStep(step) {
      BackgroundStepKept(w, step);
    } else if step.Append? || step.LegacyInsert? {
      InsertStepKept(w, step);
    } else if step.Tick? || step.EndCycle? || step.Crash? || step.Recover? || step.RecoverFails? {
      LifeStepKept(w, step);
    } else {
      CycleStepKept(w, step);
    }
  }

  // ----- Runs -------------------------------------------------------------------------------

  /** A starting point: a stopped scheduler over any coherent database. */
  ghost predicate Init(w: World) {
    && w.phase.Down? && w.mem == EMPTY_MEM
    && DbInv(w.db) && RunningLocked(w.db, w.hist.released)
    && |RunningTasks(w.db)| <= w.hist.cap
    && OwnerAlone(w.db, {})
    && w.hist.starts == [] && w.hist.breached == {} && w.hist.tainted == {}
  }

  ghost predicate Run(ws: seq<World>, steps: seq<Step>) {
    && |ws| == |steps| + 1
    && Init(ws[0])
    && forall k :: 0 <= k < |steps| ==> Next(ws[k], steps[k], ws[k + 1])
  }

  lemma EmptyDatabaseStarts(cap: nat, now: int)
    ensures Init(World(Db(map[], map[]), EMPTY_MEM, Down, History([], cap, {}, {}, {}), now))
  {
    assert RunningTasks(Db(map[], map[])) == {};
  }

  lemma InitHolds(w: World)
    requires Init(w)
    ensures Inv(w)
  {
    hide DbInv, OwnerAlone;
  }

  lemma {:induction false} InvAlways(ws: seq<World>, steps: seq<Step>, k: nat)
    requires Run(ws, steps) && k < |ws|
    ensures Inv(ws[k])
  {
    hide Init, Inv, Next;
    if k == 0 {
      InitHolds(ws[0]);
    } else {
      InvAlways(ws, steps, k - 1);
      assert Next(ws[k - 1], steps[k - 1], ws[k - 1 + 1]);
      NextKeepsInv(ws[k - 1], steps[k - 1], ws[k]);
    }
  }

  /** Numbers, start times and endings are permanent over any stretch of any run. */
  lemma {:induction false} EvolvesAlways(ws: seq<World>, steps: seq<Step>, j: nat, k: nat)
    requires Run(ws, steps) && j <= k < |ws|
    ensures Evolves(ws[j].db, ws[k].db)
    decreases k - j
  {
    hide Init, Inv, Next, Evolves;
    if j == k {
      EvolvesRefl(ws[j].db);
    } else {
      EvolvesAlways(ws, steps, j, k - 1);
      InvAlways(ws, steps, k - 1);
      assert Next(ws[k - 1], steps[k - 1], ws[k - 1 + 1]);
      NextKeepsInv(ws[k - 1], steps[k - 1], ws[k]);
      EvolvesTrans(ws[j].db, ws[k - 1].db, ws[k].db);
    }
  }

  /** Mutual exclusion: at most one task of an Issue is RUNNING, no other task holds the lock, and
      the lock is its own unless its own finaliser took it. */
  lemma OneRunningPerIssue(ws: seq<World>, steps: seq<Step>, k: nat, t: TaskId, u: TaskId)
    requires Run(ws, steps) && k < |ws|
    requires t in ws[k].db.tasks && u in ws[k].db.tasks
    requires ws[k].db.tasks[t].status.Running? && ws[k].db.tasks[t].issue == ws[k].db.tasks[u].issue
    ensures ws[k].db.tasks[u].status.Running? ==> t == u
    ensures Owns(ws[k].db, ws[k].db.tasks[t].issue, u) ==> t == u
    ensures Owns(ws[k].db, ws[k].db.tasks[t].issue, t) || t in ws[k].hist.released
  {
    InvAlways(ws, steps, k);
    hide Run, OrderInv, StartLog, OwnerAlone, PhaseInv;
  }

  /** A finaliser takes the lock of its own task, RUNNING or not, exactly when no container is
      left; every other lock stays. */
  lemma FinaliserKeepsLockIff(w: World, t: TaskId, i: IssueId)
    requires t in w.db.tasks && i in w.db.locks
    ensures i in FinaliseTask(w, t).db.locks
            <==> w.db.tasks[t].issue != i || w.db.locks[i] != t || w.db.tasks[t].container.Some?
    ensures i in FinaliseTask(w, t).db.locks ==> FinaliseTask(w, t).db.locks[i] == w.db.locks[i]
    ensures FinaliseTask(w, t).db.tasks == w.db.tasks
  {
    hide Exposed;
  }

  /** Only that step ever leaves a RUNNING task without its lock. */
  lemma OnlyFinaliserUnlocksRunning(w: World, step: Step, w': World, t: TaskId)
    requires Inv(w) && Next(w, step, w')
    requires t in w'.db.tasks && w'.db.tasks[t].status.Running? && t !in w.hist.released
    requires !Owns(w'.db, w'.db.tasks[t].issue, t)
    ensures step == Finalise(t) && t in w.db.tasks && w.db.tasks[t].container.None?
  {
    NextKeepsInv(w, step, w');
    assert t in w'.hist.released by { UnlockedIsReleased(w', t); }
    hide Inv;
    OnlyFinaliserReleases(w, step, w', t);
  }

  lemma UnlockedIsReleased(w: World, t: TaskId)
    requires Inv(w) && t in w.db.tasks && w.db.tasks[t].status.Running? && !Owns(w.db, w.db.tasks[t].issue, t)
    ensures t in w.hist.released
  {
    hide DbInv, StartLog, OwnerAlone, PhaseInv;
  }

  lemma OnlyFinaliserReleases(w: World, step: Step, w': World, t: TaskId)
    requires Next(w, step, w') && t in w'.hist.released && t !in w.hist.released
    ensures step == Finalise(t) && t in w.db.tasks && w.db.tasks[t].container.None?
  {
    hide LegalHead, Promotable, IsPick, MaxTurn, OtherContainer, Exposed, StaleLock, Rank;
    hide TurnsMatchRanks, ReconcileMem, Adopt, RetainedIssues, RemediatedIssues, ClaimTask;
    hide BeforeSorting, SortRunning, SweptMem, RemediateAll, CleanStaleLocks, PromoteHeads;
    hide NormaliseQueue, EnsureIntegrity, ParkTasks, ClearFinalised, ReleaseLock, EndAbsent;
  }

  /** Whatever another task's finaliser, remediation or cleanup just did, and whether or not its
      lock is left, the Issue of a RUNNING task offers nothing to promote or pick: the turn order
      alone keeps it closed, and no other task holds its lock. */
  lemma RunningIssueStaysClosed(w: World, step: Step, w': World, t: TaskId, u: TaskId,
                                blocked: set<IssueId>, executable: set<TaskId>,
                                parked: set<TaskId>)
    requires Inv(w) && Next(w, step, w')
    requires t in w'.db.tasks && w'.db.tasks[t].status.Running?
    requires u in w'.db.tasks && w'.db.tasks[u].issue == w'.db.tasks[t].issue
    ensures Owns(w'.db, w'.db.tasks[t].issue, u) ==> u == t
    ensures !Promotable(w'.db, u, w'.now, blocked, executable, parked)
    ensures !Pickable(w'.db, u, blocked, executable)
  {
    NextKeepsInv(w, step, w');
    ClosedByTurn(w'.db, t, u);
    assert LockInv(w'.db) by { HeldOf(w'); }
    hide Inv, Next, LegalHead;
  }

  lemma ClosedByTurn(db: Db, t: TaskId, u: TaskId)
    requires DbInv(db) && t in db.tasks && u in db.tasks && db.tasks[u].issue == db.tasks[t].issue
    requires db.tasks[t].status.Running?
    ensures db.tasks[u].status.Waiting() ==> !LegalHead(db, u)
  {
    hide LegalHead, StartedRanked, TurnsUnique, LocksSound, OneRunning, RunningUncontested;
    if db.tasks[u].status.Waiting() { RunningSiblingPrecedes(db, t, u); }
  }

  /** No start time differs. */
  ghost predicate SameStarts(db: Db, d: Db) {
    forall t :: t in db.tasks ==> t in d.tasks && d.tasks[t].startedAt == db.tasks[t].startedAt
  }

  lemma SweepsStartNothing(db: Db, ts: set<TaskId>)
    ensures SameStarts(db, CleanStaleLocks(db)) && SameStarts(db, RemediateAll(db, ts))
    ensures SameStarts(db, ClearFinalised(db, ts)) && SameStarts(db, EndAll(db, ts))
  {}

  lemma SameStartsTrans(a: Db, b: Db, c: Db)
    requires SameStarts(a, b) && SameStarts(b, c)
    ensures SameStarts(a, c)
  {}

  lemma SweepStartsNothing(db: Db, c: Db, plan: Plan)
    requires SameStarts(db, c)
    ensures SameStarts(db, ClearFinalised(RemediateAll(c, plan.rejected), plan.cleared))
  {
    hide SameStarts;
    var r := RemediateAll(c, plan.rejected);
    SweepsStartNothing(c, plan.rejected);
    SweepsStartNothing(r, plan.cleared);
    SameStartsTrans(db, c, r);
    SameStartsTrans(db, r, ClearFinalised(r, plan.cleared));
  }

  lemma RecoveryStartsNothing(db: Db, mem: Mem, plan: Plan)
    ensures SameStarts(db, SortRunning(BeforeSorting(db, plan), mem, plan).0)
  {
    hide SameStarts, CleanStaleLocks, RemediateAll, ClearFinalised, EndAll, AbsentTasks, Adopt, RetainedIssues;
    SweepsStartNothing(db, {});
    SweepStartsNothing(db, CleanStaleLocks(db), plan);
    var s := BeforeSorting(db, plan);
    var gone := AbsentTasks(s, mem, plan);
    SweepsStartNothing(s, gone);
    SameStartsTrans(db, s, EndAll(s, gone));
  }

  lemma AbandonStartsNothing(w: World, plan: Plan, cleaned: bool)
    ensures SameStarts(w.db, AbandonRecovery(w, plan, cleaned).db)
    ensures AbandonRecovery(w, plan, cleaned).hist == w.hist
  {
    hide SameStarts, CleanStaleLocks, RemediateAll, ClearFinalised, Adopt, SweptMem;
    SweepsStartNothing(w.db, {});
    assert SameStarts(w.db, w.db) by { SameStartsRefl(w.db); }
    SweepStartsNothing(w.db, if cleaned then CleanStaleLocks(w.db) else w.db, plan);
  }

  lemma SameStartsRefl(db: Db)
    ensures SameStarts(db, db)
  {}

  lemma SimpleStepsStartNothing(w: World, step: Step, t: TaskId)
    requires Enabled(w, step) && t in w.db.tasks
    requires RowStep(step) || step.Append? || step.LegacyInsert? || step.Tick? || step.EndCycle? || step.Crash?
    ensures t in Apply(w, step).db.tasks && Apply(w, step).db.tasks[t].startedAt == w.db.tasks[t].startedAt
    ensures Apply(w, step).hist.starts == w.hist.starts
  {
    hide MaxTurn;
  }

  lemma BackgroundStepsStartNothing(w: World, step: Step, t: TaskId)
    requires Enabled(w, step) && BackgroundStep(step) && t in w.db.tasks
    ensures t in Apply(w, step).db.tasks && Apply(w, step).db.tasks[t].startedAt == w.db.tasks[t].startedAt
    ensures Apply(w, step).hist.starts == w.hist.starts
  {
    hide OtherContainer, Exposed, StaleLock;
  }

  lemma CycleStepsStartNothing(w: World, step: Step)
    requires Enabled(w, step)
    requires step.Remediate? || step.Reconcile? || step.RepairIssue? || step.Normalise? || step.Promote?
             || step.Recover? || step.RecoverFails?
    ensures SameStarts(w.db, Apply(w, step).db) && Apply(w, step).hist.starts == w.hist.starts
  {
    hide SameStarts, ReconcileMem, RecoverWorld, AbandonRecovery, RemediateAll, RemediatedIssues;
    hide NormaliseQueue, PromoteHeads, EnsureIntegrity;
    SameStartsRefl(w.db);
    match step
    case Recover(plan) => RecoverWorldStartsNothing(w, plan);
    case RecoverFails(plan, cleaned) => AbandonStartsNothing(w, plan, cleaned);
    case Remediate(rejected) => SweepsStartNothing(w.db, rejected);
    case Reconcile(_) =>
    case RepairIssue(i, ok) => RepairStartsNothing(w.db, i, ok);
    case Normalise => QueueStartsNothing(w.db, w.now, {}, {}, {});
    case Promote(executable, parked) =>
      QueueStartsNothing(w.db, w.now, w.mem.runningIssues, executable, parked);
  }

  lemma RecoverWorldStartsNothing(w: World, plan: Plan)
    ensures SameStarts(w.db, RecoverWorld(w, plan).db) && RecoverWorld(w, plan).hist == w.hist
  {
    hide SameStarts, SortRunning, BeforeSorting, SweptMem;
    RecoveryStartsNothing(w.db, SweptMem(w.db, w.mem, plan.rejected), plan);
  }

  lemma OtherStepsStartNothing(w: World, step: Step, w': World, t: TaskId)
    requires Next(w, step, w') && !step.Claim? && t in w.db.tasks
    ensures t in w'.db.tasks && w'.db.tasks[t].startedAt == w.db.tasks[t].startedAt
    ensures w'.hist.starts == w.hist.starts
  {
    hide Enabled, Apply, IsPick;
    if step.Pick? {
    } else if BackgroundStep(step) {
      BackgroundStepsStartNothing(w, step, t);
    } else if RowStep(step) || step.Append? || step.LegacyInsert? || step.Tick? || step.EndCycle? || step.Crash? {
      SimpleStepsStartNothing(w, step, t);
    } else {
      CycleStepsStartNothing(w, step);
    }
  }

  lemma QueueStartsNothing(db: Db, now: int, blocked: set<IssueId>, executable: set<TaskId>, parked: set<TaskId>)
    ensures SameStarts(db, NormaliseQueue(db))
    ensures SameStarts(db, PromoteHeads(db, now, blocked, executable, parked))
  {
    hide LegalHead, Promotable;
  }

  lemma RepairStartsNothing(db: Db, i: IssueId, ok: bool)
    ensures EnsureIntegrity(db, i, ok).Some? ==> SameStarts(db, EnsureIntegrity(db, i, ok).value)
  {
    hide Rank, TurnsMatchRanks;
  }

  lemma ClaimStartsOne(db: Db, checked: Option<Db>, p: TaskId, now: int, env: ClaimEnv, t: TaskId)
    requires p in db.tasks && CheckedIssue(db, checked, db.tasks[p].issue) && t in db.tasks
    ensures var (d, o) := ClaimChecked(db, checked, p, now, env);
            && t in d.tasks
            && (d.tasks[t].startedAt == db.tasks[t].startedAt
                || (t == p && o == Claimed && db.tasks[t].status.Queued?
                    && d.tasks[t].status.Running?))
  {
    hide ActivePredecessor;
  }

  /** Claims are logged, and nothing else starts a task. */
  lemma StartsOnlyByClaim(w: World, step: Step, w': World, t: TaskId)
    requires Inv(w) && Next(w, step, w')
    requires t in w.db.tasks && w.db.tasks[t].startedAt.None?
    requires t in w'.db.tasks && w'.db.tasks[t].startedAt.Some?
    ensures step.Claim? && w.phase == Picked(t, w.phase.cap)
    ensures w.db.tasks[t].status.Queued? && w'.db.tasks[t].status.Running?
    ensures w'.hist.starts == w.hist.starts + [t]
  {
    hide Inv;
    if step.Claim? {
      PickedTask(w);
      hide EnsureIntegrity, ClaimChecked;
      var i := w.db.tasks[w.phase.task].issue;
      var checked := EnsureIntegrity(w.db, i, step.env.lineageOk);
      IntegrityNumbersIssue(w.db, i, step.env.lineageOk);
      ClaimStartsOne(w.db, checked, w.phase.task, w.now, step.env, t);
    } else {
      hide Next;
      OtherStepsStartNothing(w, step, w', t);
    }
  }

  /** Over a whole run no task is claimed twice, and one Issue's tasks are claimed in strictly
      increasing turn order, whatever priorities, schedules, cancels or appends came between. */
  lemma ClaimsFollowTurns(ws: seq<World>, steps: seq<Step>, k: nat, p: nat, q: nat)
    requires Run(ws, steps) && k < |ws| && p < q < |ws[k].hist.starts|
    ensures var db, starts := ws[k].db, ws[k].hist.starts;
            && starts[p] in db.tasks && starts[q] in db.tasks && starts[p] != starts[q]
            && (db.tasks[starts[p]].issue == db.tasks[starts[q]].issue ==>
                  && db.tasks[starts[p]].turn.Some? && db.tasks[starts[q]].turn.Some?
                  && db.tasks[starts[p]].turn.value < db.tasks[starts[q]].turn.value)
  {
    InvAlways(ws, steps, k);
    hide DbInv, Run, PhaseInv, OwnerAlone;
  }

  /** A step that started t was a committed claim of t. */
  lemma StartIsCommittedClaim(w: World, env: ClaimEnv, w': World, t: TaskId)
    requires Inv(w) && Next(w, Claim(env), w')
    requires t in w.db.tasks && w.db.tasks[t].startedAt.None?
    requires t in w'.db.tasks && w'.db.tasks[t].startedAt.Some?
    ensures w.phase.Picked? && w.phase.task == t
    ensures ClaimChecked(w.db, EnsureIntegrity(w.db, w.db.tasks[t].issue, env.lineageOk),
                         t, w.now, env) == (w'.db, Claimed)
  {
    StartsOnlyByClaim(w, Claim(env), w', t);
    hide Inv, EnsureIntegrity, ActivePredecessor;
  }

  /** When a task starts, its smaller-numbered siblings have all ended and it owns the lock. */
  lemma ClaimIsOrdered(w: World, env: ClaimEnv, w': World, t: TaskId)
    requires Inv(w) && Next(w, Claim(env), w')
    requires t in w.db.tasks && w.db.tasks[t].startedAt.None?
    requires t in w'.db.tasks && w'.db.tasks[t].startedAt.Some?
    ensures w.db.tasks[t].notBefore.None? || w.db.tasks[t].notBefore.value <= w.now
    ensures w'.db.tasks[t].turn.Some?
    ensures w'.db.locks == w.db.locks[w.db.tasks[t].issue := t]
    ensures forall u :: u in w'.db.tasks && u != t
                        && w'.db.tasks[u].issue == w'.db.tasks[t].issue ==>
              && w'.db.tasks[u].turn.Some?
              && (w'.db.tasks[u].turn.value < w'.db.tasks[t].turn.value ==>
                    w'.db.tasks[u].status.Terminal())
  {
    StartIsCommittedClaim(w, env, w', t);
    IntegrityNumbersIssue(w.db, w.db.tasks[t].issue, env.lineageOk);
    hide Inv, Next, EnsureIntegrity, ClaimChecked, CheckedIssue;
    var checked := EnsureIntegrity(w.db, w.db.tasks[t].issue, env.lineageOk);
    ClaimedMeans(w.db, checked, t, w.now, env);
    ClaimedIsNumbered(w.db, checked, t, w.now, env);
  }

  /** When a task starts, no sibling has a container, unless the block of the Issue was dropped
      while it was needed since the reconcile of this very cycle. */
  lemma ClaimIsAlone(w: World, env: ClaimEnv, w': World, t: TaskId, u: TaskId)
    requires Inv(w) && Next(w, Claim(env), w')
    requires t in w.db.tasks && w.db.tasks[t].startedAt.None?
    requires t in w'.db.tasks && w'.db.tasks[t].startedAt.Some?
    requires u in w'.db.tasks && u != t && w'.db.tasks[u].issue == w'.db.tasks[t].issue
    requires w'.db.tasks[u].issue !in w.hist.breached
    ensures w'.db.tasks[u].container.None?
  {
    hide Inv, Next, EnsureIntegrity, ClaimChecked, CheckedIssue, ClaimTask;
    StartIsCommittedClaim(w, env, w', t);
    PickedTask(w);
    IntegrityNumbersIssue(w.db, w.db.tasks[t].issue, env.lineageOk);
    var checked := EnsureIntegrity(w.db, w.db.tasks[t].issue, env.lineageOk);
    ClaimedMeans(w.db, checked, t, w.now, env);
  }

  /** From its claim until its lock goes, a task whose claim followed no such drop is the only one
      of its Issue with a container, over whole runs. */
  lemma OwnerIsAlone(ws: seq<World>, steps: seq<Step>, k: nat, t: TaskId, u: TaskId)
    requires Run(ws, steps) && k < |ws|
    requires t in ws[k].db.tasks && Owns(ws[k].db, ws[k].db.tasks[t].issue, t)
    requires ws[k].db.tasks[t].issue !in ws[k].hist.tainted
    requires u in ws[k].db.tasks && u != t && ws[k].db.tasks[u].issue == ws[k].db.tasks[t].issue
    ensures ws[k].db.tasks[u].container.None?
  {
    InvAlways(ws, steps, k);
    hide Run, DbInv, StartLog, PhaseInv;
  }

  /** RUNNING tasks never exceed the largest max_concurrency any claim was made under. */
  lemma CapacityHolds(ws: seq<World>, steps: seq<Step>, k: nat)
    requires Run(ws, steps) && k < |ws|
    ensures |RunningTasks(ws[k].db)| <= ws[k].hist.cap
  {
    InvAlways(ws, steps, k);
  }

  // ----- The in-memory block ----------------------------------------------------------------

  /** Every Issue with a retained container is blocked in memory or by its lock. */
  ghost predicate Blocked(db: Db, mem: Mem) {
    forall u :: u in db.tasks && Retains(db, u) ==>
      db.tasks[u].issue in mem.runningIssues || db.tasks[u].issue in db.locks
  }

  /** A late finaliser keeps the block if and only if another task holds the lock, its own
      container survives, or no task of the Issue retains one: the guard that
      _clear_retained_container_reference has and the finaliser lacks. */
  lemma FinaliserKeepsBlockIff(w: World, t: TaskId)
    requires LockInv(w.db) && Enabled(w, Finalise(t)) && Blocked(w.db, w.mem)
    ensures var i, w' := w.db.tasks[t].issue, FinaliseTask(w, t);
            Blocked(w'.db, w'.mem)
            <==> (i in w.db.locks && w.db.locks[i] != t) || w.db.tasks[t].container.Some?
                 || i !in RetainedIssues(w.db)
  {
    var i := w.db.tasks[t].issue;
    var w' := FinaliseTask(w, t);
    if !(i in w.db.locks && w.db.locks[i] != t) && w.db.tasks[t].container.None? {
      assert w'.db == ReleaseLock(w.db, i, t) && w'.mem.runningIssues == w.mem.runningIssues - {i};
      assert i !in w'.db.locks;
      StillRetained(w.db, w'.db, i);
    }
  }

  lemma StillRetained(db: Db, d: Db, i: IssueId)
    requires d.tasks == db.tasks
    ensures i in RetainedIssues(db) <==> exists u :: u in d.tasks && d.tasks[u].issue == i && Retains(d, u)
  {
    if u :| u in d.tasks && d.tasks[u].issue == i && Retains(d, u) {
      assert Retains(db, u);
    }
    if i in RetainedIssues(db) {
      var u :| u in db.tasks && Retains(db, u) && db.tasks[u].issue == i;
      assert Retains(d, u);
    }
  }

  /** A coordinator that stops because its task is no longer RUNNING keeps the block if and only
      if the Issue is locked or none of its tasks retains a container. */
  lemma CoordinatorKeepsBlockIff(w: World, t: TaskId)
    requires LockInv(w.db) && Enabled(w, CoordinatorStops(t)) && Blocked(w.db, w.mem)
    ensures var i, w' := w.db.tasks[t].issue, StopCoordinator(w, t);
            Blocked(w'.db, w'.mem) <==> i in w.db.locks || i !in RetainedIssues(w.db)
  {
    var i := w.db.tasks[t].issue;
    var w' := StopCoordinator(w, t);
    assert w'.db == w.db && w'.mem.runningIssues == w.mem.runningIssues - {i};
    StillRetained(w.db, w'.db, i);
  }

  /** A worker that failed to start keeps the block if and only if it left a container or no task
      of the Issue retains one. */
  lemma BootstrapKeepsBlockIff(w: World, t: TaskId)
    requires LockInv(w.db) && Enabled(w, BootstrapFails(t)) && Blocked(w.db, w.mem)
    ensures var i, w' := w.db.tasks[t].issue, FailBootstrap(w, t);
            Blocked(w'.db, w'.mem) <==> w.db.tasks[t].container.Some? || i !in RetainedIssues(w.db)
  {
    var i := w.db.tasks[t].issue;
    var w' := FailBootstrap(w, t);
    if w.db.tasks[t].container.None? {
      assert w'.mem.runningIssues == w.mem.runningIssues - {i} && i !in w'.db.locks;
      OthersRetained(w.db, w'.db, t);
    }
  }

  /** A failed start whose write was rolled back keeps the block if and only if it left a
      container, the Issue is locked, or none of its tasks retains one. */
  lemma UnrecordedKeepsBlockIff(w: World, t: TaskId)
    requires Enabled(w, BootstrapUnrecorded(t)) && Blocked(w.db, w.mem)
    ensures var i, w' := w.db.tasks[t].issue, LoseBootstrap(w, t);
            Blocked(w'.db, w'.mem)
            <==> w.db.tasks[t].container.Some? || i in w.db.locks || i !in RetainedIssues(w.db)
  {
    var i := w.db.tasks[t].issue;
    var w' := LoseBootstrap(w, t);
    if w.db.tasks[t].container.None? {
      assert w'.mem.runningIssues == w.mem.runningIssues - {i};
      StillRetained(w.db, w'.db, i);
    }
  }

  /** A worker that ends keeps every block if and only if it leaves no container or its Issue is
      blocked in memory or locked. */
  lemma EndingKeepsBlockIff(w: World, t: TaskId, outcome: Status, left: Option<nat>)
    requires Enabled(w, WorkerEnds(t, outcome, left)) && Blocked(w.db, w.mem)
    ensures var i, w' := w.db.tasks[t].issue, EndWorker(w, t, outcome, left);
            Blocked(w'.db, w'.mem) <==> left.None? || i in w.mem.runningIssues || i in w.db.locks
  {
    var w' := EndWorker(w, t, outcome, left);
    forall u | u in w.db.tasks && u != t ensures Retains(w'.db, u) <==> Retains(w.db, u) {}
    if left.Some? { assert Retains(w'.db, t); }
  }

  /** Ending a task without container changes nothing about who retains one. */
  lemma OthersRetained(db: Db, d: Db, t: TaskId)
    requires t in db.tasks && db.tasks[t].status.Running? && d.tasks.Keys == db.tasks.Keys
    requires d.tasks[t].container.None?
    requires forall u :: u in db.tasks && u != t ==> d.tasks[u] == db.tasks[u]
    ensures forall u :: u in db.tasks ==> (Retains(d, u) <==> Retains(db, u))
    ensures forall i :: i in RetainedIssues(db) ==>
              exists u :: u in d.tasks && d.tasks[u].issue == i && Retains(d, u)
  {
    forall i | i in RetainedIssues(db)
      ensures exists u :: u in d.tasks && d.tasks[u].issue == i && Retains(d, u)
    {
      var u :| u in db.tasks && Retains(db, u) && db.tasks[u].issue == i;
      assert Retains(d, u);
    }
  }

  /** A coordinator that found its container gone keeps the block if and only if no task of the
      Issue retains a container. */
  lemma AbsenceKeepsBlockIff(w: World, t: TaskId)
    requires LockInv(w.db) && Enabled(w, CoordinatorAbsent(t)) && Blocked(w.db, w.mem)
    ensures var i := w.db.tasks[t].issue;
            var w' := DropIssue(Forget(w, t), EndAbsent(w.db, t), i);
            Blocked(w'.db, w'.mem) <==> i !in RetainedIssues(w.db)
  {
    var i := w.db.tasks[t].issue;
    var w' := DropIssue(Forget(w, t), EndAbsent(w.db, t), i);
    assert w'.mem.runningIssues == w.mem.runningIssues - {i} && i !in w'.db.locks;
    OthersRetained(w.db, w'.db, t);
  }

  /** Remediating a sibling takes a RUNNING task's Issue out of memory; only the lock is left. */
  lemma RemediationKeepsMemoryIff(w: World, rejected: set<TaskId>, t: TaskId)
    requires Enabled(w, Remediate(rejected)) && t in w.db.tasks
    requires w.db.tasks[t].issue in w.mem.runningIssues
    ensures w.db.tasks[t].issue in Apply(w, Remediate(rejected)).mem.runningIssues
            <==> forall u :: u in w.db.tasks && w.db.tasks[u].issue == w.db.tasks[t].issue ==>
                   !Remediable(w.db, u, rejected)
  {
    var i := w.db.tasks[t].issue;
    assert i in RemediatedIssues(w.db, rejected)
           <==> exists u :: u in w.db.tasks && Remediable(w.db, u, rejected)
                            && w.db.tasks[u].issue == i;
  }
}
