/**
 Which steps can drop a block that is still needed, and a concrete run in which one does: a
 deferred coordinator wakes between reconcile and pick and a new task starts beside a
 surviving container.
 */
module SchedulerRace {
  import opened Wrappers
  import opened SchedulerState
  import opened IssueOrder
  import opened SchedulerSteps
  import opened SchedulerInvariant
  import opened SchedulerRuns

  // ----- Which steps drop a needed block ----------------------------------------------------

  /** The task holds no lock, or holds one it claimed after such a drop. */
  predicate Unguarded(w: World, t: TaskId, i: IssueId) {
    OnIssue(w.db, t, i) && (i !in w.db.locks || (Owns(w.db, i, t) && i in w.hist.tainted))
  }

  /** A coordinator that stops; the end or failed start of a task that holds no lock, or whose
      claim already followed a drop; or a RUNNING task without lock that leaves a container. */
  predicate Drops(w: World, step: Step, i: IssueId) {
    match step
    case CoordinatorStops(t) => OnIssue(w.db, t, i)
    case Finalise(t) => Unguarded(w, t, i) && w.db.tasks[t].container.None?
    case BootstrapFails(t) => Unguarded(w, t, i) && w.db.tasks[t].container.None?
    case BootstrapUnrecorded(t) => Unguarded(w, t, i) && w.db.tasks[t].container.None?
    case CoordinatorAbsent(t) => Unguarded(w, t, i)
    case WorkerEnds(t, _, left) => OnIssue(w.db, t, i) && t in w.hist.released && left.Some?
    case _ => false
  }

  /** An owner that is alone with its container leaves nothing exposed when it goes. */
  lemma OwnReleaseExposesNothing(db: Db, tainted: set<IssueId>, t: TaskId, row: Task)
    requires OwnerAlone(db, tainted)
    requires t in db.tasks && row.issue == db.tasks[t].issue && row.container.None?
    requires Owns(db, row.issue, t) && row.issue !in tainted
    ensures !Exposed(ReleaseLock(db.(tasks := db.tasks[t := row]), row.issue, t), row.issue)
  {}

  /** The same while the lock stays: its owner is the only one with a container. */
  lemma OwnerExposesNothing(db: Db, tainted: set<IssueId>, t: TaskId)
    requires OwnerAlone(db, tainted) && t in db.tasks
    requires Owns(db, db.tasks[t].issue, t) && db.tasks[t].issue !in tainted
    ensures !Exposed(db, db.tasks[t].issue)
  {}

  lemma FinaliseDrops(w: World, t: TaskId, i: IssueId)
    requires Inv(w) && Enabled(w, Finalise(t))
    requires i in FinaliseTask(w, t).hist.breached && i !in w.hist.breached
    ensures w.phase.Window? && Drops(w, Finalise(t), i) && Exposed(FinaliseTask(w, t).db, i)
  {
    hide Exposed, DbInv, StartLog, PhaseInv, OwnerAlone, RunningLocked;
    var row := w.db.tasks[t];
    assert w.db.(tasks := w.db.tasks[t := row]) == w.db;
    if Owns(w.db, i, t) && i !in w.hist.tainted && row.issue == i && row.container.None? {
      OwnReleaseExposesNothing(w.db, w.hist.tainted, t, row);
    }
  }

  lemma BootstrapDrops(w: World, t: TaskId, i: IssueId)
    requires Inv(w) && Enabled(w, BootstrapFails(t))
    requires i in FailBootstrap(w, t).hist.breached && i !in w.hist.breached
    ensures w.phase.Window? && Drops(w, BootstrapFails(t), i) && Exposed(FailBootstrap(w, t).db, i)
  {
    hide Exposed, OrderInv, StartLog, PhaseInv, OwnerAlone, RunningLocked;
    var row := w.db.tasks[t].(status := Ended(w.db.tasks[t]));
    assert row.issue in w.db.locks ==> Owns(w.db, row.issue, t);
    if Owns(w.db, i, t) && i !in w.hist.tainted && row.issue == i && row.container.None? {
      OwnReleaseExposesNothing(w.db, w.hist.tainted, t, row);
    }
  }

  lemma UnrecordedDrops(w: World, t: TaskId, i: IssueId)
    requires Inv(w) && Enabled(w, BootstrapUnrecorded(t))
    requires i in LoseBootstrap(w, t).hist.breached && i !in w.hist.breached
    ensures w.phase.Window? && Drops(w, BootstrapUnrecorded(t), i) && Exposed(LoseBootstrap(w, t).db, i)
  {
    hide Exposed, OrderInv, StartLog, PhaseInv, OwnerAlone, RunningLocked;
    assert w.db.tasks[t].issue in w.db.locks ==> Owns(w.db, w.db.tasks[t].issue, t);
    if Owns(w.db, i, t) && i !in w.hist.tainted && w.db.tasks[t].issue == i {
      OwnerExposesNothing(w.db, w.hist.tainted, t);
    }
  }

  lemma CoordinatorDrops(w: World, t: TaskId, i: IssueId)
    requires Inv(w) && Enabled(w, CoordinatorAbsent(t))
    requires i in Apply(w, CoordinatorAbsent(t)).hist.breached && i !in w.hist.breached
    ensures w.phase.Window? && Drops(w, CoordinatorAbsent(t), i)
    ensures Exposed(Apply(w, CoordinatorAbsent(t)).db, i)
  {
    hide Exposed, OrderInv, StartLog, PhaseInv, OwnerAlone, RunningLocked;
    var row := w.db.tasks[t].(status := Ended(w.db.tasks[t]), container := None,
                              logsFinalized := true);
    assert row.issue in w.db.locks ==> Owns(w.db, row.issue, t);
    if Owns(w.db, i, t) && i !in w.hist.tainted && row.issue == i {
      OwnReleaseExposesNothing(w.db, w.hist.tainted, t, row);
    }
  }

  lemma EndingDrops(w: World, t: TaskId, outcome: Status, left: Option<nat>, i: IssueId)
    requires Inv(w) && Enabled(w, WorkerEnds(t, outcome, left))
    requires i in EndWorker(w, t, outcome, left).hist.breached && i !in w.hist.breached
    ensures w.phase.Window? && Drops(w, WorkerEnds(t, outcome, left), i)
    ensures Exposed(EndWorker(w, t, outcome, left).db, i)
  {
    HeldOf(w);
    hide Inv, LockInv;
    var w' := EndWorker(w, t, outcome, left);
    assert Retains(w'.db, t) && !Owns(w'.db, i, t);
  }

  lemma OtherStepsBreachNothing(w: World, step: Step, w': World)
    requires Next(w, step, w')
    requires !step.Finalise? && !step.CoordinatorStops? && !step.CoordinatorAbsent?
             && !step.BootstrapFails? && !step.BootstrapUnrecorded? && !step.WorkerEnds?
    ensures w'.hist.breached <= w.hist.breached
  {
    hide LegalHead, Promotable, IsPick, MaxTurn, OtherContainer, Exposed, StaleLock, Rank;
    hide TurnsMatchRanks, ReconcileMem, Adopt, RetainedIssues, RemediatedIssues, ClaimTask;
    hide BeforeSorting, SortRunning, SweptMem, RemediateAll, CleanStaleLocks, PromoteHeads;
    hide NormaliseQueue, EnsureIntegrity, ParkTasks, ClearFinalised;
  }

  /** A needed block is lost only inside the window and only by these steps, and on an Issue whose
      RUNNING task kept its lock the first loss never comes from the owner of the lock. */
  lemma OnlyTheseDropsBreach(w: World, step: Step, w': World, i: IssueId)
    requires Inv(w) && Next(w, step, w') && i in w'.hist.breached && i !in w.hist.breached
    ensures w.phase.Window? && Drops(w, step, i) && Exposed(w'.db, i)
  {
    hide Inv, Exposed, Owns, FinaliseTask, FailBootstrap, LoseBootstrap, EndWorker;
    if step.Finalise? {
      FinaliseDrops(w, step.t, i);
    } else if step.BootstrapFails? {
      BootstrapDrops(w, step.t, i);
    } else if step.BootstrapUnrecorded? {
      UnrecordedDrops(w, step.t, i);
    } else if step.CoordinatorAbsent? {
      CoordinatorDrops(w, step.t, i);
    } else if step.WorkerEnds? {
      EndingDrops(w, step.t, step.outcome, step.left, i);
    } else if !step.CoordinatorStops? {
      OtherStepsBreachNothing(w, step, w');
    }
  }

  lemma LeavingWindowKeepsBlocks(w: World, step: Step, w': World)
    requires Next(w, step, w') && w.phase.Window? && !w'.phase.Window?
    ensures step.Crash? || (w'.mem == w.mem && w'.db.locks == w.db.locks)
  {
    hide LegalHead, Promotable, IsPick, MaxTurn, OtherContainer, Exposed, StaleLock, Rank;
    hide TurnsMatchRanks, ReconcileMem, Adopt, RetainedIssues, RemediatedIssues, ClaimTask;
    hide BeforeSorting, SortRunning, SweptMem, RemediateAll, CleanStaleLocks, PromoteHeads;
    hide NormaliseQueue, EnsureIntegrity, ClearFinalised, AbandonRecovery, RecoverWorld;
  }

  lemma ExposedIsBreached(w: World, u: TaskId)
    requires Inv(w) && w.phase.Window? && u in w.db.tasks && Retains(w.db, u)
    requires w.db.tasks[u].issue !in w.mem.runningIssues && w.db.tasks[u].issue !in w.db.locks
    ensures w.db.tasks[u].issue in w.hist.breached
  {
    hide DbInv, StartLog, OwnerAlone;
  }

  /** When neither memory nor a lock blocks the Issue of a retained container any more, the
      process crashed, this step dropped the block, or an earlier one in the window had. */
  lemma OnlyTheseStepsExpose(w: World, step: Step, w': World, u: TaskId)
    requires Inv(w) && w.phase.Window? && Next(w, step, w')
    requires u in w.db.tasks && u in w'.db.tasks && Retains(w'.db, u)
    requires w'.db.tasks[u].issue in w.mem.runningIssues || w'.db.tasks[u].issue in w.db.locks
    requires w'.db.tasks[u].issue !in w'.mem.runningIssues && w'.db.tasks[u].issue !in w'.db.locks
    ensures var i := w'.db.tasks[u].issue;
            step.Crash? || i in w.hist.breached || Drops(w, step, i)
  {
    hide Inv, Next, Drops, Retains;
    var i := w'.db.tasks[u].issue;
    NextKeepsInv(w, step, w');
    if w'.phase.Window? {
      ExposedIsBreached(w', u);
      if i !in w.hist.breached { OnlyTheseDropsBreach(w, step, w', i); }
    } else {
      LeavingWindowKeepsBlocks(w, step, w');
    }
  }

  // ----- The run ----------------------------------------------------------------------------

  const OLD: Task :=
    Task(7, 1, Some(1), Running, 0, None, Some(5), 0, false, Some(0), Some(60), false)
  const NEW: Task :=
    Task(7, 2, Some(2), Pending, 0, None, None, 0, false, None, None, false)
  const ENV: ClaimEnv := ClaimEnv(true, None, false, 60, true)

  function Tables(a: Task, b: Task, locks: map<IssueId, TaskId>): Db {
    Db(map[1 := a, 2 := b], locks)
  }

  const OLD_FAILED: Task := OLD.(status := Failed)
  const NEW_QUEUED: Task := NEW.(status := Queued)
  const NEW_RUNNING: Task := NEW.(status := Running, startedAt := Some(9), timeoutSeconds := Some(60))

  const HIST_0: History := History([], 1, {}, {}, {})
  const HIST_1: History := History([], 1, {7}, {}, {})
  const OWNER: map<TaskId, Handle> := map[1 := Coordinator]

  const W0: World := World(Tables(OLD, NEW, map[7 := 1]), EMPTY_MEM, Down, HIST_0, 9)
  const W1: World :=
    World(Tables(OLD, NEW, map[7 := 1]), Mem({1}, {7}, {}, OWNER), Idle, HIST_0, 9)
  const W2: World :=
    World(Tables(OLD_FAILED, NEW, map[]), Mem({1}, {}, {}, OWNER), Swept, HIST_0, 9)
  const W3: World :=
    World(Tables(OLD_FAILED, NEW, map[]), Mem({1}, {7}, {7}, OWNER), Window, HIST_0, 9)
  const W4: World :=
    World(Tables(OLD_FAILED, NEW, map[]), Mem({}, {}, {7}, map[]), Window, HIST_1, 9)
  const W5: World := W4.(db := Tables(OLD_FAILED, NEW_QUEUED, map[]))
  const W6: World := W5.(phase := Picked(2, 3))
  const W7: World :=
    World(Tables(OLD_FAILED, NEW_RUNNING, map[7 := 2]), Mem({2}, {7}, {7}, map[2 := Worker]),
          Idle, History([2], 3, {7}, {7}, {}), 9)

  lemma TablesOrdered(a: Task, b: Task, locks: map<IssueId, TaskId>)
    requires a.issue == 7 && b.issue == 7 && a.created == 1 && b.created == 2
    requires a.turn == Some(1) && b.turn == Some(2)
    ensures var db := Tables(a, b, locks);
            Rank(db, 1) == 1 && Rank(db, 2) == 2 && StartedRanked(db) && TurnsMatchRanks(db, 7)
  {
    var db := Tables(a, b, locks);
    assert Earlier(db, 1) == {} && EarlierNumbered(db, 1) == {};
    assert Earlier(db, 2) == {1} && EarlierNumbered(db, 2) == {1};
  }

  lemma RaceOrdered()
    ensures OrderInv(W0.db)
  {
    TablesOrdered(OLD, NEW, map[7 := 1]);
    hide StartedRanked, TurnsMatchRanks;
  }

  lemma RaceRunning(t: TaskId)
    ensures t in W0.db.tasks && W0.db.tasks[t].status.Running? <==> t == 1
  {}

  lemma RaceLocked()
    ensures LockInv(W0.db) && OwnerAlone(W0.db, {}) && |RunningTasks(W0.db)| <= 1
  {
    assert StatusCoherent(W0.db) && LocksSound(W0.db) && OwnerAlone(W0.db, {});
    forall t ensures t in W0.db.tasks && W0.db.tasks[t].status.Running? <==> t == 1 {
      RaceRunning(t);
    }
    assert RunningTasks(W0.db) == {1};
    assert Owns(W0.db, 7, 1) && W0.db.tasks[1].issue == 7;
  }

  lemma RaceStarts()
    ensures Init(W0)
  {
    RaceOrdered();
    RaceLocked();
    hide LockInv, OrderInv, OwnerAlone;
  }

  lemma RaceSweepsNothing(plan: Plan)
    requires plan == Plan({}, {}, {}, {}, {1})
    ensures BeforeSorting(W0.db, plan) == W0.db
    ensures SweptMem(W0.db, EMPTY_MEM, {}) == EMPTY_MEM
  {
    assert CleanStaleLocks(W0.db).locks == W0.db.locks;
    assert RemediateAll(W0.db, {}) == W0.db by {
      assert RemediateAll(W0.db, {}).tasks == W0.db.tasks;
      assert RemediateAll(W0.db, {}).locks == W0.db.locks;
    }
    assert ClearFinalised(W0.db, {}).tasks == W0.db.tasks;
  }

  lemma RaceRecovers()
    ensures Next(W0, Recover(Plan({}, {}, {}, {}, {1})), W1)
  {
    hide SortRunning, BeforeSorting, SweptMem;
    var plan := Plan({}, {}, {}, {}, {1});
    RaceSweepsNothing(plan);
    RaceAdopts(plan);
    assert RecoverWorld(W0, plan) == W1;
  }

  lemma RaceEndsNothing(plan: Plan)
    requires plan == Plan({}, {}, {}, {}, {1})
    ensures AbsentTasks(W0.db, EMPTY_MEM, plan) == {} && EndAll(W0.db, {}) == W0.db
    ensures RetainedIssues(W0.db) == {}
  {
    assert EndAll(W0.db, {}).tasks == W0.db.tasks && EndAll(W0.db, {}).locks == W0.db.locks;
  }

  lemma RaceAdopts(plan: Plan)
    requires plan == Plan({}, {}, {}, {}, {1})
    ensures SortRunning(W0.db, EMPTY_MEM, plan) == (W1.db, W1.mem)
  {
    RaceEndsNothing(plan);
    hide EndAll, AbsentTasks, RetainedIssues;
    var d := W0.db;
    assert Stuck(d, plan) == {1};
    var owned := OwnedTasks(d, EMPTY_MEM, plan);
    assert owned == {1};
    assert d.tasks[1].issue in IssuesOf(d, owned);
    assert IssuesOf(d, owned) == {7};
    var m := Adopt(d, EMPTY_MEM, plan);
    assert m.handles == OWNER && m.runningTasks == {1} && m.runningIssues == {7};
    assert m.runningIssues + RetainedIssues(d) == {7} && m.retained + RetainedIssues(d) == {};
  }

  lemma RaceRemediates()
    ensures Next(W1, Remediate({1}), W2)
  {
    var w' := Apply(W1, Remediate({1}));
    assert w'.db.tasks == W2.db.tasks && w'.db.locks == W2.db.locks;
    assert Remediable(W1.db, 1, {1});
    assert RemediatedIssues(W1.db, {1}) == {7};
  }

  lemma RaceReconciles()
    ensures Next(W2, Reconcile({}), W3)
  {
    var db := W2.db;
    assert Retains(db, 1) && db.tasks[1].issue == 7;
    assert RetainedIssues(db) == {7};
    var kept := set t | t in {1} && StillTracked(db, W2.mem, {}, t);
    assert kept == {1};
    var m := ReconcileMem(db, W2.mem, {});
    assert m.runningTasks == {1};
    assert m.runningIssues == {7};
  }

  lemma RaceDrops()
    ensures Next(W3, CoordinatorStops(1), W4)
  {
    assert Retains(W3.db, 1) && W3.db.tasks[1].issue == 7;
    var w' := Apply(W3, CoordinatorStops(1));
    assert w'.mem.handles == map[] && w'.mem.runningTasks == {} && w'.mem.runningIssues == {};
    assert w'.hist.breached == {7};
  }

  lemma HeadAfterDrop(b: Task)
    requires b == NEW || b == NEW_QUEUED
    ensures LegalHead(Tables(OLD_FAILED, b, map[]), 2)
  {}

  lemma RacePromotes()
    ensures Next(W4, Promote({2}, {}), W5)
  {
    HeadAfterDrop(NEW);
    var w' := Apply(W4, Promote({2}, {}));
    assert w'.db.tasks == W5.db.tasks;
  }

  lemma RacePicks()
    ensures Next(W5, Pick(3, {2}, Proceed), W6)
  {
    HeadAfterDrop(NEW_QUEUED);
    assert RunningTasks(W5.db) == {};
    assert IsPick(W5.db, W5.mem.runningIssues, {2}, Some(2));
    assert W6 == ApplyPick(W5, 3, Some(2), Proceed);
  }

  lemma RaceClaimTable()
    ensures ClaimTask(W6.db, 2, 9, ENV) == (W7.db, Claimed)
  {
    var db := W6.db;
    TablesOrdered(OLD_FAILED, NEW_QUEUED, map[]);
    assert NumberIssue(db, 7).tasks == db.tasks;
    HeadAfterDrop(NEW_QUEUED);
    hide NumberIssue, TurnsMatchRanks, StartedRanked;
    assert ClaimTask(db, 2, 9, ENV) == (StartTask(db, 2, 9, 60), Claimed);
    assert StartTask(db, 2, 9, 60) == W7.db;
  }

  lemma RaceClaims()
    ensures Next(W6, Claim(ENV), W7)
  {
    RaceClaimTable();
    hide ClaimTask;
  }

  const RACE_WORLDS: seq<World> := [W0, W1, W2, W3, W4, W5, W6, W7]
  const RACE_STEPS: seq<Step> := [
    Recover(Plan({}, {}, {}, {}, {1})), Remediate({1}), Reconcile({}), CoordinatorStops(1),
    Promote({2}, {}), Pick(3, {2}, Proceed), Claim(ENV)]

  /** Task 2 runs while task 1 of the same Issue still has its container. */
  lemma CoordinatorRace()
    ensures Run(RACE_WORLDS, RACE_STEPS)
    ensures var w := RACE_WORLDS[7];
            w.db.tasks[2].status.Running? && w.db.tasks[1].container.Some?
            && w.db.tasks[1].issue == w.db.tasks[2].issue
  {
    RaceStarts();
    RaceRecovers();
    RaceRemediates();
    RaceReconciles();
    RaceDrops();
    RacePromotes();
    RacePicks();
    RaceClaims();
    hide Next, Init;
    forall k | 0 <= k < |RACE_STEPS|
      ensures Next(RACE_WORLDS[k], RACE_STEPS[k], RACE_WORLDS[k + 1])
    {
      if k == 0 {} else if k == 1 {} else if k == 2 {} else if k == 3 {}
      else if k == 4 {} else if k == 5 {} else { assert k == 6; }
    }
  }

  // ----- The owner drops it too -------------------------------------------------------------

  const NEW_DONE: Task := NEW_RUNNING.(status := Completed)

  const W8: World := W7.(db := Tables(OLD_FAILED, NEW_DONE, map[7 := 2]))
  const W9: World := W8.(phase := Swept)
  const W10: World := W9.(phase := Window, hist := History([2], 3, {}, {7}, {}))
  const W11: World :=
    World(Tables(OLD_FAILED, NEW_DONE, map[]), Mem({}, {}, {7}, map[]), Window,
          History([2], 3, {7}, {7}, {}), 9)

  lemma OwnerEnds()
    ensures Next(W7, WorkerEnds(2, Completed, None), W8)
  {}

  lemma OwnerSwept()
    ensures Next(W8, Remediate({}), W9)
  {
    var w' := Apply(W8, Remediate({}));
    assert w'.db.tasks == W9.db.tasks && w'.db.locks == W9.db.locks;
    assert RemediatedIssues(W8.db, {}) == {};
  }

  lemma OwnerReconciled()
    ensures Next(W9, Reconcile({}), W10)
  {
    var db := W9.db;
    assert Retains(db, 1) && db.tasks[1].issue == 7;
    assert RetainedIssues(db) == {7};
    var kept := set t | t in {2} && StillTracked(db, W9.mem, {}, t);
    assert kept == {2};
    var m := ReconcileMem(db, W9.mem, {});
    assert m.runningTasks == {2};
    assert m.runningIssues == {7};
  }

  lemma OwnerFinalises()
    ensures Next(W10, Finalise(2), W11)
  {
    var w' := Apply(W10, Finalise(2));
    assert Retains(w'.db, 1) && w'.db.tasks[1].issue == 7;
    assert w'.mem.handles == map[] && w'.mem.runningTasks == {} && w'.mem.runningIssues == {};
    assert w'.db.locks == map[];
  }

  const OWNER_WORLDS: seq<World> := [W7, W8, W9, W10, W11]
  const OWNER_STEPS: seq<Step> := [
    WorkerEnds(2, Completed, None), Remediate({}), Reconcile({}), Finalise(2)]

  lemma OwnerStep(k: nat)
    requires k < |OWNER_STEPS|
    ensures Next(OWNER_WORLDS[k], OWNER_STEPS[k], OWNER_WORLDS[k + 1])
  {
    OwnerEnds();
    OwnerSwept();
    OwnerReconciled();
    OwnerFinalises();
    hide Next;
    if k == 0 {} else if k == 1 {} else if k == 2 {} else { assert k == 3; }
  }

  lemma OwnerBlocks()
    ensures Owns(W10.db, 7, 2) && Blocked(W10.db, W10.mem)
    ensures Retains(W11.db, 1) && !Blocked(W11.db, W11.mem)
  {
    assert Retains(W11.db, 1);
  }

  /** The run goes on: one cycle later the lock owner's own finaliser drops the block and the lock
      while the old container still survives. */
  lemma OwnerRace()
    ensures Run(RACE_WORLDS + OWNER_WORLDS[1..], RACE_STEPS + OWNER_STEPS)
    ensures Owns(W10.db, 7, 2) && Blocked(W10.db, W10.mem)
    ensures Retains(W11.db, 1) && !Blocked(W11.db, W11.mem)
  {
    hide Next, Init, Owns, Blocked, Retains;
    CoordinatorRace();
    OwnerBlocks();
    var worlds, steps := RACE_WORLDS + OWNER_WORLDS[1..], RACE_STEPS + OWNER_STEPS;
    forall k | 0 <= k < |steps| ensures Next(worlds[k], steps[k], worlds[k + 1]) {
      if k < 7 {
        assert Next(RACE_WORLDS[k], RACE_STEPS[k], RACE_WORLDS[k + 1]);
      } else {
        OwnerStep(k - 7);
      }
    }
  }

  // ----- A RUNNING task without its lock ----------------------------------------------------

  const UNLOCKED: World :=
    World(Tables(OLD_FAILED, NEW_RUNNING, map[]), Mem({}, {}, {7}, map[]), Idle,
          History([2], 3, {7}, {7}, {2}), 9)

  lemma UnlockedStep()
    ensures Next(W7, Finalise(2), UNLOCKED)
  {
    var w' := Apply(W7, Finalise(2));
    assert w'.mem.handles == map[] && w'.mem.runningTasks == {} && w'.mem.runningIssues == {};
    assert w'.db.locks == map[];
  }

  /** A worker raised, its terminal write was lost, and its finaliser ran: task 2 is still RUNNING
      and nobody holds the lock. */
  lemma UnrecordedFailure()
    ensures Run(RACE_WORLDS + [UNLOCKED], RACE_STEPS + [Finalise(2)])
    ensures UNLOCKED.db.tasks[2].status.Running? && 7 !in UNLOCKED.db.locks && UNLOCKED.db.tasks[2].issue == 7
  {
    hide Next, Init;
    CoordinatorRace();
    UnlockedStep();
    var worlds, steps := RACE_WORLDS + [UNLOCKED], RACE_STEPS + [Finalise(2)];
    forall k | 0 <= k < |steps| ensures Next(worlds[k], steps[k], worlds[k + 1]) {
      if k < 7 {
        assert Next(RACE_WORLDS[k], RACE_STEPS[k], RACE_WORLDS[k + 1]);
      }
    }
  }
}
