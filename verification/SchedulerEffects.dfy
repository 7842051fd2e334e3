/** What each step writes, in the words of the rows and the sets it touches. */
module SchedulerEffects {
  import opened Wrappers
  import opened SchedulerState
  import opened SchedulerSteps
  import opened SchedulerProcess

  // ----- Locks ------------------------------------------------------------------------------

  /** Lock cleanup keeps a lock exactly while its owner exists and is unfinished or still has a
      container. */
  lemma CleanupKeepsLockIff(db: Db, i: IssueId)
    ensures CleanStaleLocks(db).tasks == db.tasks
    ensures i in CleanStaleLocks(db).locks <==>
      && i in db.locks && db.locks[i] in db.tasks
      && (db.tasks[db.locks[i]].status in {Pending, Queued, Running} || db.tasks[db.locks[i]].container.Some?)
    ensures i in CleanStaleLocks(db).locks ==> CleanStaleLocks(db).locks[i] == db.locks[i]
  {}

  /** A converged cancel gives up the task's own lock exactly when it has ended without container. */
  lemma CancelReleasesIff(w: World, t: TaskId, absent: bool)
    requires Enabled(w, CancelConverges(t, absent))
    ensures var w', i := Apply(w, CancelConverges(t, absent)), w.db.tasks[t].issue;
      && w'.db.tasks == (if absent then w.db.tasks[t := w.db.tasks[t].(container := None)] else w.db.tasks)
      && (Owns(w.db, i, t) ==>
            (i !in w'.db.locks <==> w.db.tasks[t].status in {Completed, Failed, Cancelled}
                                    && (absent || w.db.tasks[t].container.None?)))
      && (forall j :: j in w.db.locks && !(j == i && w.db.locks[j] == t) ==>
            j in w'.db.locks && w'.db.locks[j] == w.db.locks[j])
      && w'.mem == w.mem
  {}

  // ----- Remediation ------------------------------------------------------------------------

  /** A rejected RUNNING task fails, or is cancelled if that was requested, and keeps its container;
      a waiting one is cancelled; all else stays, and only the locks of rejected tasks go. */
  lemma RemediationMeans(db: Db, rejected: set<TaskId>, t: TaskId, i: IssueId)
    requires t in db.tasks
    ensures var d := RemediateAll(db, rejected);
      && t in d.tasks
      && d.tasks[t] == (if t !in rejected then db.tasks[t]
                        else match db.tasks[t].status
                             case Running => db.tasks[t].(status := if db.tasks[t].cancelRequested then Cancelled else Failed)
                             case Pending => db.tasks[t].(status := Cancelled, container := None)
                             case Queued => db.tasks[t].(status := Cancelled, container := None)
                             case _ => db.tasks[t])
      && (i in d.locks <==>
            i in db.locks && !(db.locks[i] in rejected && db.locks[i] in db.tasks
                               && db.tasks[db.locks[i]].status in {Pending, Queued, Running}))
      && (i in d.locks ==> d.locks[i] == db.locks[i])
  {}

  /** Remediation spares a RUNNING task whose live worker has not recorded an attempt yet. */
  lemma RejectedMeans(db: Db, mem: Mem, unexecutable: set<TaskId>, attempted: set<TaskId>, t: TaskId)
    ensures t in Rejected(db, mem, unexecutable, attempted) <==>
      && t in unexecutable && t in db.tasks && db.tasks[t].status in {Pending, Queued, Running}
      && (db.tasks[t].status == Running && t in mem.handles ==> t in attempted)
  {}

  // ----- Reconcile --------------------------------------------------------------------------

  /** Tracking survives for RUNNING tasks and for workers that still clean up. */
  lemma ReconcileTracksIff(db: Db, mem: Mem, stuck: set<TaskId>, t: TaskId)
    ensures t in ReconcileMem(db, mem, stuck).runningTasks <==>
      && t in mem.runningTasks && t in db.tasks
      && (db.tasks[t].status == Running
          || (db.tasks[t].status != Cancelled && t in mem.handles && t !in stuck))
    ensures ReconcileMem(db, mem, stuck).handles == mem.handles
  {}

  lemma RetainedMeans(db: Db, i: IssueId)
    ensures i in RetainedIssues(db) <==>
      exists t :: t in db.tasks && db.tasks[t].issue == i && db.tasks[t].container.Some?
                  && db.tasks[t].status in {Completed, Failed, Cancelled}
  {
    if t :| t in db.tasks && db.tasks[t].issue == i && db.tasks[t].container.Some?
            && db.tasks[t].status in {Completed, Failed, Cancelled}
    {
      assert Retains(db, t);
    }
  }

  /** An Issue stays blocked in memory exactly when it was blocked before and a tracked task, or
      with nothing tracked a RUNNING one, backs it; or when it retains a container. */
  lemma ReconcileBlocksIff(db: Db, mem: Mem, stuck: set<TaskId>, i: IssueId)
    ensures var m := ReconcileMem(db, mem, stuck);
      && m.retained == RetainedIssues(db)
      && (i in m.runningIssues <==>
            || i in RetainedIssues(db)
            || (i in mem.runningIssues
                && exists t :: t in db.tasks && db.tasks[t].issue == i
                               && if mem.runningTasks != {} then t in m.runningTasks else db.tasks[t].status == Running))
  {
    hide RetainedIssues;
    var m := ReconcileMem(db, mem, stuck);
    ReconcileInParts(db, mem, stuck);
    if i in m.runningIssues && i !in RetainedIssues(db) {
      var ts := if mem.runningTasks != {} then Tracked(db, mem, stuck) else RunningTasks(db);
      var t :| t in ts && t in db.tasks && db.tasks[t].issue == i;
    }
    if t :| t in db.tasks && db.tasks[t].issue == i
            && if mem.runningTasks != {} then t in m.runningTasks else db.tasks[t].status == Running
    {
      var ts := if mem.runningTasks != {} then Tracked(db, mem, stuck) else RunningTasks(db);
      assert t in ts;
      assert i in IssuesOf(db, ts);
    }
  }

  // ----- Ends -------------------------------------------------------------------------------

  /** A finaliser drops its own tracking whatever happens; it blocks its Issue when its container
      survives, unblocks it otherwise, and leaves it alone when another task holds the lock. */
  lemma FinaliseMeans(w: World, t: TaskId)
    requires t in w.db.tasks
    ensures var w', i := FinaliseTask(w, t), w.db.tasks[t].issue;
      && w'.db.tasks == w.db.tasks && w'.now == w.now && w'.phase == w.phase
      && w'.mem.handles == w.mem.handles - {t} && w'.mem.runningTasks == w.mem.runningTasks - {t}
      && (if i in w.db.locks && w.db.locks[i] != t then
            w'.mem.runningIssues == w.mem.runningIssues && w'.mem.retained == w.mem.retained
          else if w.db.tasks[t].container.Some? then
            w'.mem.runningIssues == w.mem.runningIssues + {i} && w'.mem.retained == w.mem.retained + {i}
          else
            w'.mem.runningIssues == w.mem.runningIssues - {i} && w'.mem.retained == w.mem.retained)
  {
    hide Exposed;
  }

  /** A failed start ends its task, and gives up lock and block unless a container is left. */
  lemma BootstrapMeans(w: World, t: TaskId)
    requires t in w.db.tasks
    ensures var w', i := FailBootstrap(w, t), w.db.tasks[t].issue;
      && w'.db.tasks == w.db.tasks[t := w.db.tasks[t].(
                          status := if w.db.tasks[t].cancelRequested then Cancelled else Failed)]
      && (forall j :: j in w'.db.locks <==>
            j in w.db.locks && !(j == i && w.db.locks[j] == t && w.db.tasks[t].container.None?))
      && w'.mem.runningIssues == (if w.db.tasks[t].container.Some? then w.mem.runningIssues + {i}
                                  else w.mem.runningIssues - {i})
      && w'.mem.handles == w.mem.handles && w'.mem.runningTasks == w.mem.runningTasks
  {
    hide Exposed;
  }

  /** A failed start whose write was rolled back: the same for the block, and no row or lock moves. */
  lemma LostBootstrapMeans(w: World, t: TaskId)
    requires t in w.db.tasks
    ensures var w', i := LoseBootstrap(w, t), w.db.tasks[t].issue;
      && w'.db == w.db
      && w'.mem.runningIssues == (if w.db.tasks[t].container.Some? then w.mem.runningIssues + {i}
                                  else w.mem.runningIssues - {i})
      && w'.mem.retained == (if w.db.tasks[t].container.Some? then w.mem.retained + {i} else w.mem.retained)
      && w'.mem.handles == w.mem.handles && w'.mem.runningTasks == w.mem.runningTasks
  {
    hide Exposed;
  }

  /** A coordinator that stops drops its own tracking and the block, and touches no row or lock. */
  lemma CoordinatorMeans(w: World, t: TaskId)
    requires t in w.db.tasks
    ensures var w', i := StopCoordinator(w, t), w.db.tasks[t].issue;
      && w'.db == w.db && w'.mem.retained == w.mem.retained
      && w'.mem.runningIssues == w.mem.runningIssues - {i}
      && w'.mem.handles == w.mem.handles - {t} && w'.mem.runningTasks == w.mem.runningTasks - {t}
  {
    hide Exposed;
  }

  /** A worker writes its end and what it left behind, and nothing else. */
  lemma WorkerEndMeans(w: World, t: TaskId, outcome: Status, left: Option<nat>)
    requires t in w.db.tasks
    ensures var w' := EndWorker(w, t, outcome, left);
      && w'.db.tasks == w.db.tasks[t := w.db.tasks[t].(status := outcome, container := left)]
      && w'.db.locks == w.db.locks && w'.mem == w.mem
  {
    hide Owns;
  }

  /** A crash loses the memory and nothing else; the next steps are recovery's. */
  lemma CrashMeans(w: World, step: Step)
    ensures var w' := Apply(w, Crash);
      && w'.db == w.db && w'.hist == w.hist && w'.phase == Down
      && w'.mem.runningTasks == {} && w'.mem.runningIssues == {} && w'.mem.retained == {}
      && w'.mem.handles.Keys == {}
      && (Enabled(w', step) && (step.Pick? || step.Claim? || step.Promote? || step.Reconcile? || step.Remediate?) ==> false)
  {}

  /** Clearing a reference opens the Issue exactly when its task holds the lock and no other task of
      the Issue has a container. */
  lemma ClearingMeans(w: World, t: TaskId)
    requires t in w.db.tasks
    ensures var w', i := ClearRetainedReference(w, t), w.db.tasks[t].issue;
      var opens := Owns(w.db, i, t) && forall u :: u in w.db.tasks && u != t && w.db.tasks[u].issue == i ==>
                                         w.db.tasks[u].container.None?;
      && w'.db.tasks == w.db.tasks[t := w.db.tasks[t].(container := None)]
      && w'.db.locks == (if opens then w.db.locks - {i} else w.db.locks)
      && w'.mem == (if opens then w.mem.(runningIssues := w.mem.runningIssues - {i}, retained := w.mem.retained - {i})
                    else w.mem)
      && w'.hist == w.hist && w'.phase == w.phase
  {}

  /** A container found gone ends its task: cancelled if that was requested, failed otherwise. */
  lemma AbsenceMeans(db: Db, t: TaskId, j: IssueId)
    requires t in db.tasks
    ensures var d := EndAbsent(db, t);
      && d.tasks == db.tasks[t := db.tasks[t].(status := if db.tasks[t].cancelRequested then Cancelled else Failed,
                                               container := None, logsFinalized := true)]
      && (j in d.locks <==> j in db.locks && !(j == db.tasks[t].issue && db.locks[j] == t))
      && (j in d.locks ==> d.locks[j] == db.locks[j])
  {}

  // ----- Pick and recovery ------------------------------------------------------------------

  /** What the readiness gate does with the picked task and with others of the same runtime. */
  lemma GateMeans(w: World, cap: nat, t: TaskId, gate: Gate, u: TaskId)
    requires t in w.db.tasks && w.db.tasks[t].status == Queued && u in w.db.tasks
    ensures var w' := ApplyPick(w, cap, Some(t), gate);
      && w'.mem == w.mem && w'.db.locks == w.db.locks && w'.hist == w.hist
      && w'.phase == (if gate == Proceed then Picked(t, cap) else Idle)
      && u in w'.db.tasks
      && (gate == Proceed || gate == Skip ==> w'.db.tasks == w.db.tasks)
      && (gate == Fail ==> w'.db.tasks == w.db.tasks[t := w.db.tasks[t].(status := Failed)])
      && (gate.Park? ==>
            w'.db.tasks[u] == if (u == t || u in gate.others) && w.db.tasks[u].status == Queued
                              then w.db.tasks[u].(status := Pending) else w.db.tasks[u])
  {}

  /** After recovery every retained container blocks its Issue, before the first cycle. */
  lemma RecoveryBlocks(w: World, plan: Plan, t: TaskId)
    ensures var w' := RecoverWorld(w, plan);
      && w'.phase == Idle
      && (t in w'.db.tasks && w'.db.tasks[t].container.Some?
          && w'.db.tasks[t].status in {Completed, Failed, Cancelled} ==>
            w'.db.tasks[t].issue in w'.mem.runningIssues && w'.db.tasks[t].issue in w'.mem.retained)
  {
    hide BeforeSorting, SweptMem, EndAll, AbsentTasks, Adopt;
    var w' := RecoverWorld(w, plan);
    if t in w'.db.tasks && w'.db.tasks[t].container.Some? && w'.db.tasks[t].status in {Completed, Failed, Cancelled} {
      assert Retains(w'.db, t);
      assert w'.db.tasks[t].issue in RetainedIssues(w'.db);
    }
  }

  /** Clearing finalised references takes the container of exactly the given ended tasks. */
  lemma ClearFinalisedMeans(db: Db, cleared: set<TaskId>, t: TaskId)
    requires t in db.tasks
    ensures ClearFinalised(db, cleared).locks == db.locks
    ensures t in ClearFinalised(db, cleared).tasks
    ensures ClearFinalised(db, cleared).tasks[t]
            == if t in cleared && db.tasks[t].status in {Completed, Failed, Cancelled}
               then db.tasks[t].(container := None) else db.tasks[t]
  {}
}
