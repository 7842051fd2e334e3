/** Durable invariants of task rows and locks, and what the queue operations keep of them. */
module IssueOrder {
  import opened Wrappers
  import opened SchedulerState

  // ----- Invariants of the durable state ----------------------------------------------------

  ghost predicate StatusCoherent(db: Db) {
    forall t :: t in db.tasks ==>
      var a := db.tasks[t];
      && (a.status.Waiting() ==> a.startedAt.None?)
      && (a.status.Running? ==> a.startedAt.Some?)
      && (a.startedAt.Some? <==> a.timeoutSeconds.Some?)
      && (a.timeoutSeconds.Some? ==>
            TIMEOUT_MIN_SECONDS <= a.timeoutSeconds.value <= TIMEOUT_MAX_SECONDS)
      && (a.container.Some? ==> a.startedAt.Some?)
  }

  /** At most one task of an Issue is RUNNING. */
  ghost predicate OneRunning(db: Db) {
    forall t, u :: t in db.tasks && u in db.tasks && db.tasks[t].issue == db.tasks[u].issue
                   && db.tasks[t].status.Running? && db.tasks[u].status.Running?
                   ==> t == u
  }

  /** No other task holds the lock of a RUNNING task's Issue. */
  ghost predicate RunningUncontested(db: Db) {
    forall t :: t in db.tasks && db.tasks[t].status.Running? && db.tasks[t].issue in db.locks ==>
      db.locks[db.tasks[t].issue] == t
  }

  /** Every RUNNING task but the given ones holds its Issue's lock. */
  ghost predicate RunningLocked(db: Db, released: set<TaskId>) {
    forall t :: t in db.tasks && db.tasks[t].status.Running? && t !in released ==>
      db.tasks[t].issue in db.locks && db.locks[db.tasks[t].issue] == t
  }

  ghost predicate LocksSound(db: Db) {
    forall i :: i in db.locks ==>
      OnIssue(db, db.locks[i], i) && db.tasks[db.locks[i]].startedAt.Some?
  }

  ghost predicate TurnsUnique(db: Db) {
    forall t, u :: t in db.tasks && u in db.tasks && t != u
                   && db.tasks[t].issue == db.tasks[u].issue
                   && db.tasks[t].turn.Some? && db.tasks[u].turn.Some?
                   ==> db.tasks[t].turn != db.tasks[u].turn
  }

  /** A started task is numbered below every task of its Issue that is still waiting. */
  ghost predicate StartedFirst(db: Db) {
    forall t, u :: t in db.tasks && u in db.tasks && db.tasks[t].issue == db.tasks[u].issue
                   && db.tasks[t].startedAt.Some? && db.tasks[u].status.Waiting()
                   ==> db.tasks[t].turn.Some?
                       && (db.tasks[u].turn.Some?
                           ==> db.tasks[t].turn.value < db.tasks[u].turn.value)
  }

  /** Enough numbered rows precede a started task to account for its number. */
  ghost predicate StartedRanked(db: Db) {
    forall t :: t in db.tasks && db.tasks[t].startedAt.Some? ==>
      db.tasks[t].turn.Some? && db.tasks[t].turn.value <= |EarlierNumbered(db, t)| + 1
  }

  ghost predicate LockInv(db: Db) {
    StatusCoherent(db) && OneRunning(db) && RunningUncontested(db) && LocksSound(db)
  }

  ghost predicate OrderInv(db: Db) {
    TurnsUnique(db) && StartedFirst(db) && StartedRanked(db)
  }

  ghost predicate DbInv(db: Db) {
    LockInv(db) && OrderInv(db)
  }

  /** What no step ever undoes. */
  ghost predicate Evolves(db: Db, db': Db) {
    forall t :: t in db.tasks ==>
      && t in db'.tasks
      && db'.tasks[t].issue == db.tasks[t].issue
      && db'.tasks[t].created == db.tasks[t].created
      && (db.tasks[t].turn.Some? ==> db'.tasks[t].turn == db.tasks[t].turn)
      && (db.tasks[t].startedAt.Some? ==>
            db'.tasks[t].startedAt == db.tasks[t].startedAt
            && db'.tasks[t].timeoutSeconds == db.tasks[t].timeoutSeconds)
      && (db.tasks[t].status.Terminal() ==> db'.tasks[t].status.Terminal())
  }

  /** A change of statuses, containers or schedules that starts nothing and renumbers nothing. */
  ghost predicate Calm(db: Db, db': Db) {
    && db'.tasks.Keys == db.tasks.Keys
    && forall t :: t in db.tasks ==>
         var a, b := db.tasks[t], db'.tasks[t];
         && b.issue == a.issue && b.created == a.created && b.turn == a.turn
         && b.startedAt == a.startedAt && b.timeoutSeconds == a.timeoutSeconds
         && (b.status.Waiting() ==> a.status.Waiting())
         && (b.status.Running? ==> a.status.Running?)
  }

  lemma EarlierNumberedGrows(db: Db, db': Db, t: TaskId)
    requires Evolves(db, db') && t in db.tasks
    ensures |EarlierNumbered(db, t)| <= |EarlierNumbered(db', t)|
  {
    assert EarlierNumbered(db, t) <= EarlierNumbered(db', t);
    SubsetSize(EarlierNumbered(db, t), EarlierNumbered(db', t));
  }

  lemma {:induction false} SubsetSize(a: set<TaskId>, b: set<TaskId>)
    requires a <= b
    ensures |a| <= |b|
    ensures |a| == |b| ==> a == b
  {
    assert b == a + (b - a);
    assert |b| == |a| + |b - a|;
  }

  lemma CalmEvolves(db: Db, db': Db)
    requires Calm(db, db')
    ensures Evolves(db, db')
  {
    forall t | t in db.tasks && db.tasks[t].status.Terminal()
      ensures db'.tasks[t].status.Terminal()
    {}
  }

  lemma CalmKeepsRanked(db: Db, db': Db)
    requires Calm(db, db') && StartedRanked(db)
    ensures StartedRanked(db')
  {
    CalmEvolves(db, db');
    forall t | t in db'.tasks && db'.tasks[t].startedAt.Some?
      ensures db'.tasks[t].turn.Some?
              && db'.tasks[t].turn.value <= |EarlierNumbered(db', t)| + 1
    {
      EarlierNumberedGrows(db, db', t);
    }
  }

  lemma CalmKeepsOrder(db: Db, db': Db)
    requires Calm(db, db')
    requires TurnsUnique(db) && StartedFirst(db) && StartedRanked(db)
    ensures TurnsUnique(db') && StartedFirst(db') && StartedRanked(db')
    ensures Evolves(db, db')
  {
    CalmEvolves(db, db');
    CalmKeepsRanked(db, db');
    assert StartedFirst(db') by {
      forall t, u | t in db'.tasks && u in db'.tasks && db'.tasks[t].issue == db'.tasks[u].issue
                    && db'.tasks[t].startedAt.Some? && db'.tasks[u].status.Waiting()
        ensures db'.tasks[t].turn.Some?
                && (db'.tasks[u].turn.Some? ==> db'.tasks[t].turn.value < db'.tasks[u].turn.value)
      {
        assert db.tasks[u].status.Waiting();
      }
    }
  }

  // ----- Ranks ------------------------------------------------------------------------------

  lemma RankStrict(db: Db, u: TaskId, t: TaskId)
    requires u in db.tasks && t in db.tasks && db.tasks[u].issue == db.tasks[t].issue
    requires KeyLess(db, u, t)
    ensures Rank(db, u) < Rank(db, t)
  {
    assert u in Earlier(db, t) && u !in Earlier(db, u);
    assert Earlier(db, u) <= Earlier(db, t);
    SubsetSize(Earlier(db, u), Earlier(db, t));
  }

  lemma RankDistinct(db: Db, u: TaskId, t: TaskId)
    requires u in db.tasks && t in db.tasks && db.tasks[u].issue == db.tasks[t].issue && u != t
    ensures Rank(db, u) != Rank(db, t)
    ensures Rank(db, u) < Rank(db, t) <==> KeyLess(db, u, t)
  {
    if KeyLess(db, u, t) { RankStrict(db, u, t); } else { RankStrict(db, t, u); }
  }

  /** A passing check leaves no unnumbered row before a started one. */
  lemma UnnumberedComesAfterStarted(db: Db, t: TaskId, u: TaskId)
    requires StartedRanked(db)
    requires t in db.tasks && u in db.tasks && db.tasks[t].issue == db.tasks[u].issue
    requires db.tasks[t].startedAt.Some? && db.tasks[u].turn.None?
    requires TurnsMatchRanks(db, db.tasks[t].issue)
    ensures KeyLess(db, t, u) && Rank(db, t) < Rank(db, u)
  {
    assert EarlierNumbered(db, t) <= Earlier(db, t);
    SubsetSize(EarlierNumbered(db, t), Earlier(db, t));
    assert u !in Earlier(db, t);
    RankStrict(db, t, u);
  }

  lemma NumberIssueKeepsRanks(db: Db, i: IssueId, t: TaskId)
    requires t in db.tasks
    ensures Rank(NumberIssue(db, i), t) == Rank(db, t)
  {
    assert Earlier(NumberIssue(db, i), t) == Earlier(db, t);
  }

  /** d is db with the unnumbered rows of Issue i numbered, and nothing renumbered. */
  ghost predicate Numbered(db: Db, d: Db, i: IssueId) {
    && d.locks == db.locks && d.tasks.Keys == db.tasks.Keys
    && (forall t :: t in db.tasks ==> d.tasks[t] == db.tasks[t].(turn := d.tasks[t].turn))
    && (forall t :: t in db.tasks && db.tasks[t].turn.Some? ==> d.tasks[t] == db.tasks[t])
    && (forall t :: t in d.tasks && d.tasks[t].issue == i ==> d.tasks[t].turn == Some(Rank(d, t)))
  }

  ghost predicate CheckedIssue(db: Db, checked: Option<Db>, i: IssueId) {
    checked.Some? ==> Numbered(db, checked.value, i)
  }

  lemma IntegrityNumbersIssue(db: Db, i: IssueId, lineageOk: bool)
    ensures CheckedIssue(db, EnsureIntegrity(db, i, lineageOk), i)
    ensures EnsureIntegrity(db, i, lineageOk).Some? <==> TurnsMatchRanks(db, i) && lineageOk
  {
    if TurnsMatchRanks(db, i) && lineageOk {
      var d := NumberIssue(db, i);
      forall t | t in d.tasks && d.tasks[t].issue == i
        ensures d.tasks[t].turn == Some(Rank(d, t))
      {
        NumberIssueKeepsRanks(db, i, t);
      }
    }
  }

  lemma NumberedEvolves(db: Db, d: Db, i: IssueId)
    requires Numbered(db, d, i)
    ensures Evolves(db, d) && !ActiveUnnumbered(d, i)
  {}

  lemma NumberedMatchesRanks(db: Db, d: Db, i: IssueId)
    requires Numbered(db, d, i)
    ensures TurnsMatchRanks(db, i)
    ensures forall t :: t in db.tasks ==> Rank(d, t) == Rank(db, t)
  {
    forall t | t in db.tasks ensures Rank(d, t) == Rank(db, t) {
      assert Earlier(d, t) == Earlier(db, t);
    }
  }

  lemma NumberedKeepsUnique(db: Db, d: Db, i: IssueId)
    requires TurnsUnique(db) && Numbered(db, d, i)
    requires forall t :: t in db.tasks && db.tasks[t].issue != i ==> d.tasks[t] == db.tasks[t]
    ensures TurnsUnique(d)
  {
    forall t, u | t in d.tasks && u in d.tasks && t != u && d.tasks[t].issue == d.tasks[u].issue
                  && d.tasks[t].turn.Some? && d.tasks[u].turn.Some?
      ensures d.tasks[t].turn != d.tasks[u].turn
    {
      if d.tasks[t].issue == i { RankDistinct(d, t, u); }
    }
  }

  /** The repair never puts a waiting task below one that already started. */
  lemma NumberedKeepsStartedFirst(db: Db, d: Db, i: IssueId)
    requires StartedFirst(db) && StartedRanked(db) && Numbered(db, d, i)
    requires forall t :: t in db.tasks && db.tasks[t].issue != i ==> d.tasks[t] == db.tasks[t]
    ensures StartedFirst(d)
  {
    hide StartedRanked;
    forall t, u | t in d.tasks && u in d.tasks && d.tasks[t].issue == d.tasks[u].issue
                  && d.tasks[t].startedAt.Some? && d.tasks[u].status.Waiting()
      ensures d.tasks[t].turn.Some?
              && (d.tasks[u].turn.Some? ==> d.tasks[t].turn.value < d.tasks[u].turn.value)
    {
      assert db.tasks[t].turn.Some?;
      if d.tasks[t].issue == i && db.tasks[u].turn.None? { NumberedAfterStarted(db, d, i, t, u); }
    }
  }

  lemma NumberedAfterStarted(db: Db, d: Db, i: IssueId, t: TaskId, u: TaskId)
    requires StartedRanked(db) && Numbered(db, d, i)
    requires t in db.tasks && u in db.tasks && db.tasks[t].issue == i && db.tasks[u].issue == i
    requires db.tasks[t].startedAt.Some? && db.tasks[t].turn.Some? && db.tasks[u].turn.None?
    ensures d.tasks[t].turn.Some? && d.tasks[u].turn.Some? && d.tasks[t].turn.value < d.tasks[u].turn.value
  {
    NumberedMatchesRanks(db, d, i);
    UnnumberedComesAfterStarted(db, t, u);
    hide StartedRanked, Rank, TurnsMatchRanks;
  }

  lemma NumberedKeepsRanked(db: Db, d: Db, i: IssueId)
    requires StartedRanked(db) && Numbered(db, d, i)
    ensures StartedRanked(d)
  {
    NumberedEvolves(db, d, i);
    forall t | t in d.tasks && d.tasks[t].startedAt.Some?
      ensures d.tasks[t].turn.Some? && d.tasks[t].turn.value <= |EarlierNumbered(d, t)| + 1
    {
      EarlierNumberedGrows(db, d, t);
    }
  }

  lemma IntegrityKeepsDbInv(db: Db, i: IssueId, lineageOk: bool)
    requires DbInv(db) && EnsureIntegrity(db, i, lineageOk).Some?
    ensures DbInv(EnsureIntegrity(db, i, lineageOk).value)
    ensures Evolves(db, EnsureIntegrity(db, i, lineageOk).value)
  {
    var d := EnsureIntegrity(db, i, lineageOk).value;
    IntegrityNumbersIssue(db, i, lineageOk);
    NumberedKeepsUnique(db, d, i);
    NumberedKeepsStartedFirst(db, d, i);
    NumberedKeepsRanked(db, d, i);
    NumberedEvolves(db, d, i);
  }

  // ----- Queue maintenance ------------------------------------------------------------------

  /** Being head depends on the active set alone, not on QUEUED versus PENDING. */
  lemma HeadIgnoresQueueing(db: Db, db': Db, t: TaskId)
    requires t in db.tasks && db'.tasks.Keys == db.tasks.Keys
    requires forall u :: u in db.tasks ==>
               db'.tasks[u].issue == db.tasks[u].issue && db'.tasks[u].turn == db.tasks[u].turn
               && (db'.tasks[u].status.Active() <==> db.tasks[u].status.Active())
    ensures LegalHead(db', t) <==> LegalHead(db, t)
  {
    assert ActiveUnnumbered(db', db.tasks[t].issue) <==> ActiveUnnumbered(db, db.tasks[t].issue);
    if db.tasks[t].turn.Some? {
      assert ActivePredecessor(db', t) <==> ActivePredecessor(db, t);
    }
  }

  lemma NormaliseLeavesLegalHeads(db: Db)
    ensures var d := NormaliseQueue(db);
            && Calm(db, d) && d.locks == db.locks
            && (forall t :: t in d.tasks && d.tasks[t].status.Queued? ==>
                              LegalHead(d, t) && db.tasks[t].status.Queued?)
            && (forall t :: t in d.tasks && db.tasks[t].status.Queued? && LegalHead(db, t) ==>
                              d.tasks[t] == db.tasks[t])
            && (forall t :: t in d.tasks && !db.tasks[t].status.Queued? ==>
                              d.tasks[t] == db.tasks[t])
  {
    var d := NormaliseQueue(db);
    forall t | t in d.tasks ensures LegalHead(d, t) <==> LegalHead(db, t) {
      HeadIgnoresQueueing(db, d, t);
    }
  }

  lemma NormaliseIdempotent(db: Db)
    ensures NormaliseQueue(NormaliseQueue(db)) == NormaliseQueue(db)
  {
    NormaliseLeavesLegalHeads(db);
    var d := NormaliseQueue(db);
    assert NormaliseQueue(d).tasks == d.tasks;
  }

  lemma PromoteIsCalm(db: Db, now: int, blocked: set<IssueId>,
                      executable: set<TaskId>, parked: set<TaskId>)
    ensures var d := PromoteHeads(db, now, blocked, executable, parked);
            Calm(db, d) && d.locks == db.locks
  {}

  /** The smallest-numbered active task of an Issue with no unnumbered active task. */
  ghost predicate SmallestActive(db: Db, t: TaskId) {
    && t in db.tasks && db.tasks[t].status.Active() && db.tasks[t].turn.Some?
    && forall u :: u in db.tasks && u != t && db.tasks[u].issue == db.tasks[t].issue
                   && db.tasks[u].status.Active()
                   ==> db.tasks[u].turn.Some? && db.tasks[t].turn.value < db.tasks[u].turn.value
  }

  lemma LegalHeadIsSmallest(db: Db, t: TaskId)
    requires TurnsUnique(db) && t in db.tasks && db.tasks[t].status.Active()
    ensures LegalHead(db, t) <==> SmallestActive(db, t)
  {}

  lemma MaintainedQueueIsLegal(db: Db, now: int, blocked: set<IssueId>,
                               executable: set<TaskId>, parked: set<TaskId>, t: TaskId)
    ensures var d := PromoteHeads(NormaliseQueue(db), now, blocked, executable, parked);
            t in d.tasks && d.tasks[t].status.Queued? ==> LegalHead(d, t)
  {
    var n := NormaliseQueue(db);
    NormaliseLeavesLegalHeads(db);
    if t in n.tasks {
      HeadIgnoresQueueing(n, PromoteHeads(n, now, blocked, executable, parked), t);
    }
  }

  /** After normalise then promote, the queue holds at most one head per Issue, and none
      beside a RUNNING task. */
  lemma QueueHoldsOnlyHeads(db: Db, now: int, blocked: set<IssueId>,
                            executable: set<TaskId>, parked: set<TaskId>)
    requires DbInv(db)
    ensures var d := PromoteHeads(NormaliseQueue(db), now, blocked, executable, parked);
            && (forall t :: t in d.tasks && d.tasks[t].status.Queued? ==> SmallestActive(d, t))
            && (forall t, u :: t in d.tasks && u in d.tasks && t != u
                               && d.tasks[t].issue == d.tasks[u].issue
                               && d.tasks[t].status.Queued?
                               ==> !d.tasks[u].status.Queued? && !d.tasks[u].status.Running?)
  {
    var d := PromoteHeads(NormaliseQueue(db), now, blocked, executable, parked);
    MaintainedQueueIsOrdered(db, now, blocked, executable, parked);
    hide NormaliseQueue, PromoteHeads, LegalHead, DbInv;
    forall t | t in d.tasks && d.tasks[t].status.Queued? ensures SmallestActive(d, t) {
      MaintainedQueueIsLegal(db, now, blocked, executable, parked, t);
      LegalHeadIsSmallest(d, t);
    }
  }

  lemma MaintainedQueueIsOrdered(db: Db, now: int, blocked: set<IssueId>,
                                 executable: set<TaskId>, parked: set<TaskId>)
    requires DbInv(db)
    ensures var d := PromoteHeads(NormaliseQueue(db), now, blocked, executable, parked);
            TurnsUnique(d) && StartedFirst(d) && StatusCoherent(d)
  {
    var n := NormaliseQueue(db);
    var d := PromoteHeads(n, now, blocked, executable, parked);
    NormaliseLeavesLegalHeads(db);
    PromoteIsCalm(n, now, blocked, executable, parked);
    assert StatusCoherent(d);
    hide NormaliseQueue, PromoteHeads, LegalHead, StartedRanked, Calm;
    CalmKeepsOrder(db, n);
    CalmKeepsOrder(n, d);
  }

  /** A queued smallest task stays queued, a due, unlocked, unblocked, executable pending one is
      queued, and any other queued task goes back to pending. */
  ghost function MaintainedStatus(db: Db, t: TaskId, now: int, blocked: set<IssueId>,
                                  executable: set<TaskId>, parked: set<TaskId>): Status
    requires t in db.tasks
  {
    if SmallestActive(db, t)
       && (db.tasks[t].status == Queued
           || (&& db.tasks[t].status == Pending
               && (db.tasks[t].notBefore.None? || db.tasks[t].notBefore.value <= now)
               && db.tasks[t].issue !in db.locks && db.tasks[t].issue !in blocked
               && t in executable && t !in parked))
    then Queued
    else if db.tasks[t].status == Queued then Pending
    else db.tasks[t].status
  }

  /** The queue after normalise then promote, row by row. */
  lemma MaintainedRow(db: Db, now: int, blocked: set<IssueId>,
                      executable: set<TaskId>, parked: set<TaskId>, t: TaskId)
    requires DbInv(db) && t in db.tasks
    ensures var d := PromoteHeads(NormaliseQueue(db), now, blocked, executable, parked);
      && t in d.tasks && (SmallestActive(d, t) <==> SmallestActive(db, t))
      && d.tasks[t] == db.tasks[t].(status := MaintainedStatus(db, t, now, blocked, executable, parked))
  {
    hide *;
    var n := NormaliseQueue(db);
    QueueIsCalm(db, now, blocked, executable, parked);
    SmallestIgnoresQueueing(db, PromoteHeads(n, now, blocked, executable, parked), t);
    HeadIsSmallestOfActive(db, t);
    HeadIgnoresQueueing(db, n, t);
    MaintainedByHead(db, now, blocked, executable, parked, t);
  }

  lemma HeadIsSmallestOfActive(db: Db, t: TaskId)
    requires DbInv(db) && t in db.tasks
    ensures SmallestActive(db, t) <==> db.tasks[t].status.Active() && LegalHead(db, t)
  {
    if db.tasks[t].status.Active() { LegalHeadIsSmallest(db, t); }
  }

  /** Neither update moves a task between Issues, renumbers it, or ends it. */
  lemma QueueIsCalm(db: Db, now: int, blocked: set<IssueId>, executable: set<TaskId>, parked: set<TaskId>)
    ensures var n := NormaliseQueue(db);
      var d := PromoteHeads(n, now, blocked, executable, parked);
      && n.tasks.Keys == db.tasks.Keys && d.tasks.Keys == db.tasks.Keys
      && (forall u :: u in db.tasks ==>
            && n.tasks[u].issue == db.tasks[u].issue && n.tasks[u].turn == db.tasks[u].turn
            && (n.tasks[u].status.Active() <==> db.tasks[u].status.Active()))
      && (forall u :: u in db.tasks ==>
            && d.tasks[u].issue == db.tasks[u].issue && d.tasks[u].turn == db.tasks[u].turn
            && (d.tasks[u].status.Active() <==> db.tasks[u].status.Active()))
  {
    hide LegalHead, Due;
  }

  lemma MaintainedByHead(db: Db, now: int, blocked: set<IssueId>,
                         executable: set<TaskId>, parked: set<TaskId>, t: TaskId)
    requires t in db.tasks && t in NormaliseQueue(db).tasks
    requires SmallestActive(db, t) <==> db.tasks[t].status.Active() && LegalHead(db, t)
    requires LegalHead(NormaliseQueue(db), t) <==> LegalHead(db, t)
    ensures var d := PromoteHeads(NormaliseQueue(db), now, blocked, executable, parked);
      && t in d.tasks
      && d.tasks[t] == db.tasks[t].(status := MaintainedStatus(db, t, now, blocked, executable, parked))
  {
    hide SmallestActive, LegalHead;
  }

  lemma SmallestIgnoresQueueing(db: Db, d: Db, t: TaskId)
    requires t in db.tasks && d.tasks.Keys == db.tasks.Keys
    requires forall u :: u in db.tasks ==>
               d.tasks[u].issue == db.tasks[u].issue && d.tasks[u].turn == db.tasks[u].turn
               && (d.tasks[u].status.Active() <==> db.tasks[u].status.Active())
    ensures SmallestActive(d, t) <==> SmallestActive(db, t)
  {}

  /** Promotion is complete: it queues exactly the due, unlocked, unblocked pending heads. */
  lemma PromoteExactly(db: Db, now: int, blocked: set<IssueId>,
                       executable: set<TaskId>, parked: set<TaskId>, t: TaskId)
    requires TurnsUnique(db) && t in db.tasks && db.tasks[t].status.Pending?
    ensures PromoteHeads(db, now, blocked, executable, parked).tasks[t].status.Queued?
            <==> SmallestActive(db, t)
                 && (db.tasks[t].notBefore.None? || db.tasks[t].notBefore.value <= now)
                 && db.tasks[t].issue !in db.locks && db.tasks[t].issue !in blocked
                 && t in executable && t !in parked
  {
    LegalHeadIsSmallest(db, t);
  }

  // ----- Pick -------------------------------------------------------------------------------

  /** The pick in the rows' own fields: smallest priority value; then a scheduled task before one
      without schedule; then the earliest schedule, creation and id. */
  lemma PickIsLeast(db: Db, blocked: set<IssueId>, executable: set<TaskId>, p: TaskId)
    ensures IsPick(db, blocked, executable, Some(p)) <==>
      && Pickable(db, p, blocked, executable)
      && forall u :: u in db.tasks && Pickable(db, u, blocked, executable) ==>
           var a, b := db.tasks[p], db.tasks[u];
           && a.priority <= b.priority
           && (a.priority == b.priority ==>
                 && (b.notBefore.Some? ==> a.notBefore.Some? && a.notBefore.value <= b.notBefore.value)
                 && (a.notBefore == b.notBefore ==>
                       && a.created <= b.created
                       && (a.created == b.created ==> p <= u)))
  {
    hide LegalHead;
  }

  /** A pickable task in the rows' own fields. */
  lemma PickableMeans(db: Db, t: TaskId, blocked: set<IssueId>, executable: set<TaskId>)
    requires TurnsUnique(db)
    ensures Pickable(db, t, blocked, executable) <==>
      && SmallestActive(db, t) && db.tasks[t].status == Queued
      && db.tasks[t].issue !in db.locks && db.tasks[t].issue !in blocked && t in executable
  {
    if t in db.tasks && db.tasks[t].status == Queued { LegalHeadIsSmallest(db, t); }
  }

  lemma BeforeIsStrictTotalOrder(a: Task, i: TaskId, b: Task, j: TaskId, c: Task, k: TaskId)
    ensures !Before(a, i, a, i)
    ensures i != j ==> (Before(a, i, b, j) <==> !Before(b, j, a, i))
    ensures Before(a, i, b, j) && Before(b, j, c, k) ==> Before(a, i, c, k)
  {}

  lemma PickIsUnique(db: Db, blocked: set<IssueId>, executable: set<TaskId>,
                     r: Option<TaskId>, s: Option<TaskId>)
    requires IsPick(db, blocked, executable, r) && IsPick(db, blocked, executable, s)
    ensures r == s
  {
    if r.Some? && s.Some? && r != s {
      BeforeIsStrictTotalOrder(db.tasks[r.value], r.value, db.tasks[s.value], s.value,
                               db.tasks[r.value], r.value);
    }
  }

  /** A due, runnable head of an open Issue is pickable after normalise and promote, so a pick
      happens and only a better head of another open Issue can go first, however many Issues in
      front are blocked or locked. */
  lemma OpenHeadIsServed(db: Db, now: int, blocked: set<IssueId>, executable: set<TaskId>,
                         parked: set<TaskId>, t: TaskId, r: Option<TaskId>)
    requires t in db.tasks && db.tasks[t].status.Waiting() && LegalHead(db, t)
    requires Due(db.tasks[t], now) && t in executable && t !in parked
    requires db.tasks[t].issue !in db.locks && db.tasks[t].issue !in blocked
    requires IsPick(PromoteHeads(NormaliseQueue(db), now, blocked, executable, parked), blocked, executable, r)
    ensures var d := PromoteHeads(NormaliseQueue(db), now, blocked, executable, parked);
      && Pickable(d, t, blocked, executable)
      && r.Some? && Pickable(d, r.value, blocked, executable)
      && (r.value == t || Before(d.tasks[r.value], r.value, d.tasks[t], t))
  {
    var n := NormaliseQueue(db);
    var d := PromoteHeads(n, now, blocked, executable, parked);
    hide LegalHead;
    assert n.tasks[t] == db.tasks[t];
    HeadIgnoresQueueing(db, n, t);
    HeadIgnoresQueueing(n, d, t);
  }

  // ----- Claim ------------------------------------------------------------------------------

  /** Whatever happened to the row since it was picked, a status other than QUEUED survives,
      and so does the whole table. */
  lemma ClaimRespectsCommittedStatus(db: Db, t: TaskId, now: int, env: ClaimEnv)
    requires t in db.tasks && !db.tasks[t].status.Queued?
    ensures ClaimTask(db, t, now, env) == (db, RolledBack)
  {
    IntegrityNumbersIssue(db, db.tasks[t].issue, env.lineageOk);
  }

  /** No active task of the Issue was created before t, or at the same time with a smaller id. */
  ghost predicate OldestActive(db: Db, t: TaskId)
    requires t in db.tasks
  {
    forall u :: u in db.tasks && u != t && db.tasks[u].issue == db.tasks[t].issue && db.tasks[u].status.Active() ==>
      !(db.tasks[u].created < db.tasks[t].created || (db.tasks[u].created == db.tasks[t].created && u < t))
  }

  /** Every numbered row of the Issue carries its place in (created_at, id) order. */
  ghost predicate NumbersArePlaces(db: Db, i: IssueId) {
    forall t :: t in db.tasks && db.tasks[t].issue == i && db.tasks[t].turn.Some? ==>
      db.tasks[t].turn.value
      == 1 + |set u | u in db.tasks && db.tasks[u].issue == i
                      && (db.tasks[u].created < db.tasks[t].created
                          || (db.tasks[u].created == db.tasks[t].created && u < t))|
  }

  /** The rank of a row is its place among the rows of its Issue. */
  lemma RankIsPlace(db: Db, t: TaskId)
    requires t in db.tasks
    ensures Rank(db, t)
            == 1 + |set u | u in db.tasks && db.tasks[u].issue == db.tasks[t].issue
                            && (db.tasks[u].created < db.tasks[t].created
                                || (db.tasks[u].created == db.tasks[t].created && u < t))|
  {
    assert Earlier(db, t) == set u | u in db.tasks && db.tasks[u].issue == db.tasks[t].issue
                                     && (db.tasks[u].created < db.tasks[t].created
                                         || (db.tasks[u].created == db.tasks[t].created && u < t));
  }

  lemma PlacesAreRanks(db: Db, i: IssueId)
    ensures NumbersArePlaces(db, i) <==> TurnsMatchRanks(db, i)
  {
    forall t | t in db.tasks && db.tasks[t].issue == i
      ensures Rank(db, t) == 1 + |set u | u in db.tasks && db.tasks[u].issue == i
                                          && (db.tasks[u].created < db.tasks[t].created
                                              || (db.tasks[u].created == db.tasks[t].created && u < t))|
    {
      RankIsPlace(db, t);
    }
  }

  /** Once numbers are ranks, an active predecessor is an older active task. */
  lemma PredecessorIsOlder(db: Db, m: Db, t: TaskId)
    requires t in db.tasks && Numbered(db, m, db.tasks[t].issue)
    ensures m.tasks[t].turn.Some?
    ensures ActivePredecessor(m, t) <==> !OldestActive(db, t)
  {
    hide Rank;
    var i := db.tasks[t].issue;
    assert m.tasks[t].turn.Some? by { NumberedMatchesRanks(db, m, i); }
    forall u | u in db.tasks && u != t && db.tasks[u].issue == i
      ensures m.tasks[u].turn.Some?
      ensures m.tasks[u].turn.value < m.tasks[t].turn.value
              <==> db.tasks[u].created < db.tasks[t].created || (db.tasks[u].created == db.tasks[t].created && u < t)
    {
      TurnIsPlace(db, m, u, t);
    }
  }

  lemma TurnIsPlace(db: Db, m: Db, u: TaskId, t: TaskId)
    requires u in db.tasks && t in db.tasks && u != t && db.tasks[u].issue == db.tasks[t].issue
    requires Numbered(db, m, db.tasks[t].issue)
    ensures u in m.tasks && t in m.tasks && m.tasks[u].turn.Some? && m.tasks[t].turn.Some?
    ensures m.tasks[u].turn.value < m.tasks[t].turn.value
            <==> db.tasks[u].created < db.tasks[t].created || (db.tasks[u].created == db.tasks[t].created && u < t)
  {
    hide Rank;
    NumberedMatchesRanks(db, m, db.tasks[t].issue);
    RankDistinct(db, u, t);
  }

  /** A task the transaction may decide on: the integrity check passes, it is QUEUED, due, and the
      oldest active task of its Issue. */
  ghost predicate Ripe(db: Db, t: TaskId, now: int, lineageOk: bool)
    requires t in db.tasks
  {
    && NumbersArePlaces(db, db.tasks[t].issue) && lineageOk
    && db.tasks[t].status == Queued
    && (db.tasks[t].notBefore.None? || db.tasks[t].notBefore.value <= now)
    && OldestActive(db, t)
  }

  /** The outcome of a claim, in terms of the rows it reads and the answers it gets. */
  lemma ClaimOutcomeIff(db: Db, t: TaskId, now: int, env: ClaimEnv)
    requires t in db.tasks
    ensures var (d, o) := ClaimTask(db, t, now, env);
      && (o == Claimed <==>
            && Ripe(db, t, now, env.lineageOk) && env.rejection.None? && !env.overLimit
            && db.tasks[t].issue !in db.locks && 60 <= env.timeout <= 28800 && env.commitOk)
      && (o == Refused <==> Ripe(db, t, now, env.lineageOk) && (env.rejection.Some? || env.overLimit))
      && (o == Demoted <==>
            && NumbersArePlaces(db, db.tasks[t].issue) && env.lineageOk && db.tasks[t].status == Queued
            && !((db.tasks[t].notBefore.None? || db.tasks[t].notBefore.value <= now) && OldestActive(db, t)))
      && (o == Refused ==> t in d.tasks
                           && d.tasks[t].status == (if env.rejection == Some(true) then Cancelled else Failed))
      && (o == Demoted ==> t in d.tasks && d.tasks[t].status == Pending)
      && (o == Claimed ==> t in d.tasks && d.tasks[t].status == Running)
      && (o == RolledBack ==> d == db)
  {
    hide *;
    var i := db.tasks[t].issue;
    var checked := EnsureIntegrity(db, i, env.lineageOk);
    IntegrityPassesIff(db, i, env.lineageOk);
    if checked.Some? {
      IntegrityNumbersIssue(db, i, env.lineageOk);
      NumberedRow(db, checked, t);
      PredecessorIsOlder(db, checked.value, t);
    }
    CheckedOutcome(db, checked, t, now, env);
  }

  lemma IntegrityPassesIff(db: Db, i: IssueId, lineageOk: bool)
    ensures EnsureIntegrity(db, i, lineageOk).Some? <==> NumbersArePlaces(db, i) && lineageOk
  {
    PlacesAreRanks(db, i);
    hide TurnsMatchRanks, NumbersArePlaces, NumberIssue;
  }

  lemma NumberedRow(db: Db, checked: Option<Db>, t: TaskId)
    requires t in db.tasks && checked.Some? && CheckedIssue(db, checked, db.tasks[t].issue)
    ensures var m := checked.value;
      && Numbered(db, m, db.tasks[t].issue) && m.locks == db.locks
      && t in m.tasks && m.tasks[t] == db.tasks[t].(turn := m.tasks[t].turn)
  {
    hide Rank;
  }

  lemma CheckedOutcome(db: Db, checked: Option<Db>, t: TaskId, now: int, env: ClaimEnv)
    requires t in db.tasks && checked == EnsureIntegrity(db, db.tasks[t].issue, env.lineageOk)
    requires checked.Some? <==> NumbersArePlaces(db, db.tasks[t].issue) && env.lineageOk
    requires checked.Some? ==>
      && checked.value.locks == db.locks && t in checked.value.tasks && checked.value.tasks[t].turn.Some?
      && checked.value.tasks[t] == db.tasks[t].(turn := checked.value.tasks[t].turn)
      && (ActivePredecessor(checked.value, t) <==> !OldestActive(db, t))
    ensures var (d, o) := ClaimTask(db, t, now, env);
      && (o == Claimed <==>
            && Ripe(db, t, now, env.lineageOk) && env.rejection.None? && !env.overLimit
            && db.tasks[t].issue !in db.locks && 60 <= env.timeout <= 28800 && env.commitOk)
      && (o == Refused <==> Ripe(db, t, now, env.lineageOk) && (env.rejection.Some? || env.overLimit))
      && (o == Demoted <==>
            && NumbersArePlaces(db, db.tasks[t].issue) && env.lineageOk && db.tasks[t].status == Queued
            && !((db.tasks[t].notBefore.None? || db.tasks[t].notBefore.value <= now) && OldestActive(db, t)))
      && (o == Refused ==> t in d.tasks
                           && d.tasks[t].status == (if env.rejection == Some(true) then Cancelled else Failed))
      && (o == Demoted ==> t in d.tasks && d.tasks[t].status == Pending)
      && (o == Claimed ==> t in d.tasks && d.tasks[t].status == Running)
      && (o == RolledBack ==> d == db)
  {
    hide EnsureIntegrity, NumbersArePlaces, ActivePredecessor, OldestActive;
  }

  /** RUNNING, lock, start time and timeout appear together, from a queued, due head whose
      smaller-numbered siblings have all ended. */
  lemma ClaimedMeans(db: Db, checked: Option<Db>, t: TaskId, now: int, env: ClaimEnv)
    requires t in db.tasks && CheckedIssue(db, checked, db.tasks[t].issue)
    requires ClaimChecked(db, checked, t, now, env).1 == Claimed
    ensures var d := ClaimChecked(db, checked, t, now, env).0;
      && db.tasks[t].status.Queued?
      && (db.tasks[t].notBefore.None? || db.tasks[t].notBefore.value <= now)
      && db.tasks[t].issue !in db.locks
      && d.locks == db.locks[db.tasks[t].issue := t]
      && d.tasks[t] == db.tasks[t].(status := Running, startedAt := Some(now),
                                    timeoutSeconds := Some(env.timeout), turn := d.tasks[t].turn)
      && TIMEOUT_MIN_SECONDS <= env.timeout <= TIMEOUT_MAX_SECONDS
      && d.tasks.Keys == db.tasks.Keys
      && (forall u :: u in d.tasks && u != t && d.tasks[u].issue == d.tasks[t].issue ==>
            && d.tasks[u].turn.Some? && d.tasks[t].turn.Some?
            && (d.tasks[u].turn.value < d.tasks[t].turn.value ==> d.tasks[u].status.Terminal()))
      && (forall u :: u in db.tasks && u != t ==>
            d.tasks[u] == db.tasks[u].(turn := d.tasks[u].turn))
  {
    var m := checked.value;
    assert forall u :: u in m.tasks && u != t ==>
      ClaimChecked(db, checked, t, now, env).0.tasks[u] == m.tasks[u];
  }

  /** Demoted or refused: no lock, and only this task's status moved; rolled back: nothing did. */
  lemma UnclaimedMeans(db: Db, checked: Option<Db>, t: TaskId, now: int, env: ClaimEnv)
    requires t in db.tasks && CheckedIssue(db, checked, db.tasks[t].issue)
    requires ClaimChecked(db, checked, t, now, env).1 != Claimed
    ensures var (d, o) := ClaimChecked(db, checked, t, now, env);
      && (o == RolledBack ==> d == db)
      && (o == Demoted ==> d.tasks.Keys == db.tasks.Keys && d.tasks[t].status.Pending?
                           && ((db.tasks[t].notBefore.Some? && db.tasks[t].notBefore.value > now)
                               || ActivePredecessor(checked.value, t)))
      && (o == Refused ==> d.tasks.Keys == db.tasks.Keys && (env.rejection.Some? || env.overLimit)
                           && d.tasks[t].status == if env.rejection == Some(true) then Cancelled else Failed)
      && (o != RolledBack ==>
            && db.tasks[t].status.Queued? && d.locks == db.locks
            && forall u :: u in db.tasks && u != t ==>
                 u in d.tasks && d.tasks[u] == db.tasks[u].(turn := d.tasks[u].turn))
  {
    hide ActivePredecessor, Rank;
  }

  lemma EvolvesRefl(db: Db)
    ensures Evolves(db, db)
  {}

  lemma EvolvesTrans(a: Db, b: Db, c: Db)
    requires Evolves(a, b) && Evolves(b, c)
    ensures Evolves(a, c)
  {}

  lemma ClaimKeepsDbInv(db: Db, t: TaskId, now: int, env: ClaimEnv)
    requires DbInv(db)
    ensures DbInv(ClaimTask(db, t, now, env).0)
    ensures Evolves(db, ClaimTask(db, t, now, env).0)
  {
    if t in db.tasks {
      var checked := EnsureIntegrity(db, db.tasks[t].issue, env.lineageOk);
      IntegrityNumbersIssue(db, db.tasks[t].issue, env.lineageOk);
      if checked.Some? {
        IntegrityKeepsDbInv(db, db.tasks[t].issue, env.lineageOk);
      }
      hide DbInv, Evolves, CheckedIssue, EnsureIntegrity, ClaimChecked;
      AnyClaimKeepsDbInv(db, checked, t, now, env);
    }
  }

  lemma AnyClaimKeepsDbInv(db: Db, checked: Option<Db>, t: TaskId, now: int, env: ClaimEnv)
    requires DbInv(db) && t in db.tasks && CheckedIssue(db, checked, db.tasks[t].issue)
    requires checked.Some? ==> DbInv(checked.value)
    ensures DbInv(ClaimChecked(db, checked, t, now, env).0)
    ensures Evolves(db, ClaimChecked(db, checked, t, now, env).0)
  {
    CheckedClaimEvolves(db, checked, t, now, env);
    hide DbInv, Evolves, CheckedIssue;
    var (d, o) := ClaimChecked(db, checked, t, now, env);
    if o != RolledBack {
      CheckedClaimKeepsDbInv(db, checked, t, now, env, d, o);
    }
  }

  lemma RowChangeEvolves(m: Db, t: TaskId, row: Task, locks: map<IssueId, TaskId>)
    requires t in m.tasks && m.tasks[t].status.Waiting() && m.tasks[t].startedAt.None?
    requires row.issue == m.tasks[t].issue && row.created == m.tasks[t].created
    requires row.turn == m.tasks[t].turn
    ensures Evolves(m, Db(m.tasks[t := row], locks))
  {}

  lemma CheckedClaimEvolves(db: Db, checked: Option<Db>, t: TaskId, now: int, env: ClaimEnv)
    requires StatusCoherent(db) && t in db.tasks && CheckedIssue(db, checked, db.tasks[t].issue)
    ensures Evolves(db, ClaimChecked(db, checked, t, now, env).0)
  {
    var (d, o) := ClaimChecked(db, checked, t, now, env);
    if o != RolledBack {
      var m := checked.value;
      NumberedEvolves(db, m, db.tasks[t].issue);
      hide Evolves, ActivePredecessor, Numbered;
      assert d.tasks == m.tasks[t := d.tasks[t]];
      RowChangeEvolves(m, t, d.tasks[t], d.locks);
      EvolvesTrans(db, m, d);
    }
  }

  lemma CheckedClaimKeepsDbInv(db: Db, checked: Option<Db>, t: TaskId, now: int, env: ClaimEnv,
                               d: Db, o: ClaimOutcome)
    requires o != RolledBack && (d, o) == ClaimChecked(db, checked, t, now, env)
    requires t in db.tasks && CheckedIssue(db, checked, db.tasks[t].issue)
    requires DbInv(checked.value)
    ensures DbInv(d)
  {
    hide DbInv, ActivePredecessor, Rank;
    var m := checked.value;
    if o == Claimed {
      assert d == StartTask(m, t, now, env.timeout);
      StartKeepsDbInv(m, t, now, env.timeout);
    } else {
      assert d == SetStatus(m, t, d.tasks[t].status);
      StatusChangeKeepsDbInv(m, t, d.tasks[t].status);
    }
  }

  lemma StatusChangeKeepsDbInv(db: Db, t: TaskId, s: Status)
    requires DbInv(db) && t in db.tasks && db.tasks[t].status.Waiting() && !s.Running?
    ensures DbInv(SetStatus(db, t, s)) && Evolves(db, SetStatus(db, t, s))
  {
    assert LockInv(SetStatus(db, t, s)) by { StatusChangeKeepsLocks(db, t, s); }
    hide StartedRanked, StartedFirst, TurnsUnique, LockInv;
    CalmKeepsOrder(db, SetStatus(db, t, s));
  }

  lemma StatusChangeKeepsLocks(db: Db, t: TaskId, s: Status)
    requires LockInv(db) && t in db.tasks && db.tasks[t].status.Waiting() && !s.Running?
    ensures LockInv(SetStatus(db, t, s))
  {}

  lemma StartKeepsRanked(m: Db, t: TaskId, now: int, timeout: int)
    requires StartedRanked(m) && t in m.tasks && m.tasks[t].startedAt.None?
    requires forall u :: u in m.tasks && m.tasks[u].issue == m.tasks[t].issue ==>
               m.tasks[u].turn == Some(Rank(m, u))
    ensures StartedRanked(StartTask(m, t, now, timeout))
  {
    var d := StartTask(m, t, now, timeout);
    forall u | u in d.tasks && d.tasks[u].startedAt.Some?
      ensures d.tasks[u].turn.Some? && d.tasks[u].turn.value <= |EarlierNumbered(d, u)| + 1
    {
      assert EarlierNumbered(m, u) == EarlierNumbered(d, u);
      if u == t { assert EarlierNumbered(m, t) == Earlier(m, t); }
    }
  }

  lemma StartKeepsStartedFirst(m: Db, t: TaskId, now: int, timeout: int)
    requires StatusCoherent(m) && StartedFirst(m) && TurnsUnique(m)
    requires t in m.tasks && m.tasks[t].status.Queued? && m.tasks[t].turn.Some?
    requires !ActivePredecessor(m, t)
    ensures StartedFirst(StartTask(m, t, now, timeout))
    ensures TurnsUnique(StartTask(m, t, now, timeout))
  {
    var d := StartTask(m, t, now, timeout);
    forall u | u in d.tasks && d.tasks[u].issue == d.tasks[t].issue
               && d.tasks[u].status.Waiting() && d.tasks[u].turn.Some?
      ensures d.tasks[t].turn.value < d.tasks[u].turn.value
    {
      assert m.tasks[u].status.Active() && u != t;
    }
  }

  /** The turn order alone keeps every sibling of a RUNNING task from being head. */
  lemma RunningSiblingPrecedes(db: Db, t: TaskId, u: TaskId)
    requires StatusCoherent(db) && StartedFirst(db)
    requires t in db.tasks && u in db.tasks && db.tasks[t].issue == db.tasks[u].issue
    requires db.tasks[t].status.Running? && db.tasks[u].status.Waiting()
    ensures db.tasks[u].turn.Some? ==> ActivePredecessor(db, u)
    ensures !LegalHead(db, u)
  {}

  lemma NoRunningSibling(m: Db, t: TaskId)
    requires StatusCoherent(m) && StartedFirst(m)
    requires t in m.tasks && m.tasks[t].status.Queued? && m.tasks[t].turn.Some? && !ActivePredecessor(m, t)
    ensures forall u :: u in m.tasks && m.tasks[u].issue == m.tasks[t].issue ==> !m.tasks[u].status.Running?
  {
    forall u | u in m.tasks && m.tasks[u].issue == m.tasks[t].issue ensures !m.tasks[u].status.Running? {
      if m.tasks[u].status.Running? { RunningSiblingPrecedes(m, u, t); }
    }
  }

  lemma StartKeepsLocks(m: Db, t: TaskId, now: int, timeout: int)
    requires LockInv(m) && t in m.tasks && m.tasks[t].status.Queued?
    requires forall u :: u in m.tasks && m.tasks[u].issue == m.tasks[t].issue ==> !m.tasks[u].status.Running?
    requires TIMEOUT_MIN_SECONDS <= timeout <= TIMEOUT_MAX_SECONDS
    requires m.tasks[t].issue !in m.locks
    ensures LockInv(StartTask(m, t, now, timeout))
    ensures Evolves(m, StartTask(m, t, now, timeout))
  {}

  /** Starting the smallest active, rank-numbered task keeps every durable invariant. */
  lemma StartKeepsDbInv(m: Db, t: TaskId, now: int, timeout: int)
    requires DbInv(m) && t in m.tasks && m.tasks[t].status.Queued?
    requires forall u :: u in m.tasks && m.tasks[u].issue == m.tasks[t].issue ==>
               m.tasks[u].turn == Some(Rank(m, u))
    requires !ActivePredecessor(m, t)
    requires TIMEOUT_MIN_SECONDS <= timeout <= TIMEOUT_MAX_SECONDS
    requires m.tasks[t].issue !in m.locks
    ensures DbInv(StartTask(m, t, now, timeout)) && Evolves(m, StartTask(m, t, now, timeout))
  {
    StartKeepsRanked(m, t, now, timeout);
    StartKeepsStartedFirst(m, t, now, timeout);
    NoRunningSibling(m, t);
    StartKeepsLocks(m, t, now, timeout);
  }
}
