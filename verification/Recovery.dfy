/**
 Startup recovery: what the reachable daemons say decides, for every RUNNING task, between a
 resume handle, a deferred coordinator and an end. Nothing is guessed.
 */
module Recovery {
  import opened Wrappers
  import opened SchedulerState
  import opened IssueOrder
  import opened SchedulerSteps
  import opened SchedulerProcess

  datatype ContainerState = Live | Exited | NotRunnable

  /** A listed container: the task its name encodes, and whether a requested stop works. */
  datatype Seen = Seen(task: Option<TaskId>, state: ContainerState, stops: bool)

  datatype Listing = Unreachable | NoConnection | Listed(containers: seq<Seen>)

  datatype Target = Target(daemon: nat, listing: Listing)

  /** A direct lookup by container ID on one daemon. */
  datatype Lookup = Absent | Inconclusive | Found(state: ContainerState, stops: bool)

  /** The two sets recovery builds, and the handles it created, in order. */
  datatype Sorting = Sorting(resumed: set<TaskId>, unavailable: set<TaskId>, spawned: seq<TaskId>)

  function WithHandles(handles: map<TaskId, Handle>, ts: set<TaskId>, kind: Handle)
    : map<TaskId, Handle>
  {
    map t | t in handles.Keys + ts :: if t in handles then handles[t] else kind
  }

  ghost predicate Distinct(ts: seq<TaskId>) {
    forall j, k :: 0 <= j < k < |ts| ==> ts[j] != ts[k]
  }

  /** The object tracks exactly the resumed tasks on top of what it had, and every handle made
      is for a task that had none. */
  ghost predicate Tracks(s: Mem, db: Db, mem: Mem, g: Sorting) {
    && s.retained == mem.retained
    && s.handles == WithHandles(mem.handles, g.resumed, Resume)
    && s.runningTasks == mem.runningTasks + g.resumed
    && s.runningIssues == mem.runningIssues + IssuesOf(db, g.resumed)
    && (forall t :: t in g.spawned <==> t in g.resumed && t !in mem.handles)
    && Distinct(g.spawned)
  }

  /** The tasks loaded as RUNNING and not remediated: all that are RUNNING, and some that ended
      while the daemons were scanned. */
  predicate StuckSet(db: Db, stuck: set<TaskId>) {
    RunningTasks(db) <= stuck && forall t :: t in stuck ==> t in db.tasks && !db.tasks[t].status.Waiting()
  }

  ghost predicate SortingOf(stuck: set<TaskId>, mem: Mem, g: Sorting) {
    && g.resumed <= stuck && g.unavailable <= stuck
    && forall t :: t in stuck && t in mem.handles ==> t in g.resumed
  }

  /** Creates the one resume handle of a task that has none. */
  method ResumeTask(s: Scheduler, t: TaskId, g: Sorting, ghost mem: Mem) returns (g': Sorting)
    requires t in s.tasks && t !in g.resumed && t !in mem.handles
    requires Tracks(s.Memory(), s.Tables(), mem, g)
    modifies s`runningTasks, s`runningIssues, s`handles
    ensures g' == g.(resumed := g.resumed + {t}, spawned := g.spawned + [t])
    ensures s.Tables() == old(s.Tables()) && Tracks(s.Memory(), s.Tables(), mem, g')
  {
    hide Tracks;
    TracksOneMore(s.Memory(), s.Tables(), mem, g, t);
    s.runningTasks := s.runningTasks + {t};
    s.runningIssues := s.runningIssues + {s.tasks[t].issue};
    s.handles := s.handles[t := Resume];
    g' := g.(resumed := g.resumed + {t}, spawned := g.spawned + [t]);
  }

  lemma TracksOneMore(m: Mem, db: Db, mem: Mem, g: Sorting, t: TaskId)
    requires t in db.tasks && t !in g.resumed && t !in mem.handles && Tracks(m, db, mem, g)
    ensures Tracks(Mem(m.runningTasks + {t}, m.runningIssues + {db.tasks[t].issue}, m.retained,
                       m.handles[t := Resume]),
                   db, mem, g.(resumed := g.resumed + {t}, spawned := g.spawned + [t]))
  {
    assert IssuesOf(db, g.resumed + {t}) == IssuesOf(db, g.resumed) + {db.tasks[t].issue};
    assert Distinct(g.spawned + [t]);
  }

  lemma TracksIgnoresDeferral(m: Mem, db: Db, mem: Mem, g: Sorting, unavailable: set<TaskId>)
    requires Tracks(m, db, mem, g)
    ensures Tracks(m, db, mem, g.(unavailable := unavailable))
  {}

  // ----- What the daemons say about a task --------------------------------------------------

  /** A container that can be monitored again; a cancelled live one must first have been stopped. */
  predicate Monitorable(state: ContainerState, stops: bool, cancelled: bool) {
    !state.NotRunnable? && (cancelled && state.Live? ==> stops)
  }

  predicate NamedIn(seen: seq<Seen>, t: TaskId) {
    exists j :: 0 <= j < |seen| && seen[j].task == Some(t)
  }

  predicate FoundIn(seen: seq<Seen>, t: TaskId, cancelled: bool) {
    exists j :: 0 <= j < |seen| && seen[j].task == Some(t)
                && Monitorable(seen[j].state, seen[j].stops, cancelled)
  }

  lemma NamedSnoc(seen: seq<Seen>, c: Seen, t: TaskId, cancelled: bool)
    ensures NamedIn(seen + [c], t) <==> NamedIn(seen, t) || c.task == Some(t)
    ensures FoundIn(seen + [c], t, cancelled)
            <==> FoundIn(seen, t, cancelled)
                 || (c.task == Some(t) && Monitorable(c.state, c.stops, cancelled))
  {
    var more := seen + [c];
    assert more[|seen|] == c;
    if NamedIn(seen, t) {
      var j :| 0 <= j < |seen| && seen[j].task == Some(t);
      assert more[j] == seen[j];
    }
    if FoundIn(seen, t, cancelled) {
      var j :| 0 <= j < |seen| && seen[j].task == Some(t)
               && Monitorable(seen[j].state, seen[j].stops, cancelled);
      assert more[j] == seen[j];
    }
  }

  /** Exactly what listings and unreachable daemons make of each task, whatever the order. */
  ghost predicate ScanExact(db: Db, stuck: set<TaskId>, live: set<TaskId>, seen: seq<Seen>, down: set<nat>,
                            g: Sorting)
  {
    forall t :: t in stuck && t in db.tasks ==>
      var a := db.tasks[t];
      && (t in g.resumed <==> t in live || FoundIn(seen, t, a.cancelRequested))
      && (t in g.unavailable ==> NamedIn(seen, t) || a.daemon in down)
      && (t !in g.resumed && (NamedIn(seen, t) || a.daemon in down) ==> t in g.unavailable)
  }

  /** One container of a reachable daemon. */
  method ScanContainer(s: Scheduler, c: Seen, stuck: set<TaskId>, g: Sorting, ghost mem: Mem,
                       ghost live: set<TaskId>, ghost seen: seq<Seen>, ghost down: set<nat>)
    returns (g': Sorting)
    requires StuckSet(s.Tables(), stuck) && SortingOf(stuck, mem, g)
    requires Tracks(s.Memory(), s.Tables(), mem, g) && ScanExact(s.Tables(), stuck, live, seen, down, g)
    modifies s`runningTasks, s`runningIssues, s`handles
    ensures s.Tables() == old(s.Tables())
    ensures SortingOf(stuck, mem, g') && Tracks(s.Memory(), s.Tables(), mem, g')
    ensures ScanExact(s.Tables(), stuck, live, seen + [c], down, g')
  {
    hide Tracks, FoundIn, NamedIn;
    g' := g;
    ghost var db := s.Tables();
    forall t | t in stuck && t in db.tasks
      ensures NamedIn(seen + [c], t) <==> NamedIn(seen, t) || c.task == Some(t)
      ensures FoundIn(seen + [c], t, db.tasks[t].cancelRequested)
              <==> FoundIn(seen, t, db.tasks[t].cancelRequested)
                   || (c.task == Some(t) && Monitorable(c.state, c.stops, db.tasks[t].cancelRequested))
    {
      NamedSnoc(seen, c, t, db.tasks[t].cancelRequested);
    }
    if c.task.Some? && c.task.value !in g.resumed && c.task.value in stuck {
      var t := c.task.value;
      if c.state.NotRunnable? || (s.tasks[t].cancelRequested && c.state.Live? && !c.stops) {
        TracksIgnoresDeferral(s.Memory(), db, mem, g, g.unavailable + {t});
        g' := g.(unavailable := g.unavailable + {t});
      } else {
        g' := ResumeTask(s, t, g, mem);
      }
    }
  }

  /** The containers of one daemon, and whether it could not be reached. */
  function ListedOn(target: Target): seq<Seen> {
    if target.listing.Listed? then target.listing.containers else []
  }

  function DownOn(target: Target): set<nat> {
    if target.listing.Unreachable? then {target.daemon} else {}
  }

  /** One daemon: an unreachable one defers its own RUNNING tasks. */
  method ScanTarget(s: Scheduler, target: Target, stuck: set<TaskId>, g: Sorting, ghost mem: Mem,
                    ghost live: set<TaskId>, ghost seen: seq<Seen>, ghost down: set<nat>)
    returns (g': Sorting)
    requires StuckSet(s.Tables(), stuck) && SortingOf(stuck, mem, g)
    requires Tracks(s.Memory(), s.Tables(), mem, g) && ScanExact(s.Tables(), stuck, live, seen, down, g)
    modifies s`runningTasks, s`runningIssues, s`handles
    ensures s.Tables() == old(s.Tables())
    ensures SortingOf(stuck, mem, g') && Tracks(s.Memory(), s.Tables(), mem, g')
    ensures ScanExact(s.Tables(), stuck, live, seen + ListedOn(target), down + DownOn(target), g')
  {
    hide Tracks, SortingOf, ScanExact;
    if target.listing.Unreachable? {
      var own := set t | t in stuck && s.tasks[t].daemon == target.daemon;
      TracksIgnoresDeferral(s.Memory(), s.Tables(), mem, g, g.unavailable + own);
      DownDefers(s.Tables(), mem, stuck, live, seen, down, target.daemon, g, own);
      assert seen + ListedOn(target) == seen;
      return g.(unavailable := g.unavailable + own);
    }
    hide StuckSet;
    g' := g;
    assert down + DownOn(target) == down;
    if target.listing.Listed? {
      var cs := target.listing.containers;
      assert seen + cs[..0] == seen;
      for k := 0 to |cs|
        invariant s.Tables() == old(s.Tables())
        invariant SortingOf(stuck, mem, g') && Tracks(s.Memory(), s.Tables(), mem, g')
        invariant ScanExact(s.Tables(), stuck, live, seen + cs[..k], down, g')
      {
        assert (seen + cs[..k]) + [cs[k]] == seen + cs[..k + 1];
        g' := ScanContainer(s, cs[k], stuck, g', mem, live, seen + cs[..k], down);
      }
      assert cs[..|cs|] == cs;
    } else {
      assert seen + ListedOn(target) == seen;
    }
  }

  lemma DownDefers(db: Db, mem: Mem, stuck: set<TaskId>, live: set<TaskId>, seen: seq<Seen>, down: set<nat>,
                   daemon: nat, g: Sorting, own: set<TaskId>)
    requires SortingOf(stuck, mem, g) && ScanExact(db, stuck, live, seen, down, g)
    requires forall t :: t in stuck ==> t in db.tasks
    requires own == set t | t in stuck && db.tasks[t].daemon == daemon
    ensures SortingOf(stuck, mem, g.(unavailable := g.unavailable + own))
    ensures ScanExact(db, stuck, live, seen, down + {daemon}, g.(unavailable := g.unavailable + own))
  {
    hide NamedIn, FoundIn;
  }

  /** All listed containers, and all unreachable daemons. */
  function ListedBy(targets: seq<Target>): seq<Seen> {
    if targets == [] then [] else ListedBy(targets[..|targets| - 1]) + ListedOn(targets[|targets| - 1])
  }

  function DownIn(targets: seq<Target>): set<nat> {
    if targets == [] then {} else DownIn(targets[..|targets| - 1]) + DownOn(targets[|targets| - 1])
  }

  lemma ListedSnoc(targets: seq<Target>, n: nat)
    requires n < |targets|
    ensures ListedBy(targets[..n + 1]) == ListedBy(targets[..n]) + ListedOn(targets[n])
    ensures DownIn(targets[..n + 1]) == DownIn(targets[..n]) + DownOn(targets[n])
  {
    assert targets[..n + 1][..n] == targets[..n];
  }

  /** Some target lists container c. */
  predicate ListsIt(targets: seq<Target>, c: Seen) {
    exists k, j :: 0 <= k < |targets| && targets[k].listing.Listed?
                   && 0 <= j < |targets[k].listing.containers| && targets[k].listing.containers[j] == c
  }

  predicate IsDown(targets: seq<Target>, daemon: nat) {
    exists k :: 0 <= k < |targets| && targets[k].listing.Unreachable? && targets[k].daemon == daemon
  }

  lemma {:induction false} ListedMeans(targets: seq<Target>, c: Seen, daemon: nat)
    ensures c in ListedBy(targets) <==> ListsIt(targets, c)
    ensures daemon in DownIn(targets) <==> IsDown(targets, daemon)
  {
    if targets != [] {
      var n := |targets| - 1;
      ListedMeans(targets[..n], c, daemon);
      ListsSnoc(targets, c, daemon);
    }
  }

  lemma ListsSnoc(targets: seq<Target>, c: Seen, daemon: nat)
    requires targets != []
    ensures var n := |targets| - 1;
      && (ListsIt(targets, c) <==> ListsIt(targets[..n], c) || c in ListedOn(targets[n]))
      && (IsDown(targets, daemon) <==> IsDown(targets[..n], daemon) || daemon in DownOn(targets[n]))
  {
    var n := |targets| - 1;
    if ListsIt(targets[..n], c) {
      var k, j :| 0 <= k < n && targets[..n][k].listing.Listed?
                  && 0 <= j < |targets[..n][k].listing.containers| && targets[..n][k].listing.containers[j] == c;
      assert targets[k] == targets[..n][k];
    }
    if ListsIt(targets, c) {
      var k, j :| 0 <= k < |targets| && targets[k].listing.Listed?
                  && 0 <= j < |targets[k].listing.containers| && targets[k].listing.containers[j] == c;
      if k < n { assert targets[..n][k] == targets[k]; }
    }
    if IsDown(targets[..n], daemon) {
      var k :| 0 <= k < n && targets[..n][k].listing.Unreachable? && targets[..n][k].daemon == daemon;
      assert targets[k] == targets[..n][k];
    }
    if IsDown(targets, daemon) {
      var k :| 0 <= k < |targets| && targets[k].listing.Unreachable? && targets[k].daemon == daemon;
      if k < n { assert targets[..n][k] == targets[k]; }
    }
  }

  predicate Answered(targets: seq<Target>, daemon: nat) {
    exists k :: 0 <= k < |targets| && targets[k].daemon == daemon && targets[k].listing.Listed?
  }

  lemma NoneAnswered(targets: seq<Target>, db: Db, stuck: set<TaskId>)
    requires StuckSet(db, stuck)
    ensures forall d :: !Answered(targets[..0], d)
    ensures forall t :: t in stuck ==> t in db.tasks
    ensures ListedBy(targets[..0]) == [] && DownIn(targets[..0]) == {}
  {}

  lemma AnsweredSnoc(targets: seq<Target>, n: nat)
    requires n < |targets|
    ensures forall d :: Answered(targets[..n + 1], d) <==>
              Answered(targets[..n], d)
              || (targets[n].daemon == d && targets[n].listing.Listed?)
  {
    assert targets[..n + 1] == targets[..n] + [targets[n]];
    forall d | Answered(targets[..n], d) ensures Answered(targets[..n + 1], d) {
      var k :| 0 <= k < n && targets[..n][k].daemon == d && targets[..n][k].listing.Listed?;
      assert targets[..n + 1][k] == targets[..n][k];
    }
    assert targets[..n + 1][n] == targets[n];
  }

  method ScanTargets(s: Scheduler, targets: seq<Target>, stuck: set<TaskId>, g: Sorting,
                     ghost mem: Mem, ghost live: set<TaskId>)
    returns (g': Sorting, reached: set<nat>)
    requires StuckSet(s.Tables(), stuck) && SortingOf(stuck, mem, g)
    requires Tracks(s.Memory(), s.Tables(), mem, g) && ScanExact(s.Tables(), stuck, live, [], {}, g)
    modifies s`runningTasks, s`runningIssues, s`handles
    ensures s.Tables() == old(s.Tables())
    ensures SortingOf(stuck, mem, g') && Tracks(s.Memory(), s.Tables(), mem, g')
    ensures forall d :: d in reached <==> Answered(targets, d)
    ensures ScanExact(s.Tables(), stuck, live, ListedBy(targets), DownIn(targets), g')
  {
    hide *;
    g', reached := g, {};
    ghost var db := s.Tables();
    NoneAnswered(targets, db, stuck);
    for n := 0 to |targets|
      invariant s.Tables() == db
      invariant SortingOf(stuck, mem, g') && Tracks(s.Memory(), db, mem, g')
      invariant forall d :: d in reached <==> Answered(targets[..n], d)
      invariant ScanExact(db, stuck, live, ListedBy(targets[..n]), DownIn(targets[..n]), g')
    {
      ListedSnoc(targets, n);
      g' := ScanTarget(s, targets[n], stuck, g', mem, live, ListedBy(targets[..n]), DownIn(targets[..n]));
      if targets[n].listing.Listed? {
        reached := reached + {targets[n].daemon};
      }
      AnsweredSnoc(targets, n);
    }
    assert targets[..|targets|] == targets;
  }

  /** The answer to a lookup by recorded ID; a daemon that did not answer the listing gives none. */
  function Asked(db: Db, t: TaskId, reached: set<nat>, inspect: (nat, nat) -> Lookup): Lookup
    requires t in db.tasks && db.tasks[t].container.Some?
  {
    if db.tasks[t].daemon in reached then inspect(db.tasks[t].daemon, db.tasks[t].container.value) else Inconclusive
  }

  /** What the lookup by ID makes of a task that the scan left open. */
  ghost predicate InspectedRight(db: Db, t: TaskId, reached: set<nat>, inspect: (nat, nat) -> Lookup,
                                 g: Sorting, g': Sorting)
    requires t in db.tasks
  {
    var open := t !in g.resumed && t !in g.unavailable && db.tasks[t].container.Some?;
    && (t in g'.resumed <==>
          t in g.resumed
          || (open && var x := Asked(db, t, reached, inspect);
              x.Found? && Monitorable(x.state, x.stops, db.tasks[t].cancelRequested)))
    && (t in g'.unavailable <==>
          t in g.unavailable
          || (open && var x := Asked(db, t, reached, inspect);
              x.Inconclusive? || (x.Found? && !Monitorable(x.state, x.stops, db.tasks[t].cancelRequested))))
  }

  /** Second chance by immutable container ID, independent of container names. */
  method InspectById(s: Scheduler, stuck: set<TaskId>, reached: set<nat>,
                     inspect: (nat, nat) -> Lookup, g: Sorting, ghost mem: Mem)
    returns (g': Sorting)
    requires StuckSet(s.Tables(), stuck) && SortingOf(stuck, mem, g)
    requires Tracks(s.Memory(), s.Tables(), mem, g)
    modifies s`runningTasks, s`runningIssues, s`handles
    ensures s.Tables() == old(s.Tables())
    ensures SortingOf(stuck, mem, g') && Tracks(s.Memory(), s.Tables(), mem, g')
    ensures forall t :: t in stuck && t in s.tasks ==> InspectedRight(s.Tables(), t, reached, inspect, g, g')
  {
    hide Tracks;
    g' := g;
    var rest := stuck;
    ghost var db := s.Tables();
    while rest != {}
      invariant rest <= stuck && s.Tables() == db
      invariant SortingOf(stuck, mem, g') && Tracks(s.Memory(), db, mem, g')
      invariant forall t :: t in stuck - rest && t in db.tasks ==> InspectedRight(db, t, reached, inspect, g, g')
      invariant forall t :: t in rest ==>
                  (t in g'.resumed <==> t in g.resumed) && (t in g'.unavailable <==> t in g.unavailable)
      decreases rest
    {
      var t :| t in rest;
      rest := rest - {t};
      if t !in g'.resumed && t !in g'.unavailable && s.tasks[t].container.Some? {
        var answer := if s.tasks[t].daemon in reached
                      then inspect(s.tasks[t].daemon, s.tasks[t].container.value)
                      else Inconclusive;
        var stopFails :=
          answer.Found? && answer.state.Live? && s.tasks[t].cancelRequested && !answer.stops;
        if answer.Inconclusive? || (answer.Found? && answer.state.NotRunnable?) || stopFails {
          TracksIgnoresDeferral(s.Memory(), db, mem, g', g'.unavailable + {t});
          g' := g'.(unavailable := g'.unavailable + {t});
        } else if answer.Found? {
          g' := ResumeTask(s, t, g', mem);
        }
      }
    }
  }

  lemma EndOneMore(db: Db, gone: set<TaskId>, t: TaskId)
    requires LocksSound(db) && t in db.tasks && t !in gone
    ensures EndAll(db, gone + {t}) == EndAbsent(EndAll(db, gone), t)
  {
    var a, b := EndAll(db, gone + {t}), EndAbsent(EndAll(db, gone), t);
    assert a.tasks == b.tasks;
    assert a.locks == b.locks;
  }

  lemma EndNone(db: Db)
    ensures EndAll(db, {}) == db
  {
    assert EndAll(db, {}).tasks == db.tasks && EndAll(db, {}).locks == db.locks;
  }

  /** What tracking adds once the deferred tasks have their coordinators. */
  ghost predicate Settled(s: Mem, db: Db, mem: Mem, g: Sorting, deferred: set<TaskId>,
                          spawned: seq<TaskId>)
  {
    && s.retained == mem.retained
    && s.handles == WithHandles(WithHandles(mem.handles, g.resumed, Resume), deferred, Coordinator)
    && s.runningTasks == mem.runningTasks + g.resumed + deferred
    && s.runningIssues == mem.runningIssues + IssuesOf(db, g.resumed + deferred)
    && (forall t :: t in spawned <==> t in g.resumed + deferred && t !in mem.handles)
    && Distinct(spawned)
  }

  /** Gives a task its coordinator; it had no handle. */
  method DeferTask(s: Scheduler, t: TaskId, spawned: seq<TaskId>, ghost db: Db, ghost mem: Mem,
                   ghost g: Sorting, ghost deferred: set<TaskId>)
    returns (spawned': seq<TaskId>)
    requires t in db.tasks && t in s.tasks && s.tasks[t].issue == db.tasks[t].issue
    requires t !in g.resumed && t !in mem.handles && t !in deferred
    requires Settled(s.Memory(), db, mem, g, deferred, spawned)
    modifies s`runningTasks, s`runningIssues, s`handles
    ensures Settled(s.Memory(), db, mem, g, deferred + {t}, spawned')
  {
    hide Settled;
    SettledOneMore(s.Memory(), db, mem, g, deferred, spawned, t);
    s.runningTasks := s.runningTasks + {t};
    s.runningIssues := s.runningIssues + {s.tasks[t].issue};
    s.handles := s.handles[t := Coordinator];
    spawned' := spawned + [t];
  }

  lemma SettledOneMore(m: Mem, db: Db, mem: Mem, g: Sorting, deferred: set<TaskId>, spawned: seq<TaskId>, t: TaskId)
    requires t in db.tasks && t !in g.resumed && t !in mem.handles && t !in deferred
    requires Settled(m, db, mem, g, deferred, spawned)
    ensures Settled(Mem(m.runningTasks + {t}, m.runningIssues + {db.tasks[t].issue}, m.retained,
                        m.handles[t := Coordinator]),
                    db, mem, g, deferred + {t}, spawned + [t])
  {
    assert IssuesOf(db, g.resumed + (deferred + {t}))
           == IssuesOf(db, g.resumed + deferred) + {db.tasks[t].issue};
    assert Distinct(spawned + [t]);
  }

  lemma TracksSettled(s: Mem, db: Db, mem: Mem, g: Sorting)
    requires Tracks(s, db, mem, g)
    ensures Settled(s, db, mem, g, {}, g.spawned)
  {
    assert g.resumed + {} == g.resumed;
    assert WithHandles(s.handles, {}, Coordinator) == s.handles;
  }

  method EndTask(s: Scheduler, t: TaskId)
    requires t in s.tasks
    modifies s`tasks, s`locks
    ensures s.Tables() == EndAbsent(old(s.Tables()), t)
  {
    s.tasks := s.tasks[t := s.tasks[t].(status := Ended(s.tasks[t]), container := None,
                                        logsFinalized := true)];
    var released := s.ReleaseIssueLock(s.tasks[t].issue, t);
  }

  function GoneOf(done: set<TaskId>, g: Sorting): set<TaskId> {
    done - g.resumed - g.unavailable
  }

  function DeferredOf(done: set<TaskId>, g: Sorting): set<TaskId> {
    done * (g.unavailable - g.resumed)
  }

  /** Decides one RUNNING task: resumed is left alone, unavailable deferred, the rest end. */
  method SettleOne(s: Scheduler, t: TaskId, g: Sorting, spawned: seq<TaskId>,
                   ghost db: Db, ghost mem: Mem, ghost done: set<TaskId>)
    returns (spawned': seq<TaskId>)
    requires LocksSound(db) && t in db.tasks && t !in done
    requires t !in g.resumed ==> t !in mem.handles
    requires s.Tables() == EndAll(db, GoneOf(done, g))
    requires Settled(s.Memory(), db, mem, g, DeferredOf(done, g), spawned)
    modifies s
    ensures s.Tables() == EndAll(db, GoneOf(done + {t}, g))
    ensures Settled(s.Memory(), db, mem, g, DeferredOf(done + {t}, g), spawned')
  {
    hide Settled, LocksSound, EndAbsent;
    ghost var gone := GoneOf(done, g);
    EndFrames(db, gone);
    spawned' := spawned;
    if t in g.resumed {
      assert GoneOf(done + {t}, g) == gone && DeferredOf(done + {t}, g) == DeferredOf(done, g);
    } else if t in g.unavailable {
      assert GoneOf(done + {t}, g) == gone;
      assert DeferredOf(done + {t}, g) == DeferredOf(done, g) + {t};
      spawned' := DeferTask(s, t, spawned, db, mem, g, DeferredOf(done, g));
    } else {
      assert GoneOf(done + {t}, g) == gone + {t};
      assert DeferredOf(done + {t}, g) == DeferredOf(done, g);
      EndOneMore(db, gone, t);
      EndTask(s, t);
    }
  }

  lemma SettleStarts(now: Mem, db: Db, mem: Mem, stuck: set<TaskId>, g: Sorting)
    requires StuckSet(db, stuck) && SortingOf(stuck, mem, g) && Tracks(now, db, mem, g)
    ensures EndAll(db, GoneOf({}, g)) == db
    ensures Settled(now, db, mem, g, DeferredOf({}, g), g.spawned)
    ensures forall t :: t in stuck ==> t in db.tasks
    ensures forall t :: t in stuck && t !in g.resumed ==> t !in mem.handles
  {
    EndNone(db);
    TracksSettled(now, db, mem, g);
    assert GoneOf({}, g) == {} && DeferredOf({}, g) == {};
  }

  method SettleRunning(s: Scheduler, stuck: set<TaskId>, g: Sorting, ghost mem: Mem)
    returns (spawned: seq<TaskId>)
    requires LocksSound(s.Tables()) && StuckSet(s.Tables(), stuck) && SortingOf(stuck, mem, g)
    requires Tracks(s.Memory(), s.Tables(), mem, g)
    modifies s
    ensures s.Tables() == EndAll(old(s.Tables()), GoneOf(stuck, g))
    ensures Settled(s.Memory(), old(s.Tables()), mem, g, DeferredOf(stuck, g), spawned)
  {
    hide *;
    ghost var db := s.Tables();
    spawned := g.spawned;
    var rest := stuck;
    ghost var done := {};
    SettleStarts(s.Memory(), db, mem, stuck, g);
    while rest != {}
      invariant done == stuck - rest && rest <= stuck
      invariant s.Tables() == EndAll(db, GoneOf(done, g))
      invariant Settled(s.Memory(), db, mem, g, DeferredOf(done, g), spawned)
      decreases rest
    {
      var t :| t in rest;
      rest := rest - {t};
      spawned := SettleOne(s, t, g, spawned, db, mem, done);
      done := done + {t};
    }
    assert done == stuck;
  }

  lemma EndFrames(db: Db, gone: set<TaskId>)
    ensures forall t :: t in db.tasks && t !in gone ==>
              t in EndAll(db, gone).tasks && EndAll(db, gone).tasks[t] == db.tasks[t]
  {}

  function PlanOf(g: Sorting, stale: set<TaskId>): Plan {
    Plan({}, {}, stale, g.resumed, g.unavailable - g.resumed)
  }

  /** The sets recovery built are the plan of the transition system. */
  lemma SortingIsPlan(db: Db, mem: Mem, stuck: set<TaskId>, stale: set<TaskId>, g: Sorting, now: Mem,
                      spawned: seq<TaskId>)
    requires StuckSet(db, stuck) && SortingOf(stuck, mem, g) && stuck == Stuck(db, PlanOf(g, stale))
    requires Settled(now, db, mem, g, DeferredOf(stuck, g), spawned)
    ensures AbsentTasks(db, mem, PlanOf(g, stale)) == GoneOf(stuck, g)
    ensures now == Adopt(db, mem, PlanOf(g, stale))
  {
    hide Stuck, StuckSet;
    var plan := PlanOf(g, stale);
    var d := DeferredOf(stuck, g);
    assert OwnedTasks(db, mem, plan) == g.resumed + d;
    assert now.handles == Adopt(db, mem, plan).handles;
    assert now.runningTasks == mem.runningTasks + (g.resumed + d);
  }

  /** Live handles found at the start count as resumed. */
  lemma TracksLiveHandles(db: Db, mem: Mem, live: set<TaskId>)
    requires live <= mem.handles.Keys
    ensures Tracks(mem.(runningTasks := mem.runningTasks + live,
                        runningIssues := mem.runningIssues + IssuesOf(db, live)),
                   db, mem, Sorting(live, {}, []))
  {
    assert WithHandles(mem.handles, live, Resume) == mem.handles;
  }

  lemma SortingStarts(db: Db, mem: Mem, stale: set<TaskId>, stuck: set<TaskId>, live: set<TaskId>)
    requires stuck == Stuck(db, Plan({}, {}, stale, {}, {})) && live == stuck * mem.handles.Keys
    ensures StuckSet(db, stuck) && SortingOf(stuck, mem, Sorting(live, {}, []))
    ensures Tracks(mem.(runningTasks := mem.runningTasks + live,
                        runningIssues := mem.runningIssues + IssuesOf(db, live)),
                   db, mem, Sorting(live, {}, []))
    ensures ScanExact(db, stuck, live, [], {}, Sorting(live, {}, []))
    ensures forall t :: t in stuck ==> t in db.tasks
    ensures forall x: Sorting :: Stuck(db, PlanOf(x, stale)) == stuck
  {
    TracksLiveHandles(db, mem, live);
  }

  /** Where recovery sends a task that has no handle, from what the daemons say about it. */
  datatype Fate = ToResume | ToDefer | ToEnd

  /** t is named by a listed container, and by one that can be monitored. */
  ghost predicate IsListed(targets: seq<Target>, t: TaskId) {
    exists c :: ListsIt(targets, c) && c.task == Some(t)
  }

  ghost predicate IsFound(targets: seq<Target>, t: TaskId, cancelled: bool) {
    exists c :: ListsIt(targets, c) && c.task == Some(t) && Monitorable(c.state, c.stops, cancelled)
  }

  ghost function FateOf(db: Db, t: TaskId, targets: seq<Target>, inspect: (nat, nat) -> Lookup): Fate
    requires t in db.tasks
  {
    var a := db.tasks[t];
    if IsFound(targets, t, a.cancelRequested) then ToResume
    else if IsListed(targets, t) || IsDown(targets, a.daemon) then ToDefer
    else if a.container.None? then ToEnd
    else if !Answered(targets, a.daemon) then ToDefer
    else
      match inspect(a.daemon, a.container.value)
      case Absent => ToEnd
      case Inconclusive => ToDefer
      case Found(state, stops) => if Monitorable(state, stops, a.cancelRequested) then ToResume else ToDefer
  }

  lemma NamedMeans(targets: seq<Target>, t: TaskId, cancelled: bool)
    ensures NamedIn(ListedBy(targets), t) <==> IsListed(targets, t)
    ensures FoundIn(ListedBy(targets), t, cancelled) <==> IsFound(targets, t, cancelled)
  {
    hide ListsIt, IsDown, ListedBy;
    var seen := ListedBy(targets);
    forall c ensures c in seen <==> ListsIt(targets, c) {
      ListedMeans(targets, c, 0);
    }
    if IsListed(targets, t) {
      var c :| ListsIt(targets, c) && c.task == Some(t);
      assert c in seen;
    }
    if IsFound(targets, t, cancelled) {
      var c :| ListsIt(targets, c) && c.task == Some(t) && Monitorable(c.state, c.stops, cancelled);
      assert c in seen;
    }
    if NamedIn(seen, t) {
      var j :| 0 <= j < |seen| && seen[j].task == Some(t);
      assert seen[j] in seen;
    }
    if FoundIn(seen, t, cancelled) {
      var j :| 0 <= j < |seen| && seen[j].task == Some(t) && Monitorable(seen[j].state, seen[j].stops, cancelled);
      assert seen[j] in seen;
    }
  }

  lemma ScanDecidesFate(db: Db, t: TaskId, stuck: set<TaskId>, live: set<TaskId>, targets: seq<Target>,
                        reached: set<nat>, inspect: (nat, nat) -> Lookup, g: Sorting, g': Sorting)
    requires t in stuck && t in db.tasks && t !in live
    requires forall d :: d in reached <==> Answered(targets, d)
    requires ScanExact(db, stuck, live, ListedBy(targets), DownIn(targets), g)
    requires InspectedRight(db, t, reached, inspect, g, g')
    ensures FateOf(db, t, targets, inspect)
            == if t in g'.resumed then ToResume else if t in g'.unavailable then ToDefer else ToEnd
  {
    hide Answered, NamedIn, FoundIn, IsListed, IsFound, IsDown, ListedBy, DownIn;
    NamedMeans(targets, t, db.tasks[t].cancelRequested);
    ListedMeans(targets, Seen(None, Live, true), db.tasks[t].daemon);
  }

  /** In the words of the daemons: an exited container, or a live one that is not cancelled or
      could be stopped, resumes its task wherever it is listed; any other one at least defers it. */
  lemma ListedDecides(db: Db, t: TaskId, targets: seq<Target>, inspect: (nat, nat) -> Lookup, k: nat, j: nat)
    requires t in db.tasks && k < |targets| && targets[k].listing.Listed?
    requires j < |targets[k].listing.containers| && targets[k].listing.containers[j].task == Some(t)
    ensures var c := targets[k].listing.containers[j];
      && (c.state == Exited || (c.state == Live && (!db.tasks[t].cancelRequested || c.stops)) ==>
            FateOf(db, t, targets, inspect) == ToResume)
      && FateOf(db, t, targets, inspect) != ToEnd
  {
    hide Answered, IsDown;
    var c := targets[k].listing.containers[j];
    assert ListsIt(targets, c);
    assert IsListed(targets, t);
  }

  /** Without any listing, an unreachable daemon or an open question defers, and only a recorded
      container that its own daemon can show running again resumes. */
  lemma UnlistedDecides(db: Db, t: TaskId, targets: seq<Target>, inspect: (nat, nat) -> Lookup)
    requires t in db.tasks
    requires forall k, j :: 0 <= k < |targets| && targets[k].listing.Listed?
                            && 0 <= j < |targets[k].listing.containers| ==>
               targets[k].listing.containers[j].task != Some(t)
    ensures var a, fate := db.tasks[t], FateOf(db, t, targets, inspect);
      && ((exists k :: 0 <= k < |targets| && targets[k].daemon == a.daemon && targets[k].listing.Unreachable?)
          ==> fate == ToDefer)
      && (fate == ToResume ==>
            && a.container.Some? && Answered(targets, a.daemon)
            && var x := inspect(a.daemon, a.container.value);
               x.Found? && (x.state == Exited || (x.state == Live && (!a.cancelRequested || x.stops))))
      && (a.container.Some? && !Answered(targets, a.daemon) ==> fate == ToDefer)
  {
    hide Answered;
    assert !IsListed(targets, t);
    assert !IsFound(targets, t, db.tasks[t].cancelRequested);
  }

  /** Every task without an earlier handle meets its fate. */
  ghost predicate SortedRight(db: Db, mem: Mem, plan: Plan, targets: seq<Target>, inspect: (nat, nat) -> Lookup) {
    forall t :: t in Stuck(db, plan) && t !in mem.handles ==>
      && (t in plan.resumed <==> FateOf(db, t, targets, inspect) == ToResume)
      && (t in plan.deferred <==> FateOf(db, t, targets, inspect) == ToDefer)
      && (t in AbsentTasks(db, mem, plan) <==> FateOf(db, t, targets, inspect) == ToEnd)
  }

  /** A task ends only when no daemon lists a container of it, its own daemon was not unreachable
      and, if it has a recorded container, answered that the ID is absent. */
  lemma EndingMeans(db: Db, t: TaskId, targets: seq<Target>, inspect: (nat, nat) -> Lookup)
    requires t in db.tasks && FateOf(db, t, targets, inspect) == ToEnd
    ensures MayEnd(db, t, targets, inspect)
  {
    hide Answered;
    forall k, j | 0 <= k < |targets| && targets[k].listing.Listed? && 0 <= j < |targets[k].listing.containers|
      ensures targets[k].listing.containers[j].task != Some(t)
    {
      var c := targets[k].listing.containers[j];
      assert ListsIt(targets, c);
    }
  }

  /**
   Sorts every task loaded as RUNNING from what the daemons answered: resumed, deferred or ended
   exactly as its fate says. No task ever gets a second handle, whatever an earlier failed attempt
   left behind.
   */
  method SortRunningTasks(s: Scheduler, stale: set<TaskId>, targets: seq<Target>, inspect: (nat, nat) -> Lookup)
    returns (plan: Plan, spawned: seq<TaskId>)
    requires LocksSound(s.Tables())
    modifies s
    ensures (s.Tables(), s.Memory()) == SortRunning(old(s.Tables()), old(s.Memory()), plan)
    ensures plan.stale == stale
    ensures plan.resumed + plan.deferred <= Stuck(old(s.Tables()), plan)
    ensures plan.resumed !! plan.deferred
    ensures Distinct(spawned)
    ensures forall t :: t in spawned <==>
              t in plan.resumed + plan.deferred && t !in old(s.handles)
    ensures SortedRight(old(s.Tables()), old(s.Memory()), plan, targets, inspect)
    ensures forall t :: t in AbsentTasks(old(s.Tables()), old(s.Memory()), plan) ==>
              MayEnd(old(s.Tables()), t, targets, inspect)
  {
    hide Tracks, SortRunning, Settled, SortingOf, StuckSet, Answered, EndAll, LocksSound, ScanExact;
    hide MayEnd, RetainedIssues, AbsentTasks, Distinct, Stuck, InspectedRight, ListedBy, DownIn, SortedRight;
    ghost var db, mem := s.Tables(), s.Memory();
    var stuck := Stuck(s.Tables(), Plan({}, {}, stale, {}, {}));
    var live := stuck * s.handles.Keys;
    SortingStarts(db, mem, stale, stuck, live);
    s.runningTasks := s.runningTasks + live;
    s.runningIssues := s.runningIssues + IssuesOf(s.Tables(), live);
    var g := Sorting(live, {}, []);
    var reached: set<nat>;
    g, reached := ScanTargets(s, targets, stuck, g, mem, live);
    ghost var scanned := g;
    g := InspectById(s, stuck, reached, inspect, g, mem);
    spawned := SettleRunning(s, stuck, g, mem);
    plan := PlanOf(g, stale);
    SortingIsPlan(db, mem, stuck, stale, g, s.Memory(), spawned);
    FatesAreMet(db, mem, stuck, live, stale, targets, reached, inspect, scanned, g);
    FinishSorting(db, mem, stuck, stale, g, s.Memory(), spawned);
    var kept := RetainedIssues(s.Tables());
    s.retained := s.retained + kept;
    s.runningIssues := s.runningIssues + kept;
  }

  /** What must hold before a task may end. */
  predicate MayEnd(db: Db, t: TaskId, targets: seq<Target>, inspect: (nat, nat) -> Lookup)
    requires t in db.tasks
  {
    && (forall k, j :: 0 <= k < |targets| && targets[k].listing.Listed?
                       && 0 <= j < |targets[k].listing.containers| ==>
          targets[k].listing.containers[j].task != Some(t))
    && (forall k :: 0 <= k < |targets| && targets[k].daemon == db.tasks[t].daemon ==>
          !targets[k].listing.Unreachable?)
    && (db.tasks[t].container.Some? ==>
          Answered(targets, db.tasks[t].daemon)
          && inspect(db.tasks[t].daemon, db.tasks[t].container.value).Absent?)
  }

  lemma FatesAreMet(db: Db, mem: Mem, stuck: set<TaskId>, live: set<TaskId>, stale: set<TaskId>,
                    targets: seq<Target>, reached: set<nat>, inspect: (nat, nat) -> Lookup, g: Sorting, g': Sorting)
    requires forall t :: t in stuck ==> t in db.tasks
    requires live == stuck * mem.handles.Keys && stuck == Stuck(db, PlanOf(g', stale))
    requires forall d :: d in reached <==> Answered(targets, d)
    requires ScanExact(db, stuck, live, ListedBy(targets), DownIn(targets), g)
    requires forall t :: t in stuck && t in db.tasks ==> InspectedRight(db, t, reached, inspect, g, g')
    requires AbsentTasks(db, mem, PlanOf(g', stale)) == GoneOf(stuck, g') && SortingOf(stuck, mem, g')
    ensures SortedRight(db, mem, PlanOf(g', stale), targets, inspect)
    ensures forall t :: t in AbsentTasks(db, mem, PlanOf(g', stale)) ==>
              t in db.tasks && MayEnd(db, t, targets, inspect)
  {
    hide Stuck, AbsentTasks, Answered, ScanExact, InspectedRight, MayEnd, FateOf, ListedBy, DownIn;
    forall t | t in stuck && t !in mem.handles
      ensures FateOf(db, t, targets, inspect)
              == if t in g'.resumed then ToResume else if t in g'.unavailable then ToDefer else ToEnd
    {
      ScanDecidesFate(db, t, stuck, live, targets, reached, inspect, g, g');
    }
    forall t | t in GoneOf(stuck, g') ensures t in db.tasks && MayEnd(db, t, targets, inspect) {
      EndingMeans(db, t, targets, inspect);
    }
  }

  lemma FinishSorting(db: Db, mem: Mem, stuck: set<TaskId>, stale: set<TaskId>, g: Sorting, now: Mem,
                      spawned: seq<TaskId>)
    requires SortingOf(stuck, mem, g) && stuck == Stuck(db, PlanOf(g, stale))
    requires Settled(now, db, mem, g, DeferredOf(stuck, g), spawned)
    requires AbsentTasks(db, mem, PlanOf(g, stale)) == GoneOf(stuck, g)
    requires now == Adopt(db, mem, PlanOf(g, stale))
    ensures var e := EndAll(db, GoneOf(stuck, g));
            SortRunning(db, mem, PlanOf(g, stale))
            == (e, now.(retained := now.retained + RetainedIssues(e),
                        runningIssues := now.runningIssues + RetainedIssues(e)))
    ensures PlanOf(g, stale).resumed + PlanOf(g, stale).deferred <= Stuck(db, PlanOf(g, stale))
    ensures Distinct(spawned)
    ensures forall t :: t in spawned <==>
              t in PlanOf(g, stale).resumed + PlanOf(g, stale).deferred && t !in mem.handles
  {}

  /** The three outcomes exclude each other and exhaust the RUNNING tasks. */
  lemma RecoveryOutcomes(db: Db, mem: Mem, plan: Plan, t: TaskId)
    requires RunningUncontested(db) && LocksSound(db) && t in db.tasks && db.tasks[t].status.Running?
    ensures var (e, m) := SortRunning(db, mem, plan);
            && t in e.tasks
            && (if t in mem.handles || t in plan.resumed || t in plan.deferred then
                  && e.tasks[t] == db.tasks[t] && t in m.handles && t in m.runningTasks
                  && (Owns(e, e.tasks[t].issue, t) <==> Owns(db, e.tasks[t].issue, t))
                  && e.tasks[t].issue in m.runningIssues
                  && (t in mem.handles ==> m.handles[t] == mem.handles[t])
                  && (t !in mem.handles ==>
                        m.handles[t] == if t in plan.resumed then Resume else Coordinator)
                else
                  && e.tasks[t].status == (if db.tasks[t].cancelRequested then Cancelled else Failed)
                  && e.tasks[t].container.None? && e.tasks[t].logsFinalized
                  && t !in m.handles && e.tasks[t].issue !in e.locks)
  {
    assert t in Stuck(db, plan);
    if t in OwnedTasks(db, mem, plan) {
      assert db.tasks[t].issue in IssuesOf(db, OwnedTasks(db, mem, plan));
    }
  }

  /** A task that ended while the daemons were scanned keeps its end if and only if it was not
      loaded as RUNNING, has or gets a handle, or recovery would write the same end and finds
      neither container nor open log. */
  lemma RecoveryKeepsEndIff(db: Db, mem: Mem, plan: Plan, t: TaskId)
    requires t in db.tasks && db.tasks[t].status.Terminal()
    ensures SortRunning(db, mem, plan).0.tasks[t] == db.tasks[t]
            <==> t !in plan.stale || t in mem.handles || t in plan.resumed || t in plan.deferred
                 || (db.tasks[t].status == Ended(db.tasks[t]) && db.tasks[t].container.None?
                     && db.tasks[t].logsFinalized)
  {
    assert t in AbsentTasks(db, mem, plan)
           <==> t in plan.stale && t !in mem.handles && t !in plan.resumed && t !in plan.deferred;
  }

  /** A task that completed during the scan is turned into a failed one. */
  lemma CompletedIsOverwritten(db: Db, mem: Mem, plan: Plan, t: TaskId)
    requires t in db.tasks && db.tasks[t].status == Completed && !db.tasks[t].cancelRequested
    requires t in plan.stale && t !in mem.handles && t !in plan.resumed && t !in plan.deferred
    ensures SortRunning(db, mem, plan).0.tasks[t].status == Failed
  {
    assert t in AbsentTasks(db, mem, plan);
  }

  // ----- The whole startup pass -------------------------------------------------------------

  lemma SweepKeepsLocksSound(db: Db, rejected: set<TaskId>, cleared: set<TaskId>)
    requires LocksSound(db)
    ensures LocksSound(CleanStaleLocks(db))
    ensures LocksSound(RemediateAll(db, rejected))
    ensures LocksSound(ClearFinalised(db, cleared))
  {}

  /** Finalised terminal tasks whose recorded container is absent or could be removed. */
  function Clearable(db: Db, finalised: set<TaskId>, reached: set<nat>,
                     find: (nat, nat) -> Lookup, removable: set<nat>): set<TaskId>
  {
    set t | t in finalised && t in db.tasks && db.tasks[t].status.Terminal()
            && db.tasks[t].container.Some? && db.tasks[t].daemon in reached
            && var answer := find(db.tasks[t].daemon, db.tasks[t].container.value);
               answer.Absent? || (answer.Found? && db.tasks[t].container.value in removable)
  }

  method ClearFinalisedReferences(s: Scheduler, finalised: set<TaskId>, reached: set<nat>,
                                  find: (nat, nat) -> Lookup, removable: set<nat>)
    returns (cleared: set<TaskId>)
    modifies s`tasks
    ensures cleared == Clearable(old(s.Tables()), finalised, reached, find, removable)
    ensures forall t :: t in cleared <==>
              && t in finalised && t in old(s.tasks) && old(s.tasks)[t].status in {Completed, Failed, Cancelled}
              && old(s.tasks)[t].container.Some? && old(s.tasks)[t].daemon in reached
              && (find(old(s.tasks)[t].daemon, old(s.tasks)[t].container.value).Absent?
                  || (find(old(s.tasks)[t].daemon, old(s.tasks)[t].container.value).Found?
                      && old(s.tasks)[t].container.value in removable))
    ensures s.Tables() == ClearFinalised(old(s.Tables()), cleared)
  {
    assert ClearFinalised(s.Tables(), {}).tasks == s.Tables().tasks;
    hide Clearable, ClearFinalised;
    ghost var db := s.Tables();
    cleared := {};
    var rest := set t | t in finalised && t in s.tasks && s.tasks[t].status.Terminal();
    ClearableIsTerminal(db, finalised, reached, find, removable);
    while rest != {}
      invariant s.locks == db.locks && s.tasks.Keys == db.tasks.Keys && cleared !! rest
      invariant forall t :: t in rest ==>
                  t in finalised && t in db.tasks && s.tasks[t] == db.tasks[t]
                  && db.tasks[t].status.Terminal()
      invariant cleared + (rest * Clearable(db, finalised, reached, find, removable))
                == Clearable(db, finalised, reached, find, removable)
      invariant s.Tables() == ClearFinalised(db, cleared)
      decreases rest
    {
      var t :| t in rest;
      rest := rest - {t};
      ClearableWhen(db, finalised, reached, find, removable, t);
      if s.tasks[t].container.Some? && s.tasks[t].daemon in reached {
        var answer := find(s.tasks[t].daemon, s.tasks[t].container.value);
        if answer.Absent? || (answer.Found? && s.tasks[t].container.value in removable) {
          ClearOneMore(db, cleared, t);
          s.tasks := s.tasks[t := s.tasks[t].(container := None)];
          cleared := cleared + {t};
        }
      }
    }
    forall t
      ensures t in cleared <==>
                && t in finalised && t in db.tasks && db.tasks[t].status in {Completed, Failed, Cancelled}
                && db.tasks[t].container.Some? && db.tasks[t].daemon in reached
                && (find(db.tasks[t].daemon, db.tasks[t].container.value).Absent?
                    || (find(db.tasks[t].daemon, db.tasks[t].container.value).Found?
                        && db.tasks[t].container.value in removable))
    {
      ClearableWhen(db, finalised, reached, find, removable, t);
    }
  }

  lemma ClearableWhen(db: Db, finalised: set<TaskId>, reached: set<nat>,
                      find: (nat, nat) -> Lookup, removable: set<nat>, t: TaskId)
    ensures t in Clearable(db, finalised, reached, find, removable) <==>
              && t in finalised && t in db.tasks && db.tasks[t].status in {Completed, Failed, Cancelled}
              && db.tasks[t].container.Some? && db.tasks[t].daemon in reached
              && (find(db.tasks[t].daemon, db.tasks[t].container.value).Absent?
                  || (find(db.tasks[t].daemon, db.tasks[t].container.value).Found?
                      && db.tasks[t].container.value in removable))
  {}

  lemma ClearableIsTerminal(db: Db, finalised: set<TaskId>, reached: set<nat>,
                            find: (nat, nat) -> Lookup, removable: set<nat>)
    ensures forall t :: t in Clearable(db, finalised, reached, find, removable) ==>
              t in finalised && t in db.tasks && db.tasks[t].status.Terminal()
    ensures ClearFinalised(db, {}).locks == db.locks
  {}

  lemma ClearOneMore(db: Db, cleared: set<TaskId>, t: TaskId)
    requires t in db.tasks && db.tasks[t].status.Terminal() && t !in cleared
    ensures var d := ClearFinalised(db, cleared);
      && t in d.tasks && d.tasks[t] == db.tasks[t]
      && ClearFinalised(db, cleared + {t}) == d.(tasks := d.tasks[t := d.tasks[t].(container := None)])
      && forall u :: u in db.tasks && u != t ==> ClearFinalised(db, cleared + {t}).tasks[u] == d.tasks[u]
  {
    var d := ClearFinalised(db, cleared);
    assert ClearFinalised(db, cleared + {t}).tasks == d.tasks[t := d.tasks[t].(container := None)];
  }

  lemma SortRunningUsesHandlesOnly(db: Db, mem: Mem, a: Plan, b: Plan)
    requires a.resumed == b.resumed && a.deferred == b.deferred && a.stale == b.stale
    ensures SortRunning(db, mem, a) == SortRunning(db, mem, b)
  {
    assert AbsentTasks(db, mem, a) == AbsentTasks(db, mem, b);
    assert Adopt(db, mem, a) == Adopt(db, mem, b);
  }

  /** _crash_recovery as a whole is one Recover step of the transition system. find answers the
      lookups of finalised references, inspect those of RUNNING tasks; stale are the tasks that
      ended after recovery had loaded them as RUNNING. */
  method CrashRecovery(s: Scheduler, stale: set<TaskId>, unexecutable: set<TaskId>, attempted: set<TaskId>,
                       targets: seq<Target>, reached: set<nat>, removable: set<nat>,
                       find: (nat, nat) -> Lookup, inspect: (nat, nat) -> Lookup)
    returns (plan: Plan, spawned: seq<TaskId>)
    requires LockInv(s.Tables())
    requires forall d :: d in reached <==> Answered(targets, d)
    modifies s
    ensures var w := RecoverWorld(AsWorld(old(s.Tables()), old(s.Memory())), plan);
            s.Tables() == w.db && s.Memory() == w.mem
    ensures Distinct(spawned) && forall t :: t in spawned ==> t !in old(s.handles)
    ensures forall t :: t in plan.rejected <==>
              && t in unexecutable && t in old(s.tasks) && old(s.tasks)[t].status in {Pending, Queued, Running}
              && (old(s.tasks)[t].status == Running && t in old(s.handles) ==> t in attempted)
    ensures plan.stale == stale - plan.rejected
    ensures forall t :: t in plan.cleared <==>
              && t in old(s.tasks) && old(s.tasks)[t].status in {Completed, Failed, Cancelled}
              && old(s.tasks)[t].logsFinalized
              && old(s.tasks)[t].container.Some? && Answered(targets, old(s.tasks)[t].daemon)
              && (find(old(s.tasks)[t].daemon, old(s.tasks)[t].container.value).Absent?
                  || (find(old(s.tasks)[t].daemon, old(s.tasks)[t].container.value).Found?
                      && old(s.tasks)[t].container.value in removable))
    ensures SortedRight(BeforeSorting(old(s.Tables()), plan),
                        SweptMem(old(s.Tables()), old(s.Memory()), plan.rejected), plan, targets, inspect)
    ensures forall t :: t in AbsentTasks(BeforeSorting(old(s.Tables()), plan),
                                         SweptMem(old(s.Tables()), old(s.Memory()), plan.rejected),
                                         plan)
              ==> MayEnd(BeforeSorting(old(s.Tables()), plan), t, targets, inspect)
  {
    hide LocksSound, LockInv, CleanStaleLocks, RemediateAll, ClearFinalised, SortRunning, MayEnd;
    hide AbsentTasks, RemediatedIssues, Rejected, Clearable, Answered, RecoverWorld, BeforeSorting, Stuck;
    hide SweptMem, Distinct;
    ghost var db, mem := s.Tables(), s.Memory();
    LocksOf(db);
    s.locks := CleanStaleLocks(s.Tables()).locks;
    assert s.Tables() == CleanStaleLocks(db) by { CleanKeepsTasks(db); }
    var finalised := set t | t in s.tasks && s.tasks[t].status.Terminal() && s.tasks[t].logsFinalized;
    SweepKeepsLocksSound(db, {}, {});
    var rejected := s.RemediateLegacyContracts(unexecutable, attempted);
    SweepKeepsLocksSound(CleanStaleLocks(db), rejected, {});
    EndedRowsStay(CleanStaleLocks(db), rejected);
    var cleared := ClearFinalisedReferences(s, finalised, reached, find, removable);
    SweepKeepsLocksSound(RemediateAll(CleanStaleLocks(db), rejected), {}, cleared);
    assert s.Memory() == SweptMem(db, mem, rejected) by { SweptIs(db, mem, rejected); }
    var sorted: Plan;
    sorted, spawned := SortRunningTasks(s, stale - rejected, targets, inspect);
    plan := Plan(rejected, cleared, stale - rejected, sorted.resumed, sorted.deferred);
    RecoverInParts(db, mem, sorted, plan);
  }

  /** Remediation touches no task that has ended, and ends no task without touching it. */
  lemma EndedRowsStay(db: Db, rejected: set<TaskId>)
    ensures forall t :: t in RemediateAll(db, rejected).tasks <==> t in db.tasks
    ensures forall t :: t in db.tasks && db.tasks[t].status.Terminal() ==>
              RemediateAll(db, rejected).tasks[t] == db.tasks[t]
  {}

  lemma LocksOf(db: Db)
    requires LockInv(db)
    ensures LocksSound(db)
  {}

  lemma SweptIs(db: Db, mem: Mem, rejected: set<TaskId>)
    ensures SweptMem(db, mem, rejected)
            == mem.(runningIssues := mem.runningIssues - RemediatedIssues(CleanStaleLocks(db), rejected))
  {}

  lemma RecoverInParts(db: Db, mem: Mem, sorted: Plan, plan: Plan)
    requires sorted.resumed == plan.resumed && sorted.deferred == plan.deferred && sorted.stale == plan.stale
    ensures var before, swept := ClearFinalised(RemediateAll(CleanStaleLocks(db), plan.rejected), plan.cleared),
                                 SweptMem(db, mem, plan.rejected);
            var w := RecoverWorld(AsWorld(db, mem), plan);
      && BeforeSorting(db, plan) == before
      && SortRunning(before, swept, sorted) == (w.db, w.mem)
      && AbsentTasks(before, swept, sorted) == AbsentTasks(before, swept, plan)
      && Stuck(before, sorted) == Stuck(before, plan)
  {
    hide SortRunning, AbsentTasks, SweptMem, CleanStaleLocks, RemediateAll, ClearFinalised;
    SortRunningUsesHandlesOnly(BeforeSorting(db, plan), SweptMem(db, mem, plan.rejected), sorted, plan);
    AbsentUsesHandlesOnly(BeforeSorting(db, plan), SweptMem(db, mem, plan.rejected), sorted, plan);
  }

  lemma AbsentUsesHandlesOnly(db: Db, mem: Mem, a: Plan, b: Plan)
    requires a.resumed == b.resumed && a.deferred == b.deferred && a.stale == b.stale
    ensures AbsentTasks(db, mem, a) == AbsentTasks(db, mem, b)
  {}

  lemma CleanKeepsTasks(db: Db)
    ensures CleanStaleLocks(db).tasks == db.tasks
  {}

  // ----- Deferred recovery ------------------------------------------------------------------

  /** One attempt of the coordinator: what the lookup found and which remedies worked. */
  datatype Probe =
    | Gone
    | Unclear
    | At(state: ContainerState, quiescent: bool, stops: bool, logs: bool, removed: bool)

  datatype Verdict = Waiting | Resuming | Ending

  predicate Conclusive(p: Probe) {
    p.Gone? || (p.At? && p.state.NotRunnable? && (p.quiescent || p.stops) && p.logs && p.removed)
  }

  predicate Resumable(p: Probe, cancelled: bool) {
    p.At? && Monitorable(p.state, p.stops, cancelled)
  }

  /**
   Retries until one answer settles the task. The task ends only on a conclusive answer, and
   until then its row, its lock and its handle stay as they are.
   */
  method CoordinateUnavailableRecovery(s: Scheduler, t: TaskId, probes: seq<Probe>)
    returns (v: Verdict, n: nat)
    requires t in s.tasks && s.tasks[t].status.Running? && t in s.handles
    modifies s
    ensures n <= |probes|
    ensures forall k :: 0 <= k < n ==>
              !Conclusive(probes[k]) && !Resumable(probes[k], old(s.tasks[t].cancelRequested))
    ensures forall k :: 0 <= k < n ==>
              && probes[k] != Gone
              && (probes[k].At? ==>
                    if probes[k].state == NotRunnable
                    then !((probes[k].quiescent || probes[k].stops) && probes[k].logs && probes[k].removed)
                    else probes[k].state == Live && old(s.tasks[t].cancelRequested) && !probes[k].stops)
    ensures v.Waiting? ==> n == |probes|
    ensures v.Resuming? ==>
              n < |probes| && Resumable(probes[n], old(s.tasks[t].cancelRequested))
    ensures v.Ending? ==> n < |probes| && Conclusive(probes[n])
    ensures v.Ending? && !probes[n].Gone? ==>
              && probes[n].state == NotRunnable && (probes[n].quiescent || probes[n].stops)
              && probes[n].logs && probes[n].removed
    ensures v.Resuming? ==> probes[n].state == Exited || (probes[n].state == Live
                            && (!old(s.tasks[t].cancelRequested) || probes[n].stops))
    ensures !v.Ending? ==> s.Tables() == old(s.Tables()) && s.Memory() == old(s.Memory())
    ensures v.Ending? ==>
              var w := Apply(AsWorld(old(s.Tables()), old(s.Memory())), CoordinatorAbsent(t));
              s.Tables() == w.db && s.Memory() == w.mem
  {
    n := 0;
    v := Waiting;
    while n < |probes|
      invariant n <= |probes| && v.Waiting?
      invariant s.Tables() == old(s.Tables()) && s.Memory() == old(s.Memory())
      invariant forall k :: 0 <= k < n ==>
                  !Conclusive(probes[k]) && !Resumable(probes[k], s.tasks[t].cancelRequested)
    {
      var p := probes[n];
      if p.At? && !p.state.NotRunnable? {
        if !(s.tasks[t].cancelRequested && p.state.Live?) || p.stops {
          v := Resuming;
          return;
        }
      } else if p.Gone? || (p.At? && (p.quiescent || p.stops) && p.logs && p.removed) {
        v := Ending;
        var i := s.tasks[t].issue;
        EndTask(s, t);
        s.runningTasks := s.runningTasks - {t};
        s.runningIssues := s.runningIssues - {i};
        s.handles := s.handles - {t};
        return;
      }
      n := n + 1;
    }
  }
}
