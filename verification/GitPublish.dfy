/** Publishing a head: the lease push, its confirmation, and the remote over many deliveries. */
module GitPublish {
  import opened Wrappers
  import opened CommitGraph
  import opened GitDelivery

  /** The remote task branch: absent, or its tip. */
  type Remote = Option<Sha>

  ghost predicate Holds(g: Graph, remote: Remote, c: Sha) {
    remote.Some? && Anc(g, c, remote.value)
  }

  /** One delivery: observed is the branch as last fetched, which others may move before the
      push arrives. */
  datatype Attempt = Attempt(head: Sha, startRemote: Option<Sha>, observed: Remote, ask: Oracle)

  /** A missing branch is created only when it did not exist at the start of the task. */
  predicate WantsPush(a: Attempt) {
    match a.observed
    case None => a.startRemote.None?
    case Some(tip) => Classify(a.head, tip, a.startRemote, a.ask) == Push
  }

  /** The push takes effect only while the branch is still as observed. */
  function PushWithLease(now: Remote, a: Attempt): Remote {
    if WantsPush(a) && now == a.observed then Some(a.head) else now
  }

  /** However stale the observation, a push loses no commit, only ever fast-forwards, and never
      brings back a branch that was deleted while the task ran. */
  lemma PushIsFastForward(g: Graph, now: Remote, a: Attempt, c: Sha)
    requires Sound(g, a.ask) && a.head in g && (now.Some? ==> now.value in g)
    ensures var after := PushWithLease(now, a);
      && (Holds(g, now, c) ==> Holds(g, after, c))
      && (now.Some? ==> after.Some? && after.value in g && Anc(g, now.value, after.value))
      && (after.Some? ==> after.value in g)
      && (now.None? && a.startRemote.Some? ==> after.None?)
      && (after != now ==> after == Some(a.head) && now == a.observed)
  {
    var after := PushWithLease(now, a);
    if now.Some? {
      AncRefl(g, now.value);
      if after != now {
        DecisionIsSafe(g, a.ask, a.head, now.value, a.startRemote);
        if Holds(g, now, c) { AncTrans(g, c, now.value, a.head); }
      }
    }
  }

  // ----- Many deliveries and other writers --------------------------------------------------

  datatype Event = Ours(attempt: Attempt) | Others(tip: Sha)

  function After(remote: Remote, events: seq<Event>): Remote {
    if events == [] then remote
    else
      var before := After(remote, events[..|events| - 1]);
      match events[|events| - 1]
      case Ours(a) => PushWithLease(before, a)
      case Others(tip) => Some(tip)
  }

  /** Our oracles are sound and our heads are commits; others only add commits. */
  ghost predicate Orderly(g: Graph, remote: Remote, events: seq<Event>) {
    && (remote.Some? ==> remote.value in g)
    && forall k :: 0 <= k < |events| ==>
         match events[k]
         case Ours(a) => Sound(g, a.ask) && a.head in g
         case Others(tip) =>
           tip in g && (After(remote, events[..k]).Some? ==> Anc(g, After(remote, events[..k]).value, tip))
  }

  lemma OrderlyPrefix(g: Graph, remote: Remote, events: seq<Event>)
    requires Orderly(g, remote, events) && events != []
    ensures Orderly(g, remote, events[..|events| - 1])
  {
    hide Sound, After;
    var prefix := events[..|events| - 1];
    forall k | 0 <= k < |prefix| ensures prefix[k] == events[k] && prefix[..k] == events[..k] {}
  }

  /** Over any history of deliveries with stale observations among other fast-forwarding
      writers, the remote never loses a commit it once held. */
  lemma {:induction false} RemoteOnlyFastForwards(g: Graph, remote: Remote, events: seq<Event>, k: nat, c: Sha)
    requires Orderly(g, remote, events) && k <= |events|
    requires Holds(g, After(remote, events[..k]), c)
    ensures Holds(g, After(remote, events), c)
  {
    hide Holds, Orderly, Sound;
    if k == |events| {
      assert events[..k] == events;
    } else {
      var n := |events| - 1;
      OrderlyPrefix(g, remote, events);
      assert events[..n][..k] == events[..k];
      RemoteOnlyFastForwards(g, remote, events[..n], k, c);
      LastEventKeeps(g, remote, events, c);
    }
  }

  lemma LastEventKeeps(g: Graph, remote: Remote, events: seq<Event>, c: Sha)
    requires Orderly(g, remote, events) && events != []
    requires Holds(g, After(remote, events[..|events| - 1]), c)
    ensures Holds(g, After(remote, events), c)
  {
    hide Anc, Sound;
    var n := |events| - 1;
    var before := After(remote, events[..n]);
    OrderlyPrefix(g, remote, events);
    RemoteIsCommit(g, remote, events[..n]);
    match events[n]
    case Ours(a) => PushIsFastForward(g, before, a, c);
    case Others(tip) => AncTrans(g, c, before.value, tip);
  }

  lemma {:induction false} RemoteIsCommit(g: Graph, remote: Remote, events: seq<Event>)
    requires Orderly(g, remote, events)
    ensures After(remote, events).Some? ==> After(remote, events).value in g
  {
    hide Anc, Sound;
    if events != [] {
      var n := |events| - 1;
      OrderlyPrefix(g, remote, events);
      RemoteIsCommit(g, remote, events[..n]);
      match events[n]
      case Ours(a) => PushIsFastForward(g, After(remote, events[..n]), a, a.head);
      case Others(tip) =>
    }
  }

  // ----- Confirmation -----------------------------------------------------------------------

  datatype PushStatus = NotAttempted | Pushed | AlreadyThere | Failed

  /** The remote holds the head according to this tip. */
  predicate ShowsHead(a: Attempt, tip: Sha) {
    Classify(a.head, tip, a.startRemote, a.ask) == AlreadyPresent
  }

  /** What one look at the remote after an unconfirmed push found. */
  datatype Recheck = Unseen | Gone | Tip(sha: Sha, fetched: bool)

  /** The recheck proves that the head landed. */
  predicate Proves(a: Attempt, r: Recheck) {
    r.Tip? && (r.sha == a.head || (r.fetched && ShowsHead(a, r.sha)))
  }

  /** repo_delivery_publish. onBranch is the workspace check, seen whether the branch could be
      observed and fetched, reached whether the push arrived, heard whether its success was
      reported. The tip returned is the one that confirms. */
  method PublishHead(a: Attempt, onBranch: bool, seen: bool, now: Remote, reached: bool, heard: bool, recheck: Recheck)
    returns (status: PushStatus, code: Option<Code>, tip: Remote, after: Remote)
    ensures after == if onBranch && seen && reached && !(a.observed.Some? && ShowsHead(a, a.observed.value))
                     then PushWithLease(now, a) else now
    ensures status == Pushed ==> tip == after == Some(a.head)
    ensures status == AlreadyThere ==>
              tip.Some? && ShowsHead(a, tip.value) && (tip == a.observed || (recheck.Tip? && tip == Some(recheck.sha)))
    ensures status == Failed <==> code.Some?
    ensures code.Some? ==>
              && !(onBranch && seen && a.observed.Some? && ShowsHead(a, a.observed.value))
              && !(onBranch && seen && WantsPush(a) && ((reached && now == a.observed && heard) || Proves(a, recheck)))
    ensures status == AlreadyThere <==>
              && onBranch && seen
              && (|| (a.observed.Some? && Classify(a.head, a.observed.value, a.startRemote, a.ask) == AlreadyPresent)
                  || (&& (if a.observed.None? then a.startRemote.None?
                          else Classify(a.head, a.observed.value, a.startRemote, a.ask) == Push)
                      && !(reached && now == a.observed && heard)
                      && recheck.Tip?
                      && (recheck.sha == a.head
                          || (recheck.fetched && Classify(a.head, recheck.sha, a.startRemote, a.ask) == AlreadyPresent))))
    ensures status == Pushed <==>
              && onBranch && seen
              && (if a.observed.None? then a.startRemote.None?
                  else Classify(a.head, a.observed.value, a.startRemote, a.ask) == Push)
              && reached && now == a.observed && heard
    ensures code == Some(BranchChanged) <==> !onBranch
    ensures code == Some(RemoteDeleted) <==> onBranch && seen && a.observed.None? && a.startRemote.Some?
    ensures onBranch && seen && a.observed.Some? ==>
              var d := Classify(a.head, a.observed.value, a.startRemote, a.ask);
              d.Fail? ==> code == Some(d.code)
    ensures code == Some(RemoteUnconfirmed) ==> !seen || !recheck.Tip?
    ensures code == Some(RemoteChanged) ==> recheck.Tip? && Some(recheck.sha) != a.observed && a.observed.Some?
    ensures code == Some(PushFailed) ==> a.observed.None? || (recheck.Tip? && Some(recheck.sha) == a.observed)
    ensures status != NotAttempted
  {
    code, tip, after := None, None, now;
    if !onBranch {
      return Failed, Some(BranchChanged), None, now;
    }
    if !seen {
      return Failed, Some(RemoteUnconfirmed), None, now;
    }
    if a.observed.None? {
      if a.startRemote.Some? {
        return Failed, Some(RemoteDeleted), None, now;
      }
    } else {
      var decision := Classify(a.head, a.observed.value, a.startRemote, a.ask);
      if decision == AlreadyPresent {
        return AlreadyThere, None, a.observed, now;
      }
      if decision.Fail? {
        return Failed, Some(decision.code), None, now;
      }
    }
    var landed := reached && now == a.observed;
    after := if landed then Some(a.head) else now;
    if landed && heard {
      return Pushed, None, Some(a.head), after;
    }
    if recheck.Tip? && (recheck.sha == a.head || (recheck.fetched && ShowsHead(a, recheck.sha))) {
      return AlreadyThere, None, Some(recheck.sha), after;
    }
    status := Failed;
    if a.observed.None? {
      code := Some(PushFailed);
    } else if !recheck.Tip? {
      code := Some(RemoteUnconfirmed);
    } else if Some(recheck.sha) == a.observed {
      code := Some(PushFailed);
    } else {
      code := Some(RemoteChanged);
    }
  }
}
