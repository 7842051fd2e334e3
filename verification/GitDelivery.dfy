/** The publish decision from a three-valued ancestry oracle. */
module GitDelivery {
  import opened Wrappers
  import opened CommitGraph
  import opened CommitLog

  // ----- The three-valued ancestry oracle ---------------------------------------------------

  datatype Answer = Yes | No | Unknown

  type Oracle = (Sha, Sha) -> Answer

  ghost predicate Sound(g: Graph, ask: Oracle) {
    && (forall a, d :: ask(a, d).Yes? ==> Anc(g, a, d))
    && (forall a, d :: ask(a, d).No? ==> !Anc(g, a, d))
  }

  ghost predicate Complete(ask: Oracle) {
    forall a, d :: !ask(a, d).Unknown?
  }

  /** ask says nothing that better does not say. */
  ghost predicate LessInformed(ask: Oracle, better: Oracle) {
    forall a, d :: ask(a, d).Unknown? || ask(a, d) == better(a, d)
  }

  // ----- Classification ---------------------------------------------------------------------

  datatype Code = BranchChanged | HistoryUnverifiable | HistoryRewritten | RemoteDeleted | RemoteRewound
                | RemoteDiverged | RemoteChanged | PushFailed | RemoteUnconfirmed

  datatype Decision = Push | AlreadyPresent | Fail(code: Code)

  function Classify(head: Sha, remote: Sha, startRemote: Option<Sha>, ask: Oracle): Decision {
    if remote == head || ask(head, remote).Yes? then AlreadyPresent
    else if ask(head, remote).Unknown? || ask(remote, head).Unknown? then Fail(HistoryUnverifiable)
    else if ask(remote, head).No? then Fail(RemoteDiverged)
    else if startRemote.None? || startRemote.value == remote then Push
    else
      match ask(startRemote.value, remote)
      case Yes => Push
      case Unknown => Fail(HistoryUnverifiable)
      case No => Fail(if ask(remote, startRemote.value).Yes? then RemoteRewound else RemoteDiverged)
  }

  /** cmd_classify_remote; an empty start tip means none. */
  method ClassifyRemote(head: Sha, remote: Sha, startArg: Sha, ask: Oracle)
    returns (r: Result<Decision, string>)
    ensures r.Ok? <==> ValidSha(head) && ValidSha(remote)
    ensures r.Ok? ==>
              r.value == Classify(head, remote, if startArg == "" then None else Some(startArg), ask)
  {
    if !ValidSha(head) || !ValidSha(remote) {
      return Err("head and remote tip must be full commit SHAs");
    }
    if remote == head {
      return Ok(AlreadyPresent);
    }
    var headOfRemote := ask(head, remote);
    if headOfRemote.Yes? {
      return Ok(AlreadyPresent);
    }
    if headOfRemote.Unknown? {
      return Ok(Fail(HistoryUnverifiable));
    }
    var remoteOfHead := ask(remote, head);
    if remoteOfHead.Unknown? {
      return Ok(Fail(HistoryUnverifiable));
    }
    if remoteOfHead.No? {
      return Ok(Fail(RemoteDiverged));
    }
    if startArg != "" && startArg != remote {
      var startRelation := ask(startArg, remote);
      if startRelation.Unknown? {
        return Ok(Fail(HistoryUnverifiable));
      }
      if startRelation.No? {
        var rewound := ask(remote, startArg);
        return Ok(Fail(if rewound.Yes? then RemoteRewound else RemoteDiverged));
      }
    }
    r := Ok(Push);
  }

  /** Push moves the remote strictly forward and keeps the task-start tip; present means held. */
  lemma DecisionIsSafe(g: Graph, ask: Oracle, head: Sha, remote: Sha, startRemote: Option<Sha>)
    requires Sound(g, ask) && remote in g
    ensures Classify(head, remote, startRemote, ask) == Push ==>
              && Anc(g, remote, head) && !Anc(g, head, remote)
              && Ancestors(g, remote) < Ancestors(g, head)
              && (startRemote.Some? ==> startRemote.value == remote || Anc(g, startRemote.value, remote))
    ensures Classify(head, remote, startRemote, ask) == AlreadyPresent ==> Anc(g, head, remote)
  {
    match Classify(head, remote, startRemote, ask)
    case Push =>
      AncestorsGrow(g, remote, head);
      AncInGraph(g, remote, head);
      AncRefl(g, head);
      assert head in Ancestors(g, head) && head !in Ancestors(g, remote);
    case AlreadyPresent => AncRefl(g, remote);
    case Fail(_) =>
  }

  /** The task-start tip is missing from the remote. */
  ghost predicate StartLost(g: Graph, remote: Sha, startRemote: Option<Sha>) {
    startRemote.Some? && !Anc(g, startRemote.value, remote)
  }

  /** With a complete oracle every decision is exactly its graph condition. */
  lemma DecisionIsExact(g: Graph, ask: Oracle, head: Sha, remote: Sha, startRemote: Option<Sha>)
    requires Acyclic(g) && Sound(g, ask) && Complete(ask) && head in g && remote in g
    ensures var d := Classify(head, remote, startRemote, ask);
      && (d == AlreadyPresent <==> Anc(g, head, remote))
      && (d == Push <==> Anc(g, remote, head) && remote != head && !StartLost(g, remote, startRemote))
      && (d == Fail(RemoteRewound) <==>
            Anc(g, remote, head) && remote != head && StartLost(g, remote, startRemote)
            && Anc(g, remote, startRemote.value))
      && (d == Fail(RemoteDiverged) <==>
            !Anc(g, head, remote)
            && (Anc(g, remote, head) ==> StartLost(g, remote, startRemote)
                                         && !Anc(g, remote, startRemote.value)))
      && (d.Fail? ==> d.code == RemoteRewound || d.code == RemoteDiverged)
  {
    AncRefl(g, head);
    AncRefl(g, remote);
    if Anc(g, remote, head) && Anc(g, head, remote) { AncAntisym(g, remote, head); }
    assert ask(head, remote).Yes? <==> Anc(g, head, remote);
    assert ask(remote, head).Yes? <==> Anc(g, remote, head);
    if startRemote.Some? {
      assert ask(startRemote.value, remote).Yes? <==> Anc(g, startRemote.value, remote);
      assert ask(remote, startRemote.value).Yes? <==> Anc(g, remote, startRemote.value);
    }
  }

  /** Losing information never turns a failure into a push, nor a definite failure into one. */
  lemma LessInformedIsCautious(ask: Oracle, better: Oracle, head: Sha, remote: Sha,
                               startRemote: Option<Sha>)
    requires LessInformed(ask, better)
    ensures var d, b := Classify(head, remote, startRemote, ask),
                        Classify(head, remote, startRemote, better);
      && (!d.Fail? ==> b == d)
      && (d.Fail? && d.code != HistoryUnverifiable ==> b.Fail?)
      && (b == Push ==> d == Push || d == Fail(HistoryUnverifiable))
  {
    assert ask(head, remote).Unknown? || ask(head, remote) == better(head, remote);
    assert ask(remote, head).Unknown? || ask(remote, head) == better(remote, head);
    if startRemote.Some? {
      var s := startRemote.value;
      assert ask(s, remote).Unknown? || ask(s, remote) == better(s, remote);
    }
  }
}
