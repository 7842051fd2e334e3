/** Attributing commit ranges to a task, and reporting what the remote confirmed. */
module GitCollect {
  import opened Wrappers
  import opened CommitGraph
  import opened CommitLog
  import opened GitDelivery
  import opened GitPublish
  import Strings

  // ----- The repository as the collector sees it --------------------------------------------

  /** log is what git lists for base..tip; it prints that list as Render does. */
  datatype Repo = Repo(
    head: Option<Sha>,
    headBranch: Option<string>,
    objects: set<Sha>,
    ask: Oracle,
    log: (Sha, Sha) -> Option<seq<Commit>>,
    subject: Sha -> string)

  /** git answers soundly and lists every commit of a range once. */
  ghost predicate Faithful(g: Graph, repo: Repo) {
    && Sound(g, repo.ask)
    && forall base, tip :: repo.log(base, tip).Some? ==>
         var cs := repo.log(base, tip).value;
         Writable(cs) && Lists(cs, Range(g, base, tip))
  }

  predicate Titled(cs: seq<Commit>) {
    forall c :: c in cs ==> c.subject != ""
  }

  /** No commit of this range has an empty subject. */
  predicate RangeTitled(repo: Repo, base: Sha, tip: Sha) {
    repo.log(base, tip).Some? ==> Titled(repo.log(base, tip).value)
  }

  datatype Receipt = Receipt(schemaKnown: bool, pending: bool, branch: string, head: Option<Sha>)

  /** The commit of a previous unconfirmed push of this branch. */
  function PendingSha(receipt: Option<Receipt>, branch: string): Option<Sha> {
    if receipt.None? then None
    else
      var r := receipt.value;
      if r.schemaKnown && r.pending && r.branch == branch && r.head.Some? && ValidSha(r.head.value)
      then r.head else None
  }

  /** Only a pending receipt of this branch with a full hash counts. */
  lemma PendingShaIff(receipt: Option<Receipt>, branch: string, p: Sha)
    ensures PendingSha(receipt, branch) == Some(p) <==>
      && receipt.Some? && receipt.value.schemaKnown && receipt.value.pending
      && receipt.value.branch == branch && receipt.value.head == Some(p)
      && |p| == 40 && forall k :: 0 <= k < 40 ==> p[k] in "0123456789abcdef"
  {
    assert forall c :: HexDigit(c) <==> c in "0123456789abcdef";
  }

  datatype Delivery = Delivery(
    branch: string,
    start: Option<Sha>,
    startRemote: Option<Sha>,
    head: Option<Sha>,
    commits: Option<seq<Commit>>,
    recovered: Option<seq<Commit>>,
    push: PushStatus,
    remoteSha: Option<Sha>)

  function Given(s: Option<Sha>): bool {
    s.Some? && s.value != ""
  }

  /** _recovered_range_base: where inherited commits begin, and whether that could be settled. */
  function RecoveredRangeBase(start: Sha, startRemote: Option<Sha>, base: Option<Sha>, ask: Oracle)
    : (Option<Sha>, bool)
  {
    if Given(startRemote) then
      if startRemote.value == start then (None, true)
      else if ask(startRemote.value, start).Yes? then (startRemote, true)
      else (None, !ask(startRemote.value, start).Unknown?)
    else if Given(base) && base.value != start then
      if ask(base.value, start).Yes? then (base, true)
      else (None, !ask(base.value, start).Unknown?)
    else (None, true)
  }

  /** The inherited range, if one is listed, has every subject. */
  predicate InheritedTitled(repo: Repo, start: Sha, startRemote: Option<Sha>, base: Option<Sha>) {
    var b := RecoveredRangeBase(start, startRemote, base, repo.ask).0;
    b.Some? ==> RangeTitled(repo, b.value, start)
  }

  /** The two ranges this task lists have every subject. */
  predicate RangesTitled(repo: Repo, start: Option<Sha>, startRemote: Option<Sha>, base: Option<Sha>) {
    start.Some? && repo.head.Some? ==>
      RangeTitled(repo, start.value, repo.head.value) && InheritedTitled(repo, start.value, startRemote, base)
  }

  /** The confirmed point the branch was measured from: the remote work tip, else the base tip. */
  function Anchor(startRemote: Option<Sha>, base: Option<Sha>): Option<Sha> {
    if Given(startRemote) then startRemote else if Given(base) then base else None
  }

  /** What was inherited: anchor..start when the anchor is behind start, nothing otherwise. */
  ghost function Inherited(g: Graph, start: Sha, anchor: Option<Sha>): set<Sha> {
    if anchor.Some? && Anc(g, anchor.value, start) then Range(g, anchor.value, start) else {}
  }

  lemma RecoveredBaseIsAnchor(g: Graph, start: Sha, startRemote: Option<Sha>, base: Option<Sha>, ask: Oracle)
    requires Sound(g, ask)
    ensures var (b, settled) := RecoveredRangeBase(start, startRemote, base, ask);
            var anchor := Anchor(startRemote, base);
      && (settled <==> anchor.None? || anchor.value == start || ask(anchor.value, start) != Unknown)
      && b == (if anchor.Some? && anchor.value != start && ask(anchor.value, start) == Yes then anchor else None)
      && (settled ==> (if b.Some? then Range(g, b.value, start) else {}) == Inherited(g, start, anchor))
  {
    var (b, settled) := RecoveredRangeBase(start, startRemote, base, ask);
    var anchor := Anchor(startRemote, base);
    if anchor == Some(start) {
      assert Range(g, start, start) == {};
    }
  }

  /** One range, listed once each. */
  ghost predicate Lists(cs: seq<Commit>, commits: set<Sha>) {
    DistinctShas(cs) && Shas(cs) == commits
  }

  /** recovered is what was inherited, then at most one adopted older commit of the branch. */
  ghost predicate Recovers(g: Graph, cs: seq<Commit>, start: Sha, inherited: set<Sha>, pending: Option<Sha>) {
    && DistinctShas(cs)
    && inherited <= Shas(cs)
    && (forall s :: s in Shas(cs) && s !in inherited ==> Some(s) == pending && Anc(g, s, start))
  }

  /** Everything the collector claims about a task's commits. */
  ghost predicate Attributed(g: Graph, d: Delivery, base: Option<Sha>, pending: Option<Sha>) {
    && (d.commits.Some? ==>
          && d.start.Some? && d.head.Some?
          && Anc(g, d.start.value, d.head.value)
          && Lists(d.commits.value, Range(g, d.start.value, d.head.value)))
    && (d.recovered.Some? ==>
          && d.commits.Some?
          && Recovers(g, d.recovered.value, d.start.value,
                      Inherited(g, d.start.value, Anchor(d.startRemote, base)), pending))
  }

  /** What the parser makes of a range git printed. */
  function ReadRange(repo: Repo, base: Sha, tip: Sha): Option<seq<Commit>> {
    if repo.log(base, tip).None? then None
    else PairUp(Strings.NonEmpty(Strings.Split(Render(repo.log(base, tip).value), NUL)))
  }

  /** What is read is what git listed if and only if every subject was given. */
  lemma ReadIsListed(g: Graph, repo: Repo, base: Sha, tip: Sha)
    requires Faithful(g, repo)
    ensures repo.log(base, tip).Some? ==>
              (ReadRange(repo, base, tip) == repo.log(base, tip) <==> Titled(repo.log(base, tip).value))
    ensures RangeTitled(repo, base, tip) ==> ReadRange(repo, base, tip) == repo.log(base, tip)
    ensures RangeTitled(repo, base, tip) && repo.log(base, tip).Some? ==>
              Lists(repo.log(base, tip).value, Range(g, base, tip))
  {
    if repo.log(base, tip).Some? { LogRoundTripIff(repo.log(base, tip).value); }
  }

  method ListRange(ghost g: Graph, repo: Repo, base: Sha, tip: Sha) returns (r: Option<seq<Commit>>)
    requires Faithful(g, repo)
    ensures r == ReadRange(repo, base, tip)
    ensures RangeTitled(repo, base, tip) && r.Some? ==> Lists(r.value, Range(g, base, tip))
  {
    var listed := repo.log(base, tip);
    r := ListCommits(if listed.Some? then Some(Render(listed.value)) else None);
    ReadIsListed(g, repo, base, tip);
  }

  /** Where the inherited range begins; RecoveredBaseIsAnchor spells it out. */
  function InheritedBase(repo: Repo, start: Sha, startRemote: Option<Sha>, base: Option<Sha>): Option<Sha> {
    RecoveredRangeBase(start, startRemote, base, repo.ask).0
  }

  /** The inherited commits as read. */
  function InheritedRead(repo: Repo, start: Sha, startRemote: Option<Sha>, base: Option<Sha>): Option<seq<Commit>> {
    var b := InheritedBase(repo, start, startRemote, base);
    if b.None? then Some([]) else ReadRange(repo, b.value, start)
  }

  /** The receipt, when it is new and the start is known to contain it. */
  function Adopted(repo: Repo, start: Sha, pending: Option<Sha>, known: set<Sha>): seq<Commit> {
    if pending.Some? && pending.value !in known && repo.ask(pending.value, start) == Yes
    then [Commit(pending.value, repo.subject(pending.value))] else []
  }

  /** The workspace is on the branch and its head is known to contain the pinned start. */
  predicate Reachable(repo: Repo, branch: string, start: Option<Sha>) {
    && repo.head.Some? && repo.headBranch == Some(branch)
    && start.Some? && ValidSha(start.value) && start.value in repo.objects
    && repo.ask(start.value, repo.head.value) == Yes
  }

  /** _collect_git_delivery, without the diff of the two trees. */
  method Collect(ghost g: Graph, repo: Repo, branch: string, start: Option<Sha>,
                 startRemote: Option<Sha>, base: Option<Sha>, receipt: Option<Receipt>)
    returns (d: Delivery, error: Option<Code>)
    requires Faithful(g, repo)
    ensures d.start == start && d.startRemote == startRemote && d.head == repo.head && d.branch == branch
    ensures d.push == NotAttempted && d.remoteSha == None
    ensures RangesTitled(repo, start, startRemote, base) ==> Attributed(g, d, base, PendingSha(receipt, branch))
    ensures d.commits.Some? <==>
              && Reachable(repo, branch, start) && ReadRange(repo, start.value, repo.head.value).Some?
    ensures d.commits.Some? ==> d.commits == ReadRange(repo, start.value, repo.head.value)
    ensures d.recovered.Some? <==>
              && d.commits.Some? && RecoveredRangeBase(start.value, startRemote, base, repo.ask).1
              && InheritedRead(repo, start.value, startRemote, base).Some?
    ensures d.recovered.Some? ==>
              var listed := InheritedRead(repo, start.value, startRemote, base).value;
              d.recovered.value == listed + Adopted(repo, start.value, PendingSha(receipt, branch),
                                                    Shas(listed) + Shas(d.commits.value))
    ensures error == None <==> d.recovered.Some?
    ensures error == Some(BranchChanged) <==> repo.head.None? || repo.headBranch != Some(branch)
    ensures error == Some(HistoryRewritten) <==>
              && repo.head.Some? && repo.headBranch == Some(branch)
              && start.Some? && ValidSha(start.value) && start.value in repo.objects
              && repo.ask(start.value, repo.head.value).No?
    ensures error.Some? && error != Some(HistoryUnverifiable) ==> d.commits.None?
    ensures error.Some? ==> error.value in {BranchChanged, HistoryUnverifiable, HistoryRewritten}
  {
    hide Lists, Recovers, Titled, InheritedTitled, Inherited, ReadRange, Adopted;
    d := Delivery(branch, start, startRemote, repo.head, None, None, NotAttempted, None);
    if repo.head.None? || repo.headBranch != Some(branch) {
      return d, Some(BranchChanged);
    }
    if start.None? || !ValidSha(start.value) || start.value !in repo.objects {
      return d, Some(HistoryUnverifiable);
    }
    var s, h := start.value, repo.head.value;
    var relation := repo.ask(s, h);
    if relation.Unknown? {
      return d, Some(HistoryUnverifiable);
    }
    if relation.No? {
      return d, Some(HistoryRewritten);
    }
    var commits := ListRange(g, repo, s, h);
    if commits.None? {
      return d, Some(HistoryUnverifiable);
    }
    d := d.(commits := commits);
    var recovered := CollectRecovered(g, repo, s, startRemote, base, PendingSha(receipt, branch), commits.value);
    if recovered.None? {
      return d, Some(HistoryUnverifiable);
    }
    d := d.(recovered := recovered);
    error := None;
  }

  /** The inherited commits, and a receipt of a previous push that is not among the known ones;
      absent when the range cannot be settled or listed. */
  method CollectRecovered(ghost g: Graph, repo: Repo, start: Sha, startRemote: Option<Sha>, base: Option<Sha>,
                          pending: Option<Sha>, commits: seq<Commit>)
    returns (r: Option<seq<Commit>>)
    requires Faithful(g, repo)
    ensures InheritedTitled(repo, start, startRemote, base) && r.Some? ==>
              Recovers(g, r.value, start, Inherited(g, start, Anchor(startRemote, base)), pending)
    ensures r.Some? <==>
              && RecoveredRangeBase(start, startRemote, base, repo.ask).1
              && InheritedRead(repo, start, startRemote, base).Some?
    ensures r.Some? ==>
              var listed := InheritedRead(repo, start, startRemote, base).value;
              r.value == listed + Adopted(repo, start, pending, Shas(listed) + Shas(commits))
  {
    hide Inherited, Titled, ReadRange;
    var (recoveryBase, settled) := RecoveredRangeBase(start, startRemote, base, repo.ask);
    if !settled {
      return None;
    }
    RecoveredBaseIsAnchor(g, start, startRemote, base, repo.ask);
    r := Some([]);
    if recoveryBase.Some? {
      r := ListRange(g, repo, recoveryBase.value, start);
    }
    if r.None? {
      return None;
    }
    var known := Shas(r.value) + Shas(commits);
    if pending.Some? && pending.value !in known && repo.ask(pending.value, start).Yes? {
      if InheritedTitled(repo, start, startRemote, base) {
        AdoptKeepsRecovers(g, r.value, start, Inherited(g, start, Anchor(startRemote, base)),
                           pending.value, repo.subject(pending.value));
      }
      r := Some(r.value + [Commit(pending.value, repo.subject(pending.value))]);
    } else {
      assert r.value + [] == r.value;
    }
  }

  /** When every subject of the two ranges is given, the receipt is among the recovered commits if
      and only if it was inherited, or is no commit of the task and known to be in the start. */
  lemma AdoptedIff(g: Graph, repo: Repo, start: Sha, head: Sha, startRemote: Option<Sha>, base: Option<Sha>,
                   p: Sha, listed: seq<Commit>, commits: seq<Commit>)
    requires Faithful(g, repo) && RecoveredRangeBase(start, startRemote, base, repo.ask).1
    requires InheritedTitled(repo, start, startRemote, base) && RangeTitled(repo, start, head)
    requires InheritedRead(repo, start, startRemote, base) == Some(listed)
    requires ReadRange(repo, start, head) == Some(commits)
    ensures var all := listed + Adopted(repo, start, Some(p), Shas(listed) + Shas(commits));
      p in Shas(all) <==>
        || p in Inherited(g, start, Anchor(startRemote, base))
        || (p !in Range(g, start, head) && repo.ask(p, start) == Yes)
  {
    hide Inherited, ReadRange, Faithful;
    RecoveredBaseIsAnchorIn(g, repo, start, startRemote, base);
    ReadIsListed(g, repo, start, head);
    var b := InheritedBase(repo, start, startRemote, base);
    if b.Some? { ReadIsListed(g, repo, b.value, start); }
    var adopted := Adopted(repo, start, Some(p), Shas(listed) + Shas(commits));
    ShasOfConcat(listed, adopted);
  }

  /** A previous push that landed unconfirmed: nothing is new, the receipt is the start itself, and
      after confirmation the head is reported. */
  lemma LandedReceiptIsReported(repo: Repo, start: Sha, d: Delivery)
    requires ValidSha(start) && repo.ask(start, start) == Yes
    requires d.head == Some(start) && d.commits == Some([])
    requires d.recovered == Some([] + Adopted(repo, start, Some(start), {}))
    ensures d.recovered.value == [Commit(start, repo.subject(start))]
    ensures CommitSha(d.(push := AlreadyThere)) == Some(start)
  {}

  lemma RecoveredBaseIsAnchorIn(g: Graph, repo: Repo, start: Sha, startRemote: Option<Sha>, base: Option<Sha>)
    requires Faithful(g, repo) && RecoveredRangeBase(start, startRemote, base, repo.ask).1
    ensures var b := InheritedBase(repo, start, startRemote, base);
      (if b.Some? then Range(g, b.value, start) else {}) == Inherited(g, start, Anchor(startRemote, base))
  {
    RecoveredBaseIsAnchor(g, start, startRemote, base, repo.ask);
  }

  lemma ShasOfConcat(a: seq<Commit>, b: seq<Commit>)
    ensures Shas(a + b) == Shas(a) + Shas(b)
  {
    forall c | c in a ensures c in a + b {}
    forall c | c in b ensures c in a + b {}
  }

  lemma AdoptKeepsRecovers(g: Graph, cs: seq<Commit>, start: Sha, inherited: set<Sha>, pending: Sha, subject: string)
    requires Lists(cs, inherited) && pending !in Shas(cs) && Anc(g, pending, start)
    ensures Recovers(g, cs + [Commit(pending, subject)], start, inherited, Some(pending))
  {
    var more := cs + [Commit(pending, subject)];
    forall s | s in inherited ensures s in Shas(more) {
      var c :| c in cs && c.sha == s;
      assert c in more;
    }
    forall i | 0 <= i < |cs| ensures cs[i].sha != pending {
      assert cs[i] in cs;
    }
  }

  // ----- What the attribution adds up to ----------------------------------------------------

  /** Recovered commits and task commits never overlap. Without an adopted receipt they are
      exactly anchor..head; an adopted one is an older commit of the branch. */
  lemma AttributionPartitions(g: Graph, d: Delivery, base: Option<Sha>, pending: Option<Sha>)
    requires Attributed(g, d, base, pending) && d.recovered.Some?
    ensures Shas(d.recovered.value) !! Shas(d.commits.value)
    ensures var anchor := Anchor(d.startRemote, base);
            anchor.Some? && Anc(g, anchor.value, d.start.value) ==>
              var whole := Shas(d.recovered.value) + Shas(d.commits.value);
              && whole >= Range(g, anchor.value, d.head.value)
              && whole - Range(g, anchor.value, d.head.value) <= Ancestors(g, d.start.value)
              && (forall s :: s in whole - Range(g, anchor.value, d.head.value) ==> Some(s) == pending)
              && (pending.None? ==> whole == Range(g, anchor.value, d.head.value))
  {
    var start, head := d.start.value, d.head.value;
    var anchor := Anchor(d.startRemote, base);
    forall s | s in Shas(d.recovered.value) ensures s in Ancestors(g, start) {
      if s in Inherited(g, start, anchor) {} else { AncInGraph(g, s, start); }
    }
    if anchor.Some? && Anc(g, anchor.value, start) {
      RangeSplits(g, anchor.value, start, head);
    }
  }

  // ----- Recording the push and projecting the result ---------------------------------------

  /** The commit reported for the task. */
  function CommitSha(d: Delivery): Option<Sha> {
    var content := (d.commits.Some? && d.commits.value != [])
                   || (d.recovered.Some? && d.recovered.value != []);
    var confirmed := d.push.Pushed? || d.push.AlreadyThere?;
    if confirmed && content && d.head.Some? && ValidSha(d.head.value) then d.head else None
  }

  /** What record_push makes of a publish outcome. */
  function Recorded(d: Delivery, status: PushStatus, tip: Option<Sha>): Delivery {
    d.(push := status, remoteSha := tip)
  }

  /** Collect, publish, record: a reported commit is the head, and the tip that confirmed it,
      be it the pushed head, the observed one or the one seen on recheck, holds every commit
      attributed to the task, inherited or its own. A confirmed delivery without a reported
      commit had nothing to deliver. */
  lemma ReportedCommitIsDelivered(g: Graph, d: Delivery, base: Option<Sha>, pending: Option<Sha>,
                                  a: Attempt, status: PushStatus, tip: Option<Sha>)
    requires Sound(g, a.ask) && d.head == Some(a.head) && a.head in g
    requires Attributed(g, d, base, pending)
    requires status == Pushed ==> tip == Some(a.head)
    requires status == AlreadyThere ==> tip.Some? && tip.value in g && ShowsHead(a, tip.value)
    ensures var reported := CommitSha(Recorded(d, status, tip));
      && (reported.Some? ==>
            && reported == d.head && tip.Some? && Anc(g, a.head, tip.value)
            && (d.commits.Some? ==> Shas(d.commits.value) <= Ancestors(g, tip.value))
            && (d.recovered.Some? ==> Shas(d.recovered.value) <= Ancestors(g, tip.value)))
      && (reported.None? && (status == Pushed || status == AlreadyThere) && ValidSha(a.head) ==>
            && (d.commits.Some? ==> d.commits.value == [])
            && (d.recovered.Some? ==> d.recovered.value == []))
  {
    AncRefl(g, a.head);
    if CommitSha(Recorded(d, status, tip)).Some? {
      if status == AlreadyThere { DecisionIsSafe(g, a.ask, a.head, tip.value, a.startRemote); }
      AncestorsGrow(g, a.head, tip.value);
      AttributedReachHead(g, d, base, pending);
    }
  }

  lemma AttributedReachHead(g: Graph, d: Delivery, base: Option<Sha>, pending: Option<Sha>)
    requires Attributed(g, d, base, pending) && d.head.Some?
    ensures d.commits.Some? ==> Shas(d.commits.value) <= Ancestors(g, d.head.value)
    ensures d.recovered.Some? ==> Shas(d.recovered.value) <= Ancestors(g, d.head.value)
  {
    if d.recovered.Some? {
      var start := d.start.value;
      AncestorsGrow(g, start, d.head.value);
      forall s | s in Shas(d.recovered.value) ensures s in Ancestors(g, start) {
        if s in Inherited(g, start, Anchor(d.startRemote, base)) {} else { AncInGraph(g, s, start); }
      }
    }
  }
}
