/** Resolving a path through the symbolic links of a Kit. */
module KitLinks {
  import opened Wrappers
  import opened Strings
  import opened KitPaths

  type Links = map<string, string>

  datatype LinkError = Cycle(link: string) | Unsafe | Absent

  // ----- One rewriting step -----------------------------------------------------------------

  /** Join(p[..k]) is a link that resolution follows. */
  predicate LinkAt(links: Links, follow: bool, p: seq<string>, k: int) {
    1 <= k <= |p| && Slashed(p[..k]) in links && (follow || k < |p|)
  }

  /** A path is replaced at its shortest prefix that is a link. */
  datatype Move = Done | Stuck | To(link: string, next: seq<string>)

  function FirstLink(links: Links, follow: bool, p: seq<string>, from: nat): (r: Option<nat>)
    ensures r.Some? ==> LinkAt(links, follow, p, r.value) && r.value >= from
    ensures forall k :: from <= k <= |p| && LinkAt(links, follow, p, k) ==> r.Some? && r.value <= k
    decreases |p| + 1 - from
  {
    if from > |p| then None
    else if LinkAt(links, follow, p, from) then Some(from)
    else FirstLink(links, follow, p, from + 1)
  }

  function MoveFrom(links: Links, follow: bool, p: seq<string>): Move {
    var first := FirstLink(links, follow, p, 1);
    if first.None? then Done
    else
      var link := Slashed(p[..first.value]);
      match SymlinkTargetRelative(link, links[link])
      case Err(_) => Stuck
      case Ok(target) => To(link, Parts(target) + p[first.value..])
  }

  /** p is rewritten to q through the links used, in that order. */
  ghost predicate Derives(links: Links, follow: bool, p: seq<string>, used: seq<string>, q: seq<string>)
    decreases |used|
  {
    if used == [] then p == q
    else
      var m := MoveFrom(links, follow, p);
      m.To? && m.link == used[0] && Derives(links, follow, m.next, used[1..], q)
  }

  predicate Distinct(used: seq<string>) {
    forall i, j :: 0 <= i < j < |used| ==> used[i] != used[j]
  }

  /** Resolution of p ends at q, which no link rewrites, after following the links used. */
  ghost predicate Normalises(links: Links, follow: bool, p: seq<string>, used: seq<string>, q: seq<string>) {
    Derives(links, follow, p, used, q) && MoveFrom(links, follow, q).Done?
  }

  lemma {:induction false} DerivesMore(links: Links, follow: bool, p: seq<string>, used: seq<string>,
                                       q: seq<string>, link: string, next: seq<string>)
    requires Derives(links, follow, p, used, q) && MoveFrom(links, follow, q) == To(link, next)
    ensures Derives(links, follow, p, used + [link], next)
    decreases |used|
  {
    hide MoveFrom;
    if used == [] {
      assert ([link])[1..] == [] && used + [link] == [link];
    } else {
      assert (used + [link])[1..] == used[1..] + [link];
      DerivesMore(links, follow, MoveFrom(links, follow, p).next, used[1..], q, link, next);
    }
  }

  /** Every derivation from p is a first part of the one that ends. */
  lemma {:induction false} DerivationIsPrefix(links: Links, follow: bool, p: seq<string>,
      used: seq<string>, q: seq<string>, all: seq<string>, end: seq<string>)
    requires Derives(links, follow, p, used, q) && Normalises(links, follow, p, all, end)
    ensures used <= all && Normalises(links, follow, q, all[|used|..], end)
    decreases |used|
  {
    hide MoveFrom;
    if used != [] {
      DerivationIsPrefix(links, follow, MoveFrom(links, follow, p).next, used[1..], q, all[1..], end);
      assert all[1..][|used| - 1..] == all[|used|..];
    }
  }

  /** The normal form and the links on the way to it are unique. */
  lemma NormalFormIsUnique(links: Links, follow: bool, p: seq<string>,
      used: seq<string>, q: seq<string>, used': seq<string>, q': seq<string>)
    requires Normalises(links, follow, p, used, q) && Normalises(links, follow, p, used', q')
    ensures used == used' && q == q'
  {
    DerivationIsPrefix(links, follow, p, used, q, used', q');
    DerivationIsPrefix(links, follow, p, used', q', used, q);
  }

  /** A path that comes back to itself has no normal form. */
  lemma {:induction false} CycleNeverEnds(links: Links, follow: bool, q: seq<string>, loop: seq<string>,
                                          all: seq<string>, end: seq<string>)
    requires Derives(links, follow, q, loop, q) && loop != []
    ensures !Normalises(links, follow, q, all, end)
    decreases |all|
  {
    if Normalises(links, follow, q, all, end) {
      DerivationIsPrefix(links, follow, q, loop, q, all, end);
      CycleNeverEnds(links, follow, q, loop, all[|loop|..], end);
    }
  }

  // ----- The resolver -----------------------------------------------------------------------

  /** p resolves to the member r, each link followed at most once. */
  ghost predicate Resolves(links: Links, members: set<string>, follow: bool, path: string, r: string) {
    exists used, q ::
      Normalises(links, follow, Parts(path), used, q) && Distinct(used) && Slashed(q) == r && r in members
  }

  /** Why resolution gives up at q. */
  ghost predicate GivesUp(links: Links, members: set<string>, follow: bool, used: seq<string>,
                          q: seq<string>, e: LinkError)
  {
    match MoveFrom(links, follow, q)
    case Done => e == Absent && Slashed(q) !in members
    case Stuck => e == Unsafe
    case To(link, _) => e == Cycle(link) && link in used
  }

  ghost predicate Refused(links: Links, members: set<string>, follow: bool, path: string, e: LinkError) {
    exists used, q ::
      && Derives(links, follow, Parts(path), used, q)
      && Distinct(used)
      && GivesUp(links, members, follow, used, q, e)
  }

  ghost predicate NoLinkUpTo(links: Links, follow: bool, p: seq<string>, n: int) {
    forall k :: 1 <= k <= n ==> !LinkAt(links, follow, p, k)
  }

  /** The walk from p stands after the link-free part resolved, having followed the links used. */
  ghost predicate Walking(links: Links, follow: bool, p: seq<string>, used: seq<string>,
                          resolved: seq<string>, pending: seq<string>)
  {
    && NoLinkUpTo(links, follow, resolved + pending, |resolved|)
    && Derives(links, follow, p, used, resolved + pending)
    && Distinct(used)
  }

  method ResolvePath(path: string, links: Links, members: set<string>, follow: bool)
    returns (r: Result<string, LinkError>)
    ensures r.Ok? ==> Resolves(links, members, follow, path, r.value)
    ensures r.Err? ==> Refused(links, members, follow, path, r.error)
  {
    hide *;
    var pending := Parts(path);
    var resolved: seq<string> := [];
    var visited: set<string> := {};
    ghost var used: seq<string> := [];
    WalkStarts(links, follow, Parts(path));
    while pending != []
      invariant Walking(links, follow, Parts(path), used, resolved, pending)
      invariant forall v :: v in visited <==> v in used
      invariant forall v :: v in visited ==> v in links && SymlinkTargetRelative(v, links[v]).Ok?
      decreases |links.Keys - visited|, |pending|
    {
      ghost var before, rest, cur := resolved, pending, resolved + pending;
      resolved, pending := resolved + [pending[0]], pending[1..];
      assert rest == [resolved[|before|]] + pending;
      var candidate := Slashed(resolved);
      if candidate !in links || (pending == [] && !follow) {
        WalkAdvances(links, follow, Parts(path), used, before, resolved, pending);
        continue;
      }
      WalkMeetsLink(links, follow, Parts(path), used, before, resolved, pending);
      if candidate in visited {
        WalkGivesUp(links, members, follow, path, used, cur, Cycle(candidate));
        return Err(Cycle(candidate));
      }
      var nested := SymlinkTargetRelative(candidate, links[candidate]);
      if nested.Err? {
        WalkGivesUp(links, members, follow, path, used, cur, Unsafe);
        return Err(Unsafe);
      }
      WalkFollows(links, follow, Parts(path), used, cur, candidate, Parts(nested.value) + pending);
      assert candidate in links.Keys - visited;
      visited := visited + {candidate};
      used := used + [candidate];
      resolved, pending := [], Parts(nested.value) + pending;
    }
    var candidate := Slashed(resolved);
    WalkArrives(links, members, follow, path, used, resolved);
    if candidate !in members {
      return Err(Absent);
    }
    r := Ok(candidate);
  }

  lemma WalkStarts(links: Links, follow: bool, p: seq<string>)
    ensures Walking(links, follow, p, [], [], p)
  {
    assert [] + p == p;
  }

  lemma WalkAdvances(links: Links, follow: bool, p: seq<string>, used: seq<string>,
                     before: seq<string>, resolved: seq<string>, pending: seq<string>)
    requires |resolved| == |before| + 1 && before == resolved[..|before|]
    requires Walking(links, follow, p, used, before, [resolved[|before|]] + pending)
    requires Slashed(resolved) !in links || (pending == [] && !follow)
    ensures Walking(links, follow, p, used, resolved, pending)
  {
    hide Slashed, Derives;
    var cur := resolved + pending;
    assert before + ([resolved[|before|]] + pending) == cur;
    assert cur[..|resolved|] == resolved;
  }

  lemma WalkMeetsLink(links: Links, follow: bool, p: seq<string>, used: seq<string>,
                      before: seq<string>, resolved: seq<string>, pending: seq<string>)
    requires |resolved| == |before| + 1 && before == resolved[..|before|]
    requires Walking(links, follow, p, used, before, [resolved[|before|]] + pending)
    requires Slashed(resolved) in links && (pending == [] ==> follow)
    ensures Derives(links, follow, p, used, before + ([resolved[|before|]] + pending)) && Distinct(used)
    ensures var link := Slashed(resolved);
      MoveFrom(links, follow, before + ([resolved[|before|]] + pending))
      == match SymlinkTargetRelative(link, links[link])
         case Err(_) => Stuck
         case Ok(target) => To(link, Parts(target) + pending)
  {
    hide Slashed, Derives, Parts, SymlinkTargetRelative, FirstLink, MoveFrom;
    var cur := resolved + pending;
    assert before + ([resolved[|before|]] + pending) == cur;
    assert cur[..|resolved|] == resolved && cur[|resolved|..] == pending;
    FirstLinkIs(links, follow, cur, |resolved|);
  }

  lemma WalkFollows(links: Links, follow: bool, p: seq<string>, used: seq<string>, cur: seq<string>,
                    link: string, next: seq<string>)
    requires Derives(links, follow, p, used, cur) && Distinct(used)
    requires MoveFrom(links, follow, cur) == To(link, next) && link !in used
    ensures Walking(links, follow, p, used + [link], [], next)
  {
    hide Derives, MoveFrom;
    DerivesMore(links, follow, p, used, cur, link, next);
    assert [] + next == next;
  }

  lemma WalkGivesUp(links: Links, members: set<string>, follow: bool, path: string,
                    used: seq<string>, q: seq<string>, e: LinkError)
    requires Derives(links, follow, Parts(path), used, q) && Distinct(used)
    requires (MoveFrom(links, follow, q) == Stuck && e == Unsafe)
             || (MoveFrom(links, follow, q).To? && e == Cycle(MoveFrom(links, follow, q).link) && e.link in used)
    ensures Refused(links, members, follow, path, e)
  {
    hide Derives, MoveFrom, Parts;
    assert GivesUp(links, members, follow, used, q, e);
  }

  lemma WalkArrives(links: Links, members: set<string>, follow: bool, path: string,
                    used: seq<string>, resolved: seq<string>)
    requires Walking(links, follow, Parts(path), used, resolved, [])
    ensures if Slashed(resolved) in members then Resolves(links, members, follow, path, Slashed(resolved))
            else Refused(links, members, follow, path, Absent)
  {
    hide Derives, Parts, Slashed;
    assert resolved + [] == resolved;
    assert MoveFrom(links, follow, resolved).Done?;
    assert Normalises(links, follow, Parts(path), used, resolved);
    if Slashed(resolved) !in members { assert GivesUp(links, members, follow, used, resolved, Absent); }
  }

  lemma FirstLinkIs(links: Links, follow: bool, p: seq<string>, k: nat)
    requires NoLinkUpTo(links, follow, p, k - 1) && LinkAt(links, follow, p, k)
    ensures var link := Slashed(p[..k]);
      MoveFrom(links, follow, p)
      == match SymlinkTargetRelative(link, links[link])
         case Err(_) => Stuck
         case Ok(target) => To(link, Parts(target) + p[k..])
  {
    hide Slashed, Parts, SymlinkTargetRelative;
    assert FirstLink(links, follow, p, 1) == Some(k);
  }

  // ----- What resolution promises -----------------------------------------------------------

  lemma {:induction false} DerivesClean(links: Links, follow: bool, p: seq<string>, used: seq<string>, q: seq<string>)
    requires Derives(links, follow, p, used, q) && p != [] && Clean(p, SLASH)
    ensures q != [] && Clean(q, SLASH)
    decreases |used|
  {
    if used != [] {
      var k := FirstLink(links, follow, p, 1).value;
      var link := Slashed(p[..k]);
      var target := SymlinkTargetRelative(link, links[link]).value;
      SplitIsClean(target, SLASH);
      assert forall x :: x in p[k..] ==> x in p;
      DerivesClean(links, follow, Parts(target) + p[k..], used[1..], q);
    }
  }

  lemma DoneHasNoLink(links: Links, follow: bool, q: seq<string>)
    requires MoveFrom(links, follow, q).Done?
    ensures forall k :: 1 <= k <= |q| ==> !LinkAt(links, follow, q, k)
  {}

  /** What is returned is a member none of whose checked prefixes is a link. */
  lemma ResolvedIsPlainMember(links: Links, members: set<string>, follow: bool, path: string, r: string)
    requires Resolves(links, members, follow, path, r)
    ensures r in members
    ensures forall k :: 1 <= k <= |Parts(r)| ==> !LinkAt(links, follow, Parts(r), k)
  {
    hide Derives, MoveFrom, LinkAt, Parts, Slashed;
    var used, q :| Normalises(links, follow, Parts(path), used, q) && Slashed(q) == r && r in members;
    PartsAreClean(path);
    DerivesClean(links, follow, Parts(path), used, q);
    PartsOfSlashed(q);
    DoneHasNoLink(links, follow, q);
  }

  /** Two results agree. */
  lemma ResolutionIsUnique(links: Links, members: set<string>, follow: bool, path: string, r: string, r': string)
    requires Resolves(links, members, follow, path, r) && Resolves(links, members, follow, path, r')
    ensures r == r'
  {
    hide Slashed, Parts, MoveFrom, Derives;
    var p := Parts(path);
    var used, q :| Normalises(links, follow, p, used, q) && Slashed(q) == r;
    var used', q' :| Normalises(links, follow, p, used', q') && Slashed(q') == r';
    NormalFormIsUnique(links, follow, p, used, q, used', q');
  }

  /** Acceptance and refusal exclude each other, so each is exact. */
  lemma ResolvedNotRefused(links: Links, members: set<string>, follow: bool, path: string, r: string, e: LinkError)
    requires Resolves(links, members, follow, path, r)
    ensures !Refused(links, members, follow, path, e)
  {
    hide Slashed, Parts, MoveFrom;
    if Refused(links, members, follow, path, e) {
      var p := Parts(path);
      var all, end :| Normalises(links, follow, p, all, end) && Distinct(all) && Slashed(end) == r && r in members;
      var used, q :| Derives(links, follow, p, used, q) && Distinct(used)
        && GivesUp(links, members, follow, used, q, e);
      DerivationIsPrefix(links, follow, p, used, q, all, end);
    }
  }

  /** p can be rewritten n times. */
  ghost predicate GoesOn(links: Links, follow: bool, p: seq<string>, n: nat) {
    exists used, q :: |used| == n && Derives(links, follow, p, used, q)
  }

  /** A path whose rewriting never ends, because it cycles or because it grows for ever, is
      refused, whatever the members. */
  lemma EndlessIsRefused(links: Links, members: set<string>, follow: bool, path: string, r: string)
    requires forall n: nat :: GoesOn(links, follow, Parts(path), n)
    ensures !Resolves(links, members, follow, path, r)
  {
    hide MoveFrom, Parts, Slashed, Derives;
    if Resolves(links, members, follow, path, r) {
      var all, end :| Normalises(links, follow, Parts(path), all, end) && Distinct(all);
      assert GoesOn(links, follow, Parts(path), |all| + 1);
      var used, q :| |used| == |all| + 1 && Derives(links, follow, Parts(path), used, q);
      DerivationIsPrefix(links, follow, Parts(path), used, q, all, end);
    }
  }

  /** A genuinely cyclic path is refused, whatever the members. */
  lemma CyclicIsRefused(links: Links, members: set<string>, follow: bool, path: string, r: string,
                        used: seq<string>, q: seq<string>, loop: seq<string>)
    requires Derives(links, follow, Parts(path), used, q) && Derives(links, follow, q, loop, q) && loop != []
    ensures !Resolves(links, members, follow, path, r)
  {
    if Resolves(links, members, follow, path, r) {
      var all, end :| Normalises(links, follow, Parts(path), all, end);
      DerivationIsPrefix(links, follow, Parts(path), used, q, all, end);
      CycleNeverEnds(links, follow, q, loop, all[|used|..], end);
    }
  }

  // ----- A path that grows for ever ---------------------------------------------------------

  const GROWING: Links := map["a" := "a/b"]

  lemma GrowingFacts()
    ensures Slashed(["a"]) == "a" && Parts("a") == ["a"] && Parts("a/b") == ["a", "b"]
    ensures SymlinkTargetRelative("a", "a/b") == Ok("a/b")
  {
    hide SymlinkTargetRelative, NormFold;
    assert Slashed(["a"]) == "a";
    assert ["a", "b"][1..] == ["b"] && Slashed(["b"]) == "b" && Slashed(["a", "b"]) == "a/b";
    PartsOfSlashed(["a"]);
    PartsOfSlashed(["a", "b"]);
    NormFoldPlain([], ["a", "b"], false);
    assert [] + ["a", "b"] == ["a", "b"] && [] + ["a"] == ["a"];
    assert "a/b"[0] != SLASH;
    RelativeTargetIff([], "a", "a/b");
  }

  lemma GrowingMove(rest: seq<string>)
    ensures MoveFrom(GROWING, true, ["a"] + rest) == To("a", ["a"] + (["b"] + rest))
  {
    hide SymlinkTargetRelative, Slashed, Parts;
    GrowingFacts();
    var p := ["a"] + rest;
    assert p[..1] == ["a"] && p[1..] == rest;
    FirstLinkIs(GROWING, true, p, 1);
    assert ["a", "b"] + rest == ["a"] + (["b"] + rest);
  }

  lemma {:induction false} GrowingGoesOn(rest: seq<string>, n: nat)
    ensures GoesOn(GROWING, true, ["a"] + rest, n)
    decreases n
  {
    hide MoveFrom;
    if n == 0 {
      assert Derives(GROWING, true, ["a"] + rest, [], ["a"] + rest);
    } else {
      GrowingMove(rest);
      GrowingGoesOn(["b"] + rest, n - 1);
      var used, q :| |used| == n - 1 && Derives(GROWING, true, ["a"] + (["b"] + rest), used, q);
      assert (["a"] + used)[1..] == used;
      assert Derives(GROWING, true, ["a"] + rest, ["a"] + used, q);
    }
  }

  /** The link a -> a/b never comes back to the same path, and is refused. */
  lemma GrowingIsRefused(members: set<string>, r: string)
    ensures !Resolves(GROWING, members, true, "a", r)
  {
    hide Resolves, GoesOn;
    GrowingFacts();
    forall n: nat ensures GoesOn(GROWING, true, Parts("a"), n) {
      assert ["a"] + [] == ["a"];
      GrowingGoesOn([], n);
    }
    EndlessIsRefused(GROWING, members, true, "a", r);
  }

  // ----- A path that is refused although it does not cycle ----------------------------------

  const DETOUR: Links := map["d" := "b", "b/c" := "../d/f"]

  lemma DetourPaths()
    ensures Slashed(["d"]) == "d" && Slashed(["b"]) == "b" && Slashed(["f"]) == "f"
    ensures Slashed(["b", "c"]) == "b/c" && Slashed(["d", "f"]) == "d/f"
    ensures Slashed(["b", "f"]) == "b/f" && Slashed(["d", "c"]) == "d/c"
  {
    assert ["b", "c"][1..] == ["c"] && ["d", "f"][1..] == ["f"];
    assert ["b", "f"][1..] == ["f"] && ["d", "c"][1..] == ["c"];
  }

  lemma DetourTargets()
    ensures SymlinkTargetRelative("d", "b") == Ok("b")
    ensures SymlinkTargetRelative("b/c", "../d/f") == Ok("d/f")
  {
    hide SymlinkTargetRelative, NormFold, Parts, Slashed;
    DetourPaths();
    DetourFolds();
    assert "b"[0] != SLASH && "../d/f"[0] != SLASH;
    assert [] + ["d"] == ["d"] && ["b"] + ["c"] == ["b", "c"];
    RelativeTargetIff([], "d", "b");
    RelativeTargetIff(["b"], "c", "../d/f");
  }

  lemma DetourFolds()
    ensures NormFold([], Parts("b"), false) == ["b"]
    ensures NormFold(["b"], Parts("../d/f"), false) == ["d", "f"]
  {
    SplitPiece("b", SLASH);
    NormFoldPlain([], ["b"], false);
    var parts := ["..", "d", "f"];
    assert Slashed(parts) == "../d/f" by {
      assert parts[1..] == ["d", "f"] && ["d", "f"][1..] == ["f"];
    }
    SplitOfJoin(parts, SLASH);
    assert NormStep(["b"], "..", false) == [];
    assert parts[1..] == ["d", "f"];
    NormFoldPlain([], ["d", "f"], false);
  }

  lemma DetourMoves()
    ensures MoveFrom(DETOUR, true, ["d", "c"]) == To("d", ["b", "c"])
    ensures MoveFrom(DETOUR, true, ["b", "c"]) == To("b/c", ["d", "f"])
    ensures MoveFrom(DETOUR, true, ["d", "f"]) == To("d", ["b", "f"])
    ensures MoveFrom(DETOUR, true, ["b", "f"]) == Done
  {
    hide SymlinkTargetRelative, Slashed, Parts;
    DetourPaths();
    DetourTargets();
    DetourParts();
    assert ["d", "c"][..1] == ["d"] && ["d", "f"][..1] == ["d"];
    assert ["b", "c"][..1] == ["b"] && ["b", "f"][..1] == ["b"];
    assert ["b", "c"][..2] == ["b", "c"] && ["b", "f"][..2] == ["b", "f"];
    FirstLinkIs(DETOUR, true, ["d", "c"], 1);
    FirstLinkIs(DETOUR, true, ["b", "c"], 2);
    FirstLinkIs(DETOUR, true, ["d", "f"], 1);
    assert ["b"] + ["d", "c"][1..] == ["b", "c"] && ["b"] + ["d", "f"][1..] == ["b", "f"];
    assert ["d", "f"] + ["b", "c"][2..] == ["d", "f"];
  }

  lemma DetourParts()
    ensures Parts("b") == ["b"] && Parts("d/f") == ["d", "f"] && Parts("d/c") == ["d", "c"]
  {
    DetourPaths();
    SplitOfJoin(["b"], SLASH);
    SplitOfJoin(["d", "f"], SLASH);
    SplitOfJoin(["d", "c"], SLASH);
  }

  /** d/c ends at the member b/f after d, b/c and d again, and is refused for following d twice. */
  lemma DetourIsRefused()
    ensures Normalises(DETOUR, true, Parts("d/c"), ["d", "b/c", "d"], ["b", "f"])
    ensures Slashed(["b", "f"]) == "b/f"
    ensures Refused(DETOUR, {"b/f"}, true, "d/c", Cycle("d"))
    ensures !Resolves(DETOUR, {"b/f"}, true, "d/c", "b/f")
  {
    hide MoveFrom, Slashed, Parts;
    DetourPaths();
    DetourParts();
    DetourMoves();
    var used := ["d", "b/c", "d"];
    assert used[1..] == ["b/c", "d"] && used[1..][1..] == ["d"] && used[1..][1..][1..] == [];
    assert Derives(DETOUR, true, ["d", "f"], ["d"], ["b", "f"]);
    assert Derives(DETOUR, true, ["b", "c"], used[1..], ["b", "f"]);
    var twice := ["d", "b/c"];
    assert twice[1..] == ["b/c"] && twice[1..][1..] == [];
    assert Derives(DETOUR, true, ["b", "c"], twice[1..], ["d", "f"]);
    assert GivesUp(DETOUR, {"b/f"}, true, twice, ["d", "f"], Cycle("d"));
    assert Derives(DETOUR, true, Parts("d/c"), twice, ["d", "f"]) && Distinct(twice);
    if Resolves(DETOUR, {"b/f"}, true, "d/c", "b/f") {
      ResolvedNotRefused(DETOUR, {"b/f"}, true, "d/c", "b/f", Cycle("d"));
    }
  }
}
