/** Exporting a Docker tar stream: the member loop and what the archive then lists. */
module KitStream {
  import opened Wrappers
  import opened KitPaths
  import opened KitExport
  import opened KitArchive

  // ----- One member -------------------------------------------------------------------------

  /** A member the export drops or rewrites. */
  predicate Exportable(m: Member) {
    && SourceName(m.name).Ok?
    && (SourceName(m.name).value.Some? ==> !m.body.OtherBody? && (m.body.HardBody? ==> Accepted(m.body.linkname)))
  }

  predicate Stays(m: Member) {
    SourceName(m.name).Ok? && SourceName(m.name).value.Some?
  }

  function InKitPath(m: Member): string
    requires Stays(m)
  {
    SourceName(m.name).value.value
  }

  function Rewritten(m: Member, kit: string): Member
    requires Stays(m) && Exportable(m)
  {
    var name := kit + "/" + InKitPath(m);
    match m.body
    case HardBody(linkname) =>
      ExportedTarget(linkname, kit);
      Member(name, HardBody(HardlinkTarget(linkname, kit).value))
    case _ => Member(name, m.body)
  }

  /** What a member of the stream stands for inside the Kit. */
  function Meant(m: Member): Node
    requires Stays(m) && Exportable(m)
  {
    match m.body
    case FileBody(content) => File(content)
    case SymBody(target) => Sym(target)
    case HardBody(linkname) => Hard(InKit(linkname))
    case _ => Dir
  }

  /** Hard-link targets that read back unchanged. */
  predicate LinkReadsBack(m: Member, kit: string) {
    m.body.HardBody? && Accepted(m.body.linkname) ==>
      var l := m.body.linkname;
      !NamedLikeKit(l, kit) && InKit(l) !in EXCLUDED && '\\' !in l
  }

  /** Exporting then reading a member gives what it stood for, exactly when its link reads back. */
  lemma MemberReadsBackIff(m: Member, kit: string)
    requires SafeComponent(kit) && Stays(m) && Exportable(m)
    ensures ReadMember(Rewritten(m, kit), kit)
            == (if InKitPath(m) in EXCLUDED then Ok(None) else Ok(Some((InKitPath(m), Meant(m)))))
            <==> InKitPath(m) in EXCLUDED || LinkReadsBack(m, kit)
  {
    hide SourceName, ArchiveRelative, ArchiveLinkTarget, HardlinkTarget, Accepted, InKit, NamedLikeKit;
    NameIsPlain(m);
    MemberNameRoundTrip(InKitPath(m), kit);
    if m.body.HardBody? { HardlinkRoundTripIff(InKitPath(m), m.body.linkname, kit); }
  }

  lemma NameIsPlain(m: Member)
    requires Stays(m)
    ensures InKitName(InKitPath(m)) && '\\' !in InKitPath(m)
  {
    hide SourceName;
    SourceNameIsPlain(m.name);
  }

  // ----- The member loop --------------------------------------------------------------------

  function Kept(ms: seq<Member>): (r: seq<Member>)
    ensures forall m :: m in r <==> m in ms && Stays(m)
  {
    if ms == [] then []
    else
      var last := ms[|ms| - 1];
      Kept(ms[..|ms| - 1]) + (if Stays(last) then [last] else [])
  }

  /** No two kept members have one in-Kit path. */
  predicate DistinctPaths(kept: seq<Member>) {
    && (forall m :: m in kept ==> Stays(m))
    && forall i, j :: 0 <= i < j < |kept| ==> InKitPath(kept[i]) != InKitPath(kept[j])
  }

  predicate StreamFine(ms: seq<Member>) {
    (forall m :: m in ms ==> Exportable(m)) && DistinctPaths(Kept(ms))
  }

  predicate Rewrites(out: seq<Member>, kept: seq<Member>, kit: string) {
    && |out| == |kept|
    && forall i :: 0 <= i < |kept| ==> Stays(kept[i]) && Exportable(kept[i]) && out[i] == Rewritten(kept[i], kit)
  }

  /** What the loop has done after the members done. */
  ghost predicate Progress(done: seq<Member>, seen: set<string>, out: seq<Member>, kit: string) {
    StreamFine(done) && Rewrites(out, Kept(done), kit) && SeenAre(seen, Kept(done))
  }

  ghost predicate SeenAre(seen: set<string>, kept: seq<Member>) {
    forall p :: p in seen <==> exists i :: 0 <= i < |kept| && Stays(kept[i]) && InKitPath(kept[i]) == p
  }

  method ExportArchive(ms: seq<Member>, kit: string) returns (r: Result<seq<Member>, KitError>)
    ensures r.Ok? <==> SafeComponent(kit) && StreamFine(ms)
    ensures r.Ok? ==> r.value != [] && r.value[0] == Member(kit, DirBody) && Rewrites(r.value[1..], Kept(ms), kit)
  {
    hide Exportable, Stays, InKitPath, Rewritten, StreamFine, Rewrites, Kept, Progress, SourceName, HardlinkTarget;
    if !SafeComponent(kit) {
      return Err(BadPath);
    }
    var seen: set<string> := {};
    var out: seq<Member> := [];
    var i := 0;
    assert Progress(ms[..0], seen, out, kit) by { NoProgress(kit); }
    while i < |ms|
      invariant i <= |ms|
      invariant Progress(ms[..i], seen, out, kit)
    {
      var m := ms[i];
      assert ms[..i + 1] == ms[..i] + [m];
      var relative := SourceRelative(m.name);
      MemberCases(m, kit);
      if relative.Err? {
        NotFine(ms, i);
        return Err(BadPath);
      }
      if relative.value.None? {
        SkipOne(ms[..i], m, seen, out, kit);
      } else {
        if relative.value.value in seen {
          SeenTwice(ms, i, seen, out, kit);
          return Err(Duplicate);
        }
        if m.body.OtherBody? || (m.body.HardBody? && HardlinkTarget(m.body.linkname, kit).Err?) {
          NotFine(ms, i);
          return Err(Unsupported);
        }
        OneMore(ms[..i], m, seen, out, kit);
        seen := seen + {relative.value.value};
        out := out + [Rewritten(m, kit)];
      }
      i := i + 1;
    }
    assert ms[..i] == ms;
    assert StreamFine(ms) && Rewrites(out, Kept(ms), kit) by { WhatProgressMeans(ms, seen, out, kit); }
    r := Ok([Member(kit, DirBody)] + out);
    assert r.value[1..] == out;
  }

  lemma NoProgress(kit: string)
    ensures Progress([], {}, [], kit)
  {}

  lemma WhatProgressMeans(ms: seq<Member>, seen: set<string>, out: seq<Member>, kit: string)
    requires Progress(ms, seen, out, kit)
    ensures StreamFine(ms) && Rewrites(out, Kept(ms), kit)
  {
    hide StreamFine, Rewrites, Kept;
  }

  lemma MemberCases(m: Member, kit: string)
    ensures Stays(m) <==> SourceName(m.name).Ok? && SourceName(m.name).value.Some?
    ensures Stays(m) ==> InKitPath(m) == SourceName(m.name).value.value
    ensures Exportable(m) <==>
              && SourceName(m.name).Ok?
              && (Stays(m) ==> !m.body.OtherBody?
                               && (m.body.HardBody? ==> HardlinkTarget(m.body.linkname, kit).Ok?))
  {
    hide SourceName, Accepted, HardlinkTarget;
    if m.body.HardBody? { ExportedTarget(m.body.linkname, kit); }
  }

  lemma NotFine(ms: seq<Member>, i: nat)
    requires i < |ms| && !Exportable(ms[i])
    ensures !StreamFine(ms)
  {
    hide Exportable, DistinctPaths;
  }

  lemma KeptOneMore(ms: seq<Member>, m: Member)
    ensures Kept(ms + [m]) == Kept(ms) + (if Stays(m) then [m] else [])
  {
    hide Stays;
    assert (ms + [m])[..|ms|] == ms;
  }

  lemma {:induction false} KeptGrows(ms: seq<Member>, i: nat)
    requires i <= |ms|
    ensures Kept(ms[..i]) <= Kept(ms)
    decreases |ms|
  {
    hide Stays;
    if i < |ms| {
      assert ms[..|ms| - 1][..i] == ms[..i];
      KeptGrows(ms[..|ms| - 1], i);
    } else {
      assert ms[..i] == ms;
    }
  }

  lemma SeenTwice(ms: seq<Member>, i: nat, seen: set<string>, out: seq<Member>, kit: string)
    requires i < |ms| && Progress(ms[..i], seen, out, kit)
    requires Stays(ms[i]) && InKitPath(ms[i]) in seen
    ensures !StreamFine(ms)
  {
    hide Stays, InKitPath, Exportable, Kept, Rewrites;
    KeptGrows(ms, i + 1);
    var a := Kept(ms[..i]);
    assert ms[..i] + [ms[i]] == ms[..i + 1];
    KeptOneMore(ms[..i], ms[i]);
    var j :| 0 <= j < |a| && Stays(a[j]) && InKitPath(a[j]) == InKitPath(ms[i]);
    assert Kept(ms)[j] == (a + [ms[i]])[j] == a[j] && Kept(ms)[|a|] == (a + [ms[i]])[|a|] == ms[i];
  }

  lemma SkipOne(ms: seq<Member>, m: Member, seen: set<string>, out: seq<Member>, kit: string)
    requires Progress(ms, seen, out, kit) && Exportable(m) && !Stays(m)
    ensures Progress(ms + [m], seen, out, kit)
  {
    hide Stays, InKitPath, Exportable, Kept, Rewrites;
    KeptOneMore(ms, m);
    assert Kept(ms) + [] == Kept(ms);
  }

  lemma OneMore(ms: seq<Member>, m: Member, seen: set<string>, out: seq<Member>, kit: string)
    requires Progress(ms, seen, out, kit)
    requires Stays(m) && Exportable(m) && InKitPath(m) !in seen
    ensures Progress(ms + [m], seen + {InKitPath(m)}, out + [Rewritten(m, kit)], kit)
  {
    hide Stays, InKitPath, Exportable, Rewritten, Kept;
    KeptOneMore(ms, m);
    var kept, more := Kept(ms), Kept(ms) + [m];
    assert Rewrites(out + [Rewritten(m, kit)], more, kit);
    assert DistinctPaths(more);
    SeenOneMore(seen, kept, m);
  }

  lemma SeenOneMore(seen: set<string>, kept: seq<Member>, m: Member)
    requires SeenAre(seen, kept) && Stays(m)
    ensures SeenAre(seen + {InKitPath(m)}, kept + [m])
  {
    hide Stays, InKitPath;
    var more := kept + [m];
    forall p | p in seen + {InKitPath(m)}
      ensures exists i :: 0 <= i < |more| && Stays(more[i]) && InKitPath(more[i]) == p
    {
      if p == InKitPath(m) {
        assert more[|kept|] == m;
      } else {
        var i :| 0 <= i < |kept| && Stays(kept[i]) && InKitPath(kept[i]) == p;
        assert more[i] == kept[i];
      }
    }
  }

  // ----- What the exported archive lists ----------------------------------------------------

  /** The path and node of the i-th kept member, unless excluded. */
  ghost predicate StandsAt(kept: seq<Member>, i: int, p: string, n: Node) {
    && 0 <= i < |kept| && Stays(kept[i]) && Exportable(kept[i])
    && p !in EXCLUDED && InKitPath(kept[i]) == p && Meant(kept[i]) == n
  }

  /** An exported archive lists exactly what the stream stood for, with distinct members kept
      distinct, whenever every hard link reads back. */
  lemma ExportListsStream(ms: seq<Member>, kit: string, out: seq<Member>, i: int, p: string, n: Node)
    requires SafeComponent(kit) && StreamFine(ms)
    requires out != [] && out[0] == Member(kit, DirBody) && Rewrites(out[1..], Kept(ms), kit)
    requires forall m :: m in Kept(ms) ==> LinkReadsBack(m, kit)
    ensures ReadsAt(out, kit, i, p, n) <==> StandsAt(Kept(ms), i - 1, p, n)
    ensures Listable(out, kit)
  {
    hide Stays, Exportable, InKitPath, Rewritten, Meant, LinkReadsBack, ReadMember;
    RootReads(kit);
    var kept := Kept(ms);
    forall k, p, n ensures ReadsAt(out, kit, k, p, n) <==> StandsAt(kept, k - 1, p, n) {
      if 1 <= k < |out| {
        assert out[1..][k - 1] == out[k] && kept[k - 1] in kept;
        MemberReadsBackIff(kept[k - 1], kit);
      }
    }
    forall k | 0 <= k < |out| ensures ReadMember(out[k], kit).Ok? {
      if k > 0 {
        assert out[1..][k - 1] == out[k] && kept[k - 1] in kept;
        MemberReadsBackIff(kept[k - 1], kit);
      }
    }
    forall k, j, p, n, n' | ReadsAt(out, kit, k, p, n) && ReadsAt(out, kit, j, p, n') ensures k == j {
      assert StandsAt(kept, k - 1, p, n) && StandsAt(kept, j - 1, p, n');
    }
  }

  lemma RootReads(kit: string)
    requires SafeComponent(kit)
    ensures ReadMember(Member(kit, DirBody), kit) == Ok(None)
  {}

  /** What the stream stands for, whatever the order of its members. */
  ghost predicate StandsFor(ms: seq<Member>, listing: Listing) {
    && (forall i, p, n :: StandsAt(Kept(ms), i, p, n) ==> p in listing && listing[p] == n)
    && (forall p :: p in listing ==> exists i :: StandsAt(Kept(ms), i, p, listing[p]))
  }

  lemma ExportedLists(ms: seq<Member>, kit: string, out: seq<Member>, listing: Listing)
    requires SafeComponent(kit) && StreamFine(ms)
    requires out != [] && out[0] == Member(kit, DirBody) && Rewrites(out[1..], Kept(ms), kit)
    requires forall m :: m in Kept(ms) ==> LinkReadsBack(m, kit)
    requires StandsFor(ms, listing)
    ensures Lists(out, kit, listing)
  {
    hide StreamFine, Rewrites, Kept, LinkReadsBack, StandsAt, ReadsAt, Listable;
    ExportListsStream(ms, kit, out, 0, "", Dir);
    forall i, p, n | ReadsAt(out, kit, i, p, n) ensures p in listing && listing[p] == n {
      ExportListsStream(ms, kit, out, i, p, n);
    }
    forall p | p in listing ensures exists i :: ReadsAt(out, kit, i, p, listing[p]) {
      var i :| StandsAt(Kept(ms), i, p, listing[p]);
      ExportListsStream(ms, kit, out, i + 1, p, listing[p]);
    }
  }
}
