/** In-Kit paths: POSIX normalisation, the safe relative form, and link targets. */
module KitPaths {
  import opened Wrappers
  import opened Strings

  const SLASH: char := '/'

  const EXCLUDED: set<string> := {"manifest.json", ".install-receipt.json", ".smoke-passed"}

  const NIX_STORE: string := "/nix/store"

  predicate StartsWith(s: string, prefix: string) {
    |prefix| <= |s| && s[..|prefix|] == prefix
  }

  function Parts(s: string): (r: seq<string>)
    ensures |r| > 0
  {
    Split(s, SLASH)
  }

  function Slashed(parts: seq<string>): string {
    Join(parts, SLASH)
  }

  lemma PartsAreClean(s: string)
    ensures Clean(Parts(s), SLASH) && Slashed(Parts(s)) == s
  {
    SplitIsClean(s, SLASH);
    JoinOfSplit(s, SLASH);
  }

  lemma PartsOfSlashed(parts: seq<string>)
    requires parts != [] && Clean(parts, SLASH)
    ensures Parts(Slashed(parts)) == parts
  {
    SplitOfJoin(parts, SLASH);
  }

  lemma PartsOfConcat(a: string, b: string)
    ensures Parts(a + [SLASH] + b) == Parts(a) + Parts(b)
  {
    SplitConcat(a, b, SLASH);
  }

  // ----- posixpath.normpath -----------------------------------------------------------------

  function NormStep(acc: seq<string>, part: string, absolute: bool): seq<string> {
    if part == "" || part == "." then acc
    else if part != ".." || (!absolute && acc == []) || (acc != [] && acc[|acc| - 1] == "..") then acc + [part]
    else if acc != [] then acc[..|acc| - 1]
    else acc
  }

  function NormFold(acc: seq<string>, parts: seq<string>, absolute: bool): seq<string>
    decreases |parts|
  {
    if parts == [] then acc else NormFold(NormStep(acc, parts[0], absolute), parts[1..], absolute)
  }

  /** Exactly two leading slashes are kept, any other number counts as one. */
  function LeadingSlashes(s: string): nat {
    if !StartsWith(s, "/") then 0
    else if StartsWith(s, "//") && !StartsWith(s, "///") then 2
    else 1
  }

  function NormPath(s: string): string {
    var slashes := LeadingSlashes(s);
    var kept := Slashed(NormFold([], Parts(s), slashes > 0));
    var r := if slashes == 2 then "//" + kept else if slashes == 1 then "/" + kept else kept;
    if r == "" then "." else r
  }

  // ----- The safe relative form -------------------------------------------------------------

  datatype PathError = UnsafePath | UnsafeTarget | EscapesRoot

  predicate PlainPart(p: string) {
    p != "" && p != "." && p != ".." && SLASH !in p
  }

  predicate Plain(parts: seq<string>) {
    forall p :: p in parts ==> PlainPart(p)
  }

  function RelativePath(value: string): Result<string, PathError> {
    var n := NormPath(value);
    if n == "" || n == "." || n == ".." || StartsWith(n, "../") || StartsWith(n, "/")
       || '\\' in value || "" in Parts(n) || ".." in Parts(n) || n in EXCLUDED
    then Err(UnsafePath)
    else Ok(n)
  }

  // ----- Facts about normalisation ----------------------------------------------------------

  lemma {:induction false} NormFoldPlain(acc: seq<string>, parts: seq<string>, absolute: bool)
    requires Plain(parts)
    ensures NormFold(acc, parts, absolute) == acc + parts
    decreases |parts|
  {
    if parts != [] {
      assert parts[0] in parts && parts == [parts[0]] + parts[1..];
      NormFoldPlain(acc + [parts[0]], parts[1..], absolute);
    } else {
      assert acc + parts == acc;
    }
  }

  lemma {:induction false} NormFoldConcat(acc: seq<string>, a: seq<string>, b: seq<string>, absolute: bool)
    ensures NormFold(acc, a + b, absolute) == NormFold(NormFold(acc, a, absolute), b, absolute)
    decreases |a|
  {
    if a == [] {
      assert a + b == b;
    } else {
      assert (a + b)[1..] == a[1..] + b;
      NormFoldConcat(NormStep(acc, a[0], absolute), a[1..], b, absolute);
    }
  }

  predicate Tidy(parts: seq<string>) {
    forall p :: p in parts ==> p != "" && p != "." && SLASH !in p
  }

  lemma {:induction false} NormFoldTidy(acc: seq<string>, parts: seq<string>, absolute: bool)
    requires Tidy(acc) && Clean(parts, SLASH)
    ensures Tidy(NormFold(acc, parts, absolute))
    decreases |parts|
  {
    if parts != [] {
      assert parts[0] in parts;
      NormFoldTidy(NormStep(acc, parts[0], absolute), parts[1..], absolute);
    }
  }

  lemma PlainStart(parts: seq<string>)
    requires Plain(parts) && parts != []
    ensures Parts(Slashed(parts)) == parts
    ensures Slashed(parts) != "" && LeadingSlashes(Slashed(parts)) == 0
  {
    assert parts[0] in parts && PlainPart(parts[0]);
    assert parts[0][0] in parts[0];
    SplitOfJoin(parts, SLASH);
    assert Slashed(parts)[0] == parts[0][0];
  }

  lemma NormPathOfPlain(parts: seq<string>)
    requires Plain(parts) && parts != []
    ensures NormPath(Slashed(parts)) == Slashed(parts)
  {
    PlainStart(parts);
    NormFoldPlain([], parts, false);
    assert [] + parts == parts;
  }

  /** Acceptance in full, and the form of what is returned. */
  lemma RelativePathIff(value: string)
    ensures var kept := NormFold([], Parts(value), false);
      && (RelativePath(value).Ok? <==>
            && !StartsWith(value, "/") && '\\' !in value
            && kept != [] && ".." !in kept
            && Slashed(kept) !in {"manifest.json", ".install-receipt.json", ".smoke-passed"})
      && (RelativePath(value).Ok? ==>
            RelativePath(value).value == Slashed(kept) && Plain(kept) && Parts(Slashed(kept)) == kept)
  {
    hide *;
    RelativePathFolds(value);
    ExcludedAre();
  }

  lemma ExcludedAre()
    ensures EXCLUDED == {"manifest.json", ".install-receipt.json", ".smoke-passed"}
  {}

  lemma RelativePathFolds(value: string)
    ensures var kept := NormFold([], Parts(value), false);
      && (RelativePath(value).Ok? <==>
            && !StartsWith(value, "/") && '\\' !in value
            && kept != [] && ".." !in kept && Slashed(kept) !in EXCLUDED)
      && (RelativePath(value).Ok? ==>
            RelativePath(value).value == Slashed(kept) && Plain(kept) && Parts(Slashed(kept)) == kept)
  {
    var kept := NormFold([], Parts(value), false);
    SplitIsClean(value, SLASH);
    NormFoldTidy([], Parts(value), false);
    if StartsWith(value, "/") {
      assert StartsWith(NormPath(value), "/");
    } else if kept != [] {
      SplitOfJoin(kept, SLASH);
      assert Parts(Slashed(kept)) == kept;
      assert kept[0] in kept;
      assert Slashed(kept)[0] == kept[0][0] && kept[0][0] in kept[0];
      assert NormPath(value) == Slashed(kept);
      DotsShowUp(kept);
    }
  }

  lemma RefusedAsUnsafe(value: string)
    ensures RelativePath(value).Err? ==> RelativePath(value).error == UnsafePath
  {
    hide NormPath, Parts, StartsWith;
  }

  lemma DotsShowUp(kept: seq<string>)
    requires Tidy(kept) && kept != []
    ensures Slashed(kept) != "."
    ensures Slashed(kept) == ".." || StartsWith(Slashed(kept), "../") ==> ".." in kept
  {
    SplitOfJoin(kept, SLASH);
    var s := Slashed(kept);
    if s == "." {
      SplitPiece(s, SLASH);
    }
    if s == ".." {
      SplitPiece(s, SLASH);
      assert ".." in kept;
    }
    if StartsWith(s, "../") {
      assert s == ".." + [SLASH] + s[3..];
      SplitConcat("..", s[3..], SLASH);
      SplitPiece("..", SLASH);
      assert kept[0] == "..";
    }
  }

  /** A plain path that is not excluded and holds no backslash is already in its safe form. */
  lemma RelativePathOfPlain(parts: seq<string>)
    requires Plain(parts) && parts != []
    ensures RelativePath(Slashed(parts))
            == if '\\' in Slashed(parts) || Slashed(parts) in EXCLUDED then Err(UnsafePath) else Ok(Slashed(parts))
  {
    PlainStart(parts);
    NormFoldPlain([], parts, false);
    assert [] + parts == parts;
    NormPathOfPlain(parts);
    RelativePathIff(Slashed(parts));
  }

  /** Normalising ignores empty parts and ".", and a plain part with the ".." that follows it; the
      root's parent is the root. With StackedIsNormal these laws determine it. */
  lemma NormalisationLaws(acc: seq<string>, a: seq<string>, p: string, b: seq<string>, absolute: bool)
    ensures p == "" || p == "." ==> NormFold(acc, a + [p] + b, absolute) == NormFold(acc, a + b, absolute)
    ensures PlainPart(p) ==> NormFold(acc, a + [p, ".."] + b, absolute) == NormFold(acc, a + b, absolute)
    ensures NormFold([], [".."] + b, true) == NormFold([], b, true)
  {
    hide NormFold;
    var before := NormFold(acc, a, absolute);
    NormFoldConcat(acc, a, b, absolute);
    assert a + [p] + b == a + ([p] + b) && a + [p, ".."] + b == a + ([p, ".."] + b);
    NormFoldConcat(acc, a, [p] + b, absolute);
    NormFoldConcat(acc, a, [p, ".."] + b, absolute);
    OneMorePart(before, p, b, absolute);
    assert [p, ".."] + b == [p] + ([".."] + b);
    OneMorePart(before, p, [".."] + b, absolute);
    OneMorePart(before + [p], "..", b, absolute);
    assert (before + [p])[..|before|] == before;
    OneMorePart([], "..", b, true);
  }

  lemma OneMorePart(acc: seq<string>, p: string, b: seq<string>, absolute: bool)
    ensures NormFold(acc, [p] + b, absolute) == NormFold(NormStep(acc, p, absolute), b, absolute)
  {
    assert ([p] + b)[1..] == b;
  }

  lemma NormEmpty()
    ensures NormPath("") == "." && RelativePath(".") == Err(UnsafePath)
  {
    assert Parts("") == [""] && [""][1..] == [];
    assert NormFold([], [""], false) == [];
    SplitPiece(".", SLASH);
    assert ["."][1..] == [] && NormFold([], ["."], false) == [];
    RelativePathIff(".");
  }

  // ----- Normalising twice ------------------------------------------------------------------

  /** All leading parts of a relative normal form that are ".." come first. */
  predicate Stacked(parts: seq<string>) {
    Tidy(parts) && forall i, j :: 0 <= i < j < |parts| && parts[j] == ".." ==> parts[i] == ".."
  }

  lemma StepStacked(acc: seq<string>, part: string)
    requires Stacked(acc) && SLASH !in part
    ensures Stacked(NormStep(acc, part, false))
  {
    var r := NormStep(acc, part, false);
    if r == acc + [part] && part == ".." && acc != [] {
      forall i | 0 <= i < |acc| ensures acc[i] == ".." {
        assert acc[|acc| - 1] == "..";
      }
    }
  }

  lemma {:induction false} FoldStacked(acc: seq<string>, parts: seq<string>)
    requires Stacked(acc) && Clean(parts, SLASH)
    ensures Stacked(NormFold(acc, parts, false))
    decreases |parts|
  {
    hide NormStep;
    if parts != [] {
      assert parts[0] in parts;
      StepStacked(acc, parts[0]);
      FoldStacked(NormStep(acc, parts[0], false), parts[1..]);
    }
  }

  lemma {:induction false} StackedIsNormal(acc: seq<string>, parts: seq<string>)
    requires Stacked(acc + parts)
    ensures NormFold(acc, parts, false) == acc + parts
    decreases |parts|
  {
    if parts == [] {
      assert acc + parts == acc;
    } else {
      var all := acc + parts;
      assert all[|acc|] == parts[0] && parts[0] in all;
      assert acc != [] ==> all[|acc| - 1] == acc[|acc| - 1];
      assert NormStep(acc, parts[0], false) == acc + [parts[0]];
      assert (acc + [parts[0]]) + parts[1..] == all;
      StackedIsNormal(acc + [parts[0]], parts[1..]);
    }
  }

  /** Folding keeps parts, it makes none up. */
  lemma {:induction false} FoldOnlyKeeps(acc: seq<string>, parts: seq<string>, p: string)
    requires p in NormFold(acc, parts, false)
    ensures p in acc || p in parts
    decreases |parts|
  {
    if parts != [] {
      var next := NormStep(acc, parts[0], false);
      FoldOnlyKeeps(next, parts[1..], p);
      if p in next && p !in acc { assert p == parts[0]; }
    }
  }

  lemma {:induction false} CharsOfSlashed(parts: seq<string>, c: char)
    requires c != SLASH
    ensures c in Slashed(parts) <==> exists p :: p in parts && c in p
  {
    if |parts| == 1 {
      assert parts[0] in parts;
    } else if |parts| > 1 {
      CharsOfSlashed(parts[1..], c);
      assert Slashed(parts) == parts[0] + [SLASH] + Slashed(parts[1..]);
      assert forall p :: p in parts <==> p == parts[0] || p in parts[1..];
    }
  }

  // ----- Directory part and symbolic link targets -------------------------------------------

  /** posixpath.dirname of a plain path. */
  function DirName(path: string): string {
    Slashed(Parts(path)[..|Parts(path)| - 1])
  }

  function PathJoin(a: string, b: string): string {
    if StartsWith(b, "/") then b
    else if a == "" || a[|a| - 1] == SLASH then a + b
    else a + "/" + b
  }

  /** The part after /nix/store/ names something inside it. */
  predicate StoreSuffix(suffix: string) {
    suffix != "" && "" !in Parts(suffix) && "." !in Parts(suffix) && ".." !in Parts(suffix)
  }

  function SymlinkTargetRelative(relative: string, target: string): Result<string, PathError> {
    if target == "" || '\\' in target then Err(UnsafeTarget)
    else if target == NIX_STORE then Ok("nix/store")
    else if StartsWith(target, NIX_STORE + "/") then
      var suffix := target[|NIX_STORE| + 1..];
      if StoreSuffix(suffix) then RelativePath("nix/store/" + suffix) else Err(UnsafeTarget)
    else if StartsWith(target, "/") then Err(UnsafeTarget)
    else RelativePath(NormPath(PathJoin(DirName(relative), target)))
  }

  lemma DirNameOfPlain(dir: seq<string>, name: string)
    requires Plain(dir + [name])
    ensures DirName(Slashed(dir + [name])) == Slashed(dir)
  {
    hide Slashed;
    PlainStart(dir + [name]);
    assert (dir + [name])[..|dir|] == dir;
  }

  /** Walking on from a directory: the parts of the joined path fold from the directory's own. */
  lemma NormOfJoined(dir: seq<string>, target: string)
    requires Plain(dir) && !StartsWith(target, "/") && target != ""
    ensures !StartsWith(PathJoin(Slashed(dir), target), "/")
    ensures NormFold([], Parts(PathJoin(Slashed(dir), target)), false) == NormFold(dir, Parts(target), false)
  {
    hide NormFold;
    if dir == [] {
      assert "" + target == target;
    } else {
      PlainStart(dir);
      var s := Slashed(dir);
      if s[|s| - 1] == SLASH { EndsInSlash(s); }
      SplitConcat(s, target, SLASH);
      NormFoldConcat([], dir, Parts(target), false);
      NormFoldPlain([], dir, false);
      assert [] + dir == dir;
    }
  }

  lemma EndsInSlash(s: string)
    requires s != "" && s[|s| - 1] == SLASH
    ensures "" in Parts(s)
  {
    var head := s[..|s| - 1];
    assert s == head + [SLASH] + "";
    SplitConcat(head, "", SLASH);
    assert Split("", SLASH)[0] == "";
  }

  /** Backslashes in what is kept come from the directory or the target. */
  lemma KeptBackslash(dir: seq<string>, name: string, target: string)
    requires '\\' !in Slashed(dir + [name]) && '\\' !in target
    ensures '\\' !in Slashed(NormFold(dir, Parts(target), false))
  {
    hide Slashed, NormFold, Parts;
    var kept := NormFold(dir, Parts(target), false);
    PartsAreClean(target);
    CharsOfSlashed(Parts(target), '\\');
    CharsOfSlashed(dir + [name], '\\');
    assert forall p :: p in dir ==> p in dir + [name];
    forall p | p in kept ensures '\\' !in p {
      FoldOnlyKeeps(dir, Parts(target), p);
    }
    CharsOfSlashed(kept, '\\');
  }

  /** A relative link target is walked from the directory of the link: accepted exactly when it
      holds no backslash, stays inside, keeps parts and is not excluded. */
  lemma RelativeTargetIff(dir: seq<string>, name: string, target: string)
    requires Plain(dir + [name]) && '\\' !in Slashed(dir + [name])
    requires target != "" && !StartsWith(target, "/")
    ensures var kept := NormFold(dir, Parts(target), false);
      SymlinkTargetRelative(Slashed(dir + [name]), target)
      == if '\\' in target then Err(UnsafeTarget)
         else if kept == [] || ".." in kept || Slashed(kept) in EXCLUDED then Err(UnsafePath)
         else Ok(Slashed(kept))
  {
    hide Slashed, NormFold, Parts, RelativePath, NormPath;
    if '\\' !in target {
      var kept := NormFold(dir, Parts(target), false);
      DirNameOfPlain(dir, name);
      assert target[0] != SLASH && target != NIX_STORE && !StartsWith(target, NIX_STORE + "/");
      JoinedNormal(dir, name, target);
      if kept == [] {
        NormEmpty();
      } else {
        KeptBackslash(dir, name, target);
        RelativeOfStacked(kept);
      }
    }
  }

  /** An absolute link target is accepted exactly when it is the Nix store or a plain path below
      it, and then stands for the same path inside the Kit; an empty target never is. */
  lemma AbsoluteTargetIff(relative: string, target: string)
    ensures SymlinkTargetRelative(relative, "") == Err(UnsafeTarget)
    ensures StartsWith(target, "/") ==>
      SymlinkTargetRelative(relative, target)
      == if '\\' !in target
            && (target == "/nix/store" || (StartsWith(target, "/nix/store/") && Plain(Parts(target[11..]))))
         then Ok(target[1..])
         else Err(UnsafeTarget)
  {
    hide RelativePath, Parts, StoreSuffix, Plain;
    if StartsWith(target, "/nix/store/") {
      var suffix := target[11..];
      PlainSuffix(suffix);
      assert target == "/nix/store/" + suffix && target[1..] == "nix/store/" + suffix;
      StoreChars(suffix);
      if Plain(Parts(suffix)) { BelowStore(suffix); }
    }
  }

  lemma StoreChars(suffix: string)
    ensures '\\' in "/nix/store/" + suffix <==> '\\' in suffix
    ensures '\\' in "nix/store/" + suffix <==> '\\' in suffix
  {
    var a, b := "/nix/store/" + suffix, "nix/store/" + suffix;
    if k :| 0 <= k < |suffix| && suffix[k] == '\\' {
      assert a[k + 11] == suffix[k] && b[k + 10] == suffix[k];
    }
  }

  lemma PlainSuffix(suffix: string)
    ensures StoreSuffix(suffix) <==> Plain(Parts(suffix))
  {
    PartsAreClean(suffix);
    if suffix == "" {
      assert Parts(suffix)[0] == "" && "" in Parts(suffix);
    }
  }

  /** A plain path below nix/store is in its safe form. */
  lemma BelowStore(suffix: string)
    requires Plain(Parts(suffix))
    ensures RelativePath("nix/store/" + suffix)
            == if '\\' in suffix then Err(UnsafePath) else Ok("nix/store/" + suffix)
  {
    hide Parts;
    var all := "nix/store/" + suffix;
    assert all == "nix" + [SLASH] + ("store" + [SLASH] + suffix);
    PartsOfConcat("nix", "store" + [SLASH] + suffix);
    PartsOfConcat("store", suffix);
    PartOfPlain("nix");
    PartOfPlain("store");
    var parts := Parts(all);
    assert Plain(parts);
    PartsAreClean(all);
    assert |all| > 9 && all[0] == 'n' && all[1] == 'i' && all[4] == 's';
    RelativePathOfPlain(parts);
    StoreChars(suffix);
  }

  lemma PartOfPlain(p: string)
    requires PlainPart(p)
    ensures Parts(p) == [p]
  {
    SplitPiece(p, SLASH);
  }

  lemma JoinedNormal(dir: seq<string>, name: string, target: string)
    requires Plain(dir + [name]) && target != "" && !StartsWith(target, "/")
    ensures var kept := NormFold(dir, Parts(target), false);
      && Stacked(kept)
      && NormPath(PathJoin(Slashed(dir), target)) == if kept == [] then "." else Slashed(kept)
  {
    hide Slashed, NormFold, Parts;
    assert Plain(dir) by { assert forall p :: p in dir ==> p in dir + [name]; }
    NormOfJoined(dir, target);
    PartsAreClean(target);
    assert Stacked(dir) by { assert forall i :: 0 <= i < |dir| ==> dir[i] in dir; }
    FoldStacked(dir, Parts(target));
    var kept := NormFold(dir, Parts(target), false);
    if kept == [] {
      assert Slashed(kept) == "" by { SlashedNone(); }
    } else {
      assert Slashed(kept) != "" by { SlashedSome(kept); }
    }
  }

  lemma SlashedNone()
    ensures Slashed([]) == ""
  {}

  lemma SlashedSome(parts: seq<string>)
    requires parts != [] && Tidy(parts)
    ensures Slashed(parts) != "" && Parts(Slashed(parts)) == parts && !StartsWith(Slashed(parts), "/")
  {
    assert parts[0] in parts && parts[0][0] in parts[0];
    assert Slashed(parts)[0] == parts[0][0];
    PartsOfSlashed(parts);
  }

  /** The safe form of a relative normal form is itself, unless it leads out or is excluded. */
  lemma RelativeOfStacked(kept: seq<string>)
    requires kept != [] && Stacked(kept) && '\\' !in Slashed(kept)
    ensures RelativePath(Slashed(kept))
            == if ".." in kept || Slashed(kept) in EXCLUDED then Err(UnsafePath) else Ok(Slashed(kept))
  {
    hide Slashed, NormFold, Parts;
    SlashedSome(kept);
    assert [] + kept == kept;
    StackedIsNormal([], kept);
    RelativePathIff(Slashed(kept));
  }
}
