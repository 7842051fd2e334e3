/** Rewriting a Docker tar stream into a Kit archive, and reading the names back. */
module KitExport {
  import opened Wrappers
  import opened Strings
  import opened KitPaths

  // ----- Stripping --------------------------------------------------------------------------

  function StripLeft(s: string): (r: string)
    ensures r != "" ==> r[0] != SLASH
  {
    if s != "" && s[0] == SLASH then StripLeft(s[1..]) else s
  }

  function StripRight(s: string): (r: string)
    ensures r != "" ==> r[|r| - 1] != SLASH
  {
    if s != "" && s[|s| - 1] == SLASH then StripRight(s[..|s| - 1]) else s
  }

  function StripDots(name: string): (r: string)
    ensures !StartsWith(r, "./")
    decreases |name|
  {
    if StartsWith(name, "./") then StripDots(name[2..]) else name
  }

  /** n times the string s. */
  function Repeated(s: string, n: nat): string {
    if n == 0 then "" else s + Repeated(s, n - 1)
  }

  lemma RepeatedMore(s: string, n: nat, rest: string)
    ensures s + (Repeated(s, n) + rest) == Repeated(s, n + 1) + rest
  {
    assert s + (Repeated(s, n) + rest) == (s + Repeated(s, n)) + rest;
  }

  /** Stripping takes off slashes, or leading "./", and nothing else. */
  lemma {:induction false} StripLeftIs(s: string) returns (n: nat)
    ensures s == Repeated("/", n) + StripLeft(s)
  {
    hide Repeated;
    if s != "" && s[0] == SLASH {
      n := StripLeftIs(s[1..]);
      assert s == "/" + s[1..];
      RepeatedMore("/", n, StripLeft(s[1..]));
      n := n + 1;
    } else {
      n := 0;
      RepeatedNone("/", s);
    }
  }

  lemma RepeatedNone(s: string, rest: string)
    ensures Repeated(s, 0) + rest == rest
  {}

  lemma {:induction false} StripRightIs(s: string)
    ensures StripRight(s) <= s && forall k :: |StripRight(s)| <= k < |s| ==> s[k] == SLASH
  {
    if s != "" && s[|s| - 1] == SLASH { StripRightIs(s[..|s| - 1]); }
  }

  lemma {:induction false} StripDotsIs(name: string) returns (n: nat)
    ensures name == Repeated("./", n) + StripDots(name)
    decreases |name|
  {
    hide Repeated;
    if StartsWith(name, "./") {
      n := StripDotsIs(name[2..]);
      assert name == name[..2] + name[2..] && name[..2] == "./";
      RepeatedMore("./", n, StripDots(name[2..]));
      n := n + 1;
    } else {
      n := 0;
      RepeatedNone("./", name);
    }
  }

  // ----- The verifying side: names and hard-link targets in an archive -----------------------

  /** _archive_relative; None is the root member itself. */
  function ArchiveRelative(name: string, rootName: string): Result<Option<string>, PathError> {
    var root := StripRight(rootName);
    if StripRight(name) == root then Ok(None)
    else if !StartsWith(name, root + "/") then Err(EscapesRoot)
    else
      var relative := NormPath(name[|root| + 1..]);
      if relative in EXCLUDED then Ok(Some(relative))
      else
        match RelativePath(relative)
        case Ok(r) => Ok(Some(r))
        case Err(e) => Err(e)
  }

  /** _archive_link_target */
  function ArchiveLinkTarget(relative: string, target: string, root: string): Result<string, PathError> {
    if target == "" || '\\' in target then Err(UnsafeTarget)
    else if target == NIX_STORE then RelativePath(NormPath("nix/store"))
    else if StartsWith(target, NIX_STORE + "/") then
      var suffix := target[|NIX_STORE| + 1..];
      if StoreSuffix(suffix) then RelativePath(NormPath("nix/store/" + suffix)) else Err(UnsafeTarget)
    else if StartsWith(target, "/") then Err(UnsafeTarget)
    else if target == root || StartsWith(target, root + "/") then
      RelativePath(NormPath(StripLeft(target[|root|..])))
    else RelativePath(NormPath(PathJoin(DirName(relative), target)))
  }

  /** A name that is not below the root is refused; one below it stands for its normal form, when
      that stays inside and is plain, the excluded files included. */
  lemma ArchiveRelativeIff(name: string, rootName: string)
    ensures var root := StripRight(rootName);
      && (ArchiveRelative(name, rootName) == Ok(None) <==> StripRight(name) == root)
      && (StripRight(name) != root && !StartsWith(name, root + "/") ==> ArchiveRelative(name, rootName) == Err(EscapesRoot))
      && (StripRight(name) != root && StartsWith(name, root + "/") ==>
            var rest := name[|root| + 1..];
            var kept := NormFold([], Parts(rest), false);
            ArchiveRelative(name, rootName)
            == if StartsWith(rest, "/") || kept == [] || ".." in kept || '\\' in Slashed(kept) then Err(UnsafePath)
               else Ok(Some(Slashed(kept))))
  {
    hide RelativePath, NormPath, NormFold, Parts, Slashed, StripRight;
    var root := StripRight(rootName);
    if StripRight(name) != root && StartsWith(name, root + "/") {
      NormalRelative(name[|root| + 1..]);
    }
  }

  /** The safe form of a normal form. */
  lemma NormalRelative(rest: string)
    ensures var kept := NormFold([], Parts(rest), false);
      && (StartsWith(rest, "/") ==> NormPath(rest) !in EXCLUDED && RelativePath(NormPath(rest)) == Err(UnsafePath))
      && (!StartsWith(rest, "/") ==>
            && (NormPath(rest) in EXCLUDED <==> kept != [] && Slashed(kept) in EXCLUDED)
            && (NormPath(rest) in EXCLUDED ==> NormPath(rest) == Slashed(kept) && ".." !in kept && '\\' !in Slashed(kept))
            && (NormPath(rest) !in EXCLUDED ==>
                  RelativePath(NormPath(rest))
                  == if kept == [] || ".." in kept || '\\' in Slashed(kept) then Err(UnsafePath) else Ok(Slashed(kept))))
  {
    hide NormFold, Parts, Slashed, RelativePath;
    var kept := NormFold([], Parts(rest), false);
    PartsAreClean(rest);
    FoldStacked([], Parts(rest));
    if StartsWith(rest, "/") {
      assert NormPath(rest)[0] == SLASH;
      RelativePathIff(NormPath(rest));
      RefusedAsUnsafe(NormPath(rest));
    } else if kept == [] {
      SlashedNone();
      NormEmpty();
    } else {
      SlashedSome(kept);
      if '\\' in Slashed(kept) {
        RelativePathIff(Slashed(kept));
        RefusedAsUnsafe(Slashed(kept));
      } else { RelativeOfStacked(kept); }
      if Slashed(kept) in EXCLUDED { ExcludedIsPlain(Slashed(kept)); }
    }
  }

  lemma ExcludedIsPlain(s: string)
    requires s in EXCLUDED
    ensures Parts(s) == [s] && s != ".." && '\\' !in s
  {
    hide *;
    ExcludedIsFlat(s);
    SplitPiece(s, SLASH);
    PartsAreSplit(s);
  }

  lemma PartsAreSplit(s: string)
    ensures Parts(s) == Split(s, SLASH)
  {}

  lemma OnePlainPart(s: string)
    requires s in EXCLUDED && SLASH !in s && s != ".."
    ensures Plain([s]) && Slashed([s]) == s
  {
    assert s != "" && s != ".";
  }

  lemma ExcludedIsFlat(s: string)
    requires s in EXCLUDED
    ensures s != ".." && '\\' !in s && SLASH !in s
  {
    if s == "manifest.json" {
      assert forall k :: 0 <= k < |s| ==> s[k] != '\\' && s[k] != SLASH;
    } else if s == ".smoke-passed" {
      assert forall k :: 0 <= k < |s| ==> s[k] != '\\' && s[k] != SLASH;
    } else {
      assert forall k :: 0 <= k < |s| ==> s[k] != '\\' && s[k] != SLASH;
    }
  }

  /** Outside the root a hard-link target is read as a symbolic link's would be. */
  lemma LinkTargetOutsideRoot(relative: string, target: string, root: string)
    requires !(target == root || StartsWith(target, root + "/"))
    ensures ArchiveLinkTarget(relative, target, root) == SymlinkTargetRelative(relative, target)
  {
    hide RelativePath, NormPath, Parts, StoreSuffix;
    if target == NIX_STORE {
      StoreParts();
      NormPathOfPlain(["nix", "store"]);
      RelativePathOfPlain(["nix", "store"]);
      StoreSlashed();
    } else if StartsWith(target, NIX_STORE + "/") && '\\' !in target {
      var suffix := target[|NIX_STORE| + 1..];
      if StoreSuffix(suffix) {
        StoreSuffixIsPlain(suffix);
        PartsAreClean("nix/store/" + suffix);
        NormPathOfPlain(Parts("nix/store/" + suffix));
      }
    }
  }

  lemma StoreSlashed()
    ensures Slashed(["nix", "store"]) == "nix/store"
  {
    assert ["nix", "store"][1..] == ["store"];
  }

  /** Below the root it is taken from the root. */
  lemma LinkTargetBelowRoot(relative: string, target: string, root: string)
    requires root != "" && root[0] != SLASH && (target == root || StartsWith(target, root + "/"))
    ensures var kept := NormFold([], Parts(StripLeft(target[|root|..])), false);
      ArchiveLinkTarget(relative, target, root)
      == if '\\' in target then Err(UnsafeTarget)
         else if kept == [] || ".." in kept || '\\' in Slashed(kept) || Slashed(kept) in EXCLUDED then Err(UnsafePath)
         else Ok(Slashed(kept))
  {
    hide RelativePath, NormPath, Parts, NormFold, Slashed;
    assert target[0] == root[0];
    var rest := StripLeft(target[|root|..]);
    assert !StartsWith(rest, "/");
    NormalRelative(rest);
    if NormPath(rest) in EXCLUDED { ExcludedIsRefused(NormPath(rest)); }
  }

  lemma ExcludedIsRefused(s: string)
    requires s in EXCLUDED
    ensures RelativePath(s) == Err(UnsafePath)
  {
    hide *;
    ExcludedIsFlat(s);
    OnePlainPart(s);
    RelativePathOfPlain([s]);
  }

  // ----- The exporting side -----------------------------------------------------------------

  predicate SafeComponent(value: string) {
    value != "" && value != "." && value != ".." && SLASH !in value && '\\' !in value
  }

  function SourceName(name: string): Result<Option<string>, PathError> {
    var n := StripRight(StripDots(name));
    if n == "" || n == "." then Ok(None)
    else if StartsWith(n, "/") || '\\' in n then Err(UnsafePath)
    else if "" in Parts(n) || "." in Parts(n) || ".." in Parts(n) then Err(UnsafePath)
    else Ok(Some(NormPath(n)))
  }

  /** _source_relative */
  method SourceRelative(member: string) returns (r: Result<Option<string>, PathError>)
    ensures r == SourceName(member)
    ensures r.Ok? && r.value.Some? ==> InKitName(r.value.value) && '\\' !in r.value.value
  {
    var name := member;
    while StartsWith(name, "./")
      invariant StripDots(name) == StripDots(member)
      decreases |name|
    {
      name := name[2..];
    }
    SourceNameIsPlain(member);
    name := StripRight(name);
    if name == "" || name == "." {
      return Ok(None);
    }
    if StartsWith(name, "/") || '\\' in name {
      return Err(UnsafePath);
    }
    var parts := Parts(name);
    if "" in parts || "." in parts || ".." in parts {
      return Err(UnsafePath);
    }
    r := Ok(Some(NormPath(name)));
  }

  predicate InKitName(s: string) {
    s != "" && Plain(Parts(s))
  }

  lemma SourceNameIsPlain(name: string)
    ensures SourceName(name).Ok? && SourceName(name).value.Some? ==>
              var r := SourceName(name).value.value;
              r == StripRight(StripDots(name)) && InKitName(r) && '\\' !in r
  {
    hide NormPath;
    var n := StripRight(StripDots(name));
    if SourceName(name).Ok? && SourceName(name).value.Some? {
      PartsAreClean(n);
      NormPathOfPlain(Parts(n));
    }
  }

  /** With leading "./" and trailing "/" taken off, a member name is the root, a plain path without
      backslash that is kept as it is, or unsafe. */
  lemma SourceNameIff(name: string)
    ensures var n := StripRight(StripDots(name));
      SourceName(name) == if n == "" || n == "." then Ok(None)
                          else if Plain(Parts(n)) && '\\' !in n then Ok(Some(n))
                          else Err(UnsafePath)
  {
    hide NormPath, Parts;
    var n := StripRight(StripDots(name));
    PartsAreClean(n);
    if Plain(Parts(n)) && n != "" {
      NormPathOfPlain(Parts(n));
      PlainStart(Parts(n));
    }
  }

  /** _hardlink_target */
  function HardlinkTarget(linkname: string, kit: string): Result<string, PathError> {
    if linkname == NIX_STORE then Ok(kit + "/nix/store")
    else if StartsWith(linkname, NIX_STORE + "/") then
      var suffix := linkname[|NIX_STORE| + 1..];
      if StoreSuffix(suffix) then Ok(kit + "/nix/store/" + suffix) else Err(UnsafeTarget)
    else if StartsWith(linkname, "/") || '\\' in linkname then Err(UnsafeTarget)
    else
      match SourceName(linkname)
      case Err(e) => Err(e)
      case Ok(None) => Err(UnsafeTarget)
      case Ok(Some(target)) =>
        if target == kit || StartsWith(target, kit + "/") then Ok(target) else Ok(kit + "/" + target)
  }

  // ----- The in-Kit path a link name stands for ---------------------------------------------

  predicate StoreLink(linkname: string) {
    linkname == NIX_STORE || StartsWith(linkname, NIX_STORE + "/")
  }

  /** The link names the export accepts. */
  predicate Accepted(linkname: string) {
    if linkname == NIX_STORE then true
    else if StartsWith(linkname, NIX_STORE + "/") then StoreSuffix(linkname[|NIX_STORE| + 1..])
    else
      && !StartsWith(linkname, "/") && '\\' !in linkname
      && SourceName(linkname).Ok? && SourceName(linkname).value.Some?
  }

  /** The in-Kit path of a hard link's target: the Nix store sits below nix/store. */
  function InKit(linkname: string): string
    requires Accepted(linkname)
  {
    if StoreLink(linkname) then linkname[1..] else SourceName(linkname).value.value
  }

  lemma StoreSuffixIsPlain(suffix: string)
    requires StoreSuffix(suffix)
    ensures InKitName("nix/store/" + suffix)
  {
    hide Parts;
    var all := "nix/store/" + suffix;
    assert all == "nix/store" + [SLASH] + suffix;
    PartsOfConcat("nix/store", suffix);
    StoreParts();
    PartsAreClean(suffix);
  }

  lemma InKitIsPlain(linkname: string)
    requires Accepted(linkname)
    ensures InKitName(InKit(linkname))
    ensures '\\' in linkname <==> '\\' in InKit(linkname)
  {
    hide SourceName, InKitName, StoreSuffix;
    if StoreLink(linkname) {
      assert linkname == [linkname[0]] + linkname[1..];
      if linkname == NIX_STORE {
        StoreNameIsPlain();
        assert linkname[1..] == "nix/store";
      } else {
        StoreSuffixIsPlain(linkname[|NIX_STORE| + 1..]);
        assert linkname[1..] == "nix/store/" + linkname[|NIX_STORE| + 1..];
      }
    } else {
      SourceNameIsPlain(linkname);
    }
  }

  lemma StoreNameIsPlain()
    ensures InKitName("nix/store")
  {
    hide Parts;
    StoreParts();
  }

  lemma StoreParts()
    ensures Parts("nix/store") == ["nix", "store"] && Plain(["nix", "store"])
  {
    assert ["nix", "store"][1..] == ["store"];
    assert Slashed(["nix", "store"]) == "nix/store";
    PartsOfSlashed(["nix", "store"]);
  }

  // ----- Reading back -----------------------------------------------------------------------

  /** Every member name the export accepts reads back as the same in-Kit path. */
  lemma MemberNameRoundTrip(relative: string, kit: string)
    requires SafeComponent(kit) && InKitName(relative) && '\\' !in relative
    ensures ArchiveRelative(kit + "/" + relative, kit) == Ok(Some(relative))
  {
    hide NormPath, RelativePath, Parts;
    var name := kit + "/" + relative;
    assert StripRight(kit) == kit;
    PartsAreClean(relative);
    NormPathOfPlain(Parts(relative));
    RelativePathOfPlain(Parts(relative));
    assert name[..|kit| + 1] == kit + "/" && name[|kit| + 1..] == relative;
    NoTrailingSlash(relative);
    assert name[|name| - 1] == relative[|relative| - 1];
    assert StripRight(name) == name;
  }

  lemma NoTrailingSlash(s: string)
    requires InKitName(s)
    ensures s[0] != SLASH && s[|s| - 1] != SLASH
  {
    if s[|s| - 1] == SLASH { EndsInSlash(s); }
    PartsAreClean(s);
    PlainStart(Parts(s));
  }

  /** The first part of a hard-link target is the name of the Kit itself. */
  predicate NamedLikeKit(linkname: string, kit: string)
    requires Accepted(linkname)
  {
    !StoreLink(linkname) && (InKit(linkname) == kit || StartsWith(InKit(linkname), kit + "/"))
  }

  /** What the export accepts, and what it then writes. */
  lemma ExportedTarget(linkname: string, kit: string)
    ensures HardlinkTarget(linkname, kit).Ok? <==> Accepted(linkname)
    ensures Accepted(linkname) ==>
              HardlinkTarget(linkname, kit).value
              == if NamedLikeKit(linkname, kit) then InKit(linkname) else kit + "/" + InKit(linkname)
  {
    hide SourceName, StoreSuffix;
    if linkname == NIX_STORE {
      assert kit + "/nix/store" == kit + "/" + linkname[1..];
    } else if StartsWith(linkname, NIX_STORE + "/") {
      var suffix := linkname[|NIX_STORE| + 1..];
      assert linkname[1..] == "nix/store/" + suffix;
      assert kit + "/nix/store/" + suffix == kit + "/" + linkname[1..];
    }
  }

  lemma StrippedChars(name: string)
    ensures forall c :: c in StripRight(StripDots(name)) ==> c in name
  {
    StripRightIs(StripDots(name));
    var n := StripDotsIs(name);
  }

  /** The same in the characters of the link name: below /nix/store only plain paths, anywhere else
      the plain relative paths, and a path that already starts with the Kit's name stays. */
  lemma HardlinkTargetIff(linkname: string, kit: string)
    ensures var n := StripRight(StripDots(linkname));
      HardlinkTarget(linkname, kit)
      == if StartsWith(linkname, "/") then
           if linkname == "/nix/store" || (StartsWith(linkname, "/nix/store/") && Plain(Parts(linkname[11..])))
           then Ok(kit + linkname)
           else Err(UnsafeTarget)
         else if '\\' in linkname || n == "" || n == "." then Err(UnsafeTarget)
         else if !Plain(Parts(n)) then Err(UnsafePath)
         else if n == kit || StartsWith(n, kit + "/") then Ok(n)
         else Ok(kit + "/" + n)
  {
    hide SourceName, Parts, StripRight, StripDots;
    SourceNameIff(linkname);
    var n := StripRight(StripDots(linkname));
    assert '\\' in n ==> '\\' in linkname by { StrippedChars(linkname); }
    if StartsWith(linkname, "/nix/store/") {
      PlainSuffix(linkname[11..]);
      assert linkname == "/nix/store/" + linkname[11..];
      assert kit + "/nix/store/" + linkname[11..] == kit + linkname;
    }
  }

  lemma ReadUnderRoot(relative: string, kit: string, path: string)
    requires SafeComponent(kit) && InKitName(path)
    ensures ArchiveLinkTarget(relative, kit + "/" + path, kit)
            == if '\\' in path then Err(UnsafeTarget)
               else if path in EXCLUDED then Err(UnsafePath)
               else Ok(path)
  {
    hide NormPath, RelativePath, Parts;
    var target := kit + "/" + path;
    assert target[0] == kit[0] && target[0] != SLASH;
    assert target[..|kit| + 1] == kit + "/";
    assert target[|kit|..] == "/" + path && ("/" + path)[1..] == path;
    NoTrailingSlash(path);
    assert StripLeft(path) == path && StripLeft("/" + path) == path;
    assert '\\' in target <==> '\\' in path by { assert forall c :: c in target <==> c in kit || c == SLASH || c in path; }
    PartsAreClean(path);
    NormPathOfPlain(Parts(path));
    RelativePathOfPlain(Parts(path));
  }

  lemma ReadKitItself(relative: string, kit: string)
    requires SafeComponent(kit)
    ensures ArchiveLinkTarget(relative, kit, kit) == Err(UnsafePath)
  {
    hide NormPath, RelativePath, Parts;
    assert kit[|kit|..] == "" && StripLeft("") == "";
    NormEmpty();
    assert kit[0] in kit;
  }

  lemma BelowKit(kit: string, rest: string)
    requires SafeComponent(kit) && Plain(Parts(kit + [SLASH] + rest))
    ensures InKitName(rest)
  {
    hide Parts;
    PartsOfConcat(kit, rest);
    var all := Parts(kit + [SLASH] + rest);
    assert forall p :: p in Parts(rest) ==> p in all;
    assert Parts(rest)[0] in Parts(rest);
    assert rest != "" by { if rest == "" { EmptyParts(); } }
  }

  lemma EmptyParts()
    ensures Parts("") == [""]
  {}

  lemma ReadNamedLikeKit(relative: string, kit: string, path: string)
    requires SafeComponent(kit) && InKitName(path) && (path == kit || StartsWith(path, kit + "/"))
    ensures ArchiveLinkTarget(relative, path, kit) != Ok(path)
  {
    hide ArchiveLinkTarget, Parts;
    if path == kit {
      ReadKitItself(relative, kit);
    } else {
      var rest := path[|kit| + 1..];
      assert path == kit + [SLASH] + rest && path == kit + "/" + rest;
      BelowKit(kit, rest);
      ReadUnderRoot(relative, kit, rest);
    }
  }

  /** A hard-link target reads back as the same in-Kit path exactly when it is neither named
      like the Kit, nor an excluded file, nor (in the Nix store) spelled with a backslash. */
  lemma HardlinkRoundTripIff(relative: string, linkname: string, kit: string)
    requires SafeComponent(kit) && Accepted(linkname)
    ensures HardlinkTarget(linkname, kit).Ok?
    ensures ArchiveLinkTarget(relative, HardlinkTarget(linkname, kit).value, kit) == Ok(InKit(linkname))
            <==> !NamedLikeKit(linkname, kit) && InKit(linkname) !in EXCLUDED && '\\' !in linkname
  {
    hide HardlinkTarget, ArchiveLinkTarget, Accepted, InKit;
    ExportedTarget(linkname, kit);
    InKitIsPlain(linkname);
    if NamedLikeKit(linkname, kit) {
      ReadNamedLikeKit(relative, kit, InKit(linkname));
    } else {
      ReadUnderRoot(relative, kit, InKit(linkname));
    }
  }
}
