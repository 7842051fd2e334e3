/** The two inventory builders, and verifying an archive against the manifest of a directory. */
module KitVerify {
  import opened Wrappers
  import opened KitPaths
  import opened KitLinks
  import opened KitArchive
  import opened KitInventory
  import opened KitBuilders
  import opened KitDirectory
  import KitExport
  import KitStream
  import opened SortedPaths

  method ValidateSymlinks(entries: seq<Entry>, links: Links, members: set<string>,
                          ghost kit: Listing, ghost to: Targets, ghost sha: Sha, ghost files: map<string, Entry>)
    returns (ok: bool)
    requires Memo(kit, to, sha, files, entries) && links == SymlinksOf(kit)
    ensures ok <==> LinksValid(links, members)
  {
    hide Means, Resolves, Refused;
    var i := 0;
    while i < |entries|
      invariant i <= |entries|
      invariant forall j :: 0 <= j < i && entries[j].LinkEntry? ==>
                  entries[j].path in links && LinkValid(links, members, entries[j].path)
    {
      var e := entries[i];
      assert e in entries && Recorded(kit, files, e);
      if e.LinkEntry? {
        var target := SymlinkTargetRelative(e.path, e.target);
        if target.Err? {
          assert !LinkValid(links, members, e.path);
          return false;
        }
        var end := ResolvePath(target.value, links, members, true);
        if end.Err? {
          NotValid(links, members, e.path, end.error);
          return false;
        }
      }
      i := i + 1;
    }
    forall p | p in links ensures LinkValid(links, members, p) {
      assert Recorded(kit, files, LinkEntry(p, links[p]));
      assert LinkEntry(p, links[p]) in entries;
    }
    ok := true;
  }

  lemma NotValid(links: Links, members: set<string>, p: string, e: LinkError)
    requires p in links && SymlinkTargetRelative(p, links[p]).Ok?
    requires Refused(links, members, true, SymlinkTargetRelative(p, links[p]).value, e)
    ensures !LinkValid(links, members, p)
  {
    hide Resolves, Refused, SymlinkTargetRelative;
    if LinkValid(links, members, p) {
      var r :| Resolves(links, members, true, SymlinkTargetRelative(p, links[p]).value, r);
      ResolvedNotRefused(links, members, true, SymlinkTargetRelative(p, links[p]).value, r, e);
    }
  }

  // ----- From an archive --------------------------------------------------------------------

  /** An archive an inventory can be built from. */
  ghost predicate ArchiveFine(ms: seq<Member>, root: string, kit: Listing, to: Targets) {
    Lists(ms, root, kit) && HardTargets(kit, to) && ChainsEnd(kit, to) && LinksValid(SymlinksOf(kit), kit.Keys)
  }

  /** The inventory depends only on what is listed, not on the order of the members. */
  method ArchiveInventory(ms: seq<Member>, root: string, sha: Sha)
    returns (r: Result<seq<Entry>, KitError>, ghost kit: Listing, ghost to: Targets)
    ensures r.Ok? ==> ArchiveFine(ms, root, kit, to) && IsInventory(r.value, kit, to, sha)
    ensures r.Err? ==> forall kit', to' :: !ArchiveFine(ms, root, kit', to')
  {
    hide Lists, Listable, HardTargets, ChainsEnd, LinksValid, Memo, IsInventory, SortBy, Resolves, Refused, SymlinksOf;
    to := map[];
    var scan;
    scan, kit := ScanMembers(ms, root, sha);
    if scan.Err? {
      forall kit', to' ensures !ArchiveFine(ms, root, kit', to') {
        ListsMeansListable(ms, root, kit');
      }
      return Err(scan.error), kit, to;
    }
    var s := scan.value;
    forall kit' | Lists(ms, root, kit') ensures kit' == kit { ListsAtMostOne(ms, root, kit, kit'); }
    var links := SymlinkTargets(s.entries, kit, sha, s.files, map[]);
    var targets := ResolveTargets(s.hards, s.order, links, s.members);
    if targets.Err? {
      ghost var p, e :| p in s.hards && Refused(links, s.members, false, s.hards[p], e);
      forall to' ensures !HardTargets(kit, to') { NoHardTargets(kit, to', p, e); }
      return Err(targets.error), kit, to;
    }
    to := targets.value;
    assert HardTargets(kit, to) by { AreHardTargets(kit, to); }
    forall to' | HardTargets(kit, to') ensures to' == to { HardTargetsAtMostOne(kit, to, to'); }
    MemoOfFiles(kit, to, sha, s.files, s.entries);
    var settled, files := SettleHardlinks(s.order, targets.value, s.files, s.entries, kit, sha);
    if settled.Err? {
      return Err(settled.error), kit, to;
    }
    var ok := ValidateSymlinks(settled.value, links, s.members, kit, to, sha, files);
    if !ok {
      return Err(BadSymlink), kit, to;
    }
    MemoIsInventory(kit, to, sha, files, settled.value);
    r := Ok(SortBy(settled.value, PathOf));
  }

  lemma ListsMeansListable(ms: seq<Member>, root: string, kit: Listing)
    ensures Lists(ms, root, kit) ==> Listable(ms, root)
  {
    hide Listable;
  }

  lemma NoHardTargets(kit: Listing, to: Targets, p: string, e: LinkError)
    requires p in kit && kit[p].Hard? && Refused(SymlinksOf(kit), kit.Keys, false, kit[p].target, e)
    ensures !HardTargets(kit, to)
  {
    hide Resolves, Refused;
    if HardTargets(kit, to) { ResolvedNotRefused(SymlinksOf(kit), kit.Keys, false, kit[p].target, to[p], e); }
  }

  lemma AreHardTargets(kit: Listing, to: Targets)
    requires forall p :: p in to <==> p in HardLinksOf(kit)
    requires forall p :: p in HardLinksOf(kit) ==>
               Resolves(SymlinksOf(kit), kit.Keys, false, HardLinksOf(kit)[p], to[p])
    ensures HardTargets(kit, to)
  {
    hide Resolves;
  }

  lemma MemoOfFiles(kit: Listing, to: Targets, sha: Sha, files: map<string, Entry>, entries: seq<Entry>)
    requires Memo(kit, map[], sha, files, entries)
    ensures Memo(kit, to, sha, files, entries)
  {
    forall p | p in files ensures Means(kit, to, sha, files[p]) {
      var c :| EndsIn(kit, map[], p, c) && files[p].sha256 == sha(c) && files[p].size == |c|;
      var n: nat :| ChainEnds(kit, map[], p, n, c);
      assert ChainEnds(kit, to, p, 0, c);
      assert EndsIn(kit, to, p, c);
    }
  }

  // ----- From a directory -------------------------------------------------------------------

  ghost predicate TreeListing(tree: Tree, kit: Listing) {
    Adds(map[], kit, tree, [])
  }

  ghost predicate TreeFine(tree: Tree, kit: Listing) {
    TreeListing(tree, kit) && NoneBad(tree, []) && LinksValid(SymlinksOf(kit), kit.Keys)
  }

  method DirectoryInventory(tree: Tree, sha: Sha)
    returns (r: Result<seq<Entry>, KitError>, ghost kit: Listing)
    requires tree.DirT? && WellFormed(tree)
    ensures r.Ok? ==> TreeFine(tree, kit) && IsInventory(r.value, kit, map[], sha)
    ensures r.Err? ==> forall kit' :: !TreeFine(tree, kit')
  {
    hide Adds, NoneBad, BadAt, LinksValid, Memo, IsInventory, SortBy, SymlinksOf, WellFormed, Scanned;
    ScannedNone(sha);
    var scan;
    scan, kit := Visit(tree, "", Scan([], map[], map[], [], {}), sha, [], map[]);
    if scan.Err? {
      assert !NoneBad(tree, []) by { SomeBad(tree, []); }
      return Err(scan.error), kit;
    }
    var s := scan.value;
    forall kit' | TreeListing(tree, kit') ensures kit' == kit { AddsAtMostOne(map[], kit, kit', tree, []); }
    assert Memo(kit, map[], sha, s.files, s.entries) && s.members == kit.Keys by { ScannedMemo(kit, sha, s); }
    var links := SymlinkTargets(s.entries, kit, sha, s.files, map[]);
    var ok := ValidateSymlinks(s.entries, links, s.members, kit, map[], sha, s.files);
    if !ok {
      return Err(BadSymlink), kit;
    }
    TreeHasNoHardLinks(tree, kit);
    MemoIsInventory(kit, map[], sha, s.files, s.entries);
    r := Ok(SortBy(s.entries, PathOf));
  }

  lemma ScannedMemo(kit: Listing, sha: Sha, s: Scan)
    requires Scanned(kit, sha, s)
    ensures Memo(kit, map[], sha, s.files, s.entries) && s.members == kit.Keys
  {
    hide Memo;
  }

  lemma SomeBad(tree: Tree, prefix: seq<string>)
    requires exists p :: BadAt(tree, prefix, p)
    ensures !NoneBad(tree, prefix)
  {
    hide BadAt;
  }

  lemma AddsAtMostOne(before: Listing, a: Listing, b: Listing, tree: Tree, prefix: seq<string>)
    requires Adds(before, a, tree, prefix) && Adds(before, b, tree, prefix)
    ensures a == b
  {
    hide TreeAt;
    assert a.Keys == b.Keys;
  }

  lemma TreeHasNoHardLinks(tree: Tree, kit: Listing)
    requires TreeListing(tree, kit)
    ensures HardTargets(kit, map[]) && forall p :: p in kit ==> !kit[p].Hard?
  {
    hide TreeAt, Resolves;
  }

  /** The directory inventory in terms of the tree: a regular file with the digest and size of its
      own bytes, a link with its own target, and no entry for anything else. */
  lemma DirectoryEntryIff(tree: Tree, kit: Listing, sha: Sha, es: seq<Entry>, e: Entry)
    requires TreeFine(tree, kit) && IsInventory(es, kit, map[], sha)
    ensures e in es <==>
      match e
      case FileEntry(path, digest, size) =>
        exists c :: TreeAt(tree, [], path) == Some(FileT(c)) && digest == sha(c) && size == |c|
      case LinkEntry(path, target) => TreeAt(tree, [], path) == Some(LinkT(target))
  {
    hide TreeAt, NoneBad, LinksValid;
    assert e in es <==> Means(kit, map[], sha, e);
    if e.FileEntry? {
      forall c ensures EndsIn(kit, map[], e.path, c) <==> TreeAt(tree, [], e.path) == Some(FileT(c)) {
        NoChains(kit, e.path, c);
      }
    }
  }

  lemma NoChains(kit: Listing, p: string, c: Content)
    ensures EndsIn(kit, map[], p, c) <==> p in kit && kit[p] == File(c)
  {
    if p in kit && kit[p] == File(c) { assert ChainEnds(kit, map[], p, 0, c); }
  }

  // ----- The manifest -----------------------------------------------------------------------

  const KIT_PREFIX: string := "/opt/codify-kit/"

  /** One Harness of the manifest; Malformed is any other value. */
  datatype Availability = Present(path: string) | AbsentHarness | Malformed

  /** The digest of an inventory is any function of it. */
  type Hash = seq<Entry> -> string

  datatype Manifest = Manifest(inventory: seq<Entry>, digest: string, harness: map<string, Availability>)

  function ManifestRelative(path: string): Option<string> {
    if !StartsWith(path, KIT_PREFIX) then None
    else
      var relative := path[|KIT_PREFIX|..];
      if relative == "" || '\\' in relative || relative != NormPath(relative) || StartsWith(relative, "/")
         || "" in Parts(relative) || "." in Parts(relative) || ".." in Parts(relative)
      then None
      else Some(relative)
  }

  /** Exactly the plain paths below the Kit's mount point are accepted. */
  lemma ManifestRelativeIff(path: string, relative: string)
    ensures ManifestRelative(path) == Some(relative)
            <==> path == KIT_PREFIX + relative && KitExport.InKitName(relative) && '\\' !in relative
  {
    hide NormPath, Parts;
    if path == KIT_PREFIX + relative {
      assert path[|KIT_PREFIX|..] == relative && path[..|KIT_PREFIX|] == KIT_PREFIX;
    } else if StartsWith(path, KIT_PREFIX) {
      assert path == KIT_PREFIX + path[|KIT_PREFIX|..];
    }
    PartsAreClean(relative);
    if KitExport.InKitName(relative) {
      NormPathOfPlain(Parts(relative));
      PlainStart(Parts(relative));
      assert !StartsWith(relative, "/");
    }
  }

  /** A present Harness is a regular content file, an absent one ships nothing. */
  ghost predicate OneHarnessFine(key: string, a: Availability, entries: seq<Entry>) {
    match a
    case Present(path) =>
      var relative := ManifestRelative(path);
      relative.Some? && exists e :: e in entries && e.path == relative.value && e.FileEntry?
    case AbsentHarness => forall e :: e in entries ==> !StartsWith(e.path, "harness/" + key + "/")
    case Malformed => false
  }

  ghost predicate HarnessFine(harness: map<string, Availability>, entries: seq<Entry>) {
    forall key :: key in harness ==> OneHarnessFine(key, harness[key], entries)
  }

  method ValidateHarness(harness: map<string, Availability>, entries: seq<Entry>) returns (ok: bool)
    ensures ok <==> HarnessFine(harness, entries)
  {
    hide OneHarnessFine;
    var todo := harness.Keys;
    while todo != {}
      invariant todo <= harness.Keys
      invariant forall key :: key in harness && key !in todo ==> OneHarnessFine(key, harness[key], entries)
      decreases |todo|
    {
      var key :| key in todo;
      todo := todo - {key};
      var fine := CheckHarness(key, harness[key], entries);
      if !fine {
        return false;
      }
    }
    ok := true;
  }

  method CheckHarness(key: string, a: Availability, entries: seq<Entry>) returns (ok: bool)
    ensures ok <==> OneHarnessFine(key, a, entries)
  {
    match a
    case Present(path) =>
      var relative := ManifestRelative(path);
      ok := relative.Some? && exists e | e in entries :: e.path == relative.value && e.FileEntry?;
    case AbsentHarness =>
      ok := forall e | e in entries :: !StartsWith(e.path, "harness/" + key + "/");
    case Malformed => ok := false;
  }

  /** The manifest records this inventory, its digest, and a Harness section that it bears out. */
  ghost predicate Vouches(manifest: Option<Manifest>, kit: Listing, to: Targets, sha: Sha, hash: Hash) {
    manifest.Some?
    && var m := manifest.value;
       IsInventory(m.inventory, kit, to, sha) && HarnessFine(m.harness, m.inventory) && m.digest == hash(m.inventory)
  }

  /** write_manifest, with the Harness section the manifest already has. */
  method WriteManifest(tree: Tree, harness: map<string, Availability>, sha: Sha, hash: Hash)
    returns (r: Result<Manifest, KitError>, ghost kit: Listing)
    requires tree.DirT? && WellFormed(tree)
    ensures r.Ok? ==> TreeFine(tree, kit) && Vouches(Some(r.value), kit, map[], sha, hash) && r.value.harness == harness
    ensures r.Err? ==>
              forall kit', es :: TreeFine(tree, kit') && IsInventory(es, kit', map[], sha) ==> !HarnessFine(harness, es)
  {
    hide TreeFine, IsInventory, HarnessFine, WellFormed;
    var entries;
    entries, kit := DirectoryInventory(tree, sha);
    if entries.Err? {
      return Err(entries.error), kit;
    }
    var fine := ValidateHarness(harness, entries.value);
    if !fine {
      forall kit', es | TreeFine(tree, kit') && IsInventory(es, kit', map[], sha) ensures es == entries.value {
        assert kit' == kit by { TreeFineAtMostOne(tree, kit, kit'); }
        InventoryIsUnique(es, entries.value, kit, map[], sha);
      }
      return Err(BadHarness), kit;
    }
    r := Ok(Manifest(entries.value, hash(entries.value), harness));
  }

  lemma TreeFineAtMostOne(tree: Tree, a: Listing, b: Listing)
    requires TreeFine(tree, a) && TreeFine(tree, b)
    ensures a == b
  {
    hide Adds, NoneBad, LinksValid;
    AddsAtMostOne(map[], a, b, tree, []);
  }

  // ----- Agreement --------------------------------------------------------------------------

  /** verify_archive: inventory, Harness section and digest against the manifest, which is absent
      when the archive holds none. */
  method VerifyArchive(ms: seq<Member>, root: string, sha: Sha, hash: Hash, manifest: Option<Manifest>)
    returns (ok: bool, ghost kit: Listing, ghost to: Targets)
    ensures ok ==> ArchiveFine(ms, root, kit, to) && Vouches(manifest, kit, to, sha, hash)
    ensures !ok ==> forall kit', to' :: !(ArchiveFine(ms, root, kit', to') && Vouches(manifest, kit', to', sha, hash))
  {
    hide ArchiveFine, IsInventory, HarnessFine;
    var actual;
    actual, kit, to := ArchiveInventory(ms, root, sha);
    ok := false;
    if manifest.Some? && actual.Ok? && manifest.value.inventory == actual.value {
      var harness := ValidateHarness(manifest.value.harness, actual.value);
      ok := harness && manifest.value.digest == hash(actual.value);
    }
    if !ok && actual.Ok? {
      forall kit', to' | ArchiveFine(ms, root, kit', to') ensures !Vouches(manifest, kit', to', sha, hash) {
        FineAtMostOne(ms, root, kit, to, kit', to');
        if Vouches(manifest, kit', to', sha, hash) {
          InventoryIsUnique(manifest.value.inventory, actual.value, kit, to, sha);
        }
      }
    }
  }

  lemma FineAtMostOne(ms: seq<Member>, root: string, kit: Listing, to: Targets, kit': Listing, to': Targets)
    requires ArchiveFine(ms, root, kit, to) && ArchiveFine(ms, root, kit', to')
    ensures kit == kit' && to == to'
  {
    hide Lists, HardTargets, ChainsEnd, LinksValid;
    ListsAtMostOne(ms, root, kit, kit');
    HardTargetsAtMostOne(kit, to, to');
  }

  lemma InventoryIsUnique(a: seq<Entry>, b: seq<Entry>, kit: Listing, to: Targets, sha: Sha)
    requires IsInventory(a, kit, to, sha) && IsInventory(b, kit, to, sha)
    ensures a == b
  {
    hide Means;
    SortedIsUnique(a, b, PathOf);
  }

  /** A list is the inventory of a directory if and only if it is that of every archive mirroring
      it, in any member order and whichever files are hard links. When everything in the directory
      can be listed, both builders accept or both refuse. */
  lemma ManifestVerifiesMirror(tree: Tree, listing: Listing, ms: seq<Member>, root: string,
                               kit: Listing, to: Targets, sha: Sha)
    requires TreeListing(tree, listing) && Lists(ms, root, kit) && Mirrors(kit, to, listing)
    ensures ArchiveFine(ms, root, kit, to) <==> LinksValid(SymlinksOf(listing), listing.Keys)
    ensures NoneBad(tree, []) ==> (ArchiveFine(ms, root, kit, to) <==> TreeFine(tree, listing))
    ensures forall es :: IsInventory(es, listing, map[], sha) <==> IsInventory(es, kit, to, sha)
  {
    hide Lists, Means, Resolves, EndsIn, TreeListing, NoneBad;
    MirrorsAcceptAlike(kit, to, listing);
    forall e ensures Means(kit, to, sha, e) <==> Means(listing, map[], sha, e) {
      MirrorMeansSame(kit, to, listing, sha, e);
    }
  }

  /** Export, then verify: a stream that stands for a tree, some of its files as hard links that
      read back and end in equal content, gives an archive that the manifest written for the tree
      vouches for. */
  lemma ExportVerifies(tree: Tree, listing: Listing, ms: seq<Member>, kitName: string, out: seq<Member>,
                       kit: Listing, to: Targets, sha: Sha, hash: Hash, manifest: Manifest)
    requires TreeFine(tree, listing) && IsInventory(manifest.inventory, listing, map[], sha)
    requires manifest.digest == hash(manifest.inventory) && HarnessFine(manifest.harness, manifest.inventory)
    requires KitExport.SafeComponent(kitName) && KitStream.StreamFine(ms)
    requires out != [] && out[0] == Member(kitName, DirBody)
             && KitStream.Rewrites(out[1..], KitStream.Kept(ms), kitName)
    requires forall m :: m in KitStream.Kept(ms) ==> KitStream.LinkReadsBack(m, kitName)
    requires KitStream.StandsFor(ms, kit) && Mirrors(kit, to, listing)
    ensures ArchiveFine(out, kitName, kit, to) && Vouches(Some(manifest), kit, to, sha, hash)
  {
    hide Lists, Mirrors, IsInventory, HarnessFine, NoneBad, LinksValid, TreeListing;
    KitStream.ExportedLists(ms, kitName, out, kit);
    assert TreeListing(tree, listing) && NoneBad(tree, []);
    ManifestVerifiesMirror(tree, listing, out, kitName, kit, to, sha);
  }

  /** Any difference in a path, a link target or a digest is found. */
  lemma DifferentContentIsRefused(ms: seq<Member>, root: string, kit: Listing, to: Targets, sha: Sha,
                                  hash: Hash, manifest: Manifest, e: Entry)
    requires ArchiveFine(ms, root, kit, to) && Means(kit, to, sha, e) != (e in manifest.inventory)
    ensures !exists kit', to' ::
              ArchiveFine(ms, root, kit', to') && Vouches(Some(manifest), kit', to', sha, hash)
  {
    hide ArchiveFine, Means, HarnessFine;
    forall kit', to' | ArchiveFine(ms, root, kit', to') ensures !Vouches(Some(manifest), kit', to', sha, hash) {
      FineAtMostOne(ms, root, kit, to, kit', to');
    }
  }
}
