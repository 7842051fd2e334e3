/** Building the inventory: the passes over an archive and the walk over a directory. */
module KitBuilders {
  import opened Wrappers
  import opened KitLinks
  import opened KitArchive
  import opened KitInventory
  import opened SortedPaths

  // ----- The entries collected so far -------------------------------------------------------

  /** files holds a right entry for every regular file and for hard links settled so far, and
      entries holds those and the symbolic links, once each. */
  ghost predicate Memo(kit: Listing, to: Targets, sha: Sha, files: map<string, Entry>, entries: seq<Entry>) {
    && (forall p :: p in files ==>
          && p in kit && (kit[p].File? || kit[p].Hard?)
          && files[p].FileEntry? && files[p].path == p && Means(kit, to, sha, files[p]))
    && (forall p :: p in kit && kit[p].File? ==> p in files)
    && (forall e :: e in entries <==> Recorded(kit, files, e))
    && DistinctKeys(entries, PathOf)
  }

  ghost predicate Recorded(kit: Listing, files: map<string, Entry>, e: Entry) {
    match e
    case LinkEntry(p, target) => p in kit && kit[p] == Sym(target)
    case FileEntry(p, _, _) => p in files && files[p] == e
  }

  lemma DistinctMore(entries: seq<Entry>, e: Entry)
    requires DistinctKeys(entries, PathOf) && forall x :: x in entries ==> x.path != e.path
    ensures DistinctKeys(entries + [e], PathOf)
  {
    forall i | 0 <= i < |entries| ensures entries[i].path != e.path {
      assert entries[i] in entries;
    }
  }

  lemma MemoSettles(kit: Listing, to: Targets, sha: Sha, files: map<string, Entry>, entries: seq<Entry>, e: Entry)
    requires Memo(kit, to, sha, files, entries)
    requires e.FileEntry? && e.path !in files && e.path in kit && kit[e.path].Hard? && Means(kit, to, sha, e)
    ensures Memo(kit, to, sha, files[e.path := e], entries + [e])
  {
    hide Means;
    forall x | x in entries ensures x.path != e.path {
      assert Recorded(kit, files, x);
    }
    DistinctMore(entries, e);
    var after := files[e.path := e];
    forall x ensures x in entries + [e] <==> Recorded(kit, after, x) {
      assert x in entries <==> Recorded(kit, files, x);
    }
  }

  /** With every hard link settled, the entries are the inventory. */
  lemma MemoIsInventory(kit: Listing, to: Targets, sha: Sha, files: map<string, Entry>, entries: seq<Entry>)
    requires HardTargets(kit, to) && Memo(kit, to, sha, files, entries)
    requires forall p :: p in to ==> p in files
    ensures IsInventory(SortBy(entries, PathOf), kit, to, sha)
  {
    hide Resolves, SortBy;
    SortBySorts(entries, PathOf);
    forall e ensures e in entries <==> Means(kit, to, sha, e) {
      assert e in entries <==> Recorded(kit, files, e);
      if e.FileEntry? && Means(kit, to, sha, e) {
        MeansIsUnique(kit, to, sha, e, files);
      }
    }
  }

  lemma MeansIsUnique(kit: Listing, to: Targets, sha: Sha, e: Entry, files: map<string, Entry>)
    requires HardTargets(kit, to) && e.FileEntry? && Means(kit, to, sha, e)
    requires forall p :: p in to ==> p in files
    requires forall p :: p in kit && kit[p].File? ==> p in files
    requires forall p :: p in files ==> files[p].FileEntry? && files[p].path == p && Means(kit, to, sha, files[p])
    ensures e.path in files && files[e.path] == e
  {
    hide Resolves;
    var c :| EndsIn(kit, to, e.path, c) && e.sha256 == sha(c) && e.size == |c|;
    var n: nat :| ChainEnds(kit, to, e.path, n, c);
    var f := files[e.path];
    var c' :| EndsIn(kit, to, e.path, c') && f.sha256 == sha(c') && f.size == |c'|;
    var n': nat :| ChainEnds(kit, to, e.path, n', c');
    ChainIsUnique(kit, to, e.path, n, c, n', c');
  }

  // ----- Pass 1: the members ----------------------------------------------------------------

  datatype Scan = Scan(
    entries: seq<Entry>,
    files: map<string, Entry>,
    hards: map<string, string>,
    order: seq<string>,
    members: set<string>)

  function HardLinksOf(kit: Listing): map<string, string> {
    map p | p in kit && kit[p].Hard? :: kit[p].target
  }

  ghost predicate Scanned(kit: Listing, sha: Sha, s: Scan) {
    && Memo(kit, map[], sha, s.files, s.entries)
    && s.members == kit.Keys
    && s.hards == HardLinksOf(kit)
    && (forall p :: p in s.order <==> p in s.hards)
  }

  function Record(s: Scan, sha: Sha, path: string, node: Node): Scan {
    var s := s.(members := s.members + {path});
    match node
    case Dir => s
    case Sym(target) => s.(entries := s.entries + [LinkEntry(path, target)])
    case Hard(target) => s.(hards := s.hards[path := target], order := s.order + [path])
    case File(content) =>
      var e := FileEntry(path, sha(content), |content|);
      s.(entries := s.entries + [e], files := s.files[path := e])
  }

  lemma RecordKeeps(kit: Listing, sha: Sha, s: Scan, path: string, node: Node)
    requires Scanned(kit, sha, s) && path !in kit
    ensures Scanned(kit[path := node], sha, Record(s, sha, path, node))
  {
    hide Means;
    var after, s' := kit[path := node], Record(s, sha, path, node);
    assert s'.members == after.Keys;
    RecordKeepsEntries(kit, sha, s, path, node);
    assert s'.hards == HardLinksOf(after);
  }

  lemma RecordKeepsEntries(kit: Listing, sha: Sha, s: Scan, path: string, node: Node)
    requires Memo(kit, map[], sha, s.files, s.entries) && path !in kit
    ensures Memo(kit[path := node], map[], sha, Record(s, sha, path, node).files, Record(s, sha, path, node).entries)
  {
    var after, s' := kit[path := node], Record(s, sha, path, node);
    RecordKeepsFiles(kit, sha, s, path, node);
    RecordKeepsRecorded(kit, sha, s, path, node);
    hide Means, Recorded, Record;
    assert forall p :: p in after && after[p].File? ==> p in s'.files by { RecordHoldsFiles(kit, sha, s, path, node); }
  }

  lemma RecordHoldsFiles(kit: Listing, sha: Sha, s: Scan, path: string, node: Node)
    requires forall p :: p in kit && kit[p].File? ==> p in s.files
    ensures forall p :: p in kit[path := node] && kit[path := node][p].File? ==> p in Record(s, sha, path, node).files
  {}

  lemma RecordKeepsRecorded(kit: Listing, sha: Sha, s: Scan, path: string, node: Node)
    requires Memo(kit, map[], sha, s.files, s.entries) && path !in kit
    ensures var after, s' := kit[path := node], Record(s, sha, path, node);
      DistinctKeys(s'.entries, PathOf) && forall e :: e in s'.entries <==> Recorded(after, s'.files, e)
  {
    hide Means;
    var after, s' := kit[path := node], Record(s, sha, path, node);
    forall x | x in s.entries ensures x.path != path {
      assert Recorded(kit, s.files, x);
    }
    if node.Sym? { DistinctMore(s.entries, LinkEntry(path, node.target)); }
    if node.File? { DistinctMore(s.entries, FileEntry(path, sha(node.content), |node.content|)); }
    forall x ensures x in s'.entries <==> Recorded(after, s'.files, x) {
      assert x in s.entries <==> Recorded(kit, s.files, x);
    }
  }

  lemma RecordKeepsFiles(kit: Listing, sha: Sha, s: Scan, path: string, node: Node)
    requires Memo(kit, map[], sha, s.files, s.entries) && path !in kit
    ensures var after, files := kit[path := node], Record(s, sha, path, node).files;
      forall p :: p in files ==>
        && p in after && (after[p].File? || after[p].Hard?)
        && files[p].FileEntry? && files[p].path == p && Means(after, map[], sha, files[p])
  {
    var after, files := kit[path := node], Record(s, sha, path, node).files;
    forall p | p in files ensures Means(after, map[], sha, files[p]) {
      if p == path {
        assert ChainEnds(after, map[], p, 0, node.content);
        assert EndsIn(after, map[], p, node.content);
      } else {
        var c :| EndsIn(kit, map[], p, c) && files[p].sha256 == sha(c) && files[p].size == |c|;
        var n: nat :| ChainEnds(kit, map[], p, n, c);
        assert ChainEnds(after, map[], p, 0, c);
        assert EndsIn(after, map[], p, c);
      }
    }
  }

  method ScanMembers(ms: seq<Member>, root: string, sha: Sha)
    returns (r: Result<Scan, KitError>, ghost kit: Listing)
    ensures r.Ok? ==> Lists(ms, root, kit) && Scanned(kit, sha, r.value)
    ensures r.Err? ==> !Listable(ms, root)
  {
    hide Means, ReadMember, Lists, Listable, Scanned, Record;
    var s := Scan([], map[], map[], [], {});
    kit := map[];
    ListsNone(root);
    ScannedNone(sha);
    var i := 0;
    while i < |ms|
      invariant i <= |ms|
      invariant Lists(ms[..i], root, kit) && Scanned(kit, sha, s)
    {
      assert ms[..i] + [ms[i]] == ms[..i + 1];
      ListsMore(ms[..i], root, kit, ms[i]);
      ScannedMembers(kit, sha, s);
      var read := ReadMember(ms[i], root);
      if read.Err? {
        if Listable(ms, root) { PrefixListable(ms, root, i + 1); }
        return Err(read.error), kit;
      }
      if read.value.Some? {
        var (path, node) := read.value.value;
        if path in s.members {
          if Listable(ms, root) { PrefixListable(ms, root, i + 1); }
          return Err(Duplicate), kit;
        }
        RecordKeeps(kit, sha, s, path, node);
        s := Record(s, sha, path, node);
        kit := kit[path := node];
      }
      i := i + 1;
    }
    assert ms[..i] == ms;
    r := Ok(s);
  }

  lemma ScannedNone(sha: Sha)
    ensures Scanned(map[], sha, Scan([], map[], map[], [], {}))
  {}

  lemma ScannedMembers(kit: Listing, sha: Sha, s: Scan)
    requires Scanned(kit, sha, s)
    ensures s.members == kit.Keys
  {}

  // ----- Pass 2: where each hard link points ------------------------------------------------

  method SymlinkTargets(kit_entries: seq<Entry>, ghost kit: Listing, ghost sha: Sha, ghost files: map<string, Entry>,
                        ghost to: Targets)
    returns (links: Links)
    requires Memo(kit, to, sha, files, kit_entries)
    ensures links == SymlinksOf(kit)
  {
    hide Means;
    links := map[];
    var i := 0;
    while i < |kit_entries|
      invariant i <= |kit_entries|
      invariant forall p :: p in links ==> p in SymlinksOf(kit) && links[p] == SymlinksOf(kit)[p]
      invariant forall j :: 0 <= j < i && kit_entries[j].LinkEntry? ==> kit_entries[j].path in links
    {
      assert kit_entries[i] in kit_entries && Recorded(kit, files, kit_entries[i]);
      if kit_entries[i].LinkEntry? {
        links := links[kit_entries[i].path := kit_entries[i].target];
      }
      i := i + 1;
    }
    forall p | p in SymlinksOf(kit) ensures p in links {
      var e := LinkEntry(p, kit[p].target);
      assert Recorded(kit, files, e);
      assert e in kit_entries;
    }
  }

  method ResolveTargets(hards: map<string, string>, order: seq<string>, links: Links, members: set<string>)
    returns (r: Result<Targets, KitError>)
    requires forall p :: p in order <==> p in hards
    ensures r.Ok? ==> forall p :: p in r.value <==> p in hards
    ensures r.Ok? ==> forall p :: p in hards ==> Resolves(links, members, false, hards[p], r.value[p])
    ensures r.Err? ==> exists p, e :: p in hards && Refused(links, members, false, hards[p], e)
  {
    hide Resolves, Refused;
    var to: Targets := map[];
    var i := 0;
    while i < |order|
      invariant i <= |order|
      invariant forall p :: p in to ==> p in hards && Resolves(links, members, false, hards[p], to[p])
      invariant forall j :: 0 <= j < i ==> order[j] in to
    {
      var p := order[i];
      assert p in order;
      var target := ResolvePath(hards[p], links, members, false);
      if target.Err? {
        return Err(BadHardLink);
      }
      to := to[p := target.value];
      i := i + 1;
    }
    forall p | p in hards ensures p in to {
      assert p in order;
    }
    r := Ok(to);
  }

  // ----- Pass 3: hard-link chains -----------------------------------------------------------

  lemma MemoFacts(kit: Listing, to: Targets, sha: Sha, files: map<string, Entry>, entries: seq<Entry>)
    requires Memo(kit, to, sha, files, entries)
    ensures forall p :: p in files ==> files[p].FileEntry? && files[p].path == p && Means(kit, to, sha, files[p])
    ensures forall p :: p in kit && kit[p].File? ==> p in files
  {
    hide Means;
  }

  lemma EndsThrough(kit: Listing, to: Targets, p: string, c: Content)
    requires HardTargets(kit, to) && p in to
    ensures EndsIn(kit, to, p, c) <==> EndsIn(kit, to, to[p], c)
  {
    hide Resolves;
    if EndsIn(kit, to, p, c) {
      var n: nat :| ChainEnds(kit, to, p, n, c);
      assert ChainEnds(kit, to, to[p], n - 1, c);
    }
    if EndsIn(kit, to, to[p], c) {
      var n: nat :| ChainEnds(kit, to, to[p], n, c);
      assert ChainEnds(kit, to, p, n + 1, c);
    }
  }

  lemma MeansThrough(kit: Listing, to: Targets, sha: Sha, p: string, e: Entry)
    requires HardTargets(kit, to) && p in to
    requires e.FileEntry? && e.path == to[p] && Means(kit, to, sha, e)
    ensures Means(kit, to, sha, FileEntry(p, e.sha256, e.size)) && exists c :: EndsIn(kit, to, p, c)
  {
    hide HardTargets, EndsIn;
    var c :| EndsIn(kit, to, to[p], c) && e.sha256 == sha(c) && e.size == |c|;
    EndsThrough(kit, to, p, c);
  }

  /** q comes after p on the chain from p. */
  ghost predicate Ahead(to: Targets, p: string, q: string) {
    exists k: nat :: k > 0 && LeadsTo(to, p, k, q)
  }

  ghost predicate AllLead(to: Targets, visiting: set<string>, p: string) {
    forall v :: v in visiting ==> v in to && Ahead(to, v, p)
  }

  lemma DeadEnd(kit: Listing, to: Targets, p: string, c: Content)
    requires HardTargets(kit, to)
    requires !(p in kit && kit[p].File?) && (p !in to || Ahead(to, p, p))
    ensures !EndsIn(kit, to, p, c)
  {
    hide Resolves;
    if EndsIn(kit, to, p, c) {
      var n: nat :| ChainEnds(kit, to, p, n, c);
      if p in to {
        var k: nat :| k > 0 && LeadsTo(to, p, k, p);
        CyclicChainNeverEnds(kit, to, p, k, n, c);
      }
    }
  }

  lemma LeadAll(to: Targets, visiting: set<string>, p: string)
    requires p in to && AllLead(to, visiting, p)
    ensures AllLead(to, visiting + {p}, to[p])
  {
    forall v | v in visiting + {p} ensures v in to && Ahead(to, v, to[p]) {
      if v in visiting {
        var k: nat :| k > 0 && LeadsTo(to, v, k, p);
        LeadsOn(to, v, k, p);
      } else {
        assert LeadsTo(to, to[p], 0, to[p]);
        assert LeadsTo(to, p, 1, to[p]);
      }
    }
  }

  /** A path is settled along with p only when it is on the chain from p. */
  ghost predicate OnlyChain(to: Targets, p: string, files: map<string, Entry>, files': map<string, Entry>) {
    && files.Keys <= files'.Keys
    && forall q :: q in files' && q !in files ==> exists k: nat :: LeadsTo(to, p, k, q)
  }

  lemma NothingNew(to: Targets, p: string, files: map<string, Entry>)
    ensures OnlyChain(to, p, files, files)
  {}

  /** A chain that ends does not come back to where it began. */
  lemma NotSettledBelow(kit: Listing, to: Targets, p: string, files: map<string, Entry>,
                        files': map<string, Entry>, e: Entry)
    requires HardTargets(kit, to) && p in to && p !in files
    requires OnlyChain(to, to[p], files, files') && exists c :: EndsIn(kit, to, p, c)
    ensures p !in files'
    ensures OnlyChain(to, p, files, files'[p := e])
  {
    hide Resolves;
    forall q | q in files' && q !in files ensures exists k: nat :: LeadsTo(to, p, k, q) {
      var k: nat :| LeadsTo(to, to[p], k, q);
      assert LeadsTo(to, p, k + 1, q);
    }
    if p in files' {
      var k: nat :| LeadsTo(to, to[p], k, p);
      var c :| EndsIn(kit, to, p, c);
      var n: nat :| ChainEnds(kit, to, p, n, c);
      CyclicChainNeverEnds(kit, to, p, k + 1, n, c);
    }
    assert LeadsTo(to, p, 0, p);
  }

  /** resolve_hardlink. Every path in visiting leads here, so meeting one again is a cycle. */
  method ResolveHardlink(p: string, visiting: set<string>, to: Targets, files: map<string, Entry>, entries: seq<Entry>,
                         ghost kit: Listing, ghost sha: Sha)
    returns (r: Result<Entry, KitError>, files': map<string, Entry>, entries': seq<Entry>)
    requires HardTargets(kit, to) && Memo(kit, to, sha, files, entries)
    requires AllLead(to, visiting, p)
    ensures r.Ok? ==> p in files' && files'[p] == r.value
    ensures r.Ok? ==> Memo(kit, to, sha, files', entries') && OnlyChain(to, p, files, files')
    ensures r.Err? ==> forall c :: !EndsIn(kit, to, p, c)
    decreases |to.Keys - visiting|
  {
    hide HardTargets, Means, Memo, EndsIn, LeadsTo, Ahead, OnlyChain;
    MemoFacts(kit, to, sha, files, entries);
    files', entries' := files, entries;
    if p in files {
      assert OnlyChain(to, p, files, files') by { NothingNew(to, p, files); }
      return Ok(files[p]), files', entries';
    }
    if p !in to || p in visiting {
      forall c ensures !EndsIn(kit, to, p, c) {
        DeadEnd(kit, to, p, c);
      }
      return Err(BadHardLink), files', entries';
    }
    LeadAll(to, visiting, p);
    var target;
    target, files', entries' := ResolveHardlink(to[p], visiting + {p}, to, files, entries, kit, sha);
    if target.Err? {
      forall c ensures !EndsIn(kit, to, p, c) {
        EndsThrough(kit, to, p, c);
      }
      return Err(BadHardLink), files', entries';
    }
    MemoFacts(kit, to, sha, files', entries');
    var entry := FileEntry(p, target.value.sha256, target.value.size);
    MeansThrough(kit, to, sha, p, target.value);
    NotSettledBelow(kit, to, p, files, files', entry);
    TargetsAreHard(kit, to, p);
    MemoSettles(kit, to, sha, files', entries', entry);
    files', entries' := files'[p := entry], entries' + [entry];
    r := Ok(entry);
  }

  lemma TargetsAreHard(kit: Listing, to: Targets, p: string)
    requires HardTargets(kit, to) && p in to
    ensures p in kit && kit[p].Hard?
  {
    hide Resolves;
  }

  method SettleHardlinks(order: seq<string>, to: Targets, files: map<string, Entry>, entries: seq<Entry>,
                         ghost kit: Listing, ghost sha: Sha)
    returns (r: Result<seq<Entry>, KitError>, ghost settled: map<string, Entry>)
    requires HardTargets(kit, to) && Memo(kit, to, sha, files, entries)
    requires forall p :: p in order <==> p in to
    ensures r.Ok? ==> Memo(kit, to, sha, settled, r.value) && to.Keys <= settled.Keys
    ensures r.Ok? <==> ChainsEnd(kit, to)
  {
    hide HardTargets, Means, Memo, EndsIn, LeadsTo;
    var files', entries' := files, entries;
    var i := 0;
    while i < |order|
      invariant i <= |order|
      invariant Memo(kit, to, sha, files', entries')
      invariant forall j :: 0 <= j < i ==> order[j] in files'
    {
      var p := order[i];
      assert p in order;
      var one;
      one, files', entries' := ResolveHardlink(p, {}, to, files', entries', kit, sha);
      if one.Err? {
        return Err(BadHardLink), files;
      }
      i := i + 1;
    }
    forall p | p in to ensures p in files' && exists c :: EndsIn(kit, to, p, c) {
      assert p in order;
      MemoFacts(kit, to, sha, files', entries');
      MeansEnds(kit, to, sha, files'[p]);
    }
    r, settled := Ok(entries'), files';
  }

  lemma MeansEnds(kit: Listing, to: Targets, sha: Sha, e: Entry)
    requires e.FileEntry? && Means(kit, to, sha, e)
    ensures exists c :: EndsIn(kit, to, e.path, c)
  {}
}
