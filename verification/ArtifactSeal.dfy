/** Sealing a task's artifact tree under running budgets. */
module ArtifactSeal {
  import opened Wrappers
  import opened Strings

  type Bytes = seq<nat>

  const MAX_RELATIVE_PATH_BYTES: nat := 1024
  const MAX_DEPTH: nat := 32
  const COPY_CHUNK_BYTES: nat := 1024 * 1024

  datatype Reason = EntryLimitExceeded | FileSizeExceeded | TotalSizeExceeded | DepthExceeded
                  | PathTooLong | InvalidPath | InvalidEntry | CrossMount | MutationDetected | CopyFailed

  datatype Policy = Policy(maxTotalBytes: nat, maxFileBytes: nat, maxEntries: nat)

  /** A tree that does not change while it is sealed; one char of a name is one byte. */
  datatype Entry = FileE(content: Bytes, links: nat) | SpecialE | DirE(children: seq<Kid>)

  datatype Kid = Kid(name: string, mount: int, entry: Entry)

  // ----- What the whole tree adds up to -----------------------------------------------------

  datatype Tally = Tally(files: nat, directories: nat, entries: nat, bytes: nat)

  const NOTHING: Tally := Tally(0, 0, 0, 0)

  function Plus(a: Tally, b: Tally): Tally {
    Tally(a.files + b.files, a.directories + b.directories, a.entries + b.entries, a.bytes + b.bytes)
  }

  /** One entry and all below it. */
  function TallyEntry(e: Entry): Tally
    decreases e, if e.DirE? then |e.children| + 1 else 0
  {
    match e
    case FileE(content, _) => Tally(1, 0, 1, |content|)
    case SpecialE => Tally(0, 0, 1, 0)
    case DirE(children) => Plus(Tally(0, 1, 1, 0), TallyFirst(e, |children|))
  }

  /** The first k children of a directory and all below them. */
  function TallyFirst(dir: Entry, k: nat): (t: Tally)
    requires dir.DirE? && k <= |dir.children|
    ensures t.entries >= k
    decreases dir, k
  {
    if k == 0 then NOTHING
    else Plus(TallyFirst(dir, k - 1), TallyEntry(dir.children[k - 1].entry))
  }

  // ----- What every entry must meet ---------------------------------------------------------

  function PathBytes(parts: seq<string>): nat {
    if parts == [] then 0
    else if |parts| == 1 then |parts[0]|
    else PathBytes(parts[..|parts| - 1]) + 1 + |parts[|parts| - 1]|
  }

  lemma {:induction false} PathBytesIsLength(parts: seq<string>)
    ensures PathBytes(parts) == |Join(parts, '/')|
  {
    if |parts| > 1 {
      PathBytesIsLength(parts[..|parts| - 1]);
      JoinSnoc(parts[..|parts| - 1], parts[|parts| - 1]);
      assert parts == parts[..|parts| - 1] + [parts[|parts| - 1]];
    }
  }

  lemma {:induction false} JoinSnoc(parts: seq<string>, last: string)
    requires parts != []
    ensures Join(parts + [last], '/') == Join(parts, '/') + "/" + last
  {
    if |parts| > 1 {
      JoinSnoc(parts[1..], last);
      assert (parts + [last])[1..] == parts[1..] + [last];
    } else {
      assert (parts + [last])[1..] == [last];
    }
  }

  predicate PathFine(relative: seq<string>, depth: nat) {
    depth <= MAX_DEPTH && PathBytes(relative) <= MAX_RELATIVE_PATH_BYTES && ".." !in relative
  }

  predicate KidFine(kid: Kid, relative: seq<string>, depth: nat, policy: Policy, rootMount: int)
    decreases kid, 0
  {
    && PathFine(relative + [kid.name], depth)
    && kid.mount == rootMount
    && match kid.entry
       case SpecialE => false
       case FileE(content, links) => links == 1 && |content| <= policy.maxFileBytes
       case DirE(children) => FirstFine(kid.entry, |children|, relative + [kid.name], depth + 1, policy, rootMount)
  }

  predicate FirstFine(dir: Entry, k: nat, relative: seq<string>, depth: nat, policy: Policy, rootMount: int)
    requires dir.DirE? && k <= |dir.children|
    decreases dir, k
  {
    forall i :: 0 <= i < k ==> KidFine(dir.children[i], relative, depth, policy, rootMount)
  }

  /** The whole tree is within every limit. */
  predicate Fits(root: Entry, policy: Policy, rootMount: int)
    requires root.DirE?
  {
    var t := TallyFirst(root, |root.children|);
    && FirstFine(root, |root.children|, [], 1, policy, rootMount)
    && t.entries <= policy.maxEntries
    && t.bytes <= policy.maxTotalBytes
  }

  // ----- The same over one flat walk --------------------------------------------------------

  /** One entry of the tree and its path from the root. */
  datatype Item = Item(path: seq<string>, kid: Kid)

  /** The first k children of a directory at this path and all below them, in order. */
  function Walk(dir: Entry, k: nat, at: seq<string>): seq<Item>
    requires dir.DirE? && k <= |dir.children|
    decreases dir, k
  {
    if k == 0 then []
    else
      var kid := dir.children[k - 1];
      Walk(dir, k - 1, at) + [Item(at + [kid.name], kid)]
      + (if kid.entry.DirE? then Walk(kid.entry, |kid.entry.children|, at + [kid.name]) else [])
  }

  /** What one entry adds. */
  function One(kid: Kid): Tally {
    Tally(if kid.entry.FileE? then 1 else 0, if kid.entry.DirE? then 1 else 0, 1,
          if kid.entry.FileE? then |kid.entry.content| else 0)
  }

  function Summed(items: seq<Item>): (t: Tally)
    ensures t.entries == |items|
  {
    if items == [] then NOTHING
    else Plus(Summed(items[..|items| - 1]), One(items[|items| - 1].kid))
  }

  ghost predicate ItemFine(x: Item, policy: Policy, rootMount: int) {
    && |x.path| <= 32 && |Join(x.path, '/')| <= 1024 && ".." !in x.path
    && x.kid.mount == rootMount
    && !x.kid.entry.SpecialE?
    && (x.kid.entry.FileE? ==> x.kid.entry.links == 1 && |x.kid.entry.content| <= policy.maxFileBytes)
  }

  ghost predicate AllFine(items: seq<Item>, policy: Policy, rootMount: int) {
    forall x :: x in items ==> ItemFine(x, policy, rootMount)
  }

  lemma SummedSnoc(a: seq<Item>, x: Item)
    ensures Summed(a + [x]) == Plus(Summed(a), One(x.kid))
  {
    assert (a + [x])[..|a|] == a;
  }

  lemma PlusLaws(a: Tally, b: Tally, c: Tally)
    ensures Plus(Plus(a, b), c) == Plus(a, Plus(b, c)) && Plus(a, NOTHING) == a
  {}

  lemma {:induction false} SummedConcat(a: seq<Item>, b: seq<Item>)
    ensures Summed(a + b) == Plus(Summed(a), Summed(b))
  {
    if b == [] {
      assert a + b == a;
      PlusLaws(Summed(a), NOTHING, NOTHING);
    } else {
      hide Summed, Plus, One;
      var init, last := b[..|b| - 1], b[|b| - 1];
      assert a + b == (a + init) + [last] && b == init + [last];
      SummedConcat(a, init);
      SummedSnoc(a + init, last);
      SummedSnoc(init, last);
      PlusLaws(Summed(a), Summed(init), One(last.kid));
    }
  }

  lemma AllFineConcat(a: seq<Item>, x: Item, b: seq<Item>, policy: Policy, rootMount: int)
    ensures AllFine(a + [x] + b, policy, rootMount)
            <==> AllFine(a, policy, rootMount) && ItemFine(x, policy, rootMount) && AllFine(b, policy, rootMount)
  {
    hide ItemFine;
    assert forall y :: y in a + [x] + b <==> y in a || y == x || y in b;
  }

  /** The recursive counts are the sums over the walk. */
  lemma {:induction false} TallyIsFlat(dir: Entry, k: nat, at: seq<string>)
    requires dir.DirE? && k <= |dir.children|
    ensures TallyFirst(dir, k) == Summed(Walk(dir, k, at))
    decreases dir, k
  {
    hide Summed, Plus, TallyFirst, Walk, One;
    NothingYet(dir, at);
    if k > 0 {
      var kid := dir.children[k - 1];
      var x := Item(at + [kid.name], kid);
      var below := WalkMore(dir, k, at);
      TallyIsFlat(dir, k - 1, at);
      if kid.entry.DirE? { TallyIsFlat(kid.entry, |kid.entry.children|, at + [kid.name]); }
      EntryIsOne(kid, below);
      SummedConcat(Walk(dir, k - 1, at) + [x], below);
      SummedSnoc(Walk(dir, k - 1, at), x);
      PlusLaws(TallyFirst(dir, k - 1), One(kid), Summed(below));
      TallyMore(dir, k);
    }
  }

  lemma NothingYet(dir: Entry, at: seq<string>)
    requires dir.DirE?
    ensures TallyFirst(dir, 0) == Summed(Walk(dir, 0, at))
  {}

  lemma TallyMore(dir: Entry, k: nat)
    requires dir.DirE? && 0 < k <= |dir.children|
    ensures TallyFirst(dir, k) == Plus(TallyFirst(dir, k - 1), TallyEntry(dir.children[k - 1].entry))
  {
    hide TallyEntry, Plus;
  }

  lemma EntryIsOne(kid: Kid, below: seq<Item>)
    requires if kid.entry.DirE? then TallyFirst(kid.entry, |kid.entry.children|) == Summed(below) else below == []
    ensures TallyEntry(kid.entry) == Plus(One(kid), Summed(below))
  {
    SummedNone();
    hide TallyFirst, Summed;
  }

  lemma SummedNone()
    ensures Summed([]) == NOTHING
  {}

  /** The recursive conditions hold exactly when every entry of the walk is fine by itself. */
  lemma {:induction false} FineIsFlat(dir: Entry, k: nat, at: seq<string>, policy: Policy, rootMount: int)
    requires dir.DirE? && k <= |dir.children|
    ensures FirstFine(dir, k, at, |at| + 1, policy, rootMount) <==> AllFine(Walk(dir, k, at), policy, rootMount)
    decreases dir, k
  {
    hide ItemFine, KidFine, AllFine, FirstFine, Walk;
    NoneFine(dir, at, policy, rootMount);
    if k > 0 {
      var kid := dir.children[k - 1];
      var below := WalkMore(dir, k, at);
      FineIsFlat(dir, k - 1, at, policy, rootMount);
      if kid.entry.DirE? { FineIsFlat(kid.entry, |kid.entry.children|, at + [kid.name], policy, rootMount); }
      KidIsFlat(kid, at, policy, rootMount);
      AllFineConcat(Walk(dir, k - 1, at), Item(at + [kid.name], kid), below, policy, rootMount);
      FirstFineMore(dir, k, at, policy, rootMount);
    }
  }

  lemma WalkMore(dir: Entry, k: nat, at: seq<string>) returns (below: seq<Item>)
    requires dir.DirE? && 0 < k <= |dir.children|
    ensures var kid := dir.children[k - 1];
      && below == (if kid.entry.DirE? then Walk(kid.entry, |kid.entry.children|, at + [kid.name]) else [])
      && Walk(dir, k, at) == Walk(dir, k - 1, at) + [Item(at + [kid.name], kid)] + below
  {
    var kid := dir.children[k - 1];
    below := if kid.entry.DirE? then Walk(kid.entry, |kid.entry.children|, at + [kid.name]) else [];
  }

  lemma NoneFine(dir: Entry, at: seq<string>, policy: Policy, rootMount: int)
    requires dir.DirE?
    ensures AllFine([], policy, rootMount) && Walk(dir, 0, at) == []
    ensures FirstFine(dir, 0, at, |at| + 1, policy, rootMount)
  {}

  lemma FirstFineMore(dir: Entry, k: nat, at: seq<string>, policy: Policy, rootMount: int)
    requires dir.DirE? && 0 < k <= |dir.children|
    ensures FirstFine(dir, k, at, |at| + 1, policy, rootMount)
            <==> FirstFine(dir, k - 1, at, |at| + 1, policy, rootMount)
                 && KidFine(dir.children[k - 1], at, |at| + 1, policy, rootMount)
  {
    hide KidFine;
  }

  lemma KidIsFlat(kid: Kid, at: seq<string>, policy: Policy, rootMount: int)
    ensures KidFine(kid, at, |at| + 1, policy, rootMount)
            <==> ItemFine(Item(at + [kid.name], kid), policy, rootMount)
                 && (kid.entry.DirE? ==>
                       FirstFine(kid.entry, |kid.entry.children|, at + [kid.name], |at| + 2, policy, rootMount))
  {
    hide FirstFine;
    PathBytesIsLength(at + [kid.name]);
  }

  /** A tree fits exactly when every entry, wherever it is, is a directory or a singly linked file
      on the mount of the root within the limits of path and size, and the entries and their bytes
      are within the totals. */
  lemma FitsIff(root: Entry, policy: Policy, rootMount: int)
    requires root.DirE?
    ensures var items := Walk(root, |root.children|, []);
      && (Fits(root, policy, rootMount) <==>
            && AllFine(items, policy, rootMount)
            && |items| <= policy.maxEntries && Summed(items).bytes <= policy.maxTotalBytes)
      && TallyFirst(root, |root.children|) == Summed(items)
  {
    hide FirstFine, AllFine, Walk, TallyFirst;
    TallyIsFlat(root, |root.children|, []);
    FineIsFlat(root, |root.children|, [], policy, rootMount);
  }

  // ----- Copying one file -------------------------------------------------------------------

  /** How much each read and write of a file moves, by offset. */
  datatype Transfers = Transfers(read: nat -> nat, write: nat -> int)

  ghost predicate Progresses(io: Transfers) {
    forall k :: io.write(k) > 0
  }

  /** The transfers of every file, by path. */
  type Disk = seq<string> -> Transfers

  ghost predicate DiskProgresses(disk: Disk) {
    forall path :: Progresses(disk(path))
  }

  function Min(a: int, b: int): int {
    if a < b then a else b
  }

  /** _copy_file: reads chunks until the end, writes each in as many parts as it takes. */
  method CopyFile(content: Bytes, size: nat, io: Transfers) returns (r: Result<Bytes, Reason>)
    ensures r.Ok? ==> r.value == content && |content| == size
    ensures Progresses(io) && |content| == size ==> r.Ok?
    ensures |content| != size ==> r.Err?
  {
    var output: Bytes := [];
    var copied := 0;
    while copied < |content|
      invariant copied <= |content| && copied <= size
      invariant output == content[..copied]
      decreases |content| - copied
    {
      var wanted := io.read(copied);
      var length := Min(Min(1 + wanted, COPY_CHUNK_BYTES), |content| - copied);
      var start := copied;
      copied := copied + length;
      if copied > size {
        return Err(MutationDetected);
      }
      var remaining := content[start..copied];
      while remaining != []
        invariant |remaining| <= length
        invariant output == content[..copied - |remaining|]
        invariant remaining == content[copied - |remaining|..copied]
        decreases |remaining|
      {
        var written := Min(io.write(|output|), |remaining|);
        if written <= 0 {
          return Err(CopyFailed);
        }
        output, remaining := output + remaining[..written], remaining[written..];
      }
    }
    assert content[..copied] == content;
    if copied != size {
      return Err(MutationDetected);
    }
    r := Ok(output);
  }

  // ----- Sealing ----------------------------------------------------------------------------

  class Collection {
    var fileCount: nat
    var directoryCount: nat
    var entryCount: nat
    var totalBytes: nat

    constructor ()
      ensures Counts() == NOTHING
    {
      fileCount, directoryCount, entryCount, totalBytes := 0, 0, 0, 0;
    }

    function Counts(): Tally
      reads this
    {
      Tally(fileCount, directoryCount, entryCount, totalBytes)
    }
  }

  /** The budgets left are enough for these counts. */
  predicate Within(t: Tally, policy: Policy) {
    t.entries <= policy.maxEntries && t.bytes <= policy.maxTotalBytes
  }

  method CheckRelativePath(relative: seq<string>, depth: nat) returns (error: Option<Reason>)
    ensures error.None? <==> PathFine(relative, depth)
    ensures error.None? <==> depth <= 32 && |Join(relative, '/')| <= 1024 && ".." !in relative
    ensures error.Some? ==>
              error.value == if depth > 32 then DepthExceeded
                             else if |Join(relative, '/')| > 1024 then PathTooLong
                             else InvalidPath
  {
    PathBytesIsLength(relative);
    if depth > MAX_DEPTH {
      return Some(DepthExceeded);
    }
    if PathBytes(relative) > MAX_RELATIVE_PATH_BYTES {
      return Some(PathTooLong);
    }
    if ".." in relative {
      return Some(InvalidPath);
    }
    error := None;
  }

  lemma {:induction false} TallyGrows(dir: Entry, j: nat, k: nat)
    requires dir.DirE? && j <= k <= |dir.children|
    ensures TallyFirst(dir, j).entries <= TallyFirst(dir, k).entries
    ensures TallyFirst(dir, j).bytes <= TallyFirst(dir, k).bytes
    decreases k
  {
    if j < k { TallyGrows(dir, j, k - 1); }
  }

  /** _seal_directory: succeeds exactly when everything below fits what is left of the budgets,
      leaves the true counts, and copies what it read. */
  method SealDirectory(dir: Entry, relative: seq<string>, policy: Policy, collection: Collection,
                       rootMount: int, depth: nat, disk: Disk)
    returns (r: Result<Entry, Reason>)
    requires dir.DirE? && Within(collection.Counts(), policy)
    modifies collection
    ensures var fits := FirstFine(dir, |dir.children|, relative, depth, policy, rootMount)
                        && Within(Plus(old(collection.Counts()), TallyFirst(dir, |dir.children|)), policy);
            (r.Ok? ==> fits) && (fits && DiskProgresses(disk) ==> r.Ok?)
    ensures r.Ok? ==> collection.Counts() == Plus(old(collection.Counts()), TallyFirst(dir, |dir.children|))
    ensures r.Ok? ==> r.value == dir
    decreases dir, 0
  {
    hide KidFine, TallyEntry, PathFine;
    if |dir.children| > policy.maxEntries - collection.entryCount {
      return Err(EntryLimitExceeded);
    }
    var copy: seq<Kid> := [];
    var i := 0;
    ghost var before := collection.Counts();
    while i < |dir.children|
      invariant i <= |dir.children|
      invariant FirstFine(dir, i, relative, depth, policy, rootMount)
      invariant collection.Counts() == Plus(before, TallyFirst(dir, i))
      invariant Within(collection.Counts(), policy)
      invariant copy == dir.children[..i]
    {
      var kid := dir.children[i];
      TallyGrows(dir, i + 1, |dir.children|);
      var fault := SealKid(kid, relative, policy, collection, rootMount, depth, disk);
      if fault.Err? {
        return Err(fault.error);
      }
      copy := copy + [Kid(kid.name, kid.mount, fault.value)];
      i := i + 1;
    }
    assert copy == dir.children;
    r := Ok(DirE(copy));
  }

  /** One entry of the loop in _seal_directory. */
  method SealKid(kid: Kid, relative: seq<string>, policy: Policy, collection: Collection,
                 rootMount: int, depth: nat, disk: Disk)
    returns (r: Result<Entry, Reason>)
    requires Within(collection.Counts(), policy)
    modifies collection
    ensures var fits := KidFine(kid, relative, depth, policy, rootMount)
                        && Within(Plus(old(collection.Counts()), TallyEntry(kid.entry)), policy);
            (r.Ok? ==> fits) && (fits && DiskProgresses(disk) ==> r.Ok?)
    ensures r.Ok? ==> collection.Counts() == Plus(old(collection.Counts()), TallyEntry(kid.entry))
    ensures r.Ok? ==> r.value == kid.entry
    decreases kid.entry, 1
  {
    var fault := CheckRelativePath(relative + [kid.name], depth);
    if fault.Some? {
      return Err(fault.value);
    }
    collection.entryCount := collection.entryCount + 1;
    if collection.entryCount > policy.maxEntries {
      return Err(EntryLimitExceeded);
    }
    if kid.mount != rootMount {
      return Err(CrossMount);
    }
    match kid.entry
    case DirE(_) =>
      collection.directoryCount := collection.directoryCount + 1;
      r := SealDirectory(kid.entry, relative + [kid.name], policy, collection, rootMount, depth + 1, disk);
    case FileE(content, links) =>
      if links != 1 {
        return Err(InvalidEntry);
      }
      if |content| > policy.maxFileBytes {
        return Err(FileSizeExceeded);
      }
      if collection.totalBytes + |content| > policy.maxTotalBytes {
        return Err(TotalSizeExceeded);
      }
      collection.fileCount := collection.fileCount + 1;
      collection.totalBytes := collection.totalBytes + |content|;
      var copied := CopyFile(content, |content|, disk(relative + [kid.name]));
      if copied.Err? {
        return Err(copied.error);
      }
      r := Ok(FileE(copied.value, 1));
    case SpecialE =>
      return Err(InvalidEntry);
  }

  lemma EmptyTally(dir: Entry)
    requires dir.DirE? && dir.children == []
    ensures TallyFirst(dir, 0) == NOTHING
  {}

  /** _seal on an existing artifact root. */
  method Seal(root: Entry, policy: Policy, rootMount: int, disk: Disk)
    returns (r: Result<Option<Entry>, Reason>, counts: Tally)
    requires root.DirE?
    ensures r.Ok? ==> Fits(root, policy, rootMount)
    ensures Fits(root, policy, rootMount) && DiskProgresses(disk) ==> r.Ok?
    ensures r.Ok? ==> counts == TallyFirst(root, |root.children|)
    ensures r.Ok? ==> r.value == if root.children == [] then None else Some(root)
  {
    hide TallyFirst, FirstFine, PathFine;
    var collection := new Collection();
    assert Within(NOTHING, policy);
    var sealed := SealDirectory(root, [], policy, collection, rootMount, 1, disk);
    counts := collection.Counts();
    ghost var all := TallyFirst(root, |root.children|);
    assert Plus(NOTHING, all) == all;
    assert all.entries == 0 <==> root.children == [] by { if root.children == [] { EmptyTally(root); } }
    if sealed.Err? {
      return Err(sealed.error), counts;
    }
    if collection.entryCount == 0 {
      return Ok(None), counts;
    }
    r := Ok(Some(sealed.value));
  }

  // ----- The archive size limit -------------------------------------------------------------

  class LimitedWriter {
    var raw: Bytes
    const limit: nat
    var written: nat

    ghost predicate Valid()
      reads this
    {
      written == |raw| && written <= limit
    }

    constructor (limit: nat)
      ensures Valid() && raw == [] && this.limit == limit
    {
      this.limit := limit;
      raw, written := [], 0;
    }

    /** taken is how much the underlying stream accepts. */
    method Write(content: Bytes, taken: nat) returns (r: Result<nat, string>)
      requires Valid() && taken <= |content|
      modifies this
      ensures Valid()
      ensures r.Ok? <==> |old(raw)| + |content| <= limit
      ensures raw == if r.Ok? then old(raw) + content[..taken] else old(raw)
      ensures r.Ok? ==> r.value == taken
    {
      if written + |content| > limit {
        return Err("archive_size_exceeded");
      }
      raw := raw + content[..taken];
      written := written + taken;
      r := Ok(taken);
    }
  }

  // ----- The policy in force ----------------------------------------------------------------

  const MEBIBYTE: nat := 1024 * 1024
  const HARD_MAX_TOTAL_BYTES: nat := 512 * MEBIBYTE
  const HARD_MAX_ENTRIES: nat := 100_000
  const DEFAULT_POLICY: Policy := Policy(200 * MEBIBYTE, 100 * MEBIBYTE, 5_000)

  /** The recorded limits as JSON values; None for anything but an integer. */
  datatype Recorded = Recorded(schemaVersion: Option<int>, total: Option<int>, single: Option<int>, entries: Option<int>)

  function BoundedInt(value: Option<int>, minimum: nat, maximum: nat): (r: Option<nat>)
    ensures r.Some? <==> value.Some? && minimum <= value.value <= maximum
    ensures r.Some? ==> r.value == value.value
  {
    if value.None? || value.value < minimum || value.value > maximum then None else Some(value.value)
  }

  /** _read_policy_state: None is an unreadable file. */
  function SystemPolicy(state: Option<Recorded>): Policy {
    if state.None? then DEFAULT_POLICY
    else
      var s := state.value;
      var total := BoundedInt(s.total, MEBIBYTE, HARD_MAX_TOTAL_BYTES);
      var single := BoundedInt(s.single, MEBIBYTE, HARD_MAX_TOTAL_BYTES);
      var entries := BoundedInt(s.entries, 1, HARD_MAX_ENTRIES);
      if s.schemaVersion != Some(1) || total.None? || single.None? || entries.None? then DEFAULT_POLICY
      else Policy(total.value, Min(single.value, total.value), entries.value)
  }

  predicate Decimal(s: string) {
    1 <= |s| <= 20 && forall k :: 0 <= k < |s| ==> '0' <= s[k] <= '9'
  }

  function DecimalValue(s: string): nat
    requires forall k :: 0 <= k < |s| ==> '0' <= s[k] <= '9'
  {
    if s == "" then 0
    else DecimalValue(s[..|s| - 1]) * 10 + (s[|s| - 1] as int - '0' as int)
  }

  function ProfileLimit(raw: Option<string>, system: nat, maximum: nat): nat {
    if raw.None? || raw.value == "" || !Decimal(raw.value) then system
    else
      var value := DecimalValue(raw.value);
      if value < 1 || value > maximum then system else Min(system, value)
  }

  function EffectivePolicy(state: Option<Recorded>, total: Option<string>, single: Option<string>,
                           entries: Option<string>): Policy
  {
    var system := SystemPolicy(state);
    var t := ProfileLimit(total, system.maxTotalBytes, HARD_MAX_TOTAL_BYTES);
    var f := ProfileLimit(single, system.maxFileBytes, HARD_MAX_TOTAL_BYTES);
    Policy(t, Min(f, t), ProfileLimit(entries, system.maxEntries, HARD_MAX_ENTRIES))
  }

  /** A profile value is in force exactly when it is a decimal of at most 20 digits, at least 1,
      within the hard maximum and not above the system's limit; any other leaves the system's. */
  lemma ProfileLimitIff(raw: Option<string>, system: nat, maximum: nat)
    ensures var valid := && raw.Some? && 1 <= |raw.value| <= 20
                         && (forall k :: 0 <= k < |raw.value| ==> '0' <= raw.value[k] <= '9')
                         && 1 <= DecimalValue(raw.value) <= maximum;
      && (valid && DecimalValue(raw.value) <= system ==> ProfileLimit(raw, system, maximum) == DecimalValue(raw.value))
      && (!valid || DecimalValue(raw.value) > system ==> ProfileLimit(raw, system, maximum) == system)
  {
    hide DecimalValue;
  }

  /** The decimal digits of n, most significant first. */
  function Digits(n: nat): (s: string)
    ensures |s| >= 1 && forall k :: 0 <= k < |s| ==> '0' <= s[k] <= '9'
  {
    if n < 10 then [('0' as int + n) as char] else Digits(n / 10) + [('0' as int + n % 10) as char]
  }

  /** The value of a decimal reads its digits back, leading zeros or not. */
  lemma {:induction false} DecimalRoundTrip(n: nat, zeros: nat)
    ensures var s := seq(zeros, _ => '0') + Digits(n);
      (forall k :: 0 <= k < |s| ==> '0' <= s[k] <= '9') && DecimalValue(s) == n
    decreases n, zeros
  {
    var pad, s := seq(zeros, _ => '0'), seq(zeros, _ => '0') + Digits(n);
    var head := s[..|s| - 1];
    if n >= 10 {
      DecimalRoundTrip(n / 10, zeros);
      assert head == pad + Digits(n / 10);
    } else {
      assert head == pad;
      ZerosAreZero(zeros);
    }
  }

  lemma {:induction false} ZerosAreZero(zeros: nat)
    ensures DecimalValue(seq(zeros, _ => '0')) == 0
  {
    if zeros > 0 {
      ZerosAreZero(zeros - 1);
      assert seq(zeros, _ => '0')[..zeros - 1] == seq(zeros - 1, _ => '0');
    }
  }

  /** The recorded policy counts only as a whole: version 1 and every limit in its range; the single
      file limit never exceeds the total. */
  lemma SystemPolicyIff(state: Option<Recorded>)
    ensures var good := && state.Some? && state.value.schemaVersion == Some(1)
                        && state.value.total.Some? && 1_048_576 <= state.value.total.value <= 536_870_912
                        && state.value.single.Some? && 1_048_576 <= state.value.single.value <= 536_870_912
                        && state.value.entries.Some? && 1 <= state.value.entries.value <= 100_000;
      && (good ==>
            && SystemPolicy(state).maxTotalBytes == state.value.total.value
            && SystemPolicy(state).maxEntries == state.value.entries.value
            && SystemPolicy(state).maxFileBytes
               == if state.value.single.value <= state.value.total.value then state.value.single.value
                  else state.value.total.value)
      && (!good ==> SystemPolicy(state) == Policy(209_715_200, 104_857_600, 5_000))
  {}

  /** A profile that asks for less than the system allows gets what it asks for, in every limit. */
  lemma SmallerProfileIsInForce(state: Option<Recorded>, total: nat, single: nat, entries: nat)
    requires var s := SystemPolicy(state);
      1 <= single <= s.maxFileBytes && single <= total <= s.maxTotalBytes && 1 <= entries <= s.maxEntries
    ensures EffectivePolicy(state, Some(Digits(total)), Some(Digits(single)), Some(Digits(entries)))
            == Policy(total, single, entries)
  {
    hide Digits, DecimalValue, SystemPolicy;
    SystemPolicyBounded(state);
    ProfileKeeps(total, SystemPolicy(state).maxTotalBytes, HARD_MAX_TOTAL_BYTES);
    ProfileKeeps(single, SystemPolicy(state).maxFileBytes, HARD_MAX_TOTAL_BYTES);
    ProfileKeeps(entries, SystemPolicy(state).maxEntries, HARD_MAX_ENTRIES);
  }

  lemma SystemPolicyBounded(state: Option<Recorded>)
    ensures var s := SystemPolicy(state);
      1 <= s.maxFileBytes <= s.maxTotalBytes <= HARD_MAX_TOTAL_BYTES && 1 <= s.maxEntries <= HARD_MAX_ENTRIES
  {}

  lemma ProfileKeeps(n: nat, system: nat, maximum: nat)
    requires 1 <= n <= system <= maximum <= HARD_MAX_TOTAL_BYTES
    ensures ProfileLimit(Some(Digits(n)), system, maximum) == n
  {
    hide DecimalValue, Digits;
    DecimalRoundTrip(n, 0);
    assert seq(0, _ => '0') + Digits(n) == Digits(n);
    DigitsShort(n, 9);
  }

  function Power10(k: nat): nat { if k == 0 then 1 else 10 * Power10(k - 1) }

  lemma {:induction false} DigitsShort(n: nat, k: nat)
    requires 1 <= k && n < Power10(k)
    ensures |Digits(n)| <= k
  {
    if n >= 10 {
      assert k > 1 by { assert Power10(1) == 10 * Power10(0) && Power10(0) == 1; }
      DigitsShort(n / 10, k - 1);
    }
  }

  predicate AtMost(a: Policy, b: Policy) {
    a.maxTotalBytes <= b.maxTotalBytes && a.maxFileBytes <= b.maxFileBytes && a.maxEntries <= b.maxEntries
  }

  lemma {:induction false} FineUnderLooser(kid: Kid, relative: seq<string>, depth: nat, a: Policy, b: Policy, rootMount: int)
    requires AtMost(a, b) && KidFine(kid, relative, depth, a, rootMount)
    ensures KidFine(kid, relative, depth, b, rootMount)
    decreases kid
  {
    hide PathFine;
    if kid.entry.DirE? {
      var dir, at := kid.entry, relative + [kid.name];
      forall i | 0 <= i < |dir.children| ensures KidFine(dir.children[i], at, depth + 1, b, rootMount) {
        FineUnderLooser(dir.children[i], at, depth + 1, a, b, rootMount);
      }
    }
  }

  /** Whatever the profile asks for, the policy in force never loosens the system's or the hard
      limits, and a tree sealed under it would be sealed under both. */
  lemma EffectivePolicyOnlyTightens(state: Option<Recorded>, total: Option<string>, single: Option<string>,
                                    entries: Option<string>, root: Entry, rootMount: int)
    requires root.DirE?
    ensures var e, s := EffectivePolicy(state, total, single, entries), SystemPolicy(state);
      && AtMost(e, s) && s.maxTotalBytes <= HARD_MAX_TOTAL_BYTES && s.maxEntries <= HARD_MAX_ENTRIES
      && 1 <= e.maxFileBytes <= e.maxTotalBytes && 1 <= e.maxEntries
      && (Fits(root, e, rootMount) ==>
            Fits(root, s, rootMount)
            && Fits(root, Policy(HARD_MAX_TOTAL_BYTES, HARD_MAX_TOTAL_BYTES, HARD_MAX_ENTRIES), rootMount))
  {
    hide KidFine, TallyFirst, Decimal, DecimalValue;
    var e, s := EffectivePolicy(state, total, single, entries), SystemPolicy(state);
    var hard := Policy(HARD_MAX_TOTAL_BYTES, HARD_MAX_TOTAL_BYTES, HARD_MAX_ENTRIES);
    assert AtMost(e, s) && AtMost(s, hard);
    if Fits(root, e, rootMount) {
      forall i | 0 <= i < |root.children|
        ensures KidFine(root.children[i], [], 1, s, rootMount) && KidFine(root.children[i], [], 1, hard, rootMount)
      {
        FineUnderLooser(root.children[i], [], 1, e, s, rootMount);
        FineUnderLooser(root.children[i], [], 1, s, hard, rootMount);
      }
    }
  }
}
