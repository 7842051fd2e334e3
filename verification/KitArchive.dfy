/** Tar members, and what an archive lists. */
module KitArchive {
  import opened Wrappers
  import opened KitPaths
  import opened KitExport

  type Content = seq<nat>

  datatype Body = FileBody(content: Content) | SymBody(target: string) | HardBody(linkname: string)
                | DirBody | OtherBody

  datatype Member = Member(name: string, body: Body)

  datatype Node = File(content: Content) | Sym(target: string) | Hard(target: string) | Dir

  /** In-Kit path to what is there. */
  type Listing = map<string, Node>

  datatype KitError = BadPath | Duplicate | Unsupported | BadHardLink | BadSymlink | BadHarness

  /** One archive member: nothing for the root and the excluded files. */
  function ReadMember(m: Member, root: string): Result<Option<(string, Node)>, KitError> {
    match ArchiveRelative(m.name, root)
    case Err(_) => Err(BadPath)
    case Ok(None) => Ok(None)
    case Ok(Some(path)) =>
      if path in EXCLUDED then Ok(None)
      else
        match m.body
        case FileBody(content) => Ok(Some((path, File(content))))
        case SymBody(target) => Ok(Some((path, Sym(target))))
        case DirBody => Ok(Some((path, Dir)))
        case OtherBody => Err(Unsupported)
        case HardBody(linkname) =>
          match ArchiveLinkTarget(path, linkname, root)
          case Err(_) => Err(BadPath)
          case Ok(target) => Ok(Some((path, Hard(target))))
  }

  /** Member i is read as something at this path. */
  ghost predicate ReadsAt(ms: seq<Member>, root: string, i: int, path: string, node: Node) {
    0 <= i < |ms| && ReadMember(ms[i], root) == Ok(Some((path, node)))
  }

  /** Every member is readable and no two stand for one path. */
  ghost predicate Listable(ms: seq<Member>, root: string) {
    && (forall i :: 0 <= i < |ms| ==> ReadMember(ms[i], root).Ok?)
    && (forall i, j, p, n, n' :: ReadsAt(ms, root, i, p, n) && ReadsAt(ms, root, j, p, n') ==> i == j)
  }

  /** kit holds exactly what the members stand for, whatever their order. */
  ghost predicate Lists(ms: seq<Member>, root: string, kit: Listing) {
    && Listable(ms, root)
    && (forall i, p, n :: ReadsAt(ms, root, i, p, n) ==> p in kit && kit[p] == n)
    && (forall p :: p in kit ==> exists i :: ReadsAt(ms, root, i, p, kit[p]))
  }

  /** A member that is neither the root nor excluded. */
  predicate Counts(m: Member, root: string) {
    ArchiveRelative(m.name, root).Ok? && ArchiveRelative(m.name, root).value.Some?
    && ArchiveRelative(m.name, root).value.value !in EXCLUDED
  }

  /** A listable archive has no name outside the root, no special member and no hard link with an
      unreadable target beside the excluded files, and nothing else makes a member unreadable. */
  lemma ReadableIff(m: Member, root: string)
    ensures ReadMember(m, root).Ok? <==>
      && ArchiveRelative(m.name, root).Ok?
      && (Counts(m, root) ==>
            && !m.body.OtherBody?
            && (m.body.HardBody? ==>
                  ArchiveLinkTarget(ArchiveRelative(m.name, root).value.value, m.body.linkname, root).Ok?))
    ensures ReadMember(m, root).Ok? ==> (ReadMember(m, root).value.Some? <==> Counts(m, root))
  {
    hide ArchiveRelative, ArchiveLinkTarget;
  }

  /** What is listed at a counting member's path is its own content or target. */
  lemma ListedAs(ms: seq<Member>, root: string, kit: Listing, i: nat)
    requires Lists(ms, root, kit) && i < |ms| && Counts(ms[i], root)
    ensures var path := ArchiveRelative(ms[i].name, root).value.value;
      && path in kit
      && !ms[i].body.OtherBody?
      && (ms[i].body.DirBody? <==> kit[path].Dir?)
      && (ms[i].body.FileBody? ==> kit[path] == File(ms[i].body.content))
      && (ms[i].body.SymBody? ==> kit[path] == Sym(ms[i].body.target))
      && (ms[i].body.HardBody? ==>
            kit[path].Hard? && ArchiveLinkTarget(path, ms[i].body.linkname, root) == Ok(kit[path].target))
  {
    hide ArchiveRelative, ArchiveLinkTarget;
    assert ReadMember(ms[i], root).Ok?;
    ReadableIff(ms[i], root);
    var found := ReadMember(ms[i], root).value.value;
    assert ReadsAt(ms, root, i, found.0, found.1);
  }

  lemma ListsAtMostOne(ms: seq<Member>, root: string, a: Listing, b: Listing)
    requires Lists(ms, root, a) && Lists(ms, root, b)
    ensures a == b
  {
    hide ReadMember;
    forall p | p in a ensures p in b && b[p] == a[p] {
      var i :| ReadsAt(ms, root, i, p, a[p]);
    }
    forall p | p in b ensures p in a {
      var i :| ReadsAt(ms, root, i, p, b[p]);
    }
  }

  lemma ListsNone(root: string)
    ensures Lists([], root, map[])
  {}

  /** Reading one more member. */
  lemma ListsMore(ms: seq<Member>, root: string, kit: Listing, m: Member)
    requires Lists(ms, root, kit)
    ensures match ReadMember(m, root)
            case Err(_) => !Listable(ms + [m], root)
            case Ok(None) => Lists(ms + [m], root, kit)
            case Ok(Some((p, n))) =>
              if p in kit then !Listable(ms + [m], root) else Lists(ms + [m], root, kit[p := n])
  {
    hide ReadMember;
    var more := ms + [m];
    assert more[|ms|] == m;
    assert forall i, p, n :: ReadsAt(ms, root, i, p, n) ==> ReadsAt(more, root, i, p, n);
    assert forall i, p, n :: ReadsAt(more, root, i, p, n) && i < |ms| ==> ReadsAt(ms, root, i, p, n);
    match ReadMember(m, root)
    case Err(_) =>
    case Ok(None) =>
      assert forall p, n :: !ReadsAt(more, root, |ms|, p, n);
    case Ok(Some((p, n))) =>
      assert ReadsAt(more, root, |ms|, p, n);
      if p in kit {
        var i :| ReadsAt(ms, root, i, p, kit[p]);
        assert ReadsAt(more, root, i, p, kit[p]);
      } else {
        ListsOneMore(ms, root, kit, m, p, n);
      }
  }

  lemma ListsOneMore(ms: seq<Member>, root: string, kit: Listing, m: Member, path: string, node: Node)
    requires Lists(ms, root, kit) && path !in kit
    requires ReadMember(m, root) == Ok(Some((path, node)))
    ensures Lists(ms + [m], root, kit[path := node])
  {
    hide ReadMember;
    var more, after := ms + [m], kit[path := node];
    assert more[|ms|] == m;
    forall i, p, n | ReadsAt(more, root, i, p, n)
      ensures p in after && after[p] == n
      ensures i == |ms| || (p in kit && ReadsAt(ms, root, i, p, n))
    {
      if i < |ms| { assert ReadsAt(ms, root, i, p, n); }
    }
    forall p | p in after ensures exists i :: ReadsAt(more, root, i, p, after[p]) {
      if p == path {
        assert ReadsAt(more, root, |ms|, p, node);
      } else {
        var i :| ReadsAt(ms, root, i, p, kit[p]);
        assert ReadsAt(more, root, i, p, kit[p]);
      }
    }
  }

  lemma PrefixListable(ms: seq<Member>, root: string, n: nat)
    requires n <= |ms| && Listable(ms, root)
    ensures Listable(ms[..n], root)
  {
    hide ReadMember;
    assert forall i, p, x :: ReadsAt(ms[..n], root, i, p, x) ==> ReadsAt(ms, root, i, p, x);
  }
}
