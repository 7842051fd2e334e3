/** A Kit as a directory tree, and the walk over it. */
module KitDirectory {
  import opened Wrappers
  import opened KitPaths
  import opened KitArchive
  import opened KitInventory
  import opened KitBuilders

  datatype Tree = FileT(content: Content) | LinkT(target: string) | SpecialT | DirT(children: seq<Child>)

  datatype Child = Child(name: string, tree: Tree)

  // ----- Looking up a path in a tree --------------------------------------------------------

  function Named(children: seq<Child>, name: string): (r: Option<Tree>)
    ensures r.Some? ==> exists i :: 0 <= i < |children| && children[i] == Child(name, r.value)
    ensures r.None? ==> forall i :: 0 <= i < |children| ==> children[i].name != name
  {
    if children == [] then None
    else
      var last := children[|children| - 1];
      if last.name == name then Some(last.tree) else Named(children[..|children| - 1], name)
  }

  function PathIn(prefix: seq<string>, name: string): string {
    Slashed(prefix + [name])
  }

  /** What is at q below dir, which stands at prefix; excluded paths hide what is below them. */
  function Look(dir: Tree, prefix: seq<string>, q: seq<string>): Option<Tree>
    decreases |q|
  {
    if q == [] then Some(dir)
    else if !dir.DirT? || PathIn(prefix, q[0]) in EXCLUDED then None
    else
      match Named(dir.children, q[0])
      case None => None
      case Some(t) => Look(t, prefix + [q[0]], q[1..])
  }

  function TreeAt(dir: Tree, prefix: seq<string>, path: string): Option<Tree> {
    var q := Parts(path);
    if prefix < q then Look(dir, prefix, q[|prefix|..]) else None
  }

  function NodeOf(t: Tree): Node {
    match t
    case FileT(content) => File(content)
    case LinkT(target) => Sym(target)
    case _ => Dir
  }

  /** Names a file system can hold: plain, and distinct within one directory. */
  predicate WellFormed(t: Tree) {
    t.DirT? ==>
      && (forall i :: 0 <= i < |t.children| ==> PlainPart(t.children[i].name) && WellFormed(t.children[i].tree))
      && (forall i, j :: 0 <= i < j < |t.children| ==> t.children[i].name != t.children[j].name)
  }

  /** Something below dir that no inventory can hold. */
  ghost predicate BadAt(dir: Tree, prefix: seq<string>, path: string) {
    TreeAt(dir, prefix, path).Some? && ('\\' in path || TreeAt(dir, prefix, path).value.SpecialT?)
  }

  /** after is before and everything below dir. */
  ghost predicate Adds(before: Listing, after: Listing, dir: Tree, prefix: seq<string>) {
    && (forall p :: p in after <==> p in before || TreeAt(dir, prefix, p).Some?)
    && (forall p :: p in after ==>
          after[p] == if TreeAt(dir, prefix, p).Some? then NodeOf(TreeAt(dir, prefix, p).value) else before[p])
  }

  /** Nothing below prefix is listed yet. */
  ghost predicate Fresh(kit: Listing, prefix: seq<string>) {
    forall p :: p in kit ==> !(prefix < Parts(p))
  }

  /** Lookup from the other end: what is at q + [name] is the child of that name in the directory
      at q, unless that path is excluded. */
  lemma {:induction false} LookInside(dir: Tree, prefix: seq<string>, q: seq<string>, name: string)
    ensures var above := Look(dir, prefix, q);
      Look(dir, prefix, q + [name])
      == if above.Some? && above.value.DirT? && Slashed(prefix + q + [name]) !in EXCLUDED
         then Named(above.value.children, name)
         else None
    decreases |q|
  {
    hide Slashed;
    if q == [] {
      assert [name][1..] == [] && prefix + q + [name] == prefix + [name];
    } else {
      assert (q + [name])[1..] == q[1..] + [name] && (q + [name])[0] == q[0];
      assert prefix + q + [name] == (prefix + [q[0]]) + q[1..] + [name];
      if dir.DirT? && PathIn(prefix, q[0]) !in EXCLUDED && Named(dir.children, q[0]).Some? {
        LookInside(Named(dir.children, q[0]).value, prefix + [q[0]], q[1..], name);
      }
    }
  }

  // ----- One more child ---------------------------------------------------------------------

  lemma NamedMore(children: seq<Child>, i: nat, name: string)
    requires i < |children|
    ensures Named(children[..i + 1], name)
            == if name == children[i].name then Some(children[i].tree) else Named(children[..i], name)
  {
    assert children[..i + 1][..i] == children[..i];
  }

  lemma TreeAtMore(children: seq<Child>, i: nat, prefix: seq<string>, p: string)
    requires i < |children|
    ensures var dir, more, name := DirT(children[..i]), DirT(children[..i + 1]), children[i].name;
      TreeAt(more, prefix, p)
      == if prefix + [name] <= Parts(p) && PathIn(prefix, name) !in EXCLUDED
         then Look(children[i].tree, prefix + [name], Parts(p)[|prefix| + 1..])
         else TreeAt(dir, prefix, p)
  {
    hide PathIn, Parts, Named;
    var q, name := Parts(p), children[i].name;
    if prefix < q {
      var rest := q[|prefix|..];
      assert rest[0] == q[|prefix|] && rest[1..] == q[|prefix| + 1..];
      assert prefix + [name] <= q <==> rest[0] == name;
      NamedMore(children, i, rest[0]);
    }
  }

  lemma ChildPath(prefix: seq<string>, name: string)
    requires Plain(prefix) && PlainPart(name)
    ensures Plain(prefix + [name]) && Parts(PathIn(prefix, name)) == prefix + [name]
    ensures prefix != [] ==> Slashed(prefix) != ""
    ensures PathIn(prefix, name) == if prefix == [] then name else Slashed(prefix) + "/" + name
  {
    PlainStart(prefix + [name]);
    if prefix != [] {
      PlainStart(prefix);
      SlashedSnoc(prefix, name);
    }
  }

  lemma {:induction false} SlashedSnoc(prefix: seq<string>, name: string)
    requires prefix != []
    ensures Slashed(prefix + [name]) == Slashed(prefix) + "/" + name
  {
    if |prefix| == 1 {
      assert (prefix + [name])[1..] == [name] && (prefix + [name])[0] == prefix[0];
      assert Slashed([name]) == name && Slashed(prefix) == prefix[0];
    } else {
      assert (prefix + [name])[1..] == prefix[1..] + [name];
      SlashedSnoc(prefix[1..], name);
    }
  }

  /** The i-th child and what is below it come after the first i children. */
  lemma ChildStep(children: seq<Child>, i: nat, prefix: seq<string>, p: string)
    requires i < |children| && WellFormed(DirT(children)) && Plain(prefix)
    requires PathIn(prefix, children[i].name) !in EXCLUDED
    ensures var t, at, path := children[i].tree, prefix + [children[i].name], PathIn(prefix, children[i].name);
      TreeAt(DirT(children[..i + 1]), prefix, p)
      == if p == path then Some(t)
         else if at < Parts(p) then TreeAt(t, at, p)
         else TreeAt(DirT(children[..i]), prefix, p)
  {
    hide Slashed, Parts;
    var at := prefix + [children[i].name];
    TreeAtMore(children, i, prefix, p);
    ChildPath(prefix, children[i].name);
    PartsAreClean(p);
    if at <= Parts(p) {
      if |Parts(p)| == |at| {
        assert Parts(p) == at && Slashed(Parts(p)) == p;
        assert PathIn(prefix, children[i].name) == Slashed(at) && Parts(p)[|prefix| + 1..] == [];
      } else {
        assert TreeAt(children[i].tree, at, p) == Look(children[i].tree, at, Parts(p)[|prefix| + 1..]);
      }
    }
  }

  /** Nothing of the i-th child is among the first i. */
  lemma ChildIsNew(children: seq<Child>, i: nat, prefix: seq<string>, p: string)
    requires i < |children| && WellFormed(DirT(children))
    requires prefix + [children[i].name] <= Parts(p)
    ensures TreeAt(DirT(children[..i]), prefix, p).None?
  {
    hide PathIn, Parts;
    var q, name := Parts(p), children[i].name;
    assert prefix == (prefix + [name])[..|prefix|] == q[..|prefix|];
    assert q[|prefix|] == (prefix + [name])[|prefix|] == name;
    assert q[|prefix|..][0] == name;
    assert Named(children[..i], name).None?;
  }

  lemma AddsChild(kit0: Listing, kit: Listing, kit': Listing, children: seq<Child>, i: nat, prefix: seq<string>)
    requires i < |children| && WellFormed(DirT(children)) && Plain(prefix)
    requires PathIn(prefix, children[i].name) !in EXCLUDED
    requires Fresh(kit0, prefix) && Adds(kit0, kit, DirT(children[..i]), prefix)
    requires var path, t := PathIn(prefix, children[i].name), children[i].tree;
      Adds(kit[path := NodeOf(t)], kit', t, prefix + [children[i].name])
    ensures Adds(kit0, kit', DirT(children[..i + 1]), prefix)
  {
    hide PathIn, Parts, Look, Plain, WellFormed, Named;
    var t, at, path := children[i].tree, prefix + [children[i].name], PathIn(prefix, children[i].name);
    forall p
      ensures p in kit' <==> p in kit0 || TreeAt(DirT(children[..i + 1]), prefix, p).Some?
      ensures p in kit' ==>
                kit'[p] == if TreeAt(DirT(children[..i + 1]), prefix, p).Some?
                           then NodeOf(TreeAt(DirT(children[..i + 1]), prefix, p).value) else kit0[p]
    {
      ChildStep(children, i, prefix, p);
      if at <= Parts(p) { ChildIsNew(children, i, prefix, p); }
      assert WellFormed(DirT(children)) && Plain(prefix);
      PathParts(children, i, prefix);
    }
  }

  lemma PathParts(children: seq<Child>, i: nat, prefix: seq<string>)
    requires i < |children| && WellFormed(DirT(children)) && Plain(prefix)
    ensures Parts(PathIn(prefix, children[i].name)) == prefix + [children[i].name]
    ensures Plain(prefix + [children[i].name])
  {
    ChildPath(prefix, children[i].name);
  }

  lemma AddsExcluded(kit0: Listing, kit: Listing, children: seq<Child>, i: nat, prefix: seq<string>)
    requires i < |children| && WellFormed(DirT(children))
    requires PathIn(prefix, children[i].name) in EXCLUDED
    requires Adds(kit0, kit, DirT(children[..i]), prefix) && NoneBad(DirT(children[..i]), prefix)
    ensures Adds(kit0, kit, DirT(children[..i + 1]), prefix) && NoneBad(DirT(children[..i + 1]), prefix)
  {
    hide PathIn, Parts, TreeAt, WellFormed;
    forall p
      ensures TreeAt(DirT(children[..i + 1]), prefix, p) == TreeAt(DirT(children[..i]), prefix, p)
      ensures !BadAt(DirT(children[..i + 1]), prefix, p)
    {
      TreeAtMore(children, i, prefix, p);
      assert !BadAt(DirT(children[..i]), prefix, p);
    }
  }

  // ----- Bad members ------------------------------------------------------------------------

  ghost predicate NoneBad(dir: Tree, prefix: seq<string>) {
    forall p :: !BadAt(dir, prefix, p)
  }

  lemma BadMore(children: seq<Child>, i: nat, prefix: seq<string>)
    requires i < |children| && WellFormed(DirT(children)) && Plain(prefix)
    requires PathIn(prefix, children[i].name) !in EXCLUDED
    ensures var t, path := children[i].tree, PathIn(prefix, children[i].name);
      && ('\\' in path || t.SpecialT? ==> BadAt(DirT(children[..i + 1]), prefix, path))
      && (forall p :: BadAt(t, prefix + [children[i].name], p) ==> BadAt(DirT(children[..i + 1]), prefix, p))
  {
    hide PathIn, Parts, Look, Plain, WellFormed, Named;
    var t, at, path := children[i].tree, prefix + [children[i].name], PathIn(prefix, children[i].name);
    PathParts(children, i, prefix);
    ChildStep(children, i, prefix, path);
    forall p | BadAt(t, at, p) ensures BadAt(DirT(children[..i + 1]), prefix, p) {
      ChildStep(children, i, prefix, p);
    }
  }

  lemma NoneBadMore(children: seq<Child>, i: nat, prefix: seq<string>)
    requires i < |children| && WellFormed(DirT(children)) && Plain(prefix)
    requires PathIn(prefix, children[i].name) !in EXCLUDED
    requires NoneBad(DirT(children[..i]), prefix) && NoneBad(children[i].tree, prefix + [children[i].name])
    requires '\\' !in PathIn(prefix, children[i].name) && !children[i].tree.SpecialT?
    ensures NoneBad(DirT(children[..i + 1]), prefix)
  {
    hide PathIn, Parts, Look, Plain, WellFormed, Named, TreeAt;
    var more := DirT(children[..i + 1]);
    forall p ensures !BadAt(more, prefix, p) {
      ChildStep(children, i, prefix, p);
      assert !BadAt(DirT(children[..i]), prefix, p);
      assert !BadAt(children[i].tree, prefix + [children[i].name], p);
    }
  }

  /** A bad member stays bad as more children are listed. */
  lemma BadStays(children: seq<Child>, i: nat, prefix: seq<string>, p: string)
    requires i <= |children| && WellFormed(DirT(children))
    requires BadAt(DirT(children[..i]), prefix, p)
    ensures BadAt(DirT(children), prefix, p)
    decreases |children| - i
  {
    hide PathIn, Parts;
    if i == |children| {
      assert children[..i] == children;
    } else {
      TreeAtMore(children, i, prefix, p);
      if prefix + [children[i].name] <= Parts(p) { ChildIsNew(children, i, prefix, p); }
      BadStays(children, i + 1, prefix, p);
    }
  }

  // ----- The walk ---------------------------------------------------------------------------

  lemma FreshBelow(kit0: Listing, kit: Listing, children: seq<Child>, i: nat, prefix: seq<string>, n: Node)
    requires i < |children| && WellFormed(DirT(children)) && Plain(prefix)
    requires Fresh(kit0, prefix) && Adds(kit0, kit, DirT(children[..i]), prefix)
    ensures var path := PathIn(prefix, children[i].name);
      path !in kit && Fresh(kit[path := n], prefix + [children[i].name])
  {
    hide PathIn, Parts, Look, Plain, WellFormed, Named, TreeAt;
    var at, path := prefix + [children[i].name], PathIn(prefix, children[i].name);
    PathParts(children, i, prefix);
    forall p | at <= Parts(p) ensures p !in kit {
      ChildIsNew(children, i, prefix, p);
      assert prefix == at[..|prefix|] == Parts(p)[..|prefix|];
      assert prefix < Parts(p);
    }
  }

  /** directory_inventory's visit over the children of one directory. */
  method Visit(dir: Tree, prefix: string, s: Scan, sha: Sha, ghost at: seq<string>, ghost kit: Listing)
    returns (r: Result<Scan, KitError>, ghost kit': Listing)
    requires dir.DirT? && WellFormed(dir) && Plain(at) && prefix == Slashed(at) && '\\' !in prefix
    requires Scanned(kit, sha, s) && Fresh(kit, at)
    ensures r.Ok? ==> Scanned(kit', sha, r.value) && Adds(kit, kit', dir, at)
    ensures if r.Ok? then NoneBad(dir, at) else exists p :: BadAt(dir, at, p)
    decreases dir
  {
    hide *;
    var s' := s;
    kit' := kit;
    var i := 0;
    StartWalk(kit, dir, at);
    while i < |dir.children|
      invariant i <= |dir.children|
      invariant Scanned(kit', sha, s') && Adds(kit, kit', DirT(dir.children[..i]), at)
      invariant NoneBad(DirT(dir.children[..i]), at)
    {
      var child := dir.children[i];
      var relative := if prefix == "" then child.name else prefix + "/" + child.name;
      ChildFacts(dir, i, prefix, at);
      if relative in EXCLUDED {
        AddsExcluded(kit, kit', dir.children, i, at);
        i := i + 1;
        continue;
      }
      BadMore(dir.children, i, at);
      if RelativePath(relative).Err? || child.tree.SpecialT? {
        BadStays(dir.children, i + 1, at, relative);
        return Err(if child.tree.SpecialT? then Unsupported else BadPath), kit';
      }
      FreshBelow(kit, kit', dir.children, i, at, NodeOf(child.tree));
      ghost var before := kit';
      RecordKeeps(kit', sha, s', relative, NodeOf(child.tree));
      s' := Record(s', sha, relative, NodeOf(child.tree));
      kit' := kit'[relative := NodeOf(child.tree)];
      if child.tree.DirT? {
        var below;
        below, kit' := Visit(child.tree, relative, s', sha, at + [child.name], kit');
        if below.Err? {
          ghost var p :| BadAt(child.tree, at + [child.name], p);
          BadStays(dir.children, i + 1, at, p);
          return below, kit';
        }
        s' := below.value;
      } else {
        LeafAdds(kit', child.tree, at + [child.name]);
      }
      AddsChild(kit, before, kit', dir.children, i, at);
      NoneBadMore(dir.children, i, at);
      i := i + 1;
    }
    assert dir.children[..i] == dir.children && DirT(dir.children) == dir;
    r := Ok(s');
  }

  lemma StartWalk(kit: Listing, dir: Tree, at: seq<string>)
    requires dir.DirT?
    ensures Adds(kit, kit, DirT(dir.children[..0]), at) && NoneBad(DirT(dir.children[..0]), at)
  {
    hide PathIn, Parts;
    forall p ensures TreeAt(DirT(dir.children[..0]), at, p).None? {}
  }

  lemma LeafAdds(kit: Listing, t: Tree, at: seq<string>)
    requires !t.DirT?
    ensures Adds(kit, kit, t, at) && NoneBad(t, at)
  {
    hide PathIn, Parts;
    forall p ensures TreeAt(t, at, p).None? {}
  }

  /** The i-th child, its path as the walk spells it, and when that path is refused. */
  lemma ChildFacts(dir: Tree, i: nat, prefix: string, at: seq<string>)
    requires dir.DirT? && WellFormed(dir) && i < |dir.children| && Plain(at) && prefix == Slashed(at)
    ensures DirT(dir.children) == dir
    ensures var child, relative := dir.children[i], PathIn(at, dir.children[i].name);
      && WellFormed(child.tree) && Plain(at + [child.name]) && relative == Slashed(at + [child.name])
      && relative == (if prefix == "" then child.name else prefix + "/" + child.name)
      && (relative !in EXCLUDED ==> (RelativePath(relative).Err? <==> '\\' in relative))
  {
    hide Slashed, RelativePath, Plain;
    var child := dir.children[i];
    assert PlainPart(child.name);
    ChildPath(at, child.name);
    EmptyPrefix(at);
    if PathIn(at, child.name) !in EXCLUDED { SafeRelative(at + [child.name], PathIn(at, child.name)); }
  }

  lemma EmptyPrefix(at: seq<string>)
    requires Plain(at)
    ensures Slashed(at) == "" <==> at == []
  {
    if at != [] { PlainStart(at); }
  }

  lemma SafeRelative(parts: seq<string>, relative: string)
    requires parts != [] && Plain(parts) && relative == Slashed(parts) && relative !in EXCLUDED
    ensures RelativePath(relative).Err? <==> '\\' in relative
  {
    RelativePathOfPlain(parts);
  }
}
