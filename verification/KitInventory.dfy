/** The content inventory of a Kit, from its archive and from its directory. */
module KitInventory {
  import opened KitPaths
  import opened KitLinks
  import opened KitArchive
  import opened SortedPaths

  datatype Entry = FileEntry(path: string, sha256: string, size: nat)
                 | LinkEntry(path: string, target: string)

  function PathOf(e: Entry): string {
    e.path
  }

  /** The digest is any function of the bytes. */
  type Sha = Content -> string

  // ----- What an inventory says about a listing ---------------------------------------------

  function SymlinksOf(kit: Listing): Links {
    map p | p in kit && kit[p].Sym? :: kit[p].target
  }

  type Targets = map<string, string>

  /** Every hard link with the member its target resolves to, the last link not followed. */
  ghost predicate HardTargets(kit: Listing, to: Targets) {
    && (forall p :: p in to <==> p in kit && kit[p].Hard?)
    && (forall p :: p in to ==> Resolves(SymlinksOf(kit), kit.Keys, false, kit[p].target, to[p]))
  }

  lemma HardTargetsAtMostOne(kit: Listing, a: Targets, b: Targets)
    requires HardTargets(kit, a) && HardTargets(kit, b)
    ensures a == b
  {
    hide Resolves;
    forall p | p in a ensures p in b && a[p] == b[p] {
      ResolutionIsUnique(SymlinksOf(kit), kit.Keys, false, kit[p].target, a[p], b[p]);
    }
  }

  /** n hard links lead from p to a file with this content. */
  ghost predicate ChainEnds(kit: Listing, to: Targets, p: string, n: nat, c: Content)
    decreases n
  {
    if n == 0 then p in kit && kit[p] == File(c)
    else p in to && ChainEnds(kit, to, to[p], n - 1, c)
  }

  ghost predicate EndsIn(kit: Listing, to: Targets, p: string, c: Content) {
    exists n: nat :: ChainEnds(kit, to, p, n, c)
  }

  /** The one entry a path gets: a link with its target, a file or hard link with the digest
      and size of the bytes at the end of its chain. */
  ghost predicate Means(kit: Listing, to: Targets, sha: Sha, e: Entry) {
    match e
    case LinkEntry(p, target) => p in kit && kit[p] == Sym(target)
    case FileEntry(p, digest, size) => exists c :: EndsIn(kit, to, p, c) && digest == sha(c) && size == |c|
  }

  ghost predicate IsInventory(es: seq<Entry>, kit: Listing, to: Targets, sha: Sha) {
    Sorted(es, PathOf) && forall e :: e in es <==> Means(kit, to, sha, e)
  }

  ghost predicate ChainsEnd(kit: Listing, to: Targets) {
    forall p :: p in to ==> exists c :: EndsIn(kit, to, p, c)
  }

  /** Every symbolic link leads to a member. */
  ghost predicate LinkValid(links: Links, members: set<string>, p: string)
    requires p in links
  {
    && SymlinkTargetRelative(p, links[p]).Ok?
    && exists r :: Resolves(links, members, true, SymlinkTargetRelative(p, links[p]).value, r)
  }

  ghost predicate LinksValid(links: Links, members: set<string>) {
    forall p :: p in links ==> LinkValid(links, members, p)
  }

  // ----- Chains are unambiguous -------------------------------------------------------------

  lemma {:induction false} ChainIsUnique(kit: Listing, to: Targets, p: string, n: nat, c: Content, n': nat, c': Content)
    requires HardTargets(kit, to)
    requires ChainEnds(kit, to, p, n, c) && ChainEnds(kit, to, p, n', c')
    ensures n == n' && c == c'
    decreases n
  {
    hide Resolves;
    if n > 0 && n' > 0 { ChainIsUnique(kit, to, to[p], n - 1, c, n' - 1, c'); }
  }

  /** k hard links lead from p to q. */
  ghost predicate LeadsTo(to: Targets, p: string, k: nat, q: string)
    decreases k
  {
    if k == 0 then p == q else p in to && LeadsTo(to, to[p], k - 1, q)
  }

  lemma {:induction false} LeadsOn(to: Targets, p: string, k: nat, q: string)
    requires LeadsTo(to, p, k, q) && q in to
    ensures LeadsTo(to, p, k + 1, to[q])
    decreases k
  {
    if k > 0 { LeadsOn(to, to[p], k - 1, q); }
  }

  lemma {:induction false} ChainAfter(kit: Listing, to: Targets, p: string, k: nat, q: string, n: nat, c: Content)
    requires HardTargets(kit, to)
    requires LeadsTo(to, p, k, q) && ChainEnds(kit, to, p, n, c)
    ensures k <= n && ChainEnds(kit, to, q, n - k, c)
    decreases k
  {
    hide Resolves;
    if k > 0 { ChainAfter(kit, to, to[p], k - 1, q, n - 1, c); }
  }

  lemma CyclicChainNeverEnds(kit: Listing, to: Targets, p: string, k: nat, n: nat, c: Content)
    requires HardTargets(kit, to) && k > 0 && LeadsTo(to, p, k, p)
    ensures !ChainEnds(kit, to, p, n, c)
  {
    if ChainEnds(kit, to, p, n, c) {
      ChainAfter(kit, to, p, k, p, n, c);
      ChainIsUnique(kit, to, p, n, c, n - k, c);
    }
  }

  // ----- The two inventories of one Kit -----------------------------------------------------

  /** The archive holds the tree's members, some files given as hard links to equal content. */
  ghost predicate Mirrors(archive: Listing, to: Targets, tree: Listing) {
    && archive.Keys == tree.Keys
    && HardTargets(archive, to)
    && (forall p :: p in tree ==> !tree[p].Hard?)
    && (forall p :: p in archive && !archive[p].Hard? ==> tree[p] == archive[p])
    && (forall p :: p in archive && archive[p].Hard? ==>
          tree[p].File? && EndsIn(archive, to, p, tree[p].content))
  }

  lemma MirrorMeansSame(archive: Listing, to: Targets, tree: Listing, sha: Sha, e: Entry)
    requires Mirrors(archive, to, tree)
    ensures Means(archive, to, sha, e) <==> Means(tree, map[], sha, e)
  {
    hide Resolves;
    if e.FileEntry? {
      forall c ensures EndsIn(archive, to, e.path, c) <==> EndsIn(tree, map[], e.path, c) {
        MirrorEndsSame(archive, to, tree, e.path, c);
      }
    }
  }

  lemma MirrorEndsSame(archive: Listing, to: Targets, tree: Listing, p: string, c: Content)
    requires Mirrors(archive, to, tree)
    ensures EndsIn(archive, to, p, c) <==> EndsIn(tree, map[], p, c)
  {
    hide Resolves;
    if EndsIn(archive, to, p, c) {
      var n: nat :| ChainEnds(archive, to, p, n, c);
      if n > 0 {
        var n': nat :| ChainEnds(archive, to, p, n', tree[p].content);
        ChainIsUnique(archive, to, p, n, c, n', tree[p].content);
      }
      assert ChainEnds(tree, map[], p, 0, c);
    }
    if EndsIn(tree, map[], p, c) {
      var n: nat :| ChainEnds(tree, map[], p, n, c);
      assert n == 0;
      if !archive[p].Hard? { assert ChainEnds(archive, to, p, 0, c); }
    }
  }

  /** The archive inventory equals the directory inventory. */
  lemma InventoriesAgree(archive: Listing, to: Targets, tree: Listing, sha: Sha, a: seq<Entry>, d: seq<Entry>)
    requires Mirrors(archive, to, tree)
    requires IsInventory(a, archive, to, sha) && IsInventory(d, tree, map[], sha)
    ensures a == d
  {
    hide Mirrors, Means;
    forall e ensures e in a <==> e in d {
      MirrorMeansSame(archive, to, tree, sha, e);
    }
    SortedIsUnique(a, d, PathOf);
  }

  /** Both builders accept the same Kits. */
  lemma MirrorsAcceptAlike(archive: Listing, to: Targets, tree: Listing)
    requires Mirrors(archive, to, tree)
    ensures ChainsEnd(archive, to)
    ensures SymlinksOf(archive) == SymlinksOf(tree)
    ensures LinksValid(SymlinksOf(archive), archive.Keys) <==> LinksValid(SymlinksOf(tree), tree.Keys)
  {
    hide Resolves, EndsIn;
  }
}
