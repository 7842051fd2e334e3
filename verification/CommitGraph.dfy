/** Commits as a parent map, ancestry as paths, and commit ranges as differences of ancestors. */
module CommitGraph {
  type Sha = string

  /** Every commit with its parents. */
  type Graph = map<Sha, set<Sha>>

  ghost predicate Path(g: Graph, p: seq<Sha>) {
    && |p| > 0
    && (forall k :: 0 <= k < |p| ==> p[k] in g)
    && (forall k :: 0 <= k < |p| - 1 ==> p[k + 1] in g[p[k]])
  }

  /** a is d or an ancestor of d. */
  ghost predicate Anc(g: Graph, a: Sha, d: Sha) {
    exists p :: Path(g, p) && p[0] == d && p[|p| - 1] == a
  }

  ghost predicate Acyclic(g: Graph) {
    forall p :: Path(g, p) && |p| > 1 ==> p[0] != p[|p| - 1]
  }

  ghost function Ancestors(g: Graph, d: Sha): set<Sha> {
    set a | a in g && Anc(g, a, d)
  }

  /** base..tip */
  ghost function Range(g: Graph, base: Sha, tip: Sha): set<Sha> {
    Ancestors(g, tip) - Ancestors(g, base)
  }

  lemma AncInGraph(g: Graph, a: Sha, d: Sha)
    requires Anc(g, a, d)
    ensures a in g && d in g
  {}

  lemma AncRefl(g: Graph, a: Sha)
    requires a in g
    ensures Anc(g, a, a)
  {
    assert Path(g, [a]);
  }

  lemma AncTrans(g: Graph, a: Sha, b: Sha, c: Sha)
    requires Anc(g, a, b) && Anc(g, b, c)
    ensures Anc(g, a, c)
  {
    var p :| Path(g, p) && p[0] == b && p[|p| - 1] == a;
    var q :| Path(g, q) && q[0] == c && q[|q| - 1] == b;
    JoinPaths(g, q, p);
  }

  lemma JoinPaths(g: Graph, q: seq<Sha>, p: seq<Sha>)
    requires Path(g, q) && Path(g, p) && q[|q| - 1] == p[0]
    ensures var r := q + p[1..];
            Path(g, r) && r[0] == q[0] && r[|r| - 1] == p[|p| - 1] && |r| == |q| + |p| - 1
  {
    var r := q + p[1..];
    forall k | 0 <= k < |r| - 1 ensures r[k + 1] in g[r[k]] {
      if k >= |q| - 1 {
        assert r[k + 1] == p[k + 2 - |q|] && r[k] == p[k + 1 - |q|];
      }
    }
  }

  lemma AncAntisym(g: Graph, a: Sha, b: Sha)
    requires Acyclic(g) && Anc(g, a, b) && Anc(g, b, a)
    ensures a == b
  {
    var p :| Path(g, p) && p[0] == b && p[|p| - 1] == a;
    var q :| Path(g, q) && q[0] == a && q[|q| - 1] == b;
    JoinPaths(g, q, p);
  }

  lemma AncestorsGrow(g: Graph, a: Sha, d: Sha)
    requires Anc(g, a, d)
    ensures Ancestors(g, a) <= Ancestors(g, d) && a in Ancestors(g, d)
  {
    forall x | x in Ancestors(g, a) ensures x in Ancestors(g, d) {
      AncTrans(g, x, a, d);
    }
    AncInGraph(g, a, d);
  }

  /** base..start and start..head split base..head. */
  lemma RangeSplits(g: Graph, base: Sha, start: Sha, head: Sha)
    requires Anc(g, base, start) && Anc(g, start, head)
    ensures Range(g, base, start) !! Range(g, start, head)
    ensures Range(g, base, start) + Range(g, start, head) == Range(g, base, head)
  {
    AncestorsGrow(g, base, start);
    AncestorsGrow(g, start, head);
  }
}
