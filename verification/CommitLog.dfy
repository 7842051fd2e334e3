/** The NUL-separated commit list: one hash and one subject for each commit. */
module CommitLog {
  import opened Wrappers
  import opened Strings
  import opened CommitGraph

  datatype Commit = Commit(sha: Sha, subject: string)

  const NUL: char := 0 as char

  predicate HexDigit(c: char) {
    '0' <= c <= '9' || 'a' <= c <= 'f'
  }

  predicate ValidSha(s: Sha) {
    |s| == 40 && forall k :: 0 <= k < |s| ==> HexDigit(s[k])
  }

  function Shas(cs: seq<Commit>): (s: set<Sha>) {
    set c | c in cs :: c.sha
  }

  predicate DistinctShas(cs: seq<Commit>) {
    forall i, j :: 0 <= i < j < |cs| ==> cs[i].sha != cs[j].sha
  }

  /** What git writes for a list of commits. */
  function Render(cs: seq<Commit>): string {
    if cs == [] then "" else cs[0].sha + [NUL] + cs[0].subject + [NUL] + Render(cs[1..])
  }

  function PairUp(tokens: seq<string>): (r: Option<seq<Commit>>)
    ensures r.Some? ==> |tokens| == 2 * |r.value|
  {
    if tokens == [] then Some([])
    else if |tokens| == 1 || !ValidSha(tokens[0]) then None
    else
      var rest := PairUp(tokens[2..]);
      if rest.None? then None else Some([Commit(tokens[0], tokens[1])] + rest.value)
  }

  /** _list_commits on the output of git, absent when git failed. */
  method ListCommits(output: Option<string>) returns (r: Option<seq<Commit>>)
    ensures r == if output.None? then None else PairUp(NonEmpty(Split(output.value, NUL)))
  {
    if output.None? {
      return None;
    }
    var tokens := NonEmpty(Split(output.value, NUL));
    if tokens == [] {
      return Some([]);
    }
    if |tokens| % 2 != 0 {
      OddHasNoPairs(tokens);
      return None;
    }
    var commits: seq<Commit> := [];
    var index := 0;
    assert tokens[0..] == tokens && PairUp(tokens) == Prepend([], PairUp(tokens)) by {
      if PairUp(tokens).Some? { assert [] + PairUp(tokens).value == PairUp(tokens).value; }
    }
    while index < |tokens|
      invariant index <= |tokens| && index % 2 == 0
      invariant PairUp(tokens) == Prepend(commits, PairUp(tokens[index..]))
    {
      var sha := tokens[index];
      if !ValidSha(sha) {
        return None;
      }
      assert tokens[index..][2..] == tokens[index + 2..];
      PrependOne(commits, Commit(sha, tokens[index + 1]), PairUp(tokens[index + 2..]));
      commits := commits + [Commit(sha, tokens[index + 1])];
      index := index + 2;
    }
    assert tokens[index..] == [] && commits + [] == commits;
    r := Some(commits);
  }

  ghost function Prepend(cs: seq<Commit>, rest: Option<seq<Commit>>): Option<seq<Commit>> {
    if rest.None? then None else Some(cs + rest.value)
  }

  lemma PrependOne(cs: seq<Commit>, c: Commit, rest: Option<seq<Commit>>)
    ensures Prepend(cs, if rest.None? then None else Some([c] + rest.value)) == Prepend(cs + [c], rest)
  {
    if rest.Some? { assert cs + ([c] + rest.value) == cs + [c] + rest.value; }
  }

  lemma {:induction false} OddHasNoPairs(tokens: seq<string>)
    requires |tokens| % 2 == 1
    ensures PairUp(tokens).None?
  {
    if |tokens| > 1 { OddHasNoPairs(tokens[2..]); }
  }

  /** Full hashes at every other token, and each commit with the token after its hash as subject. */
  predicate Pairs(tokens: seq<string>, cs: seq<Commit>) {
    && |tokens| == 2 * |cs|
    && forall i :: 0 <= i < |cs| ==>
         ValidSha(tokens[2 * i]) && cs[i].sha == tokens[2 * i] && cs[i].subject == tokens[2 * i + 1]
  }

  lemma PairsCons(tokens: seq<string>, cs: seq<Commit>)
    requires |tokens| >= 2 && cs != []
    ensures Pairs(tokens, cs) <==>
              ValidSha(tokens[0]) && cs[0] == Commit(tokens[0], tokens[1]) && Pairs(tokens[2..], cs[1..])
  {
    hide ValidSha;
    if Pairs(tokens, cs) {
      assert tokens[2 * 0] == tokens[0] && tokens[2 * 0 + 1] == tokens[1];
      forall i | 0 <= i < |cs[1..]|
        ensures ValidSha(tokens[2..][2 * i]) && cs[1..][i].sha == tokens[2..][2 * i]
                && cs[1..][i].subject == tokens[2..][2 * i + 1]
      {
        assert ValidSha(tokens[2 * (i + 1)]);
      }
    }
    if ValidSha(tokens[0]) && cs[0] == Commit(tokens[0], tokens[1]) && Pairs(tokens[2..], cs[1..]) {
      forall i | 0 <= i < |cs|
        ensures ValidSha(tokens[2 * i]) && cs[i].sha == tokens[2 * i] && cs[i].subject == tokens[2 * i + 1]
      {
        if i > 0 { assert ValidSha(tokens[2..][2 * (i - 1)]) && cs[1..][i - 1] == cs[i]; }
      }
    }
  }

  /** The parse in full: it succeeds with exactly the commits the tokens pair up to. */
  lemma {:induction false} PairUpIff(tokens: seq<string>, cs: seq<Commit>)
    ensures PairUp(tokens) == Some(cs) <==> Pairs(tokens, cs)
  {
    hide Pairs, ValidSha;
    if |tokens| >= 2 && cs != [] {
      PairsCons(tokens, cs);
      PairUpIff(tokens[2..], cs[1..]);
      assert cs == [cs[0]] + cs[1..];
    } else {
      PairsShort(tokens, cs);
    }
  }

  lemma PairsShort(tokens: seq<string>, cs: seq<Commit>)
    requires |tokens| < 2 || cs == []
    ensures Pairs(tokens, cs) <==> tokens == [] && cs == []
  {}

  // ----- Reading back what git wrote --------------------------------------------------------

  predicate Writable(cs: seq<Commit>) {
    forall c :: c in cs ==> ValidSha(c.sha) && NUL !in c.subject
  }

  function Tokens(cs: seq<Commit>): seq<string> {
    if cs == [] then []
    else [cs[0].sha] + (if cs[0].subject == "" then [] else [cs[0].subject]) + Tokens(cs[1..])
  }

  lemma NonEmptyOfEntry(sha: Sha, subject: string, rest: seq<string>)
    requires sha != ""
    ensures NonEmpty([sha] + ([subject] + rest))
            == [sha] + (if subject == "" then [] else [subject]) + NonEmpty(rest)
  {
    var tail := [subject] + rest;
    assert tail[0] == subject && tail[1..] == rest;
    var all := [sha] + tail;
    assert all[0] == sha && all[1..] == tail;
  }

  lemma SplitOfEntry(sha: Sha, subject: string, rest: string)
    requires NUL !in sha && NUL !in subject
    ensures Split(sha + [NUL] + subject + [NUL] + rest, NUL) == [sha] + ([subject] + Split(rest, NUL))
  {
    hide Split;
    var tail := subject + [NUL] + rest;
    assert sha + [NUL] + subject + [NUL] + rest == sha + [NUL] + tail;
    SplitConcat(sha, tail, NUL);
    SplitConcat(subject, rest, NUL);
    SplitPiece(sha, NUL);
    SplitPiece(subject, NUL);
  }

  lemma {:induction false} TokensOfRender(cs: seq<Commit>)
    requires Writable(cs)
    ensures NonEmpty(Split(Render(cs), NUL)) == Tokens(cs)
  {
    hide Split, NonEmpty;
    if cs == [] {
      SplitPiece("", NUL);
      assert NonEmpty([""]) == [] by {
        if NonEmpty([""]) != [] { assert NonEmpty([""])[0] in NonEmpty([""]); }
      }
    } else {
      var c, rest := cs[0], Render(cs[1..]);
      assert c in cs;
      SplitOfEntry(c.sha, c.subject, rest);
      NonEmptyOfEntry(c.sha, c.subject, Split(rest, NUL));
      TokensOfRender(cs[1..]);
    }
  }

  lemma {:induction false} FewerTokens(cs: seq<Commit>)
    ensures |Tokens(cs)| <= 2 * |cs|
    ensures |Tokens(cs)| == 2 * |cs| ==> forall c :: c in cs ==> c.subject != ""
  {
    if cs != [] {
      FewerTokens(cs[1..]);
      assert cs == [cs[0]] + cs[1..];
    }
  }

  lemma {:induction false} PairsOfTokens(cs: seq<Commit>)
    requires Writable(cs) && forall c :: c in cs ==> c.subject != ""
    ensures PairUp(Tokens(cs)) == Some(cs)
  {
    if cs != [] {
      PairsOfTokens(cs[1..]);
      assert cs[0] in cs;
      var tokens := Tokens(cs);
      assert tokens[0] == cs[0].sha && tokens[1] == cs[0].subject;
      assert tokens[2..] == Tokens(cs[1..]);
      assert [Commit(tokens[0], tokens[1])] + cs[1..] == cs;
    }
  }

  /** The list reads back as written exactly when no subject is empty. */
  lemma LogRoundTripIff(cs: seq<Commit>)
    requires Writable(cs)
    ensures PairUp(NonEmpty(Split(Render(cs), NUL))) == Some(cs)
            <==> forall c :: c in cs ==> c.subject != ""
  {
    TokensOfRender(cs);
    FewerTokens(cs);
    if forall c :: c in cs ==> c.subject != "" { PairsOfTokens(cs); }
  }

  /** Two commits with empty subjects read back as one: the second hash becomes a subject. */
  lemma EmptySubjectsMerge(a: Sha, b: Sha)
    requires ValidSha(a) && ValidSha(b)
    ensures PairUp(NonEmpty(Split(Render([Commit(a, ""), Commit(b, "")]), NUL))) == Some([Commit(a, b)])
  {
    hide Render, Split, NonEmpty;
    var cs := [Commit(a, ""), Commit(b, "")];
    TokensOfRender(cs);
    assert cs[1..] == [Commit(b, "")] && cs[1..][1..] == [];
    assert Tokens(cs[1..]) == [b];
    var tokens := Tokens(cs);
    assert tokens[0] == a && tokens[1] == b && tokens[2..] == [];
    assert PairUp(tokens) == Some([Commit(a, b)] + []);
    assert [Commit(a, b)] + [] == [Commit(a, b)];
  }
}
