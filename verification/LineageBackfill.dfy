/** Backfilling turn numbers and session lineages from an Issue's history. */
module LineageBackfill {
  import opened Wrappers
  import opened SchedulerState
  import IssueOrder

  // ----- The history of one Issue -----------------------------------------------------------

  datatype Snapshot = Snapshot(harness: string, fingerprint: string)

  /** One task in (created_at, id) order. */
  datatype Row = Row(
    id: TaskId,
    status: Status,
    startsFresh: bool,
    output: Option<string>,
    turn: Option<nat>,
    snapshot: Option<Snapshot>)

  /** The provider session a task belongs to. */
  datatype Key = Key(harness: string, namespace: string)

  const LEGACY: Key := Key("legacy", "legacy")

  /** The namespace digest is any function of harness and endpoint. */
  type Namespaces = (string, string) -> string

  function KeyOf(row: Row, ns: Namespaces): Option<Key> {
    if row.snapshot.Some? && row.snapshot.value.harness != "" then
      var s := row.snapshot.value;
      Some(Key(s.harness, ns(s.harness, s.fingerprint)))
    else if row.status.Terminal() then Some(LEGACY)
    else None
  }

  datatype Reason = Initial | Fresh | Inherited | NamespaceChange | ImportedLegacy

  datatype Projection = Projection(row: Row, key: Key, generation: nat, reset: Option<TaskId>, reason: Reason)

  // ----- Closed form ------------------------------------------------------------------------

  /** The tasks that get a projection. */
  function Projected(rows: seq<Row>, ns: Namespaces): (r: seq<Row>)
    ensures forall x :: x in r <==> x in rows && KeyOf(x, ns).Some?
  {
    if rows == [] then []
    else
      var last := rows[|rows| - 1];
      Projected(rows[..|rows| - 1], ns) + (if KeyOf(last, ns).Some? then [last] else [])
  }

  predicate AllKeyed(p: seq<Row>, ns: Namespaces) {
    forall k :: 0 <= k < |p| ==> KeyOf(p[k], ns).Some?
  }

  /** Task i starts a new session line: a fresh session, or another harness or namespace. */
  predicate ResetAt(p: seq<Row>, ns: Namespaces, i: nat)
    requires i < |p|
  {
    p[i].startsFresh || (i > 0 && KeyOf(p[i], ns) != KeyOf(p[i - 1], ns))
  }

  /** Resets among the first n tasks. */
  function Resets(p: seq<Row>, ns: Namespaces, n: nat): nat
    requires n <= |p|
  {
    if n == 0 then 0 else Resets(p, ns, n - 1) + (if ResetAt(p, ns, n - 1) then 1 else 0)
  }

  /** The last reset at or before task i. */
  function LastReset(p: seq<Row>, ns: Namespaces, i: nat): (r: Option<nat>)
    requires i < |p|
    ensures r.Some? ==> r.value <= i && ResetAt(p, ns, r.value)
    ensures forall j :: (if r.Some? then r.value else -1) < j <= i ==> !ResetAt(p, ns, j)
  {
    if ResetAt(p, ns, i) then Some(i) else if i == 0 then None else LastReset(p, ns, i - 1)
  }

  function ReasonAt(p: seq<Row>, ns: Namespaces, i: nat): Reason
    requires i < |p|
  {
    if i == 0 then Initial
    else if p[i].startsFresh then Fresh
    else if ResetAt(p, ns, i) then NamespaceChange
    else Inherited
  }

  function ProjectionAt(p: seq<Row>, ns: Namespaces, i: nat): Projection
    requires i < |p| && AllKeyed(p, ns)
  {
    var reset := LastReset(p, ns, i);
    Projection(p[i], KeyOf(p[i], ns).value, Resets(p, ns, i + 1),
               if reset.Some? then Some(p[reset.value].id) else None, ReasonAt(p, ns, i))
  }

  /** The generation counts the resets so far; the first task counts as one only when fresh. */
  lemma {:induction false} GenerationClosedForm(p: seq<Row>, ns: Namespaces, i: nat)
    requires i < |p|
    ensures Resets(p, ns, i + 1)
            == (if p[0].startsFresh then 1 else 0) + |set j | 0 < j <= i && ResetAt(p, ns, j)|
  {
    var later := set j | 0 < j <= i && ResetAt(p, ns, j);
    if i == 0 {
      assert later == {};
      assert Resets(p, ns, 0) == 0;
    } else {
      GenerationClosedForm(p, ns, i - 1);
      var before := set j | 0 < j <= i - 1 && ResetAt(p, ns, j);
      assert later == if ResetAt(p, ns, i) then before + {i} else before;
    }
  }

  // ----- The fold over the rows -------------------------------------------------------------

  lemma ProjectedMore(rows: seq<Row>, ns: Namespaces, i: nat)
    requires i < |rows|
    ensures Projected(rows[..i + 1], ns)
            == Projected(rows[..i], ns) + (if KeyOf(rows[i], ns).Some? then [rows[i]] else [])
  {
    assert rows[..i + 1][..i] == rows[..i];
  }

  /** The closed form at i looks only at the first i + 1 tasks. */
  lemma {:induction false} ClosedFormIsPrefix(p: seq<Row>, q: seq<Row>, ns: Namespaces, i: nat)
    requires i < |p| && p <= q && AllKeyed(q, ns)
    ensures AllKeyed(p, ns) && ProjectionAt(p, ns, i) == ProjectionAt(q, ns, i)
    ensures Resets(p, ns, i + 1) == Resets(q, ns, i + 1) && LastReset(p, ns, i) == LastReset(q, ns, i)
  {
    assert AllKeyed(p, ns);
    assert p[i] == q[i] && (i > 0 ==> p[i - 1] == q[i - 1]);
    if i > 0 { ClosedFormIsPrefix(p, q, ns, i - 1); }
    assert Resets(p, ns, 0) == Resets(q, ns, 0) == 0;
  }

  /** The projections written so far are the closed form. */
  ghost predicate Matches(out: seq<Projection>, p: seq<Row>, ns: Namespaces) {
    && AllKeyed(p, ns) && |out| == |p|
    && forall i :: 0 <= i < |p| ==> out[i] == ProjectionAt(p, ns, i)
  }

  lemma MatchesMore(out: seq<Projection>, p: seq<Row>, ns: Namespaces, row: Row)
    requires Matches(out, p, ns) && KeyOf(row, ns).Some?
    ensures var q := p + [row];
      AllKeyed(q, ns) && Matches(out + [ProjectionAt(q, ns, |p|)], q, ns)
  {
    var q := p + [row];
    forall k | 0 <= k < |q| ensures KeyOf(q[k], ns).Some? {}
    forall i | 0 <= i < |p| ensures out[i] == ProjectionAt(q, ns, i) {
      ClosedFormIsPrefix(p, q, ns, i);
    }
  }

  /** What the closed form says of the next task, in terms of the one before it. */
  lemma NextProjection(p: seq<Row>, ns: Namespaces, row: Row)
    requires p != [] && AllKeyed(p, ns) && KeyOf(row, ns).Some?
    ensures AllKeyed(p + [row], ns)
    ensures var tail, next, key := ProjectionAt(p, ns, |p| - 1), ProjectionAt(p + [row], ns, |p|), KeyOf(row, ns).value;
      next == if row.startsFresh then Projection(row, key, tail.generation + 1, Some(row.id), Fresh)
              else if key == tail.key then Projection(row, key, tail.generation, tail.reset, Inherited)
              else Projection(row, key, tail.generation + 1, Some(row.id), NamespaceChange)
  {
    var q, n := p + [row], |p|;
    forall k | 0 <= k < |q| ensures KeyOf(q[k], ns).Some? {}
    ClosedFormIsPrefix(p, q, ns, n - 1);
    assert q[n] == row && q[n - 1] == p[n - 1];
  }

  /** The tasks of one generation, in order. */
  function GenerationRows(out: seq<Projection>, g: nat): (r: seq<Row>)
    ensures forall x :: x in r <==> exists i :: 0 <= i < |out| && out[i].generation == g && out[i].row == x
  {
    if out == [] then []
    else
      var last := out[|out| - 1];
      GenerationRows(out[..|out| - 1], g) + (if last.generation == g then [last.row] else [])
  }

  /** The dictionaries of the loop: the last projection and the tasks of every generation. */
  ghost predicate Grouped(out: seq<Projection>, meta: map<nat, Projection>, tasks: map<nat, seq<Row>>) {
    && (forall g :: g in meta <==> g in tasks)
    && (forall g :: g in tasks ==> tasks[g] == GenerationRows(out, g))
    && (forall i :: 0 <= i < |out| ==> out[i].generation in meta)
    && (forall g :: g in meta ==> LastOf(out, g, meta[g]))
  }

  /** x is the last projection of generation g. */
  ghost predicate LastOf(out: seq<Projection>, g: nat, x: Projection) {
    exists i :: 0 <= i < |out| && out[i] == x && x.generation == g
                && forall j :: i < j < |out| ==> out[j].generation != g
  }

  lemma GenerationRowsMore(out: seq<Projection>, x: Projection, g: nat)
    ensures GenerationRows(out + [x], g) == GenerationRows(out, g) + (if g == x.generation then [x.row] else [])
  {
    var more := out + [x];
    assert more[..|out|] == out && more[|out|] == x;
  }

  lemma LastOfMore(out: seq<Projection>, x: Projection, g: nat, y: Projection)
    requires if g == x.generation then y == x else LastOf(out, g, y)
    ensures LastOf(out + [x], g, y)
  {
    var more := out + [x];
    if g == x.generation {
      assert more[|out|] == x;
    } else {
      var i :| 0 <= i < |out| && out[i] == y && y.generation == g
               && forall j :: i < j < |out| ==> out[j].generation != g;
      assert more[i] == out[i];
    }
  }

  lemma GroupedMore(out: seq<Projection>, meta: map<nat, Projection>, tasks: map<nat, seq<Row>>, x: Projection)
    requires Grouped(out, meta, tasks)
    ensures Grouped(out + [x], meta[x.generation := x],
                    tasks[x.generation := (if x.generation in tasks then tasks[x.generation] else []) + [x.row]])
  {
    hide LastOf, GenerationRows;
    var more, meta' := out + [x], meta[x.generation := x];
    forall g ensures GenerationRows(more, g) == GenerationRows(out, g) + (if g == x.generation then [x.row] else []) {
      GenerationRowsMore(out, x, g);
    }
    if x.generation !in tasks { NoRows(out, x.generation); }
    forall g | g in tasks && g != x.generation ensures tasks[g] == GenerationRows(more, g) {
      assert GenerationRows(out, g) + [] == GenerationRows(out, g);
    }
    forall g | g in meta' ensures LastOf(more, g, meta'[g]) {
      LastOfMore(out, x, g, meta'[g]);
    }
  }

  lemma {:induction false} NoRows(out: seq<Projection>, g: nat)
    requires forall i :: 0 <= i < |out| ==> out[i].generation != g
    ensures GenerationRows(out, g) == []
  {
    if out != [] { NoRows(out[..|out| - 1], g); }
  }

  /** _backfill_lineage's loop over the rows of one Issue. */
  method ProjectLineage(rows: seq<Row>, ns: Namespaces)
    returns (out: seq<Projection>, meta: map<nat, Projection>, tasks: map<nat, seq<Row>>)
    ensures Matches(out, Projected(rows, ns), ns)
    ensures Grouped(out, meta, tasks)
  {
    hide ProjectionAt, KeyOf, Projected, Grouped;
    out, meta, tasks := [], map[], map[];
    assert Grouped(out, meta, tasks) by { NothingGrouped(); }
    var tail: Option<Projection> := None;
    var i := 0;
    assert Projected(rows[..0], ns) == [] by { NoneProjected(ns); }
    while i < |rows|
      invariant i <= |rows|
      invariant Matches(out, Projected(rows[..i], ns), ns)
      invariant Grouped(out, meta, tasks)
      invariant tail == if out == [] then None else Some(out[|out| - 1])
    {
      var row := rows[i];
      ProjectedMore(rows, ns, i);
      var key := KeyOf(row, ns);
      ghost var p := Projected(rows[..i], ns);
      i := i + 1;
      if key.None? {
        assert p + [] == p;
        continue;
      }
      var next;
      if tail.None? {
        next := Projection(row, key.value, if row.startsFresh then 1 else 0, if row.startsFresh then Some(row.id) else None, Initial);
        FirstProjection(p + [row], ns, row);
      } else if row.startsFresh {
        next := Projection(row, key.value, tail.value.generation + 1, Some(row.id), Fresh);
        NextProjection(p, ns, row);
      } else if key.value == tail.value.key {
        next := Projection(row, key.value, tail.value.generation, tail.value.reset, Inherited);
        NextProjection(p, ns, row);
      } else {
        next := Projection(row, key.value, tail.value.generation + 1, Some(row.id), NamespaceChange);
        NextProjection(p, ns, row);
      }
      MatchesMore(out, p, ns, row);
      GroupedMore(out, meta, tasks, next);
      tail := Some(next);
      out := out + [next];
      meta := meta[next.generation := next];
      tasks := tasks[next.generation := (if next.generation in tasks then tasks[next.generation] else []) + [row]];
    }
    assert rows[..i] == rows;
  }

  lemma NoneProjected(ns: Namespaces)
    ensures Projected([], ns) == []
  {}

  lemma FirstProjection(p: seq<Row>, ns: Namespaces, row: Row)
    requires p == [row] && KeyOf(row, ns).Some?
    ensures AllKeyed(p, ns)
    ensures ProjectionAt(p, ns, 0)
            == Projection(row, KeyOf(row, ns).value, if row.startsFresh then 1 else 0,
                          if row.startsFresh then Some(row.id) else None, Initial)
  {
    assert Resets(p, ns, 0) == 0;
  }

  lemma NothingGrouped()
    ensures Grouped([], map[], map[])
  {}

  // ----- What a generation is ---------------------------------------------------------------

  lemma {:induction false} ResetsGrow(p: seq<Row>, ns: Namespaces, i: nat, j: nat)
    requires i <= j <= |p|
    ensures Resets(p, ns, i) <= Resets(p, ns, j)
    ensures Resets(p, ns, i) == Resets(p, ns, j) ==> forall k :: i <= k < j ==> !ResetAt(p, ns, k)
    decreases j
  {
    if i < j { ResetsGrow(p, ns, i, j - 1); }
  }

  /** Harness, namespace and reset task are constant within a generation. */
  lemma {:induction false} GenerationIsUniform(p: seq<Row>, ns: Namespaces, i: nat, j: nat)
    requires i <= j < |p| && AllKeyed(p, ns)
    requires ProjectionAt(p, ns, i).generation == ProjectionAt(p, ns, j).generation
    ensures ProjectionAt(p, ns, i).key == ProjectionAt(p, ns, j).key
    ensures ProjectionAt(p, ns, i).reset == ProjectionAt(p, ns, j).reset
    decreases j
  {
    if i < j {
      ResetsGrow(p, ns, i + 1, j + 1);
      ResetsGrow(p, ns, i + 1, j);
      ResetsGrow(p, ns, j, j + 1);
      assert !ResetAt(p, ns, j);
      GenerationIsUniform(p, ns, i, j - 1);
    }
  }

  /** The reset task is the first of its generation, and only generation 0 has none. */
  lemma {:induction false} ResetTaskIsFirst(p: seq<Row>, ns: Namespaces, i: nat)
    requires i < |p| && AllKeyed(p, ns)
    ensures var x, r := ProjectionAt(p, ns, i), LastReset(p, ns, i);
      && (x.reset.None? <==> x.generation == 0)
      && (x.reset.Some? ==>
            && x.reset == Some(p[r.value].id)
            && ProjectionAt(p, ns, r.value).generation == x.generation
            && forall j :: 0 <= j < r.value ==> ProjectionAt(p, ns, j).generation < x.generation)
  {
    var r := LastReset(p, ns, i);
    if r.Some? {
      NoResetBetween(p, ns, r.value + 1, i + 1);
      forall j | 0 <= j < r.value ensures ProjectionAt(p, ns, j).generation < Resets(p, ns, r.value + 1) {
        ResetsGrow(p, ns, j + 1, r.value);
      }
    } else {
      NoResetBetween(p, ns, 0, i + 1);
    }
  }

  lemma {:induction false} NoResetBetween(p: seq<Row>, ns: Namespaces, i: nat, j: nat)
    requires i <= j <= |p| && forall k :: i <= k < j ==> !ResetAt(p, ns, k)
    ensures Resets(p, ns, i) == Resets(p, ns, j)
    decreases j
  {
    if i < j { NoResetBetween(p, ns, i, j - 1); }
  }

  // ----- The same in the tasks' own fields --------------------------------------------------

  /** The snapshot names a harness. */
  predicate Snapshotted(row: Row) {
    row.snapshot.Some? && row.snapshot.value.harness != ""
  }

  /** Both tasks name one harness and one namespace, or neither names a harness, or one has the
      literal names that stand for tasks without snapshot. */
  predicate SameProvider(x: Row, y: Row, ns: Namespaces) {
    if Snapshotted(x) && Snapshotted(y) then
      var a, b := x.snapshot.value, y.snapshot.value;
      a.harness == b.harness && ns(a.harness, a.fingerprint) == ns(b.harness, b.fingerprint)
    else
      && (Snapshotted(x) ==> x.snapshot.value.harness == "legacy" && ns("legacy", x.snapshot.value.fingerprint) == "legacy")
      && (Snapshotted(y) ==> y.snapshot.value.harness == "legacy" && ns("legacy", y.snapshot.value.fingerprint) == "legacy")
  }

  /** A task is projected exactly when it names a harness or has ended. */
  lemma ProjectedIff(rows: seq<Row>, ns: Namespaces, x: Row)
    ensures x in Projected(rows, ns)
            <==> x in rows && (Snapshotted(x) || x.status in {Completed, Failed, Cancelled})
  {}

  lemma SameKeyIff(x: Row, y: Row, ns: Namespaces)
    requires KeyOf(x, ns).Some? && KeyOf(y, ns).Some?
    ensures KeyOf(x, ns) == KeyOf(y, ns) <==> SameProvider(x, y, ns)
  {}

  /** A task opens a new generation exactly when it starts fresh or its provider differs from that
      of the task before it; the reason says which. */
  lemma GenerationOpensIff(p: seq<Row>, ns: Namespaces, i: nat)
    requires i < |p| && AllKeyed(p, ns)
    ensures var x := ProjectionAt(p, ns, i);
      && x.row == p[i]
      && (i == 0 ==> x.generation == (if p[0].startsFresh then 1 else 0) && x.reason == Initial)
      && (i > 0 ==>
            var before, same := ProjectionAt(p, ns, i - 1), SameProvider(p[i - 1], p[i], ns);
            && (x.generation == before.generation <==> !p[i].startsFresh && same)
            && (x.generation == before.generation + 1 <==> p[i].startsFresh || !same)
            && (x.reason == Fresh <==> p[i].startsFresh)
            && (x.reason == NamespaceChange <==> !p[i].startsFresh && !same)
            && (x.reason == Inherited <==> !p[i].startsFresh && same))
  {
    hide KeyOf;
    if i > 0 {
      SameKeyIff(p[i - 1], p[i], ns);
    } else {
      assert Resets(p, ns, 0) == 0;
    }
  }

  /** Tasks of different providers are never in one generation, however far apart: in particular
      two snapshots of one harness in different namespaces. */
  lemma ProvidersAreSeparated(p: seq<Row>, ns: Namespaces, i: nat, j: nat)
    requires i <= j < |p| && AllKeyed(p, ns)
    requires !SameProvider(p[i], p[j], ns)
    ensures ProjectionAt(p, ns, i).generation < ProjectionAt(p, ns, j).generation
  {
    SameKeyIff(p[i], p[j], ns);
    ResetsGrow(p, ns, i + 1, j + 1);
    if ProjectionAt(p, ns, i).generation == ProjectionAt(p, ns, j).generation {
      GenerationIsUniform(p, ns, i, j);
    }
  }

  lemma NamespacesAreSeparated(p: seq<Row>, ns: Namespaces, i: nat, j: nat)
    requires i <= j < |p| && AllKeyed(p, ns)
    requires Snapshotted(p[i]) && Snapshotted(p[j])
    requires p[i].snapshot.value.harness == p[j].snapshot.value.harness
    requires ns(p[i].snapshot.value.harness, p[i].snapshot.value.fingerprint)
             != ns(p[j].snapshot.value.harness, p[j].snapshot.value.fingerprint)
    ensures ProjectionAt(p, ns, i).generation < ProjectionAt(p, ns, j).generation
  {
    ProvidersAreSeparated(p, ns, i, j);
  }

  // ----- The session of a generation --------------------------------------------------------

  /** Terminal with an output session. */
  predicate Produces(row: Row) {
    row.status.Terminal() && row.output.Some? && row.output.value != ""
  }

  /** Unnumbered tasks sort below numbered ones. */
  function TurnKey(row: Row): int {
    if row.turn.Some? then row.turn.value else -1
  }

  function InsertByTurn(row: Row, rows: seq<Row>): (r: seq<Row>)
    ensures forall x :: x in r <==> x == row || x in rows
  {
    if rows == [] || TurnKey(row) >= TurnKey(rows[0]) then [row] + rows
    else [rows[0]] + InsertByTurn(row, rows[1..])
  }

  /** Latest turn first; equal keys keep their order. */
  function LatestFirst(rows: seq<Row>): (r: seq<Row>)
    ensures forall x :: x in r <==> x in rows
  {
    if rows == [] then [] else InsertByTurn(rows[0], LatestFirst(rows[1..]))
  }

  predicate Descending(rows: seq<Row>) {
    forall i, j :: 0 <= i < j < |rows| ==> TurnKey(rows[i]) >= TurnKey(rows[j])
  }

  lemma {:induction false} InsertDescends(row: Row, rows: seq<Row>)
    requires Descending(rows)
    ensures Descending(InsertByTurn(row, rows))
  {
    if rows != [] && TurnKey(row) < TurnKey(rows[0]) {
      InsertDescends(row, rows[1..]);
      var rest := InsertByTurn(row, rows[1..]);
      forall j | 0 <= j < |rest| ensures TurnKey(rows[0]) >= TurnKey(rest[j]) {
        assert rest[j] in rest;
      }
    }
  }

  lemma {:induction false} LatestFirstDescends(rows: seq<Row>)
    ensures Descending(LatestFirst(rows))
  {
    if rows != [] {
      LatestFirstDescends(rows[1..]);
      InsertDescends(rows[0], LatestFirst(rows[1..]));
    }
  }

  /** The producer with the highest turn, if any. */
  method FindProducer(rows: seq<Row>) returns (r: Option<Row>)
    ensures r.None? <==> forall x :: x in rows ==> !Produces(x)
    ensures r.Some? ==> r.value in rows && Produces(r.value)
    ensures r.Some? ==> forall x :: x in rows && Produces(x) ==> TurnKey(x) <= TurnKey(r.value)
    ensures IsLatest(rows, x => true, r)
    ensures r.Some? ==> r.value.status in {Completed, Failed, Cancelled} && r.value.output.Some? && r.value.output.value != ""
    ensures r.Some? ==> forall x :: x in rows && x.status in {Completed, Failed, Cancelled} && x.output.Some? && x.output.value != "" ==>
              x.turn.None? || (r.value.turn.Some? && x.turn.value <= r.value.turn.value)
    ensures r.None? ==> forall x :: x in rows && x.status in {Completed, Failed, Cancelled} ==> x.output.None? || x.output.value == ""
  {
    hide LatestFirst;
    var sorted := LatestFirst(rows);
    LatestFirstDescends(rows);
    var i := 0;
    while i < |sorted|
      invariant i <= |sorted|
      invariant forall j :: 0 <= j < i ==> !Produces(sorted[j])
    {
      if Produces(sorted[i]) {
        assert sorted[i] in sorted;
        forall x | x in rows && Produces(x) ensures TurnKey(x) <= TurnKey(sorted[i]) {
          assert x in sorted;
          var j :| 0 <= j < |sorted| && sorted[j] == x;
        }
        return Some(sorted[i]);
      }
      i := i + 1;
    }
    forall x | x in rows ensures !Produces(x) {
      assert x in sorted;
    }
    r := None;
  }

  // ----- The documented producer ------------------------------------------------------------

  /** r is the row of highest turn among the producers that also meet the test, if there is one. */
  ghost predicate IsLatest(rows: seq<Row>, test: Row -> bool, r: Option<Row>) {
    && (r.None? <==> forall x :: x in rows ==> !(Produces(x) && test(x)))
    && (r.Some? ==>
          && r.value in rows && Produces(r.value) && test(r.value)
          && forall x :: x in rows && Produces(x) && test(x) ==> TurnKey(x) <= TurnKey(r.value))
  }

  predicate DistinctTurns(rows: seq<Row>) {
    forall x, y :: x in rows && y in rows && TurnKey(x) == TurnKey(y) ==> x == y
  }

  /** The latest producer is the documented one, the latest completed producer, if and only if
      every failed or cancelled producer has a completed one after it. */
  lemma ProducerIsCompletedIff(rows: seq<Row>, found: Option<Row>, documented: Option<Row>)
    requires DistinctTurns(rows)
    requires IsLatest(rows, x => true, found)
    requires IsLatest(rows, (x: Row) => x.status.Completed?, documented)
    ensures found == documented
            <==> forall y :: y in rows && Produces(y) && !y.status.Completed? ==>
                   exists x :: x in rows && Produces(x) && x.status.Completed? && TurnKey(y) < TurnKey(x)
  {
    if found.Some? && !found.value.status.Completed? {
      assert found.value in rows && Produces(found.value);
    } else if found.Some? {
      forall y | y in rows && Produces(y) && !y.status.Completed? ensures TurnKey(y) < TurnKey(found.value) {}
    }
  }

  /** A completed task and then a failed one, both with output: the failed task's session wins. */
  lemma FailedProducerWins(x: Projection, l: Lineage, legacy: LegacySessions, rows: seq<Row>)
    requires rows == [Row(1, Completed, false, Some("done"), Some(1), None), Row(2, Failed, false, Some("broken"), Some(2), None)]
    requires RightRow(l, rows, x, legacy)
    ensures l.producer == Some(rows[1]) && l.session == Some("broken")
    ensures rows[0].status.Completed? && Produces(rows[0])
  {
    assert rows[0] in rows && rows[1] in rows && Produces(rows[1]);
  }

  datatype Lineage = Lineage(generation: nat, key: Key, reset: Option<TaskId>, session: Option<string>,
                             producer: Option<Row>, reason: Reason)

  /** The session kept for an Issue before lineages, by harness and namespace. */
  type LegacySessions = Key -> Option<string>

  /** Generation 0 without a producer takes over a session kept under the same key. */
  predicate Imports(l: Lineage, legacy: LegacySessions) {
    l.producer.None? && l.generation == 0 && legacy(l.key).Some? && legacy(l.key).value != ""
  }

  /** The row is right for its generation, which holds the tasks rows and ends with x. */
  ghost predicate RightRow(l: Lineage, rows: seq<Row>, x: Projection, legacy: LegacySessions) {
    && l.key == x.key && l.reset == x.reset
    && l.reason == (if Imports(l, legacy) then ImportedLegacy else x.reason)
    && (l.producer.None? <==> forall y :: y in rows ==> !Produces(y))
    && (l.producer.Some? ==>
          && l.producer.value in rows && Produces(l.producer.value)
          && (forall y :: y in rows && Produces(y) ==> TurnKey(y) <= TurnKey(l.producer.value))
          && l.session == l.producer.value.output)
    && (l.producer.None? ==> l.session == if Imports(l, legacy) then legacy(l.key) else None)
  }

  ghost predicate RightFor(l: Lineage, out: seq<Projection>, legacy: LegacySessions) {
    exists x :: LastOf(out, l.generation, x) && RightRow(l, GenerationRows(out, l.generation), x, legacy)
  }

  lemma {:induction false} SmallestExists(s: set<nat>, x: nat)
    requires x in s
    ensures exists g :: g in s && forall h :: h in s ==> g <= h
    decreases x
  {
    if y: nat :| y in s && y < x { SmallestExists(s, y); }
  }

  /** The row of one generation. */
  method GenerationLineage(g: nat, rows: seq<Row>, x: Projection, legacy: LegacySessions) returns (l: Lineage)
    ensures l.generation == g && RightRow(l, rows, x, legacy)
  {
    var producer := FindProducer(rows);
    var session, reason := None, x.reason;
    if producer.Some? {
      session := producer.value.output;
    } else if g == 0 {
      var found := legacy(x.key);
      if found.Some? && found.value != "" {
        session, reason := found, ImportedLegacy;
      }
    }
    l := Lineage(g, x.key, x.reset, session, producer, reason);
  }

  ghost predicate Increasing(rows: seq<Lineage>) {
    forall j, k :: 0 <= j < k < |rows| ==> rows[j].generation < rows[k].generation
  }

  ghost predicate HasRow(rows: seq<Lineage>, g: nat) {
    exists k :: 0 <= k < |rows| && rows[k].generation == g
  }

  lemma HasRowMore(rows: seq<Lineage>, l: Lineage, g: nat)
    requires HasRow(rows, g) || l.generation == g
    ensures HasRow(rows + [l], g)
  {
    var more := rows + [l];
    if HasRow(rows, g) {
      var k :| 0 <= k < |rows| && rows[k].generation == g;
      assert more[k] == rows[k];
    } else {
      assert more[|rows|] == l;
    }
  }

  /** The rows written when the generations todo are still to come. */
  ghost predicate Written(rows: seq<Lineage>, todo: set<nat>, all: set<nat>, out: seq<Projection>, legacy: LegacySessions) {
    && (forall k :: 0 <= k < |rows| ==> RightFor(rows[k], out, legacy))
    && (forall k, g :: 0 <= k < |rows| && g in todo ==> rows[k].generation < g)
    && Increasing(rows)
    && (forall g :: g in all && g !in todo ==> HasRow(rows, g))
  }

  lemma WrittenMore(rows: seq<Lineage>, todo: set<nat>, all: set<nat>, out: seq<Projection>, legacy: LegacySessions, l: Lineage)
    requires Written(rows, todo, all, out, legacy) && RightFor(l, out, legacy)
    requires l.generation in todo && forall h :: h in todo ==> l.generation <= h
    ensures Written(rows + [l], todo - {l.generation}, all, out, legacy)
  {
    hide RightFor, HasRow;
    forall g | g in all && g !in todo - {l.generation} ensures HasRow(rows + [l], g) {
      HasRowMore(rows, l, g);
    }
  }

  /** _backfill_session_lineages: one row for every generation, in increasing order. */
  method BackfillSessions(out: seq<Projection>, meta: map<nat, Projection>, tasks: map<nat, seq<Row>>,
                          legacy: LegacySessions)
    returns (rows: seq<Lineage>)
    requires Grouped(out, meta, tasks)
    ensures forall k :: 0 <= k < |rows| ==> RightFor(rows[k], out, legacy)
    ensures Increasing(rows)
    ensures forall i :: 0 <= i < |out| ==> HasRow(rows, out[i].generation)
  {
    hide RightFor, HasRow, Increasing, Written, LastOf, GenerationRows, RightRow;
    rows := [];
    var todo := meta.Keys;
    assert Written(rows, todo, meta.Keys, out, legacy) by { NothingWritten(meta.Keys, out, legacy); }
    while todo != {}
      invariant todo <= meta.Keys
      invariant Written(rows, todo, meta.Keys, out, legacy)
      decreases |todo|
    {
      ghost var some: nat :| some in todo;
      SmallestExists(todo, some);
      var g :| g in todo && forall h :: h in todo ==> g <= h;
      var l := GenerationLineage(g, tasks[g], meta[g], legacy);
      assert RightFor(l, out, legacy) by { IsRightFor(l, out, meta[g], legacy); }
      WrittenMore(rows, todo, meta.Keys, out, legacy, l);
      rows := rows + [l];
      todo := todo - {g};
    }
    AllWritten(rows, meta.Keys, out, legacy);
  }

  lemma NothingWritten(all: set<nat>, out: seq<Projection>, legacy: LegacySessions)
    ensures Written([], all, all, out, legacy)
  {}

  lemma IsRightFor(l: Lineage, out: seq<Projection>, x: Projection, legacy: LegacySessions)
    requires LastOf(out, l.generation, x) && RightRow(l, GenerationRows(out, l.generation), x, legacy)
    ensures RightFor(l, out, legacy)
  {
    hide LastOf, RightRow;
  }

  lemma AllWritten(rows: seq<Lineage>, all: set<nat>, out: seq<Projection>, legacy: LegacySessions)
    requires Written(rows, {}, all, out, legacy)
    ensures forall k :: 0 <= k < |rows| ==> RightFor(rows[k], out, legacy)
    ensures Increasing(rows) && forall g :: g in all ==> HasRow(rows, g)
  {
    hide RightFor, HasRow;
  }

  /** Every task of a generation carries the harness, namespace and reset task of its row. */
  lemma RowsMatchTasks(rows: seq<Row>, ns: Namespaces, out: seq<Projection>, l: Lineage, legacy: LegacySessions, i: nat)
    requires Matches(out, Projected(rows, ns), ns) && RightFor(l, out, legacy)
    requires i < |out| && out[i].generation == l.generation
    ensures out[i].key == l.key && out[i].reset == l.reset
    ensures l.reset.None? <==> l.generation == 0
  {
    hide ProjectionAt, GenerationRows, Projected;
    var p := Projected(rows, ns);
    var x :| LastOf(out, l.generation, x) && RightRow(l, GenerationRows(out, l.generation), x, legacy);
    var k :| 0 <= k < |out| && out[k] == x && x.generation == l.generation
             && forall j :: k < j < |out| ==> out[j].generation != l.generation;
    assert i <= k;
    GenerationIsUniform(p, ns, i, k);
    ResetTaskIsFirst(p, ns, i);
  }

  /** The session of a row is its producer's output. Without a task of the generation that ended
      with an output, generation 0 takes the session kept under its key unless that is empty, and
      a later generation has none. */
  lemma SessionIff(rows: seq<Row>, ns: Namespaces, out: seq<Projection>, l: Lineage, legacy: LegacySessions)
    requires Matches(out, Projected(rows, ns), ns) && RightFor(l, out, legacy)
    ensures l.producer.None?
            <==> forall i :: 0 <= i < |out| && out[i].generation == l.generation ==>
                   || out[i].row.status !in {Completed, Failed, Cancelled}
                   || out[i].row.output.None? || out[i].row.output.value == ""
    ensures l.reason == ImportedLegacy
            <==> l.producer.None? && l.generation == 0 && legacy(l.key).Some? && legacy(l.key).value != ""
    ensures l.session == if l.producer.Some? then l.producer.value.output
                         else if l.reason == ImportedLegacy then legacy(l.key)
                         else None
  {
    hide *;
    var x := LastProjection(rows, ns, out, l, legacy);
    RightRowSession(l, GenerationRows(out, l.generation), x, legacy);
    ProducersOf(out, l.generation);
  }

  /** The projection a row was written from. */
  lemma LastProjection(rows: seq<Row>, ns: Namespaces, out: seq<Projection>, l: Lineage, legacy: LegacySessions) returns (x: Projection)
    requires Matches(out, Projected(rows, ns), ns) && RightFor(l, out, legacy)
    ensures RightRow(l, GenerationRows(out, l.generation), x, legacy) && x.reason != ImportedLegacy
  {
    hide RightRow, GenerationRows, Projected, LastReset, Resets;
    x :| LastOf(out, l.generation, x) && RightRow(l, GenerationRows(out, l.generation), x, legacy);
  }

  lemma RightRowSession(l: Lineage, rows: seq<Row>, x: Projection, legacy: LegacySessions)
    requires RightRow(l, rows, x, legacy) && x.reason != ImportedLegacy
    ensures l.producer.None? <==> forall y :: y in rows ==> !Produces(y)
    ensures l.reason == ImportedLegacy
            <==> l.producer.None? && l.generation == 0 && legacy(l.key).Some? && legacy(l.key).value != ""
    ensures l.session == if l.producer.Some? then l.producer.value.output
                         else if l.reason == ImportedLegacy then legacy(l.key)
                         else None
  {
    hide Produces;
  }

  lemma ProducersOf(out: seq<Projection>, g: nat)
    ensures (forall y :: y in GenerationRows(out, g) ==> !Produces(y))
            <==> forall i :: 0 <= i < |out| && out[i].generation == g ==>
                   || out[i].row.status !in {Completed, Failed, Cancelled}
                   || out[i].row.output.None? || out[i].row.output.value == ""
  {
    var members := GenerationRows(out, g);
    forall i | 0 <= i < |out| && out[i].generation == g ensures out[i].row in members {}
    forall y | y in members ensures exists i :: 0 <= i < |out| && out[i].generation == g && out[i].row == y {}
    assert forall y: Row :: Produces(y)
             <==> y.status in {Completed, Failed, Cancelled} && y.output.Some? && y.output.value != "";
  }

  // ----- Turn numbers -----------------------------------------------------------------------

  /** row_number() over each Issue in (created_at, id) order. */
  function NumberAll(db: Db): Db {
    db.(tasks := map t | t in db.tasks :: db.tasks[t].(turn := Some(Rank(db, t))))
  }

  /** The numbers follow the historical order without repetition, the runtime integrity check
      accepts them and has nothing to repair, and numbering again changes nothing. */
  lemma NumberingPassesIntegrity(db: Db, i: IssueId)
    ensures EnsureIntegrity(NumberAll(db), i, true) == Some(NumberAll(db))
    ensures NumberAll(NumberAll(db)) == NumberAll(db)
    ensures IssueOrder.TurnsUnique(NumberAll(db))
    ensures forall t, u :: t in db.tasks && u in db.tasks && t != u && db.tasks[t].issue == db.tasks[u].issue ==>
              (NumberAll(db).tasks[t].turn.value < NumberAll(db).tasks[u].turn.value <==> KeyLess(db, t, u))
  {
    hide Rank;
    var after := NumberAll(db);
    forall t | t in db.tasks ensures Rank(after, t) == Rank(db, t) {
      RankIgnoresTurns(db, t);
    }
    forall t, u | t in db.tasks && u in db.tasks && t != u && db.tasks[t].issue == db.tasks[u].issue
      ensures after.tasks[t].turn.value != after.tasks[u].turn.value
      ensures after.tasks[t].turn.value < after.tasks[u].turn.value <==> KeyLess(db, t, u)
    {
      IssueOrder.RankDistinct(db, t, u);
    }
    assert NumberIssue(after, i).tasks == after.tasks;
    assert NumberAll(after).tasks == after.tasks;
  }

  lemma RankIgnoresTurns(db: Db, t: TaskId)
    requires t in db.tasks
    ensures Rank(NumberAll(db), t) == Rank(db, t)
  {
    assert Earlier(NumberAll(db), t) == Earlier(db, t);
  }
}
