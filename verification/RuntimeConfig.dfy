/** The runtime configuration cache and its two-number staleness test. */
module RuntimeConfig {
  import opened Wrappers

  type Stamp = int

  datatype Row = Row(value: string, valueType: string, updatedAt: Stamp)

  type Table = map<string, Row>

  // ----- The signature ----------------------------------------------------------------------

  datatype Signature = Signature(rows: nat, latest: Option<Stamp>)

  ghost predicate IsLatest(table: Table, latest: Option<Stamp>) {
    match latest
    case None => table == map[]
    case Some(s) =>
      && (exists k :: k in table && table[k].updatedAt == s)
      && (forall k :: k in table ==> table[k].updatedAt <= s)
  }

  ghost predicate IsSignature(table: Table, sig: Signature) {
    sig.rows == |table| && IsLatest(table, sig.latest)
  }

  lemma SignatureIsUnique(table: Table, a: Signature, b: Signature)
    requires IsSignature(table, a) && IsSignature(table, b)
    ensures a == b
  {
    if a.latest.Some? && b.latest.Some? {
      var k :| k in table && table[k].updatedAt == a.latest.value;
      var j :| j in table && table[j].updatedAt == b.latest.value;
    }
  }

  // ----- Changes by any process -------------------------------------------------------------

  datatype Change = Write(key: string, row: Row) | Delete(key: string)

  function Changed(table: Table, c: Change): Table {
    match c
    case Write(key, row) => table[key := row]
    case Delete(key) => table - {key}
  }

  function ChangedAll(table: Table, changes: seq<Change>): Table {
    if changes == [] then table
    else Changed(ChangedAll(table, changes[..|changes| - 1]), changes[|changes| - 1])
  }

  /** Every insert or update carries a stamp above the latest one at the start. */
  ghost predicate StampedAfter(changes: seq<Change>, latest: Option<Stamp>) {
    latest.Some? ==>
      forall k :: 0 <= k < |changes| && changes[k].Write? ==> changes[k].row.updatedAt > latest.value
  }

  /** A row is either newer than the start or was there from the start. */
  lemma {:induction false} RowsAreOldOrNewer(table: Table, latest: Option<Stamp>, changes: seq<Change>, k: string)
    requires latest.Some? && StampedAfter(changes, latest)
    requires k in ChangedAll(table, changes)
    ensures var row := ChangedAll(table, changes)[k];
      row.updatedAt > latest.value || (k in table && table[k] == row)
    decreases |changes|
  {
    if changes != [] {
      var n := |changes| - 1;
      var before := ChangedAll(table, changes[..n]);
      if k in before && !(changes[n].Write? && changes[n].key == k) {
        RowsAreOldOrNewer(table, latest, changes[..n], k);
      }
    }
  }

  /** An unchanged signature means an unchanged table, over any inserts, updates and deletes. */
  lemma SameSignatureSameTable(table: Table, changes: seq<Change>, sig: Signature)
    requires IsSignature(table, sig) && StampedAfter(changes, sig.latest)
    requires IsSignature(ChangedAll(table, changes), sig)
    ensures ChangedAll(table, changes) == table
  {
    var after := ChangedAll(table, changes);
    if sig.latest.Some? {
      forall k | k in after ensures k in table && table[k] == after[k] {
        RowsAreOldOrNewer(table, sig.latest, changes, k);
      }
      SameSizeSubset(after.Keys, table.Keys);
    }
  }

  lemma {:induction false} SameSizeSubset<T>(a: set<T>, b: set<T>)
    requires a <= b && |a| == |b|
    ensures a == b
  {
    if a != {} {
      var x :| x in a;
      SameSizeSubset(a - {x}, b - {x});
      assert a == (a - {x}) + {x} && b == (b - {x}) + {x};
    }
  }

  /** Another row than key holds the latest stamp. */
  ghost predicate HeldElsewhere(table: Table, key: string, latest: Stamp) {
    exists o :: o in table && o != key && table[o].updatedAt == latest
  }

  /** The stamps matter: an update of a row is missed exactly when it repeats the latest stamp, or
      has a smaller one while another row holds the latest. */
  lemma UpdateIsMissedIff(table: Table, key: string, row: Row, sig: Signature, after: Signature)
    requires key in table
    requires IsSignature(table, sig) && IsSignature(table[key := row], after)
    ensures sig.latest.Some?
    ensures after == sig
            <==> row.updatedAt == sig.latest.value
                 || (row.updatedAt < sig.latest.value && HeldElsewhere(table, key, sig.latest.value))
  {
    var changed := table[key := row];
    assert changed.Keys == table.Keys;
    SameCount(table, changed);
    assert changed[key] == row && forall o :: o in table && o != key ==> changed[o] == table[o];
    var latest := sig.latest.value;
    var held :| held in table && table[held].updatedAt == latest;
    var k :| k in changed && changed[k].updatedAt == after.latest.value;
    if HeldElsewhere(table, key, latest) {
      var o :| o in table && o != key && table[o].updatedAt == latest;
      assert changed[o].updatedAt == latest;
    }
  }

  /** Repeating the latest stamp hides a new value even when every other row is older. */
  lemma EqualStampIsMissed(value: string)
    requires value != "old"
    ensures var table := map["a" := Row("old", "str", 5), "b" := Row("", "str", 3)];
      var changed := table["a" := Row(value, "str", 5)];
      && changed != table
      && IsSignature(table, Signature(2, Some(5))) && IsSignature(changed, Signature(2, Some(5)))
  {
    var table := map["a" := Row("old", "str", 5), "b" := Row("", "str", 3)];
    var changed := table["a" := Row(value, "str", 5)];
    assert table.Keys == {"a", "b"} && changed.Keys == {"a", "b"};
    assert |table| == |table.Keys| && |changed| == |changed.Keys|;
    assert table["a"].updatedAt == 5 && changed["a"].updatedAt == 5 && changed["a"] != table["a"];
  }

  lemma SameCount(a: Table, b: Table)
    requires a.Keys == b.Keys
    ensures |a| == |b|
  {
    assert |a| == |a.Keys| && |b| == |b.Keys|;
  }

  // ----- The cache of one process -----------------------------------------------------------

  /** Reading a row: None for an unsupported key or an invalid value. */
  type Decoder<!V> = (string, Row) -> Option<V>

  function Decoded<V>(table: Table, decode: Decoder<V>): map<string, V> {
    map k | k in table && decode(k, table[k]).Some? :: decode(k, table[k]).value
  }

  lemma NothingRead<V>(decode: Decoder<V>)
    ensures Decoded(map[], decode) == map[] && IsLatest(map[], None)
  {}

  lemma ReadOne<V>(done: Table, k: string, row: Row, decode: Decoder<V>, latest: Option<Stamp>)
    requires k !in done && IsLatest(done, latest)
    ensures Decoded(done[k := row], decode)
            == if decode(k, row).Some? then Decoded(done, decode)[k := decode(k, row).value] else Decoded(done, decode)
    ensures IsLatest(done[k := row],
                     if latest.None? || row.updatedAt > latest.value then Some(row.updatedAt) else latest)
  {
    var after := done[k := row];
    assert after[k] == row;
    if latest.Some? {
      var j :| j in done && done[j].updatedAt == latest.value;
      assert after[j] == done[j];
    }
  }

  class Cache<V(==)> {
    var overrides: map<string, V>
    var lastCheck: real
    var lastSignature: Option<Signature>
    const decode: Decoder<V>
    /** The table as of the last load. */
    ghost var loaded: Option<Table>

    ghost predicate Valid()
      reads this
    {
      && (lastSignature.Some? ==> loaded.Some?)
      && (loaded.Some? ==>
            && lastSignature.Some? && IsSignature(loaded.value, lastSignature.value)
            && overrides == Decoded(loaded.value, decode))
    }

    constructor (decode: Decoder<V>)
      ensures Valid() && loaded == None && lastCheck == 0.0
    {
      overrides, lastCheck, lastSignature, loaded := map[], 0.0, None, None;
      this.decode := decode;
    }

    /** load_runtime_config_from_db at time now. */
    method Load(table: Table, now: real)
      requires Valid()
      modifies this
      ensures Valid() && loaded == Some(table) && lastCheck == now
      ensures overrides == Decoded(table, decode)
    {
      hide IsLatest, Decoded;
      var found: map<string, V> := map[];
      var latest: Option<Stamp> := None;
      var todo := table.Keys;
      ghost var done: Table := map[];
      NothingRead(decode);
      while todo != {}
        invariant todo <= table.Keys && done.Keys == table.Keys - todo
        invariant forall k :: k in done ==> done[k] == table[k]
        invariant found == Decoded(done, decode) && IsLatest(done, latest)
        decreases |todo|
      {
        var k :| k in todo;
        var row := table[k];
        ReadOne(done, k, row, decode, latest);
        var value := decode(k, row);
        if value.Some? {
          found := found[k := value.value];
        }
        if latest.None? || row.updatedAt > latest.value {
          latest := Some(row.updatedAt);
        }
        todo := todo - {k};
        done := done[k := row];
      }
      assert done == table;
      overrides := found;
      lastCheck := now;
      lastSignature := Some(Signature(|table|, latest));
      loaded := Some(table);
    }

    /** refresh_runtime_config_if_stale: sig is what the count and maximum query returns. */
    method Refresh(table: Table, sig: Signature, now: real, minInterval: real, ghost changes: seq<Change>)
      returns (reloaded: bool, skipped: bool)
      requires Valid() && IsSignature(table, sig)
      requires loaded.Some? ==> table == ChangedAll(loaded.value, changes) && StampedAfter(changes, lastSignature.value.latest)
      modifies this
      ensures Valid()
      ensures skipped <==> old(lastCheck) != 0.0 && now - old(lastCheck) < minInterval
      ensures skipped ==> !reloaded && overrides == old(overrides) && loaded == old(loaded)
      ensures !skipped && (reloaded || old(loaded).Some?) ==> overrides == Decoded(table, decode) && loaded == Some(table)
      ensures !skipped && !reloaded ==> overrides == old(overrides)
      ensures !skipped && old(loaded).None? ==> reloaded
      ensures reloaded <==> !skipped && (old(lastCheck) == 0.0 || old(lastSignature) != Some(sig))
      ensures lastCheck == if skipped then old(lastCheck) else now
    {
      reloaded, skipped := false, false;
      if lastCheck != 0.0 && now - lastCheck < minInterval {
        skipped := true;
        return;
      }
      if lastCheck != 0.0 && lastSignature == Some(sig) {
        SameSignatureSameTable(loaded.value, changes, sig);
        lastCheck := now;
        return;
      }
      Load(table, now);
      reloaded := true;
    }
  }
}
