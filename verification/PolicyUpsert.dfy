/** `INSERT ... ON CONFLICT (key) DO UPDATE` with three kinds of columns: overwritten by the
    new row, kept from the first insert (not listed in the update), and coalesced. */
module PolicyUpsert {
  import opened Collections

  /** `filled` holds the nullable coalesced columns that are not NULL. */
  datatype Row<O, P, C> = Row(over: O, keep: P, filled: map<string, C>)

  datatype Keyed<K, O, P, C> = Keyed(key: K, row: Row<O, P, C>)

  /** COALESCE(EXCLUDED.c, t.c) for every coalesced column is the map override. */
  function Upsert<K(==), O, P, C>(t: map<K, Row<O, P, C>>, r: Keyed<K, O, P, C>): map<K, Row<O, P, C>> {
    if r.key in t
    then t[r.key := Row(r.row.over, t[r.key].keep, t[r.key].filled + r.row.filled)]
    else t[r.key := r.row]
  }

  ghost function Load<K, O, P, C>(t: map<K, Row<O, P, C>>, rows: seq<Keyed<K, O, P, C>>): map<K, Row<O, P, C>> {
    if rows == [] then t else Upsert(Load(t, rows[..|rows| - 1]), rows[|rows| - 1])
  }

  // ----- the closed form

  ghost function RowsOf<K, O, P, C>(rows: seq<Keyed<K, O, P, C>>, k: K): seq<Row<O, P, C>> {
    if rows == [] then []
    else
      var last := rows[|rows| - 1];
      RowsOf(rows[..|rows| - 1], k) + if last.key == k then [last.row] else []
  }

  /** For every column the last value that is not NULL. */
  ghost function LastFilled<O, P, C>(rs: seq<Row<O, P, C>>): map<string, C> {
    if rs == [] then map[] else LastFilled(rs[..|rs| - 1]) + rs[|rs| - 1].filled
  }

  ghost function Merged<O, P, C>(stored: Option<Row<O, P, C>>, rs: seq<Row<O, P, C>>): Option<Row<O, P, C>> {
    if rs == [] then stored
    else
      var before := if stored.Some? then stored.value.filled else map[];
      Some(Row(rs[|rs| - 1].over,
               if stored.Some? then stored.value.keep else rs[0].keep,
               before + LastFilled(rs)))
  }

  ghost function At<K, O, P, C>(t: map<K, Row<O, P, C>>, k: K): Option<Row<O, P, C>> {
    if k in t then Some(t[k]) else None
  }

  lemma MergedSnoc<O, P, C>(stored: Option<Row<O, P, C>>, rs: seq<Row<O, P, C>>, r: Row<O, P, C>)
    ensures Merged(stored, rs + [r]) ==
            match Merged(stored, rs)
            case None => Some(r)
            case Some(m) => Some(Row(r.over, m.keep, m.filled + r.filled))
  {
    var all := rs + [r];
    assert all[..|all| - 1] == rs;
    var before := if stored.Some? then stored.value.filled else map[];
    assert before + (LastFilled(rs) + r.filled) == (before + LastFilled(rs)) + r.filled;
    if rs == [] {
      assert LastFilled(all) == map[] + r.filled == r.filled;
      assert before + map[] == before && before + r.filled == before + LastFilled(all);
    }
  }

  /** After a load every key holds: the overwritten columns of its last row, the kept columns
      of the stored row or else of its first row, and the last non-NULL coalesced values. */
  lemma {:induction false} LoadClosedForm<K, O, P, C>(t: map<K, Row<O, P, C>>, rows: seq<Keyed<K, O, P, C>>, k: K)
    ensures At(Load(t, rows), k) == Merged(At(t, k), RowsOf(rows, k))
  {
    if rows != [] {
      var front, last := rows[..|rows| - 1], rows[|rows| - 1];
      LoadClosedForm(t, front, k);
      if last.key == k {
        MergedSnoc(At(t, k), RowsOf(front, k), last.row);
      } else {
        assert RowsOf(front, k) + [] == RowsOf(front, k);
      }
    }
  }

  lemma SameTable<K, O, P, C>(t: map<K, Row<O, P, C>>, u: map<K, Row<O, P, C>>)
    requires forall k :: At(t, k) == At(u, k)
    ensures t == u
  {
    forall k ensures k in t <==> k in u {
      assert At(t, k) == At(u, k);
    }
    forall k | k in t ensures t[k] == u[k] {
      assert At(t, k) == At(u, k);
    }
  }

  // ----- batches

  /** Batch boundaries do not matter. */
  lemma {:induction false} LoadAppend<K, O, P, C>(t: map<K, Row<O, P, C>>,
      a: seq<Keyed<K, O, P, C>>, b: seq<Keyed<K, O, P, C>>)
    ensures Load(t, a + b) == Load(Load(t, a), b)
  {
    if b == [] {
      assert a + b == a;
    } else {
      LoadAppend(t, a, b[..|b| - 1]);
      assert (a + b)[..|a + b| - 1] == a + b[..|b| - 1];
    }
  }

  lemma {:induction false} RowsOfAppend<K, O, P, C>(a: seq<Keyed<K, O, P, C>>, b: seq<Keyed<K, O, P, C>>, k: K)
    ensures RowsOf(a + b, k) == RowsOf(a, k) + RowsOf(b, k)
  {
    if b == [] {
      assert a + b == a;
      assert RowsOf(a, k) + [] == RowsOf(a, k);
    } else {
      RowsOfAppend(a, b[..|b| - 1], k);
      assert (a + b)[..|a + b| - 1] == a + b[..|b| - 1];
    }
  }

  // ----- replays

  /** A stored row that a batch of rows for its key would leave as it is. */
  ghost predicate Absorbs<O, P, C>(stored: Option<Row<O, P, C>>, rs: seq<Row<O, P, C>>) {
    rs != [] ==> && stored.Some? && stored.value.over == rs[|rs| - 1].over
                 && stored.value.filled + LastFilled(rs) == stored.value.filled
  }

  lemma AbsorbsIff<O, P, C>(stored: Option<Row<O, P, C>>, rs: seq<Row<O, P, C>>)
    ensures Merged(stored, rs) == stored <==> Absorbs(stored, rs)
  {
  }

  /** Replaying rows changes nothing exactly when, for each of their keys, the table already
      holds the overwritten columns of the last row and all its non-NULL coalesced values. */
  lemma ReplayChangesNothingIff<K, O, P, C>(t: map<K, Row<O, P, C>>, rows: seq<Keyed<K, O, P, C>>)
    ensures Load(t, rows) == t <==> forall k :: Absorbs(At(t, k), RowsOf(rows, k))
  {
    forall k ensures At(Load(t, rows), k) == At(t, k) <==> Absorbs(At(t, k), RowsOf(rows, k)) {
      LoadClosedForm(t, rows, k);
      AbsorbsIff(At(t, k), RowsOf(rows, k));
    }
    if forall k :: Absorbs(At(t, k), RowsOf(rows, k)) {
      SameTable(Load(t, rows), t);
    }
  }

  /** The merged row absorbs the very rows it was merged from. */
  lemma MergedAbsorbs<O, P, C>(stored: Option<Row<O, P, C>>, rs: seq<Row<O, P, C>>)
    ensures Absorbs(Merged(stored, rs), rs)
  {
    if rs != [] {
      var before := if stored.Some? then stored.value.filled else map[];
      assert (before + LastFilled(rs)) + LastFilled(rs) == before + LastFilled(rs);
    }
  }

  ghost predicate KeyComplete<K(!new), O, P, C>(part: seq<Keyed<K, O, P, C>>, rows: seq<Keyed<K, O, P, C>>) {
    forall k :: RowsOf(part, k) == [] || RowsOf(part, k) == RowsOf(rows, k)
  }

  /** Re-running any part of a load that carries all rows of the keys it touches leaves the
      table unchanged, for all three column kinds together, from any starting table. */
  lemma ReplayOfCompletePart<K(!new), O, P, C>(t: map<K, Row<O, P, C>>,
      rows: seq<Keyed<K, O, P, C>>, part: seq<Keyed<K, O, P, C>>)
    requires KeyComplete(part, rows)
    ensures Load(Load(t, rows), part) == Load(t, rows)
  {
    forall k ensures Absorbs(At(Load(t, rows), k), RowsOf(part, k)) {
      LoadClosedForm(t, rows, k);
      MergedAbsorbs(At(t, k), RowsOf(rows, k));
    }
    ReplayChangesNothingIff(Load(t, rows), part);
  }

  lemma LoadIdempotent<K(!new), O, P, C>(t: map<K, Row<O, P, C>>, rows: seq<Keyed<K, O, P, C>>)
    ensures Load(Load(t, rows), rows) == Load(t, rows)
  {
    ReplayOfCompletePart(t, rows, rows);
  }

  /** Coalescing never loses a value: a column once filled stays filled. */
  lemma {:induction false} FilledStaysFilled<K, O, P, C>(t: map<K, Row<O, P, C>>, rows: seq<Keyed<K, O, P, C>>, k: K)
    requires k in t
    ensures k in Load(t, rows) && t[k].filled.Keys <= Load(t, rows)[k].filled.Keys
  {
    if rows != [] {
      FilledStaysFilled(t, rows[..|rows| - 1], k);
    }
  }

  /** What a load leaves under a key is the last loaded row, column for column, exactly when
      the kept columns it found, or else those of the first loaded row, agree with it and its
      coalesced values cover all earlier ones. */
  lemma StoredRowIsGenuineIff<K, O, P, C>(t: map<K, Row<O, P, C>>, rows: seq<Keyed<K, O, P, C>>, k: K)
    requires RowsOf(rows, k) != []
    ensures k in Load(t, rows)
    ensures var rs := RowsOf(rows, k);
            var last := rs[|rs| - 1];
            var kept, before := if k in t then t[k].keep else rs[0].keep, if k in t then t[k].filled else map[];
            Load(t, rows)[k] == last <==> kept == last.keep && before + LastFilled(rs) == last.filled
  {
    LoadClosedForm(t, rows, k);
  }

  // ----- tables updated in place

  class UpsertTable<K(==), O, P, C> {
    var rows: map<K, Row<O, P, C>>

    constructor ()
      ensures rows == map[]
    {
      rows := map[];
    }

    /** `_upsert`: one statement per row; returns the number of rows. */
    method UpsertBatch(batch: seq<Keyed<K, O, P, C>>) returns (n: nat)
      modifies this
      ensures rows == Load(old(rows), batch) && n == |batch|
    {
      for i := 0 to |batch|
        invariant rows == Load(old(rows), batch[..i])
      {
        assert batch[..i + 1][..i] == batch[..i];
        rows := Upsert(rows, batch[i]);
      }
      assert batch[..|batch|] == batch;
      n := |batch|;
    }

    /** `range(0, len, size)` slices, each passed to `UpsertBatch`. */
    method UpsertInBatches(all: seq<Keyed<K, O, P, C>>, size: nat) returns (n: nat)
      requires size > 0
      modifies this
      ensures rows == Load(old(rows), all) && n == |all|
    {
      n := 0;
      var j := 0;
      assert all[..0] == [];
      while j < |all|
        invariant 0 <= j && n == Min(j, |all|) && rows == Load(old(rows), all[..n])
        decreases |all| - j
      {
        var end := Min(j + size, |all|);
        assert all[..end] == all[..j] + all[j..end];
        LoadAppend(old(rows), all[..j], all[j..end]);
        var written := UpsertBatch(all[j..end]);
        n := n + written;
        j := j + size;
      }
      assert all[..|all|] == all;
    }
  }
}
