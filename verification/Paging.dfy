/** Bounded reads: the pages of the universe history, and candle ranges with truncation. */
module Paging {
  import opened Collections
  import opened SortedKeys
  import UniverseTables

  predicate IntGe(a: int, b: int) { a >= b }

  // ----- pages

  type Snapshot = UniverseTables.Snapshot

  datatype Filter = Filter(status: Option<UniverseTables.Status>, version: Option<int>)

  /** Versions are pairwise distinct, so the table is a map from versions. */
  function Selected(t: map<int, Snapshot>, f: Filter): set<int> {
    set v | v in t && (f.status.Some? ==> t[v].status == f.status.value) && (f.version.Some? ==> v == f.version.value)
  }

  /** ORDER BY snapshot_version DESC */
  function Versions(t: map<int, Snapshot>, f: Filter): (vs: seq<int>)
    ensures forall v :: v in vs <==> v in Selected(t, f)
    ensures forall i, j :: 0 <= i < j < |vs| ==> vs[i] > vs[j]
    ensures forall i :: 0 <= i < |vs| ==> vs[i] in t
  {
    var vs := Sorted(Selected(t, f), IntGe);
    assert forall i :: 0 <= i < |vs| ==> vs[i] in vs;
    vs
  }

  /** The whole result of the query. */
  function History(t: map<int, Snapshot>, f: Filter): seq<Snapshot> {
    var vs := Versions(t, f);
    seq(|vs|, i requires 0 <= i < |vs| => t[vs[i]])
  }

  /** The query returns exactly the snapshots that pass the filter, newest version first. */
  lemma HistoryIs(t: map<int, Snapshot>, f: Filter)
    requires forall v <- t :: t[v].version == v
    ensures forall i, j :: 0 <= i < j < |History(t, f)| ==> History(t, f)[i].version > History(t, f)[j].version
    ensures forall v <- t :: t[v] in History(t, f) <==>
              (f.status.Some? ==> t[v].status == f.status.value) && (f.version.Some? ==> v == f.version.value)
  {
    var vs := Versions(t, f);
    assert forall i :: 0 <= i < |vs| ==> History(t, f)[i].version == vs[i];
    forall v | v in t ensures t[v] in History(t, f) <==> v in Selected(t, f) {
      if v in Selected(t, f) {
        var i :| 0 <= i < |vs| && vs[i] == v;
        assert History(t, f)[i] == t[v];
      }
    }
  }

  function Offset(page: int, limit: int): int { (page - 1) * limit }

  lemma OffsetStep(page: int, limit: int)
    ensures Offset(page + 1, limit) == Offset(page, limit) + limit
    ensures page >= 1 && limit >= 1 ==> Offset(page, limit) >= 0
  {
  }

  lemma OffsetsAscend(p: int, q: int, limit: int)
    requires p <= q && limit >= 1
    ensures Offset(p, limit) <= Offset(q, limit)
    decreases q - p
  {
    if p < q {
      OffsetsAscend(p, q - 1, limit);
      OffsetStep(q - 1, limit);
    }
  }

  /** LIMIT limit OFFSET offset */
  function Slice<T>(xs: seq<T>, offset: int, limit: int): seq<T> {
    if offset < 0 || limit < 0 then [] else xs[Min(offset, |xs|)..Min(offset + limit, |xs|)]
  }

  function TotalPages(n: nat, limit: nat): nat
    requires limit >= 1
  {
    if n > 0 then (if (n + limit - 1) / limit > 1 then (n + limit - 1) / limit else 1) else 1
  }

  lemma DivisionBounds(m: nat, d: nat)
    requires d >= 1
    ensures Offset(m / d + 1, d) <= m < Offset(m / d + 1, d) + d
    ensures m >= d ==> m / d >= 1
  {
    assert m == m / d * d + m % d;
  }

  /** The last page is the one on which the last row lies. */
  lemma TotalPagesIs(n: nat, limit: nat)
    requires limit >= 1
    ensures TotalPages(n, limit) >= 1
    ensures n <= Offset(TotalPages(n, limit) + 1, limit)
    ensures n > 0 ==> Offset(TotalPages(n, limit), limit) < n
    ensures n == 0 ==> TotalPages(n, limit) == 1
  {
    DivisionBounds(n + limit - 1, limit);
    OffsetStep((n + limit - 1) / limit, limit);
  }

  /** `get_fno_universe_history` behind its parameter checks. */
  method HistoryPage(t: map<int, Snapshot>, f: Filter, page: nat, limit: nat)
    returns (snapshots: seq<Snapshot>, total: nat, totalPages: nat)
    requires 1 <= page && 1 <= limit <= 100
    ensures snapshots == Slice(History(t, f), Offset(page, limit), limit)
    ensures total == |History(t, f)| && totalPages == TotalPages(total, limit)
  {
    total := |History(t, f)|;
    var rows := Slice(History(t, f), (page - 1) * limit, limit);
    snapshots := [];
    for i := 0 to |rows|
      invariant snapshots == rows[..i]
    {
      snapshots := snapshots + [rows[i]];
    }
    totalPages := if total > 0 then (if (total + limit - 1) / limit > 1 then (total + limit - 1) / limit else 1) else 1;
  }

  ghost function Pages<T>(xs: seq<T>, limit: int, k: nat): seq<T> {
    if k == 0 then [] else Pages(xs, limit, k - 1) + Slice(xs, Offset(k, limit), limit)
  }

  lemma SliceJoins<T>(xs: seq<T>, offset: nat, limit: nat)
    ensures xs[..Min(offset, |xs|)] + Slice(xs, offset, limit) == xs[..Min(offset + limit, |xs|)]
  {
  }

  lemma {:induction false} PagesArePrefix<T>(xs: seq<T>, limit: int, k: nat)
    requires limit >= 1
    ensures 0 <= Offset(k + 1, limit) && Pages(xs, limit, k) == xs[..Min(Offset(k + 1, limit), |xs|)]
  {
    OffsetStep(k, limit);
    if k > 0 {
      PagesArePrefix(xs, limit, k - 1);
      SliceJoins(xs, Offset(k, limit), limit);
    }
  }

  lemma FullPage<T>(xs: seq<T>, limit: nat, p: nat)
    requires limit >= 1 && 1 <= p < TotalPages(|xs|, limit)
    ensures |Slice(xs, Offset(p, limit), limit)| == limit
  {
    TotalPagesIs(|xs|, limit);
    OffsetStep(p, limit);
    OffsetsAscend(p + 1, TotalPages(|xs|, limit), limit);
  }

  lemma EmptyPage<T>(xs: seq<T>, limit: nat, p: nat)
    requires limit >= 1 && p > TotalPages(|xs|, limit)
    ensures Slice(xs, Offset(p, limit), limit) == []
  {
    TotalPagesIs(|xs|, limit);
    OffsetsAscend(TotalPages(|xs|, limit) + 1, p, limit);
  }

  /** The pages up to `totalPages` make up the whole list, once and in order; all but the
      last are full, the last is not empty unless the list is, and later ones are empty. */
  lemma PagesCoverHistory<T>(xs: seq<T>, limit: nat)
    requires limit >= 1
    ensures Pages(xs, limit, TotalPages(|xs|, limit)) == xs
    ensures forall p :: 1 <= p < TotalPages(|xs|, limit) ==> |Slice(xs, Offset(p, limit), limit)| == limit
    ensures xs != [] ==> Slice(xs, Offset(TotalPages(|xs|, limit), limit), limit) != []
    ensures forall p :: p > TotalPages(|xs|, limit) ==> Slice(xs, Offset(p, limit), limit) == []
  {
    var last := TotalPages(|xs|, limit);
    TotalPagesIs(|xs|, limit);
    PagesArePrefix(xs, limit, last);
    OffsetStep(last, limit);
    forall p | 1 <= p < last ensures |Slice(xs, Offset(p, limit), limit)| == limit { FullPage(xs, limit, p); }
    forall p | p > last ensures Slice(xs, Offset(p, limit), limit) == [] { EmptyPage(xs, limit, p); }
  }

  // ----- candle ranges

  /** One instrument and interval; the table's key leaves the time. */
  datatype Candle = Candle(close: real, provider: string, poorQuality: bool)

  function TimesIn(t: map<int, Candle>, from: int, to: int): (ks: seq<int>)
    ensures forall k :: k in ks <==> k in t && from <= k < to && !t[k].poorQuality
    ensures forall i :: 0 <= i < |ks| ==> ks[i] in t
    ensures Ascending(ks)
  {
    var wanted := set k | k in t && from <= k < to && !t[k].poorQuality;
    var ks := Sorted(wanted, IntLe);
    assert forall i :: 0 <= i < |ks| ==> ks[i] in ks;
    ks
  }

  predicate Ascending(ks: seq<int>) { forall i, j :: 0 <= i < j < |ks| ==> ks[i] < ks[j] }

  function RowsAt(t: map<int, Candle>, ks: seq<int>): seq<(int, Candle)>
    requires forall i :: 0 <= i < |ks| ==> ks[i] in t
  {
    seq(|ks|, i requires 0 <= i < |ks| => (ks[i], t[ks[i]]))
  }

  /** The whole result of the query, were it not limited. */
  function CandlesIn(t: map<int, Candle>, from: int, to: int): seq<(int, Candle)> { RowsAt(t, TimesIn(t, from, to)) }

  /** The rows are the good candles of the range at their times, in ascending order. */
  lemma CandlesAre(t: map<int, Candle>, from: int, to: int)
    ensures forall k, c :: (k, c) in CandlesIn(t, from, to) <==> k in t && c == t[k] && from <= k < to && !c.poorQuality
    ensures forall i, j :: 0 <= i < j < |CandlesIn(t, from, to)| ==>
              CandlesIn(t, from, to)[i].0 < CandlesIn(t, from, to)[j].0
  {
    var ks, rows := TimesIn(t, from, to), CandlesIn(t, from, to);
    forall k, c ensures (k, c) in rows <==> k in t && c == t[k] && from <= k < to && !c.poorQuality {
      if (k, c) in rows {
        var i :| 0 <= i < |rows| && rows[i] == (k, c);
        assert ks[i] in ks;
      }
      if k in ks {
        var i :| 0 <= i < |ks| && ks[i] == k;
        assert rows[i] == (k, t[k]);
      }
    }
  }

  /** `_query_candles`: one row more than asked for tells whether the answer is cut. */
  method QueryCandles(t: map<int, Candle>, from: int, to: int, max: nat)
    returns (candles: seq<(int, Candle)>, truncated: bool, provider: Option<string>)
    ensures candles == Slice(CandlesIn(t, from, to), 0, max)
    ensures truncated <==> |CandlesIn(t, from, to)| > max
    ensures provider == if candles == [] then None else Some(candles[|candles| - 1].1.provider)
  {
    var all := CandlesIn(t, from, to);
    var rows := all[..Min(max + 1, |all|)];
    truncated := |rows| > max;
    rows := rows[..Min(max, |rows|)];
    candles, provider := [], None;
    for i := 0 to |rows|
      invariant candles == rows[..i]
      invariant provider == if i == 0 then None else Some(rows[i - 1].1.provider)
    {
      provider := Some(rows[i].1.provider);
      candles := candles + [rows[i]];
    }
  }

  /** A limit that is reached is not exceeded: one candle, asked for with a limit of one, is
      the whole range, so the answer is not truncated. */
  lemma ReachedIsNotTruncated(c: Candle)
    requires !c.poorQuality
    ensures CandlesIn(map[0 := c], 0, 1) == [(0, c)] && |CandlesIn(map[0 := c], 0, 1)| == 1
  {
    AscendingUnique(TimesIn(map[0 := c], 0, 1), [0]);
  }

  /** A strictly ascending sequence is determined by its elements. */
  lemma AscendingUnique(xs: seq<int>, ys: seq<int>)
    requires Ascending(xs) && Ascending(ys) && (forall k :: k in xs <==> k in ys)
    ensures xs == ys
  {
    assert forall k :: k in Elements(xs) <==> k in xs;
    forall k ensures k in ys <==> k in Elements(xs) {
      assert k in xs <==> k in ys;
    }
    SortedUnique(Elements(xs), IntLe, xs);
    SortedUnique(Elements(xs), IntLe, ys);
  }

  /** Adjacent half-open ranges join without gap or overlap. */
  lemma TimesJoin(t: map<int, Candle>, a: int, b: int, c: int)
    requires a <= b <= c
    ensures TimesIn(t, a, b) + TimesIn(t, b, c) == TimesIn(t, a, c)
  {
    var left, right := TimesIn(t, a, b), TimesIn(t, b, c);
    forall i, j | 0 <= i < j < |left + right| ensures (left + right)[i] < (left + right)[j] {
      if i < |left| <= j {
        assert left[i] in left && right[j - |left|] in right;
      }
    }
    AscendingUnique(left + right, TimesIn(t, a, c));
  }

  lemma RangesJoin(t: map<int, Candle>, a: int, b: int, c: int)
    requires a <= b <= c
    ensures CandlesIn(t, a, b) + CandlesIn(t, b, c) == CandlesIn(t, a, c)
  {
    TimesJoin(t, a, b, c);
    RowsAtAppend(t, TimesIn(t, a, b), TimesIn(t, b, c));
  }

  lemma RowsAtAppend(t: map<int, Candle>, ks: seq<int>, ls: seq<int>)
    requires forall i :: 0 <= i < |ks| ==> ks[i] in t
    requires forall i :: 0 <= i < |ls| ==> ls[i] in t
    ensures RowsAt(t, ks + ls) == RowsAt(t, ks) + RowsAt(t, ls)
  {
  }

  lemma FirstOnes(ks: seq<int>, max: nat, k: int)
    requires Ascending(ks) && 0 < max <= |ks|
    ensures k in ks[..max] <==> k in ks && k <= ks[max - 1]
  {
    if k in ks && k <= ks[max - 1] {
      var i :| 0 <= i < |ks| && ks[i] == k;
      assert i <= max - 1;
      assert ks[..max][i] == k;
    }
  }

  lemma PrefixIs(ks: seq<int>, max: nat, first: seq<int>)
    requires Ascending(ks) && Ascending(first) && 0 < max <= |ks|
    requires forall k :: k in first <==> k in ks && k <= ks[max - 1]
    ensures ks[..max] == first
  {
    forall k ensures k in ks[..max] <==> k in first {
      FirstOnes(ks, max, k);
    }
    AscendingUnique(ks[..max], first);
  }

  lemma TimesUpTo(t: map<int, Candle>, from: int, to: int, last: int, k: int)
    requires last < to
    ensures k in TimesIn(t, from, last + 1) <==> k in TimesIn(t, from, to) && k <= last
  {
  }

  lemma FirstTimes(t: map<int, Candle>, from: int, to: int, max: nat)
    requires 0 < max <= |TimesIn(t, from, to)|
    ensures from <= TimesIn(t, from, to)[max - 1] < to
    ensures TimesIn(t, from, to)[..max] == TimesIn(t, from, TimesIn(t, from, to)[max - 1] + 1)
  {
    var all := TimesIn(t, from, to);
    var last := all[max - 1];
    assert last in all;
    forall k ensures k in TimesIn(t, from, last + 1) <==> k in all && k <= last {
      TimesUpTo(t, from, to, last, k);
    }
    PrefixIs(all, max, TimesIn(t, from, last + 1));
  }

  lemma SplitAt<T>(a: seq<T>, b: seq<T>)
    ensures (a + b)[..|a|] == a && (a + b)[|a|..] == b
  {
  }

  lemma FirstTimesCount(t: map<int, Candle>, from: int, to: int, max: nat)
    requires 0 < max <= |TimesIn(t, from, to)|
    ensures |TimesIn(t, from, TimesIn(t, from, to)[max - 1] + 1)| == max
  {
    FirstTimes(t, from, to, max);
    assert |TimesIn(t, from, to)[..max]| == max;
  }

  lemma CandlesAreAt(t: map<int, Candle>, from: int, to: int)
    ensures |CandlesIn(t, from, to)| == |TimesIn(t, from, to)|
    ensures forall i :: 0 <= i < |CandlesIn(t, from, to)| ==> CandlesIn(t, from, to)[i].0 == TimesIn(t, from, to)[i]
  {
  }

  lemma FirstCandles(t: map<int, Candle>, from: int, to: int, max: nat)
    requires 0 < max <= |CandlesIn(t, from, to)|
    ensures from < CandlesIn(t, from, to)[max - 1].0 + 1 <= to
    ensures |CandlesIn(t, from, CandlesIn(t, from, to)[max - 1].0 + 1)| == max
  {
    CandlesAreAt(t, from, to);
    FirstTimes(t, from, to, max);
    FirstTimesCount(t, from, to, max);
    CandlesAreAt(t, from, TimesIn(t, from, to)[max - 1] + 1);
  }

  /** A truncated answer ends at a time after which the rest can be asked for: the rows up to
      it are exactly the range up to it, and the next query gives what was cut. */
  lemma TruncationResumes(t: map<int, Candle>, from: int, to: int, max: nat, next: int)
    requires 0 < max < |CandlesIn(t, from, to)|
    requires next == CandlesIn(t, from, to)[max - 1].0 + 1
    ensures from < next <= to
    ensures CandlesIn(t, from, to)[..max] == CandlesIn(t, from, next)
    ensures CandlesIn(t, from, to)[max..] == CandlesIn(t, next, to)
  {
    FirstCandles(t, from, to, max);
    RangesJoin(t, from, next, to);
    SplitAt(CandlesIn(t, from, next), CandlesIn(t, next, to));
  }
}
