/** Backward ratio adjustment of the segments and emission of the series. */
module Panama {
  import opened Collections
  import opened Rounding
  import opened SortedKeys
  import TradingDates
  import opened Windows

  const PRICE_SCALE := 1_000_000.0
  const FACTOR_SCALE := 100_000_000.0

  datatype Row = Row(date: int, open: real, high: real, low: real, close: real, volume: int,
                     openInterest: Option<int>, oiChange: Option<int>,
                     expiryInUse: int, rollDate: Option<int>, cumulativeAdj: real)

  datatype Factored = Factored(factor: real, candles: seq<Candle>, expiry: int)

  function FirstClose(s: Segment): real
    requires s.candles != []
  {
    s.candles[0].close
  }

  function LastClose(s: Segment): real
    requires s.candles != []
  {
    s.candles[|s.candles| - 1].close
  }

  // ----- factors

  /** The price ratio across the boundary between segments `i` and `i + 1`; a boundary with
      a close that is not positive is skipped. */
  ghost function Ratio(segs: seq<Segment>, i: nat): real
    requires NonEmpty(segs) && i + 1 < |segs|
  {
    if LastClose(segs[i]) > 0.0 && FirstClose(segs[i + 1]) > 0.0
    then FirstClose(segs[i + 1]) / LastClose(segs[i])
    else 1.0
  }

  /** The product of the ratios of all boundaries after segment `i`. */
  ghost function Factor(segs: seq<Segment>, i: nat): real
    requires NonEmpty(segs) && i < |segs|
    decreases |segs| - i
  {
    if i + 1 == |segs| then 1.0 else Factor(segs, i + 1) * Ratio(segs, i)
  }

  ghost function FactoredFrom(segs: seq<Segment>, i: nat): seq<Factored>
    requires NonEmpty(segs) && i <= |segs|
    decreases |segs| - i
  {
    if i == |segs| then []
    else [Factored(Factor(segs, i), segs[i].candles, segs[i].expiry)] + FactoredFrom(segs, i + 1)
  }

  /** The pass that also collects the roll days it adjusted at. */
  method FirstPass(segments: seq<Segment>) returns (adjusted: seq<Factored>, rollDates: set<int>)
    requires NonEmpty(segments)
    ensures adjusted == FactoredFrom(segments, 0)
  {
    adjusted, rollDates := [], {};
    var cumulativeAdj := 1.0;
    for i := |segments| downto 0
      invariant cumulativeAdj == if i == |segments| then 1.0 else Factor(segments, i)
      invariant adjusted == FactoredFrom(segments, i)
    {
      if i < |segments| - 1 {
        var thisLast, nextFirst := LastClose(segments[i]), FirstClose(segments[i + 1]);
        if thisLast > 0.0 && nextFirst > 0.0 {
          var ratio := nextFirst / thisLast;
          cumulativeAdj := cumulativeAdj * ratio;
          rollDates := rollDates + {segments[i].roll};
        }
      }
      adjusted := [Factored(cumulativeAdj, segments[i].candles, segments[i].expiry)] + adjusted;
    }
  }

  /** The pass whose result is used. */
  method SecondPass(segments: seq<Segment>) returns (final: seq<Factored>)
    requires NonEmpty(segments)
    ensures final == FactoredFrom(segments, 0)
  {
    final := [];
    var cumulativeAdj := 1.0;
    for i := |segments| downto 0
      invariant cumulativeAdj == if i == |segments| then 1.0 else Factor(segments, i)
      invariant final == FactoredFrom(segments, i)
    {
      if i < |segments| - 1 {
        var thisLast, nextFirst := LastClose(segments[i]), FirstClose(segments[i + 1]);
        if thisLast > 0.0 && nextFirst > 0.0 {
          cumulativeAdj := cumulativeAdj * (nextFirst / thisLast);
        }
      }
      final := [Factored(cumulativeAdj, segments[i].candles, segments[i].expiry)] + final;
    }
  }

  // ----- rows

  /** Zero counts as missing. */
  function NonZero(v: Option<int>): Option<int> { if v == Some(0) then None else v }

  function Scale(p: real, factor: real): real { p * factor }

  function Recover(p: real, factor: real): real
    requires factor != 0.0
  {
    p / factor
  }

  function AdjustedPrice(p: real, factor: real): real { Round(Scale(p, factor), PRICE_SCALE) }

  function StoredFactor(factor: real): real { Round(factor, FACTOR_SCALE) }

  function MakeRow(factor: real, expiry: int, c: Candle): Row {
    Row(c.date,
        AdjustedPrice(c.open, factor), AdjustedPrice(c.high, factor),
        AdjustedPrice(c.low, factor), AdjustedPrice(c.close, factor),
        if c.volume.Some? then c.volume.value else 0,
        NonZero(c.openInterest), NonZero(c.oiChange),
        expiry, if c.date == RollDateFor(expiry) then Some(RollDateFor(expiry)) else None,
        StoredFactor(factor))
  }

  ghost function RowsOf(f: Factored, n: nat): seq<Row>
    requires n <= |f.candles|
  {
    seq(n, k requires 0 <= k < n => MakeRow(f.factor, f.expiry, f.candles[k]))
  }

  ghost function RowsFrom(fs: seq<Factored>, n: nat): seq<Row>
    requires n <= |fs|
  {
    if n == 0 then [] else RowsFrom(fs, n - 1) + RowsOf(fs[n - 1], |fs[n - 1].candles|)
  }

  /** Insertion after every row that is not later: a stable sort by date. */
  function InsertByDate(rows: seq<Row>, r: Row): seq<Row> {
    if rows == [] || rows[|rows| - 1].date <= r.date then rows + [r]
    else InsertByDate(rows[..|rows| - 1], r) + [rows[|rows| - 1]]
  }

  function SortByDate(rows: seq<Row>): seq<Row> {
    if rows == [] then [] else InsertByDate(SortByDate(rows[..|rows| - 1]), rows[|rows| - 1])
  }

  ghost function Series(contracts: Contracts): seq<Row> {
    SegmentsNonEmpty(contracts);
    var fs := FactoredFrom(Segments(contracts), 0);
    SortByDate(RowsFrom(fs, |fs|))
  }

  /** Adjusts every candle of every segment. */
  method EmitRows(final: seq<Factored>) returns (result: seq<Row>)
    ensures result == RowsFrom(final, |final|)
  {
    result := [];
    for i := 0 to |final|
      invariant result == RowsFrom(final, i)
    {
      var f := final[i];
      for k := 0 to |f.candles|
        invariant result == RowsFrom(final, i) + RowsOf(f, k)
      {
        result := result + [MakeRow(f.factor, f.expiry, f.candles[k])];
        assert RowsOf(f, k + 1) == RowsOf(f, k) + [MakeRow(f.factor, f.expiry, f.candles[k])];
      }
    }
  }

  method BuildContinuousSeries(contracts: Contracts) returns (result: seq<Row>)
    ensures result == Series(contracts)
  {
    var segments := BuildSegments(contracts);
    SegmentsNonEmpty(contracts);
    var adjusted, rollDates := FirstPass(segments);
    var final := SecondPass(segments);
    assert adjusted == final;
    result := EmitRows(final);
    result := SortByDate(result);
  }

  // ----- the emitted rows follow the selector

  ghost predicate RowsAscend(rows: seq<Row>) {
    forall i, j :: 0 <= i < j < |rows| ==> rows[i].date < rows[j].date
  }

  lemma {:induction false} SortChangesNothing(rows: seq<Row>)
    requires RowsAscend(rows)
    ensures SortByDate(rows) == rows
  {
    if rows != [] {
      var front, last := rows[..|rows| - 1], rows[|rows| - 1];
      SortChangesNothing(front);
      assert InsertByDate(front, last) == front + [last] == rows;
    }
  }

  lemma {:induction false} FactoredCount(segs: seq<Segment>, i: nat)
    requires NonEmpty(segs) && i <= |segs|
    ensures |FactoredFrom(segs, i)| == |segs| - i
    decreases |segs| - i
  {
    if i < |segs| {
      FactoredCount(segs, i + 1);
    }
  }

  lemma {:induction false} FactoredAt(segs: seq<Segment>, i: nat, k: nat)
    requires NonEmpty(segs) && i <= k < |segs|
    ensures |FactoredFrom(segs, i)| == |segs| - i
    ensures FactoredFrom(segs, i)[k - i] == Factored(Factor(segs, k), segs[k].candles, segs[k].expiry)
    decreases |segs| - i
  {
    FactoredCount(segs, i);
    FactoredCount(segs, i + 1);
    if i < k {
      FactoredAt(segs, i + 1, k);
      assert FactoredFrom(segs, i)[k - i] == FactoredFrom(segs, i + 1)[k - (i + 1)];
    }
  }

  lemma FactoredLength(segs: seq<Segment>)
    requires NonEmpty(segs)
    ensures |FactoredFrom(segs, 0)| == |segs|
  {
    if segs != [] {
      FactoredCount(segs, 0);
    }
  }

  /** The rows come in the order of the segments' candles. */
  lemma {:induction false} RowsMatchCandles(segs: seq<Segment>, n: nat)
    requires NonEmpty(segs) && n <= |segs| == |FactoredFrom(segs, 0)|
    ensures var rows, cs := RowsFrom(FactoredFrom(segs, 0), n), Flatten(segs[..n]);
            |rows| == |cs| && forall k :: 0 <= k < |rows| ==> rows[k].date == cs[k].date
  {
    if n > 0 {
      RowsMatchCandles(segs, n - 1);
      FactoredAt(segs, 0, n - 1);
      assert segs[..n][..n - 1] == segs[..n - 1];
    }
  }

  lemma RowsOfAre(f: Factored, r: Row)
    ensures r in RowsOf(f, |f.candles|) <==> exists c :: c in f.candles && r == MakeRow(f.factor, f.expiry, c)
  {
    var rows := RowsOf(f, |f.candles|);
    if r in rows {
      var k :| 0 <= k < |rows| && rows[k] == r;
      assert f.candles[k] in f.candles;
    }
    if c :| c in f.candles && r == MakeRow(f.factor, f.expiry, c) {
      var k :| 0 <= k < |f.candles| && f.candles[k] == c;
      assert rows[k] == r;
    }
  }

  ghost predicate Emits(segs: seq<Segment>, i: nat, c: Candle, r: Row)
    requires NonEmpty(segs) && i < |segs|
  {
    c in segs[i].candles && r == MakeRow(Factor(segs, i), segs[i].expiry, c)
  }

  lemma {:induction false} RowsAre(segs: seq<Segment>, n: nat, r: Row)
    requires NonEmpty(segs) && n <= |segs| == |FactoredFrom(segs, 0)|
    ensures r in RowsFrom(FactoredFrom(segs, 0), n) <==> exists i, c :: 0 <= i < n && Emits(segs, i, c, r)
  {
    if n > 0 {
      RowsAre(segs, n - 1, r);
      FactoredAt(segs, 0, n - 1);
      var f := FactoredFrom(segs, 0)[n - 1];
      RowsOfAre(f, r);
      if r in RowsOf(f, |f.candles|) {
        var c :| c in f.candles && r == MakeRow(f.factor, f.expiry, c);
        assert Emits(segs, n - 1, c, r);
      }
    }
  }

  ghost predicate DateOrdered(contracts: Contracts) { forall e <- contracts :: Windows.Ascending(contracts[e]) }

  /** The output days are strictly ascending, so the final sort changes nothing and no two
      rows meet on the table's unique key. */
  lemma SeriesIsStrictlyAscending(contracts: Contracts)
    requires DateOrdered(contracts)
    ensures RowsAscend(Series(contracts)) && NonEmpty(Segments(contracts))
    ensures var fs := FactoredFrom(Segments(contracts), 0); Series(contracts) == RowsFrom(fs, |fs|)
  {
    var segs := Segments(contracts);
    SegmentsNonEmpty(contracts);
    FactoredLength(segs);
    SeriesAscends(contracts);
    RowsMatchCandles(segs, |segs|);
    assert segs[..|segs|] == segs;
    SortChangesNothing(RowsFrom(FactoredFrom(segs, 0), |segs|));
  }

  /** A row is in the series exactly when it is the adjusted candle, by its segment's factor,
      of the contract in force on its day. */
  lemma SeriesRows(contracts: Contracts, r: Row)
    requires DateOrdered(contracts)
    ensures NonEmpty(Segments(contracts))
    ensures var segs := Segments(contracts);
            r in Series(contracts) <==>
            exists i, c :: && 0 <= i < |segs| && Emits(segs, i, c, r)
                           && segs[i].expiry in contracts && c in contracts[segs[i].expiry]
                           && InForce(contracts.Keys, c.date, segs[i].expiry)
  {
    var segs := Segments(contracts);
    SegmentsNonEmpty(contracts);
    FactoredLength(segs);
    SeriesIsStrictlyAscending(contracts);
    RowsAre(segs, |segs|, r);
    forall i, c | 0 <= i < |segs| && c in segs[i].candles
      ensures segs[i].expiry in contracts && c in contracts[segs[i].expiry]
      ensures InForce(contracts.Keys, c.date, segs[i].expiry)
    {
      assert segs[i] in segs;
      SeriesFollowsSelector(contracts, segs[i].expiry, c);
    }
  }

  /** Every candle of the contract in force is emitted. */
  lemma SeriesIsComplete(contracts: Contracts, e: int, c: Candle)
    requires DateOrdered(contracts) && e in contracts && c in contracts[e] && InForce(contracts.Keys, c.date, e)
    ensures exists r :: r in Series(contracts) && r.date == c.date && r.expiryInUse == e
  {
    var segs := Segments(contracts);
    SegmentsNonEmpty(contracts);
    SeriesFollowsSelector(contracts, e, c);
    var s :| s in segs && s.expiry == e && c in s.candles;
    var i :| 0 <= i < |segs| && segs[i] == s;
    var r := MakeRow(Factor(segs, i), e, c);
    assert Emits(segs, i, c, r);
    SeriesRows(contracts, r);
    assert r in Series(contracts);
  }

  lemma InForceAdvances(expiries: set<int>, d: int, e: int, d': int, e': int)
    requires InForce(expiries, d, e) && InForce(expiries, d', e') && d < d'
    ensures e <= e'
    ensures d == RollDateFor(e) ==> e < e' || forall x <- expiries :: x <= e
  {
    assert e in expiries && e' in expiries;
  }

  /** The series only ever moves on to later contracts, and a row that carries a roll date is
      its contract's last one, unless no later contract exists. */
  lemma RollsOnlyForward(contracts: Contracts, r: Row, r': Row)
    requires DateOrdered(contracts) && r in Series(contracts) && r' in Series(contracts) && r.date < r'.date
    ensures r.expiryInUse <= r'.expiryInUse
    ensures r.rollDate.Some? ==> r.expiryInUse < r'.expiryInUse || forall x <- contracts :: x <= r.expiryInUse
  {
    SeriesRows(contracts, r);
    SeriesRows(contracts, r');
    assert InForce(contracts.Keys, r.date, r.expiryInUse) && InForce(contracts.Keys, r'.date, r'.expiryInUse);
    InForceAdvances(contracts.Keys, r.date, r.expiryInUse, r'.date, r'.expiryInUse);
  }

  ghost predicate ShowsRoll(contracts: Contracts, e: int, r: Row) {
    r in Series(contracts) && r.expiryInUse == e && r.rollDate.Some?
  }

  lemma InForceOnRollDate(expiries: set<int>, e: int)
    requires e in expiries
    ensures InForce(expiries, RollDateFor(e), e)
  {
  }

  /** A contract's roll date is on a row of the series exactly when the contract has a candle
      on that very calendar day, and then that row is the candle's. */
  lemma RollShownIff(contracts: Contracts, e: int)
    requires DateOrdered(contracts) && e in contracts
    ensures (exists r :: ShowsRoll(contracts, e, r)) <==> exists c :: c in contracts[e] && c.date == RollDateFor(e)
    ensures forall r :: ShowsRoll(contracts, e, r) ==> r.date == RollDateFor(e) && r.rollDate == Some(r.date)
  {
    forall r | ShowsRoll(contracts, e, r)
      ensures r.date == RollDateFor(e) && r.rollDate == Some(r.date)
      ensures exists c :: c in contracts[e] && c.date == RollDateFor(e)
    {
      SeriesRows(contracts, r);
    }
    if c :| c in contracts[e] && c.date == RollDateFor(e) {
      InForceOnRollDate(contracts.Keys, e);
      SeriesIsComplete(contracts, e, c);
      var r :| r in Series(contracts) && r.date == c.date && r.expiryInUse == e;
      SeriesRows(contracts, r);
      assert ShowsRoll(contracts, e, r);
    }
  }

  /** Five calendar days before a Thursday or Friday expiry is a weekend: if the contract
      trades on weekdays only, no row of the series carries its roll date. */
  lemma WeekendRollIsNeverShown(contracts: Contracts, e: int, r: Row)
    requires DateOrdered(contracts) && e in contracts
    requires TradingDates.Weekday(e) == 3 || TradingDates.Weekday(e) == 4
    requires forall c <- contracts[e] :: TradingDates.Weekday(c.date) < 5
    ensures !ShowsRoll(contracts, e, r)
  {
    RollShownIff(contracts, e);
    RollOnWeekend(e);
    assert forall c <- contracts[e] :: c.date != RollDateFor(e);
  }

  lemma RollOnWeekend(e: int)
    requires TradingDates.Weekday(e) == 3 || TradingDates.Weekday(e) == 4
    ensures TradingDates.Weekday(RollDateFor(e)) >= 5
  {
  }

  // ----- what the adjustment guarantees

  lemma {:induction false} FactorPositive(segs: seq<Segment>, i: nat)
    requires NonEmpty(segs) && i < |segs|
    ensures Factor(segs, i) > 0.0
    decreases |segs| - i
  {
    if i + 1 < |segs| {
      FactorPositive(segs, i + 1);
      assert Ratio(segs, i) > 0.0;
    }
  }

  /** The adjusted closes on both sides of boundary `i` agree, before and after rounding,
      when both closes are positive; before rounding they agree only then, or when they
      happen to be equal already. */
  lemma BoundaryContinuityIff(segs: seq<Segment>, i: nat)
    requires NonEmpty(segs) && i + 1 < |segs|
    ensures var a, b := LastClose(segs[i]), FirstClose(segs[i + 1]);
            && (Scale(a, Factor(segs, i)) == Scale(b, Factor(segs, i + 1)) <==> (a > 0.0 && b > 0.0) || a == b)
            && ((a > 0.0 && b > 0.0) || a == b ==>
                  AdjustedPrice(a, Factor(segs, i)) == AdjustedPrice(b, Factor(segs, i + 1)))
  {
    var a, b, f := LastClose(segs[i]), FirstClose(segs[i + 1]), Factor(segs, i + 1);
    FactorPositive(segs, i + 1);
    if a > 0.0 && b > 0.0 {
      assert a * (b / a) == b;
      assert a * (f * (b / a)) == (a * (b / a)) * f;
    } else {
      assert f * 1.0 == f;
      Cancel(a, b, f);
    }
  }

  lemma Cancel(a: real, b: real, f: real)
    requires f != 0.0
    ensures a * f == b * f <==> a == b
  {
    if a * f == b * f {
      assert (a - b) * f == 0.0;
    }
  }

  ghost predicate PositiveCloses(segs: seq<Segment>)
    requires NonEmpty(segs)
  {
    forall i :: 0 <= i < |segs| ==> FirstClose(segs[i]) > 0.0 && LastClose(segs[i]) > 0.0
  }

  ghost function ProductOfLast(segs: seq<Segment>, i: nat): real
    requires NonEmpty(segs) && i < |segs|
    decreases |segs| - i
  {
    if i + 1 == |segs| then 1.0 else LastClose(segs[i]) * ProductOfLast(segs, i + 1)
  }

  ghost function ProductOfNextFirst(segs: seq<Segment>, i: nat): real
    requires NonEmpty(segs) && i < |segs|
    decreases |segs| - i
  {
    if i + 1 == |segs| then 1.0 else FirstClose(segs[i + 1]) * ProductOfNextFirst(segs, i + 1)
  }

  /** For positive closes the factor is the telescoped product of all later boundary ratios. */
  lemma {:induction false} FactorTelescopes(segs: seq<Segment>, i: nat)
    requires NonEmpty(segs) && PositiveCloses(segs) && i < |segs|
    ensures Factor(segs, i) * ProductOfLast(segs, i) == ProductOfNextFirst(segs, i)
    decreases |segs| - i
  {
    if i + 1 < |segs| {
      FactorTelescopes(segs, i + 1);
      var a, b := LastClose(segs[i]), FirstClose(segs[i + 1]);
      Regroup(Factor(segs, i + 1), b / a, a, ProductOfLast(segs, i + 1));
      assert (b / a) * a == b;
    }
  }

  lemma Regroup(f: real, q: real, a: real, p: real)
    ensures (f * q) * (a * p) == (q * a) * (f * p)
  {
    assert (f * q) * (a * p) == f * (q * (a * p));
    assert q * (a * p) == (q * a) * p;
    assert f * ((q * a) * p) == (q * a) * (f * p);
  }

  /** The growth inside the segments strictly between segments `i` and `j`. */
  ghost function Growth(segs: seq<Segment>, i: nat, j: nat): real
    requires NonEmpty(segs) && PositiveCloses(segs) && i < j < |segs|
    decreases j
  {
    if j == i + 1 then 1.0
    else Scale(Growth(segs, i, j - 1), Recover(LastClose(segs[j - 1]), FirstClose(segs[j - 1])))
  }

  /** A boundary between segments shows no return: across any number of boundaries the adjusted
      series grows exactly by what the segments between them earned. Where the boundary is a
      roll this removes the gap between two contracts; where it is the last contract's own
      roll date it removes what that contract earned there. */
  lemma {:induction false} BoundariesShowNoReturn(segs: seq<Segment>, i: nat, j: nat)
    requires NonEmpty(segs) && PositiveCloses(segs) && i < j < |segs|
    ensures Scale(Scale(LastClose(segs[i]), Factor(segs, i)), Growth(segs, i, j)) ==
            Scale(FirstClose(segs[j]), Factor(segs, j))
    decreases j
  {
    BoundaryContinuityIff(segs, j - 1);
    if i + 1 == j {
      assert forall x :: Scale(x, 1.0) == x;
    } else {
      BoundariesShowNoReturn(segs, i, j - 1);
      GrowthStep(Scale(LastClose(segs[i]), Factor(segs, i)), Growth(segs, i, j - 1),
                 FirstClose(segs[j - 1]), LastClose(segs[j - 1]), Factor(segs, j - 1));
    }
  }

  lemma GrowthStep(start: real, g: real, first: real, last: real, f: real)
    requires first > 0.0 && Scale(start, g) == Scale(first, f)
    ensures Scale(start, Scale(g, Recover(last, first))) == Scale(last, f)
  {
    var q := last / first;
    assert start * (g * q) == (start * g) * q;
    assert (first * f) * q == (first * q) * f;
    assert first * q == last;
  }

  /** Inside a segment price ratios are those of the contract. */
  lemma RatiosPreserved(segs: seq<Segment>, i: nat, p: real, q: real)
    requires NonEmpty(segs) && i < |segs| && q != 0.0
    ensures Scale(q, Factor(segs, i)) != 0.0
    ensures Scale(p, Factor(segs, i)) / Scale(q, Factor(segs, i)) == p / q
  {
    FactorPositive(segs, i);
    var f := Factor(segs, i);
    assert q * f != 0.0;
    assert (p / q) * (q * f) == ((p / q) * q) * f;
    assert (p / q) * q == p;
  }

  /** Between consecutive candles of one contract the adjusted closes show the contract's own
      return, except across its roll date: there they show none, so only when the contract
      earned none, or a close is not positive and the boundary is skipped, is it kept. */
  lemma ContractReturnKeptIff(contracts: Contracts, e: int, i: nat, c: Candle, j: nat, d: Candle)
    requires DateOrdered(contracts) && NonEmpty(Segments(contracts))
    requires i < |Segments(contracts)| && Segments(contracts)[i].expiry == e && c in Segments(contracts)[i].candles
    requires j < |Segments(contracts)| && Segments(contracts)[j].expiry == e && d in Segments(contracts)[j].candles
    requires c.date < d.date && c.close != 0.0
    requires e in contracts && forall x <- contracts[e] :: !(c.date < x.date < d.date)
    ensures var segs := Segments(contracts);
            && Scale(c.close, Factor(segs, i)) != 0.0
            && (Scale(d.close, Factor(segs, j)) / Scale(c.close, Factor(segs, i)) == d.close / c.close <==>
                !(c.date <= RollDateFor(e) < d.date) || c.close == d.close || c.close <= 0.0 || d.close <= 0.0)
  {
    var segs := Segments(contracts);
    SegmentsOfOneContract(contracts, i, c, j, d);
    RatiosPreserved(segs, i, d.close, c.close);
    if c.date <= RollDateFor(e) < d.date {
      BoundaryCandles(contracts, e, i, c, j, d);
      BoundaryRatio(segs, i);
    }
  }

  /** Consecutive candles around the last contract's roll date are the boundary's own. */
  lemma BoundaryCandles(contracts: Contracts, e: int, i: nat, c: Candle, j: nat, d: Candle)
    requires DateOrdered(contracts) && NonEmpty(Segments(contracts))
    requires i < |Segments(contracts)| && Segments(contracts)[i].expiry == e && c in Segments(contracts)[i].candles
    requires j < |Segments(contracts)| && Segments(contracts)[j].expiry == e && d in Segments(contracts)[j].candles
    requires c.date <= RollDateFor(e) < d.date
    requires e in contracts && forall x <- contracts[e] :: !(c.date < x.date < d.date)
    ensures LastClose(Segments(contracts)[i]) == c.close && FirstClose(Segments(contracts)[j]) == d.close
  {
    SegmentsOfOneContract(contracts, i, c, j, d);
    LastOfWindow(contracts, e, i, c);
    FirstOfTail(contracts, e, j, d);
  }

  lemma LastOfWindow(contracts: Contracts, e: int, i: nat, c: Candle)
    requires i < |Segments(contracts)| && Segments(contracts)[i].expiry == e && c in Segments(contracts)[i].candles
    requires IsWindow(Segments(contracts)[i]) && Windows.Ascending(Segments(contracts)[i].candles)
    requires e in contracts && forall x <- contracts[e] :: !(c.date < x.date <= RollDateFor(e))
    ensures LastClose(Segments(contracts)[i]) == c.close
  {
    var cs := Segments(contracts)[i].candles;
    OwnCandle(contracts, i, cs[|cs| - 1]);
    EndCandles(cs, c);
  }

  lemma FirstOfTail(contracts: Contracts, e: int, j: nat, d: Candle)
    requires j < |Segments(contracts)| && Segments(contracts)[j].expiry == e && d in Segments(contracts)[j].candles
    requires IsTail(Segments(contracts)[j]) && Windows.Ascending(Segments(contracts)[j].candles)
    requires e in contracts && forall x <- contracts[e] :: !(RollDateFor(e) < x.date < d.date)
    ensures FirstClose(Segments(contracts)[j]) == d.close
  {
    var cs := Segments(contracts)[j].candles;
    OwnCandle(contracts, j, cs[0]);
    EndCandles(cs, d);
  }

  lemma EndCandles(cs: seq<Candle>, c: Candle)
    requires Windows.Ascending(cs) && c in cs
    ensures cs[|cs| - 1].date <= c.date ==> cs[|cs| - 1] == c
    ensures cs[0].date >= c.date ==> cs[0] == c
  {
    var k :| 0 <= k < |cs| && cs[k] == c;
  }

  lemma OwnCandle(contracts: Contracts, i: nat, x: Candle)
    requires i < |Segments(contracts)| && x in Segments(contracts)[i].candles
    ensures Segments(contracts)[i].expiry in contracts && x in contracts[Segments(contracts)[i].expiry]
  {
    var s := Segments(contracts)[i];
    assert s in Segments(contracts);
    SeriesFollowsSelector(contracts, s.expiry, x);
  }

  lemma BoundaryRatio(segs: seq<Segment>, i: nat)
    requires NonEmpty(segs) && i + 1 < |segs| && LastClose(segs[i]) != 0.0
    ensures var a, b := LastClose(segs[i]), FirstClose(segs[i + 1]);
            && Scale(a, Factor(segs, i)) != 0.0
            && (Scale(b, Factor(segs, i + 1)) / Scale(a, Factor(segs, i)) == b / a <==> a == b || a <= 0.0 || b <= 0.0)
  {
    var a, b := LastClose(segs[i]), FirstClose(segs[i + 1]);
    RatiosPreserved(segs, i, b, a);
    BoundaryContinuityIff(segs, i);
    if a > 0.0 && b > 0.0 {
      QuotientIsOne(b, a);
      QuotientIsOne(Scale(b, Factor(segs, i + 1)), Scale(a, Factor(segs, i)));
    } else {
      assert Factor(segs, i) == Factor(segs, i + 1) * 1.0 == Factor(segs, i + 1);
    }
  }

  lemma QuotientIsOne(p: real, q: real)
    requires q != 0.0
    ensures p / q == 1.0 <==> p == q
  {
  }

  function OneDay(date: int, close: real): Candle {
    Candle(date, close, close, close, close, None, None, None)
  }

  /** A single contract, no roll at all: it trades at `a` on its roll date and at `b` the day
      after. The series shows the same adjusted close on both days, whatever it earned. */
  lemma LoneContractLosesReturn(e: int, a: real, b: real)
    requires a > 0.0 && b > 0.0
    ensures var contracts := map[e := [OneDay(e - 5, a), OneDay(e - 4, b)]];
            var segs := Segments(contracts);
            && NonEmpty(segs) && |segs| == 2 && segs[0].expiry == segs[1].expiry == e
            && Factor(segs, 0) == b / a
            && Scale(a, Factor(segs, 0)) == Scale(b, Factor(segs, 1)) == b
  {
    var c, d := OneDay(e - 5, a), OneDay(e - 4, b);
    var contracts := map[e := [c, d]];
    LoneSegments(e, c, d);
    assert a * (b / a) == b;
  }

  lemma LoneCuts(c: Candle, d: Candle, roll: int)
    requires c.date <= roll < d.date
    ensures UpTo([c, d], roll) == [c] && After([c, d], roll) == [d]
  {
    assert [c, d][1..] == [d] && [d][1..] == [];
    assert After([d], roll) == [d] + After([d][1..], roll);
    assert UpTo([d], roll) == [] + UpTo([d][1..], roll);
    assert After([c, d], roll) == [] + After([d], roll);
    assert UpTo([c, d], roll) == [c] + UpTo([d], roll);
  }

  lemma LoneSegments(e: int, c: Candle, d: Candle)
    requires c.date <= RollDateFor(e) < d.date
    ensures Segments(map[e := [c, d]]) == [Segment(c.date, RollDateFor(e), e, [c]), Segment(d.date, e, e, [d])]
  {
    var contracts, roll := map[e := [c, d]], RollDateFor(e);
    SortedUnique(contracts.Keys, IntLe, [e]);
    assert Expiries(contracts) == [e] && contracts[e] == [c, d];
    LoneCuts(c, d, roll);
    var ws := AllWindows(contracts, [e]);
    assert ws[0] == Window(contracts, [e], 0) == [c];
    assert CutsTo([e], ws, 1) == CutsTo([e], ws, 0) + Cut(roll, e, [c]);
    assert Segments(contracts) == CutsTo([e], ws, 1) + Cut(e, e, [d]);
  }

  /** A price the documented multiplication does not recover: 100 is adjusted to 110, which
      the factor 1.1 takes to 121, and back to 100 when divided out. */
  lemma MultiplyingDoesNotRecover()
    ensures var segs := Segments(map[100 := [OneDay(95, 100.0), OneDay(96, 110.0)]]);
            && NonEmpty(segs) && |segs| == 2
            && Scale(100.0, Factor(segs, 0)) == 110.0
            && Scale(110.0, Factor(segs, 0)) == 121.0 && Recover(110.0, Factor(segs, 0)) == 100.0
  {
    LoneContractLosesReturn(100, 100.0, 110.0);
  }

  /** Dividing an unrounded adjusted price by its factor gives the original back. The file's
      documentation multiplies instead; that is right exactly for factor 1 and price 0. */
  lemma RecoveryLaw(segs: seq<Segment>, i: nat, p: real)
    requires NonEmpty(segs) && i < |segs|
    ensures Factor(segs, i) > 0.0
    ensures var f := Factor(segs, i);
            Recover(Scale(p, f), f) == p && (Scale(Scale(p, f), f) == p <==> p == 0.0 || f == 1.0)
  {
    FactorPositive(segs, i);
    DocumentedRecovery(p, Factor(segs, i));
  }

  lemma DocumentedRecovery(p: real, f: real)
    requires f > 0.0
    ensures Recover(Scale(p, f), f) == p
    ensures Scale(Scale(p, f), f) == p <==> p == 0.0 || f == 1.0
  {
    var square := f * f;
    assert (p * f) * f == square * p;
    if p != 0.0 {
      Cancel(square, 1.0, p);
    }
    if square == 1.0 {
      assert (f - 1.0) * (f + 1.0) == 0.0;
    }
  }

  function Abs(x: real): real { if x >= 0.0 then x else -x }

  /** From what the table stores, the price to six decimals and the factor to eight, the
      original is recovered up to half a unit of the sixth decimal and, for the factor, half a
      unit of the eighth per unit of price, both over the stored factor. */
  lemma RecoveryError(segs: seq<Segment>, i: nat, p: real)
    requires NonEmpty(segs) && i < |segs| && StoredFactor(Factor(segs, i)) > 0.0
    ensures var f, stored := Factor(segs, i), StoredFactor(Factor(segs, i));
            Abs(Recover(AdjustedPrice(p, f), stored) - p)
            <= Recover(0.5 / PRICE_SCALE + Scale(Abs(p), 0.5 / FACTOR_SCALE), stored)
  {
    var f := Factor(segs, i);
    RoundError(Scale(p, f), PRICE_SCALE);
    RoundError(f, FACTOR_SCALE);
    ErrorOver(p, AdjustedPrice(p, f), f, StoredFactor(f), 0.5 / PRICE_SCALE, 0.5 / FACTOR_SCALE);
  }

  lemma ErrorOver(p: real, adjusted: real, f: real, stored: real, e: real, u: real)
    requires stored > 0.0 && Abs(adjusted - Scale(p, f)) <= e && Abs(stored - f) <= u
    ensures Abs(Recover(adjusted, stored) - p) <= Recover(e + Scale(Abs(p), u), stored)
  {
    ErrorBefore(p, adjusted, f, stored, e, u);
    var off := adjusted - Scale(p, stored);
    RecoverOff(p, adjusted, stored);
    RecoverBound(off, e + Scale(Abs(p), u), stored);
  }

  lemma ErrorBefore(p: real, adjusted: real, f: real, stored: real, e: real, u: real)
    requires Abs(adjusted - Scale(p, f)) <= e && Abs(stored - f) <= u
    ensures Abs(adjusted - Scale(p, stored)) <= e + Scale(Abs(p), u)
  {
    ProductBound(p, f - stored, u);
    assert Scale(p, f) - Scale(p, stored) == p * (f - stored);
  }

  lemma RecoverOff(p: real, adjusted: real, stored: real)
    requires stored > 0.0
    ensures Recover(adjusted - Scale(p, stored), stored) == Recover(adjusted, stored) - p
  {
  }

  lemma RecoverBound(off: real, bound: real, stored: real)
    requires stored > 0.0 && Abs(off) <= bound
    ensures Abs(Recover(off, stored)) <= Recover(bound, stored)
  {
    DivideMonotone(-bound, off, stored);
    DivideMonotone(off, bound, stored);
    assert -bound / stored == -(bound / stored);
  }

  lemma ProductBound(p: real, d: real, u: real)
    requires Abs(d) <= u
    ensures -(Abs(p) * u) <= p * d <= Abs(p) * u
  {
    var q := Abs(p);
    assert q * d <= q * u && q * -d <= q * u;
    assert q * -d == -(q * d) && (p * d == q * d || p * d == -(q * d));
  }

  ghost predicate Sound(low: real, open: real, close: real, high: real) {
    low <= open <= high && low <= close <= high
  }

  /** Scaling and rounding keep a candle's prices in order. */
  lemma RowKeepsPriceOrder(segs: seq<Segment>, i: nat, c: Candle)
    requires NonEmpty(segs) && i < |segs| && Sound(c.low, c.open, c.close, c.high)
    ensures var r := MakeRow(Factor(segs, i), segs[i].expiry, c);
            Sound(r.low, r.open, r.close, r.high)
  {
    FactorPositive(segs, i);
    var f := Factor(segs, i);
    AdjustedOrder(c.low, c.open, f);
    AdjustedOrder(c.low, c.close, f);
    AdjustedOrder(c.open, c.high, f);
    AdjustedOrder(c.close, c.high, f);
  }

  lemma AdjustedOrder(p: real, q: real, f: real)
    requires p <= q && f > 0.0
    ensures AdjustedPrice(p, f) <= AdjustedPrice(q, f)
  {
    assert Scale(p, f) <= Scale(q, f);
    RoundMonotone(Scale(p, f), Scale(q, f), PRICE_SCALE);
  }

  /** The table demands a positive factor; the eight-decimal one stored is positive exactly
      when the true factor exceeds half a unit of the eighth decimal. */
  lemma StoredFactorPositiveIff(segs: seq<Segment>, i: nat, c: Candle)
    requires NonEmpty(segs) && i < |segs|
    ensures MakeRow(Factor(segs, i), segs[i].expiry, c).cumulativeAdj > 0.0 <==> Factor(segs, i) > 0.000000005
  {
    FactorPositive(segs, i);
    RoundPositiveIff(Factor(segs, i), FACTOR_SCALE);
  }

  // ----- what a row shows of its candle

  /** `price` over `factor` is `p`, up to half a unit of the sixth decimal and, per unit of `p`,
      half a unit of the eighth, both over the factor. */
  ghost predicate Recovers(price: real, factor: real, p: real)
    requires factor > 0.0
  {
    Abs(price / factor - p) <= (0.0000005 + Abs(p) * 0.000000005) / factor
  }

  /** An integer column that is missing where the candle's is missing or zero. */
  ghost predicate ShowsUnlessZero(column: Option<int>, v: Option<int>) {
    match v
    case None => column == None
    case Some(n) => if n == 0 then column == None else column == Some(n)
  }

  ghost predicate Shows(r: Row, c: Candle) {
    && r.date == c.date
    && (r.cumulativeAdj > 0.0 ==>
          && Recovers(r.open, r.cumulativeAdj, c.open) && Recovers(r.high, r.cumulativeAdj, c.high)
          && Recovers(r.low, r.cumulativeAdj, c.low) && Recovers(r.close, r.cumulativeAdj, c.close))
    && (if c.volume.Some? then r.volume == c.volume.value else r.volume == 0)
    && ShowsUnlessZero(r.openInterest, c.openInterest) && ShowsUnlessZero(r.oiChange, c.oiChange)
  }

  /** `c` is the candle of the row's contract on the row's day. */
  ghost predicate CandleOf(contracts: Contracts, r: Row, c: Candle) {
    r.expiryInUse in contracts && c in contracts[r.expiryInUse] && c.date == r.date
  }

  lemma PriceRecovers(segs: seq<Segment>, i: nat, p: real)
    requires NonEmpty(segs) && i < |segs| && StoredFactor(Factor(segs, i)) > 0.0
    ensures Recovers(AdjustedPrice(p, Factor(segs, i)), StoredFactor(Factor(segs, i)), p)
  {
    RecoveryError(segs, i, p);
  }

  lemma EmittedRowShows(segs: seq<Segment>, i: nat, c: Candle, r: Row)
    requires NonEmpty(segs) && i < |segs| && Emits(segs, i, c, r)
    ensures Shows(r, c)
  {
    if r.cumulativeAdj > 0.0 {
      PriceRecovers(segs, i, c.open);
      PriceRecovers(segs, i, c.high);
      PriceRecovers(segs, i, c.low);
      PriceRecovers(segs, i, c.close);
    }
  }

  lemma OneCandleADay(cs: seq<Candle>, c: Candle, d: Candle)
    requires Windows.Ascending(cs) && c in cs && d in cs && c.date == d.date
    ensures c == d
  {
    var i :| 0 <= i < |cs| && cs[i] == c;
    var j :| 0 <= j < |cs| && cs[j] == d;
  }

  /** The segment that a row's candle is in. */
  lemma RowIsEmitted(contracts: Contracts, r: Row, c: Candle) returns (i: nat)
    requires DateOrdered(contracts) && r in Series(contracts) && CandleOf(contracts, r, c)
    ensures NonEmpty(Segments(contracts)) && i < |Segments(contracts)| && Emits(Segments(contracts), i, c, r)
  {
    SeriesRows(contracts, r);
    var segs := Segments(contracts);
    var j, d :| 0 <= j < |segs| && Emits(segs, j, d, r) && segs[j].expiry in contracts
                && d in contracts[segs[j].expiry] && InForce(contracts.Keys, d.date, segs[j].expiry);
    OneCandleADay(contracts[r.expiryInUse], c, d);
    i := j;
  }

  /** Every row of the series is that of its contract's candle of the day: each of its four
      prices over the row's factor gives the candle's price of the same name back, and the
      counts are the candle's. */
  lemma RowsShowTheirCandles(contracts: Contracts, r: Row)
    requires DateOrdered(contracts) && r in Series(contracts)
    ensures exists c :: CandleOf(contracts, r, c)
    ensures forall c :: CandleOf(contracts, r, c) ==> Shows(r, c)
  {
    SeriesRows(contracts, r);
    forall c | CandleOf(contracts, r, c) ensures Shows(r, c) {
      var i := RowIsEmitted(contracts, r, c);
      EmittedRowShows(Segments(contracts), i, c, r);
    }
    var segs := Segments(contracts);
    var j, d :| 0 <= j < |segs| && Emits(segs, j, d, r) && segs[j].expiry in contracts
                && d in contracts[segs[j].expiry] && InForce(contracts.Keys, d.date, segs[j].expiry);
    assert CandleOf(contracts, r, d);
  }

  lemma {:induction false} EarlierSegmentsAreEarlier(segs: seq<Segment>, i: nat, c: Candle, j: nat, d: Candle)
    requires Windows.Ascending(Flatten(segs)) && i < j < |segs| && c in segs[i].candles && d in segs[j].candles
    ensures c.date < d.date
    decreases |segs|
  {
    var front, last := segs[..|segs| - 1], segs[|segs| - 1];
    assert Flatten(segs) == Flatten(front) + last.candles;
    if j == |front| {
      InFlatten(front, i, c);
      AscendAcross(Flatten(front), last.candles, c, d);
    } else {
      AscendingPrefix(Flatten(front), last.candles);
      EarlierSegmentsAreEarlier(front, i, c, j, d);
    }
  }

  lemma AscendingPrefix(a: seq<Candle>, b: seq<Candle>)
    requires Windows.Ascending(a + b)
    ensures Windows.Ascending(a)
  {
    assert forall i :: 0 <= i < |a| ==> (a + b)[i] == a[i];
  }

  lemma AscendAcross(a: seq<Candle>, b: seq<Candle>, c: Candle, d: Candle)
    requires Windows.Ascending(a + b) && c in a && d in b
    ensures c.date < d.date
  {
    var i :| 0 <= i < |a| && a[i] == c;
    var j :| 0 <= j < |b| && b[j] == d;
    assert (a + b)[i] == c && (a + b)[|a| + j] == d;
  }

  lemma {:induction false} InFlatten(segs: seq<Segment>, i: nat, c: Candle)
    requires i < |segs| && c in segs[i].candles
    ensures c in Flatten(segs)
  {
    if i < |segs| - 1 {
      InFlatten(segs[..|segs| - 1], i, c);
    }
  }

  /** No row of the series is between the two. */
  ghost predicate NextTo(rows: seq<Row>, r: Row, s: Row) {
    r in rows && s in rows && r.date < s.date && forall x <- rows :: !(r.date < x.date < s.date)
  }

  lemma CandleHasRow(contracts: Contracts, i: nat, c: Candle)
    requires DateOrdered(contracts) && i < |Segments(contracts)| && c in Segments(contracts)[i].candles
    ensures exists r :: r in Series(contracts) && r.date == c.date
  {
    var s := Segments(contracts)[i];
    assert s in Segments(contracts);
    SeriesFollowsSelector(contracts, s.expiry, c);
    SeriesIsComplete(contracts, s.expiry, c);
  }

  ghost predicate NothingBetween(segs: seq<Segment>, from: int, to: int) {
    forall k, x :: 0 <= k < |segs| && x in segs[k].candles ==> !(from < x.date < to)
  }

  /** Candles of different segments with nothing between them are at a boundary. */
  lemma {:induction false} NeighboursMeetAtBoundary(segs: seq<Segment>, i: nat, c: Candle, j: nat, d: Candle)
    requires NonEmpty(segs) && Windows.Ascending(Flatten(segs)) && NothingBetween(segs, c.date, d.date)
    requires i < |segs| && c in segs[i].candles && j < |segs| && d in segs[j].candles && i != j && c.date < d.date
    ensures j == i + 1 && LastClose(segs[i]) == c.close && FirstClose(segs[j]) == d.close
  {
    if j < i {
      EarlierSegmentsAreEarlier(segs, j, d, i, c);
    } else if i + 1 < j {
      var x := segs[i + 1].candles[0];
      EarlierSegmentsAreEarlier(segs, i, c, i + 1, x);
      EarlierSegmentsAreEarlier(segs, i + 1, x, j, d);
    }
    BoundaryEnds(segs, i, c, j, d);
  }

  lemma {:induction false} BoundaryEnds(segs: seq<Segment>, i: nat, c: Candle, j: nat, d: Candle)
    requires NonEmpty(segs) && Windows.Ascending(Flatten(segs)) && NothingBetween(segs, c.date, d.date)
    requires i < j < |segs| && c in segs[i].candles && d in segs[j].candles
    ensures LastClose(segs[i]) == c.close && FirstClose(segs[j]) == d.close
  {
    var before, after := segs[i].candles, segs[j].candles;
    EarlierSegmentsAreEarlier(segs, i, before[|before| - 1], j, d);
    EarlierSegmentsAreEarlier(segs, i, c, j, after[0]);
    SegmentAscends(segs, i);
    SegmentAscends(segs, j);
    EndCandles(before, c);
    EndCandles(after, d);
  }

  lemma NoCandleBetween(contracts: Contracts, r: Row, s: Row)
    requires DateOrdered(contracts) && NextTo(Series(contracts), r, s)
    ensures NothingBetween(Segments(contracts), r.date, s.date)
  {
    var segs := Segments(contracts);
    forall k, x | 0 <= k < |segs| && x in segs[k].candles ensures !(r.date < x.date < s.date) {
      CandleHasRow(contracts, k, x);
    }
  }

  lemma {:induction false} SegmentAscends(segs: seq<Segment>, i: nat)
    requires Windows.Ascending(Flatten(segs)) && i < |segs|
    ensures Windows.Ascending(segs[i].candles)
    decreases |segs|
  {
    var front, last := segs[..|segs| - 1], segs[|segs| - 1];
    assert Flatten(segs) == Flatten(front) + last.candles;
    if i == |front| {
      AscendingSuffix(Flatten(front), last.candles);
    } else {
      AscendingPrefix(Flatten(front), last.candles);
      SegmentAscends(front, i);
    }
  }

  lemma AscendingSuffix(a: seq<Candle>, b: seq<Candle>)
    requires Windows.Ascending(a + b)
    ensures Windows.Ascending(b)
  {
    assert forall i :: 0 <= i < |b| ==> (a + b)[|a| + i] == b[i];
  }

  lemma {:induction false} EmittedNeighboursAgree(segs: seq<Segment>, i: nat, c: Candle, r: Row,
      j: nat, d: Candle, s: Row)
    requires NonEmpty(segs) && Windows.Ascending(Flatten(segs)) && NothingBetween(segs, c.date, d.date)
    requires i < |segs| && Emits(segs, i, c, r) && j < |segs| && Emits(segs, j, d, s) && i != j && c.date < d.date
    requires c.close > 0.0 && d.close > 0.0
    ensures r.close == s.close
  {
    NeighboursMeetAtBoundary(segs, i, c, j, d);
    BoundaryContinuityIff(segs, i);
  }

  lemma PlacesDiffer(contracts: Contracts, i: nat, c: Candle, r: Row, j: nat, d: Candle, s: Row)
    requires DateOrdered(contracts) && NonEmpty(Segments(contracts)) && r.date < s.date
    requires i < |Segments(contracts)| && Emits(Segments(contracts), i, c, r)
    requires j < |Segments(contracts)| && Emits(Segments(contracts), j, d, s)
    requires r.expiryInUse != s.expiryInUse || r.date <= RollDateFor(r.expiryInUse) < s.date
    ensures i != j
  {
    if r.expiryInUse == s.expiryInUse {
      SegmentsOfOneContract(contracts, i, c, j, d);
    }
  }

  /** Where the series goes from one contract to the next, and across the last contract's roll
      date, the rows on both sides show the same close if both candles' closes are positive. */
  lemma {:induction false} RollsShowNoJump(contracts: Contracts, r: Row, c: Candle, s: Row, d: Candle)
    requires DateOrdered(contracts) && NextTo(Series(contracts), r, s)
    requires CandleOf(contracts, r, c) && CandleOf(contracts, s, d) && c.close > 0.0 && d.close > 0.0
    requires r.expiryInUse != s.expiryInUse || r.date <= RollDateFor(r.expiryInUse) < s.date
    ensures r.close == s.close
  {
    var i := RowIsEmitted(contracts, r, c);
    var j := RowIsEmitted(contracts, s, d);
    PlacesDiffer(contracts, i, c, r, j, d, s);
    SeriesAscends(contracts);
    NoCandleBetween(contracts, r, s);
    EmittedNeighboursAgree(Segments(contracts), i, c, r, j, d, s);
  }

  /** Between its roll dates a contract's rows are all adjusted by the same factor. */
  lemma FactorChangesOnlyAtRolls(contracts: Contracts, r: Row, c: Candle, s: Row, d: Candle)
    requires DateOrdered(contracts) && r in Series(contracts) && s in Series(contracts)
    requires CandleOf(contracts, r, c) && CandleOf(contracts, s, d)
    requires r.expiryInUse == s.expiryInUse && r.date < s.date && !(r.date <= RollDateFor(r.expiryInUse) < s.date)
    ensures r.cumulativeAdj == s.cumulativeAdj
  {
    var i := RowIsEmitted(contracts, r, c);
    var j := RowIsEmitted(contracts, s, d);
    SegmentsOfOneContract(contracts, i, c, j, d);
  }

  /** The series ends with prices as they were traded. */
  lemma LatestRowIsUnadjusted(contracts: Contracts, r: Row, c: Candle)
    requires DateOrdered(contracts) && r in Series(contracts) && CandleOf(contracts, r, c)
    requires forall x <- Series(contracts) :: x.date <= r.date
    ensures r.cumulativeAdj == 1.0 && Abs(r.close - c.close) <= 0.0000005
  {
    var segs := Segments(contracts);
    var i := RowIsEmitted(contracts, r, c);
    if i + 1 < |segs| {
      var x := segs[i + 1].candles[0];
      SeriesAscends(contracts);
      EarlierSegmentsAreEarlier(segs, i, c, i + 1, x);
      CandleHasRow(contracts, i + 1, x);
    }
    assert Scale(c.close, 1.0) == c.close;
    RoundError(c.close, PRICE_SCALE);
  }
}
