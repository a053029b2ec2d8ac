/** Cutting the per-contract candle lists into the segments of a continuous series. */
module Windows {
  import opened Collections
  import opened SortedKeys

  const ROLL_DAYS_BEFORE_EXPIRY := 5

  datatype Candle = Candle(date: int, open: real, high: real, low: real, close: real,
                           volume: Option<int>, openInterest: Option<int>, oiChange: Option<int>)

  datatype Segment = Segment(start: int, roll: int, expiry: int, candles: seq<Candle>)

  /** Candle lists by expiry day. */
  type Contracts = map<int, seq<Candle>>

  function RollDateFor(expiry: int): int { expiry - ROLL_DAYS_BEFORE_EXPIRY }

  function After(cs: seq<Candle>, d: int): seq<Candle> {
    if cs == [] then [] else (if cs[0].date > d then [cs[0]] else []) + After(cs[1..], d)
  }

  function UpTo(cs: seq<Candle>, d: int): seq<Candle> {
    if cs == [] then [] else (if cs[0].date <= d then [cs[0]] else []) + UpTo(cs[1..], d)
  }

  function Expiries(contracts: Contracts): seq<int> { Sorted(contracts.Keys, IntLe) }

  // ----- what the windowing loop builds

  ghost predicate Known(contracts: Contracts, es: seq<int>) {
    forall i :: 0 <= i < |es| ==> es[i] in contracts
  }

  function PrevRoll(es: seq<int>, i: nat): Option<int>
    requires i <= |es|
  {
    if i == 0 then None else Some(RollDateFor(es[i - 1]))
  }

  /** The candles after the previous roll date, if there is one, up to this roll date. */
  function Cutout(candles: seq<Candle>, prevRoll: Option<int>, roll: int): seq<Candle> {
    UpTo(if prevRoll.Some? then After(candles, prevRoll.value) else candles, roll)
  }

  ghost function Window(contracts: Contracts, es: seq<int>, i: nat): seq<Candle>
    requires i < |es| && es[i] in contracts
  {
    Cutout(contracts[es[i]], PrevRoll(es, i), RollDateFor(es[i]))
  }

  ghost function Cut(roll: int, expiry: int, candles: seq<Candle>): seq<Segment> {
    if candles == [] then [] else [Segment(candles[0].date, roll, expiry, candles)]
  }

  ghost function AllWindows(contracts: Contracts, es: seq<int>): (ws: seq<seq<Candle>>)
    requires Known(contracts, es)
    ensures |ws| == |es| && forall i :: 0 <= i < |es| ==> ws[i] == Window(contracts, es, i)
  {
    seq(|es|, i requires 0 <= i < |es| => Window(contracts, es, i))
  }

  /** One segment for each of the first `n` windows that is not empty. */
  ghost function CutsTo(es: seq<int>, ws: seq<seq<Candle>>, n: nat): seq<Segment>
    requires n <= |es| == |ws|
  {
    if n == 0 then [] else CutsTo(es, ws, n - 1) + Cut(RollDateFor(es[n - 1]), es[n - 1], ws[n - 1])
  }

  ghost function WindowCuts(contracts: Contracts, es: seq<int>): seq<Segment>
    requires Known(contracts, es)
  {
    CutsTo(es, AllWindows(contracts, es), |es|)
  }

  ghost function CutSegments(es: seq<int>, ws: seq<seq<Candle>>, tail: seq<Candle>): seq<Segment>
    requires 0 < |es| == |ws|
  {
    CutsTo(es, ws, |es|) + Cut(es[|es| - 1], es[|es| - 1], tail)
  }

  /** All windows, then what the last contract trades after its own roll date. */
  ghost function Segments(contracts: Contracts): seq<Segment> {
    var es := Expiries(contracts);
    if es == [] then []
    else
      var last := es[|es| - 1];
      CutSegments(es, AllWindows(contracts, es), After(contracts[last], RollDateFor(last)))
  }

  method BuildWindows(contracts: Contracts, es: seq<int>) returns (segments: seq<Segment>)
    requires Known(contracts, es)
    ensures segments == WindowCuts(contracts, es)
  {
    segments := CutWindows(contracts, es, AllWindows(contracts, es));
  }

  /** The contract's candles of its window; a segment of them unless there are none. */
  method CutOne(all: seq<Candle>, prevRoll: Option<int>, roll: int, expiry: int) returns (cut: seq<Segment>)
    ensures cut == Cut(roll, expiry, Cutout(all, prevRoll, roll))
  {
    var candles := all;
    if prevRoll.Some? {
      candles := After(candles, prevRoll.value);
    }
    candles := UpTo(candles, roll);
    cut := if candles == [] then [] else [Segment(candles[0].date, roll, expiry, candles)];
  }

  /** The loop over the contracts, carrying the previous roll date. */
  method CutWindows(contracts: Contracts, es: seq<int>, ghost ws: seq<seq<Candle>>) returns (segments: seq<Segment>)
    requires Known(contracts, es) && |ws| == |es|
    requires forall i :: 0 <= i < |es| ==> ws[i] == Window(contracts, es, i)
    ensures segments == CutsTo(es, ws, |es|)
  {
    segments := [];
    var prevRoll: Option<int> := None;
    for i := 0 to |es|
      invariant segments == CutsTo(es, ws, i) && prevRoll == PrevRoll(es, i)
    {
      var roll := RollDateFor(es[i]);
      var cut := CutOne(contracts[es[i]], prevRoll, roll, es[i]);
      segments := segments + cut;
      prevRoll := Some(roll);
    }
  }

  method BuildSegments(contracts: Contracts) returns (segments: seq<Segment>)
    ensures segments == Segments(contracts)
  {
    var es := Expiries(contracts);
    if es == [] { return []; }
    segments := BuildWindows(contracts, es);
    var last := es[|es| - 1];
    var tail := After(contracts[last], RollDateFor(last));
    if tail != [] {
      segments := segments + [Segment(tail[0].date, last, last, tail)];
    }
  }

  // ----- the selector that the loop refines

  /** On day `d` the series follows the nearest contract that has not rolled yet, or the
      last one when all have. */
  ghost predicate InForce(expiries: set<int>, d: int, e: int) {
    && e in expiries
    && if exists x <- expiries :: RollDateFor(x) >= d
       then RollDateFor(e) >= d && forall x <- expiries :: RollDateFor(x) >= d ==> e <= x
       else forall x <- expiries :: x <= e
  }

  /** Every day has exactly one contract in force. */
  lemma OneContractInForce(contracts: Contracts, d: int) returns (e: int)
    requires contracts != map[]
    ensures forall x :: InForce(contracts.Keys, d, x) <==> x == e
  {
    var pending := set x | x in contracts.Keys && RollDateFor(x) >= d;
    if pending != {} {
      e := Least(pending, IntLe);
      assert e in pending;
      forall x | x in contracts.Keys && RollDateFor(x) >= d ensures e <= x {
        assert x in pending;
      }
    } else {
      forall x | x in contracts.Keys ensures RollDateFor(x) < d {
        assert x !in pending;
      }
      e := Least(contracts.Keys, (a, b) => b <= a);
    }
  }

  ghost predicate Ascending(cs: seq<Candle>) {
    forall i, j :: 0 <= i < j < |cs| ==> cs[i].date < cs[j].date
  }

  /** The candles of all segments in order. */
  ghost function Flatten(segments: seq<Segment>): seq<Candle> {
    if segments == [] then [] else Flatten(segments[..|segments| - 1]) + segments[|segments| - 1].candles
  }

  ghost predicate Serves(segments: seq<Segment>, e: int, c: Candle) {
    exists s <- segments :: s.expiry == e && c in s.candles
  }

  lemma {:induction false} AfterIs(cs: seq<Candle>, d: int)
    ensures forall c :: c in After(cs, d) <==> c in cs && c.date > d
    ensures Ascending(cs) ==> Ascending(After(cs, d))
  {
    if cs != [] {
      AfterIs(cs[1..], d);
      assert cs == [cs[0]] + cs[1..];
      assert Ascending(cs) ==> forall c <- cs[1..] :: cs[0].date < c.date;
    }
  }

  lemma {:induction false} UpToIs(cs: seq<Candle>, d: int)
    ensures forall c :: c in UpTo(cs, d) <==> c in cs && c.date <= d
    ensures Ascending(cs) ==> Ascending(UpTo(cs, d))
  {
    if cs != [] {
      UpToIs(cs[1..], d);
      assert cs == [cs[0]] + cs[1..];
      assert Ascending(cs) ==> forall c <- cs[1..] :: cs[0].date < c.date;
    }
  }

  lemma WindowIs(contracts: Contracts, es: seq<int>, i: nat)
    requires i < |es| && es[i] in contracts
    ensures forall c :: c in Window(contracts, es, i) <==>
              && c in contracts[es[i]] && c.date <= RollDateFor(es[i])
              && (i > 0 ==> c.date > RollDateFor(es[i - 1]))
    ensures Ascending(contracts[es[i]]) ==> Ascending(Window(contracts, es, i))
  {
    var all := contracts[es[i]];
    if i > 0 {
      AfterIs(all, RollDateFor(es[i - 1]));
      UpToIs(After(all, RollDateFor(es[i - 1])), RollDateFor(es[i]));
    } else {
      UpToIs(all, RollDateFor(es[i]));
    }
  }

  lemma ServesCut(front: seq<Segment>, roll: int, expiry: int, candles: seq<Candle>, e: int, c: Candle)
    ensures Serves(front + Cut(roll, expiry, candles), e, c) <==> Serves(front, e, c) || (e == expiry && c in candles)
  {
    ServesAppend(front, Cut(roll, expiry, candles), e, c);
    CutServes(roll, expiry, candles, e, c);
  }

  ghost predicate InWindow(es: seq<int>, ws: seq<seq<Candle>>, i: int, e: int, c: Candle)
    requires 0 <= i < |es| == |ws|
  {
    es[i] == e && c in ws[i]
  }

  lemma {:induction false} CutsServe(es: seq<int>, ws: seq<seq<Candle>>, n: nat, e: int, c: Candle)
    requires n <= |es| == |ws|
    ensures Serves(CutsTo(es, ws, n), e, c) <==> exists i :: 0 <= i < n && InWindow(es, ws, i, e, c)
  {
    if n > 0 {
      CutsServe(es, ws, n - 1, e, c);
      ServesCut(CutsTo(es, ws, n - 1), RollDateFor(es[n - 1]), es[n - 1], ws[n - 1], e, c);
      assert Serves(CutsTo(es, ws, n), e, c) <==> Serves(CutsTo(es, ws, n - 1), e, c) || InWindow(es, ws, n - 1, e, c);
    }
  }

  lemma ServesAppend(a: seq<Segment>, b: seq<Segment>, e: int, c: Candle)
    ensures Serves(a + b, e, c) <==> Serves(a, e, c) || Serves(b, e, c)
  {
  }

  lemma CutServes(roll: int, expiry: int, candles: seq<Candle>, e: int, c: Candle)
    ensures Serves(Cut(roll, expiry, candles), e, c) <==> e == expiry && c in candles
  {
    if candles != [] {
      assert Cut(roll, expiry, candles)[0] in Cut(roll, expiry, candles);
    }
  }

  lemma SelectorAt(keys: set<int>, es: seq<int>, i: nat, d: int)
    requires forall j, k :: 0 <= j < k < |es| ==> es[j] < es[k]
    requires keys == Elements(es) && i < |es| && d <= RollDateFor(es[i])
    ensures InForce(keys, d, es[i]) <==> i == 0 || d > RollDateFor(es[i - 1])
  {
    assert es[i] in keys && RollDateFor(es[i]) >= d;
    if i > 0 && d <= RollDateFor(es[i - 1]) {
      assert es[i - 1] in keys && es[i - 1] < es[i];
    } else {
      forall x | x in keys && RollDateFor(x) >= d ensures es[i] <= x {
        var j :| 0 <= j < |es| && es[j] == x;
      }
    }
  }

  /** The window a candle of contract `i` falls into, in terms of the selector. */
  lemma WindowIsSelector(contracts: Contracts, i: nat, c: Candle)
    requires i < |Expiries(contracts)|
    ensures var es := Expiries(contracts);
            c in Window(contracts, es, i) <==>
            && c in contracts[es[i]] && c.date <= RollDateFor(es[i])
            && InForce(contracts.Keys, c.date, es[i])
  {
    var es := Expiries(contracts);
    WindowIs(contracts, es, i);
    assert contracts.Keys == Elements(es);
    if c.date <= RollDateFor(es[i]) {
      SelectorAt(contracts.Keys, es, i, c.date);
    }
  }

  lemma WindowsFollowSelector(contracts: Contracts, e: int, c: Candle)
    ensures Serves(WindowCuts(contracts, Expiries(contracts)), e, c) <==>
            e in contracts && c in contracts[e] && c.date <= RollDateFor(e) && InForce(contracts.Keys, c.date, e)
  {
    var es := Expiries(contracts);
    var ws := AllWindows(contracts, es);
    CutsServe(es, ws, |es|, e, c);
    if Serves(WindowCuts(contracts, es), e, c) {
      var i :| 0 <= i < |es| && InWindow(es, ws, i, e, c);
      WindowIsSelector(contracts, i, c);
    } else if e in contracts.Keys {
      var i :| 0 <= i < |es| && es[i] == e;
      assert !InWindow(es, ws, i, e, c);
      WindowIsSelector(contracts, i, c);
    }
  }

  /** What the last contract trades after its roll date belongs to the tail. */
  lemma TailIsSelector(contracts: Contracts, c: Candle)
    requires Expiries(contracts) != []
    ensures var es := Expiries(contracts);
            var last := es[|es| - 1];
            c in After(contracts[last], RollDateFor(last)) <==>
            && c in contracts[last] && c.date > RollDateFor(last) && InForce(contracts.Keys, c.date, last)
  {
    var es := Expiries(contracts);
    var last := es[|es| - 1];
    AfterIs(contracts[last], RollDateFor(last));
    forall x | x in contracts.Keys ensures x <= last {
      var j :| 0 <= j < |es| && es[j] == x;
    }
  }

  lemma LateCandleNeedsLast(contracts: Contracts, e: int, c: Candle)
    requires e in contracts && c.date > RollDateFor(e) && InForce(contracts.Keys, c.date, e)
    ensures var es := Expiries(contracts); e == es[|es| - 1]
  {
    var es := Expiries(contracts);
    assert es[|es| - 1] in contracts.Keys;
    var j :| 0 <= j < |es| && es[j] == e;
  }

  /** A candle appears in the series under contract `e` exactly when it belongs to `e` and
      `e` is the contract in force on its day. */
  lemma SeriesFollowsSelector(contracts: Contracts, e: int, c: Candle)
    ensures Serves(Segments(contracts), e, c) <==>
            e in contracts && c in contracts[e] && InForce(contracts.Keys, c.date, e)
  {
    var es := Expiries(contracts);
    if es == [] {
      assert e !in contracts.Keys;
    } else {
      var last := es[|es| - 1];
      var tail := After(contracts[last], RollDateFor(last));
      ServesAppend(WindowCuts(contracts, es), Cut(last, last, tail), e, c);
      CutServes(last, last, tail, e, c);
      TailIsSelector(contracts, c);
      WindowsFollowSelector(contracts, e, c);
      if e in contracts && c.date > RollDateFor(e) && InForce(contracts.Keys, c.date, e) {
        LateCandleNeedsLast(contracts, e, c);
      }
    }
  }

  lemma FlattenAppend(a: seq<Segment>, roll: int, expiry: int, candles: seq<Candle>)
    ensures Flatten(a + Cut(roll, expiry, candles)) == Flatten(a) + candles
  {
    var cut := Cut(roll, expiry, candles);
    if candles == [] {
      assert a + cut == a;
    } else {
      assert (a + cut)[..|a + cut| - 1] == a;
    }
  }

  ghost predicate AllBy(cs: seq<Candle>, d: int) { forall i :: 0 <= i < |cs| ==> cs[i].date <= d }

  lemma AscendAppend(a: seq<Candle>, b: seq<Candle>, d: int, e: int)
    requires Ascending(a) && Ascending(b) && AllBy(a, d) && d <= e
    requires forall c <- b :: c.date <= e && (a != [] ==> d < c.date)
    ensures Ascending(a + b) && AllBy(a + b, e)
  {
  }

  /** A window in date order that ends by its roll date and starts after the one before. */
  ghost predicate Fits(es: seq<int>, i: nat, window: seq<Candle>)
    requires i < |es|
  {
    && Ascending(window) && AllBy(window, RollDateFor(es[i]))
    && (i > 0 ==> forall c <- window :: c.date > RollDateFor(es[i - 1]))
  }

  ghost predicate WellCut(es: seq<int>, ws: seq<seq<Candle>>) {
    && |es| == |ws|
    && (forall i, j :: 0 <= i < j < |es| ==> es[i] < es[j])
    && (forall i :: 0 <= i < |es| ==> Fits(es, i, ws[i]))
  }

  lemma WindowFits(contracts: Contracts, es: seq<int>, i: nat)
    requires i < |es| && es[i] in contracts && Ascending(contracts[es[i]])
    ensures Fits(es, i, Window(contracts, es, i))
  {
    WindowIs(contracts, es, i);
  }

  lemma WindowsAreWellCut(contracts: Contracts)
    requires forall e <- contracts :: Ascending(contracts[e])
    ensures WellCut(Expiries(contracts), AllWindows(contracts, Expiries(contracts)))
  {
    var es := Expiries(contracts);
    forall i | 0 <= i < |es| ensures Fits(es, i, AllWindows(contracts, es)[i]) {
      assert es[i] in es;
      WindowFits(contracts, es, i);
    }
  }

  /** The candles so far are in order and end by roll date `d`. */
  ghost predicate EndsBy(cs: seq<Candle>, d: int) { Ascending(cs) && AllBy(cs, d) }

  lemma NextWindowAscends(es: seq<int>, i: nat, before: seq<Candle>, window: seq<Candle>)
    requires i < |es| && Fits(es, i, window)
    requires if i == 0 then before == [] else es[i - 1] < es[i] && EndsBy(before, RollDateFor(es[i - 1]))
    ensures EndsBy(before + window, RollDateFor(es[i]))
  {
    AscendAppend(before, window, if i == 0 then RollDateFor(es[0]) else RollDateFor(es[i - 1]), RollDateFor(es[i]));
  }

  lemma {:induction false} CutsAscend(es: seq<int>, ws: seq<seq<Candle>>, n: nat)
    requires 0 < n <= |es| && WellCut(es, ws)
    ensures EndsBy(Flatten(CutsTo(es, ws, n)), RollDateFor(es[n - 1]))
  {
    var before := Flatten(CutsTo(es, ws, n - 1));
    if n > 1 {
      CutsAscend(es, ws, n - 1);
    }
    NextWindowAscends(es, n - 1, before, ws[n - 1]);
    FlattenAppend(CutsTo(es, ws, n - 1), RollDateFor(es[n - 1]), es[n - 1], ws[n - 1]);
  }

  lemma LatestDate(cs: seq<Candle>, d: int) returns (e: int)
    ensures d <= e && AllBy(cs, e)
  {
    e := d;
    for i := 0 to |cs|
      invariant d <= e && forall j :: 0 <= j < i ==> cs[j].date <= e
    {
      e := if cs[i].date > e then cs[i].date else e;
    }
  }

  ghost predicate Late(es: seq<int>, tail: seq<Candle>)
    requires es != []
  {
    Ascending(tail) && forall c <- tail :: c.date > RollDateFor(es[|es| - 1])
  }

  lemma TailIsLate(contracts: Contracts, es: seq<int>)
    requires es != [] && es[|es| - 1] in contracts && Ascending(contracts[es[|es| - 1]])
    ensures Late(es, After(contracts[es[|es| - 1]], RollDateFor(es[|es| - 1])))
  {
    AfterIs(contracts[es[|es| - 1]], RollDateFor(es[|es| - 1]));
  }

  /** What the segments are cut from. */
  lemma Pieces(contracts: Contracts) returns (es: seq<int>, ws: seq<seq<Candle>>, tail: seq<Candle>)
    requires Segments(contracts) != [] && forall e <- contracts :: Ascending(contracts[e])
    ensures es != [] && WellCut(es, ws) && Late(es, tail) && Segments(contracts) == CutSegments(es, ws, tail)
  {
    es := Expiries(contracts);
    ws, tail := AllWindows(contracts, es), After(contracts[es[|es| - 1]], RollDateFor(es[|es| - 1]));
    assert Segments(contracts) == CutSegments(es, ws, tail);
    WindowsAreWellCut(contracts);
    assert es[|es| - 1] in es;
    TailIsLate(contracts, es);
  }

  lemma TailAscends(es: seq<int>, ws: seq<seq<Candle>>, tail: seq<Candle>)
    requires es != [] && WellCut(es, ws) && Late(es, tail)
    ensures Ascending(Flatten(CutSegments(es, ws, tail)))
  {
    var windows, last := CutsTo(es, ws, |es|), es[|es| - 1];
    CutsAscend(es, ws, |es|);
    FlattenAppend(windows, last, last, tail);
    var end := LatestDate(tail, RollDateFor(last));
    AscendAppend(Flatten(windows), tail, RollDateFor(last), end);
  }

  /** With date-ordered contracts the segments are already in strictly ascending date
      order: no two candles of the series share a day. */
  lemma SeriesAscends(contracts: Contracts)
    requires forall e <- contracts :: Ascending(contracts[e])
    ensures Ascending(Flatten(Segments(contracts)))
  {
    if Segments(contracts) != [] {
      var es, ws, tail := Pieces(contracts);
      TailAscends(es, ws, tail);
    }
  }

  // ----- which segments belong to one contract

  ghost predicate IsWindow(s: Segment) { forall c <- s.candles :: c.date <= RollDateFor(s.expiry) }

  ghost predicate IsTail(s: Segment) { forall c <- s.candles :: c.date > RollDateFor(s.expiry) }

  /** Windows of strictly later contracts, each in date order. */
  ghost predicate AreWindows(windows: seq<Segment>) {
    && (forall i :: 0 <= i < |windows| ==> IsWindow(windows[i]) && Ascending(windows[i].candles))
    && (forall i, j :: 0 <= i < j < |windows| ==> windows[i].expiry < windows[j].expiry)
  }

  lemma {:induction false} CutsAreWindows(es: seq<int>, ws: seq<seq<Candle>>, n: nat)
    requires n <= |es| && WellCut(es, ws)
    ensures AreWindows(CutsTo(es, ws, n))
    ensures forall s <- CutsTo(es, ws, n) :: n > 0 && s.expiry <= es[n - 1]
  {
    if n > 0 {
      CutsAreWindows(es, ws, n - 1);
      assert Fits(es, n - 1, ws[n - 1]);
      OneMoreIsWindows(CutsTo(es, ws, n - 1), es[n - 1], ws[n - 1]);
    }
  }

  lemma OneMoreIsWindows(windows: seq<Segment>, expiry: int, candles: seq<Candle>)
    requires AreWindows(windows) && forall w <- windows :: w.expiry < expiry
    requires Ascending(candles) && AllBy(candles, RollDateFor(expiry))
    ensures AreWindows(windows + Cut(RollDateFor(expiry), expiry, candles))
  {
  }

  /** The first `n` segments are windows of different contracts; a segment after them is the
      tail of a contract that no window's contract outlives. */
  ghost predicate Shaped(segs: seq<Segment>, n: nat) {
    && n <= |segs| <= n + 1 && AreWindows(segs[..n])
    && (n < |segs| ==> IsTail(segs[n]) && Ascending(segs[n].candles)
                       && forall i :: 0 <= i < n ==> segs[i].expiry <= segs[n].expiry)
  }

  lemma CutsAreShaped(es: seq<int>, ws: seq<seq<Candle>>, tail: seq<Candle>)
    requires es != [] && WellCut(es, ws) && Late(es, tail)
    ensures Shaped(CutSegments(es, ws, tail), |CutsTo(es, ws, |es|)|)
  {
    var windows := CutsTo(es, ws, |es|);
    CutsAreWindows(es, ws, |es|);
    assert CutSegments(es, ws, tail)[..|windows|] == windows;
  }

  lemma SegmentsAreShaped(contracts: Contracts) returns (n: nat)
    requires forall e <- contracts :: Ascending(contracts[e])
    ensures Shaped(Segments(contracts), n)
  {
    n := 0;
    if Segments(contracts) != [] {
      var es, ws, tail := Pieces(contracts);
      CutsAreShaped(es, ws, tail);
      n := |CutsTo(es, ws, |es|)|;
    }
  }

  lemma ShapedAt(segs: seq<Segment>, n: nat, i: nat, c: Candle)
    requires Shaped(segs, n) && i < |segs| && c in segs[i].candles
    ensures Ascending(segs[i].candles)
    ensures if c.date <= RollDateFor(segs[i].expiry) then i < n && IsWindow(segs[i]) else i == n && IsTail(segs[i])
  {
    if i < n {
      assert segs[..n][i] == segs[i];
    }
  }

  lemma WindowsDiffer(segs: seq<Segment>, n: nat, i: nat, j: nat)
    requires Shaped(segs, n) && i < j < n
    ensures segs[i].expiry < segs[j].expiry
  {
    assert segs[..n][i] == segs[i] && segs[..n][j] == segs[j];
  }

  /** Two candles of one contract are in one segment, unless the contract rolls between
      them: then they are in the last two. */
  lemma SegmentsOfOneContract(contracts: Contracts, i: nat, c: Candle, j: nat, d: Candle)
    requires forall e <- contracts :: Ascending(contracts[e])
    requires i < |Segments(contracts)| && j < |Segments(contracts)|
    requires c in Segments(contracts)[i].candles && d in Segments(contracts)[j].candles
    requires Segments(contracts)[i].expiry == Segments(contracts)[j].expiry && c.date < d.date
    ensures Ascending(Segments(contracts)[i].candles) && Ascending(Segments(contracts)[j].candles)
    ensures var segs := Segments(contracts);
            var roll := RollDateFor(segs[i].expiry);
            if c.date <= roll < d.date then j == i + 1 == |segs| - 1 && IsWindow(segs[i]) && IsTail(segs[j]) else i == j
  {
    var n := SegmentsAreShaped(contracts);
    PlacesOfOneContract(Segments(contracts), n, i, c, j, d);
  }

  lemma PlacesOfOneContract(segs: seq<Segment>, n: nat, i: nat, c: Candle, j: nat, d: Candle)
    requires Shaped(segs, n) && i < |segs| && j < |segs| && c in segs[i].candles && d in segs[j].candles
    requires segs[i].expiry == segs[j].expiry && c.date < d.date
    ensures Ascending(segs[i].candles) && Ascending(segs[j].candles)
    ensures var roll := RollDateFor(segs[i].expiry);
            if c.date <= roll < d.date then j == i + 1 == |segs| - 1 && IsWindow(segs[i]) && IsTail(segs[j]) else i == j
  {
    ShapedAt(segs, n, i, c);
    ShapedAt(segs, n, j, d);
    if i < n && j < n && i != j {
      WindowsDiffer(segs, n, if i < j then i else j, if i < j then j else i);
    } else if i < n - 1 && j == n {
      WindowsDiffer(segs, n, i, n - 1);
    }
  }

  ghost predicate NonEmpty(segments: seq<Segment>) {
    forall i :: 0 <= i < |segments| ==> segments[i].candles != []
  }

  lemma {:induction false} CutsNonEmpty(es: seq<int>, ws: seq<seq<Candle>>, n: nat)
    requires n <= |es| == |ws|
    ensures NonEmpty(CutsTo(es, ws, n))
  {
    if n > 0 {
      CutsNonEmpty(es, ws, n - 1);
    }
  }

  lemma SegmentsNonEmpty(contracts: Contracts)
    ensures NonEmpty(Segments(contracts))
  {
    var es := Expiries(contracts);
    CutsNonEmpty(es, AllWindows(contracts, es), |es|);
  }
}
