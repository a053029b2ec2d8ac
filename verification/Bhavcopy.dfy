/** Candidate days of a bhavcopy load and their split at the change of file format. */
module TradingDates {
  import opened ExpiryDates

  // proleptic Gregorian ordinals; day 1 is a Monday
  const LAST_LEGACY_DAY := 738885   // 2023-12-31
  const NEW_FORMAT_START := 738886  // 2024-01-01

  function Weekday(day: int): int { (day + 6) % 7 }

  /** The days of an ISO week are Monday, 0, to Sunday, 6; 1 January 2024, a Monday, is the
      first day in the new format. */
  lemma WeekdayIsIso(year: int, week: int, day: int)
    requires WeekDay(year, week, day).Some?
    ensures Weekday(WeekDay(year, week, day).value) == day - 1
    ensures Weekday(NEW_FORMAT_START) == 0 && LAST_LEGACY_DAY + 1 == NEW_FORMAT_START == Ordinal(2024, 1, 1)
  {
    WeeksBetween(Ordinal(year, 1, 1), Ordinal(year, 1, 1) + 365);
    DayOfWeek(FirstMonday(year), week - 1, day - 1);
  }

  lemma DayOfWeek(monday: int, weeks: int, days: int)
    requires monday % 7 == 1 && 0 <= days < 7
    ensures Weekday(monday + 7 * weeks + days) == days
  {
  }

  ghost function WeekdaysIn(first: int, last: int): seq<int>
    decreases last - first
  {
    if first > last then [] else WeekdaysIn(first, last - 1) + if Weekday(last) < 5 then [last] else []
  }

  method TradingDates(first: int, last: int) returns (out: seq<int>)
    ensures out == WeekdaysIn(first, last)
  {
    var cur := first;
    out := [];
    while cur <= last
      invariant first <= cur && (cur <= last + 1 || cur == first) && out == WeekdaysIn(first, cur - 1)
      decreases last - cur
    {
      if Weekday(cur) < 5 {
        out := out + [cur];
      }
      cur := cur + 1;
    }
  }

  /** The days of a range are its weekdays, ascending. */
  lemma {:induction false} WeekdaysAre(first: int, last: int)
    ensures forall d :: d in WeekdaysIn(first, last) <==> first <= d <= last && Weekday(d) < 5
    ensures forall i, j :: 0 <= i < j < |WeekdaysIn(first, last)| ==>
              WeekdaysIn(first, last)[i] < WeekdaysIn(first, last)[j]
    decreases last - first
  {
    if first <= last {
      WeekdaysAre(first, last - 1);
      var front := WeekdaysIn(first, last - 1);
      assert forall i :: 0 <= i < |front| ==> front[i] in front;
    }
  }

  lemma {:induction false} WeekdaysJoin(first: int, mid: int, last: int)
    requires first <= mid + 1 && mid <= last
    ensures WeekdaysIn(first, mid) + WeekdaysIn(mid + 1, last) == WeekdaysIn(first, last)
    decreases last - mid
  {
    var front := WeekdaysIn(first, mid);
    if mid < last {
      WeekdaysJoin(first, mid, last - 1);
      var end := if Weekday(last) < 5 then [last] else [];
      assert front + (WeekdaysIn(mid + 1, last - 1) + end) == (front + WeekdaysIn(mid + 1, last - 1)) + end;
    } else {
      assert front + [] == front;
    }
  }

  /** The two work lists partition the range: nothing is fetched twice or left out. */
  method SplitDates(first: int, last: int) returns (legacy: seq<int>, newDays: seq<int>)
    ensures legacy + newDays == WeekdaysIn(first, last)
    ensures forall d <- legacy :: d < NEW_FORMAT_START
    ensures forall d <- newDays :: d >= NEW_FORMAT_START
  {
    var legacyEnd := if last <= LAST_LEGACY_DAY then last else LAST_LEGACY_DAY;
    var newStart := if first >= NEW_FORMAT_START then first else NEW_FORMAT_START;
    legacy, newDays := [], [];
    if first <= legacyEnd {
      legacy := TradingDates(first, legacyEnd);
      WeekdaysAre(first, legacyEnd);
    }
    if newStart <= last {
      newDays := TradingDates(newStart, last);
      WeekdaysAre(newStart, last);
    }
    if first <= legacyEnd && newStart <= last {
      WeekdaysJoin(first, legacyEnd, last);
    }
  }
}

/** The two row parsers. A row's cells are read by column name; a numeric cell either
    converts to a number or raises. */
module BhavcopyParsers {
  import opened Collections
  import opened ExpiryDates
  import opened Rounding
  import opened Symbols

  datatype Number = Value(v: real) | Malformed

  datatype RawRow = RawRow(texts: map<string, string>, numbers: map<string, Number>)

  datatype Candle = Candle(symbol: Symbol, date: int, open: real, high: real, low: real, close: real,
                           volume: int, oi: int, oiChange: int, turnover: real, expiry: int)

  datatype OptionCandle = OptionCandle(base: Candle, strike: real, optionType: string)

  datatype Parsed = Skip | Fut(f: Candle) | Opt(o: OptionCandle)

  datatype Request = Request(date: int, loadFutures: bool, loadOptions: bool, symbolFilter: Option<string>)

  /** `row.get(col, "")` */
  function Text(r: RawRow, col: string): string { if col in r.texts then r.texts[col] else "" }

  /** `float(row.get(col, 0) or 0)` */
  function Num(r: RawRow, col: string): Number { if col in r.numbers then r.numbers[col] else Value(0.0) }

  /** `int(float(...))` truncates towards zero. */
  function Trunc(x: real): int { if x >= 0.0 then x.Floor else -(-x).Floor }

  function Max4(a: real, b: real, c: real, d: real): real {
    var m := if a >= b then a else b;
    var n := if c >= d then c else d;
    if m >= n then m else n
  }

  function Min4(a: real, b: real, c: real, d: real): real {
    var m := if a <= b then a else b;
    var n := if c <= d then c else d;
    if m <= n then m else n
  }

  // ----- what one row means, given the names of its columns

  datatype Schema = Schema(kind: string, symbol: string, expiry: string, strike: string, optionType: string,
                           open: string, high: string, low: string, close: string, settle: string,
                           volume: string, oi: string, oiChange: string, turnover: string,
                           futures: set<string>, options: set<string>, turnoverUnit: real)

  const NEW := Schema("FinInstrmTp", "TckrSymb", "XpryDt", "StrkPric", "OptnTp", "OpnPric", "HghPric", "LwPric",
                      "ClsPric", "SttlmPric", "TtlTradgVol", "OpnIntrst", "ChngInOpnIntrst", "TtlTrfVal",
                      {"STF", "IDF"}, {"STO", "IDO"}, 1.0)

  const LEGACY := Schema("INSTRUMENT", "SYMBOL", "EXPIRY_DT", "STRIKE_PR", "OPTION_TYP", "OPEN", "HIGH", "LOW",
                         "CLOSE", "SETTLE_PR", "CONTRACTS", "OPEN_INT", "CHG_IN_OI", "VAL_INLAKH",
                         {"FUTSTK", "FUTIDX"}, {"OPTSTK", "OPTIDX"}, 100_000.0)

  datatype Prices = Prices(open: real, high: real, low: real, close: real)

  /** Zero prices are filled from the close, a zero close from the settlement price, and the
      extremes are widened to contain open and close. */
  function Repaired(o: real, h: real, l: real, c: real, settle: real): Option<Prices> {
    var close := if c == 0.0 && settle > 0.0 then settle else c;
    var open := if o == 0.0 then close else o;
    var high := if h == 0.0 then close else h;
    var low := if l == 0.0 then close else l;
    if close == 0.0 then None
    else
      var top := Max4(open, high, low, close);
      Some(Prices(open, top, Min4(open, top, low, close), close))
  }

  ghost predicate Convertible(s: Schema, r: RawRow) {
    && Num(r, s.open).Value? && Num(r, s.high).Value? && Num(r, s.low).Value? && Num(r, s.close).Value?
    && Num(r, s.settle).Value? && Num(r, s.volume).Value? && Num(r, s.oi).Value? && Num(r, s.oiChange).Value?
    && Num(r, s.turnover).Value?
  }

  ghost function Base(s: Schema, r: RawRow, date: int, p: Prices, expiry: int): Candle
    requires Convertible(s, r)
  {
    Candle(Normalise(Text(r, s.symbol)), date, p.open, p.high, p.low, p.close,
           Trunc(Num(r, s.volume).v), Trunc(Num(r, s.oi).v), Trunc(Num(r, s.oiChange).v),
           Num(r, s.turnover).v * s.turnoverUnit, expiry)
  }

  ghost predicate Relevant(s: Schema, r: RawRow, q: Request) {
    var kind, symbol := Normalise(Text(r, s.kind)), Normalise(Text(r, s.symbol));
    && ((kind in s.futures && q.loadFutures) || (kind !in s.futures && kind in s.options && q.loadOptions))
    && symbol != ""
    && (q.symbolFilter.Some? && q.symbolFilter.value != "" ==> symbol == Upper(q.symbolFilter.value))
    && ParseExpiry(Text(r, s.expiry)).Some?
    && Convertible(s, r)
  }

  ghost function RepairedOf(s: Schema, r: RawRow): Option<Prices>
    requires Convertible(s, r)
  {
    Repaired(Num(r, s.open).v, Num(r, s.high).v, Num(r, s.low).v, Num(r, s.close).v, Num(r, s.settle).v)
  }

  ghost function ParseRow(s: Schema, r: RawRow, q: Request): Parsed {
    if !Relevant(s, r, q) then Skip
    else match RepairedOf(s, r)
         case None => Skip
         case Some(p) =>
           var base := Base(s, r, q.date, p, ParseExpiry(Text(r, s.expiry)).value);
           var side := Normalise(Text(r, s.optionType));
           if Normalise(Text(r, s.kind)) in s.futures then Fut(base)
           else if Num(r, s.strike).Value? && Num(r, s.strike).v > 0.0 && side in {"CE", "PE"}
           then Opt(OptionCandle(base, Num(r, s.strike).v, side))
           else Skip
  }

  ghost function Futures(s: Schema, rows: seq<RawRow>, q: Request): seq<Candle> {
    if rows == [] then []
    else
      var p := ParseRow(s, rows[|rows| - 1], q);
      Futures(s, rows[..|rows| - 1], q) + if p.Fut? then [p.f] else []
  }

  ghost function Options(s: Schema, rows: seq<RawRow>, q: Request): seq<OptionCandle> {
    if rows == [] then []
    else
      var p := ParseRow(s, rows[|rows| - 1], q);
      Options(s, rows[..|rows| - 1], q) + if p.Opt? then [p.o] else []
  }

  lemma OneMoreRow(s: Schema, rows: seq<RawRow>, i: nat, q: Request)
    requires i < |rows|
    ensures var p := ParseRow(s, rows[i], q);
            && Futures(s, rows[..i + 1], q) == Futures(s, rows[..i], q) + (if p.Fut? then [p.f] else [])
            && Options(s, rows[..i + 1], q) == Options(s, rows[..i], q) + (if p.Opt? then [p.o] else [])
            && Futures(s, rows[..i], q) + [] == Futures(s, rows[..i], q)
            && Options(s, rows[..i], q) + [] == Options(s, rows[..i], q)
  {
    assert rows[..i + 1][..i] == rows[..i];
  }

  /** 2024 and later. */
  method ParseNewRow(row: RawRow, q: Request) returns (parsed: Parsed)
    ensures parsed == ParseRow(NEW, row, q)
  {
    var kind := Normalise(Text(row, "FinInstrmTp"));
    if kind !in {"STF", "IDF", "STO", "IDO"} { return Skip; }
    var isFut := kind in {"STF", "IDF"};
    if isFut && !q.loadFutures { return Skip; }
    if !isFut && !q.loadOptions { return Skip; }
    var symbol := Normalise(Text(row, "TckrSymb"));
    if symbol == "" { return Skip; }
    if q.symbolFilter.Some? && q.symbolFilter.value != "" && symbol != Upper(q.symbolFilter.value) { return Skip; }
    var expiry := ParseExpiry(Text(row, "XpryDt"));
    if expiry == None { return Skip; }
    var o, h, l, c := Num(row, "OpnPric"), Num(row, "HghPric"), Num(row, "LwPric"), Num(row, "ClsPric");
    var se, vol := Num(row, "SttlmPric"), Num(row, "TtlTradgVol");
    var oi, chg, turnover := Num(row, "OpnIntrst"), Num(row, "ChngInOpnIntrst"), Num(row, "TtlTrfVal");
    if !(o.Value? && h.Value? && l.Value? && c.Value? && se.Value?) { return Skip; }
    if !(vol.Value? && oi.Value? && chg.Value? && turnover.Value?) { return Skip; }
    var prices := Repaired(o.v, h.v, l.v, c.v, se.v);
    if prices == None { return Skip; }
    var p := prices.value;
    var base := Candle(symbol, q.date, p.open, p.high, p.low, p.close,
                       Trunc(vol.v), Trunc(oi.v), Trunc(chg.v), turnover.v, expiry.value);
    if isFut { return Fut(base); }
    var strike := Num(row, "StrkPric");
    if strike.Malformed? || strike.v <= 0.0 { return Skip; }
    var side := Normalise(Text(row, "OptnTp"));
    if side !in {"CE", "PE"} { return Skip; }
    return Opt(OptionCandle(base, strike.v, side));
  }

  method ParseNewRows(rows: seq<RawRow>, q: Request) returns (futures: seq<Candle>, options: seq<OptionCandle>)
    ensures futures == Futures(NEW, rows, q) && options == Options(NEW, rows, q)
  {
    futures, options := [], [];
    for i := 0 to |rows|
      invariant futures == Futures(NEW, rows[..i], q) && options == Options(NEW, rows[..i], q)
    {
      OneMoreRow(NEW, rows, i, q);
      var parsed := ParseNewRow(rows[i], q);
      match parsed
      case Skip =>
      case Fut(f) => futures := futures + [f];
      case Opt(o) => options := options + [o];
    }
    assert rows[..|rows|] == rows;
  }

  /** Before 2024; turnover comes in lakhs. */
  method ParseLegacyRow(row: RawRow, q: Request) returns (parsed: Parsed)
    ensures parsed == ParseRow(LEGACY, row, q)
  {
    var kind := Normalise(Text(row, "INSTRUMENT"));
    if kind !in {"FUTSTK", "FUTIDX", "OPTSTK", "OPTIDX"} { return Skip; }
    var isFut := kind in {"FUTSTK", "FUTIDX"};
    if isFut && !q.loadFutures { return Skip; }
    if !isFut && !q.loadOptions { return Skip; }
    var symbol := Normalise(Text(row, "SYMBOL"));
    if symbol == "" { return Skip; }
    if q.symbolFilter.Some? && q.symbolFilter.value != "" && symbol != Upper(q.symbolFilter.value) { return Skip; }
    var expiry := ParseExpiry(Text(row, "EXPIRY_DT"));
    if expiry == None { return Skip; }
    var o, h, l, c := Num(row, "OPEN"), Num(row, "HIGH"), Num(row, "LOW"), Num(row, "CLOSE");
    var se, vol := Num(row, "SETTLE_PR"), Num(row, "CONTRACTS");
    var oi, chg, lakhs := Num(row, "OPEN_INT"), Num(row, "CHG_IN_OI"), Num(row, "VAL_INLAKH");
    if !(o.Value? && h.Value? && l.Value? && c.Value? && se.Value?) { return Skip; }
    if !(vol.Value? && oi.Value? && chg.Value? && lakhs.Value?) { return Skip; }
    var prices := Repaired(o.v, h.v, l.v, c.v, se.v);
    if prices == None { return Skip; }
    var p := prices.value;
    var base := Candle(symbol, q.date, p.open, p.high, p.low, p.close,
                       Trunc(vol.v), Trunc(oi.v), Trunc(chg.v), lakhs.v * 100_000.0, expiry.value);
    if isFut { return Fut(base); }
    var strike := Num(row, "STRIKE_PR");
    if strike.Malformed? || strike.v <= 0.0 { return Skip; }
    var side := Normalise(Text(row, "OPTION_TYP"));
    if side !in {"CE", "PE"} { return Skip; }
    return Opt(OptionCandle(base, strike.v, side));
  }

  method ParseLegacyRows(rows: seq<RawRow>, q: Request) returns (futures: seq<Candle>, options: seq<OptionCandle>)
    ensures futures == Futures(LEGACY, rows, q) && options == Options(LEGACY, rows, q)
  {
    futures, options := [], [];
    for i := 0 to |rows|
      invariant futures == Futures(LEGACY, rows[..i], q) && options == Options(LEGACY, rows[..i], q)
    {
      OneMoreRow(LEGACY, rows, i, q);
      var parsed := ParseLegacyRow(rows[i], q);
      match parsed
      case Skip =>
      case Fut(f) => futures := futures + [f];
      case Opt(o) => options := options + [o];
    }
    assert rows[..|rows|] == rows;
  }

  // ----- both parsers agree on corresponding rows

  function KindIn(s: Schema, r: RawRow): string {
    var kind := Normalise(Text(r, s.kind));
    if kind in s.futures then "F" else if kind in s.options then "O" else ""
  }

  /** The same trade reported in both formats: the same symbol, side, expiry day and kind of
      instrument however they are spelled, equal numbers under the two column names, and the
      same turnover in rupees. */
  ghost predicate Corresponds(s: Schema, r: RawRow, s': Schema, r': RawRow) {
    && KindIn(s, r) == KindIn(s', r')
    && Normalise(Text(r, s.symbol)) == Normalise(Text(r', s'.symbol))
    && ParseExpiry(Text(r, s.expiry)) == ParseExpiry(Text(r', s'.expiry))
    && Normalise(Text(r, s.optionType)) == Normalise(Text(r', s'.optionType))
    && Num(r, s.strike) == Num(r', s'.strike)
    && Num(r, s.open) == Num(r', s'.open) && Num(r, s.high) == Num(r', s'.high)
    && Num(r, s.low) == Num(r', s'.low) && Num(r, s.close) == Num(r', s'.close)
    && Num(r, s.settle) == Num(r', s'.settle) && Num(r, s.volume) == Num(r', s'.volume)
    && Num(r, s.oi) == Num(r', s'.oi) && Num(r, s.oiChange) == Num(r', s'.oiChange)
    && Num(r, s.turnover).Value? == Num(r', s'.turnover).Value?
    && (Num(r, s.turnover).Value? ==> Num(r, s.turnover).v * s.turnoverUnit == Num(r', s'.turnover).v * s'.turnoverUnit)
  }

  lemma KindIs(s: Schema, r: RawRow)
    ensures Normalise(Text(r, s.kind)) in s.futures <==> KindIn(s, r) == "F"
    ensures Normalise(Text(r, s.kind)) !in s.futures ==>
              (Normalise(Text(r, s.kind)) in s.options <==> KindIn(s, r) == "O")
  {
    assert "F" != "O" && "F" != "" && "O" != "";
  }

  lemma SameRelevance(s: Schema, r: RawRow, s': Schema, r': RawRow, q: Request)
    requires Corresponds(s, r, s', r')
    ensures Convertible(s, r) <==> Convertible(s', r')
    ensures Relevant(s, r, q) <==> Relevant(s', r', q)
    ensures Normalise(Text(r, s.kind)) in s.futures <==> Normalise(Text(r', s'.kind)) in s'.futures
  {
    KindIs(s, r);
    KindIs(s', r');
  }

  lemma SamePrices(s: Schema, r: RawRow, s': Schema, r': RawRow, date: int, p: Prices, expiry: int)
    requires Corresponds(s, r, s', r') && Convertible(s, r) && Convertible(s', r')
    ensures RepairedOf(s, r) == RepairedOf(s', r')
    ensures Base(s, r, date, p, expiry) == Base(s', r', date, p, expiry)
  {
  }

  lemma SameOutcome(s: Schema, r: RawRow, s': Schema, r': RawRow, q: Request)
    requires Corresponds(s, r, s', r')
    ensures ParseRow(s, r, q) == ParseRow(s', r', q)
  {
    SameRelevance(s, r, s', r', q);
    if Relevant(s, r, q) {
      var expiry := ParseExpiry(Text(r, s.expiry)).value;
      var p := if RepairedOf(s, r).Some? then RepairedOf(s, r).value else Prices(0.0, 0.0, 0.0, 0.0);
      SamePrices(s, r, s', r', q.date, p, expiry);
    }
  }

  /** The rows of one trade as the exchange publishes them: the new file spells
      the expiry `2024-01-25` and gives the turnover in rupees, the legacy file spells it
      `25-Jan-2024` and gives lakhs. They correspond, whatever the trade. */
  lemma PublishedRowsCorrespond(r: RawRow, r': RawRow, year: int, month: int, name: string, day: int, lakhs: real)
    requires IsDate(year, month, day) && Abbreviates(name, month)
    requires KindIn(NEW, r) == KindIn(LEGACY, r')
    requires Text(r, NEW.symbol) == Text(r', LEGACY.symbol) && Text(r, NEW.optionType) == Text(r', LEGACY.optionType)
    requires Text(r, NEW.expiry) == IsoSpelling(year, month, day)
    requires Text(r', LEGACY.expiry) == LegacySpelling(year, name, day)
    requires Num(r, NEW.turnover) == Value(lakhs * 100_000.0) && Num(r', LEGACY.turnover) == Value(lakhs)
    requires Num(r, NEW.strike) == Num(r', LEGACY.strike) && Num(r, NEW.settle) == Num(r', LEGACY.settle)
    requires Num(r, NEW.open) == Num(r', LEGACY.open) && Num(r, NEW.high) == Num(r', LEGACY.high)
    requires Num(r, NEW.low) == Num(r', LEGACY.low) && Num(r, NEW.close) == Num(r', LEGACY.close)
    requires Num(r, NEW.volume) == Num(r', LEGACY.volume) && Num(r, NEW.oi) == Num(r', LEGACY.oi)
    requires Num(r, NEW.oiChange) == Num(r', LEGACY.oiChange)
    ensures Corresponds(NEW, r, LEGACY, r')
  {
    SpellingsAgree(year, month, name, day);
  }

  /** Files that report the same trades parse to the same candles, in the same order. */
  lemma {:induction false} ParsersAgree(rows: seq<RawRow>, rows': seq<RawRow>, q: Request)
    requires |rows| == |rows'|
    requires forall i :: 0 <= i < |rows| ==> Corresponds(NEW, rows[i], LEGACY, rows'[i])
    ensures Futures(NEW, rows, q) == Futures(LEGACY, rows', q)
    ensures Options(NEW, rows, q) == Options(LEGACY, rows', q)
  {
    if rows != [] {
      ParsersAgree(rows[..|rows| - 1], rows'[..|rows| - 1], q);
      SameOutcome(NEW, rows[|rows| - 1], LEGACY, rows'[|rows| - 1], q);
    }
  }

  // ----- the tables' CHECK constraints on prices, strike and option type

  predicate PricesChecked(c: Candle) {
    c.high >= c.open && c.high >= c.close && c.low <= c.open && c.low <= c.close && c.high >= c.low
  }

  /** `Trunc` drops the fraction, on either side of zero. */
  lemma TruncTowardsZero(x: real)
    ensures x >= 0.0 ==> Trunc(x) as real <= x < Trunc(x) as real + 1.0
    ensures x <= 0.0 ==> Trunc(x) as real - 1.0 < x <= Trunc(x) as real
  {
  }

  /** A row is dropped for its prices exactly when it has neither a close nor a positive
      settlement price. Otherwise open and close are the reported ones where there are any,
      high is the tightest bound above them and both reported extremes, and low the tightest
      bound below them and the reported low; a reported high below those is not kept. */
  lemma RepairedMeaning(o: real, h: real, l: real, c: real, settle: real)
    ensures Repaired(o, h, l, c, settle) == None <==> c == 0.0 && settle <= 0.0
    ensures Repaired(o, h, l, c, settle).Some? ==>
              var p := Repaired(o, h, l, c, settle).value;
              && p.low <= p.open <= p.high && p.low <= p.close <= p.high && p.close != 0.0
              && p.close == (if c != 0.0 then c else settle) && p.open == (if o != 0.0 then o else p.close)
              && (h != 0.0 ==> h <= p.high) && (l != 0.0 ==> p.low <= l <= p.high)
              && (p.high == p.open || p.high == p.close || (h != 0.0 && p.high == h) || (l != 0.0 && p.high == l))
              && (p.low == p.open || p.low == p.close || (l != 0.0 && p.low == l))
  {
  }

  lemma {:induction false} CandlesAreOrdered(s: Schema, rows: seq<RawRow>, q: Request)
    ensures forall c <- Futures(s, rows, q) :: PricesChecked(c)
    ensures forall o <- Options(s, rows, q) :: PricesChecked(o.base) && o.strike > 0.0 && o.optionType in {"CE", "PE"}
  {
    if rows != [] {
      CandlesAreOrdered(s, rows[..|rows| - 1], q);
      var r := rows[|rows| - 1];
      if Relevant(s, r, q) {
        RepairedMeaning(Num(r, s.open).v, Num(r, s.high).v, Num(r, s.low).v, Num(r, s.close).v, Num(r, s.settle).v);
      }
    }
  }

  /** What a NUMERIC column keeps of a value: prices have six decimals, strikes two. */
  function StoredPrices(c: Candle): Candle {
    c.(open := Stored(c.open, 1_000_000.0), high := Stored(c.high, 1_000_000.0),
       low := Stored(c.low, 1_000_000.0), close := Stored(c.close, 1_000_000.0))
  }

  function StoredStrike(o: OptionCandle): real { Stored(o.strike, 100.0) }

  lemma StoredPricesChecked(c: Candle)
    requires PricesChecked(c)
    ensures PricesChecked(StoredPrices(c))
  {
    StoredMonotone(c.low, c.open, 1_000_000.0);
    StoredMonotone(c.low, c.close, 1_000_000.0);
    StoredMonotone(c.open, c.high, 1_000_000.0);
    StoredMonotone(c.close, c.high, 1_000_000.0);
  }

  /** The checks that a candle's own values can violate. */
  predicate Acceptable(c: Candle) { PricesChecked(StoredPrices(c)) && c.volume >= 0 && c.oi >= 0 }

  predicate AcceptableOption(o: OptionCandle) {
    Acceptable(o.base) && StoredStrike(o) > 0.0 && o.optionType in {"CE", "PE"}
  }

  predicate AllAcceptable(futures: seq<Candle>, options: seq<OptionCandle>) {
    (forall i :: 0 <= i < |futures| ==> Acceptable(futures[i]))
    && (forall i :: 0 <= i < |options| ==> AcceptableOption(options[i]))
  }

  /** What is stored of every parsed candle passes the tables' checks on prices and side; an
      option passes the one on its strike exactly from half a paisa on. */
  lemma CandlesPassChecks(s: Schema, rows: seq<RawRow>, q: Request)
    ensures forall c <- Futures(s, rows, q) :: PricesChecked(StoredPrices(c))
    ensures forall o <- Options(s, rows, q) ::
              && PricesChecked(StoredPrices(o.base)) && o.optionType in {"CE", "PE"}
              && (StoredStrike(o) > 0.0 <==> o.strike >= 0.005)
  {
    CandlesAreOrdered(s, rows, q);
    forall c | c in Futures(s, rows, q) ensures PricesChecked(StoredPrices(c)) {
      StoredPricesChecked(c);
    }
    forall o | o in Options(s, rows, q)
      ensures PricesChecked(StoredPrices(o.base)) && (StoredStrike(o) > 0.0 <==> o.strike >= 0.005)
    {
      StoredPricesChecked(o.base);
      StoredPositiveIff(o.strike, 100.0);
    }
  }

  /** The tables refuse a parsed file exactly for a negative volume or open interest, or for an
      option whose strike is below half a paisa. */
  lemma RefusedIff(s: Schema, rows: seq<RawRow>, q: Request)
    ensures AllAcceptable(Futures(s, rows, q), Options(s, rows, q)) <==>
            && (forall c <- Futures(s, rows, q) :: c.volume >= 0 && c.oi >= 0)
            && (forall o <- Options(s, rows, q) :: o.base.volume >= 0 && o.base.oi >= 0 && o.strike >= 0.005)
  {
    CandlesPassChecks(s, rows, q);
    var futures, options := Futures(s, rows, q), Options(s, rows, q);
    forall i | 0 <= i < |futures| ensures Acceptable(futures[i]) <==> futures[i].volume >= 0 && futures[i].oi >= 0 {
      assert futures[i] in futures;
    }
    forall i | 0 <= i < |options|
      ensures AcceptableOption(options[i])
              <==> options[i].base.volume >= 0 && options[i].base.oi >= 0 && options[i].strike >= 0.005
    {
      assert options[i] in options;
    }
  }

  // ----- narrower requests

  predicate NoFilter(f: Option<string>) { f.None? || f.value == "" }

  /** The filter names the symbol, in any letter case. */
  predicate Admits(f: Option<string>, symbol: string) { NoFilter(f) || SameLetters(f.value, symbol) }

  lemma FilterAdmits(f: string, s: string)
    ensures Normalise(s) == Upper(f) <==> SameLetters(f, Normalise(s))
  {
    NormalIsUpper(s);
    SameLettersIff(f, Normalise(s));
  }

  /** `q'` asks for no more than `q`, of the same day. */
  predicate Narrower(q': Request, q: Request) {
    && q'.date == q.date && (q'.loadFutures ==> q.loadFutures) && (q'.loadOptions ==> q.loadOptions)
    && (NoFilter(q.symbolFilter)
        || (!NoFilter(q'.symbolFilter) && SameLetters(q'.symbolFilter.value, q.symbolFilter.value)))
  }

  predicate Wants(s: Schema, r: RawRow, q: Request) {
    && (if Normalise(Text(r, s.kind)) in s.futures then q.loadFutures else q.loadOptions)
    && Admits(q.symbolFilter, Normalise(Text(r, s.symbol)))
  }

  lemma NarrowerRelevance(s: Schema, r: RawRow, q': Request, q: Request)
    requires Narrower(q', q)
    ensures Relevant(s, r, q') <==> Relevant(s, r, q) && Wants(s, r, q')
  {
    if !NoFilter(q'.symbolFilter) {
      FilterAdmits(q'.symbolFilter.value, Text(r, s.symbol));
      if !NoFilter(q.symbolFilter) {
        SameLettersIff(q'.symbolFilter.value, q.symbolFilter.value);
      }
    }
  }

  /** A narrower request parses a row to the same candle or skips it. */
  lemma NarrowerOutcome(s: Schema, r: RawRow, q': Request, q: Request)
    requires Narrower(q', q)
    ensures ParseRow(s, r, q') == match ParseRow(s, r, q)
                                  case Skip => Skip
                                  case Fut(f) =>
                                    if q'.loadFutures && Admits(q'.symbolFilter, f.symbol) then Fut(f) else Skip
                                  case Opt(o) =>
                                    if q'.loadOptions && Admits(q'.symbolFilter, o.base.symbol) then Opt(o) else Skip
  {
    NarrowerRelevance(s, r, q', q);
  }

  // ----- a plain row of a futures file

  /** A row of the new format that reports a closing price and nothing else. */
  function PlainFuture(symbol: string, expiry: string, close: real): RawRow {
    RawRow(map["FinInstrmTp" := "STF", "TckrSymb" := symbol, "XpryDt" := expiry], map["ClsPric" := Value(close)])
  }

  lemma PlainFutureParses(symbol: string, expiry: string, close: real, q: Request)
    requires IsNormal(symbol) && close > 0.0 && ParseExpiry(expiry).Some? && q.loadFutures && NoFilter(q.symbolFilter)
    ensures ParseRow(NEW, PlainFuture(symbol, expiry, close), q)
         == Fut(Candle(symbol, q.date, close, close, close, close, 0, 0, 0, 0.0, ParseExpiry(expiry).value))
  {
    var r := PlainFuture(symbol, expiry, close);
    StripNothing("STF");
    assert Upper("STF") == "STF";
    assert Text(r, NEW.kind) == "STF" && Text(r, NEW.symbol) == symbol && Text(r, NEW.expiry) == expiry;
    assert Relevant(NEW, r, q);
    assert RepairedOf(NEW, r) == Some(Prices(close, close, close, close));
  }

  // ----- what a published row of either format parses to

  ghost predicate TextCell(r: RawRow, column: string, s: string) { column in r.texts && r.texts[column] == s }

  /** The cell says `s`, in any letter case and with white space around it or not. */
  ghost predicate NameCell(r: RawRow, column: string, s: string) {
    column in r.texts && SpeltAlike(r.texts[column], s)
  }

  ghost predicate NumberCell(r: RawRow, column: string, v: real) {
    column in r.numbers && r.numbers[column] == Value(v)
  }

  /** A trade whose prices are in order and not zero. */
  ghost predicate Tradable(c: Candle) {
    && IsNormal(c.symbol) && c.low <= c.open <= c.high && c.low <= c.close <= c.high
    && c.open != 0.0 && c.high != 0.0 && c.low != 0.0 && c.close != 0.0
  }

  /** The row of a 2024 file that reports `c`; the expiry is spelled `2024-01-25`. */
  ghost predicate ReportsNew(r: RawRow, c: Candle, year: int, month: int, day: int, settle: real) {
    && NameCell(r, "TckrSymb", c.symbol)
    && IsDate(year, month, day) && TextCell(r, "XpryDt", IsoSpelling(year, month, day))
    && c.expiry == Ordinal(year, month, day)
    && NumberCell(r, "OpnPric", c.open) && NumberCell(r, "HghPric", c.high)
    && NumberCell(r, "LwPric", c.low) && NumberCell(r, "ClsPric", c.close) && NumberCell(r, "SttlmPric", settle)
    && NumberCell(r, "TtlTradgVol", c.volume as real) && NumberCell(r, "OpnIntrst", c.oi as real)
    && NumberCell(r, "ChngInOpnIntrst", c.oiChange as real) && NumberCell(r, "TtlTrfVal", c.turnover)
  }

  /** The row of an older file that reports `c`; the expiry is spelled `25-Jan-2024`, in any
      capitalisation of `Jan`, and the turnover is in lakhs. */
  ghost predicate ReportsLegacy(r: RawRow, c: Candle, year: int, month: int, name: string, day: int,
                                settle: real, lakhs: real) {
    && NameCell(r, "SYMBOL", c.symbol)
    && IsDate(year, month, day) && Abbreviates(name, month)
    && TextCell(r, "EXPIRY_DT", LegacySpelling(year, name, day))
    && c.expiry == Ordinal(year, month, day)
    && NumberCell(r, "OPEN", c.open) && NumberCell(r, "HIGH", c.high)
    && NumberCell(r, "LOW", c.low) && NumberCell(r, "CLOSE", c.close) && NumberCell(r, "SETTLE_PR", settle)
    && NumberCell(r, "CONTRACTS", c.volume as real) && NumberCell(r, "OPEN_INT", c.oi as real)
    && NumberCell(r, "CHG_IN_OI", c.oiChange as real)
    && NumberCell(r, "VAL_INLAKH", lakhs) && c.turnover == lakhs * 100_000.0
  }

  lemma CapitalsAreNormal(s: string)
    requires s != "" && forall i :: 0 <= i < |s| ==> 'A' <= s[i] <= 'Z'
    ensures Normalise(s) == s
  {
    StripNothing(s);
    assert Upper(s) == s;
  }

  lemma NameCellReads(r: RawRow, column: string, s: string)
    requires NameCell(r, column, s) && Normalise(s) == s
    ensures Normalise(Text(r, column)) == s
  {
    NormalFormsAgreeIff(r.texts[column], s);
  }

  lemma CapitalsCellReads(r: RawRow, column: string, s: string)
    requires s != "" && forall i :: 0 <= i < |s| ==> 'A' <= s[i] <= 'Z'
    ensures NameCell(r, column, s) ==> Normalise(Text(r, column)) == s
  {
    CapitalsAreNormal(s);
    if NameCell(r, column, s) {
      NameCellReads(r, column, s);
    }
  }

  lemma OrderedPricesStay(c: Candle, settle: real)
    requires Tradable(c)
    ensures Repaired(c.open, c.high, c.low, c.close, settle) == Some(Prices(c.open, c.high, c.low, c.close))
  {
  }

  lemma TruncOfInt(n: int)
    ensures Trunc(n as real) == n
  {
  }

  /** The cells of `r`, as the schema names them, hold the fields of `c`. */
  ghost predicate Holds(s: Schema, r: RawRow, c: Candle, settle: real) {
    && Normalise(Text(r, s.symbol)) == c.symbol && ParseExpiry(Text(r, s.expiry)) == Some(c.expiry)
    && Num(r, s.open) == Value(c.open) && Num(r, s.high) == Value(c.high) && Num(r, s.low) == Value(c.low)
    && Num(r, s.close) == Value(c.close) && Num(r, s.settle) == Value(settle)
    && Num(r, s.volume) == Value(c.volume as real) && Num(r, s.oi) == Value(c.oi as real)
    && Num(r, s.oiChange) == Value(c.oiChange as real)
    && Num(r, s.turnover).Value? && Num(r, s.turnover).v * s.turnoverUnit == c.turnover
  }

  ghost predicate IsFuture(s: Schema, r: RawRow) { Normalise(Text(r, s.kind)) in s.futures }

  ghost predicate IsOption(s: Schema, r: RawRow) {
    Normalise(Text(r, s.kind)) !in s.futures && Normalise(Text(r, s.kind)) in s.options
  }

  ghost predicate HoldsTerms(s: Schema, r: RawRow, o: OptionCandle) {
    && Num(r, s.strike) == Value(o.strike) && o.strike > 0.0
    && Normalise(Text(r, s.optionType)) == o.optionType && o.optionType in {"CE", "PE"}
  }

  lemma KindsOfNew(r: RawRow)
    ensures NameCell(r, "FinInstrmTp", "STF") || NameCell(r, "FinInstrmTp", "IDF") ==> IsFuture(NEW, r)
    ensures NameCell(r, "FinInstrmTp", "STO") || NameCell(r, "FinInstrmTp", "IDO") ==> IsOption(NEW, r)
  {
    CapitalsCellReads(r, "FinInstrmTp", "STF");
    CapitalsCellReads(r, "FinInstrmTp", "IDF");
    CapitalsCellReads(r, "FinInstrmTp", "STO");
    CapitalsCellReads(r, "FinInstrmTp", "IDO");
  }

  lemma KindsOfLegacy(r: RawRow)
    ensures NameCell(r, "INSTRUMENT", "FUTSTK") || NameCell(r, "INSTRUMENT", "FUTIDX") ==> IsFuture(LEGACY, r)
    ensures NameCell(r, "INSTRUMENT", "OPTSTK") || NameCell(r, "INSTRUMENT", "OPTIDX") ==> IsOption(LEGACY, r)
  {
    CapitalsCellReads(r, "INSTRUMENT", "FUTSTK");
    CapitalsCellReads(r, "INSTRUMENT", "FUTIDX");
    CapitalsCellReads(r, "INSTRUMENT", "OPTSTK");
    CapitalsCellReads(r, "INSTRUMENT", "OPTIDX");
  }

  lemma TermsHeld(s: Schema, r: RawRow, o: OptionCandle)
    requires NumberCell(r, s.strike, o.strike) && o.strike > 0.0
    requires NameCell(r, s.optionType, o.optionType) && (o.optionType == "CE" || o.optionType == "PE")
    ensures HoldsTerms(s, r, o)
  {
    CapitalsCellReads(r, s.optionType, "CE");
    CapitalsCellReads(r, s.optionType, "PE");
  }

  lemma HeldPricesAre(s: Schema, r: RawRow, c: Candle, settle: real)
    requires Tradable(c) && Holds(s, r, c, settle)
    ensures Convertible(s, r) && RepairedOf(s, r) == Some(Prices(c.open, c.high, c.low, c.close))
  {
    OrderedPricesStay(c, settle);
  }

  lemma HeldBaseIs(s: Schema, r: RawRow, c: Candle, settle: real)
    requires Convertible(s, r) && Holds(s, r, c, settle)
    ensures Base(s, r, c.date, Prices(c.open, c.high, c.low, c.close), c.expiry) == c
  {
    TruncOfInt(c.volume);
    TruncOfInt(c.oi);
    TruncOfInt(c.oiChange);
  }

  lemma HeldFutureParses(s: Schema, r: RawRow, c: Candle, settle: real, q: Request)
    requires Tradable(c) && Holds(s, r, c, settle) && IsFuture(s, r)
    requires q.date == c.date && q.loadFutures && NoFilter(q.symbolFilter)
    ensures ParseRow(s, r, q) == Fut(c)
  {
    HeldPricesAre(s, r, c, settle);
    HeldBaseIs(s, r, c, settle);
  }

  lemma HeldOptionParses(s: Schema, r: RawRow, o: OptionCandle, settle: real, q: Request)
    requires Tradable(o.base) && Holds(s, r, o.base, settle) && IsOption(s, r) && HoldsTerms(s, r, o)
    requires q.date == o.base.date && q.loadOptions && NoFilter(q.symbolFilter)
    ensures ParseRow(s, r, q) == Opt(o)
  {
    HeldPricesAre(s, r, o.base, settle);
    HeldBaseIs(s, r, o.base, settle);
  }

  lemma NewRowHolds(r: RawRow, c: Candle, year: int, month: int, day: int, settle: real)
    requires Tradable(c) && ReportsNew(r, c, year, month, day, settle)
    ensures Holds(NEW, r, c, settle)
  {
    NameCellReads(r, "TckrSymb", c.symbol);
    IsoSpellingParses(year, month, day);
  }

  lemma LegacyRowHolds(r: RawRow, c: Candle, year: int, month: int, name: string, day: int, settle: real, lakhs: real)
    requires Tradable(c) && ReportsLegacy(r, c, year, month, name, day, settle, lakhs)
    ensures Holds(LEGACY, r, c, settle)
  {
    NameCellReads(r, "SYMBOL", c.symbol);
    LegacySpellingParses(year, month, name, day);
  }

  /** A row of a 2024 file that reports a future parses to exactly that future. */
  lemma NewFutureParses(r: RawRow, c: Candle, year: int, month: int, day: int, settle: real, q: Request)
    requires Tradable(c) && ReportsNew(r, c, year, month, day, settle)
    requires NameCell(r, "FinInstrmTp", "STF") || NameCell(r, "FinInstrmTp", "IDF")
    requires q.date == c.date && q.loadFutures && NoFilter(q.symbolFilter)
    ensures ParseRow(NEW, r, q) == Fut(c)
  {
    NewRowHolds(r, c, year, month, day, settle);
    KindsOfNew(r);
    HeldFutureParses(NEW, r, c, settle, q);
  }

  /** A row of a 2024 file that reports an option parses to exactly that option. */
  lemma NewOptionParses(r: RawRow, o: OptionCandle, year: int, month: int, day: int, settle: real, q: Request)
    requires Tradable(o.base) && ReportsNew(r, o.base, year, month, day, settle)
    requires NameCell(r, "FinInstrmTp", "STO") || NameCell(r, "FinInstrmTp", "IDO")
    requires NumberCell(r, "StrkPric", o.strike) && o.strike > 0.0
    requires NameCell(r, "OptnTp", o.optionType) && (o.optionType == "CE" || o.optionType == "PE")
    requires q.date == o.base.date && q.loadOptions && NoFilter(q.symbolFilter)
    ensures ParseRow(NEW, r, q) == Opt(o)
  {
    NewRowHolds(r, o.base, year, month, day, settle);
    KindsOfNew(r);
    TermsHeld(NEW, r, o);
    HeldOptionParses(NEW, r, o, settle, q);
  }

  /** A row of an older file that reports a future parses to exactly that future. */
  lemma LegacyFutureParses(r: RawRow, c: Candle, year: int, month: int, name: string, day: int,
      settle: real, lakhs: real, q: Request)
    requires Tradable(c) && ReportsLegacy(r, c, year, month, name, day, settle, lakhs)
    requires NameCell(r, "INSTRUMENT", "FUTSTK") || NameCell(r, "INSTRUMENT", "FUTIDX")
    requires q.date == c.date && q.loadFutures && NoFilter(q.symbolFilter)
    ensures ParseRow(LEGACY, r, q) == Fut(c)
  {
    LegacyRowHolds(r, c, year, month, name, day, settle, lakhs);
    KindsOfLegacy(r);
    HeldFutureParses(LEGACY, r, c, settle, q);
  }

  /** A row of an older file that reports an option parses to exactly that option. */
  lemma LegacyOptionParses(r: RawRow, o: OptionCandle, year: int, month: int, name: string, day: int,
      settle: real, lakhs: real, q: Request)
    requires Tradable(o.base) && ReportsLegacy(r, o.base, year, month, name, day, settle, lakhs)
    requires NameCell(r, "INSTRUMENT", "OPTSTK") || NameCell(r, "INSTRUMENT", "OPTIDX")
    requires NumberCell(r, "STRIKE_PR", o.strike) && o.strike > 0.0
    requires NameCell(r, "OPTION_TYP", o.optionType) && (o.optionType == "CE" || o.optionType == "PE")
    requires q.date == o.base.date && q.loadOptions && NoFilter(q.symbolFilter)
    ensures ParseRow(LEGACY, r, q) == Opt(o)
  {
    LegacyRowHolds(r, o.base, year, month, name, day, settle, lakhs);
    KindsOfLegacy(r);
    TermsHeld(LEGACY, r, o);
    HeldOptionParses(LEGACY, r, o, settle, q);
  }

  lemma NamedCell(r: RawRow, column: string, s: string)
    requires Normalise(Text(r, column)) == s && s != ""
    ensures NameCell(r, column, s)
  {
    EmptyNormalFormIff(Text(r, column));
    NormaliseIdempotent(Text(r, column));
    NormalFormsAgreeIff(Text(r, column), s);
  }

  /** Where a parsed candle has its symbol and its day from: no empty cell stands in for them. */
  ghost predicate ComesFrom(r: RawRow, c: Candle, q: Request, symbolColumn: string, expiryColumn: string) {
    && NameCell(r, symbolColumn, c.symbol) && c.date == q.date
    && expiryColumn in r.texts && ParseExpiry(r.texts[expiryColumn]) == Some(c.expiry)
  }

  lemma ParsedComesFrom(s: Schema, r: RawRow, q: Request)
    ensures ParseRow(s, r, q).Fut? ==> ComesFrom(r, ParseRow(s, r, q).f, q, s.symbol, s.expiry) && q.loadFutures
    ensures ParseRow(s, r, q).Opt? ==>
              var o := ParseRow(s, r, q).o;
              && ComesFrom(r, o.base, q, s.symbol, s.expiry) && q.loadOptions
              && NumberCell(r, s.strike, o.strike) && NameCell(r, s.optionType, o.optionType)
  {
    if Relevant(s, r, q) {
      NamedCell(r, s.symbol, Normalise(Text(r, s.symbol)));
      var p := ParseRow(s, r, q);
      if p.Opt? {
        NamedCell(r, s.optionType, p.o.optionType);
      }
    }
  }

  /** Nothing is parsed from a row of a 2024 file that does not say which of the four kinds of
      contract it is, of which symbol and day, and for an option at which strike and side. */
  lemma NewRowComesFrom(r: RawRow, q: Request)
    ensures ParseRow(NEW, r, q).Fut? ==>
              && (NameCell(r, "FinInstrmTp", "STF") || NameCell(r, "FinInstrmTp", "IDF")) && q.loadFutures
              && ComesFrom(r, ParseRow(NEW, r, q).f, q, "TckrSymb", "XpryDt")
    ensures ParseRow(NEW, r, q).Opt? ==>
              var o := ParseRow(NEW, r, q).o;
              && (NameCell(r, "FinInstrmTp", "STO") || NameCell(r, "FinInstrmTp", "IDO")) && q.loadOptions
              && ComesFrom(r, o.base, q, "TckrSymb", "XpryDt")
              && NumberCell(r, "StrkPric", o.strike) && NameCell(r, "OptnTp", o.optionType)
  {
    ParsedComesFrom(NEW, r, q);
    if ParseRow(NEW, r, q) != Skip {
      NamedCell(r, "FinInstrmTp", Normalise(Text(r, "FinInstrmTp")));
    }
  }

  lemma LegacyRowComesFrom(r: RawRow, q: Request)
    ensures ParseRow(LEGACY, r, q).Fut? ==>
              && (NameCell(r, "INSTRUMENT", "FUTSTK") || NameCell(r, "INSTRUMENT", "FUTIDX")) && q.loadFutures
              && ComesFrom(r, ParseRow(LEGACY, r, q).f, q, "SYMBOL", "EXPIRY_DT")
    ensures ParseRow(LEGACY, r, q).Opt? ==>
              var o := ParseRow(LEGACY, r, q).o;
              && (NameCell(r, "INSTRUMENT", "OPTSTK") || NameCell(r, "INSTRUMENT", "OPTIDX")) && q.loadOptions
              && ComesFrom(r, o.base, q, "SYMBOL", "EXPIRY_DT")
              && NumberCell(r, "STRIKE_PR", o.strike) && NameCell(r, "OPTION_TYP", o.optionType)
  {
    ParsedComesFrom(LEGACY, r, q);
    if ParseRow(LEGACY, r, q) != Skip {
      NamedCell(r, "INSTRUMENT", Normalise(Text(r, "INSTRUMENT")));
    }
  }
}
