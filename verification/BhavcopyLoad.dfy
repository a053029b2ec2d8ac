/** Loading parsed bhavcopy files into the futures and options tables, one transaction a day. */
module BhavcopyLoad {
  import opened Collections
  import opened ExpiryDates
  import opened PolicyUpsert
  import opened BhavcopyParsers
  import opened Symbols
  import opened TradingDates

  /** The conflict key: instrument and day (exchange and interval are constant). The
      instrument id is the underlying symbol; expiry, strike and side are not part of it. */
  type Key = (string, int)

  datatype Overwritten = Overwritten(open: real, high: real, low: real, close: real,
                                     volume: int, oi: int, oiChange: int, turnover: real)

  datatype Kept = Kept(expiry: int, underlyingId: string, strike: Option<real>, side: Option<string>)

  type Line = Keyed<Key, Overwritten, Kept, string>
  type Rows = map<Key, Row<Overwritten, Kept, string>>

  const BATCH_SIZE := 500

  function KeyOf(c: Candle): Key { ("NFO:" + c.symbol, c.date) }

  function LineOf(c: Candle, strike: Option<real>, side: Option<string>): Line {
    Keyed(KeyOf(c),
          Row(Overwritten(c.open, c.high, c.low, c.close, c.volume, c.oi, c.oiChange, c.turnover),
              Kept(c.expiry, "NSE:" + c.symbol, strike, side), map[]))
  }

  function FutureLines(cs: seq<Candle>): seq<Line> {
    seq(|cs|, i requires 0 <= i < |cs| => LineOf(cs[i], None, None))
  }

  function OptionLines(os: seq<OptionCandle>): seq<Line> {
    seq(|os|, i requires 0 <= i < |os| => LineOf(os[i].base, Some(os[i].strike), Some(os[i].optionType)))
  }

  // ----- what the exchange serves for a day, and what it contributes to each table

  /** `fails` says that the day's transaction fails for a reason outside its rows. */
  datatype Download = Holiday | File(rows: seq<RawRow>, fails: bool)

  datatype Settings = Settings(loadFutures: bool, loadOptions: bool, symbolFilter: Option<string>,
                               site: int -> Download)

  datatype Table = FuturesTable | OptionsTable

  function RequestFor(o: Settings, date: int): Request {
    Request(date, o.loadFutures, o.loadOptions, o.symbolFilter)
  }

  function SchemaOf(date: int): Schema { if date < NEW_FORMAT_START then LEGACY else NEW }

  /** A statement fails, and all of the day's rows with it. */
  ghost predicate RolledBack(d: int, o: Settings) {
    var f := o.site(d);
    f.File? && (f.fails || !AllAcceptable(Futures(SchemaOf(d), f.rows, RequestFor(o, d)),
                                          Options(SchemaOf(d), f.rows, RequestFor(o, d))))
  }

  ghost function LinesOfDay(tb: Table, d: int, o: Settings): seq<Line> {
    var f := o.site(d);
    if f.Holiday? || RolledBack(d, o) then []
    else if tb == FuturesTable then FutureLines(Futures(SchemaOf(d), f.rows, RequestFor(o, d)))
    else OptionLines(Options(SchemaOf(d), f.rows, RequestFor(o, d)))
  }

  ghost function ByDay(tb: Table, o: Settings): int -> seq<Line> { d => LinesOfDay(tb, d, o) }

  ghost function LinesOf(days: seq<int>, byDay: int -> seq<Line>): seq<Line> {
    if days == [] then [] else LinesOf(days[..|days| - 1], byDay) + byDay(days[|days| - 1])
  }

  lemma {:induction false} LinesOfAppend(a: seq<int>, b: seq<int>, byDay: int -> seq<Line>)
    ensures LinesOf(a + b, byDay) == LinesOf(a, byDay) + LinesOf(b, byDay)
  {
    if b == [] {
      assert a + b == a && LinesOf(a, byDay) + [] == LinesOf(a, byDay);
    } else {
      LinesOfAppend(a, b[..|b| - 1], byDay);
      assert (a + b)[..|a + b| - 1] == a + b[..|b| - 1];
    }
  }

  class Loader {
    const futures: UpsertTable<Key, Overwritten, Kept, string>
    const options: UpsertTable<Key, Overwritten, Kept, string>
    var attempted: nat
    var downloaded: nat
    var holidays: nat

    constructor ()
      ensures fresh(futures) && fresh(options) && futures != options
      ensures futures.rows == map[] && options.rows == map[]
      ensures attempted == 0 && downloaded == 0 && holidays == 0
    {
      futures := new UpsertTable();
      options := new UpsertTable();
      attempted, downloaded, holidays := 0, 0, 0;
    }

    /** One iteration of the legacy or of the new-format loop of `run`. */
    method LoadDay(d: int, o: Settings)
      requires futures != options
      modifies this, futures, options
      ensures futures.rows == Load(old(futures.rows), LinesOfDay(FuturesTable, d, o))
      ensures options.rows == Load(old(options.rows), LinesOfDay(OptionsTable, d, o))
      ensures attempted == old(attempted) + 1
      ensures downloaded == old(downloaded) + (if o.site(d).Holiday? then 0 else 1)
      ensures holidays == old(holidays) + (if o.site(d).Holiday? then 1 else 0)
    {
      attempted := attempted + 1;
      var file := o.site(d);
      if file.Holiday? {
        holidays := holidays + 1;
        return;
      }
      downloaded := downloaded + 1;
      var fut, opt;
      if d < NEW_FORMAT_START {
        fut, opt := ParseLegacyRows(file.rows, RequestFor(o, d));
      } else {
        fut, opt := ParseNewRows(file.rows, RequestFor(o, d));
      }
      if file.fails || !AllAcceptable(fut, opt) { return; }
      var n := futures.UpsertInBatches(FutureLines(fut), BATCH_SIZE);
      n := options.UpsertInBatches(OptionLines(opt), BATCH_SIZE);
    }

    method LoadDays(days: seq<int>, o: Settings)
      requires futures != options
      modifies this, futures, options
      ensures futures.rows == Load(old(futures.rows), LinesOf(days, ByDay(FuturesTable, o)))
      ensures options.rows == Load(old(options.rows), LinesOf(days, ByDay(OptionsTable, o)))
      ensures attempted == old(attempted) + |days|
      ensures downloaded + holidays == old(downloaded + holidays) + |days|
    {
      for i := 0 to |days|
        invariant futures.rows == Load(old(futures.rows), LinesOf(days[..i], ByDay(FuturesTable, o)))
        invariant options.rows == Load(old(options.rows), LinesOf(days[..i], ByDay(OptionsTable, o)))
        invariant attempted == old(attempted) + i
        invariant downloaded + holidays == old(downloaded + holidays) + i
      {
        assert days[..i + 1][..i] == days[..i];
        LoadAppend(old(futures.rows), LinesOf(days[..i], ByDay(FuturesTable, o)), LinesOfDay(FuturesTable, days[i], o));
        LoadAppend(old(options.rows), LinesOf(days[..i], ByDay(OptionsTable, o)), LinesOfDay(OptionsTable, days[i], o));
        LoadDay(days[i], o);
      }
      assert days[..|days|] == days;
    }

    /** Both loops together load every weekday of the range once, in order, each in its format. */
    method Run(first: int, last: int, o: Settings)
      requires futures != options
      modifies this, futures, options
      ensures futures.rows == Load(old(futures.rows), LinesOf(WeekdaysIn(first, last), ByDay(FuturesTable, o)))
      ensures options.rows == Load(old(options.rows), LinesOf(WeekdaysIn(first, last), ByDay(OptionsTable, o)))
      ensures attempted == old(attempted) + |WeekdaysIn(first, last)|
      ensures downloaded + holidays == old(downloaded + holidays) + |WeekdaysIn(first, last)|
    {
      var legacyDays, newDays := SplitDates(first, last);
      LinesOfAppend(legacyDays, newDays, ByDay(FuturesTable, o));
      LinesOfAppend(legacyDays, newDays, ByDay(OptionsTable, o));
      LoadAppend(futures.rows, LinesOf(legacyDays, ByDay(FuturesTable, o)), LinesOf(newDays, ByDay(FuturesTable, o)));
      LoadAppend(options.rows, LinesOf(legacyDays, ByDay(OptionsTable, o)), LinesOf(newDays, ByDay(OptionsTable, o)));
      LoadDays(legacyDays, o);
      LoadDays(newDays, o);
    }
  }

  // ----- re-running days

  lemma {:induction false} CandlesCarryDate(s: Schema, rows: seq<RawRow>, q: Request)
    ensures forall c <- Futures(s, rows, q) :: c.date == q.date
    ensures forall c <- Options(s, rows, q) :: c.base.date == q.date
  {
    if rows != [] {
      CandlesCarryDate(s, rows[..|rows| - 1], q);
    }
  }

  lemma LinesCarryDay(tb: Table, d: int, o: Settings)
    ensures forall l <- LinesOfDay(tb, d, o) :: l.key.1 == d && l.row.filled == map[]
  {
    var f := o.site(d);
    if f.File? {
      CandlesCarryDate(SchemaOf(d), f.rows, RequestFor(o, d));
    }
  }

  lemma {:induction false} NoLinesOfOtherDays(lines: seq<Line>, d: int, k: Key)
    requires forall l <- lines :: l.key.1 == d
    requires d != k.1
    ensures RowsOf(lines, k) == []
  {
    if lines != [] {
      NoLinesOfOtherDays(lines[..|lines| - 1], d, k);
    }
  }

  ghost predicate NoRepeats(days: seq<int>) {
    forall i, j :: 0 <= i < j < |days| ==> days[i] != days[j]
  }

  ghost predicate OnOwnDay(byDay: int -> seq<Line>) {
    forall d, l :: l in byDay(d) ==> l.key.1 == d
  }

  /** All rows of a key come from the file of its day. */
  lemma {:induction false} RowsComeFromTheirDay(days: seq<int>, byDay: int -> seq<Line>, k: Key)
    requires NoRepeats(days) && OnOwnDay(byDay)
    ensures RowsOf(LinesOf(days, byDay), k) == if k.1 in days then RowsOf(byDay(k.1), k) else []
  {
    if days != [] {
      var front, last := days[..|days| - 1], days[|days| - 1];
      RowsComeFromTheirDay(front, byDay, k);
      RowsOfAppend(LinesOf(front, byDay), byDay(last), k);
      if last == k.1 {
        assert [] + RowsOf(byDay(last), k) == RowsOf(byDay(last), k);
      } else {
        NoLinesOfOtherDays(byDay(last), last, k);
        assert RowsOf(LinesOf(front, byDay), k) + [] == RowsOf(LinesOf(front, byDay), k);
      }
    }
  }

  /** After a full load from any table, re-running any selection of its days, in any order,
      leaves the table unchanged, if each of them brings all its lines of a key again or none. */
  lemma ReplayOfDays(t: Rows, byDay: int -> seq<Line>, byDay': int -> seq<Line>, days: seq<int>, again: seq<int>)
    requires NoRepeats(days) && NoRepeats(again) && OnOwnDay(byDay) && OnOwnDay(byDay')
    requires forall d <- again :: d in days && KeyComplete(byDay'(d), byDay(d))
    ensures Load(Load(t, LinesOf(days, byDay)), LinesOf(again, byDay')) == Load(t, LinesOf(days, byDay))
  {
    var all, part := LinesOf(days, byDay), LinesOf(again, byDay');
    forall k ensures RowsOf(part, k) == [] || RowsOf(part, k) == RowsOf(all, k) {
      assert k.1 in again ==> k.1 in days && KeyComplete(byDay'(k.1), byDay(k.1));
      RowsComeFromTheirDay(days, byDay, k);
      RowsComeFromTheirDay(again, byDay', k);
    }
    ReplayOfCompletePart(t, all, part);
  }

  lemma LinesStayOnTheirDay(tb: Table, o: Settings)
    ensures OnOwnDay(ByDay(tb, o))
  {
    forall d, l | l in ByDay(tb, o)(d) ensures l.key.1 == d {
      LinesCarryDay(tb, d, o);
    }
  }

  function LinesOfRow(tb: Table, p: Parsed): seq<Line> {
    match (tb, p)
    case (FuturesTable, Fut(f)) => [LineOf(f, None, None)]
    case (OptionsTable, Opt(o)) => [LineOf(o.base, Some(o.strike), Some(o.optionType))]
    case _ => []
  }

  ghost function LinesOfFile(tb: Table, s: Schema, rows: seq<RawRow>, q: Request): seq<Line> {
    if tb == FuturesTable then FutureLines(Futures(s, rows, q)) else OptionLines(Options(s, rows, q))
  }

  lemma LinesOfFileSnoc(tb: Table, s: Schema, rows: seq<RawRow>, q: Request)
    requires rows != []
    ensures LinesOfFile(tb, s, rows, q)
         == LinesOfFile(tb, s, rows[..|rows| - 1], q) + LinesOfRow(tb, ParseRow(s, rows[|rows| - 1], q))
  {
  }

  predicate WantsKey(tb: Table, q: Request, k: Key) {
    && (if tb == FuturesTable then q.loadFutures else q.loadOptions)
    && (NoFilter(q.symbolFilter) || ("NFO:" <= k.0 && SameLetters(q.symbolFilter.value, k.0[4..])))
  }

  lemma SymbolOfKey(x: string, y: string)
    requires "NFO:" + x == "NFO:" + y
    ensures x == y
  {
    assert ("NFO:" + x)[4..] == x && ("NFO:" + y)[4..] == y;
  }

  lemma NarrowerRow(tb: Table, s: Schema, r: RawRow, q': Request, q: Request, k: Key)
    requires Narrower(q', q)
    ensures RowsOf(LinesOfRow(tb, ParseRow(s, r, q')), k)
         == if WantsKey(tb, q', k) then RowsOf(LinesOfRow(tb, ParseRow(s, r, q)), k) else []
  {
    NarrowerOutcome(s, r, q', q);
    var p := ParseRow(s, r, q);
    if p.Fut? || p.Opt? {
      var c := if p.Fut? then p.f else p.o.base;
      assert ("NFO:" + c.symbol)[4..] == c.symbol;
    }
  }

  /** What a day loads was asked for: its kind of contract, and its symbol if there is a filter. */
  lemma {:induction false} FileHoldsWanted(tb: Table, s: Schema, rows: seq<RawRow>, q: Request)
    ensures forall l <- LinesOfFile(tb, s, rows, q) :: WantsKey(tb, q, l.key)
  {
    if rows != [] {
      var front, last := rows[..|rows| - 1], rows[|rows| - 1];
      FileHoldsWanted(tb, s, front, q);
      LinesOfFileSnoc(tb, s, rows, q);
      NarrowerOutcome(s, last, q, q);
      forall l | l in LinesOfRow(tb, ParseRow(s, last, q)) ensures WantsKey(tb, q, l.key) {
        assert ("NFO:" + l.key.0[4..])[4..] == l.key.0[4..];
      }
    }
  }

  lemma LinesAreWanted(tb: Table, d: int, o: Settings)
    ensures forall l <- LinesOfDay(tb, d, o) ::
              && (if tb == FuturesTable then o.loadFutures else o.loadOptions)
              && (NoFilter(o.symbolFilter) || ("NFO:" <= l.key.0 && SameLetters(o.symbolFilter.value, l.key.0[4..])))
  {
    if o.site(d).File? {
      FileHoldsWanted(tb, SchemaOf(d), o.site(d).rows, RequestFor(o, d));
    }
  }

  /** A narrower request brings all lines of a key or none of them. */
  lemma {:induction false} NarrowerFile(tb: Table, s: Schema, rows: seq<RawRow>, q': Request, q: Request, k: Key)
    requires Narrower(q', q)
    ensures RowsOf(LinesOfFile(tb, s, rows, q'), k)
         == if WantsKey(tb, q', k) then RowsOf(LinesOfFile(tb, s, rows, q), k) else []
  {
    if rows != [] {
      var front, last := rows[..|rows| - 1], rows[|rows| - 1];
      NarrowerFile(tb, s, front, q', q, k);
      NarrowerRow(tb, s, last, q', q, k);
      LinesOfFileSnoc(tb, s, rows, q');
      LinesOfFileSnoc(tb, s, rows, q);
      RowsOfAppend(LinesOfFile(tb, s, front, q'), LinesOfRow(tb, ParseRow(s, last, q')), k);
      RowsOfAppend(LinesOfFile(tb, s, front, q), LinesOfRow(tb, ParseRow(s, last, q)), k);
    }
  }

  /** The re-run gets nothing of the day, or the file that the load took in. */
  ghost predicate ServedAgain(d: int, o': Settings, o: Settings) {
    o'.site(d).Holiday? || RolledBack(d, o') || (o'.site(d) == o.site(d) && !RolledBack(d, o))
  }

  lemma DayIsKeyComplete(tb: Table, d: int, o': Settings, o: Settings)
    requires Narrower(RequestFor(o', d), RequestFor(o, d)) && ServedAgain(d, o', o)
    ensures KeyComplete(LinesOfDay(tb, d, o'), LinesOfDay(tb, d, o))
  {
    if LinesOfDay(tb, d, o') != [] {
      var part, all := LinesOfDay(tb, d, o'), LinesOfDay(tb, d, o);
      forall k ensures RowsOf(part, k) == [] || RowsOf(part, k) == RowsOf(all, k) {
        NarrowerFile(tb, SchemaOf(d), o.site(d).rows, RequestFor(o', d), RequestFor(o, d), k);
      }
    }
  }

  /** Re-running any sub-range of dates after a load of the whole range, across the change of
      format too, leaves both tables unchanged: with the same settings or narrower ones, and
      with each day served as it was, not at all, or rolled back this time. */
  lemma RerunOfDateRange(t: Rows, tb: Table, first: int, from: int, to: int, last: int, o: Settings, o': Settings)
    requires first <= from && to <= last
    requires forall d :: from <= d <= to ==> Narrower(RequestFor(o', d), RequestFor(o, d)) && ServedAgain(d, o', o)
    ensures var loaded := Load(t, LinesOf(WeekdaysIn(first, last), ByDay(tb, o)));
            Load(loaded, LinesOf(WeekdaysIn(from, to), ByDay(tb, o'))) == loaded
  {
    WeekdaysAre(first, last);
    WeekdaysAre(from, to);
    LinesStayOnTheirDay(tb, o);
    LinesStayOnTheirDay(tb, o');
    forall d | d in WeekdaysIn(from, to)
      ensures d in WeekdaysIn(first, last) && KeyComplete(ByDay(tb, o')(d), ByDay(tb, o)(d))
    {
      DayIsKeyComplete(tb, d, o', o);
    }
    ReplayOfDays(t, ByDay(tb, o), ByDay(tb, o'), WeekdaysIn(first, last), WeekdaysIn(from, to));
  }

  ghost predicate BadFuture(c: Candle) { c.volume < 0 || c.oi < 0 }

  ghost predicate BadOption(c: OptionCandle) { BadFuture(c.base) || c.strike < 0.005 }

  /** A downloaded day goes into both tables or into neither: into neither exactly when its
      transaction fails otherwise, or one of its candles, of either table, is refused. */
  lemma DayIsAllOrNothing(d: int, o: Settings)
    requires o.site(d).File?
    ensures var f := o.site(d);
            var futures := Futures(SchemaOf(d), f.rows, RequestFor(o, d));
            var options := Options(SchemaOf(d), f.rows, RequestFor(o, d));
            if f.fails || (exists c <- futures :: BadFuture(c)) || (exists c <- options :: BadOption(c))
            then LinesOfDay(FuturesTable, d, o) == LinesOfDay(OptionsTable, d, o) == []
            else LinesOfDay(FuturesTable, d, o) == FutureLines(futures)
                 && LinesOfDay(OptionsTable, d, o) == OptionLines(options)
  {
    RefusedIff(SchemaOf(d), o.site(d).rows, RequestFor(o, d));
  }

  /** A single option with a strike below half a paisa keeps the whole day out of both tables. */
  lemma TinyStrikeLosesDay(tb: Table, d: int, o: Settings, c: OptionCandle)
    requires o.site(d).File? && c in Options(SchemaOf(d), o.site(d).rows, RequestFor(o, d)) && c.strike < 0.005
    ensures RolledBack(d, o) && LinesOfDay(tb, d, o) == []
  {
    RefusedIff(SchemaOf(d), o.site(d).rows, RequestFor(o, d));
  }

  // ----- what the missing expiry, strike and side in the key do

  lemma LoadTwo(t: Rows, near: Line, far: Line)
    requires near.key == far.key && near.key !in t
    ensures var u := Load(t, [near, far]);
            && u.Keys == t.Keys + {near.key}
            && u[near.key].over == far.row.over && u[near.key].keep == near.row.keep
  {
    var lines := [near, far];
    assert lines[..1] == [near] && lines[..1][..0] == [];
    assert Load(t, lines[..1]) == Upsert(t, near);
  }

  lemma TwoFutures(s: Schema, r1: RawRow, r2: RawRow, q: Request, c1: Candle, c2: Candle)
    requires ParseRow(s, r1, q) == Fut(c1) && ParseRow(s, r2, q) == Fut(c2)
    ensures Futures(s, [r1, r2], q) == [c1, c2] && Options(s, [r1, r2], q) == []
  {
    var rows := [r1, r2];
    assert rows[..1] == [r1] && rows[..1][..0] == [];
    assert Futures(s, rows[..1], q) == [] + [c1] && Options(s, rows[..1], q) == [] + [];
  }

  lemma TwoFutureLines(d: int, o: Settings, r1: RawRow, r2: RawRow, c1: Candle, c2: Candle)
    requires o.site(d) == File([r1, r2], false) && Acceptable(c1) && Acceptable(c2)
    requires ParseRow(SchemaOf(d), r1, RequestFor(o, d)) == Fut(c1)
    requires ParseRow(SchemaOf(d), r2, RequestFor(o, d)) == Fut(c2)
    ensures LinesOfDay(FuturesTable, d, o) == [LineOf(c1, None, None), LineOf(c2, None, None)]
    ensures c1.date == d && c2.date == d
  {
    TwoFutures(SchemaOf(d), r1, r2, RequestFor(o, d), c1, c2);
    assert FutureLines([c1, c2]) == [LineOf(c1, None, None), LineOf(c2, None, None)];
  }

  /** A day's file with two futures of one symbol and different expiries: the table gets one
      row for both, with the prices of the second and the expiry of the first. */
  lemma ContractsCollide(t: Rows, d: int, o: Settings, r1: RawRow, r2: RawRow, c1: Candle, c2: Candle)
    requires o.site(d) == File([r1, r2], false) && KeyOf(c1) !in t
    requires ParseRow(SchemaOf(d), r1, RequestFor(o, d)) == Fut(c1)
    requires ParseRow(SchemaOf(d), r2, RequestFor(o, d)) == Fut(c2)
    requires c1.symbol == c2.symbol && c1.expiry != c2.expiry && Acceptable(c1) && Acceptable(c2)
    ensures var lines := LinesOfDay(FuturesTable, d, o);
            var u := Load(t, lines);
            && lines == [LineOf(c1, None, None), LineOf(c2, None, None)]
            && u.Keys == t.Keys + {KeyOf(c1)}
            && u[KeyOf(c1)].over == lines[1].row.over && u[KeyOf(c1)].keep.expiry == c1.expiry
            && u[KeyOf(c1)] != lines[1].row
  {
    TwoFutureLines(d, o, r1, r2, c1, c2);
    LoadTwo(t, LineOf(c1, None, None), LineOf(c2, None, None));
  }

  /** Such a file: the January and the February future of any symbol, at any closing prices. */
  lemma TwoExpiriesOneRow(d: int, o: Settings, symbol: string, close1: real, close2: real)
    requires d >= NEW_FORMAT_START && IsNormal(symbol) && close1 >= 1.0 && close2 >= 1.0
    requires o.loadFutures && NoFilter(o.symbolFilter)
    requires o.site(d) == File([PlainFuture(symbol, "2024-01-25", close1),
                                PlainFuture(symbol, "2024-02-29", close2)], false)
    ensures var u := Load(map[], LinesOfDay(FuturesTable, d, o));
            var k := ("NFO:" + symbol, d);
            && u.Keys == {k} && u[k].over.close == close2 && Some(u[k].keep.expiry) == ParseExpiry("2024-01-25")
            && ParseExpiry("2024-01-25") != ParseExpiry("2024-02-29")
  {
    ExpiriesOf2024();
    var q := RequestFor(o, d);
    PlainFutureParses(symbol, "2024-01-25", close1, q);
    PlainFutureParses(symbol, "2024-02-29", close2, q);
    var c1 := ParseRow(NEW, PlainFuture(symbol, "2024-01-25", close1), q).f;
    var c2 := ParseRow(NEW, PlainFuture(symbol, "2024-02-29", close2), q).f;
    FlatIsAcceptable(c1);
    FlatIsAcceptable(c2);
    ContractsCollide(map[], d, o, PlainFuture(symbol, "2024-01-25", close1),
                     PlainFuture(symbol, "2024-02-29", close2), c1, c2);
  }

  lemma FlatIsAcceptable(c: Candle)
    requires c.open == c.high == c.low == c.close && c.volume == 0 && c.oi == 0
    ensures Acceptable(c)
  {
  }

  lemma ExpiriesOf2024()
    ensures ParseExpiry("2024-01-25").Some? && ParseExpiry("2024-02-29").Some?
    ensures ParseExpiry("2024-01-25") != ParseExpiry("2024-02-29")
  {
    assert IsoSpelling(2024, 1, 25) == "2024-01-25" && IsoSpelling(2024, 2, 29) == "2024-02-29";
    IsoSpellingParses(2024, 1, 25);
    IsoSpellingParses(2024, 2, 29);
    assert DaysBeforeMonth(2024, 1) == 0 && DaysBeforeMonth(2024, 2) == 31;
  }

  /** A stored row is the row of the last contract traded under its key exactly when the row
      already stored or else the first contract of the file that shares the key has the same
      expiry, strike and side. (The two tables have no coalesced columns.) */
  lemma StoredContractIsGenuineIff(t: Rows, tb: Table, d: int, o: Settings, k: Key)
    requires RowsOf(LinesOfDay(tb, d, o), k) != [] && (k in t ==> t[k].filled == map[])
    ensures k in Load(t, LinesOfDay(tb, d, o))
    ensures var rs := RowsOf(LinesOfDay(tb, d, o), k);
            var kept := if k in t then t[k].keep else rs[0].keep;
            Load(t, LinesOfDay(tb, d, o))[k] == rs[|rs| - 1] <==> kept == rs[|rs| - 1].keep
  {
    LinesCarryDay(tb, d, o);
    NothingCoalesced(LinesOfDay(tb, d, o), k);
    StoredRowIsGenuineIff(t, LinesOfDay(tb, d, o), k);
    var none: map<string, string> := map[];
    assert none + none == none;
  }

  lemma {:induction false} NothingCoalesced(lines: seq<Line>, k: Key)
    requires forall l <- lines :: l.row.filled == map[]
    ensures LastFilled(RowsOf(lines, k)) == map[]
    ensures forall r <- RowsOf(lines, k) :: r.filled == map[]
  {
    if lines != [] {
      var front, last := lines[..|lines| - 1], lines[|lines| - 1];
      NothingCoalesced(front, k);
      if last.key == k {
        var rs := RowsOf(lines, k);
        assert rs == RowsOf(front, k) + [last.row];
        assert rs[..|rs| - 1] == RowsOf(front, k) && last.row.filled == map[];
        var none: map<string, string> := map[];
        assert LastFilled(rs) == none + none == none;
      } else {
        assert RowsOf(front, k) + [] == RowsOf(front, k);
      }
    }
  }

  // ----- what a day's file leaves in the tables, column for column

  lemma {:induction false} OnlyRowOf(lines: seq<Line>, i: nat)
    requires i < |lines| && forall j :: 0 <= j < |lines| && j != i ==> lines[j].key != lines[i].key
    ensures RowsOf(lines, lines[i].key) == [lines[i].row]
  {
    var front, last := lines[..|lines| - 1], lines[|lines| - 1];
    if i < |front| {
      OnlyRowOf(front, i);
      assert [lines[i].row] + [] == [lines[i].row];
    } else {
      NoRowOf(front, last.key);
    }
  }

  lemma {:induction false} NoRowOf(lines: seq<Line>, k: Key)
    requires forall j :: 0 <= j < |lines| ==> lines[j].key != k
    ensures RowsOf(lines, k) == []
  {
    if lines != [] {
      NoRowOf(lines[..|lines| - 1], k);
    }
  }

  lemma OnlyRowIsStored(t: Rows, lines: seq<Line>, i: nat)
    requires i < |lines| && forall j :: 0 <= j < |lines| && j != i ==> lines[j].key != lines[i].key
    requires lines[i].key !in t && lines[i].row.filled == map[]
    ensures At(Load(t, lines), lines[i].key) == Some(lines[i].row)
  {
    OnlyRowOf(lines, i);
    LoadClosedForm(t, lines, lines[i].key);
    var nothing: Option<Row<Overwritten, Kept, string>> := None;
    MergedSnoc(nothing, [], lines[i].row);
    assert [] + [lines[i].row] == [lines[i].row];
  }

  /** The columns of a table's row for one candle. */
  ghost predicate StoresCandle(r: Row<Overwritten, Kept, string>, c: Candle) {
    && r.over.open == c.open && r.over.high == c.high && r.over.low == c.low && r.over.close == c.close
    && r.over.volume == c.volume && r.over.oi == c.oi && r.over.oiChange == c.oiChange
    && r.over.turnover == c.turnover && r.keep.expiry == c.expiry && r.keep.underlyingId == "NSE:" + c.symbol
  }

  lemma SymbolsKeepKeysApart(c: Candle, d: Candle)
    requires c.symbol != d.symbol
    ensures KeyOf(c) != KeyOf(d)
  {
    if KeyOf(c) == KeyOf(d) {
      SymbolOfKey(c.symbol, d.symbol);
    }
  }

  /** A day's future that is the only one of its symbol is stored with every column its own. */
  lemma LoneFutureIsStored(t: Rows, d: int, o: Settings, i: nat)
    requires o.site(d).File? && !RolledBack(d, o)
    requires i < |Futures(SchemaOf(d), o.site(d).rows, RequestFor(o, d))|
    requires var cs := Futures(SchemaOf(d), o.site(d).rows, RequestFor(o, d));
             && ("NFO:" + cs[i].symbol, d) !in t
             && forall j :: 0 <= j < |cs| && j != i ==> cs[j].symbol != cs[i].symbol
    ensures var c := Futures(SchemaOf(d), o.site(d).rows, RequestFor(o, d))[i];
            var k := ("NFO:" + c.symbol, d);
            var u := Load(t, LinesOfDay(FuturesTable, d, o));
            k in u && StoresCandle(u[k], c) && u[k].keep.strike == None && u[k].keep.side == None
  {
    var cs := Futures(SchemaOf(d), o.site(d).rows, RequestFor(o, d));
    CandlesCarryDate(SchemaOf(d), o.site(d).rows, RequestFor(o, d));
    assert cs[i] in cs;
    var lines := FutureLines(cs);
    forall j | 0 <= j < |cs| && j != i ensures lines[j].key != lines[i].key {
      SymbolsKeepKeysApart(cs[j], cs[i]);
    }
    OnlyRowIsStored(t, lines, i);
  }

  /** And so is an option, with its strike and side. */
  lemma LoneOptionIsStored(t: Rows, d: int, o: Settings, i: nat)
    requires o.site(d).File? && !RolledBack(d, o)
    requires i < |Options(SchemaOf(d), o.site(d).rows, RequestFor(o, d))|
    requires var cs := Options(SchemaOf(d), o.site(d).rows, RequestFor(o, d));
             && ("NFO:" + cs[i].base.symbol, d) !in t
             && forall j :: 0 <= j < |cs| && j != i ==> cs[j].base.symbol != cs[i].base.symbol
    ensures var c := Options(SchemaOf(d), o.site(d).rows, RequestFor(o, d))[i];
            var k := ("NFO:" + c.base.symbol, d);
            var u := Load(t, LinesOfDay(OptionsTable, d, o));
            && k in u && StoresCandle(u[k], c.base)
            && u[k].keep.strike == Some(c.strike) && u[k].keep.side == Some(c.optionType)
  {
    var cs := Options(SchemaOf(d), o.site(d).rows, RequestFor(o, d));
    CandlesCarryDate(SchemaOf(d), o.site(d).rows, RequestFor(o, d));
    assert cs[i] in cs;
    var lines := OptionLines(cs);
    forall j | 0 <= j < |cs| && j != i ensures lines[j].key != lines[i].key {
      SymbolsKeepKeysApart(cs[j].base, cs[i].base);
    }
    OnlyRowIsStored(t, lines, i);
  }
}
