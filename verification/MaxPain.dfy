/** Max pain of an option chain: the listed strike at which writers lose least in total. */
module MaxPain {
  import opened Collections
  import opened SortedKeys

  datatype OptionType = CE | PE | Other

  datatype Contract = Contract(strike: Option<real>, optionType: OptionType, openInterest: Option<int>)

  datatype Interest = Interest(ceOi: int, peOi: int)

  function Payoff(a: real, b: real): real { if a - b > 0.0 then a - b else 0.0 }

  function Times(p: real, n: int): real { p * n as real }

  // ----- the reference: the writers' loss summed contract by contract

  /** A call loses its writer the price above its strike, a put the price below, each time its
      open interest. An empty strike counts as 0, and so does an empty open interest. */
  ghost function ContractLoss(c: Contract, price: real): real {
    match (c.optionType, c.strike, c.openInterest)
    case (CE, Some(s), Some(n)) => if price > s then (price - s) * n as real else 0.0
    case (PE, Some(s), Some(n)) => if price < s then (s - price) * n as real else 0.0
    case (CE, None, Some(n)) => if price > 0.0 then price * n as real else 0.0
    case (PE, None, Some(n)) => if price < 0.0 then -price * n as real else 0.0
    case _ => 0.0
  }

  ghost function Loss(cs: seq<Contract>, price: real): real {
    if cs == [] then 0.0 else Loss(cs[..|cs| - 1], price) + ContractLoss(cs[|cs| - 1], price)
  }

  /** The strikes in the cells, and 0 for the empty ones. */
  ghost function Strikes(cs: seq<Contract>): set<real> {
    (set c | c in cs && c.strike.Some? :: c.strike.value) + if exists c <- cs :: c.strike.None? then {0.0} else {}
  }

  ghost predicate IsMaxPain(cs: seq<Contract>, k: real) {
    && k in Strikes(cs)
    && forall s <- Strikes(cs) :: Loss(cs, k) <= Loss(cs, s) && (s < k ==> Loss(cs, k) < Loss(cs, s))
  }

  // ----- the per-strike table

  function StrikeOf(c: Contract): real { if c.strike.Some? then c.strike.value else 0.0 }

  function OiOf(c: Contract): int { if c.openInterest.Some? then c.openInterest.value else 0 }

  lemma StrikesAre(cs: seq<Contract>, s: real)
    ensures s in Strikes(cs) <==> exists c <- cs :: StrikeOf(c) == s
  {
    if c :| c in cs && StrikeOf(c) == s {
      assert c.strike.Some? ==> c.strike.value in Strikes(cs);
    }
  }

  lemma ContractLossIs(c: Contract, price: real)
    ensures ContractLoss(c, price) ==
            match c.optionType
            case CE => Times(Payoff(price, StrikeOf(c)), OiOf(c))
            case PE => Times(Payoff(StrikeOf(c), price), OiOf(c))
            case Other => 0.0
  {
  }

  /** What strike `s` with its interest adds to the loss at `price`. */
  ghost function StrikeLoss(s: real, oi: Interest, price: real): real {
    Times(Payoff(price, s), oi.ceOi) + Times(Payoff(s, price), oi.peOi)
  }

  ghost predicate IsTable(order: seq<real>, table: map<real, Interest>) {
    && (forall i, j :: 0 <= i < j < |order| ==> order[i] != order[j])
    && (forall s :: s in order <==> s in table)
  }

  ghost function TableLoss(order: seq<real>, table: map<real, Interest>, price: real): real
    requires forall s <- order :: s in table
  {
    if order == [] then 0.0
    else
      var s := order[|order| - 1];
      TableLoss(order[..|order| - 1], table, price) + StrikeLoss(s, table[s], price)
  }

  lemma {:induction false} TableLossElsewhere(order: seq<real>, t: map<real, Interest>, u: map<real, Interest>,
      price: real)
    requires forall s <- order :: s in t && s in u && t[s] == u[s]
    ensures TableLoss(order, t, price) == TableLoss(order, u, price)
  {
    if order != [] {
      TableLossElsewhere(order[..|order| - 1], t, u, price);
    }
  }

  /** Changing the interest of one strike changes the total by that strike's change. */
  lemma {:induction false} TableLossUpdate(order: seq<real>, t: map<real, Interest>, s: real, oi: Interest, price: real)
    requires forall x <- order :: x in t
    requires s in order && forall i, j :: 0 <= i < j < |order| ==> order[i] != order[j]
    ensures TableLoss(order, t[s := oi], price) ==
            TableLoss(order, t, price) - StrikeLoss(s, t[s], price) + StrikeLoss(s, oi, price)
  {
    var front, last := order[..|order| - 1], order[|order| - 1];
    if last == s {
      TableLossElsewhere(front, t, t[s := oi], price);
    } else {
      TableLossUpdate(front, t, s, oi, price);
    }
  }

  function Added(oi: Interest, c: Contract): Interest {
    match c.optionType
    case CE => oi.(ceOi := oi.ceOi + OiOf(c))
    case PE => oi.(peOi := oi.peOi + OiOf(c))
    case Other => oi
  }

  lemma AddedLoss(s: real, oi: Interest, c: Contract, price: real)
    requires StrikeOf(c) == s
    ensures StrikeLoss(s, Added(oi, c), price) == StrikeLoss(s, oi, price) + ContractLoss(c, price)
  {
    ContractLossIs(c, price);
    Distribute(Payoff(price, s), oi.ceOi, OiOf(c));
    Distribute(Payoff(s, price), oi.peOi, OiOf(c));
  }

  lemma Distribute(p: real, m: int, n: int)
    ensures Times(p, m + n) == Times(p, m) + Times(p, n)
  {
  }

  ghost function OrderWith(order: seq<real>, t: map<real, Interest>, s: real): seq<real> {
    if s in t then order else order + [s]
  }

  /** The table with one more contract in it. */
  ghost function TableWith(t: map<real, Interest>, c: Contract): map<real, Interest> {
    var s := StrikeOf(c);
    var t0 := if s in t then t else t[s := Interest(0, 0)];
    t0[s := Added(t0[s], c)]
  }

  lemma TableStep(order: seq<real>, t: map<real, Interest>, c: Contract, price: real)
    requires IsTable(order, t)
    ensures IsTable(OrderWith(order, t, StrikeOf(c)), TableWith(t, c))
    ensures TableLoss(OrderWith(order, t, StrikeOf(c)), TableWith(t, c), price)
         == TableLoss(order, t, price) + ContractLoss(c, price)
  {
    var s := StrikeOf(c);
    if s in t {
      TableLossUpdate(order, t, s, Added(t[s], c), price);
      AddedLoss(s, t[s], c, price);
    } else {
      NewStrike(order, t, s, price);
      TableLossUpdate(order + [s], t[s := Interest(0, 0)], s, Added(Interest(0, 0), c), price);
      AddedLoss(s, Interest(0, 0), c, price);
    }
  }

  lemma NewStrike(order: seq<real>, t: map<real, Interest>, s: real, price: real)
    requires IsTable(order, t) && s !in t
    ensures IsTable(order + [s], t[s := Interest(0, 0)])
    ensures TableLoss(order + [s], t[s := Interest(0, 0)], price) == TableLoss(order, t, price)
  {
    assert (order + [s])[..|order + [s]| - 1] == order;
    TableLossElsewhere(order, t, t[s := Interest(0, 0)], price);
    assert StrikeLoss(s, Interest(0, 0), price) == 0.0;
  }

  ghost predicate SameLoss(order: seq<real>, table: map<real, Interest>, cs: seq<Contract>, price: real)
    requires IsTable(order, table)
  {
    TableLoss(order, table, price) == Loss(cs, price)
  }

  /** The table holds the contracts' open interest by strike. */
  ghost predicate Groups(order: seq<real>, table: map<real, Interest>, cs: seq<Contract>) {
    IsTable(order, table) && table.Keys == Strikes(cs) && forall price :: SameLoss(order, table, cs, price)
  }

  lemma SameLossWith(order: seq<real>, t: map<real, Interest>, cs: seq<Contract>, c: Contract, price: real)
    requires IsTable(order, t) && SameLoss(order, t, cs, price)
    ensures IsTable(OrderWith(order, t, StrikeOf(c)), TableWith(t, c))
    ensures SameLoss(OrderWith(order, t, StrikeOf(c)), TableWith(t, c), cs + [c], price)
  {
    TableStep(order, t, c, price);
    assert (cs + [c])[..|cs + [c]| - 1] == cs;
  }

  lemma SameLossesWith(order: seq<real>, t: map<real, Interest>, cs: seq<Contract>, c: Contract)
    requires IsTable(order, t) && forall price :: SameLoss(order, t, cs, price)
    ensures IsTable(OrderWith(order, t, StrikeOf(c)), TableWith(t, c))
    ensures forall price :: SameLoss(OrderWith(order, t, StrikeOf(c)), TableWith(t, c), cs + [c], price)
  {
    forall price: real { SameLossWith(order, t, cs, c, price); }
    SameLossWith(order, t, cs, c, 0.0);
  }

  lemma OneMoreContract(order: seq<real>, t: map<real, Interest>, cs: seq<Contract>, c: Contract)
    requires Groups(order, t, cs)
    ensures Groups(OrderWith(order, t, StrikeOf(c)), TableWith(t, c), cs + [c])
  {
    StrikesSnoc(cs, c);
    SameLossesWith(order, t, cs, c);
    KeysWith(t, c);
  }

  lemma KeysWith(t: map<real, Interest>, c: Contract)
    ensures TableWith(t, c).Keys == t.Keys + {StrikeOf(c)}
  {
  }

  lemma NothingGrouped()
    ensures Groups([], map[], [])
  {
  }

  /** Groups open interest by strike, keeping the strikes in first-seen order. */
  method GroupByStrike(contracts: seq<Contract>) returns (order: seq<real>, table: map<real, Interest>)
    ensures Groups(order, table, contracts)
  {
    order, table := [], map[];
    NothingGrouped();
    for i := 0 to |contracts|
      invariant Groups(order, table, contracts[..i])
    {
      var c := contracts[i];
      var s := StrikeOf(c);
      OneMoreContract(order, table, contracts[..i], c);
      assert contracts[..i + 1] == contracts[..i] + [c];
      ghost var order', table' := OrderWith(order, table, s), TableWith(table, c);
      if s !in table {
        order := order + [s];
        table := table[s := Interest(0, 0)];
      }
      table := table[s := Added(table[s], c)];
      assert order == order' && table == table';
    }
    assert contracts[..|contracts|] == contracts;
  }

  lemma StrikesSnoc(cs: seq<Contract>, c: Contract)
    ensures Strikes(cs + [c]) == Strikes(cs) + {StrikeOf(c)}
  {
    forall s ensures s in Strikes(cs + [c]) <==> s in Strikes(cs) || s == StrikeOf(c) {
      StrikesAre(cs, s);
      StrikesAre(cs + [c], s);
      if s == StrikeOf(c) {
        assert c in cs + [c];
      }
      if s in Strikes(cs) {
        var d :| d in cs && StrikeOf(d) == s;
        assert d in cs + [c];
      }
    }
  }

  method TotalLoss(order: seq<real>, table: map<real, Interest>, candidate: real) returns (total: real)
    requires forall s <- order :: s in table
    ensures total == TableLoss(order, table, candidate)
  {
    total := 0.0;
    for i := 0 to |order|
      invariant total == TableLoss(order[..i], table, candidate)
    {
      var s := order[i];
      assert order[..i + 1][..i] == order[..i];
      total := total + Times(Payoff(candidate, s), table[s].ceOi);
      total := total + Times(Payoff(s, candidate), table[s].peOi);
    }
    assert order[..|order|] == order;
  }

  lemma NoStrikesIff(cs: seq<Contract>)
    ensures Strikes(cs) == {} <==> cs == []
  {
    if cs != [] {
      StrikesAre(cs, StrikeOf(cs[0]));
      assert cs[0] in cs;
    }
  }

  ghost predicate BestSoFar(cs: seq<Contract>, seen: seq<real>, k: real) {
    && k in seen
    && forall s <- seen :: Loss(cs, k) <= Loss(cs, s) && (s < k ==> Loss(cs, k) < Loss(cs, s))
  }

  /** The scan over ascending candidates; only a strictly smaller loss replaces the best. */
  method CheapestCandidate(order: seq<real>, table: map<real, Interest>, all: seq<real>, ghost contracts: seq<Contract>)
    returns (strike: Option<real>)
    requires forall s <- order :: s in table
    requires IsTable(order, table) && forall price :: SameLoss(order, table, contracts, price)
    requires forall i, j :: 0 <= i < j < |all| ==> all[i] < all[j]
    ensures all == [] ==> strike == None
    ensures all != [] ==> strike.Some? && BestSoFar(contracts, all, strike.value)
  {
    var minPain: Option<real> := None;  // no candidate yet: infinity
    strike := None;
    for i := 0 to |all|
      invariant minPain.Some? == strike.Some? == (i > 0)
      invariant i > 0 ==> BestSoFar(contracts, all[..i], strike.value) && minPain.value == Loss(contracts, strike.value)
    {
      assert all[..i + 1] == all[..i] + [all[i]];
      var total := TotalLoss(order, table, all[i]);
      assert SameLoss(order, table, contracts, all[i]);
      if minPain == None || total < minPain.value {
        minPain, strike := Some(total), Some(all[i]);
      }
    }
    assert all[..|all|] == all;
  }

  method ComputeMaxPain(contracts: seq<Contract>) returns (strike: Option<real>)
    ensures strike == None <==> contracts == []
    ensures strike.Some? ==> IsMaxPain(contracts, strike.value)
  {
    var order, table := GroupByStrike(contracts);
    NoStrikesIff(contracts);
    if table == map[] { return None; }
    var all := Sorted(table.Keys, RealLe);
    strike := CheapestCandidate(order, table, all, contracts);
  }

  // ----- the returned strike is optimal over every settlement price

  ghost function TotalOi(cs: seq<Contract>, side: OptionType): int {
    if cs == [] then 0
    else
      var c := cs[|cs| - 1];
      TotalOi(cs[..|cs| - 1], side) + if c.optionType == side && c.openInterest.Some? then c.openInterest.value else 0
  }

  /** `u` is the value at `x` of the line through `v` at `a` and `w` at `b`. */
  ghost predicate OnLine(a: real, x: real, b: real, v: real, u: real, w: real) {
    (b - a) * u == (b - x) * v + (x - a) * w
  }

  lemma LinesAdd(a: real, x: real, b: real, v: real, u: real, w: real, v': real, u': real, w': real)
    requires OnLine(a, x, b, v, u, w) && OnLine(a, x, b, v', u', w')
    ensures OnLine(a, x, b, v + v', u + u', w + w')
  {
  }

  lemma LineTimes(a: real, x: real, b: real, v: real, u: real, w: real, n: int)
    requires OnLine(a, x, b, v, u, w)
    ensures OnLine(a, x, b, Times(v, n), Times(u, n), Times(w, n))
  {
    var m := n as real;
    assert (b - a) * (u * m) == ((b - a) * u) * m;
    assert (b - x) * (v * m) == ((b - x) * v) * m;
    assert (x - a) * (w * m) == ((x - a) * w) * m;
  }

  /** A payoff is a line where its strike is not strictly inside. */
  lemma PayoffOnLine(s: real, a: real, x: real, b: real)
    requires a <= x <= b && (s <= a || s >= b)
    ensures OnLine(a, x, b, Payoff(a, s), Payoff(x, s), Payoff(b, s))
    ensures OnLine(a, x, b, Payoff(s, a), Payoff(s, x), Payoff(s, b))
  {
    assert (b - a) * (x - s) == (b - x) * (a - s) + (x - a) * (b - s);
    assert (b - a) * (s - x) == (b - x) * (s - a) + (x - a) * (s - b);
  }

  lemma ContractOnLine(c: Contract, a: real, x: real, b: real)
    requires a <= x <= b && (StrikeOf(c) <= a || StrikeOf(c) >= b)
    ensures OnLine(a, x, b, ContractLoss(c, a), ContractLoss(c, x), ContractLoss(c, b))
  {
    var s, n := StrikeOf(c), OiOf(c);
    PayoffOnLine(s, a, x, b);
    ContractLossIs(c, a);
    ContractLossIs(c, x);
    ContractLossIs(c, b);
    match c.optionType
    case CE => LineTimes(a, x, b, Payoff(a, s), Payoff(x, s), Payoff(b, s), n);
    case PE => LineTimes(a, x, b, Payoff(s, a), Payoff(s, x), Payoff(s, b), n);
    case Other =>
  }

  ghost predicate NoneInside(cs: seq<Contract>, a: real, b: real) {
    forall i :: 0 <= i < |cs| ==> StrikeOf(cs[i]) <= a || StrikeOf(cs[i]) >= b
  }

  /** Between two prices with no strike strictly inside, the loss is a line. */
  lemma {:induction false} LossOnLine(cs: seq<Contract>, a: real, x: real, b: real)
    requires a <= x <= b && NoneInside(cs, a, b)
    ensures OnLine(a, x, b, Loss(cs, a), Loss(cs, x), Loss(cs, b))
  {
    if cs != [] {
      var front, c := cs[..|cs| - 1], cs[|cs| - 1];
      LossOnLine(front, a, x, b);
      ContractOnLine(c, a, x, b);
      LinesAdd(a, x, b, Loss(front, a), Loss(front, x), Loss(front, b),
               ContractLoss(c, a), ContractLoss(c, x), ContractLoss(c, b));
    }
  }

  lemma SlopeOfContract(c: Contract, a: real, x: real, side: OptionType)
    requires if side == CE then StrikeOf(c) <= a <= x else side == PE && x <= a <= StrikeOf(c)
    ensures ContractLoss(c, x) == ContractLoss(c, a) +
            Times(if side == CE then x - a else a - x, if c.optionType == side then OiOf(c) else 0)
  {
    var s, n := StrikeOf(c), OiOf(c) as real;
    ContractLossIs(c, a);
    ContractLossIs(c, x);
    assert (x - s) * n == (a - s) * n + (x - a) * n;
    assert (s - x) * n == (s - a) * n + (a - x) * n;
  }

  /** Beyond the outermost strikes the loss grows with the open interest of one side:
      calls above the highest strike, puts below the lowest. */
  lemma {:induction false} LossBeyond(cs: seq<Contract>, a: real, x: real, side: OptionType)
    requires if side == CE then a <= x else side == PE && x <= a
    requires forall i :: 0 <= i < |cs| ==> if side == CE then StrikeOf(cs[i]) <= a else a <= StrikeOf(cs[i])
    ensures Loss(cs, x) == Loss(cs, a) + Times(if side == CE then x - a else a - x, TotalOi(cs, side))
  {
    var d := if side == CE then x - a else a - x;
    if cs == [] {
      assert Times(d, 0) == 0.0;
    } else {
      var front, c := cs[..|cs| - 1], cs[|cs| - 1];
      LossBeyond(front, a, x, side);
      SlopeOfContract(c, a, x, side);
      Distribute(d, TotalOi(front, side), if c.optionType == side then OiOf(c) else 0);
    }
  }

  lemma SignOf(p: real, d: real)
    requires p > 0.0
    ensures p * d >= 0.0 <==> d >= 0.0
  {
  }

  lemma ProductNonNegative(p: real, d: real)
    requires p >= 0.0 && d >= 0.0
    ensures p * d >= 0.0
  {
  }

  /** A line is nowhere between its ends below both of them. */
  lemma BetweenEnds(a: real, x: real, b: real, v: real, u: real, w: real, m: real)
    requires a <= x <= b && a < b && OnLine(a, x, b, v, u, w) && m <= v && m <= w
    ensures m <= u
  {
    ProductNonNegative(b - x, v - m);
    ProductNonNegative(x - a, w - m);
    assert (b - a) * (u - m) == (b - x) * (v - m) + (x - a) * (w - m);
    SignOf(b - a, u - m);
  }

  lemma TimesNonNegative(d: real, n: int)
    requires d >= 0.0 && n >= 0
    ensures Times(d, n) >= 0.0
  {
  }

  lemma StrikesListed(cs: seq<Contract>)
    ensures forall i :: 0 <= i < |cs| ==> StrikeOf(cs[i]) in Strikes(cs)
  {
    forall i | 0 <= i < |cs| ensures StrikeOf(cs[i]) in Strikes(cs) {
      StrikesAre(cs, StrikeOf(cs[i]));
      assert cs[i] in cs;
    }
  }

  lemma OptimalBeyond(cs: seq<Contract>, k: real, a: real, x: real, side: OptionType)
    requires IsMaxPain(cs, k) && TotalOi(cs, side) >= 0 && a in Strikes(cs)
    requires if side == CE then a <= x else side == PE && x <= a
    requires forall s <- Strikes(cs) :: if side == CE then s <= a else a <= s
    ensures Loss(cs, k) <= Loss(cs, x)
  {
    StrikesListed(cs);
    LossBeyond(cs, a, x, side);
    TimesNonNegative(if side == CE then x - a else a - x, TotalOi(cs, side));
  }

  lemma OptimalBetween(cs: seq<Contract>, k: real, a: real, x: real, b: real)
    requires IsMaxPain(cs, k) && a in Strikes(cs) && b in Strikes(cs) && a <= x <= b
    requires forall s <- Strikes(cs) :: s <= a || s >= b
    ensures Loss(cs, k) <= Loss(cs, x)
  {
    if a < b {
      StrikesListed(cs);
      LossOnLine(cs, a, x, b);
      BetweenEnds(a, x, b, Loss(cs, a), Loss(cs, x), Loss(cs, b), Loss(cs, k));
    } else {
      assert x == a;
    }
  }

  lemma OptimalAt(cs: seq<Contract>, k: real, x: real)
    requires IsMaxPain(cs, k) && TotalOi(cs, CE) >= 0 && TotalOi(cs, PE) >= 0
    ensures Loss(cs, k) <= Loss(cs, x)
  {
    var below := set s | s in Strikes(cs) && s <= x;
    var above := set s | s in Strikes(cs) && x <= s;
    if below == {} {
      var a := Least(Strikes(cs), RealLe);
      assert a !in below;
      OptimalBeyond(cs, k, a, x, PE);
    } else if above == {} {
      var a := Least(Strikes(cs), RealGe);
      assert a !in above;
      OptimalBeyond(cs, k, a, x, CE);
    } else {
      var a, b := Least(below, RealGe), Least(above, RealLe);
      assert a in below && b in above;
      forall s | s in Strikes(cs) ensures s <= a || s >= b {
        assert s in below || s in above;
      }
      OptimalBetween(cs, k, a, x, b);
    }
  }

  /** A price far enough out that a negative slope beats any given loss. */
  lemma FarOut(base: real, target: real, n: int) returns (d: real)
    requires n < 0
    ensures d >= 0.0 && base + Times(d, n) < target
  {
    var gap := if base > target then base - target + 1.0 else 1.0;
    d := gap / (-n) as real;
    assert d * (-n) as real == gap;
    assert d * n as real == -gap;
  }

  /** Only listed strikes are searched, yet the result is least over every settlement price
      exactly when neither side's total open interest is negative. */
  lemma OptimalOverAllPricesIff(cs: seq<Contract>, k: real)
    requires IsMaxPain(cs, k)
    ensures (forall x: real :: Loss(cs, k) <= Loss(cs, x)) <==> TotalOi(cs, CE) >= 0 && TotalOi(cs, PE) >= 0
  {
    if TotalOi(cs, CE) >= 0 && TotalOi(cs, PE) >= 0 {
      forall x: real ensures Loss(cs, k) <= Loss(cs, x) {
        OptimalAt(cs, k, x);
      }
    } else {
      var x := UnboundedBelow(cs, k, if TotalOi(cs, CE) < 0 then CE else PE);
    }
  }

  lemma UnboundedBelow(cs: seq<Contract>, k: real, side: OptionType) returns (x: real)
    requires IsMaxPain(cs, k) && (side == CE || side == PE) && TotalOi(cs, side) < 0
    ensures Loss(cs, x) < Loss(cs, k)
  {
    StrikesListed(cs);
    var a := if side == CE then Least(Strikes(cs), RealGe) else Least(Strikes(cs), RealLe);
    var d := FarOut(Loss(cs, a), Loss(cs, k), TotalOi(cs, side));
    x := if side == CE then a + d else a - d;
    LossBeyond(cs, a, x, side);
  }

  ghost predicate NonNegativeOi(cs: seq<Contract>) {
    forall c <- cs :: c.openInterest.Some? ==> c.openInterest.value >= 0
  }

  lemma {:induction false} NonNegativeTotals(cs: seq<Contract>, side: OptionType)
    requires NonNegativeOi(cs)
    ensures TotalOi(cs, side) >= 0
  {
    if cs != [] {
      NonNegativeTotals(cs[..|cs| - 1], side);
    }
  }

  /** With non-negative open interest the result is optimal over every settlement price. */
  lemma MaxPainIsOptimal(cs: seq<Contract>, k: real, x: real)
    requires NonNegativeOi(cs) && IsMaxPain(cs, k)
    ensures Loss(cs, k) <= Loss(cs, x)
  {
    NonNegativeTotals(cs, CE);
    NonNegativeTotals(cs, PE);
    OptimalAt(cs, k, x);
  }

  // ----- the result does not depend on how the rows are arranged

  lemma MaxPainUnique(cs: seq<Contract>, ds: seq<Contract>, k: real, l: real)
    requires Strikes(cs) == Strikes(ds) && forall x :: Loss(cs, x) == Loss(ds, x)
    requires IsMaxPain(cs, k) && IsMaxPain(ds, l)
    ensures k == l
  {
  }

  lemma {:induction false} LossAppend(a: seq<Contract>, b: seq<Contract>, price: real)
    ensures Loss(a + b, price) == Loss(a, price) + Loss(b, price)
  {
    if b == [] {
      assert a + b == a;
    } else {
      LossAppend(a, b[..|b| - 1], price);
      assert (a + b)[..|a + b| - 1] == a + b[..|b| - 1];
    }
  }

  lemma WithoutOne(front: seq<Contract>, c: Contract, left: seq<Contract>, right: seq<Contract>)
    requires multiset(front + [c]) == multiset(left + ([c] + right))
    ensures multiset(front) == multiset(left + right)
  {
    assert multiset(front + [c]) == multiset(front) + multiset{c};
    assert multiset([c] + right) == multiset{c} + multiset(right);
    assert multiset(left + ([c] + right)) == multiset(left) + multiset{c} + multiset(right);
    assert multiset(front) == multiset(front + [c]) - multiset{c};
    assert multiset(left + right) == multiset(left + ([c] + right)) - multiset{c};
  }

  lemma {:induction false} LossPermuted(a: seq<Contract>, b: seq<Contract>, price: real)
    requires multiset(a) == multiset(b)
    ensures Loss(a, price) == Loss(b, price)
  {
    if a == [] {
      assert |b| == |multiset(b)| == 0;
    } else {
      var front, c := a[..|a| - 1], a[|a| - 1];
      assert a == front + [c];
      assert c in multiset(a);
      var i :| 0 <= i < |b| && b[i] == c;
      var left, right := b[..i], b[i + 1..];
      assert b == left + ([c] + right);
      WithoutOne(front, c, left, right);
      LossPermuted(front, left + right, price);
      LossAppend(left, right, price);
      LossAppend(left, [c] + right, price);
      LossAppend([c], right, price);
      assert Loss([c], price) == ContractLoss(c, price);
    }
  }

  /** Reordering the contracts does not change the result. */
  lemma PermutationInvariant(a: seq<Contract>, b: seq<Contract>, k: real, l: real)
    requires multiset(a) == multiset(b) && IsMaxPain(a, k) && IsMaxPain(b, l)
    ensures k == l
  {
    forall x ensures Loss(a, x) == Loss(b, x) {
      LossPermuted(a, b, x);
    }
    assert forall c :: c in a <==> c in multiset(b);
    forall s ensures s in Strikes(a) <==> s in Strikes(b) {
      StrikesAre(a, s);
      StrikesAre(b, s);
    }
    assert Strikes(a) == Strikes(b);
    MaxPainUnique(a, b, k, l);
  }

  /** Splitting one contract's open interest over two rows does not change the result. */
  lemma SplittingInvariant(a: seq<Contract>, c: Contract, m: int, n: int, b: seq<Contract>, k: real, l: real)
    requires m + n == if c.openInterest.Some? then c.openInterest.value else 0
    requires IsMaxPain(a + [c] + b, k)
    requires IsMaxPain(a + [c.(openInterest := Some(m)), c.(openInterest := Some(n))] + b, l)
    ensures k == l
  {
    var c1, c2 := c.(openInterest := Some(m)), c.(openInterest := Some(n));
    forall x ensures Loss(a + [c] + b, x) == Loss(a + [c1, c2] + b, x) {
      SplitLoss(c, m, n, x);
      LossAppend(a + [c], b, x);
      LossAppend(a, [c], x);
      LossAppend(a + [c1, c2], b, x);
      LossAppend(a, [c1, c2], x);
    }
    StrikesAppend(a + [c], b);
    StrikesAppend(a, [c]);
    StrikesAppend(a + [c1, c2], b);
    StrikesAppend(a, [c1, c2]);
    StrikesSnoc([], c);
    StrikesSnoc([], c1);
    StrikesSnoc([c1], c2);
    assert [] + [c] == [c] && [] + [c1] == [c1] && [c1] + [c2] == [c1, c2];
    assert Strikes([]) == {};
    MaxPainUnique(a + [c] + b, a + [c1, c2] + b, k, l);
  }

  lemma SplitLoss(c: Contract, m: int, n: int, price: real)
    requires OiOf(c) == m + n
    ensures Loss([c], price) == Loss([c.(openInterest := Some(m)), c.(openInterest := Some(n))], price)
  {
    var c1, c2 := c.(openInterest := Some(m)), c.(openInterest := Some(n));
    assert [c1, c2][..1] == [c1];
    ContractLossIs(c, price);
    ContractLossIs(c1, price);
    ContractLossIs(c2, price);
    Distribute(Payoff(price, StrikeOf(c)), m, n);
    Distribute(Payoff(StrikeOf(c), price), m, n);
  }

  lemma StrikesAppend(a: seq<Contract>, b: seq<Contract>)
    ensures Strikes(a + b) == Strikes(a) + Strikes(b)
  {
    forall s ensures s in Strikes(a + b) <==> s in Strikes(a) || s in Strikes(b) {
      StrikesAre(a, s);
      StrikesAre(b, s);
      StrikesAre(a + b, s);
      if s in Strikes(a) {
        var c :| c in a && StrikeOf(c) == s;
        assert c in a + b;
      }
      if s in Strikes(b) {
        var c :| c in b && StrikeOf(c) == s;
        assert c in a + b;
      }
    }
  }
}
