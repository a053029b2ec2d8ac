/** What the connection manager's operations mean, stated on the forward map alone.
    The reverse index of every specified state is recomputed from scratch by `Inverse`,
    so an operation proved to produce a `Canonical` state keeps both maps in agreement. */
module Registry {
  import opened Collections
  import opened Symbols

  type Conn = string
  type Forward = map<Conn, set<Symbol>>

  const MAX_SUBSCRIBED_SYMBOLS: nat := 500

  datatype State = State(connections: map<Conn, int>, forward: Forward, reverse: map<Symbol, set<Conn>>)

  ghost function Canonical(connections: map<Conn, int>, forward: Forward): State {
    State(connections, forward, Inverse(forward))
  }

  ghost predicate Valid(s: State) {
    && s == Canonical(s.connections, s.forward)
    && s.connections.Keys <= s.forward.Keys
    && WellKept(s.forward)
  }

  ghost predicate WellKept(f: Forward) {
    && (forall c, y :: c in f && y in f[c] ==> IsNormal(y))
    && |Pairs(f)| <= MAX_SUBSCRIBED_SYMBOLS
  }

  function HeldBy(f: Forward, c: Conn): set<Symbol> { if c in f then f[c] else {} }

  ghost function FreeSlots(f: Forward): nat {
    if |Pairs(f)| >= MAX_SUBSCRIBED_SYMBOLS then 0 else MAX_SUBSCRIBED_SYMBOLS - |Pairs(f)|
  }

  /** The symbols a request would add if there were no cap, each once, in request order. */
  ghost function Wanted(f: Forward, c: Conn, names: seq<string>): seq<Symbol> {
    Distinct(Drop(NormalForms(names), HeldBy(f, c)))
  }

  /** The cap admits the longest prefix of the wanted symbols that fits. */
  ghost function Admitted(f: Forward, c: Conn, names: seq<string>): set<Symbol> {
    Elements(Prefix(Wanted(f, c, names), FreeSlots(f)))
  }

  ghost function Grant(f: Forward, c: Conn, ys: set<Symbol>): Forward {
    if ys == {} then f else f[c := HeldBy(f, c) + ys]
  }

  ghost function AfterSubscribe(f: Forward, c: Conn, names: seq<string>): Forward {
    Grant(f, c, Admitted(f, c, names))
  }

  ghost function Accepted(f: Forward, c: Conn, names: seq<string>): seq<Symbol> {
    Keep(NormalForms(names), HeldBy(AfterSubscribe(f, c, names), c))
  }

  ghost function Rejected(f: Forward, c: Conn, names: seq<string>): seq<Symbol> {
    Drop(NormalForms(names), HeldBy(AfterSubscribe(f, c, names), c))
  }

  ghost function AfterUnsubscribe(f: Forward, c: Conn, names: seq<string>): Forward {
    if c in f then f[c := f[c] - Elements(NormalForms(names))] else f
  }

  ghost function Removed(f: Forward, c: Conn, names: seq<string>): seq<Symbol> {
    Distinct(Keep(NormalForms(names), HeldBy(f, c)))
  }

  ghost function Subscribers(s: State, y: Symbol): set<Conn> {
    if y in s.reverse then s.reverse[y] else {}
  }

  /** Subscribers a tick cannot reach: no socket any more, or the send raises. */
  ghost function Stale(s: State, y: Symbol, failing: set<Conn>): set<Conn> {
    set c | c in Subscribers(s, y) && (c !in s.connections || c in failing)
  }

  ghost function Without(s: State, gone: set<Conn>): State {
    Canonical(s.connections - gone, s.forward - gone)
  }

  // ----- runs of operations

  datatype Op =
    | Connect(conn: Conn, socket: int)
    | Disconnect(conn: Conn)
    | Subscribe(conn: Conn, names: seq<string>)
    | Unsubscribe(conn: Conn, names: seq<string>)
    | Broadcast(symbol: string, failing: set<Conn>)

  /** A connection id is a fresh UUID. */
  ghost predicate Enabled(s: State, op: Op) { op.Connect? ==> op.conn !in s.forward }

  ghost function Apply(s: State, op: Op): State {
    match op
    case Connect(c, w) => Canonical(s.connections[c := w], s.forward[c := {}])
    case Disconnect(c) => Without(s, {c})
    case Subscribe(c, names) => Canonical(s.connections, AfterSubscribe(s.forward, c, names))
    case Unsubscribe(c, names) => Canonical(s.connections, AfterUnsubscribe(s.forward, c, names))
    case Broadcast(x, failing) => Without(s, Stale(s, Normalise(x), failing))
  }

  const EMPTY := State(map[], map[], map[])

  ghost predicate Reachable(ops: seq<Op>, s: State)
    decreases |ops|
  {
    if ops == [] then s == EMPTY
    else
      var front, last := ops[..|ops| - 1], ops[|ops| - 1];
      exists t :: Reachable(front, t) && Enabled(t, last) && s == Apply(t, last)
  }

  // ----- counting

  lemma InverseLookup(f: Forward, y: Symbol)
    ensures y in Inverse(f) <==> Holders(f, y) != {}
    ensures y in Inverse(f) ==> Inverse(f)[y] == Holders(f, y)
  {
    if y in Inverse(f) {
      var c :| c in f && y in f[c];
      assert c in Holders(f, y);
    }
  }

  lemma PairsAfterUpdate(f: Forward, c: Conn, ys: set<Symbol>)
    ensures |Pairs(f[c := ys])| == |Pairs(f)| - |HeldBy(f, c)| + |ys|
  {
    PairsWithout(f[c := ys], c);
    assert f[c := ys] - {c} == f - {c};
    if c in f {
      PairsWithout(f, c);
    } else {
      assert f - {c} == f;
    }
  }

  /** One subscribe call adds exactly min(free slots, distinct new symbols) pairs. */
  lemma SubscribeGain(f: Forward, c: Conn, names: seq<string>)
    ensures var unheld := Elements(NormalForms(names)) - HeldBy(f, c);
            && |Admitted(f, c, names)| == Min(FreeSlots(f), |unheld|)
            && |Pairs(AfterSubscribe(f, c, names))| == |Pairs(f)| + Min(FreeSlots(f), |unheld|)
            && Admitted(f, c, names) <= unheld
  {
    var dropped := Drop(NormalForms(names), HeldBy(f, c));
    var wanted := Distinct(dropped);
    DropElements(NormalForms(names), HeldBy(f, c));
    DistinctElements(dropped);
    UniqueCount(wanted);
    UniqueCount(Prefix(wanted, FreeSlots(f)));
    assert Admitted(f, c, names) <= Elements(wanted);
    PairsAfterUpdate(f, c, HeldBy(f, c) + Admitted(f, c, names));
  }

  lemma NormalFormsStep(names: seq<string>, x: string)
    ensures var y := Normalise(x); NormalForms(names + [x]) == NormalForms(names) + if y == "" then [] else [y]
  {
    var all := names + [x];
    assert all[..|all| - 1] == names;
  }

  lemma WantedStep(f: Forward, c: Conn, names: seq<string>, x: string)
    ensures var y, w := Normalise(x), Wanted(f, c, names);
            Wanted(f, c, names + [x]) == if y == "" || y in HeldBy(f, c) || y in w then w else w + [y]
  {
    var y, forms := Normalise(x), NormalForms(names);
    NormalFormsStep(names, x);
    SelectionSnoc(forms, y, HeldBy(f, c));
    SelectionSnoc(Drop(forms, HeldBy(f, c)), y, {});
  }

  lemma WantedFacts(f: Forward, c: Conn, names: seq<string>)
    ensures var w := Wanted(f, c, names);
            && Elements(w) == Elements(NormalForms(names)) - HeldBy(f, c)
            && (forall i, j :: 0 <= i < j < |w| ==> w[i] != w[j])
  {
    DropElements(NormalForms(names), HeldBy(f, c));
    DistinctElements(Drop(NormalForms(names), HeldBy(f, c)));
  }

  /** The prefix that fits, after one more element that may be there already. */
  lemma PrefixStep(w: seq<Symbol>, y: Symbol, free: nat)
    requires forall i, j :: 0 <= i < j < |w| ==> w[i] != w[j]
    ensures var a := Elements(Prefix(w, free));
            && |a| == Min(free, |w|)
            && Elements(Prefix(if y in w then w else w + [y], free)) == if y !in a && |a| < free then a + {y} else a
  {
    UniqueCount(Prefix(w, free));
    PrefixSnoc(w, y, free);
    assert y in Elements(w) <==> y in w;
  }

  /** Which symbols an admitted prefix gains when one more name is requested. */
  lemma AdmittedStep(f: Forward, c: Conn, names: seq<string>, x: string)
    ensures var a, y := Admitted(f, c, names), Normalise(x);
            Admitted(f, c, names + [x]) ==
            if y != "" && y !in HeldBy(f, c) && y !in a && |a| < FreeSlots(f) then a + {y} else a
  {
    WantedStep(f, c, names, x);
    WantedFacts(f, c, names);
    PrefixStep(Wanted(f, c, names), Normalise(x), FreeSlots(f));
    AdmittedAreWanted(f, c, names);
  }

  lemma AdmittedAreWanted(f: Forward, c: Conn, names: seq<string>)
    ensures Admitted(f, c, names) <= Elements(Wanted(f, c, names))
  {
  }

  ghost predicate IsAdmitted(g: Forward, c: Conn, y: Symbol) {
    y != "" && y !in HeldBy(g, c) && |Pairs(g)| < MAX_SUBSCRIBED_SYMBOLS
  }

  lemma GrantOneMore(f: Forward, c: Conn, ys: set<Symbol>, y: Symbol)
    ensures var g := Grant(f, c, ys);
            HeldBy(g, c) == HeldBy(f, c) + ys && Grant(f, c, ys + {y}) == g[c := HeldBy(g, c) + {y}]
  {
    var g := Grant(f, c, ys);
    assert HeldBy(g, c) == HeldBy(f, c) + ys;
    assert HeldBy(f, c) + (ys + {y}) == HeldBy(g, c) + {y};
  }

  lemma AdmissionTest(f: Forward, c: Conn, names: seq<string>, y: Symbol)
    ensures var a := Admitted(f, c, names);
            IsAdmitted(AfterSubscribe(f, c, names), c, y) <==>
            y != "" && y !in HeldBy(f, c) && y !in a && |a| < FreeSlots(f)
  {
    var a := Admitted(f, c, names);
    GrantOneMore(f, c, a, y);
    SubscribeGain(f, c, names);
  }

  /** The forward map after one more requested name, from the map after the earlier ones. */
  lemma SubscribeStep(f: Forward, c: Conn, names: seq<string>, x: string)
    ensures var g, y := AfterSubscribe(f, c, names), Normalise(x);
            AfterSubscribe(f, c, names + [x]) == if IsAdmitted(g, c, y) then g[c := HeldBy(g, c) + {y}] else g
  {
    AdmittedStep(f, c, names, x);
    AdmissionTest(f, c, names, Normalise(x));
    GrantOneMore(f, c, Admitted(f, c, names), Normalise(x));
  }

  /** A requested symbol that was left out shows that the cap is reached. */
  lemma LeftOutMeansFull(f: Forward, c: Conn, names: seq<string>, y: Symbol)
    requires y in NormalForms(names) && y !in HeldBy(AfterSubscribe(f, c, names), c)
    ensures |Pairs(AfterSubscribe(f, c, names))| >= 500
  {
    var admitted, unheld := Admitted(f, c, names), Elements(NormalForms(names)) - HeldBy(f, c);
    SubscribeGain(f, c, names);
    GrantOneMore(f, c, admitted, "");
    ProperSubsetCount(admitted, unheld, y);
  }

  lemma ProperSubsetCount<T>(a: set<T>, b: set<T>, x: T)
    requires a <= b && x in b - a
    ensures |a| < |b|
  {
    SubsetCount(a, b - {x});
  }

  /** The request split by what is held, after one more symbol that was or was not granted. */
  lemma SplitStep(forms: seq<Symbol>, y: Symbol, held: set<Symbol>, granted: bool)
    requires granted ==> y != "" && y !in forms
    ensures var more, after, now := forms + (if y == "" then [] else [y]), if granted then held + {y} else held,
                                    y in held || granted;
            && Keep(more, after) == Keep(forms, held) + (if y != "" && now then [y] else [])
            && Drop(more, after) == Drop(forms, held) + (if y == "" || now then [] else [y])
  {
    var after := if granted then held + {y} else held;
    SelectionAgrees(forms, held, after);
    SelectionSnoc(forms, y, after);
  }

  lemma GrantedWasNotLeftOut(f: Forward, c: Conn, names: seq<string>, y: Symbol)
    requires IsAdmitted(AfterSubscribe(f, c, names), c, y)
    ensures y !in NormalForms(names)
  {
    if y in NormalForms(names) {
      LeftOutMeansFull(f, c, names, y);
    }
  }

  lemma HeldStep(f: Forward, c: Conn, names: seq<string>, x: string)
    ensures var g, y := AfterSubscribe(f, c, names), Normalise(x);
            HeldBy(AfterSubscribe(f, c, names + [x]), c) ==
            if IsAdmitted(g, c, y) then HeldBy(g, c) + {y} else HeldBy(g, c)
  {
    SubscribeStep(f, c, names, x);
  }

  /** The answer to one more requested name: accepted when held or admitted, else rejected. */
  lemma AnswerStep(f: Forward, c: Conn, names: seq<string>, x: string)
    ensures var g, y := AfterSubscribe(f, c, names), Normalise(x);
            var held := y in HeldBy(g, c) || IsAdmitted(g, c, y);
            && Accepted(f, c, names + [x]) == Accepted(f, c, names) + (if y != "" && held then [y] else [])
            && Rejected(f, c, names + [x]) == Rejected(f, c, names) + (if y == "" || held then [] else [y])
  {
    var g, y := AfterSubscribe(f, c, names), Normalise(x);
    HeldStep(f, c, names, x);
    NormalFormsStep(names, x);
    if IsAdmitted(g, c, y) {
      GrantedWasNotLeftOut(f, c, names, y);
    }
    SplitStep(NormalForms(names), y, HeldBy(g, c), IsAdmitted(g, c, y));
  }

  lemma RemovedElements(f: Forward, c: Conn, names: seq<string>)
    ensures Elements(Removed(f, c, names)) == HeldBy(f, c) * Elements(NormalForms(names))
  {
    KeepElements(NormalForms(names), HeldBy(f, c));
    DistinctElements(Keep(NormalForms(names), HeldBy(f, c)));
  }

  // ----- results over runs

  lemma SubscribeKeeps(f: Forward, c: Conn, names: seq<string>)
    requires WellKept(f)
    ensures WellKept(AfterSubscribe(f, c, names))
  {
    SubscribeGain(f, c, names);
    NormalFormsAreNormal(names);
    var g, admitted := AfterSubscribe(f, c, names), Admitted(f, c, names);
    forall d, y | d in g && y in g[d] ensures IsNormal(y) {
      if y in admitted {
        assert y in Elements(NormalForms(names));
      } else {
        assert d in f && y in f[d];
      }
    }
  }

  lemma ReplacingKeeps(f: Forward, c: Conn, ys: set<Symbol>)
    requires WellKept(f) && ys <= HeldBy(f, c)
    ensures WellKept(f[c := ys])
  {
    PairsAfterUpdate(f, c, ys);
    SubsetCount(ys, HeldBy(f, c));
  }

  lemma DroppingKeeps(f: Forward, gone: set<Conn>)
    requires WellKept(f)
    ensures WellKept(f - gone)
  {
    SubsetCount(Pairs(f - gone), Pairs(f));
  }

  lemma ApplyKeepsValid(s: State, op: Op)
    requires Valid(s) && Enabled(s, op)
    ensures Valid(Apply(s, op))
  {
    match op
    case Connect(c, w) => ReplacingKeeps(s.forward, c, {});
    case Disconnect(c) => DroppingKeeps(s.forward, {c});
    case Subscribe(c, names) => SubscribeKeeps(s.forward, c, names);
    case Unsubscribe(c, names) =>
      if c in s.forward {
        ReplacingKeeps(s.forward, c, s.forward[c] - Elements(NormalForms(names)));
      }
    case Broadcast(x, failing) => DroppingKeeps(s.forward, Stale(s, Normalise(x), failing));
  }

  /** Whatever the clients do, the two maps agree and the cap holds. */
  lemma {:induction false} RunsStayValid(ops: seq<Op>, s: State)
    requires Reachable(ops, s)
    ensures Valid(s)
    decreases |ops|
  {
    if ops != [] {
      var front, last := ops[..|ops| - 1], ops[|ops| - 1];
      var t :| Reachable(front, t) && Enabled(t, last) && s == Apply(t, last);
      RunsStayValid(front, t);
      ApplyKeepsValid(t, last);
    }
  }

  /** In every reachable state the two maps hold the same pairs, no bucket is empty, the
      per-connection and per-symbol totals are equal and at most 500, and the
      unique-symbol metric is bounded by them. */
  lemma CapAndAgreement(ops: seq<Op>, s: State)
    requires Reachable(ops, s)
    ensures forall c, y :: (c in s.forward && y in s.forward[c]) <==> (y in s.reverse && c in s.reverse[y])
    ensures forall y <- s.reverse :: s.reverse[y] != {}
    ensures SumSizes(s.forward) == SumSizes(s.reverse) <= 500
    ensures |s.reverse| <= SumSizes(s.forward)
  {
    RunsStayValid(ops, s);
    InverseSameTotal(s.forward);
    SumSizesCountsPairs(s.forward);
    SumSizesCountsPairs(s.reverse);
    forall c, y | c in s.forward && y in s.forward[c] ensures y in s.reverse && c in s.reverse[y] {
      assert y in Held(s.forward);
    }
    forall y | y in s.reverse ensures s.reverse[y] != {} {
      var c :| c in s.forward && y in s.forward[c];
      assert c in s.reverse[y];
    }
  }

  /** Dropping connections removes their pairs and no others. */
  lemma WithoutRemovesExactly(s: State, gone: set<Conn>)
    requires Valid(s)
    ensures Pairs(Without(s, gone).forward) == set p | p in Pairs(s.forward) && p.0 !in gone
    ensures forall y :: Subscribers(Without(s, gone), y) == Subscribers(s, y) - gone
  {
    var t := Without(s, gone);
    forall y ensures Subscribers(t, y) == Subscribers(s, y) - gone {
      assert Holders(t.forward, y) == Holders(s.forward, y) - gone;
      assert forall f: Forward :: y !in Held(f) ==> Holders(f, y) == {};
    }
  }

  /** After a broadcast no unreachable subscriber of the symbol is left in any map, and
      every reachable one still has all its subscriptions. */
  lemma BroadcastCleansUp(s: State, x: string, failing: set<Conn>)
    requires Valid(s)
    ensures var t, y := Apply(s, Broadcast(x, failing)), Normalise(x);
            && Subscribers(t, y) == Subscribers(s, y) * s.connections.Keys - failing
            && (forall c <- Stale(s, y, failing) ::
                  c !in t.connections && c !in t.forward && forall z :: c !in Subscribers(t, z))
            && (forall c :: c in s.forward && c !in Stale(s, y, failing) ==>
                  c in t.forward && t.forward[c] == s.forward[c])
  {
    WithoutRemovesExactly(s, Stale(s, Normalise(x), failing));
  }

  /** A client's own operations leave every other client's entries alone, and a connection
      keeps the socket it came with for as long as it is there. */
  lemma OnlyOwnEntriesChange(s: State, op: Op, d: Conn)
    requires Valid(s) && Enabled(s, op) && !op.Broadcast?
    ensures var t := Apply(s, op);
            && (op.conn != d ==> HeldBy(t.forward, d) == HeldBy(s.forward, d)
                                 && (d in t.connections <==> d in s.connections))
            && (d in t.connections ==>
                  if op.Connect? && op.conn == d then t.connections[d] == op.socket
                  else d in s.connections && t.connections[d] == s.connections[d])
            && forall y :: op.conn != d ==> (d in Subscribers(t, y) <==> d in Subscribers(s, y))
  {
    ApplyKeepsValid(s, op);
    forall y | op.conn != d ensures d in Subscribers(Apply(s, op), y) <==> d in Subscribers(s, y) {
      SubscriberIffHolds(s, d, y);
      SubscriberIffHolds(Apply(s, op), d, y);
    }
  }

  // ----- how a client may spell a symbol

  /** Some name of the request is a spelling of `x`. */
  ghost predicate Names(names: seq<string>, x: string) {
    !Blank(x) && exists i :: 0 <= i < |names| && SpeltAlike(names[i], x)
  }

  lemma {:induction false} NormalFormsAre(names: seq<string>, x: string)
    ensures Normalise(x) in NormalForms(names) <==> Names(names, x)
  {
    EmptyNormalFormIff(x);
    if names != [] {
      var front, last := names[..|names| - 1], names[|names| - 1];
      NormalFormsAre(front, x);
      NormalFormsAgreeIff(last, x);
      assert Names(names, x) <==> Names(front, x) || (!Blank(x) && SpeltAlike(last, x)) by {
        if i :| 0 <= i < |front| && SpeltAlike(front[i], x) {
          assert names[i] == front[i];
        }
        assert names[|names| - 1] == last;
      }
    }
  }

  lemma SubscriberIffHolds(s: State, c: Conn, y: Symbol)
    requires Valid(s)
    ensures c in Subscribers(s, y) <==> y in HeldBy(s.forward, c)
  {
    InverseLookup(s.forward, y);
    assert y in HeldBy(s.forward, c) <==> c in Holders(s.forward, y);
  }

  lemma NothingDropped(forms: seq<Symbol>, after: set<Symbol>)
    requires Drop(forms, after) == []
    ensures Elements(forms) <= after
  {
    DropElements(forms, after);
    assert Elements(Drop(forms, after)) == {};
  }

  lemma HeldAfterSubscribe(f: Forward, c: Conn, names: seq<string>)
    requires Rejected(f, c, names) == []
    ensures HeldBy(AfterSubscribe(f, c, names), c) == HeldBy(f, c) + Elements(NormalForms(names))
  {
    GrantOneMore(f, c, Admitted(f, c, names), "");
    SubscribeGain(f, c, names);
    NothingDropped(NormalForms(names), HeldBy(AfterSubscribe(f, c, names), c));
  }

  /** After a subscribe request of which nothing was rejected, the connection gets the ticks of
      a symbol exactly when it did before or the request names the symbol: in any spelling, and
      however the tick's source spells it. */
  lemma AnySpellingSubscribes(s: State, c: Conn, names: seq<string>, x: string)
    requires Valid(s) && Rejected(s.forward, c, names) == []
    ensures c in Subscribers(Apply(s, Subscribe(c, names)), Normalise(x))
            <==> c in Subscribers(s, Normalise(x)) || Names(names, x)
  {
    ApplyKeepsValid(s, Subscribe(c, names));
    SubscriberIffHolds(s, c, Normalise(x));
    SubscriberIffHolds(Apply(s, Subscribe(c, names)), c, Normalise(x));
    HeldAfterSubscribe(s.forward, c, names);
    NormalFormsAre(names, x);
    assert Normalise(x) in Elements(NormalForms(names)) <==> Normalise(x) in NormalForms(names);
  }

  /** A connection with a working socket that named a symbol in one spelling is among those a
      broadcast under another spelling counts as delivered to, and it stays subscribed. */
  lemma AnySpellingIsDelivered(s: State, c: Conn, names: seq<string>, x: string, failing: set<Conn>)
    requires Valid(s) && c in s.connections && c !in failing
    requires Rejected(s.forward, c, names) == [] && Names(names, x)
    ensures var t := Apply(s, Subscribe(c, names));
            && c in Subscribers(t, Normalise(x)) - Stale(t, Normalise(x), failing)
            && c in Subscribers(Apply(t, Broadcast(x, failing)), Normalise(x))
  {
    var t := Apply(s, Subscribe(c, names));
    AnySpellingSubscribes(s, c, names, x);
    ApplyKeepsValid(s, Subscribe(c, names));
    BroadcastCleansUp(t, x, failing);
  }

  /** An unsubscribe request takes away what it names, in any spelling, and nothing else. */
  lemma AnySpellingUnsubscribes(s: State, c: Conn, names: seq<string>, x: string)
    requires Valid(s)
    ensures c in Subscribers(Apply(s, Unsubscribe(c, names)), Normalise(x))
            <==> c in Subscribers(s, Normalise(x)) && !Names(names, x)
  {
    ApplyKeepsValid(s, Unsubscribe(c, names));
    SubscriberIffHolds(s, c, Normalise(x));
    SubscriberIffHolds(Apply(s, Unsubscribe(c, names)), c, Normalise(x));
    NormalFormsAre(names, x);
    assert Normalise(x) in Elements(NormalForms(names)) <==> Normalise(x) in NormalForms(names);
  }
}
