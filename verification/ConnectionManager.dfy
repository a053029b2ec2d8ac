/** The connection manager: three maps updated in place, one lock section per method. */
module Connections {
  import opened Collections
  import opened Symbols
  import opened Registry

  // ----- one-pair changes of the forward map, seen in the reverse index

  lemma AddPair(f: Forward, c: Conn, y: Symbol)
    ensures Inverse(f[c := HeldBy(f, c) + {y}]) == Inverse(f)[y := Holders(f, y) + {c}]
  {
    var g := f[c := HeldBy(f, c) + {y}];
    forall z ensures Holders(g, z) == if z == y then Holders(f, y) + {c} else Holders(f, z) {}
    forall z ensures z in Inverse(g) <==> z == y || z in Inverse(f) {
      InverseLookup(f, z);
      InverseLookup(g, z);
    }
  }

  lemma RemovePair(f: Forward, c: Conn, y: Symbol)
    requires c in f
    ensures var g, left := f[c := f[c] - {y}], Holders(f, y) - {c};
            Inverse(g) == if left == {} then Inverse(f) - {y} else Inverse(f)[y := left]
  {
    var g := f[c := f[c] - {y}];
    forall z ensures Holders(g, z) == if z == y then Holders(f, y) - {c} else Holders(f, z) {}
    forall z ensures z in Inverse(g) <==> Holders(g, z) != {} && (z in Inverse(f) <==> Holders(f, z) != {}) {
      InverseLookup(f, z);
      InverseLookup(g, z);
    }
  }

  /** A connection that holds nothing does not show in the reverse index. */
  lemma EmptyHolderInvisible(f: Forward, c: Conn)
    requires HeldBy(f, c) == {}
    ensures Inverse(f) == Inverse(f - {c}) == Inverse(f[c := {}])
  {
    forall z ensures Holders(f, z) == Holders(f - {c}, z) == Holders(f[c := {}], z) {}
    forall z ensures z in Inverse(f) <==> z in Inverse(f - {c})
      ensures z in Inverse(f) <==> z in Inverse(f[c := {}])
    {
      InverseLookup(f, z);
      InverseLookup(f - {c}, z);
      InverseLookup(f[c := {}], z);
    }
  }

  ghost function Unreachable(cs: set<Conn>, live: set<Conn>, failing: set<Conn>): set<Conn> {
    set c | c in cs && (c !in live || c in failing)
  }

  /** One iteration of the subscribe loop. */
  lemma NextName(f: Forward, c: Conn, names: seq<string>, i: nat)
    requires i < |names|
    ensures var g, y := AfterSubscribe(f, c, names[..i]), Normalise(names[i]);
            var held := y in HeldBy(g, c) || IsAdmitted(g, c, y);
            && AfterSubscribe(f, c, names[..i + 1]) == (if IsAdmitted(g, c, y) then g[c := HeldBy(g, c) + {y}] else g)
            && Accepted(f, c, names[..i + 1]) == Accepted(f, c, names[..i]) + (if y != "" && held then [y] else [])
            && Rejected(f, c, names[..i + 1]) == Rejected(f, c, names[..i]) + (if y == "" || held then [] else [y])
  {
    assert names[..i + 1] == names[..i] + [names[i]];
    SubscribeStep(f, c, names[..i], names[i]);
    AnswerStep(f, c, names[..i], names[i]);
  }

  class ConnectionManager {
    var connections: map<Conn, int>
    var subscriptions: map<Conn, set<Symbol>>
    var symbolSubscribers: map<Symbol, set<Conn>>

    ghost function View(): State
      reads this
    {
      State(connections, subscriptions, symbolSubscribers)
    }

    ghost predicate Valid()
      reads this
    {
      Registry.Valid(View())
    }

    constructor ()
      ensures Valid() && View() == EMPTY
    {
      connections, subscriptions, symbolSubscribers := map[], map[], map[];
      new;
      assert Pairs(subscriptions) == {};
      assert symbolSubscribers == Inverse(subscriptions);
    }

    method Connect(socket: int, id: Conn)
      requires Valid() && Enabled(View(), Op.Connect(id, socket))
      modifies this
      ensures Valid() && View() == Apply(old(View()), Op.Connect(id, socket))
    {
      ApplyKeepsValid(View(), Op.Connect(id, socket));
      EmptyHolderInvisible(subscriptions, id);
      connections := connections[id := socket];
      subscriptions := subscriptions[id := {}];
    }

    method Disconnect(c: Conn)
      requires Valid()
      modifies this
      ensures Valid() && View() == Apply(old(View()), Op.Disconnect(c))
    {
      ghost var f := subscriptions;
      ApplyKeepsValid(View(), Op.Disconnect(c));
      var symbols := if c in subscriptions then subscriptions[c] else {};
      subscriptions := subscriptions - {c};
      connections := connections - {c};
      if symbols == {} {
        EmptyHolderInvisible(f, c);
      } else {
        assert f[c := symbols] == f;
      }
      while symbols != {}
        invariant symbolSubscribers == Inverse(f[c := symbols])
        invariant subscriptions == f - {c} && connections == old(connections) - {c}
        decreases symbols
      {
        var y :| y in symbols;
        Release(c, y, f[c := symbols]);
        assert f[c := symbols][c := symbols - {y}] == f[c := symbols - {y}];
        symbols := symbols - {y};
      }
      EmptyHolderInvisible(f[c := {}], c);
      assert f[c := {}] - {c} == f - {c};
    }

    /** Takes `c` out of the bucket of `y` and drops the bucket when it becomes empty. */
    method Release(c: Conn, y: Symbol, ghost f: Forward)
      requires symbolSubscribers == Inverse(f) && c in f
      modifies this`symbolSubscribers
      ensures symbolSubscribers == Inverse(f[c := f[c] - {y}])
    {
      RemovePair(f, c, y);
      InverseLookup(f, y);
      if y in symbolSubscribers {
        var left := symbolSubscribers[y] - {c};
        symbolSubscribers := if left == {} then symbolSubscribers - {y} else symbolSubscribers[y := left];
      } else {
        assert symbolSubscribers - {y} == symbolSubscribers;
      }
    }

    /** `setdefault(...).add(...)` in both maps. */
    method Add(c: Conn, y: Symbol)
      requires symbolSubscribers == Inverse(subscriptions) && y !in HeldBy(subscriptions, c)
      modifies this`subscriptions, this`symbolSubscribers
      ensures subscriptions == old(subscriptions)[c := HeldBy(old(subscriptions), c) + {y}]
      ensures symbolSubscribers == Inverse(subscriptions)
      ensures |Pairs(subscriptions)| == |Pairs(old(subscriptions))| + 1
    {
      AddPair(subscriptions, c, y);
      InverseLookup(subscriptions, y);
      PairsAfterUpdate(subscriptions, c, HeldBy(subscriptions, c) + {y});
      symbolSubscribers := symbolSubscribers[y := (if y in symbolSubscribers then symbolSubscribers[y] else {}) + {c}];
      subscriptions := subscriptions[c := HeldBy(subscriptions, c) + {y}];
    }

    /** `sum(len(v) for v in ...)`: the number of (connection, symbol) pairs. */
    method TotalSubscriptions() returns (total: nat)
      ensures total == |Pairs(subscriptions)|
    {
      total := 0;
      var left := subscriptions;
      while left != map[]
        invariant total + |Pairs(left)| == |Pairs(subscriptions)|
        decreases |left|
      {
        var c :| c in left;
        PairsWithout(left, c);
        total := total + |left[c]|;
        left := left - {c};
      }
      assert Pairs(left) == {};
    }

    /** Returns the accepted symbols and, when some were rejected for the cap, those. */
    method Subscribe(c: Conn, names: seq<string>) returns (accepted: seq<Symbol>, error: Option<seq<Symbol>>)
      requires Valid()
      modifies this
      ensures Valid() && View() == Apply(old(View()), Op.Subscribe(c, names))
      ensures accepted == Accepted(old(subscriptions), c, names)
      ensures error == if Rejected(old(subscriptions), c, names) == [] then None
                       else Some(Rejected(old(subscriptions), c, names))
    {
      ApplyKeepsValid(View(), Op.Subscribe(c, names));
      var rejected;
      accepted, rejected := SubscribeEach(c, names);
      error := if rejected == [] then None else Some(rejected);
    }

    /** The loop of `Subscribe`. */
    method SubscribeEach(c: Conn, names: seq<string>) returns (accepted: seq<Symbol>, rejected: seq<Symbol>)
      requires symbolSubscribers == Inverse(subscriptions)
      modifies this`subscriptions, this`symbolSubscribers
      ensures subscriptions == AfterSubscribe(old(subscriptions), c, names)
      ensures symbolSubscribers == Inverse(subscriptions)
      ensures accepted == Accepted(old(subscriptions), c, names) && rejected == Rejected(old(subscriptions), c, names)
    {
      ghost var f := subscriptions;
      accepted, rejected := [], [];
      var currentTotal := TotalSubscriptions();
      for i := 0 to |names|
        invariant subscriptions == AfterSubscribe(f, c, names[..i])
        invariant symbolSubscribers == Inverse(subscriptions)
        invariant currentTotal == |Pairs(subscriptions)|
        invariant accepted == Accepted(f, c, names[..i]) && rejected == Rejected(f, c, names[..i])
      {
        NextName(f, c, names, i);
        var y := Normalise(names[i]);
        if y == "" { continue; }
        if y in HeldBy(subscriptions, c) {
          accepted := accepted + [y];
          continue;
        }
        if currentTotal >= MAX_SUBSCRIBED_SYMBOLS {
          rejected := rejected + [y];
          continue;
        }
        Add(c, y);
        accepted := accepted + [y];
        currentTotal := currentTotal + 1;
      }
      assert names[..|names|] == names;
    }

    method Unsubscribe(c: Conn, names: seq<string>) returns (removed: seq<Symbol>)
      requires Valid()
      modifies this
      ensures Valid() && View() == Apply(old(View()), Op.Unsubscribe(c, names))
      ensures removed == Removed(old(subscriptions), c, names)
    {
      ghost var f := subscriptions;
      ApplyKeepsValid(View(), Op.Unsubscribe(c, names));
      UnsubscribeNothing(f, c);
      EmptyNameNotHeld(f, c);
      removed := [];
      for i := 0 to |names|
        invariant connections == old(connections) && subscriptions == AfterUnsubscribe(f, c, names[..i])
        invariant symbolSubscribers == Inverse(subscriptions)
        invariant removed == Removed(f, c, names[..i])
      {
        assert names[..i + 1] == names[..i] + [names[i]];
        UnsubscribeStep(f, c, names[..i], names[i]);
        RemovedStep(f, c, names[..i], names[i]);
        var y := Normalise(names[i]);
        if y in HeldBy(subscriptions, c) {
          Release(c, y, subscriptions);
          subscriptions := subscriptions[c := subscriptions[c] - {y}];
          removed := removed + [y];
        }
      }
      assert names[..|names|] == names;
    }

    /** Sends to every subscriber of `y`; `failing` are the connections whose send raises. */
    method Deliver(y: Symbol, failing: set<Conn>) returns (delivered: nat, stale: set<Conn>)
      ensures stale == Stale(View(), y, failing)
      ensures delivered == |Subscribers(View(), y) - stale|
    {
      var pending := if y in symbolSubscribers then symbolSubscribers[y] else {};
      ghost var all := pending;
      delivered, stale := 0, {};
      while pending != {}
        invariant pending <= all && stale == Unreachable(all - pending, connections.Keys, failing)
        invariant delivered + |stale| + |pending| == |all|
        decreases pending
      {
        var c :| c in pending;
        pending := pending - {c};
        if c !in connections || c in failing {
          stale := stale + {c};
        } else {
          delivered := delivered + 1;
        }
      }
      assert all - pending == all;
    }

    method BroadcastTick(symbol: string, failing: set<Conn>) returns (delivered: nat)
      requires Valid()
      modifies this
      ensures Valid() && View() == Apply(old(View()), Op.Broadcast(symbol, failing))
      ensures delivered == |Subscribers(old(View()), Normalise(symbol))
                            - Stale(old(View()), Normalise(symbol), failing)|
    {
      ghost var s := View();
      var stale;
      delivered, stale := Deliver(Normalise(symbol), failing);
      var left := stale;
      WithoutNone(s);
      while left != {}
        invariant left <= stale && Valid() && View() == Without(s, stale - left)
        decreases left
      {
        var c :| c in left;
        WithoutMore(s, stale - left, c);
        Disconnect(c);
        assert stale - left + {c} == stale - (left - {c});
        left := left - {c};
      }
      assert stale - {} == stale;
    }
  }

  lemma WithoutNone(s: State)
    requires Registry.Valid(s)
    ensures forall gone: set<Conn> :: gone == {} ==> Without(s, gone) == s
  {
    assert s.forward - {} == s.forward && s.connections - {} == s.connections;
  }

  lemma WithoutMore(s: State, gone: set<Conn>, c: Conn)
    ensures Without(Without(s, gone), {c}) == Without(s, gone + {c})
  {
    assert s.forward - gone - {c} == s.forward - (gone + {c});
    assert s.connections - gone - {c} == s.connections - (gone + {c});
  }

  lemma UnsubscribeNothing(f: Forward, c: Conn)
    ensures AfterUnsubscribe(f, c, []) == f && Removed(f, c, []) == []
  {
    if c in f {
      assert f[c] - Elements(NormalForms([])) == f[c];
    }
  }

  lemma HeldAfterUnsubscribe(f: Forward, c: Conn, names: seq<string>)
    ensures HeldBy(AfterUnsubscribe(f, c, names), c) == HeldBy(f, c) - Elements(NormalForms(names))
  {
  }

  lemma EmptyNameNotHeld(f: Forward, c: Conn)
    requires WellKept(f)
    ensures "" !in HeldBy(f, c)
  {
    assert !IsNormal("");
    assert c in f && "" in f[c] ==> IsNormal("");
  }

  lemma RemovedStep(f: Forward, c: Conn, names: seq<string>, x: string)
    requires "" !in HeldBy(f, c)
    ensures var y := Normalise(x);
            Removed(f, c, names + [x]) == Removed(f, c, names) +
            if y in HeldBy(AfterUnsubscribe(f, c, names), c) then [y] else []
  {
    var y, forms, held := Normalise(x), NormalForms(names), HeldBy(f, c);
    HeldAfterUnsubscribe(f, c, names);
    RemovedElements(f, c, names);
    NormalFormsStep(names, x);
    SelectionSnoc(forms, y, held);
    SelectionSnoc(Keep(forms, held), y, held);
    assert y in Removed(f, c, names) <==> y in Elements(Removed(f, c, names));
    assert Removed(f, c, names) + [] == Removed(f, c, names);
  }

  /** The forward map after one more name of an unsubscribe request. */
  lemma UnsubscribeStep(f: Forward, c: Conn, names: seq<string>, x: string)
    requires "" !in HeldBy(f, c)
    ensures var g, y := AfterUnsubscribe(f, c, names), Normalise(x);
            AfterUnsubscribe(f, c, names + [x]) == if y in HeldBy(g, c) then g[c := g[c] - {y}] else g
  {
    var y, forms, held := Normalise(x), NormalForms(names), HeldBy(f, c);
    HeldAfterUnsubscribe(f, c, names);
    NormalFormsStep(names, x);
    ElementsSnoc(forms, y);
    var kept := held - Elements(forms);
    assert held - (Elements(forms) + {y}) == kept - {y};
    assert y !in kept ==> kept - {y} == kept;
    assert y == "" ==> NormalForms(names + [x]) == forms;
  }
}
