/** The subscribe and unsubscribe branches of the WebSocket handlers, interleaved with each
    other and with the ticks the streaming engine publishes. Each handler suspends between
    changing the manager and telling the engine; a step is what runs between two suspension
    points. */
module EngineMirror {
  import opened Collections
  import opened Symbols
  import opened Registry

  datatype Phase =
    | Idle
    | Adding(ys: seq<Symbol>)    // accepted by the manager, not yet passed to the engine
    | Dropping(ys: seq<Symbol>)  // removed from the manager, engine not yet told
    | Closing(owed: seq<Symbol>) // left its loop, disconnect still to run; `owed` never reached the engine

  datatype World = World(reg: State, engine: set<Symbol>, handlers: map<Conn, Phase>)

  datatype Step =
    | Open(c: Conn)
    | Subscribing(c: Conn, names: seq<string>)
    | Publish(c: Conn)
    | Unsubscribing(c: Conn, names: seq<string>)
    | Retire(c: Conn)
    | Fail(c: Conn)   // client gone, error or cancellation
    | Close(c: Conn)  // the handler's own final disconnect
    | Expel(c: Conn)  // disconnect by the heartbeat or by a broadcast
    | Tick(symbol: string)  // the engine publishes a tick, of any symbol as its source spells it

  /** The step of connection `c`'s handler, or one that disconnects `c`. */
  predicate Of(step: Step, c: Conn) { !step.Tick? && step.c == c }

  ghost predicate Possible(w: World, step: Step) {
    match step
    case Open(c) => c !in w.reg.forward && c !in w.handlers
    case Subscribing(c, _) => c in w.handlers && w.handlers[c].Idle?
    case Unsubscribing(c, _) => c in w.handlers && w.handlers[c].Idle?
    case Publish(c) => c in w.handlers && w.handlers[c].Adding?
    case Retire(c) => c in w.handlers && w.handlers[c].Dropping?
    case Fail(c) => c in w.handlers && !w.handlers[c].Closing?
    case Close(c) => c in w.handlers && w.handlers[c].Closing?
    case Expel(_) => true
    case Tick(_) => true
  }

  ghost function Do(w: World, step: Step): World
    requires Possible(w, step)
  {
    match step
    case Open(c) =>
      World(Apply(w.reg, Connect(c, 0)), w.engine, w.handlers[c := Idle])
    case Subscribing(c, names) =>
      World(Apply(w.reg, Subscribe(c, names)), w.engine, w.handlers[c := Adding(Accepted(w.reg.forward, c, names))])
    case Publish(c) =>
      World(w.reg, w.engine + Elements(w.handlers[c].ys), w.handlers[c := Idle])
    case Unsubscribing(c, names) =>
      World(Apply(w.reg, Unsubscribe(c, names)), w.engine, w.handlers[c := Dropping(Removed(w.reg.forward, c, names))])
    case Retire(c) =>
      // unregister only the symbols nobody subscribes to
      World(w.reg, w.engine - (Elements(w.handlers[c].ys) - w.reg.reverse.Keys), w.handlers[c := Idle])
    case Fail(c) => w.(handlers := w.handlers[c := Closing(if w.handlers[c].Adding? then w.handlers[c].ys else [])])
    case Close(c) => World(Apply(w.reg, Disconnect(c)), w.engine, w.handlers - {c})
    case Expel(c) => w.(reg := Apply(w.reg, Disconnect(c)))
    case Tick(symbol) => w.(engine := w.engine + if symbol == "" then {} else {symbol})
  }

  const START := World(EMPTY, {}, map[])

  ghost predicate Reaches(steps: seq<Step>, w: World)
    decreases |steps|
  {
    if steps == [] then w == START
    else
      var front, last := steps[..|steps| - 1], steps[|steps| - 1];
      exists v :: Reaches(front, v) && Possible(v, last) && w == Do(v, last)
  }

  // ----- no subscribed symbol is missing from the engine

  /** `y` is in the accepted list of `c`'s handler, which has not reached the engine. */
  ghost predicate Pending(w: World, c: Conn, y: Symbol) {
    c in w.handlers && match w.handlers[c]
                       case Adding(ys) => y in ys
                       case Closing(owed) => y in owed
                       case _ => false
  }

  ghost predicate Covered(w: World) {
    && Valid(w.reg)
    && w.reg.forward.Keys <= w.handlers.Keys
    && forall c, y :: y in HeldBy(w.reg.forward, c) ==> y in w.engine || Pending(w, c, y)
  }

  lemma AcceptedElements(f: Forward, c: Conn, names: seq<string>)
    ensures HeldBy(AfterSubscribe(f, c, names), c) == HeldBy(f, c) + Admitted(f, c, names)
    ensures Admitted(f, c, names) <= Elements(Accepted(f, c, names)) <= HeldBy(AfterSubscribe(f, c, names), c)
  {
    GrantOneMore(f, c, Admitted(f, c, names), "");
    KeepElements(NormalForms(names), HeldBy(AfterSubscribe(f, c, names), c));
    SubscribeGain(f, c, names);
  }

  /** The steps that leave the manager's maps alone. */
  predicate KeepsRegistry(step: Step) { step.Publish? || step.Retire? || step.Fail? || step.Tick? }

  ghost function RegistryOp(step: Step): Op
    requires !KeepsRegistry(step)
  {
    match step
    case Open(c) => Connect(c, 0)
    case Subscribing(c, names) => Subscribe(c, names)
    case Unsubscribing(c, names) => Unsubscribe(c, names)
    case _ => Disconnect(step.c)
  }

  lemma StepOnRegistry(w: World, step: Step)
    requires Possible(w, step)
    ensures Do(w, step).reg == if KeepsRegistry(step) then w.reg else Apply(w.reg, RegistryOp(step))
    ensures !KeepsRegistry(step) ==> Enabled(w.reg, RegistryOp(step))
  {
  }

  lemma HeldAfterOp(s: State, op: Op, d: Conn)
    requires Valid(s) && Enabled(s, op) && !op.Broadcast?
    ensures Valid(Apply(s, op))
    ensures var before, after := HeldBy(s.forward, d), HeldBy(Apply(s, op).forward, d);
            if op.conn != d then after == before
            else match op
                 case Subscribe(c, names) => after == before + Admitted(s.forward, c, names)
                 case Unsubscribe(c, names) => after == before - Elements(NormalForms(names))
                 case _ => after == {}
  {
    ApplyKeepsValid(s, op);
    if op.Subscribe? {
      AcceptedElements(s.forward, op.conn, op.names);
    }
  }

  /** What one connection holds after a step. */
  lemma HeldAfterStep(w: World, step: Step, d: Conn)
    requires Valid(w.reg) && Possible(w, step)
    ensures Valid(Do(w, step).reg)
    ensures var before, after := HeldBy(w.reg.forward, d), HeldBy(Do(w, step).reg.forward, d);
            if !Of(step, d) || KeepsRegistry(step) then after == before
            else match step
                 case Subscribing(c, names) => after == before + Admitted(w.reg.forward, c, names)
                 case Unsubscribing(c, names) => after == before - Elements(NormalForms(names))
                 case _ => after == {}
  {
    StepOnRegistry(w, step);
    if !KeepsRegistry(step) {
      HeldAfterOp(w.reg, RegistryOp(step), d);
    }
  }

  /** Only the handler that retires a symbol can take it out of the engine, and it leaves
      every symbol that still has a subscriber. */
  lemma EngineKeepsSubscribed(w: World, step: Step, y: Symbol)
    requires Possible(w, step) && y in w.engine && (step.Retire? ==> y in w.reg.reverse)
    ensures y in Do(w, step).engine
  {
  }

  /** An accepted list is passed on whole or kept; only the handler's own end loses it. */
  lemma PendingStays(w: World, step: Step, d: Conn, y: Symbol)
    requires Possible(w, step) && Pending(w, d, y) && step != Close(d)
    ensures y in Do(w, step).engine || Pending(Do(w, step), d, y)
  {
    if step == Publish(d) {
      assert y in Elements(w.handlers[d].ys);
    }
  }

  lemma NewPairPends(w: World, c: Conn, names: seq<string>, y: Symbol)
    requires Possible(w, Subscribing(c, names)) && y in Admitted(w.reg.forward, c, names)
    ensures Pending(Do(w, Subscribing(c, names)), c, y)
  {
    AcceptedElements(w.reg.forward, c, names);
    assert y in Elements(Accepted(w.reg.forward, c, names));
  }

  lemma PairStaysCovered(w: World, step: Step, d: Conn, y: Symbol)
    requires Covered(w) && Possible(w, step) && y in HeldBy(Do(w, step).reg.forward, d)
    ensures y in Do(w, step).engine || Pending(Do(w, step), d, y)
  {
    HeldAfterStep(w, step, d);
    if y !in HeldBy(w.reg.forward, d) {
      NewPairPends(w, d, step.names, y);
    } else if y in w.engine {
      SubscribersAre(w.reg, y);
      assert d in Holders(w.reg.forward, y);
      EngineKeepsSubscribed(w, step, y);
    } else {
      PendingStays(w, step, d, y);
    }
  }

  lemma StepKeepsCovered(w: World, step: Step)
    requires Covered(w) && Possible(w, step)
    ensures Covered(Do(w, step))
  {
    var v := Do(w, step);
    if !step.Tick? {
      HeldAfterStep(w, step, step.c);
    }
    assert v.reg.forward.Keys <= v.handlers.Keys;
    forall d, y | y in HeldBy(v.reg.forward, d) ensures y in v.engine || Pending(v, d, y) {
      PairStaysCovered(w, step, d, y);
    }
  }

  /** In every interleaving, a symbol somebody subscribes to is registered in the engine
      or is in the accepted list of that subscriber's handler, which still has to pass it on
      or failed before it could. */
  lemma {:induction false} SubscribedSymbolsAreCovered(steps: seq<Step>, w: World)
    requires Reaches(steps, w)
    ensures Covered(w)
    decreases |steps|
  {
    if steps != [] {
      var front, last := steps[..|steps| - 1], steps[|steps| - 1];
      var v :| Reaches(front, v) && Possible(v, last) && w == Do(v, last);
      SubscribedSymbolsAreCovered(front, v);
      StepKeepsCovered(v, last);
    }
  }

  ghost predicate Quiet(w: World) { forall c <- w.handlers :: w.handlers[c].Idle? }

  lemma QuietCovers(w: World)
    requires Covered(w) && Quiet(w)
    ensures w.reg.reverse.Keys <= w.engine
  {
    forall y | y in w.reg.reverse ensures y in w.engine {
      InverseLookup(w.reg.forward, y);
      var c :| c in Holders(w.reg.forward, y);
      assert y in HeldBy(w.reg.forward, c);
    }
  }

  /** With no handler in the middle of a request, every subscribed symbol is registered. */
  lemma QuietEngineHasAllSubscribed(steps: seq<Step>, w: World)
    requires Reaches(steps, w) && Quiet(w)
    ensures w.reg.reverse.Keys <= w.engine
  {
    SubscribedSymbolsAreCovered(steps, w);
    QuietCovers(w);
  }

  // ----- when the engine holds nothing else

  ghost predicate Retiring(w: World, y: Symbol, except: set<Conn>) {
    exists c :: c in w.handlers && c !in except && w.handlers[c].Dropping? && y in w.handlers[c].ys
  }

  ghost predicate Accounted(w: World, y: Symbol) { y in w.reg.reverse || Retiring(w, y, {}) }

  ghost predicate PromiseKept(w: World, c: Conn) {
    c in w.handlers && w.handlers[c].Adding? ==> Elements(w.handlers[c].ys) <= HeldBy(w.reg.forward, c)
  }

  /** Every registered symbol has a subscriber or is about to be unregistered, and every
      accepted list speaks of symbols its connection still holds. */
  ghost predicate Tidy(w: World) {
    && (forall y <- w.engine :: Accounted(w, y))
    && (forall c <- w.handlers :: PromiseKept(w, c))
  }

  /** Disconnecting never tells the engine, so it must not take the last subscriber of a
      registered symbol away. */
  ghost predicate LosesNothing(w: World, c: Conn) {
    forall y <- HeldBy(w.reg.forward, c) * w.engine :: Subscribers(w.reg, y) != {c} || Retiring(w, y, {})
  }

  ghost predicate HasAccepted(w: World, c: Conn) {
    c in w.handlers && w.handlers[c].Adding? && w.handlers[c].ys != []
  }

  /** The steps after which no registered symbol is left behind. An expelled connection must
      also not have an accepted list pending, a failing handler not owe the engine an
      unregistration, and a tick not be of a symbol without subscriber. */
  ghost predicate Harmless(w: World, step: Step)
    requires Possible(w, step)
  {
    match step
    case Expel(c) => LosesNothing(w, c) && !HasAccepted(w, c)
    case Close(c) => LosesNothing(w, c)
    case Fail(c) =>
      w.handlers[c].Dropping? ==>
        forall y <- w.handlers[c].ys :: y in w.engine ==> y in w.reg.reverse || Retiring(w, y, {c})
    case Tick(symbol) => symbol == "" || symbol in w.reg.reverse || Retiring(w, symbol, {})
    case _ => true
  }

  lemma SubscribersAre(s: State, y: Symbol)
    requires Valid(s)
    ensures Subscribers(s, y) == Holders(s.forward, y)
    ensures y in s.reverse <==> Subscribers(s, y) != {}
  {
    InverseLookup(s.forward, y);
  }

  lemma AccountedAfterDisconnect(w: World, v: World, c: Conn, y: Symbol)
    requires Valid(w.reg) && Valid(v.reg) && v.reg == Apply(w.reg, Disconnect(c))
    requires v.handlers == w.handlers || (c in w.handlers && w.handlers[c].Closing? && v.handlers == w.handlers - {c})
    ensures Accounted(v, y) <==> Subscribers(w.reg, y) - {c} != {} || Retiring(w, y, {})
  {
    WithoutRemovesExactly(w.reg, {c});
    SubscribersAre(v.reg, y);
    if Retiring(w, y, {}) {
      var d :| d in w.handlers && d !in {} && w.handlers[d].Dropping? && y in w.handlers[d].ys;
      assert d in v.handlers && v.handlers[d] == w.handlers[d];
    }
  }

  lemma PromisesAfterDisconnect(w: World, v: World, c: Conn)
    requires v.reg == Apply(w.reg, Disconnect(c)) && forall d <- w.handlers :: PromiseKept(w, d)
    requires v.handlers == w.handlers || (c in w.handlers && w.handlers[c].Closing? && v.handlers == w.handlers - {c})
    ensures (forall d <- v.handlers :: PromiseKept(v, d)) <==> !HasAccepted(w, c)
  {
    if HasAccepted(w, c) {
      assert w.handlers[c].ys[0] in Elements(w.handlers[c].ys);
      assert !PromiseKept(v, c) && c in v.handlers;
    } else {
      forall d | d in v.handlers ensures PromiseKept(v, d) {
        assert PromiseKept(w, d) && (d != c ==> HeldBy(v.reg.forward, d) == HeldBy(w.reg.forward, d));
      }
    }
  }

  lemma SymbolAfterDisconnect(w: World, v: World, c: Conn, y: Symbol)
    requires Valid(w.reg) && Valid(v.reg) && Accounted(w, y) && v.reg == Apply(w.reg, Disconnect(c))
    requires v.handlers == w.handlers || (c in w.handlers && w.handlers[c].Closing? && v.handlers == w.handlers - {c})
    ensures Accounted(v, y) <==>
            (y in HeldBy(w.reg.forward, c) ==> Subscribers(w.reg, y) != {c} || Retiring(w, y, {}))
  {
    AccountedAfterDisconnect(w, v, c, y);
    SubscribersAre(w.reg, y);
    OthersLeft(Subscribers(w.reg, y), c);
  }

  lemma OthersLeft<T>(s: set<T>, x: T)
    ensures s != {} ==> (s - {x} != {} <==> s != {x})
    ensures x !in s ==> s - {x} == s
  {
    if s != {x} && s != {} {
      var z :| z in s && z != x;
      assert z in s - {x};
    }
  }

  lemma DisconnectTidiness(w: World, v: World, c: Conn)
    requires Valid(w.reg) && Tidy(w) && v.reg == Apply(w.reg, Disconnect(c)) && v.engine == w.engine
    requires v.handlers == w.handlers || (c in w.handlers && w.handlers[c].Closing? && v.handlers == w.handlers - {c})
    ensures Tidy(v) <==> LosesNothing(w, c) && !HasAccepted(w, c)
  {
    ApplyKeepsValid(w.reg, Disconnect(c));
    PromisesAfterDisconnect(w, v, c);
    forall y | y in w.engine
      ensures Accounted(v, y) <==>
              (y in HeldBy(w.reg.forward, c) ==> Subscribers(w.reg, y) != {c} || Retiring(w, y, {}))
    {
      SymbolAfterDisconnect(w, v, c, y);
    }
  }

  lemma FailTidiness(w: World, c: Conn)
    requires Tidy(w) && Possible(w, Fail(c))
    ensures Tidy(Do(w, Fail(c))) <==> Harmless(w, Fail(c))
  {
    var v := Do(w, Fail(c));
    forall y ensures Retiring(v, y, {}) <==> Retiring(w, y, {c})
      ensures Retiring(w, y, {}) <==> Retiring(w, y, {c}) || (w.handlers[c].Dropping? && y in w.handlers[c].ys)
    {
      if Retiring(w, y, {c}) {
        var d :| d in w.handlers && d !in {c} && w.handlers[d].Dropping? && y in w.handlers[d].ys;
        assert d in v.handlers && v.handlers[d] == w.handlers[d];
      }
    }
    forall d | d in v.handlers ensures PromiseKept(v, d) {
      assert PromiseKept(w, d);
    }
    if !Harmless(w, Fail(c)) {
      var y :| y in w.handlers[c].ys && y in w.engine && y !in w.reg.reverse && !Retiring(w, y, {c});
      assert !Accounted(v, y);
    } else {
      forall y | y in v.engine ensures Accounted(v, y) {
        assert Accounted(w, y);
      }
    }
  }

  lemma PromisesAfterRequest(w: World, step: Step, d: Conn)
    requires Valid(w.reg) && Possible(w, step) && (d in w.handlers ==> PromiseKept(w, d))
    requires !step.Expel? && !step.Close? && !step.Fail? && !step.Tick?
    ensures PromiseKept(Do(w, step), d)
  {
    HeldAfterStep(w, step, d);
    if step.Subscribing? && d == step.c {
      AcceptedElements(w.reg.forward, d, step.names);
    }
  }

  lemma TickTidiness(w: World, symbol: string)
    requires Tidy(w)
    ensures Tidy(Do(w, Tick(symbol))) <==> Harmless(w, Tick(symbol))
  {
    var v := Do(w, Tick(symbol));
    forall y ensures Accounted(v, y) <==> Accounted(w, y) {
      assert Retiring(v, y, {}) <==> Retiring(w, y, {});
    }
    forall d | d in v.handlers ensures PromiseKept(v, d) {
      assert PromiseKept(w, d);
    }
    assert symbol != "" ==> symbol in v.engine;
  }

  lemma OtherStepsTidy(w: World, step: Step)
    requires Covered(w) && Tidy(w) && Possible(w, step)
    requires !step.Expel? && !step.Close? && !step.Fail? && !step.Tick?
    ensures Tidy(Do(w, step))
  {
    var v := Do(w, step);
    HeldAfterStep(w, step, step.c);
    forall d | d in v.handlers ensures PromiseKept(v, d) {
      PromisesAfterRequest(w, step, d);
    }
    forall y | y in v.engine ensures Accounted(v, y) {
      RegisteredStaysAccounted(w, step, y);
    }
  }

  /** An unregistration that is owed stays owed until its own handler settles it. */
  lemma StillRetiring(w: World, step: Step, y: Symbol)
    requires Possible(w, step) && Retiring(w, y, {}) && !step.Close? && !step.Fail? && !step.Tick?
    requires step.Retire? ==> y !in w.handlers[step.c].ys
    ensures Retiring(Do(w, step), y, {})
  {
    var v := Do(w, step);
    var d :| d in w.handlers && d !in {} && w.handlers[d].Dropping? && y in w.handlers[d].ys;
    assert d != step.c ==> d in v.handlers && v.handlers[d] == w.handlers[d];
    assert d == step.c ==> step.Expel? && v.handlers == w.handlers;
  }

  /** A subscribed symbol stays subscribed, or the unsubscribing handler owes its
      unregistration. */
  lemma StillAccounted(w: World, step: Step, y: Symbol)
    requires Valid(w.reg) && Possible(w, step) && y in w.reg.reverse
    requires !step.Expel? && !step.Close? && !step.Tick?
    ensures Accounted(Do(w, step), y)
  {
    var v, c := Do(w, step), step.c;
    HeldAfterStep(w, step, c);
    SubscribersAre(w.reg, y);
    SubscribersAre(v.reg, y);
    var d :| d in Holders(w.reg.forward, y);
    assert y in HeldBy(w.reg.forward, d);
    HeldAfterStep(w, step, d);
    if y in HeldBy(v.reg.forward, d) {
      assert d in Holders(v.reg.forward, y);
    } else if step.Unsubscribing? {
      RemovedElements(w.reg.forward, c, step.names);
      assert y in Elements(Removed(w.reg.forward, c, step.names));
      assert c in v.handlers && c !in {} && v.handlers[c].Dropping? && y in v.handlers[c].ys;
    }
  }

  lemma RegisteredStaysAccounted(w: World, step: Step, y: Symbol)
    requires Covered(w) && Tidy(w) && Possible(w, step)
    requires !step.Expel? && !step.Close? && !step.Fail? && !step.Tick? && y in Do(w, step).engine
    ensures Accounted(Do(w, step), y)
  {
    if y in w.engine && y !in w.reg.reverse {
      assert Accounted(w, y);
      StillRetiring(w, step, y);
    } else {
      if y !in w.engine {
        var c := step.c;
        assert y in Elements(w.handlers[c].ys) && PromiseKept(w, c);
        assert c in Holders(w.reg.forward, y);
        SubscribersAre(w.reg, y);
      }
      StillAccounted(w, step, y);
    }
  }

  /** The documentation says the engine is told when a consumer disconnects; the code does
      not. It also registers the symbol of every tick it publishes. A step keeps the engine
      free of left-over symbols exactly when it is harmless. */
  lemma LeavesNothingBehindIff(w: World, step: Step)
    requires Covered(w) && Tidy(w) && Possible(w, step)
    ensures Tidy(Do(w, step)) <==> Harmless(w, step)
  {
    match step
    case Expel(c) => DisconnectTidiness(w, Do(w, step), c);
    case Close(c) => DisconnectTidiness(w, Do(w, step), c);
    case Fail(c) => FailTidiness(w, c);
    case Tick(symbol) => TickTidiness(w, symbol);
    case _ => OtherStepsTidy(w, step);
  }

  /** A run all of whose steps were harmless when they were taken. */
  ghost predicate HarmlessRun(steps: seq<Step>, w: World)
    decreases |steps|
  {
    if steps == [] then w == START
    else
      var front, last := steps[..|steps| - 1], steps[|steps| - 1];
      exists v :: HarmlessRun(front, v) && Possible(v, last) && Harmless(v, last) && w == Do(v, last)
  }

  lemma {:induction false} HarmlessRunsStayTidy(steps: seq<Step>, w: World)
    requires HarmlessRun(steps, w)
    ensures Covered(w) && Tidy(w)
    decreases |steps|
  {
    if steps != [] {
      var front, last := steps[..|steps| - 1], steps[|steps| - 1];
      var v :| HarmlessRun(front, v) && Possible(v, last) && Harmless(v, last) && w == Do(v, last);
      HarmlessRunsStayTidy(front, v);
      StepKeepsCovered(v, last);
      LeavesNothingBehindIff(v, last);
    }
  }

  /** After such a run, with no handler in the middle of a request, the engine's registered
      symbols are exactly the subscribed ones. */
  lemma HarmlessRunsMirrorExactly(steps: seq<Step>, w: World)
    requires HarmlessRun(steps, w) && Quiet(w)
    ensures w.engine == w.reg.reverse.Keys
  {
    HarmlessRunsStayTidy(steps, w);
    QuietCovers(w);
    forall y | y in w.engine ensures y in w.reg.reverse {
      assert Accounted(w, y);
    }
  }

  // ----- the documented law fails: a client subscribes and the heartbeat drops it

  lemma OneWanted(f: Forward, c: Conn, y: Symbol)
    requires f == map[c := {}] && IsNormal(y)
    ensures NormalForms([y]) == [y] && Wanted(f, c, [y]) == [y]
  {
    assert [] + [y] == [y];
    NormalFormsStep([], y);
    WantedStep(f, c, [], y);
  }

  lemma OneAdmitted(f: Forward, c: Conn, y: Symbol)
    requires f == map[c := {}] && IsNormal(y)
    ensures Admitted(f, c, [y]) == {y}
  {
    OneWanted(f, c, y);
    assert Pairs(f) == {};
    assert Prefix([y], FreeSlots(f)) == [y];
    assert Elements([y]) == {y};
  }

  lemma OneSubscription(f: Forward, c: Conn, y: Symbol)
    requires f == map[c := {}] && IsNormal(y)
    ensures AfterSubscribe(f, c, [y]) == map[c := {y}] && Accepted(f, c, [y]) == [y]
  {
    OneAdmitted(f, c, y);
    GrantOne(f, c, y);
    OneWanted(f, c, y);
    KeepOne(y, {y});
  }

  lemma GrantOne(f: Forward, c: Conn, y: Symbol)
    requires f == map[c := {}]
    ensures Grant(f, c, {y}) == map[c := {y}]
  {
    assert HeldBy(f, c) + {y} == {y};
  }

  lemma KeepOne<T>(x: T, s: set<T>)
    requires x in s
    ensures Keep([x], s) == [x]
  {
    assert [x][..0] == [] && [] + [x] == [x];
  }

  lemma ReachesSnoc(steps: seq<Step>, v: World, step: Step)
    requires Reaches(steps, v) && Possible(v, step)
    ensures Reaches(steps + [step], Do(v, step))
  {
    assert (steps + [step])[..|steps + [step]| - 1] == steps;
  }

  ghost function Lone(c: Conn, held: set<Symbol>, engine: set<Symbol>, phase: Phase): World {
    World(Canonical(map[c := 0], map[c := held]), engine, map[c := phase])
  }

  lemma LoneOpens(c: Conn)
    ensures Reaches([Open(c)], Lone(c, {}, {}, Idle))
  {
    ReachesSnoc([], START, Open(c));
    assert [] + [Open(c)] == [Open(c)];
    assert Do(START, Open(c)) == Lone(c, {}, {}, Idle);
  }

  lemma LoneSubscribes(c: Conn, y: Symbol, names: seq<string>)
    requires AfterSubscribe(map[c := {}], c, names) == map[c := {y}] && Accepted(map[c := {}], c, names) == [y]
    ensures Do(Lone(c, {}, {}, Idle), Subscribing(c, names)) == Lone(c, {y}, {}, Adding([y]))
  {
  }

  lemma LonePublishes(c: Conn, y: Symbol)
    ensures Do(Lone(c, {y}, {}, Adding([y])), Publish(c)) == Lone(c, {y}, {y}, Idle)
  {
    assert Elements([y]) == {y};
  }

  lemma LoneIsExpelled(c: Conn, y: Symbol)
    ensures Do(Lone(c, {y}, {y}, Idle), Expel(c)) == World(Canonical(map[], map[]), {y}, map[c := Idle])
  {
    assert map[c := {y}] - {c} == map[] && map[c := 0] - {c} == map[];
  }

  lemma LoneRun(steps: seq<Step>, c: Conn, y: Symbol, names: seq<string>)
    requires AfterSubscribe(map[c := {}], c, names) == map[c := {y}] && Accepted(map[c := {}], c, names) == [y]
    requires Reaches(steps, Lone(c, {}, {}, Idle))
    ensures Reaches(steps + [Subscribing(c, names)] + [Publish(c)] + [Expel(c)],
                    World(Canonical(map[], map[]), {y}, map[c := Idle]))
  {
    LoneSubscribes(c, y, names);
    ReachesSnoc(steps, Lone(c, {}, {}, Idle), Subscribing(c, names));
    LonePublishes(c, y);
    ReachesSnoc(steps + [Subscribing(c, names)], Lone(c, {y}, {}, Adding([y])), Publish(c));
    LoneIsExpelled(c, y);
    ReachesSnoc(steps + [Subscribing(c, names)] + [Publish(c)], Lone(c, {y}, {y}, Idle), Expel(c));
  }

  /** One tick is enough: from the start, with no client at all, the symbol of any published
      tick stays registered. */
  lemma TickLeavesSymbolBehind(symbol: string) returns (w: World)
    requires symbol != ""
    ensures Reaches([Tick(symbol)], w)
    ensures Quiet(w) && w.engine == {symbol} && w.reg.reverse == map[]
  {
    w := World(EMPTY, {symbol}, map[]);
    assert Do(START, Tick(symbol)) == w;
    ReachesSnoc([], START, Tick(symbol));
    assert [] + [Tick(symbol)] == [Tick(symbol)];
  }

  /** Any client that subscribes to one symbol and is then dropped by the heartbeat leaves
      that symbol registered, with nobody subscribed and no handler busy. */
  lemma DisconnectLeavesSymbolBehind(c: Conn, y: Symbol) returns (w: World)
    requires IsNormal(y)
    ensures Reaches([Open(c)] + [Subscribing(c, [y])] + [Publish(c)] + [Expel(c)], w)
    ensures Quiet(w) && w.engine == {y} && w.reg.reverse == map[]
  {
    LoneOpens(c);
    OneSubscription(map[c := {}], c, y);
    LoneRun([Open(c)], c, y, [y]);
    w := World(Canonical(map[], map[]), {y}, map[c := Idle]);
  }
}
