/** A broadcast whose sends suspend: other operations run between reading the subscribers,
    each send and each clean-up. */
module InterleavedBroadcast {
  import opened Collections
  import opened Symbols
  import opened Registry

  /** `pending` are the subscribers still to be sent to, `stale` those found unreachable,
      `cleaned` the stale ones already disconnected. */
  datatype Sending = Sending(reg: State, pending: set<Conn>, stale: set<Conn>, cleaned: set<Conn>, delivered: nat)

  datatype Act =
    | Other(op: Op)
    | Send(c: Conn, ok: bool)
    | Clean(c: Conn)

  ghost function Begun(s: State, x: string): Sending { Sending(s, Subscribers(s, Normalise(x)), {}, {}, 0) }

  ghost predicate Possible(b: Sending, a: Act) {
    match a
    case Other(op) => Enabled(b.reg, op)
    case Send(c, _) => c in b.pending
    case Clean(c) => b.pending == {} && c in b.stale - b.cleaned
  }

  ghost function Do(b: Sending, a: Act): Sending {
    match a
    case Other(op) => b.(reg := Apply(b.reg, op))
    case Send(c, ok) =>
      if c in b.reg.connections && ok
      then b.(pending := b.pending - {c}, delivered := b.delivered + 1)
      else b.(pending := b.pending - {c}, stale := b.stale + {c})
    case Clean(c) => b.(reg := Apply(b.reg, Disconnect(c)), cleaned := b.cleaned + {c})
  }

  ghost function After(b: Sending, acts: seq<Act>): Option<Sending> {
    if acts == [] then Some(b)
    else match After(b, acts[..|acts| - 1])
         case None => None
         case Some(d) => if Possible(d, acts[|acts| - 1]) then Some(Do(d, acts[|acts| - 1])) else None
  }

  ghost predicate Finished(b: Sending) { b.pending == {} && b.stale <= b.cleaned }

  /** The connections that asked for something since the broadcast last cleaned them up. */
  ghost function Returned(acts: seq<Act>): set<Conn> {
    if acts == [] then {}
    else
      var before := Returned(acts[..|acts| - 1]);
      match acts[|acts| - 1]
      case Other(op) => if op.Connect? || op.Subscribe? then before + {op.conn} else before
      case Send(_, _) => before
      case Clean(c) => before - {c}
  }

  ghost predicate Absent(s: State, c: Conn) {
    c !in s.connections && c !in s.forward && forall y :: c !in Subscribers(s, y)
  }

  lemma AbsentIff(s: State, c: Conn)
    requires Valid(s)
    ensures Absent(s, c) <==> c !in s.forward
  {
    if c !in s.forward {
      forall y ensures c !in Subscribers(s, y) {
        InverseLookup(s.forward, y);
      }
    }
  }

  lemma NobodyElseReturns(s: State, op: Op, c: Conn)
    requires c !in s.forward && (op.Connect? || op.Subscribe? ==> op.conn != c)
    ensures c !in Apply(s, op).forward
  {
  }

  ghost predicate Kept(b: Sending, returned: set<Conn>, subscribers: set<Conn>) {
    && Valid(b.reg)
    && b.pending !! b.stale && b.pending + b.stale <= subscribers && b.cleaned <= b.stale
    && b.delivered + |b.stale| + |b.pending| == |subscribers|
    && forall c <- b.cleaned :: c in returned || c !in b.reg.forward
  }

  lemma {:induction false} RunsKeep(s: State, x: string, acts: seq<Act>)
    requires Valid(s) && After(Begun(s, x), acts).Some?
    ensures Kept(After(Begun(s, x), acts).value, Returned(acts), Subscribers(s, Normalise(x)))
  {
    if acts != [] {
      var front, a := acts[..|acts| - 1], acts[|acts| - 1];
      RunsKeep(s, x, front);
      ActKeeps(After(Begun(s, x), front).value, a, front, Subscribers(s, Normalise(x)));
      assert acts == front + [a];
    }
  }

  lemma OtherKeeps(b: Sending, op: Op, front: seq<Act>, subscribers: set<Conn>)
    requires Kept(b, Returned(front), subscribers) && Enabled(b.reg, op)
    ensures Kept(Do(b, Other(op)), Returned(front + [Other(op)]), subscribers)
  {
    assert (front + [Other(op)])[..|front + [Other(op)]| - 1] == front;
    ApplyKeepsValid(b.reg, op);
    forall c | c in b.cleaned ensures c in Returned(front + [Other(op)]) || c !in Apply(b.reg, op).forward {
      if c !in Returned(front + [Other(op)]) {
        NobodyElseReturns(b.reg, op, c);
      }
    }
  }

  lemma ActKeeps(b: Sending, a: Act, front: seq<Act>, subscribers: set<Conn>)
    requires Kept(b, Returned(front), subscribers) && Possible(b, a)
    ensures Kept(Do(b, a), Returned(front + [a]), subscribers)
  {
    match a
    case Other(op) => OtherKeeps(b, op, front, subscribers);
    case Send(c, ok) => SendKeeps(b, c, ok, front, subscribers);
    case Clean(c) => CleanKeeps(b, c, front, subscribers);
  }

  lemma SendKeeps(b: Sending, c: Conn, ok: bool, front: seq<Act>, subscribers: set<Conn>)
    requires Kept(b, Returned(front), subscribers) && c in b.pending
    ensures Kept(Do(b, Send(c, ok)), Returned(front + [Send(c, ok)]), subscribers)
  {
    assert (front + [Send(c, ok)])[..|front + [Send(c, ok)]| - 1] == front;
    OneSent(b.pending, b.stale, c);
  }

  lemma OneSent(pending: set<Conn>, stale: set<Conn>, c: Conn)
    requires pending !! stale && c in pending
    ensures pending - {c} !! stale + {c} && (pending - {c}) + (stale + {c}) == pending + stale
    ensures |pending - {c}| == |pending| - 1 && |stale + {c}| == |stale| + 1
  {
  }

  lemma CleanKeeps(b: Sending, c: Conn, front: seq<Act>, subscribers: set<Conn>)
    requires Kept(b, Returned(front), subscribers) && c in b.stale - b.cleaned
    ensures Kept(Do(b, Clean(c)), Returned(front + [Clean(c)]), subscribers)
  {
    assert (front + [Clean(c)])[..|front + [Clean(c)]| - 1] == front;
    ApplyKeepsValid(b.reg, Disconnect(c));
  }

  /** The send to `c` found no socket, or raised. */
  ghost predicate SendFailed(b: Sending, acts: seq<Act>, c: Conn)
    requires After(b, acts).Some?
  {
    acts != [] &&
      var front, last := acts[..|acts| - 1], acts[|acts| - 1];
      SendFailed(b, front, c)
      || (last.Send? && last.c == c && (!last.ok || c !in After(b, front).value.reg.connections))
  }

  ghost predicate WasSentTo(acts: seq<Act>, c: Conn) { exists a <- acts :: a.Send? && a.c == c }

  lemma WasSentToSnoc(acts: seq<Act>, a: Act, c: Conn)
    ensures WasSentTo(acts + [a], c) <==> WasSentTo(acts, c) || (a.Send? && a.c == c)
  {
    assert a in acts + [a];
    assert forall d <- acts :: d in acts + [a];
  }

  /** A subscriber is found stale exactly when its send found no socket or raised; each is sent
      to once, and those that are left are the ones not sent to yet. */
  lemma {:induction false} StaleIffSendFailed(s: State, x: string, acts: seq<Act>, c: Conn)
    requires After(Begun(s, x), acts).Some?
    ensures var b := After(Begun(s, x), acts).value;
            && (c in b.stale <==> SendFailed(Begun(s, x), acts, c))
            && (c in b.pending <==> c in Subscribers(s, Normalise(x)) && !WasSentTo(acts, c))
            && (SendFailed(Begun(s, x), acts, c) ==> c in Subscribers(s, Normalise(x)) && WasSentTo(acts, c))
  {
    if acts != [] {
      var front, a := acts[..|acts| - 1], acts[|acts| - 1];
      assert acts == front + [a];
      StaleIffSendFailed(s, x, front, c);
      WasSentToSnoc(front, a, c);
    }
  }

  /** However the sends and clean-ups are interleaved with other operations: both maps still
      agree and the cap holds, every subscriber was delivered to or found stale, and every
      stale one is in no map unless it asked for something after its clean-up. */
  lemma InterleavedCleanUp(s: State, x: string, acts: seq<Act>, b: Sending)
    requires Valid(s) && After(Begun(s, x), acts) == Some(b) && Finished(b)
    ensures Valid(b.reg)
    ensures b.stale <= Subscribers(s, Normalise(x)) && b.delivered + |b.stale| == |Subscribers(s, Normalise(x))|
    ensures forall c <- b.stale :: c in Returned(acts) || Absent(b.reg, c)
  {
    RunsKeep(s, x, acts);
    forall c | c in b.stale ensures c in Returned(acts) || Absent(b.reg, c) {
      AbsentIff(b.reg, c);
    }
  }

  /** A cleaned-up connection whose handler still subscribes is back in the forward map,
      without a socket, exactly when it names something and a slot is free. */
  lemma ReturnsIff(s: State, c: Conn, names: seq<string>)
    requires Valid(s)
    ensures var t := Apply(Apply(s, Disconnect(c)), Subscribe(c, names));
            && (c in t.forward <==> NormalForms(names) != [] && |Pairs(s.forward - {c})| < MAX_SUBSCRIBED_SYMBOLS)
            && c !in t.connections
  {
    var g := s.forward - {c};
    SubscribeGain(g, c, names);
    if NormalForms(names) != [] {
      assert NormalForms(names)[0] in Elements(NormalForms(names)) - HeldBy(g, c);
    }
  }
}
