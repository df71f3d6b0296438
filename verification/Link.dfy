/** The two peers joined by first-in first-out links: control and publish agreement over
    every interleaving of their turns. */
module Link {
  import opened ByteOrder
  import CdrLimits
  import opened Session
  import opened Client
  import opened Gateway
  import opened GatewayConnection
  import opened LinkItems
  import opened LinkClient
  import opened LinkGateway

  /** Both peers, what is in flight each way, and everything either has reported. */
  datatype System = System(
    engine: Engine, gate: Gate, live: bool, up: seq<Wire>, down: seq<Wire>, events: seq<AppEvent>, notes: seq<Note>)

  /** One host event of a client turn: its own, or the next message off the wire with what
      the parser makes of it. */
  datatype HostStep =
    | Own(event: HostEvent)
    | Deliver(bufferId: nat, bytes: seq<byte>, parsed: Parsed, replyEncodes: bool)

  datatype Step =
    | ClientTurn(steps: seq<HostStep>)
    | GatewayTakes(world: World)
    | GatewaySample(budget: nat, channelId: nat, buf: seq<byte>)
    | GatewayRequest(channelId: nat, opcode: OperationCode, id: OperationId, world: World)

  /** The host events of a turn; a delivery with nothing in flight is none. */
  function Events(steps: seq<HostStep>, down: seq<Wire>): (es: seq<HostEvent>)
    ensures |es| <= |steps|
    decreases |steps|
  {
    if steps == [] then []
    else
      match steps[0]
      case Own(e) => [e] + Events(steps[1..], down)
      case Deliver(b, bytes, parsed, encodes) =>
        if down == [] then Events(steps[1..], down) else [WsBytes(b, bytes, parsed, encodes)] + Events(steps[1..], down[1..])
  }

  function Undelivered(steps: seq<HostStep>, down: seq<Wire>): seq<Wire>
    decreases |steps|
  {
    if steps == [] then down
    else if steps[0].Own? || down == [] then Undelivered(steps[1..], down)
    else Undelivered(steps[1..], down[1..])
  }

  /** A turn is at most one batch, its own events are not inbound bytes, and parsing reads
      messages as what they are or refuses them. */
  predicate Legal(steps: seq<HostStep>, down: seq<Wire>)
    decreases |steps|
  {
    steps != [] ==>
      match steps[0]
      case Own(e) => !e.WsBytes? && Legal(steps[1..], down)
      case Deliver(_, _, parsed, _) =>
        if down == [] then Legal(steps[1..], down) else ReadsAs(parsed, down[0]) && Legal(steps[1..], down[1..])
  }

  predicate Enabled(s: System, step: Step) {
    match step
    case ClientTurn(steps) => |steps| <= MAX_HOST_EVENTS_PER_POLL && Legal(steps, s.down)
    case GatewaySample(_, _, buf) => FRAME_HEADER_LENGTH <= |buf|
    case _ => true
  }

  /** One turn of the gateway's loop, on a link. */
  function GatewayTurn(s: System, budget: nat, t: GatewayConnection.Turn): System
    requires t.Sample? ==> FRAME_HEADER_LENGTH <= |t.buf|
  {
    var c := ConnStep(Conn(s.gate, [], s.live), budget, t);
    s.(gate := c.gate, live := c.live, down := s.down + c.wire)
  }

  function Next(s: System, step: Step): System
    requires Enabled(s, step)
  {
    match step
    case ClientTurn(steps) =>
      var t := Poll(s.engine, Events(steps, s.down));
      s.(engine := t.c, up := s.up + Messages(t.o.outbound), down := Undelivered(steps, s.down), events := s.events + t.o.events)
    case GatewayTakes(w) =>
      if !s.live || s.up == [] then s
      else
        var t := GatewayTurn(s, 0, Inbound(s.up[0], w));
        t.(up := s.up[1..], notes := s.notes + HandleInbound(s.gate, s.up[0], w).r.notes)
    case GatewaySample(budget, ch, buf) => GatewayTurn(s, budget, Sample(ch, buf))
    case GatewayRequest(ch, op, id, w) => GatewayTurn(s, 0, RosRequest(ch, op, id, w))
  }

  // ---------------------------------------------------------------- the invariant

  /** Sender's next number = receiver's next number + control frames in flight, which are
      exactly the numbers between; for a receiver that is still running. */
  ghost predicate ControlAgrees(c: Engine, g: Gate, live: bool, up: seq<Wire>, down: seq<Wire>) {
    && (live ==> g.controlIn <= c.controlOut && Items(up, ControlStream) == Range(g.controlIn, c.controlOut))
    && (!c.closed ==> c.controlIn <= g.controlOut && Items(down, ControlStream) == Range(c.controlIn, g.controlOut))
  }

  ghost predicate ChannelAgrees(c: Engine, g: Gate, live: bool, up: seq<Wire>, down: seq<Wire>, ch: nat) {
    live ==> GateOk(g, ch) && Joint(ClientViewOf(c, ch), c.closed, GateViewOf(g, ch), Items(up, Up(ch)), Items(down, Down(ch)))
  }

  ghost predicate Agree(c: Engine, g: Gate, live: bool, up: seq<Wire>, down: seq<Wire>) {
    ControlAgrees(c, g, live, up, down) && forall ch :: ChannelAgrees(c, g, live, up, down, ch)
  }

  ghost predicate Inv(s: System) {
    Agree(s.engine, s.gate, s.live, s.up, s.down) && MISMATCH !in s.events && Peaceful(s.notes)
  }

  // ---------------------------------------------------------------- client turns

  lemma {:induction false} ControlUp(a: nat, b: nat, c: nat, up: seq<Wire>, ws: seq<Wire>)
    requires a <= b <= c && Items(up, ControlStream) == Range(a, b) && Items(ws, ControlStream) == Range(b, c)
    ensures Items(up + ws, ControlStream) == Range(a, c)
  {
    ItemsAppend(up, ws, ControlStream);
    RangeJoin(a, b, c);
  }

  lemma {:induction false} ItemsHead(ws: seq<Wire>, topic: Topic)
    requires ws != []
    ensures Items(ws, topic) == (match ItemOf(ws[0], topic) case Some(i) => [i] case None => []) + Items(ws[1..], topic)
  {
    hide ItemOf;
  }

  /** The first control frame in flight carries the number the receiver expects. */
  lemma {:induction false} HeadNumber(ws: seq<Wire>, from: nat, end: nat)
    requires ws != [] && from <= end && Items(ws, ControlStream) == Range(from, end)
    ensures ControlNumber(ws[0]).Some? ==> ControlNumber(ws[0]).value == from && from < end && Items(ws[1..], ControlStream) == Range(from + 1, end)
    ensures ControlNumber(ws[0]).None? ==> Items(ws[1..], ControlStream) == Range(from, end)
  {
    ItemsHead(ws, ControlStream);
    if ControlNumber(ws[0]).Some? {
      assert Items(ws, ControlStream)[0] == ControlItem(ws[0].frame.sequence);
      assert Items(ws, ControlStream)[1..] == Items(ws[1..], ControlStream);
    } else {
      assert [] + Items(ws[1..], ControlStream) == Items(ws[1..], ControlStream);
    }
  }

  /** A local event of the client keeps the agreement. */
  lemma {:induction false} LocalKeeps(t: Client.Turn, e: HostEvent, g: Gate, live: bool, up: seq<Wire>, down: seq<Wire>)
    requires !t.c.closed && HasRoom(t) && !e.WsBytes?
    requires Agree(t.c, g, live, up + Messages(t.o.outbound), down)
    ensures var u := HandleEvent(t, e);
            Agree(u.c, g, live, up + Messages(u.o.outbound), down) && |u.o.outbound| <= |t.o.outbound| + 1 && Calm(t, u)
  {
    hide HandleEvent, ChannelAgrees, Calm, Moves, Items;
    var u := HandleEvent(t, e);
    var ws := LocalMoves(t, e, 0);
    var flying := up + Messages(t.o.outbound);
    assert up + Messages(u.o.outbound) == flying + ws;
    if live {
      ControlUp(g.controlIn, t.c.controlOut, u.c.controlOut, flying, ws);
    }
    forall ch ensures ChannelAgrees(u.c, g, live, flying + ws, down, ch) {
      var vs := LocalMoves(t, e, ch);
      SameSent(t, u, vs, ws);
      assert ChannelAgrees(t.c, g, live, flying, down, ch);
      LocalChannel(t, u, ws, g, live, flying, down, ch);
    }
  }

  lemma {:induction false} SameSent(t: Client.Turn, u: Client.Turn, vs: seq<Wire>, ws: seq<Wire>)
    requires Sends(t, u, vs) && Sends(t, u, ws)
    ensures vs == ws
  {
    var n := |t.o.outbound|;
    assert vs == Messages(u.o.outbound)[n..] == ws;
  }

  lemma {:induction false} LocalChannel(t: Client.Turn, u: Client.Turn, ws: seq<Wire>, g: Gate, live: bool, flying: seq<Wire>, down: seq<Wire>, ch: nat)
    requires !t.c.closed && Moves(t, u, ws, ch, None) && ChannelAgrees(t.c, g, live, flying, down, ch)
    ensures ChannelAgrees(u.c, g, live, flying + ws, down, ch)
  {
    hide Items, ClientMoves, Joint;
    if live {
      ItemsAppend(flying, ws, Up(ch));
      var d := Items(down, Down(ch));
      assert [] + d == d;
      ClientMoveKeeps(ClientViewOf(t.c, ch), ClientViewOf(u.c, ch), Items(ws, Up(ch)), None, u.c.closed, GateViewOf(g, ch), Items(flying, Up(ch)), d);
    }
  }

  lemma {:induction false} DeliverChannel(t: Client.Turn, u: Client.Turn, ws: seq<Wire>, g: Gate, live: bool, flying: seq<Wire>, down: seq<Wire>, ch: nat)
    requires !t.c.closed && down != [] && ChannelAgrees(t.c, g, live, flying, down, ch)
    requires live ==> Moves(t, u, ws, ch, ItemOf(down[0], Down(ch)))
    ensures ChannelAgrees(u.c, g, live, flying + ws, down[1..], ch)
  {
    hide Items, ItemOf, ClientMoves, Joint;
    if live {
      ItemsAppend(flying, ws, Up(ch));
      ItemsHead(down, Down(ch));
      ClientMoveKeeps(ClientViewOf(t.c, ch), ClientViewOf(u.c, ch), Items(ws, Up(ch)), ItemOf(down[0], Down(ch)), u.c.closed,
                      GateViewOf(g, ch), Items(flying, Up(ch)), Items(down[1..], Down(ch)));
    }
  }

  /** While the two ends agree the gateway has no CloseChannel in flight. */
  lemma {:induction false} HeadNeverCloses(c: Engine, g: Gate, up: seq<Wire>, down: seq<Wire>)
    requires !c.closed && down != [] && forall ch :: ChannelAgrees(c, g, true, up, down, ch)
    ensures NeverCloses(down[0])
  {
    hide ItemOf;
    forall ch ensures ItemOf(down[0], Down(ch)) != Some(CloseItem) {
      assert ChannelAgrees(c, g, true, up, down, ch);
      ItemsHead(down, Down(ch));
      assert ItemOf(down[0], Down(ch)).Some? ==> Items(down, Down(ch))[0] == ItemOf(down[0], Down(ch)).value;
    }
  }

  /** Taking the next message off the wire keeps the agreement. */
  lemma {:induction false} DeliverKeeps(t: Client.Turn, e: HostEvent, g: Gate, live: bool, up: seq<Wire>, down: seq<Wire>)
    requires !t.c.closed && HasRoom(t) && e.WsBytes? && down != [] && ReadsAs(e.parsed, down[0])
    requires Agree(t.c, g, live, up + Messages(t.o.outbound), down)
    ensures var u := HandleEvent(t, e);
            Agree(u.c, g, live, up + Messages(u.o.outbound), down[1..]) && |u.o.outbound| <= |t.o.outbound| + 1 && Calm(t, u)
  {
    hide HandleWsBytes, ChannelAgrees, Calm, Moves, Items, NeverCloses, ReadsAs;
    var u := HandleEvent(t, e);
    var ws := DeliveryMoves(t, e.bufferId, e.bytes, e.parsed, e.replyEncodes, 0, down[0]);
    var flying := up + Messages(t.o.outbound);
    assert up + Messages(u.o.outbound) == flying + ws;
    HeadNumber(down, t.c.controlIn, g.controlOut);
    if live {
      ControlUp(g.controlIn, t.c.controlOut, u.c.controlOut, flying, ws);
      HeadNeverCloses(t.c, g, flying, down);
    }
    forall ch ensures ChannelAgrees(u.c, g, live, flying + ws, down[1..], ch) {
      var vs := DeliveryMoves(t, e.bufferId, e.bytes, e.parsed, e.replyEncodes, ch, down[0]);
      SameSent(t, u, vs, ws);
      assert ChannelAgrees(t.c, g, live, flying, down, ch);
      DeliverChannel(t, u, ws, g, live, flying, down, ch);
    }
  }

  lemma {:induction false} BatchKeeps(t: Client.Turn, steps: seq<HostStep>, g: Gate, live: bool, up: seq<Wire>, down: seq<Wire>)
    requires |t.o.outbound| + |steps| <= MAX_OUTBOUND_PER_POLL && Legal(steps, down) && MISMATCH !in t.o.events
    requires Agree(t.c, g, live, up + Messages(t.o.outbound), down)
    ensures var u := HandleAll(t, Events(steps, down));
            Agree(u.c, g, live, up + Messages(u.o.outbound), Undelivered(steps, down)) && MISMATCH !in u.o.events
    decreases |steps|
  {
    hide HandleEvent, Agree, ReadsAs;
    if t.c.closed {
      ClosedHears(t.c, g, live, up + Messages(t.o.outbound), down, Undelivered(steps, down));
    } else if steps != [] {
      var es := Events(steps, down);
      match steps[0]
      case Own(e) =>
        assert es[0] == e && es[1..] == Events(steps[1..], down);
        LocalKeeps(t, e, g, live, up, down);
        BatchKeeps(HandleEvent(t, e), steps[1..], g, live, up, down);
      case Deliver(b, bytes, parsed, encodes) =>
        if down == [] {
          BatchKeeps(t, steps[1..], g, live, up, down);
        } else {
          var e := WsBytes(b, bytes, parsed, encodes);
          assert es[0] == e && es[1..] == Events(steps[1..], down[1..]);
          DeliverKeeps(t, e, g, live, up, down);
          BatchKeeps(HandleEvent(t, e), steps[1..], g, live, up, down[1..]);
        }
    }
  }

  /** A closed engine does not care what is still on its way to it. */
  lemma {:induction false} ClosedHears(c: Engine, g: Gate, live: bool, up: seq<Wire>, down: seq<Wire>, other: seq<Wire>)
    requires c.closed && Agree(c, g, live, up, down)
    ensures Agree(c, g, live, up, other)
  {
    hide Items;
    forall ch ensures ChannelAgrees(c, g, live, up, other, ch) {
      assert ChannelAgrees(c, g, live, up, down, ch);
    }
  }

  lemma {:induction false} ClientTurnKeeps(s: System, steps: seq<HostStep>)
    requires Inv(s) && Enabled(s, ClientTurn(steps))
    ensures Inv(Next(s, ClientTurn(steps)))
  {
    hide Agree, HandleAll, Sweep, Swept, Legal, Peaceful;
    var es := Events(steps, s.down);
    assert Batch(es) == es;
    if s.engine.closed {
      assert s.up + [] == s.up;
      ClosedHears(s.engine, s.gate, s.live, s.up, s.down, Undelivered(steps, s.down));
    } else {
      var t := Client.Turn(s.engine, NO_OUTCOME);
      assert s.up + Messages([]) == s.up;
      BatchKeeps(t, steps, s.gate, s.live, s.up, s.down);
      var u := HandleAll(t, es);
      SweepKeeps(u, EndTurn(u), s.gate, s.live, s.up + Messages(u.o.outbound), Undelivered(steps, s.down));
    }
  }

  lemma {:induction false} SweepKeeps(u: Client.Turn, e: Client.Turn, g: Gate, live: bool, up: seq<Wire>, down: seq<Wire>)
    requires e == EndTurn(u) && Agree(u.c, g, live, up, down)
    ensures Agree(e.c, g, live, up, down) && e.o.outbound == u.o.outbound && e.o.events == u.o.events
  {
    hide Items, Joint, Sweep;
    forall ch ensures ChannelAgrees(e.c, g, live, up, down, ch) {
      assert ChannelAgrees(u.c, g, live, up, down, ch);
    }
  }

  // ---------------------------------------------------------------- gateway turns

  lemma {:induction false} TakesHead(c: Engine, g: Gate, up: seq<Wire>, down: seq<Wire>, ch: nat)
    requires up != [] && ChannelAgrees(c, g, true, up, down, ch)
    ensures GateOk(g, ch) && TakesNext(g, up[0], ch)
  {
    hide ItemOf;
    ItemsHead(up, Up(ch));
    if ItemOf(up[0], Up(ch)).Some? {
      var i := ItemOf(up[0], Up(ch)).value;
      assert Items(up, Up(ch))[0] == i;
      TakesFirst(GateViewOf(g, ch), Items(up, Up(ch)));
    }
  }

  lemma {:induction false} TakesFirst(v: GateView, u: seq<Item>)
    requires u != [] && Takes(v, u)
    ensures Takes(v, [u[0]])
  {
    assert [u[0]][1..] == [];
    assert Takes(v, []) && (v.port.Some? ==> Takes(LinkItems.Next(v), []));
  }

  lemma {:induction false} TakeChannel(s: System, w: World, ch: nat)
    requires s.live && s.up != [] && ChannelAgrees(s.engine, s.gate, true, s.up, s.down, ch)
    ensures var u := HandleInbound(s.gate, s.up[0], w);
            ChannelAgrees(s.engine, u.g, !u.r.close, s.up[1..], s.down + u.r.outbound, ch)
  {
    hide HandleInbound, Items, ItemOf, Joint, GateMoves, GateOk, TakesNext;
    var u := HandleInbound(s.gate, s.up[0], w);
    TakesHead(s.engine, s.gate, s.up, s.down, ch);
    InboundStep(s.gate, s.up[0], w, ch);
    ItemsHead(s.up, Up(ch));
    ItemsAppend(s.down, u.r.outbound, Down(ch));
    if !u.r.close {
      GateMoveKeeps(ClientViewOf(s.engine, ch), s.engine.closed, GateViewOf(s.gate, ch), GateViewOf(u.g, ch), ItemOf(s.up[0], Up(ch)),
                    Items(u.r.outbound, Down(ch)), Items(s.up[1..], Up(ch)), Items(s.down, Down(ch)));
    }
  }

  lemma {:induction false} GatewayTakesKeeps(s: System, w: World)
    requires Inv(s)
    ensures Inv(Next(s, GatewayTakes(w)))
  {
    hide HandleInbound, ChannelAgrees, Items, Peaceful, GateOk, TakesNext;
    if s.live && s.up != [] {
      var u := HandleInbound(s.gate, s.up[0], w);
      var n := Next(s, GatewayTakes(w));
      assert n.gate == u.g && n.live == !u.r.close && n.down == s.down + u.r.outbound;
      HeadNumber(s.up, s.gate.controlIn, s.engine.controlOut);
      InboundCounts(s.gate, s.up[0], w);
      if !s.engine.closed {
        ControlUp(s.engine.controlIn, s.gate.controlOut, u.g.controlOut, s.down, u.r.outbound);
      }
      forall ch ensures ChannelAgrees(n.engine, n.gate, n.live, n.up, n.down, ch) {
        assert ChannelAgrees(s.engine, s.gate, true, s.up, s.down, ch);
        TakeChannel(s, w, ch);
      }
      forall ch ensures GateOk(s.gate, ch) && TakesNext(s.gate, s.up[0], ch) {
        assert ChannelAgrees(s.engine, s.gate, true, s.up, s.down, ch);
        TakesHead(s.engine, s.gate, s.up, s.down, ch);
      }
      InboundPeace(s.gate, s.up[0], w);
      PeaceJoins(s.notes, u.r.notes);
    }
  }

  lemma {:induction false} PeaceJoins(a: seq<Note>, b: seq<Note>)
    requires Peaceful(a) && Peaceful(b)
    ensures Peaceful(a + b)
  {
    hide Trouble;
  }

  /** A gateway turn that says nothing the agreement is about. */
  lemma {:induction false} QuietTurn(s: System, n: System, ws: seq<Wire>)
    requires Inv(s) && s.live && n == s.(gate := n.gate, live := n.live, down := s.down + ws)
    requires n.gate.controlIn == s.gate.controlIn && n.gate.controlOut == s.gate.controlOut && Items(ws, ControlStream) == []
    requires forall ch :: Unmoved(s.gate, n.gate, ws, ch)
    ensures Inv(n)
  {
    hide Items, Joint;
    ItemsAppend(s.down, ws, ControlStream);
    assert Items(s.down, ControlStream) + [] == Items(s.down, ControlStream);
    forall ch ensures ChannelAgrees(n.engine, n.gate, n.live, n.up, n.down, ch) {
      assert ChannelAgrees(s.engine, s.gate, s.live, s.up, s.down, ch) && Unmoved(s.gate, n.gate, ws, ch);
      ItemsAppend(s.down, ws, Down(ch));
      assert Items(s.down, Down(ch)) + [] == Items(s.down, Down(ch));
    }
  }

  predicate Unmoved(g: Gate, h: Gate, ws: seq<Wire>, ch: nat) {
    GateViewOf(h, ch) == GateViewOf(g, ch) && Items(ws, Down(ch)) == [] && (GateOk(g, ch) ==> GateOk(h, ch))
  }

  lemma {:induction false} GatewaySampleKeeps(s: System, budget: nat, target: nat, buf: seq<byte>)
    requires Inv(s) && FRAME_HEADER_LENGTH <= |buf|
    ensures Inv(Next(s, GatewaySample(budget, target, buf)))
  {
    hide Inv, FrameSample, Items;
    var n := Next(s, GatewaySample(budget, target, buf));
    if s.live {
      var ws := SampleStep(Conn(s.gate, [], true), budget, target, buf).wire;
      NoItems(ControlStream);
      SampleWires(s.gate, budget, target, buf);
      QuietTurn(s, n, ws);
    } else {
      assert s.down + [] == s.down;
    }
  }

  lemma {:induction false} SampleWires(g: Gate, budget: nat, target: nat, buf: seq<byte>)
    requires FRAME_HEADER_LENGTH <= |buf|
    ensures var c := SampleStep(Conn(g, [], true), budget, target, buf);
            && c.live && c.gate.controlIn == g.controlIn && c.gate.controlOut == g.controlOut && Items(c.wire, ControlStream) == []
            && forall ch :: Unmoved(g, c.gate, c.wire, ch)
  {
    hide FrameSample;
    FramingNeeds(g, target, buf);
    var c := SampleStep(Conn(g, [], true), budget, target, buf);
    NoItems(ControlStream);
    if c.wire != [] {
      assert c.wire == [c.wire[0]];
      ItemsOne(c.wire[0], ControlStream);
    }
    forall ch ensures Unmoved(g, c.gate, c.wire, ch) {
      NoItems(Down(ch));
      if c.wire != [] {
        ItemsOne(c.wire[0], Down(ch));
      }
    }
  }

  lemma {:induction false} GatewayRequestKeeps(s: System, target: nat, op: OperationCode, id: OperationId, w: World)
    requires Inv(s)
    ensures Inv(Next(s, GatewayRequest(target, op, id, w)))
  {
    hide Inv, Items, PushRequest, GateOk;
    var n := Next(s, GatewayRequest(target, op, id, w));
    if s.live {
      var u := PushRequest(s.gate, target, op, id, w);
      assert [] + u.r.outbound == u.r.outbound;
      RequestQuiet(s.gate, target, op, id, w);
      QuietTurn(s, n, u.r.outbound);
    } else {
      assert s.down + [] == s.down;
    }
  }

  lemma {:induction false} RequestQuiet(g: Gate, target: nat, op: OperationCode, id: OperationId, w: World)
    ensures var u := PushRequest(g, target, op, id, w);
            && u.g.controlIn == g.controlIn && u.g.controlOut == g.controlOut && Items(u.r.outbound, ControlStream) == []
            && forall ch :: Unmoved(g, u.g, u.r.outbound, ch)
  {
    hide PushRequest, Items, GateOk;
    var u := PushRequest(g, target, op, id, w);
    RequestStep(g, target, op, id, w, 0);
    forall ch ensures Unmoved(g, u.g, u.r.outbound, ch) {
      RequestStep(g, target, op, id, w, ch);
    }
  }

  // ---------------------------------------------------------------- every run

  function Start(host: CdrLimits.Host): System {
    System(NewEngine(host), NEW_GATE, true, [], [], [], [])
  }

  lemma {:induction false} StepKeeps(s: System, step: Step)
    requires Inv(s) && Enabled(s, step)
    ensures Inv(Next(s, step))
  {
    hide Inv, Next;
    match step
    case ClientTurn(steps) => ClientTurnKeeps(s, steps);
    case GatewayTakes(w) => GatewayTakesKeeps(s, w);
    case GatewaySample(budget, ch, buf) => GatewaySampleKeeps(s, budget, ch, buf);
    case GatewayRequest(ch, op, id, w) => GatewayRequestKeeps(s, ch, op, id, w);
  }

  /** `t` is reached from `s` by the steps, each enabled when it is taken. */
  predicate Reaches(s: System, steps: seq<Step>, t: System)
    decreases |steps|
  {
    if steps == [] then t == s else Enabled(s, steps[0]) && Reaches(Next(s, steps[0]), steps[1..], t)
  }

  lemma {:induction false} RunKeeps(s: System, steps: seq<Step>, t: System)
    requires Inv(s) && Reaches(s, steps, t)
    ensures Inv(t)
    decreases |steps|
  {
    hide Inv, Next, Enabled;
    if steps != [] {
      StepKeeps(s, steps[0]);
      RunKeeps(Next(s, steps[0]), steps[1..], t);
    }
  }

  lemma {:induction false} StartAgrees(host: CdrLimits.Host)
    ensures Inv(Start(host))
  {
    var s := Start(host);
    NoItems(ControlStream);
    forall ch ensures ChannelAgrees(s.engine, s.gate, s.live, s.up, s.down, ch) {
      NoItems(Up(ch));
      NoItems(Down(ch));
    }
  }

  /** Control-stream agreement: in every reachable state, for each peer still running, the
      sender's counter is the receiver's plus the control frames in flight, and neither side
      has ever reported a sequence mismatch. */
  lemma {:induction false} ControlStreamsAgree(host: CdrLimits.Host, steps: seq<Step>, t: System)
    requires Reaches(Start(host), steps, t)
    ensures t.live ==> t.engine.controlOut == t.gate.controlIn + |Items(t.up, ControlStream)|
    ensures !t.engine.closed ==> t.gate.controlOut == t.engine.controlIn + |Items(t.down, ControlStream)|
    ensures MISMATCH !in t.events && FailedSession(Gateway.ControlSequenceMismatch) !in t.notes
  {
    hide Reaches, Items;
    StartAgrees(host);
    RunKeeps(Start(host), steps, t);
    assert forall i :: 0 <= i < |t.notes| ==> !Trouble(t.notes[i]);
  }

  /** Publish agreement: whenever a sample of the client is next in line at a running
      gateway, the gateway admits it at exactly the number it expects; and no reachable state
      has reported a reliability, retention or sequence problem, a gap or a stale sample. */
  lemma {:induction false} PublishesAgree(host: CdrLimits.Host, steps: seq<Step>, t: System, w: World)
    requires Reaches(Start(host), steps, t)
    ensures Peaceful(t.notes)
    ensures t.live && t.up != [] && t.up[0].Framed? && t.up[0].frame.opcode.RosSample? && w.parses ==>
      var f := t.up[0].frame;
      && f.channelId in t.gate.channels && f.sequence == t.gate.channels[f.channelId].seqIn
      && f.reliable == t.gate.channels[f.channelId].reliable
      && HandleInbound(t.gate, t.up[0], w).r.notes == [Admitted(f.channelId, f.sequence)]
  {
    hide Reaches, HandleInbound;
    StartAgrees(host);
    RunKeeps(Start(host), steps, t);
    if t.live && t.up != [] && t.up[0].Framed? && t.up[0].frame.opcode.RosSample? && w.parses {
      var ch := t.up[0].frame.channelId;
      assert ChannelAgrees(t.engine, t.gate, true, t.up, t.down, ch);
      TakesHead(t.engine, t.gate, t.up, t.down, ch);
      SampleAdmitted(t.gate, t.up[0].frame, w);
    }
  }

  // ---------------------------------------------------------------- 0, 1, 2, ...

  /** The sequence numbers admitted on `ch`, in order. */
  function AdmittedOn(notes: seq<Note>, ch: nat): seq<nat> {
    if notes == [] then []
    else (if notes[0].Admitted? && notes[0].channelId == ch then [notes[0].sequence] else []) + AdmittedOn(notes[1..], ch)
  }

  lemma {:induction false} AdmittedJoins(a: seq<Note>, b: seq<Note>, ch: nat)
    ensures AdmittedOn(a + b, ch) == AdmittedOn(a, ch) + AdmittedOn(b, ch)
    decreases |a|
  {
    if a == [] {
      assert a + b == b;
    } else {
      assert (a + b)[1..] == a[1..] + b;
      AdmittedJoins(a[1..], b, ch);
    }
  }

  /** What has been admitted on `ch`, in a lifetime that goes on or is over. */
  predicate Ledger(s: System, ch: nat) {
    var done := AdmittedOn(s.notes, ch);
    && done == UpTo(|done|)
    && (s.live ==>
      && (s.gate.session.Of(ch).Unused? ==> done == [])
      && (ch in s.gate.channels ==> |done| == s.gate.channels[ch].seqIn))
  }

  /** The sequence number of the sample on `ch` a message carries, if it does. */
  function Carried(m: Wire, ch: nat): seq<nat> {
    match ItemOf(m, Up(ch))
    case Some(SampleItem(sequence, _, _)) => [sequence]
    case _ => []
  }

  /** A message admits the sample it carries, if it carries one, or ends the session. */
  lemma {:induction false} InboundAdmits(g: Gate, m: Wire, w: World, ch: nat)
    requires forall c :: GateOk(g, c) && TakesNext(g, m, c)
    ensures var r := HandleInbound(g, m, w).r;
            AdmittedOn(r.notes, ch) == Carried(m, ch) || (r.close && AdmittedOn(r.notes, ch) == [])
  {
    hide ApplyFrame, FailSession, HandlePublish, HandleOperation, Gateway.HandleControl, Gateway.HandleBootstrap, GateOk, TakesNext;
    var t := GateTurn(g, NO_REPLY);
    BootstrapCounts(g, m, w);
    FailSteps(t, Gateway.ParseRejected, w);
    FailSteps(t, Gateway.SessionRejected, w);
    if g.session.phase.InSelectedPlane() && !g.session.phase.IsTerminal() && m.Framed? && w.parses {
      var f := m.frame;
      var a := ApplyFrame(g.session, f, ClientRole);
      if a.Accepted? {
        var u := t.(g := t.g.(session := a.state));
        FailSteps(u, Gateway.ControlSequenceMismatch, w);
        if f.opcode.ControlCbor? {
          if f.payload.ControlPayload? {
            ControlCounts(u.(g := u.g.(controlIn := u.g.controlIn + 1)), f.payload.msg, a.effects, w);
          }
        } else if f.opcode.RosSample? {
          SampleAdmitted(g, f, w);
          assert [Admitted(f.channelId, f.sequence)][1..] == [];
        } else if !f.opcode.Media? {
          OperationNotes(u, f, w);
          if HandleOperation(u, f, w).r.notes != [] {
            assert HandleOperation(u, f, w).r.close || HandleOperation(u, f, w).r.notes[1..] == [];
          }
        }
      }
    }
  }

  lemma {:induction false} TakeLedger(s: System, w: World, ch: nat)
    requires Inv(s) && Ledger(s, ch)
    ensures Ledger(Next(s, GatewayTakes(w)), ch)
  {
    hide HandleInbound, Items, ItemOf, Joint, TakesNext, Peaceful, ControlAgrees;
    if s.live && s.up != [] {
      var u := HandleInbound(s.gate, s.up[0], w);
      forall c ensures GateOk(s.gate, c) && TakesNext(s.gate, s.up[0], c) {
        assert ChannelAgrees(s.engine, s.gate, true, s.up, s.down, c);
        TakesHead(s.engine, s.gate, s.up, s.down, c);
      }
      InboundAdmits(s.gate, s.up[0], w, ch);
      InboundStep(s.gate, s.up[0], w, ch);
      AdmittedJoins(s.notes, u.r.notes, ch);
      var done := AdmittedOn(s.notes, ch);
      assert done + [] == done;
      CarriedIsNext(s.gate, s.up[0], ch);
      if !u.r.close {
        LedgerMoves(s.gate, u.g, s.notes, u.r.notes, s.up[0], Items(u.r.outbound, Down(ch)), ch);
      }
    }
  }

  /** The sample next in line carries the number the gateway expects. */
  lemma {:induction false} CarriedIsNext(g: Gate, m: Wire, ch: nat)
    requires GateOk(g, ch) && TakesNext(g, m, ch)
    ensures Carried(m, ch) == [] || (ch in g.channels && Carried(m, ch) == [g.channels[ch].seqIn])
    ensures forall n: nat :: UpTo(n + 1) == UpTo(n) + [n]
  {
    hide ItemOf;
  }

  lemma {:induction false} LedgerMoves(g: Gate, h: Gate, notes: seq<Note>, more: seq<Note>, m: Wire, sent: seq<Item>, ch: nat)
    requires GateOk(g, ch) && TakesNext(g, m, ch) && GateMoves(GateViewOf(g, ch), GateViewOf(h, ch), ItemOf(m, Up(ch)), sent)
    requires AdmittedOn(more, ch) == Carried(m, ch)
    requires AdmittedOn(notes + more, ch) == AdmittedOn(notes, ch) + AdmittedOn(more, ch)
    requires g.session.Of(ch).Unused? ==> AdmittedOn(notes, ch) == []
    requires ch in g.channels ==> AdmittedOn(notes, ch) == UpTo(g.channels[ch].seqIn)
    ensures h.session.Of(ch).Unused? ==> AdmittedOn(notes + more, ch) == []
    ensures ch in h.channels ==> AdmittedOn(notes + more, ch) == UpTo(h.channels[ch].seqIn)
  {
    hide ItemOf, AdmittedOn;
    var got := ItemOf(m, Up(ch));
    assert AdmittedOn(notes, ch) + [] == AdmittedOn(notes, ch);
    if got.Some? && got.value.SampleItem? {
      var n := g.channels[ch].seqIn;
      assert UpTo(n + 1) == UpTo(n) + [n];
    }
  }

  lemma {:induction false} StepLedger(s: System, step: Step, ch: nat)
    requires Inv(s) && Enabled(s, step) && Ledger(s, ch)
    ensures Ledger(Next(s, step), ch)
  {
    hide Inv, Poll, HandleInbound, PushRequest, SampleStep, AdmittedOn, Legal, Items;
    match step
    case ClientTurn(_) =>
    case GatewayTakes(w) => TakeLedger(s, w, ch);
    case GatewaySample(budget, target, buf) =>
      SampleWires(s.gate, budget, target, buf);
      assert Unmoved(s.gate, SampleStep(Conn(s.gate, [], true), budget, target, buf).gate, SampleStep(Conn(s.gate, [], true), budget, target, buf).wire, ch);
    case GatewayRequest(target, op, id, w) =>
      RequestQuiet(s.gate, target, op, id, w);
      assert Unmoved(s.gate, PushRequest(s.gate, target, op, id, w).g, PushRequest(s.gate, target, op, id, w).r.outbound, ch);
  }

  lemma {:induction false} RunLedger(s: System, steps: seq<Step>, t: System, ch: nat)
    requires Inv(s) && Reaches(s, steps, t) && Ledger(s, ch)
    ensures Ledger(t, ch)
    decreases |steps|
  {
    hide Inv, Next, Enabled, Ledger;
    if steps != [] {
      StepKeeps(s, steps[0]);
      StepLedger(s, steps[0], ch);
      RunLedger(Next(s, steps[0]), steps[1..], t, ch);
    }
  }

  /** Over every run the gateway has admitted, on every publication there ever was, exactly
      the samples 0, 1, 2, ..., and on one that is still open all below the next it expects. */
  lemma {:induction false} PublishesAreContiguous(host: CdrLimits.Host, steps: seq<Step>, t: System, ch: nat)
    requires Reaches(Start(host), steps, t)
    ensures AdmittedOn(t.notes, ch) == UpTo(|AdmittedOn(t.notes, ch)|)
    ensures t.live && ch in t.gate.channels ==> |AdmittedOn(t.notes, ch)| == t.gate.channels[ch].seqIn
  {
    hide Reaches, Inv;
    StartAgrees(host);
    RunLedger(Start(host), steps, t, ch);
  }
}
