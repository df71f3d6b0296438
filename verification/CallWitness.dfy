/** Two concrete runs of the link from its start in which the gateway fails the session for an
    operation out of sequence: two operations on one channel, and one operation after a call
    of it that the client itself refused. */
module CallWitness {
  import opened ByteOrder
  import CdrLimits
  import opened Qos
  import opened Session
  import opened Client
  import opened Gateway
  import opened GatewayConnection
  import opened LinkItems
  import opened LinkClient
  import opened LinkGateway
  import opened Link
  import opened Operations
  import opened CallStreams
  import opened CallAdmission
  import opened LinkOperations
  import opened LinkHeartbeats

  const CHANNEL: nat := 7

  /** The session once a service client channel is open. */
  const OPEN := State(Ready, map[CHANNEL := Channel(Active, ServiceClient)], Some(1))

  /** A world in which everything goes well. */
  function Obliging(): World {
    World(true, _ => true, true, true, true, false, true, true, true, true, 0)
  }

  /** `steps` lead from the start to `t`, with the attempts `tries` on the channel; every
      encoding on the way goes through. */
  ghost predicate Leads(host: CdrLimits.Host, steps: seq<Step>, t: System, tries: seq<Attempt>) {
    && Reaches(Link.Start(host), steps, t) && Attempts(Link.Start(host), steps, CHANNEL) == tries
    && forall i :: 0 <= i < |steps| ==> StepEncodes(steps[i])
  }

  lemma {:induction false} ReachesOn(s: System, steps: seq<Step>, t: System, step: Step)
    requires Reaches(s, steps, t) && Enabled(t, step)
    ensures Reaches(s, steps + [step], Link.Next(t, step))
    ensures Attempts(s, steps + [step], CHANNEL) == Attempts(s, steps, CHANNEL) + StepAttempts(t, step, CHANNEL)
    decreases |steps|
  {
    hide Link.Next, Enabled, StepAttempts;
    var more := steps + [step];
    if steps == [] {
      assert more == [step] && more[1..] == [];
      assert Attempts(Link.Next(t, step), [], CHANNEL) == [];
    } else {
      assert more[1..] == steps[1..] + [step];
      ReachesOn(Link.Next(s, steps[0]), steps[1..], t, step);
    }
  }

  /** A turn of one event of the client's own. */
  lemma {:induction false} OwnTurn(host: CdrLimits.Host, steps: seq<Step>, s: System, tries: seq<Attempt>, e: HostEvent)
    returns (more: seq<Step>, n: System)
    requires Leads(host, steps, s, tries) && !s.engine.closed && !e.WsBytes? && Encodes(e)
    ensures var t := Client.Turn(s.engine, NO_OUTCOME);
            var u := HandleEvent(t, e);
            && Leads(host, more, n, tries + AttemptOf(t, e, CHANNEL))
            && n == s.(engine := u.c.(slab := Sweep(u.c.slab)), up := s.up + Messages(u.o.outbound), events := s.events + u.o.events)
    ensures !(e.Issue? && e.command.SendOperation?) ==> Leads(host, more, n, tries)
  {
    hide HandleEvent, Sweep, Reaches, Attempts;
    var step := ClientTurn([Own(e)]);
    var t := Client.Turn(s.engine, NO_OUTCOME);
    assert [Own(e)][1..] == [];
    assert Events([Own(e)], s.down) == [e] && [e][1..] == [] && Batch([e]) == [e];
    assert HandleAll(t, [e]) == HandleEvent(t, e);
    assert BatchAttempts(t, [e], CHANNEL) == AttemptOf(t, e, CHANNEL) + [];
    assert Undelivered([], s.down) == s.down && Legal([], s.down) && tries + [] == tries;
    assert Undelivered([Own(e)], s.down) == Undelivered([Own(e)][1..], s.down);
    more, n := steps + [step], Link.Next(s, step);
    ReachesOn(Link.Start(host), steps, s, step);
    assert StepEncodes(step);
  }

  /** A turn that takes the next message off the wire. */
  lemma {:induction false} DeliveryTurn(host: CdrLimits.Host, steps: seq<Step>, s: System, tries: seq<Attempt>, parsed: Parsed)
    returns (more: seq<Step>, n: System)
    requires Leads(host, steps, s, tries) && !s.engine.closed && s.down != [] && ReadsAs(parsed, s.down[0])
    ensures var u := HandleEvent(Client.Turn(s.engine, NO_OUTCOME), WsBytes(0, [], parsed, true));
            && Leads(host, more, n, tries)
            && n == s.(engine := u.c.(slab := Sweep(u.c.slab)), up := s.up + Messages(u.o.outbound), down := s.down[1..],
                       events := s.events + u.o.events)
  {
    hide HandleEvent, Sweep, Reaches, Attempts, ReadsAs;
    var take := Deliver(0, [], parsed, true);
    var e := WsBytes(0, [], parsed, true);
    var step := ClientTurn([take]);
    var t := Client.Turn(s.engine, NO_OUTCOME);
    assert [take][1..] == [];
    assert Events([take], s.down) == [e] && [e][1..] == [] && Batch([e]) == [e];
    assert HandleAll(t, [e]) == HandleEvent(t, e);
    assert BatchAttempts(t, [e], CHANNEL) == AttemptOf(t, e, CHANNEL) + [];
    assert Undelivered([], s.down[1..]) == s.down[1..] && Legal([], s.down[1..]) && tries + [] == tries;
    assert Undelivered([take], s.down) == Undelivered([take][1..], s.down[1..]);
    more, n := steps + [step], Link.Next(s, step);
    ReachesOn(Link.Start(host), steps, s, step);
    assert StepEncodes(step);
  }

  lemma {:induction false} TakesTurn(host: CdrLimits.Host, steps: seq<Step>, s: System, tries: seq<Attempt>)
    returns (more: seq<Step>, n: System)
    requires Leads(host, steps, s, tries) && s.live && s.up != []
    ensures var u := HandleInbound(s.gate, s.up[0], Obliging());
            && Leads(host, more, n, tries)
            && n == s.(gate := u.g, live := !u.r.close, up := s.up[1..], down := s.down + u.r.outbound, notes := s.notes + u.r.notes)
  {
    hide HandleInbound, Reaches, Attempts;
    var step := GatewayTakes(Obliging());
    assert tries + [] == tries && forall ws: seq<Wire> :: [] + ws == ws;
    more, n := steps + [step], Link.Next(s, step);
    ReachesOn(Link.Start(host), steps, s, step);
    assert StepEncodes(step);
  }

  // ---------------------------------------------------------------- opening the channel

  /** The client between turns, with nothing retained. */
  function At(host: CdrLimits.Host, buffers: nat, session: State, controlOut: nat, controlIn: nat, pending: map<nat, PendingOpen>,
    services: map<nat, OpStream>): Engine
  {
    Engine(host, Slab(buffers, 1, map[], map[]), session, controlOut, controlIn, pending, map[], map[], services, map[], true, false,
           None, None, 0)
  }

  function Said(sequence: nat, msg: Control): Wire {
    Framed(ControlFrame(sequence, msg))
  }

  lemma {:induction false} Hailed(host: CdrLimits.Host) returns (steps: seq<Step>, t: System)
    ensures Leads(host, steps, t, [])
    ensures t.engine == At(host, 2, State(AwaitServerHello, map[], None), 0, 0, map[], map[]) && t.gate == NEW_GATE
    ensures t.live && t.up == [Boot(ClientHello)] && t.down == [] && t.notes == []
  {
    hide Leads;
    AtStart(host);
    steps, t := OwnTurn(host, [], Link.Start(host), [], Issue(Command.Start(true)));
  }

  lemma {:induction false} Greeting(host: CdrLimits.Host) returns (steps: seq<Step>, t: System)
    ensures Leads(host, steps, t, [])
    ensures t.engine == At(host, 3, State(AwaitAuthenticate, map[], None), 0, 0, map[], map[])
    ensures t.gate == Gate(State(AwaitAuthenticate, map[], None), 0, 0, 0, map[], None, true)
    ensures t.live && t.up == [] && t.down == [] && t.notes == []
  {
    hide Leads;
    steps, t := Hailed(host);
    steps, t := TakesTurn(host, steps, t, []);
    assert t.down == [Boot(ServerHello)];
    steps, t := DeliveryTurn(host, steps, t, [], BootRecord(ServerHello));
  }

  lemma {:induction false} AtStart(host: CdrLimits.Host)
    ensures Leads(host, [], Link.Start(host), [])
  {
  }

  lemma {:induction false} Knocked(host: CdrLimits.Host) returns (steps: seq<Step>, t: System)
    ensures Leads(host, steps, t, [])
    ensures t.engine == At(host, 4, State(AwaitSessionReady, map[], None), 1, 0, map[], map[])
    ensures t.gate == Gate(State(AwaitAuthenticate, map[], None), 0, 0, 0, map[], None, true)
    ensures t.live && t.up == [Said(0, Authenticate)] && t.down == [] && t.notes == []
  {
    hide Leads;
    steps, t := Greeting(host);
    steps, t := OwnTurn(host, steps, t, [], Issue(Login(true)));
  }

  lemma {:induction false} LoggedIn(host: CdrLimits.Host) returns (steps: seq<Step>, t: System)
    ensures Leads(host, steps, t, [])
    ensures t.engine == At(host, 4, State(AwaitSessionReady, map[], None), 1, 0, map[], map[])
    ensures t.gate == Gate(State(Ready, map[], Some(1)), 2, 1, 0, map[], Some(1), true)
    ensures t.live && t.up == [] && t.down == [Said(0, SessionReady), Said(1, GraphSnapshot(1))] && t.notes == []
  {
    hide Leads;
    steps, t := Knocked(host);
    steps, t := TakesTurn(host, steps, t, []);
  }

  lemma {:induction false} Readied(host: CdrLimits.Host) returns (steps: seq<Step>, t: System)
    ensures Leads(host, steps, t, [])
    ensures t.engine == At(host, 5, State(Ready, map[], None), 1, 1, map[], map[])
    ensures t.gate == Gate(State(Ready, map[], Some(1)), 2, 1, 0, map[], Some(1), true)
    ensures t.live && t.up == [] && t.down == [Said(1, GraphSnapshot(1))] && t.notes == []
  {
    hide Leads;
    steps, t := LoggedIn(host);
    steps, t := DeliveryTurn(host, steps, t, [], FrameParsed(ControlFrame(0, SessionReady)));
  }

  lemma {:induction false} SessionIsUp(host: CdrLimits.Host) returns (steps: seq<Step>, t: System)
    ensures Leads(host, steps, t, [])
    ensures t.engine == At(host, 6, State(Ready, map[], Some(1)), 1, 2, map[], map[])
    ensures t.gate == Gate(State(Ready, map[], Some(1)), 2, 1, 0, map[], Some(1), true)
    ensures t.live && t.up == [] && t.down == [] && t.notes == []
  {
    hide Leads;
    steps, t := Readied(host);
    steps, t := DeliveryTurn(host, steps, t, [], FrameParsed(ControlFrame(1, GraphSnapshot(1))));
  }

  /** The channel between the peers, just opened as a service client's. */
  ghost predicate Fresh(host: CdrLimits.Host, t: System) {
    && t.engine == At(host, 8, OPEN, 2, 3, map[], map[CHANNEL := OpStream(0, map[])])
    && t.gate.session == OPEN && CHANNEL in t.gate.channels && t.gate.channels[CHANNEL].kind == ServiceClient
    && t.gate.channels[CHANNEL].opSeqIn == map[] && t.live && t.up == [] && t.notes == []
  }

  lemma {:induction false} Asked(host: CdrLimits.Host) returns (steps: seq<Step>, t: System)
    ensures Leads(host, steps, t, [])
    ensures t.engine == At(host, 7, State(Ready, map[CHANNEL := Channel(Pending, ServiceClient)], Some(1)), 2, 2,
                           map[CHANNEL := PendingOpen(ServiceClient, 1)], map[])
    ensures t.gate == Gate(State(Ready, map[], Some(1)), 2, 1, 0, map[], Some(1), true)
    ensures t.live && t.up == [Said(1, OpenRequest(CHANNEL, ServiceClient, 1, 0))] && t.down == [] && t.notes == []
  {
    hide Leads;
    steps, t := SessionIsUp(host);
    steps, t := OwnTurn(host, steps, t, [], Issue(OpenCommand(CHANNEL, ServiceClient, 1, 0, true, true)));
  }

  lemma {:induction false} ChannelIsOpen(host: CdrLimits.Host) returns (steps: seq<Step>, t: System)
    ensures Leads(host, steps, t, []) && Fresh(host, t)
  {
    hide Leads, TakeAll, ResolveEffective;
    steps, t := Asked(host);
    steps, t := TakesTurn(host, steps, t, []);
    assert t.down == [Said(2, ChannelReady(CHANNEL, 0, None))];
    steps, t := DeliveryTurn(host, steps, t, [], FrameParsed(ControlFrame(2, ChannelReady(CHANNEL, 0, None))));
  }

  // ---------------------------------------------------------------- the two failing inputs

  function Call(id: OperationId): HostEvent {
    Issue(SendOperation(CHANNEL, ServiceRequest, id, 0, true, true))
  }

  /** A call the channel's kind does not allow. */
  function Misplaced(id: OperationId): HostEvent {
    Issue(SendOperation(CHANNEL, ActionCancel, id, 0, true, true))
  }

  function CallFrame(id: OperationId, n: nat): Frame {
    Frame(ServiceRequest, true, false, CHANNEL, n, OPERATION_ID_AREA, 0, Some(id), AppPayload)
  }

  lemma {:induction false} CallGoesOut(t: Client.Turn, stream: OpStream, id: OperationId)
    requires t.c.services == map[CHANNEL := stream] && t.c.session == OPEN && t.o == NO_OUTCOME && id != ZERO_ID
    ensures var u := HandleEvent(t, Call(id));
            && u.c == t.c.(slab := u.c.slab, services := map[CHANNEL := NextOp(stream, id)]) && u.c.slab.retained == t.c.slab.retained
            && u.c.slab.leases == t.c.slab.leases && Messages(u.o.outbound) == [Framed(CallFrame(id, stream.nextSeq))]
            && AttemptOf(t, Call(id), CHANNEL) == [Attempt(id, true)]
  {
  }

  lemma {:induction false} MisplacedIsRefused(t: Client.Turn, stream: OpStream, id: OperationId)
    requires t.c.services == map[CHANNEL := stream] && t.c.session == OPEN && t.o == NO_OUTCOME
    ensures var u := HandleEvent(t, Misplaced(id));
            && u.c == t.c.(services := map[CHANNEL := NextOp(stream, id)]) && u.o.outbound == []
            && AttemptOf(t, Misplaced(id), CHANNEL) == [Attempt(id, false)]
  {
  }

  lemma {:induction false} NothingSwept()
    ensures forall s: Slab :: s.retained == map[] ==> Sweep(s) == s
  {
  }

  /** The gateway takes a call on the open channel. */
  lemma {:induction false} GateHears(g: Gate, id: OperationId, n: nat)
    requires g.session == OPEN && CHANNEL in g.channels && g.channels[CHANNEL].kind == ServiceClient && id != ZERO_ID
    ensures var u := HandleInbound(g, Framed(CallFrame(id, n)), Obliging());
            if n == Expected(g.channels[CHANNEL].opSeqIn, id) then
              && !u.r.close && u.g.session == OPEN && CHANNEL in u.g.channels && u.g.channels[CHANNEL].kind == ServiceClient
              && u.g.channels[CHANNEL].opSeqIn == g.channels[CHANNEL].opSeqIn[id := n + 1]
            else Mismatched(u.r.notes)
  {
    hide FailSession;
    var t := GateTurn(g, NO_REPLY);
    OperationNotes(t, CallFrame(id, n), Obliging());
  }

  /** Two operations at once: the second is failed. */
  lemma {:induction false} TwoOperationsFail(host: CdrLimits.Host) returns (steps: seq<Step>, t: System)
    ensures Reaches(Link.Start(host), steps, t) && Mismatched(t.notes)
    ensures Attempts(Link.Start(host), steps, CHANNEL) == [Attempt(1, true), Attempt(2, true)]
  {
    hide HandleEvent, HandleInbound, Sweep, AttemptOf, Reaches, Attempts;
    NothingSwept();
    steps, t := ChannelIsOpen(host);
    CallGoesOut(Client.Turn(t.engine, NO_OUTCOME), OpStream(0, map[]), 1);
    steps, t := OwnTurn(host, steps, t, [], Call(1));
    CallGoesOut(Client.Turn(t.engine, NO_OUTCOME), t.engine.services[CHANNEL], 2);
    steps, t := OwnTurn(host, steps, t, [Attempt(1, true)], Call(2));
    assert t.up == [Framed(CallFrame(1, 0)), Framed(CallFrame(2, 1))];
    GateHears(t.gate, 1, 0);
    steps, t := TakesTurn(host, steps, t, [Attempt(1, true), Attempt(2, true)]);
    assert t.up == [Framed(CallFrame(2, 1))];
    GateHears(t.gate, 2, 1);
    steps, t := TakesTurn(host, steps, t, [Attempt(1, true), Attempt(2, true)]);
  }

  /** One operation, after a call of it the client refused: failed all the same. */
  lemma {:induction false} RefusedCallFails(host: CdrLimits.Host) returns (steps: seq<Step>, t: System)
    ensures Reaches(Link.Start(host), steps, t) && Mismatched(t.notes)
    ensures Attempts(Link.Start(host), steps, CHANNEL) == [Attempt(1, false), Attempt(1, true)]
  {
    hide HandleEvent, HandleInbound, Sweep, AttemptOf, Reaches, Attempts;
    NothingSwept();
    steps, t := ChannelIsOpen(host);
    MisplacedIsRefused(Client.Turn(t.engine, NO_OUTCOME), OpStream(0, map[]), 1);
    steps, t := OwnTurn(host, steps, t, [], Misplaced(1));
    CallGoesOut(Client.Turn(t.engine, NO_OUTCOME), t.engine.services[CHANNEL], 1);
    steps, t := OwnTurn(host, steps, t, [Attempt(1, false)], Call(1));
    assert t.up == [Framed(CallFrame(1, 1))];
    GateHears(t.gate, 1, 1);
    steps, t := TakesTurn(host, steps, t, [Attempt(1, false), Attempt(1, true)]);
  }
}
