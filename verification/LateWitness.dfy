/** A run from the start in which a client unsubscribes while a sample is on its way to it, and
    so ends its session. */
module LateWitness {
  import opened ByteOrder
  import CdrLimits
  import opened Qos
  import opened Session
  import opened Client
  import G = Gateway
  import opened GatewayConnection
  import GatewayLaws
  import opened LinkItems
  import opened LinkClient
  import opened Link
  import opened Operations
  import opened CallStreams
  import opened LinkOperations
  import opened LinkHeartbeats
  import opened Replay
  import opened LinkSessions
  import opened CallWitness

  /** The client between turns, with these opens and subscriptions. */
  function Subscriber(host: CdrLimits.Host, buffers: nat, session: State, controlOut: nat, controlIn: nat, pending: map<nat, PendingOpen>,
    subscribes: map<nat, PendingOpen>): Engine
  {
    At(host, buffers, session, controlOut, controlIn, pending, map[]).(subscribes := subscribes)
  }

  function Subscription(state: ChannelState): State {
    State(Ready, map[CHANNEL := Channel(state, TopicSubscribe)], Some(1))
  }

  /** A turn of the gateway's loop that sends a sample. */
  lemma {:induction false} SampleTurn(host: CdrLimits.Host, steps: seq<Step>, s: System, buf: seq<byte>) returns (more: seq<Step>, n: System)
    requires Leads(host, steps, s, []) && s.live && FRAME_HEADER_LENGTH <= |buf| && G.FrameSample(s.gate, CHANNEL, buf).Some?
    ensures Leads(host, more, n, [])
    ensures n == s.(gate := G.Framed1(s.gate, CHANNEL), down := s.down + [RawSample(G.FrameSample(s.gate, CHANNEL, buf).value)])
  {
    hide G.FrameSample, Reaches, Attempts;
    FramingNeeds(s.gate, CHANNEL, buf);
    var step := GatewaySample(|buf|, CHANNEL, buf);
    more, n := steps + [step], Link.Next(s, step);
    ReachesOn(Link.Start(host), steps, s, step);
    assert StepEncodes(step) && [] + StepAttempts(s, step, CHANNEL) == [];
    assert [] + [RawSample(G.FrameSample(s.gate, CHANNEL, buf).value)] == [RawSample(G.FrameSample(s.gate, CHANNEL, buf).value)];
  }

  lemma {:induction false} SubscribeAsked(host: CdrLimits.Host) returns (steps: seq<Step>, t: System)
    ensures Leads(host, steps, t, [])
    ensures t.engine == Subscriber(host, 7, Subscription(Pending), 2, 2, map[CHANNEL := PendingOpen(TopicSubscribe, 1)], map[])
    ensures t.gate == G.Gate(State(Ready, map[], Some(1)), 2, 1, 0, map[], Some(1), true)
    ensures t.live && t.up == [Said(1, OpenRequest(CHANNEL, TopicSubscribe, 1, 5))] && t.down == []
  {
    hide Leads;
    steps, t := SessionIsUp(host);
    steps, t := OwnTurn(host, steps, t, [], Issue(OpenCommand(CHANNEL, TopicSubscribe, 1, 5, true, true)));
  }

  lemma {:induction false} SubscribeTaken(host: CdrLimits.Host) returns (steps: seq<Step>, t: System)
    ensures Leads(host, steps, t, [])
    ensures t.engine == Subscriber(host, 7, Subscription(Pending), 2, 2, map[CHANNEL := PendingOpen(TopicSubscribe, 1)], map[])
    ensures t.gate.session == Subscription(Active) && t.gate.channels.Keys == {CHANNEL}
    ensures t.gate.channels[CHANNEL].kind == TopicSubscribe && t.gate.channels[CHANNEL].seqOut == 0
    ensures t.live && t.up == [] && |t.down| == 1
    ensures exists rel: nat :: rel != 0 && t.down[0] == Said(2, ChannelReady(CHANNEL, 0, Some(rel)))
  {
    hide Leads, TakeAll, ResolveEffective, ToWire;
    steps, t := SubscribeAsked(host);
    var e := ResolveEffective(TakeAll(DEFAULT_REQUEST, OpenRequest(CHANNEL, TopicSubscribe, 1, 5).qos));
    ReliabilityIsCarried(e);
    steps, t := TakesTurn(host, steps, t, []);
  }

  lemma {:induction false} Subscribed(host: CdrLimits.Host) returns (steps: seq<Step>, t: System, rel: nat)
    ensures Leads(host, steps, t, [])
    ensures t.engine == Subscriber(host, 8, Subscription(Active), 2, 3, map[], map[CHANNEL := PendingOpen(TopicSubscribe, rel)])
    ensures t.gate.session == Subscription(Active) && t.gate.channels.Keys == {CHANNEL}
    ensures t.gate.channels[CHANNEL].kind == TopicSubscribe && t.gate.channels[CHANNEL].seqOut == 0
    ensures t.live && t.up == [] && t.down == []
  {
    hide Leads, HandleEvent, Sweep;
    steps, t := SubscribeTaken(host);
    rel :| rel != 0 && t.down[0] == Said(2, ChannelReady(CHANNEL, 0, Some(rel)));
    steps, t := DeliveryTurn(host, steps, t, [], FrameParsed(ControlFrame(2, ChannelReady(CHANNEL, 0, Some(rel)))));
    ReadyArrives(host, rel);
  }

  lemma {:induction false} ReadyArrives(host: CdrLimits.Host, rel: nat)
    ensures var c := Subscriber(host, 7, Subscription(Pending), 2, 2, map[CHANNEL := PendingOpen(TopicSubscribe, 1)], map[]);
            var u := HandleEvent(Client.Turn(c, NO_OUTCOME),
                                 WsBytes(0, [], FrameParsed(ControlFrame(2, ChannelReady(CHANNEL, 0, Some(rel)))), true));
            && u.c.(slab := Sweep(u.c.slab)) ==
               Subscriber(host, 8, Subscription(Active), 2, 3, map[], map[CHANNEL := PendingOpen(TopicSubscribe, rel)])
            && u.o.outbound == []
  {
    assert map[CHANNEL := PendingOpen(TopicSubscribe, 1)] - {CHANNEL} == map[];
  }

  /** A sample with an empty payload. */
  function Blank(): (buf: seq<byte>)
    ensures |buf| == FRAME_HEADER_LENGTH
  {
    Zeros(32)
  }

  lemma {:induction false} StampBlank(g: G.Gate)
    requires g.channels.Keys == {CHANNEL} && g.channels[CHANNEL].kind == TopicSubscribe && g.channels[CHANNEL].seqOut == 0
    ensures var frame := G.FrameSample(g, CHANNEL, Blank());
            && frame.Some? && |frame.value| == FRAME_HEADER_LENGTH
            && SampleRead(frame.value) ==
               Frame(RosSample, g.channels[CHANNEL].reliable, false, CHANNEL, 0, 0, 0, None, AppPayload)
  {
    hide SampleRead, G.SampleHeader;
    GatewayLaws.StampReads(g, CHANNEL, Blank());
  }

  /** The client unsubscribes after the gateway has sent a sample and before it has arrived: the
      sample is refused, and the engine closes. */
  lemma {:induction false} UnsubscribeEndsSession(host: CdrLimits.Host) returns (steps: seq<Step>, t: System)
    ensures Reaches(Link.Start(host), steps, t)
    ensures REFUSED in t.events && t.engine.closed && t.live
  {
    hide Leads, HandleEvent, G.FrameSample, Sweep, SampleRead, Reaches;
    var rel;
    steps, t, rel := Subscribed(host);
    StampBlank(t.gate);
    var b := G.FrameSample(t.gate, CHANNEL, Blank()).value;
    steps, t := SampleTurn(host, steps, t, Blank());
    Unsubscribes(Client.Turn(t.engine, NO_OUTCOME));
    NothingSwept();
    steps, t := OwnTurn(host, steps, t, [], Issue(Unsubscribe(CHANNEL, true)));
    assert t.down == [RawSample(b)];
    LateBlank(Client.Turn(t.engine, NO_OUTCOME), b);
    steps, t := DeliveryTurn(host, steps, t, [], FrameParsed(SampleRead(b)));
    Led(host, steps, t);
  }

  lemma {:induction false} Led(host: CdrLimits.Host, steps: seq<Step>, t: System)
    requires Leads(host, steps, t, [])
    ensures Reaches(Link.Start(host), steps, t)
  {
  }

  lemma {:induction false} Unsubscribes(t: Client.Turn)
    requires t.c.session == Subscription(Active) && t.o == NO_OUTCOME && !t.c.closed
    ensures var u := HandleEvent(t, Issue(Unsubscribe(CHANNEL, true)));
            u.c.session == Subscription(Closed) && !u.c.closed && u.c.slab.retained == t.c.slab.retained
  {
  }

  lemma {:induction false} LateBlank(t: Client.Turn, b: seq<byte>)
    requires t.c.session == Subscription(Closed) && !t.c.closed && |b| == FRAME_HEADER_LENGTH && t.o == NO_OUTCOME
    requires SampleRead(b).opcode == RosSample && SampleRead(b).channelId == CHANNEL
    ensures var u := HandleEvent(t, WsBytes(0, [], FrameParsed(SampleRead(b)), true));
            REFUSED in u.o.events && u.c.closed
  {
    hide SampleRead, Ingest, FinishIngest, DeclaredLen;
  }
}
