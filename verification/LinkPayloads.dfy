/** Subscription payloads from end to end: what the ROS side hands the gateway is, octet for
    octet and in order, what the client's leases show. */
module LinkPayloads {
  import opened ByteOrder
  import CdrLimits
  import opened Session
  import opened Client
  import opened Gateway
  import opened GatewayConnection
  import opened GatewayLaws
  import opened LinkItems
  import opened LinkClient
  import opened Link
  import opened LeasedSamples
  import opened LeasePayload
  import opened LinkSamples

  /** A sample as the other side sees it: its number, and its octets if they can be seen. */
  type Seen = (nat, Option<seq<byte>>)

  /** The samples on `ch` among `ws`. */
  function Payloads(ws: seq<Wire>, ch: nat): seq<Seen> {
    if ws == [] then [] else PayloadOf(ws[0], ch) + Payloads(ws[1..], ch)
  }

  function PayloadOf(w: Wire, ch: nat): seq<Seen> {
    if w.RawSample? && |w.bytes| >= FRAME_HEADER_LENGTH && ChannelField(w.bytes) == ch then
      [(SequenceField(w.bytes), Some(w.bytes[FRAME_HEADER_LENGTH..]))]
    else []
  }

  lemma {:induction false} PayloadsJoin(a: seq<Wire>, b: seq<Wire>, ch: nat)
    ensures Payloads(a + b, ch) == Payloads(a, ch) + Payloads(b, ch)
    decreases |a|
  {
    hide PayloadOf;
    if a == [] {
      assert a + b == b;
    } else {
      assert (a + b)[1..] == a[1..] + b;
      PayloadsJoin(a[1..], b, ch);
    }
  }

  /** What an event hands out on `ch`: the number, and the octets the new lease shows. */
  function HandedBy(t: Client.Turn, e: HostEvent, ch: nat): seq<Seen> {
    var u := HandleEvent(t, e);
    if u.o.events == [] || LeasedOn(u.o.events, ch) == LeasedOn(t.o.events, ch) then []
    else
      var last := u.o.events[|u.o.events| - 1];
      if last.Leased? then [(last.sequence, View(u.c.slab, last.leaseId))] else []
  }

  function BatchHanded(t: Client.Turn, events: seq<HostEvent>, ch: nat): seq<Seen>
    decreases |events|
  {
    if events == [] || t.c.closed then []
    else HandedBy(t, events[0], ch) + BatchHanded(HandleEvent(t, events[0]), events[1..], ch)
  }

  function StepHanded(s: System, step: Step, ch: nat): seq<Seen> {
    match step
    case ClientTurn(steps) => BatchHanded(Client.Turn(s.engine, NO_OUTCOME), Events(steps, s.down), ch)
    case _ => []
  }

  /** Everything handed out on `ch` in a run. */
  function Handed(s: System, steps: seq<Step>, ch: nat): seq<Seen>
    decreases |steps|
  {
    if steps == [] || !Enabled(s, steps[0]) then []
    else StepHanded(s, steps[0], ch) + Handed(Link.Next(s, steps[0]), steps[1..], ch)
  }

  // ---------------------------------------------------------------- whole frames

  /** The host hands the engine the octets of each sample as they came. */
  predicate Whole(steps: seq<HostStep>, down: seq<Wire>)
    decreases |steps|
  {
    steps != [] ==>
      match steps[0]
      case Own(_) => Whole(steps[1..], down)
      case Deliver(_, bytes, _, _) =>
        if down == [] then Whole(steps[1..], down)
        else (down[0].RawSample? ==> bytes == down[0].bytes) && Whole(steps[1..], down[1..])
  }

  predicate WholeRun(s: System, steps: seq<Step>)
    decreases |steps|
  {
    steps != [] && Enabled(s, steps[0]) ==>
      && (steps[0].ClientTurn? ==> Whole(steps[0].steps, s.down))
      && WholeRun(Link.Next(s, steps[0]), steps[1..])
  }

  /** Octets that read as one whole frame without extensions, of a size any host can hold. */
  predicate Stamped(w: Wire) {
    w.RawSample? ==>
      && FRAME_HEADER_LENGTH <= |w.bytes| <= FRAME_HEADER_LENGTH + MAX_PAYLOAD
      && SampleRead(w.bytes).extensionLen == 0 && SampleRead(w.bytes).payloadLen == |w.bytes| - FRAME_HEADER_LENGTH
      && !SampleRead(w.bytes).retained
  }

  predicate AllStamped(ws: seq<Wire>) {
    forall i :: 0 <= i < |ws| ==> Stamped(ws[i]) && !(ws[i].Framed? && ws[i].frame.opcode.RosSample?)
  }

  // ---------------------------------------------------------------- one event

  lemma {:induction false} LocalHandsNothing(t: Client.Turn, e: HostEvent, ch: nat)
    requires !e.WsBytes?
    ensures HandedBy(t, e, ch) == []
  {
    hide HandleEvent, LeasedOn;
    LocalSilent(t, e, ch);
  }

  /** An engine still open after a frame has taken it. */
  lemma {:induction false} OpenHasTaken(t: Client.Turn, bufferId: nat, bytes: seq<byte>, f: Frame, encodes: bool)
    requires !t.c.closed && f.opcode.RosSample? && f.payload.AppPayload?
    ensures var u := HandleEvent(t, WsBytes(bufferId, bytes, FrameParsed(f), encodes));
            !u.c.closed ==> HandsOut(t.c.session, f)
  {
    hide Client.HandleFrame, Client.HandleBootstrap, ApplyFrame, Ingest, FinishIngest, DeclaredLen;
    var (slab, id) := Ingest(t.c.slab, bufferId, t.c.host, bytes);
    RefusedCloses(t.(c := t.c.(slab := slab)), id, DeclaredLen(t.c.host, bytes), f, encodes);
  }

  lemma {:induction false} RefusedCloses(t: Client.Turn, id: nat, declared: nat, f: Frame, encodes: bool)
    ensures Client.HandleBootstrap(t, FrameParsed(f)).c.closed
    ensures ApplyFrame(t.c.session, f, ServerRole).Violation? ==> Client.HandleFrame(t, id, declared, FrameParsed(f), encodes).c.closed
  {
    hide ApplyFrame;
  }

  /** Taking a message off the wire hands out the sample it is, octet for octet. */
  lemma {:induction false} DeliveryHands(t: Client.Turn, e: HostEvent, w: Wire, ch: nat)
    requires e.WsBytes? && !t.c.closed && ReadsAs(e.parsed, w) && Stamped(w) && !(w.Framed? && w.frame.opcode.RosSample?)
    requires w.RawSample? ==> e.bytes == w.bytes
    ensures HandedBy(t, e, ch) == if HandleEvent(t, e).c.closed then [] else PayloadOf(w, ch)
  {
    hide HandleEvent, LeasedOn, ReadsAs, SampleRead, ChannelField, SequenceField, LeasedFor, HandsOut;
    DeliveryLeases(t, e, w, ch);
    var u := HandleEvent(t, e);
    assert LeasedOn(t.o.events, ch) + [] == LeasedOn(t.o.events, ch);
    if !u.c.closed && PayloadOf(w, ch) != [] {
      var f := SampleRead(w.bytes);
      ReadWhole(e.parsed, w);
      UnparsableCloses(t, e);
      var head, payload := w.bytes[..FRAME_HEADER_LENGTH], w.bytes[FRAME_HEADER_LENGTH..];
      assert e.bytes == head + [] + payload;
      OpenHasTaken(t, e.bufferId, e.bytes, f, e.replyEncodes);
      LeaseShowsPayload(t, e.bufferId, head, [], payload, f, e.replyEncodes);
      assert e == WsBytes(e.bufferId, head + [] + payload, FrameParsed(f), e.replyEncodes);
      HandedLast(t, u, f, payload, w, ch);
    }
  }

  lemma {:induction false} UnparsableCloses(t: Client.Turn, e: HostEvent)
    requires e.WsBytes?
    ensures e.parsed.Unparsable? ==> HandleEvent(t, e).c.closed
  {
    hide Ingest, FinishIngest, DeclaredLen;
  }

  lemma {:induction false} HandedLast(t: Client.Turn, u: Client.Turn, f: Frame, payload: seq<byte>, w: Wire, ch: nat)
    requires w.RawSample? && |w.bytes| >= FRAME_HEADER_LENGTH
    requires LeasedFor(t, u, f, t.c.slab.nextLease) && f.sequence == SequenceField(w.bytes)
    ensures u.o.events != [] && u.o.events[|u.o.events| - 1].Leased?
    ensures u.o.events[|u.o.events| - 1].sequence == SequenceField(w.bytes) && u.o.events[|u.o.events| - 1].leaseId == t.c.slab.nextLease
  {
    hide SequenceField;
  }

  lemma {:induction false} ReadWhole(parsed: Parsed, w: Wire)
    requires ReadsAs(parsed, w) && w.RawSample? && |w.bytes| >= FRAME_HEADER_LENGTH
    ensures parsed.Unparsable? || parsed == FrameParsed(SampleRead(w.bytes))
    ensures var f := SampleRead(w.bytes);
            f.opcode.RosSample? && f.payload.AppPayload? && f.channelId == ChannelField(w.bytes) && f.sequence == SequenceField(w.bytes)
  {
    hide ChannelField, SequenceField;
  }

  // ---------------------------------------------------------------- the client's turns

  /** What was handed out and what is still in flight, towards an engine that may have closed. */
  ghost predicate Hands(sent: seq<Seen>, handed: seq<Seen>, closed: bool, down: seq<Wire>, ch: nat) {
    if closed then handed <= sent else handed + Payloads(down, ch) == sent
  }

  lemma {:induction false} ClosingHands(sent: seq<Seen>, handed: seq<Seen>, closed: bool, down: seq<Wire>, ch: nat)
    requires Hands(sent, handed, false, down, ch)
    ensures Hands(sent, handed + [], closed, down, ch)
  {
    hide Payloads;
    assert handed + [] == handed;
  }

  lemma {:induction false} DeliveredHands(sent: seq<Seen>, handed: seq<Seen>, closed: bool, down: seq<Wire>, ch: nat)
    requires down != [] && Hands(sent, handed, false, down, ch)
    ensures Hands(sent, handed + (if closed then [] else PayloadOf(down[0], ch)), closed, down[1..], ch)
  {
    hide PayloadOf;
    assert handed + [] == handed;
    assert handed + (PayloadOf(down[0], ch) + Payloads(down[1..], ch)) == (handed + PayloadOf(down[0], ch)) + Payloads(down[1..], ch);
  }

  lemma {:induction false} BatchHands(t: Client.Turn, steps: seq<HostStep>, down: seq<Wire>, sent: seq<Seen>, handed: seq<Seen>, ch: nat)
    requires Legal(steps, down) && Whole(steps, down) && AllStamped(down) && Hands(sent, handed, t.c.closed, down, ch)
    ensures var u := HandleAll(t, Events(steps, down));
            && Hands(sent, handed + BatchHanded(t, Events(steps, down), ch), u.c.closed, Undelivered(steps, down), ch)
            && AllStamped(Undelivered(steps, down))
    decreases |steps|
  {
    hide HandleEvent, ReadsAs, HandedBy, Hands, Payloads, PayloadOf, Stamped;
    assert handed + [] == handed;
    if steps != [] {
      var es := Events(steps, down);
      match steps[0]
      case Own(e) =>
        assert es[0] == e && es[1..] == Events(steps[1..], down);
        if t.c.closed {
          BatchHands(t, steps[1..], down, sent, handed, ch);
        } else {
          var u := HandleEvent(t, e);
          LocalHandsNothing(t, e, ch);
          ClosingHands(sent, handed, u.c.closed, down, ch);
          BatchHands(u, steps[1..], down, sent, handed, ch);
          assert [] + BatchHanded(u, es[1..], ch) == BatchHanded(u, es[1..], ch);
        }
      case Deliver(b, bytes, parsed, encodes) =>
        if down == [] {
          BatchHands(t, steps[1..], down, sent, handed, ch);
        } else {
          var e := WsBytes(b, bytes, parsed, encodes);
          assert es[0] == e && es[1..] == Events(steps[1..], down[1..]);
          if t.c.closed {
            ClosedHands(sent, handed, down, down[1..], ch);
            BatchHands(t, steps[1..], down[1..], sent, handed, ch);
          } else {
            var u := HandleEvent(t, e);
            DeliveryHands(t, e, down[0], ch);
            DeliveredHands(sent, handed, u.c.closed, down, ch);
            BatchHands(u, steps[1..], down[1..], sent, handed + HandedBy(t, e, ch), ch);
            assert handed + (HandedBy(t, e, ch) + BatchHanded(u, es[1..], ch)) == (handed + HandedBy(t, e, ch)) + BatchHanded(u, es[1..], ch);
          }
        }
    }
  }

  lemma {:induction false} ClosedHands(sent: seq<Seen>, handed: seq<Seen>, down: seq<Wire>, other: seq<Wire>, ch: nat)
    requires Hands(sent, handed, true, down, ch)
    ensures Hands(sent, handed, true, other, ch)
  {
  }

  lemma {:induction false} TurnHands(s: System, steps: seq<HostStep>, sent: seq<Seen>, handed: seq<Seen>, ch: nat)
    requires Enabled(s, ClientTurn(steps)) && Whole(steps, s.down) && AllStamped(s.down)
    requires Hands(sent, handed, s.engine.closed, s.down, ch)
    ensures var n := Link.Next(s, ClientTurn(steps));
            && Hands(sent, handed + StepHanded(s, ClientTurn(steps), ch), n.engine.closed, n.down, ch) && AllStamped(n.down)
  {
    hide HandleAll, Legal, Sweep, Swept, Payloads, Stamped, Whole, BatchHanded;
    var events := Events(steps, s.down);
    assert Batch(events) == events;
    var t := Client.Turn(s.engine, NO_OUTCOME);
    BatchHands(t, steps, s.down, sent, handed, ch);
    assert s.engine.closed ==> HandleAll(t, events) == t by {
      ClosedStays(t, events);
    }
  }

  lemma {:induction false} ClosedStays(t: Client.Turn, events: seq<HostEvent>)
    ensures t.c.closed ==> HandleAll(t, events) == t
  {
  }

  // ---------------------------------------------------------------- the gateway's turns

  /** The payload the ROS side offers on `ch` in a step and the gateway can send: on an open
      subscription, within the frame limit and the byte budget. */
  function OfferedIn(s: System, step: Step, ch: nat): seq<seq<byte>> {
    match step
    case GatewaySample(budget, target, buf) =>
      if target == ch && s.live && IsSubscription(s.gate, ch) && FRAME_HEADER_LENGTH <= |buf| <= FRAME_HEADER_LENGTH + MAX_PAYLOAD
         && |buf| <= budget then [buf[FRAME_HEADER_LENGTH..]]
      else []
    case _ => []
  }

  function Offered(s: System, steps: seq<Step>, ch: nat): seq<seq<byte>>
    decreases |steps|
  {
    if steps == [] || !Enabled(s, steps[0]) then []
    else OfferedIn(s, steps[0], ch) + Offered(Link.Next(s, steps[0]), steps[1..], ch)
  }

  /** The octets of samples, seen or not, are those offered. */
  ghost predicate Shows(seen: seq<Seen>, offered: seq<seq<byte>>) {
    |seen| == |offered| && forall i :: 0 <= i < |seen| ==> seen[i].1 == Some(offered[i])
  }

  lemma {:induction false} ShowsMore(seen: seq<Seen>, offered: seq<seq<byte>>, more: seq<Seen>, extra: seq<seq<byte>>)
    requires Shows(seen, offered) && Shows(more, extra)
    ensures Shows(seen + more, offered + extra)
  {
  }

  lemma {:induction false} SampleShows(s: System, step: Step, ch: nat)
    requires Enabled(s, step) && FitsStep(s, step) && step.GatewaySample?
    ensures Shows(Payloads(Output(s, step), ch), OfferedIn(s, step, ch)) && AllStamped(Output(s, step))
  {
    hide FrameSample, SampleRead, ChannelField, SequenceField;
    var target, buf := step.channelId, step.buf;
    FramingNeeds(s.gate, target, buf);
    FramesWhen(s.gate, target, buf);
    var frame := FrameSample(s.gate, target, buf);
    if frame.Some? {
      StampReads(s.gate, target, buf);
      StampOrders(s.gate, target, buf);
      assert [] + [RawSample(frame.value)] == [RawSample(frame.value)];
      PayloadsOne(RawSample(frame.value), ch);
    }
  }

  lemma {:induction false} PayloadsOne(w: Wire, ch: nat)
    ensures Payloads([w], ch) == PayloadOf(w, ch) && Payloads([], ch) == []
  {
    hide PayloadOf;
    assert [w][1..] == [];
  }

  lemma {:induction false} FramesWhen(g: Gate, ch: nat, buf: seq<byte>)
    requires FRAME_HEADER_LENGTH <= |buf|
    ensures FrameSample(g, ch, buf).Some? <==> IsSubscription(g, ch) && |buf| <= FRAME_HEADER_LENGTH + MAX_PAYLOAD
  {
    hide SampleHeader;
  }

  lemma {:induction false} QuietOutput(s: System, step: Step, h: seq<Wire>, ch: nat)
    requires Enabled(s, step) && !step.GatewaySample? && Traced(s, h, ch)
    ensures Payloads(Output(s, step), ch) == [] && AllStamped(Output(s, step))
  {
    hide HandleInbound, PushRequest, ChannelSound, Delivers, PayloadOf, NoSamples;
    var c := Conn(s.gate, h, s.live);
    SoundIsFresh(c, ch);
    assert forall ws: seq<Wire> :: [] + ws == ws;
    NoPayloads([], ch);
    assert NoSamples([]) by { NothingSampled(); }
    match step {
      case GatewayTakes(w) =>
        if s.live && s.up != [] {
          InboundPolite(c, s.up[0], w, ch);
        }
      case GatewayRequest(target, op, id, w) => RequestPolite(c, target, op, id, w, ch);
      case _ =>
    }
    NoPayloads(Output(s, step), ch);
  }

  lemma {:induction false} NothingSampled()
    ensures NoSamples([])
  {
  }

  lemma {:induction false} NoPayloads(ws: seq<Wire>, ch: nat)
    ensures NoSamples(ws) ==> Payloads(ws, ch) == [] && AllStamped(ws)
    decreases |ws|
  {
    if ws != [] {
      NoPayloads(ws[1..], ch);
      if NoSamples(ws) {
        forall i | 0 <= i < |ws[1..]| ensures !ws[1..][i].RawSample? && !(ws[1..][i].Framed? && ws[1..][i].frame.opcode.RosSample?) {
          assert ws[1..][i] == ws[i + 1];
        }
      }
    }
  }

  // ---------------------------------------------------------------- every run

  /** Everything about `ch` so far: `h` was sent, `offered` went into it, `handed` came out. */
  ghost predicate Carried(s: System, h: seq<Wire>, handed: seq<Seen>, offered: seq<seq<byte>>, ch: nat) {
    && AllStamped(s.down) && Hands(Payloads(h, ch), handed, s.engine.closed, s.down, ch)
    && Shows(Payloads(h, ch), offered)
  }

  lemma {:induction false} StepCarried(s: System, step: Step, h: seq<Wire>, handed: seq<Seen>, offered: seq<seq<byte>>, ch: nat)
    requires Enabled(s, step) && FitsStep(s, step) && Traced(s, h, ch) && Carried(s, h, handed, offered, ch)
    requires step.ClientTurn? ==> Whole(step.steps, s.down)
    ensures Carried(Link.Next(s, step), h + Output(s, step), handed + StepHanded(s, step, ch), offered + OfferedIn(s, step, ch), ch)
  {
    hide Traced, HandleInbound, PushRequest, ConnStep, Payloads, Stamped, Whole, BatchHanded, Poll, Legal, FitsStep;
    var n, ws := Link.Next(s, step), Output(s, step);
    if step.GatewaySample? {
      SampleShows(s, step, ch);
    } else {
      QuietOutput(s, step, h, ch);
    }
    PayloadsJoin(h, ws, ch);
    ShowsMore(Payloads(h, ch), offered, Payloads(ws, ch), OfferedIn(s, step, ch));
    assert handed + [] == handed;
    if step.ClientTurn? {
      TurnHands(s, step.steps, Payloads(h, ch), handed, ch);
      assert h + [] == h;
    } else {
      PayloadsJoin(s.down, ws, ch);
      assert n.down == s.down + ws;
    }
  }

  lemma {:induction false} RunCarried(s: System, steps: seq<Step>, t: System, h: seq<Wire>, handed: seq<Seen>, offered: seq<seq<byte>>, ch: nat)
    requires Reaches(s, steps, t) && FitsRun(s, steps) && WholeRun(s, steps) && Traced(s, h, ch) && Carried(s, h, handed, offered, ch)
    ensures Carried(t, h + SentDown(s, steps), handed + Handed(s, steps, ch), offered + Offered(s, steps, ch), ch)
    decreases |steps|
  {
    hide Link.Next, Enabled, FitsStep, Traced, Carried, Output, StepHanded, OfferedIn, Whole;
    if steps == [] {
      assert h + [] == h && handed + [] == handed && offered + [] == offered;
    } else {
      var n, ws := Link.Next(s, steps[0]), Output(s, steps[0]);
      var out, into := StepHanded(s, steps[0], ch), OfferedIn(s, steps[0], ch);
      StepTraced(s, steps[0], h, ch, None);
      assert Within(s, h, ch, None);
      StepCarried(s, steps[0], h, handed, offered, ch);
      RunCarried(n, steps[1..], t, h + ws, handed + out, offered + into, ch);
      assert h + (ws + SentDown(n, steps[1..])) == (h + ws) + SentDown(n, steps[1..]);
      assert handed + (out + Handed(n, steps[1..], ch)) == (handed + out) + Handed(n, steps[1..], ch);
      assert offered + (into + Offered(n, steps[1..], ch)) == (offered + into) + Offered(n, steps[1..], ch);
    }
  }

  lemma {:induction false} StartCarried(host: CdrLimits.Host, ch: nat)
    ensures Carried(Link.Start(host), [], [], [], ch)
  {
  }

  /** The numbers of the payloads are the sequence numbers on the wire. */
  lemma {:induction false} NumbersAgree(ws: seq<Wire>, ch: nat)
    ensures |Payloads(ws, ch)| == |Sequences(ws, ch)|
    ensures forall i :: 0 <= i < |Payloads(ws, ch)| ==> Payloads(ws, ch)[i].0 == Sequences(ws, ch)[i]
    decreases |ws|
  {
    hide ChannelField, SequenceField;
    if ws != [] {
      NumbersAgree(ws[1..], ch);
      SequencesHead(ws, ch);
    }
  }

  /** Over every run in which the host hands on each sample whole, and for every channel: the
      octets the client's leases show are, in order and one for one, the payloads the ROS
      side offered and the gateway could send; all of them, while the client is open, but
      those still in flight. On a reliable subscription the `i`-th has number `i`. */
  lemma {:induction false} PayloadsArriveIntact(host: CdrLimits.Host, steps: seq<Step>, t: System, ch: nat)
    requires Reaches(Link.Start(host), steps, t) && FitsRun(Link.Start(host), steps) && WholeRun(Link.Start(host), steps)
    ensures var handed, offered := Handed(Link.Start(host), steps, ch), Offered(Link.Start(host), steps, ch);
            && |handed| <= |offered| && (forall i :: 0 <= i < |handed| ==> handed[i].1 == Some(offered[i]))
            && (!t.engine.closed ==> |handed| + |Payloads(t.down, ch)| == |offered|)
            && (var runtime := OpenedOn(Link.Start(host), steps, ch);
                runtime.Some? && runtime.value.kind.TopicSubscribe? && runtime.value.reliable ==>
                  forall i :: 0 <= i < |handed| ==> handed[i].0 == i)
  {
    hide Reaches, FitsRun, WholeRun, OpenedOn, Sequences, Payloads, Traced, Handed, Offered, SentDown, Lifetime;
    var s := Link.Start(host);
    var h, handed, offered := SentDown(s, steps), Handed(s, steps, ch), Offered(s, steps, ch);
    StartTraced(host, ch);
    StartCarried(host, ch);
    RunCarried(s, steps, t, [], [], [], ch);
    assert [] + h == h && [] + handed == handed && [] + offered == offered;
    var runtime := OpenedOn(s, steps, ch);
    if runtime.Some? && runtime.value.kind.TopicSubscribe? && runtime.value.reliable {
      OpenedTraced(s, steps, t, [], ch);
      assert Sequences(h, ch) == UpTo(|Sequences(h, ch)|) by {
        ReliableLifetime(Conn(t.gate, h, t.live), ch);
      }
      NumbersAgree(h, ch);
    }
  }

  lemma {:induction false} ReliableLifetime(c: Conn, ch: nat)
    requires Lifetime(c, ch, true)
    ensures Sequences(c.wire, ch) == UpTo(|Sequences(c.wire, ch)|)
  {
    hide Sequences;
  }
}
