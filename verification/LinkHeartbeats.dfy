/** Heartbeats over a link. Both peers answer every heartbeat with one of their own, so none
    is ever used up: what is in flight is every heartbeat that was ever due. */
module LinkHeartbeats {
  import opened ByteOrder
  import CdrLimits
  import opened Qos
  import opened Session
  import opened Client
  import G = Gateway
  import opened GatewayConnection
  import opened LinkItems
  import opened LinkClient
  import opened LinkGateway
  import opened Link
  import opened Heartbeats

  // ---------------------------------------------------------------- counting

  predicate IsBeat(w: Wire) {
    w.Framed? && w.frame.opcode.ControlCbor? && w.frame.payload.ControlPayload? && w.frame.payload.msg.Heartbeat?
  }

  function One(w: Wire): nat {
    if IsBeat(w) then 1 else 0
  }

  function Beats(ws: seq<Wire>): nat {
    if ws == [] then 0 else One(ws[0]) + Beats(ws[1..])
  }

  lemma {:induction false} BeatsJoin(a: seq<Wire>, b: seq<Wire>)
    ensures Beats(a + b) == Beats(a) + Beats(b)
    decreases |a|
  {
    hide One;
    if a == [] {
      assert a + b == b;
    } else {
      assert (a + b)[1..] == a[1..] + b;
      BeatsJoin(a[1..], b);
    }
  }

  lemma {:induction false} BeatsOne(w: Wire)
    ensures Beats([w]) == One(w) && Beats([]) == 0
  {
    assert [w][1..] == [];
  }

  // ---------------------------------------------------------------- the client

  /** The turn queued `n` heartbeats more. */
  predicate Adds(t: Client.Turn, u: Client.Turn, n: nat) {
    Beats(Messages(u.o.outbound)) == Beats(Messages(t.o.outbound)) + n
  }

  lemma {:induction false} SentAdds(t: Client.Turn, u: Client.Turn, ws: seq<Wire>)
    requires Sends(t, u, ws) && |ws| <= 1
    ensures Adds(t, u, if ws == [] then 0 else One(ws[0]))
  {
    hide One;
    BeatsJoin(Messages(t.o.outbound), ws);
    if ws != [] {
      assert ws == [ws[0]];
      BeatsOne(ws[0]);
    } else {
      BeatsOne(Boot(ClientHello));
    }
  }

  lemma {:induction false} SameAdds(t: Client.Turn, u: Client.Turn)
    requires u.o.outbound == t.o.outbound
    ensures Adds(t, u, 0)
  {
  }

  lemma {:induction false} PushAdds(t: Client.Turn, msg: Control, encodes: bool)
    requires HasRoom(t)
    ensures Adds(t, PushControl(t, msg, encodes).turn, if PushControl(t, msg, encodes).ok && msg.Heartbeat? then 1 else 0)
  {
    hide PushControl, Sends, Counts, Adds, ApplyControl;
    var ws := PushEffect(t, msg, encodes);
    SentAdds(t, PushControl(t, msg, encodes).turn, ws);
  }

  lemma {:induction false} DataAdds(t: Client.Turn, f: Frame, frames: bool)
    requires HasRoom(t) && !f.opcode.ControlCbor?
    ensures Adds(t, SendData(t, f, frames).turn, 0)
  {
    hide PushOutbound, ApplyFrame, Sends, Adds;
    var p := SendData(t, f, frames);
    if p.ok {
      var s := t.(c := t.c.(session := ApplyFrame(t.c.session, f, ClientRole).state));
      PushSends(s, Framed(f));
      SentAdds(s, p.turn, [Framed(f)]);
      AddsFrom(t, s, p.turn, p.turn, 0);
    } else {
      SameAdds(t, t);
    }
  }

  /** Only what was queued counts. */
  lemma {:induction false} AddsFrom(t: Client.Turn, s: Client.Turn, u: Client.Turn, r: Client.Turn, n: nat)
    requires s.o.outbound == t.o.outbound && r.o.outbound == u.o.outbound && Adds(s, u, n)
    ensures Adds(t, r, n)
  {
  }

  lemma {:induction false} CommandAdds(t: Client.Turn, cmd: Command)
    requires HasRoom(t)
    ensures Adds(t, HandleCommand(t, cmd), 0)
  {
    hide PushControl, SendData, PushOutbound, Adds, SampleFrame, OpenRequest, NextOp, SentReliable, ApplyBootstrap;
    var r := HandleCommand(t, cmd);
    match cmd
    case Start(_) => StartAdds(t, cmd);
    case Login(encodes) =>
      PushAdds(t, Authenticate, encodes);
      PushedOrNot(t, PushControl(t, Authenticate, encodes), r);
    case OpenCommand(ch, kind, reliability, depth, _, encodes) =>
      var msg := OpenRequest(ch, kind, RequestedReliability(kind, reliability), depth);
      assert !msg.Heartbeat? by {
        NotBeat(ch, kind, RequestedReliability(kind, reliability), depth);
      }
      PushAdds(t, msg, encodes);
      PushedOrNot(t, PushControl(t, msg, encodes), r);
    case SendSample(ch, payloadLen, _, frames) =>
      if cmd.encoded && ch in t.c.publishes {
        SampleAdds(t, ch, payloadLen, frames);
      } else {
        SameAdds(t, r);
      }
    case SendOperation(ch, op, id, payloadLen, _, frames) =>
      if cmd.encoded && (ch in t.c.services || ch in t.c.actions) {
        OperationAdds(t, ch, op, id, payloadLen, frames);
      } else {
        SameAdds(t, r);
      }
    case Unsubscribe(ch, encodes) =>
      PushAdds(t, CloseChannel(ch), encodes);
      PushedOrNot(t, PushControl(t, CloseChannel(ch), encodes), r);
    case Shutdown => SameAdds(t, r);
  }

  lemma {:induction false} NotBeat(ch: nat, kind: Kind, reliability: byte, depth: nat)
    ensures !OpenRequest(ch, kind, reliability, depth).Heartbeat?
  {
  }

  lemma {:induction false} PushedOrNot(t: Client.Turn, p: Pushed, r: Client.Turn)
    requires Adds(t, p.turn, 0) && (r.o.outbound == t.o.outbound || r.o.outbound == p.turn.o.outbound)
    ensures Adds(t, r, 0)
  {
  }

  lemma {:induction false} StartAdds(t: Client.Turn, cmd: Command)
    requires HasRoom(t) && cmd.Start?
    ensures Adds(t, HandleCommand(t, cmd), 0)
  {
    hide PushOutbound, Adds, Sends, ApplyBootstrap;
    var r := HandleCommand(t, cmd);
    var a := ApplyBootstrap(t.c.session, ClientHello, ClientRole);
    if t.c.started || !cmd.encodes || a.Violation? {
      SameAdds(t, r);
    } else {
      var s := t.(c := t.c.(started := true, session := a.state));
      PushSends(s, Boot(ClientHello));
      SentAdds(s, r, [Boot(ClientHello)]);
      AddsFrom(t, s, r, r, 0);
    }
  }

  lemma {:induction false} SampleAdds(t: Client.Turn, ch: nat, payloadLen: nat, frames: bool)
    requires HasRoom(t) && ch in t.c.publishes
    ensures Adds(t, SendSamplePayload(t, ch, payloadLen, frames), 0)
  {
    hide SendData, Adds;
    var p := t.c.publishes[ch];
    var s := t.(c := t.c.(publishes := t.c.publishes[ch := p.(seqOut := p.seqOut + 1)]));
    var sent := SendData(s, SampleFrame(ch, p, payloadLen), frames);
    DataAdds(s, SampleFrame(ch, p, payloadLen), frames);
    AddsFrom(t, s, sent.turn, sent.turn, 0);
    SameAdds(t, Tell(t, SendFailed(ch)));
  }

  lemma {:induction false} OperationAdds(t: Client.Turn, ch: nat, op: OperationCode, id: OperationId, payloadLen: nat, frames: bool)
    requires HasRoom(t) && (ch in t.c.services || ch in t.c.actions)
    ensures Adds(t, SendOperationFrame(t, ch, op, id, payloadLen, frames), 0)
  {
    hide SendData, Adds, NextOp, SentReliable;
    var sequence := if ch in t.c.services then t.c.services[ch].nextSeq else t.c.actions[ch].nextSeq;
    var took :=
      if ch in t.c.services then t.(c := t.c.(services := t.c.services[ch := NextOp(t.c.services[ch], id)]))
      else t.(c := t.c.(actions := t.c.actions[ch := NextOp(t.c.actions[ch], id)]));
    var f := Frame(op, SentReliable(op), false, ch, sequence, OPERATION_ID_AREA, payloadLen, Some(id), AppPayload);
    DataAdds(took, f, frames);
    AddsFrom(t, took, SendData(took, f, frames).turn, SendData(took, f, frames).turn, 0);
    SameAdds(t, Tell(took, SendFailed(ch)));
  }

  /** What the encoder is asked for went through. */
  predicate Encodes(e: HostEvent) {
    (e.Timer? ==> e.encodes) && (e.WsBytes? ==> e.replyEncodes)
  }

  function DueNow(c: Engine, e: HostEvent): nat {
    if e.Timer? && Due(c, e.now) then 1 else 0
  }

  lemma {:induction false} LocalAdds(t: Client.Turn, e: HostEvent)
    requires HasRoom(t) && !e.WsBytes?
    ensures Adds(t, HandleEvent(t, e), if Encodes(e) then DueNow(t.c, e) else 0)
  {
    hide HandleCommand, HandleTimer, Release, Adds, Sends, Due;
    match e
    case Timer(now, encodes) =>
      var u := HandleEvent(t, e);
      var f := Framed(ControlFrame(t.c.controlOut, Heartbeat(t.c.heartbeats + 1)));
      TimerIsExact(t, now, encodes);
      SentAdds(t, u, if Due(t.c, now) && encodes then [f] else []);
    case Issue(cmd) => CommandAdds(t, cmd);
    case ReleaseLease(_) => SameAdds(t, HandleEvent(t, e));
    case WsBytes(_, _, _, _) =>
  }

  lemma {:induction false} ControlAdds(t: Client.Turn, msg: Control, encodes: bool)
    requires HasRoom(t) && ApplyControl(t.c.session, msg, ServerRole).Accepted?
    ensures var a := ApplyControl(t.c.session, msg, ServerRole);
            var u := HandleControl(t.(c := t.c.(session := a.state, controlIn := t.c.controlIn + 1)), msg, a.effects, encodes);
            Adds(t, u, if msg.Heartbeat? && encodes then 1 else 0)
  {
    hide PushControl, ApplyControl, ChannelIsReady, OpenDidFail, Adds;
    var a := ApplyControl(t.c.session, msg, ServerRole);
    var s := t.(c := t.c.(session := a.state, controlIn := t.c.controlIn + 1));
    var u := HandleControl(s, msg, a.effects, encodes);
    if msg.Heartbeat? {
      HeardReady(t.c.session, msg);
      var x := Tell(s, HeartbeatSeen(msg.counter));
      var v := x.(c := x.c.(heartbeats := x.c.heartbeats + 1));
      HeartbeatsGoOut(v, encodes);
      PushAdds(v, Heartbeat(v.c.heartbeats), encodes);
      AddsFrom(t, v, u, u, if encodes then 1 else 0);
    } else {
      OutboundKept(s, msg, a.effects, encodes);
      SameAdds(t, u);
    }
  }

  lemma {:induction false} HeardReady(s: State, msg: Control)
    requires msg.Heartbeat? && ApplyControl(s, msg, ServerRole).Accepted?
    ensures s.phase.Ready? && ApplyControl(s, msg, ServerRole).state == s
  {
  }

  lemma {:induction false} OutboundKept(s: Client.Turn, msg: Control, fx: Effects, encodes: bool)
    requires !msg.Heartbeat?
    ensures HandleControl(s, msg, fx, encodes).o.outbound == s.o.outbound
  {
    match msg
    case ChannelReady(_, _, _) =>
    case _ =>
  }

  /** Taking a message off the wire queues one heartbeat if it is one, and none if not; or the
      engine closes. */
  lemma {:induction false} DeliveryAdds(t: Client.Turn, e: HostEvent, w: Wire)
    requires HasRoom(t) && e.WsBytes? && ReadsAs(e.parsed, w)
    ensures var u := HandleEvent(t, e);
            && (Adds(t, u, 0) || Adds(t, u, One(w)))
            && (!u.c.closed && Encodes(e) ==> Adds(t, u, One(w)))
  {
    hide HandleBootstrap, HandleFrame, Ingest, FinishIngest, DeclaredLen, Adds, ReadsAs, One;
    var (slab, id) := Ingest(t.c.slab, e.bufferId, t.c.host, e.bytes);
    var s, u := t.(c := t.c.(slab := slab)), HandleEvent(t, e);
    if !t.c.session.phase.InSelectedPlane() {
      BootEngine(s, e.parsed);
      SameAdds(t, u);
      if e.parsed.BootRecord? {
        BootIsNoBeat(e.parsed, w);
      } else {
        NoBootCloses(s, e.parsed);
      }
    } else {
      FrameAdds(s, id, DeclaredLen(t.c.host, e.bytes), e.parsed, e.replyEncodes, w);
      var v := HandleFrame(s, id, DeclaredLen(t.c.host, e.bytes), e.parsed, e.replyEncodes);
      if Adds(s, v, 0) {
        AddsFrom(t, s, v, u, 0);
      }
      if Adds(s, v, One(w)) {
        AddsFrom(t, s, v, u, One(w));
      }
    }
  }

  lemma {:induction false} BootIsNoBeat(parsed: Parsed, w: Wire)
    requires ReadsAs(parsed, w) && parsed.BootRecord?
    ensures One(w) == 0
  {
  }

  lemma {:induction false} NoBootCloses(t: Client.Turn, parsed: Parsed)
    requires !parsed.BootRecord?
    ensures HandleBootstrap(t, parsed).c.closed
  {
  }

  lemma {:induction false} ReadAsFrame(parsed: Parsed, w: Wire)
    requires ReadsAs(parsed, w) && parsed.FrameParsed?
    ensures One(w) == One(Framed(parsed.frame))
  {
  }

  lemma {:induction false} FrameAdds(t: Client.Turn, id: nat, declared: nat, parsed: Parsed, encodes: bool, w: Wire)
    requires HasRoom(t) && ReadsAs(parsed, w)
    ensures var u := HandleFrame(t, id, declared, parsed, encodes);
            && (Adds(t, u, 0) || Adds(t, u, One(w)))
            && (!u.c.closed && encodes ==> Adds(t, u, One(w)))
  {
    hide HandleControl, HandleData, ApplyControl, Adds, ReadsAs;
    var u := HandleFrame(t, id, declared, parsed, encodes);
    if !parsed.FrameParsed? || ApplyFrame(t.c.session, parsed.frame, ServerRole).Violation? {
      SameAdds(t, u);
    } else {
      var f := parsed.frame;
      ReadAsFrame(parsed, w);
      if f.opcode.ControlCbor? && f.sequence == t.c.controlIn && f.payload.ControlPayload? {
        ControlAdds(t, f.payload.msg, encodes);
      } else {
        DataEngine(t.(c := t.c.(session := ApplyFrame(t.c.session, f, ServerRole).state)), id, f, declared);
        SameAdds(t, u);
      }
    }
  }

  /** Every encoding in the turn went through. */
  predicate AllEncode(steps: seq<HostStep>) {
    forall i :: 0 <= i < |steps| ==>
      match steps[i] { case Own(e) => Encodes(e) case Deliver(_, _, _, replyEncodes) => replyEncodes }
  }

  /** How many heartbeats were due in a batch. */
  function DueIn(t: Client.Turn, events: seq<HostEvent>): nat
    decreases |events|
  {
    if events == [] || t.c.closed then 0 else DueNow(t.c, events[0]) + DueIn(HandleEvent(t, events[0]), events[1..])
  }

  lemma {:induction false} BatchBeats(t: Client.Turn, steps: seq<HostStep>, down: seq<Wire>)
    requires |t.o.outbound| + |steps| <= MAX_OUTBOUND_PER_POLL && Legal(steps, down)
    ensures var es := Events(steps, down);
            var u := HandleAll(t, es);
            var before := Beats(Messages(t.o.outbound)) + Beats(down) + DueIn(t, es);
            var after := Beats(Messages(u.o.outbound)) + Beats(Undelivered(steps, down));
            after <= before && (!u.c.closed && AllEncode(steps) ==> after == before)
    decreases |steps|
  {
    hide HandleEvent, ReadsAs, Messages, DueNow, Encodes, One;
    if t.c.closed {
      DropsBeats(steps, down);
    } else if steps != [] {
      var es := Events(steps, down);
      match steps[0]
      case Own(e) =>
        assert es[0] == e && es[1..] == Events(steps[1..], down);
        LocalAdds(t, e);
        EventQueuesOne(t, e);
        BatchBeats(HandleEvent(t, e), steps[1..], down);
      case Deliver(b, bytes, parsed, encodes) =>
        if down == [] {
          BatchBeats(t, steps[1..], down);
        } else {
          var e := WsBytes(b, bytes, parsed, encodes);
          assert es[0] == e && es[1..] == Events(steps[1..], down[1..]);
          assert Encodes(e) == encodes && DueNow(t.c, e) == 0 by {
            InboundIsNotDue(t.c, e);
          }
          DeliveryAdds(t, e, down[0]);
          EventQueuesOne(t, e);
          BatchBeats(HandleEvent(t, e), steps[1..], down[1..]);
          ClosedForGood(HandleEvent(t, e), Events(steps[1..], down[1..]));
        }
    }
  }

  lemma {:induction false} InboundIsNotDue(c: Engine, e: HostEvent)
    requires e.WsBytes?
    ensures Encodes(e) == e.replyEncodes && DueNow(c, e) == 0
  {
  }

  lemma {:induction false} ClosedForGood(t: Client.Turn, events: seq<HostEvent>)
    ensures t.c.closed ==> HandleAll(t, events).c.closed
  {
  }

  lemma {:induction false} DropsBeats(steps: seq<HostStep>, down: seq<Wire>)
    ensures Beats(Undelivered(steps, down)) <= Beats(down)
    decreases |steps|
  {
    if steps != [] {
      if steps[0].Own? || down == [] {
        DropsBeats(steps[1..], down);
      } else {
        DropsBeats(steps[1..], down[1..]);
      }
    }
  }

  // ---------------------------------------------------------------- the gateway

  /** The step sent `n` heartbeats more. */
  predicate Sent(t: G.GateTurn, u: G.GateTurn, n: nat) {
    Beats(u.r.outbound) == Beats(t.r.outbound) + n
  }

  lemma {:induction false} EmittedBeats(ws: seq<Wire>, w: Wire)
    ensures Beats(ws + [w]) == Beats(ws) + One(w)
  {
    hide One;
    BeatsJoin(ws, [w]);
    BeatsOne(w);
  }

  lemma {:induction false} PushSent(t: G.GateTurn, msg: Control, w: G.World)
    ensures var p := G.PushControl(t, msg, w);
            && Sent(t, p.turn, if p.ok && msg.Heartbeat? then 1 else 0) && (!p.ok ==> p.turn.r.close)
  {
    hide G.PushControl, Beats;
    PushSteps(t, msg, w);
    EmittedBeats(t.r.outbound, Framed(ControlFrame(t.g.controlOut, msg)));
  }

  lemma {:induction false} FailSent(t: G.GateTurn, reason: G.Reason, w: G.World)
    ensures Sent(t, G.FailSession(t, reason, w), 0) && G.FailSession(t, reason, w).r.close
  {
    hide G.PushControl, Beats;
    PushSent(G.Note1(t, G.FailedSession(reason)), ErrorMessage(0, None), w);
    EmittedBeats(t.r.outbound, Boot(BootstrapError));
  }

  lemma {:induction false} AuthenticateSent(t: G.GateTurn, w: G.World)
    ensures Sent(t, G.HandleAuthenticate(t, w), 0)
  {
    hide G.PushControl, Beats;
    PushSent(t, ErrorMessage(0, None), w);
    PushSent(t, SessionReady, w);
    PushSent(G.PushControl(t, SessionReady, w).turn, GraphSnapshot(1), w);
    PushSent(G.PushControl(t, SessionReady, w).turn, ErrorMessage(0, None), w);
  }

  lemma {:induction false} DeltaSent(t: G.GateTurn, w: G.World)
    ensures Sent(t, G.PushDelta(t, w), 0)
  {
    hide G.PushControl, Beats;
    if t.g.graph.Some? {
      PushSent(t, GraphDelta(t.g.graph.value, t.g.graph.value + 1), w);
    }
  }

  lemma {:induction false} OpenSent(t: G.GateTurn, ch: nat, kind: Kind, qos: seq<Entry>, asked: Option<nat>, w: G.World)
    ensures Sent(t, G.OpenTheChannel(t, ch, kind, qos, asked, w), 0)
  {
    hide G.PushControl, G.PushDelta, ResolveEffective, TakeAll, Beats, ToWire, EffectiveReliability;
    PushSent(t, ChannelReady(ch, 3, None), w);
    var e := ResolveEffective(TakeAll(DEFAULT_REQUEST, qos));
    var r := t.(g := t.g.(channels := t.g.channels[ch := G.NewRuntime(kind, e, asked)]));
    PushSent(r, G.ReadyFor(ch, kind, e), w);
    DeltaSent(G.PushControl(r, G.ReadyFor(ch, kind, e), w).turn, w);
  }

  /** Every heartbeat taken is answered by one, or the connection closes. */
  lemma {:induction false} ControlSent(t: G.GateTurn, msg: Control, fx: Effects, w: G.World)
    ensures var u := G.HandleControl(t, msg, fx, w);
            && (Sent(t, u, 0) || (msg.Heartbeat? && Sent(t, u, 1)))
            && (msg.Heartbeat? && !u.r.close ==> Sent(t, u, 1))
  {
    hide G.PushControl, G.HandleAuthenticate, G.OpenTheChannel, Beats;
    match msg
    case Authenticate => AuthenticateSent(t, w);
    case OpenChannel(_, kind, qos, asked) =>
      if fx.opening.Some? {
        OpenSent(t, fx.opening.value, kind, qos, asked, w);
      }
    case Heartbeat(_) =>
      var u := t.(g := t.g.(heartbeats := t.g.heartbeats + 1));
      PushSent(u, Heartbeat(u.g.heartbeats), w);
    case _ =>
  }

  lemma {:induction false} PublishSent(t: G.GateTurn, f: Frame, w: G.World)
    ensures Sent(t, G.HandlePublish(t, f, w), 0)
  {
    hide G.PushControl, G.FailSession, Beats;
    FailSent(t, G.RosReliableIffEffective, w);
    FailSent(t, G.RetainedNeedsTransientLocal, w);
    FailSent(t, G.ReliableSequenceMismatch, w);
    var ch := f.channelId;
    if ch in t.g.channels {
      var rt := t.g.channels[ch];
      var gap := if f.sequence > rt.seqIn then G.Note1(t, G.SequenceGap(ch)) else t;
      var u := gap.(g := gap.g.(channels := gap.g.channels[ch := rt.(seqIn := f.sequence + 1)]));
      PushSent(G.Note1(u, G.Admitted(ch, f.sequence)), ErrorMessage(1, Some(ch)), w);
    }
  }

  lemma {:induction false} RespondSent(t: G.GateTurn, ch: nat, op: Opcode, id: OperationId, w: G.World)
    requires ch in t.g.channels && IsOperation(op)
    ensures Sent(t, G.Respond(t, ch, op, id, w), 0)
  {
    hide ApplyFrame, Beats;
    var rt := t.g.channels[ch];
    EmittedBeats(t.r.outbound, Framed(G.OperationFrame(op, ch, G.Expected(rt.opSeqOut, id), id, w.payloadLen)));
  }

  lemma {:induction false} OperationSent(t: G.GateTurn, f: Frame, w: G.World)
    ensures Sent(t, G.HandleOperation(t, f, w), 0)
  {
    hide G.PushControl, G.FailSession, G.Respond, Beats;
    FailSent(t, G.MissingOperationId, w);
    var ch := f.channelId;
    if ch in t.g.channels && f.operationId.Some? {
      var rt, id := t.g.channels[ch], f.operationId.value;
      FailSent(t.(g := t.g.(channels := t.g.channels[ch := rt.(opSeqIn := rt.opSeqIn[id := G.Expected(rt.opSeqIn, id)])])),
               G.OperationSequenceMismatch, w);
      var u := t.(g := t.g.(channels := t.g.channels[ch := rt.(opSeqIn := rt.opSeqIn[id := f.sequence + 1])]));
      var v := G.Note1(u, G.OperationAdmitted(ch, id, f.sequence));
      PushSent(v, ErrorMessage(1, Some(ch)), w);
      RespondSent(v, ch, ServiceResponse, id, w);
      RespondSent(v, ch, ActionResult, id, w);
    }
  }

  lemma {:induction false} BootstrapSent(g: G.Gate, m: Wire, w: G.World)
    ensures var u := G.HandleBootstrap(G.GateTurn(g, G.NO_REPLY), m, w);
            Beats(u.r.outbound) == 0 && (!u.r.close ==> !IsBeat(m))
  {
    hide ApplyBootstrap;
    BeatsOne(Boot(BootstrapError));
    BeatsOne(Boot(ServerHello));
    assert [] + [Boot(BootstrapError)] == [Boot(BootstrapError)] && [] + [Boot(ServerHello)] == [Boot(ServerHello)];
  }

  lemma {:induction false} InboundSent(g: G.Gate, m: Wire, w: G.World)
    ensures var r := G.HandleInbound(g, m, w).r;
            Beats(r.outbound) <= One(m) && (!r.close ==> Beats(r.outbound) == One(m))
  {
    hide ApplyFrame, ApplyBootstrap, G.FailSession, G.HandlePublish, G.HandleOperation, G.HandleControl, G.HandleBootstrap;
    var t := G.GateTurn(g, G.NO_REPLY);
    BeatsOne(m);
    if g.session.phase.IsTerminal() {
    } else if !g.session.phase.InSelectedPlane() {
      BootstrapSent(g, m, w);
    } else {
      FailSent(t, G.ParseRejected, w);
      FailSent(t, G.SessionRejected, w);
      if w.parses && m.Framed? && ApplyFrame(g.session, m.frame, ClientRole).Accepted? {
        var f, a := m.frame, ApplyFrame(g.session, m.frame, ClientRole);
        var u := t.(g := t.g.(session := a.state));
        var v := u.(g := u.g.(controlIn := u.g.controlIn + 1));
        FailSent(u, G.ControlSequenceMismatch, w);
        PublishSent(u, f, w);
        OperationSent(u, f, w);
        if f.payload.ControlPayload? {
          ControlSent(v, f.payload.msg, a.effects, w);
        }
      }
    }
  }

  // ---------------------------------------------------------------- the link

  function InFlight(s: System): nat {
    Beats(s.up) + Beats(s.down)
  }

  /** How many heartbeats were due in a step of the client. */
  function DueDuring(s: System, step: Step): nat {
    if step.ClientTurn? then DueIn(Client.Turn(s.engine, NO_OUTCOME), Events(step.steps, s.down)) else 0
  }

  function DueOver(s: System, steps: seq<Step>): nat
    decreases |steps|
  {
    if steps == [] || !Enabled(s, steps[0]) then 0 else DueDuring(s, steps[0]) + DueOver(Link.Next(s, steps[0]), steps[1..])
  }

  predicate StepEncodes(step: Step) {
    step.ClientTurn? ==> AllEncode(step.steps)
  }

  predicate Running(s: System) {
    s.live && !s.engine.closed
  }

  lemma {:induction false} TurnBeats(s: System, steps: seq<HostStep>)
    requires Enabled(s, ClientTurn(steps))
    ensures var n := Link.Next(s, ClientTurn(steps));
            var before := InFlight(s) + DueDuring(s, ClientTurn(steps));
            && InFlight(n) <= before && (Running(n) && AllEncode(steps) ==> InFlight(n) == before)
            && (s.engine.closed ==> n.engine.closed) && n.live == s.live
  {
    hide HandleAll, Legal, Sweep, Swept, Beats, AllEncode, DueIn;
    var events := Events(steps, s.down);
    assert Batch(events) == events;
    var t := Client.Turn(s.engine, NO_OUTCOME);
    BeatsOne(Boot(ClientHello));
    assert Messages([]) == [];
    BatchBeats(t, steps, s.down);
    var n := Link.Next(s, ClientTurn(steps));
    if s.engine.closed {
      DropsBeats(steps, s.down);
      assert s.up + [] == s.up;
    } else {
      BeatsJoin(s.up, Messages(HandleAll(t, events).o.outbound));
    }
  }

  lemma {:induction false} TakesBeats(s: System, w: G.World)
    ensures var n := Link.Next(s, GatewayTakes(w));
            && InFlight(n) <= InFlight(s) && (Running(n) ==> InFlight(n) == InFlight(s))
            && n.engine == s.engine && (!s.live ==> !n.live)
  {
    hide G.HandleInbound, One;
    if s.live && s.up != [] {
      InboundSent(s.gate, s.up[0], w);
      var ws := G.HandleInbound(s.gate, s.up[0], w).r.outbound;
      assert [] + ws == ws;
      BeatsJoin(s.down, ws);
    }
  }

  lemma {:induction false} OtherBeats(s: System, step: Step)
    requires Enabled(s, step) && (step.GatewaySample? || step.GatewayRequest?)
    ensures var n := Link.Next(s, step);
            InFlight(n) == InFlight(s) && n.engine == s.engine && (!s.live ==> !n.live)
  {
    hide G.PushRequest, G.FrameSample, Beats;
    BeatsOne(Boot(ClientHello));
    if !s.live {
      assert s.down + [] == s.down;
    } else {
      match step
      case GatewaySample(budget, ch, buf) =>
        var ws := SampleStep(Conn(s.gate, [], true), budget, ch, buf).wire;
        FramingNeeds(s.gate, ch, buf);
        BeatsJoin(s.down, ws);
        if ws != [] {
          assert ws == [ws[0]];
          BeatsOne(ws[0]);
        }
      case GatewayRequest(ch, op, id, w) =>
        var ws := G.PushRequest(s.gate, ch, op, id, w).r.outbound;
        assert [] + ws == ws;
        BeatsJoin(s.down, ws);
        RequestSent(s.gate, ch, op, id, w);
    }
  }

  lemma {:induction false} RequestSent(g: G.Gate, ch: nat, op: OperationCode, id: OperationId, w: G.World)
    ensures Beats(G.PushRequest(g, ch, op, id, w).r.outbound) == 0
  {
    hide G.Respond;
    if ch in g.channels {
      RespondSent(G.GateTurn(g, G.NO_REPLY), ch, op, id, w);
    }
  }

  lemma {:induction false} StepBeats(s: System, step: Step)
    requires Enabled(s, step)
    ensures var n, before := Link.Next(s, step), InFlight(s) + DueDuring(s, step);
            && InFlight(n) <= before && (Running(n) && StepEncodes(step) ==> InFlight(n) == before)
            && (Running(n) ==> Running(s))
  {
    hide Link.Next, DueIn, InFlight, Enabled;
    match step
    case ClientTurn(steps) => TurnBeats(s, steps);
    case GatewayTakes(w) => TakesBeats(s, w);
    case _ => OtherBeats(s, step);
  }

  lemma {:induction false} RunBeatsOn(s: System, steps: seq<Step>, t: System)
    requires Reaches(s, steps, t)
    ensures InFlight(t) <= InFlight(s) + DueOver(s, steps) && (Running(t) ==> Running(s))
    ensures Running(t) && (forall i :: 0 <= i < |steps| ==> StepEncodes(steps[i])) ==> InFlight(t) == InFlight(s) + DueOver(s, steps)
    decreases |steps|
  {
    hide Link.Next, DueDuring, InFlight, Enabled, StepEncodes, Running;
    if steps != [] {
      StepBeats(s, steps[0]);
      RunBeatsOn(Link.Next(s, steps[0]), steps[1..], t);
    }
  }

  /** Over every run and every interleaving: heartbeats in flight are never more than were due;
      and while both peers run and every heartbeat can be encoded, all that were ever due are
      still in flight. Each goes back and forth for ever. */
  lemma {:induction false} HeartbeatsNeverEnd(host: CdrLimits.Host, steps: seq<Step>, t: System)
    requires Reaches(Link.Start(host), steps, t)
    ensures InFlight(t) <= DueOver(Link.Start(host), steps)
    ensures Running(t) && (forall i :: 0 <= i < |steps| ==> StepEncodes(steps[i])) ==> InFlight(t) == DueOver(Link.Start(host), steps)
  {
    hide Reaches, DueOver, StepEncodes;
    RunBeatsOn(Link.Start(host), steps, t);
    BeatsOne(Boot(ClientHello));
  }
}
