/** What the gateway sends for services and actions: one reply for each call it takes, and on
    each channel the frames of an operation numbered 0, 1, 2, ... over every run. */
module GatewayCalls {
  import opened ByteOrder
  import opened Qos
  import opened Session
  import opened Gateway
  import opened GatewayConnection
  import GatewayLaws
  import opened LinkItems
  import opened LinkGateway
  import opened Operations
  import opened CallAdmission

  // ---------------------------------------------------------------- one reply for each call

  /** A call or goal of a client that the session takes on an open channel. */
  predicate IsCall(g: Gate, f: Frame) {
    && f.channelId in g.channels && f.operationId.Some? && f.operationId.value != ZERO_ID && f.payload.AppPayload? && f.reliable
    && g.session.phase.Ready? && g.session.Of(f.channelId).Active?
    && g.session.channels[f.channelId].kind == g.channels[f.channelId].kind
    && ((f.opcode == ServiceRequest && g.channels[f.channelId].kind == ServiceClient)
        || (f.opcode == ActionGoal && g.channels[f.channelId].kind == ActionClient))
    && f.sequence == Expected(g.channels[f.channelId].opSeqIn, f.operationId.value)
  }

  function AnswerTo(op: Opcode): Opcode {
    if op == ServiceRequest then ServiceResponse else ActionResult
  }

  /** The call the backend accepts is answered by exactly one frame, on the same channel, for
      the same operation, with that operation's next number, as long as the backend's answer;
      if the frame cannot be encoded the connection closes with nothing sent. */
  lemma {:induction false} CallIsAnswered(g: Gate, f: Frame, w: World)
    requires IsCall(g, f) && w.parses && w.accepts
    ensures var u, ch, id := HandleInbound(g, Framed(f), w), f.channelId, f.operationId.value;
            var n := Expected(g.channels[ch].opSeqOut, id);
            && u.r.notes == [OperationAdmitted(ch, id, f.sequence)]
            && (w.framed ==> !u.r.close && u.r.outbound == [Framed(Frame(AnswerTo(f.opcode), true, false, ch, n, 20, w.payloadLen, Some(id), AppPayload))])
            && (!w.framed ==> u.r.close && u.r.outbound == [])
  {
    CallTaken(g, f);
    var t := GateTurn(g, NO_REPLY);
    assert HandleInbound(g, Framed(f), w) == HandleOperation(t, f, w);
  }

  /** The call the backend refuses is answered by an error about its channel, or the
      connection closes. */
  lemma {:induction false} RefusalIsAnswered(g: Gate, f: Frame, w: World)
    requires IsCall(g, f) && w.parses && !w.accepts
    ensures var u, msg := HandleInbound(g, Framed(f), w), ErrorMessage(1, Some(f.channelId));
            if w.encodes(msg) then !u.r.close && u.r.outbound == [Framed(ControlFrame(g.controlOut, msg))] && u.g.controlOut == g.controlOut + 1
            else u.r.close && u.r.outbound == []
  {
    CallTaken(g, f);
    var t := GateTurn(g, NO_REPLY);
    assert HandleInbound(g, Framed(f), w) == HandleOperation(t, f, w);
  }

  lemma {:induction false} CallTaken(g: Gate, f: Frame)
    requires IsCall(g, f)
    ensures ApplyFrame(g.session, f, ClientRole) == Accepted(g.session, NOTHING)
    ensures g.session.phase.InSelectedPlane() && !g.session.phase.IsTerminal()
  {
    assert DataLegal(g.session, f, ClientRole);
  }

  /** A request of the ROS side goes out on a server channel with its operation's next
      number, or the connection closes because it cannot be encoded. */
  lemma {:induction false} RequestIsForwarded(g: Gate, ch: nat, op: OperationCode, id: OperationId, w: World)
    requires ch in g.channels && id != ZERO_ID && g.session.phase.Ready? && g.session.Of(ch).Active?
    requires g.session.channels[ch].kind == g.channels[ch].kind
    requires g.channels[ch].kind == if op == ServiceRequest then ServiceServer else ActionServer
    requires op == ServiceRequest || op == ActionGoal || op == ActionCancel
    ensures var u, n := PushRequest(g, ch, op, id, w), Expected(g.channels[ch].opSeqOut, id);
            if w.framed then !u.r.close && u.r.outbound == [Framed(Frame(op, true, false, ch, n, 20, w.payloadLen, Some(id), AppPayload))]
            else u.r.close && u.r.outbound == []
  {
    var f := OperationFrame(op, ch, Expected(g.channels[ch].opSeqOut, id), id, w.payloadLen);
    assert DataLegal(g.session, f, ServerRole);
  }

  /** A frame only handed on is answered by nothing if the backend takes it, and by an error
      about its channel if not. */
  lemma {:induction false} ForwardIsAnswered(g: Gate, f: Frame, w: World)
    requires f.channelId in g.channels && f.operationId.Some? && f.payload.AppPayload? && DataLegal(g.session, f, ClientRole)
    requires f.sequence == Expected(g.channels[f.channelId].opSeqIn, f.operationId.value)
    requires IsOperation(f.opcode) && Forwards(g.channels[f.channelId].kind, f.opcode) && w.parses
    ensures var u, msg := HandleInbound(g, Framed(f), w), ErrorMessage(1, Some(f.channelId));
            if w.accepts then !u.r.close && u.r.outbound == []
            else if w.encodes(msg) then !u.r.close && u.r.outbound == [Framed(ControlFrame(g.controlOut, msg))]
            else u.r.close && u.r.outbound == []
  {
    hide DataLegal;
    var t := GateTurn(g, NO_REPLY);
    assert ApplyFrame(g.session, f, ClientRole) == Accepted(g.session, NOTHING) by {
      LegalIsTaken(g.session, f);
    }
    assert HandleInbound(g, Framed(f), w) == HandleOperation(t, f, w);
  }

  lemma {:induction false} LegalIsTaken(s: State, f: Frame)
    requires DataLegal(s, f, ClientRole) && IsOperation(f.opcode)
    ensures ApplyFrame(s, f, ClientRole) == Accepted(s, NOTHING) && s.phase.Ready?
  {
  }

  // ---------------------------------------------------------------- numbered 0, 1, 2, ...

  /** The number of the operation frame for `id` on `ch` a message is, if it is one. */
  function NumberOf(w: Wire, ch: nat, id: OperationId): seq<nat> {
    if w.Framed? && IsOperation(w.frame.opcode) && w.frame.channelId == ch && w.frame.operationId == Some(id) then [w.frame.sequence]
    else []
  }

  function Numbers(ws: seq<Wire>, ch: nat, id: OperationId): seq<nat> {
    if ws == [] then [] else NumberOf(ws[0], ch, id) + Numbers(ws[1..], ch, id)
  }

  lemma {:induction false} NumbersJoin(a: seq<Wire>, b: seq<Wire>, ch: nat, id: OperationId)
    ensures Numbers(a + b, ch, id) == Numbers(a, ch, id) + Numbers(b, ch, id)
    decreases |a|
  {
    hide NumberOf;
    if a == [] {
      assert a + b == b;
    } else {
      assert (a + b)[1..] == a[1..] + b;
      NumbersJoin(a[1..], b, ch, id);
    }
  }

  lemma {:induction false} NumbersSnoc(ws: seq<Wire>, w: Wire, ch: nat, id: OperationId)
    ensures Numbers(ws + [w], ch, id) == Numbers(ws, ch, id) + NumberOf(w, ch, id)
  {
    hide NumberOf;
    NumbersJoin(ws, [w], ch, id);
    assert [w][1..] == [];
  }

  /** The next number for `id` on `ch`, on an open channel. */
  function NextOut(g: Gate, ch: nat, id: OperationId): Option<nat> {
    if ch in g.channels then Some(Expected(g.channels[ch].opSeqOut, id)) else None
  }

  /** Nothing of `id` sent on `ch`; its number kept, dropped with the channel, or begun with one. */
  predicate Silent(t: GateTurn, u: GateTurn, ch: nat, id: OperationId) {
    && Numbers(u.r.outbound, ch, id) == Numbers(t.r.outbound, ch, id)
    && (|| NextOut(u.g, ch, id) == NextOut(t.g, ch, id)
        || NextOut(u.g, ch, id).None?
        || (NextOut(t.g, ch, id).None? && NextOut(u.g, ch, id) == Some(0)))
  }

  lemma {:induction false} SilentThrough(t: GateTurn, s: GateTurn, u: GateTurn, ch: nat, id: OperationId)
    requires s.r.outbound == t.r.outbound && NextOut(s.g, ch, id) == NextOut(t.g, ch, id) && Silent(s, u, ch, id)
    ensures Silent(t, u, ch, id)
  {
    hide Numbers, NextOut;
  }

  lemma {:induction false} PushSilent(t: GateTurn, msg: Control, w: World, ch: nat, id: OperationId)
    ensures Silent(t, PushControl(t, msg, w).turn, ch, id)
    ensures NextOut(PushControl(t, msg, w).turn.g, ch, id) == NextOut(t.g, ch, id)
  {
    hide PushControl, Numbers;
    PushSteps(t, msg, w);
    NumbersSnoc(t.r.outbound, Framed(ControlFrame(t.g.controlOut, msg)), ch, id);
    assert Numbers(t.r.outbound, ch, id) + [] == Numbers(t.r.outbound, ch, id);
  }

  lemma {:induction false} FailSilent(t: GateTurn, reason: Reason, w: World, ch: nat, id: OperationId)
    ensures Silent(t, FailSession(t, reason, w), ch, id)
  {
    hide PushControl, Numbers, NextOut;
    PushSilent(Note1(t, FailedSession(reason)), ErrorMessage(0, None), w, ch, id);
    NumbersSnoc(t.r.outbound, Boot(BootstrapError), ch, id);
    assert Numbers(t.r.outbound, ch, id) + [] == Numbers(t.r.outbound, ch, id);
  }

  lemma {:induction false} SnapshotSilent(t: GateTurn, w: World, ch: nat, id: OperationId)
    ensures Silent(t, PushSnapshot(t, w), ch, id)
  {
    hide PushControl, Numbers;
    PushSilent(t, ErrorMessage(0, None), w, ch, id);
    PushSilent(t, GraphSnapshot(1), w, ch, id);
  }

  lemma {:induction false} DeltaSilent(t: GateTurn, w: World, ch: nat, id: OperationId)
    ensures Silent(t, PushDelta(t, w), ch, id) && NextOut(PushDelta(t, w).g, ch, id) == NextOut(t.g, ch, id)
  {
    hide PushControl, Numbers;
    if t.g.graph.Some? {
      PushSilent(t, GraphDelta(t.g.graph.value, t.g.graph.value + 1), w, ch, id);
    }
  }

  lemma {:induction false} AuthenticateSilent(t: GateTurn, w: World, ch: nat, id: OperationId)
    ensures Silent(t, HandleAuthenticate(t, w), ch, id)
  {
    hide PushControl, PushSnapshot, Numbers, NextOut;
    PushSilent(t, ErrorMessage(0, None), w, ch, id);
    PushSilent(t, SessionReady, w, ch, id);
    SnapshotSilent(PushControl(t, SessionReady, w).turn, w, ch, id);
  }

  lemma {:induction false} OpenSilent(t: GateTurn, target: nat, kind: Kind, qos: seq<Entry>, asked: Option<nat>, w: World, ch: nat, id: OperationId)
    requires target !in t.g.channels
    ensures Silent(t, OpenTheChannel(t, target, kind, qos, asked, w), ch, id)
  {
    hide PushControl, PushDelta, ResolveEffective, TakeAll, ReadyFor, Numbers;
    PushSilent(t, ChannelReady(target, 3, None), w, ch, id);
    var e := ResolveEffective(TakeAll(DEFAULT_REQUEST, qos));
    var r := t.(g := t.g.(channels := t.g.channels[target := NewRuntime(kind, e, asked)]));
    PushSilent(r, ReadyFor(target, kind, e), w, ch, id);
    PushSteps(r, ReadyFor(target, kind, e), w);
    DeltaSilent(PushControl(r, ReadyFor(target, kind, e), w).turn, w, ch, id);
  }

  lemma {:induction false} ControlSilent(t: GateTurn, msg: Control, fx: Effects, w: World, ch: nat, id: OperationId)
    requires fx.opening.Some? ==> fx.opening.value !in t.g.channels
    ensures Silent(t, HandleControl(t, msg, fx, w), ch, id)
  {
    hide PushControl, HandleAuthenticate, OpenTheChannel, Numbers;
    match msg
    case Authenticate => AuthenticateSilent(t, w, ch, id);
    case OpenChannel(_, kind, qos, asked) =>
      if fx.opening.Some? {
        OpenSilent(t, fx.opening.value, kind, qos, asked, w, ch, id);
      }
    case Heartbeat(_) =>
      var u := t.(g := t.g.(heartbeats := t.g.heartbeats + 1));
      PushSilent(u, Heartbeat(u.g.heartbeats), w, ch, id);
    case _ =>
  }

  lemma {:induction false} PublishSilent(t: GateTurn, f: Frame, w: World, ch: nat, id: OperationId)
    ensures Silent(t, HandlePublish(t, f, w), ch, id)
  {
    hide PushControl, FailSession, Numbers;
    FailSilent(t, RosReliableIffEffective, w, ch, id);
    FailSilent(t, RetainedNeedsTransientLocal, w, ch, id);
    FailSilent(t, ReliableSequenceMismatch, w, ch, id);
    var target := f.channelId;
    if target in t.g.channels {
      var rt := t.g.channels[target];
      var gap := if f.sequence > rt.seqIn then Note1(t, SequenceGap(target)) else t;
      var u := gap.(g := gap.g.(channels := gap.g.channels[target := rt.(seqIn := f.sequence + 1)]));
      PushSilent(Note1(u, Admitted(target, f.sequence)), ErrorMessage(1, Some(target)), w, ch, id);
    }
  }

  /** One operation frame for `id` went out on `ch` under the next number, or none; or the
      connection closes, with at most that frame sent. */
  predicate Speaks(t: GateTurn, u: GateTurn, ch: nat, id: OperationId) {
    || Silent(t, u, ch, id)
    || (&& u.r.close && Numbers(u.r.outbound, ch, id) == Numbers(t.r.outbound, ch, id))
    || (&& NextOut(t.g, ch, id).Some?
        && Numbers(u.r.outbound, ch, id) == Numbers(t.r.outbound, ch, id) + [NextOut(t.g, ch, id).value]
        && NextOut(u.g, ch, id) == Some(NextOut(t.g, ch, id).value + 1))
  }

  lemma {:induction false} RespondSpeaks(t: GateTurn, target: nat, op: Opcode, forId: OperationId, w: World, ch: nat, id: OperationId)
    requires target in t.g.channels && IsOperation(op)
    ensures Speaks(t, Respond(t, target, op, forId, w), ch, id)
  {
    hide ApplyFrame, Numbers;
    var rt := t.g.channels[target];
    var f := OperationFrame(op, target, Expected(rt.opSeqOut, forId), forId, w.payloadLen);
    NumbersSnoc(t.r.outbound, Framed(f), ch, id);
    assert Numbers(t.r.outbound, ch, id) + [] == Numbers(t.r.outbound, ch, id);
  }

  lemma {:induction false} OperationSpeaks(t: GateTurn, f: Frame, w: World, ch: nat, id: OperationId)
    requires t.r == NO_REPLY
    ensures Speaks(t, HandleOperation(t, f, w), ch, id)
  {
    hide PushControl, FailSession, Respond, Numbers, Speaks;
    var target := f.channelId;
    SilentSpeaks(t, Close(t), ch, id);
    FailSilent(t, MissingOperationId, w, ch, id);
    SilentSpeaks(t, FailSession(t, MissingOperationId, w), ch, id);
    if target in t.g.channels && f.operationId.Some? {
      var rt, forId := t.g.channels[target], f.operationId.value;
      var s := t.(g := t.g.(channels := t.g.channels[target := rt.(opSeqIn := rt.opSeqIn[forId := Expected(rt.opSeqIn, forId)])]));
      FailSilent(s, OperationSequenceMismatch, w, ch, id);
      SilentThrough(t, s, FailSession(s, OperationSequenceMismatch, w), ch, id);
      SilentSpeaks(t, FailSession(s, OperationSequenceMismatch, w), ch, id);
      var u := t.(g := t.g.(channels := t.g.channels[target := rt.(opSeqIn := rt.opSeqIn[forId := f.sequence + 1])]));
      var v := Note1(u, OperationAdmitted(target, forId, f.sequence));
      SilentSpeaks(t, Close(u), ch, id);
      SilentSpeaks(t, v, ch, id);
      PushSilent(v, ErrorMessage(1, Some(target)), w, ch, id);
      SilentThrough(t, v, PushControl(v, ErrorMessage(1, Some(target)), w).turn, ch, id);
      SilentSpeaks(t, PushControl(v, ErrorMessage(1, Some(target)), w).turn, ch, id);
      RespondSpeaks(v, target, ServiceResponse, forId, w, ch, id);
      SpeaksThrough(t, v, Respond(v, target, ServiceResponse, forId, w), ch, id);
      RespondSpeaks(v, target, ActionResult, forId, w, ch, id);
      SpeaksThrough(t, v, Respond(v, target, ActionResult, forId, w), ch, id);
    }
  }

  lemma {:induction false} SilentSpeaks(t: GateTurn, u: GateTurn, ch: nat, id: OperationId)
    requires Silent(t, u, ch, id) || (u.r.outbound == t.r.outbound && NextOut(u.g, ch, id) == NextOut(t.g, ch, id))
    ensures Speaks(t, u, ch, id)
  {
    hide Numbers, NextOut;
  }

  lemma {:induction false} SpeaksThrough(t: GateTurn, s: GateTurn, u: GateTurn, ch: nat, id: OperationId)
    requires s.r.outbound == t.r.outbound && NextOut(s.g, ch, id) == NextOut(t.g, ch, id) && Speaks(s, u, ch, id)
    ensures Speaks(t, u, ch, id)
  {
    hide Numbers, NextOut;
  }

  lemma {:induction false} InboundSpeaks(g: Gate, m: Wire, w: World, ch: nat, id: OperationId)
    requires forall c :: GatewayLaws.Fresh(g, c)
    ensures Speaks(GateTurn(g, NO_REPLY), HandleInbound(g, m, w), ch, id)
  {
    hide ApplyFrame, ApplyBootstrap, FailSession, HandlePublish, HandleOperation, HandleControl, Numbers, Speaks, GatewayLaws.Fresh;
    var t := GateTurn(g, NO_REPLY);
    var r := HandleInbound(g, m, w);
    if g.session.phase.IsTerminal() {
      SilentSpeaks(t, r, ch, id);
    } else if !g.session.phase.InSelectedPlane() {
      BootstrapSpeaks(g, m, w, ch, id);
    } else {
      FailSilent(t, ParseRejected, w, ch, id);
      FailSilent(t, SessionRejected, w, ch, id);
      SilentSpeaks(t, FailSession(t, ParseRejected, w), ch, id);
      SilentSpeaks(t, FailSession(t, SessionRejected, w), ch, id);
      if w.parses && m.Framed? && ApplyFrame(g.session, m.frame, ClientRole).Accepted? {
        AcceptedSpeaks(g, m.frame, w, ch, id);
      }
    }
  }

  lemma {:induction false} BootstrapSpeaks(g: Gate, m: Wire, w: World, ch: nat, id: OperationId)
    ensures Speaks(GateTurn(g, NO_REPLY), HandleBootstrap(GateTurn(g, NO_REPLY), m, w), ch, id)
  {
    hide ApplyBootstrap;
    BootsOnly(BootstrapError, ch, id);
    BootsOnly(ServerHello, ch, id);
    assert [] + [Boot(BootstrapError)] == [Boot(BootstrapError)] && [] + [Boot(ServerHello)] == [Boot(ServerHello)];
  }

  lemma {:induction false} BootsOnly(record: Record, ch: nat, id: OperationId)
    ensures Numbers([Boot(record)], ch, id) == [] && Numbers([], ch, id) == []
  {
    assert [Boot(record)][1..] == [];
  }

  lemma {:induction false} AcceptedSpeaks(g: Gate, f: Frame, w: World, ch: nat, id: OperationId)
    requires (forall c :: GatewayLaws.Fresh(g, c)) && w.parses && ApplyFrame(g.session, f, ClientRole).Accepted?
    requires !g.session.phase.IsTerminal() && g.session.phase.InSelectedPlane()
    ensures Speaks(GateTurn(g, NO_REPLY), HandleInbound(g, Framed(f), w), ch, id)
  {
    hide ApplyFrame, FailSession, HandlePublish, HandleOperation, HandleControl, Numbers, Speaks, GatewayLaws.Fresh;
    var t := GateTurn(g, NO_REPLY);
    var a := ApplyFrame(g.session, f, ClientRole);
    var u := t.(g := t.g.(session := a.state));
    var v := u.(g := u.g.(controlIn := u.g.controlIn + 1));
    var r := HandleInbound(g, Framed(f), w);
    SilentSpeaks(t, u, ch, id);
    SilentSpeaks(t, Close(v), ch, id);
    FailSilent(u, ControlSequenceMismatch, w, ch, id);
    SilentThrough(t, u, FailSession(u, ControlSequenceMismatch, w), ch, id);
    SilentSpeaks(t, FailSession(u, ControlSequenceMismatch, w), ch, id);
    PublishSilent(u, f, w, ch, id);
    SilentThrough(t, u, HandlePublish(u, f, w), ch, id);
    SilentSpeaks(t, HandlePublish(u, f, w), ch, id);
    OperationSpeaks(u, f, w, ch, id);
    SpeaksThrough(t, u, HandleOperation(u, f, w), ch, id);
    if f.opcode.ControlCbor? && f.payload.ControlPayload? {
      OpeningIsFresh(g, f);
      ControlSilent(v, f.payload.msg, a.effects, w, ch, id);
      SilentThrough(t, v, HandleControl(v, f.payload.msg, a.effects, w), ch, id);
      SilentSpeaks(t, HandleControl(v, f.payload.msg, a.effects, w), ch, id);
    }
  }

  lemma {:induction false} OpeningIsFresh(g: Gate, f: Frame)
    requires forall c :: GatewayLaws.Fresh(g, c)
    ensures var a := ApplyFrame(g.session, f, ClientRole);
            a.Accepted? && f.opcode.ControlCbor? && a.effects.opening.Some? ==> a.effects.opening.value !in g.channels
  {
    var a := ApplyFrame(g.session, f, ClientRole);
    if a.Accepted? && f.opcode.ControlCbor? && a.effects.opening.Some? {
      assert GatewayLaws.Fresh(g, a.effects.opening.value);
    }
  }

  // ---------------------------------------------------------------- whole runs

  /** What was sent for `id` on `ch` is 0, 1, ..., and the next number follows it. */
  ghost predicate InOrder(c: Conn, ch: nat, id: OperationId) {
    var sent := Numbers(c.wire, ch, id);
    && sent == UpTo(|sent|)
    && (c.gate.session.Of(ch).Unused? ==> sent == [])
    && (c.live && ch in c.gate.channels ==> NextOut(c.gate, ch, id) == Some(|sent|))
  }

  lemma {:induction false} NoNumbers(ch: nat, id: OperationId)
    ensures Numbers([], ch, id) == []
  {
  }

  lemma {:induction false} TurnInOrder(c: Conn, t: GateTurn, ch: nat, id: OperationId)
    requires InOrder(c, ch, id) && c.live && Speaks(GateTurn(c.gate, NO_REPLY), t, ch, id)
    requires c.gate.session.Of(ch).Unused? || !t.g.session.Of(ch).Unused?
    requires ch in t.g.channels && ch !in c.gate.channels ==> c.gate.session.Of(ch).Unused?
    requires GatewayLaws.Fresh(c.gate, ch)
    ensures InOrder(Sent(c, t), ch, id)
  {
    hide Numbers;
    NumbersJoin(c.wire, t.r.outbound, ch, id);
    var sent := Numbers(c.wire, ch, id);
    NoNumbers(ch, id);
    assert sent + [] == sent && forall n: nat :: [] + [n] == [n];
    assert UpTo(|sent| + 1) == UpTo(|sent|) + [|sent|];
  }

  lemma {:induction false} StepInOrder(c: Conn, maxBytes: nat, t: GatewayConnection.Turn, ch: nat, id: OperationId)
    requires InOrder(c, ch, id) && (forall n :: GatewayLaws.Fresh(c.gate, n)) && (t.Sample? ==> FRAME_HEADER_LENGTH <= |t.buf|)
    ensures InOrder(ConnStep(c, maxBytes, t), ch, id)
  {
    hide HandleInbound, PushRequest, FrameSample, Numbers, Speaks, InOrder;
    if c.live {
      match t
      case Inbound(m, w) =>
        InboundSpeaks(c.gate, m, w, ch, id);
        assert GatewayLaws.Fresh(c.gate, ch);
        GatewayLaws.InboundPolite(c, m, w, ch);
        TurnInOrder(c, HandleInbound(c.gate, m, w), ch, id);
      case Sample(target, buf) => SampleInOrder(c, maxBytes, target, buf, ch, id);
      case RosRequest(target, op, forId, w) =>
        RequestSpeaks(c.gate, target, op, forId, w, ch, id);
        assert GatewayLaws.Fresh(c.gate, ch);
        GatewayLaws.RequestPolite(c, target, op, forId, w, ch);
        TurnInOrder(c, PushRequest(c.gate, target, op, forId, w), ch, id);
    }
  }

  lemma {:induction false} RequestSpeaks(g: Gate, target: nat, op: OperationCode, forId: OperationId, w: World, ch: nat, id: OperationId)
    ensures Speaks(GateTurn(g, NO_REPLY), PushRequest(g, target, op, forId, w), ch, id)
  {
    hide Respond, Numbers, Speaks;
    var t := GateTurn(g, NO_REPLY);
    SilentSpeaks(t, t, ch, id);
    if target in g.channels {
      RespondSpeaks(t, target, op, forId, w, ch, id);
    }
  }

  lemma {:induction false} SampleInOrder(c: Conn, maxBytes: nat, target: nat, buf: seq<byte>, ch: nat, id: OperationId)
    requires InOrder(c, ch, id) && FRAME_HEADER_LENGTH <= |buf|
    ensures InOrder(SampleStep(c, maxBytes, target, buf), ch, id)
  {
    hide FrameSample, Numbers;
    FramingNeeds(c.gate, target, buf);
    var frame := FrameSample(c.gate, target, buf);
    if frame.Some? {
      NumbersSnoc(c.wire, RawSample(frame.value), ch, id);
      assert Numbers(c.wire, ch, id) + [] == Numbers(c.wire, ch, id);
    }
  }

  lemma {:induction false} RunInOrder(c: Conn, maxBytes: nat, turns: seq<GatewayConnection.Turn>, ch: nat, id: OperationId)
    requires GatewayLaws.Prefixed(turns) && InOrder(c, ch, id) && forall n :: GatewayLaws.Fresh(c.gate, n)
    ensures InOrder(GatewayLaws.RunConn(c, maxBytes, turns), ch, id)
    decreases |turns|
  {
    hide ConnStep, InOrder, GatewayLaws.Fresh;
    if turns != [] {
      StepInOrder(c, maxBytes, turns[0], ch, id);
      forall n ensures GatewayLaws.Fresh(ConnStep(c, maxBytes, turns[0]).gate, n) {
        GatewayLaws.StaysFresh(c, maxBytes, turns[0], n);
      }
      RunInOrder(ConnStep(c, maxBytes, turns[0]), maxBytes, turns[1..], ch, id);
    }
  }

  /** Over every run of the connection, whatever arrives and whatever the ROS side does: the
      operation frames sent on a channel for one operation are numbered 0, 1, 2, ... */
  lemma {:induction false} OperationsAreNumbered(maxBytes: nat, turns: seq<GatewayConnection.Turn>, ch: nat, id: OperationId)
    requires GatewayLaws.Prefixed(turns)
    ensures var c := GatewayLaws.RunConn(NEW_CONN, maxBytes, turns);
            var sent := Numbers(c.wire, ch, id);
            sent == UpTo(|sent|) && (c.live && ch in c.gate.channels ==> Expected(c.gate.channels[ch].opSeqOut, id) == |sent|)
  {
    hide GatewayLaws.RunConn, Numbers;
    assert InOrder(NEW_CONN, ch, id) by {
      StartInOrder(ch, id);
    }
    RunInOrder(NEW_CONN, maxBytes, turns, ch, id);
  }

  lemma {:induction false} StartInOrder(ch: nat, id: OperationId)
    ensures InOrder(NEW_CONN, ch, id)
  {
  }
}
