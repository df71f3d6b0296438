/** The gateway's side of one connection: what each inbound message does to its state and
    what it sends back. Answers of the surrounding world (parser, encoder, authentication,
    ACL, ROS backend) are a parameter of each step. */
module Gateway {
  import opened ByteOrder
  import opened Qos
  import opened Session

  datatype Runtime = Runtime(
    kind: Kind, reliable: bool, transientLocal: bool, priority: byte, seqOut: nat, seqIn: nat,
    opSeqOut: map<OperationId, nat>, opSeqIn: map<OperationId, nat>)

  datatype Gate = Gate(
    session: State, controlOut: nat, controlIn: nat, heartbeats: nat, channels: map<nat, Runtime>, graph: Option<nat>,
    helloSent: bool)

  const NEW_GATE := Gate(FRESH, 0, 0, 0, map[], None, false)

  /** Why a session was failed. A publish and an operation out of sequence share one reason
      string on the wire; they are kept apart here. */
  datatype Reason =
    | ParseRejected | SessionRejected | ControlSequenceMismatch | RosReliableIffEffective | RetainedNeedsTransientLocal
    | ReliableSequenceMismatch | OperationSequenceMismatch | MissingOperationId

  /** What happened to an inbound message, beside what it made the gateway send. */
  datatype Note =
    | Admitted(channelId: nat, sequence: nat)
    | OperationAdmitted(channelId: nat, id: OperationId, sequence: nat)
    | SequenceGap(channelId: nat)
    | StaleSequence(channelId: nat)
    | FailedSession(reason: Reason)

  datatype Reply = Reply(outbound: seq<Wire>, close: bool, notes: seq<Note>)

  const NO_REPLY := Reply([], false, [])

  datatype GateTurn = GateTurn(g: Gate, r: Reply)

  /** The world's answers while one message is handled; `payloadLen` is the length of what the
      backend answers or asks. */
  datatype World = World(
    parses: bool, encodes: Control -> bool, helloOk: bool, authOk: bool, graphOk: bool, hasEndpoint: bool, serves: bool,
    created: bool, accepts: bool, framed: bool, payloadLen: nat)

  /** 0, 1, 2, ..., `n - 1`. */
  function UpTo(n: nat): (s: seq<nat>)
    ensures |s| == n
  {
    seq(n, i => i)
  }

  // ---------------------------------------------------------------- outbound

  function Note1(t: GateTurn, n: Note): GateTurn {
    t.(r := t.r.(notes := t.r.notes + [n]))
  }

  function Close(t: GateTurn): GateTurn {
    t.(r := t.r.(close := true))
  }

  function Emit(t: GateTurn, w: Wire): GateTurn {
    t.(r := t.r.(outbound := t.r.outbound + [w]))
  }

  datatype GatePushed = GatePushed(turn: GateTurn, ok: bool)

  /** `push_control`: a message the session refuses closes the connection. */
  function PushControl(t: GateTurn, msg: Control, w: World): GatePushed {
    var f := ControlFrame(t.g.controlOut, msg);
    var a := ApplyFrame(t.g.session, f, ServerRole);
    if !w.encodes(msg) || a.Violation? then GatePushed(Close(t), false)
    else GatePushed(Emit(t.(g := t.g.(session := a.state, controlOut := t.g.controlOut + 1)), Framed(f)), true)
  }

  /** `push_app_frame`. */
  function PushApp(t: GateTurn, f: Frame, w: World): GateTurn {
    var a := ApplyFrame(t.g.session, f, ServerRole);
    if !w.framed || a.Violation? then Close(t) else Emit(t.(g := t.g.(session := a.state)), Framed(f))
  }

  function FailBootstrap(t: GateTurn): GateTurn {
    Close(Emit(t, Boot(BootstrapError)))
  }

  function FailSession(t: GateTurn, reason: Reason, w: World): GateTurn {
    var u := Note1(t, FailedSession(reason));
    if t.g.session.phase.InSelectedPlane() then Close(PushControl(u, ErrorMessage(0, None), w).turn) else FailBootstrap(u)
  }

  // ---------------------------------------------------------------- bootstrap

  function HandleBootstrap(t: GateTurn, m: Wire, w: World): GateTurn {
    if !w.parses || !m.Boot? then FailBootstrap(t)
    else
      match ApplyBootstrap(t.g.session, m.record, ClientRole)
      case Violation => FailBootstrap(t)
      case Accepted(s, _) =>
        var u := t.(g := t.g.(session := s));
        if !m.record.ClientHello? then Close(u)
        else if !w.helloOk then FailBootstrap(u)
        else
          match ApplyBootstrap(u.g.session, ServerHello, ServerRole)
          case Violation => Close(u)
          case Accepted(s2, _) => Emit(u.(g := u.g.(session := s2, helloSent := true)), Boot(ServerHello))
  }

  // ---------------------------------------------------------------- control

  function PushSnapshot(t: GateTurn, w: World): GateTurn {
    if !w.graphOk then Close(PushControl(t, ErrorMessage(0, None), w).turn)
    else
      var p := PushControl(t, GraphSnapshot(1), w);
      if p.ok then p.turn.(g := p.turn.g.(graph := Some(1))) else p.turn
  }

  function PushDelta(t: GateTurn, w: World): GateTurn {
    if t.g.graph.None? then t
    else
      var base := t.g.graph.value;
      var p := PushControl(t, GraphDelta(base, base + 1), w);
      if p.ok then p.turn.(g := p.turn.g.(graph := Some(base + 1))) else p.turn
  }

  const DEFAULT_PRIORITY: nat := 2

  /** The frame priority a channel asks for, cast to an octet. */
  function PriorityOf(asked: Option<nat>): byte {
    (if asked.Some? then asked.value else DEFAULT_PRIORITY) % 256
  }

  function NewRuntime(kind: Kind, e: EffectiveQos, asked: Option<nat>): Runtime {
    var reliable := if kind.TopicSubscribe? || kind.TopicPublish? then e.reliable else true;
    Runtime(kind, reliable, e.transientLocal, PriorityOf(asked), 0, 0, map[], map[])
  }

  /** ChannelReady, with the effective reliability of key 57 for topics. */
  function ReadyFor(ch: nat, kind: Kind, e: EffectiveQos): Control {
    ChannelReady(ch, 0, if kind.TopicSubscribe? || kind.TopicPublish? then EffectiveReliability(ToWire(e)) else None)
  }

  function OpenTheChannel(t: GateTurn, ch: nat, kind: Kind, qos: seq<Entry>, asked: Option<nat>, w: World): GateTurn {
    if !w.serves || !w.created then PushControl(t, ChannelReady(ch, 3, None), w).turn
    else
      var e := ResolveEffective(TakeAll(DEFAULT_REQUEST, qos));
      var u := t.(g := t.g.(channels := t.g.channels[ch := NewRuntime(kind, e, asked)]));
      var p := PushControl(u, ReadyFor(ch, kind, e), w);
      if !p.ok then p.turn.(g := p.turn.g.(channels := p.turn.g.channels - {ch}))
      else if w.graphOk && w.hasEndpoint then PushDelta(p.turn, w)
      else p.turn
  }

  function HandleAuthenticate(t: GateTurn, w: World): GateTurn {
    if !w.authOk then Close(PushControl(t, ErrorMessage(0, None), w).turn)
    else if !t.g.helloSent then Close(t)
    else
      var p := PushControl(t, SessionReady, w);
      if p.ok then PushSnapshot(p.turn, w) else p.turn
  }

  function HandleControl(t: GateTurn, msg: Control, fx: Effects, w: World): GateTurn {
    match msg
    case Authenticate => HandleAuthenticate(t, w)
    case OpenChannel(_, kind, qos, asked) => if fx.opening.Some? then OpenTheChannel(t, fx.opening.value, kind, qos, asked, w) else t
    case CloseChannel(_) =>
      if fx.closing.Some? then t.(g := t.g.(channels := t.g.channels - {fx.closing.value})) else t
    case Heartbeat(_) =>
      var u := t.(g := t.g.(heartbeats := t.g.heartbeats + 1));
      PushControl(u, Heartbeat(u.g.heartbeats), w).turn
    case ErrorMessage(_, _) => if fx.sessionError then Close(t) else t
    case _ => t
  }

  // ---------------------------------------------------------------- data

  /** `handle_publish_sample`: flags against the effective QoS, then the sequence. */
  function HandlePublish(t: GateTurn, f: Frame, w: World): GateTurn {
    var ch := f.channelId;
    if ch !in t.g.channels then Close(t)
    else
      var rt := t.g.channels[ch];
      if f.reliable != rt.reliable then FailSession(t, RosReliableIffEffective, w)
      else if f.retained && !rt.transientLocal then FailSession(t, RetainedNeedsTransientLocal, w)
      else if rt.reliable && f.sequence != rt.seqIn then FailSession(t, ReliableSequenceMismatch, w)
      else if !rt.reliable && f.sequence < rt.seqIn then Note1(t, StaleSequence(ch))
      else
        var gap := if f.sequence > rt.seqIn then Note1(t, SequenceGap(ch)) else t;
        var u := gap.(g := gap.g.(channels := gap.g.channels[ch := rt.(seqIn := f.sequence + 1)]));
        if !f.payload.AppPayload? then Close(u)
        else
          var v := Note1(u, Admitted(ch, f.sequence));
          if w.accepts then v else PushControl(v, ErrorMessage(1, Some(ch)), w).turn
  }

  function Expected(seqs: map<OperationId, nat>, id: OperationId): nat {
    if id in seqs then seqs[id] else 0
  }

  /** `next_op_seq_out`. */
  function TakeOpOut(rt: Runtime, id: OperationId): Runtime {
    rt.(opSeqOut := rt.opSeqOut[id := Expected(rt.opSeqOut, id) + 1])
  }

  function OperationFrame(op: Opcode, ch: nat, sequence: nat, id: OperationId, payloadLen: nat): Frame {
    Frame(op, true, false, ch, sequence, 20, payloadLen, Some(id), AppPayload)
  }

  /** The reply of a call or goal, one more frame of the same operation. */
  function Respond(t: GateTurn, ch: nat, op: Opcode, id: OperationId, w: World): GateTurn
    requires ch in t.g.channels
  {
    var rt := t.g.channels[ch];
    var u := t.(g := t.g.(channels := t.g.channels[ch := TakeOpOut(rt, id)]));
    PushApp(u, OperationFrame(op, ch, Expected(rt.opSeqOut, id), id, w.payloadLen), w)
  }

  /** `handle_service_frame` and `handle_action_frame`: one exact sequence per operation. */
  function HandleOperation(t: GateTurn, f: Frame, w: World): GateTurn {
    var ch := f.channelId;
    if ch !in t.g.channels then Close(t)
    else if f.operationId.None? then FailSession(t, MissingOperationId, w)
    else
      var rt, id := t.g.channels[ch], f.operationId.value;
      if f.sequence != Expected(rt.opSeqIn, id) then
        FailSession(t.(g := t.g.(channels := t.g.channels[ch := rt.(opSeqIn := rt.opSeqIn[id := Expected(rt.opSeqIn, id)])])),
                    OperationSequenceMismatch, w)
      else
        var u := t.(g := t.g.(channels := t.g.channels[ch := rt.(opSeqIn := rt.opSeqIn[id := f.sequence + 1])]));
        if !f.payload.AppPayload? then Close(u)
        else
          var v := Note1(u, OperationAdmitted(ch, id, f.sequence));
          if rt.kind.ServiceClient? && f.opcode.ServiceRequest? then
            if w.accepts then Respond(v, ch, ServiceResponse, id, w) else PushControl(v, ErrorMessage(1, Some(ch)), w).turn
          else if rt.kind.ActionClient? && f.opcode.ActionGoal? then
            if w.accepts then Respond(v, ch, ActionResult, id, w) else PushControl(v, ErrorMessage(1, Some(ch)), w).turn
          else if Forwards(rt.kind, f.opcode) && !w.accepts then PushControl(v, ErrorMessage(1, Some(ch)), w).turn
          else v
  }

  /** Operation frames handed to the backend without a reply frame. */
  predicate Forwards(kind: Kind, op: Opcode) {
    || (kind.ServiceServer? && op.ServiceResponse?)
    || (kind.ActionClient? && op.ActionCancel?)
    || (kind.ActionServer? && (op.ActionFeedback? || op.ActionResult? || op.ActionStatus?))
  }

  function HandleFrame(t: GateTurn, m: Wire, w: World): GateTurn {
    if !w.parses || !m.Framed? then FailSession(t, ParseRejected, w)
    else
      var f := m.frame;
      match ApplyFrame(t.g.session, f, ClientRole)
      case Violation => FailSession(t, SessionRejected, w)
      case Accepted(s, fx) =>
        var u := t.(g := t.g.(session := s));
        if f.opcode.ControlCbor? then
          if f.sequence != u.g.controlIn then FailSession(u, ControlSequenceMismatch, w)
          else
            var v := u.(g := u.g.(controlIn := u.g.controlIn + 1));
            if !f.payload.ControlPayload? then Close(v) else HandleControl(v, f.payload.msg, fx, w)
        else if f.opcode.RosSample? then HandlePublish(u, f, w)
        else if f.opcode.Media? then u
        else HandleOperation(u, f, w)
  }

  /** `handle_inbound`. */
  function HandleInbound(g: Gate, m: Wire, w: World): GateTurn {
    var t := GateTurn(g, NO_REPLY);
    if g.session.phase.IsTerminal() then Close(t)
    else if !g.session.phase.InSelectedPlane() then HandleBootstrap(t, m, w)
    else HandleFrame(t, m, w)
  }

  // ---------------------------------------------------------------- work from the ROS side

  /** `push_service_request` and `push_action_inbound`. */
  function PushRequest(g: Gate, ch: nat, op: OperationCode, id: OperationId, w: World): GateTurn {
    var t := GateTurn(g, NO_REPLY);
    if ch !in g.channels then t
    else if g.channels[ch].kind != (if op.ServiceRequest? then ServiceServer else ActionServer) then t
    else Respond(t, ch, op, id, w)
  }

  const MAX_PAYLOAD: nat := 67_108_864

  /** The 32 octets of a sample's frame header. */
  function SampleHeader(ch: nat, rt: Runtime, payloadLen: nat): (h: seq<byte>)
    ensures |h| == FRAME_HEADER_LENGTH
  {
    [0, 2] + Encode(Big, if rt.reliable then 1 else 0, 2) + Encode(Big, ch, 4) + Encode(Big, rt.seqOut, 8)
    + Zeros(8) + Encode(Big, payloadLen, 4) + [0, 0, rt.priority, 0]
  }

  /** `frame_sample`: the header goes over the reserved prefix. */
  function FrameSample(g: Gate, ch: nat, buf: seq<byte>): Option<seq<byte>>
    requires FRAME_HEADER_LENGTH <= |buf|
  {
    if ch !in g.channels || !g.channels[ch].kind.TopicSubscribe? || |buf| - FRAME_HEADER_LENGTH > MAX_PAYLOAD then None
    else Some(SampleHeader(ch, g.channels[ch], |buf| - FRAME_HEADER_LENGTH) + buf[FRAME_HEADER_LENGTH..])
  }

  function Framed1(g: Gate, ch: nat): Gate
    requires ch in g.channels
  {
    g.(channels := g.channels[ch := g.channels[ch].(seqOut := g.channels[ch].seqOut + 1)])
  }
}
