/** The session state machine both peers run over the frames they send and receive. */
module Session {
  import opened ByteOrder
  import opened Qos

  datatype Role = ClientRole | ServerRole

  datatype Phase =
    | AwaitClientHello | AwaitServerHello | AwaitAuthenticate | AwaitSessionReady | Ready | BootstrapFailed | SessionFailed
  {
    predicate InSelectedPlane() {
      AwaitAuthenticate? || AwaitSessionReady? || Ready? || SessionFailed?
    }

    predicate IsTerminal() {
      BootstrapFailed? || SessionFailed?
    }
  }

  datatype Kind = TopicSubscribe | TopicPublish | ServiceClient | ServiceServer | ActionClient | ActionServer

  datatype ChannelState = Unused | Pending | Active | Failed | Closed

  datatype Channel = Channel(state: ChannelState, kind: Kind)

  type OperationId = int

  const ZERO_ID: OperationId := 0

  /** Control messages, by what the state machine reads of them. `Other` stands for the
      kinds that change nothing; `Refused` for those that are always refused. */
  datatype Control =
    | Authenticate
    | SessionReady
    | OpenChannel(channelId: nat, kind: Kind, qos: seq<Entry>, priority: Option<nat>)
    | ChannelReady(channelId: nat, result: nat, effective: Option<nat>)
    | CloseChannel(channelId: nat)
    | Heartbeat(counter: nat)
    | GraphSnapshot(generation: nat)
    | GraphDelta(base: nat, generation: nat)
    | ErrorMessage(scope: nat, channel: Option<nat>)
    | Other(sender: Option<Role>)
    | Refused

  datatype Opcode =
    | ControlCbor | RosSample | ServiceRequest | ServiceResponse
    | ActionGoal | ActionFeedback | ActionResult | ActionStatus | ActionCancel | Media

  datatype Payload = ControlPayload(msg: Control) | AppPayload

  /** A decoded frame. */
  datatype Frame = Frame(
    opcode: Opcode, reliable: bool, retained: bool, channelId: nat, sequence: nat, extensionLen: nat, payloadLen: nat,
    operationId: Option<OperationId>, payload: Payload)

  const FRAME_HEADER_LENGTH: nat := 32

  // ---------------------------------------------------------------- a sample's octets

  function ChannelField(b: seq<byte>): nat
    requires |b| >= FRAME_HEADER_LENGTH
  {
    Decode(Big, b[4..8])
  }

  function SequenceField(b: seq<byte>): nat
    requires |b| >= FRAME_HEADER_LENGTH
  {
    Decode(Big, b[8..16])
  }

  /** What `parse_frame` reads of them, where it does not refuse them. */
  function SampleRead(b: seq<byte>): Frame
    requires |b| >= FRAME_HEADER_LENGTH
  {
    var flags := Decode(Big, b[2..4]);
    Frame(RosSample, flags % 2 == 1, flags / 8 % 2 == 1, ChannelField(b), SequenceField(b), Decode(Big, b[28..30]), Decode(Big, b[24..28]),
          None, AppPayload)
  }

  function ControlFrame(sequence: nat, msg: Control): Frame {
    Frame(ControlCbor, false, false, 0, sequence, 0, 0, None, ControlPayload(msg))
  }

  datatype Record = ClientHello | ServerHello | BootstrapError

  /** What travels between the peers: bootstrap records, frames, and subscription samples
      as the octets the gateway stamps. */
  datatype Wire = Boot(record: Record) | Framed(frame: Frame) | RawSample(bytes: seq<byte>)

  datatype Effects = Effects(
    selectedPlane: bool, ready: bool, bootstrapFailed: bool, sessionError: bool, opening: Option<nat>,
    failing: Option<nat>, closing: Option<nat>, snapshot: Option<nat>, delta: Option<nat>, cancelled: Option<nat>)

  const NOTHING := Effects(false, false, false, false, None, None, None, None, None, None)

  datatype State = State(phase: Phase, channels: map<nat, Channel>, graph: Option<nat>) {
    function Of(id: nat): ChannelState {
      if id in channels then channels[id].state else Unused
    }
  }

  const FRESH := State(AwaitClientHello, map[], None)

  datatype Applied = Accepted(state: State, effects: Effects) | Violation

  function ApplyBootstrap(s: State, record: Record, sender: Role): Applied {
    if s.phase.IsTerminal() || s.phase.InSelectedPlane() then Violation
    else
      match record
      case ClientHello =>
        if sender.ClientRole? && s.phase.AwaitClientHello? then Accepted(s.(phase := AwaitServerHello), NOTHING) else Violation
      case ServerHello =>
        if sender.ServerRole? && s.phase.AwaitServerHello? then
          Accepted(s.(phase := AwaitAuthenticate), NOTHING.(selectedPlane := true))
        else Violation
      case BootstrapError =>
        if sender.ServerRole? && s.phase.AwaitServerHello? then
          Accepted(s.(phase := BootstrapFailed), NOTHING.(bootstrapFailed := true))
        else Violation
  }

  /** Who may send a control kind, where only one peer may. */
  function ControlSender(msg: Control): Option<Role> {
    match msg
    case Authenticate => Some(ClientRole)
    case OpenChannel(_, _, _, _) => Some(ClientRole)
    case SessionReady => Some(ServerRole)
    case ChannelReady(_, _, _) => Some(ServerRole)
    case GraphSnapshot(_) => Some(ServerRole)
    case GraphDelta(_, _) => Some(ServerRole)
    case Other(sender) => sender
    case _ => None
  }

  predicate NeedsReady(msg: Control) {
    !(msg.Authenticate? || msg.SessionReady? || msg.ErrorMessage? || msg.Refused?)
  }

  function ApplyError(s: State, scope: nat, channel: Option<nat>): Applied {
    match s.phase
    case AwaitSessionReady => Accepted(s.(phase := SessionFailed), NOTHING.(sessionError := true))
    case AwaitAuthenticate => Accepted(s.(phase := SessionFailed), NOTHING.(sessionError := true))
    case Ready =>
      if scope == 2 then
        if channel.Some? && s.Of(channel.value).Active? then Accepted(s, NOTHING.(cancelled := channel)) else Violation
      else if channel.Some? && s.Of(channel.value).Pending? then
        Accepted(WithState(s, channel.value, Failed), NOTHING.(failing := channel))
      else Accepted(s, NOTHING.(sessionError := true))
    case _ => Violation
  }

  function WithState(s: State, id: nat, to: ChannelState): State
    requires id in s.channels
  {
    s.(channels := s.channels[id := s.channels[id].(state := to)])
  }

  function ApplyControl(s: State, msg: Control, sender: Role): Applied {
    if ControlSender(msg).Some? && ControlSender(msg) != Some(sender) then Violation
    else if !s.phase.Ready? && NeedsReady(msg) then Violation
    else
      match msg
      case Authenticate =>
        if s.phase.AwaitAuthenticate? then Accepted(s.(phase := AwaitSessionReady), NOTHING) else Violation
      case SessionReady =>
        if s.phase.AwaitSessionReady? then Accepted(s.(phase := Ready), NOTHING.(ready := true)) else Violation
      case OpenChannel(id, kind, _, _) =>
        if id == 0 || id in s.channels then Violation
        else Accepted(s.(channels := s.channels[id := Channel(Pending, kind)]), NOTHING.(opening := Some(id)))
      case ChannelReady(id, result, _) =>
        if !s.Of(id).Pending? || result > 3 then Violation
        else if result == 0 || result == 2 then Accepted(WithState(s, id, Active), NOTHING)
        else Accepted(WithState(s, id, Failed), NOTHING.(failing := Some(id)))
      case CloseChannel(id) =>
        if s.Of(id).Active? then Accepted(WithState(s, id, Closed), NOTHING.(closing := Some(id))) else Violation
      case Heartbeat(_) => Accepted(s, NOTHING)
      case GraphSnapshot(generation) => Accepted(s.(graph := Some(generation)), NOTHING.(snapshot := Some(generation)))
      case GraphDelta(base, generation) =>
        if s.graph == Some(base) && generation == base + 1 then
          Accepted(s.(graph := Some(generation)), NOTHING.(delta := Some(generation)))
        else Violation
      case ErrorMessage(scope, channel) => ApplyError(s, scope, channel)
      case Other(_) => Accepted(s, NOTHING)
      case Refused => Violation
  }

  predicate IsOperation(op: Opcode) {
    !(op.ControlCbor? || op.RosSample? || op.Media?)
  }

  /** The opcodes of service and action frames. */
  type OperationCode = op: Opcode | IsOperation(op) witness ServiceRequest

  /** Who sends `op` on a channel of `kind`; nobody, where it is not legal there. */
  function OpcodeSender(kind: Kind, op: Opcode): Option<Role> {
    match kind
    case TopicSubscribe => if op.RosSample? then Some(ServerRole) else None
    case TopicPublish => if op.RosSample? then Some(ClientRole) else None
    case ServiceClient =>
      if op.ServiceRequest? then Some(ClientRole) else if op.ServiceResponse? then Some(ServerRole) else None
    case ServiceServer =>
      if op.ServiceRequest? then Some(ServerRole) else if op.ServiceResponse? then Some(ClientRole) else None
    case ActionClient =>
      if op.ActionGoal? || op.ActionCancel? then Some(ClientRole)
      else if op.ActionFeedback? || op.ActionResult? || op.ActionStatus? then Some(ServerRole) else None
    case ActionServer =>
      if op.ActionGoal? || op.ActionCancel? then Some(ServerRole)
      else if op.ActionFeedback? || op.ActionResult? || op.ActionStatus? then Some(ClientRole) else None
  }

  /** Data frames: the channel must be active, of the right kind, and sent by the right peer. */
  predicate DataLegal(s: State, f: Frame, sender: Role) {
    && s.phase.Ready? && s.Of(f.channelId).Active?
    && OpcodeSender(s.channels[f.channelId].kind, f.opcode) == Some(sender)
    && (IsOperation(f.opcode) ==>
      && f.operationId.Some? && (f.operationId.value == ZERO_ID ==> f.opcode.ActionStatus?)
      && (f.reliable || f.opcode.ActionFeedback? || f.opcode.ActionStatus?))
  }

  function ApplyFrame(s: State, f: Frame, sender: Role): Applied {
    if s.phase.IsTerminal() || !s.phase.InSelectedPlane() then Violation
    else if f.opcode.ControlCbor? then
      if f.payload.ControlPayload? then ApplyControl(s, f.payload.msg, sender) else Violation
    else if f.opcode.Media? then Violation
    else if DataLegal(s, f, sender) then Accepted(s, NOTHING) else Violation
  }

  // ---------------------------------------------------------------- what the state machine keeps

  /** A channel id only ever moves forward; its kind never changes. */
  predicate Forward(a: ChannelState, b: ChannelState) {
    || a == b
    || (a.Unused? && b.Pending?)
    || (a.Pending? && (b.Active? || b.Failed?))
    || (a.Active? && b.Closed?)
  }

  ghost predicate Advances(s: State, t: State) {
    && (s.phase.Ready? ==> t.phase.Ready?)
    && (forall id :: id in s.channels ==> id in t.channels && t.channels[id].kind == s.channels[id].kind)
    && (forall id :: Forward(s.Of(id), t.Of(id)))
  }

  /** Ids are consumed for good and a ready session stays ready, whatever frame is applied. */
  lemma {:induction false} FramesAdvance(s: State, f: Frame, sender: Role)
    ensures ApplyFrame(s, f, sender).Accepted? ==> Advances(s, ApplyFrame(s, f, sender).state)
  {
    hide DataLegal, ApplyControl;
    if f.opcode.ControlCbor? && f.payload.ControlPayload? {
      ControlAdvances(s, f.payload.msg, sender);
    }
  }

  lemma {:induction false} ControlAdvances(s: State, msg: Control, sender: Role)
    ensures ApplyControl(s, msg, sender).Accepted? ==> Advances(s, ApplyControl(s, msg, sender).state)
  {
    match msg
    case ErrorMessage(_, _) =>
    case _ =>
  }

  // ---------------------------------------------------------------- who may send what

  function Peer(r: Role): Role {
    if r.ClientRole? then ServerRole else ClientRole
  }

  predicate IsCall(op: Opcode) {
    op.ServiceRequest? || op.ActionGoal? || op.ActionCancel?
  }

  predicate OfService(op: Opcode) {
    op.ServiceRequest? || op.ServiceResponse?
  }

  predicate IsTopic(kind: Kind) {
    kind.TopicSubscribe? || kind.TopicPublish?
  }

  predicate IsServiceKind(kind: Kind) {
    kind.ServiceClient? || kind.ServiceServer?
  }

  /** The peer whose ROS side publishes, calls or sets goals on a channel: the client on the
      channels it opens as publisher or caller, the gateway on the others. */
  function Initiator(kind: Kind): Role {
    if kind.TopicPublish? || kind.ServiceClient? || kind.ActionClient? then ClientRole else ServerRole
  }

  /** An opcode is legal on a channel exactly if it is of the channel's family; samples, calls,
      goals and cancellations come from the initiator, everything else from its peer. */
  lemma {:induction false} SenderByFamily(kind: Kind, op: Opcode)
    ensures op.ControlCbor? || op.Media? ==> OpcodeSender(kind, op) == None
    ensures op.RosSample? ==> OpcodeSender(kind, op) == if IsTopic(kind) then Some(Initiator(kind)) else None
    ensures IsOperation(op) ==>
      OpcodeSender(kind, op) ==
        if IsTopic(kind) || IsServiceKind(kind) != OfService(op) then None
        else Some(if IsCall(op) then Initiator(kind) else Peer(Initiator(kind)))
  {
    match kind
    case TopicSubscribe =>
    case _ =>
  }

  /** When a frame that is not control is accepted, from either peer: the session is ready, the
      channel active, and it is a sample from the initiator of a topic, or of a service or action
      what its family allows to that peer, under an operation id that only a status may leave
      zero, reliably unless it is feedback or status. It changes nothing. */
  lemma {:induction false} DataAccepted(s: State, f: Frame, sender: Role)
    requires !f.opcode.ControlCbor?
    ensures var r := ApplyFrame(s, f, sender);
            && (r.Accepted? ==> r == Accepted(s, NOTHING))
            && (r.Accepted? <==>
                && s.phase.Ready? && s.Of(f.channelId).Active?
                && var kind := s.channels[f.channelId].kind;
                if f.opcode.RosSample? then IsTopic(kind) && sender == Initiator(kind)
                else
                  && IsOperation(f.opcode) && !IsTopic(kind) && IsServiceKind(kind) == OfService(f.opcode)
                  && (IsCall(f.opcode) <==> sender == Initiator(kind))
                  && f.operationId.Some? && (f.operationId == Some(ZERO_ID) ==> f.opcode.ActionStatus?)
                  && (f.reliable || f.opcode.ActionFeedback? || f.opcode.ActionStatus?))
  {
    if s.phase.Ready? && s.Of(f.channelId).Active? {
      SenderByFamily(s.channels[f.channelId].kind, f.opcode);
    }
  }
}
