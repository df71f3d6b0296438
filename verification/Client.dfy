/** The client poll engine: what each host event does to its state and to the outcome of
    the turn. Where the engine asks the protocol code to encode, parse or look something
    up, the event says what the answer was. */
module Client {
  import opened ByteOrder
  import opened CdrLimits
  import opened Qos
  import opened Session

  const OPERATION_ID_AREA: nat := 20
  const MAX_HOST_EVENTS_PER_POLL: nat := 64
  const MAX_OUTBOUND_PER_POLL: nat := 64
  const DEFAULT_QOS_DEPTH: nat := 5
  const HEARTBEAT_INTERVAL_MS: nat := 15_000

  // ---------------------------------------------------------------- the buffer slab

  datatype Retained = Retained(bytes: seq<byte>, declaredLen: nat, leaseRefs: nat, ingestDone: bool)

  datatype Lease = Lease(bufferId: nat, offset: nat, len: nat)

  datatype Slab = Slab(nextBuffer: nat, nextLease: nat, retained: map<nat, Retained>, leases: map<nat, Lease>)

  /** Saturating `u32` increment. */
  function Bump(id: nat): nat {
    if id < U32_MAX then id + 1 else U32_MAX
  }

  /** `retain_declared_len`: the header's own size for a whole frame or a header and
      extension prefix, the octets at hand for anything else. */
  function DeclaredLen(host: Host, b: seq<byte>): nat {
    if |b| < FRAME_HEADER_LENGTH then |b|
    else
      var prefix := FRAME_HEADER_LENGTH + Decode(Big, b[28..30]);
      var total := prefix + Decode(Big, b[24..28]);
      if total <= host.Max() && (|b| == total || |b| == prefix) then total else |b|
  }

  function Insert(s: Slab, id: nat, host: Host, bytes: seq<byte>): Slab {
    s.(retained := s.retained[id := Retained(bytes, DeclaredLen(host, bytes), 0, false)])
  }

  /** Where inbound bytes go: a fresh id, or the one the host names, whatever is there. */
  function Ingest(s: Slab, bufferId: nat, host: Host, bytes: seq<byte>): (Slab, nat) {
    if bufferId == 0 then (Insert(s.(nextBuffer := Bump(s.nextBuffer)), s.nextBuffer, host, bytes), s.nextBuffer)
    else
      var next := if s.nextBuffer > Bump(bufferId) then s.nextBuffer else Bump(bufferId);
      (Insert(s.(nextBuffer := next), bufferId, host, bytes), bufferId)
  }

  /** A new lease on a retained buffer. */
  function Grant(s: Slab, bufferId: nat, offset: nat, len: nat): Slab {
    var counted :=
      if bufferId in s.retained then
        s.(retained := s.retained[bufferId := s.retained[bufferId].(leaseRefs := s.retained[bufferId].leaseRefs + 1)])
      else s;
    counted.(leases := s.leases[s.nextLease := Lease(bufferId, offset, len)], nextLease := Bump(s.nextLease))
  }

  function FinishIngest(s: Slab, id: nat): Slab {
    if id in s.retained then s.(retained := s.retained[id := s.retained[id].(ingestDone := true)]) else s
  }

  function Release(s: Slab, leaseId: nat): Slab {
    if leaseId !in s.leases then s
    else
      var b := s.leases[leaseId].bufferId;
      var dropped := s.(leases := s.leases - {leaseId});
      if b in s.retained then
        var refs := s.retained[b].leaseRefs;
        dropped.(retained := s.retained[b := s.retained[b].(leaseRefs := if refs > 0 then refs - 1 else 0)])
      else dropped
  }

  predicate Idle(r: Retained) {
    r.ingestDone && r.leaseRefs == 0
  }

  datatype Released = Released(bufferId: nat, len: nat)

  function Sweep(s: Slab): Slab {
    s.(retained := map b | b in s.retained && !Idle(s.retained[b]) :: s.retained[b])
  }

  /** What a sweep reports; the order, a hash map's, is not modelled. */
  function Swept(s: Slab): set<Released> {
    set b | b in s.retained && Idle(s.retained[b]) :: Released(b, |s.retained[b].bytes|)
  }

  /** `lease_payload_view`: none if unknown, or if the payload stayed with the host. */
  function View(s: Slab, leaseId: nat): Option<seq<byte>> {
    if leaseId !in s.leases then None
    else
      var l := s.leases[leaseId];
      if l.bufferId !in s.retained then None
      else
        var b := s.retained[l.bufferId].bytes;
        if l.offset + l.len <= |b| then Some(b[l.offset..l.offset + l.len]) else None
  }

  // ---------------------------------------------------------------- state, events, outcome

  datatype PendingOpen = PendingOpen(kind: Kind, reliability: nat)

  datatype Publication = Publication(reliable: bool, seqOut: nat)

  datatype OpStream = OpStream(nextSeq: nat, seqOut: map<OperationId, nat>)

  datatype Engine = Engine(
    host: Host, slab: Slab, session: State, controlOut: nat, controlIn: nat, pending: map<nat, PendingOpen>,
    subscribes: map<nat, PendingOpen>, publishes: map<nat, Publication>, services: map<nat, OpStream>,
    actions: map<nat, OpStream>, started: bool, closed: bool, lastTimer: Option<nat>, nextHeartbeat: Option<nat>,
    heartbeats: nat)

  /** What the frame or record parser made of inbound bytes. */
  datatype Parsed = Unparsable | BootRecord(record: Record) | FrameParsed(frame: Frame)

  datatype Command =
    | Start(encodes: bool)
    | Login(encodes: bool)
    | OpenCommand(channelId: nat, kind: Kind, reliability: byte, depth: nat, schemaKnown: bool, encodes: bool)
    | SendSample(channelId: nat, payloadLen: nat, encoded: bool, frames: bool)
    | SendOperation(channelId: nat, opcode: OperationCode, operationId: OperationId, payloadLen: nat, encoded: bool, frames: bool)
    | Unsubscribe(channelId: nat, encodes: bool)
    | Shutdown

  datatype HostEvent =
    | WsBytes(bufferId: nat, bytes: seq<byte>, parsed: Parsed, replyEncodes: bool)
    | Timer(now: nat, encodes: bool)
    | Issue(command: Command)
    | ReleaseLease(leaseId: nat)

  datatype Reason =
    | StartFailed | EncodeFailed | ParseRejected | SessionRejected | PeerBootstrapFailed | ControlSequenceMismatch
    | MissingControlPayload | PayloadOutOfBounds | MissingOperationId | PeerError

  datatype AppEvent =
    | Leased(opcode: Opcode, channelId: nat, leaseId: nat, sequence: nat, operationId: Option<OperationId>)
    | ChannelOpen(kind: Kind, channelId: nat, reliability: nat)
    | OpenFailed(kind: Kind, channelId: nat)
    | SendFailed(channelId: nat)
    | BootstrapComplete
    | SessionIsReady
    | HeartbeatSeen(counter: nat)
    | SnapshotSeen(generation: nat)
    | DeltaSeen(generation: nat)
    | OperationCancelled(channelId: nat)
    | ErrorRaised(reason: Reason)
    | ClosedNow

  datatype Outbound = Outbound(bufferId: nat, message: Wire)

  datatype Outcome = Outcome(outbound: seq<Outbound>, events: seq<AppEvent>, released: set<Released>, deadline: Option<nat>)

  const NO_OUTCOME := Outcome([], [], {}, None)

  datatype Turn = Turn(c: Engine, o: Outcome)

  function NewEngine(host: Host): Engine {
    Engine(host, Slab(1, 1, map[], map[]), FRESH, 0, 0, map[], map[], map[], map[], map[], false, false, None, None, 0)
  }

  // ---------------------------------------------------------------- outbound

  function Tell(t: Turn, e: AppEvent): (u: Turn)
    ensures u.c == t.c && u.o.outbound == t.o.outbound && u.o.released == t.o.released && u.o.events == t.o.events + [e]
  {
    t.(o := t.o.(events := t.o.events + [e]))
  }

  function Fail(t: Turn, reason: Reason): (u: Turn)
    ensures u.c == t.c.(closed := true) && u.o.outbound == t.o.outbound && u.o.released == t.o.released
    ensures u.o.events == t.o.events + [ErrorRaised(reason), ClosedNow]
  {
    Tell(Tell(t.(c := t.c.(closed := true)), ErrorRaised(reason)), ClosedNow)
  }

  /** Silently drops once the turn has queued its maximum. */
  function PushOutbound(t: Turn, m: Wire): Turn {
    if |t.o.outbound| >= MAX_OUTBOUND_PER_POLL then t
    else
      t.(c := t.c.(slab := t.c.slab.(nextBuffer := Bump(t.c.slab.nextBuffer))),
         o := t.o.(outbound := t.o.outbound + [Outbound(t.c.slab.nextBuffer, m)]))
  }

  datatype Pushed = Pushed(turn: Turn, ok: bool)

  function PushControl(t: Turn, msg: Control, encodes: bool): Pushed {
    var f := ControlFrame(t.c.controlOut, msg);
    var a := ApplyFrame(t.c.session, f, ClientRole);
    if !encodes || a.Violation? then Pushed(t, false)
    else Pushed(PushOutbound(t.(c := t.c.(session := a.state, controlOut := t.c.controlOut + 1)), Framed(f)), true)
  }

  function SendData(t: Turn, f: Frame, frames: bool): Pushed {
    var a := ApplyFrame(t.c.session, f, ClientRole);
    if !frames || a.Violation? then Pushed(t, false) else Pushed(PushOutbound(t.(c := t.c.(session := a.state)), Framed(f)), true)
  }

  function SampleFrame(channelId: nat, p: Publication, payloadLen: nat): Frame {
    Frame(RosSample, p.reliable, false, channelId, p.seqOut, 0, payloadLen, None, AppPayload)
  }

  /** `send_sample_payload`: the sequence advances only once the frame is recorded. */
  function SendSamplePayload(t: Turn, ch: nat, payloadLen: nat, frames: bool): Turn {
    if ch !in t.c.publishes then Tell(t, SendFailed(ch))
    else
      var p := t.c.publishes[ch];
      var sent := SendData(t.(c := t.c.(publishes := t.c.publishes[ch := p.(seqOut := p.seqOut + 1)])),
                           SampleFrame(ch, p, payloadLen), frames);
      if sent.ok then sent.turn else Tell(t, SendFailed(ch))
  }

  /** Feedback and status go best effort, everything else reliable. */
  predicate SentReliable(op: Opcode) {
    !op.ActionFeedback? && !op.ActionStatus?
  }

  function NextOp(s: OpStream, id: OperationId): OpStream {
    OpStream(s.nextSeq + 1, s.seqOut[id := s.nextSeq])
  }

  /** `send_service_action_frame`: the sequence is channel-wide, and consumed up front. */
  function SendOperationFrame(t: Turn, ch: nat, op: OperationCode, id: OperationId, payloadLen: nat, frames: bool): Turn {
    if ch !in t.c.services && ch !in t.c.actions then Tell(t, SendFailed(ch))
    else
      var sequence := if ch in t.c.services then t.c.services[ch].nextSeq else t.c.actions[ch].nextSeq;
      var took :=
        if ch in t.c.services then t.(c := t.c.(services := t.c.services[ch := NextOp(t.c.services[ch], id)]))
        else t.(c := t.c.(actions := t.c.actions[ch := NextOp(t.c.actions[ch], id)]));
      var f := Frame(op, SentReliable(op), false, ch, sequence, OPERATION_ID_AREA, payloadLen, Some(id), AppPayload);
      var sent := SendData(took, f, frames);
      if sent.ok then sent.turn else Tell(took, SendFailed(ch))
  }

  // ---------------------------------------------------------------- commands

  function HandleCommand(t: Turn, cmd: Command): Turn {
    match cmd
    case Start(encodes) =>
      if t.c.started then t
      else
        var begun := t.(c := t.c.(started := true));
        var a := ApplyBootstrap(t.c.session, ClientHello, ClientRole);
        if !encodes || a.Violation? then Fail(begun, StartFailed)
        else PushOutbound(begun.(c := begun.c.(session := a.state)), Boot(ClientHello))
    case Login(encodes) =>
      var p := PushControl(t, Authenticate, encodes);
      if p.ok then p.turn else Fail(t, EncodeFailed)
    case OpenCommand(ch, kind, reliability, depth, schemaKnown, encodes) =>
      if !schemaKnown then Tell(t, OpenFailed(kind, ch))
      else
        var rel := RequestedReliability(kind, reliability);
        var p := PushControl(t, OpenRequest(ch, kind, rel, depth), encodes);
        if !p.ok then Fail(t, EncodeFailed)
        else p.turn.(c := p.turn.c.(pending := p.turn.c.pending[ch := PendingOpen(kind, rel)]))
    case SendSample(ch, payloadLen, encoded, frames) =>
      if encoded then SendSamplePayload(t, ch, payloadLen, frames) else Tell(t, SendFailed(ch))
    case SendOperation(ch, op, id, payloadLen, encoded, frames) =>
      if encoded then SendOperationFrame(t, ch, op, id, payloadLen, frames) else Tell(t, SendFailed(ch))
    case Unsubscribe(ch, encodes) =>
      var p := PushControl(t, CloseChannel(ch), encodes);
      if !p.ok then Fail(t, EncodeFailed) else p.turn.(c := Forget(p.turn.c, ch))
    case Shutdown => Tell(t.(c := t.c.(closed := true)), ClosedNow)
  }

  /** Services and actions are always opened reliable. */
  function RequestedReliability(kind: Kind, reliability: byte): byte {
    if IsTopic(kind) then reliability else 1
  }

  /** `open_topic`: the requested QoS as it goes on the wire. */
  function OpenRequest(ch: nat, kind: Kind, reliability: byte, depth: nat): Control {
    var asked := if depth == 0 || !IsTopic(kind) then DEFAULT_QOS_DEPTH else depth;
    OpenChannel(ch, kind, [Entry(1, Some(reliability)), Entry(2, Some(0)), Entry(3, Some(1)), Entry(4, Some(asked))], Some(2))
  }

  function Forget(c: Engine, ch: nat): Engine {
    c.(pending := c.pending - {ch}, subscribes := c.subscribes - {ch}, publishes := c.publishes - {ch},
       services := c.services - {ch}, actions := c.actions - {ch})
  }

  // ---------------------------------------------------------------- inbound

  function HandleBootstrap(t: Turn, parsed: Parsed): Turn {
    if !parsed.BootRecord? then Fail(t, ParseRejected)
    else
      match ApplyBootstrap(t.c.session, parsed.record, ServerRole)
      case Violation => Fail(t, SessionRejected)
      case Accepted(s, fx) =>
        var u := t.(c := t.c.(session := s));
        if fx.bootstrapFailed then Fail(u, PeerBootstrapFailed)
        else if fx.selectedPlane then Tell(u, BootstrapComplete) else u
  }

  /** A successful ChannelReady; without a matching open it counts as a subscription. */
  function ChannelIsReady(t: Turn, ch: nat, effective: Option<nat>): Turn {
    var p := if ch in t.c.pending then t.c.pending[ch] else PendingOpen(TopicSubscribe, 1);
    var c := t.c.(pending := t.c.pending - {ch});
    var rel := if effective.Some? then effective.value else p.reliability;
    var d :=
      match p.kind
      case TopicSubscribe => c.(subscribes := c.subscribes[ch := PendingOpen(p.kind, rel)])
      case TopicPublish => c.(publishes := c.publishes[ch := Publication(rel != 2, 0)])
      case ServiceClient => c.(services := c.services[ch := OpStream(0, map[])])
      case ServiceServer => c.(services := c.services[ch := OpStream(0, map[])])
      case ActionClient => c.(actions := c.actions[ch := OpStream(0, map[])])
      case ActionServer => c.(actions := c.actions[ch := OpStream(0, map[])]);
    Tell(t.(c := d), ChannelOpen(p.kind, ch, rel))
  }

  function OpenDidFail(t: Turn, ch: nat): Turn {
    var kind := if ch in t.c.pending then t.c.pending[ch].kind else TopicSubscribe;
    Tell(t.(c := t.c.(pending := t.c.pending - {ch})), OpenFailed(kind, ch))
  }

  function HandleControl(t: Turn, msg: Control, fx: Effects, encodes: bool): Turn {
    match msg
    case SessionReady =>
      if !fx.ready then t
      else
        var u := Tell(t, SessionIsReady);
        if t.c.lastTimer.None? then u
        else u.(c := u.c.(nextHeartbeat := Some(t.c.lastTimer.value + HEARTBEAT_INTERVAL_MS)))
    case ChannelReady(ch, result, effective) =>
      if result == 0 || result == 2 then ChannelIsReady(t, ch, effective) else OpenDidFail(t, ch)
    case Heartbeat(counter) =>
      var u := Tell(t, HeartbeatSeen(counter));
      var v := u.(c := u.c.(heartbeats := u.c.heartbeats + 1));
      PushControl(v, Heartbeat(v.c.heartbeats), encodes).turn
    case GraphSnapshot(_) => if fx.snapshot.Some? then Tell(t, SnapshotSeen(fx.snapshot.value)) else t
    case GraphDelta(_, _) => if fx.delta.Some? then Tell(t, DeltaSeen(fx.delta.value)) else t
    case ErrorMessage(_, _) =>
      if fx.sessionError then Fail(t, PeerError)
      else if fx.cancelled.Some? then Tell(t, OperationCancelled(fx.cancelled.value))
      else if fx.failing.Some? then OpenDidFail(t, fx.failing.value)
      else t
    case _ => t
  }

  /** `handle_sample` and `handle_service_action`: hand the payload out under a lease. */
  function HandleData(t: Turn, id: nat, f: Frame, declared: nat): Turn {
    var offset := FRAME_HEADER_LENGTH + f.extensionLen;
    if f.payload.ControlPayload? then t
    else if offset + f.payloadLen > t.c.host.Max() || offset + f.payloadLen > declared then Fail(t, PayloadOutOfBounds)
    else if f.opcode.ActionCancel? then t
    else if IsOperation(f.opcode) && f.operationId.None? && !f.opcode.ActionStatus? then Fail(t, MissingOperationId)
    else
      var opId := if IsOperation(f.opcode) && f.operationId.None? then Some(ZERO_ID) else f.operationId;
      var lease := t.c.slab.nextLease;
      Tell(t.(c := t.c.(slab := Grant(t.c.slab, id, offset, f.payloadLen))),
           Leased(f.opcode, f.channelId, lease, f.sequence, opId))
  }

  function HandleFrame(t: Turn, id: nat, declared: nat, parsed: Parsed, encodes: bool): Turn {
    if !parsed.FrameParsed? then Fail(t, ParseRejected)
    else
      var f := parsed.frame;
      match ApplyFrame(t.c.session, f, ServerRole)
      case Violation => Fail(t, SessionRejected)
      case Accepted(s, fx) =>
        var u := t.(c := t.c.(session := s));
        if f.opcode.ControlCbor? then
          if f.sequence != u.c.controlIn then Fail(u, ControlSequenceMismatch)
          else
            var v := u.(c := u.c.(controlIn := u.c.controlIn + 1));
            if !f.payload.ControlPayload? then Fail(v, MissingControlPayload)
            else HandleControl(v, f.payload.msg, fx, encodes)
        else if f.opcode.Media? then u
        else HandleData(u, id, f, declared)
  }

  function HandleWsBytes(t: Turn, bufferId: nat, bytes: seq<byte>, parsed: Parsed, encodes: bool): Turn {
    var (slab, id) := Ingest(t.c.slab, bufferId, t.c.host, bytes);
    var u := t.(c := t.c.(slab := slab));
    var v :=
      if !t.c.session.phase.InSelectedPlane() then HandleBootstrap(u, parsed)
      else HandleFrame(u, id, DeclaredLen(t.c.host, bytes), parsed, encodes);
    v.(c := v.c.(slab := FinishIngest(v.c.slab, id)))
  }

  function HandleTimer(t: Turn, now: nat, encodes: bool): Turn {
    var u := t.(c := t.c.(lastTimer := Some(now)));
    var due := u.(c := u.c.(nextHeartbeat := Some(now + HEARTBEAT_INTERVAL_MS)));
    if !u.c.session.phase.Ready? then u
    else if u.c.nextHeartbeat.None? then due
    else if now < u.c.nextHeartbeat.value then u
    else
      var v := u.(c := u.c.(heartbeats := u.c.heartbeats + 1));
      var w := PushControl(v, Heartbeat(v.c.heartbeats), encodes).turn;
      w.(c := w.c.(nextHeartbeat := Some(now + HEARTBEAT_INTERVAL_MS)))
  }

  // ---------------------------------------------------------------- turns

  function HandleEvent(t: Turn, e: HostEvent): Turn {
    match e
    case WsBytes(bufferId, bytes, parsed, encodes) => HandleWsBytes(t, bufferId, bytes, parsed, encodes)
    case Timer(now, encodes) => HandleTimer(t, now, encodes)
    case Issue(cmd) => HandleCommand(t, cmd)
    case ReleaseLease(lease) => t.(c := t.c.(slab := Release(t.c.slab, lease)))
  }

  /** The events of a batch, up to the one that closes the engine. */
  function HandleAll(t: Turn, events: seq<HostEvent>): Turn
    decreases |events|
  {
    if events == [] || t.c.closed then t else HandleAll(HandleEvent(t, events[0]), events[1..])
  }

  function EndTurn(t: Turn): Turn {
    Turn(t.c.(slab := Sweep(t.c.slab)), t.o.(released := Swept(t.c.slab), deadline := t.c.nextHeartbeat))
  }

  function Batch(events: seq<HostEvent>): (b: seq<HostEvent>)
    ensures |b| <= MAX_HOST_EVENTS_PER_POLL && b <= events
  {
    if |events| <= MAX_HOST_EVENTS_PER_POLL then events else events[..MAX_HOST_EVENTS_PER_POLL]
  }

  /** `poll`. A closed engine only says so again. */
  function Poll(c: Engine, events: seq<HostEvent>): Turn {
    if c.closed then Tell(Turn(c, NO_OUTCOME), ClosedNow)
    else EndTurn(HandleAll(Turn(c, NO_OUTCOME), Batch(events)))
  }
}
