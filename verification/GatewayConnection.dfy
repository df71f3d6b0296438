/** The gateway connection as it runs: session state and channel runtimes in one object, and
    the loop that sends its replies and flushes the sample queue. */
module GatewayConnection {
  import opened ByteOrder
  import opened Qos
  import opened Session
  import opened Gateway
  import WriteQueue

  class ConnState {
    var session: State
    var controlSeqOut: nat
    var controlSeqIn: nat
    var heartbeatCounter: nat
    var channels: map<nat, Runtime>
    var graphGeneration: Option<nat>
    var helloSent: bool

    function Abs(): Gate
      reads this
    {
      Gate(session, controlSeqOut, controlSeqIn, heartbeatCounter, channels, graphGeneration, helloSent)
    }

    constructor ()
      ensures Abs() == NEW_GATE
    {
      session, controlSeqOut, controlSeqIn, heartbeatCounter := FRESH, 0, 0, 0;
      channels, graphGeneration, helloSent := map[], None, false;
    }

    method SendControl(r: Reply, msg: Control, w: World) returns (s: Reply, ok: bool)
      modifies this
      ensures GatePushed(GateTurn(Abs(), s), ok) == PushControl(GateTurn(old(Abs()), r), msg, w)
    {
      hide ApplyFrame;
      var f := ControlFrame(controlSeqOut, msg);
      if !w.encodes(msg) {
        return r.(close := true), false;
      }
      match ApplyFrame(session, f, ServerRole) {
        case Violation =>
          return r.(close := true), false;
        case Accepted(next, _) =>
          session := next;
          controlSeqOut := controlSeqOut + 1;
          return r.(outbound := r.outbound + [Framed(f)]), true;
      }
    }

    method SendApp(r: Reply, f: Frame, w: World) returns (s: Reply)
      modifies this
      ensures GateTurn(Abs(), s) == PushApp(GateTurn(old(Abs()), r), f, w)
    {
      hide ApplyFrame;
      var a := ApplyFrame(session, f, ServerRole);
      if !w.framed || a.Violation? {
        return r.(close := true);
      }
      session := a.state;
      s := r.(outbound := r.outbound + [Framed(f)]);
    }

    method Fail(r: Reply, reason: Reason, w: World) returns (s: Reply)
      modifies this
      ensures GateTurn(Abs(), s) == FailSession(GateTurn(old(Abs()), r), reason, w)
    {
      hide PushControl;
      s := r.(notes := r.notes + [FailedSession(reason)]);
      if session.phase.InSelectedPlane() {
        var ok;
        s, ok := SendControl(s, ErrorMessage(0, None), w);
      } else {
        s := s.(outbound := s.outbound + [Boot(BootstrapError)]);
      }
      s := s.(close := true);
    }

    method ReceiveBootstrap(r: Reply, m: Wire, w: World) returns (s: Reply)
      modifies this
      ensures GateTurn(Abs(), s) == HandleBootstrap(GateTurn(old(Abs()), r), m, w)
    {
      hide ApplyBootstrap;
      var failed := r.(outbound := r.outbound + [Boot(BootstrapError)], close := true);
      if !w.parses || !m.Boot? {
        return failed;
      }
      var a := ApplyBootstrap(session, m.record, ClientRole);
      if a.Violation? {
        return failed;
      }
      session := a.state;
      if !m.record.ClientHello? {
        return r.(close := true);
      }
      if !w.helloOk {
        return failed;
      }
      var b := ApplyBootstrap(session, ServerHello, ServerRole);
      if b.Violation? {
        return r.(close := true);
      }
      session := b.state;
      helloSent := true;
      s := r.(outbound := r.outbound + [Boot(ServerHello)]);
    }

    method SendSnapshot(r: Reply, w: World) returns (s: Reply)
      modifies this
      ensures GateTurn(Abs(), s) == PushSnapshot(GateTurn(old(Abs()), r), w)
    {
      hide PushControl;
      var ok;
      if !w.graphOk {
        s, ok := SendControl(r, ErrorMessage(0, None), w);
        return s.(close := true);
      }
      s, ok := SendControl(r, GraphSnapshot(1), w);
      if ok {
        graphGeneration := Some(1);
      }
    }

    method SendDelta(r: Reply, w: World) returns (s: Reply)
      modifies this
      ensures GateTurn(Abs(), s) == PushDelta(GateTurn(old(Abs()), r), w)
    {
      hide PushControl;
      if graphGeneration.None? {
        return r;
      }
      var generation := graphGeneration.value + 1;
      var ok;
      s, ok := SendControl(r, GraphDelta(graphGeneration.value, generation), w);
      if ok {
        graphGeneration := Some(generation);
      }
    }

    /** `open_channel`. */
    method Open(r: Reply, ch: nat, kind: Kind, qos: seq<Entry>, asked: Option<nat>, w: World) returns (s: Reply)
      modifies this
      ensures GateTurn(Abs(), s) == OpenTheChannel(GateTurn(old(Abs()), r), ch, kind, qos, asked, w)
    {
      hide PushControl, PushDelta, TakeAll, ResolveEffective;
      var ok;
      if !w.serves || !w.created {
        s, ok := SendControl(r, ChannelReady(ch, 3, None), w);
        return;
      }
      var requested := FromWire(qos);
      var effective := ResolveEffective(requested);
      channels := channels[ch := NewRuntime(kind, effective, asked)];
      s, ok := SendControl(r, ReadyFor(ch, kind, effective), w);
      if !ok {
        channels := channels - {ch};
        return;
      }
      if w.graphOk && w.hasEndpoint {
        s := SendDelta(s, w);
      }
    }

    method ReceiveControl(r: Reply, msg: Control, fx: Effects, w: World) returns (s: Reply)
      modifies this
      ensures GateTurn(Abs(), s) == HandleControl(GateTurn(old(Abs()), r), msg, fx, w)
    {
      hide PushControl, PushSnapshot, OpenTheChannel;
      var ok;
      s := r;
      match msg {
        case Authenticate =>
          if !w.authOk {
            s, ok := SendControl(r, ErrorMessage(0, None), w);
            return s.(close := true);
          }
          if !helloSent {
            return r.(close := true);
          }
          s, ok := SendControl(r, SessionReady, w);
          if ok {
            s := SendSnapshot(s, w);
          }
        case OpenChannel(_, kind, qos, asked) =>
          if fx.opening.Some? {
            s := Open(r, fx.opening.value, kind, qos, asked, w);
          }
        case CloseChannel(_) =>
          if fx.closing.Some? {
            channels := channels - {fx.closing.value};
          }
        case Heartbeat(_) =>
          heartbeatCounter := heartbeatCounter + 1;
          s, ok := SendControl(r, Heartbeat(heartbeatCounter), w);
        case ErrorMessage(_, _) =>
          if fx.sessionError {
            s := r.(close := true);
          }
        case _ =>
      }
    }

    /** `handle_publish_sample`. */
    method ReceivePublish(r: Reply, f: Frame, w: World) returns (s: Reply)
      modifies this
      ensures GateTurn(Abs(), s) == HandlePublish(GateTurn(old(Abs()), r), f, w)
    {
      hide PushControl, FailSession;
      var ch := f.channelId;
      if ch !in channels {
        return r.(close := true);
      }
      var runtime := channels[ch];
      if f.reliable != runtime.reliable {
        s := Fail(r, RosReliableIffEffective, w);
        return;
      }
      if f.retained && !runtime.transientLocal {
        s := Fail(r, RetainedNeedsTransientLocal, w);
        return;
      }
      s := r;
      if runtime.reliable {
        if f.sequence != runtime.seqIn {
          s := Fail(r, ReliableSequenceMismatch, w);
          return;
        }
        channels := channels[ch := runtime.(seqIn := runtime.seqIn + 1)];
      } else if f.sequence >= runtime.seqIn {
        if f.sequence > runtime.seqIn {
          s := s.(notes := s.notes + [SequenceGap(ch)]);
        }
        channels := channels[ch := runtime.(seqIn := f.sequence + 1)];
      } else {
        return r.(notes := r.notes + [StaleSequence(ch)]);
      }
      if !f.payload.AppPayload? {
        return s.(close := true);
      }
      s := s.(notes := s.notes + [Admitted(ch, f.sequence)]);
      if !w.accepts {
        var ok;
        s, ok := SendControl(s, ErrorMessage(1, Some(ch)), w);
      }
    }

    method Reply1(r: Reply, ch: nat, op: Opcode, id: OperationId, w: World) returns (s: Reply)
      requires ch in channels
      modifies this
      ensures GateTurn(Abs(), s) == Respond(GateTurn(old(Abs()), r), ch, op, id, w)
    {
      hide PushApp;
      var sequence := Expected(channels[ch].opSeqOut, id);
      channels := channels[ch := TakeOpOut(channels[ch], id)];
      s := SendApp(r, OperationFrame(op, ch, sequence, id, w.payloadLen), w);
    }

    /** `handle_service_frame`, `handle_action_frame`. */
    method ReceiveOperation(r: Reply, f: Frame, w: World) returns (s: Reply)
      modifies this
      ensures GateTurn(Abs(), s) == HandleOperation(GateTurn(old(Abs()), r), f, w)
    {
      hide PushControl, FailSession, Respond;
      var ch := f.channelId;
      if ch !in channels {
        return r.(close := true);
      }
      if f.operationId.None? {
        s := Fail(r, MissingOperationId, w);
        return;
      }
      var runtime, id := channels[ch], f.operationId.value;
      var expected := Expected(runtime.opSeqIn, id);
      if f.sequence != expected {
        channels := channels[ch := runtime.(opSeqIn := runtime.opSeqIn[id := expected])];
        s := Fail(r, OperationSequenceMismatch, w);
        return;
      }
      channels := channels[ch := runtime.(opSeqIn := runtime.opSeqIn[id := f.sequence + 1])];
      if !f.payload.AppPayload? {
        return r.(close := true);
      }
      s := r.(notes := r.notes + [OperationAdmitted(ch, id, f.sequence)]);
      var ok;
      if runtime.kind.ServiceClient? && f.opcode.ServiceRequest? {
        if w.accepts {
          s := Reply1(s, ch, ServiceResponse, id, w);
        } else {
          s, ok := SendControl(s, ErrorMessage(1, Some(ch)), w);
        }
      } else if runtime.kind.ActionClient? && f.opcode.ActionGoal? {
        if w.accepts {
          s := Reply1(s, ch, ActionResult, id, w);
        } else {
          s, ok := SendControl(s, ErrorMessage(1, Some(ch)), w);
        }
      } else if Forwards(runtime.kind, f.opcode) && !w.accepts {
        s, ok := SendControl(s, ErrorMessage(1, Some(ch)), w);
      }
    }

    method ReceiveFrame(r: Reply, m: Wire, w: World) returns (s: Reply)
      modifies this
      ensures GateTurn(Abs(), s) == HandleFrame(GateTurn(old(Abs()), r), m, w)
    {
      hide ApplyFrame, FailSession, HandlePublish, HandleOperation, HandleControl;
      if !w.parses || !m.Framed? {
        s := Fail(r, ParseRejected, w);
        return;
      }
      var f := m.frame;
      match ApplyFrame(session, f, ClientRole) {
        case Violation =>
          s := Fail(r, SessionRejected, w);
        case Accepted(next, fx) =>
          session := next;
          if f.opcode.ControlCbor? {
            if f.sequence != controlSeqIn {
              s := Fail(r, ControlSequenceMismatch, w);
              return;
            }
            controlSeqIn := controlSeqIn + 1;
            if !f.payload.ControlPayload? {
              return r.(close := true);
            }
            s := ReceiveControl(r, f.payload.msg, fx, w);
          } else if f.opcode.RosSample? {
            s := ReceivePublish(r, f, w);
          } else if f.opcode.Media? {
            s := r;
          } else {
            s := ReceiveOperation(r, f, w);
          }
      }
    }

    method Receive(m: Wire, w: World) returns (s: Reply)
      modifies this
      ensures GateTurn(Abs(), s) == HandleInbound(old(Abs()), m, w)
    {
      hide HandleBootstrap, HandleFrame;
      if session.phase.IsTerminal() {
        return NO_REPLY.(close := true);
      }
      if !session.phase.InSelectedPlane() {
        s := ReceiveBootstrap(NO_REPLY, m, w);
      } else {
        s := ReceiveFrame(NO_REPLY, m, w);
      }
    }

    /** `push_service_request`, `push_action_inbound`. */
    method Request(ch: nat, op: OperationCode, id: OperationId, w: World) returns (s: Reply)
      modifies this
      ensures GateTurn(Abs(), s) == PushRequest(old(Abs()), ch, op, id, w)
    {
      hide Respond;
      if ch !in channels {
        return NO_REPLY;
      }
      if channels[ch].kind != (if op.ServiceRequest? then ServiceServer else ActionServer) {
        return NO_REPLY;
      }
      s := Reply1(NO_REPLY, ch, op, id, w);
    }

    /** `frame_sample`: stamps the sequence only into a frame that can be sent. */
    method StampSample(ch: nat, buf: seq<byte>) returns (frame: Option<seq<byte>>)
      requires FRAME_HEADER_LENGTH <= |buf|
      modifies this`channels
      ensures frame == FrameSample(old(Abs()), ch, buf)
      ensures Abs() == if frame.Some? then Framed1(old(Abs()), ch) else old(Abs())
    {
      hide SampleHeader;
      if ch !in channels || !channels[ch].kind.TopicSubscribe? {
        return None;
      }
      var payloadLen := |buf| - FRAME_HEADER_LENGTH;
      if payloadLen > MAX_PAYLOAD {
        return None;
      }
      frame := Some(SampleHeader(ch, channels[ch], payloadLen) + buf[FRAME_HEADER_LENGTH..]);
      channels := channels[ch := channels[ch].(seqOut := channels[ch].seqOut + 1)];
    }
  }

  // ---------------------------------------------------------------- the connection loop

  /** The connection between turns of the loop: gateway state, everything sent so far, and
      whether the loop still runs. The write queue is empty at these points. */
  datatype Conn = Conn(gate: Gate, wire: seq<Wire>, live: bool)

  /** One turn of the `select` loop. */
  datatype Turn =
    | Inbound(message: Wire, world: World)
    | Sample(channelId: nat, buf: seq<byte>)
    | RosRequest(channelId: nat, opcode: OperationCode, id: OperationId, world: World)

  function Sent(c: Conn, t: GateTurn): Conn {
    Conn(t.g, c.wire + t.r.outbound, !t.r.close)
  }

  /** Admission of one subscription sample to an empty queue followed by a flush: a frame
      larger than the whole byte budget is lost, after it was numbered if best effort and
      before if reliable; any other frame is sent at once. */
  function SampleStep(c: Conn, maxBytes: nat, ch: nat, buf: seq<byte>): Conn
    requires FRAME_HEADER_LENGTH <= |buf|
  {
    var frame := FrameSample(c.gate, ch, buf);
    if frame.None? then c
    else if |buf| <= maxBytes then Conn(Framed1(c.gate, ch), c.wire + [RawSample(frame.value)], c.live)
    else if c.gate.channels[ch].reliable then c
    else c.(gate := Framed1(c.gate, ch))
  }

  function ConnStep(c: Conn, maxBytes: nat, t: Turn): Conn
    requires t.Sample? ==> FRAME_HEADER_LENGTH <= |t.buf|
  {
    if !c.live then c
    else
      match t
      case Inbound(m, w) => Sent(c, HandleInbound(c.gate, m, w))
      case Sample(ch, buf) => SampleStep(c, maxBytes, ch, buf)
      case RosRequest(ch, op, id, w) => Sent(c, PushRequest(c.gate, ch, op, id, w))
  }

  const NEW_CONN := Conn(NEW_GATE, [], true)

  function Raw(frames: seq<WriteQueue.Frame>): (ws: seq<Wire>)
    ensures |ws| == |frames|
  {
    if frames == [] then [] else [RawSample(frames[0].bytes)] + Raw(frames[1..])
  }

  class Connection {
    const state: ConnState
    const queue: WriteQueue.SampleWriteQueue
    var wire: seq<Wire>
    var live: bool

    ghost predicate Valid()
      reads this, queue
    {
      queue.Valid() && queue.items == []
    }

    function Abs(): Conn
      reads this, state
    {
      Conn(state.Abs(), wire, live)
    }

    constructor (maxSamples: nat, maxBytes: nat)
      ensures Valid() && Abs() == NEW_CONN && fresh(state) && fresh(queue)
      ensures queue.budget.maxBytes == if maxBytes > 1 then maxBytes else 1
    {
      state := new ConnState();
      queue := new WriteQueue.SampleWriteQueue(maxSamples, maxBytes);
      wire, live := [], true;
    }

    /** `flush_write_queue`: everything queued goes out, in order. */
    method FlushWriteQueue()
      requires queue.Valid()
      modifies this`wire, queue
      ensures Valid() && wire == old(wire) + Raw(old(queue.items))
    {
      ghost var before, all := wire, queue.items;
      assert before + Raw(all) == wire + Raw(queue.items);
      var frame := queue.PopFront();
      while frame.Some?
        invariant queue.Valid()
        invariant before + Raw(all) == wire + match frame { case Some(f) => [RawSample(f)] + Raw(queue.items) case None => [] }
        invariant frame.None? ==> queue.items == []
        decreases |queue.items| + if frame.Some? then 1 else 0
      {
        wire := wire + [RawSample(frame.value)];
        queue.RecordDelivered();
        frame := queue.PopFront();
      }
    }

    /** `admit_sample`. */
    method AdmitSample(ch: nat, buf: seq<byte>)
      requires Valid() && FRAME_HEADER_LENGTH <= |buf|
      modifies state, queue
      ensures queue.Valid()
      ensures var s := SampleStep(old(Abs()), queue.budget.maxBytes, ch, buf);
              state.Abs() == s.gate && wire + Raw(queue.items) == s.wire
    {
      hide FrameSample;
      FramingNeeds(state.Abs(), ch, buf);
      assert Raw([]) == [] && wire + [] == wire;
      if ch !in state.channels || !state.channels[ch].kind.TopicSubscribe? {
        return;
      }
      var reliable := state.channels[ch].reliable;
      WriteQueue.EmptyQueueKeepsFrame(queue.budget, |buf|);
      if reliable {
        var fits := queue.TryReserveReliable(|buf|);
        if !fits {
          return;
        }
        var frame := state.StampSample(ch, buf);
        if frame.None? {
          return;
        }
        queue.PushReliable(ch, frame.value);
      } else {
        var frame := state.StampSample(ch, buf);
        if frame.None? {
          return;
        }
        queue.AdmitBestEffort(ch, frame.value);
      }
    }

    method Step(t: Turn)
      requires Valid() && (t.Sample? ==> FRAME_HEADER_LENGTH <= |t.buf|)
      modifies this, state, queue
      ensures Valid() && Abs() == ConnStep(old(Abs()), queue.budget.maxBytes, t)
    {
      hide HandleInbound, PushRequest, SampleStep;
      if !live {
        return;
      }
      assert Raw([]) == [];
      match t {
        case Inbound(m, w) =>
          var r := state.Receive(m, w);
          wire := wire + r.outbound;
          live := !r.close;
          if live {
            FlushWriteQueue();
          }
        case Sample(ch, buf) =>
          AdmitSample(ch, buf);
          SampleKeepsLive(old(Abs()), queue.budget.maxBytes, ch, buf);
          FlushWriteQueue();
        case RosRequest(ch, op, id, w) =>
          var r := state.Request(ch, op, id, w);
          wire := wire + r.outbound;
          live := !r.close;
      }
    }
  }

  lemma {:induction false} FramingNeeds(g: Gate, ch: nat, buf: seq<byte>)
    requires FRAME_HEADER_LENGTH <= |buf|
    ensures FrameSample(g, ch, buf).Some? ==>
      ch in g.channels && g.channels[ch].kind.TopicSubscribe? && |FrameSample(g, ch, buf).value| == |buf|
  {
    hide SampleHeader;
  }

  lemma {:induction false} SampleKeepsLive(c: Conn, maxBytes: nat, ch: nat, buf: seq<byte>)
    requires FRAME_HEADER_LENGTH <= |buf|
    ensures SampleStep(c, maxBytes, ch, buf).live == c.live
  {
    hide FrameSample;
  }
}
