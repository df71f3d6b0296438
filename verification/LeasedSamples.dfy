/** Which samples a client hands out under a lease, in which order. */
module LeasedSamples {
  import opened ByteOrder
  import opened CdrLimits
  import opened Session
  import opened Client
  import opened LinkClient

  /** The sequence numbers of the samples leased on `ch`, in order. */
  function LeasedOn(events: seq<AppEvent>, ch: nat): seq<nat> {
    if events == [] then []
    else LeasedIn(events[0], ch) + LeasedOn(events[1..], ch)
  }

  function LeasedIn(e: AppEvent, ch: nat): seq<nat> {
    if e.Leased? && e.opcode.RosSample? && e.channelId == ch then [e.sequence] else []
  }

  lemma {:induction false} LeasedJoin(a: seq<AppEvent>, b: seq<AppEvent>, ch: nat)
    ensures LeasedOn(a + b, ch) == LeasedOn(a, ch) + LeasedOn(b, ch)
    decreases |a|
  {
    hide LeasedIn;
    if a == [] {
      assert a + b == b;
    } else {
      assert (a + b)[1..] == a[1..] + b;
      LeasedJoin(a[1..], b, ch);
    }
  }

  lemma {:induction false} LeasedOne(events: seq<AppEvent>, e: AppEvent, ch: nat)
    ensures LeasedOn(events + [e], ch) == LeasedOn(events, ch) + LeasedIn(e, ch)
  {
    hide LeasedIn;
    LeasedJoin(events, [e], ch);
    assert [e][1..] == [] && LeasedIn(e, ch) + [] == LeasedIn(e, ch);
  }

  /** Nothing was leased on the way. */
  ghost predicate Silent(t: Turn, u: Turn, ch: nat) {
    LeasedOn(u.o.events, ch) == LeasedOn(t.o.events, ch)
  }

  lemma {:induction false} TellSilent(t: Turn, e: AppEvent, ch: nat)
    requires !e.Leased?
    ensures Silent(t, Tell(t, e), ch)
  {
    hide Tell, LeasedOn;
    LeasedOne(t.o.events, e, ch);
    assert LeasedOn(t.o.events, ch) + [] == LeasedOn(t.o.events, ch);
  }

  lemma {:induction false} FailSilent(t: Turn, reason: Reason, ch: nat)
    ensures Silent(t, Fail(t, reason), ch)
  {
    hide Tell, LeasedOn;
    var c := t.(c := t.c.(closed := true));
    TellSilent(c, ErrorRaised(reason), ch);
    TellSilent(Tell(c, ErrorRaised(reason)), ClosedNow, ch);
  }

  lemma {:induction false} ControlSilent(t: Turn, msg: Control, encodes: bool)
    ensures PushControl(t, msg, encodes).turn.o.events == t.o.events
    ensures PushControl(t, msg, encodes).turn.c.closed == t.c.closed
  {
    hide ApplyFrame;
  }

  lemma {:induction false} TimerSilent(t: Turn, now: nat, encodes: bool)
    ensures HandleTimer(t, now, encodes).o.events == t.o.events
  {
    hide PushControl;
    var u := t.(c := t.c.(lastTimer := Some(now)));
    var v := u.(c := u.c.(heartbeats := u.c.heartbeats + 1));
    ControlSilent(v, Heartbeat(v.c.heartbeats), encodes);
  }

  lemma {:induction false} SendSilent(t: Turn, f: Frame, frames: bool)
    ensures SendData(t, f, frames).turn.o.events == t.o.events
  {
    hide ApplyFrame;
  }

  lemma {:induction false} SampleSilent(t: Turn, target: nat, payloadLen: nat, frames: bool, ch: nat)
    ensures Silent(t, SendSamplePayload(t, target, payloadLen, frames), ch)
  {
    hide Tell, SendData, LeasedOn;
    TellSilent(t, SendFailed(target), ch);
    if target in t.c.publishes {
      var p := t.c.publishes[target];
      SendSilent(t.(c := t.c.(publishes := t.c.publishes[target := p.(seqOut := p.seqOut + 1)])), SampleFrame(target, p, payloadLen), frames);
    }
  }

  lemma {:induction false} OperationSilent(t: Turn, target: nat, op: OperationCode, id: OperationId, payloadLen: nat, frames: bool, ch: nat)
    ensures Silent(t, SendOperationFrame(t, target, op, id, payloadLen, frames), ch)
  {
    hide Tell, SendData, LeasedOn;
    TellSilent(t, SendFailed(target), ch);
    if target in t.c.services || target in t.c.actions {
      var sequence := if target in t.c.services then t.c.services[target].nextSeq else t.c.actions[target].nextSeq;
      var took :=
        if target in t.c.services then t.(c := t.c.(services := t.c.services[target := NextOp(t.c.services[target], id)]))
        else t.(c := t.c.(actions := t.c.actions[target := NextOp(t.c.actions[target], id)]));
      TellSilent(took, SendFailed(target), ch);
      SendSilent(took, Frame(op, SentReliable(op), false, target, sequence, OPERATION_ID_AREA, payloadLen, Some(id), AppPayload), frames);
    }
  }

  lemma {:induction false} CommandSilent(t: Turn, cmd: Command, ch: nat)
    ensures Silent(t, HandleCommand(t, cmd), ch)
  {
    hide Tell, Fail, PushControl, SendSamplePayload, SendOperationFrame, LeasedOn, ApplyBootstrap, Forget;
    match cmd
    case Start(_) => FailSilent(t.(c := t.c.(started := true)), StartFailed, ch);
    case Login(encodes) =>
      ControlSilent(t, Authenticate, encodes);
      FailSilent(t, EncodeFailed, ch);
    case OpenCommand(target, kind, reliability, depth, _, encodes) =>
      ControlSilent(t, OpenRequest(target, kind, RequestedReliability(kind, reliability), depth), encodes);
      FailSilent(t, EncodeFailed, ch);
      TellSilent(t, OpenFailed(kind, target), ch);
    case SendSample(target, payloadLen, _, frames) =>
      SampleSilent(t, target, payloadLen, frames, ch);
      TellSilent(t, SendFailed(target), ch);
    case SendOperation(target, op, id, payloadLen, _, frames) =>
      OperationSilent(t, target, op, id, payloadLen, frames, ch);
      TellSilent(t, SendFailed(target), ch);
    case Unsubscribe(target, encodes) =>
      ControlSilent(t, CloseChannel(target), encodes);
      FailSilent(t, EncodeFailed, ch);
    case Shutdown => TellSilent(t.(c := t.c.(closed := true)), ClosedNow, ch);
  }

  lemma {:induction false} LocalSilent(t: Turn, e: HostEvent, ch: nat)
    requires !e.WsBytes?
    ensures Silent(t, HandleEvent(t, e), ch)
  {
    hide HandleTimer, HandleCommand, Release, LeasedOn;
    match e
    case Timer(now, encodes) => TimerSilent(t, now, encodes);
    case Issue(cmd) => CommandSilent(t, cmd, ch);
    case ReleaseLease(_) =>
  }

  // ---------------------------------------------------------------- inbound bytes

  lemma {:induction false} BootstrapSilent(t: Turn, parsed: Parsed, ch: nat)
    ensures Silent(t, HandleBootstrap(t, parsed), ch)
    ensures !HandleBootstrap(t, parsed).c.closed && !t.c.closed ==> parsed.BootRecord?
  {
    hide Tell, Fail, LeasedOn, ApplyBootstrap;
    FailSilent(t, Client.ParseRejected, ch);
    FailSilent(t, Client.SessionRejected, ch);
    if parsed.BootRecord? {
      match ApplyBootstrap(t.c.session, parsed.record, ServerRole)
      case Violation =>
      case Accepted(s, _) =>
        var u := t.(c := t.c.(session := s));
        FailSilent(u, PeerBootstrapFailed, ch);
        TellSilent(u, BootstrapComplete, ch);
    }
  }

  lemma {:induction false} ControlMessageSilent(t: Turn, msg: Control, fx: Effects, encodes: bool, ch: nat)
    ensures Silent(t, HandleControl(t, msg, fx, encodes), ch)
  {
    hide Tell, Fail, PushControl, LeasedOn;
    match msg
    case SessionReady => TellSilent(t, SessionIsReady, ch);
    case ChannelReady(target, _, effective) => ReadySilent(t, target, effective, ch);
    case Heartbeat(counter) =>
      TellSilent(t, HeartbeatSeen(counter), ch);
      var u := Tell(t, HeartbeatSeen(counter));
      var v := u.(c := u.c.(heartbeats := u.c.heartbeats + 1));
      ControlSilent(v, Heartbeat(v.c.heartbeats), encodes);
    case GraphSnapshot(_) =>
      if fx.snapshot.Some? {
        TellSilent(t, SnapshotSeen(fx.snapshot.value), ch);
      }
    case GraphDelta(_, _) =>
      if fx.delta.Some? {
        TellSilent(t, DeltaSeen(fx.delta.value), ch);
      }
    case ErrorMessage(_, _) =>
      FailSilent(t, PeerError, ch);
      if fx.cancelled.Some? {
        TellSilent(t, OperationCancelled(fx.cancelled.value), ch);
      }
      if fx.failing.Some? {
        ReadySilent(t, fx.failing.value, None, ch);
      }
    case _ =>
  }

  lemma {:induction false} ReadySilent(t: Turn, target: nat, effective: Option<nat>, ch: nat)
    ensures Silent(t, ChannelIsReady(t, target, effective), ch) && Silent(t, OpenDidFail(t, target), ch)
  {
    hide LeasedOn;
    var u, v := ChannelIsReady(t, target, effective), OpenDidFail(t, target);
    LeasedOne(t.o.events, u.o.events[|t.o.events|], ch);
    LeasedOne(t.o.events, v.o.events[|t.o.events|], ch);
    assert LeasedOn(t.o.events, ch) + [] == LeasedOn(t.o.events, ch);
  }

  /** Data is handed out once, as what it says it is, or the engine closes; only a cancel
      and a control payload are dropped. */
  lemma {:induction false} DataLeases(t: Turn, id: nat, f: Frame, declared: nat, ch: nat)
    requires !t.c.closed && f.payload.AppPayload?
    ensures var u := HandleData(t, id, f, declared);
            LeasedOn(u.o.events, ch) == LeasedOn(t.o.events, ch)
              + (if !u.c.closed && f.opcode.RosSample? && f.channelId == ch then [f.sequence] else [])
  {
    hide Tell, Fail, Grant, LeasedOn;
    var u := HandleData(t, id, f, declared);
    FailSilent(t, PayloadOutOfBounds, ch);
    FailSilent(t, Client.MissingOperationId, ch);
    assert LeasedOn(t.o.events, ch) + [] == LeasedOn(t.o.events, ch);
    if !u.c.closed && !f.opcode.ActionCancel? {
      LeasedOne(t.o.events, u.o.events[|t.o.events|], ch);
    }
  }

  lemma {:induction false} OtherDataSilent(t: Turn, id: nat, f: Frame, declared: nat, ch: nat)
    requires !t.c.closed && !f.opcode.RosSample?
    ensures Silent(t, HandleData(t, id, f, declared), ch)
  {
    hide HandleData, LeasedOn;
    if f.payload.AppPayload? {
      DataLeases(t, id, f, declared, ch);
      assert LeasedOn(t.o.events, ch) + [] == LeasedOn(t.o.events, ch);
    } else {
      ControlPayloadDropped(t, id, f, declared);
    }
  }

  lemma {:induction false} ControlPayloadDropped(t: Turn, id: nat, f: Frame, declared: nat)
    requires f.payload.ControlPayload?
    ensures HandleData(t, id, f, declared) == t
  {
  }

  /** The sample on `ch` a message is, if it is one. */
  function Arrival(w: Wire, ch: nat): seq<nat> {
    if w.RawSample? && |w.bytes| >= FRAME_HEADER_LENGTH && ChannelField(w.bytes) == ch then [SequenceField(w.bytes)] else []
  }

  lemma {:induction false} FrameLeases(t: Turn, id: nat, declared: nat, parsed: Parsed, encodes: bool, w: Wire, ch: nat)
    requires !t.c.closed && ReadsAs(parsed, w) && !(w.Framed? && w.frame.opcode.RosSample?)
    ensures var u := HandleFrame(t, id, declared, parsed, encodes);
            LeasedOn(u.o.events, ch) == LeasedOn(t.o.events, ch) + if u.c.closed then [] else Arrival(w, ch)
  {
    hide HandleControl, HandleData, ApplyFrame, Tell, Fail, LeasedOn, Decode;
    assert LeasedOn(t.o.events, ch) + [] == LeasedOn(t.o.events, ch);
    FailSilent(t, Client.ParseRejected, ch);
    FailSilent(t, Client.SessionRejected, ch);
    if parsed.FrameParsed? && ApplyFrame(t.c.session, parsed.frame, ServerRole).Accepted? {
      var f := parsed.frame;
      var a := ApplyFrame(t.c.session, f, ServerRole);
      var u := t.(c := t.c.(session := a.state));
      if f.opcode.ControlCbor? {
        FailSilent(u, Client.ControlSequenceMismatch, ch);
        var v := u.(c := u.c.(controlIn := u.c.controlIn + 1));
        FailSilent(v, MissingControlPayload, ch);
        if f.payload.ControlPayload? {
          ControlMessageSilent(v, f.payload.msg, a.effects, encodes, ch);
        }
      } else if w.RawSample? {
        DataLeases(u, id, f, declared, ch);
      } else {
        OtherDataSilent(u, id, f, declared, ch);
      }
    }
  }

  /** Taking a message off the wire leases the sample it is, if it is one, unless the engine
      closes over it. */
  lemma {:induction false} DeliveryLeases(t: Turn, e: HostEvent, w: Wire, ch: nat)
    requires e.WsBytes? && !t.c.closed && ReadsAs(e.parsed, w) && !(w.Framed? && w.frame.opcode.RosSample?)
    ensures var u := HandleEvent(t, e);
            LeasedOn(u.o.events, ch) == LeasedOn(t.o.events, ch) + if u.c.closed then [] else Arrival(w, ch)
  {
    hide HandleBootstrap, HandleFrame, Ingest, FinishIngest, DeclaredLen, LeasedOn, Decode;
    var (slab, id) := Ingest(t.c.slab, e.bufferId, t.c.host, e.bytes);
    var s := t.(c := t.c.(slab := slab));
    if !t.c.session.phase.InSelectedPlane() {
      BootstrapSilent(s, e.parsed, ch);
      assert LeasedOn(t.o.events, ch) + [] == LeasedOn(t.o.events, ch);
    } else {
      FrameLeases(s, id, DeclaredLen(t.c.host, e.bytes), e.parsed, e.replyEncodes, w, ch);
    }
  }
}
