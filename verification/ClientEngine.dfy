/** The client engine as a class: every method does to the fields what the turn functions
    of `Client` do to the abstract state. */
module ClientEngine {
  import opened ByteOrder
  import opened CdrLimits
  import opened Session
  import opened Client

  class ClientEngine {
    const host: Host
    var session: State
    var controlSeqOut: nat
    var controlSeqIn: nat
    var nextBufferId: nat
    var nextLeaseId: nat
    var retained: map<nat, Retained>
    var leases: map<nat, Lease>
    var pendingOpens: map<nat, PendingOpen>
    var activeSubscribes: map<nat, PendingOpen>
    var activePublishes: map<nat, Publication>
    var activeServices: map<nat, OpStream>
    var activeActions: map<nat, OpStream>
    var started: bool
    var closed: bool
    var lastTimer: Option<nat>
    var nextHeartbeat: Option<nat>
    var heartbeatCounter: nat

    function SlabOf(): Slab
      reads this
    {
      Slab(nextBufferId, nextLeaseId, retained, leases)
    }

    function Abs(): Engine
      reads this
    {
      Engine(host, SlabOf(), session, controlSeqOut, controlSeqIn, pendingOpens, activeSubscribes, activePublishes,
             activeServices, activeActions, started, closed, lastTimer, nextHeartbeat, heartbeatCounter)
    }

    constructor (h: Host)
      ensures Abs() == NewEngine(h)
    {
      host, session, controlSeqOut, controlSeqIn := h, FRESH, 0, 0;
      nextBufferId, nextLeaseId, retained, leases := 1, 1, map[], map[];
      pendingOpens, activeSubscribes, activePublishes, activeServices, activeActions := map[], map[], map[], map[], map[];
      started, closed, lastTimer, nextHeartbeat, heartbeatCounter := false, false, None, None, 0;
    }

    // -------------------------------------------------------------- outbound

    method FailWith(o: Outcome, reason: Reason) returns (r: Outcome)
      modifies this`closed
      ensures Turn(Abs(), r) == Fail(Turn(old(Abs()), o), reason)
    {
      closed := true;
      r := o.(events := o.events + [ErrorRaised(reason)]);
      r := r.(events := r.events + [ClosedNow]);
    }

    method PushOutboundMessage(o: Outcome, m: Wire) returns (r: Outcome)
      modifies this`nextBufferId
      ensures Turn(Abs(), r) == PushOutbound(Turn(old(Abs()), o), m)
    {
      if |o.outbound| >= MAX_OUTBOUND_PER_POLL {
        return o;
      }
      var bufferId := nextBufferId;
      nextBufferId := Bump(nextBufferId);
      r := o.(outbound := o.outbound + [Outbound(bufferId, m)]);
    }

    method PushControlMessage(o: Outcome, msg: Control, encodes: bool) returns (r: Outcome, ok: bool)
      modifies this
      ensures Pushed(Turn(Abs(), r), ok) == PushControl(Turn(old(Abs()), o), msg, encodes)
    {
      hide ApplyFrame;
      if !encodes {
        return o, false;
      }
      var f := ControlFrame(controlSeqOut, msg);
      match ApplyFrame(session, f, ClientRole) {
        case Violation =>
          return o, false;
        case Accepted(s, _) =>
          session := s;
          controlSeqOut := controlSeqOut + 1;
          r := PushOutboundMessage(o, Framed(f));
          return r, true;
      }
    }

    /** `send_sample_payload`. */
    method SendSampleData(o: Outcome, ch: nat, payloadLen: nat, frames: bool) returns (r: Outcome)
      modifies this
      ensures Turn(Abs(), r) == SendSamplePayload(Turn(old(Abs()), o), ch, payloadLen, frames)
    {
      hide ApplyFrame;
      if ch !in activePublishes {
        return o.(events := o.events + [SendFailed(ch)]);
      }
      var p := activePublishes[ch];
      var f := SampleFrame(ch, p, payloadLen);
      var a := ApplyFrame(session, f, ClientRole);
      if !frames || a.Violation? {
        return o.(events := o.events + [SendFailed(ch)]);
      }
      session := a.state;
      activePublishes := activePublishes[ch := p.(seqOut := p.seqOut + 1)];
      r := PushOutboundMessage(o, Framed(f));
    }

    /** `send_service_action_frame`. */
    method SendOperationData(o: Outcome, ch: nat, op: OperationCode, id: OperationId, payloadLen: nat, frames: bool) returns (r: Outcome)
      modifies this
      ensures Turn(Abs(), r) == SendOperationFrame(Turn(old(Abs()), o), ch, op, id, payloadLen, frames)
    {
      hide ApplyFrame, NextOp, SentReliable;
      var sequence := 0;
      if ch in activeServices {
        sequence := activeServices[ch].nextSeq;
        activeServices := activeServices[ch := NextOp(activeServices[ch], id)];
      } else if ch in activeActions {
        sequence := activeActions[ch].nextSeq;
        activeActions := activeActions[ch := NextOp(activeActions[ch], id)];
      } else {
        return o.(events := o.events + [SendFailed(ch)]);
      }
      var f := Frame(op, SentReliable(op), false, ch, sequence, OPERATION_ID_AREA, payloadLen, Some(id), AppPayload);
      var a := ApplyFrame(session, f, ClientRole);
      if !frames || a.Violation? {
        return o.(events := o.events + [SendFailed(ch)]);
      }
      session := a.state;
      r := PushOutboundMessage(o, Framed(f));
    }

    // -------------------------------------------------------------- commands

    method Execute(o: Outcome, cmd: Command) returns (r: Outcome)
      modifies this
      ensures Turn(Abs(), r) == HandleCommand(Turn(old(Abs()), o), cmd)
    {
      hide ApplyFrame, PushControl, SendSamplePayload, SendOperationFrame, PushOutbound, ApplyBootstrap;
      match cmd {
        case Start(encodes) =>
          r := Begin(o, encodes);
        case Login(encodes) =>
          var ok;
          r, ok := PushControlMessage(o, Authenticate, encodes);
          PushKeeps(Turn(old(Abs()), o), Authenticate, encodes);
          if !ok {
            r := FailWith(r, EncodeFailed);
          }
        case OpenCommand(ch, kind, reliability, depth, schemaKnown, encodes) =>
          r := OpenChannelCommand(o, ch, kind, reliability, depth, schemaKnown, encodes);
        case SendSample(ch, payloadLen, encoded, frames) =>
          if encoded {
            r := SendSampleData(o, ch, payloadLen, frames);
          } else {
            r := o.(events := o.events + [SendFailed(ch)]);
          }
        case SendOperation(ch, op, id, payloadLen, encoded, frames) =>
          if encoded {
            r := SendOperationData(o, ch, op, id, payloadLen, frames);
          } else {
            r := o.(events := o.events + [SendFailed(ch)]);
          }
        case Unsubscribe(ch, encodes) =>
          r := CloseChannelCommand(o, ch, encodes);
        case Shutdown =>
          closed := true;
          r := o.(events := o.events + [ClosedNow]);
      }
    }

    method Begin(o: Outcome, encodes: bool) returns (r: Outcome)
      modifies this
      ensures Turn(Abs(), r) == HandleCommand(Turn(old(Abs()), o), Start(encodes))
    {
      hide ApplyBootstrap, PushOutbound;
      if started {
        return o;
      }
      started := true;
      var a := ApplyBootstrap(session, ClientHello, ClientRole);
      if !encodes || a.Violation? {
        r := FailWith(o, StartFailed);
      } else {
        session := a.state;
        r := PushOutboundMessage(o, Boot(ClientHello));
      }
    }

    method OpenChannelCommand(o: Outcome, ch: nat, kind: Kind, reliability: byte, depth: nat, schemaKnown: bool, encodes: bool)
      returns (r: Outcome)
      modifies this
      ensures Turn(Abs(), r) == HandleCommand(Turn(old(Abs()), o), OpenCommand(ch, kind, reliability, depth, schemaKnown, encodes))
    {
      hide PushControl;
      if !schemaKnown {
        return o.(events := o.events + [OpenFailed(kind, ch)]);
      }
      var rel := RequestedReliability(kind, reliability);
      PushKeeps(Turn(Abs(), o), OpenRequest(ch, kind, rel, depth), encodes);
      var ok;
      r, ok := PushControlMessage(o, OpenRequest(ch, kind, rel, depth), encodes);
      if !ok {
        r := FailWith(r, EncodeFailed);
        return;
      }
      pendingOpens := pendingOpens[ch := PendingOpen(kind, rel)];
    }

    method CloseChannelCommand(o: Outcome, ch: nat, encodes: bool) returns (r: Outcome)
      modifies this
      ensures Turn(Abs(), r) == HandleCommand(Turn(old(Abs()), o), Unsubscribe(ch, encodes))
    {
      hide PushControl, Forget;
      PushKeeps(Turn(Abs(), o), CloseChannel(ch), encodes);
      var ok;
      r, ok := PushControlMessage(o, CloseChannel(ch), encodes);
      if !ok {
        r := FailWith(r, EncodeFailed);
        return;
      }
      ForgetChannel(ch);
    }

    method ForgetChannel(ch: nat)
      modifies this`pendingOpens, this`activeSubscribes, this`activePublishes, this`activeServices, this`activeActions
      ensures Abs() == Forget(old(Abs()), ch)
    {
      pendingOpens := pendingOpens - {ch};
      activeSubscribes := activeSubscribes - {ch};
      activePublishes := activePublishes - {ch};
      activeServices := activeServices - {ch};
      activeActions := activeActions - {ch};
    }

    // -------------------------------------------------------------- inbound

    method ReceiveBootstrap(o: Outcome, parsed: Parsed) returns (r: Outcome)
      modifies this
      ensures Turn(Abs(), r) == HandleBootstrap(Turn(old(Abs()), o), parsed)
    {
      hide ApplyBootstrap;
      if !parsed.BootRecord? {
        r := FailWith(o, ParseRejected);
        return;
      }
      match ApplyBootstrap(session, parsed.record, ServerRole) {
        case Violation =>
          r := FailWith(o, SessionRejected);
        case Accepted(s, fx) =>
          session := s;
          if fx.bootstrapFailed {
            r := FailWith(o, PeerBootstrapFailed);
          } else if fx.selectedPlane {
            r := o.(events := o.events + [BootstrapComplete]);
          } else {
            r := o;
          }
      }
    }

    method OpenSucceeded(o: Outcome, ch: nat, effective: Option<nat>) returns (r: Outcome)
      modifies this
      ensures Turn(Abs(), r) == ChannelIsReady(Turn(old(Abs()), o), ch, effective)
    {
      var p := PendingOpen(TopicSubscribe, 1);
      if ch in pendingOpens {
        p := pendingOpens[ch];
      }
      pendingOpens := pendingOpens - {ch};
      var rel := if effective.Some? then effective.value else p.reliability;
      match p.kind {
        case TopicSubscribe => activeSubscribes := activeSubscribes[ch := PendingOpen(p.kind, rel)];
        case TopicPublish => activePublishes := activePublishes[ch := Publication(rel != 2, 0)];
        case ServiceClient => activeServices := activeServices[ch := OpStream(0, map[])];
        case ServiceServer => activeServices := activeServices[ch := OpStream(0, map[])];
        case ActionClient => activeActions := activeActions[ch := OpStream(0, map[])];
        case ActionServer => activeActions := activeActions[ch := OpStream(0, map[])];
      }
      r := o.(events := o.events + [ChannelOpen(p.kind, ch, rel)]);
    }

    method OpenRefused(o: Outcome, ch: nat) returns (r: Outcome)
      modifies this`pendingOpens
      ensures Turn(Abs(), r) == OpenDidFail(Turn(old(Abs()), o), ch)
    {
      var kind := TopicSubscribe;
      if ch in pendingOpens {
        kind := pendingOpens[ch].kind;
      }
      pendingOpens := pendingOpens - {ch};
      r := o.(events := o.events + [OpenFailed(kind, ch)]);
    }

    method ReceiveControl(o: Outcome, msg: Control, fx: Effects, encodes: bool) returns (r: Outcome)
      modifies this
      ensures Turn(Abs(), r) == HandleControl(Turn(old(Abs()), o), msg, fx, encodes)
    {
      hide PushControl, ChannelIsReady;
      r := o;
      match msg {
        case SessionReady =>
          if fx.ready {
            r := o.(events := o.events + [SessionIsReady]);
            if lastTimer.Some? {
              nextHeartbeat := Some(lastTimer.value + HEARTBEAT_INTERVAL_MS);
            }
          }
        case ChannelReady(ch, result, effective) =>
          if result == 0 || result == 2 {
            r := OpenSucceeded(o, ch, effective);
          } else {
            r := OpenRefused(o, ch);
          }
        case Heartbeat(counter) =>
          r := o.(events := o.events + [HeartbeatSeen(counter)]);
          heartbeatCounter := heartbeatCounter + 1;
          var ok;
          r, ok := PushControlMessage(r, Heartbeat(heartbeatCounter), encodes);
        case GraphSnapshot(_) =>
          if fx.snapshot.Some? {
            r := o.(events := o.events + [SnapshotSeen(fx.snapshot.value)]);
          }
        case GraphDelta(_, _) =>
          if fx.delta.Some? {
            r := o.(events := o.events + [DeltaSeen(fx.delta.value)]);
          }
        case ErrorMessage(_, _) =>
          if fx.sessionError {
            r := FailWith(o, PeerError);
          } else if fx.cancelled.Some? {
            r := o.(events := o.events + [OperationCancelled(fx.cancelled.value)]);
          } else if fx.failing.Some? {
            r := OpenRefused(o, fx.failing.value);
          }
        case _ =>
      }
    }

    /** `handle_sample`, `handle_service_action`. */
    method ReceiveData(o: Outcome, id: nat, f: Frame, declared: nat) returns (r: Outcome)
      modifies this
      ensures Turn(Abs(), r) == HandleData(Turn(old(Abs()), o), id, f, declared)
    {
      if f.payload.ControlPayload? {
        return o;
      }
      var offset := FRAME_HEADER_LENGTH + f.extensionLen;
      if offset + f.payloadLen > host.Max() || offset + f.payloadLen > declared {
        r := FailWith(o, PayloadOutOfBounds);
        return;
      }
      if f.opcode.ActionCancel? {
        return o;
      }
      var opId := f.operationId;
      if IsOperation(f.opcode) && opId.None? {
        if !f.opcode.ActionStatus? {
          r := FailWith(o, MissingOperationId);
          return;
        }
        opId := Some(ZERO_ID);
      }
      var leaseId := nextLeaseId;
      nextLeaseId := Bump(nextLeaseId);
      if id in retained {
        retained := retained[id := retained[id].(leaseRefs := retained[id].leaseRefs + 1)];
      }
      leases := leases[leaseId := Lease(id, offset, f.payloadLen)];
      r := o.(events := o.events + [Leased(f.opcode, f.channelId, leaseId, f.sequence, opId)]);
    }

    method ReceiveFrame(o: Outcome, id: nat, declared: nat, parsed: Parsed, encodes: bool) returns (r: Outcome)
      modifies this
      ensures Turn(Abs(), r) == HandleFrame(Turn(old(Abs()), o), id, declared, parsed, encodes)
    {
      hide ApplyFrame, HandleControl, HandleData;
      if !parsed.FrameParsed? {
        r := FailWith(o, ParseRejected);
        return;
      }
      var f := parsed.frame;
      match ApplyFrame(session, f, ServerRole) {
        case Violation =>
          r := FailWith(o, SessionRejected);
        case Accepted(s, fx) =>
          session := s;
          if f.opcode.ControlCbor? {
            if f.sequence != controlSeqIn {
              r := FailWith(o, ControlSequenceMismatch);
              return;
            }
            controlSeqIn := controlSeqIn + 1;
            if !f.payload.ControlPayload? {
              r := FailWith(o, MissingControlPayload);
              return;
            }
            r := ReceiveControl(o, f.payload.msg, fx, encodes);
          } else if f.opcode.Media? {
            r := o;
          } else {
            r := ReceiveData(o, id, f, declared);
          }
      }
    }

    method Retain(bufferId: nat, bytes: seq<byte>) returns (id: nat)
      modifies this
      ensures Abs() == old(Abs()).(slab := Ingest(old(SlabOf()), bufferId, host, bytes).0)
      ensures id == Ingest(old(SlabOf()), bufferId, host, bytes).1
    {
      hide DeclaredLen;
      var buffer := Retained(bytes, DeclaredLen(host, bytes), 0, false);
      if bufferId == 0 {
        id := nextBufferId;
        nextBufferId := Bump(nextBufferId);
        retained := retained[id := buffer];
      } else {
        retained := retained[bufferId := buffer];
        nextBufferId := if nextBufferId > Bump(bufferId) then nextBufferId else Bump(bufferId);
        id := bufferId;
      }
    }

    method ReceiveBytes(o: Outcome, bufferId: nat, bytes: seq<byte>, parsed: Parsed, encodes: bool) returns (r: Outcome)
      modifies this
      ensures Turn(Abs(), r) == HandleWsBytes(Turn(old(Abs()), o), bufferId, bytes, parsed, encodes)
    {
      hide DeclaredLen, HandleBootstrap, HandleFrame, Ingest;
      var id := Retain(bufferId, bytes);
      if !session.phase.InSelectedPlane() {
        r := ReceiveBootstrap(o, parsed);
      } else {
        r := ReceiveFrame(o, id, DeclaredLen(host, bytes), parsed, encodes);
      }
      if id in retained {
        retained := retained[id := retained[id].(ingestDone := true)];
      }
    }

    method Tick(o: Outcome, now: nat, encodes: bool) returns (r: Outcome)
      modifies this
      ensures Turn(Abs(), r) == HandleTimer(Turn(old(Abs()), o), now, encodes)
    {
      hide PushControl;
      lastTimer := Some(now);
      if !session.phase.Ready? {
        return o;
      }
      if nextHeartbeat.None? {
        nextHeartbeat := Some(now + HEARTBEAT_INTERVAL_MS);
        return o;
      }
      if now >= nextHeartbeat.value {
        heartbeatCounter := heartbeatCounter + 1;
        var ok;
        r, ok := PushControlMessage(o, Heartbeat(heartbeatCounter), encodes);
        nextHeartbeat := Some(now + HEARTBEAT_INTERVAL_MS);
      } else {
        r := o;
      }
    }

    method DropLease(leaseId: nat)
      modifies this`leases, this`retained
      ensures Abs() == old(Abs()).(slab := Release(old(SlabOf()), leaseId))
    {
      if leaseId !in leases {
        return;
      }
      var b := leases[leaseId].bufferId;
      leases := leases - {leaseId};
      if b in retained {
        var refs := retained[b].leaseRefs;
        retained := retained[b := retained[b].(leaseRefs := if refs > 0 then refs - 1 else 0)];
      }
    }

    // -------------------------------------------------------------- turns

    method HandleOne(o: Outcome, e: HostEvent) returns (r: Outcome)
      modifies this
      ensures Turn(Abs(), r) == HandleEvent(Turn(old(Abs()), o), e)
    {
      hide HandleWsBytes, HandleTimer, HandleCommand, Release;
      match e {
        case WsBytes(bufferId, bytes, parsed, encodes) => r := ReceiveBytes(o, bufferId, bytes, parsed, encodes);
        case Timer(now, encodes) => r := Tick(o, now, encodes);
        case Issue(cmd) => r := Execute(o, cmd);
        case ReleaseLease(leaseId) =>
          DropLease(leaseId);
          r := o;
      }
    }

    /** `sweep_released`: one pass over the retained buffers. */
    method SweepReleased(o: Outcome) returns (r: Outcome)
      modifies this`retained
      ensures Abs() == old(Abs()).(slab := Sweep(old(SlabOf())))
      ensures r == o.(released := o.released + Swept(old(SlabOf())))
    {
      var before := retained;
      var kept: map<nat, Retained> := map[];
      var released: set<Released> := {};
      var todo := before.Keys;
      while todo != {}
        invariant todo <= before.Keys
        invariant forall b :: b in kept <==> b in before && b !in todo && !Idle(before[b])
        invariant forall b :: b in kept ==> kept[b] == before[b]
        invariant released == set b | b in before && b !in todo && Idle(before[b]) :: Released(b, |before[b].bytes|)
        decreases |todo|
      {
        var b :| b in todo;
        todo := todo - {b};
        if Idle(before[b]) {
          released := released + {Released(b, |before[b].bytes|)};
        } else {
          kept := kept[b := before[b]];
        }
      }
      retained := kept;
      assert kept == Sweep(old(SlabOf())).retained;
      r := o.(released := o.released + released);
    }

    method DoPoll(events: seq<HostEvent>) returns (o: Outcome)
      modifies this
      ensures Turn(Abs(), o) == Poll(old(Abs()), events)
    {
      hide HandleEvent, Sweep, Swept;
      o := NO_OUTCOME;
      if closed {
        return o.(events := [ClosedNow]);
      }
      var limit := if |events| <= MAX_HOST_EVENTS_PER_POLL then |events| else MAX_HOST_EVENTS_PER_POLL;
      ghost var batch := Batch(events);
      ghost var start := Turn(Abs(), o);
      assert batch[0..] == batch;
      var i := 0;
      while i < limit
        invariant 0 <= i <= limit == |batch|
        invariant HandleAll(start, batch) == HandleAll(Turn(Abs(), o), batch[i..])
        invariant i < limit ==> !closed
        invariant o.released == {}
        decreases limit - i
      {
        OneMore(Turn(Abs(), o), batch, i);
        o := HandleOne(o, events[i]);
        i := i + 1;
        if closed {
          break;
        }
      }
      assert HandleAll(start, batch) == Turn(Abs(), o);
      o := SweepReleased(o);
      o := o.(deadline := nextHeartbeat);
    }
  }

  lemma {:induction false} PushKeeps(t: Turn, msg: Control, encodes: bool)
    ensures !PushControl(t, msg, encodes).ok ==> PushControl(t, msg, encodes).turn == t
  {
    hide ApplyFrame;
  }

  lemma {:induction false} PushReleases(t: Turn, msg: Control, encodes: bool)
    ensures PushControl(t, msg, encodes).turn.o.released == t.o.released
  {
    hide ApplyFrame;
  }

  lemma {:induction false} CommandReleases(t: Turn, cmd: Command)
    ensures HandleCommand(t, cmd).o.released == t.o.released
  {
    hide PushControl, ApplyFrame, ApplyBootstrap, Tell, Fail;
    match cmd
    case Login(encodes) => PushReleases(t, Authenticate, encodes);
    case OpenCommand(ch, kind, reliability, depth, _, encodes) =>
      PushReleases(t, OpenRequest(ch, kind, RequestedReliability(kind, reliability), depth), encodes);
    case Unsubscribe(ch, encodes) => PushReleases(t, CloseChannel(ch), encodes);
    case _ =>
  }

  lemma {:induction false} ControlReleases(t: Turn, msg: Control, fx: Effects, encodes: bool)
    ensures HandleControl(t, msg, fx, encodes).o.released == t.o.released
  {
    hide PushControl, Tell, Fail;
    var u := Tell(t, HeartbeatSeen(if msg.Heartbeat? then msg.counter else 0));
    var v := u.(c := u.c.(heartbeats := u.c.heartbeats + 1));
    PushReleases(v, Heartbeat(v.c.heartbeats), encodes);
  }

  lemma {:induction false} BytesRelease(t: Turn, e: HostEvent)
    requires e.WsBytes?
    ensures HandleEvent(t, e).o.released == t.o.released
  {
    hide ApplyFrame, ApplyBootstrap, DeclaredLen, HandleControl, Ingest, FinishIngest, Grant, Tell, Fail;
    var (slab, id) := Ingest(t.c.slab, e.bufferId, t.c.host, e.bytes);
    if e.parsed.FrameParsed? && ApplyFrame(t.c.session, e.parsed.frame, ServerRole).Accepted? && e.parsed.frame.payload.ControlPayload? {
      var a := ApplyFrame(t.c.session, e.parsed.frame, ServerRole);
      ControlReleases(t.(c := t.c.(slab := slab, session := a.state, controlIn := t.c.controlIn + 1)), e.parsed.frame.payload.msg,
                      a.effects, e.replyEncodes);
    }
  }

  lemma {:induction false} TimerReleases(t: Turn, now: nat, encodes: bool)
    ensures HandleTimer(t, now, encodes).o.released == t.o.released
  {
    hide PushControl;
    var u := t.(c := t.c.(lastTimer := Some(now)));
    var v := u.(c := u.c.(heartbeats := u.c.heartbeats + 1));
    PushReleases(v, Heartbeat(v.c.heartbeats), encodes);
  }

  lemma {:induction false} ReleasedUntouched(t: Turn, e: HostEvent)
    ensures HandleEvent(t, e).o.released == t.o.released
  {
    hide HandleWsBytes, HandleCommand, HandleTimer, Release;
    match e
    case WsBytes(_, _, _, _) => BytesRelease(t, e);
    case Timer(now, encodes) => TimerReleases(t, now, encodes);
    case Issue(cmd) => CommandReleases(t, cmd);
    case ReleaseLease(_) =>
  }

  lemma {:induction false} OneMore(t: Turn, batch: seq<HostEvent>, i: nat)
    requires i < |batch| && !t.c.closed
    ensures HandleAll(t, batch[i..]) == HandleAll(HandleEvent(t, batch[i]), batch[i + 1..])
    ensures HandleEvent(t, batch[i]).o.released == t.o.released
  {
    hide HandleEvent;
    ReleasedUntouched(t, batch[i]);
    assert batch[i..][0] == batch[i] && batch[i..][1..] == batch[i + 1..];
  }
}
