/** What the gateway puts on the wire for its subscriptions, over every run of the loop. */
module GatewayLaws {
  import opened ByteOrder
  import opened Qos
  import opened Session
  import opened Gateway
  import opened GatewayConnection

  // ---------------------------------------------------------------- reading a stamped frame

  /** The receiver reads from a stamped frame exactly what it was stamped with: a whole frame
      of this channel, sequence, reliability and length, nothing else in the header but the
      opcode and the channel's priority, and the payload untouched. */
  lemma {:induction false} StampReads(g: Gate, ch: nat, buf: seq<byte>)
    requires FRAME_HEADER_LENGTH <= |buf| && FrameSample(g, ch, buf).Some?
    requires ch <= U32_MAX && g.channels[ch].seqOut <= U64_MAX
    ensures var b, rt := FrameSample(g, ch, buf).value, g.channels[ch];
            && |b| == |buf| && b[FRAME_HEADER_LENGTH..] == buf[FRAME_HEADER_LENGTH..]
            && SampleRead(b) ==
               Frame(RosSample, rt.reliable, false, ch, rt.seqOut, 0, |buf| - FRAME_HEADER_LENGTH, None, AppPayload)
            && b[0] == 0 && b[1] == 2 && b[30] == rt.priority && b[31] == 0
            && (forall i :: 16 <= i < 24 ==> b[i] == 0)
  {
    hide Encode, Decode, Span;
    SpanValues();
    var rt, len := g.channels[ch], |buf| - FRAME_HEADER_LENGTH;
    var h := SampleHeader(ch, rt, len);
    var b := FrameSample(g, ch, buf).value;
    DecodeEncode(Big, if rt.reliable then 1 else 0, 2);
    DecodeEncode(Big, ch, 4);
    DecodeEncode(Big, rt.seqOut, 8);
    DecodeEncode(Big, len, 4);
    DecodeZeros();
    HeaderFields(ch, rt, len);
    forall i | 0 <= i < FRAME_HEADER_LENGTH ensures b[i] == h[i] {
    }
    assert b[2..4] == h[2..4] && b[4..8] == h[4..8] && b[8..16] == h[8..16] && b[24..28] == h[24..28] && b[28..30] == h[28..30];
  }

  /** The part of it that orders samples. */
  lemma {:induction false} StampOrders(g: Gate, ch: nat, buf: seq<byte>)
    requires FRAME_HEADER_LENGTH <= |buf| && FrameSample(g, ch, buf).Some?
    requires ch <= U32_MAX && g.channels[ch].seqOut <= U64_MAX
    ensures var b := FrameSample(g, ch, buf).value;
            |b| == |buf| && ChannelField(b) == ch && SequenceField(b) == g.channels[ch].seqOut
  {
    hide FrameSample, Decode;
    StampReads(g, ch, buf);
  }

  lemma {:induction false} DecodeZeros()
    ensures Decode(Big, [0, 0]) == 0
  {
    assert Reverse([0, 0]) == [0, 0] && [0, 0][1..] == [0];
    assert Value([0]) == 0;
  }

  lemma {:induction false} HeaderFields(ch: nat, rt: Runtime, payloadLen: nat)
    ensures var h := SampleHeader(ch, rt, payloadLen);
            && h[0] == 0 && h[1] == 2 && h[2..4] == Encode(Big, if rt.reliable then 1 else 0, 2)
            && h[4..8] == Encode(Big, ch, 4) && h[8..16] == Encode(Big, rt.seqOut, 8)
            && (forall i :: 16 <= i < 24 ==> h[i] == 0)
            && h[24..28] == Encode(Big, payloadLen, 4) && h[28..30] == [0, 0] && h[30] == rt.priority && h[31] == 0
  {
    hide Encode;
    var h := SampleHeader(ch, rt, payloadLen);
    var flags := Encode(Big, if rt.reliable then 1 else 0, 2);
    var c, s, n := Encode(Big, ch, 4), Encode(Big, rt.seqOut, 8), Encode(Big, payloadLen, 4);
    assert h == ([0, 2] + flags) + c + s + (Zeros(8) + n + [0, 0, rt.priority, 0]);
    forall i | 0 <= i < 2 ensures h[2 + i] == flags[i] {
    }
    forall i | 0 <= i < 4 ensures h[4 + i] == c[i] && h[24 + i] == n[i] {
    }
    forall i | 0 <= i < 8 ensures h[8 + i] == s[i] && h[16 + i] == 0 {
    }
  }

  // ---------------------------------------------------------------- sequences per channel

  predicate IsSampleOf(w: Wire, ch: nat) {
    w.RawSample? && |w.bytes| >= FRAME_HEADER_LENGTH && ChannelField(w.bytes) == ch
  }

  /** The sequence numbers sent on `ch`, in order. */
  function Sequences(wire: seq<Wire>, ch: nat): seq<nat> {
    if wire == [] then []
    else
      var rest, last := Sequences(wire[..|wire| - 1], ch), wire[|wire| - 1];
      if IsSampleOf(last, ch) then rest + [SequenceField(last.bytes)] else rest
  }

  predicate Increasing(s: seq<nat>) {
    forall i, j :: 0 <= i < j < |s| ==> s[i] < s[j]
  }

  lemma {:induction false} SequencesSnoc(wire: seq<Wire>, w: Wire, ch: nat)
    ensures Sequences(wire + [w], ch) == Sequences(wire, ch) + if IsSampleOf(w, ch) then [SequenceField(w.bytes)] else []
  {
    assert (wire + [w])[..|wire|] == wire;
  }

  /** Neither sample octets nor a sample put together as a frame. */
  predicate NoSamples(ws: seq<Wire>) {
    forall i :: 0 <= i < |ws| ==> !ws[i].RawSample? && !(ws[i].Framed? && ws[i].frame.opcode.RosSample?)
  }

  lemma {:induction false} SequencesAppend(wire: seq<Wire>, more: seq<Wire>, ch: nat)
    requires NoSamples(more)
    ensures Sequences(wire + more, ch) == Sequences(wire, ch)
    decreases |more|
  {
    hide IsSampleOf;
    if more == [] {
      assert wire + more == wire;
    } else {
      var n := |more| - 1;
      assert wire + more == (wire + more[..n]) + [more[n]];
      SequencesSnoc(wire + more[..n], more[n], ch);
      SequencesAppend(wire, more[..n], ch);
      assert !IsSampleOf(more[n], ch) by { NotSample(more[n], ch); }
    }
  }

  lemma {:induction false} NotSample(w: Wire, ch: nat)
    requires !w.RawSample?
    ensures !IsSampleOf(w, ch)
  {
  }

  // ---------------------------------------------------------------- the invariant

  predicate IsSubscription(g: Gate, ch: nat) {
    ch in g.channels && g.channels[ch].kind.TopicSubscribe?
  }

  /** Channel `ch`: an unused id has neither runtime nor frames; a reliable subscription has
      sent exactly 0, 1, ..., seqOut - 1; a best-effort one an increasing subsequence. */
  ghost predicate ChannelSound(c: Conn, ch: nat) {
    var sent := Sequences(c.wire, ch);
    && (c.gate.session.Of(ch).Unused? ==> sent == [] && ch !in c.gate.channels)
    && (IsSubscription(c.gate, ch) ==>
      var rt := c.gate.channels[ch];
      && (rt.reliable ==> sent == UpTo(rt.seqOut))
      && Increasing(sent) && forall i :: 0 <= i < |sent| ==> sent[i] < rt.seqOut)
  }

  ghost predicate Sound(c: Conn) {
    forall ch :: ChannelSound(c, ch)
  }

  /** Everything but samples: outputs are control or application frames, runtimes keep their
      send counters, and new runtimes appear only on unused ids. */
  ghost predicate Polite(g: Gate, h: Gate, out: seq<Wire>, ch: nat) {
    && NoSamples(out)
    && (g.session.Of(ch).Unused? || !h.session.Of(ch).Unused?)
    && (ch in h.channels ==>
      || (ch in g.channels && h.channels[ch].seqOut == g.channels[ch].seqOut
          && h.channels[ch].kind == g.channels[ch].kind && h.channels[ch].reliable == g.channels[ch].reliable)
      || (g.session.Of(ch).Unused? && !h.session.Of(ch).Unused? && h.channels[ch].seqOut == 0))
    && (h.session.Of(ch).Unused? ==> (ch in h.channels ==> ch in g.channels))
  }

  lemma {:induction false} PoliteSound(c: Conn, t: GateTurn, ch: nat)
    requires ChannelSound(c, ch) && Polite(c.gate, t.g, t.r.outbound, ch)
    ensures ChannelSound(Sent(c, t), ch)
  {
    hide Sequences;
    SequencesAppend(c.wire, t.r.outbound, ch);
  }

  // ---------------------------------------------------------------- inbound handlers are polite

  lemma {:induction false} AppliedOf(s: State, f: Frame, sender: Role, ch: nat)
    ensures ApplyFrame(s, f, sender).Accepted? ==>
      var t := ApplyFrame(s, f, sender).state;
      && (t.Of(ch).Unused? ==> s.Of(ch).Unused?)
      && (ApplyFrame(s, f, sender).effects.opening == Some(ch) ==> s.Of(ch).Unused? && !t.Of(ch).Unused?)
  {
  }

  /** A push leaves runtimes alone and never frees an id. */
  lemma {:induction false} PushPolite(t: GateTurn, msg: Control, w: World, ch: nat)
    requires NoSamples(t.r.outbound)
    ensures var u := PushControl(t, msg, w).turn;
            && NoSamples(u.r.outbound) && u.g.channels == t.g.channels
            && (u.g.session.Of(ch).Unused? ==> t.g.session.Of(ch).Unused?)
  {
    hide ApplyFrame;
    AppliedOf(t.g.session, ControlFrame(t.g.controlOut, msg), ServerRole, ch);
  }

  lemma {:induction false} PushAppPolite(t: GateTurn, f: Frame, w: World, ch: nat)
    requires NoSamples(t.r.outbound) && !f.opcode.RosSample?
    ensures var u := PushApp(t, f, w);
            && NoSamples(u.r.outbound) && u.g.channels == t.g.channels
            && (u.g.session.Of(ch).Unused? ==> t.g.session.Of(ch).Unused?)
  {
    hide ApplyFrame;
    AppliedOf(t.g.session, f, ServerRole, ch);
  }

  /** What every handler below keeps of `ch`'s runtime. */
  ghost predicate Keeps(t: GateTurn, u: GateTurn, ch: nat) {
    && NoSamples(u.r.outbound)
    && (u.g.session.Of(ch).Unused? ==> t.g.session.Of(ch).Unused?)
    && (ch in u.g.channels ==>
          && ch in t.g.channels && u.g.channels[ch].seqOut == t.g.channels[ch].seqOut
          && u.g.channels[ch].kind == t.g.channels[ch].kind && u.g.channels[ch].reliable == t.g.channels[ch].reliable)
  }

  lemma {:induction false} FailKeeps(t: GateTurn, reason: Gateway.Reason, w: World, ch: nat)
    requires NoSamples(t.r.outbound)
    ensures Keeps(t, FailSession(t, reason, w), ch)
  {
    hide PushControl;
    PushPolite(Note1(t, FailedSession(reason)), ErrorMessage(0, None), w, ch);
  }

  lemma {:induction false} PublishKeeps(t: GateTurn, f: Frame, w: World, ch: nat)
    requires NoSamples(t.r.outbound)
    ensures Keeps(t, HandlePublish(t, f, w), ch)
  {
    hide PushControl, FailSession;
    FailKeeps(t, RosReliableIffEffective, w, ch);
    FailKeeps(t, RetainedNeedsTransientLocal, w, ch);
    FailKeeps(t, ReliableSequenceMismatch, w, ch);
    if f.channelId in t.g.channels {
      var rt := t.g.channels[f.channelId];
      var gap := if f.sequence > rt.seqIn then Note1(t, SequenceGap(f.channelId)) else t;
      var u := gap.(g := gap.g.(channels := gap.g.channels[f.channelId := rt.(seqIn := f.sequence + 1)]));
      PushPolite(Note1(u, Admitted(f.channelId, f.sequence)), ErrorMessage(1, Some(f.channelId)), w, ch);
    }
  }

  lemma {:induction false} RespondKeeps(t: GateTurn, target: nat, op: Opcode, id: OperationId, w: World, ch: nat)
    requires NoSamples(t.r.outbound) && target in t.g.channels && !op.RosSample?
    ensures Keeps(t, Respond(t, target, op, id, w), ch)
  {
    hide PushApp;
    var rt := t.g.channels[target];
    var u := t.(g := t.g.(channels := t.g.channels[target := TakeOpOut(rt, id)]));
    PushAppPolite(u, OperationFrame(op, target, Expected(rt.opSeqOut, id), id, w.payloadLen), w, ch);
  }

  lemma {:induction false} KeepsItself(t: GateTurn, ch: nat)
    requires NoSamples(t.r.outbound)
    ensures Keeps(t, t, ch) && Keeps(t, Close(t), ch)
  {
  }

  /** Only an operation counter differs between `t` and `s`. */
  lemma {:induction false} KeepsVia(t: GateTurn, s: GateTurn, u: GateTurn, ch: nat)
    requires Keeps(s, u, ch) && s.g.session == t.g.session
    requires ch in s.g.channels ==>
      && ch in t.g.channels && s.g.channels[ch].seqOut == t.g.channels[ch].seqOut
      && s.g.channels[ch].kind == t.g.channels[ch].kind && s.g.channels[ch].reliable == t.g.channels[ch].reliable
    ensures Keeps(t, u, ch)
  {
  }

  lemma {:induction false} OperationKeeps(t: GateTurn, f: Frame, w: World, ch: nat)
    requires NoSamples(t.r.outbound)
    ensures Keeps(t, HandleOperation(t, f, w), ch)
  {
    hide PushControl, FailSession, Respond, Keeps;
    var target := f.channelId;
    KeepsItself(t, ch);
    FailKeeps(t, MissingOperationId, w, ch);
    if target in t.g.channels && f.operationId.Some? {
      var rt, id := t.g.channels[target], f.operationId.value;
      var s := t.(g := t.g.(channels := t.g.channels[target := rt.(opSeqIn := rt.opSeqIn[id := Expected(rt.opSeqIn, id)])]));
      FailKeeps(s, OperationSequenceMismatch, w, ch);
      KeepsVia(t, s, FailSession(s, OperationSequenceMismatch, w), ch);
      var u := t.(g := t.g.(channels := t.g.channels[target := rt.(opSeqIn := rt.opSeqIn[id := f.sequence + 1])]));
      AdmittedKeeps(t, u, f, w, ch);
    }
  }

  /** After admission: a reply, an error about the channel, or nothing. */
  lemma {:induction false} AdmittedKeeps(t: GateTurn, u: GateTurn, f: Frame, w: World, ch: nat)
    requires NoSamples(t.r.outbound) && f.channelId in t.g.channels && f.operationId.Some?
    requires var rt := t.g.channels[f.channelId];
             u == t.(g := t.g.(channels := t.g.channels[f.channelId := rt.(opSeqIn := rt.opSeqIn[f.operationId.value := f.sequence + 1])]))
    ensures var v := Note1(u, OperationAdmitted(f.channelId, f.operationId.value, f.sequence));
            && Keeps(t, Respond(v, f.channelId, ServiceResponse, f.operationId.value, w), ch)
            && Keeps(t, Respond(v, f.channelId, ActionResult, f.operationId.value, w), ch)
            && Keeps(t, PushControl(v, ErrorMessage(1, Some(f.channelId)), w).turn, ch)
            && Keeps(t, v, ch) && Keeps(t, Close(u), ch)
  {
    hide PushControl, Respond;
    var target, id := f.channelId, f.operationId.value;
    var v := Note1(u, OperationAdmitted(target, id, f.sequence));
    RespondKeeps(v, target, ServiceResponse, id, w, ch);
    RespondKeeps(v, target, ActionResult, id, w, ch);
    PushPolite(v, ErrorMessage(1, Some(target)), w, ch);
  }

  lemma {:induction false} SnapshotKeeps(t: GateTurn, w: World, ch: nat)
    requires NoSamples(t.r.outbound)
    ensures Keeps(t, PushSnapshot(t, w), ch)
  {
    hide PushControl;
    PushPolite(t, ErrorMessage(0, None), w, ch);
    PushPolite(t, GraphSnapshot(1), w, ch);
  }

  lemma {:induction false} DeltaKeeps(t: GateTurn, w: World, ch: nat)
    requires NoSamples(t.r.outbound)
    ensures Keeps(t, PushDelta(t, w), ch)
  {
    hide PushControl;
    if t.g.graph.Some? {
      PushPolite(t, GraphDelta(t.g.graph.value, t.g.graph.value + 1), w, ch);
    }
  }

  lemma {:induction false} AuthenticateKeeps(t: GateTurn, w: World, ch: nat)
    requires NoSamples(t.r.outbound)
    ensures Keeps(t, HandleAuthenticate(t, w), ch)
  {
    hide PushControl, PushSnapshot;
    PushPolite(t, ErrorMessage(0, None), w, ch);
    PushPolite(t, SessionReady, w, ch);
    SnapshotKeeps(PushControl(t, SessionReady, w).turn, w, ch);
  }

  /** Opening a channel: a new runtime with a zero counter on that id, or none. */
  lemma {:induction false} OpenGives(t: GateTurn, target: nat, kind: Kind, qos: seq<Entry>, asked: Option<nat>, w: World, ch: nat)
    requires NoSamples(t.r.outbound)
    ensures var u := OpenTheChannel(t, target, kind, qos, asked, w);
            && NoSamples(u.r.outbound)
            && (u.g.session.Of(ch).Unused? ==> t.g.session.Of(ch).Unused?)
            && (ch != target ==> Keeps(t, u, ch))
            && (target in u.g.channels ==> target in t.g.channels || u.g.channels[target].seqOut == 0)
  {
    hide PushControl, PushDelta, ResolveEffective, TakeAll, ReadyFor;
    PushPolite(t, ChannelReady(target, 3, None), w, ch);
    var e := ResolveEffective(TakeAll(DEFAULT_REQUEST, qos));
    var u := t.(g := t.g.(channels := t.g.channels[target := NewRuntime(kind, e, asked)]));
    PushPolite(u, ReadyFor(target, kind, e), w, ch);
    DeltaKeeps(PushControl(u, ReadyFor(target, kind, e), w).turn, w, ch);
    DeltaKeeps(PushControl(u, ReadyFor(target, kind, e), w).turn, w, target);
  }

  lemma {:induction false} ControlGoes(t: GateTurn, s: State, msg: Control, fx: Effects, w: World, ch: nat)
    requires t.r.outbound == []
    requires s.Of(ch).Unused? ==> ch !in t.g.channels
    requires t.g.session.Of(ch).Unused? ==> s.Of(ch).Unused?
    requires fx.opening == Some(ch) ==> s.Of(ch).Unused? && !t.g.session.Of(ch).Unused?
    ensures Polite(t.g.(session := s), HandleControl(t, msg, fx, w).g, HandleControl(t, msg, fx, w).r.outbound, ch)
  {
    hide PushControl, HandleAuthenticate, OpenTheChannel;
    match msg
    case Authenticate => AuthenticateKeeps(t, w, ch);
    case OpenChannel(_, kind, qos, asked) =>
      if fx.opening.Some? {
        OpenGives(t, fx.opening.value, kind, qos, asked, w, ch);
      }
    case Heartbeat(_) =>
      var u := t.(g := t.g.(heartbeats := t.g.heartbeats + 1));
      PushPolite(u, Heartbeat(u.g.heartbeats), w, ch);
    case _ =>
  }

  /** An unused id has no runtime. */
  predicate Fresh(g: Gate, ch: nat) {
    g.session.Of(ch).Unused? ==> ch !in g.channels
  }

  lemma {:induction false} SoundIsFresh(c: Conn, ch: nat)
    requires ChannelSound(c, ch)
    ensures Fresh(c.gate, ch)
  {
    hide Sequences;
  }

  lemma {:induction false} FrameGoes(c: Conn, m: Wire, w: World, ch: nat)
    requires Fresh(c.gate, ch)
    ensures var t := HandleFrame(GateTurn(c.gate, NO_REPLY), m, w);
            Polite(c.gate, t.g, t.r.outbound, ch)
  {
    hide ApplyFrame, FailSession, HandlePublish, HandleOperation, HandleControl, Sequences;
    var t := GateTurn(c.gate, NO_REPLY);
    FailKeeps(t, Gateway.ParseRejected, w, ch);
    FailKeeps(t, Gateway.SessionRejected, w, ch);
    if m.Framed? {
      var a := ApplyFrame(c.gate.session, m.frame, ClientRole);
      AppliedOf(c.gate.session, m.frame, ClientRole, ch);
      if a.Accepted? {
        var u := t.(g := t.g.(session := a.state));
        FailKeeps(u, Gateway.ControlSequenceMismatch, w, ch);
        PublishKeeps(u, m.frame, w, ch);
        OperationKeeps(u, m.frame, w, ch);
        var v := u.(g := u.g.(controlIn := u.g.controlIn + 1));
        if m.frame.payload.ControlPayload? {
          ControlGoes(v, c.gate.session, m.frame.payload.msg, a.effects, w, ch);
        }
      }
    }
  }

  lemma {:induction false} BootstrapGoes(g: Gate, m: Wire, w: World, ch: nat)
    ensures var t := HandleBootstrap(GateTurn(g, NO_REPLY), m, w);
            NoSamples(t.r.outbound) && t.g.channels == g.channels && t.g.session.channels == g.session.channels
  {
  }

  lemma {:induction false} InboundPolite(c: Conn, m: Wire, w: World, ch: nat)
    requires Fresh(c.gate, ch)
    ensures Polite(c.gate, HandleInbound(c.gate, m, w).g, HandleInbound(c.gate, m, w).r.outbound, ch)
  {
    hide HandleBootstrap, HandleFrame, Sequences;
    BootstrapGoes(c.gate, m, w, ch);
    FrameGoes(c, m, w, ch);
  }

  lemma {:induction false} RequestPolite(c: Conn, target: nat, op: OperationCode, id: OperationId, w: World, ch: nat)
    requires Fresh(c.gate, ch)
    ensures Polite(c.gate, PushRequest(c.gate, target, op, id, w).g, PushRequest(c.gate, target, op, id, w).r.outbound, ch)
  {
    hide Respond, Sequences;
    if target in c.gate.channels {
      RespondKeeps(GateTurn(c.gate, NO_REPLY), target, op, id, w, ch);
    }
  }

  // ---------------------------------------------------------------- samples

  /** Ids and counters fit their header fields. */
  predicate FitsHeader(g: Gate, ch: nat) {
    ch <= U32_MAX && (ch in g.channels ==> g.channels[ch].seqOut < U64_MAX)
  }

  lemma {:induction false} SampleSound(c: Conn, maxBytes: nat, target: nat, buf: seq<byte>, ch: nat)
    requires FRAME_HEADER_LENGTH <= |buf| && ChannelSound(c, ch) && FitsHeader(c.gate, target)
    ensures ChannelSound(SampleStep(c, maxBytes, target, buf), ch)
  {
    hide FrameSample, Sequences, ChannelField, SequenceField;
    FramingNeeds(c.gate, target, buf);
    var frame := FrameSample(c.gate, target, buf);
    if frame.Some? {
      StampOrders(c.gate, target, buf);
      SequencesSnoc(c.wire, RawSample(frame.value), ch);
      if ch == target {
        var rt := c.gate.channels[ch];
        assert UpTo(rt.seqOut + 1) == UpTo(rt.seqOut) + [rt.seqOut];
      }
    }
  }

  /** Ids are consumed before they get a runtime, in every turn. */
  lemma {:induction false} StaysFresh(c: Conn, maxBytes: nat, t: GatewayConnection.Turn, ch: nat)
    requires Fresh(c.gate, ch) && (t.Sample? ==> FRAME_HEADER_LENGTH <= |t.buf|)
    ensures Fresh(ConnStep(c, maxBytes, t).gate, ch)
  {
    hide HandleInbound, PushRequest, FrameSample;
    match t
    case Inbound(m, w) => InboundPolite(c, m, w, ch);
    case Sample(target, buf) => FramingNeeds(c.gate, target, buf);
    case RosRequest(target, op, id, w) => RequestPolite(c, target, op, id, w, ch);
  }

  lemma {:induction false} StepSound(c: Conn, maxBytes: nat, t: GatewayConnection.Turn, ch: nat)
    requires ChannelSound(c, ch) && (t.Sample? ==> FRAME_HEADER_LENGTH <= |t.buf| && FitsHeader(c.gate, t.channelId))
    ensures ChannelSound(ConnStep(c, maxBytes, t), ch)
  {
    hide HandleInbound, PushRequest, SampleStep;
    if c.live {
      match t
      case Inbound(m, w) =>
        InboundPolite(c, m, w, ch);
        PoliteSound(c, HandleInbound(c.gate, m, w), ch);
      case Sample(target, buf) => SampleSound(c, maxBytes, target, buf, ch);
      case RosRequest(target, op, id, w) =>
        RequestPolite(c, target, op, id, w, ch);
        PoliteSound(c, PushRequest(c.gate, target, op, id, w), ch);
    }
  }

  // ---------------------------------------------------------------- whole runs

  predicate Prefixed(turns: seq<GatewayConnection.Turn>) {
    forall i :: 0 <= i < |turns| && turns[i].Sample? ==> FRAME_HEADER_LENGTH <= |turns[i].buf|
  }

  function RunConn(c: Conn, maxBytes: nat, turns: seq<GatewayConnection.Turn>): Conn
    requires Prefixed(turns)
    decreases |turns|
  {
    if turns == [] then c else RunConn(ConnStep(c, maxBytes, turns[0]), maxBytes, turns[1..])
  }

  predicate FitsThroughout(c: Conn, maxBytes: nat, turns: seq<GatewayConnection.Turn>)
    requires Prefixed(turns)
    decreases |turns|
  {
    turns != [] ==>
      && (turns[0].Sample? ==> FitsHeader(c.gate, turns[0].channelId))
      && FitsThroughout(ConnStep(c, maxBytes, turns[0]), maxBytes, turns[1..])
  }

  /** Reliable contiguity on the wire: over every run, in any interleaving of subscriptions,
      inbound messages and requests, dropped samples included, a reliable subscription has
      sent exactly 0, 1, ..., n - 1, and a best-effort one never goes back. */
  lemma {:induction false} SubscriptionsStayInOrder(c: Conn, maxBytes: nat, turns: seq<GatewayConnection.Turn>, ch: nat)
    requires Prefixed(turns) && FitsThroughout(c, maxBytes, turns) && ChannelSound(c, ch)
    ensures ChannelSound(RunConn(c, maxBytes, turns), ch)
    decreases |turns|
  {
    hide ConnStep, ChannelSound, FitsHeader;
    if turns != [] {
      StepSound(c, maxBytes, turns[0], ch);
      SubscriptionsStayInOrder(ConnStep(c, maxBytes, turns[0]), maxBytes, turns[1..], ch);
    }
  }

  lemma {:induction false} NewConnSound(ch: nat)
    ensures ChannelSound(NEW_CONN, ch)
  {
  }

  /** What `ch` was opened as: its runtime when it first appears in the run, if it ever does. */
  function OpenedAs(c: Conn, maxBytes: nat, turns: seq<GatewayConnection.Turn>, ch: nat): Option<Runtime>
    requires Prefixed(turns)
    decreases |turns|
  {
    if ch in c.gate.channels then Some(c.gate.channels[ch])
    else if turns == [] then None
    else OpenedAs(ConnStep(c, maxBytes, turns[0]), maxBytes, turns[1..], ch)
  }

  /** `ch` is a subscription, reliable if `reliable`, that is open or has been. */
  ghost predicate Lifetime(c: Conn, ch: nat, reliable: bool) {
    var sent := Sequences(c.wire, ch);
    && !c.gate.session.Of(ch).Unused? && Increasing(sent) && (reliable ==> sent == UpTo(|sent|))
    && (ch in c.gate.channels ==> c.gate.channels[ch].kind.TopicSubscribe? && c.gate.channels[ch].reliable == reliable)
  }

  lemma {:induction false} LifetimeBegins(c: Conn, ch: nat)
    requires ChannelSound(c, ch) && IsSubscription(c.gate, ch)
    ensures Lifetime(c, ch, c.gate.channels[ch].reliable)
  {
    hide Sequences;
  }

  /** Open channels are sound anyway; on a closed one nothing more is sent, and it stays closed. */
  lemma {:induction false} LifetimeGoesOn(c: Conn, maxBytes: nat, t: GatewayConnection.Turn, ch: nat, reliable: bool)
    requires Lifetime(c, ch, reliable) && ChannelSound(c, ch)
    requires t.Sample? ==> FRAME_HEADER_LENGTH <= |t.buf| && FitsHeader(c.gate, t.channelId)
    ensures Lifetime(ConnStep(c, maxBytes, t), ch, reliable)
  {
    hide HandleInbound, PushRequest, SampleStep, Sequences;
    if c.live {
      StepSound(c, maxBytes, t, ch);
      match t
      case Inbound(m, w) =>
        InboundPolite(c, m, w, ch);
        PoliteLifetime(c, HandleInbound(c.gate, m, w), ch, reliable);
      case Sample(target, buf) => SampleLifetime(c, maxBytes, target, buf, ch, reliable);
      case RosRequest(target, op, id, w) =>
        RequestPolite(c, target, op, id, w, ch);
        PoliteLifetime(c, PushRequest(c.gate, target, op, id, w), ch, reliable);
    }
  }

  lemma {:induction false} PoliteLifetime(c: Conn, t: GateTurn, ch: nat, reliable: bool)
    requires Lifetime(c, ch, reliable) && Polite(c.gate, t.g, t.r.outbound, ch)
    ensures Lifetime(Sent(c, t), ch, reliable)
  {
    hide Sequences;
    SequencesAppend(c.wire, t.r.outbound, ch);
  }

  lemma {:induction false} SampleLifetime(c: Conn, maxBytes: nat, target: nat, buf: seq<byte>, ch: nat, reliable: bool)
    requires FRAME_HEADER_LENGTH <= |buf| && Lifetime(c, ch, reliable) && ChannelSound(c, ch) && FitsHeader(c.gate, target)
    ensures Lifetime(SampleStep(c, maxBytes, target, buf), ch, reliable)
  {
    hide FrameSample, Sequences, ChannelField, SequenceField;
    FramingNeeds(c.gate, target, buf);
    SampleSound(c, maxBytes, target, buf, ch);
    var frame := FrameSample(c.gate, target, buf);
    if frame.Some? {
      StampOrders(c.gate, target, buf);
      SequencesSnoc(c.wire, RawSample(frame.value), ch);
      assert Sequences(c.wire, ch) + [] == Sequences(c.wire, ch);
    }
  }

  lemma {:induction false} LifetimeOfRun(c: Conn, maxBytes: nat, turns: seq<GatewayConnection.Turn>, ch: nat, reliable: bool)
    requires Prefixed(turns) && FitsThroughout(c, maxBytes, turns) && ChannelSound(c, ch) && Lifetime(c, ch, reliable)
    ensures Lifetime(RunConn(c, maxBytes, turns), ch, reliable)
    decreases |turns|
  {
    hide ConnStep, ChannelSound, FitsHeader, Lifetime;
    if turns != [] {
      StepSound(c, maxBytes, turns[0], ch);
      LifetimeGoesOn(c, maxBytes, turns[0], ch, reliable);
      LifetimeOfRun(ConnStep(c, maxBytes, turns[0]), maxBytes, turns[1..], ch, reliable);
    }
  }

  lemma {:induction false} LifetimeInRun(c: Conn, maxBytes: nat, turns: seq<GatewayConnection.Turn>, ch: nat)
    requires Prefixed(turns) && FitsThroughout(c, maxBytes, turns) && ChannelSound(c, ch)
    requires OpenedAs(c, maxBytes, turns, ch).Some? && OpenedAs(c, maxBytes, turns, ch).value.kind.TopicSubscribe?
    ensures Lifetime(RunConn(c, maxBytes, turns), ch, OpenedAs(c, maxBytes, turns, ch).value.reliable)
    decreases |turns|
  {
    hide ConnStep, ChannelSound, FitsHeader, Lifetime;
    if ch in c.gate.channels {
      LifetimeBegins(c, ch);
      LifetimeOfRun(c, maxBytes, turns, ch, c.gate.channels[ch].reliable);
    } else {
      StepSound(c, maxBytes, turns[0], ch);
      LifetimeInRun(ConnStep(c, maxBytes, turns[0]), maxBytes, turns[1..], ch);
    }
  }

  /** The statement for a connection from its start, and for every subscription there ever
      was on it, closed by now or not. */
  lemma {:induction false} ReliableIsContiguous(maxBytes: nat, turns: seq<GatewayConnection.Turn>, ch: nat)
    requires Prefixed(turns) && FitsThroughout(NEW_CONN, maxBytes, turns)
    requires OpenedAs(NEW_CONN, maxBytes, turns, ch).Some? && OpenedAs(NEW_CONN, maxBytes, turns, ch).value.kind.TopicSubscribe?
    ensures var c, rt := RunConn(NEW_CONN, maxBytes, turns), OpenedAs(NEW_CONN, maxBytes, turns, ch).value;
            var sent := Sequences(c.wire, ch);
            && Increasing(sent) && (rt.reliable ==> sent == UpTo(|sent|))
            && (rt.reliable && ch in c.gate.channels ==> |sent| == c.gate.channels[ch].seqOut)
  {
    hide RunConn, FitsThroughout, Sequences, OpenedAs;
    NewConnSound(ch);
    SubscriptionsStayInOrder(NEW_CONN, maxBytes, turns, ch);
    LifetimeInRun(NEW_CONN, maxBytes, turns, ch);
  }
}
