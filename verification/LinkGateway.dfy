/** What each turn of a running gateway does to a channel and to the control stream. */
module LinkGateway {
  import opened ByteOrder
  import opened Qos
  import opened Session
  import opened Gateway
  import opened GatewayConnection
  import opened LinkItems

  /** Control sequence numbers consumed since `base` are exactly those queued. */
  predicate Counted(t: GateTurn, base: nat) {
    base <= t.g.controlOut && Items(t.r.outbound, ControlStream) == Range(base, t.g.controlOut)
  }

  /** Nothing about `ch` changed or was said. */
  predicate Mute(t: GateTurn, u: GateTurn, ch: nat) {
    GateViewOf(u.g, ch) == GateViewOf(t.g, ch) && Items(u.r.outbound, Down(ch)) == Items(t.r.outbound, Down(ch))
  }

  /** A step that counts its control messages and keeps the inbound counter and the notes. */
  ghost predicate Steps(t: GateTurn, u: GateTurn) {
    && (forall base :: Counted(t, base) ==> Counted(u, base))
    && u.g.controlIn == t.g.controlIn
  }

  lemma {:induction false} StepsThrough(t: GateTurn, s: GateTurn, u: GateTurn)
    requires Steps(t, s) && Steps(s, u)
    ensures Steps(t, u)
  {
  }

  lemma {:induction false} SameOut(t: GateTurn, u: GateTurn)
    requires u.r.outbound == t.r.outbound && u.g.controlOut == t.g.controlOut && u.g.controlIn == t.g.controlIn
    ensures Steps(t, u)
  {
  }

  /** A control message goes out with the next number, or the connection closes. */
  lemma {:induction false} PushSteps(t: GateTurn, msg: Control, w: World)
    ensures var p := PushControl(t, msg, w);
            && Steps(t, p.turn) && p.turn.r.notes == t.r.notes && p.turn.g.channels == t.g.channels
            && (p.ok ==>
              && ApplyControl(t.g.session, msg, ServerRole).Accepted?
              && p.turn.g.session == ApplyControl(t.g.session, msg, ServerRole).state
              && p.turn.r.outbound == t.r.outbound + [Framed(ControlFrame(t.g.controlOut, msg))]
              && p.turn.r.close == t.r.close)
            && (!p.ok ==> p.turn.r.close && p.turn.g == t.g && p.turn.r.outbound == t.r.outbound)
  {
    hide ApplyControl;
    var p := PushControl(t, msg, w);
    if p.ok {
      forall base | Counted(t, base) ensures Counted(p.turn, base) {
        ItemsSnoc(t.r.outbound, Framed(ControlFrame(t.g.controlOut, msg)), ControlStream);
        RangeSnoc(base, t.g.controlOut);
      }
    }
  }

  /** Control messages that say nothing about channel `ch`. */
  predicate SaysNothing(msg: Control, ch: nat) {
    match msg
    case ChannelReady(id, _, _) => id != ch
    case CloseChannel(id) => id != ch
    case OpenChannel(id, _, _, _) => id != ch
    case ErrorMessage(_, id) => id != Some(ch)
    case _ => true
  }

  lemma {:induction false} ItemsAfterPush(t: GateTurn, msg: Control, ch: nat)
    ensures var out := t.r.outbound + [Framed(ControlFrame(t.g.controlOut, msg))];
            Items(out, Down(ch)) ==
            Items(t.r.outbound, Down(ch)) + match ItemOf(Framed(ControlFrame(t.g.controlOut, msg)), Down(ch)) { case Some(i) => [i] case None => [] }
  {
    ItemsSnoc(t.r.outbound, Framed(ControlFrame(t.g.controlOut, msg)), Down(ch));
  }

  lemma {:induction false} QuietApply(s: State, msg: Control, role: Role, ch: nat)
    requires SaysNothing(msg, ch) && ApplyControl(s, msg, role).Accepted?
    ensures var t := ApplyControl(s, msg, role).state;
            t.Of(ch) == s.Of(ch) && (ch in t.channels <==> ch in s.channels) && (ch in s.channels ==> t.channels[ch] == s.channels[ch])
  {
  }

  lemma {:induction false} PushMute(t: GateTurn, msg: Control, w: World, ch: nat)
    requires SaysNothing(msg, ch)
    ensures Mute(t, PushControl(t, msg, w).turn, ch)
  {
    hide PushControl, ApplyControl, Items;
    PushSteps(t, msg, w);
    var p := PushControl(t, msg, w);
    if p.ok {
      QuietApply(t.g.session, msg, ServerRole, ch);
      ItemsAfterPush(t, msg, ch);
      assert Items(t.r.outbound, Down(ch)) + [] == Items(t.r.outbound, Down(ch));
    }
  }

  /** An error about an active channel: said, but the session stays as it is. */
  lemma {:induction false} PushErrorAbout(t: GateTurn, target: nat, w: World, ch: nat)
    requires t.g.session.Of(target).Active? && t.g.session.phase.Ready?
    ensures var u := PushControl(t, ErrorMessage(1, Some(target)), w).turn;
            && u.g.channels == t.g.channels && u.g.session == t.g.session
            && (u.r.close || (GateViewOf(u.g, ch) == GateViewOf(t.g, ch)
                && Items(u.r.outbound, Down(ch)) == Items(t.r.outbound, Down(ch)) + (if target == ch then [ErrorItem(1)] else [])))
  {
    hide PushControl, Items;
    PushSteps(t, ErrorMessage(1, Some(target)), w);
    ItemsAfterPush(t, ErrorMessage(1, Some(target)), ch);
  }

  lemma {:induction false} FailSteps(t: GateTurn, reason: Gateway.Reason, w: World)
    ensures var u := FailSession(t, reason, w);
            Steps(t, u) && u.r.close && u.r.notes == t.r.notes + [FailedSession(reason)]
  {
    hide PushControl;
    var n := Note1(t, FailedSession(reason));
    PushSteps(n, ErrorMessage(0, None), w);
    SameOut(t, n);
    if t.g.session.phase.InSelectedPlane() {
      StepsThrough(t, n, PushControl(n, ErrorMessage(0, None), w).turn);
    } else {
      BootSteps(n, BootstrapError);
      StepsThrough(t, n, Emit(n, Boot(BootstrapError)));
    }
  }

  lemma {:induction false} BootSteps(t: GateTurn, record: Record)
    ensures Steps(t, Emit(t, Boot(record)))
  {
    forall base | Counted(t, base) ensures Counted(Emit(t, Boot(record)), base) {
      ItemsSnoc(t.r.outbound, Boot(record), ControlStream);
      assert Items(t.r.outbound, ControlStream) + [] == Items(t.r.outbound, ControlStream);
    }
  }

  lemma {:induction false} AppSteps(t: GateTurn, f: Frame, w: World, ch: nat)
    requires !f.opcode.ControlCbor?
    ensures var u := PushApp(t, f, w);
            && Steps(t, u) && u.g.channels == t.g.channels && u.g.session == t.g.session && u.r.notes == t.r.notes && Mute(t, u, ch)
  {
    var u := PushApp(t, f, w);
    ItemsSnoc(t.r.outbound, Framed(f), ControlStream);
    ItemsSnoc(t.r.outbound, Framed(f), Down(ch));
    assert Items(t.r.outbound, ControlStream) + [] == Items(t.r.outbound, ControlStream);
    assert Items(t.r.outbound, Down(ch)) + [] == Items(t.r.outbound, Down(ch));
  }

  // ---------------------------------------------------------------- handlers

  /** Ready before any channel exists, and one runtime per active channel. */
  predicate GateOk(g: Gate, ch: nat) {
    Settled(GateViewOf(g, ch)) && (!g.session.Of(ch).Unused? ==> g.session.phase.Ready?)
  }

  lemma {:induction false} SnapshotSteps(t: GateTurn, w: World, ch: nat)
    ensures var u := PushSnapshot(t, w);
            Steps(t, u) && u.r.notes == t.r.notes && Mute(t, u, ch) && u.g.channels == t.g.channels
            && (u.r.close || u.g.session.phase == t.g.session.phase)
  {
    hide PushControl, Items;
    PushSteps(t, ErrorMessage(0, None), w);
    PushSteps(t, GraphSnapshot(1), w);
    PushMute(t, ErrorMessage(0, None), w, ch);
    PushMute(t, GraphSnapshot(1), w, ch);
    var p := PushControl(t, GraphSnapshot(1), w).turn;
    SameOut(p, p.(g := p.g.(graph := Some(1))));
  }

  lemma {:induction false} DeltaSteps(t: GateTurn, w: World, ch: nat)
    ensures var u := PushDelta(t, w);
            Steps(t, u) && u.r.notes == t.r.notes && Mute(t, u, ch) && u.g.channels == t.g.channels
            && (u.r.close || u.g.session.phase == t.g.session.phase) && (t.r.close ==> u.r.close)
  {
    hide PushControl, Items;
    SameOut(t, t);
    if t.g.graph.Some? {
      var msg := GraphDelta(t.g.graph.value, t.g.graph.value + 1);
      PushSteps(t, msg, w);
      PushMute(t, msg, w, ch);
      var p := PushControl(t, msg, w).turn;
      SameOut(p, p.(g := p.g.(graph := Some(t.g.graph.value + 1))));
    }
  }

  lemma {:induction false} AuthenticateSteps(t: GateTurn, w: World, ch: nat)
    ensures var u := HandleAuthenticate(t, w);
            Steps(t, u) && u.r.notes == t.r.notes && Mute(t, u, ch)
            && (u.r.close || (t.g.session.phase.Ready? ==> u.g.session.phase.Ready?))
  {
    hide PushControl, PushSnapshot, Items;
    PushSteps(t, ErrorMessage(0, None), w);
    PushSteps(t, SessionReady, w);
    PushMute(t, ErrorMessage(0, None), w, ch);
    PushMute(t, SessionReady, w, ch);
    var p := PushControl(t, SessionReady, w).turn;
    SnapshotSteps(p, w, ch);
    StepsThrough(t, p, PushSnapshot(p, w));
    SameOut(t, Close(t));
  }

  /** Opening `target`, just recorded as pending by the session. */
  lemma {:induction false} OpenSteps(t: GateTurn, target: nat, kind: Kind, qos: seq<Entry>, asked: Option<nat>, w: World)
    ensures var u := OpenTheChannel(t, target, kind, qos, asked, w);
            Steps(t, u) && u.r.notes == t.r.notes
  {
    hide PushControl, PushDelta, ResolveEffective, TakeAll, ReadyFor;
    PushSteps(t, ChannelReady(target, 3, None), w);
    var e := ResolveEffective(TakeAll(DEFAULT_REQUEST, qos));
    var r := t.(g := t.g.(channels := t.g.channels[target := NewRuntime(kind, e, asked)]));
    SameOut(t, r);
    PushSteps(r, ReadyFor(target, kind, e), w);
    var p := PushControl(r, ReadyFor(target, kind, e), w).turn;
    StepsThrough(t, r, p);
    DeltaSteps(p, w, target);
    StepsThrough(t, p, PushDelta(p, w));
  }

  lemma {:induction false} OpenMute(t: GateTurn, target: nat, kind: Kind, qos: seq<Entry>, asked: Option<nat>, w: World, ch: nat)
    requires target != ch
    ensures Mute(t, OpenTheChannel(t, target, kind, qos, asked, w), ch)
    ensures var u := OpenTheChannel(t, target, kind, qos, asked, w);
            u.r.close || u.g.session.phase == t.g.session.phase
  {
    hide PushControl, PushDelta, ResolveEffective, TakeAll, Items;
    PushSteps(t, ChannelReady(target, 3, None), w);
    PushMute(t, ChannelReady(target, 3, None), w, ch);
    var e := ResolveEffective(TakeAll(DEFAULT_REQUEST, qos));
    var r := t.(g := t.g.(channels := t.g.channels[target := NewRuntime(kind, e, asked)]));
    var msg := ReadyFor(target, kind, e);
    PushSteps(r, msg, w);
    PushMute(r, msg, w, ch);
    DeltaSteps(PushControl(r, msg, w).turn, w, ch);
  }

  /** The outcome of an open: a runtime announced truthfully, or a failure announced. */
  lemma {:induction false} OpenAnnounces(t: GateTurn, ch: nat, kind: Kind, qos: seq<Entry>, asked: Option<nat>, w: World)
    requires t.r.outbound == [] && t.g.session.Of(ch).Pending? && t.g.session.channels[ch].kind == kind && ch !in t.g.channels
    requires t.g.session.phase.Ready?
    ensures var u := OpenTheChannel(t, ch, kind, qos, asked, w);
            !u.r.close ==>
              && GateMoves(GateView(Unused, TopicSubscribe, None), GateViewOf(u.g, ch), Some(OpenItem(kind, qos)), Items(u.r.outbound, Down(ch)))
              && u.g.session.phase.Ready?
  {
    hide PushControl, PushDelta, ResolveEffective, TakeAll, ToWire, EffectiveReliability, Items;
    var e := ResolveEffective(TakeAll(DEFAULT_REQUEST, qos));
    var r := t.(g := t.g.(channels := t.g.channels[ch := NewRuntime(kind, e, asked)]));
    var msg := ReadyFor(ch, kind, e);
    PushSteps(t, ChannelReady(ch, 3, None), w);
    ItemsAfterPush(t, ChannelReady(ch, 3, None), ch);
    PushSteps(r, msg, w);
    ItemsAfterPush(r, msg, ch);
    ReliabilityIsCarried(e);
    DeltaSteps(PushControl(r, msg, w).turn, w, ch);
    NoItems(Down(ch));
  }

  lemma {:induction false} NoItems(topic: Topic)
    ensures Items([], topic) == []
  {
  }

  // ---------------------------------------------------------------- one inbound message

  predicate TakesNext(g: Gate, m: Wire, ch: nat) {
    ItemOf(m, Up(ch)).Some? ==> Takes(GateViewOf(g, ch), [ItemOf(m, Up(ch)).value])
  }

  /** Notes that would contradict the agreement of the two ends. */
  predicate Trouble(n: Note) {
    match n
    case FailedSession(reason) =>
      || reason == Gateway.ControlSequenceMismatch || reason == Gateway.RosReliableIffEffective
      || reason == Gateway.RetainedNeedsTransientLocal || reason == Gateway.ReliableSequenceMismatch
    case StaleSequence(_) => true
    case SequenceGap(_) => true
    case _ => false
  }

  predicate Peaceful(notes: seq<Note>) {
    forall i :: 0 <= i < |notes| ==> !Trouble(notes[i])
  }

  /** The whole effect of one turn on channel `ch`, if the gateway is still running after. */
  ghost predicate GateStep(g: Gate, u: GateTurn, got: Option<Item>, ch: nat) {
    !u.r.close ==> GateMoves(GateViewOf(g, ch), GateViewOf(u.g, ch), got, Items(u.r.outbound, Down(ch))) && GateOk(u.g, ch)
  }

  lemma {:induction false} PublishStep(g: Gate, t: GateTurn, f: Frame, w: World, ch: nat)
    requires t.g == g && t.r == NO_REPLY && f.opcode.RosSample? && GateOk(g, ch) && TakesNext(g, Framed(f), ch)
    requires DataLegal(g.session, f, ClientRole)
    ensures GateStep(g, HandlePublish(t, f, w), ItemOf(Framed(f), Up(ch)), ch)
  {
    hide PushControl, Items, FailSession;
    NoItems(Down(ch));
    FailSteps(t, Gateway.RosReliableIffEffective, w);
    FailSteps(t, Gateway.RetainedNeedsTransientLocal, w);
    FailSteps(t, Gateway.ReliableSequenceMismatch, w);
    var target := f.channelId;
    if target in g.channels {
      var rt := g.channels[target];
      var gap := if f.sequence > rt.seqIn then Note1(t, SequenceGap(target)) else t;
      var u := gap.(g := gap.g.(channels := gap.g.channels[target := rt.(seqIn := f.sequence + 1)]));
      var v := Note1(u, Admitted(target, f.sequence));
      PushErrorAbout(v, target, w, ch);
    }
  }

  lemma {:induction false} OperationStep(g: Gate, t: GateTurn, f: Frame, w: World, ch: nat)
    requires t.g == g && t.r == NO_REPLY && IsOperation(f.opcode) && GateOk(g, ch) && TakesNext(g, Framed(f), ch)
    requires DataLegal(g.session, f, ClientRole)
    ensures GateStep(g, HandleOperation(t, f, w), ItemOf(Framed(f), Up(ch)), ch)
  {
    hide PushControl, PushApp, Items, FailSession;
    NoItems(Down(ch));
    var target := f.channelId;
    FailSteps(t, Gateway.MissingOperationId, w);
    if target in g.channels && f.operationId.Some? {
      var rt, id := g.channels[target], f.operationId.value;
      FailSteps(t.(g := g.(channels := g.channels[target := rt.(opSeqIn := rt.opSeqIn[id := Gateway.Expected(rt.opSeqIn, id)])])),
                Gateway.OperationSequenceMismatch, w);
      var u := t.(g := g.(channels := g.channels[target := rt.(opSeqIn := rt.opSeqIn[id := f.sequence + 1])]));
      var v := Note1(u, OperationAdmitted(target, id, f.sequence));
      PushErrorAbout(v, target, w, ch);
      RespondStep(v, target, ServiceResponse, id, w, ch);
      RespondStep(v, target, ActionResult, id, w, ch);
    }
  }

  lemma {:induction false} RespondStep(t: GateTurn, target: nat, op: Opcode, id: OperationId, w: World, ch: nat)
    requires target in t.g.channels && !op.ControlCbor?
    ensures var u := Respond(t, target, op, id, w);
            Mute(t, u, ch) && Steps(t, u) && u.g.session == t.g.session && u.r.notes == t.r.notes
  {
    hide PushApp, Items;
    var rt := t.g.channels[target];
    var u := t.(g := t.g.(channels := t.g.channels[target := TakeOpOut(rt, id)]));
    var f := OperationFrame(op, target, Gateway.Expected(rt.opSeqOut, id), id, w.payloadLen);
    AppSteps(u, f, w, ch);
    SameOut(t, u);
    StepsThrough(t, u, PushApp(u, f, w));
  }

  lemma {:induction false} ControlStep(g: Gate, t: GateTurn, msg: Control, w: World, ch: nat)
    requires GateOk(g, ch) && t.r == NO_REPLY && ApplyControl(g.session, msg, ClientRole).Accepted?
    requires t.g == g.(session := ApplyControl(g.session, msg, ClientRole).state, controlIn := g.controlIn + 1)
    requires TakesNext(g, Framed(ControlFrame(g.controlIn, msg)), ch)
    ensures GateStep(g, HandleControl(t, msg, ApplyControl(g.session, msg, ClientRole).effects, w),
                     ItemOf(Framed(ControlFrame(g.controlIn, msg)), Up(ch)), ch)
  {
    hide PushControl, HandleAuthenticate, OpenTheChannel, Items;
    NoItems(Down(ch));
    match msg
    case Authenticate =>
      AuthenticateSteps(t, w, ch);
    case OpenChannel(id, kind, qos, asked) =>
      if id == ch {
        OpenAnnounces(t, ch, kind, qos, asked, w);
      } else {
        OpenMute(t, id, kind, qos, asked, w, ch);
      }
    case Heartbeat(_) =>
      var u := t.(g := t.g.(heartbeats := t.g.heartbeats + 1));
      PushSteps(u, Heartbeat(u.g.heartbeats), w);
      PushMute(u, Heartbeat(u.g.heartbeats), w, ch);
    case _ =>
  }

  // ---------------------------------------------------------------- counting

  lemma {:induction false} PublishCounts(t: GateTurn, f: Frame, w: World)
    ensures Steps(t, HandlePublish(t, f, w))
  {
    hide PushControl, FailSession, Steps;
    FailSteps(t, Gateway.RosReliableIffEffective, w);
    FailSteps(t, Gateway.RetainedNeedsTransientLocal, w);
    FailSteps(t, Gateway.ReliableSequenceMismatch, w);
    var target := f.channelId;
    SameOut(t, Close(t));
    SameOut(t, Note1(t, StaleSequence(target)));
    if target in t.g.channels {
      var rt := t.g.channels[target];
      var gap := if f.sequence > rt.seqIn then Note1(t, SequenceGap(target)) else t;
      var u := gap.(g := gap.g.(channels := gap.g.channels[target := rt.(seqIn := f.sequence + 1)]));
      var v := Note1(u, Admitted(target, f.sequence));
      SameOut(t, Close(u));
      SameOut(t, v);
      PushSteps(v, ErrorMessage(1, Some(target)), w);
      StepsThrough(t, v, PushControl(v, ErrorMessage(1, Some(target)), w).turn);
    }
  }

  lemma {:induction false} OperationCounts(t: GateTurn, f: Frame, w: World)
    ensures Steps(t, HandleOperation(t, f, w))
  {
    hide PushControl, FailSession, Steps, Respond;
    var target := f.channelId;
    FailSteps(t, Gateway.MissingOperationId, w);
    SameOut(t, Close(t));
    if target in t.g.channels && f.operationId.Some? {
      var rt, id := t.g.channels[target], f.operationId.value;
      var s := t.(g := t.g.(channels := t.g.channels[target := rt.(opSeqIn := rt.opSeqIn[id := Gateway.Expected(rt.opSeqIn, id)])]));
      SameOut(t, s);
      FailSteps(s, Gateway.OperationSequenceMismatch, w);
      StepsThrough(t, s, FailSession(s, Gateway.OperationSequenceMismatch, w));
      var u := t.(g := t.g.(channels := t.g.channels[target := rt.(opSeqIn := rt.opSeqIn[id := f.sequence + 1])]));
      var v := Note1(u, OperationAdmitted(target, id, f.sequence));
      SameOut(t, Close(u));
      SameOut(t, v);
      PushSteps(v, ErrorMessage(1, Some(target)), w);
      StepsThrough(t, v, PushControl(v, ErrorMessage(1, Some(target)), w).turn);
      RespondStep(v, target, ServiceResponse, id, w, target);
      StepsThrough(t, v, Respond(v, target, ServiceResponse, id, w));
      RespondStep(v, target, ActionResult, id, w, target);
      StepsThrough(t, v, Respond(v, target, ActionResult, id, w));
    }
  }

  lemma {:induction false} ControlCounts(t: GateTurn, msg: Control, fx: Effects, w: World)
    ensures var u := HandleControl(t, msg, fx, w);
            Steps(t, u) && u.r.notes == t.r.notes
  {
    hide PushControl, HandleAuthenticate, OpenTheChannel, Steps;
    SameOut(t, t);
    match msg
    case Authenticate => AuthenticateSteps(t, w, 0);
    case OpenChannel(_, kind, qos, asked) =>
      if fx.opening.Some? {
        OpenSteps(t, fx.opening.value, kind, qos, asked, w);
      }
    case CloseChannel(_) =>
      if fx.closing.Some? {
        SameOut(t, t.(g := t.g.(channels := t.g.channels - {fx.closing.value})));
      }
    case Heartbeat(_) =>
      var u := t.(g := t.g.(heartbeats := t.g.heartbeats + 1));
      SameOut(t, u);
      PushSteps(u, Heartbeat(u.g.heartbeats), w);
      StepsThrough(t, u, PushControl(u, Heartbeat(u.g.heartbeats), w).turn);
    case ErrorMessage(_, _) => SameOut(t, Close(t));
    case _ =>
  }

  /** Inbound counter and outbound numbers of one message. */
  ghost predicate Accounted(g: Gate, m: Wire, u: GateTurn) {
    && g.controlOut <= u.g.controlOut && Items(u.r.outbound, ControlStream) == Range(g.controlOut, u.g.controlOut)
    && (!u.r.close ==>
      if ControlNumber(m).Some? then ControlNumber(m).value == g.controlIn && u.g.controlIn == g.controlIn + 1
      else u.g.controlIn == g.controlIn)
  }

  lemma {:induction false} FromNothing(g: Gate, t: GateTurn, u: GateTurn)
    requires Steps(t, u) && t.r.outbound == [] && t.g.controlOut == g.controlOut
    ensures g.controlOut <= u.g.controlOut && Items(u.r.outbound, ControlStream) == Range(g.controlOut, u.g.controlOut)
  {
    assert Counted(t, g.controlOut);
  }

  lemma {:induction false} SameInbound(t: GateTurn, u: GateTurn)
    requires Steps(t, u)
    ensures u.g.controlIn == t.g.controlIn
  {
  }

  lemma {:induction false} FrameCounts(g: Gate, m: Wire, w: World)
    ensures Accounted(g, m, HandleFrame(GateTurn(g, NO_REPLY), m, w))
  {
    hide ApplyFrame, FailSession, HandlePublish, HandleOperation, HandleControl, Steps, Items;
    var t := GateTurn(g, NO_REPLY);
    var r := HandleFrame(t, m, w);
    FailSteps(t, Gateway.ParseRejected, w);
    FailSteps(t, Gateway.SessionRejected, w);
    if !w.parses || !m.Framed? || ApplyFrame(g.session, m.frame, ClientRole).Violation? {
      FromNothing(g, t, r);
    } else {
      var f := m.frame;
      var a := ApplyFrame(g.session, f, ClientRole);
      var u := t.(g := t.g.(session := a.state));
      FailSteps(u, Gateway.ControlSequenceMismatch, w);
      if f.opcode.ControlCbor? {
        var v := u.(g := u.g.(controlIn := u.g.controlIn + 1));
        if f.sequence != g.controlIn {
          FromNothing(g, u, r);
        } else if !f.payload.ControlPayload? {
          SameOut(v, r);
          FromNothing(g, v, r);
        } else {
          ControlCounts(v, f.payload.msg, a.effects, w);
          FromNothing(g, v, r);
          SameInbound(v, r);
        }
      } else {
        PublishCounts(u, f, w);
        OperationCounts(u, f, w);
        SameOut(u, u);
        FromNothing(g, u, r);
        SameInbound(u, r);
      }
    }
  }

  lemma {:induction false} BootstrapCounts(g: Gate, m: Wire, w: World)
    ensures var u := HandleBootstrap(GateTurn(g, NO_REPLY), m, w);
            && u.g.controlOut == g.controlOut && u.g.controlIn == g.controlIn && Items(u.r.outbound, ControlStream) == []
            && u.g.channels == g.channels && u.g.session.channels == g.session.channels && u.r.notes == []
            && (!u.r.close ==> m.Boot?) && forall ch :: Items(u.r.outbound, Down(ch)) == []
  {
    hide ApplyBootstrap;
    var u := HandleBootstrap(GateTurn(g, NO_REPLY), m, w);
    BootChannels(g.session);
    NoItems(ControlStream);
    ItemsOne(Boot(BootstrapError), ControlStream);
    ItemsOne(Boot(ServerHello), ControlStream);
    assert u.r.outbound == [] || u.r.outbound == [Boot(BootstrapError)] || u.r.outbound == [Boot(ServerHello)];
    forall ch ensures Items(u.r.outbound, Down(ch)) == [] {
      NoItems(Down(ch));
      ItemsOne(Boot(BootstrapError), Down(ch));
      ItemsOne(Boot(ServerHello), Down(ch));
    }
  }

  lemma {:induction false} BootChannels(s: State)
    ensures forall r, role :: ApplyBootstrap(s, r, role).Accepted? ==> ApplyBootstrap(s, r, role).state.channels == s.channels
    ensures forall r, role, r2, role2 :: ApplyBootstrap(s, r, role).Accepted? && ApplyBootstrap(ApplyBootstrap(s, r, role).state, r2, role2).Accepted? ==>
              ApplyBootstrap(ApplyBootstrap(s, r, role).state, r2, role2).state.channels == s.channels
  {
  }

  /** Every inbound message accounts for its control numbers, both ways. */
  lemma {:induction false} InboundCounts(g: Gate, m: Wire, w: World)
    ensures Accounted(g, m, HandleInbound(g, m, w))
  {
    hide HandleFrame, HandleBootstrap, Items;
    var t := GateTurn(g, NO_REPLY);
    NoItems(ControlStream);
    BootstrapCounts(g, m, w);
    FrameCounts(g, m, w);
  }

  // ---------------------------------------------------------------- one inbound message, one channel

  lemma {:induction false} FrameStep(g: Gate, m: Wire, w: World, ch: nat)
    requires GateOk(g, ch) && TakesNext(g, m, ch)
    ensures GateStep(g, HandleFrame(GateTurn(g, NO_REPLY), m, w), ItemOf(m, Up(ch)), ch)
  {
    hide ApplyControl, FailSession, HandlePublish, HandleOperation, HandleControl, Items, GateStep, GateOk, TakesNext;
    var t := GateTurn(g, NO_REPLY);
    var r := HandleFrame(t, m, w);
    FailSteps(t, Gateway.ParseRejected, w);
    FailSteps(t, Gateway.SessionRejected, w);
    if !w.parses || !m.Framed? || ApplyFrame(g.session, m.frame, ClientRole).Violation? {
      Over(g, r, ItemOf(m, Up(ch)), ch);
    } else {
      var f := m.frame;
      var a := ApplyFrame(g.session, f, ClientRole);
      var u := t.(g := t.g.(session := a.state));
      FailSteps(u, Gateway.ControlSequenceMismatch, w);
      if f.opcode.ControlCbor? {
        if f.sequence != g.controlIn || !f.payload.ControlPayload? {
          Over(g, r, ItemOf(m, Up(ch)), ch);
        } else {
          assert TakesNext(g, Framed(ControlFrame(g.controlIn, f.payload.msg)), ch) by {
            SameTakes(g, m, Framed(ControlFrame(g.controlIn, f.payload.msg)), ch);
          }
          ControlStep(g, u.(g := u.g.(controlIn := u.g.controlIn + 1)), f.payload.msg, w, ch);
        }
      } else {
        assert u.g == g;
        if f.opcode.RosSample? {
          PublishStep(g, u, f, w, ch);
        } else {
          OperationStep(g, u, f, w, ch);
        }
      }
    }
  }

  lemma {:induction false} Over(g: Gate, u: GateTurn, got: Option<Item>, ch: nat)
    requires u.r.close
    ensures GateStep(g, u, got, ch)
  {
  }

  lemma {:induction false} SameTakes(g: Gate, m: Wire, n: Wire, ch: nat)
    requires TakesNext(g, m, ch) && ItemOf(m, Up(ch)) == ItemOf(n, Up(ch))
    ensures TakesNext(g, n, ch)
  {
  }

  /** Every inbound message moves every channel as the joint invariant allows. */
  lemma {:induction false} InboundStep(g: Gate, m: Wire, w: World, ch: nat)
    requires GateOk(g, ch) && TakesNext(g, m, ch)
    ensures GateStep(g, HandleInbound(g, m, w), ItemOf(m, Up(ch)), ch)
  {
    hide HandleFrame, HandleBootstrap, Items;
    if g.session.phase.InSelectedPlane() {
      FrameStep(g, m, w, ch);
    } else {
      BootstrapCounts(g, m, w);
    }
  }

  /** A sample the client sent is admitted, at the sequence number the gateway expects. */
  lemma {:induction false} SampleAdmitted(g: Gate, f: Frame, w: World)
    requires f.opcode.RosSample? && w.parses && GateOk(g, f.channelId) && TakesNext(g, Framed(f), f.channelId)
    ensures f.channelId in g.channels && f.sequence == g.channels[f.channelId].seqIn
    ensures HandleInbound(g, Framed(f), w).r.notes == [Admitted(f.channelId, f.sequence)]
  {
    hide PushControl;
    var ch := f.channelId;
    assert DataLegal(g.session, f, ClientRole);
    var t := GateTurn(g, NO_REPLY);
    var u := t.(g := t.g.(channels := t.g.channels[ch := g.channels[ch].(seqIn := f.sequence + 1)]));
    PushSteps(Note1(u, Admitted(ch, f.sequence)), ErrorMessage(1, Some(ch)), w);
  }

  /** All an operation frame can be noted as; only an admitted one leaves the session open. */
  lemma {:induction false} OperationNotes(t: GateTurn, f: Frame, w: World)
    requires t.r.notes == []
    ensures var u := HandleOperation(t, f, w).r;
            if f.channelId !in t.g.channels then u.close && u.notes == []
            else if f.operationId.None? then u.close && u.notes == [FailedSession(MissingOperationId)]
            else if f.sequence != Gateway.Expected(t.g.channels[f.channelId].opSeqIn, f.operationId.value) then
              u.close && u.notes == [FailedSession(OperationSequenceMismatch)]
            else if !f.payload.AppPayload? then u.close && u.notes == []
            else u.notes == [OperationAdmitted(f.channelId, f.operationId.value, f.sequence)]
  {
    hide PushControl, FailSession, Respond;
    var target := f.channelId;
    FailSteps(t, Gateway.MissingOperationId, w);
    if target in t.g.channels && f.operationId.Some? {
      var rt, id := t.g.channels[target], f.operationId.value;
      FailSteps(t.(g := t.g.(channels := t.g.channels[target := rt.(opSeqIn := rt.opSeqIn[id := Gateway.Expected(rt.opSeqIn, id)])])),
                Gateway.OperationSequenceMismatch, w);
      var u := t.(g := t.g.(channels := t.g.channels[target := rt.(opSeqIn := rt.opSeqIn[id := f.sequence + 1])]));
      var v := Note1(u, OperationAdmitted(target, id, f.sequence));
      PushSteps(v, ErrorMessage(1, Some(target)), w);
      RespondStep(v, target, ServiceResponse, id, w, target);
      RespondStep(v, target, ActionResult, id, w, target);
    }
  }

  /** No message the client sent makes the gateway report a sequence, flag or gap problem. */
  lemma {:induction false} InboundPeace(g: Gate, m: Wire, w: World)
    requires forall ch :: GateOk(g, ch) && TakesNext(g, m, ch)
    requires ControlNumber(m).Some? ==> ControlNumber(m).value == g.controlIn
    ensures Peaceful(HandleInbound(g, m, w).r.notes)
  {
    hide ApplyFrame, FailSession, HandlePublish, HandleOperation, HandleControl, HandleBootstrap, GateOk, TakesNext;
    var t := GateTurn(g, NO_REPLY);
    BootstrapCounts(g, m, w);
    FailSteps(t, Gateway.ParseRejected, w);
    FailSteps(t, Gateway.SessionRejected, w);
    if g.session.phase.InSelectedPlane() && !g.session.phase.IsTerminal() && m.Framed? && w.parses {
      var f := m.frame;
      var a := ApplyFrame(g.session, f, ClientRole);
      if a.Accepted? {
        var u := t.(g := t.g.(session := a.state));
        if f.opcode.ControlCbor? {
          if f.payload.ControlPayload? {
            ControlCounts(u.(g := u.g.(controlIn := u.g.controlIn + 1)), f.payload.msg, a.effects, w);
          }
        } else if f.opcode.RosSample? {
          SampleAdmitted(g, f, w);
        } else {
          OperationNotes(u, f, w);
        }
      }
    }
  }

  // ---------------------------------------------------------------- work from the ROS side

  lemma {:induction false} RequestStep(g: Gate, target: nat, op: OperationCode, id: OperationId, w: World, ch: nat)
    ensures var u := PushRequest(g, target, op, id, w);
            && GateViewOf(u.g, ch) == GateViewOf(g, ch) && Items(u.r.outbound, Down(ch)) == [] && (GateOk(g, ch) ==> GateOk(u.g, ch))
            && u.g.controlIn == g.controlIn && u.g.controlOut == g.controlOut && Items(u.r.outbound, ControlStream) == []
  {
    hide Respond, Items;
    NoItems(Down(ch));
    NoItems(ControlStream);
    if target in g.channels {
      RespondStep(GateTurn(g, NO_REPLY), target, op, id, w, ch);
      RespondOut(GateTurn(g, NO_REPLY), target, op, id, w);
    }
  }

  lemma {:induction false} RespondOut(t: GateTurn, target: nat, op: OperationCode, id: OperationId, w: World)
    requires target in t.g.channels && t.r.outbound == []
    ensures var u := Respond(t, target, op, id, w);
            u.g.controlOut == t.g.controlOut && Items(u.r.outbound, ControlStream) == []
  {
    hide ApplyFrame;
    var rt := t.g.channels[target];
    var f := OperationFrame(op, target, Gateway.Expected(rt.opSeqOut, id), id, w.payloadLen);
    ItemsOne(Framed(f), ControlStream);
    NoItems(ControlStream);
    assert [] + [Framed(f)] == [Framed(f)];
  }
}
