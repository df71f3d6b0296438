/** What a client has to have been granted: nothing is served before the login was accepted, and
    no channel is open that was not served and created. */
module GatewayAccess {
  import opened ByteOrder
  import opened Qos
  import opened Session
  import opened Gateway
  import opened GatewayConnection
  import GatewayLaws
  import opened LinkGateway
  import Replay

  /** The login of the turn was accepted. */
  predicate Admits(t: GatewayConnection.Turn) {
    t.Inbound? && t.world.parses && t.world.authOk && Replay.MessageOf(t.message) == Some(Authenticate)
  }

  /** So was the hello. */
  predicate Welcomes(t: GatewayConnection.Turn) {
    t.Inbound? && t.world.parses && t.world.helloOk && t.message == Boot(ClientHello)
  }

  /** The turn's request to open `ch` was served: allowed, created, and of this kind and QoS. */
  predicate Grants(t: GatewayConnection.Turn, ch: nat, rt: Runtime) {
    && t.Inbound? && t.world.parses && t.world.serves && t.world.created && Replay.MessageOf(t.message).Some?
    && match Replay.MessageOf(t.message).value
       case OpenChannel(id, kind, qos, asked) =>
         && id == ch && rt.kind == kind
         && var e := ResolveEffective(TakeAll(DEFAULT_REQUEST, qos));
         rt.reliable == ((kind.TopicSubscribe? || kind.TopicPublish?) ==> e.reliable) && rt.transientLocal == e.transientLocal
         && rt.priority == (if asked.Some? then asked.value else 2) % 256
       case _ => false
  }

  ghost predicate LoggedIn(turns: seq<GatewayConnection.Turn>) {
    exists i :: 0 <= i < |turns| && Admits(turns[i])
  }

  ghost predicate Welcomed(turns: seq<GatewayConnection.Turn>) {
    exists i :: 0 <= i < |turns| && Welcomes(turns[i])
  }

  ghost predicate Granted(turns: seq<GatewayConnection.Turn>, ch: nat, rt: Runtime) {
    exists i :: 0 <= i < |turns| && Grants(turns[i], ch, rt)
  }

  /** The same port, however far its counters are. */
  predicate SamePort(a: Runtime, b: Runtime) {
    a.kind == b.kind && a.reliable == b.reliable && a.transientLocal == b.transientLocal && a.priority == b.priority
  }

  /** Everything but bootstrap records and errors: answers to opens, the graph, samples, calls. */
  predicate Private(w: Wire) {
    w.RawSample? || (w.Framed? && !(Replay.MessageOf(w).Some? && Replay.MessageOf(w).value.ErrorMessage?))
  }

  predicate Discreet(ws: seq<Wire>) {
    forall i :: 0 <= i < |ws| ==> !Private(ws[i])
  }

  /** What every step but a login and an open keeps: no port appears, the session gets no
      further, and before it is ready nothing private is sent. */
  predicate KeepsPorts(t: GateTurn, u: GateTurn) {
    && (forall ch :: ch in u.g.channels ==> ch in t.g.channels && SamePort(t.g.channels[ch], u.g.channels[ch]))
    && (u.g.session.phase.Ready? ==> t.g.session.phase.Ready?)
    && (u.g.session.phase.InSelectedPlane() ==> t.g.session.phase.InSelectedPlane())
    && (!t.g.session.phase.Ready? && Discreet(t.r.outbound) ==> Discreet(u.r.outbound))
  }

  lemma {:induction false} KeepsThrough(t: GateTurn, s: GateTurn, u: GateTurn)
    requires KeepsPorts(t, s) && KeepsPorts(s, u)
    ensures KeepsPorts(t, u)
  {
    hide Discreet;
  }

  lemma {:induction false} PushKeepsPhase(t: GateTurn, msg: Control, w: World)
    ensures var u := PushControl(t, msg, w).turn;
            && u.g.channels == t.g.channels
            && (u.g.session.phase.InSelectedPlane() ==> t.g.session.phase.InSelectedPlane())
            && (u.g.session.phase.Ready? ==> t.g.session.phase.Ready? || (msg.SessionReady? && t.g.session.phase.AwaitSessionReady?))
            && (u.r.outbound == t.r.outbound
                || (&& u.r.outbound == t.r.outbound + [Framed(ControlFrame(t.g.controlOut, msg))]
                    && (t.g.session.phase.Ready? || msg.SessionReady? || msg.ErrorMessage?)))
  {
    match msg
    case ErrorMessage(_, _) =>
    case _ =>
  }

  lemma {:induction false} PushKeepsPorts(t: GateTurn, msg: Control, w: World)
    requires !msg.SessionReady?
    ensures KeepsPorts(t, PushControl(t, msg, w).turn)
  {
    hide PushControl;
    PushKeepsPhase(t, msg, w);
  }

  lemma {:induction false} FailKeepsPorts(t: GateTurn, reason: Reason, w: World)
    ensures KeepsPorts(t, FailSession(t, reason, w))
  {
    hide PushControl;
    PushKeepsPorts(Note1(t, FailedSession(reason)), ErrorMessage(0, None), w);
  }

  lemma {:induction false} PublishKeepsPorts(t: GateTurn, f: Frame, w: World)
    ensures KeepsPorts(t, HandlePublish(t, f, w))
  {
    hide PushControl, FailSession, Discreet;
    FailKeepsPorts(t, RosReliableIffEffective, w);
    FailKeepsPorts(t, RetainedNeedsTransientLocal, w);
    FailKeepsPorts(t, ReliableSequenceMismatch, w);
    var ch := f.channelId;
    if ch in t.g.channels {
      var rt := t.g.channels[ch];
      var gap := if f.sequence > rt.seqIn then Note1(t, SequenceGap(ch)) else t;
      var u := gap.(g := gap.g.(channels := gap.g.channels[ch := rt.(seqIn := f.sequence + 1)]));
      PushKeepsPorts(Note1(u, Admitted(ch, f.sequence)), ErrorMessage(1, Some(ch)), w);
    }
  }

  lemma {:induction false} RespondKeepsPorts(t: GateTurn, ch: nat, op: Opcode, id: OperationId, w: World)
    requires ch in t.g.channels && IsOperation(op)
    ensures KeepsPorts(t, Respond(t, ch, op, id, w))
  {
    hide DataLegal;
    assert ApplyFrame(t.g.session, OperationFrame(op, ch, Expected(t.g.channels[ch].opSeqOut, id), id, w.payloadLen), ServerRole).Accepted? ==>
      t.g.session.phase.Ready? by {
      LegalIsReady(t.g.session, OperationFrame(op, ch, Expected(t.g.channels[ch].opSeqOut, id), id, w.payloadLen));
    }
  }

  lemma {:induction false} LegalIsReady(s: State, f: Frame)
    requires IsOperation(f.opcode)
    ensures ApplyFrame(s, f, ServerRole).Accepted? ==> s.phase.Ready? && ApplyFrame(s, f, ServerRole).state == s
  {
  }

  /** Moving a counter keeps the port. */
  lemma {:induction false} CounterMoves(t: GateTurn, ch: nat, rt: Runtime, notes: seq<Note>, close: bool)
    requires ch in t.g.channels && SamePort(t.g.channels[ch], rt)
    ensures KeepsPorts(t, GateTurn(t.g.(channels := t.g.channels[ch := rt]), Reply(t.r.outbound, close, notes)))
  {
    hide Discreet;
  }

  lemma {:induction false} OperationKeepsPorts(t: GateTurn, f: Frame, w: World)
    ensures KeepsPorts(t, HandleOperation(t, f, w))
  {
    hide PushControl, FailSession, Respond, KeepsPorts;
    FailKeepsPorts(t, MissingOperationId, w);
    var ch := f.channelId;
    if ch in t.g.channels && f.operationId.Some? {
      var rt, id := t.g.channels[ch], f.operationId.value;
      var s := t.(g := t.g.(channels := t.g.channels[ch := rt.(opSeqIn := rt.opSeqIn[id := Expected(rt.opSeqIn, id)])]));
      CounterMoves(t, ch, s.g.channels[ch], t.r.notes, t.r.close);
      FailKeepsPorts(s, OperationSequenceMismatch, w);
      KeepsThrough(t, s, FailSession(s, OperationSequenceMismatch, w));
      var u := t.(g := t.g.(channels := t.g.channels[ch := rt.(opSeqIn := rt.opSeqIn[id := f.sequence + 1])]));
      CounterMoves(t, ch, u.g.channels[ch], t.r.notes, true);
      var v := Note1(u, OperationAdmitted(ch, id, f.sequence));
      CounterMoves(t, ch, u.g.channels[ch], v.r.notes, t.r.close);
      PushKeepsPorts(v, ErrorMessage(1, Some(ch)), w);
      KeepsThrough(t, v, PushControl(v, ErrorMessage(1, Some(ch)), w).turn);
      RespondKeepsPorts(v, ch, ServiceResponse, id, w);
      KeepsThrough(t, v, Respond(v, ch, ServiceResponse, id, w));
      RespondKeepsPorts(v, ch, ActionResult, id, w);
      KeepsThrough(t, v, Respond(v, ch, ActionResult, id, w));
    } else {
      FewerPorts(t, Close(t));
    }
  }

  // ---------------------------------------------------------------- login and open

  /** What a turn may do: a port that appears was granted by it, readiness comes from a login it
      accepted, the selected plane from a hello, and before either nothing private is sent. */
  ghost predicate Justified(g: Gate, u: GateTurn, t: GatewayConnection.Turn) {
    && (forall ch :: ch in u.g.channels ==>
      (ch in g.channels && SamePort(g.channels[ch], u.g.channels[ch])) || (g.session.phase.Ready? && Grants(t, ch, u.g.channels[ch])))
    && (u.g.session.phase.Ready? ==> g.session.phase.Ready? || Admits(t))
    && (u.g.session.phase.InSelectedPlane() ==> g.session.phase.InSelectedPlane() || Welcomes(t))
    && (Discreet(u.r.outbound) || g.session.phase.Ready? || Admits(t))
  }

  lemma {:induction false} KeptIsJustified(g: Gate, s: GateTurn, u: GateTurn, t: GatewayConnection.Turn)
    requires KeepsPorts(s, u) && s.g.channels == g.channels && s.r.outbound == []
    requires s.g.session.phase.Ready? ==> g.session.phase.Ready?
    requires s.g.session.phase.InSelectedPlane() ==> g.session.phase.InSelectedPlane()
    ensures Justified(g, u, t)
  {
    hide Grants, Admits, Welcomes;
    assert Discreet([]);
  }

  lemma {:induction false} LoginJustified(g: Gate, t: GateTurn, w: World, turn: GatewayConnection.Turn)
    requires t.r == NO_REPLY && t.g.channels == g.channels && t.g.session.phase.AwaitSessionReady? && g.session.phase.InSelectedPlane()
    requires turn.Inbound? && turn.world == w && w.parses && Replay.MessageOf(turn.message) == Some(Authenticate)
    ensures Justified(g, HandleAuthenticate(t, w), turn)
  {
    hide PushControl, Grants;
    PushKeepsPorts(t, ErrorMessage(0, None), w);
    if !w.authOk {
      KeptIsJustified(g, t, HandleAuthenticate(t, w), turn);
    } else {
      var p := PushControl(t, SessionReady, w).turn;
      PushKeepsPhase(t, SessionReady, w);
      PushKeepsPhase(p, ErrorMessage(0, None), w);
      PushKeepsPhase(p, GraphSnapshot(1), w);
    }
  }

  lemma {:induction false} OpenJustified(g: Gate, t: GateTurn, f: Frame, ch: nat, w: World, turn: GatewayConnection.Turn)
    requires t.r == NO_REPLY && t.g.channels == g.channels && g.session.phase.Ready? && t.g.session.phase.Ready?
    requires turn == Inbound(Framed(f), w) && w.parses && f.opcode.ControlCbor? && f.payload.ControlPayload?
    requires f.payload.msg.OpenChannel? && f.payload.msg.channelId == ch
    ensures Justified(g, OpenTheChannel(t, ch, f.payload.msg.kind, f.payload.msg.qos, f.payload.msg.priority, w), turn)
  {
    hide PushControl, PushDelta, ResolveEffective, TakeAll, ReadyFor, Discreet;
    var msg := f.payload.msg;
    PushKeepsPhase(t, ChannelReady(ch, 3, None), w);
    if w.serves && w.created {
      var e := ResolveEffective(TakeAll(DEFAULT_REQUEST, msg.qos));
      var r := t.(g := t.g.(channels := t.g.channels[ch := NewRuntime(msg.kind, e, msg.priority)]));
      assert Grants(turn, ch, NewRuntime(msg.kind, e, msg.priority));
      PushKeepsPhase(r, ReadyFor(ch, msg.kind, e), w);
      DeltaKeepsPhase(PushControl(r, ReadyFor(ch, msg.kind, e), w).turn, w);
    }
  }

  lemma {:induction false} DeltaKeepsPhase(t: GateTurn, w: World)
    ensures PushDelta(t, w).g.channels == t.g.channels
  {
    hide PushControl;
    if t.g.graph.Some? {
      PushKeepsPhase(t, GraphDelta(t.g.graph.value, t.g.graph.value + 1), w);
    }
  }

  /** What the session makes of a client's frame. */
  lemma {:induction false} FramePhase(s: State, f: Frame)
    ensures var a := ApplyFrame(s, f, ClientRole);
            a.Accepted? ==>
              && s.phase.InSelectedPlane()
              && (a.state.phase.Ready? ==> s.phase.Ready?)
              && (f.opcode.ControlCbor? && f.payload.ControlPayload? ==>
                && (f.payload.msg.Authenticate? ==> a.state.phase.AwaitSessionReady?)
                && (f.payload.msg.OpenChannel? ==>
                  s.phase.Ready? && a.state.phase.Ready? && a.effects.opening == Some(f.payload.msg.channelId)))
  {
    hide DataLegal;
  }

  lemma {:induction false} ControlJustified(g: Gate, t: GateTurn, f: Frame, fx: Effects, w: World, turn: GatewayConnection.Turn)
    requires t.r == NO_REPLY && t.g.channels == g.channels && g.session.phase.InSelectedPlane()
    requires t.g.session.phase.Ready? ==> g.session.phase.Ready?
    requires turn == Inbound(Framed(f), w) && w.parses && f.opcode.ControlCbor? && f.payload.ControlPayload?
    requires f.payload.msg.Authenticate? ==> t.g.session.phase.AwaitSessionReady?
    requires f.payload.msg.OpenChannel? ==>
      g.session.phase.Ready? && t.g.session.phase.Ready? && fx.opening == Some(f.payload.msg.channelId)
    ensures Justified(g, HandleControl(t, f.payload.msg, fx, w), turn)
  {
    hide PushControl, HandleAuthenticate, OpenTheChannel, Justified, KeepsPorts;
    var u := HandleControl(t, f.payload.msg, fx, w);
    match f.payload.msg
    case Authenticate => LoginJustified(g, t, w, turn);
    case OpenChannel(ch, _, _, _) => OpenJustified(g, t, f, ch, w, turn);
    case Heartbeat(_) =>
      var s := t.(g := t.g.(heartbeats := t.g.heartbeats + 1));
      PushKeepsPorts(s, Heartbeat(s.g.heartbeats), w);
      KeptIsJustified(g, s, u, turn);
    case _ =>
      FewerPorts(t, u);
      KeptIsJustified(g, t, u, turn);
  }

  lemma {:induction false} FewerPorts(t: GateTurn, u: GateTurn)
    requires u.r.outbound == t.r.outbound && u.g.session == t.g.session
    requires forall ch :: ch in u.g.channels ==> ch in t.g.channels && u.g.channels[ch] == t.g.channels[ch]
    ensures KeepsPorts(t, u)
  {
  }

  lemma {:induction false} BootJustified(g: Gate, m: Wire, w: World)
    requires !g.session.phase.InSelectedPlane()
    ensures Justified(g, HandleBootstrap(GateTurn(g, NO_REPLY), m, w), Inbound(m, w))
  {
    hide Grants;
  }

  lemma {:induction false} InboundJustified(g: Gate, m: Wire, w: World)
    ensures Justified(g, HandleInbound(g, m, w), Inbound(m, w))
  {
    hide ApplyFrame, FailSession, HandlePublish, HandleOperation, HandleControl, HandleBootstrap, Justified, KeepsPorts;
    var t, turn, r := GateTurn(g, NO_REPLY), Inbound(m, w), HandleInbound(g, m, w);
    if g.session.phase.IsTerminal() {
      FewerPorts(t, r);
      KeptIsJustified(g, t, r, turn);
    } else if !g.session.phase.InSelectedPlane() {
      BootJustified(g, m, w);
    } else if !w.parses || !m.Framed? {
      FailKeepsPorts(t, ParseRejected, w);
      KeptIsJustified(g, t, r, turn);
    } else {
      var f := m.frame;
      FramePhase(g.session, f);
      var a := ApplyFrame(g.session, f, ClientRole);
      if a.Violation? {
        FailKeepsPorts(t, SessionRejected, w);
        KeptIsJustified(g, t, r, turn);
      } else {
        var u := t.(g := t.g.(session := a.state));
        var v := u.(g := u.g.(controlIn := u.g.controlIn + 1));
        FailKeepsPorts(u, ControlSequenceMismatch, w);
        PublishKeepsPorts(u, f, w);
        OperationKeepsPorts(u, f, w);
        FewerPorts(u, u);
        FewerPorts(v, Close(v));
        if f.opcode.ControlCbor? && f.sequence == g.controlIn && f.payload.ControlPayload? {
          ControlJustified(g, v, f, a.effects, w, turn);
        } else if f.opcode.ControlCbor? && f.sequence == g.controlIn {
          KeptIsJustified(g, v, r, turn);
        } else {
          KeptIsJustified(g, u, r, turn);
        }
      }
    }
  }

  // ---------------------------------------------------------------- every run

  /** Everything the connection has open, shown or sent was granted in its history. */
  ghost predicate Earned(c: Conn, done: seq<GatewayConnection.Turn>) {
    && (c.gate.session.phase.InSelectedPlane() ==> Welcomed(done))
    && (c.gate.session.phase.Ready? ==> LoggedIn(done))
    && (forall ch :: ch in c.gate.channels ==> LoggedIn(done) && Granted(done, ch, c.gate.channels[ch]))
    && (Discreet(c.wire) || LoggedIn(done))
  }

  lemma {:induction false} HistoryGrows(done: seq<GatewayConnection.Turn>, t: GatewayConnection.Turn)
    ensures var more := done + [t];
            && (Welcomed(done) || Welcomes(t) ==> Welcomed(more))
            && (LoggedIn(done) || Admits(t) ==> LoggedIn(more))
            && (forall ch, rt :: Granted(done, ch, rt) || Grants(t, ch, rt) ==> Granted(more, ch, rt))
  {
    hide Welcomes, Admits, Grants;
    var more := done + [t];
    assert more[|done|] == t;
    forall i | 0 <= i < |done| ensures more[i] == done[i] {
    }
    if Welcomed(done) {
      var i :| 0 <= i < |done| && Welcomes(done[i]);
      assert Welcomes(more[i]);
    }
    if LoggedIn(done) {
      var i :| 0 <= i < |done| && Admits(done[i]);
      assert Admits(more[i]);
    }
    forall ch, rt | Granted(done, ch, rt) ensures Granted(more, ch, rt) {
      var i :| 0 <= i < |done| && Grants(done[i], ch, rt);
      assert Grants(more[i], ch, rt);
    }
  }

  lemma {:induction false} SamePortGranted(done: seq<GatewayConnection.Turn>, ch: nat, a: Runtime, b: Runtime)
    requires SamePort(a, b) && Granted(done, ch, a)
    ensures Granted(done, ch, b)
  {
    hide ResolveEffective, TakeAll;
    var i :| 0 <= i < |done| && Grants(done[i], ch, a);
    assert Grants(done[i], ch, b);
  }

  lemma {:induction false} JustifiedEarned(c: Conn, u: GateTurn, done: seq<GatewayConnection.Turn>, t: GatewayConnection.Turn)
    requires Earned(c, done) && Justified(c.gate, u, t)
    ensures Earned(Sent(c, u), done + [t])
  {
    hide Welcomed, LoggedIn, Granted, Welcomes, Admits, Grants, SamePort, Private;
    HistoryGrows(done, t);
    forall ch | ch in u.g.channels ensures Granted(done + [t], ch, u.g.channels[ch]) {
      if ch in c.gate.channels && SamePort(c.gate.channels[ch], u.g.channels[ch]) {
        SamePortGranted(done, ch, c.gate.channels[ch], u.g.channels[ch]);
      }
    }
  }

  lemma {:induction false} StepEarned(c: Conn, maxBytes: nat, t: GatewayConnection.Turn, done: seq<GatewayConnection.Turn>)
    requires Earned(c, done) && (t.Sample? ==> FRAME_HEADER_LENGTH <= |t.buf|)
    ensures Earned(ConnStep(c, maxBytes, t), done + [t])
  {
    hide HandleInbound, PushRequest, SampleStep, Justified, Earned;
    if !c.live {
      EarnedGrows(c, done, t);
    } else {
      match t
      case Inbound(m, w) =>
        InboundJustified(c.gate, m, w);
        JustifiedEarned(c, HandleInbound(c.gate, m, w), done, t);
      case Sample(ch, buf) => SampleEarned(c, maxBytes, ch, buf, done);
      case RosRequest(ch, op, id, w) =>
        RequestEarned(c, ch, op, id, w, done);
    }
  }

  lemma {:induction false} EarnedGrows(c: Conn, done: seq<GatewayConnection.Turn>, t: GatewayConnection.Turn)
    requires Earned(c, done)
    ensures Earned(c, done + [t])
  {
    hide Welcomed, LoggedIn, Granted, Welcomes, Admits, Grants, Discreet;
    HistoryGrows(done, t);
  }

  lemma {:induction false} SampleEarned(c: Conn, maxBytes: nat, ch: nat, buf: seq<byte>, done: seq<GatewayConnection.Turn>)
    requires Earned(c, done) && FRAME_HEADER_LENGTH <= |buf|
    ensures Earned(SampleStep(c, maxBytes, ch, buf), done + [Sample(ch, buf)])
  {
    hide FrameSample, Welcomed, LoggedIn, Granted, Private;
    EarnedGrows(c, done, Sample(ch, buf));
    FramingNeeds(c.gate, ch, buf);
    var d := SampleStep(c, maxBytes, ch, buf);
    forall n | n in d.gate.channels ensures LoggedIn(done + [Sample(ch, buf)]) && Granted(done + [Sample(ch, buf)], n, d.gate.channels[n]) {
      SamePortGranted(done + [Sample(ch, buf)], n, c.gate.channels[n], d.gate.channels[n]);
    }
  }

  lemma {:induction false} RequestEarned(c: Conn, ch: nat, op: OperationCode, id: OperationId, w: World, done: seq<GatewayConnection.Turn>)
    requires Earned(c, done)
    ensures Earned(Sent(c, PushRequest(c.gate, ch, op, id, w)), done + [RosRequest(ch, op, id, w)])
  {
    hide Respond, Earned, Justified, KeepsPorts;
    var t, u, turn := GateTurn(c.gate, NO_REPLY), PushRequest(c.gate, ch, op, id, w), RosRequest(ch, op, id, w);
    FewerPorts(t, t);
    if ch in c.gate.channels {
      RespondKeepsPorts(t, ch, op, id, w);
    }
    KeptIsJustified(c.gate, t, u, turn);
    JustifiedEarned(c, u, done, turn);
  }

  lemma {:induction false} RunEarned(c: Conn, maxBytes: nat, turns: seq<GatewayConnection.Turn>, done: seq<GatewayConnection.Turn>)
    requires GatewayLaws.Prefixed(turns) && Earned(c, done)
    ensures Earned(GatewayLaws.RunConn(c, maxBytes, turns), done + turns)
    decreases |turns|
  {
    hide ConnStep, Earned;
    if turns == [] {
      assert done + [] == done;
    } else {
      StepEarned(c, maxBytes, turns[0], done);
      assert (done + [turns[0]]) + turns[1..] == done + turns;
      RunEarned(ConnStep(c, maxBytes, turns[0]), maxBytes, turns[1..], done + [turns[0]]);
    }
  }

  /** Over every run, whatever the peer sends: the gateway has sent nothing but bootstrap records
      and errors unless a login was accepted, which needs an accepted hello; and a channel is open
      only if a request for it was allowed and created, and then it is as that request asked. */
  lemma {:induction false} AccessIsEarned(maxBytes: nat, turns: seq<GatewayConnection.Turn>, ch: nat)
    requires GatewayLaws.Prefixed(turns)
    ensures var c := GatewayLaws.RunConn(NEW_CONN, maxBytes, turns);
            && ((exists i :: 0 <= i < |c.wire| && Private(c.wire[i])) ==> LoggedIn(turns))
            && (c.gate.session.phase.Ready? ==> LoggedIn(turns) && Welcomed(turns))
            && (ch in c.gate.channels ==> LoggedIn(turns) && Granted(turns, ch, c.gate.channels[ch]))
  {
    hide GatewayLaws.RunConn, Welcomed, LoggedIn, Granted, Private;
    assert Earned(NEW_CONN, []);
    RunEarned(NEW_CONN, maxBytes, turns, []);
    assert [] + turns == turns;
  }

  // ---------------------------------------------------------------- the answers

  /** The next control message of the client, while the session is ready. */
  function Hears(g: Gate, msg: Control, w: World): GateTurn {
    HandleInbound(g, Framed(ControlFrame(g.controlIn, msg)), w)
  }

  /** A request to open a channel under a fresh id is answered: allowed and created, with success
      and for a topic the reliability it got; otherwise with failure, and no channel. */
  lemma {:induction false} OpenIsAnswered(g: Gate, ch: nat, kind: Kind, qos: seq<Entry>, asked: Option<nat>, w: World)
    requires g.session.phase.Ready? && ch != 0 && ch !in g.session.channels && ch !in g.channels && w.parses
    ensures var u, e := Hears(g, OpenChannel(ch, kind, qos, asked), w), ResolveEffective(TakeAll(DEFAULT_REQUEST, qos));
            var topic := kind.TopicSubscribe? || kind.TopicPublish?;
            var yes := ChannelReady(ch, 0, if topic then Some(if e.reliable then 1 else 2) else None);
            var no := ChannelReady(ch, 3, None);
            && (w.serves && w.created && w.encodes(yes) ==>
              && u.r.outbound != [] && u.r.outbound[0] == Framed(ControlFrame(g.controlOut, yes))
              && ch in u.g.channels && u.g.channels[ch].kind == kind && u.g.channels[ch].reliable == (topic ==> e.reliable)
              && u.g.channels[ch].seqIn == u.g.channels[ch].seqOut == 0)
            && (w.serves && w.created && !w.encodes(yes) ==> u.r.close && u.r.outbound == [] && ch !in u.g.channels)
            && (!(w.serves && w.created) && w.encodes(no) ==>
              u.r.outbound == [Framed(ControlFrame(g.controlOut, no))] && !u.r.close && u.g.channels == g.channels)
  {
    hide PushDelta, ResolveEffective, TakeAll, OpenTheChannel;
    var s := ApplyControl(g.session, OpenChannel(ch, kind, qos, asked), ClientRole).state;
    var t := GateTurn(g.(session := s, controlIn := g.controlIn + 1), NO_REPLY);
    assert Hears(g, OpenChannel(ch, kind, qos, asked), w) == OpenTheChannel(t, ch, kind, qos, asked, w);
    assert t.g.session.Of(ch).Pending? && t.g.session.phase.Ready?;
    if w.serves && w.created {
      ServedIsAnswered(t, ch, kind, qos, asked, w);
    } else {
      DeniedIsAnswered(t, ch, kind, qos, asked, w);
    }
  }

  lemma {:induction false} ServedIsAnswered(t: GateTurn, ch: nat, kind: Kind, qos: seq<Entry>, asked: Option<nat>, w: World)
    requires t.r == NO_REPLY && t.g.session.phase.Ready? && t.g.session.Of(ch).Pending? && w.serves && w.created
    ensures var u, e := OpenTheChannel(t, ch, kind, qos, asked, w), ResolveEffective(TakeAll(DEFAULT_REQUEST, qos));
            var topic := kind.TopicSubscribe? || kind.TopicPublish?;
            var yes := ChannelReady(ch, 0, if topic then Some(if e.reliable then 1 else 2) else None);
            && (w.encodes(yes) ==>
              && u.r.outbound != [] && u.r.outbound[0] == Framed(ControlFrame(t.g.controlOut, yes))
              && ch in u.g.channels && u.g.channels[ch].kind == kind && u.g.channels[ch].reliable == (topic ==> e.reliable)
              && u.g.channels[ch].seqIn == u.g.channels[ch].seqOut == 0)
            && (!w.encodes(yes) ==> u.r.close && u.r.outbound == [] && ch !in u.g.channels)
  {
    hide PushDelta, ResolveEffective, TakeAll, ToWire, EffectiveReliability;
    var e := ResolveEffective(TakeAll(DEFAULT_REQUEST, qos));
    ReliabilityIsCarried(e);
    var r := t.(g := t.g.(channels := t.g.channels[ch := NewRuntime(kind, e, asked)]));
    DeltaAppends(PushControl(r, ReadyFor(ch, kind, e), w).turn, w);
  }

  lemma {:induction false} DeniedIsAnswered(t: GateTurn, ch: nat, kind: Kind, qos: seq<Entry>, asked: Option<nat>, w: World)
    requires t.r == NO_REPLY && t.g.session.phase.Ready? && t.g.session.Of(ch).Pending? && !(w.serves && w.created)
    ensures var u, no := OpenTheChannel(t, ch, kind, qos, asked, w), ChannelReady(ch, 3, None);
            w.encodes(no) ==> u.r.outbound == [Framed(ControlFrame(t.g.controlOut, no))] && !u.r.close && u.g.channels == t.g.channels
  {
  }

  lemma {:induction false} DeltaAppends(t: GateTurn, w: World)
    ensures var u := PushDelta(t, w);
            u.g.channels == t.g.channels && t.r.outbound <= u.r.outbound
  {
    hide PushControl;
    if t.g.graph.Some? {
      PushKeepsPhase(t, GraphDelta(t.g.graph.value, t.g.graph.value + 1), w);
    }
  }

  /** A close of an open channel takes its port away and sends nothing. */
  lemma {:induction false} CloseIsTaken(g: Gate, ch: nat, w: World)
    requires g.session.phase.Ready? && g.session.Of(ch).Active? && w.parses
    ensures var u := Hears(g, CloseChannel(ch), w);
            && u.r == NO_REPLY && u.g.channels == g.channels - {ch} && u.g.session == WithState(g.session, ch, Closed)
  {
  }

  /** An accepted login is answered with readiness and then the graph; a refused one with an error,
      and the connection closes. */
  lemma {:induction false} LoginIsAnswered(g: Gate, w: World)
    requires g.session.phase.AwaitAuthenticate? && g.helloSent && w.parses && w.graphOk
    requires w.encodes(SessionReady) && w.encodes(GraphSnapshot(1)) && w.encodes(ErrorMessage(0, None))
    ensures var u := Hears(g, Authenticate, w);
            if w.authOk then
              && !u.r.close && u.g.session.phase.Ready? && u.g.graph == u.g.session.graph == Some(1)
              && u.r.outbound == [Framed(ControlFrame(g.controlOut, SessionReady)), Framed(ControlFrame(g.controlOut + 1, GraphSnapshot(1)))]
            else u.r.close && u.r.outbound == [Framed(ControlFrame(g.controlOut, ErrorMessage(0, None)))]
  {
  }

  /** A first message that parses as an acceptable hello is answered with a hello; anything else
      with a bootstrap error, and the connection closes. */
  lemma {:induction false} HelloIsAnswered(g: Gate, m: Wire, w: World)
    requires g.session.phase.AwaitClientHello?
    ensures var u := HandleInbound(g, m, w);
            if w.parses && w.helloOk && m == Boot(ClientHello) then
              !u.r.close && u.r.outbound == [Boot(ServerHello)] && u.g.helloSent && u.g.session.phase.AwaitAuthenticate?
            else u.r.close && u.r.outbound == [Boot(BootstrapError)] && !u.g.session.phase.InSelectedPlane()
  {
  }

  /** An error of the client closes the connection, unless it is about an operation on an open
      channel, which changes nothing, or about a channel still being opened. */
  lemma {:induction false} ErrorIsHeard(g: Gate, scope: nat, channel: Option<nat>, w: World)
    requires g.session.phase.Ready? && w.parses && w.encodes(ErrorMessage(0, None))
    ensures var u := Hears(g, ErrorMessage(scope, channel), w);
            var state := if channel.Some? then g.session.Of(channel.value) else Unused;
            && u.g.channels == g.channels
            && (scope == 2 && state.Active? ==> u.r == NO_REPLY && u.g.session == g.session)
            && (scope == 2 && !state.Active? ==> u.r.close && u.r.notes == [FailedSession(SessionRejected)])
            && (scope != 2 && state.Pending? ==> u.r == NO_REPLY && u.g.session == WithState(g.session, channel.value, Failed))
            && (scope != 2 && !state.Pending? ==> u.r == Reply([], true, []))
  {
  }
}
