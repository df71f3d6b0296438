/** The two session state machines over a link: what one peer's accepts to send, the other's
    accepts to receive, with one exception. */
module LinkSessions {
  import opened ByteOrder
  import CdrLimits
  import opened Qos
  import opened Session
  import opened Client
  import G = Gateway
  import opened GatewayConnection
  import GatewayLaws
  import opened LinkItems
  import opened LinkClient
  import opened LinkGateway
  import opened Link
  import LinkSamples
  import opened Replay

  // ---------------------------------------------------------------- the client

  /** The event sent `ws`, at most one message, and its session took it. */
  predicate SendsTaken(t: Client.Turn, u: Client.Turn, s: State, ws: seq<Wire>) {
    && Sends(t, u, ws) && |ws| <= 1
    && (ws == [] ==> u.c.session == s)
    && (ws != [] ==> OfClient(ws[0]) && Applies(s, ws[0], ClientRole).Accepted? && u.c.session == Stepped(s, ws[0], ClientRole))
  }

  lemma {:induction false} NothingSent(t: Client.Turn, u: Client.Turn)
    requires u.o.outbound == t.o.outbound && u.c.session == t.c.session
    ensures SendsTaken(t, u, t.c.session, [])
  {
    SendsNothing(t, u);
  }

  predicate MaySend(msg: Control) {
    msg.Authenticate? || msg.OpenChannel? || msg.CloseChannel? || msg.Heartbeat?
  }

  lemma {:induction false} PushTaken(t: Client.Turn, msg: Control, encodes: bool) returns (ws: seq<Wire>)
    requires HasRoom(t) && MaySend(msg)
    ensures SendsTaken(t, PushControl(t, msg, encodes).turn, t.c.session, ws)
    ensures !PushControl(t, msg, encodes).ok ==> ws == []
  {
    hide PushControl, Sends, Counts, ApplyControl;
    ws := PushEffect(t, msg, encodes);
    if PushControl(t, msg, encodes).ok {
      SentIsApplied(t, msg, encodes);
    }
  }

  lemma {:induction false} SentIsApplied(t: Client.Turn, msg: Control, encodes: bool)
    requires PushControl(t, msg, encodes).ok
    ensures var a := ApplyFrame(t.c.session, ControlFrame(t.c.controlOut, msg), ClientRole);
            a.Accepted? && PushControl(t, msg, encodes).turn.c.session == a.state
  {
    hide ApplyControl;
  }

  lemma {:induction false} DataTaken(t: Client.Turn, f: Frame, frames: bool) returns (ws: seq<Wire>)
    requires HasRoom(t) && !f.opcode.ControlCbor?
    ensures SendsTaken(t, SendData(t, f, frames).turn, t.c.session, ws)
    ensures !SendData(t, f, frames).ok ==> ws == []
  {
    hide PushOutbound, ApplyFrame, Sends;
    var p := SendData(t, f, frames);
    ws := [];
    if p.ok {
      var s := t.(c := t.c.(session := ApplyFrame(t.c.session, f, ClientRole).state));
      ws := [Framed(f)];
      PushSends(s, Framed(f));
      SendsSame(t, s, p.turn, ws);
    } else {
      SendsNothing(t, p.turn);
    }
  }

  /** Only what was queued and the session count. */
  lemma {:induction false} TakenFrom(t: Client.Turn, s: Client.Turn, u: Client.Turn, r: Client.Turn, ws: seq<Wire>)
    requires s.o.outbound == t.o.outbound && s.c.session == t.c.session && SendsTaken(s, u, s.c.session, ws)
    requires r.o.outbound == u.o.outbound && r.c.session == u.c.session
    ensures SendsTaken(t, r, t.c.session, ws)
  {
  }

  lemma {:induction false} CommandTaken(t: Client.Turn, cmd: Command) returns (ws: seq<Wire>)
    requires HasRoom(t)
    ensures SendsTaken(t, HandleCommand(t, cmd), t.c.session, ws)
  {
    hide PushControl, SendData, PushOutbound, SendsTaken, SampleFrame, NextOp, SentReliable, ApplyBootstrap;
    var r := HandleCommand(t, cmd);
    match cmd
    case Start(_) => ws := StartTaken(t, cmd);
    case Login(encodes) => ws := ControlTaken(t, Authenticate, encodes, r);
    case OpenCommand(ch, kind, reliability, depth, known, encodes) =>
      if known {
        ws := ControlTaken(t, OpenRequest(ch, kind, RequestedReliability(kind, reliability), depth), encodes, r);
      } else {
        ws := [];
        NothingSent(t, r);
      }
    case SendSample(ch, payloadLen, encoded, frames) =>
      if encoded && ch in t.c.publishes {
        ws := SampleTaken(t, ch, payloadLen, frames);
      } else {
        ws := [];
        NothingSent(t, r);
      }
    case SendOperation(ch, op, id, payloadLen, encoded, frames) =>
      if encoded && (ch in t.c.services || ch in t.c.actions) {
        ws := OperationTaken(t, ch, op, id, payloadLen, frames);
      } else {
        ws := [];
        NothingSent(t, r);
      }
    case Unsubscribe(ch, encodes) => ws := ControlTaken(t, CloseChannel(ch), encodes, r);
    case Shutdown =>
      ws := [];
      NothingSent(t, r);
  }

  /** A control command: pushed, or failed with nothing sent. */
  lemma {:induction false} ControlTaken(t: Client.Turn, msg: Control, encodes: bool, r: Client.Turn) returns (ws: seq<Wire>)
    requires HasRoom(t) && MaySend(msg)
    requires var p := PushControl(t, msg, encodes);
             if p.ok then r.o.outbound == p.turn.o.outbound && r.c.session == p.turn.c.session
             else r.o.outbound == t.o.outbound && r.c.session == t.c.session
    ensures SendsTaken(t, r, t.c.session, ws)
  {
    hide PushControl, SendsTaken;
    ws := PushTaken(t, msg, encodes);
    if PushControl(t, msg, encodes).ok {
      TakenFrom(t, t, PushControl(t, msg, encodes).turn, r, ws);
    } else {
      ws := [];
      NothingSent(t, r);
    }
  }

  lemma {:induction false} StartTaken(t: Client.Turn, cmd: Command) returns (ws: seq<Wire>)
    requires HasRoom(t) && cmd.Start?
    ensures SendsTaken(t, HandleCommand(t, cmd), t.c.session, ws)
  {
    hide PushOutbound, Sends, ApplyBootstrap;
    var r := HandleCommand(t, cmd);
    var a := ApplyBootstrap(t.c.session, ClientHello, ClientRole);
    ws := [];
    if t.c.started || !cmd.encodes || a.Violation? {
      SendsNothing(t, r);
    } else {
      var s := t.(c := t.c.(started := true, session := a.state));
      ws := [Boot(ClientHello)];
      PushSends(s, ws[0]);
      SendsSame(t, s, r, ws);
    }
  }

  lemma {:induction false} SampleTaken(t: Client.Turn, ch: nat, payloadLen: nat, frames: bool) returns (ws: seq<Wire>)
    requires HasRoom(t) && ch in t.c.publishes
    ensures SendsTaken(t, SendSamplePayload(t, ch, payloadLen, frames), t.c.session, ws)
  {
    hide SendData, SendsTaken;
    var p := t.c.publishes[ch];
    var s := t.(c := t.c.(publishes := t.c.publishes[ch := p.(seqOut := p.seqOut + 1)]));
    var r, sent := SendSamplePayload(t, ch, payloadLen, frames), SendData(s, SampleFrame(ch, p, payloadLen), frames);
    ws := DataTaken(s, SampleFrame(ch, p, payloadLen), frames);
    if sent.ok {
      TakenFrom(t, s, sent.turn, r, ws);
    } else {
      NothingSent(t, r);
    }
  }

  lemma {:induction false} OperationTaken(t: Client.Turn, ch: nat, op: OperationCode, id: OperationId, payloadLen: nat, frames: bool)
    returns (ws: seq<Wire>)
    requires HasRoom(t) && (ch in t.c.services || ch in t.c.actions)
    ensures SendsTaken(t, SendOperationFrame(t, ch, op, id, payloadLen, frames), t.c.session, ws)
  {
    hide SendData, SendsTaken, NextOp, SentReliable;
    var sequence := if ch in t.c.services then t.c.services[ch].nextSeq else t.c.actions[ch].nextSeq;
    var took :=
      if ch in t.c.services then t.(c := t.c.(services := t.c.services[ch := NextOp(t.c.services[ch], id)]))
      else t.(c := t.c.(actions := t.c.actions[ch := NextOp(t.c.actions[ch], id)]));
    var f := Frame(op, SentReliable(op), false, ch, sequence, OPERATION_ID_AREA, payloadLen, Some(id), AppPayload);
    var r, sent := SendOperationFrame(t, ch, op, id, payloadLen, frames), SendData(took, f, frames);
    ws := DataTaken(took, f, frames);
    if sent.ok {
      TakenFrom(t, took, sent.turn, r, ws);
    } else {
      NothingSent(t, r);
    }
  }

  lemma {:induction false} LocalTaken(t: Client.Turn, e: HostEvent) returns (ws: seq<Wire>)
    requires HasRoom(t) && !e.WsBytes?
    ensures SendsTaken(t, HandleEvent(t, e), t.c.session, ws)
  {
    hide HandleCommand, HandleTimer, Release, SendsTaken;
    match e
    case Timer(now, encodes) => ws := TimerTaken(t, now, encodes);
    case Issue(cmd) => ws := CommandTaken(t, cmd);
    case ReleaseLease(_) =>
      ws := [];
      NothingSent(t, HandleEvent(t, e));
    case WsBytes(_, _, _, _) =>
  }

  lemma {:induction false} TimerTaken(t: Client.Turn, now: nat, encodes: bool) returns (ws: seq<Wire>)
    requires HasRoom(t)
    ensures SendsTaken(t, HandleTimer(t, now, encodes), t.c.session, ws)
  {
    hide PushControl, SendsTaken;
    var v := t.(c := t.c.(lastTimer := Some(now), heartbeats := t.c.heartbeats + 1));
    var r := HandleTimer(t, now, encodes);
    if !t.c.session.phase.Ready? || t.c.nextHeartbeat.None? || now < t.c.nextHeartbeat.value {
      ws := [];
      NothingSent(t, r);
    } else {
      ws := PushTaken(v, Heartbeat(v.c.heartbeats), encodes);
      TakenFrom(t, v, PushControl(v, Heartbeat(v.c.heartbeats), encodes).turn, r, ws);
    }
  }

  const REFUSED := ErrorRaised(Client.SessionRejected)

  /** The engine took the message into its session, sent at most an answer, and did not report
      a refusal; or it closed and sent nothing. */
  predicate Received(t: Client.Turn, u: Client.Turn, w: Wire, ws: seq<Wire>) {
    if u.c.closed then Sends(t, u, ws) && ws == []
    else Applies(t.c.session, w, ServerRole).Accepted? && SendsTaken(t, u, Stepped(t.c.session, w, ServerRole), ws)
  }

  lemma {:induction false} ControlReceived(t: Client.Turn, msg: Control, encodes: bool) returns (ws: seq<Wire>)
    requires HasRoom(t) && !t.c.closed && ApplyControl(t.c.session, msg, ServerRole).Accepted?
    ensures var a := ApplyControl(t.c.session, msg, ServerRole);
            var s := t.(c := t.c.(session := a.state, controlIn := t.c.controlIn + 1));
            var u := HandleControl(s, msg, a.effects, encodes);
            && SendsTaken(t, u, a.state, ws) && (u.c.closed ==> ws == []) && (REFUSED in u.o.events ==> REFUSED in t.o.events)
  {
    hide PushControl, ApplyControl, ChannelIsReady, OpenDidFail, SendsTaken;
    var a := ApplyControl(t.c.session, msg, ServerRole);
    var s := t.(c := t.c.(session := a.state, controlIn := t.c.controlIn + 1));
    var u := HandleControl(s, msg, a.effects, encodes);
    if msg.Heartbeat? {
      var x := Tell(s, HeartbeatSeen(msg.counter));
      var v := x.(c := x.c.(heartbeats := x.c.heartbeats + 1));
      ws := PushTaken(v, Heartbeat(v.c.heartbeats), encodes);
      PushKeepsOpen(v, Heartbeat(v.c.heartbeats), encodes);
      TakenFrom(s, v, PushControl(v, Heartbeat(v.c.heartbeats), encodes).turn, u, ws);
      TakenAcross(t, s, u, ws);
    } else {
      ws := [];
      ControlSaysNothing(s, msg, a.effects, encodes);
      NothingSent(s, u);
      TakenAcross(t, s, u, ws);
    }
  }

  lemma {:induction false} TakenAcross(t: Client.Turn, s: Client.Turn, u: Client.Turn, ws: seq<Wire>)
    requires s.o.outbound == t.o.outbound && SendsTaken(s, u, s.c.session, ws)
    ensures SendsTaken(t, u, s.c.session, ws)
  {
  }

  lemma {:induction false} PushKeepsOpen(t: Client.Turn, msg: Control, encodes: bool)
    ensures PushControl(t, msg, encodes).turn.c.closed == t.c.closed && PushControl(t, msg, encodes).turn.o.events == t.o.events
  {
    hide ApplyFrame;
  }

  lemma {:induction false} ControlSaysNothing(s: Client.Turn, msg: Control, fx: Effects, encodes: bool)
    requires !msg.Heartbeat?
    ensures var u := HandleControl(s, msg, fx, encodes);
            u.o.outbound == s.o.outbound && u.c.session == s.c.session && (REFUSED in u.o.events ==> REFUSED in s.o.events)
  {
    hide ChannelIsReady, OpenDidFail;
    match msg
    case ChannelReady(ch, _, effective) => OpeningSaysNothing(s, ch, effective);
    case ErrorMessage(_, _) =>
      if fx.failing.Some? {
        OpeningSaysNothing(s, fx.failing.value, None);
      }
    case _ =>
  }

  lemma {:induction false} OpeningSaysNothing(s: Client.Turn, ch: nat, effective: Option<nat>)
    ensures var u := ChannelIsReady(s, ch, effective);
            u.o.outbound == s.o.outbound && u.c.session == s.c.session && (REFUSED in u.o.events ==> REFUSED in s.o.events)
    ensures var u := OpenDidFail(s, ch);
            u.o.outbound == s.o.outbound && u.c.session == s.c.session && (REFUSED in u.o.events ==> REFUSED in s.o.events)
  {
  }

  lemma {:induction false} FrameReceived(t: Client.Turn, id: nat, declared: nat, f: Frame, encodes: bool) returns (ws: seq<Wire>)
    requires HasRoom(t) && !t.c.closed && ApplyFrame(t.c.session, f, ServerRole).Accepted?
    ensures var u := HandleFrame(t, id, declared, FrameParsed(f), encodes);
            && (if u.c.closed then Sends(t, u, ws) && ws == [] else SendsTaken(t, u, ApplyFrame(t.c.session, f, ServerRole).state, ws))
            && (REFUSED in u.o.events ==> REFUSED in t.o.events)
  {
    hide HandleControl, HandleData, ApplyControl, SendsTaken, Sends;
    var u := HandleFrame(t, id, declared, FrameParsed(f), encodes);
    var a := ApplyFrame(t.c.session, f, ServerRole);
    var s := t.(c := t.c.(session := a.state));
    ws := [];
    if f.opcode.ControlCbor? && f.sequence == t.c.controlIn && f.payload.ControlPayload? {
      ws := ControlReceived(t, f.payload.msg, encodes);
      TakenSends(t, u, a.state, ws);
    } else if f.opcode.ControlCbor? {
      SendsNothing(t, u);
    } else {
      DataEngine(s, id, f, declared);
      DataUnrefused(s, id, f, declared);
      SendsNothing(t, u);
      NothingSent(s, u);
      TakenAcross(t, s, u, ws);
    }
  }

  lemma {:induction false} TakenSends(t: Client.Turn, u: Client.Turn, s: State, ws: seq<Wire>)
    requires SendsTaken(t, u, s, ws)
    ensures Sends(t, u, ws)
  {
  }

  lemma {:induction false} DataUnrefused(t: Client.Turn, id: nat, f: Frame, declared: nat)
    ensures var u := HandleData(t, id, f, declared);
            u.c.session == t.c.session && (REFUSED in u.o.events ==> REFUSED in t.o.events)
  {
    hide Grant, Tell, Fail;
  }

  lemma {:induction false} DeliveryTaken(t: Client.Turn, e: HostEvent, w: Wire) returns (ws: seq<Wire>)
    requires HasRoom(t) && !t.c.closed && e.WsBytes? && ReadsAs(e.parsed, w)
    ensures var u := HandleEvent(t, e);
            && Received(t, u, w, ws)
            && (Applies(t.c.session, w, ServerRole).Accepted? ==> (REFUSED in u.o.events ==> REFUSED in t.o.events))
  {
    hide HandleBootstrap, HandleFrame, Ingest, FinishIngest, DeclaredLen, SendsTaken, Sends, ApplyFrame;
    var (slab, id) := Ingest(t.c.slab, e.bufferId, t.c.host, e.bytes);
    var s, u := t.(c := t.c.(slab := slab)), HandleEvent(t, e);
    ws := [];
    if !t.c.session.phase.InSelectedPlane() {
      BootReceived(s, e.parsed, w);
      SendsNothing(t, u);
      if !u.c.closed {
        NothingSent(HandleBootstrap(s, e.parsed), u);
        TakenAcross(t, HandleBootstrap(s, e.parsed), u, ws);
      }
    } else {
      var v := HandleFrame(s, id, DeclaredLen(t.c.host, e.bytes), e.parsed, e.replyEncodes);
      if e.parsed.FrameParsed? && ApplyFrame(t.c.session, e.parsed.frame, ServerRole).Accepted? {
        var f := e.parsed.frame;
        ReadsFrame(t.c.session, e.parsed, w);
        ws := FrameReceived(s, id, DeclaredLen(t.c.host, e.bytes), f, e.replyEncodes);
        SendsAround(t, s, v, u, ws);
        if !u.c.closed {
          TakenAround(t, s, v, u, ApplyFrame(t.c.session, f, ServerRole).state, ws);
        }
      } else {
        FrameRefused(s, id, DeclaredLen(t.c.host, e.bytes), e.parsed, e.replyEncodes, w);
        SendsNothing(t, u);
      }
    }
  }

  lemma {:induction false} SendsAround(t: Client.Turn, s: Client.Turn, v: Client.Turn, u: Client.Turn, ws: seq<Wire>)
    requires s.o.outbound == t.o.outbound && v.o.outbound == u.o.outbound
    ensures Sends(s, v, ws) ==> Sends(t, u, ws)
  {
  }

  lemma {:induction false} TakenAround(t: Client.Turn, s: Client.Turn, v: Client.Turn, u: Client.Turn, base: State, ws: seq<Wire>)
    requires s.o.outbound == t.o.outbound && v.o.outbound == u.o.outbound && v.c.session == u.c.session && SendsTaken(s, v, base, ws)
    ensures SendsTaken(t, u, base, ws)
  {
  }

  lemma {:induction false} ReadsFrame(s: State, parsed: Parsed, w: Wire)
    requires ReadsAs(parsed, w) && parsed.FrameParsed?
    ensures Applies(s, w, ServerRole) == ApplyFrame(s, parsed.frame, ServerRole)
  {
    hide SampleRead, ApplyFrame;
  }

  lemma {:induction false} FrameRefused(t: Client.Turn, id: nat, declared: nat, parsed: Parsed, encodes: bool, w: Wire)
    requires ReadsAs(parsed, w) && t.c.session.phase.InSelectedPlane()
    requires !parsed.FrameParsed? || ApplyFrame(t.c.session, parsed.frame, ServerRole).Violation?
    ensures var u := HandleFrame(t, id, declared, parsed, encodes);
            && u.c.closed && u.o.outbound == t.o.outbound
            && (Applies(t.c.session, w, ServerRole).Accepted? ==> u.o.events == t.o.events + [ErrorRaised(Client.ParseRejected), ClosedNow])
  {
    hide ApplyFrame, SampleRead;
    if parsed.FrameParsed? {
      ReadsFrame(t.c.session, parsed, w);
    }
  }

  lemma {:induction false} BootReceived(t: Client.Turn, parsed: Parsed, w: Wire)
    requires !t.c.closed && ReadsAs(parsed, w)
    ensures var u := HandleBootstrap(t, parsed);
            && u.o.outbound == t.o.outbound
            && (!u.c.closed ==> Applies(t.c.session, w, ServerRole).Accepted? && u.c.session == Stepped(t.c.session, w, ServerRole))
            && (Applies(t.c.session, w, ServerRole).Accepted? ==> (REFUSED in u.o.events ==> REFUSED in t.o.events))
  {
    hide ApplyBootstrap, ApplyFrame, SampleRead;
  }

  // ---------------------------------------------------------------- the gateway

  /** What the step adds to the output. */
  function New(t: G.GateTurn, u: G.GateTurn): seq<Wire> {
    if t.r.outbound <= u.r.outbound then u.r.outbound[|t.r.outbound|..] else []
  }

  /** The step said something, message by message through its session. */
  predicate Says(t: G.GateTurn, u: G.GateTurn) {
    && t.r.outbound <= u.r.outbound && Spoken(t.g.session, New(t, u))
    && u.g.session == Replayed(t.g.session, New(t, u), ServerRole)
  }

  /** Spoken but for a last word. */
  predicate SpokenOut(s: State, ws: seq<Wire>) {
    || Spoken(s, ws)
    || (ws != [] && Spoken(s, ws[..|ws| - 1]) && LastWord(Replayed(s, ws[..|ws| - 1], ServerRole), ws[|ws| - 1]))
  }

  /** The step said something, or stopped after it, perhaps with a last word. */
  predicate Goes(t: G.GateTurn, u: G.GateTurn) {
    Says(t, u) || (u.r.close && t.r.outbound <= u.r.outbound && SpokenOut(t.g.session, New(t, u)))
  }

  lemma {:induction false} SaysNothing(t: G.GateTurn, u: G.GateTurn)
    requires u.r.outbound == t.r.outbound && (u.r.close || u.g.session == t.g.session)
    ensures Goes(t, u)
    ensures u.g.session == t.g.session ==> Says(t, u)
  {
  }

  lemma {:induction false} SaysOne(t: G.GateTurn, u: G.GateTurn, w: Wire)
    requires u.r.outbound == t.r.outbound + [w] && Taken(t.g.session, w) && u.g.session == Stepped(t.g.session, w, ServerRole)
    ensures Says(t, u)
  {
    hide Taken, Stepped;
    assert New(t, u) == [w] && [w][1..] == [];
    ReplayedOne(t.g.session, w, ServerRole);
    assert Spoken(Stepped(t.g.session, w, ServerRole), []);
  }

  lemma {:induction false} SaysLast(t: G.GateTurn, u: G.GateTurn, w: Wire)
    requires u.r.close && u.r.outbound == t.r.outbound + [w] && LastWord(t.g.session, w)
    ensures Goes(t, u)
  {
    hide LastWord;
    assert New(t, u) == [w] && [w][..0] == [];
  }

  lemma {:induction false} SaysThenGoes(t: G.GateTurn, s: G.GateTurn, u: G.GateTurn)
    requires Says(t, s) && Goes(s, u)
    ensures Goes(t, u)
    ensures Says(s, u) ==> Says(t, u)
  {
    hide Taken, Stepped, LastWord;
    var a, b := New(t, s), New(s, u);
    assert New(t, u) == a + b;
    ReplayedJoin(t.g.session, a, b, ServerRole);
    if Spoken(s.g.session, b) {
      SpokenJoin(t.g.session, a, b);
    } else {
      var n := |b| - 1;
      SpokenJoin(t.g.session, a, b[..n]);
      ReplayedJoin(t.g.session, a, b[..n], ServerRole);
      assert (a + b)[..|a + b| - 1] == a + b[..n] && (a + b)[|a + b| - 1] == b[n];
    }
  }

  /** Only the session and what was sent count. */
  lemma {:induction false} GoesAround(t: G.GateTurn, s: G.GateTurn, u: G.GateTurn, r: G.GateTurn)
    requires s.g.session == t.g.session && s.r.outbound == t.r.outbound && Goes(s, u)
    requires r.g.session == u.g.session && r.r.outbound == u.r.outbound && (u.r.close ==> r.r.close)
    ensures Goes(t, r)
    ensures Says(s, u) ==> Says(t, r)
  {
    hide Spoken, SpokenOut, Replayed;
  }

  lemma {:induction false} PushSays(t: G.GateTurn, msg: Control, w: G.World)
    requires OfGateway(t.g.session, Framed(ControlFrame(t.g.controlOut, msg)))
    ensures Says(t, G.PushControl(t, msg, w).turn)
    ensures !G.PushControl(t, msg, w).ok ==> G.PushControl(t, msg, w).turn.r.close
  {
    hide G.PushControl, ApplyControl, Says, OfGateway;
    PushSteps(t, msg, w);
    var p, f := G.PushControl(t, msg, w), ControlFrame(t.g.controlOut, msg);
    if p.ok {
      assert ApplyFrame(t.g.session, f, ServerRole) == ApplyControl(t.g.session, msg, ServerRole) by {
        PushApplied(t, msg, w);
      }
      SaysOne(t, p.turn, Framed(f));
    } else {
      SaysNothing(t, p.turn);
    }
  }

  lemma {:induction false} PushApplied(t: G.GateTurn, msg: Control, w: G.World)
    requires G.PushControl(t, msg, w).ok
    ensures ApplyFrame(t.g.session, ControlFrame(t.g.controlOut, msg), ServerRole) == ApplyControl(t.g.session, msg, ServerRole)
    ensures t.g.session.phase.InSelectedPlane() && !t.g.session.phase.IsTerminal()
  {
    hide ApplyControl;
  }

  /** An error about the whole session, and the end. */
  lemma {:induction false} PushLast(t: G.GateTurn, w: G.World)
    ensures Goes(t, G.Close(G.PushControl(t, ErrorMessage(0, None), w).turn))
  {
    hide G.PushControl, Goes, Says;
    var msg := ErrorMessage(0, None);
    var p := G.PushControl(t, msg, w);
    PushSteps(t, msg, w);
    if p.ok {
      PushApplied(t, msg, w);
      SaysLast(t, G.Close(p.turn), Framed(ControlFrame(t.g.controlOut, msg)));
    } else {
      SaysNothing(t, G.Close(p.turn));
    }
  }

  lemma {:induction false} FailGoes(t: G.GateTurn, reason: G.Reason, w: G.World)
    requires t.g.session.phase.InSelectedPlane()
    ensures Goes(t, G.FailSession(t, reason, w)) && G.FailSession(t, reason, w).r.close
  {
    hide G.PushControl, Goes;
    var u := G.Note1(t, G.FailedSession(reason));
    PushLast(u, w);
    GoesAround(t, u, G.FailSession(t, reason, w), G.FailSession(t, reason, w));
  }

  lemma {:induction false} SnapshotGoes(t: G.GateTurn, w: G.World)
    ensures Goes(t, G.PushSnapshot(t, w))
  {
    hide G.PushControl, Goes, Says;
    if !w.graphOk {
      PushLast(t, w);
    } else {
      var p := G.PushControl(t, GraphSnapshot(1), w);
      PushSays(t, GraphSnapshot(1), w);
      SaysGoes(t, p.turn);
      GoesAround(t, t, p.turn, G.PushSnapshot(t, w));
    }
  }

  lemma {:induction false} SaysGoes(t: G.GateTurn, u: G.GateTurn)
    requires Says(t, u)
    ensures Goes(t, u)
  {
  }

  lemma {:induction false} DeltaGoes(t: G.GateTurn, w: G.World)
    ensures Says(t, G.PushDelta(t, w))
  {
    hide G.PushControl, Says, Goes;
    if t.g.graph.None? {
      SaysNothing(t, t);
    } else {
      var base := t.g.graph.value;
      var p := G.PushControl(t, GraphDelta(base, base + 1), w);
      PushSays(t, GraphDelta(base, base + 1), w);
      SaysGoes(t, p.turn);
      GoesAround(t, t, p.turn, G.PushDelta(t, w));
    }
  }

  lemma {:induction false} AuthenticateGoes(t: G.GateTurn, w: G.World)
    ensures Goes(t, G.HandleAuthenticate(t, w))
  {
    hide G.PushControl, G.PushSnapshot, Goes, Says;
    if !w.authOk {
      PushLast(t, w);
    } else if !t.g.helloSent {
      SaysNothing(t, G.Close(t));
    } else {
      var p := G.PushControl(t, SessionReady, w);
      PushSays(t, SessionReady, w);
      SaysGoes(t, p.turn);
      if p.ok {
        SnapshotGoes(p.turn, w);
        SaysThenGoes(t, p.turn, G.PushSnapshot(p.turn, w));
      }
    }
  }

  lemma {:induction false} OpenGoes(t: G.GateTurn, ch: nat, kind: Kind, qos: seq<Entry>, asked: Option<nat>, w: G.World)
    ensures Goes(t, G.OpenTheChannel(t, ch, kind, qos, asked, w))
  {
    hide G.PushControl, G.PushDelta, ResolveEffective, TakeAll, ToWire, EffectiveReliability, Goes, Says;
    var r := G.OpenTheChannel(t, ch, kind, qos, asked, w);
    if !w.serves || !w.created {
      PushSays(t, ChannelReady(ch, 3, None), w);
      SaysGoes(t, r);
    } else {
      var e := ResolveEffective(TakeAll(DEFAULT_REQUEST, qos));
      var u := t.(g := t.g.(channels := t.g.channels[ch := G.NewRuntime(kind, e, asked)]));
      var p := G.PushControl(u, G.ReadyFor(ch, kind, e), w);
      PushSays(u, G.ReadyFor(ch, kind, e), w);
      SaysGoes(u, p.turn);
      GoesAround(t, u, p.turn, p.turn);
      if !p.ok {
        GoesAround(t, u, p.turn, r);
      } else if w.graphOk && w.hasEndpoint {
        DeltaGoes(p.turn, w);
        SaysGoes(p.turn, r);
        SaysThenGoes(t, p.turn, r);
      }
    }
  }

  lemma {:induction false} ControlGoes(t: G.GateTurn, msg: Control, fx: Effects, w: G.World)
    ensures Goes(t, G.HandleControl(t, msg, fx, w))
  {
    hide G.PushControl, G.HandleAuthenticate, G.OpenTheChannel, Goes, Says;
    var u := G.HandleControl(t, msg, fx, w);
    match msg
    case Authenticate => AuthenticateGoes(t, w);
    case OpenChannel(_, kind, qos, asked) =>
      if fx.opening.Some? {
        OpenGoes(t, fx.opening.value, kind, qos, asked, w);
      } else {
        SaysNothing(t, u);
      }
    case Heartbeat(_) =>
      var s := t.(g := t.g.(heartbeats := t.g.heartbeats + 1));
      PushSays(s, Heartbeat(s.g.heartbeats), w);
      SaysGoes(s, u);
      GoesAround(t, s, u, u);
    case _ => SaysNothing(t, u);
  }

  /** An error about one open channel. */
  lemma {:induction false} ScopedSays(t: G.GateTurn, s: G.GateTurn, ch: nat, w: G.World)
    requires s.g.session == t.g.session && s.r.outbound == t.r.outbound && t.g.session.phase.Ready? && t.g.session.Of(ch).Active?
    ensures Goes(t, G.PushControl(s, ErrorMessage(1, Some(ch)), w).turn)
  {
    hide G.PushControl, Goes, Says;
    var u := G.PushControl(s, ErrorMessage(1, Some(ch)), w).turn;
    PushSays(s, ErrorMessage(1, Some(ch)), w);
    SaysGoes(s, u);
    GoesAround(t, s, u, u);
  }

  lemma {:induction false} PublishGoes(t: G.GateTurn, f: Frame, w: G.World)
    requires t.g.session.phase.Ready? && t.g.session.Of(f.channelId).Active?
    ensures Goes(t, G.HandlePublish(t, f, w))
  {
    hide G.PushControl, G.FailSession, Goes, Says;
    var ch := f.channelId;
    var r := G.HandlePublish(t, f, w);
    FailGoes(t, G.RosReliableIffEffective, w);
    FailGoes(t, G.RetainedNeedsTransientLocal, w);
    FailGoes(t, G.ReliableSequenceMismatch, w);
    if ch !in t.g.channels {
      SaysNothing(t, r);
    } else {
      var rt := t.g.channels[ch];
      var gap := if f.sequence > rt.seqIn then G.Note1(t, G.SequenceGap(ch)) else t;
      var u := gap.(g := gap.g.(channels := gap.g.channels[ch := rt.(seqIn := f.sequence + 1)]));
      ScopedSays(t, G.Note1(u, G.Admitted(ch, f.sequence)), ch, w);
      if r.r.outbound == t.r.outbound && r.g.session == t.g.session {
        SaysNothing(t, r);
      }
    }
  }

  lemma {:induction false} RespondGoes(t: G.GateTurn, ch: nat, op: Opcode, id: OperationId, w: G.World)
    requires ch in t.g.channels && IsOperation(op)
    ensures Goes(t, G.Respond(t, ch, op, id, w))
  {
    hide ApplyFrame, Goes, Says, G.Expected;
    var rt := t.g.channels[ch];
    var f := G.OperationFrame(op, ch, G.Expected(rt.opSeqOut, id), id, w.payloadLen);
    var r := G.Respond(t, ch, op, id, w);
    if ApplyFrame(t.g.session, f, ServerRole).Accepted? && w.framed {
      SaysOne(t, r, Framed(f));
      SaysGoes(t, r);
    } else {
      SaysNothing(t, r);
    }
  }

  lemma {:induction false} OperationGoes(t: G.GateTurn, f: Frame, w: G.World)
    requires t.g.session.phase.Ready? && t.g.session.Of(f.channelId).Active?
    ensures Goes(t, G.HandleOperation(t, f, w))
  {
    hide G.PushControl, G.FailSession, G.Respond, Goes, Says;
    var ch := f.channelId;
    var r := G.HandleOperation(t, f, w);
    FailGoes(t, G.MissingOperationId, w);
    if ch !in t.g.channels {
      SaysNothing(t, r);
    } else if f.operationId.Some? {
      var rt, id := t.g.channels[ch], f.operationId.value;
      var s := t.(g := t.g.(channels := t.g.channels[ch := rt.(opSeqIn := rt.opSeqIn[id := G.Expected(rt.opSeqIn, id)])]));
      if f.sequence != G.Expected(rt.opSeqIn, id) {
        FailGoes(s, G.OperationSequenceMismatch, w);
        GoesAround(t, s, r, r);
      } else {
        var u := t.(g := t.g.(channels := t.g.channels[ch := rt.(opSeqIn := rt.opSeqIn[id := f.sequence + 1])]));
        var v := G.Note1(u, G.OperationAdmitted(ch, id, f.sequence));
        SaysNothing(t, G.Close(u));
        SaysNothing(t, v);
        ScopedSays(t, v, ch, w);
        RespondGoes(v, ch, ServiceResponse, id, w);
        RespondGoes(v, ch, ActionResult, id, w);
        GoesAround(t, v, G.Respond(v, ch, ServiceResponse, id, w), G.Respond(v, ch, ServiceResponse, id, w));
        GoesAround(t, v, G.Respond(v, ch, ActionResult, id, w), G.Respond(v, ch, ActionResult, id, w));
      }
    }
  }

  /** The gateway's turn once its session has taken `m`. */
  function Having(g: G.Gate, m: Wire): G.GateTurn {
    G.GateTurn(g.(session := Stepped(g.session, m, ClientRole)), G.NO_REPLY)
  }

  lemma {:induction false} BootGoes(g: G.Gate, m: Wire, w: G.World)
    requires OfClient(m) && Applies(g.session, m, ClientRole).Accepted? && !g.session.phase.InSelectedPlane()
    ensures Goes(Having(g, m), G.HandleBootstrap(G.GateTurn(g, G.NO_REPLY), m, w))
    ensures G.HandleBootstrap(G.GateTurn(g, G.NO_REPLY), m, w).r.notes == []
  {
    hide Goes, Says;
    var t, u := Having(g, m), G.HandleBootstrap(G.GateTurn(g, G.NO_REPLY), m, w);
    assert m == Boot(ClientHello);
    assert t.g.session.phase.AwaitServerHello?;
    assert [] + [Boot(BootstrapError)] == [Boot(BootstrapError)] && [] + [Boot(ServerHello)] == [Boot(ServerHello)];
    if u.r.close {
      SaysLast(t, u, Boot(BootstrapError));
    } else {
      SaysOne(t, u, Boot(ServerHello));
      SaysGoes(t, u);
    }
  }

  lemma {:induction false} StaysSelected(s: State, m: Wire)
    requires OfClient(m) && Applies(s, m, ClientRole).Accepted? && s.phase.InSelectedPlane()
    ensures m.Framed? || m.RawSample?
    ensures !s.phase.IsTerminal()
    ensures var t := Stepped(s, m, ClientRole);
            && t.phase.InSelectedPlane() && !t.phase.IsTerminal()
            && (IsData(m) ==> t == s && s.phase.Ready? && s.Of(FrameOf(m).value.channelId).Active?)
  {
    hide ApplyControl, FrameOf;
    if IsData(m) {
      DataChangesNothing(s, m, ClientRole);
    } else {
      ClientEffect(s, m);
    }
  }

  /** A message the session takes: what the gateway then says its session takes in turn, and it
      does not report a refusal. */
  lemma {:induction false} InboundGoes(g: G.Gate, m: Wire, w: G.World)
    requires OfClient(m) && Applies(g.session, m, ClientRole).Accepted?
    ensures Goes(Having(g, m), G.HandleInbound(g, m, w))
    ensures G.FailedSession(G.SessionRejected) !in G.HandleInbound(g, m, w).r.notes
  {
    hide ApplyFrame, ApplyBootstrap, G.FailSession, G.HandlePublish, G.HandleOperation, G.HandleControl, G.HandleBootstrap, Goes, Says, FrameOf;
    var t := G.GateTurn(g, G.NO_REPLY);
    if !g.session.phase.InSelectedPlane() {
      NotTerminal(g.session, m);
      BootGoes(g, m, w);
    } else {
      StaysSelected(g.session, m);
      if !w.parses || !m.Framed? {
        ParseGoes(g, m, w);
      } else {
        AcceptedGoes(g, m.frame, w);
      }
    }
  }

  lemma {:induction false} NotTerminal(s: State, m: Wire)
    requires Applies(s, m, ClientRole).Accepted?
    ensures !s.phase.IsTerminal()
  {
  }

  lemma {:induction false} ParseGoes(g: G.Gate, m: Wire, w: G.World)
    requires OfClient(m) && Applies(g.session, m, ClientRole).Accepted? && g.session.phase.InSelectedPlane()
    ensures var t := G.GateTurn(g, G.NO_REPLY);
            Goes(Having(g, m), G.FailSession(t, G.ParseRejected, w)) && G.FailSession(t, G.ParseRejected, w).r.notes == [G.FailedSession(G.ParseRejected)]
  {
    hide G.PushControl, G.FailSession, Goes, Applies, Stepped, OfClient;
    var t := G.GateTurn(g, G.NO_REPLY);
    var u := G.FailSession(t, G.ParseRejected, w);
    FailSteps(t, G.ParseRejected, w);
    StaysSelected(g.session, m);
    FailSends(t, G.ParseRejected, w);
    if u.r.outbound == [] {
      SaysNothing(Having(g, m), u);
    } else {
      assert [] + [u.r.outbound[0]] == [u.r.outbound[0]];
      SaysLast(Having(g, m), u, u.r.outbound[0]);
    }
  }

  lemma {:induction false} FailSends(t: G.GateTurn, reason: G.Reason, w: G.World)
    requires t.g.session.phase.InSelectedPlane() && t.r == G.NO_REPLY
    ensures var u := G.FailSession(t, reason, w);
            u.r.outbound == [] || u.r.outbound == [Framed(ControlFrame(t.g.controlOut, ErrorMessage(0, None)))]
  {
    hide ApplyFrame;
  }

  lemma {:induction false} AcceptedGoes(g: G.Gate, f: Frame, w: G.World)
    requires OfClient(Framed(f)) && ApplyFrame(g.session, f, ClientRole).Accepted? && g.session.phase.InSelectedPlane() && w.parses
    ensures Goes(Having(g, Framed(f)), G.HandleInbound(g, Framed(f), w))
    ensures G.FailedSession(G.SessionRejected) !in G.HandleInbound(g, Framed(f), w).r.notes
  {
    hide ApplyFrame, G.FailSession, G.HandlePublish, G.HandleOperation, G.HandleControl, Goes, Says;
    var m := Framed(f);
    var a := ApplyFrame(g.session, f, ClientRole);
    var u := Having(g, m);
    var v := u.(g := u.g.(controlIn := u.g.controlIn + 1));
    StaysSelected(g.session, m);
    assert u == G.GateTurn(g.(session := a.state), G.NO_REPLY);
    if f.opcode.ControlCbor? {
      FailSteps(u, G.ControlSequenceMismatch, w);
      FailGoes(u, G.ControlSequenceMismatch, w);
      SaysNothing(u, G.Close(v));
      if f.payload.ControlPayload? {
        ControlGoes(v, f.payload.msg, a.effects, w);
        ControlCounts(v, f.payload.msg, a.effects, w);
        GoesAround(u, v, G.HandleControl(v, f.payload.msg, a.effects, w), G.HandleControl(v, f.payload.msg, a.effects, w));
      }
    } else if f.opcode.RosSample? {
      PublishGoes(u, f, w);
      PublishNotes(u, f, w);
    } else if f.opcode.Media? {
      SaysNothing(u, u);
    } else {
      OperationGoes(u, f, w);
      OperationNotes(u, f, w);
    }
  }

  lemma {:induction false} PublishNotes(t: G.GateTurn, f: Frame, w: G.World)
    requires t.r.notes == []
    ensures G.FailedSession(G.SessionRejected) !in G.HandlePublish(t, f, w).r.notes
  {
    hide G.PushControl, G.FailSession;
    FailSteps(t, G.RosReliableIffEffective, w);
    FailSteps(t, G.RetainedNeedsTransientLocal, w);
    FailSteps(t, G.ReliableSequenceMismatch, w);
    var ch := f.channelId;
    if ch in t.g.channels {
      var rt := t.g.channels[ch];
      var gap := if f.sequence > rt.seqIn then G.Note1(t, G.SequenceGap(ch)) else t;
      var u := gap.(g := gap.g.(channels := gap.g.channels[ch := rt.(seqIn := f.sequence + 1)]));
      PushSteps(G.Note1(u, G.Admitted(ch, f.sequence)), ErrorMessage(1, Some(ch)), w);
    }
  }

  lemma {:induction false} RequestGoes(g: G.Gate, ch: nat, op: OperationCode, id: OperationId, w: G.World)
    ensures Goes(G.GateTurn(g, G.NO_REPLY), G.PushRequest(g, ch, op, id, w))
  {
    hide G.Respond, Goes;
    var t := G.GateTurn(g, G.NO_REPLY);
    SaysNothing(t, t);
    if ch in g.channels {
      RespondGoes(t, ch, op, id, w);
    }
  }

  /** A stamped sample is one the gateway's own session would take. */
  lemma {:induction false} StampTaken(g: G.Gate, ch: nat, buf: seq<byte>)
    requires FRAME_HEADER_LENGTH <= |buf| && G.FrameSample(g, ch, buf).Some? && GateOk(g, ch) && GatewayLaws.FitsHeader(g, ch)
    ensures Taken(g.session, RawSample(G.FrameSample(g, ch, buf).value))
    ensures Stepped(g.session, RawSample(G.FrameSample(g, ch, buf).value), ServerRole) == g.session
  {
    hide G.FrameSample, SampleRead;
    FramingNeeds(g, ch, buf);
    GatewayLaws.StampReads(g, ch, buf);
    var b := G.FrameSample(g, ch, buf).value;
    DataAccepted(g.session, SampleRead(b), ServerRole);
    DataChangesNothing(g.session, RawSample(b), ServerRole);
  }

  // ---------------------------------------------------------------- both

  /** The gateway will take all that is on its way to it; the client all that is on its way to it
      but late data and a last word; and then both sessions are the same. */
  ghost predicate Agreed(c: Engine, g: G.Gate, live: bool, up: seq<Wire>, down: seq<Wire>) {
    && (live ==> AllTaken(g.session, up))
    && (!c.closed ==> HeardOut(c.session, down))
    && (live && !c.closed ==>
      Heard(c.session, down) && Replayed(c.session, down, ServerRole) == Replayed(g.session, up, ClientRole))
  }

  lemma {:induction false} ClientSays(c: Engine, d: Engine, g: G.Gate, live: bool, up: seq<Wire>, down: seq<Wire>, w: Wire)
    requires !c.closed && Agreed(c, g, live, up, down)
    requires OfClient(w) && Applies(c.session, w, ClientRole).Accepted? && d.session == Stepped(c.session, w, ClientRole)
    ensures Agreed(d, g, live, up + [w], down)
  {
    hide Applies, Stepped, OfClient, HeardOut, Heard, AllTaken;
    HeardOutPast(c.session, w, down);
    if live {
      PastGateway(c.session, w, down);
      ReplayedJoin(g.session, up, [w], ClientRole);
      ReplayedOne(Replayed(g.session, up, ClientRole), w, ClientRole);
      assert AllTaken(Replayed(g.session, up, ClientRole), [w]) by {
        OneTaken(Replayed(g.session, up, ClientRole), w);
      }
      AllTakenJoin(g.session, up, [w]);
    }
  }

  lemma {:induction false} OneTaken(s: State, w: Wire)
    requires OfClient(w) && Applies(s, w, ClientRole).Accepted?
    ensures AllTaken(s, [w])
  {
    hide Applies, OfClient;
    assert [w][1..] == [];
  }

  lemma {:induction false} SentAgrees(t: Client.Turn, u: Client.Turn, s: State, ws: seq<Wire>, g: G.Gate, live: bool, up: seq<Wire>, down: seq<Wire>)
    requires !t.c.closed && SendsTaken(t, u, s, ws)
    requires Agreed(t.c.(session := s), g, live, up + Messages(t.o.outbound), down)
    ensures Agreed(u.c, g, live, up + Messages(u.o.outbound), down)
  {
    hide Applies, Stepped, OfClient, HeardOut, Heard, AllTaken;
    var flying := up + Messages(t.o.outbound);
    assert up + Messages(u.o.outbound) == flying + ws;
    if ws != [] {
      assert ws == [ws[0]];
      ClientSays(t.c.(session := s), u.c, g, live, flying, down, ws[0]);
    } else {
      assert flying + [] == flying;
    }
  }

  lemma {:induction false} LocalAgrees(t: Client.Turn, e: HostEvent, g: G.Gate, live: bool, up: seq<Wire>, down: seq<Wire>)
    requires !t.c.closed && HasRoom(t) && !e.WsBytes? && Agreed(t.c, g, live, up + Messages(t.o.outbound), down)
    ensures var u := HandleEvent(t, e);
            Agreed(u.c, g, live, up + Messages(u.o.outbound), down)
  {
    hide HandleEvent, SendsTaken, Agreed;
    var ws := LocalTaken(t, e);
    assert t.c.(session := t.c.session) == t.c;
    SentAgrees(t, HandleEvent(t, e), t.c.session, ws, g, live, up, down);
  }

  lemma {:induction false} DeliveryAgrees(t: Client.Turn, e: HostEvent, g: G.Gate, live: bool, up: seq<Wire>, down: seq<Wire>)
    requires !t.c.closed && HasRoom(t) && e.WsBytes? && down != [] && ReadsAs(e.parsed, down[0])
    requires Agreed(t.c, g, live, up + Messages(t.o.outbound), down)
    ensures var u := HandleEvent(t, e);
            Agreed(u.c, g, live, up + Messages(u.o.outbound), down[1..])
  {
    hide HandleEvent, SendsTaken, HeardOut, Heard, AllTaken, ReadsAs, Applies, Stepped;
    var u := HandleEvent(t, e);
    var ws := DeliveryTaken(t, e, down[0]);
    if u.c.closed {
      assert Messages(t.o.outbound) + [] == Messages(t.o.outbound);
    } else {
      var s := Stepped(t.c.session, down[0], ServerRole);
      HeadTaken(t.c.session, down);
      assert Agreed(t.c.(session := s), g, live, up + Messages(t.o.outbound), down[1..]);
      SentAgrees(t, u, s, ws, g, live, up, down[1..]);
    }
  }

  /** If the head is accepted, the rest is heard after it. */
  lemma {:induction false} HeadTaken(s: State, ws: seq<Wire>)
    requires ws != [] && Applies(s, ws[0], ServerRole).Accepted?
    ensures HeardOut(s, ws) ==> HeardOut(Stepped(s, ws[0], ServerRole), ws[1..])
    ensures Heard(s, ws) ==> Heard(Stepped(s, ws[0], ServerRole), ws[1..])
    ensures Replayed(s, ws, ServerRole) == Replayed(Stepped(s, ws[0], ServerRole), ws[1..], ServerRole)
  {
    hide Stepped, Applies, Taken, Late, LastWord;
  }

  lemma {:induction false} BatchAgrees(t: Client.Turn, steps: seq<HostStep>, g: G.Gate, live: bool, up: seq<Wire>, down: seq<Wire>)
    requires |t.o.outbound| + |steps| <= MAX_OUTBOUND_PER_POLL && Legal(steps, down)
    requires Agreed(t.c, g, live, up + Messages(t.o.outbound), down)
    ensures var u := HandleAll(t, Events(steps, down));
            Agreed(u.c, g, live, up + Messages(u.o.outbound), Undelivered(steps, down))
    decreases |steps|
  {
    hide HandleEvent, ReadsAs, Agreed;
    if t.c.closed {
      ClosedIsDeaf(t.c, g, live, up + Messages(t.o.outbound), down, Undelivered(steps, down));
    } else if steps != [] {
      var es := Events(steps, down);
      match steps[0]
      case Own(e) =>
        assert es[0] == e && es[1..] == Events(steps[1..], down);
        LocalAgrees(t, e, g, live, up, down);
        EventQueuesOne(t, e);
        BatchAgrees(HandleEvent(t, e), steps[1..], g, live, up, down);
      case Deliver(b, bytes, parsed, encodes) =>
        if down == [] {
          BatchAgrees(t, steps[1..], g, live, up, down);
        } else {
          var e := WsBytes(b, bytes, parsed, encodes);
          assert es[0] == e && es[1..] == Events(steps[1..], down[1..]);
          DeliveryAgrees(t, e, g, live, up, down);
          EventQueuesOne(t, e);
          BatchAgrees(HandleEvent(t, e), steps[1..], g, live, up, down[1..]);
        }
    }
  }

  lemma {:induction false} ClosedIsDeaf(c: Engine, g: G.Gate, live: bool, up: seq<Wire>, down: seq<Wire>, other: seq<Wire>)
    requires c.closed && Agreed(c, g, live, up, down)
    ensures Agreed(c, g, live, up, other)
  {
    hide AllTaken;
  }

  /** What the gateway says reaches the client past all the client has said. */
  lemma {:induction false} GateSays(c: Engine, g: G.Gate, h: G.Gate, up: seq<Wire>, down: seq<Wire>, ws: seq<Wire>)
    requires Agreed(c, g, true, up, down) && Spoken(g.session, ws)
    ensures Agreed(c, h, false, up, down + ws)
    ensures h.session == Replayed(g.session, ws, ServerRole) ==> Agreed(c, h, true, up, down + ws)
  {
    hide Spoken, Heard, HeardOut, AllTaken, Replayed;
    ManyPastClient(g.session, ws, up);
    if !c.closed {
      HeardJoin(c.session, down, ws);
      ReplayedJoin(c.session, down, ws, ServerRole);
      HeardIsHeardOut(c.session, down + ws, []);
      assert (down + ws) + [] == down + ws;
    }
  }

  lemma {:induction false} GateSaysLast(c: Engine, g: G.Gate, h: G.Gate, up: seq<Wire>, down: seq<Wire>, ws: seq<Wire>, w: Wire)
    requires Agreed(c, g, true, up, down) && Spoken(g.session, ws) && LastWord(Replayed(g.session, ws, ServerRole), w)
    ensures Agreed(c, h, false, up, down + (ws + [w]))
  {
    hide Spoken, Heard, HeardOut, AllTaken, Replayed, LastWord;
    ManyPastClient(g.session, ws, up);
    if !c.closed {
      HeardJoin(c.session, down, ws);
      ReplayedJoin(c.session, down, ws, ServerRole);
      LastWordPast(Replayed(g.session, ws, ServerRole), up, w);
      HeardIsHeardOut(c.session, down + ws, [w]);
      assert (down + ws) + [w] == down + (ws + [w]);
    }
  }

  lemma {:induction false} GoesAgrees(c: Engine, t: G.GateTurn, u: G.GateTurn, up: seq<Wire>, down: seq<Wire>)
    requires Agreed(c, t.g, true, up, down) && t.r == G.NO_REPLY && Goes(t, u)
    ensures Agreed(c, u.g, !u.r.close, up, down + u.r.outbound)
  {
    hide Agreed, Spoken, Replayed, LastWord;
    var ws := New(t, u);
    assert ws == u.r.outbound;
    if Spoken(t.g.session, ws) {
      GateSays(c, t.g, u.g, up, down, ws);
    } else {
      var n := |ws| - 1;
      assert ws == ws[..n] + [ws[n]];
      GateSaysLast(c, t.g, u.g, up, down, ws[..n], ws[n]);
    }
  }

  ghost predicate Sessions(s: System) {
    Agreed(s.engine, s.gate, s.live, s.up, s.down) && G.FailedSession(G.SessionRejected) !in s.notes
  }

  lemma {:induction false} ClientTurnAgrees(s: System, steps: seq<HostStep>)
    requires Sessions(s) && Enabled(s, ClientTurn(steps))
    ensures Sessions(Link.Next(s, ClientTurn(steps)))
  {
    hide HandleAll, Legal, Sweep, Swept, Heard, HeardOut, AllTaken, Replayed;
    var events := Events(steps, s.down);
    assert Batch(events) == events;
    if s.engine.closed {
      assert s.up + [] == s.up;
      ClosedIsDeaf(s.engine, s.gate, s.live, s.up, s.down, Undelivered(steps, s.down));
    } else {
      var t := Client.Turn(s.engine, NO_OUTCOME);
      assert Messages([]) == [] && s.up + [] == s.up;
      BatchAgrees(t, steps, s.gate, s.live, s.up, s.down);
    }
  }

  lemma {:induction false} TakesAgrees(s: System, w: G.World)
    requires Sessions(s)
    ensures Sessions(Link.Next(s, GatewayTakes(w)))
  {
    hide G.HandleInbound, Heard, HeardOut, Replayed, Goes, Applies, Stepped, OfClient;
    if s.live && s.up != [] {
      var m, u := s.up[0], G.HandleInbound(s.gate, s.up[0], w);
      InboundGoes(s.gate, m, w);
      assert Replayed(s.gate.session, s.up, ClientRole) == Replayed(Having(s.gate, m).g.session, s.up[1..], ClientRole) by {
        ReplayedHead(s.gate.session, s.up);
      }
      assert Agreed(s.engine, Having(s.gate, m).g, true, s.up[1..], s.down);
      GoesAgrees(s.engine, Having(s.gate, m), u, s.up[1..], s.down);
      assert [] + u.r.outbound == u.r.outbound;
    }
  }

  lemma {:induction false} ReplayedHead(s: State, ws: seq<Wire>)
    requires ws != []
    ensures Replayed(s, ws, ClientRole) == Replayed(Stepped(s, ws[0], ClientRole), ws[1..], ClientRole)
  {
    hide Stepped;
  }

  lemma {:induction false} SampleAgrees(s: System, budget: nat, ch: nat, buf: seq<byte>)
    requires Sessions(s) && FRAME_HEADER_LENGTH <= |buf| && GatewayLaws.FitsHeader(s.gate, ch) && (s.live ==> GateOk(s.gate, ch))
    ensures Sessions(Link.Next(s, GatewaySample(budget, ch, buf)))
  {
    hide G.FrameSample, Agreed, Taken, Stepped, Goes, Says;
    var n := Link.Next(s, GatewaySample(budget, ch, buf));
    assert s.down + [] == s.down;
    if s.live {
      FramingNeeds(s.gate, ch, buf);
      var frame := G.FrameSample(s.gate, ch, buf);
      var t := G.GateTurn(s.gate, G.NO_REPLY);
      var ws := SampleStep(Conn(s.gate, [], true), budget, ch, buf).wire;
      var u := G.GateTurn(n.gate, G.Reply(ws, false, []));
      if ws == [] {
        SaysNothing(t, u);
      } else {
        StampTaken(s.gate, ch, buf);
        assert ws == [RawSample(frame.value)];
        SaysOne(t, u, RawSample(frame.value));
        SaysGoes(t, u);
      }
      GoesAgrees(s.engine, t, u, s.up, s.down);
    }
  }

  lemma {:induction false} RequestAgrees(s: System, ch: nat, op: OperationCode, id: OperationId, w: G.World)
    requires Sessions(s)
    ensures Sessions(Link.Next(s, GatewayRequest(ch, op, id, w)))
  {
    hide G.PushRequest, Agreed, Goes;
    assert s.down + [] == s.down;
    if s.live {
      var t, u := G.GateTurn(s.gate, G.NO_REPLY), G.PushRequest(s.gate, ch, op, id, w);
      RequestGoes(s.gate, ch, op, id, w);
      GoesAgrees(s.engine, t, u, s.up, s.down);
      assert [] + u.r.outbound == u.r.outbound;
    }
  }

  lemma {:induction false} StepAgrees(s: System, step: Step)
    requires Inv(s) && Sessions(s) && Enabled(s, step) && LinkSamples.FitsStep(s, step)
    ensures Sessions(Link.Next(s, step))
  {
    hide Link.Next, Sessions, Agree, Peaceful, Legal, GateOk;
    match step
    case ClientTurn(steps) => ClientTurnAgrees(s, steps);
    case GatewayTakes(w) => TakesAgrees(s, w);
    case GatewaySample(budget, ch, buf) =>
      SoundChannel(s, ch);
      SampleAgrees(s, budget, ch, buf);
    case GatewayRequest(ch, op, id, w) => RequestAgrees(s, ch, op, id, w);
  }

  lemma {:induction false} SoundChannel(s: System, ch: nat)
    requires Inv(s)
    ensures s.live ==> GateOk(s.gate, ch)
  {
    hide Items, Joint, GateOk;
    assert ChannelAgrees(s.engine, s.gate, s.live, s.up, s.down, ch);
  }

  lemma {:induction false} RunAgrees(s: System, steps: seq<Step>, t: System)
    requires Inv(s) && Sessions(s) && Reaches(s, steps, t) && LinkSamples.FitsRun(s, steps)
    ensures Sessions(t)
    decreases |steps|
  {
    hide Inv, Sessions, Link.Next, Enabled, LinkSamples.FitsStep;
    if steps != [] {
      StepKeeps(s, steps[0]);
      StepAgrees(s, steps[0]);
      RunAgrees(Link.Next(s, steps[0]), steps[1..], t);
    }
  }

  /** Over every run and every interleaving: the gateway has never refused a message of the
      client; and the client's session refuses the next message exactly if it is data on a channel
      the client has closed since it was sent. While both peers run, both sessions are the same
      once everything in flight has arrived. */
  lemma {:induction false} SessionsAgree(host: CdrLimits.Host, steps: seq<Step>, t: System)
    requires Reaches(Link.Start(host), steps, t) && LinkSamples.FitsRun(Link.Start(host), steps)
    ensures G.FailedSession(G.SessionRejected) !in t.notes
    ensures !t.engine.closed && t.down != [] ==>
      (Applies(t.engine.session, t.down[0], ServerRole).Violation? <==> Late(t.engine.session, t.down[0]))
    ensures t.live && !t.engine.closed ==>
      Replayed(t.engine.session, t.down, ServerRole) == Replayed(t.gate.session, t.up, ClientRole)
    ensures t.live && !t.engine.closed && t.up == [] && t.down == [] ==> t.engine.session == t.gate.session
  {
    hide Reaches, LinkSamples.FitsRun, Applies, Stepped, Late, LastWord;
    StartAgrees(host);
    RunAgrees(Link.Start(host), steps, t);
    if !t.engine.closed && t.down != [] {
      NextIsRefused(t.engine.session, t.down);
    }
  }

  lemma {:induction false} NextIsRefused(s: State, ws: seq<Wire>)
    requires ws != [] && HeardOut(s, ws)
    ensures Applies(s, ws[0], ServerRole).Violation? <==> Late(s, ws[0])
  {
    hide Applies, Late, LastWord, Stepped, OfGateway;
    if Late(s, ws[0]) {
      LateChangesNothing(s, ws[0]);
    }
    if |ws| == 1 && LastWord(s, ws[0]) {
      LastWordTaken(s, ws[0]);
    }
  }

  /** What that does: a client that takes the next message off the wire, and parses it, closes
      with a refused session exactly if the message is such late data. */
  lemma {:induction false} LateDataCloses(host: CdrLimits.Host, steps: seq<Step>, t: System, e: HostEvent)
    requires Reaches(Link.Start(host), steps, t) && LinkSamples.FitsRun(Link.Start(host), steps)
    requires !t.engine.closed && t.down != [] && e.WsBytes? && ReadsAs(e.parsed, t.down[0]) && !e.parsed.Unparsable?
    ensures var u := HandleEvent(Client.Turn(t.engine, NO_OUTCOME), e);
            && (REFUSED in u.o.events <==> Late(t.engine.session, t.down[0]))
            && (REFUSED in u.o.events ==> u.c.closed)
  {
    hide Reaches, LinkSamples.FitsRun, HandleEvent, Applies, Late, ReadsAs;
    SessionsAgree(host, steps, t);
    var c := Client.Turn(t.engine, NO_OUTCOME);
    var ws := DeliveryTaken(c, e, t.down[0]);
    if Late(t.engine.session, t.down[0]) {
      LateIsRefused(c, e, t.down[0]);
    }
  }

  lemma {:induction false} LateIsRefused(t: Client.Turn, e: HostEvent, w: Wire)
    requires e.WsBytes? && ReadsAs(e.parsed, w) && !e.parsed.Unparsable? && Late(t.c.session, w) && Applies(t.c.session, w, ServerRole).Violation?
    ensures REFUSED in HandleEvent(t, e).o.events && HandleEvent(t, e).c.closed
  {
    hide Ingest, FinishIngest, DeclaredLen, ApplyFrame, SampleRead;
    ReadsFrame(t.c.session, e.parsed, w);
  }

  /** An error about one channel ends the whole session: whatever the channel, which is open or
      was, a client that takes such an error off the wire closes. */
  lemma {:induction false} ChannelErrorCloses(host: CdrLimits.Host, steps: seq<Step>, t: System, e: HostEvent, ch: nat)
    requires Reaches(Link.Start(host), steps, t) && LinkSamples.FitsRun(Link.Start(host), steps)
    requires !t.engine.closed && t.down != [] && Replay.MessageOf(t.down[0]) == Some(ErrorMessage(1, Some(ch)))
    requires e.WsBytes? && ReadsAs(e.parsed, t.down[0]) && !e.parsed.Unparsable?
    ensures var u := HandleEvent(Client.Turn(t.engine, NO_OUTCOME), e);
            u.c.closed && u.o.events == [ErrorRaised(Client.PeerError), ClosedNow]
  {
    hide Reaches, LinkSamples.FitsRun, HandleEvent, Applies, ReadsAs, Items, Heard, AllTaken;
    StartAgrees(host);
    SessionsStart(host);
    RunAgrees(Link.Start(host), steps, t);
    RunKeeps(Link.Start(host), steps, t);
    HeadNumber(t.down, t.engine.controlIn, t.gate.controlOut);
    ErrorIsTaken(t.engine.session, t.down, ch);
    PeerErrorCloses(Client.Turn(t.engine, NO_OUTCOME), e, t.down[0], ch);
  }

  lemma {:induction false} SessionsStart(host: CdrLimits.Host)
    ensures Sessions(Link.Start(host))
  {
  }

  lemma {:induction false} ErrorIsTaken(s: State, ws: seq<Wire>, ch: nat)
    requires ws != [] && HeardOut(s, ws) && Replay.MessageOf(ws[0]) == Some(ErrorMessage(1, Some(ch)))
    ensures s.phase.Ready? && (s.Of(ch).Active? || s.Of(ch).Closed?)
  {
    hide Applies, Stepped;
    assert !IsData(ws[0]);
  }

  lemma {:induction false} PeerErrorCloses(t: Client.Turn, e: HostEvent, w: Wire, ch: nat)
    requires Replay.MessageOf(w) == Some(ErrorMessage(1, Some(ch))) && ControlNumber(w) == Some(t.c.controlIn) && t.o == NO_OUTCOME
    requires t.c.session.phase.Ready? && (t.c.session.Of(ch).Active? || t.c.session.Of(ch).Closed?)
    requires e.WsBytes? && ReadsAs(e.parsed, w) && !e.parsed.Unparsable?
    ensures var u := HandleEvent(t, e);
            u.c.closed && u.o.events == [ErrorRaised(Client.PeerError), ClosedNow]
  {
    hide Ingest, FinishIngest, DeclaredLen;
  }
}
