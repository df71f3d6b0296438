/** What each host event of an open client engine does to a channel and to the control stream. */
module LinkClient {
  import opened ByteOrder
  import opened CdrLimits
  import opened Session
  import opened Client
  import opened LinkItems

  function Messages(os: seq<Outbound>): (ws: seq<Wire>)
    ensures |ws| == |os|
  {
    seq(|os|, i requires 0 <= i < |os| => os[i].message)
  }

  /** The turn queued exactly `ws` more. */
  predicate Sends(t: Turn, u: Turn, ws: seq<Wire>) {
    Messages(u.o.outbound) == Messages(t.o.outbound) + ws
  }

  /** Every control sequence number consumed went out, in order. */
  predicate Counts(t: Turn, u: Turn, ws: seq<Wire>) {
    t.c.controlOut <= u.c.controlOut && Items(ws, ControlStream) == Range(t.c.controlOut, u.c.controlOut)
  }

  predicate Moves(t: Turn, u: Turn, ws: seq<Wire>, ch: nat, got: Option<Item>) {
    ClientMoves(ClientViewOf(t.c, ch), ClientViewOf(u.c, ch), Items(ws, Up(ch)), got, u.c.closed)
  }

  const MISMATCH := ErrorRaised(Client.ControlSequenceMismatch)

  /** No sequence mismatch was reported on the way. */
  predicate Calm(t: Turn, u: Turn) {
    MISMATCH in u.o.events ==> MISMATCH in t.o.events
  }

  /** The whole protocol effect of a local event. */
  ghost predicate Local(t: Turn, u: Turn, ws: seq<Wire>, ch: nat) {
    && Sends(t, u, ws) && |ws| <= 1 && Counts(t, u, ws) && Moves(t, u, ws, ch, None) && Calm(t, u)
    && u.c.controlIn == t.c.controlIn
  }

  predicate HasRoom(t: Turn) {
    |t.o.outbound| < MAX_OUTBOUND_PER_POLL
  }

  lemma {:induction false} SendsNothing(t: Turn, u: Turn)
    requires u.o.outbound == t.o.outbound
    ensures Sends(t, u, [])
  {
  }

  lemma {:induction false} PushSends(t: Turn, m: Wire)
    requires HasRoom(t)
    ensures Sends(t, PushOutbound(t, m), [m])
    ensures PushOutbound(t, m).c == t.c.(slab := PushOutbound(t, m).c.slab) && PushOutbound(t, m).o.events == t.o.events
  {
  }

  lemma {:induction false} CountsOne(t: Turn, u: Turn, msg: Control)
    requires u.c.controlOut == t.c.controlOut + 1
    ensures Counts(t, u, [Framed(ControlFrame(t.c.controlOut, msg))])
  {
    ItemsOne(Framed(ControlFrame(t.c.controlOut, msg)), ControlStream);
    assert Range(t.c.controlOut + 1, t.c.controlOut + 1) == [];
  }

  lemma {:induction false} CountsNone(t: Turn, u: Turn, ws: seq<Wire>)
    requires u.c.controlOut == t.c.controlOut && |ws| <= 1
    requires |ws| == 1 ==> ItemOf(ws[0], ControlStream) == None
    ensures Counts(t, u, ws)
  {
    if |ws| == 1 {
      assert ws == [ws[0]];
      ItemsOne(ws[0], ControlStream);
    }
  }

  /** A control push that went through, or left the turn as it was. */
  lemma {:induction false} PushEffect(t: Turn, msg: Control, encodes: bool) returns (ws: seq<Wire>)
    requires HasRoom(t)
    ensures var p := PushControl(t, msg, encodes);
            && (p.ok ==>
              && ws == [Framed(ControlFrame(t.c.controlOut, msg))]
              && ApplyControl(t.c.session, msg, ClientRole).Accepted?
              && p.turn.c == t.c.(slab := p.turn.c.slab, controlOut := t.c.controlOut + 1,
                                  session := ApplyControl(t.c.session, msg, ClientRole).state))
            && (!p.ok ==> ws == [] && p.turn == t)
            && Sends(t, p.turn, ws) && Counts(t, p.turn, ws) && p.turn.o.events == t.o.events
  {
    hide ApplyControl, PushOutbound, Sends, Counts;
    var p := PushControl(t, msg, encodes);
    if p.ok {
      ws := [Framed(ControlFrame(t.c.controlOut, msg))];
      var a := ApplyFrame(t.c.session, ControlFrame(t.c.controlOut, msg), ClientRole);
      PushSends(t.(c := t.c.(session := a.state, controlOut := t.c.controlOut + 1)), ws[0]);
      SendsSame(t, t.(c := t.c.(session := a.state, controlOut := t.c.controlOut + 1)), p.turn, ws);
      CountsOne(t, p.turn, msg);
    } else {
      ws := [];
      SendsNothing(t, t);
      CountsNone(t, t, []);
    }
  }

  lemma {:induction false} SendsSame(t: Turn, s: Turn, u: Turn, ws: seq<Wire>)
    requires t.o.outbound == s.o.outbound && Sends(s, u, ws)
    ensures Sends(t, u, ws)
  {
  }

  /** Nothing sent, nothing changed that matters to `ch`, perhaps the engine closed. */
  lemma {:induction false} Still(t: Turn, u: Turn, ch: nat)
    requires u.o.outbound == t.o.outbound && u.c.controlOut == t.c.controlOut && u.c.controlIn == t.c.controlIn
    requires u.c.closed || ClientViewOf(u.c, ch) == ClientViewOf(t.c, ch)
    requires Calm(t, u)
    ensures Local(t, u, [], ch)
  {
    SendsNothing(t, u);
    CountsNone(t, u, []);
  }

  /** Control messages that say nothing about any channel. */
  predicate Neutral(msg: Control) {
    msg.Authenticate? || msg.Heartbeat?
  }

  lemma {:induction false} NeutralPush(t: Turn, u: Turn, msg: Control, encodes: bool, ch: nat) returns (ws: seq<Wire>)
    requires HasRoom(t) && !t.c.closed && Neutral(msg)
    requires u == PushControl(t, msg, encodes).turn
    ensures Local(t, u, ws, ch) && !u.c.closed
  {
    hide PushControl, Sends, Counts;
    ws := PushEffect(t, msg, encodes);
    if ws != [] {
      ItemsOne(ws[0], Up(ch));
      assert ApplyControl(t.c.session, msg, ClientRole).state.channels == t.c.session.channels;
    }
  }

  lemma {:induction false} TimerMoves(t: Turn, now: nat, encodes: bool, ch: nat) returns (ws: seq<Wire>)
    requires HasRoom(t) && !t.c.closed
    ensures Local(t, HandleTimer(t, now, encodes), ws, ch)
  {
    hide PushControl, Local;
    var u := t.(c := t.c.(lastTimer := Some(now)));
    var v := u.(c := u.c.(heartbeats := u.c.heartbeats + 1));
    var w := PushControl(v, Heartbeat(v.c.heartbeats), encodes).turn;
    ws := NeutralPush(v, w, Heartbeat(v.c.heartbeats), encodes, ch);
    var r := HandleTimer(t, now, encodes);
    if !u.c.session.phase.Ready? || u.c.nextHeartbeat.None? || now < u.c.nextHeartbeat.value {
      ws := [];
      Still(t, r, ch);
    } else {
      Around(t, v, w, r, ws, ch);
    }
  }

  /** Bookkeeping before and after a step that no one outside sees. */
  lemma {:induction false} Around(t: Turn, s: Turn, u: Turn, r: Turn, ws: seq<Wire>, ch: nat)
    requires Local(s, u, ws, ch)
    requires t.o == s.o && ClientViewOf(t.c, ch) == ClientViewOf(s.c, ch) && t.c.controlOut == s.c.controlOut && t.c.controlIn == s.c.controlIn
    requires r.o == u.o && ClientViewOf(r.c, ch) == ClientViewOf(u.c, ch) && r.c.controlOut == u.c.controlOut
    requires r.c.controlIn == u.c.controlIn && r.c.closed == u.c.closed
    ensures Local(t, r, ws, ch)
  {
  }

  // ---------------------------------------------------------------- commands

  lemma {:induction false} SampleMoves(t: Turn, target: nat, payloadLen: nat, frames: bool, ch: nat) returns (ws: seq<Wire>)
    requires HasRoom(t) && !t.c.closed
    ensures Local(t, SendSamplePayload(t, target, payloadLen, frames), ws, ch)
  {
    hide PushOutbound, Tell, Sends, Counts;
    var r := SendSamplePayload(t, target, payloadLen, frames);
    ws := [];
    if target in t.c.publishes {
      var p := t.c.publishes[target];
      var f := SampleFrame(target, p, payloadLen);
      var s := t.(c := t.c.(publishes := t.c.publishes[target := p.(seqOut := p.seqOut + 1)]));
      if SendData(s, f, frames).ok {
        ws := [Framed(f)];
        PushSends(s, Framed(f));
        SendsSame(t, s, r, ws);
        CountsNone(t, r, ws);
        ItemsOne(Framed(f), Up(ch));
      }
    }
    if ws == [] {
      Still(t, r, ch);
    }
  }

  lemma {:induction false} OperationMoves(t: Turn, target: nat, op: OperationCode, id: OperationId, payloadLen: nat, frames: bool, ch: nat)
    returns (ws: seq<Wire>)
    requires HasRoom(t) && !t.c.closed
    ensures Local(t, SendOperationFrame(t, target, op, id, payloadLen, frames), ws, ch)
  {
    hide PushOutbound, Tell, Sends, Counts;
    var r := SendOperationFrame(t, target, op, id, payloadLen, frames);
    ws := [];
    if target in t.c.services || target in t.c.actions {
      var sequence := if target in t.c.services then t.c.services[target].nextSeq else t.c.actions[target].nextSeq;
      var took :=
        if target in t.c.services then t.(c := t.c.(services := t.c.services[target := NextOp(t.c.services[target], id)]))
        else t.(c := t.c.(actions := t.c.actions[target := NextOp(t.c.actions[target], id)]));
      var f := Frame(op, SentReliable(op), false, target, sequence, OPERATION_ID_AREA, payloadLen, Some(id), AppPayload);
      if SendData(took, f, frames).ok {
        ws := [Framed(f)];
        PushSends(took, Framed(f));
        SendsSame(t, took, r, ws);
        CountsNone(t, r, ws);
        ItemsOne(Framed(f), Up(ch));
      }
    }
    if ws == [] {
      Still(t, r, ch);
    }
  }

  lemma {:induction false} OpenMoves(t: Turn, target: nat, kind: Kind, reliability: byte, depth: nat, known: bool, encodes: bool, ch: nat)
    returns (ws: seq<Wire>)
    requires HasRoom(t) && !t.c.closed
    ensures Local(t, HandleCommand(t, OpenCommand(target, kind, reliability, depth, known, encodes)), ws, ch)
  {
    hide PushControl, Tell, Fail, Sends, Counts;
    var r := HandleCommand(t, OpenCommand(target, kind, reliability, depth, known, encodes));
    var msg := OpenRequest(target, kind, RequestedReliability(kind, reliability), depth);
    ws := PushEffect(t, msg, encodes);
    var p := PushControl(t, msg, encodes);
    if !known || !p.ok {
      ws := [];
      Still(t, r, ch);
    } else {
      SendsOnward(t, p.turn, r, ws);
      OpenView(t, p.turn, r, target, kind, RequestedReliability(kind, reliability), depth, ch);
    }
  }

  lemma {:induction false} OpenView(t: Turn, p: Turn, r: Turn, target: nat, kind: Kind, rel: byte, depth: nat, ch: nat)
    requires !t.c.closed
    requires ApplyControl(t.c.session, OpenRequest(target, kind, rel, depth), ClientRole).Accepted?
    requires p.c == t.c.(slab := p.c.slab, controlOut := t.c.controlOut + 1,
                         session := ApplyControl(t.c.session, OpenRequest(target, kind, rel, depth), ClientRole).state)
    requires r.c == p.c.(pending := p.c.pending[target := PendingOpen(kind, rel)])
    ensures Moves(t, r, [Framed(ControlFrame(t.c.controlOut, OpenRequest(target, kind, rel, depth)))], ch, None)
  {
    ItemsOne(Framed(ControlFrame(t.c.controlOut, OpenRequest(target, kind, rel, depth))), Up(ch));
  }

  lemma {:induction false} SendsOnward(t: Turn, u: Turn, r: Turn, ws: seq<Wire>)
    requires Sends(t, u, ws) && Counts(t, u, ws) && r.o.outbound == u.o.outbound && r.c.controlOut == u.c.controlOut
    ensures Sends(t, r, ws) && Counts(t, r, ws)
  {
  }

  lemma {:induction false} CloseMoves(t: Turn, target: nat, encodes: bool, ch: nat) returns (ws: seq<Wire>)
    requires HasRoom(t) && !t.c.closed
    ensures Local(t, HandleCommand(t, Unsubscribe(target, encodes)), ws, ch)
  {
    hide PushControl, Tell, Fail, Sends, Counts;
    var r := HandleCommand(t, Unsubscribe(target, encodes));
    ws := PushEffect(t, CloseChannel(target), encodes);
    var p := PushControl(t, CloseChannel(target), encodes);
    if !p.ok {
      Still(t, r, ch);
    } else {
      SendsOnward(t, p.turn, r, ws);
      CloseView(t, p.turn, r, target, ch);
    }
  }

  lemma {:induction false} CloseView(t: Turn, p: Turn, r: Turn, target: nat, ch: nat)
    requires !t.c.closed && ApplyControl(t.c.session, CloseChannel(target), ClientRole).Accepted?
    requires p.c == t.c.(slab := p.c.slab, controlOut := t.c.controlOut + 1,
                         session := ApplyControl(t.c.session, CloseChannel(target), ClientRole).state)
    requires r.c == Forget(p.c, target)
    ensures Moves(t, r, [Framed(ControlFrame(t.c.controlOut, CloseChannel(target)))], ch, None)
  {
    ItemsOne(Framed(ControlFrame(t.c.controlOut, CloseChannel(target))), Up(ch));
  }

  lemma {:induction false} StartMoves(t: Turn, encodes: bool, ch: nat) returns (ws: seq<Wire>)
    requires HasRoom(t) && !t.c.closed
    ensures Local(t, HandleCommand(t, Start(encodes)), ws, ch)
  {
    hide Tell, Fail, Sends, Counts, PushOutbound;
    var r := HandleCommand(t, Start(encodes));
    ws := [];
    var a := ApplyBootstrap(t.c.session, ClientHello, ClientRole);
    if t.c.started || !encodes || a.Violation? {
      Still(t, r, ch);
    } else {
      var s := t.(c := t.c.(started := true, session := a.state));
      ws := [Boot(ClientHello)];
      PushSends(s, ws[0]);
      SendsSame(t, s, r, ws);
      CountsNone(t, r, ws);
      ItemsOne(ws[0], Up(ch));
    }
  }

  lemma {:induction false} CommandMoves(t: Turn, cmd: Command, ch: nat) returns (ws: seq<Wire>)
    requires HasRoom(t) && !t.c.closed
    ensures Local(t, HandleCommand(t, cmd), ws, ch)
  {
    hide PushControl, SendSamplePayload, SendOperationFrame, Tell, Fail, Local;
    var r := HandleCommand(t, cmd);
    ws := [];
    match cmd
    case Start(encodes) =>
      ws := StartMoves(t, encodes, ch);
    case Login(encodes) =>
      var p := PushControl(t, Authenticate, encodes);
      ws := NeutralPush(t, p.turn, Authenticate, encodes, ch);
      if !p.ok {
        ws := [];
        Still(t, r, ch);
      }
    case OpenCommand(target, kind, reliability, depth, known, encodes) =>
      ws := OpenMoves(t, target, kind, reliability, depth, known, encodes, ch);
    case SendSample(target, payloadLen, encoded, frames) =>
      if encoded {
        ws := SampleMoves(t, target, payloadLen, frames, ch);
      } else {
        Still(t, r, ch);
      }
    case SendOperation(target, op, id, payloadLen, encoded, frames) =>
      if encoded {
        ws := OperationMoves(t, target, op, id, payloadLen, frames, ch);
      } else {
        Still(t, r, ch);
      }
    case Unsubscribe(target, encodes) =>
      ws := CloseMoves(t, target, encodes, ch);
    case Shutdown => Still(t, r, ch);
  }

  // ---------------------------------------------------------------- inbound

  /** What the parser can make of a message the gateway sent: refuse it, or read it as it is. */
  predicate ReadsAs(parsed: Parsed, w: Wire) {
    parsed.Unparsable? ||
    match w
    case Boot(record) => parsed == BootRecord(record)
    case Framed(f) => parsed == FrameParsed(f)
    case RawSample(b) => |b| >= FRAME_HEADER_LENGTH && parsed == FrameParsed(SampleRead(b))
  }

  /** Not a CloseChannel: the gateway never sends one. */
  ghost predicate NeverCloses(w: Wire) {
    forall id :: ItemOf(w, Down(id)) != Some(CloseItem)
  }

  /** The whole protocol effect of taking `w` off the wire. */
  ghost predicate Takes1(t: Turn, u: Turn, ws: seq<Wire>, ch: nat, w: Wire) {
    && Sends(t, u, ws) && |ws| <= 1 && Counts(t, u, ws) && (NeverCloses(w) ==> Moves(t, u, ws, ch, ItemOf(w, Down(ch))))
    && (ControlNumber(w) == Some(t.c.controlIn) || ControlNumber(w).None? ==> Calm(t, u))
    && (!u.c.closed ==>
      if ControlNumber(w).Some? then ControlNumber(w).value == t.c.controlIn && u.c.controlIn == t.c.controlIn + 1
      else u.c.controlIn == t.c.controlIn)
  }

  lemma {:induction false} Ends(t: Turn, u: Turn, ch: nat, w: Wire)
    requires u.o.outbound == t.o.outbound && u.c.controlOut == t.c.controlOut && u.c.closed
    requires Calm(t, u) || (ControlNumber(w).Some? && ControlNumber(w).value != t.c.controlIn)
    ensures Takes1(t, u, [], ch, w)
  {
    SendsNothing(t, u);
    CountsNone(t, u, []);
  }

  lemma {:induction false} DataMoves(t: Turn, s: State, id: nat, f: Frame, declared: nat, ch: nat, w: Wire)
    requires !t.c.closed && ControlNumber(w).None? && ItemOf(w, Down(ch)).None?
    requires s.channels == t.c.session.channels
    ensures Takes1(t, HandleData(t.(c := t.c.(session := s)), id, f, declared), [], ch, w)
  {
    hide HandleData, ItemOf, ClientMoves;
    var u := HandleData(t.(c := t.c.(session := s)), id, f, declared);
    DataEngine(t.(c := t.c.(session := s)), id, f, declared);
    if u.c.closed {
      Ends(t, u, ch, w);
    } else {
      SendsNothing(t, u);
      CountsNone(t, u, []);
      SameView(ClientViewOf(t.c, ch));
    }
  }

  lemma {:induction false} DataEngine(t: Turn, id: nat, f: Frame, declared: nat)
    ensures var u := HandleData(t, id, f, declared);
            u.o.outbound == t.o.outbound && Calm(t, u) && u.c == t.c.(slab := u.c.slab, closed := u.c.closed)
  {
    hide Grant, Tell, Fail, Calm;
    var u := HandleData(t, id, f, declared);
    if u == t {
      CalmSame(t);
    } else if u.c.closed && !t.c.closed {
      FailCalm(t, Client.PayloadOutOfBounds);
      FailCalm(t, Client.MissingOperationId);
    } else {
      var offset := FRAME_HEADER_LENGTH + f.extensionLen;
      var opId := if IsOperation(f.opcode) && f.operationId.None? then Some(ZERO_ID) else f.operationId;
      FailCalm(t, Client.PayloadOutOfBounds);
      FailCalm(t, Client.MissingOperationId);
      TellCalm(t, t.(c := t.c.(slab := Grant(t.c.slab, id, offset, f.payloadLen))),
               Leased(f.opcode, f.channelId, t.c.slab.nextLease, f.sequence, opId));
    }
  }

  lemma {:induction false} CalmSame(t: Turn)
    ensures Calm(t, t)
  {
  }

  lemma {:induction false} TellCalm(t: Turn, s: Turn, e: AppEvent)
    requires s.o == t.o && e != MISMATCH
    ensures Calm(t, Tell(s, e))
  {
  }

  lemma {:induction false} FailCalm(t: Turn, reason: Reason)
    requires reason != Client.ControlSequenceMismatch
    ensures Calm(t, Fail(t, reason))
  {
  }

  /** What a successful or failed open leaves of the engine, as far as the link sees it. */
  lemma {:induction false} ReadyEngine(s: Turn, target: nat, result: nat, effective: Option<nat>)
    ensures var u := if result == 0 || result == 2 then ChannelIsReady(s, target, effective) else OpenDidFail(s, target);
            var p := if target in s.c.pending then s.c.pending[target] else PendingOpen(TopicSubscribe, 1);
            && u.c.session == s.c.session && u.c.closed == s.c.closed && u.c.pending == s.c.pending - {target}
            && u.c.publishes ==
               if (result == 0 || result == 2) && p.kind.TopicPublish? then
                 s.c.publishes[target := Publication((if effective.Some? then effective.value else p.reliability) != 2, 0)]
               else s.c.publishes
  {
    hide Tell;
  }

  lemma {:induction false} ReadyView(t: Turn, s: Turn, u: Turn, target: nat, result: nat, effective: Option<nat>, ch: nat)
    requires !t.c.closed && t.c.session.Of(target).Pending?
    requires s.c.session == WithState(t.c.session, target, if result == 0 || result == 2 then Active else Failed)
    requires s.c.pending == t.c.pending && s.c.publishes == t.c.publishes && !s.c.closed
    requires u == if result == 0 || result == 2 then ChannelIsReady(s, target, effective) else OpenDidFail(s, target)
    ensures ClientMoves(ClientViewOf(t.c, ch), ClientViewOf(u.c, ch), [],
                        if target == ch then Some(ReadyItem(result, effective)) else None, u.c.closed)
  {
    hide ChannelIsReady, OpenDidFail;
    ReadyEngine(s, target, result, effective);
  }

  lemma {:induction false} Opened1(s: Turn, target: nat, effective: Option<nat>)
    ensures var u := ChannelIsReady(s, target, effective);
            && u.o.outbound == s.o.outbound && u.c.controlOut == s.c.controlOut && u.c.controlIn == s.c.controlIn && Calm(s, u)
    ensures var u := OpenDidFail(s, target);
            && u.o.outbound == s.o.outbound && u.c.controlOut == s.c.controlOut && u.c.controlIn == s.c.controlIn && Calm(s, u)
  {
    hide Tell;
  }

  /** A ChannelReady, applied by the session and then handled. */
  lemma {:induction false} ReadyMoves(t: Turn, target: nat, result: nat, effective: Option<nat>, ch: nat, encodes: bool)
    requires !t.c.closed && ApplyControl(t.c.session, ChannelReady(target, result, effective), ServerRole).Accepted?
    ensures Handled(t, ChannelReady(target, result, effective), ch, encodes)
  {
    hide ChannelIsReady, OpenDidFail, ClientMoves, ClientViewOf;
    var msg := ChannelReady(target, result, effective);
    var a := ApplyControl(t.c.session, msg, ServerRole);
    var s := t.(c := t.c.(session := a.state, controlIn := t.c.controlIn + 1));
    var u := HandleControl(s, msg, a.effects, encodes);
    Opened1(s, target, effective);
    ReadyView(t, s, u, target, result, effective, ch);
  }

  /** The message was applied and handled, with its effect on `ch` and nothing else. */
  ghost predicate Handled(t: Turn, msg: Control, ch: nat, encodes: bool) {
    ApplyControl(t.c.session, msg, ServerRole).Accepted? ==>
      var a := ApplyControl(t.c.session, msg, ServerRole);
      var s := t.(c := t.c.(session := a.state, controlIn := t.c.controlIn + 1));
      var u := HandleControl(s, msg, a.effects, encodes);
      && u.o.outbound == t.o.outbound && u.c.controlOut == t.c.controlOut && u.c.controlIn == t.c.controlIn + 1
      && Calm(t, u)
      && Moves(t, u, [], ch, ItemOf(Framed(ControlFrame(t.c.controlIn, msg)), Down(ch)))
  }

  lemma {:induction false} FailedView(t: Turn, s: Turn, u: Turn, target: nat, scope: nat, ch: nat)
    requires !t.c.closed && t.c.session.Of(target).Pending?
    requires s.c.session == WithState(t.c.session, target, Failed)
    requires s.c.pending == t.c.pending && s.c.publishes == t.c.publishes && !s.c.closed
    requires u == OpenDidFail(s, target)
    ensures ClientMoves(ClientViewOf(t.c, ch), ClientViewOf(u.c, ch), [], if target == ch then Some(ErrorItem(scope)) else None, u.c.closed)
  {
    hide Tell;
  }

  /** An error, applied by the session and then handled. */
  lemma {:induction false} ErrorMoves(t: Turn, scope: nat, channel: Option<nat>, ch: nat, encodes: bool)
    requires !t.c.closed && ApplyControl(t.c.session, ErrorMessage(scope, channel), ServerRole).Accepted?
    ensures Handled(t, ErrorMessage(scope, channel), ch, encodes)
  {
    hide OpenDidFail, Tell, Fail;
    var msg := ErrorMessage(scope, channel);
    var a := ApplyControl(t.c.session, msg, ServerRole);
    var s := t.(c := t.c.(session := a.state, controlIn := t.c.controlIn + 1));
    var u := HandleControl(s, msg, a.effects, encodes);
    if a.effects.failing.Some? && !a.effects.sessionError {
      Opened1(s, channel.value, None);
      FailedView(t, s, u, channel.value, scope, ch);
    }
  }

  lemma {:induction false} OutcomeMoves(t: Turn, msg: Control, ch: nat, encodes: bool)
    requires !t.c.closed && (msg.ChannelReady? || msg.ErrorMessage?)
    requires ApplyControl(t.c.session, msg, ServerRole).Accepted?
    ensures Handled(t, msg, ch, encodes)
  {
    hide Handled, ApplyControl;
    match msg
    case ChannelReady(target, result, effective) => ReadyMoves(t, target, result, effective, ch, encodes);
    case ErrorMessage(scope, channel) => ErrorMoves(t, scope, channel, ch, encodes);
  }

  lemma {:induction false} QuietControl(t: Turn, msg: Control, ch: nat, encodes: bool) returns (ws: seq<Wire>)
    requires HasRoom(t) && !t.c.closed && !(msg.ChannelReady? || msg.ErrorMessage? || msg.CloseChannel? || msg.OpenChannel?)
    requires ApplyControl(t.c.session, msg, ServerRole).Accepted?
    ensures var a := ApplyControl(t.c.session, msg, ServerRole);
            var s := t.(c := t.c.(session := a.state, controlIn := t.c.controlIn + 1));
            var u := HandleControl(s, msg, a.effects, encodes);
            && Sends(t, u, ws) && |ws| <= 1 && Counts(t, u, ws) && Calm(t, u)
            && u.c.controlIn == t.c.controlIn + 1 && Moves(t, u, ws, ch, None)
  {
    hide Tell, Fail, PushControl, Sends, Counts;
    var a := ApplyControl(t.c.session, msg, ServerRole);
    assert a.state.channels == t.c.session.channels;
    var s := t.(c := t.c.(session := a.state, controlIn := t.c.controlIn + 1));
    var u := HandleControl(s, msg, a.effects, encodes);
    ws := [];
    if msg.Heartbeat? {
      var x := Tell(s, HeartbeatSeen(msg.counter));
      var v := x.(c := x.c.(heartbeats := x.c.heartbeats + 1));
      ws := NeutralPush(v, u, Heartbeat(v.c.heartbeats), encodes, ch);
      SendsSame(t, v, u, ws);
      CountsAs(t, v, u, ws);
    } else {
      SendsNothing(t, u);
      CountsNone(t, u, []);
    }
  }

  lemma {:induction false} CountsAs(t: Turn, s: Turn, u: Turn, ws: seq<Wire>)
    requires t.c.controlOut == s.c.controlOut && Counts(s, u, ws)
    ensures Counts(t, u, ws)
  {
  }

  lemma {:induction false} ControlMoves(t: Turn, f: Frame, id: nat, declared: nat, encodes: bool, ch: nat) returns (ws: seq<Wire>)
    requires HasRoom(t) && !t.c.closed && f.opcode.ControlCbor?
    ensures Takes1(t, HandleFrame(t, id, declared, FrameParsed(f), encodes), ws, ch, Framed(f))
  {
    hide HandleControl, ApplyControl, Tell, Fail, Sends, Counts, ItemOf, Items, NeverCloses;
    var u := HandleFrame(t, id, declared, FrameParsed(f), encodes);
    ws := [];
    var a := ApplyFrame(t.c.session, f, ServerRole);
    if a.Violation? || f.sequence != t.c.controlIn || !f.payload.ControlPayload? {
      Ends(t, u, ch, Framed(f));
    } else {
      var msg := f.payload.msg;
      SameItem(f, t.c.controlIn, ch);
      WrongWay(t.c.session, msg);
      NoClose(f);
      if msg.CloseChannel? {
        CloseIgnored(t, msg, encodes);
        SendsNothing(t, u);
        CountsNone(t, u, []);
      } else if msg.ChannelReady? || msg.ErrorMessage? {
        OutcomeMoves(t, msg, ch, encodes);
        SendsNothing(t, u);
        CountsNone(t, u, []);
      } else {
        ws := QuietControl(t, msg, ch, encodes);
        NoItem(f, ch);
      }
    }
  }

  lemma {:induction false} SameItem(f: Frame, n: nat, ch: nat)
    requires f.opcode.ControlCbor? && f.payload.ControlPayload?
    ensures ItemOf(Framed(f), Down(ch)) == ItemOf(Framed(ControlFrame(n, f.payload.msg)), Down(ch))
  {
  }

  lemma {:induction false} NoItem(f: Frame, ch: nat)
    requires f.opcode.ControlCbor? && f.payload.ControlPayload?
    requires !(f.payload.msg.ChannelReady? || f.payload.msg.ErrorMessage? || f.payload.msg.CloseChannel?)
    ensures ItemOf(Framed(f), Down(ch)).None?
  {
  }

  lemma {:induction false} NoClose(f: Frame)
    requires f.opcode.ControlCbor? && f.payload.ControlPayload?
    ensures f.payload.msg.CloseChannel? ==> !NeverCloses(Framed(f))
  {
    if f.payload.msg.CloseChannel? {
      assert ItemOf(Framed(f), Down(f.payload.msg.channelId)) == Some(CloseItem);
    }
  }

  lemma {:induction false} CloseIgnored(t: Turn, msg: Control, encodes: bool)
    requires msg.CloseChannel?
    ensures forall s, fx :: HandleControl(s, msg, fx, encodes) == s
  {
  }

  lemma {:induction false} WrongWay(s: State, msg: Control)
    ensures msg.OpenChannel? ==> ApplyControl(s, msg, ServerRole).Violation?
  {
  }

  lemma {:induction false} FrameMoves(t: Turn, parsed: Parsed, id: nat, declared: nat, encodes: bool, ch: nat, w: Wire) returns (ws: seq<Wire>)
    requires HasRoom(t) && !t.c.closed && ReadsAs(parsed, w)
    ensures Takes1(t, HandleFrame(t, id, declared, parsed, encodes), ws, ch, w)
  {
    hide HandleControl, HandleData, ApplyFrame, Tell, Fail, Takes1;
    var u := HandleFrame(t, id, declared, parsed, encodes);
    ws := [];
    if parsed.FrameParsed? && parsed.frame.opcode.ControlCbor? {
      assert w == Framed(parsed.frame);
      ws := ControlMoves(t, parsed.frame, id, declared, encodes, ch);
    } else if !parsed.FrameParsed? || ApplyFrame(t.c.session, parsed.frame, ServerRole).Violation? {
      Ends(t, u, ch, w);
    } else {
      var s := ApplyFrame(t.c.session, parsed.frame, ServerRole).state;
      DataApplied(t.c.session, parsed.frame);
      DataMoves(t, s, id, parsed.frame, declared, ch, w);
    }
  }

  lemma {:induction false} DataApplied(s: State, f: Frame)
    requires !f.opcode.ControlCbor? && ApplyFrame(s, f, ServerRole).Accepted?
    ensures ApplyFrame(s, f, ServerRole).state == s && !f.opcode.Media?
  {
  }

  lemma {:induction false} BootMoves(t: Turn, parsed: Parsed, ch: nat, w: Wire)
    requires !t.c.closed && ReadsAs(parsed, w)
    ensures Takes1(t, HandleBootstrap(t, parsed), [], ch, w)
  {
    hide HandleBootstrap, ItemOf, ClientMoves;
    var u := HandleBootstrap(t, parsed);
    BootEngine(t, parsed);
    if u.c.closed {
      Ends(t, u, ch, w);
    } else {
      BootItems(w, parsed, ch);
      SendsNothing(t, u);
      CountsNone(t, u, []);
      SameView(ClientViewOf(t.c, ch));
    }
  }

  lemma {:induction false} SameView(a: ClientView)
    ensures ClientMoves(a, a, [], None, false)
  {
  }

  lemma {:induction false} BootItems(w: Wire, parsed: Parsed, ch: nat)
    requires ReadsAs(parsed, w) && parsed.BootRecord?
    ensures ItemOf(w, Down(ch)).None? && ControlNumber(w).None?
  {
  }

  lemma {:induction false} BootEngine(t: Turn, parsed: Parsed)
    ensures var u := HandleBootstrap(t, parsed);
            && u.o.outbound == t.o.outbound && Calm(t, u)
            && u.c == t.c.(session := u.c.session, closed := u.c.closed)
            && (!u.c.closed && !t.c.closed ==> parsed.BootRecord?)
            && u.c.session.channels == t.c.session.channels
  {
    hide Tell, Fail, ApplyBootstrap;
    if parsed.BootRecord? {
      BootstrapChannels(t.c.session, parsed.record);
    }
  }

  lemma {:induction false} BootstrapChannels(s: State, record: Record)
    ensures ApplyBootstrap(s, record, ServerRole).Accepted? ==> ApplyBootstrap(s, record, ServerRole).state.channels == s.channels
  {
  }

  /** Taking the next message off the wire, whatever the parser makes of it. */
  lemma {:induction false} DeliveryMoves(t: Turn, bufferId: nat, bytes: seq<byte>, parsed: Parsed, encodes: bool, ch: nat, w: Wire)
    returns (ws: seq<Wire>)
    requires HasRoom(t) && !t.c.closed && ReadsAs(parsed, w)
    ensures Takes1(t, HandleWsBytes(t, bufferId, bytes, parsed, encodes), ws, ch, w)
  {
    hide HandleBootstrap, HandleFrame, Ingest, FinishIngest, DeclaredLen, Takes1, ItemOf;
    var (slab, id) := Ingest(t.c.slab, bufferId, t.c.host, bytes);
    var u := t.(c := t.c.(slab := slab));
    var declared := DeclaredLen(t.c.host, bytes);
    var v := u;
    if !t.c.session.phase.InSelectedPlane() {
      v := HandleBootstrap(u, parsed);
      BootMoves(u, parsed, ch, w);
      ws := [];
    } else {
      v := HandleFrame(u, id, declared, parsed, encodes);
      ws := FrameMoves(u, parsed, id, declared, encodes, ch, w);
    }
    SlabAside(t, u, v, v.(c := v.c.(slab := FinishIngest(v.c.slab, id))), ws, ch, w);
  }

  lemma {:induction false} SlabAside(t: Turn, s: Turn, v: Turn, r: Turn, ws: seq<Wire>, ch: nat, w: Wire)
    requires Takes1(s, v, ws, ch, w) && s == t.(c := t.c.(slab := s.c.slab)) && r == v.(c := v.c.(slab := r.c.slab))
    ensures Takes1(t, r, ws, ch, w)
  {
  }

  lemma {:induction false} ReleaseMoves(t: Turn, l: nat, ch: nat)
    requires !t.c.closed
    ensures Local(t, t.(c := t.c.(slab := Release(t.c.slab, l))), [], ch)
  {
    hide Release;
    Still(t, t.(c := t.c.(slab := Release(t.c.slab, l))), ch);
  }

  /** Any event that is not inbound bytes. */
  lemma {:induction false} LocalMoves(t: Turn, e: HostEvent, ch: nat) returns (ws: seq<Wire>)
    requires HasRoom(t) && !t.c.closed && !e.WsBytes?
    ensures Local(t, HandleEvent(t, e), ws, ch)
  {
    hide HandleTimer, HandleCommand, Local;
    match e
    case Timer(now, encodes) =>
      ws := TimerMoves(t, now, encodes, ch);
    case Issue(cmd) =>
      ws := CommandMoves(t, cmd, ch);
    case ReleaseLease(l) =>
      ws := [];
      ReleaseMoves(t, l, ch);
  }

  // ---------------------------------------------------------------- nothing is dropped

  /** The message an inbound parse result stands for. */
  function MessageOf(parsed: Parsed): Wire {
    match parsed
    case Unparsable => RawSample([])
    case BootRecord(record) => Boot(record)
    case FrameParsed(f) => Framed(f)
  }

  /** Any one event queues at most one message, and every control number it consumes. */
  lemma {:induction false} EventQueuesOne(t: Turn, e: HostEvent)
    requires HasRoom(t) && !t.c.closed
    ensures var u := HandleEvent(t, e);
            && |t.o.outbound| <= |u.o.outbound| <= |t.o.outbound| + 1 && t.c.controlOut <= u.c.controlOut
    ensures var u := HandleEvent(t, e);
            forall base: nat :: base <= t.c.controlOut && Items(Messages(t.o.outbound), ControlStream) == Range(base, t.c.controlOut) ==>
              Items(Messages(u.o.outbound), ControlStream) == Range(base, u.c.controlOut)
  {
    hide HandleWsBytes, HandleTimer, HandleCommand, Moves, Calm, Items, NeverCloses;
    var u := HandleEvent(t, e);
    var ws: seq<Wire> := [];
    if e.WsBytes? {
      ws := DeliveryMoves(t, e.bufferId, e.bytes, e.parsed, e.replyEncodes, 0, MessageOf(e.parsed));
    } else {
      ws := LocalMoves(t, e, 0);
    }
    ItemsAppend(Messages(t.o.outbound), ws, ControlStream);
    forall base: nat | base <= t.c.controlOut && Items(Messages(t.o.outbound), ControlStream) == Range(base, t.c.controlOut)
      ensures Items(Messages(u.o.outbound), ControlStream) == Range(base, u.c.controlOut)
    {
      RangeJoin(base, t.c.controlOut, u.c.controlOut);
    }
  }

  lemma {:induction false} BatchQueues(t: Turn, events: seq<HostEvent>, base: nat)
    requires |t.o.outbound| + |events| <= MAX_OUTBOUND_PER_POLL
    requires base <= t.c.controlOut && Items(Messages(t.o.outbound), ControlStream) == Range(base, t.c.controlOut)
    ensures var u := HandleAll(t, events);
            && |u.o.outbound| <= |t.o.outbound| + |events| && base <= u.c.controlOut
            && Items(Messages(u.o.outbound), ControlStream) == Range(base, u.c.controlOut)
    decreases |events|
  {
    hide HandleEvent, Items;
    if events != [] && !t.c.closed {
      EventQueuesOne(t, events[0]);
      BatchQueues(HandleEvent(t, events[0]), events[1..], base);
    }
  }

  /** The silent drop of a full outbound queue is never taken: a turn queues at most one
      message per event, and exactly the control numbers it consumed, in order. */
  lemma {:induction false} NothingIsDropped(c: Engine, events: seq<HostEvent>)
    requires !c.closed
    ensures var t := Poll(c, events);
            && |t.o.outbound| <= |Batch(events)| <= MAX_OUTBOUND_PER_POLL && c.controlOut <= t.c.controlOut
            && Items(Messages(t.o.outbound), ControlStream) == Range(c.controlOut, t.c.controlOut)
  {
    hide HandleAll, Sweep, Swept, Batch;
    assert Messages([]) == [] && Items([], ControlStream) == [];
    BatchQueues(Turn(c, NO_OUTCOME), Batch(events), c.controlOut);
  }
}
