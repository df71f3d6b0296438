/** What a command of the host puts on the wire, and when it is refused. */
module ClientCommands {
  import opened ByteOrder
  import opened CdrLimits
  import opened Qos
  import opened Session
  import opened Client
  import opened LinkItems
  import opened LinkClient
  import opened CallStreams
  import G = Gateway

  // ---------------------------------------------------------------- samples and calls

  /** The session may send samples on `ch`. */
  predicate MayPublish(c: Engine, ch: nat) {
    && ch in c.publishes && c.session.phase.Ready? && c.session.Of(ch).Active? && c.session.channels[ch].kind == TopicPublish
  }

  /** A sample goes out exactly if it was encoded and framed and the channel is an open
      publication: with the channel's reliability, its next number, and all of the payload.
      Otherwise the host is told, nothing is sent, and the number is not used up. */
  lemma {:induction false} SampleGoesOut(t: Turn, ch: nat, payloadLen: nat, encoded: bool, frames: bool)
    requires HasRoom(t)
    ensures var u := HandleEvent(t, Issue(SendSample(ch, payloadLen, encoded, frames)));
            if encoded && frames && MayPublish(t.c, ch) then
              var p := t.c.publishes[ch];
              && Sends(t, u, [Framed(Frame(RosSample, p.reliable, false, ch, p.seqOut, 0, payloadLen, None, AppPayload))])
              && u.o.events == t.o.events && u.c == t.c.(slab := u.c.slab, publishes := t.c.publishes[ch := p.(seqOut := p.seqOut + 1)])
            else
              u.c == t.c && u.o == t.o.(events := t.o.events + [SendFailed(ch)])
  {
    hide Sends, PushOutbound, SendData;
    if ch in t.c.publishes {
      var p := t.c.publishes[ch];
      var f := SampleFrame(ch, p, payloadLen);
      var s := t.(c := t.c.(publishes := t.c.publishes[ch := p.(seqOut := p.seqOut + 1)]));
      DataGoesOut(s, f, frames);
      DataAccepted(t.c.session, f, ClientRole);
      if SendData(s, f, frames).ok {
        SendsSame(t, s, SendData(s, f, frames).turn, [Framed(f)]);
      }
    }
  }

  /** A data frame goes out exactly if it was framed and the session allows it. */
  lemma {:induction false} DataGoesOut(t: Turn, f: Frame, frames: bool)
    requires HasRoom(t) && !f.opcode.ControlCbor?
    ensures var p := SendData(t, f, frames);
            && (p.ok <==> frames && ApplyFrame(t.c.session, f, ClientRole).Accepted?)
            && (p.ok ==>
              Sends(t, p.turn, [Framed(f)]) && p.turn.o.events == t.o.events && p.turn.c == t.c.(slab := p.turn.c.slab))
            && (!p.ok ==> p.turn == t)
  {
    hide ApplyFrame, Sends, PushOutbound;
    DataAccepted(t.c.session, f, ClientRole);
    PushSends(t, Framed(f));
  }

  /** The session may send `op` for `id` on `ch`: it is of the channel's family, the client's to
      send there, and under an id only a status may leave zero. */
  predicate MayCall(c: Engine, ch: nat, op: OperationCode, id: OperationId) {
    && StreamOf(c, ch).Some? && c.session.phase.Ready? && c.session.Of(ch).Active?
    && var kind := c.session.channels[ch].kind;
    && !IsTopic(kind) && IsServiceKind(kind) == OfService(op) && (IsCall(op) <==> Initiator(kind) == ClientRole)
    && (id == ZERO_ID ==> op.ActionStatus?)
  }

  /** An operation frame goes out exactly if it was encoded and framed and may be sent: reliably
      unless it is feedback or status, with the channel's next number. The number is used up if
      there is a stream, sent or not; the host is told if not. */
  lemma {:induction false} CallGoesOut(t: Turn, ch: nat, op: OperationCode, id: OperationId, payloadLen: nat, encoded: bool, frames: bool)
    requires HasRoom(t)
    ensures var u := HandleEvent(t, Issue(SendOperation(ch, op, id, payloadLen, encoded, frames)));
            && (encoded && frames && MayCall(t.c, ch, op, id) ==>
              Sends(t, u, [Framed(Frame(op, !op.ActionFeedback? && !op.ActionStatus?, false, ch, StreamOf(t.c, ch).value.nextSeq, 20,
                                        payloadLen, Some(id), AppPayload))])
              && u.o.events == t.o.events)
            && (!(encoded && frames && MayCall(t.c, ch, op, id)) ==> u.o == t.o.(events := t.o.events + [SendFailed(ch)]))
            && (encoded && StreamOf(t.c, ch).Some? ==>
              StreamOf(u.c, ch).Some? && StreamOf(u.c, ch).value.nextSeq == StreamOf(t.c, ch).value.nextSeq + 1)
            && (!(encoded && StreamOf(t.c, ch).Some?) ==> u.c == t.c)
  {
    hide Sends, PushOutbound, SendData, MayCall;
    if encoded && StreamOf(t.c, ch).Some? {
      var sequence := if ch in t.c.services then t.c.services[ch].nextSeq else t.c.actions[ch].nextSeq;
      var took :=
        if ch in t.c.services then t.(c := t.c.(services := t.c.services[ch := NextOp(t.c.services[ch], id)]))
        else t.(c := t.c.(actions := t.c.actions[ch := NextOp(t.c.actions[ch], id)]));
      var f := Frame(op, SentReliable(op), false, ch, sequence, OPERATION_ID_AREA, payloadLen, Some(id), AppPayload);
      DataGoesOut(took, f, frames);
      CallAllowed(t.c, ch, op, id, f);
      if SendData(took, f, frames).ok {
        SendsSame(t, took, SendData(took, f, frames).turn, [Framed(f)]);
      }
    } else {
      assert !(encoded && MayCall(t.c, ch, op, id)) by {
        NoStreamNoCall(t.c, ch, op, id);
      }
    }
  }

  lemma {:induction false} NoStreamNoCall(c: Engine, ch: nat, op: OperationCode, id: OperationId)
    ensures MayCall(c, ch, op, id) ==> StreamOf(c, ch).Some?
  {
  }

  lemma {:induction false} CallAllowed(c: Engine, ch: nat, op: OperationCode, id: OperationId, f: Frame)
    requires StreamOf(c, ch).Some? && f.opcode == op && f.channelId == ch && f.operationId == Some(id) && f.reliable == SentReliable(op)
    ensures ApplyFrame(c.session, f, ClientRole).Accepted? <==> MayCall(c, ch, op, id)
  {
    DataAccepted(c.session, f, ClientRole);
  }

  // ---------------------------------------------------------------- control commands

  /** A control message goes out exactly if it encodes and the session allows it. */
  lemma {:induction false} ControlGoesOut(t: Turn, msg: Control, encodes: bool)
    requires HasRoom(t)
    ensures var p, a := PushControl(t, msg, encodes), ApplyFrame(t.c.session, ControlFrame(t.c.controlOut, msg), ClientRole);
            && (p.ok <==> encodes && a.Accepted?)
            && (p.ok ==>
              && Sends(t, p.turn, [Framed(ControlFrame(t.c.controlOut, msg))]) && p.turn.o.events == t.o.events
              && p.turn.c == t.c.(slab := p.turn.c.slab, session := a.state, controlOut := t.c.controlOut + 1))
            && (!p.ok ==> p.turn == t)
  {
    hide ApplyFrame, Sends, PushOutbound;
    var f := ControlFrame(t.c.controlOut, msg);
    var a := ApplyFrame(t.c.session, f, ClientRole);
    if encodes && a.Accepted? {
      var s := t.(c := t.c.(session := a.state, controlOut := t.c.controlOut + 1));
      PushSends(s, Framed(f));
      SendsSame(t, s, PushOutbound(s, Framed(f)), [Framed(f)]);
    }
  }

  /** The engine stopped because a command could not be carried out. */
  predicate StoppedBy(t: Turn, u: Turn) {
    u.c == t.c.(closed := true) && u.o == t.o.(events := t.o.events + [ErrorRaised(EncodeFailed), ClosedNow])
  }

  /** Unsubscribing closes an open channel and forgets it. On any other channel, one still being
      opened included, it ends the session. */
  lemma {:induction false} UnsubscribeExactly(t: Turn, ch: nat, encodes: bool)
    requires HasRoom(t)
    ensures var u := HandleEvent(t, Issue(Unsubscribe(ch, encodes)));
            if encodes && t.c.session.phase.Ready? && t.c.session.Of(ch).Active? then
              && Sends(t, u, [Framed(ControlFrame(t.c.controlOut, CloseChannel(ch)))]) && u.o.events == t.o.events && u.c.closed == t.c.closed
              && u.c.session == WithState(t.c.session, ch, Closed)
              && ch !in u.c.pending && ch !in u.c.subscribes && ch !in u.c.publishes && ch !in u.c.services && ch !in u.c.actions
            else StoppedBy(t, u)
  {
    hide PushControl;
    ControlGoesOut(t, CloseChannel(ch), encodes);
    CloseAllowed(t.c.session, t.c.controlOut, ch);
  }

  lemma {:induction false} CloseAllowed(s: State, sequence: nat, ch: nat)
    ensures var a := ApplyFrame(s, ControlFrame(sequence, CloseChannel(ch)), ClientRole);
            && (a.Accepted? <==> s.phase.Ready? && s.Of(ch).Active?)
            && (a.Accepted? ==> a.state == WithState(s, ch, Closed))
  {
  }

  /** Logging in sends the credentials once, after the hello was answered; at any other time it
      ends the session. */
  lemma {:induction false} LoginExactly(t: Turn, encodes: bool)
    requires HasRoom(t)
    ensures var u := HandleEvent(t, Issue(Login(encodes)));
            if encodes && t.c.session.phase.AwaitAuthenticate? then
              && Sends(t, u, [Framed(ControlFrame(t.c.controlOut, Authenticate))]) && u.o.events == t.o.events && u.c.closed == t.c.closed
              && u.c.session == t.c.session.(phase := AwaitSessionReady)
            else StoppedBy(t, u)
  {
    hide Sends, PushControl;
    ControlGoesOut(t, Authenticate, encodes);
  }

  /** Opening asks the gateway for the channel under a fresh id; a used id, or an id of zero, ends
      the session. */
  lemma {:induction false} OpenExactly(t: Turn, ch: nat, kind: Kind, reliability: byte, depth: nat, encodes: bool)
    requires HasRoom(t)
    ensures var u := HandleEvent(t, Issue(OpenCommand(ch, kind, reliability, depth, true, encodes)));
            var msg := OpenRequest(ch, kind, RequestedReliability(kind, reliability), depth);
            if encodes && t.c.session.phase.Ready? && ch != 0 && t.c.session.Of(ch).Unused? && ch !in t.c.session.channels then
              && Sends(t, u, [Framed(ControlFrame(t.c.controlOut, msg))]) && u.o.events == t.o.events && u.c.closed == t.c.closed
              && u.c.session.Of(ch) == Pending && ch in u.c.pending && u.c.pending[ch].kind == kind
            else StoppedBy(t, u)
  {
    hide PushControl;
    ControlGoesOut(t, OpenRequest(ch, kind, RequestedReliability(kind, reliability), depth), encodes);
  }

  /** Starting sends the hello, once; whatever is started again does nothing. If the hello cannot be
      sent the engine stops. */
  lemma {:induction false} StartExactly(t: Turn, encodes: bool)
    requires HasRoom(t)
    ensures var u := HandleEvent(t, Issue(Command.Start(encodes)));
            if t.c.started then u == t
            else if encodes && t.c.session.phase.AwaitClientHello? then
              && Sends(t, u, [Boot(ClientHello)]) && u.o.events == t.o.events && u.c.started && u.c.closed == t.c.closed
              && u.c.session == t.c.session.(phase := AwaitServerHello)
            else
              && u.c == t.c.(started := true, closed := true)
              && u.o == t.o.(events := t.o.events + [ErrorRaised(StartFailed), ClosedNow])
  {
    hide Sends, PushOutbound;
    var s := t.(c := t.c.(started := true, session := t.c.session.(phase := AwaitServerHello)));
    PushSends(s, Boot(ClientHello));
    SendsSame(t, s, PushOutbound(s, Boot(ClientHello)), [Boot(ClientHello)]);
  }

  // ---------------------------------------------------------------- the QoS a client gets

  /** What the gateway makes of a client's request: the reliability asked for on a topic, where
      anything but best effort means reliable, always reliable otherwise; volatile, keep last,
      with the depth asked for, or five; normal priority. */
  lemma {:induction false} RequestedQosIsGiven(ch: nat, kind: Kind, reliability: byte, depth: nat)
    requires depth <= U32_MAX
    ensures var msg := OpenRequest(ch, kind, RequestedReliability(kind, reliability), depth);
            var topic := kind.TopicSubscribe? || kind.TopicPublish?;
            && msg.OpenChannel? && msg.channelId == ch && msg.kind == kind
            && ResolveEffective(TakeAll(DEFAULT_REQUEST, msg.qos)) ==
               EffectiveQos(!topic || reliability != 2, false, false, if topic && depth > 0 then depth else 5, false)
            && G.PriorityOf(msg.priority) == 2
            && G.NewRuntime(kind, ResolveEffective(TakeAll(DEFAULT_REQUEST, msg.qos)), msg.priority).reliable == (!topic || reliability != 2)
  {
    hide TakeAll, ResolveEffective;
    var msg := OpenRequest(ch, kind, RequestedReliability(kind, reliability), depth);
    AskedFor(ch, kind, RequestedReliability(kind, reliability), depth);
    RequestIsHonoured(msg.qos);
  }

  lemma {:induction false} AskedFor(ch: nat, kind: Kind, reliability: byte, depth: nat)
    ensures var qos := OpenRequest(ch, kind, reliability, depth).qos;
            && LastUnder(qos, 1) == Some(reliability) && LastUnder(qos, 2) == Some(0) && LastUnder(qos, 3) == Some(1)
            && LastUnder(qos, 4) == Some(if depth == 0 || !IsTopic(kind) then 5 else depth)
            && forall key :: key != 1 && key != 2 && key != 3 && key != 4 ==> LastUnder(qos, key) == None
  {
    var qos := OpenRequest(ch, kind, reliability, depth).qos;
    assert |qos| == 4 && |qos[..3]| == 3 && |qos[..3][..2]| == 2 && |qos[..3][..2][..1]| == 1 && qos[..3][..2][..1][..0] == [];
    forall key ensures LastUnder(qos, key) ==
      (if key == 4 then qos[3].value else if key == 3 then qos[2].value else if key == 2 then qos[1].value else if key == 1 then qos[0].value else None)
    {
      LastUnder4(qos, key);
    }
  }

  lemma {:induction false} LastUnder4(qos: seq<Entry>, key: nat)
    requires |qos| == 4 && forall i :: 0 <= i < 4 ==> qos[i].key == i + 1 && qos[i].value.Some?
    ensures LastUnder(qos, key) ==
      if key == 4 then qos[3].value else if key == 3 then qos[2].value else if key == 2 then qos[1].value else if key == 1 then qos[0].value else None
  {
    LastStep(qos, key);
    LastStep(qos[..3], key);
    LastStep(qos[..3][..2], key);
    LastStep(qos[..3][..2][..1], key);
    assert qos[..3][..2][..1][..0] == [];
  }

  lemma {:induction false} LastStep(entries: seq<Entry>, key: nat)
    requires entries != []
    ensures var last := entries[|entries| - 1];
            LastUnder(entries, key) == if last.key == key && last.value.Some? then last.value else LastUnder(entries[..|entries| - 1], key)
    ensures LastUnder([], key) == None
  {
  }
}
