/** The service and action streams of a client: which frames its calls become, and which
    numbers they take. */
module CallStreams {
  import opened ByteOrder
  import opened CdrLimits
  import opened Session
  import opened Client
  import opened LinkItems
  import opened LinkClient
  import opened Operations

  // ---------------------------------------------------------------- attempts

  function Queued(t: Turn, ch: nat): seq<Numbered> {
    Calls(Messages(t.o.outbound), ch)
  }

  function StreamOf(c: Engine, ch: nat): Option<OpStream> {
    if ch in c.services then Some(c.services[ch]) else if ch in c.actions then Some(c.actions[ch]) else None
  }

  /** The attempt on `ch` an event is, if it is one: a call whose payload was encoded, on an
      open stream. The caller learns of a refusal by an event. */
  function AttemptOf(t: Turn, e: HostEvent, ch: nat): (tries: seq<Attempt>)
    ensures |tries| <= 1
  {
    if e.Issue? && e.command.SendOperation? && e.command.channelId == ch && e.command.encoded && StreamOf(t.c, ch).Some? then
      [Attempt(e.command.operationId, HandleEvent(t, e).o.events == t.o.events)]
    else []
  }

  function BatchAttempts(t: Turn, events: seq<HostEvent>, ch: nat): seq<Attempt>
    decreases |events|
  {
    if events == [] || t.c.closed then []
    else AttemptOf(t, events[0], ch) + BatchAttempts(HandleEvent(t, events[0]), events[1..], ch)
  }

  // ---------------------------------------------------------------- streams of the client

  predicate Opened(state: ChannelState) {
    !state.Unused? && !state.Pending?
  }

  /** After `n` attempts on `ch`: an open stream stands at `n`, and a channel that has had
      attempts can never be opened again. */
  predicate StreamOk(c: Engine, ch: nat, n: nat) {
    && (StreamOf(c, ch).Some? ==> StreamOf(c, ch).value.nextSeq == n && Opened(c.session.Of(ch)))
    && (n > 0 ==> Opened(c.session.Of(ch)))
  }

  /** A stream stays as it is, ends, or begins at zero when its channel is opened. */
  predicate Progress(c: Engine, d: Engine, ch: nat) {
    && Forward(c.session.Of(ch), d.session.Of(ch))
    && (|| StreamOf(d, ch) == StreamOf(c, ch)
        || StreamOf(d, ch).None?
        || (c.session.Of(ch).Pending? && d.session.Of(ch).Active? && StreamOf(d, ch).value.nextSeq == 0))
  }

  lemma {:induction false} ProgressKeeps(c: Engine, d: Engine, ch: nat, n: nat)
    requires StreamOk(c, ch, n) && Progress(c, d, ch)
    ensures StreamOk(d, ch, n)
  {
    hide StreamOf;
  }

  /** No operation frame was queued on `ch`. */
  predicate Quiet(t: Turn, u: Turn, ch: nat) {
    Queued(u, ch) == Queued(t, ch) && Progress(t.c, u.c, ch)
  }

  /** Nothing about `ch` differs. */
  predicate Same(t: Turn, u: Turn, ch: nat) {
    u.o.outbound == t.o.outbound && StreamOf(u.c, ch) == StreamOf(t.c, ch) && u.c.session.Of(ch) == t.c.session.Of(ch)
  }

  lemma {:induction false} SameIsQuiet(t: Turn, u: Turn, ch: nat)
    requires Same(t, u, ch)
    ensures Quiet(t, u, ch)
  {
    hide StreamOf;
  }

  lemma {:induction false} QuietBetween(t: Turn, s: Turn, u: Turn, r: Turn, ch: nat)
    requires Same(t, s, ch) && Quiet(s, u, ch) && r.o.outbound == u.o.outbound
    requires r.c.session.Of(ch) == u.c.session.Of(ch) && (StreamOf(r.c, ch) == StreamOf(u.c, ch) || StreamOf(r.c, ch).None?)
    ensures Quiet(t, r, ch)
  {
    hide StreamOf;
  }

  lemma {:induction false} SentQuietly(t: Turn, u: Turn, w: Wire, ch: nat)
    requires Sends(t, u, [w]) && CallOf(w, ch).None? && Progress(t.c, u.c, ch)
    ensures Quiet(t, u, ch)
  {
    hide CallOf, Progress;
    CallsAppend(Messages(t.o.outbound), [w], ch);
    CallsOne(w, ch);
    assert Queued(t, ch) + [] == Queued(t, ch);
  }

  lemma {:induction false} ControlQuiet(t: Turn, msg: Control, encodes: bool, ch: nat)
    requires HasRoom(t)
    ensures Quiet(t, PushControl(t, msg, encodes).turn, ch)
    ensures var c := PushControl(t, msg, encodes).turn.c;
            c.services == t.c.services && c.actions == t.c.actions
  {
    hide PushControl, Sends, Counts, ApplyControl, Quiet;
    var u := PushControl(t, msg, encodes).turn;
    var ws := PushEffect(t, msg, encodes);
    if PushControl(t, msg, encodes).ok {
      ControlAdvances(t.c.session, msg, ClientRole);
      assert Forward(t.c.session.Of(ch), u.c.session.Of(ch));
      SentQuietly(t, u, ws[0], ch);
    } else {
      SameIsQuiet(t, u, ch);
    }
  }

  // ---------------------------------------------------------------- local events

  lemma {:induction false} TimerQuiet(t: Turn, now: nat, encodes: bool, ch: nat)
    requires HasRoom(t)
    ensures Quiet(t, HandleTimer(t, now, encodes), ch)
  {
    hide PushControl, Quiet;
    var u := t.(c := t.c.(lastTimer := Some(now)));
    var v := u.(c := u.c.(heartbeats := u.c.heartbeats + 1));
    var w := PushControl(v, Heartbeat(v.c.heartbeats), encodes).turn;
    var r := HandleTimer(t, now, encodes);
    if !u.c.session.phase.Ready? || u.c.nextHeartbeat.None? || now < u.c.nextHeartbeat.value {
      SameIsQuiet(t, r, ch);
    } else {
      ControlQuiet(v, Heartbeat(v.c.heartbeats), encodes, ch);
      QuietBetween(t, v, w, r, ch);
    }
  }

  lemma {:induction false} StartQuiet(t: Turn, encodes: bool, ch: nat)
    requires HasRoom(t)
    ensures Quiet(t, HandleCommand(t, Start(encodes)), ch)
  {
    hide Quiet, PushOutbound, Sends;
    var r := HandleCommand(t, Start(encodes));
    var a := ApplyBootstrap(t.c.session, ClientHello, ClientRole);
    if t.c.started || !encodes || a.Violation? {
      SameIsQuiet(t, r, ch);
    } else {
      var s := t.(c := t.c.(started := true, session := a.state));
      PushSends(s, Boot(ClientHello));
      SendsSame(t, s, r, [Boot(ClientHello)]);
      SentQuietly(t, r, Boot(ClientHello), ch);
    }
  }

  lemma {:induction false} SampleQuiet(t: Turn, target: nat, payloadLen: nat, frames: bool, ch: nat)
    requires HasRoom(t)
    ensures Quiet(t, SendSamplePayload(t, target, payloadLen, frames), ch)
  {
    hide Quiet, PushOutbound, Sends;
    var r := SendSamplePayload(t, target, payloadLen, frames);
    if target in t.c.publishes {
      var p := t.c.publishes[target];
      var f := SampleFrame(target, p, payloadLen);
      var s := t.(c := t.c.(publishes := t.c.publishes[target := p.(seqOut := p.seqOut + 1)]));
      if SendData(s, f, frames).ok {
        PushSends(s, Framed(f));
        SendsSame(t, s, r, [Framed(f)]);
        SentQuietly(t, r, Framed(f), ch);
      } else {
        SameIsQuiet(t, r, ch);
      }
    } else {
      SameIsQuiet(t, r, ch);
    }
  }

  lemma {:induction false} OpenQuiet(t: Turn, cmd: Command, ch: nat)
    requires HasRoom(t) && cmd.OpenCommand?
    ensures Quiet(t, HandleCommand(t, cmd), ch)
  {
    hide Quiet, PushControl;
    var msg := OpenRequest(cmd.channelId, cmd.kind, RequestedReliability(cmd.kind, cmd.reliability), cmd.depth);
    var p := PushControl(t, msg, cmd.encodes);
    ControlQuiet(t, msg, cmd.encodes, ch);
    if !cmd.schemaKnown || !p.ok {
      SameIsQuiet(t, HandleCommand(t, cmd), ch);
    } else {
      QuietBetween(t, t, p.turn, HandleCommand(t, cmd), ch);
    }
  }

  lemma {:induction false} CloseQuiet(t: Turn, target: nat, encodes: bool, ch: nat)
    requires HasRoom(t)
    ensures Quiet(t, HandleCommand(t, Unsubscribe(target, encodes)), ch)
  {
    hide Quiet, PushControl;
    var p := PushControl(t, CloseChannel(target), encodes);
    ControlQuiet(t, CloseChannel(target), encodes, ch);
    if !p.ok {
      SameIsQuiet(t, HandleCommand(t, Unsubscribe(target, encodes)), ch);
    } else {
      QuietBetween(t, t, p.turn, HandleCommand(t, Unsubscribe(target, encodes)), ch);
    }
  }

  lemma {:induction false} LoginQuiet(t: Turn, encodes: bool, ch: nat)
    requires HasRoom(t)
    ensures Quiet(t, HandleCommand(t, Login(encodes)), ch)
  {
    hide Quiet, PushControl;
    ControlQuiet(t, Authenticate, encodes, ch);
    SameIsQuiet(t, Fail(t, EncodeFailed), ch);
  }

  // ---------------------------------------------------------------- calls

  /** What one attempt adds to the frames of a stream that has had `n` before it. */
  function FramesOf(tries: seq<Attempt>, n: nat): seq<Numbered>
    requires |tries| <= 1
  {
    if tries != [] && tries[0].sent then [Numbered(tries[0].id, n)] else []
  }

  /** The event made `tries` on a stream standing at `n`, and queued their frames. */
  predicate Made(t: Turn, u: Turn, tries: seq<Attempt>, ch: nat, n: nat)
    requires |tries| <= 1
  {
    Queued(u, ch) == Queued(t, ch) + FramesOf(tries, n) && StreamOk(u.c, ch, n + |tries|)
  }

  lemma {:induction false} QuietMakesNone(t: Turn, u: Turn, ch: nat, n: nat)
    requires Quiet(t, u, ch) && StreamOk(t.c, ch, n)
    ensures Made(t, u, [], ch, n)
  {
    hide StreamOk, Progress;
    ProgressKeeps(t.c, u.c, ch, n);
  }

  /** A call takes the number of its own stream, and of no other, and is sent or refused. */
  lemma {:induction false} CallMade(t: Turn, e: HostEvent, ch: nat, n: nat)
    requires HasRoom(t) && e.Issue? && e.command.SendOperation? && StreamOk(t.c, ch, n)
    ensures Made(t, HandleEvent(t, e), AttemptOf(t, e, ch), ch, n)
  {
    hide PushOutbound, Sends, Quiet, Made, ApplyFrame;
    var cmd := e.command;
    var target, id := cmd.channelId, cmd.operationId;
    var r := HandleEvent(t, e);
    if !cmd.encoded || StreamOf(t.c, target).None? {
      SameIsQuiet(t, r, ch);
      QuietMakesNone(t, r, ch, n);
    } else {
      var sequence := if target in t.c.services then t.c.services[target].nextSeq else t.c.actions[target].nextSeq;
      var took :=
        if target in t.c.services then t.(c := t.c.(services := t.c.services[target := NextOp(t.c.services[target], id)]))
        else t.(c := t.c.(actions := t.c.actions[target := NextOp(t.c.actions[target], id)]));
      var f := Frame(cmd.opcode, SentReliable(cmd.opcode), false, target, sequence, OPERATION_ID_AREA, cmd.payloadLen, Some(id), AppPayload);
      var a := ApplyFrame(took.c.session, f, ClientRole);
      FramesAdvance(took.c.session, f, ClientRole);
      if !cmd.frames || a.Violation? {
        RefusedMade(t, took, r, target, id, ch, n);
      } else {
        var s := took.(c := took.c.(session := a.state));
        PushSends(s, Framed(f));
        SendsSame(t, s, r, [Framed(f)]);
        assert Forward(t.c.session.Of(ch), r.c.session.Of(ch));
        SentMade(t, took, r, f, target, id, ch, n);
      }
    }
  }

  /** The stream of `target` moved on by one, for operation `id`. */
  ghost predicate Took(t: Turn, u: Turn, target: nat, id: OperationId) {
    && StreamOf(t.c, target).Some? && StreamOf(u.c, target) == Some(NextOp(StreamOf(t.c, target).value, id))
    && forall ch :: ch != target ==> StreamOf(u.c, ch) == StreamOf(t.c, ch)
  }

  lemma {:induction false} RefusedMade(t: Turn, took: Turn, r: Turn, target: nat, id: OperationId, ch: nat, n: nat)
    requires StreamOk(t.c, ch, n) && Took(t, took, target, id) && took.c.session == t.c.session
    requires r == Tell(took, SendFailed(target)) && t.o == took.o
    ensures r.o.events != t.o.events
    ensures Made(t, r, if ch == target then [Attempt(id, false)] else [], ch, n)
  {
    hide StreamOf;
    assert StreamOf(r.c, ch) == StreamOf(took.c, ch);
    assert Queued(t, ch) + [] == Queued(t, ch);
  }

  lemma {:induction false} SentMade(t: Turn, took: Turn, r: Turn, f: Frame, target: nat, id: OperationId, ch: nat, n: nat)
    requires StreamOk(t.c, ch, n) && Took(t, took, target, id)
    requires Forward(t.c.session.Of(ch), r.c.session.Of(ch)) && r.c.services == took.c.services && r.c.actions == took.c.actions
    requires IsOperation(f.opcode) && f.channelId == target && f.operationId == Some(id) && f.sequence == StreamOf(t.c, target).value.nextSeq
    requires Sends(t, r, [Framed(f)])
    ensures Made(t, r, if ch == target then [Attempt(id, true)] else [], ch, n)
  {
    CallsAppend(Messages(t.o.outbound), [Framed(f)], ch);
    CallsOne(Framed(f), ch);
  }

  // ---------------------------------------------------------------- inbound bytes

  lemma {:induction false} ReadyQuiet(t: Turn, s: Turn, target: nat, effective: Option<nat>, ch: nat)
    requires s.o.outbound == t.o.outbound && s.c.services == t.c.services && s.c.actions == t.c.actions
    requires t.c.session.Of(target).Pending? && s.c.session == WithState(t.c.session, target, Active)
    ensures Quiet(t, ChannelIsReady(s, target, effective), ch)
  {
    hide ChannelIsReady, StreamOf;
    ReadyStreams(s, target, effective, ch);
    assert StreamOf(s.c, ch) == StreamOf(t.c, ch) by {
      SameStream(s.c, t.c, ch);
    }
  }

  lemma {:induction false} SameStream(c: Engine, d: Engine, ch: nat)
    requires c.services == d.services && c.actions == d.actions
    ensures StreamOf(c, ch) == StreamOf(d, ch)
  {
  }

  /** A stream that begins, begins at zero. */
  lemma {:induction false} ReadyStreams(s: Turn, target: nat, effective: Option<nat>, ch: nat)
    ensures var u := ChannelIsReady(s, target, effective);
            && u.o.outbound == s.o.outbound && u.c.session == s.c.session
            && (StreamOf(u.c, ch) == StreamOf(s.c, ch) || (ch == target && StreamOf(u.c, ch) == Some(OpStream(0, map[]))))
  {
    hide ChannelIsReady;
    ReadyMaps(s, target, effective);
  }

  lemma {:induction false} ReadyMaps(s: Turn, target: nat, effective: Option<nat>)
    ensures var u := ChannelIsReady(s, target, effective);
            && u.o.outbound == s.o.outbound && u.c.session == s.c.session
            && (u.c.services == s.c.services || u.c.services == s.c.services[target := OpStream(0, map[])])
            && (u.c.actions == s.c.actions || u.c.actions == s.c.actions[target := OpStream(0, map[])])
  {
    hide Tell;
  }

  lemma {:induction false} FailedQuiet(t: Turn, s: Turn, target: nat, ch: nat)
    requires s.o.outbound == t.o.outbound && s.c.services == t.c.services && s.c.actions == t.c.actions
    requires Forward(t.c.session.Of(ch), s.c.session.Of(ch))
    ensures Quiet(t, OpenDidFail(s, target), ch)
  {
  }

  lemma {:induction false} ControlMessageQuiet(t: Turn, msg: Control, encodes: bool, ch: nat)
    requires HasRoom(t) && ApplyControl(t.c.session, msg, ServerRole).Accepted?
    ensures var a := ApplyControl(t.c.session, msg, ServerRole);
            Quiet(t, HandleControl(t.(c := t.c.(session := a.state, controlIn := t.c.controlIn + 1)), msg, a.effects, encodes), ch)
  {
    hide PushControl, ChannelIsReady, OpenDidFail, Quiet, ApplyControl;
    var a := ApplyControl(t.c.session, msg, ServerRole);
    var s := t.(c := t.c.(session := a.state, controlIn := t.c.controlIn + 1));
    var u := HandleControl(s, msg, a.effects, encodes);
    ControlAdvances(t.c.session, msg, ServerRole);
    assert Forward(t.c.session.Of(ch), s.c.session.Of(ch));
    if msg.ChannelReady? {
      ReadyApplied(t.c.session, msg);
      if msg.result == 0 || msg.result == 2 {
        ReadyQuiet(t, s, msg.channelId, msg.effective, ch);
      } else {
        FailedQuiet(t, s, msg.channelId, ch);
      }
    } else if msg.Heartbeat? {
      HeartbeatApplied(t.c.session, msg.counter);
      var x := Tell(s, HeartbeatSeen(msg.counter));
      var v := x.(c := x.c.(heartbeats := x.c.heartbeats + 1));
      ControlQuiet(v, Heartbeat(v.c.heartbeats), encodes, ch);
      QuietBetween(t, v, u, u, ch);
    } else if msg.ErrorMessage? && !a.effects.sessionError && a.effects.cancelled.None? && a.effects.failing.Some? {
      FailedQuiet(t, s, a.effects.failing.value, ch);
    } else {
      SteadyIsQuiet(t, u, ch);
    }
  }

  lemma {:induction false} SteadyIsQuiet(t: Turn, u: Turn, ch: nat)
    requires u.o.outbound == t.o.outbound && u.c.services == t.c.services && u.c.actions == t.c.actions
    requires Forward(t.c.session.Of(ch), u.c.session.Of(ch))
    ensures Quiet(t, u, ch)
  {
  }

  lemma {:induction false} ReadyApplied(s: State, msg: Control)
    requires msg.ChannelReady? && ApplyControl(s, msg, ServerRole).Accepted?
    ensures s.Of(msg.channelId).Pending?
    ensures ApplyControl(s, msg, ServerRole).state == WithState(s, msg.channelId, if msg.result == 0 || msg.result == 2 then Active else Failed)
  {
  }

  lemma {:induction false} HeartbeatApplied(s: State, counter: nat)
    ensures ApplyControl(s, Heartbeat(counter), ServerRole).Accepted? ==> ApplyControl(s, Heartbeat(counter), ServerRole).state == s
  {
  }

  lemma {:induction false} FrameQuiet(t: Turn, id: nat, declared: nat, parsed: Parsed, encodes: bool, ch: nat)
    requires HasRoom(t)
    ensures Quiet(t, HandleFrame(t, id, declared, parsed, encodes), ch)
  {
    hide HandleControl, HandleData, ApplyControl, Quiet;
    var u := HandleFrame(t, id, declared, parsed, encodes);
    if !parsed.FrameParsed? || ApplyFrame(t.c.session, parsed.frame, ServerRole).Violation? {
      SameIsQuiet(t, u, ch);
    } else {
      var f := parsed.frame;
      var s := ApplyFrame(t.c.session, f, ServerRole).state;
      FramesAdvance(t.c.session, f, ServerRole);
      assert Forward(t.c.session.Of(ch), s.Of(ch));
      if f.opcode.ControlCbor? && f.sequence == t.c.controlIn && f.payload.ControlPayload? {
        ControlMessageQuiet(t, f.payload.msg, encodes, ch);
      } else {
        DataEngine(t.(c := t.c.(session := s)), id, f, declared);
        SteadyIsQuiet(t, u, ch);
      }
    }
  }

  lemma {:induction false} BytesQuiet(t: Turn, bufferId: nat, bytes: seq<byte>, parsed: Parsed, encodes: bool, ch: nat)
    requires HasRoom(t)
    ensures Quiet(t, HandleWsBytes(t, bufferId, bytes, parsed, encodes), ch)
  {
    hide HandleBootstrap, HandleFrame, Ingest, FinishIngest, DeclaredLen, Quiet;
    var (slab, id) := Ingest(t.c.slab, bufferId, t.c.host, bytes);
    var s := t.(c := t.c.(slab := slab));
    var r := HandleWsBytes(t, bufferId, bytes, parsed, encodes);
    if !t.c.session.phase.InSelectedPlane() {
      BootEngine(s, parsed);
      SteadyIsQuiet(t, r, ch);
    } else {
      FrameQuiet(s, id, DeclaredLen(t.c.host, bytes), parsed, encodes, ch);
      QuietBetween(t, s, HandleFrame(s, id, DeclaredLen(t.c.host, bytes), parsed, encodes), r, ch);
    }
  }

  // ---------------------------------------------------------------- every event, every batch

  lemma {:induction false} EventMade(t: Turn, e: HostEvent, ch: nat, n: nat)
    requires HasRoom(t) && StreamOk(t.c, ch, n)
    ensures Made(t, HandleEvent(t, e), AttemptOf(t, e, ch), ch, n)
  {
    hide HandleTimer, HandleWsBytes, SendSamplePayload, SendOperationFrame, PushControl, Release, Quiet, Made, StreamOk;
    var u := HandleEvent(t, e);
    if e.Issue? && e.command.SendOperation? {
      CallMade(t, e, ch, n);
    } else {
      match e {
        case WsBytes(bufferId, bytes, parsed, encodes) => BytesQuiet(t, bufferId, bytes, parsed, encodes, ch);
        case Timer(now, encodes) => TimerQuiet(t, now, encodes, ch);
        case ReleaseLease(_) => SameIsQuiet(t, u, ch);
        case Issue(cmd) => CommandQuiet(t, cmd, ch);
      }
      QuietMakesNone(t, u, ch, n);
    }
  }

  lemma {:induction false} CommandQuiet(t: Turn, cmd: Command, ch: nat)
    requires HasRoom(t) && !cmd.SendOperation?
    ensures Quiet(t, HandleCommand(t, cmd), ch)
  {
    hide SendSamplePayload, SendOperationFrame, PushControl, Quiet, HandleCommand;
    match cmd
    case Start(encodes) => StartQuiet(t, encodes, ch);
    case Login(encodes) => LoginQuiet(t, encodes, ch);
    case OpenCommand(_, _, _, _, _, _) => OpenQuiet(t, cmd, ch);
    case SendSample(_, _, _, _) => SampleCommandQuiet(t, cmd, ch);
    case Unsubscribe(target, encodes) => CloseQuiet(t, target, encodes, ch);
    case Shutdown => ShutdownQuiet(t, ch);
  }

  lemma {:induction false} SampleCommandQuiet(t: Turn, cmd: Command, ch: nat)
    requires HasRoom(t) && cmd.SendSample?
    ensures Quiet(t, HandleCommand(t, cmd), ch)
  {
    hide SendSamplePayload, Quiet;
    if cmd.encoded {
      SampleQuiet(t, cmd.channelId, cmd.payloadLen, cmd.frames, ch);
    } else {
      SameIsQuiet(t, HandleCommand(t, cmd), ch);
    }
  }

  lemma {:induction false} ShutdownQuiet(t: Turn, ch: nat)
    ensures Quiet(t, HandleCommand(t, Shutdown), ch)
  {
    hide Quiet;
    SameIsQuiet(t, HandleCommand(t, Shutdown), ch);
  }

  /** Over a batch the frames queued are exactly those the attempts make, numbered on. */
  lemma {:induction false} BatchMade(t: Turn, events: seq<HostEvent>, ch: nat, before: seq<Attempt>, base: seq<Numbered>)
    requires |t.o.outbound| + |events| <= MAX_OUTBOUND_PER_POLL && StreamOk(t.c, ch, |before|)
    requires base + Queued(t, ch) == Emitted(before)
    ensures var u, tries := HandleAll(t, events), BatchAttempts(t, events, ch);
            base + Queued(u, ch) == Emitted(before + tries) && StreamOk(u.c, ch, |before + tries|)
    decreases |events|
  {
    hide HandleEvent, AttemptOf, StreamOk, Queued, Emitted;
    if events == [] || t.c.closed {
      assert before + [] == before;
    } else {
      var u, tries := HandleEvent(t, events[0]), AttemptOf(t, events[0], ch);
      EventMade(t, events[0], ch, |before|);
      EventQueuesOne(t, events[0]);
      EmittedOne(before, tries);
      assert base + Queued(u, ch) == (base + Queued(t, ch)) + FramesOf(tries, |before|);
      BatchMade(u, events[1..], ch, before + tries, base);
      assert before + BatchAttempts(t, events, ch) == (before + tries) + BatchAttempts(u, events[1..], ch);
    }
  }

  lemma {:induction false} EmittedOne(before: seq<Attempt>, tries: seq<Attempt>)
    requires |tries| <= 1
    ensures Emitted(before + tries) == Emitted(before) + FramesOf(tries, |before|)
  {
    hide Emitted;
    if tries == [] {
      assert before + tries == before && Emitted(before) + [] == Emitted(before);
    } else {
      assert tries == [tries[0]];
      EmittedSnoc(before, tries[0]);
    }
  }
}
