/** What a ready client makes of each control message of the gateway: what it tells the host, and
    what ends the session. */
module ClientHears {
  import opened ByteOrder
  import opened CdrLimits
  import opened Session
  import opened Client

  /** The next control message of the gateway, taken off the wire. */
  function Heard(t: Turn, bufferId: nat, bytes: seq<byte>, msg: Control, encodes: bool): Turn {
    HandleEvent(t, WsBytes(bufferId, bytes, FrameParsed(ControlFrame(t.c.controlIn, msg)), encodes))
  }

  predicate Listening(t: Turn) {
    t.c.session.phase.Ready? && !t.c.closed
  }

  /** The host is told `e`, the engine goes on with this session, and nothing is sent. */
  predicate Tells(t: Turn, u: Turn, e: AppEvent, s: State) {
    u.o.events == t.o.events + [e] && !u.c.closed && u.c.session == s && u.o.outbound == t.o.outbound && u.c.controlIn == t.c.controlIn + 1
  }

  /** The engine stops for this reason. */
  predicate Stops(t: Turn, u: Turn, reason: Reason) {
    u.o.events == t.o.events + [ErrorRaised(reason), ClosedNow] && u.c.closed && u.o.outbound == t.o.outbound
  }

  /** Where the bytes are kept does not matter to the rest. */
  function Kept(t: Turn, bufferId: nat, bytes: seq<byte>, s: State): Turn {
    t.(c := t.c.(slab := Ingest(t.c.slab, bufferId, t.c.host, bytes).0, session := s, controlIn := t.c.controlIn + 1))
  }

  lemma {:induction false} HeardIs(t: Turn, bufferId: nat, bytes: seq<byte>, msg: Control, encodes: bool)
    requires Listening(t)
    ensures var u, a := Heard(t, bufferId, bytes, msg, encodes), ApplyControl(t.c.session, msg, ServerRole);
            if a.Violation? then Stops(t, u, SessionRejected)
            else
              var v := HandleControl(Kept(t, bufferId, bytes, a.state), msg, a.effects, encodes);
              u == v.(c := v.c.(slab := FinishIngest(v.c.slab, Ingest(t.c.slab, bufferId, t.c.host, bytes).1)))
  {
    hide Ingest, FinishIngest, DeclaredLen, ApplyControl, HandleControl;
  }

  /** What the client holds open on `ch` after it was answered. */
  predicate HoldsOpen(c: Engine, ch: nat, kind: Kind, reliability: nat) {
    match kind
    case TopicSubscribe => ch in c.subscribes && c.subscribes[ch] == PendingOpen(kind, reliability)
    case TopicPublish => ch in c.publishes && c.publishes[ch] == Publication(reliability != 2, 0)
    case ServiceClient => ch in c.services && c.services[ch].nextSeq == 0
    case ServiceServer => ch in c.services && c.services[ch].nextSeq == 0
    case ActionClient => ch in c.actions && c.actions[ch].nextSeq == 0
    case ActionServer => ch in c.actions && c.actions[ch].nextSeq == 0
  }

  /** The answer to an open: 0 and 2 open the channel, at the effective reliability if the answer
      names one; 1 and 3 fail it; any other result, or an answer nobody waits for, ends the
      session. */
  lemma {:induction false} OpenIsAnswered(t: Turn, bufferId: nat, bytes: seq<byte>, ch: nat, result: nat, effective: Option<nat>, encodes: bool)
    requires Listening(t) && (t.c.session.Of(ch).Pending? ==> ch in t.c.pending)
    ensures var u := Heard(t, bufferId, bytes, ChannelReady(ch, result, effective), encodes);
            if !t.c.session.Of(ch).Pending? || result > 3 then Stops(t, u, SessionRejected)
            else
              var p := t.c.pending[ch];
              var rel := if effective.Some? then effective.value else p.reliability;
              && ch !in u.c.pending
              && (result == 0 || result == 2 ==>
                Tells(t, u, ChannelOpen(p.kind, ch, rel), WithState(t.c.session, ch, Active)) && HoldsOpen(u.c, ch, p.kind, rel))
              && (result == 1 || result == 3 ==> Tells(t, u, OpenFailed(p.kind, ch), WithState(t.c.session, ch, Failed)))
  {
    hide Ingest, FinishIngest, HandleEvent, ChannelIsReady, OpenDidFail;
    var msg := ChannelReady(ch, result, effective);
    HeardIs(t, bufferId, bytes, msg, encodes);
    if t.c.session.Of(ch).Pending? && result <= 3 {
      var state := if result == 0 || result == 2 then Active else Failed;
      OpenOrFail(Kept(t, bufferId, bytes, WithState(t.c.session, ch, state)), ch, effective);
    }
  }

  lemma {:induction false} OpenOrFail(s: Turn, ch: nat, effective: Option<nat>)
    requires ch in s.c.pending
    ensures var u, p := ChannelIsReady(s, ch, effective), s.c.pending[ch];
            var rel := if effective.Some? then effective.value else p.reliability;
            && u.o == s.o.(events := s.o.events + [ChannelOpen(p.kind, ch, rel)]) && HoldsOpen(u.c, ch, p.kind, rel)
            && ch !in u.c.pending && u.c.closed == s.c.closed && u.c.session == s.c.session && u.c.controlIn == s.c.controlIn
    ensures var u, p := OpenDidFail(s, ch), s.c.pending[ch];
            && u.o == s.o.(events := s.o.events + [OpenFailed(p.kind, ch)])
            && ch !in u.c.pending && u.c.closed == s.c.closed && u.c.session == s.c.session && u.c.controlIn == s.c.controlIn
  {
    hide HoldsOpen;
    OpenEvent(s, ch, effective);
    assert HoldsOpen(ChannelIsReady(s, ch, effective).c, ch, s.c.pending[ch].kind,
                     if effective.Some? then effective.value else s.c.pending[ch].reliability) by {
      OpenHeld(s, ch, effective);
    }
  }

  /** The engine once the maps were updated. */
  function Filed(c: Engine, ch: nat, kind: Kind, rel: nat): Engine {
    match kind
    case TopicSubscribe => c.(subscribes := c.subscribes[ch := PendingOpen(kind, rel)])
    case TopicPublish => c.(publishes := c.publishes[ch := Publication(rel != 2, 0)])
    case ServiceClient => c.(services := c.services[ch := OpStream(0, map[])])
    case ServiceServer => c.(services := c.services[ch := OpStream(0, map[])])
    case ActionClient => c.(actions := c.actions[ch := OpStream(0, map[])])
    case ActionServer => c.(actions := c.actions[ch := OpStream(0, map[])])
  }

  lemma {:induction false} OpenEvent(s: Turn, ch: nat, effective: Option<nat>)
    requires ch in s.c.pending
    ensures var u, p := ChannelIsReady(s, ch, effective), s.c.pending[ch];
            && u.o == s.o.(events := s.o.events + [ChannelOpen(p.kind, ch, if effective.Some? then effective.value else p.reliability)])
            && ch !in u.c.pending && u.c.closed == s.c.closed && u.c.session == s.c.session && u.c.controlIn == s.c.controlIn
  {
    hide Filed, ChannelIsReady;
    OpenFiles(s, ch, effective);
    FiledKeeps(s.c.(pending := s.c.pending - {ch}), ch, s.c.pending[ch].kind,
               if effective.Some? then effective.value else s.c.pending[ch].reliability);
  }

  lemma {:induction false} OpenFiles(s: Turn, ch: nat, effective: Option<nat>)
    requires ch in s.c.pending
    ensures var p := s.c.pending[ch];
            var rel := if effective.Some? then effective.value else p.reliability;
            ChannelIsReady(s, ch, effective) ==
            Tell(s.(c := Filed(s.c.(pending := s.c.pending - {ch}), ch, p.kind, rel)), ChannelOpen(p.kind, ch, rel))
  {
    hide Tell;
  }

  lemma {:induction false} FiledKeeps(c: Engine, ch: nat, kind: Kind, rel: nat)
    ensures var d := Filed(c, ch, kind, rel);
            d.pending == c.pending && d.closed == c.closed && d.session == c.session && d.controlIn == c.controlIn
    ensures HoldsOpen(Filed(c, ch, kind, rel), ch, kind, rel)
  {
  }

  lemma {:induction false} OpenHeld(s: Turn, ch: nat, effective: Option<nat>)
    requires ch in s.c.pending
    ensures HoldsOpen(ChannelIsReady(s, ch, effective).c, ch, s.c.pending[ch].kind,
                      if effective.Some? then effective.value else s.c.pending[ch].reliability)
  {
    hide Filed, HoldsOpen, ChannelIsReady;
    OpenFiles(s, ch, effective);
    FiledKeeps(s.c.(pending := s.c.pending - {ch}), ch, s.c.pending[ch].kind,
               if effective.Some? then effective.value else s.c.pending[ch].reliability);
  }

  /** An error: about an operation on an open channel it is reported and nothing more; about a
      channel still being opened it fails the open; anything else ends the session, errors about
      an open channel included. */
  lemma {:induction false} ErrorIsScoped(t: Turn, bufferId: nat, bytes: seq<byte>, scope: nat, channel: Option<nat>, encodes: bool)
    requires Listening(t) && (channel.Some? && t.c.session.Of(channel.value).Pending? ==> channel.value in t.c.pending)
    ensures var u := Heard(t, bufferId, bytes, ErrorMessage(scope, channel), encodes);
            var state := if channel.Some? then t.c.session.Of(channel.value) else Unused;
            && (scope == 2 && state.Active? ==> Tells(t, u, OperationCancelled(channel.value), t.c.session))
            && (scope == 2 && !state.Active? ==> Stops(t, u, SessionRejected))
            && (scope != 2 && state.Pending? ==>
              Tells(t, u, OpenFailed(t.c.pending[channel.value].kind, channel.value), WithState(t.c.session, channel.value, Failed)))
            && (scope != 2 && !state.Pending? ==> Stops(t, u, PeerError))
  {
    hide Ingest, FinishIngest, HandleEvent;
    HeardIs(t, bufferId, bytes, ErrorMessage(scope, channel), encodes);
  }

  /** The graph: a snapshot sets the generation, a delta advances it by one and must start from
      the one the client is at. */
  lemma {:induction false} GraphFollows(t: Turn, bufferId: nat, bytes: seq<byte>, base: nat, generation: nat, encodes: bool)
    requires Listening(t)
    ensures var u := Heard(t, bufferId, bytes, GraphSnapshot(generation), encodes);
            Tells(t, u, SnapshotSeen(generation), t.c.session.(graph := Some(generation)))
    ensures var u := Heard(t, bufferId, bytes, GraphDelta(base, generation), encodes);
            if t.c.session.graph == Some(base) && generation == base + 1 then
              Tells(t, u, DeltaSeen(generation), t.c.session.(graph := Some(generation)))
            else Stops(t, u, SessionRejected)
  {
    hide Ingest, FinishIngest, DeclaredLen;
  }

  /** A message out of sequence, one only a client may send, and a frame that does not parse end
      the session. */
  lemma {:induction false} DisorderStops(t: Turn, bufferId: nat, bytes: seq<byte>, n: nat, msg: Control, encodes: bool)
    requires Listening(t)
    ensures ApplyControl(t.c.session, msg, ServerRole).Accepted? && n != t.c.controlIn ==>
      Stops(t, HandleEvent(t, WsBytes(bufferId, bytes, FrameParsed(ControlFrame(n, msg)), encodes)), ControlSequenceMismatch)
    ensures msg.Authenticate? || msg.OpenChannel? || msg.Refused? ==>
      Stops(t, HandleEvent(t, WsBytes(bufferId, bytes, FrameParsed(ControlFrame(n, msg)), encodes)), SessionRejected)
    ensures Stops(t, HandleEvent(t, WsBytes(bufferId, bytes, Unparsable, encodes)), ParseRejected)
  {
    hide Ingest, FinishIngest, DeclaredLen;
  }

  /** The gateway's answer to the hello: its own hello takes the client on, a bootstrap error stops
      it, and so does anything else. */
  lemma {:induction false} HelloIsAnswered(t: Turn, bufferId: nat, bytes: seq<byte>, parsed: Parsed, encodes: bool)
    requires t.c.session.phase.AwaitServerHello? && !t.c.closed
    ensures var u := HandleEvent(t, WsBytes(bufferId, bytes, parsed, encodes));
            && u.o.outbound == t.o.outbound
            && match parsed
               case BootRecord(ServerHello) =>
                 && u.o.events == t.o.events + [BootstrapComplete] && !u.c.closed
                 && u.c.session == t.c.session.(phase := AwaitAuthenticate)
               case BootRecord(BootstrapError) => Stops(t, u, PeerBootstrapFailed)
               case BootRecord(ClientHello) => Stops(t, u, SessionRejected)
               case _ => Stops(t, u, ParseRejected)
  {
    hide Ingest, FinishIngest, DeclaredLen;
  }

  /** A login answered with an error stops the client. */
  lemma {:induction false} LoginIsRefused(t: Turn, bufferId: nat, bytes: seq<byte>, scope: nat, channel: Option<nat>, encodes: bool)
    requires t.c.session.phase.AwaitSessionReady? && !t.c.closed
    ensures Stops(t, Heard(t, bufferId, bytes, ErrorMessage(scope, channel), encodes), PeerError)
  {
    hide Ingest, FinishIngest, DeclaredLen;
  }
}
