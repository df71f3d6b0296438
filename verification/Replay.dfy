/** One session as both peers know it: what a list of messages from one peer does to a session,
    and that messages of the two peers commute wherever both may be sent. */
module Replay {
  import opened ByteOrder
  import opened Session

  function Applies(s: State, w: Wire, sender: Role): Applied {
    match w
    case Boot(record) => ApplyBootstrap(s, record, sender)
    case Framed(f) => ApplyFrame(s, f, sender)
    case RawSample(b) => if |b| < FRAME_HEADER_LENGTH then Violation else ApplyFrame(s, SampleRead(b), sender)
  }

  /** A refused message leaves the session as it is. */
  function Stepped(s: State, w: Wire, sender: Role): State {
    match Applies(s, w, sender)
    case Accepted(t, _) => t
    case Violation => s
  }

  function Replayed(s: State, ws: seq<Wire>, sender: Role): State
    decreases |ws|
  {
    if ws == [] then s else Replayed(Stepped(s, ws[0], sender), ws[1..], sender)
  }

  lemma {:induction false} ReplayedJoin(s: State, a: seq<Wire>, b: seq<Wire>, sender: Role)
    ensures Replayed(s, a + b, sender) == Replayed(Replayed(s, a, sender), b, sender)
    decreases |a|
  {
    hide Stepped;
    if a == [] {
      assert a + b == b;
    } else {
      assert (a + b)[1..] == a[1..] + b;
      ReplayedJoin(Stepped(s, a[0], sender), a[1..], b, sender);
    }
  }

  lemma {:induction false} ReplayedOne(s: State, w: Wire, sender: Role)
    ensures Replayed(s, [w], sender) == Stepped(s, w, sender)
  {
    assert [w][1..] == [];
  }

  // ---------------------------------------------------------------- what the peers say

  /** The frame a message is to its receiver. */
  function FrameOf(w: Wire): Option<Frame> {
    match w
    case Boot(_) => None
    case Framed(f) => Some(f)
    case RawSample(b) => if |b| < FRAME_HEADER_LENGTH then None else Some(SampleRead(b))
  }

  predicate IsData(w: Wire) {
    FrameOf(w).Some? && !FrameOf(w).value.opcode.ControlCbor?
  }

  function MessageOf(w: Wire): Option<Control> {
    if w.Framed? && w.frame.opcode.ControlCbor? && w.frame.payload.ControlPayload? then Some(w.frame.payload.msg) else None
  }

  /** What a client sends: its hello, four kinds of control messages, and data. */
  predicate OfClient(w: Wire) {
    || w == Boot(ClientHello)
    || IsData(w)
    || (MessageOf(w).Some? && var m := MessageOf(w).value; m.Authenticate? || m.OpenChannel? || m.CloseChannel? || m.Heartbeat?)
  }

  /** What a gateway sends while it goes on: its hello, control messages that are its to send,
      errors about an open channel, and data. */
  predicate OfGateway(s: State, w: Wire) {
    || w == Boot(ServerHello)
    || IsData(w)
    || (MessageOf(w).Some? &&
       match MessageOf(w).value
       case SessionReady => true
       case ChannelReady(_, _, _) => true
       case Heartbeat(_) => true
       case GraphSnapshot(_) => true
       case GraphDelta(_, _) => true
       case ErrorMessage(scope, channel) =>
         s.phase.Ready? && scope == 1 && channel.Some? && (s.Of(channel.value).Active? || s.Of(channel.value).Closed?)
       case _ => false)
  }

  /** Data on a channel the receiver has closed meanwhile: the one thing that is refused. */
  predicate Late(s: State, w: Wire) {
    s.phase.Ready? && IsData(w) && s.Of(FrameOf(w).value.channelId).Closed?
  }

  /** A message of a gateway that goes on, taken. */
  predicate Taken(s: State, w: Wire) {
    OfGateway(s, w) && Applies(s, w, ServerRole).Accepted?
  }

  /** Each message of the client is taken in turn. */
  predicate AllTaken(s: State, ws: seq<Wire>)
    decreases |ws|
  {
    ws == [] || (OfClient(ws[0]) && Applies(s, ws[0], ClientRole).Accepted? && AllTaken(Stepped(s, ws[0], ClientRole), ws[1..]))
  }

  /** Each message of the gateway is taken in turn, except for data that comes late. */
  predicate Heard(s: State, ws: seq<Wire>)
    decreases |ws|
  {
    ws == [] || ((Taken(s, ws[0]) || Late(s, ws[0])) && Heard(Stepped(s, ws[0], ServerRole), ws[1..]))
  }

  /** Each message of the gateway is taken in turn. */
  predicate Spoken(s: State, ws: seq<Wire>)
    decreases |ws|
  {
    ws == [] || (Taken(s, ws[0]) && Spoken(Stepped(s, ws[0], ServerRole), ws[1..]))
  }

  lemma {:induction false} SpokenJoin(s: State, a: seq<Wire>, b: seq<Wire>)
    requires Spoken(s, a) && Spoken(Replayed(s, a, ServerRole), b)
    ensures Spoken(s, a + b)
    decreases |a|
  {
    hide Stepped, Taken;
    if a == [] {
      assert a + b == b;
    } else {
      assert (a + b)[0] == a[0] && (a + b)[1..] == a[1..] + b;
      SpokenJoin(Stepped(s, a[0], ServerRole), a[1..], b);
    }
  }

  lemma {:induction false} HeardJoin(s: State, a: seq<Wire>, b: seq<Wire>)
    requires Heard(s, a) && Heard(Replayed(s, a, ServerRole), b)
    ensures Heard(s, a + b)
    decreases |a|
  {
    hide Stepped, Taken, Late;
    if a == [] {
      assert a + b == b;
    } else {
      assert (a + b)[0] == a[0] && (a + b)[1..] == a[1..] + b;
      HeardJoin(Stepped(s, a[0], ServerRole), a[1..], b);
    }
  }

  lemma {:induction false} AllTakenJoin(s: State, a: seq<Wire>, b: seq<Wire>)
    requires AllTaken(s, a) && AllTaken(Replayed(s, a, ClientRole), b)
    ensures AllTaken(s, a + b)
    decreases |a|
  {
    hide Stepped, OfClient, Applies;
    if a == [] {
      assert a + b == b;
    } else {
      assert (a + b)[0] == a[0] && (a + b)[1..] == a[1..] + b;
      AllTakenJoin(Stepped(s, a[0], ClientRole), a[1..], b);
    }
  }

  // ---------------------------------------------------------------- one message past another

  /** Data changes nothing, and its acceptance depends on the phase and its channel alone. */
  lemma {:induction false} DataChangesNothing(s: State, w: Wire, sender: Role)
    requires IsData(w)
    ensures Stepped(s, w, sender) == s
    ensures Applies(s, w, sender).Accepted? ==> s.phase.Ready? && s.Of(FrameOf(w).value.channelId).Active?
  {
    DataAccepted(s, FrameOf(w).value, sender);
  }

  lemma {:induction false} DataElsewhere(s: State, t: State, w: Wire, sender: Role)
    requires IsData(w) && Applies(s, w, sender).Accepted? && t.phase.Ready?
    requires var ch := FrameOf(w).value.channelId; ch in s.channels && ch in t.channels && t.channels[ch] == s.channels[ch]
    ensures Applies(t, w, sender).Accepted?
  {
    DataAccepted(s, FrameOf(w).value, sender);
    DataAccepted(t, FrameOf(w).value, sender);
  }

  /** What a client's message that is not data does, where it is accepted. */
  lemma {:induction false} ClientEffect(s: State, m: Wire)
    requires OfClient(m) && !IsData(m) && Applies(s, m, ClientRole).Accepted?
    ensures var t := Stepped(s, m, ClientRole);
            if m.Boot? then s.phase.AwaitClientHello? && t == s.(phase := AwaitServerHello)
            else
              match MessageOf(m).value
              case Authenticate => s.phase.AwaitAuthenticate? && t == s.(phase := AwaitSessionReady)
              case OpenChannel(ch, kind, _, _) =>
                s.phase.Ready? && ch != 0 && ch !in s.channels && t == s.(channels := s.channels[ch := Channel(Pending, kind)])
              case CloseChannel(ch) => s.phase.Ready? && s.Of(ch).Active? && t == WithState(s, ch, Closed)
              case _ => s.phase.Ready? && t == s
  {
  }

  /** What a gateway's message that is not data does, where it is accepted. */
  lemma {:induction false} GatewayEffect(s: State, x: Wire)
    requires Taken(s, x) && !IsData(x)
    ensures var t := Stepped(s, x, ServerRole);
            if x.Boot? then s.phase.AwaitServerHello? && t == s.(phase := AwaitAuthenticate)
            else
              match MessageOf(x).value
              case SessionReady => s.phase.AwaitSessionReady? && t == s.(phase := Ready)
              case ChannelReady(ch, result, _) =>
                && s.phase.Ready? && s.Of(ch).Pending? && result <= 3
                && t == WithState(s, ch, if result == 0 || result == 2 then Active else Failed)
              case GraphSnapshot(generation) => s.phase.Ready? && t == s.(graph := Some(generation))
              case GraphDelta(base, generation) =>
                s.phase.Ready? && s.graph == Some(base) && generation == base + 1 && t == s.(graph := Some(generation))
              case _ => s.phase.Ready? && t == s
  {
  }

  /** The converse: where these conditions hold the client's message is accepted. */
  lemma {:induction false} ClientMay(s: State, m: Wire)
    requires OfClient(m) && !IsData(m)
    requires if m.Boot? then s.phase.AwaitClientHello?
             else
               match MessageOf(m).value
               case Authenticate => s.phase.AwaitAuthenticate?
               case OpenChannel(ch, _, _, _) => s.phase.Ready? && ch != 0 && ch !in s.channels
               case CloseChannel(ch) => s.phase.Ready? && s.Of(ch).Active?
               case _ => s.phase.Ready?
    ensures Applies(s, m, ClientRole).Accepted?
  {
  }

  lemma {:induction false} GatewayMay(s: State, x: Wire)
    requires OfGateway(s, x) && !IsData(x)
    requires if x.Boot? then s.phase.AwaitServerHello?
             else
               match MessageOf(x).value
               case SessionReady => s.phase.AwaitSessionReady?
               case ChannelReady(ch, result, _) => s.phase.Ready? && s.Of(ch).Pending? && result <= 3
               case GraphDelta(base, generation) => s.phase.Ready? && s.graph == Some(base) && generation == base + 1
               case _ => s.phase.Ready?
    ensures Applies(s, x, ServerRole).Accepted?
  {
  }

  /** A client's message and a gateway's, both acceptable now: either order accepts both and
      ends the same, but for data on the very channel the client's message closes. */
  lemma {:induction false} OneEach(s: State, m: Wire, x: Wire)
    requires OfClient(m) && Applies(s, m, ClientRole).Accepted? && Taken(s, x)
    ensures var a, b := Stepped(s, m, ClientRole), Stepped(s, x, ServerRole);
            && Applies(b, m, ClientRole).Accepted? && (Taken(a, x) || Late(a, x))
            && Stepped(a, x, ServerRole) == Stepped(b, m, ClientRole)
  {
    hide Applies, Stepped, FrameOf;
    if IsData(x) {
      DataChangesNothing(s, x, ServerRole);
      DataChangesNothing(Stepped(s, m, ClientRole), x, ServerRole);
      DataAfter(s, m, x);
    } else if IsData(m) {
      DataChangesNothing(s, m, ClientRole);
      DataChangesNothing(Stepped(s, x, ServerRole), m, ClientRole);
      GatewayKeepsActive(s, x, FrameOf(m).value.channelId);
      DataElsewhere(s, Stepped(s, x, ServerRole), m, ClientRole);
    } else {
      ClientEffect(s, m);
      GatewayEffect(s, x);
      ControlEach(s, m, x);
    }
  }

  /** Data of the gateway after a message of the client. */
  lemma {:induction false} DataAfter(s: State, m: Wire, x: Wire)
    requires IsData(x) && OfClient(m) && Applies(s, m, ClientRole).Accepted? && Taken(s, x)
    ensures Taken(Stepped(s, m, ClientRole), x) || Late(Stepped(s, m, ClientRole), x)
  {
    hide Applies, Stepped, FrameOf;
    var ch, t := FrameOf(x).value.channelId, Stepped(s, m, ClientRole);
    DataChangesNothing(s, x, ServerRole);
    if IsData(m) {
      DataChangesNothing(s, m, ClientRole);
    } else {
      ClientEffect(s, m);
      if t.Of(ch).Active? {
        DataElsewhere(s, t, x, ServerRole);
      }
    }
  }

  lemma {:induction false} GatewayKeepsActive(s: State, x: Wire, ch: nat)
    requires Taken(s, x) && !IsData(x) && s.phase.Ready? && s.Of(ch).Active?
    ensures var t := Stepped(s, x, ServerRole);
            t.phase.Ready? && ch in t.channels && t.channels[ch] == s.channels[ch]
  {
    hide Applies, Stepped, FrameOf;
    GatewayEffect(s, x);
  }

  lemma {:induction false} ControlEach(s: State, m: Wire, x: Wire)
    requires OfClient(m) && Applies(s, m, ClientRole).Accepted? && !IsData(m) && Taken(s, x) && !IsData(x)
    ensures var a, b := Stepped(s, m, ClientRole), Stepped(s, x, ServerRole);
            && Applies(b, m, ClientRole).Accepted? && Taken(a, x) && Stepped(a, x, ServerRole) == Stepped(b, m, ClientRole)
  {
    hide Applies, Stepped, FrameOf;
    ClientEffect(s, m);
    GatewayEffect(s, x);
    var a, b := Stepped(s, m, ClientRole), Stepped(s, x, ServerRole);
    ClientMay(b, m);
    GatewayMay(a, x);
    ClientEffect(b, m);
    GatewayEffect(a, x);
    assert Stepped(a, x, ServerRole).channels == Stepped(b, m, ClientRole).channels;
  }

  // ---------------------------------------------------------------- one message past many

  lemma {:induction false} LateStays(s: State, m: Wire, x: Wire)
    requires OfClient(m) && Applies(s, m, ClientRole).Accepted? && Late(s, x)
    ensures Late(Stepped(s, m, ClientRole), x) && Stepped(s, x, ServerRole) == s
  {
    hide Applies, Stepped, FrameOf;
    DataChangesNothing(s, x, ServerRole);
    if IsData(m) {
      DataChangesNothing(s, m, ClientRole);
    } else {
      ClientEffect(s, m);
    }
  }

  /** A message of the client past all the gateway has on its way. */
  lemma {:induction false} PastGateway(s: State, m: Wire, xs: seq<Wire>)
    requires OfClient(m) && Applies(s, m, ClientRole).Accepted? && Heard(s, xs)
    ensures Heard(Stepped(s, m, ClientRole), xs)
    ensures Applies(Replayed(s, xs, ServerRole), m, ClientRole).Accepted?
    ensures Replayed(Stepped(s, m, ClientRole), xs, ServerRole) == Stepped(Replayed(s, xs, ServerRole), m, ClientRole)
    decreases |xs|
  {
    hide Applies, Stepped, Taken, Late, OfClient;
    if xs != [] {
      var b := Stepped(s, xs[0], ServerRole);
      if Taken(s, xs[0]) {
        OneEach(s, m, xs[0]);
      } else {
        LateStays(s, m, xs[0]);
        LateChangesNothing(Stepped(s, m, ClientRole), xs[0]);
      }
      PastGateway(b, m, xs[1..]);
    }
  }

  lemma {:induction false} LateChangesNothing(s: State, x: Wire)
    requires Late(s, x)
    ensures Stepped(s, x, ServerRole) == s && Applies(s, x, ServerRole).Violation?
  {
    hide Applies, Stepped, FrameOf;
    DataChangesNothing(s, x, ServerRole);
  }

  /** A message of the gateway past all the client has on its way. */
  lemma {:induction false} PastClient(s: State, x: Wire, ms: seq<Wire>)
    requires AllTaken(s, ms) && (Taken(s, x) || Late(s, x))
    ensures AllTaken(Stepped(s, x, ServerRole), ms)
    ensures Taken(Replayed(s, ms, ClientRole), x) || Late(Replayed(s, ms, ClientRole), x)
    ensures Replayed(Stepped(s, x, ServerRole), ms, ClientRole) == Stepped(Replayed(s, ms, ClientRole), x, ServerRole)
    decreases |ms|
  {
    hide Applies, Stepped, Taken, Late, OfClient;
    if ms != [] {
      var a := Stepped(s, ms[0], ClientRole);
      if Taken(s, x) {
        OneEach(s, ms[0], x);
      } else {
        LateStays(s, ms[0], x);
        LateChangesNothing(a, x);
      }
      PastClient(a, x, ms[1..]);
    }
  }

  /** All the gateway says in a turn past all the client has on its way. */
  lemma {:induction false} ManyPastClient(s: State, xs: seq<Wire>, ms: seq<Wire>)
    requires AllTaken(s, ms) && Spoken(s, xs)
    ensures AllTaken(Replayed(s, xs, ServerRole), ms) && Heard(Replayed(s, ms, ClientRole), xs)
    ensures Replayed(Replayed(s, xs, ServerRole), ms, ClientRole) == Replayed(Replayed(s, ms, ClientRole), xs, ServerRole)
    decreases |xs|
  {
    hide Applies, Stepped, Taken, Late, AllTaken;
    if xs != [] {
      PastClient(s, xs[0], ms);
      ManyPastClient(Stepped(s, xs[0], ServerRole), xs[1..], ms);
    }
  }

  // ---------------------------------------------------------------- last words

  /** What a gateway says before it stops, in the phase it is in. */
  predicate LastWord(s: State, w: Wire) {
    || (w == Boot(BootstrapError) && s.phase.AwaitServerHello?)
    || (MessageOf(w).Some? && MessageOf(w).value == ErrorMessage(0, None) && s.phase.InSelectedPlane() && !s.phase.IsTerminal())
  }

  /** Last words are accepted. */
  lemma {:induction false} LastWordTaken(s: State, w: Wire)
    requires LastWord(s, w)
    ensures Applies(s, w, ServerRole).Accepted?
  {
  }

  lemma {:induction false} LastWordStays(s: State, m: Wire, w: Wire)
    requires OfClient(m) && Applies(s, m, ClientRole).Accepted? && LastWord(s, w)
    ensures LastWord(Stepped(s, m, ClientRole), w)
  {
    hide Applies, Stepped, FrameOf;
    if IsData(m) {
      DataChangesNothing(s, m, ClientRole);
    } else {
      ClientEffect(s, m);
    }
  }

  lemma {:induction false} LastWordPast(s: State, ms: seq<Wire>, w: Wire)
    requires AllTaken(s, ms) && LastWord(s, w)
    ensures LastWord(Replayed(s, ms, ClientRole), w)
    decreases |ms|
  {
    hide Applies, Stepped, LastWord, OfClient;
    if ms != [] {
      LastWordStays(s, ms[0], w);
      LastWordPast(Stepped(s, ms[0], ClientRole), ms[1..], w);
    }
  }

  /** What is on its way to the client: heard in turn, and perhaps a last word after it. */
  predicate HeardOut(s: State, ws: seq<Wire>)
    decreases |ws|
  {
    || ws == []
    || (|ws| == 1 && LastWord(s, ws[0]))
    || ((Taken(s, ws[0]) || Late(s, ws[0])) && HeardOut(Stepped(s, ws[0], ServerRole), ws[1..]))
  }

  lemma {:induction false} HeardIsHeardOut(s: State, a: seq<Wire>, last: seq<Wire>)
    requires Heard(s, a) && (last == [] || (|last| == 1 && LastWord(Replayed(s, a, ServerRole), last[0])))
    ensures HeardOut(s, a + last)
    decreases |a|
  {
    hide Stepped, Taken, Late, LastWord;
    if a == [] {
      assert a + last == last;
    } else {
      assert (a + last)[0] == a[0] && (a + last)[1..] == a[1..] + last;
      HeardIsHeardOut(Stepped(s, a[0], ServerRole), a[1..], last);
    }
  }

  /** The client may still send without making itself deaf. */
  lemma {:induction false} HeardOutPast(s: State, m: Wire, xs: seq<Wire>)
    requires OfClient(m) && Applies(s, m, ClientRole).Accepted? && HeardOut(s, xs)
    ensures HeardOut(Stepped(s, m, ClientRole), xs)
    decreases |xs|
  {
    hide Applies, Stepped, Taken, Late, OfClient, LastWord;
    if xs != [] {
      if |xs| == 1 && LastWord(s, xs[0]) {
        LastWordStays(s, m, xs[0]);
      } else {
        var b := Stepped(s, xs[0], ServerRole);
        if Taken(s, xs[0]) {
          OneEach(s, m, xs[0]);
        } else {
          LateStays(s, m, xs[0]);
          LateChangesNothing(Stepped(s, m, ClientRole), xs[0]);
        }
        HeardOutPast(b, m, xs[1..]);
      }
    }
  }
}
