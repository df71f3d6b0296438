/** Subscriptions over a link: what the gateway stamps is what the client leases, in order,
    in every interleaving. */
module LinkSamples {
  import opened ByteOrder
  import CdrLimits
  import opened Session
  import opened Client
  import opened Gateway
  import opened GatewayConnection
  import opened GatewayLaws
  import opened LinkItems
  import opened LinkClient
  import opened Link
  import opened LeasedSamples

  lemma {:induction false} SequencesOne(w: Wire, ch: nat)
    ensures Sequences([w], ch) == Arrival(w, ch)
  {
    hide ChannelField, SequenceField;
    SequencesSnoc([], w, ch);
    assert [] + [w] == [w];
  }

  lemma {:induction false} SequencesJoin(a: seq<Wire>, b: seq<Wire>, ch: nat)
    ensures Sequences(a + b, ch) == Sequences(a, ch) + Sequences(b, ch)
    decreases |b|
  {
    hide IsSampleOf;
    if b == [] {
      assert a + b == a;
    } else {
      var n := |b| - 1;
      assert a + b == (a + b[..n]) + [b[n]] && b == b[..n] + [b[n]];
      SequencesSnoc(a + b[..n], b[n], ch);
      SequencesSnoc(b[..n], b[n], ch);
      SequencesJoin(a, b[..n], ch);
    }
  }

  lemma {:induction false} SequencesHead(ws: seq<Wire>, ch: nat)
    requires ws != []
    ensures Sequences(ws, ch) == Arrival(ws[0], ch) + Sequences(ws[1..], ch)
  {
    hide Arrival;
    assert ws == [ws[0]] + ws[1..];
    SequencesJoin([ws[0]], ws[1..], ch);
    SequencesOne(ws[0], ch);
  }

  /** No sample travels as anything but octets. */
  predicate AllOctets(ws: seq<Wire>) {
    forall i :: 0 <= i < |ws| ==> !(ws[i].Framed? && ws[i].frame.opcode.RosSample?)
  }

  // ---------------------------------------------------------------- the client's turns

  /** What was leased and what is still in flight, towards an engine that may have closed. */
  ghost predicate Follows(sent: seq<nat>, leased: seq<nat>, closed: bool, down: seq<Wire>, ch: nat) {
    if closed then leased <= sent else leased + Sequences(down, ch) == sent
  }

  lemma {:induction false} BatchFollows(t: Client.Turn, steps: seq<HostStep>, down: seq<Wire>, sent: seq<nat>, ch: nat)
    requires Legal(steps, down) && AllOctets(down) && Follows(sent, LeasedOn(t.o.events, ch), t.c.closed, down, ch)
    ensures var u := HandleAll(t, Events(steps, down));
            Follows(sent, LeasedOn(u.o.events, ch), u.c.closed, Undelivered(steps, down), ch) && AllOctets(Undelivered(steps, down))
    decreases |steps|
  {
    hide HandleEvent, ReadsAs, LeasedOn, Sequences, Arrival;
    if steps != [] {
      var es := Events(steps, down);
      match steps[0]
      case Own(e) =>
        assert es[0] == e && es[1..] == Events(steps[1..], down);
        if t.c.closed {
          BatchFollows(t, steps[1..], down, sent, ch);
        } else {
          LocalSilent(t, e, ch);
          ClosingFollows(sent, LeasedOn(t.o.events, ch), HandleEvent(t, e).c.closed, down, ch);
          BatchFollows(HandleEvent(t, e), steps[1..], down, sent, ch);
        }
      case Deliver(b, bytes, parsed, encodes) =>
        if down == [] {
          BatchFollows(t, steps[1..], down, sent, ch);
        } else {
          var e := WsBytes(b, bytes, parsed, encodes);
          assert es[0] == e && es[1..] == Events(steps[1..], down[1..]);
          if t.c.closed {
            BatchFollows(t, steps[1..], down[1..], sent, ch);
          } else {
            SequencesHead(down, ch);
            DeliveryLeases(t, e, down[0], ch);
            DeliveredFollows(sent, LeasedOn(t.o.events, ch), HandleEvent(t, e).c.closed, down, ch);
            BatchFollows(HandleEvent(t, e), steps[1..], down[1..], sent, ch);
          }
        }
    }
  }

  lemma {:induction false} ClosingFollows(sent: seq<nat>, leased: seq<nat>, closed: bool, down: seq<Wire>, ch: nat)
    requires Follows(sent, leased, false, down, ch)
    ensures Follows(sent, leased, closed, down, ch)
  {
    hide Sequences;
  }

  lemma {:induction false} DeliveredFollows(sent: seq<nat>, leased: seq<nat>, closed: bool, down: seq<Wire>, ch: nat)
    requires down != [] && Follows(sent, leased, false, down, ch)
    requires Sequences(down, ch) == Arrival(down[0], ch) + Sequences(down[1..], ch)
    ensures Follows(sent, leased + (if closed then [] else Arrival(down[0], ch)), closed, down[1..], ch)
  {
    hide Sequences, Arrival;
    assert leased + [] == leased;
    assert leased + (Arrival(down[0], ch) + Sequences(down[1..], ch)) == (leased + Arrival(down[0], ch)) + Sequences(down[1..], ch);
  }

  /** `sent` is everything stamped on `ch` so far. */
  ghost predicate Delivers(s: System, sent: seq<nat>, ch: nat) {
    Follows(sent, LeasedOn(s.events, ch), s.engine.closed, s.down, ch) && AllOctets(s.down)
  }

  lemma {:induction false} TurnDelivers(s: System, steps: seq<HostStep>, sent: seq<nat>, ch: nat)
    requires Enabled(s, ClientTurn(steps)) && Delivers(s, sent, ch)
    ensures Delivers(Link.Next(s, ClientTurn(steps)), sent, ch)
  {
    hide HandleAll, Legal, Sweep, Swept, LeasedOn, Sequences, Messages;
    var events := Events(steps, s.down);
    assert Batch(events) == events;
    var t := Client.Turn(s.engine, NO_OUTCOME);
    LeasedNone(ch);
    if s.engine.closed {
      LeasedOne(s.events, ClosedNow, ch);
      LeasedOne([], ClosedNow, ch);
      assert [] + [ClosedNow] == [ClosedNow] && LeasedOn(s.events, ch) + [] == LeasedOn(s.events, ch);
      DroppedOctets(steps, s.down);
    } else {
      var before := LeasedOn(s.events, ch);
      var rest := Sequences(s.down, ch);
      assert [] + rest == rest;
      BatchFollows(t, steps, s.down, rest, ch);
      var u := HandleAll(t, events);
      LeasedJoin(s.events, u.o.events, ch);
      BeforeFollows(before, rest, LeasedOn(u.o.events, ch), u.c.closed, Undelivered(steps, s.down), ch);
    }
  }

  lemma {:induction false} BeforeFollows(before: seq<nat>, sent: seq<nat>, leased: seq<nat>, closed: bool, down: seq<Wire>, ch: nat)
    requires Follows(sent, leased, closed, down, ch)
    ensures Follows(before + sent, before + leased, closed, down, ch)
  {
    hide Sequences;
    assert (before + leased) + Sequences(down, ch) == before + (leased + Sequences(down, ch));
  }

  lemma {:induction false} LeasedNone(ch: nat)
    ensures LeasedOn([], ch) == []
  {
  }

  lemma {:induction false} DroppedOctets(steps: seq<HostStep>, down: seq<Wire>)
    requires AllOctets(down)
    ensures AllOctets(Undelivered(steps, down))
    decreases |steps|
  {
    if steps != [] {
      if steps[0].Own? || down == [] {
        DroppedOctets(steps[1..], down);
      } else {
        DroppedOctets(steps[1..], down[1..]);
      }
    }
  }

  // ---------------------------------------------------------------- the gateway's turns

  /** The turn of the gateway's loop a step is, if it is one. */
  function LoopTurn(s: System, step: Step): Option<(nat, GatewayConnection.Turn)>
    requires Enabled(s, step)
    ensures LoopTurn(s, step).Some? && LoopTurn(s, step).value.1.Sample? ==> FRAME_HEADER_LENGTH <= |LoopTurn(s, step).value.1.buf|
  {
    match step
    case ClientTurn(_) => None
    case GatewayTakes(w) => if !s.live || s.up == [] then None else Some((0, Inbound(s.up[0], w)))
    case GatewaySample(budget, ch, buf) => Some((budget, Sample(ch, buf)))
    case GatewayRequest(ch, op, id, w) => Some((0, RosRequest(ch, op, id, w)))
  }

  /** What the gateway sends in a step. */
  function Output(s: System, step: Step): seq<Wire>
    requires Enabled(s, step)
  {
    match LoopTurn(s, step)
    case None => []
    case Some((budget, t)) => ConnStep(Conn(s.gate, [], s.live), budget, t).wire
  }

  /** What the gateway sends in a run. */
  function SentDown(s: System, steps: seq<Step>): seq<Wire>
    decreases |steps|
  {
    if steps == [] || !Enabled(s, steps[0]) then []
    else Output(s, steps[0]) + SentDown(Link.Next(s, steps[0]), steps[1..])
  }

  /** Ids and counters fit the header of every sample the gateway stamps. */
  predicate FitsStep(s: System, step: Step) {
    step.GatewaySample? ==> FitsHeader(s.gate, step.channelId)
  }

  predicate FitsRun(s: System, steps: seq<Step>)
    decreases |steps|
  {
    steps != [] && Enabled(s, steps[0]) ==> FitsStep(s, steps[0]) && FitsRun(Link.Next(s, steps[0]), steps[1..])
  }

  /** What a turn sends does not depend on what was sent before. */
  lemma {:induction false} HistoryApart(g: Gate, live: bool, h: seq<Wire>, budget: nat, t: GatewayConnection.Turn)
    requires t.Sample? ==> FRAME_HEADER_LENGTH <= |t.buf|
    ensures var c := ConnStep(Conn(g, [], live), budget, t);
            ConnStep(Conn(g, h, live), budget, t) == Conn(c.gate, h + c.wire, c.live)
  {
    hide HandleInbound, PushRequest, FrameSample;
    assert h + [] == h && forall ws: seq<Wire> :: [] + ws == ws;
    if t.Sample? {
      FramingNeeds(g, t.channelId, t.buf);
    }
  }

  lemma {:induction false} OctetsOnly(c: Conn, budget: nat, t: GatewayConnection.Turn, ch: nat)
    requires (t.Sample? ==> FRAME_HEADER_LENGTH <= |t.buf|) && ChannelSound(c, ch)
    ensures AllOctets(ConnStep(Conn(c.gate, [], c.live), budget, t).wire)
  {
    hide HandleInbound, PushRequest, FrameSample, ChannelSound;
    SoundIsFresh(c, ch);
    assert forall ws: seq<Wire> :: [] + ws == ws;
    match t
    case Inbound(m, w) => InboundPolite(c, m, w, ch);
    case Sample(target, buf) => FramingNeeds(c.gate, target, buf);
    case RosRequest(target, op, id, w) => RequestPolite(c, target, op, id, w, ch);
  }

  /** Everything sent down so far is `h`: the gateway's order holds of it, and the client
      leases it in that order. */
  ghost predicate Traced(s: System, h: seq<Wire>, ch: nat) {
    ChannelSound(Conn(s.gate, h, s.live), ch) && Delivers(s, Sequences(h, ch), ch)
  }

  ghost predicate Within(s: System, h: seq<Wire>, ch: nat, lifetime: Option<bool>) {
    lifetime.Some? ==> Lifetime(Conn(s.gate, h, s.live), ch, lifetime.value)
  }

  lemma {:induction false} LoopTraced(s: System, step: Step, h: seq<Wire>, ch: nat, lifetime: Option<bool>)
    requires Enabled(s, step) && FitsStep(s, step) && LoopTurn(s, step).Some? && Traced(s, h, ch) && Within(s, h, ch, lifetime)
    ensures Traced(Link.Next(s, step), h + Output(s, step), ch) && Within(Link.Next(s, step), h + Output(s, step), ch, lifetime)
  {
    hide ConnStep, ChannelSound, Lifetime, HandleInbound, PushRequest, LeasedOn, Sequences, FitsHeader;
    var (budget, t) := LoopTurn(s, step).value;
    var c := Conn(s.gate, h, s.live);
    var ws := ConnStep(Conn(s.gate, [], s.live), budget, t).wire;
    var n := Link.Next(s, step);
    var more := h + ws;
    HistoryApart(s.gate, s.live, h, budget, t);
    assert ConnStep(c, budget, t) == Conn(n.gate, more, n.live) && n.down == s.down + ws;
    StepSound(c, budget, t, ch);
    OctetsOnly(c, budget, t, ch);
    SequencesJoin(h, ws, ch);
    SequencesJoin(s.down, ws, ch);
    SentFollows(Sequences(h, ch), LeasedOn(s.events, ch), s.engine.closed, s.down, ws, ch);
    if lifetime.Some? {
      LifetimeGoesOn(c, budget, t, ch, lifetime.value);
    }
  }

  lemma {:induction false} SentFollows(sent: seq<nat>, leased: seq<nat>, closed: bool, down: seq<Wire>, ws: seq<Wire>, ch: nat)
    requires Follows(sent, leased, closed, down, ch) && Sequences(down + ws, ch) == Sequences(down, ch) + Sequences(ws, ch)
    ensures Follows(sent + Sequences(ws, ch), leased, closed, down + ws, ch)
  {
    hide Sequences;
  }

  lemma {:induction false} StepTraced(s: System, step: Step, h: seq<Wire>, ch: nat, lifetime: Option<bool>)
    requires Enabled(s, step) && FitsStep(s, step) && Traced(s, h, ch) && Within(s, h, ch, lifetime)
    ensures Traced(Link.Next(s, step), h + Output(s, step), ch) && Within(Link.Next(s, step), h + Output(s, step), ch, lifetime)
  {
    hide ChannelSound, Lifetime, HandleInbound, PushRequest, Delivers, Poll, Legal, FitsStep;
    if LoopTurn(s, step).Some? {
      LoopTraced(s, step, h, ch, lifetime);
    } else {
      assert h + [] == h;
      if step.ClientTurn? {
        TurnDelivers(s, step.steps, Sequences(h, ch), ch);
      }
    }
  }

  // ---------------------------------------------------------------- every run

  lemma {:induction false} RunTraced(s: System, steps: seq<Step>, t: System, h: seq<Wire>, ch: nat, lifetime: Option<bool>)
    requires Reaches(s, steps, t) && FitsRun(s, steps) && Traced(s, h, ch) && Within(s, h, ch, lifetime)
    ensures Traced(t, h + SentDown(s, steps), ch) && Within(t, h + SentDown(s, steps), ch, lifetime)
    decreases |steps|
  {
    hide Link.Next, Enabled, FitsStep, Traced, Within, Output;
    if steps == [] {
      assert h + [] == h;
    } else {
      var n, ws := Link.Next(s, steps[0]), Output(s, steps[0]);
      StepTraced(s, steps[0], h, ch, lifetime);
      RunTraced(n, steps[1..], t, h + ws, ch, lifetime);
      assert h + (ws + SentDown(n, steps[1..])) == (h + ws) + SentDown(n, steps[1..]);
    }
  }

  /** What `ch` was opened as at the gateway: its runtime when it first appears in the run. */
  function OpenedOn(s: System, steps: seq<Step>, ch: nat): Option<Runtime>
    decreases |steps|
  {
    if ch in s.gate.channels then Some(s.gate.channels[ch])
    else if steps == [] || !Enabled(s, steps[0]) then None
    else OpenedOn(Link.Next(s, steps[0]), steps[1..], ch)
  }

  lemma {:induction false} OpenedTraced(s: System, steps: seq<Step>, t: System, h: seq<Wire>, ch: nat)
    requires Reaches(s, steps, t) && FitsRun(s, steps) && Traced(s, h, ch)
    requires OpenedOn(s, steps, ch).Some? && OpenedOn(s, steps, ch).value.kind.TopicSubscribe?
    ensures var all := h + SentDown(s, steps);
            Traced(t, all, ch) && Lifetime(Conn(t.gate, all, t.live), ch, OpenedOn(s, steps, ch).value.reliable)
    decreases |steps|
  {
    hide Link.Next, Enabled, FitsStep, Delivers, ChannelSound, Lifetime, Output;
    if ch in s.gate.channels {
      LifetimeBegins(Conn(s.gate, h, s.live), ch);
      RunTraced(s, steps, t, h, ch, Some(s.gate.channels[ch].reliable));
    } else {
      var n, ws := Link.Next(s, steps[0]), Output(s, steps[0]);
      StepTraced(s, steps[0], h, ch, None);
      OpenedTraced(n, steps[1..], t, h + ws, ch);
      assert h + (ws + SentDown(n, steps[1..])) == (h + ws) + SentDown(n, steps[1..]);
    }
  }

  lemma {:induction false} StartTraced(host: CdrLimits.Host, ch: nat)
    ensures Traced(Link.Start(host), [], ch)
  {
    NewConnSound(ch);
  }

  /** Over every run and every interleaving, for every subscription there ever was: what the
      client has leased on it is 0, 1, 2, ... if it is reliable, and increasing in any case;
      and while the client is open, that and the samples in flight are all there is, up to
      the gateway's next number. */
  lemma {:induction false} SamplesAreLeasedInOrder(host: CdrLimits.Host, steps: seq<Step>, t: System, ch: nat)
    requires Reaches(Link.Start(host), steps, t) && FitsRun(Link.Start(host), steps)
    requires OpenedOn(Link.Start(host), steps, ch).Some? && OpenedOn(Link.Start(host), steps, ch).value.kind.TopicSubscribe?
    ensures var reliable, leased := OpenedOn(Link.Start(host), steps, ch).value.reliable, LeasedOn(t.events, ch);
            && Increasing(leased) && (reliable ==> leased == UpTo(|leased|))
            && (!t.engine.closed ==>
              var all := leased + Sequences(t.down, ch);
              && Increasing(all) && (reliable ==> all == UpTo(|all|))
              && (reliable && ch in t.gate.channels ==> |all| == t.gate.channels[ch].seqOut))
  {
    hide Reaches, FitsRun, OpenedOn, Sequences, LeasedOn;
    StartTraced(host, ch);
    OpenedTraced(Link.Start(host), steps, t, [], ch);
    var all, leased := Sequences([] + SentDown(Link.Start(host), steps), ch), LeasedOn(t.events, ch);
    assert leased <= all;
    assert leased == all[..|leased|];
  }
}
