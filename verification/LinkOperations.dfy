/** Service and action frames over a link: in every interleaving the gateway fails a session
    for an operation out of sequence exactly when the calls on some channel were not in line. */
module LinkOperations {
  import opened ByteOrder
  import CdrLimits
  import opened Session
  import opened Client
  import opened Gateway
  import opened GatewayConnection
  import opened LinkItems
  import opened LinkClient
  import opened LinkGateway
  import opened Link
  import opened Operations
  import opened CallStreams
  import opened CallAdmission

  /** The attempts made on `ch` in one step of the link. */
  function StepAttempts(s: System, step: Step, ch: nat): seq<Attempt> {
    match step
    case ClientTurn(steps) => BatchAttempts(Client.Turn(s.engine, NO_OUTCOME), Events(steps, s.down), ch)
    case _ => []
  }

  /** The attempts made on `ch` over a run. */
  function Attempts(s: System, steps: seq<Step>, ch: nat): seq<Attempt>
    decreases |steps|
  {
    if steps == [] || !Enabled(s, steps[0]) then []
    else StepAttempts(s, steps[0], ch) + Attempts(Link.Next(s, steps[0]), steps[1..], ch)
  }

  // ---------------------------------------------------------------- the ledger of calls

  /** Channel `ch` after `tries`: what was admitted was admitted in order, and with what is
      still in flight it is everything the attempts sent. */
  ghost predicate CallLedger(s: System, ch: nat, tries: seq<Attempt>) {
    var done := AdmittedCalls(s.notes, ch);
    && AllAdmitted(done) && StreamOk(s.engine, ch, |tries|)
    && (s.live ==>
      && done + Calls(s.up, ch) == Emitted(tries)
      && (s.gate.session.Of(ch).Unused? ==> done == [])
      && (ch in s.gate.channels ==> s.gate.channels[ch].opSeqIn == Seen(done)))
  }

  /** A whole turn of the client, whatever was said on `ch` before it. */
  lemma {:induction false} PollMade(c: Engine, events: seq<HostEvent>, ch: nat, tries: seq<Attempt>, base: seq<Numbered>)
    requires |events| <= MAX_HOST_EVENTS_PER_POLL && StreamOk(c, ch, |tries|) && base == Emitted(tries)
    ensures var p, more := Poll(c, events), BatchAttempts(Client.Turn(c, NO_OUTCOME), events, ch);
            StreamOk(p.c, ch, |tries + more|) && base + Calls(Messages(p.o.outbound), ch) == Emitted(tries + more)
  {
    hide HandleAll, Sweep, Swept, Emitted, StreamOf, StreamOk;
    var t := Client.Turn(c, NO_OUTCOME);
    var more := BatchAttempts(t, events, ch);
    assert Batch(events) == events && Messages([]) == [] && base + [] == base;
    if c.closed {
      assert tries + more == tries;
    } else {
      BatchMade(t, events, ch, tries, base);
      SweptStream(HandleAll(t, events).c, ch, |tries + more|);
    }
  }

  lemma {:induction false} TurnLedger(s: System, steps: seq<HostStep>, ch: nat, tries: seq<Attempt>)
    requires Enabled(s, ClientTurn(steps)) && CallLedger(s, ch, tries)
    ensures CallLedger(Link.Next(s, ClientTurn(steps)), ch, tries + StepAttempts(s, ClientTurn(steps), ch))
  {
    hide Poll, Legal, AllAdmitted, Emitted, Seen, StreamOk, BatchAttempts, AdmittedCalls, Calls;
    var events := Events(steps, s.down);
    var p := Poll(s.engine, events);
    PollMade(s.engine, events, ch, tries, Emitted(tries));
    CallsAppend(s.up, Messages(p.o.outbound), ch);
    if s.live {
      var done, sent := AdmittedCalls(s.notes, ch), Calls(Messages(p.o.outbound), ch);
      assert done + (Calls(s.up, ch) + sent) == (done + Calls(s.up, ch)) + sent;
    }
  }

  lemma {:induction false} SweptStream(c: Engine, ch: nat, n: nat)
    requires StreamOk(c, ch, n)
    ensures StreamOk(c.(slab := Sweep(c.slab)), ch, n)
  {
    hide Sweep;
  }

  lemma {:induction false} CallsHead(ws: seq<Wire>, ch: nat)
    requires ws != []
    ensures Calls(ws, ch) == Carries(ws[0], ch) + Calls(ws[1..], ch)
  {
    hide CallOf;
  }

  lemma {:induction false} TakesLedger(s: System, w: World, ch: nat, tries: seq<Attempt>)
    requires Inv(s) && s.live && s.up != [] && CallLedger(s, ch, tries)
    ensures CallLedger(Link.Next(s, GatewayTakes(w)), ch, tries)
  {
    hide HandleInbound, Items, ItemOf, TakesNext, Inv, GateOk, GateMoves, Carries, Emitted, AllAdmitted, Seen, CallOf, StreamOk, Admits, Calls;
    var u := HandleInbound(s.gate, s.up[0], w);
    AllNext(s);
    InboundAdmitsCalls(s.gate, s.up[0], w, ch);
    AdmittedCallsJoin(s.notes, u.r.notes, ch);
    CallsHead(s.up, ch);
    var done := AdmittedCalls(s.notes, ch);
    assert done + (Carries(s.up[0], ch) + Calls(s.up[1..], ch)) == (done + Carries(s.up[0], ch)) + Calls(s.up[1..], ch);
    InboundStep(s.gate, s.up[0], w, ch);
    if !u.r.close {
      assert TakesNext(s.gate, s.up[0], ch);
      NewIsUnused(s.gate, s.up[0], u.g, Items(u.r.outbound, Down(ch)), ch);
    }
    Recorded(s.gate, s.up[0], u, done, Calls(s.up[1..], ch), Emitted(tries), ch);
  }

  /** One message, in terms of what was admitted on `ch` before it and what is still to come. */
  lemma {:induction false} Recorded(g: Gate, m: Wire, u: GateTurn, done: seq<Numbered>, rest: seq<Numbered>, all: seq<Numbered>, ch: nat)
    requires Admits(g, m, u, ch) && AllAdmitted(done) && (done + Carries(m, ch)) + rest == all
    requires (g.session.Of(ch).Unused? ==> done == []) && (ch in g.channels ==> g.channels[ch].opSeqIn == Seen(done))
    requires !u.r.close ==> (ch in u.g.channels && ch !in g.channels ==> g.session.Of(ch).Unused?)
    requires !u.r.close ==> (u.g.session.Of(ch).Unused? ==> g.session.Of(ch).Unused? && Carries(m, ch) == [])
    ensures var now := done + AdmittedCalls(u.r.notes, ch);
            && AllAdmitted(now)
            && (!u.r.close ==>
              && now + rest == all && (u.g.session.Of(ch).Unused? ==> now == [])
              && (ch in u.g.channels ==> u.g.channels[ch].opSeqIn == Seen(now)))
  {
    hide Carries, AllAdmitted, Seen, AdmittedCalls;
    var now := AdmittedCalls(u.r.notes, ch);
    assert done + [] == done;
    if now != [] {
      assert now == [now[0]];
      AdmittedSnoc(done, now[0]);
    }
    assert Seen([]) == map[] by {
      NothingSeen();
    }
  }

  lemma {:induction false} NothingSeen()
    ensures Seen([]) == map[]
  {
  }

  lemma {:induction false} AllNext(s: System)
    requires Inv(s) && s.live && s.up != []
    ensures forall c :: GateOk(s.gate, c) && TakesNext(s.gate, s.up[0], c)
  {
    hide TakesNext, GateOk, Items, Peaceful;
    forall c ensures GateOk(s.gate, c) && TakesNext(s.gate, s.up[0], c) {
      assert ChannelAgrees(s.engine, s.gate, true, s.up, s.down, c);
      TakesHead(s.engine, s.gate, s.up, s.down, c);
    }
  }

  /** A runtime appears only on an id that was unused, and no id becomes unused again. */
  lemma {:induction false} NewIsUnused(g: Gate, m: Wire, h: Gate, sent: seq<Item>, ch: nat)
    requires GateOk(g, ch) && TakesNext(g, m, ch) && GateMoves(GateViewOf(g, ch), GateViewOf(h, ch), ItemOf(m, Up(ch)), sent)
    ensures ch in h.channels && ch !in g.channels ==> g.session.Of(ch).Unused?
    ensures h.session.Of(ch).Unused? ==> g.session.Of(ch).Unused? && Carries(m, ch) == []
  {
  }

  /** A session failed for an operation out of sequence: the calls on its channel were not in line. */
  lemma {:induction false} MismatchMeans(s: System, w: World, tries: seq<Attempt>)
    requires Inv(s) && s.live && s.up != [] && Mismatched(HandleInbound(s.gate, s.up[0], w).r.notes)
    requires s.up[0].Framed? ==> CallLedger(s, s.up[0].frame.channelId, tries)
    ensures s.up[0].Framed? && !InLine(tries)
  {
    hide HandleInbound, Inv, StreamOf, InLine;
    AllNext(s);
    InboundAdmitsCalls(s.gate, s.up[0], w, 0);
    var ch := s.up[0].frame.channelId;
    var f := CallOf(s.up[0], ch).value;
    var done := AdmittedCalls(s.notes, ch);
    CallsHead(s.up, ch);
    assert Emitted(tries) == (done + [f]) + Calls(s.up[1..], ch);
    AdmittedSnoc(done, f);
    if AllAdmitted(Emitted(tries)) {
      AdmittedPrefix(done + [f], Calls(s.up[1..], ch));
    }
    OneOperationPerChannel(tries);
  }

  // ---------------------------------------------------------------- every run

  /** Turns of the gateway that take nothing off the wire leave every memory as it is. */
  lemma {:induction false} OwnTurnLedger(s: System, step: Step, ch: nat, tries: seq<Attempt>)
    requires Enabled(s, step) && (step.GatewaySample? || step.GatewayRequest?) && CallLedger(s, ch, tries)
    ensures CallLedger(Link.Next(s, step), ch, tries)
  {
    hide PushRequest, FrameSample, StreamOk, Emitted, AllAdmitted, Seen, AdmittedCalls, Calls;
    match step
    case GatewaySample(budget, target, buf) => FramingNeeds(s.gate, target, buf);
    case GatewayRequest(target, op, id, w) => RequestKeeps(s.gate, target, op, id, w, ch);
  }

  lemma {:induction false} RequestKeeps(g: Gate, target: nat, op: OperationCode, id: OperationId, w: World, ch: nat)
    ensures var u := PushRequest(g, target, op, id, w);
            Memory(u.g, ch) == Memory(g, ch) && u.g.session == g.session
  {
    hide Respond;
    var t := GateTurn(g, NO_REPLY);
    if target in g.channels {
      RespondKeeps(t, target, op, id, w, ch);
      RespondStep(t, target, op, id, w, ch);
    }
  }

  lemma {:induction false} StepCalls(s: System, step: Step, ch: nat, tries: seq<Attempt>)
    requires Inv(s) && Enabled(s, step) && CallLedger(s, ch, tries)
    ensures CallLedger(Link.Next(s, step), ch, tries + StepAttempts(s, step, ch))
  {
    hide Inv, CallLedger, BatchAttempts;
    assert tries + [] == tries;
    match step
    case ClientTurn(steps) => TurnLedger(s, steps, ch, tries);
    case GatewayTakes(w) =>
      if s.live && s.up != [] {
        TakesLedger(s, w, ch, tries);
      }
    case _ => OwnTurnLedger(s, step, ch, tries);
  }

  /** A mismatch is new only when the gateway takes the call that is out of sequence. */
  lemma {:induction false} NewMismatch(s: System, step: Step)
    requires Enabled(s, step) && !Mismatched(s.notes) && Mismatched(Link.Next(s, step).notes)
    ensures step.GatewayTakes? && s.live && s.up != [] && Mismatched(HandleInbound(s.gate, s.up[0], step.world).r.notes)
  {
    hide HandleInbound, PushRequest, SampleStep, Poll, Legal;
  }

  /** Some channel whose calls were not in line. */
  ghost predicate Broken(calls: nat -> seq<Attempt>) {
    exists ch :: !InLine(calls(ch))
  }

  /** Every channel's ledger is right, and a mismatch was only reported with reason. */
  ghost predicate Accounted(s: System, calls: nat -> seq<Attempt>) {
    (forall ch :: CallLedger(s, ch, calls(ch))) && (Mismatched(s.notes) ==> Broken(calls))
  }

  lemma {:induction false} StepAccounted(s: System, step: Step, calls: nat -> seq<Attempt>, after: nat -> seq<Attempt>)
    requires Inv(s) && Enabled(s, step) && Accounted(s, calls)
    requires forall ch :: after(ch) == calls(ch) + StepAttempts(s, step, ch)
    ensures Accounted(Link.Next(s, step), after)
  {
    hide Inv, CallLedger, StepAttempts, Mismatched, InLine, Enabled, Link.Next;
    var n := Link.Next(s, step);
    forall ch ensures CallLedger(n, ch, after(ch)) {
      assert CallLedger(s, ch, calls(ch));
      StepCalls(s, step, ch, calls(ch));
    }
    if Mismatched(s.notes) {
      var ch :| !InLine(calls(ch));
      StaysBroken(calls(ch), StepAttempts(s, step, ch));
      assert !InLine(after(ch));
    } else if Mismatched(n.notes) {
      NewMismatch(s, step);
      var ch := if s.up[0].Framed? then s.up[0].frame.channelId else 0;
      assert CallLedger(s, ch, calls(ch));
      MismatchMeans(s, step.world, calls(ch));
      StaysBroken(calls(ch), StepAttempts(s, step, ch));
      assert !InLine(after(ch));
    }
  }

  lemma {:induction false} StaysBroken(tries: seq<Attempt>, more: seq<Attempt>)
    requires !InLine(tries)
    ensures !InLine(tries + more)
  {
    hide InLine;
    if InLine(tries + more) {
      InLinePrefix(tries, more);
    }
  }

  lemma {:induction false} RunAccounted(s: System, steps: seq<Step>, t: System, calls: nat -> seq<Attempt>, after: nat -> seq<Attempt>)
    requires Inv(s) && Reaches(s, steps, t) && Accounted(s, calls)
    requires forall ch :: after(ch) == calls(ch) + Attempts(s, steps, ch)
    ensures Accounted(t, after)
    decreases |steps|
  {
    hide Inv, Link.Next, Enabled, CallLedger, StepAttempts, Mismatched, InLine;
    if steps == [] {
      forall ch ensures after(ch) == calls(ch) {
      }
      SameCalls(s, calls, after);
    } else {
      var between := (ch: nat) => calls(ch) + StepAttempts(s, steps[0], ch);
      var n := Link.Next(s, steps[0]);
      StepKeeps(s, steps[0]);
      StepAccounted(s, steps[0], calls, between);
      forall ch ensures after(ch) == between(ch) + Attempts(n, steps[1..], ch) {
        assert after(ch) == calls(ch) + (StepAttempts(s, steps[0], ch) + Attempts(n, steps[1..], ch));
      }
      RunAccounted(n, steps[1..], t, between, after);
    }
  }

  lemma {:induction false} SameCalls(s: System, calls: nat -> seq<Attempt>, after: nat -> seq<Attempt>)
    requires Accounted(s, calls) && forall ch :: after(ch) == calls(ch)
    ensures Accounted(s, after)
  {
    hide CallLedger, InLine, Mismatched;
    forall ch ensures CallLedger(s, ch, after(ch)) {
      assert CallLedger(s, ch, calls(ch));
    }
    if Mismatched(s.notes) {
      var ch :| !InLine(calls(ch));
      assert !InLine(after(ch));
    }
  }

  lemma {:induction false} StartAccounted(host: CdrLimits.Host)
    ensures Accounted(Link.Start(host), (ch: nat) => [])
  {
    forall ch ensures CallLedger(Link.Start(host), ch, []) {
    }
  }

  /** Conservation of calls: in every reachable state, what the gateway has admitted on a
      channel was each time the number expected of its operation, and while it runs that and
      what is in flight are exactly the frames of the attempts made there. */
  lemma {:induction false} CallsAreConserved(host: CdrLimits.Host, steps: seq<Step>, t: System, ch: nat)
    requires Reaches(Link.Start(host), steps, t)
    ensures AllAdmitted(AdmittedCalls(t.notes, ch))
    ensures t.live ==> AdmittedCalls(t.notes, ch) + Calls(t.up, ch) == Emitted(Attempts(Link.Start(host), steps, ch))
  {
    hide Reaches, Inv, Attempts, AllAdmitted, Emitted;
    var after := (c: nat) => Attempts(Link.Start(host), steps, c);
    StartAgrees(host);
    StartAccounted(host);
    forall c ensures after(c) == [] + Attempts(Link.Start(host), steps, c) {
    }
    RunAccounted(Link.Start(host), steps, t, (c: nat) => [], after);
    assert CallLedger(t, ch, after(ch));
  }

  /** Over every run and every interleaving: once all calls have been taken off the wire by
      a gateway that did not stop for another reason, it has failed the session for an
      operation out of sequence iff on some channel the attempts were not in line. */
  lemma {:induction false} OperationsFailExactly(host: CdrLimits.Host, steps: seq<Step>, t: System)
    requires Reaches(Link.Start(host), steps, t)
    ensures Mismatched(t.notes) ==> exists ch :: !InLine(Attempts(Link.Start(host), steps, ch))
    ensures t.live && (forall ch :: Calls(t.up, ch) == []) ==> forall ch :: InLine(Attempts(Link.Start(host), steps, ch))
    ensures (t.live || Mismatched(t.notes)) && (forall ch :: Calls(t.up, ch) == []) ==>
      (Mismatched(t.notes) <==> exists ch :: !InLine(Attempts(Link.Start(host), steps, ch)))
  {
    hide Reaches, Inv, Attempts, InLine, Mismatched, CallLedger;
    var after := (c: nat) => Attempts(Link.Start(host), steps, c);
    StartAgrees(host);
    StartAccounted(host);
    forall c ensures after(c) == [] + Attempts(Link.Start(host), steps, c) {
    }
    RunAccounted(Link.Start(host), steps, t, (c: nat) => [], after);
    if Mismatched(t.notes) {
      var ch :| !InLine(after(ch));
      assert !InLine(Attempts(Link.Start(host), steps, ch));
    }
    if t.live && forall ch :: Calls(t.up, ch) == [] {
      forall ch ensures InLine(Attempts(Link.Start(host), steps, ch)) {
        CallsAreConserved(host, steps, t, ch);
        assert AdmittedCalls(t.notes, ch) + [] == AdmittedCalls(t.notes, ch);
        OneOperationPerChannel(Attempts(Link.Start(host), steps, ch));
      }
    }
  }
}
