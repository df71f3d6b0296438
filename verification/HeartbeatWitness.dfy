/** A run in which a single heartbeat falls due and the peers answer each other without end. */
module HeartbeatWitness {
  import opened ByteOrder
  import CdrLimits
  import opened Session
  import opened Client
  import opened Gateway
  import opened LinkItems
  import opened LinkClient
  import opened Link
  import opened Heartbeats
  import opened LinkHeartbeats
  import opened CallWitness

  const UP := State(Ready, map[], Some(1))

  /** Heartbeat `k` of the client is on its way up, and nothing else is in flight. */
  predicate Circling(t: System, k: nat) {
    && t.live && !t.engine.closed && t.engine.session == UP && t.gate.session == UP
    && t.engine.slab.retained == map[] && t.engine.slab.leases == map[]
    && t.up == [Said(t.gate.controlIn, Heartbeat(k))] && t.down == [] && t.engine.heartbeats == k
    && t.engine.controlOut == t.gate.controlIn + 1 && t.engine.controlIn == t.gate.controlOut
  }

  lemma {:induction false} FirstBeat(host: CdrLimits.Host) returns (steps: seq<Step>, t: System)
    ensures Leads(host, steps, t, []) && Circling(t, 1)
  {
    hide Leads;
    steps, t := SessionIsUp(host);
    steps, t := OwnTurn(host, steps, t, [], Timer(0, true));
    steps, t := OwnTurn(host, steps, t, [], Timer(15_000, true));
  }

  lemma {:induction false} GateAnswers(g: Gate, k: nat)
    requires g.session == UP
    ensures var u := HandleInbound(g, Said(g.controlIn, Heartbeat(k)), Obliging());
            && u.g == g.(controlIn := g.controlIn + 1, heartbeats := g.heartbeats + 1, controlOut := g.controlOut + 1)
            && u.r == Reply([Said(g.controlOut, Heartbeat(g.heartbeats + 1))], false, [])
  {
    hide FailSession;
    HeartbeatAlwaysLegal(UP, g.controlIn, k, ClientRole);
    HeartbeatAlwaysLegal(UP, g.controlOut, g.heartbeats + 1, ServerRole);
  }

  lemma {:induction false} ClientAnswers(t: Client.Turn, k: nat)
    requires t.c.session == UP && !t.c.closed && t.o == NO_OUTCOME && t.c.slab.retained == map[] && t.c.slab.leases == map[]
    ensures var u := HandleEvent(t, WsBytes(0, [], FrameParsed(ControlFrame(t.c.controlIn, Heartbeat(k))), true));
            && u.c == t.c.(slab := u.c.slab, controlIn := t.c.controlIn + 1, heartbeats := t.c.heartbeats + 1, controlOut := t.c.controlOut + 1)
            && Messages(u.o.outbound) == [Said(t.c.controlOut, Heartbeat(t.c.heartbeats + 1))]
            && Sweep(u.c.slab).retained == map[] && Sweep(u.c.slab).leases == map[]
  {
    HeartbeatAlwaysLegal(UP, t.c.controlIn, k, ServerRole);
    HeartbeatAlwaysLegal(UP, t.c.controlOut, t.c.heartbeats + 1, ClientRole);
  }

  lemma {:induction false} OnceAround(host: CdrLimits.Host, before: seq<Step>, s: System, k: nat) returns (steps: seq<Step>, t: System)
    requires Leads(host, before, s, []) && Circling(s, k)
    ensures Leads(host, steps, t, []) && Circling(t, k + 1)
  {
    hide Leads, HandleEvent, HandleInbound, Sweep;
    GateAnswers(s.gate, k);
    steps, t := TakesTurn(host, before, s, []);
    assert t.down == [Said(s.gate.controlOut, Heartbeat(s.gate.heartbeats + 1))];
    ClientAnswers(Client.Turn(t.engine, NO_OUTCOME), s.gate.heartbeats + 1);
    steps, t := DeliveryTurn(host, steps, t, [], FrameParsed(ControlFrame(s.gate.controlOut, Heartbeat(s.gate.heartbeats + 1))));
  }

  /** However many are asked for: a run in which one heartbeat was due, and the client has sent
      that many more in answer to answers. */
  lemma {:induction false} OneBeatGoesOn(host: CdrLimits.Host, n: nat) returns (steps: seq<Step>, t: System)
    ensures Reaches(Link.Start(host), steps, t) && DueOver(Link.Start(host), steps) == 1
    ensures Leads(host, steps, t, []) && Circling(t, n + 1)
  {
    hide DueOver, Reaches;
    if n == 0 {
      steps, t := FirstBeat(host);
    } else {
      steps, t := OneBeatGoesOn(host, n - 1);
      steps, t := OnceAround(host, steps, t, n);
    }
    BeatsOne(t.up[0]);
    HeartbeatsNeverEnd(host, steps, t);
  }
}
