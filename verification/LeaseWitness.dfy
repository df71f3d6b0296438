/** A concrete run of a client engine that ends with a lease outstanding, and the harm done by
    naming its buffer again. */
module LeaseWitness {
  import opened ByteOrder
  import opened CdrLimits
  import opened Session
  import opened Client
  import opened ClientLaws

  /** `polls` are safe from the start and lead to `d`. */
  ghost predicate Leads(host: Host, polls: seq<seq<HostEvent>>, d: Engine) {
    SafeRun(NewEngine(host), polls) && Run(NewEngine(host), polls) == d
  }

  lemma {:induction false} RunOn(c: Engine, polls: seq<seq<HostEvent>>, events: seq<HostEvent>)
    requires SafeRun(c, polls) && SafePoll(Run(c, polls), events)
    ensures SafeRun(c, polls + [events]) && Run(c, polls + [events]) == Poll(Run(c, polls), events).c
    decreases |polls|
  {
    hide Poll, SafePoll;
    var more := polls + [events];
    if polls == [] {
      assert more == [events] && more[1..] == [];
    } else {
      assert more[1..] == polls[1..] + [events];
      RunOn(Poll(c, polls[0]).c, polls[1..], events);
    }
  }

  /** A turn of one event. */
  lemma {:induction false} OneEvent(host: Host, polls: seq<seq<HostEvent>>, d: Engine, e: HostEvent)
    returns (more: seq<seq<HostEvent>>, n: Engine)
    requires Leads(host, polls, d) && !d.closed && SafeEvent(Turn(d, NO_OUTCOME), e)
    ensures var c := HandleEvent(Turn(d, NO_OUTCOME), e).c;
            n == c.(slab := Sweep(c.slab)) && Leads(host, more, n)
  {
    hide HandleEvent, Sweep, Run, SafeRun, SafeEvent;
    var t := Turn(d, NO_OUTCOME);
    assert [e][1..] == [] && Batch([e]) == [e];
    assert HandleAll(t, [e]) == HandleEvent(t, e);
    assert SafeBatch(HandleEvent(t, e), []) && SafePoll(d, [e]);
    more, n := polls + [[e]], Poll(d, [e]).c;
    RunOn(NewEngine(host), polls, [e]);
  }

  lemma {:induction false} AtStart(host: Host)
    ensures Leads(host, [], NewEngine(host))
  {
  }

  /** The client between turns, with nothing retained. */
  function At(host: Host, buffers: nat, session: State, controlOut: nat, controlIn: nat, pending: map<nat, PendingOpen>,
    subscribes: map<nat, PendingOpen>): Engine
  {
    Engine(host, Slab(buffers, 1, map[], map[]), session, controlOut, controlIn, pending, subscribes, map[], map[], map[], true, false,
           None, None, 0)
  }

  function Heard(bytes: seq<byte>, parsed: Parsed): HostEvent {
    WsBytes(0, bytes, parsed, true)
  }

  function SubscriptionIs(state: ChannelState): State {
    State(Ready, map[1 := Channel(state, TopicSubscribe)], None)
  }

  /** Each message is read off octets of any kind; only the sample's are looked at again. */
  lemma {:induction false} Greeted(host: Host, octets: seq<byte>) returns (polls: seq<seq<HostEvent>>, d: Engine)
    ensures Leads(host, polls, d) && d == At(host, 3, State(AwaitAuthenticate, map[], None), 0, 0, map[], map[])
  {
    hide Leads, DeclaredLen;
    AtStart(host);
    polls, d := OneEvent(host, [], NewEngine(host), Issue(Start(true)));
    assert d.slab.retained == map[];
    assert d == At(host, 2, State(AwaitServerHello, map[], None), 0, 0, map[], map[]);
    polls, d := OneEvent(host, polls, d, Heard(octets, BootRecord(ServerHello)));
    assert d.slab.retained == map[];
  }

  lemma {:induction false} SessionIsUp(host: Host, octets: seq<byte>) returns (polls: seq<seq<HostEvent>>, d: Engine)
    ensures Leads(host, polls, d) && d == At(host, 5, State(Ready, map[], None), 1, 1, map[], map[])
  {
    hide Leads, DeclaredLen;
    polls, d := Greeted(host, octets);
    polls, d := OneEvent(host, polls, d, Issue(Login(true)));
    assert d == At(host, 4, State(AwaitSessionReady, map[], None), 1, 0, map[], map[]);
    polls, d := OneEvent(host, polls, d, Heard(octets, FrameParsed(ControlFrame(0, SessionReady))));
    assert d.slab.retained == map[];
  }

  lemma {:induction false} Asked(host: Host, octets: seq<byte>) returns (polls: seq<seq<HostEvent>>, d: Engine)
    ensures Leads(host, polls, d)
    ensures d == At(host, 6, SubscriptionIs(Pending), 2, 1, map[1 := PendingOpen(TopicSubscribe, 1)], map[])
  {
    hide Leads, DeclaredLen;
    polls, d := SessionIsUp(host, octets);
    polls, d := OneEvent(host, polls, d, Issue(OpenCommand(1, TopicSubscribe, 1, 5, true, true)));
    assert d.slab.retained == map[];
  }

  lemma {:induction false} Subscribed(host: Host, octets: seq<byte>) returns (polls: seq<seq<HostEvent>>, d: Engine)
    ensures Leads(host, polls, d)
    ensures d == At(host, 7, SubscriptionIs(Active), 2, 2, map[], map[1 := PendingOpen(TopicSubscribe, 1)])
  {
    hide Leads, DeclaredLen;
    polls, d := Asked(host, octets);
    polls, d := OneEvent(host, polls, d, Heard(octets, FrameParsed(ControlFrame(1, ChannelReady(1, 0, Some(1))))));
    assert d.slab.retained == map[];
  }

  /** A sample whose payload is all of `octets` after the header. */
  function SampleOf(octets: seq<byte>): Frame
    requires |octets| >= FRAME_HEADER_LENGTH
  {
    Frame(RosSample, true, false, 1, 0, 0, |octets| - FRAME_HEADER_LENGTH, None, AppPayload)
  }

  /** A run whose every step is allowed and that ends with lease 1 into buffer 7. */
  lemma {:induction false} LeaseIsReached(host: Host, octets: seq<byte>) returns (polls: seq<seq<HostEvent>>, d: Engine)
    requires FRAME_HEADER_LENGTH <= |octets| <= host.Max() && DeclaredLen(host, octets) == |octets|
    ensures SafeRun(NewEngine(host), polls) && d == Run(NewEngine(host), polls)
    ensures Sound(d.slab) && d.slab.nextBuffer == 8 && d.slab.nextLease == 2
    ensures LeasesOn(d.slab, 7) == {1} && d.slab.leases[1].len == |octets| - FRAME_HEADER_LENGTH
  {
    hide DeclaredLen, Run, SafeRun, Sound;
    polls, d := Subscribed(host, octets);
    polls, d := OneEvent(host, polls, d, Heard(octets, FrameParsed(SampleOf(octets))));
    assert d.slab == Slab(8, 2, map[7 := Retained(octets, |octets|, 1, true)], map[1 := Lease(7, FRAME_HEADER_LENGTH, |octets| - FRAME_HEADER_LENGTH)]);
    BuffersAreConserved(host, polls);
  }

  /** From there, inbound bytes that name buffer 7 leave a slab whose counts are wrong. */
  lemma {:induction false} NamingItBreaks(host: Host, octets: seq<byte>, other: seq<byte>, parsed: Parsed, encodes: bool)
    returns (polls: seq<seq<HostEvent>>)
    requires FRAME_HEADER_LENGTH <= |octets| <= host.Max() && DeclaredLen(host, octets) == |octets|
    ensures SafeRun(NewEngine(host), polls) && Sound(Run(NewEngine(host), polls).slab)
    ensures var t := Turn(Run(NewEngine(host), polls), NO_OUTCOME);
            !Sound(HandleEvent(t, WsBytes(7, other, parsed, encodes)).c.slab)
  {
    hide DeclaredLen, Run, SafeRun, Sound, HandleEvent;
    var d;
    polls, d := LeaseIsReached(host, octets);
    NamingLeasedBufferBreaks(Turn(d, NO_OUTCOME), WsBytes(7, other, parsed, encodes));
  }
}
