/** Leases and buffers over every run of the client engine. */
module ClientLaws {
  import opened ByteOrder
  import opened CdrLimits
  import opened Session
  import opened Client

  // ---------------------------------------------------------------- the slab invariant

  /** The leases that point into buffer `b`. */
  function LeasesOn(s: Slab, b: nat): set<nat> {
    set l | l in s.leases && s.leases[l].bufferId == b
  }

  predicate LeaseSound(s: Slab, l: nat)
    requires l in s.leases
  {
    var lease := s.leases[l];
    && l < s.nextLease && lease.bufferId in s.retained
    && lease.offset + lease.len <= s.retained[lease.bufferId].declaredLen
  }

  /** Reference counts are exact, and a buffer never has two leases. */
  predicate BufferSound(s: Slab, b: nat)
    requires b in s.retained
  {
    && 0 < b < s.nextBuffer
    && s.retained[b].leaseRefs == |LeasesOn(s, b)| <= 1
  }

  /** The slab, while buffer `open` may still be in use by the event that brought it. */
  ghost predicate SoundBut(s: Slab, open: nat) {
    && (forall l :: l in s.leases ==> LeaseSound(s, l))
    && (forall b :: b in s.retained ==> BufferSound(s, b))
    && (forall b :: b in s.retained && b != open ==> s.retained[b].ingestDone)
  }

  ghost predicate Sound(s: Slab) {
    && (forall l :: l in s.leases ==> LeaseSound(s, l))
    && (forall b :: b in s.retained ==> BufferSound(s, b) && s.retained[b].ingestDone)
  }

  /** Neither id counter is at its ceiling. */
  predicate Roomy(s: Slab) {
    s.nextBuffer < U32_MAX && s.nextLease < U32_MAX
  }

  /** The host names no buffer, or one that is not retained. */
  predicate FreshName(s: Slab, bufferId: nat) {
    bufferId == 0 || (bufferId !in s.retained && bufferId < U32_MAX)
  }

  lemma {:induction false} SameLeases(s: Slab, t: Slab, b: nat)
    requires s.leases == t.leases
    ensures LeasesOn(s, b) == LeasesOn(t, b)
  {
  }

  lemma {:induction false} NoLeaseOn(s: Slab, b: nat)
    requires Sound(s) && b !in s.retained
    ensures LeasesOn(s, b) == {}
  {
    forall l | l in s.leases ensures s.leases[l].bufferId != b {
      assert LeaseSound(s, l);
    }
  }

  lemma {:induction false} IngestSound(s: Slab, bufferId: nat, host: Host, bytes: seq<byte>)
    requires Sound(s) && Roomy(s) && bufferId < U32_MAX
    requires bufferId != 0 ==> LeasesOn(s, bufferId) == {}
    requires s.nextBuffer > 0
    ensures var (t, id) := Ingest(s, bufferId, host, bytes);
            && SoundBut(t, id) && id in t.retained && LeasesOn(t, id) == {} && t.leases == s.leases
            && t.nextLease == s.nextLease && t.nextBuffer > 0
            && t.retained[id].declaredLen == DeclaredLen(host, bytes)
            && t.retained.Keys == s.retained.Keys + {id} && (bufferId == 0 ==> id !in s.retained) && (bufferId != 0 ==> id == bufferId)
            && (forall b :: b in s.retained && b != id ==> t.retained[b] == s.retained[b])
  {
    hide DeclaredLen;
    var (t, id) := Ingest(s, bufferId, host, bytes);
    if bufferId == 0 {
      NoLeaseOn(s, id);
    }
    SameLeases(s, t, id);
    forall l | l in t.leases ensures LeaseSound(t, l) {
      assert LeaseSound(s, l);
      assert s.leases[l].bufferId == id <==> l in LeasesOn(s, id);
    }
    forall b | b in t.retained ensures BufferSound(t, b) && (b != id ==> t.retained[b].ingestDone) {
      SameLeases(s, t, b);
      if b != id {
        assert BufferSound(s, b);
      }
    }
  }

  lemma {:induction false} GrantLeases(s: Slab, id: nat, offset: nat, len: nat, b: nat)
    requires s.nextLease !in s.leases
    ensures LeasesOn(Grant(s, id, offset, len), b) == LeasesOn(s, b) + if b == id then {s.nextLease} else {}
  {
  }

  lemma {:induction false} GrantSound(s: Slab, id: nat, offset: nat, len: nat)
    requires SoundBut(s, id) && id in s.retained && LeasesOn(s, id) == {} && s.nextLease < U32_MAX
    requires offset + len <= s.retained[id].declaredLen
    ensures SoundBut(Grant(s, id, offset, len), id)
  {
    var t := Grant(s, id, offset, len);
    FreshLease(s, id);
    forall l | l in t.leases ensures LeaseSound(t, l) {
      if l != s.nextLease {
        assert LeaseSound(s, l);
      }
    }
    forall b | b in t.retained ensures BufferSound(t, b) && (b != id ==> t.retained[b].ingestDone) {
      assert BufferSound(s, b);
      GrantLeases(s, id, offset, len, b);
    }
  }

  lemma {:induction false} FinishSound(s: Slab, id: nat)
    requires SoundBut(s, id)
    ensures Sound(FinishIngest(s, id))
  {
    var t := FinishIngest(s, id);
    forall l | l in t.leases ensures LeaseSound(t, l) {
      assert LeaseSound(s, l);
    }
    forall b | b in t.retained ensures BufferSound(t, b) && t.retained[b].ingestDone {
      assert BufferSound(s, b);
      SameLeases(s, t, b);
    }
  }

  lemma {:induction false} BumpSound(s: Slab, id: nat)
    requires s.nextBuffer <= U32_MAX
    ensures Sound(s) ==> Sound(s.(nextBuffer := Bump(s.nextBuffer)))
    ensures SoundBut(s, id) ==> SoundBut(s.(nextBuffer := Bump(s.nextBuffer)), id)
  {
    var t := s.(nextBuffer := Bump(s.nextBuffer));
    if SoundBut(s, id) || Sound(s) {
      forall l | l in t.leases ensures LeaseSound(t, l) {
        assert LeaseSound(s, l);
      }
      forall b | b in t.retained ensures BufferSound(t, b) {
        assert BufferSound(s, b);
        SameLeases(s, t, b);
      }
    }
  }

  lemma {:induction false} ReleaseLeases(s: Slab, l: nat, b: nat)
    ensures LeasesOn(Release(s, l), b) == LeasesOn(s, b) - {l}
  {
  }

  lemma {:induction false} ReleaseSound(s: Slab, l: nat)
    requires Sound(s)
    ensures Sound(Release(s, l))
  {
    var t := Release(s, l);
    if l in s.leases {
      assert LeaseSound(s, l);
      forall k | k in t.leases ensures LeaseSound(t, k) {
        assert LeaseSound(s, k);
      }
      forall b | b in t.retained ensures BufferSound(t, b) && t.retained[b].ingestDone {
        assert BufferSound(s, b);
        ReleaseLeases(s, l, b);
        if s.leases[l].bufferId == b {
          assert l in LeasesOn(s, b);
        } else {
          assert l !in LeasesOn(s, b) && LeasesOn(s, b) - {l} == LeasesOn(s, b);
        }
      }
    }
  }

  lemma {:induction false} SweepSound(s: Slab)
    requires Sound(s)
    ensures Sound(Sweep(s))
    ensures forall b :: b in Sweep(s).retained ==> |LeasesOn(Sweep(s), b)| == 1
  {
    var t := Sweep(s);
    forall l | l in t.leases ensures LeaseSound(t, l) {
      assert LeaseSound(s, l);
      var b := s.leases[l].bufferId;
      assert BufferSound(s, b) && l in LeasesOn(s, b);
    }
    forall b | b in t.retained ensures BufferSound(t, b) && t.retained[b].ingestDone && |LeasesOn(t, b)| == 1 {
      assert BufferSound(s, b);
      SameLeases(s, t, b);
    }
  }

  // ---------------------------------------------------------------- events on the slab

  /** What handling a frame may do to the slab: nothing, use up a buffer id for a reply, or
      grant one lease inside the declared length. */
  ghost predicate SlabMove(s: Slab, t: Slab, id: nat, declared: nat) {
    || t == s
    || t == s.(nextBuffer := Bump(s.nextBuffer))
    || exists offset: nat, len: nat :: Granted(s, t, id, declared, offset, len)
  }

  predicate Granted(s: Slab, t: Slab, id: nat, declared: nat, offset: nat, len: nat) {
    offset + len <= declared && t == Grant(s, id, offset, len)
  }

  predicate Bumped(s: Slab, t: Slab) {
    t == s || t == s.(nextBuffer := Bump(s.nextBuffer))
  }

  lemma {:induction false} ControlSlab(t: Turn, msg: Control, fx: Effects, encodes: bool)
    ensures Bumped(t.c.slab, HandleControl(t, msg, fx, encodes).c.slab)
  {
    hide PushControl, Tell, Fail;
    if msg.Heartbeat? {
      var u := Tell(t, HeartbeatSeen(msg.counter));
      var v := u.(c := u.c.(heartbeats := u.c.heartbeats + 1));
      PushSlab(v, Heartbeat(v.c.heartbeats), encodes);
    }
  }

  lemma {:induction false} FrameSlab(t: Turn, id: nat, declared: nat, parsed: Parsed, encodes: bool)
    ensures SlabMove(t.c.slab, HandleFrame(t, id, declared, parsed, encodes).c.slab, id, declared)
  {
    hide ApplyFrame, HandleControl, Grant, Tell, Fail;
    if parsed.FrameParsed? {
      var f := parsed.frame;
      var a := ApplyFrame(t.c.session, f, ServerRole);
      if a.Accepted? {
        var u := t.(c := t.c.(session := a.state));
        if f.opcode.ControlCbor? {
          if f.payload.ControlPayload? {
            ControlSlab(u.(c := u.c.(controlIn := u.c.controlIn + 1)), f.payload.msg, a.effects, encodes);
          }
        } else if !f.opcode.Media? {
          var offset := FRAME_HEADER_LENGTH + f.extensionLen;
          var v := HandleData(u, id, f, declared);
          assert v.c.slab == t.c.slab || Granted(t.c.slab, v.c.slab, id, declared, offset, f.payloadLen);
        }
      }
    }
  }

  lemma {:induction false} BootstrapSlab(t: Turn, parsed: Parsed)
    ensures HandleBootstrap(t, parsed).c.slab == t.c.slab
  {
    hide ApplyBootstrap, Tell, Fail;
    if parsed.BootRecord? {
      var a := ApplyBootstrap(t.c.session, parsed.record, ServerRole);
      if a.Accepted? {
        var u := t.(c := t.c.(session := a.state));
        assert u.c.slab == t.c.slab;
      }
    }
  }

  lemma {:induction false} SampleSlab(t: Turn, ch: nat, payloadLen: nat, frames: bool)
    ensures Bumped(t.c.slab, SendSamplePayload(t, ch, payloadLen, frames).c.slab)
  {
    hide ApplyFrame, Tell;
  }

  lemma {:induction false} OperationSlab(t: Turn, ch: nat, op: OperationCode, id: OperationId, payloadLen: nat, frames: bool)
    ensures Bumped(t.c.slab, SendOperationFrame(t, ch, op, id, payloadLen, frames).c.slab)
  {
    hide ApplyFrame, Tell, NextOp, SentReliable;
  }

  /** Commands and timers touch no buffer and no lease. */
  lemma {:induction false} CommandSlab(t: Turn, cmd: Command)
    ensures Bumped(t.c.slab, HandleCommand(t, cmd).c.slab)
  {
    hide PushControl, SendSamplePayload, SendOperationFrame, ApplyBootstrap, Tell, Fail;
    match cmd
    case Start(_) =>
    case Login(encodes) => PushSlab(t, Authenticate, encodes);
    case OpenCommand(ch, kind, reliability, depth, _, encodes) =>
      PushSlab(t, OpenRequest(ch, kind, RequestedReliability(kind, reliability), depth), encodes);
    case SendSample(ch, payloadLen, _, frames) => SampleSlab(t, ch, payloadLen, frames);
    case SendOperation(ch, op, id, payloadLen, _, frames) => OperationSlab(t, ch, op, id, payloadLen, frames);
    case Unsubscribe(ch, encodes) => PushSlab(t, CloseChannel(ch), encodes);
    case Shutdown =>
  }

  lemma {:induction false} TimerSlab(t: Turn, now: nat, encodes: bool)
    ensures Bumped(t.c.slab, HandleTimer(t, now, encodes).c.slab)
  {
    hide PushControl;
    var u := t.(c := t.c.(lastTimer := Some(now)));
    var v := u.(c := u.c.(heartbeats := u.c.heartbeats + 1));
    PushSlab(v, Heartbeat(v.c.heartbeats), encodes);
  }

  lemma {:induction false} PushSlab(t: Turn, msg: Control, encodes: bool)
    ensures Bumped(t.c.slab, PushControl(t, msg, encodes).turn.c.slab)
  {
    hide ApplyFrame;
  }

  lemma {:induction false} MoveSound(s: Slab, t: Slab, id: nat, declared: nat)
    requires SlabMove(s, t, id, declared) && SoundBut(s, id) && id in s.retained && LeasesOn(s, id) == {}
    requires s.nextLease < U32_MAX && s.nextBuffer <= U32_MAX && s.retained[id].declaredLen == declared
    ensures SoundBut(t, id)
    ensures id in t.retained && t.retained.Keys == s.retained.Keys
    ensures forall b :: b in s.retained && b != id ==> t.retained[b] == s.retained[b]
    ensures forall l :: l in s.leases ==> l in t.leases && t.leases[l] == s.leases[l]
  {
    hide SoundBut;
    BumpSound(s, id);
    if exists offset: nat, len: nat :: Granted(s, t, id, declared, offset, len) {
      var offset: nat, len: nat :| Granted(s, t, id, declared, offset, len);
      GrantSound(s, id, offset, len);
      assert s.nextLease !in s.leases by {
        FreshLease(s, id);
      }
    }
  }

  lemma {:induction false} FreshLease(s: Slab, id: nat)
    requires SoundBut(s, id)
    ensures s.nextLease !in s.leases
  {
    forall l | l in s.leases ensures l != s.nextLease {
      assert LeaseSound(s, l);
    }
  }

  // ---------------------------------------------------------------- events on leases

  /** Everything a host may do to a buffer name without harm. */
  predicate SafeEvent(t: Turn, e: HostEvent) {
    Roomy(t.c.slab) && (e.WsBytes? ==> FreshName(t.c.slab, e.bufferId))
  }

  /** Inbound bytes, when the name is not one a lease still points into. */
  lemma {:induction false} BytesSound(t: Turn, e: HostEvent)
    requires e.WsBytes? && Sound(t.c.slab) && Roomy(t.c.slab) && t.c.slab.nextBuffer > 0 && e.bufferId < U32_MAX
    requires e.bufferId != 0 ==> LeasesOn(t.c.slab, e.bufferId) == {}
    ensures var u := HandleEvent(t, e).c.slab;
            var id := Ingest(t.c.slab, e.bufferId, t.c.host, e.bytes).1;
            && Sound(u) && u.nextBuffer > 0 && u.retained.Keys == t.c.slab.retained.Keys + {id}
            && (e.bufferId == 0 ==> id !in t.c.slab.retained) && (e.bufferId != 0 ==> id == e.bufferId)
            && (forall b :: b in t.c.slab.retained && b != id ==> u.retained[b] == t.c.slab.retained[b])
            && (forall l :: l in t.c.slab.leases ==> l in u.leases && u.leases[l] == t.c.slab.leases[l])
  {
    hide HandleBootstrap, HandleFrame, DeclaredLen, Ingest, Sound, SoundBut, SlabMove, FinishIngest, LeasesOn;
    var (s, id) := Ingest(t.c.slab, e.bufferId, t.c.host, e.bytes);
    IngestSound(t.c.slab, e.bufferId, t.c.host, e.bytes);
    IngestRoom(t.c.slab, e.bufferId, t.c.host, e.bytes);
    var u := t.(c := t.c.(slab := s));
    var declared := DeclaredLen(t.c.host, e.bytes);
    BootstrapSlab(u, e.parsed);
    FrameSlab(u, id, declared, e.parsed, e.replyEncodes);
    NoMove(s, id, declared);
    var v := if !t.c.session.phase.InSelectedPlane() then HandleBootstrap(u, e.parsed) else HandleFrame(u, id, declared, e.parsed, e.replyEncodes);
    MoveSound(s, v.c.slab, id, declared);
    MoveRoom(s, v.c.slab, id, declared);
    FinishSound(v.c.slab, id);
    FinishKeeps(v.c.slab, id);
  }

  lemma {:induction false} NoMove(s: Slab, id: nat, declared: nat)
    ensures SlabMove(s, s, id, declared)
  {
  }

  lemma {:induction false} IngestRoom(s: Slab, bufferId: nat, host: Host, bytes: seq<byte>)
    requires Roomy(s) && bufferId < U32_MAX
    ensures Ingest(s, bufferId, host, bytes).0.nextBuffer <= U32_MAX && Ingest(s, bufferId, host, bytes).0.nextLease < U32_MAX
  {
    hide DeclaredLen;
  }

  lemma {:induction false} MoveRoom(s: Slab, t: Slab, id: nat, declared: nat)
    requires SlabMove(s, t, id, declared) && s.nextBuffer > 0
    ensures t.nextBuffer > 0
  {
  }

  lemma {:induction false} FinishKeeps(s: Slab, id: nat)
    ensures var t := FinishIngest(s, id);
            && t.leases == s.leases && t.nextBuffer == s.nextBuffer && t.retained.Keys == s.retained.Keys
            && forall b :: b in s.retained && b != id ==> t.retained[b] == s.retained[b]
  {
  }

  /** Naming a buffer a live lease points into loses the count: bytes under any name keep
      the slab sound iff no lease is outstanding on that name. */
  lemma {:induction false} NamingLeasedBufferBreaks(t: Turn, e: HostEvent)
    requires e.WsBytes? && Sound(t.c.slab) && Roomy(t.c.slab) && t.c.slab.nextBuffer > 0 && 0 < e.bufferId < U32_MAX
    ensures Sound(HandleEvent(t, e).c.slab) <==> LeasesOn(t.c.slab, e.bufferId) == {}
  {
    hide HandleBootstrap, HandleFrame, DeclaredLen, Sound, Ingest;
    if LeasesOn(t.c.slab, e.bufferId) == {} {
      BytesSound(t, e);
    } else {
      var (s, id) := Ingest(t.c.slab, e.bufferId, t.c.host, e.bytes);
      var u := t.(c := t.c.(slab := s));
      var declared := DeclaredLen(t.c.host, e.bytes);
      BootstrapSlab(u, e.parsed);
      FrameSlab(u, id, declared, e.parsed, e.replyEncodes);
      NoMove(s, id, declared);
      var v := if !t.c.session.phase.InSelectedPlane() then HandleBootstrap(u, e.parsed) else HandleFrame(u, id, declared, e.parsed, e.replyEncodes);
      IngestNamed(t.c.slab, e.bufferId, t.c.host, e.bytes);
      StaleCount(t.c.slab, e.bufferId, t.c.host, e.bytes, v.c.slab, declared);
    }
  }

  lemma {:induction false} IngestNamed(s: Slab, b: nat, host: Host, bytes: seq<byte>)
    requires b != 0
    ensures Ingest(s, b, host, bytes).1 == b
  {
  }

  lemma {:induction false} StaleCount(s: Slab, b: nat, host: Host, bytes: seq<byte>, t: Slab, declared: nat)
    requires Sound(s) && b != 0 && LeasesOn(s, b) != {}
    requires SlabMove(Ingest(s, b, host, bytes).0, t, b, declared)
    ensures Ingest(s, b, host, bytes).1 == b && !Sound(FinishIngest(t, b))
  {
    hide DeclaredLen;
    var i := Ingest(s, b, host, bytes).0;
    var u := FinishIngest(t, b);
    assert i.retained[b].leaseRefs == 0 && i.leases == s.leases;
    assert s.nextLease !in s.leases by {
      FreshLease(s, b);
    }
    SameLeases(s, i, b);
    SameLeases(t, u, b);
    if exists offset: nat, len: nat :: Granted(i, t, b, declared, offset, len) {
      var offset: nat, len: nat :| Granted(i, t, b, declared, offset, len);
      GrantLeases(i, b, offset, len, b);
      assert s.nextLease !in LeasesOn(s, b);
      assert |LeasesOn(u, b)| == |LeasesOn(s, b)| + 1 && u.retained[b].leaseRefs == 1;
    } else {
      SameLeases(i, t, b);
    }
    assert !BufferSound(u, b);
  }

  /** One event, whatever it is, keeps the slab sound. */
  lemma {:induction false} EventSound(t: Turn, e: HostEvent)
    requires Sound(t.c.slab) && t.c.slab.nextBuffer > 0 && SafeEvent(t, e)
    ensures Sound(HandleEvent(t, e).c.slab) && HandleEvent(t, e).c.slab.nextBuffer > 0
  {
    hide Sound, HandleWsBytes, HandleCommand, HandleTimer;
    match e
    case WsBytes(b, _, _, _) =>
      if b != 0 {
        NoLeaseOn(t.c.slab, b);
      }
      BytesSound(t, e);
    case Timer(now, encodes) =>
      TimerSlab(t, now, encodes);
      BumpSound(t.c.slab, 0);
    case Issue(cmd) =>
      CommandSlab(t, cmd);
      BumpSound(t.c.slab, 0);
    case ReleaseLease(l) => ReleaseSound(t.c.slab, l);
  }

  /** `l` is an outstanding lease and its buffer is retained. */
  predicate Live(s: Slab, l: nat) {
    l in s.leases && s.leases[l].bufferId in s.retained
  }

  /** What the holder of lease `l` relies on. */
  predicate SameHold(s: Slab, t: Slab, l: nat)
    requires Live(s, l)
  {
    && Live(t, l) && t.leases[l] == s.leases[l]
    && t.retained[s.leases[l].bufferId].bytes == s.retained[s.leases[l].bufferId].bytes
    && t.retained[s.leases[l].bufferId].declaredLen == s.retained[s.leases[l].bufferId].declaredLen
  }

  /** One event leaves a lease alone unless it releases that very lease. */
  lemma {:induction false} EventHolds(t: Turn, e: HostEvent, l: nat)
    requires Sound(t.c.slab) && t.c.slab.nextBuffer > 0 && SafeEvent(t, e) && Live(t.c.slab, l) && e != ReleaseLease(l)
    ensures SameHold(t.c.slab, HandleEvent(t, e).c.slab, l)
  {
    hide Sound, HandleWsBytes, HandleCommand, HandleTimer;
    match e
    case WsBytes(b, _, _, _) =>
      if b != 0 {
        NoLeaseOn(t.c.slab, b);
      }
      BytesSound(t, e);
    case Timer(now, encodes) => TimerSlab(t, now, encodes);
    case Issue(cmd) => CommandSlab(t, cmd);
    case ReleaseLease(_) =>
  }

  // ---------------------------------------------------------------- whole turns

  predicate SafeBatch(t: Turn, events: seq<HostEvent>)
    decreases |events|
  {
    events == [] || t.c.closed || (SafeEvent(t, events[0]) && SafeBatch(HandleEvent(t, events[0]), events[1..]))
  }

  predicate NeverReleases(events: seq<HostEvent>, l: nat) {
    forall i :: 0 <= i < |events| ==> events[i] != ReleaseLease(l)
  }

  /** The buffer ids the batch's inbound bytes went into, as far as it was processed. */
  function Ingested(t: Turn, events: seq<HostEvent>): multiset<nat>
    decreases |events|
  {
    if events == [] || t.c.closed then multiset{}
    else
      var rest := Ingested(HandleEvent(t, events[0]), events[1..]);
      if events[0].WsBytes? then multiset{Ingest(t.c.slab, events[0].bufferId, t.c.host, events[0].bytes).1} + rest else rest
  }

  lemma {:induction false} BatchSound(t: Turn, events: seq<HostEvent>)
    requires Sound(t.c.slab) && t.c.slab.nextBuffer > 0 && SafeBatch(t, events)
    ensures Sound(HandleAll(t, events).c.slab) && HandleAll(t, events).c.slab.nextBuffer > 0
    ensures multiset(HandleAll(t, events).c.slab.retained.Keys) == multiset(t.c.slab.retained.Keys) + Ingested(t, events)
    decreases |events|
  {
    hide Sound, HandleEvent;
    if events != [] && !t.c.closed {
      EventSound(t, events[0]);
      EventKeys(t, events[0]);
      BatchSound(HandleEvent(t, events[0]), events[1..]);
    }
  }

  lemma {:induction false} EventKeys(t: Turn, e: HostEvent)
    requires Sound(t.c.slab) && t.c.slab.nextBuffer > 0 && SafeEvent(t, e)
    ensures multiset(HandleEvent(t, e).c.slab.retained.Keys) ==
            multiset(t.c.slab.retained.Keys)
            + (if e.WsBytes? then multiset{Ingest(t.c.slab, e.bufferId, t.c.host, e.bytes).1} else multiset{})
  {
    hide Sound, HandleWsBytes, HandleCommand, HandleTimer;
    match e
    case WsBytes(b, _, _, _) =>
      if b != 0 {
        NoLeaseOn(t.c.slab, b);
      }
      BytesSound(t, e);
    case Timer(now, encodes) => TimerSlab(t, now, encodes);
    case Issue(cmd) => CommandSlab(t, cmd);
    case ReleaseLease(l) => assert Release(t.c.slab, l).retained.Keys == t.c.slab.retained.Keys;
  }

  lemma {:induction false} BatchHolds(t: Turn, events: seq<HostEvent>, l: nat)
    requires Sound(t.c.slab) && t.c.slab.nextBuffer > 0 && SafeBatch(t, events) && Live(t.c.slab, l) && NeverReleases(events, l)
    ensures SameHold(t.c.slab, HandleAll(t, events).c.slab, l)
    decreases |events|
  {
    hide Sound, HandleEvent;
    if events != [] && !t.c.closed {
      EventSound(t, events[0]);
      EventHolds(t, events[0], l);
      BatchHolds(HandleEvent(t, events[0]), events[1..], l);
    }
  }

  predicate SafePoll(c: Engine, events: seq<HostEvent>) {
    c.closed || SafeBatch(Turn(c, NO_OUTCOME), Batch(events))
  }

  function BufferIds(released: set<Released>): set<nat> {
    set r | r in released :: r.bufferId
  }

  lemma {:induction false} SweepSplits(s: Slab)
    ensures multiset(s.retained.Keys) == multiset(Sweep(s).retained.Keys) + multiset(BufferIds(Swept(s)))
  {
    var kept, gone := Sweep(s).retained.Keys, BufferIds(Swept(s));
    forall b ensures b in gone <==> b in s.retained && Idle(s.retained[b]) {
      if b in s.retained && Idle(s.retained[b]) {
        assert Released(b, |s.retained[b].bytes|) in Swept(s);
      }
    }
    assert kept !! gone && s.retained.Keys == kept + gone;
  }

  /** After a turn of an open engine: counts are exact, every retained buffer has exactly
      one lease, and what came in equals what was reported plus what is still retained. */
  lemma {:induction false} PollSound(c: Engine, events: seq<HostEvent>)
    requires Sound(c.slab) && c.slab.nextBuffer > 0 && SafePoll(c, events)
    ensures Sound(Poll(c, events).c.slab) && Poll(c, events).c.slab.nextBuffer > 0
    ensures !c.closed ==>
      && (forall b :: b in Poll(c, events).c.slab.retained ==> |LeasesOn(Poll(c, events).c.slab, b)| == 1)
      && multiset(c.slab.retained.Keys) + Ingested(Turn(c, NO_OUTCOME), Batch(events)) ==
         multiset(Poll(c, events).c.slab.retained.Keys) + multiset(BufferIds(Poll(c, events).o.released))
  {
    hide Sound, HandleAll, Sweep, Swept, LeasesOn, Batch;
    if !c.closed {
      BatchSound(Turn(c, NO_OUTCOME), Batch(events));
      var s := HandleAll(Turn(c, NO_OUTCOME), Batch(events)).c.slab;
      SweepSound(s);
      SweepSplits(s);
      assert Sweep(s).nextBuffer == s.nextBuffer by {
        SweepKeepsCounters(s);
      }
    }
  }

  lemma {:induction false} SweepKeepsCounters(s: Slab)
    ensures Sweep(s).nextBuffer == s.nextBuffer && Sweep(s).nextLease == s.nextLease && Sweep(s).leases == s.leases
  {
  }

  /** A turn holds a lease: same record, same bytes, and its buffer not reported released. */
  lemma {:induction false} PollHolds(c: Engine, events: seq<HostEvent>, l: nat)
    requires Sound(c.slab) && c.slab.nextBuffer > 0 && SafePoll(c, events) && Live(c.slab, l) && NeverReleases(Batch(events), l)
    ensures SameHold(c.slab, Poll(c, events).c.slab, l)
    ensures c.slab.leases[l].bufferId !in BufferIds(Poll(c, events).o.released)
  {
    hide Sound, HandleAll, Batch;
    if !c.closed {
      BatchSound(Turn(c, NO_OUTCOME), Batch(events));
      BatchHolds(Turn(c, NO_OUTCOME), Batch(events), l);
      SweepHolds(HandleAll(Turn(c, NO_OUTCOME), Batch(events)).c.slab, l);
    }
  }

  lemma {:induction false} SweepHolds(s: Slab, l: nat)
    requires Sound(s) && Live(s, l)
    ensures SameHold(s, Sweep(s), l) && s.leases[l].bufferId !in BufferIds(Swept(s))
  {
    var b := s.leases[l].bufferId;
    assert BufferSound(s, b) && l in LeasesOn(s, b);
    assert !Idle(s.retained[b]);
  }

  // ---------------------------------------------------------------- whole runs

  function Run(c: Engine, polls: seq<seq<HostEvent>>): Engine
    decreases |polls|
  {
    if polls == [] then c else Run(Poll(c, polls[0]).c, polls[1..])
  }

  /** The outcome of each turn of the run. */
  function Outcomes(c: Engine, polls: seq<seq<HostEvent>>): (os: seq<Outcome>)
    ensures |os| == |polls|
    decreases |polls|
  {
    if polls == [] then [] else [Poll(c, polls[0]).o] + Outcomes(Poll(c, polls[0]).c, polls[1..])
  }

  predicate SafeRun(c: Engine, polls: seq<seq<HostEvent>>)
    decreases |polls|
  {
    polls == [] || (SafePoll(c, polls[0]) && SafeRun(Poll(c, polls[0]).c, polls[1..]))
  }

  function AllIngested(c: Engine, polls: seq<seq<HostEvent>>): multiset<nat>
    decreases |polls|
  {
    if polls == [] then multiset{}
    else
      (if c.closed then multiset{} else Ingested(Turn(c, NO_OUTCOME), Batch(polls[0])))
      + AllIngested(Poll(c, polls[0]).c, polls[1..])
  }

  function AllReleased(c: Engine, polls: seq<seq<HostEvent>>): multiset<nat>
    decreases |polls|
  {
    if polls == [] then multiset{}
    else multiset(BufferIds(Poll(c, polls[0]).o.released)) + AllReleased(Poll(c, polls[0]).c, polls[1..])
  }

  /** Every retained buffer has exactly one lease. */
  predicate OneLeaseEach(s: Slab) {
    forall b :: b in s.retained ==> |LeasesOn(s, b)| == 1
  }

  /** Exact counts and conservation over every run: reference counts are exact, retained
      buffers and outstanding leases are in bijection after each turn, and every ingested
      buffer was either reported released or is still leased, counted exactly. */
  lemma {:induction false} RunSound(c: Engine, polls: seq<seq<HostEvent>>)
    requires Sound(c.slab) && c.slab.nextBuffer > 0 && OneLeaseEach(c.slab) && SafeRun(c, polls)
    ensures var d := Run(c, polls);
            && Sound(d.slab) && OneLeaseEach(d.slab)
            && multiset(c.slab.retained.Keys) + AllIngested(c, polls) == AllReleased(c, polls) + multiset(d.slab.retained.Keys)
    decreases |polls|
  {
    hide Sound, Poll, LeasesOn;
    if polls != [] {
      PollSound(c, polls[0]);
      ClosedPoll(c, polls[0]);
      var d := Poll(c, polls[0]).c;
      RunSound(d, polls[1..]);
      var here := if c.closed then multiset{} else Ingested(Turn(c, NO_OUTCOME), Batch(polls[0]));
      var gone := multiset(BufferIds(Poll(c, polls[0]).o.released));
      assert multiset(c.slab.retained.Keys) + here == multiset(d.slab.retained.Keys) + gone;
      assert AllIngested(c, polls) == here + AllIngested(d, polls[1..]);
      assert AllReleased(c, polls) == gone + AllReleased(d, polls[1..]);
      Balance(multiset(c.slab.retained.Keys), here, AllIngested(d, polls[1..]), multiset(d.slab.retained.Keys), gone,
              AllReleased(d, polls[1..]), multiset(Run(d, polls[1..]).slab.retained.Keys));
    }
  }

  lemma {:induction false} Balance(before: multiset<nat>, came: multiset<nat>, later: multiset<nat>, between: multiset<nat>,
    went: multiset<nat>, goes: multiset<nat>, after: multiset<nat>)
    requires before + came == between + went && between + later == goes + after
    ensures before + (came + later) == (went + goes) + after
  {
    forall n ensures (before + (came + later))[n] == ((went + goes) + after)[n] {
      assert (before + came)[n] == (between + went)[n] && (between + later)[n] == (goes + after)[n];
    }
  }

  lemma {:induction false} ClosedPoll(c: Engine, events: seq<HostEvent>)
    ensures c.closed ==> Poll(c, events).c == c && BufferIds(Poll(c, events).o.released) == {}
  {
    hide HandleAll;
  }

  /** From a new engine: ingested equals released plus leased. */
  lemma {:induction false} BuffersAreConserved(host: Host, polls: seq<seq<HostEvent>>)
    requires SafeRun(NewEngine(host), polls)
    ensures var d := Run(NewEngine(host), polls);
            && Sound(d.slab) && OneLeaseEach(d.slab)
            && AllIngested(NewEngine(host), polls) == AllReleased(NewEngine(host), polls) + multiset(d.slab.retained.Keys)
  {
    hide Poll, Run, AllIngested, AllReleased;
    RunSound(NewEngine(host), polls);
  }

  /** Lease stability over every run: as long as no turn releases lease `l`, it stays
      outstanding with the same extent over the same bytes, its view does not change, and
      its buffer is never reported released. */
  lemma {:induction false} LeaseIsStable(c: Engine, polls: seq<seq<HostEvent>>, l: nat)
    requires Sound(c.slab) && c.slab.nextBuffer > 0 && SafeRun(c, polls) && Live(c.slab, l)
    requires forall i :: 0 <= i < |polls| ==> NeverReleases(Batch(polls[i]), l)
    ensures SameHold(c.slab, Run(c, polls).slab, l) && View(Run(c, polls).slab, l) == View(c.slab, l)
    ensures forall i :: 0 <= i < |polls| ==> c.slab.leases[l].bufferId !in BufferIds(Outcomes(c, polls)[i].released)
    decreases |polls|
  {
    hide Sound, Poll, NeverReleases, BufferIds;
    if polls != [] {
      assert NeverReleases(Batch(polls[0]), l);
      PollSound(c, polls[0]);
      PollHolds(c, polls[0], l);
      forall i | 0 <= i < |polls[1..]| ensures NeverReleases(Batch(polls[1..][i]), l) {
        assert polls[1..][i] == polls[i + 1];
      }
      LeaseIsStable(Poll(c, polls[0]).c, polls[1..], l);
      forall i | 0 <= i < |polls| ensures c.slab.leases[l].bufferId !in BufferIds(Outcomes(c, polls)[i].released) {
        if i > 0 {
          assert Outcomes(c, polls)[i] == Outcomes(Poll(c, polls[0]).c, polls[1..])[i - 1];
        }
      }
    }
  }

  /** In a sound slab every lease lies inside its buffer's declared length, and where the
      whole frame was retained the view is exactly that part of its bytes. */
  lemma {:induction false} LeaseLiesInside(s: Slab, l: nat)
    requires Sound(s) && l in s.leases
    ensures Live(s, l)
    ensures var lease := s.leases[l];
            var b := s.retained[lease.bufferId];
            && lease.offset + lease.len <= b.declaredLen
            && (|b.bytes| == b.declaredLen ==> View(s, l) == Some(b.bytes[lease.offset..lease.offset + lease.len]))
  {
    assert LeaseSound(s, l);
  }

  // ---------------------------------------------------------------- exactly once

  /** The shipped host leaves the naming of inbound buffers to the engine. */
  predicate Unnamed(events: seq<HostEvent>) {
    forall i :: 0 <= i < |events| && events[i].WsBytes? ==> events[i].bufferId == 0
  }

  /** All ids in `m` occur once and lie in `[low, high)`. */
  predicate OnceBetween(m: multiset<nat>, low: nat, high: nat) {
    forall b :: b in m ==> m[b] == 1 && low <= b < high
  }

  lemma {:induction false} EventCounter(t: Turn, e: HostEvent)
    requires Roomy(t.c.slab) && (e.WsBytes? ==> e.bufferId == 0)
    ensures var u := HandleEvent(t, e).c.slab;
            t.c.slab.nextBuffer + (if e.WsBytes? then 1 else 0) <= u.nextBuffer
  {
    hide HandleBootstrap, HandleFrame, HandleTimer, HandleCommand, DeclaredLen, SlabMove;
    match e
    case WsBytes(b, bytes, parsed, encodes) =>
      var (s, id) := Ingest(t.c.slab, b, t.c.host, bytes);
      var u := t.(c := t.c.(slab := s));
      var declared := DeclaredLen(t.c.host, bytes);
      BootstrapSlab(u, parsed);
      FrameSlab(u, id, declared, parsed, encodes);
      NoMove(s, id, declared);
      var v := if !t.c.session.phase.InSelectedPlane() then HandleBootstrap(u, parsed) else HandleFrame(u, id, declared, parsed, encodes);
      MoveCounter(s, v.c.slab, id, declared);
    case Timer(now, encodes) => TimerSlab(t, now, encodes);
    case Issue(cmd) => CommandSlab(t, cmd);
    case ReleaseLease(_) =>
  }

  lemma {:induction false} MoveCounter(s: Slab, t: Slab, id: nat, declared: nat)
    requires SlabMove(s, t, id, declared) && s.nextBuffer <= U32_MAX
    ensures s.nextBuffer <= t.nextBuffer
  {
  }

  lemma {:induction false} BatchOnce(t: Turn, events: seq<HostEvent>)
    requires SafeBatch(t, events) && Unnamed(events)
    ensures t.c.slab.nextBuffer <= HandleAll(t, events).c.slab.nextBuffer
    ensures OnceBetween(Ingested(t, events), t.c.slab.nextBuffer, HandleAll(t, events).c.slab.nextBuffer)
    decreases |events|
  {
    hide HandleEvent;
    if events != [] && !t.c.closed {
      var e := events[0];
      EventCounter(t, e);
      forall i | 0 <= i < |events[1..]| && events[1..][i].WsBytes? ensures events[1..][i].bufferId == 0 {
        assert events[i + 1] == events[1..][i];
      }
      BatchOnce(HandleEvent(t, e), events[1..]);
      if e.WsBytes? {
        assert Ingest(t.c.slab, 0, t.c.host, e.bytes).1 == t.c.slab.nextBuffer;
      }
    }
  }

  lemma {:induction false} PollOnce(c: Engine, events: seq<HostEvent>)
    requires !c.closed && SafePoll(c, events) && Unnamed(events)
    ensures c.slab.nextBuffer <= Poll(c, events).c.slab.nextBuffer
    ensures OnceBetween(Ingested(Turn(c, NO_OUTCOME), Batch(events)), c.slab.nextBuffer, Poll(c, events).c.slab.nextBuffer)
  {
    hide HandleAll, Ingested, OnceBetween, SafeBatch;
    assert Unnamed(Batch(events)) by {
      forall i | 0 <= i < |Batch(events)| && Batch(events)[i].WsBytes? ensures Batch(events)[i].bufferId == 0 {
        assert Batch(events)[i] == events[i];
      }
    }
    BatchOnce(Turn(c, NO_OUTCOME), Batch(events));
    SweepKeepsCounters(HandleAll(Turn(c, NO_OUTCOME), Batch(events)).c.slab);
  }

  lemma {:induction false} RunOnce(c: Engine, polls: seq<seq<HostEvent>>)
    requires SafeRun(c, polls) && forall i :: 0 <= i < |polls| ==> Unnamed(polls[i])
    ensures c.slab.nextBuffer <= Run(c, polls).slab.nextBuffer
    ensures OnceBetween(AllIngested(c, polls), c.slab.nextBuffer, Run(c, polls).slab.nextBuffer)
    decreases |polls|
  {
    hide Poll, Unnamed, Ingested, SafePoll;
    if polls != [] {
      var d := Poll(c, polls[0]).c;
      assert Unnamed(polls[0]);
      forall i | 0 <= i < |polls[1..]| ensures Unnamed(polls[1..][i]) {
        assert polls[1..][i] == polls[i + 1];
      }
      RunOnce(d, polls[1..]);
      ClosedPoll(c, polls[0]);
      if !c.closed {
        PollOnce(c, polls[0]);
      }
    }
  }

  /** With engine-named buffers every inbound buffer is reported released at most once over
      the whole run, and never while it is still leased. */
  lemma {:induction false} ReleasedExactlyOnce(host: Host, polls: seq<seq<HostEvent>>, b: nat)
    requires SafeRun(NewEngine(host), polls) && forall i :: 0 <= i < |polls| ==> Unnamed(polls[i])
    ensures var d := Run(NewEngine(host), polls);
            AllReleased(NewEngine(host), polls)[b] ==
            if b in AllIngested(NewEngine(host), polls) && LeasesOn(d.slab, b) == {} then 1 else 0
  {
    hide Run, AllReleased, AllIngested, NewEngine, SafeRun, Unnamed;
    BuffersAreConserved(host, polls);
    assert NewEngine(host).slab.nextBuffer == 1 by {
      NewSlab(host);
    }
    RunOnce(NewEngine(host), polls);
    var d := Run(NewEngine(host), polls);
    if b in d.slab.retained {
      assert |LeasesOn(d.slab, b)| == 1;
    } else {
      NoLeaseOn(d.slab, b);
    }
    assert AllIngested(NewEngine(host), polls)[b] ==
      AllReleased(NewEngine(host), polls)[b] + multiset(d.slab.retained.Keys)[b];
  }

  lemma {:induction false} NewSlab(host: Host)
    ensures NewEngine(host).slab == Slab(1, 1, map[], map[])
  {
  }
}
