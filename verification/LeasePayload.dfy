/** What a lease shows: the payload of the frame it was handed out for, and nothing else. */
module LeasePayload {
  import opened ByteOrder
  import opened CdrLimits
  import opened Session
  import opened Client

  // ---------------------------------------------------------------- how long a frame is

  /** The first 32 octets of a frame with these lengths in their header fields. */
  predicate HeadOf(head: seq<byte>, extensionLen: nat, payloadLen: nat) {
    && |head| == FRAME_HEADER_LENGTH && payloadLen <= U32_MAX && extensionLen <= 0xFFFF
    && head[24..28] == Encode(Big, payloadLen, 4) && head[28..30] == Encode(Big, extensionLen, 2)
  }

  /** A whole frame, and a header and extension kept without the payload, both count as the
      whole frame; anything else counts as the octets there are. */
  lemma {:induction false} DeclaredIs(host: Host, head: seq<byte>, rest: seq<byte>, extensionLen: nat, payloadLen: nat)
    requires HeadOf(head, extensionLen, payloadLen)
    ensures var whole := FRAME_HEADER_LENGTH + extensionLen + payloadLen;
            DeclaredLen(host, head + rest) ==
            if whole <= host.Max() && (|rest| == extensionLen || |rest| == extensionLen + payloadLen) then whole
            else FRAME_HEADER_LENGTH + |rest|
  {
    hide Encode, Decode;
    SpanValues();
    DecodeEncode(Big, payloadLen, 4);
    DecodeEncode(Big, extensionLen, 2);
    var b := head + rest;
    assert b[24..28] == head[24..28] && b[28..30] == head[28..30];
  }

  /** Less than a header counts as what it is, and a buffer never counts as less than that. */
  lemma {:induction false} DeclaredCovers(host: Host, b: seq<byte>)
    ensures |b| < FRAME_HEADER_LENGTH ==> DeclaredLen(host, b) == |b|
    ensures |b| <= DeclaredLen(host, b)
  {
    hide Decode;
  }

  // ---------------------------------------------------------------- what a lease shows

  /** A data frame the engine takes and hands out. */
  predicate HandsOut(s: State, f: Frame) {
    && ApplyFrame(s, f, ServerRole).Accepted? && !f.opcode.ControlCbor? && !f.opcode.ActionCancel? && f.payload.AppPayload?
  }

  /** The lease a turn has just handed out for `f`, to which its last event points. */
  predicate LeasedFor(t: Turn, u: Turn, f: Frame, l: nat) {
    && l == t.c.slab.nextLease && !u.c.closed
    && u.o.events == t.o.events + [Leased(f.opcode, f.channelId, l, f.sequence, f.operationId)]
  }

  /** The engine leases exactly what lies after header and extension, as long as the payload. */
  lemma {:induction false} LeaseIs(t: Turn, bufferId: nat, bytes: seq<byte>, f: Frame, encodes: bool)
    requires !t.c.closed && HandsOut(t.c.session, f)
    requires var end := FRAME_HEADER_LENGTH + f.extensionLen + f.payloadLen;
             end <= DeclaredLen(t.c.host, bytes) && end <= t.c.host.Max()
    ensures var u, l := HandleEvent(t, WsBytes(bufferId, bytes, FrameParsed(f), encodes)), t.c.slab.nextLease;
            && LeasedFor(t, u, f, l)
            && l in u.c.slab.leases && u.c.slab.leases[l].offset == FRAME_HEADER_LENGTH + f.extensionLen
            && u.c.slab.leases[l].len == f.payloadLen
            && u.c.slab.leases[l].bufferId in u.c.slab.retained && u.c.slab.retained[u.c.slab.leases[l].bufferId].bytes == bytes
  {
    hide DeclaredLen, ApplyFrame, HandleData, Ingest, FinishIngest, Grant, LeasedFor;
    var (slab, id) := Ingest(t.c.slab, bufferId, t.c.host, bytes);
    var s := t.(c := t.c.(slab := slab));
    IngestedIs(t.c.slab, bufferId, t.c.host, bytes);
    Taken(t.c.session, f);
    var v := HandleData(s, id, f, DeclaredLen(t.c.host, bytes));
    DataIs(s, id, f, DeclaredLen(t.c.host, bytes));
    GrantIs(slab, id, FRAME_HEADER_LENGTH + f.extensionLen, f.payloadLen);
    var u := HandleEvent(t, WsBytes(bufferId, bytes, FrameParsed(f), encodes));
    assert u == v.(c := v.c.(slab := FinishIngest(v.c.slab, id)));
    assert LeasedFor(t, u, f, t.c.slab.nextLease) by {
      LeaseEvent(t, s, v, u, f, id);
    }
  }

  lemma {:induction false} LeaseEvent(t: Turn, s: Turn, v: Turn, u: Turn, f: Frame, id: nat)
    requires LeasedFor(s, v, f, s.c.slab.nextLease) && s.o == t.o && s.c.slab.nextLease == t.c.slab.nextLease
    requires u == v.(c := v.c.(slab := FinishIngest(v.c.slab, id)))
    ensures LeasedFor(t, u, f, t.c.slab.nextLease)
  {
    hide FinishIngest;
  }

  /** An accepted data frame changes nothing in the session. */
  lemma {:induction false} Taken(s: State, f: Frame)
    requires HandsOut(s, f)
    ensures ApplyFrame(s, f, ServerRole).state == s && s.phase.InSelectedPlane() && !f.opcode.Media?
    ensures IsOperation(f.opcode) ==> f.operationId.Some?
  {
    assert DataLegal(s, f, ServerRole);
  }

  lemma {:induction false} IngestedIs(s: Slab, bufferId: nat, host: Host, bytes: seq<byte>)
    ensures var (t, id) := Ingest(s, bufferId, host, bytes);
            id in t.retained && t.retained[id].bytes == bytes && t.nextLease == s.nextLease
  {
    hide DeclaredLen;
  }

  lemma {:induction false} DataIs(t: Turn, id: nat, f: Frame, declared: nat)
    requires !t.c.closed && f.payload.AppPayload? && !f.opcode.ActionCancel? && (IsOperation(f.opcode) ==> f.operationId.Some?)
    requires FRAME_HEADER_LENGTH + f.extensionLen + f.payloadLen <= declared
    requires FRAME_HEADER_LENGTH + f.extensionLen + f.payloadLen <= t.c.host.Max()
    ensures var u := HandleData(t, id, f, declared);
            && LeasedFor(t, u, f, t.c.slab.nextLease)
            && u.c.slab == Grant(t.c.slab, id, FRAME_HEADER_LENGTH + f.extensionLen, f.payloadLen)
  {
    hide Grant;
  }

  lemma {:induction false} GrantIs(s: Slab, id: nat, offset: nat, len: nat)
    requires id in s.retained
    ensures var t := FinishIngest(Grant(s, id, offset, len), id);
            && s.nextLease in t.leases && t.leases[s.nextLease] == Lease(id, offset, len)
            && id in t.retained && t.retained[id].bytes == s.retained[id].bytes
  {
  }

  /** Of a frame retained whole, the lease shows the payload. */
  lemma {:induction false} LeaseShowsPayload(t: Turn, bufferId: nat, head: seq<byte>, ext: seq<byte>, payload: seq<byte>, f: Frame,
    encodes: bool)
    requires !t.c.closed && HandsOut(t.c.session, f)
    requires |head| == FRAME_HEADER_LENGTH && |ext| == f.extensionLen && |payload| == f.payloadLen
    requires |head + ext + payload| <= t.c.host.Max()
    ensures var e := WsBytes(bufferId, head + ext + payload, FrameParsed(f), encodes);
            var u, l := HandleEvent(t, e), t.c.slab.nextLease;
            LeasedFor(t, u, f, l) && View(u.c.slab, l) == Some(payload)
  {
    hide HandleEvent, DeclaredLen, ApplyFrame, LeasedFor;
    var bytes := head + ext + payload;
    DeclaredCovers(t.c.host, bytes);
    LeaseIs(t, bufferId, bytes, f, encodes);
    assert bytes[FRAME_HEADER_LENGTH + |ext|..FRAME_HEADER_LENGTH + |ext| + |payload|] == payload;
  }

  /** Of a frame whose payload stayed with the host, the lease says where it lies, and the
      engine shows nothing. */
  lemma {:induction false} LeaseOfPrefix(t: Turn, bufferId: nat, head: seq<byte>, ext: seq<byte>, f: Frame, encodes: bool)
    requires !t.c.closed && HandsOut(t.c.session, f) && f.payloadLen > 0
    requires HeadOf(head, f.extensionLen, f.payloadLen) && |ext| == f.extensionLen
    requires FRAME_HEADER_LENGTH + f.extensionLen + f.payloadLen <= t.c.host.Max()
    ensures var u, l := HandleEvent(t, WsBytes(bufferId, head + ext, FrameParsed(f), encodes)), t.c.slab.nextLease;
            && LeasedFor(t, u, f, l) && View(u.c.slab, l) == None && l in u.c.slab.leases
            && u.c.slab.leases[l].offset == |head + ext| && u.c.slab.leases[l].len == f.payloadLen
  {
    hide HandleEvent, DeclaredLen, ApplyFrame, LeasedFor, Encode;
    DeclaredIs(t.c.host, head, ext, f.extensionLen, f.payloadLen);
    LeaseIs(t, bufferId, head + ext, f, encodes);
  }

  /** A frame that claims more than was declared is refused, and closes the engine. */
  lemma {:induction false} ShortFrameCloses(t: Turn, bufferId: nat, bytes: seq<byte>, f: Frame, encodes: bool)
    requires !t.c.closed && ApplyFrame(t.c.session, f, ServerRole).Accepted? && !f.opcode.ControlCbor? && f.payload.AppPayload?
    requires DeclaredLen(t.c.host, bytes) < FRAME_HEADER_LENGTH + f.extensionLen + f.payloadLen
    ensures var u := HandleEvent(t, WsBytes(bufferId, bytes, FrameParsed(f), encodes));
            && u.c.closed && u.o.events == t.o.events + [ErrorRaised(PayloadOutOfBounds), ClosedNow]
            && u.c.slab.leases == t.c.slab.leases
  {
    hide DeclaredLen;
    assert DataLegal(t.c.session, f, ServerRole);
  }
}
