/** Length-prefixed frames over a byte stream: the gateway's `send` produces them, the
    host's inbox reassembles them whatever the transport's chunk boundaries are. */
module Inbox {
  import opened ByteOrder

  // ---------------------------------------------------------------- the stream as mathematics

  /** `getUint32(0, false)` of four octets. */
  function GetUint32(a: nat, b: nat, c: nat, d: nat): nat {
    0x100_0000 * a + 0x1_0000 * b + 0x100 * c + d
  }

  function LengthAt(s: seq<byte>): nat
    requires |s| >= 4
  {
    GetUint32(s[0], s[1], s[2], s[3])
  }

  lemma {:induction false} LengthIsDecoded(head: seq<byte>)
    requires |head| == 4
    ensures LengthAt(head) == Decode(Big, head)
  {
    var back := Reverse(head);
    assert Value(back[1..]) == back[1] + 0x100 * Value(back[2..]);
    assert Value(back[2..]) == back[2] + 0x100 * Value(back[3..]);
    assert Value(back[3..]) == back[3];
  }

  /** The complete frames a stream starts with. */
  function Frames(s: seq<byte>): seq<seq<byte>>
    decreases |s|
  {
    if |s| < 4 || |s| < 4 + LengthAt(s) then []
    else [s[4..4 + LengthAt(s)]] + Frames(s[4 + LengthAt(s)..])
  }

  /** What follows them. */
  function Tail(s: seq<byte>): (t: seq<byte>)
    ensures |t| <= |s| && t == s[|s| - |t|..]
    decreases |s|
  {
    if |s| < 4 || |s| < 4 + LengthAt(s) then s else Tail(s[4 + LengthAt(s)..])
  }

  lemma {:induction false} ParseStep(s: seq<byte>)
    requires |s| >= 4
    ensures var end := 4 + LengthAt(s);
            if |s| < end then Frames(s) == [] && Tail(s) == s
            else Frames(s) == [s[4..end]] + Frames(s[end..]) && Tail(s) == Tail(s[end..])
  {
    hide LengthAt;
  }

  lemma {:induction false} ParseStuck(s: seq<byte>)
    requires |s| < 4
    ensures Frames(s) == [] && Tail(s) == s
  {
  }

  /** The parse of a stream is the parse of a first part, continued on its tail. */
  lemma {:induction false} ParseInParts(a: seq<byte>, b: seq<byte>)
    ensures Frames(a + b) == Frames(a) + Frames(Tail(a) + b)
    ensures Tail(a + b) == Tail(Tail(a) + b)
    decreases |a|
  {
    hide Frames, Tail, LengthAt;
    if |a| < 4 {
      ParseStuck(a);
    } else {
      ParseStep(a);
      var end := 4 + LengthAt(a);
      if |a| >= end {
        ParseHead(a, b);
        ParseInParts(a[end..], b);
      }
    }
  }

  /** A stream whose first part holds a whole frame starts with that frame. */
  lemma {:induction false} ParseHead(a: seq<byte>, b: seq<byte>)
    requires |a| >= 4 && |a| >= 4 + LengthAt(a)
    ensures var end := 4 + LengthAt(a);
            Frames(a + b) == [a[4..end]] + Frames(a[end..] + b) && Tail(a + b) == Tail(a[end..] + b)
  {
    hide Frames, Tail, LengthAt;
    var end := 4 + LengthAt(a);
    assert LengthAt(a + b) == LengthAt(a) by {
      SameHead(a, b);
    }
    ParseStep(a + b);
    assert (a + b)[4..end] == a[4..end];
    assert (a + b)[end..] == a[end..] + b;
  }

  lemma {:induction false} SameHead(a: seq<byte>, b: seq<byte>)
    requires |a| >= 4
    ensures LengthAt(a + b) == LengthAt(a)
  {
    assert (a + b)[..4] == a[..4];
  }

  function Concat(chunks: seq<seq<byte>>): seq<byte> {
    if chunks == [] then [] else Concat(chunks[..|chunks| - 1]) + chunks[|chunks| - 1]
  }

  // ---------------------------------------------------------------- the inbox

  const INITIAL_CAPACITY: nat := 4096

  class LengthPrefixedInbox {
    var buf: array<byte>
    var start: nat
    var end: nat

    predicate Valid()
      reads this
    {
      start <= end <= buf.Length
    }

    /** The bytes received and not yet emitted. */
    function Pending(): seq<byte>
      requires Valid()
      reads this, buf
    {
      buf[start..end]
    }

    constructor (capacity: nat)
      ensures Valid() && fresh(buf) && buf.Length == capacity && Pending() == []
    {
      buf := new byte[capacity](_ => 0);
      start, end := 0, 0;
    }

    /** Room for `extra` more bytes at `end`: by moving the live bytes to the front when they
        then fit, by doubling otherwise. The live bytes are the same. */
    method EnsureCapacity(extra: nat)
      requires Valid()
      modifies this, buf
      ensures Valid() && Pending() == old(Pending()) && end + extra <= buf.Length
      ensures buf == old(buf) || fresh(buf)
      ensures buf != old(buf) ==> old(buf.Length) < buf.Length < 2 * (|Pending()| + extra) + 1
      ensures buf != old(buf) <==> |Pending()| + extra > old(buf.Length)
    {
      var live := end - start;
      var need := live + extra;
      if need <= buf.Length {
        if end + extra > buf.Length {
          ghost var was := buf[start..end];
          forall i | 0 <= i < live {
            buf[i] := buf[start + i];
          }
          end := live;
          start := 0;
          assert buf[start..end] == was;
        }
        return;
      }
      var cap := if buf.Length > 1 then buf.Length else 1;
      while cap < need
        invariant 1 <= cap && (cap < 2 * need || cap == buf.Length)
        invariant buf.Length <= cap
      {
        cap := cap * 2;
      }
      var next := new byte[cap](_ => 0);
      forall i | 0 <= i < live {
        next[i] := buf[start + i];
      }
      assert next[..live] == buf[start..end];
      buf := next;
      start := 0;
      end := live;
    }

    /** `pushLengthPrefixedChunk`. The frames handed to `emit`, in order, are exactly the
        frames completed by this chunk; what is left pending is the unparsed tail. */
    method Push(chunk: seq<byte>) returns (emitted: seq<seq<byte>>)
      requires Valid()
      modifies this, buf
      ensures Valid() && (buf == old(buf) || fresh(buf))
      ensures emitted == Frames(old(Pending()) + chunk)
      ensures Pending() == Tail(old(Pending()) + chunk)
      ensures start == end ==> start == 0
    {
      hide Frames, Tail;
      ghost var all := Pending() + chunk;
      EnsureCapacity(|chunk|);
      Append(chunk);
      assert Pending() == all;
      emitted := Drain();
      if start == end {
        assert Pending() == [];
        start := 0;
        end := 0;
        assert Pending() == [];
      }
    }

    method Append(chunk: seq<byte>)
      requires Valid() && end + |chunk| <= buf.Length
      modifies this`end, buf
      ensures Valid() && Pending() == old(Pending()) + chunk
    {
      ghost var was := Pending();
      forall i | 0 <= i < |chunk| {
        buf[end + i] := chunk[i];
      }
      end := end + |chunk|;
      assert buf[start..end] == was + chunk;
    }

    method Drain() returns (emitted: seq<seq<byte>>)
      requires Valid()
      modifies this`start
      ensures Valid()
      ensures emitted == Frames(old(Pending())) && Pending() == Tail(old(Pending()))
    {
      hide Frames, Tail, LengthAt;
      emitted := [];
      ghost var all := Pending();
      while end - start >= 4
        invariant Valid() && buf == old(buf) && end == old(end)
        invariant Frames(all) == emitted + Frames(Pending()) && Tail(all) == Tail(Pending())
        decreases end - start
      {
        ParseStep(Pending());
        var len := FrameLength();
        if end - start < 4 + len {
          return;
        }
        var frame := TakeFrame(len);
        emitted := emitted + [frame];
      }
      ParseStuck(Pending());
    }

    /** A copy of the frame at the front, which the live bytes then start after. */
    method TakeFrame(len: nat) returns (frame: seq<byte>)
      requires Valid() && 4 + len <= end - start
      modifies this`start
      ensures Valid() && start > old(start)
      ensures frame == old(Pending())[4..4 + len] && Pending() == old(Pending())[4 + len..]
    {
      ghost var before := Pending();
      frame := buf[start + 4..start + 4 + len];
      assert forall k :: 0 <= k < len ==> frame[k] == before[4 + k];
      assert frame == before[4..4 + len];
      start := start + 4 + len;
      assert Pending() == before[4 + len..];
    }

    method FrameLength() returns (len: nat)
      requires Valid() && end - start >= 4
      ensures len == LengthAt(Pending())
    {
      len := GetUint32(buf[start], buf[start + 1], buf[start + 2], buf[start + 3]);
    }
  }

  /** The host's read loop over everything the transport delivers: frames depend on the
      bytes alone, not on how they were cut into chunks. */
  method ReadLoop(chunks: seq<seq<byte>>) returns (emitted: seq<seq<byte>>, inbox: LengthPrefixedInbox)
    ensures fresh(inbox) && inbox.Valid()
    ensures emitted == Frames(Concat(chunks)) && inbox.Pending() == Tail(Concat(chunks))
  {
    hide Frames, Tail, Concat;
    inbox := new LengthPrefixedInbox(INITIAL_CAPACITY);
    emitted := [];
    ParseStuck([]);
    assert Concat(chunks[..0]) == [] by {
      ConcatNone();
    }
    for k := 0 to |chunks|
      invariant fresh(inbox) && fresh(inbox.buf) && inbox.Valid()
      invariant emitted == Frames(Concat(chunks[..k])) && inbox.Pending() == Tail(Concat(chunks[..k]))
    {
      ConcatNext(chunks, k);
      ParseInParts(Concat(chunks[..k]), chunks[k]);
      if chunks[k] == [] {
        continue;
      }
      var more := inbox.Push(chunks[k]);
      emitted := emitted + more;
    }
    assert chunks[..|chunks|] == chunks;
  }

  lemma {:induction false} ConcatNone()
    ensures Concat([]) == []
  {
  }

  lemma {:induction false} ConcatNext(chunks: seq<seq<byte>>, k: nat)
    requires k < |chunks|
    ensures Concat(chunks[..k + 1]) == Concat(chunks[..k]) + chunks[k]
    ensures chunks[k] == [] ==> Concat(chunks[..k + 1]) == Concat(chunks[..k])
  {
    assert chunks[..k + 1][..k] == chunks[..k];
  }

  // ---------------------------------------------------------------- the producer

  datatype SendResult = Sent | FrameLenOverflow

  /** One message on the wire. */
  function Framed(m: seq<byte>): seq<byte> {
    Encode(Big, |m|, 4) + m
  }

  function Wire(ms: seq<seq<byte>>): seq<byte> {
    if ms == [] then [] else Framed(ms[0]) + Wire(ms[1..])
  }

  class LengthPrefixedBiTransport {
    var wire: seq<byte>

    constructor ()
      ensures wire == []
    {
      wire := [];
    }

    /** `send`: two ordered writes, the length and the bytes, or neither. */
    method Send(bytes: seq<byte>) returns (r: SendResult)
      modifies this
      ensures r == if |bytes| <= U32_MAX then Sent else FrameLenOverflow
      ensures wire == if r.Sent? then old(wire) + Framed(bytes) else old(wire)
    {
      if |bytes| > U32_MAX {
        return FrameLenOverflow;
      }
      var len := |bytes|;
      wire := wire + Encode(Big, len, 4);
      wire := wire + bytes;
      assert wire == old(wire) + Framed(bytes);
      return Sent;
    }
  }

  predicate Sendable(ms: seq<seq<byte>>) {
    forall i :: 0 <= i < |ms| ==> |ms[i]| <= U32_MAX
  }

  lemma {:induction false} FrameFirst(head: seq<byte>, m: seq<byte>, rest: seq<byte>)
    requires |head| == 4 && LengthAt(head) == |m|
    ensures Frames(head + m + rest) == [m] + Frames(rest) && Tail(head + m + rest) == Tail(rest)
  {
    hide Frames, Tail;
    var s := head + m + rest;
    ParseStep(s);
    assert s[..4] == head;
    assert s[4..4 + |m|] == m;
    assert s[4 + |m|..] == rest;
  }

  lemma {:induction false} HeadOf(m: seq<byte>)
    requires |m| <= U32_MAX
    ensures LengthAt(Encode(Big, |m|, 4)) == |m|
  {
    hide Encode, Decode, LengthAt;
    SpanValues();
    DecodeEncode(Big, |m|, 4);
    LengthIsDecoded(Encode(Big, |m|, 4));
  }

  /** What `send` put on the wire parses back to exactly the messages sent, in order. */
  lemma {:induction false} SentIsReceived(ms: seq<seq<byte>>)
    requires Sendable(ms)
    ensures Frames(Wire(ms)) == ms && Tail(Wire(ms)) == []
  {
    hide Encode, LengthAt;
    if ms != [] {
      SentIsReceived(ms[1..]);
      HeadOf(ms[0]);
      FrameFirst(Encode(Big, |ms[0]|, 4), ms[0], Wire(ms[1..]));
    } else {
      ParseStuck([]);
    }
  }

  /** Cut the wire anywhere: the inbox has emitted a prefix of the messages, nothing else,
      and the bytes still to come complete exactly the rest. */
  lemma {:induction false} PrefixIsReceived(ms: seq<seq<byte>>, arrived: seq<byte>, later: seq<byte>)
    requires Sendable(ms) && Wire(ms) == arrived + later
    ensures Frames(arrived) <= ms
    ensures ms == Frames(arrived) + Frames(Tail(arrived) + later)
  {
    hide Frames, Tail;
    SentIsReceived(ms);
    ParseInParts(arrived, later);
  }
}
