/** The host's own little-endian CDR1 decoder. It works on the same octets as the Rust
    reader but shares no code with it; a thrown error is the outcome `Throw`. Text is
    compared as the payload octets handed to the host's text decoder. */
module HostDecoder {
  import opened ByteOrder
  import opened CdrLimits
  import opened Outcomes
  import opened Utf8
  import opened CdrSyntax
  import opened CdrReader
  import opened PointCloud2

  /** `align`: any `n`, by the remainder from the body origin. */
  function Skip(o: nat, n: nat): (start: nat)
    requires BODY_ORIGIN <= o && n > 0
    ensures o <= start
  {
    var rem := (o - 4) % n;
    if rem != 0 then o + n - rem else o
  }

  function ReadUnsigned(buf: seq<byte>, o: nat, w: Width): (r: Read<nat>)
    requires BODY_ORIGIN <= o
    ensures r.Found? ==> o < r.next <= |buf|
    ensures r.Throw? ==> o <= r.at
  {
    var start := if w == 1 then o else Skip(o, w);
    if start + w > |buf| then Throw(start)
    else Found(Decode(Little, buf[start..start + w]), start + w)
  }

  function ReadBool(buf: seq<byte>, o: nat): (r: Read<bool>)
    requires BODY_ORIGIN <= o
    ensures r.Found? ==> o < r.next <= |buf|
  {
    var (b, next) :- ReadUnsigned(buf, o, 1);
    if b > 1 then Throw(next) else Found(b != 0, next)
  }

  /** The payload octets of a string. A zero length, which Rust refuses, is the empty string. */
  function ReadStr(buf: seq<byte>, o: nat, max: Option<nat>): (r: Read<seq<byte>>)
    requires BODY_ORIGIN <= o
    ensures r.Found? ==> o < r.next <= |buf|
  {
    var (n, start) :- ReadUnsigned(buf, o, 4);
    if n == 0 then Found([], start)
    else if start + n > |buf| then Throw(start)
    else if buf[start + n - 1] != 0 then Throw(start)
    else if Over(n - 1, max) then Throw(start)
    else Found(buf[start..start + n - 1], start + n)
  }

  function ReadWString(buf: seq<byte>, o: nat, max: Option<nat>): (r: Read<Str>)
    requires BODY_ORIGIN <= o
    ensures r.Found? ==> o < r.next <= |buf|
  {
    var (n, start) :- ReadUnsigned(buf, o, 4);
    if Over(n, max) then Throw(start)
    else if start + n * 4 > |buf| then Throw(start)
    else
      match ReadSlots(Little, buf, start, n)
      case None => Throw(start)
      case Some(text) => Found(text, start + n * 4)
  }

  function ReadByteSeq(buf: seq<byte>, o: nat): (r: Read<seq<byte>>)
    requires BODY_ORIGIN <= o
    ensures r.Found? ==> o + |r.value| < r.next <= |buf|
  {
    var (n, start) :- ReadUnsigned(buf, o, 4);
    if start + n > |buf| then Throw(start) else Found(buf[start..start + n], start + n)
  }

  /** A method ran like the function says: value or error, and the cursor either way. */
  predicate Ran<T(==)>(r: Option<T>, after: nat, spec: Read<T>) {
    match spec
    case Found(v, next) => r == Some(v) && after == next
    case Throw(at) => r == None && after == at
  }

  class CdrLeReader {
    const buf: seq<byte>
    var o: nat

    predicate Valid()
      reads this
    {
      BODY_ORIGIN <= o
    }

    constructor (bytes: seq<byte>)
      requires HEADER_LENGTH <= |bytes| && bytes[1] == 1
      ensures Valid() && buf == bytes && o == 4
    {
      buf, o := bytes, 4;
    }

    method Align(n: nat)
      requires Valid() && n > 0
      modifies this`o
      ensures Valid() && o == Skip(old(o), n)
    {
      var rem := (o - 4) % n;
      if rem != 0 {
        o := o + n - rem;
      }
    }

    /** `u8`, `u16`, `u32`, `u64` and, on bit patterns, `f32`, `f64`. */
    method Unsigned(w: Width) returns (r: Option<nat>)
      requires Valid()
      modifies this`o
      ensures Valid() && Ran(r, o, ReadUnsigned(buf, old(o), w))
    {
      hide Decode;
      if w != 1 {
        Align(w);
      }
      if o + w > |buf| {
        return None;
      }
      var v := Decode(Little, buf[o..o + w]);
      o := o + w;
      return Some(v);
    }

    method Bool() returns (r: Option<bool>)
      requires Valid()
      modifies this`o
      ensures Valid() && Ran(r, o, ReadBool(buf, old(o)))
    {
      hide Decode;
      var b := Unsigned(1);
      if b.None? {
        return None;
      }
      if b.value > 1 {
        return None;
      }
      return Some(b.value != 0);
    }

    method Str(max: Option<nat>) returns (r: Option<seq<byte>>)
      requires Valid()
      modifies this`o
      ensures Valid() && Ran(r, o, ReadStr(buf, old(o), max))
    {
      hide Decode;
      var n := Unsigned(4);
      if n.None? {
        return None;
      }
      if n.value == 0 {
        return Some([]);
      }
      if o + n.value > |buf| {
        return None;
      }
      if buf[o + n.value - 1] != 0 {
        return None;
      }
      var payload := n.value - 1;
      if Over(payload, max) {
        return None;
      }
      var bytes := buf[o..o + payload];
      o := o + n.value;
      return Some(bytes);
    }

    method WString(max: Option<nat>) returns (r: Option<Str>)
      requires Valid()
      modifies this`o
      ensures Valid() && Ran(r, o, ReadWString(buf, old(o), max))
    {
      hide Decode;
      var n := Unsigned(4);
      if n.None? || Over(n.value, max) {
        return None;
      }
      var payload := n.value * 4;
      if o + payload > |buf| {
        return None;
      }
      var text: Utf8.Str := [];
      for i := 0 to n.value
        invariant o + payload <= |buf| && ReadSlots(Little, buf, o, i) == Some(text)
      {
        var slot := Decode(Little, buf[o + i * 4..o + i * 4 + 4]);
        if !IsAcceptedWstringScalar(slot) {
          NoSlots(Little, buf, o, i + 1, n.value);
          return None;
        }
        text := text + [slot];
      }
      o := o + payload;
      return Some(text);
    }

    method ByteSeq() returns (r: Option<seq<byte>>)
      requires Valid()
      modifies this`o
      ensures Valid() && Ran(r, o, ReadByteSeq(buf, old(o)))
    {
      hide Decode;
      var n := Unsigned(4);
      if n.None? || o + n.value > |buf| {
        return None;
      }
      var view := buf[o..o + n.value];
      o := o + n.value;
      return Some(view);
    }
  }

  predicate IsAcceptedWstringScalar(slot: nat) {
    slot <= 0xD7FF || (slot >= 0xE000 && slot <= 0x10FFFF)
  }

  // ---------------------------------------------------------------- the two readers agree

  /** A little-endian stream under the default limits, as both readers see it. */
  predicate Shared(s: Stream, o: nat) {
    s.Open() && Within(s, o) && s.endian.Little? && s.limits == DEFAULTS
  }

  predicate Same<T(==)>(host: Read<T>, rust: Parsed<T>) {
    if rust.Got? then host == Found(rust.value, rust.next) else host.Throw?
  }

  lemma {:induction false} SkipIsPadding(o: nat, w: Width)
    requires BODY_ORIGIN <= o
    ensures Skip(o, w) == o + PaddingFor(o, w)
  {
  }

  /** Fixed-width reads agree on every input, errors included. */
  lemma {:induction false} UnsignedAgrees(s: Stream, o: nat, w: Width)
    requires Shared(s, o)
    ensures Same(ReadUnsigned(s.bytes, o, w), ParseUnsigned(s, o, w))
  {
    hide Decode;
    SkipIsPadding(o, w);
  }

  lemma {:induction false} BoolAgrees(s: Stream, o: nat)
    requires Shared(s, o)
    ensures Same(ReadBool(s.bytes, o), ParseBool(s, o))
  {
    hide Decode, PaddingFor, Skip;
    UnsignedAgrees(s, o, 1);
  }

  /** Wide strings agree on every input: under the default limits nothing that fits the
      buffer exceeds a ceiling. */
  lemma {:induction false} WStringAgrees(s: Stream, o: nat, bound: Option<nat>)
    requires Shared(s, o)
    ensures Same(ReadWString(s.bytes, o, bound), ParseWString(s, o, bound))
  {
    hide ReadUnsigned, ParseUnsigned, ReadSlots;
    UnsignedAgrees(s, o, 4);
  }

  lemma {:induction false} ByteSeqAgrees(s: Stream, o: nat)
    requires Shared(s, o)
    ensures Same(ReadByteSeq(s.bytes, o), ParseByteSeq(s, o, None))
  {
    hide ReadUnsigned, ParseUnsigned;
    UnsignedAgrees(s, o, 4);
  }

  /** Strings: Rust accepts exactly those the host accepts whose length prefix is not
      zero, whose payload is UTF-8 and fits the doubled charge; the payload is the same. */
  lemma {:induction false} StrAgrees(s: Stream, o: nat, bound: Option<nat>, text: Str, next: nat)
    requires Shared(s, o)
    ensures ParseString(s, o, bound) == Got(text, next)
            <==> && ReadStr(s.bytes, o, bound) == Found(ToUtf8(text), next)
                 && ReadUnsigned(s.bytes, o, 4).value != 0
                 && 2 * |ToUtf8(text)| <= MAX_STREAM
  {
    hide ReadUnsigned, ParseUnsigned, ToUtf8, FromUtf8, StringAt;
    UnsignedAgrees(s, o, 4);
    StringAccepted(s, o, bound, text, next);
    var r := ReadStr(s.bytes, o, bound);
    var n := ParseUnsigned(s, o, 4);
    if ParseString(s, o, bound) == Got(text, next) {
      ToFromUtf8(s.bytes[n.next..next - 1]);
    } else if r == Found(ToUtf8(text), next) {
      FromToUtf8(text);
    }
  }

  // ---------------------------------------------------------------- std_msgs/msg/String

  /** `decode_std_msgs_string`: open, one string, no check for trailing octets. */
  function DecodeStdMsgsString(b: seq<byte>, host: Host): Result<Str> {
    var s :- OpenStream(b, DEFAULTS, host);
    match ParseString(s, BODY_ORIGIN, None)
    case Bad(fault) => Err(fault)
    case Got(text, _) => Ok(text)
  }

  method DecodeStdMsgsStringRust(b: seq<byte>, host: Host) returns (r: Result<Str>)
    ensures r == DecodeStdMsgsString(b, host)
  {
    hide ParseString;
    var reader :- Open(b, DEFAULTS, host);
    r := reader.ReadString(None);
  }

  /** `decodeStdMsgsStringCdr`: the octets passed to the text decoder, or null. */
  function DecodeStdMsgsStringCdr(cdr: seq<byte>): Option<seq<byte>> {
    if |cdr| < 8 || cdr[1] != 1 then None
    else
      var n: nat := cdr[4] as int + cdr[5] as int * 0x100 + cdr[6] as int * 0x1_0000 + cdr[7] as int * 0x100_0000;
      if n == 0 then Some([])
      else if 8 + n > |cdr| then None
      else Some(cdr[8..8 + n - 1])
  }

  lemma {:induction false} LittleWord(b: seq<byte>)
    requires |b| == 4
    ensures Decode(Little, b) == b[0] as int + b[1] as int * 0x100 + b[2] as int * 0x1_0000 + b[3] as int * 0x100_0000
  {
    assert b[1..][1..] == b[2..] && b[2..][1..] == b[3..] && b[3..][1..] == [];
    assert Value(b[3..]) == b[3] && Value(b[2..]) == b[2] as int + 256 * Value(b[3..]);
    assert Value(b[1..]) == b[1] as int + 256 * Value(b[2..]);
  }

  /** Every payload Rust accepts gives the host the same text octets iff its byte order
      octet says little-endian; for the other byte order the host answers null. */
  lemma {:induction false} StdMsgsStringAgrees(b: seq<byte>, host: Host)
    requires DecodeStdMsgsString(b, host).Ok?
    ensures var text := DecodeStdMsgsString(b, host).value;
            DecodeStdMsgsStringCdr(b) == if b[1] == 1 then Some(ToUtf8(text)) else None
  {
    hide ParseString, ToUtf8, Decode;
    var s := OpenStream(b, DEFAULTS, host).value;
    if b[1] == 1 {
      var p := ParseString(s, BODY_ORIGIN, None);
      StrAgrees(s, BODY_ORIGIN, None, p.value, p.next);
      assert b[4..8] == [b[4], b[5], b[6], b[7]];
      LittleWord(b[4..8]);
    }
  }

  /** The other half of the case split is inhabited: a big-endian empty string. */
  lemma {:induction false} BigEndianStringIsRefused(host: Host)
    ensures var b: seq<byte> := [0, 0, 0, 0, 0, 0, 0, 1, 0];
            DecodeStdMsgsString(b, host) == Ok([]) && DecodeStdMsgsStringCdr(b) == None
  {
    hide ParseString, ParseUnsigned, FromUtf8, Decode;
    var b: seq<byte> := [0, 0, 0, 0, 0, 0, 0, 1, 0];
    var s := Stream(b, Big, DEFAULTS, host);
    OneByteString(s);
    assert s.bytes[8..8] == [] && ToUtf8([]) == [];
    FromToUtf8([]);
    assert StringAt(s, 4, None, [], 9, 8, 1);
    StringAccepted(s, 4, None, [], 9);
  }

  lemma {:induction false} OneByteString(s: Stream)
    requires s.bytes == [0, 0, 0, 0, 0, 0, 0, 1, 0] && s.endian.Big?
    ensures ParseUnsigned(s, 4, 4) == Got(1, 8)
  {
    hide Decode;
    assert s.bytes[4..8] == [0, 0, 0, 1];
    assert Reverse([0, 0, 0, 1]) == [1, 0, 0, 0];
    assert Decode(Big, [0, 0, 0, 1]) == 1 by {
      BigOne();
    }
  }

  lemma {:induction false} BigOne()
    ensures Decode(Big, [0, 0, 0, 1]) == 1
  {
    assert Reverse([0, 0, 0, 1]) == [1, 0, 0, 0];
    LittleWord([1, 0, 0, 0]);
  }

  // ---------------------------------------------------------------- PointCloud2

  datatype HostField = HostField(name: seq<byte>, offset: nat, datatypeCode: nat, count: nat)

  /** The record handed to the application. `data` is the view `cdr[dataStart..][..dataLen]`. */
  datatype HostCloud = HostCloud(
    stampSec: int, stampNanosec: nat, frameId: seq<byte>, height: nat, width: nat, fields: seq<HostField>,
    isBigendian: bool, pointStep: nat, rowStep: nat, dataStart: nat, dataLen: nat, isDense: bool)

  function ReadField(buf: seq<byte>, o: nat): (r: Read<HostField>)
    requires BODY_ORIGIN <= o
    ensures r.Found? ==> o < r.next <= |buf|
  {
    var (name, a) :- ReadStr(buf, o, None);
    var (offset, b) :- ReadUnsigned(buf, a, 4);
    var (code, c) :- ReadUnsigned(buf, b, 1);
    var (count, d) :- ReadUnsigned(buf, c, 4);
    Found(HostField(name, offset, code, count), d)
  }

  function ReadFields(buf: seq<byte>, o: nat, n: nat): (r: Read<seq<HostField>>)
    requires BODY_ORIGIN <= o
    ensures r.Found? ==> o <= r.next && |r.value| == n
    decreases n
  {
    if n == 0 then Found([], o)
    else
      var (init, a) :- ReadFields(buf, o, n - 1);
      var (f, b) :- ReadField(buf, a);
      Found(init + [f], b)
  }

  function ReadTail(buf: seq<byte>, o: nat, c: HostCloud): (r: Read<HostCloud>)
    requires BODY_ORIGIN <= o
  {
    var (isBigendian, a1) :- ReadBool(buf, o);
    var (pointStep, a2) :- ReadUnsigned(buf, a1, 4);
    var (rowStep, a3) :- ReadUnsigned(buf, a2, 4);
    var (data, a4) :- ReadByteSeq(buf, a3);
    var (isDense, a5) :- ReadBool(buf, a4);
    Found(c.(isBigendian := isBigendian, pointStep := pointStep, rowStep := rowStep,
             dataStart := a4 - |data|, dataLen := |data|, isDense := isDense), a5)
  }

  function ReadCloud(buf: seq<byte>, o: nat): (r: Read<HostCloud>)
    requires BODY_ORIGIN <= o
  {
    var (sec, a) :- ReadUnsigned(buf, o, 4);
    var (nanosec, b) :- ReadUnsigned(buf, a, 4);
    var (frameId, c) :- ReadStr(buf, b, None);
    var (height, d) :- ReadUnsigned(buf, c, 4);
    var (width, e) :- ReadUnsigned(buf, d, 4);
    var (count, f) :- ReadUnsigned(buf, e, 4);
    var (fields, g) :- ReadFields(buf, f, count);
    ReadTail(buf, g, HostCloud(ToSigned(sec, 4), nanosec, frameId, height, width, fields, false, 0, 0, 0, 0, false))
  }

  /** `decodePointCloud2Cdr`: null on any error, trailing octets ignored. */
  function DecodePointCloud2Cdr(cdr: seq<byte>): Option<HostCloud> {
    if |cdr| < 4 || cdr[1] != 1 then None
    else
      match ReadCloud(cdr, 4)
      case Found(c, _) => Some(c)
      case Throw(_) => None
  }

  /** The rest of the record, read after the field list. */
  method DecodeTailCdr(r: CdrLeReader, c: HostCloud) returns (out: Option<HostCloud>)
    requires r.Valid()
    modifies r`o
    ensures out == match ReadTail(r.buf, old(r.o), c) { case Found(d, _) => Some(d) case Throw(_) => None }
  {
    hide ReadUnsigned, ReadBool;
    var isBigendian := r.Bool();
    if isBigendian.None? {
      return None;
    }
    var pointStep := r.Unsigned(4);
    if pointStep.None? {
      return None;
    }
    var rowStep := r.Unsigned(4);
    if rowStep.None? {
      return None;
    }
    var data := r.ByteSeq();
    if data.None? {
      return None;
    }
    var dataStart := r.o - |data.value|;
    var isDense := r.Bool();
    if isDense.None? {
      return None;
    }
    return Some(c.(isBigendian := isBigendian.value, pointStep := pointStep.value, rowStep := rowStep.value,
                   dataStart := dataStart, dataLen := |data.value|, isDense := isDense.value));
  }

  method DecodeFieldCdr(r: CdrLeReader) returns (out: Option<HostField>)
    requires r.Valid()
    modifies r`o
    ensures r.Valid() && match ReadField(r.buf, old(r.o)) { case Found(f, next) => out == Some(f) && r.o == next case Throw(_) => out == None }
  {
    hide ReadUnsigned, ReadStr;
    var name := r.Str(None);
    if name.None? {
      return None;
    }
    var offset := r.Unsigned(4);
    if offset.None? {
      return None;
    }
    var code := r.Unsigned(1);
    if code.None? {
      return None;
    }
    var count := r.Unsigned(4);
    if count.None? {
      return None;
    }
    return Some(HostField(name.value, offset.value, code.value, count.value));
  }

  /** The field loop; it may run past what the reader's stream ceiling would allow. */
  method DecodeFieldsCdr(r: CdrLeReader, count: nat) returns (out: Option<seq<HostField>>)
    requires r.Valid()
    modifies r`o
    ensures r.Valid() && match ReadFields(r.buf, old(r.o), count) { case Found(fs, next) => out == Some(fs) && r.o == next case Throw(_) => out == None }
  {
    hide ReadField;
    var fields: seq<HostField> := [];
    for i := 0 to count
      invariant r.Valid() && ReadFields(r.buf, old(r.o), i) == Found(fields, r.o)
    {
      var f := DecodeFieldCdr(r);
      if f.None? {
        FieldsThrow(r.buf, old(r.o), i + 1, count);
        return None;
      }
      fields := fields + [f.value];
    }
    return Some(fields);
  }

  lemma {:induction false} FieldsThrow(buf: seq<byte>, o: nat, k: nat, n: nat)
    requires BODY_ORIGIN <= o && k <= n && ReadFields(buf, o, k).Throw?
    ensures ReadFields(buf, o, n).Throw?
    decreases n
  {
    hide ReadField;
    if k < n {
      FieldsThrow(buf, o, k, n - 1);
    }
  }

  method DecodePointCloud2(cdr: seq<byte>) returns (out: Option<HostCloud>)
    ensures out == DecodePointCloud2Cdr(cdr)
  {
    hide ReadUnsigned, ReadStr, ReadFields, ReadTail, ToSigned;
    if |cdr| < 4 || cdr[1] != 1 {
      return None;
    }
    var r := new CdrLeReader(cdr);
    var sec := r.Unsigned(4);
    if sec.None? {
      return None;
    }
    var nanosec := r.Unsigned(4);
    if nanosec.None? {
      return None;
    }
    var frameId := r.Str(None);
    if frameId.None? {
      return None;
    }
    var height := r.Unsigned(4);
    if height.None? {
      return None;
    }
    var width := r.Unsigned(4);
    if width.None? {
      return None;
    }
    var count := r.Unsigned(4);
    if count.None? {
      return None;
    }
    var fields := DecodeFieldsCdr(r, count.value);
    if fields.None? {
      return None;
    }
    out := DecodeTailCdr(r, HostCloud(ToSigned(sec.value, 4), nanosec.value, frameId.value, height.value,
                                      width.value, fields.value, false, 0, 0, 0, 0, false));
  }

  // ---------------------------------------------------------------- refinement

  function HostFieldOf(f: PointField): HostField {
    HostField(ToUtf8(f.name), f.offset, f.datatypeCode, f.count)
  }

  function HostFieldsOf(fs: seq<PointField>): (hs: seq<HostField>)
    ensures |hs| == |fs|
  {
    seq(|fs|, i requires 0 <= i < |fs| => HostFieldOf(fs[i]))
  }

  /** A cloud decoded by Rust, as the host would present it. */
  function HostCloudOf(d: Decoded): HostCloud {
    var c := d.cloud;
    HostCloud(c.header.stampSec, c.header.stampNanosec, ToUtf8(c.header.frameId), c.height, c.width, HostFieldsOf(c.fields),
              c.isBigendian, c.pointStep, c.rowStep, d.dataStart, |c.data|, c.isDense)
  }

  lemma {:induction false} FieldAgrees(s: Stream, o: nat)
    requires Shared(s, o) && ParsePointField(s, o).Got?
    ensures var p := ParsePointField(s, o);
            ReadField(s.bytes, o) == Found(HostFieldOf(p.value), p.next)
  {
    hide ParseUnsigned, ReadUnsigned, ParseString, ReadStr, ToUtf8;
    var name := ParseString(s, o, None);
    StrAgrees(s, o, None, name.value, name.next);
    UnsignedAgrees(s, name.next, 4);
    var offset := ParseUnsigned(s, name.next, 4);
    UnsignedAgrees(s, offset.next, 1);
    var code := ParseUnsigned(s, offset.next, 1);
    UnsignedAgrees(s, code.next, 4);
  }

  lemma {:induction false} FieldsAgree(s: Stream, o: nat, n: nat)
    requires Shared(s, o) && ParsePointFields(s, o, n).Got?
    ensures var p := ParsePointFields(s, o, n);
            ReadFields(s.bytes, o, n) == Found(HostFieldsOf(p.value), p.next)
    decreases n
  {
    hide ParsePointField, ReadField, HostFieldOf;
    if n > 0 {
      FieldsAgree(s, o, n - 1);
      var p := ParsePointFields(s, o, n - 1);
      FieldAgrees(s, p.next);
      var f := ParsePointField(s, p.next);
      assert HostFieldsOf(p.value + [f.value]) == HostFieldsOf(p.value) + [HostFieldOf(f.value)];
    }
  }

  lemma {:induction false} TailAgrees(s: Stream, o: nat, c: Cloud, h: HostCloud)
    requires Shared(s, o) && ParseTail(s, o, c).Got?
    ensures var p := ParseTail(s, o, c);
            var d := p.value;
            ReadTail(s.bytes, o, h) ==
            Found(h.(isBigendian := d.cloud.isBigendian, pointStep := d.cloud.pointStep, rowStep := d.cloud.rowStep,
                     dataStart := d.dataStart, dataLen := |d.cloud.data|, isDense := d.cloud.isDense), p.next)
  {
    hide ParseUnsigned, ReadUnsigned, ParseBool, ReadBool, ParseByteSeq, ReadByteSeq;
    BoolAgrees(s, o);
    var a1 := ParseBool(s, o).next;
    UnsignedAgrees(s, a1, 4);
    var a2 := ParseUnsigned(s, a1, 4).next;
    UnsignedAgrees(s, a2, 4);
    var a3 := ParseUnsigned(s, a2, 4).next;
    ByteSeqAgrees(s, a3);
    BoolAgrees(s, ParseByteSeq(s, a3, None).next);
  }

  lemma {:induction false} CountAgrees(s: Stream, o: nat)
    requires Shared(s, o) && ParseSeqLen(s, o, None).Got?
    ensures var p := ParseSeqLen(s, o, None);
            ReadUnsigned(s.bytes, o, 4) == Found(p.value, p.next)
  {
    hide ParseUnsigned, ReadUnsigned;
    UnsignedAgrees(s, o, 4);
  }

  lemma {:induction false} HeaderAgrees(s: Stream, o: nat)
    requires Shared(s, o) && ParseHeader(s, o).Got?
    ensures var p := ParseHeader(s, o);
            var sec := ReadUnsigned(s.bytes, o, 4);
            && sec.Found? && ToSigned(sec.value, 4) == p.value.stampSec
            && var nanosec := ReadUnsigned(s.bytes, sec.next, 4);
            && nanosec.Found? && nanosec.value == p.value.stampNanosec
            && ReadStr(s.bytes, nanosec.next, None) == Found(ToUtf8(p.value.frameId), p.next)
  {
    hide ParseUnsigned, ReadUnsigned, ParseString, ReadStr, ToUtf8, ToSigned;
    UnsignedAgrees(s, o, 4);
    var a := ParseUnsigned(s, o, 4).next;
    UnsignedAgrees(s, a, 4);
    var b := ParseUnsigned(s, a, 4).next;
    var frameId := ParseString(s, b, None);
    StrAgrees(s, b, None, frameId.value, frameId.next);
  }

  lemma {:induction false} CloudAgrees(s: Stream, o: nat)
    requires Shared(s, o) && ParseCloud(s, o).Got?
    ensures var p := ParseCloud(s, o);
            ReadCloud(s.bytes, o) == Found(HostCloudOf(p.value), p.next)
  {
    hide ParseUnsigned, ReadUnsigned, ParseHeader, ReadStr, ParseSeqLen, ParsePointFields, ReadFields, ParseTail, ReadTail,
      ToUtf8, ToSigned, HostFieldsOf;
    HeaderAgrees(s, o);
    var h := ParseHeader(s, o);
    UnsignedAgrees(s, h.next, 4);
    var height := ParseUnsigned(s, h.next, 4);
    UnsignedAgrees(s, height.next, 4);
    var width := ParseUnsigned(s, height.next, 4);
    CountAgrees(s, width.next);
    var count := ParseSeqLen(s, width.next, None);
    FieldsAgree(s, count.next, count.value);
    var fields := ParsePointFields(s, count.next, count.value);
    var partial := Cloud(h.value, height.value, width.value, fields.value, false, 0, 0, [], false);
    var shown := HostCloud(h.value.stampSec, h.value.stampNanosec, ToUtf8(h.value.frameId), height.value, width.value,
                           HostFieldsOf(fields.value), false, 0, 0, 0, 0, false);
    TailAgrees(s, fields.next, partial, shown);
  }

  /** The host decoder refines the Rust codec: every little-endian buffer the Rust codec
      accepts is decoded by the host to the same members and the same `data` span. */
  lemma {:induction false} HostRefinesRust(b: seq<byte>, host: Host)
    requires DecodeLe(b, host).Ok?
    ensures DecodePointCloud2Cdr(b) == if b[1] == 1 then Some(HostCloudOf(DecodeLe(b, host).value)) else None
  {
    hide ParseCloud, ReadCloud, HostCloudOf;
    if b[1] == 1 {
      CloudAgrees(Stream(b, Little, DEFAULTS, host), BODY_ORIGIN);
    }
  }
}
