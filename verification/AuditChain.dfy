/** Audit records: how a line is sealed to the one before it, how a file is verified, and
    what verification rules out. The hash is a parameter: any function from the previous
    digest and a record to 32 octets. */
module AuditChain {
  import opened ByteOrder

  datatype Json = Str(text: string) | Num(n: nat) | Other(id: int)
  type Members = map<string, Json>

  /** What the JSON parser makes of a line of a file. */
  datatype Line = Blank | NotJson | NotObject | Obj(members: Members)

  type Digest = d: seq<byte> | |d| == 32 witness seq(32, _ => 0)

  /** SHA-256 over `prev || LF || canonical JSON`, and the length of a serialised line. */
  datatype Env = Env(hash: (string, Members) -> Digest, size: Line -> nat)

  const SEQ := "seq"
  const TS := "ts"
  const PREV := "prev_sha256"
  const SHA := "sha256"
  const RESERVED: set<string> := {SEQ, TS, PREV, SHA}
  const GENESIS: string := ZeroDigits(64)
  const HEX: string := "0123456789abcdef"

  function ZeroDigits(n: nat): (s: string)
    ensures |s| == n && forall i :: 0 <= i < n ==> s[i] == '0'
  {
    seq(n, _ => '0')
  }

  // ---------------------------------------------------------------- hexadecimal

  function HexEncode(d: seq<byte>): (s: string)
    ensures |s| == 2 * |d|
  {
    if d == [] then [] else HexEncode(d[..|d| - 1]) + [HEX[d[|d| - 1] / 16], HEX[d[|d| - 1] % 16]]
  }

  predicate IsSha256Hex(s: string) {
    |s| == 64 && forall i :: 0 <= i < 64 ==> '0' <= s[i] <= '9' || 'a' <= s[i] <= 'f'
  }

  lemma {:induction false} HexAlphabet(n: nat)
    requires n < 16
    ensures '0' <= HEX[n] <= '9' || 'a' <= HEX[n] <= 'f'
    ensures forall m: nat :: m < 16 && HEX[m] == HEX[n] ==> m == n
  {
  }

  lemma {:induction false} HexIsLowercase(d: seq<byte>, i: nat)
    requires i < 2 * |d|
    ensures '0' <= HexEncode(d)[i] <= '9' || 'a' <= HexEncode(d)[i] <= 'f'
    decreases |d|
  {
    if i < 2 * (|d| - 1) {
      HexIsLowercase(d[..|d| - 1], i);
    } else {
      HexAlphabet(d[|d| - 1] / 16);
      HexAlphabet(d[|d| - 1] % 16);
    }
  }

  lemma {:induction false} DigestIsHex(d: Digest)
    ensures IsSha256Hex(HexEncode(d))
  {
    forall i | 0 <= i < 64 ensures '0' <= HexEncode(d)[i] <= '9' || 'a' <= HexEncode(d)[i] <= 'f' {
      HexIsLowercase(d, i);
    }
  }

  lemma {:induction false} HexInjective(a: seq<byte>, b: seq<byte>)
    requires HexEncode(a) == HexEncode(b)
    ensures a == b
    decreases |a|
  {
    if a != [] {
      var s, n := HexEncode(a), |a| - 1;
      assert |s| == 2 * |b|;
      var x, y := a[n], b[n];
      assert HexEncode(a[..n]) == s[..2 * n] == HexEncode(b[..n]);
      HexInjective(a[..n], b[..n]);
      HexAlphabet(x / 16);
      HexAlphabet(x % 16);
      assert HEX[x / 16] == s[2 * n] == HEX[y / 16];
      assert HEX[x % 16] == s[2 * n + 1] == HEX[y % 16];
      assert a == a[..n] + [x] && b == b[..n] + [y];
    }
  }

  // ---------------------------------------------------------------- sealing a record

  datatype Chain = Chain(seqNo: nat, prevHex: string)

  const START: Chain := Chain(0, GENESIS)

  datatype Event = Object(members: Members) | Opaque(value: Json)

  /** The record before its own digest: reserved keys are the sink's, never the event's. */
  function Envelope(c: Chain, ts: nat, event: Event): Members {
    var base: Members := map[SEQ := Num(c.seqNo + 1), TS := Num(ts), PREV := Str(c.prevHex)];
    match event
    case Object(members) => base + (members - RESERVED)
    case Opaque(value) => base["event" := Str("opaque")]["value" := value]
  }

  function DigestOf(env: Env, prev: string, m: Members): string {
    HexEncode(env.hash(prev, m))
  }

  /** `next_line`: the line and the chain after it. */
  function NextLine(env: Env, c: Chain, ts: nat, event: Event): (Members, Chain) {
    var m := Envelope(c, ts, event);
    var digest := DigestOf(env, c.prevHex, m);
    (m[SHA := Str(digest)], Chain(c.seqNo + 1, digest))
  }

  /** `rewind_chain`: back over a line that could not be written. */
  function RewindChain(c: Chain, failed: Line): Chain {
    if !failed.Obj? then c
    else
      var prev := if PREV in failed.members && failed.members[PREV].Str? then failed.members[PREV].text else c.prevHex;
      Chain(if c.seqNo > 0 then c.seqNo - 1 else 0, prev)
  }

  lemma {:induction false} EnvelopeKeys(c: Chain, ts: nat, event: Event)
    ensures var m := Envelope(c, ts, event);
            && SHA !in m && SEQ in m && m[SEQ] == Num(c.seqNo + 1) && PREV in m && m[PREV] == Str(c.prevHex)
  {
    assert |"event"| == 5 && |"value"| == 5;
    assert "value"[0] == 'v' && SHA !in map["value" := Num(0)];
  }

  /** Rewinding undoes `next_line`, for every event, reserved keys in it included. */
  lemma {:induction false} RewindUndoesNextLine(env: Env, c: Chain, ts: nat, event: Event)
    ensures RewindChain(NextLine(env, c, ts, event).1, Obj(NextLine(env, c, ts, event).0)) == c
  {
    hide Envelope;
    EnvelopeKeys(c, ts, event);
  }

  // ---------------------------------------------------------------- verifying

  datatype AuditFault =
    | EmptyLine | NotJsonLine | NotAnObject | MissingSha | MissingPrev | BadHex | MissingSeq | ShaMismatch
    | PrevMismatch | EmptyFile

  /** What `verify_line` returns for a good line. */
  datatype Entry = Entry(seqNo: nat, prev: string, digest: string)

  datatype Verdict<+T> = Pass(value: T) | Fail(fault: AuditFault)

  function VerifyLine(env: Env, line: Line): Verdict<Entry> {
    match line
    case Blank => Fail(EmptyLine)
    case NotJson => Fail(NotJsonLine)
    case NotObject => Fail(NotAnObject)
    case Obj(m) =>
      if SHA !in m || !m[SHA].Str? then Fail(MissingSha)
      else if PREV !in m || !m[PREV].Str? then Fail(MissingPrev)
      else
        var claimed, prev := m[SHA].text, m[PREV].text;
        if !IsSha256Hex(prev) || !IsSha256Hex(claimed) then Fail(BadHex)
        else if SEQ !in m || !m[SEQ].Num? then Fail(MissingSeq)
        else
          var digest := DigestOf(env, prev, m - {SHA});
          if digest != claimed then Fail(ShaMismatch) else Pass(Entry(m[SEQ].n, prev, digest))
  }

  /** A sealed line verifies, and reports the sequence and predecessor it was given. */
  lemma {:induction false} SealedVerifies(env: Env, c: Chain, ts: nat, event: Event)
    requires IsSha256Hex(c.prevHex)
    ensures var (m, after) := NextLine(env, c, ts, event);
            && VerifyLine(env, Obj(m)) == Pass(Entry(c.seqNo + 1, c.prevHex, after.prevHex))
            && after.seqNo == c.seqNo + 1 && IsSha256Hex(after.prevHex)
  {
    hide Envelope, IsSha256Hex, HexEncode;
    EnvelopeKeys(c, ts, event);
    var m := Envelope(c, ts, event);
    DigestIsHex(env.hash(c.prevHex, m));
    assert m[SHA := Str(DigestOf(env, c.prevHex, m))] - {SHA} == m;
  }

  /** The digest a verified line carries. */
  function Sha(line: Line): string {
    if line.Obj? && SHA in line.members && line.members[SHA].Str? then line.members[SHA].text else ""
  }

  lemma {:induction false} VerifiedSha(env: Env, line: Line)
    requires VerifyLine(env, line).Pass?
    ensures VerifyLine(env, line).value.digest == Sha(line)
  {
    hide IsSha256Hex;
  }

  /** Line `i` verifies and follows on from line `i - 1`. */
  predicate Follows(env: Env, lines: seq<Line>, i: nat)
    requires i < |lines|
  {
    var v := VerifyLine(env, lines[i]);
    v.Pass? && (i > 0 ==> v.value.prev == Sha(lines[i - 1]))
  }

  /** What `verify_file` accepts, apart from the file with no lines. */
  predicate Chained(env: Env, lines: seq<Line>) {
    forall i :: 0 <= i < |lines| ==> Follows(env, lines, i)
  }

  datatype VerifiedFile = VerifiedFile(records: nat, lastSeq: nat, lastSha: string, firstPrev: string)

  /** Outcome of `verify_file`; a fault names its line, counted from 1, or no line. */
  datatype FileVerdict = Verified(file: VerifiedFile) | Rejected(fault: AuditFault, lineno: nat)

  function Summary(env: Env, lines: seq<Line>): VerifiedFile
    requires lines != [] && Chained(env, lines)
  {
    assert Follows(env, lines, 0) && Follows(env, lines, |lines| - 1);
    VerifiedFile(|lines|, VerifyLine(env, lines[|lines| - 1]).value.seqNo, Sha(lines[|lines| - 1]),
                 VerifyLine(env, lines[0]).value.prev)
  }

  lemma {:induction false} PrefixFollows(env: Env, lines: seq<Line>, n: nat)
    requires n <= |lines| && forall i :: 0 <= i < n ==> Follows(env, lines, i)
    ensures Chained(env, lines[..n])
  {
    hide VerifyLine;
    forall i | 0 <= i < n ensures Follows(env, lines[..n], i) {
      assert Follows(env, lines, i);
    }
  }

  /** `verify_file`: accepts exactly the chained, non-empty files. A rejected line is the
      first that does not follow on. */
  method VerifyFile(env: Env, lines: seq<Line>) returns (r: FileVerdict)
    ensures r.Verified? <==> lines != [] && Chained(env, lines)
    ensures r.Verified? ==> r.file == Summary(env, lines)
    ensures r.Rejected? && r.lineno == 0 ==> lines == [] && r.fault == EmptyFile
    ensures r.Rejected? && r.lineno > 0 ==>
      && r.lineno <= |lines| && Chained(env, lines[..r.lineno - 1]) && !Follows(env, lines, r.lineno - 1)
      && r.fault == match VerifyLine(env, lines[r.lineno - 1]) { case Fail(fault) => fault case Pass(_) => PrevMismatch }
  {
    hide VerifyLine;
    var records, lastSeq, lastSha := 0, 0, GENESIS;
    var firstPrev: Option<string>, expected: Option<string> := None, None;
    for idx := 0 to |lines|
      invariant records == idx && forall i :: 0 <= i < idx ==> Follows(env, lines, i)
      invariant idx == 0 ==> firstPrev == None && expected == None
      invariant idx > 0 ==>
        && VerifyLine(env, lines[0]).Pass? && VerifyLine(env, lines[idx - 1]).Pass?
        && firstPrev == Some(VerifyLine(env, lines[0]).value.prev) && expected == Some(lastSha)
        && lastSha == Sha(lines[idx - 1]) && lastSeq == VerifyLine(env, lines[idx - 1]).value.seqNo
    {
      assert Chained(env, lines[..idx]) by {
        PrefixFollows(env, lines, idx);
      }
      var v := VerifyLine(env, lines[idx]);
      if v.Fail? {
        assert !Follows(env, lines, idx);
        return Rejected(v.fault, idx + 1);
      }
      if expected.Some? && v.value.prev != expected.value {
        assert !Follows(env, lines, idx);
        return Rejected(PrevMismatch, idx + 1);
      }
      VerifiedSha(env, lines[idx]);
      if firstPrev.None? {
        firstPrev := Some(v.value.prev);
      }
      expected := Some(v.value.digest);
      lastSeq, lastSha := v.value.seqNo, v.value.digest;
      records := records + 1;
    }
    if records == 0 {
      return Rejected(EmptyFile, 0);
    }
    return Verified(VerifiedFile(records, lastSeq, lastSha, firstPrev.value));
  }

  // ---------------------------------------------------------------- tamper evidence

  /** What was hashed into a line. */
  function Preimage(line: Line): (string, Members)
    requires line.Obj? && PREV in line.members && line.members[PREV].Str?
  {
    (line.members[PREV].text, line.members - {SHA})
  }

  predicate Hashable(line: Line) {
    line.Obj? && PREV in line.members && line.members[PREV].Str?
  }

  /** The two lines hash differently composed records to one digest. */
  predicate Collide(env: Env, a: Line, b: Line) {
    && Hashable(a) && Hashable(b) && Preimage(a) != Preimage(b)
    && env.hash(Preimage(a).0, Preimage(a).1) == env.hash(Preimage(b).0, Preimage(b).1)
  }

  lemma {:induction false} SameShaSameLine(env: Env, a: Line, b: Line)
    requires VerifyLine(env, a).Pass? && VerifyLine(env, b).Pass? && Sha(a) == Sha(b)
    ensures a == b || Collide(env, a, b)
  {
    hide IsSha256Hex, HexEncode;
    var (p, m) := Preimage(a);
    var (q, n) := Preimage(b);
    HexInjective(env.hash(p, m), env.hash(q, n));
    if m == n && p == q {
      assert a.members == m[SHA := Str(Sha(a))];
      assert b.members == n[SHA := Str(Sha(b))];
    }
  }

  /** Tamper evidence: two verifying files with the same number of records and the same
      last digest are the same file, unless records at one position collide under the hash. */
  lemma {:induction false} TamperEvidence(env: Env, a: seq<Line>, b: seq<Line>)
    requires Chained(env, a) && Chained(env, b) && |a| == |b|
    requires a != [] ==> Sha(a[|a| - 1]) == Sha(b[|b| - 1])
    ensures a == b || exists i :: 0 <= i < |a| && Collide(env, a[i], b[i])
    decreases |a|
  {
    hide VerifyLine, Collide, Sha;
    if a != [] {
      var n := |a| - 1;
      assert Follows(env, a, n) && Follows(env, b, n);
      SameShaSameLine(env, a[n], b[n]);
      if a[n] == b[n] {
        PrefixFollows(env, a, n);
        PrefixFollows(env, b, n);
        TamperEvidence(env, a[..n], b[..n]);
        assert a == a[..n] + [a[n]] && b == b[..n] + [b[n]];
        if a[..n] != b[..n] {
          var i :| 0 <= i < n && Collide(env, a[..n][i], b[..n][i]);
          assert Collide(env, a[i], b[i]);
        }
      }
    }
  }
}
