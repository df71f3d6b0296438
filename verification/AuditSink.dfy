/** The file sink: appending, rotation, restart and export. The file system is a live file
    and numbered rotations, each a list of lines; a write appends a whole line or nothing,
    and renames succeed. */
module AuditSink {
  import opened ByteOrder
  import opened AuditChain

  datatype Policy = Policy(maxBytes: nat, retain: nat) {
    predicate Accepted() {
      maxBytes >= 1 && 1 <= retain <= 64
    }
  }

  datatype OnCorrupt = FailStart | RotateAside

  type Rotations = map<nat, seq<Line>>

  datatype Fs = Fs(live: Option<seq<Line>>, rotations: Rotations)

  /** The sink between events. `closed` is history: every file ever rotated out, oldest
      first, including those retention has since dropped. */
  datatype Store = Store(live: seq<Line>, rotations: Rotations, bytes: nat, chain: Chain, closed: seq<seq<Line>>)

  function FsOf(s: Store): Fs {
    Fs(Some(s.live), s.rotations)
  }

  function FileSize(env: Env, lines: seq<Line>): nat {
    if lines == [] then 0 else FileSize(env, lines[..|lines| - 1]) + env.size(lines[|lines| - 1]) + 1
  }

  /** `rotate_live`'s renames: every retained copy moves up one place, the live file becomes
      `.1`, and the copy at the retention limit goes. Copies beyond the limit stay. */
  function Rotated(rot: Rotations, live: seq<Line>, retain: nat): Rotations {
    (map i | i in rot && (i == 0 || i > retain) :: rot[i])
    + (map i: nat | 1 <= i <= retain && Fills(rot, i) :: if i == 1 then live else rot[i - 1])
  }

  /** Place `i` is filled by a rotation: from the live file, or from the place before. */
  predicate Fills(rot: Rotations, i: nat) {
    i == 1 || (i > 1 && i - 1 in rot)
  }

  function RotateStep(p: Policy, s: Store): Store {
    Store([], Rotated(s.rotations, s.live, p.retain), 0, s.chain, s.closed + [s.live])
  }

  function EmitStep(env: Env, p: Policy, s: Store, event: Event, ts: nat, written: bool): Store {
    var r := if s.bytes >= p.maxBytes then RotateStep(p, s) else s;
    var (m, after) := NextLine(env, r.chain, ts, event);
    if written then r.(live := r.live + [Obj(m)], bytes := r.bytes + env.size(Obj(m)) + 1, chain := after) else r
  }

  /** The chain that continues a verifying live file. */
  function Resumed(env: Env, live: seq<Line>): Chain
    requires live != [] && Chained(env, live)
  {
    Chain(Summary(env, live).lastSeq, Summary(env, live).lastSha)
  }

  const SINK_EVENT := Object(map["event" := Str("audit_sink"), "decision" := Str("rotate"), "reason" := Str("integrity_fail")])

  /** `AuditSink::file` over whatever the directory holds: continue a verifying live file,
      refuse or set aside one that does not verify, start afresh on an empty one. */
  function Opened(env: Env, p: Policy, fs: Fs, onCorrupt: OnCorrupt, ts: nat, written: bool, closed: seq<seq<Line>>)
    : Option<Store>
  {
    if !p.Accepted() then None
    else if fs.live.None? || fs.live.value == [] then Some(Store([], fs.rotations, 0, START, closed))
    else if Chained(env, fs.live.value) then
      Some(Store(fs.live.value, fs.rotations, FileSize(env, fs.live.value), Resumed(env, fs.live.value), closed))
    else if onCorrupt.FailStart? then None
    else Some(EmitStep(env, p, Store([], fs.rotations, 0, START, closed), SINK_EVENT, ts, written))
  }

  // ---------------------------------------------------------------- the sink

  class Sink {
    const env: Env
    const policy: Policy
    var live: seq<Line>
    var rotations: Rotations
    var bytes: nat
    var chain: Chain
    var events: nat
    var writeErrors: nat
    var integrityOk: bool
    ghost var closed: seq<seq<Line>>

    ghost function Abs(): Store
      reads this
    {
      Store(live, rotations, bytes, chain, closed)
    }

    constructor (e: Env, p: Policy, ghost s: Store, l: seq<Line>, r: Rotations, b: nat, c: Chain)
      requires s == Store(l, r, b, c, s.closed)
      ensures Abs() == s && env == e && policy == p && events == 0 && writeErrors == 0 && integrityOk
    {
      env, policy := e, p;
      live, rotations, bytes, chain, closed := l, r, b, c, s.closed;
      events, writeErrors, integrityOk := 0, 0, true;
    }

    /** `rotate_live`. */
    method RotateLive()
      requires policy.Accepted()
      modifies this
      ensures Abs() == RotateStep(policy, old(Abs()))
      ensures events == old(events) && writeErrors == old(writeErrors) && integrityOk == old(integrityOk)
    {
      hide Shifted, Rotated;
      rotations := ShiftUp(rotations, policy.retain);
      ShiftedIsRotated(old(rotations), rotations, live, policy.retain);
      rotations := rotations[1 := live];
      closed := closed + [live];
      live := [];
      bytes := 0;
    }

    /** `emit`: rotate if due, seal, append; a line that could not be written is rewound, so
        the chain never runs ahead of the file. Every event is also printed. */
    method Emit(event: Event, ts: nat, written: bool) returns (line: Line)
      requires policy.Accepted()
      modifies this
      ensures Abs() == EmitStep(env, policy, old(Abs()), event, ts, written)
      ensures line == Obj(NextLine(env, old(chain), ts, event).0)
      ensures events == old(events) + 1
      ensures writeErrors == old(writeErrors) + if written then 0 else 1
      ensures integrityOk == (old(integrityOk) && written)
    {
      hide RotateStep, NextLine, RewindChain;
      if bytes >= policy.maxBytes {
        RotateLive();
        assert chain == old(chain) by {
          RotateKeepsChain(policy, old(Abs()));
        }
      }
      ghost var before := Abs();
      RewindUndoesNextLine(env, chain, ts, event);
      var (m, after) := NextLine(env, chain, ts, event);
      chain := after;
      line := Obj(m);
      if written {
        live := live + [line];
        bytes := bytes + env.size(line) + 1;
      } else {
        writeErrors := writeErrors + 1;
        integrityOk := false;
        chain := RewindChain(chain, line);
      }
      events := events + 1;
    }
  }

  /** The renames done so far, down from the retention limit: places up to `index` are
      untouched, the next is vacant, the rest hold what stood one below. */
  ghost predicate Shifted(was: Rotations, now: Rotations, index: nat, retain: nat) {
    && index + 1 !in now
    && (forall i: nat :: i <= index || i > retain ==> (i in now <==> i in was))
    && (forall i: nat :: (i <= index || i > retain) && i in was && i in now ==> now[i] == was[i])
    && (forall i: nat :: index + 1 < i <= retain ==> (i in now <==> i - 1 in was))
    && (forall i: nat :: index + 1 < i <= retain && i in now && i - 1 in was ==> now[i] == was[i - 1])
  }

  lemma {:induction false} ShiftedIsRotated(was: Rotations, now: Rotations, live: seq<Line>, retain: nat)
    requires retain >= 1 && Shifted(was, now, 0, retain)
    ensures now[1 := live] == Rotated(was, live, retain)
  {
  }

  lemma {:induction false} ShiftStarts(was: Rotations, retain: nat)
    requires retain >= 1
    ensures Shifted(was, was - {retain}, retain - 1, retain)
  {
  }

  lemma {:induction false} ShiftMoves(was: Rotations, now: Rotations, index: nat, retain: nat)
    requires 1 <= index < retain && Shifted(was, now, index, retain)
    ensures Shifted(was, if index in now then now[index + 1 := now[index]] - {index} else now, index - 1, retain)
  {
  }

  /** Remove the oldest copy, then rename `.i` to `.i+1` from the top down. */
  method ShiftUp(was: Rotations, retain: nat) returns (now: Rotations)
    requires retain >= 1
    ensures Shifted(was, now, 0, retain)
  {
    hide Shifted;
    now := was - {retain};
    var index := retain - 1;
    ShiftStarts(was, retain);
    while index >= 1
      invariant 0 <= index < retain && Shifted(was, now, index, retain)
    {
      ShiftMoves(was, now, index, retain);
      if index in now {
        now := now[index + 1 := now[index]] - {index};
      }
      index := index - 1;
    }
  }

  lemma {:induction false} RotateKeepsChain(p: Policy, s: Store)
    ensures RotateStep(p, s).chain == s.chain
  {
  }

  /** `AuditSink::file`. */
  method Open(env: Env, p: Policy, fs: Fs, onCorrupt: OnCorrupt, ts: nat, written: bool, ghost closed: seq<seq<Line>>)
    returns (r: Option<Sink>)
    ensures r.Some? <==> Opened(env, p, fs, onCorrupt, ts, written, closed).Some?
    ensures r.Some? ==>
      && fresh(r.value) && r.value.env == env && r.value.policy == p
      && r.value.Abs() == Opened(env, p, fs, onCorrupt, ts, written, closed).value
  {
    hide VerifyLine, EmitStep;
    if p.maxBytes == 0 || p.retain < 1 || p.retain > 64 {
      return None;
    }
    var chain, rotatedCorrupt := START, false;
    var live: seq<Line> := [];
    if fs.live.Some? && fs.live.value != [] {
      var v := VerifyFile(env, fs.live.value);
      match v {
        case Verified(file) =>
          chain, live := Chain(file.lastSeq, file.lastSha), fs.live.value;
        case Rejected(_, _) =>
          if onCorrupt.FailStart? {
            return None;
          }
          rotatedCorrupt := true;
      }
    }
    var bytes := FileSize(env, live);
    var sink := new Sink(env, p, Store(live, fs.rotations, bytes, chain, closed), live, fs.rotations, bytes, chain);
    if rotatedCorrupt {
      var _ := sink.Emit(SINK_EVENT, ts, written);
    }
    return Some(sink);
  }

  // ---------------------------------------------------------------- export

  /** How many rotations `rotation_stack` finds: consecutive from `.1`, at most 128. */
  function Depth(rot: Rotations, n: nat): (d: nat)
    requires 1 <= n <= 129 && forall i :: 1 <= i < n ==> i in rot
    ensures d <= 128 && (forall i :: 1 <= i <= d ==> i in rot) && (d < 128 ==> d + 1 !in rot)
    decreases 129 - n
  {
    if n > 128 || n !in rot then n - 1 else Depth(rot, n + 1)
  }

  /** Rotations `.d` down to `.1`, oldest first. */
  function Newest(rot: Rotations, d: nat): (files: seq<seq<Line>>)
    requires forall i :: 1 <= i <= d ==> i in rot
    ensures |files| == d && forall k :: 0 <= k < d ==> files[k] == rot[d - k]
  {
    if d == 0 then [] else [rot[d]] + Newest(rot, d - 1)
  }

  /** The files to export, oldest first. */
  function RotationStack(fs: Fs): seq<seq<Line>> {
    Newest(fs.rotations, Depth(fs.rotations, 1)) + if fs.live.Some? then [fs.live.value] else []
  }

  method StackDepth(rot: Rotations) returns (n: nat)
    ensures n == Depth(rot, 1) + 1
  {
    hide Depth;
    n := 1;
    while n in rot
      invariant 1 <= n <= 128 && forall i :: 1 <= i < n ==> i in rot
      invariant Depth(rot, 1) == Depth(rot, n)
      decreases 129 - n
    {
      n := n + 1;
      if n > 128 {
        break;
      }
    }
  }

  method CollectStack(fs: Fs) returns (files: seq<seq<Line>>)
    ensures files == RotationStack(fs)
  {
    hide Depth;
    var n := StackDepth(fs.rotations);
    files := CollectNewest(fs.rotations, n - 1);
    if fs.live.Some? {
      files := files + [fs.live.value];
    }
  }

  method CollectNewest(rot: Rotations, d: nat) returns (files: seq<seq<Line>>)
    requires forall i :: 1 <= i <= d ==> i in rot
    ensures files == Newest(rot, d)
  {
    hide Newest;
    files := [];
    var index := d;
    while index >= 1
      invariant 0 <= index <= d && |files| == d - index
      invariant forall k :: 0 <= k < |files| ==> files[k] == rot[d - k]
    {
      files := files + [rot[index]];
      index := index - 1;
    }
  }

  function Flatten(files: seq<seq<Line>>): seq<Line> {
    if files == [] then [] else Flatten(files[..|files| - 1]) + files[|files| - 1]
  }

  /** File `k` verifies and its first record continues the file before it. */
  predicate FileFollows(env: Env, files: seq<seq<Line>>, k: nat)
    requires k < |files|
  {
    && files[k] != [] && Chained(env, files[k])
    && (k > 0 && files[k - 1] != [] ==> Summary(env, files[k]).firstPrev == Sha(files[k - 1][|files[k - 1]| - 1]))
  }

  predicate Stitched(env: Env, files: seq<seq<Line>>) {
    forall k :: 0 <= k < |files| ==> FileFollows(env, files, k)
  }

  datatype ExportFault = NoFile | BadFile(file: nat, fault: AuditFault, lineno: nat) | NotStitched(file: nat)
  datatype ExportReport = ExportReport(files: nat, records: nat, lastSha: string)
  datatype Export = Exported(dest: seq<Line>, report: ExportReport) | Refused(fault: ExportFault)

  lemma {:induction false} ChainedAppend(env: Env, a: seq<Line>, b: seq<Line>)
    requires Chained(env, a) && Chained(env, b)
    requires a != [] && b != [] ==> Summary(env, b).firstPrev == Sha(a[|a| - 1])
    ensures Chained(env, a + b)
  {
    hide VerifyLine;
    forall i | 0 <= i < |a + b| ensures Follows(env, a + b, i) {
      if i < |a| {
        assert Follows(env, a, i);
      } else {
        assert Follows(env, b, i - |a|);
      }
    }
  }

  lemma {:induction false} FlattenSnoc(files: seq<seq<Line>>, k: nat)
    requires k < |files|
    ensures Flatten(files[..k + 1]) == Flatten(files[..k]) + files[k]
  {
    assert files[..k + 1][..k] == files[..k];
  }

  /** A stitched stack, concatenated, is itself one verifying file with the last digest of
      its last member. */
  lemma {:induction false} StitchedIsOneFile(env: Env, files: seq<seq<Line>>, k: nat)
    requires k <= |files| && Stitched(env, files)
    ensures Chained(env, Flatten(files[..k]))
    ensures k > 0 ==> FileFollows(env, files, k - 1) && files[k - 1] != []
    ensures k > 0 ==> Flatten(files[..k]) != [] && Sha(Flatten(files[..k])[|Flatten(files[..k])| - 1]) == Sha(files[k - 1][|files[k - 1]| - 1])
    decreases k
  {
    hide Chained, Sha;
    if k > 0 {
      StitchedIsOneFile(env, files, k - 1);
      FlattenSnoc(files, k - 1);
      assert FileFollows(env, files, k - 1);
      if k > 1 {
        assert FileFollows(env, files, k - 2);
        ChainedAppend(env, Flatten(files[..k - 1]), files[k - 1]);
      } else {
        assert Flatten(files[..0]) == [] && [] + files[0] == files[0];
      }
    } else {
      NoLines(env);
    }
  }

  lemma {:induction false} NoLines(env: Env)
    ensures Chained(env, [])
  {
  }

  lemma {:induction false} StackIsOneFile(env: Env, files: seq<seq<Line>>, verified: seq<VerifiedFile>)
    requires files != [] && Stitched(env, files)
    requires |verified| == |files| && forall j :: 0 <= j < |files| ==> Vouched(env, files[j], verified[j])
    ensures Chained(env, Flatten(files)) && Flatten(files) != []
    ensures Sha(Flatten(files)[|Flatten(files)| - 1]) == verified[|files| - 1].lastSha
  {
    hide Chained, Sha, Flatten;
    StitchedIsOneFile(env, files, |files|);
    assert files[..|files|] == files;
    assert Vouched(env, files[|files| - 1], verified[|files| - 1]);
  }

  /** `export_chain`: succeeds exactly on a non-empty, verifying, stitched stack; its final
      re-verification and record count then cannot fail. */
  method ExportChain(env: Env, fs: Fs) returns (r: Export)
    ensures r.Exported? <==> RotationStack(fs) != [] && Stitched(env, RotationStack(fs))
    ensures r.Exported? ==>
      && r.dest == Flatten(RotationStack(fs)) && r.dest != [] && Chained(env, r.dest)
      && r.report == ExportReport(|RotationStack(fs)|, |r.dest|, Sha(r.dest[|r.dest| - 1]))
  {
    hide Chained, Sha, RotationStack, Stitched, Flatten, Vouched;
    var files := CollectStack(fs);
    if files == [] {
      return Refused(NoFile);
    }
    var fault, verified := VerifyAll(env, files);
    if fault.Some? {
      return Refused(fault.value);
    }
    fault := CheckStitches(env, files, verified);
    if fault.Some? {
      return Refused(fault.value);
    }
    var out, records := ConcatFiles(env, files, verified);
    StackIsOneFile(env, files, verified);
    var check := VerifyFile(env, out);
    if check.Rejected? || check.file.records != records {
      assert false;
    }
    return Exported(out, ExportReport(|files|, records, verified[|verified| - 1].lastSha));
  }

  /** First pass: every file on its own. */
  method VerifyAll(env: Env, files: seq<seq<Line>>) returns (fault: Option<ExportFault>, verified: seq<VerifiedFile>)
    ensures fault.Some? ==> !Stitched(env, files)
    ensures fault.None? ==> |verified| == |files| && forall j :: 0 <= j < |files| ==> Vouched(env, files[j], verified[j])
  {
    hide Chained, Sha;
    verified := [];
    for k := 0 to |files|
      invariant |verified| == k && forall j :: 0 <= j < k ==> Vouched(env, files[j], verified[j])
    {
      var v := VerifyFile(env, files[k]);
      if v.Rejected? {
        assert !FileFollows(env, files, k);
        return Some(BadFile(k, v.fault, v.lineno)), verified;
      }
      verified := verified + [v.file];
    }
    return None, verified;
  }

  predicate Vouched(env: Env, file: seq<Line>, v: VerifiedFile) {
    file != [] && Chained(env, file) && v == Summary(env, file)
  }

  /** Second pass: neighbours. */
  method CheckStitches(env: Env, files: seq<seq<Line>>, verified: seq<VerifiedFile>) returns (fault: Option<ExportFault>)
    requires |verified| == |files| && forall j :: 0 <= j < |files| ==> Vouched(env, files[j], verified[j])
    requires files != []
    ensures fault.None? <==> Stitched(env, files)
  {
    hide Chained, Sha;
    assert Vouched(env, files[0], verified[0]) && FileFollows(env, files, 0);
    for k := 1 to |files|
      invariant forall j :: 0 <= j < k ==> FileFollows(env, files, j)
    {
      assert Vouched(env, files[k - 1], verified[k - 1]) && Vouched(env, files[k], verified[k]);
      if verified[k].firstPrev != verified[k - 1].lastSha {
        assert !FileFollows(env, files, k);
        return Some(NotStitched(k));
      }
      assert FileFollows(env, files, k);
    }
    return None;
  }

  method ConcatFiles(env: Env, files: seq<seq<Line>>, verified: seq<VerifiedFile>) returns (out: seq<Line>, records: nat)
    requires |verified| == |files| && forall j :: 0 <= j < |files| ==> Vouched(env, files[j], verified[j])
    ensures out == Flatten(files) && records == |out|
  {
    out, records := [], 0;
    for k := 0 to |files|
      invariant out == Flatten(files[..k]) && records == |out|
    {
      FlattenSnoc(files, k);
      assert Vouched(env, files[k], verified[k]);
      out := out + files[k];
      records := records + verified[k].records;
    }
    assert files[..|files|] == files;
  }
}
