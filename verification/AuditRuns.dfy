/** The audit log over whole runs: any mix of events, failed writes, rotations and restarts. */
module AuditRuns {
  import opened ByteOrder
  import opened AuditChain
  import opened AuditSink

  /** Line `i` of the whole log verifies, is number `i + 1`, and follows line `i - 1` (or genesis). */
  predicate GenuineAt(env: Env, lines: seq<Line>, i: nat)
    requires i < |lines|
  {
    VerifyLine(env, lines[i]) == Pass(Entry(i + 1, if i == 0 then GENESIS else Sha(lines[i - 1]), Sha(lines[i])))
  }

  predicate Genuine(env: Env, lines: seq<Line>) {
    forall i :: 0 <= i < |lines| ==> GenuineAt(env, lines, i)
  }

  /** Everything ever written, in order: the closed files, then the live one. */
  function Log(s: Store): seq<Line> {
    Flatten(s.closed) + s.live
  }

  function ChainOf(lines: seq<Line>): Chain {
    if lines == [] then START else Chain(|lines|, Sha(lines[|lines| - 1]))
  }

  function Min(a: nat, b: nat): nat {
    if a <= b then a else b
  }

  predicate NoEmptyFile(files: seq<seq<Line>>) {
    forall k :: 0 <= k < |files| ==> files[k] != []
  }

  /** Rotation `.i` is the `i`-th most recently closed file, for as many as are retained. */
  ghost predicate Retained(p: Policy, s: Store) {
    && (forall i: nat :: i in s.rotations <==> 1 <= i <= Min(p.retain, |s.closed|))
    && (forall i: nat :: i in s.rotations && 1 <= i <= |s.closed| ==> s.rotations[i] == s.closed[|s.closed| - i])
  }

  ghost predicate Inv(env: Env, p: Policy, s: Store) {
    && p.Accepted()
    && Genuine(env, Log(s)) && s.chain == ChainOf(Log(s))
    && s.bytes == FileSize(env, s.live)
    && NoEmptyFile(s.closed) && Retained(p, s)
  }

  const INIT := Store([], map[], 0, START, [])

  lemma {:induction false} InitInv(env: Env, p: Policy)
    requires p.Accepted()
    ensures Inv(env, p, INIT)
  {
  }

  // ---------------------------------------------------------------- one step

  lemma {:induction false} ChainIsHex(env: Env, lines: seq<Line>)
    requires Genuine(env, lines)
    ensures IsSha256Hex(ChainOf(lines).prevHex)
  {
    hide HexEncode, Sha, IsSha256Hex;
    GenesisIsHex();
    if lines != [] {
      assert GenuineAt(env, lines, |lines| - 1);
    }
  }

  lemma {:induction false} GenesisIsHex()
    ensures IsSha256Hex(GENESIS)
  {
  }

  /** Appending a sealed line keeps the log genuine and moves the chain with it. */
  lemma {:induction false} AppendKeepsGenuine(env: Env, lines: seq<Line>, ts: nat, event: Event)
    requires Genuine(env, lines)
    ensures var (m, after) := NextLine(env, ChainOf(lines), ts, event);
            Genuine(env, lines + [Obj(m)]) && after == ChainOf(lines + [Obj(m)])
  {
    hide VerifyLine, NextLine, IsSha256Hex, Sha;
    var (m, after) := NextLine(env, ChainOf(lines), ts, event);
    var more := lines + [Obj(m)];
    ChainIsHex(env, lines);
    SealedVerifies(env, ChainOf(lines), ts, event);
    VerifiedSha(env, Obj(m));
    forall i | 0 <= i < |more| ensures GenuineAt(env, more, i) {
      if i < |lines| {
        assert GenuineAt(env, lines, i);
      }
    }
  }

  lemma {:induction false} SizeZero(env: Env, lines: seq<Line>)
    ensures FileSize(env, lines) == 0 <==> lines == []
  {
  }

  lemma {:induction false} SizeSnoc(env: Env, lines: seq<Line>, line: Line)
    ensures FileSize(env, lines + [line]) == FileSize(env, lines) + env.size(line) + 1
  {
    assert (lines + [line])[..|lines|] == lines;
  }

  lemma {:induction false} FlattenAppendFile(files: seq<seq<Line>>, file: seq<Line>)
    ensures Flatten(files + [file]) == Flatten(files) + file
  {
    assert (files + [file])[..|files|] == files;
  }

  lemma {:induction false} RotationRetains(p: Policy, s: Store)
    requires p.Accepted() && Retained(p, s)
    ensures Retained(p, RotateStep(p, s))
  {
    var r := RotateStep(p, s);
    forall i: nat
      ensures i in r.rotations <==> 1 <= i <= Min(p.retain, |r.closed|)
      ensures i in r.rotations && 1 <= i <= |r.closed| ==> r.rotations[i] == r.closed[|r.closed| - i]
    {
      if 1 < i <= p.retain {
        assert i - 1 in s.rotations <==> i - 1 <= |s.closed|;
      }
    }
  }

  /** A due rotation keeps the invariant: it only ever closes a non-empty file. */
  lemma {:induction false} RotateKeepsInv(env: Env, p: Policy, s: Store)
    requires Inv(env, p, s) && s.bytes >= p.maxBytes
    ensures Inv(env, p, RotateStep(p, s)) && Log(RotateStep(p, s)) == Log(s)
  {
    hide Genuine, Retained, Rotated, FileSize;
    SizeZero(env, s.live);
    SizeZero(env, []);
    RotationRetains(p, s);
    FlattenAppendFile(s.closed, s.live);
    assert Log(s) + [] == Log(s);
  }

  /** `emit` keeps the invariant, whether or not the write succeeds, and appends the sealed
      event to the log exactly when it does. */
  lemma {:induction false} EmitKeepsInv(env: Env, p: Policy, s: Store, event: Event, ts: nat, written: bool)
    requires Inv(env, p, s)
    ensures var t := EmitStep(env, p, s, event, ts, written);
            && Inv(env, p, t)
            && Log(t) == Log(s) + (if written then [Obj(NextLine(env, s.chain, ts, event).0)] else [])
            && (written ==> t.live != [])
  {
    hide Genuine, Retained, RotateStep, NextLine, FileSize, Flatten;
    var r := s;
    if s.bytes >= p.maxBytes {
      RotateKeepsInv(env, p, s);
      RotateKeepsChain(p, s);
      r := RotateStep(p, s);
    }
    var m := NextLine(env, r.chain, ts, event).0;
    AppendKeepsGenuine(env, Log(r), ts, event);
    SizeSnoc(env, r.live, Obj(m));
    assert Flatten(r.closed) + (r.live + [Obj(m)]) == Log(r) + [Obj(m)];
    assert Log(s) + [] == Log(s);
    RetainedKeeps(p, r, EmitStep(env, p, s, event, ts, written));
  }

  lemma {:induction false} RetainedKeeps(p: Policy, s: Store, t: Store)
    requires Retained(p, s) && s.closed == t.closed && s.rotations == t.rotations
    ensures Retained(p, t)
  {
  }

  // ---------------------------------------------------------------- files of a genuine log

  lemma {:induction false} GenuinePartChained(env: Env, a: seq<Line>, b: seq<Line>, c: seq<Line>)
    requires Genuine(env, a + b + c)
    ensures Chained(env, b)
    ensures b != [] ==> Summary(env, b) == VerifiedFile(|b|, |a| + |b|, Sha(b[|b| - 1]), ChainOf(a).prevHex)
  {
    hide VerifyLine, Sha;
    var all := a + b + c;
    forall i | 0 <= i < |b| ensures Follows(env, b, i) {
      assert GenuineAt(env, all, |a| + i);
    }
    if b != [] {
      assert GenuineAt(env, all, |a|) && GenuineAt(env, all, |a| + |b| - 1);
    }
  }

  lemma {:induction false} FlattenSplit(files: seq<seq<Line>>, k: nat)
    requires k <= |files|
    ensures Flatten(files) == Flatten(files[..k]) + Flatten(files[k..])
    decreases |files|
  {
    if k == |files| {
      assert files[..k] == files;
    } else {
      var n := |files| - 1;
      FlattenSplit(files[..n], k);
      assert files[..n][..k] == files[..k] && files[..n][k..] == files[k..][..n - k];
      assert files[k..][|files[k..]| - 1] == files[n];
    }
  }

  /** Where file `k` sits in the concatenation of all files. */
  lemma {:induction false} FlattenAround(files: seq<seq<Line>>, k: nat)
    requires k < |files|
    ensures Flatten(files) == Flatten(files[..k]) + files[k] + Flatten(files[k + 1..])
  {
    FlattenSplit(files, k + 1);
    FlattenSnoc(files, k);
  }

  /** Any run of whole files cut out of a genuine log verifies and stitches. */
  lemma {:induction false} PartStitched(env: Env, before: seq<Line>, files: seq<seq<Line>>)
    requires Genuine(env, before + Flatten(files)) && NoEmptyFile(files)
    ensures Stitched(env, files)
  {
    hide Genuine, Chained, Flatten, Sha, Summary;
    forall k | 0 <= k < |files| ensures FileFollows(env, files, k) {
      FlattenAround(files, k);
      var a := before + Flatten(files[..k]);
      assert before + Flatten(files) == a + files[k] + Flatten(files[k + 1..]);
      GenuinePartChained(env, a, files[k], Flatten(files[k + 1..]));
      if k > 0 {
        FlattenSnoc(files, k - 1);
        var prior := Flatten(files[..k - 1]);
        assert a[|a| - 1] == files[k - 1][|files[k - 1]| - 1];
      }
    }
  }

  // ---------------------------------------------------------------- what the invariant gives

  lemma {:induction false} DepthIs(rot: Rotations, d: nat)
    requires d <= 128 && (forall i :: 1 <= i <= d ==> i in rot) && d + 1 !in rot
    ensures Depth(rot, 1) == d
  {
    var e := Depth(rot, 1);
    var hit := e + 1 in rot;
  }

  /** What `rotation_stack` collects: the retained tail of the history, then the live file. */
  lemma {:induction false} StackIsRetained(p: Policy, s: Store)
    requires p.Accepted() && Retained(p, s)
    ensures var d := Min(p.retain, |s.closed|);
            RotationStack(FsOf(s)) == s.closed[|s.closed| - d..] + [s.live]
  {
    hide Depth;
    var d := Min(p.retain, |s.closed|);
    assert d + 1 !in s.rotations;
    DepthIs(s.rotations, d);
  }

  /** Export of a log kept by this sink succeeds iff the live file is not empty. It then
      holds the retained tail of the history, and all of it while nothing was dropped. */
  lemma {:induction false} ExportOfRun(env: Env, p: Policy, s: Store)
    requires Inv(env, p, s)
    ensures var files := RotationStack(FsOf(s));
            && files != []
            && (Stitched(env, files) <==> s.live != [])
            && |Flatten(files)| <= |Log(s)| && Log(s)[|Log(s)| - |Flatten(files)|..] == Flatten(files)
            && (|s.closed| <= p.retain ==> Flatten(files) == Log(s))
  {
    hide Genuine, Chained, Flatten, Retained, RotationStack, Sha, Stitched;
    StackIsRetained(p, s);
    var n := |s.closed| - Min(p.retain, |s.closed|);
    var files := s.closed[n..] + [s.live];
    FlattenSplit(s.closed, n);
    FlattenAppendFile(s.closed[n..], s.live);
    var before := Flatten(s.closed[..n]);
    assert before + Flatten(files) == Log(s);
    if s.live != [] {
      PartStitched(env, before, files);
    } else {
      EmptyNotStitched(env, files, |files| - 1);
    }
    if n == 0 {
      assert s.closed[..0] == [];
      assert before == [] by { NothingFlat(); }
    }
  }

  lemma {:induction false} NothingFlat()
    ensures Flatten([]) == []
  {
  }

  lemma {:induction false} EmptyNotStitched(env: Env, files: seq<seq<Line>>, k: nat)
    requires k < |files| && files[k] == []
    ensures !Stitched(env, files)
  {
    assert !FileFollows(env, files, k);
  }

  /** Every closed file ever, and the live one unless empty, verifies; neighbours stitch. */
  lemma {:induction false} HistoryStitches(env: Env, p: Policy, s: Store)
    requires Inv(env, p, s)
    ensures Stitched(env, s.closed + if s.live == [] then [] else [s.live])
  {
    hide Genuine, Flatten, Stitched;
    if s.live == [] {
      assert Log(s) == [] + Flatten(s.closed) && s.closed + [] == s.closed;
      PartStitched(env, [], s.closed);
    } else {
      FlattenAppendFile(s.closed, s.live);
      assert Log(s) == [] + Flatten(s.closed + [s.live]);
      PartStitched(env, [], s.closed + [s.live]);
    }
  }

  // ---------------------------------------------------------------- restart

  function Restarted(env: Env, p: Policy, s: Store, onCorrupt: OnCorrupt, ts: nat, written: bool): Option<Store> {
    Opened(env, p, FsOf(s), onCorrupt, ts, written, s.closed)
  }

  /** The sink always starts on its own files. With a non-empty live file it resumes exactly
      where it was; the invariant survives iff that or nothing was ever closed. With an empty
      live file behind closed ones the chain restarts at genesis. */
  lemma {:induction false} RestartKeepsInv(env: Env, p: Policy, s: Store, onCorrupt: OnCorrupt, ts: nat, written: bool)
    requires Inv(env, p, s)
    ensures var t := Restarted(env, p, s, onCorrupt, ts, written);
            && t.Some?
            && (s.live != [] ==> t.value == s)
            && (Inv(env, p, t.value) <==> s.live != [] || s.closed == [])
  {
    hide Genuine, Chained, VerifyLine, Retained, Sha, EmitStep;
    if s.live != [] {
      assert Log(s) == Flatten(s.closed) + s.live + [];
      GenuinePartChained(env, Flatten(s.closed), s.live, []);
    } else {
      EmptyRestart(env, p, s);
    }
  }

  /** What opening makes of any directory: it fails exactly for a policy out of range, or for a live
    file that does not verify if it is to fail on one. Otherwise rotated copies and history stay
    as they are, and the sink continues the live file; a corrupt one is set aside, and a record
    of that begins the new one, alone in a chain of its own if it could be written. */
  lemma {:induction false} OpenExactly(env: Env, p: Policy, fs: Fs, onCorrupt: OnCorrupt, ts: nat, written: bool, closed: seq<seq<Line>>)
    ensures var r := Opened(env, p, fs, onCorrupt, ts, written, closed);
            var live := if fs.live.Some? then fs.live.value else [];
            && (r.Some? <==> p.Accepted() && (Chained(env, live) || onCorrupt.RotateAside?))
            && (r.Some? ==>
              && r.value.rotations == fs.rotations && r.value.closed == closed && Chained(env, r.value.live)
              && r.value.bytes == FileSize(env, r.value.live)
              && r.value.chain == (if r.value.live == [] then START else Resumed(env, r.value.live))
              && (Chained(env, live) ==> r.value.live == live)
              && (!Chained(env, live) ==>
                if written then r.value.live == [Obj(NextLine(env, START, ts, SINK_EVENT).0)] else r.value.live == []))
  {
    hide VerifyLine, NextLine, Sha, IsSha256Hex;
    FreshFile(env, ts, SINK_EVENT);
    NewFile(env, ts, SINK_EVENT);
    var line := Obj(NextLine(env, START, ts, SINK_EVENT).0);
    assert [] + [line] == [line] && [line][..0] == [];
  }

  lemma {:induction false} NewFile(env: Env, ts: nat, event: Event)
    ensures var line := Obj(NextLine(env, START, ts, event).0);
            && Chained(env, [line]) && Resumed(env, [line]) == NextLine(env, START, ts, event).1
            && FileSize(env, [line]) == 0 + env.size(line) + 1
  {
    hide VerifyLine, NextLine, Sha, IsSha256Hex;
    GenesisIsHex();
    SealedVerifies(env, START, ts, event);
    FreshFile(env, ts, event);
    ShaOfNext(env, START, ts, event);
    var line := Obj(NextLine(env, START, ts, event).0);
    assert [line][..0] == [];
  }

  lemma {:induction false} ShaOfNext(env: Env, c: Chain, ts: nat, event: Event)
    ensures Sha(Obj(NextLine(env, c, ts, event).0)) == NextLine(env, c, ts, event).1.prevHex
  {
    hide Envelope, HexEncode;
  }

  lemma {:induction false} EmptyRestart(env: Env, p: Policy, s: Store)
    requires Inv(env, p, s) && s.live == []
    ensures Inv(env, p, Store([], s.rotations, 0, START, s.closed)) <==> s.closed == []
  {
    hide Genuine, VerifyLine, Sha;
    var t := Store([], s.rotations, 0, START, s.closed);
    if s.closed != [] {
      FlattenSnoc(s.closed, |s.closed| - 1);
      assert s.closed[..|s.closed|] == s.closed;
      assert |Log(t)| > 0 && ChainOf(Log(t)).seqNo > 0;
    }
  }

  /** The broken case, followed to its end: after such a restart the next written record
      makes export fail, unless the last digest happens to be all zeros. */
  lemma {:induction false} BrokenStitch(env: Env, p: Policy, s: Store, onCorrupt: OnCorrupt, ts: nat, event: Event, w: bool)
    requires Inv(env, p, s) && s.live == [] && s.closed != []
    ensures var t := EmitStep(env, p, Restarted(env, p, s, onCorrupt, ts, w).value, event, ts, true);
            Stitched(env, RotationStack(FsOf(t))) <==> s.chain.prevHex == GENESIS
  {
    hide Genuine, VerifyLine, Sha, NextLine, IsSha256Hex, Flatten, Chained, Summary, Retained;
    var line := Obj(NextLine(env, START, ts, event).0);
    var t := Store([line], s.rotations, 0 + env.size(line) + 1, NextLine(env, START, ts, event).1, s.closed);
    assert [] + [line] == [line];
    assert EmitStep(env, p, Restarted(env, p, s, onCorrupt, ts, w).value, event, ts, true) == t;
    RetainedKeeps(p, s, t);
    StackIsRetained(p, t);
    var n := |s.closed| - Min(p.retain, |s.closed|);
    assert Log(s) == Flatten(s.closed) by {
      assert Flatten(s.closed) + [] == Flatten(s.closed);
    }
    FlattenSplit(s.closed, n);
    PartStitched(env, Flatten(s.closed[..n]), s.closed[n..]);
    LastOfFlatten(s.closed);
    FreshFile(env, ts, event);
    LastStitch(env, s.closed[n..], [line]);
  }

  lemma {:induction false} LastOfFlatten(files: seq<seq<Line>>)
    requires files != [] && NoEmptyFile(files)
    ensures var f := files[|files| - 1];
            Flatten(files) != [] && Flatten(files)[|Flatten(files)| - 1] == f[|f| - 1]
  {
  }

  lemma {:induction false} FreshFile(env: Env, ts: nat, event: Event)
    ensures var line := Obj(NextLine(env, START, ts, event).0);
            Chained(env, [line]) && Summary(env, [line]).firstPrev == GENESIS
  {
    hide VerifyLine, NextLine, Sha, IsSha256Hex;
    var line := Obj(NextLine(env, START, ts, event).0);
    GenesisIsHex();
    SealedVerifies(env, START, ts, event);
    assert Follows(env, [line], 0);
  }

  lemma {:induction false} LastStitch(env: Env, files: seq<seq<Line>>, last: seq<Line>)
    requires files != [] && Stitched(env, files) && last != [] && Chained(env, last)
    ensures var f := files[|files| - 1];
            f != [] && (Stitched(env, files + [last]) <==> Summary(env, last).firstPrev == Sha(f[|f| - 1]))
  {
    hide Chained, Sha, Summary;
    var all := files + [last];
    assert FileFollows(env, files, |files| - 1);
    if Stitched(env, all) {
      assert FileFollows(env, all, |files|);
    }
    if Summary(env, last).firstPrev == Sha(files[|files| - 1][|files[|files| - 1]| - 1]) {
      forall k | 0 <= k < |all| ensures FileFollows(env, all, k) {
        if k < |files| {
          assert FileFollows(env, files, k);
        }
      }
    }
  }

  // ---------------------------------------------------------------- whole runs

  datatype Action =
    | Emit(event: Event, ts: nat, written: bool)
    | Restart(onCorrupt: OnCorrupt, at: nat, noted: bool)

  function Step(env: Env, p: Policy, s: Store, a: Action): Store {
    match a
    case Emit(event, ts, written) => EmitStep(env, p, s, event, ts, written)
    case Restart(onCorrupt, ts, written) =>
      match Restarted(env, p, s, onCorrupt, ts, written)
      case Some(t) => t
      case None => s
  }

  function Run(env: Env, p: Policy, actions: seq<Action>): Store {
    if actions == [] then INIT
    else Step(env, p, Run(env, p, actions[..|actions| - 1]), actions[|actions| - 1])
  }

  /** No restart finds an empty live file in front of closed ones. */
  predicate RestartsSafely(env: Env, p: Policy, actions: seq<Action>) {
    forall i :: 0 <= i < |actions| && actions[i].Restart? ==> SafePoint(Run(env, p, actions[..i]))
  }

  predicate SafePoint(s: Store) {
    s.live != [] || s.closed == []
  }

  /** The number of records in the log is the number of successful writes. */
  function Written(actions: seq<Action>): nat {
    if actions == [] then 0
    else
      var a := actions[|actions| - 1];
      Written(actions[..|actions| - 1]) + if a.Emit? && a.written then 1 else 0
  }

  /** The chain over every run: after any sequence of events, failed writes, rotations and
      restarts, the whole log is one genuine chain of exactly the records written. */
  lemma {:induction false} RunsKeepTheChain(env: Env, p: Policy, actions: seq<Action>)
    requires p.Accepted() && RestartsSafely(env, p, actions)
    ensures Inv(env, p, Run(env, p, actions)) && |Log(Run(env, p, actions))| == Written(actions)
    decreases |actions|
  {
    hide Inv, Log, EmitStep, Restarted;
    if actions == [] {
      InitInv(env, p);
      EmptyLog();
    } else {
      var n := |actions| - 1;
      assert RestartsSafely(env, p, actions[..n]) by {
        PrefixSafe(env, p, actions, n);
      }
      RunsKeepTheChain(env, p, actions[..n]);
      var s := Run(env, p, actions[..n]);
      match actions[n]
      case Emit(event, ts, written) => EmitKeepsInv(env, p, s, event, ts, written);
      case Restart(onCorrupt, ts, written) =>
        RestartKeepsInv(env, p, s, onCorrupt, ts, written);
        assert SafePoint(s);
        EmptyLogRestart(env, p, s, onCorrupt, ts, written);
    }
  }

  lemma {:induction false} EmptyLog()
    ensures Log(INIT) == []
  {
  }

  lemma {:induction false} EmptyLogRestart(env: Env, p: Policy, s: Store, onCorrupt: OnCorrupt, ts: nat, written: bool)
    requires Inv(env, p, s) && SafePoint(s)
    ensures var t := Restarted(env, p, s, onCorrupt, ts, written);
            t.Some? && Log(t.value) == Log(s)
  {
    hide Genuine, EmitStep, Chained;
    RestartKeepsInv(env, p, s, onCorrupt, ts, written);
  }

  lemma {:induction false} PrefixSafe(env: Env, p: Policy, actions: seq<Action>, n: nat)
    requires n <= |actions| && RestartsSafely(env, p, actions)
    ensures RestartsSafely(env, p, actions[..n])
  {
    hide Run;
    forall i | 0 <= i < n && actions[..n][i].Restart? ensures SafePoint(Run(env, p, actions[..n][..i])) {
      assert actions[..n][..i] == actions[..i];
      assert actions[i].Restart?;
    }
  }

  // ---------------------------------------------------------------- the broken case happens

  /** A record, and then one whose write fails after the rotation it was due. */
  function Interrupted(first: Event, second: Event): seq<Action> {
    [Emit(first, 0, true), Emit(second, 0, false)]
  }

  /** Under any hash, this short run leaves an empty live file behind a closed one, so a
      restart there breaks the chain. */
  lemma {:induction false} EmptyLiveIsReached(env: Env, first: Event, second: Event, onCorrupt: OnCorrupt, w: bool)
    ensures var p, s := Policy(1, 1), Run(env, Policy(1, 1), Interrupted(first, second));
            && Inv(env, p, s) && s.live == [] && s.closed != []
            && (var r := Restarted(env, p, s, onCorrupt, 0, w); r.Some? && !Inv(env, p, r.value))
            && s.chain == NextLine(env, START, 0, first).1
  {
    hide Inv, NextLine, Rotated, Opened;
    var p := Policy(1, 1);
    var actions := Interrupted(first, second);
    RunsKeepTheChain(env, p, actions);
    assert actions[..1] == [Emit(first, 0, true)] && actions[..1][..0] == [];
    var r := Run(env, p, actions[..1]);
    assert Run(env, p, []) == INIT && actions[..1][|actions[..1]| - 1] == Emit(first, 0, true);
    assert r == Step(env, p, Run(env, p, actions[..1][..0]), Emit(first, 0, true)) == EmitStep(env, p, INIT, first, 0, true);
    var size: nat := env.size(Obj(NextLine(env, START, 0, first).0));
    assert r.bytes == size + 1 && r.live != [];
    assert actions[|actions| - 1] == Emit(second, 0, false);
    assert Run(env, p, actions) == EmitStep(env, p, r, second, 0, false) == RotateStep(p, r);
    RestartKeepsInv(env, p, Run(env, p, actions), onCorrupt, 0, w);
  }

  /** A hash whose digests are never all zeros. */
  function ExampleEnv(): Env {
    Env((prev: string, m: Members) => Ones(), (line: Line) => 1)
  }

  function Ones(): Digest {
    seq(32, _ => 1)
  }

  /** There the next record after the restart makes export fail. */
  lemma {:induction false} BrokenStitchHappens(first: Event, second: Event, third: Event)
    ensures var p, s := Policy(1, 1), Run(ExampleEnv(), Policy(1, 1), Interrupted(first, second));
            var r := Restarted(ExampleEnv(), p, s, FailStart, 0, true);
            r.Some? && !Stitched(ExampleEnv(), RotationStack(FsOf(EmitStep(ExampleEnv(), p, r.value, third, 0, true))))
  {
    hide Inv, Run, Opened, EmitStep, RotationStack, Stitched, HexEncode;
    var s := Run(ExampleEnv(), Policy(1, 1), Interrupted(first, second));
    EmptyLiveIsReached(ExampleEnv(), first, second, FailStart, true);
    BrokenStitch(ExampleEnv(), Policy(1, 1), s, FailStart, 0, third, true);
    assert s.chain.prevHex == HexEncode(Ones());
    OnesAreNotGenesis();
  }

  lemma {:induction false} OnesAreNotGenesis()
    ensures HexEncode(Ones()) != GENESIS
  {
    assert HexEncode(Ones())[63] == HEX[1];
    assert GENESIS[63] == '0';
  }
}
