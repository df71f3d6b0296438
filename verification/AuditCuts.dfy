/** Where the audit log is cut into files, and what each record holds, over every run. */
module AuditCuts {
  import opened ByteOrder
  import opened AuditChain
  import opened AuditSink
  import opened AuditRuns

  // ---------------------------------------------------------------- where files end

  /** A file that was full with its last record, and not before. */
  predicate Full(env: Env, p: Policy, file: seq<Line>) {
    file != [] && FileSize(env, file) >= p.maxBytes && FileSize(env, file[..|file| - 1]) < p.maxBytes
  }

  /** A live file that was not full before its last record. */
  predicate Growing(env: Env, p: Policy, live: seq<Line>) {
    live != [] ==> FileSize(env, live[..|live| - 1]) < p.maxBytes
  }

  predicate AllFull(env: Env, p: Policy, files: seq<seq<Line>>) {
    forall k :: 0 <= k < |files| ==> Full(env, p, files[k])
  }

  /** The sink's chain continues its live file, whatever came before it. */
  predicate Continues(env: Env, s: Store) {
    && IsSha256Hex(s.chain.prevHex)
    && (s.live != [] ==> Chained(env, s.live) && s.chain == Resumed(env, s.live))
  }

  predicate Cut(env: Env, p: Policy, s: Store) {
    s.bytes == FileSize(env, s.live) && AllFull(env, p, s.closed) && Growing(env, p, s.live)
  }

  lemma {:induction false} AppendContinues(env: Env, s: Store, ts: nat, event: Event)
    requires Continues(env, s)
    ensures var (m, after) := NextLine(env, s.chain, ts, event);
            Continues(env, s.(live := s.live + [Obj(m)], bytes := s.bytes + env.size(Obj(m)) + 1, chain := after))
  {
    hide VerifyLine, NextLine, IsSha256Hex, Sha;
    var (m, after) := NextLine(env, s.chain, ts, event);
    var more := s.live + [Obj(m)];
    SealedVerifies(env, s.chain, ts, event);
    VerifiedSha(env, Obj(m));
    forall i | 0 <= i < |more| ensures Follows(env, more, i) {
      if i < |s.live| {
        assert Follows(env, s.live, i);
      }
    }
  }

  lemma {:induction false} EmitCuts(env: Env, p: Policy, s: Store, event: Event, ts: nat, written: bool)
    requires p.Accepted() && Continues(env, s) && Cut(env, p, s)
    ensures var t := EmitStep(env, p, s, event, ts, written);
            Continues(env, t) && Cut(env, p, t)
  {
    hide Rotated, NextLine, Chained, Summary, FileSize, IsSha256Hex, Continues;
    SizeZero(env, s.live);
    SizeZero(env, []);
    var r := if s.bytes >= p.maxBytes then RotateStep(p, s) else s;
    assert Continues(env, r) by {
      RotationContinues(env, p, s);
    }
    var line := Obj(NextLine(env, r.chain, ts, event).0);
    SizeSnoc(env, r.live, line);
    assert (r.live + [line])[..|r.live|] == r.live;
    AppendContinues(env, r, ts, event);
  }

  lemma {:induction false} RotationContinues(env: Env, p: Policy, s: Store)
    requires Continues(env, s)
    ensures Continues(env, RotateStep(p, s))
  {
    hide Rotated, IsSha256Hex, Chained;
  }

  lemma {:induction false} RestartCuts(env: Env, p: Policy, s: Store, onCorrupt: OnCorrupt, ts: nat, written: bool)
    requires p.Accepted() && Continues(env, s) && Cut(env, p, s)
    ensures var t := Restarted(env, p, s, onCorrupt, ts, written);
            t.Some? && Continues(env, t.value) && Cut(env, p, t.value) && t.value.live == s.live && t.value.closed == s.closed
  {
    hide Chained, EmitStep, IsSha256Hex;
    GenesisIsHex();
    SizeZero(env, []);
  }

  /** Over every run, restarts of any kind and failed writes included: each closed file was
      full with its last record and not before, and the live file was not full before its. */
  lemma {:induction false} FilesEndWhenFull(env: Env, p: Policy, actions: seq<Action>)
    requires p.Accepted()
    ensures var s := Run(env, p, actions);
            && Continues(env, s) && s.bytes == FileSize(env, s.live)
            && AllFull(env, p, s.closed) && Growing(env, p, s.live)
    decreases |actions|
  {
    hide Continues, EmitStep, Restarted, Full, Growing;
    if actions == [] {
      assert Continues(env, INIT) && Growing(env, p, INIT.live) by {
        InitContinues(env, p);
      }
      SizeZero(env, []);
    } else {
      var n := |actions| - 1;
      FilesEndWhenFull(env, p, actions[..n]);
      var s := Run(env, p, actions[..n]);
      match actions[n]
      case Emit(event, ts, written) => EmitCuts(env, p, s, event, ts, written);
      case Restart(onCorrupt, ts, written) => RestartCuts(env, p, s, onCorrupt, ts, written);
    }
  }

  lemma {:induction false} InitContinues(env: Env, p: Policy)
    ensures Continues(env, INIT) && Growing(env, p, [])
  {
    hide IsSha256Hex;
    GenesisIsHex();
  }

  // ---------------------------------------------------------------- there is one such cut

  lemma {:induction false} SizeGrows(env: Env, lines: seq<Line>)
    requires lines != []
    ensures FileSize(env, lines[..|lines| - 1]) < FileSize(env, lines)
  {
    var size: nat := env.size(lines[|lines| - 1]);
  }

  /** A cut with its last record taken off. */
  function Shorter(files: seq<seq<Line>>, live: seq<Line>): (seq<seq<Line>>, seq<Line>)
    requires live != []
  {
    if |live| > 1 || files == [] then (files, live[..|live| - 1]) else (files[..|files| - 1], files[|files| - 1])
  }

  lemma {:induction false} ShorterIsCut(env: Env, p: Policy, files: seq<seq<Line>>, live: seq<Line>)
    requires p.Accepted() && AllFull(env, p, files) && Growing(env, p, live) && live != []
    ensures var (fs, l) := Shorter(files, live);
            && AllFull(env, p, fs) && Growing(env, p, l) && (l == [] ==> fs == [])
            && Flatten(files) + live == (Flatten(fs) + l) + [live[|live| - 1]]
            && (|live| > 1 ==> FileSize(env, l) < p.maxBytes) && (|live| == 1 && files != [] ==> FileSize(env, l) >= p.maxBytes)
  {
    hide FileSize, Flatten;
    var (fs, l) := Shorter(files, live);
    var x := live[|live| - 1];
    SizeZero(env, []);
    assert live == live[..|live| - 1] + [x];
    if |live| > 1 {
      SizeGrows(env, l);
    } else if files != [] {
      var n := |files| - 1;
      assert Full(env, p, files[n]) && files == files[..n] + [files[n]];
      FlattenAppendFile(files[..n], files[n]);
    }
  }

  /** Two cuts of one log into full files and a growing one are the same cut. */
  lemma {:induction false} CutIsUnique(env: Env, p: Policy, a: seq<seq<Line>>, la: seq<Line>, b: seq<seq<Line>>, lb: seq<Line>)
    requires p.Accepted() && AllFull(env, p, a) && Growing(env, p, la) && AllFull(env, p, b) && Growing(env, p, lb)
    requires Flatten(a) + la == Flatten(b) + lb && (la == [] ==> a == []) && (lb == [] ==> b == [])
    ensures a == b && la == lb
    decreases |Flatten(a) + la|
  {
    hide AllFull, Growing, FileSize, Flatten;
    assert Flatten([]) == [] by { NothingFlat(); }
    if la != [] && lb != [] {
      var (fa, ka) := Shorter(a, la);
      var (fb, kb) := Shorter(b, lb);
      ShorterIsCut(env, p, a, la);
      ShorterIsCut(env, p, b, lb);
      SameInit(Flatten(fa) + ka, la[|la| - 1], Flatten(fb) + kb, lb[|lb| - 1]);
      CutIsUnique(env, p, fa, ka, fb, kb);
      SizeZero(env, ka);
      assert la == la[..|la| - 1] + [la[|la| - 1]] && lb == lb[..|lb| - 1] + [lb[|lb| - 1]];
      assert a != [] ==> a == a[..|a| - 1] + [a[|a| - 1]];
      assert b != [] ==> b == b[..|b| - 1] + [b[|b| - 1]];
    }
  }

  lemma {:induction false} SameInit(a: seq<Line>, x: Line, b: seq<Line>, y: Line)
    requires a + [x] == b + [y]
    ensures a == b && x == y
  {
    assert (a + [x])[..|a|] == a && (b + [y])[..|b|] == b;
    assert (a + [x])[|a|] == x && (b + [y])[|b|] == y;
  }

  /** The files of a run are that cut of its log; before the first record of a new file the
      last closed one is still its growing end. */
  lemma {:induction false} FilesAreTheCut(env: Env, p: Policy, actions: seq<Action>, files: seq<seq<Line>>, live: seq<Line>)
    requires p.Accepted() && AllFull(env, p, files) && Growing(env, p, live) && (live == [] ==> files == [])
    requires Flatten(files) + live == Log(Run(env, p, actions))
    ensures var s := Run(env, p, actions);
            if s.live != [] || s.closed == [] then files == s.closed && live == s.live else files + [live] == s.closed
  {
    hide Run, FileSize, Flatten, Continues;
    var s := Run(env, p, actions);
    FilesEndWhenFull(env, p, actions);
    if s.live != [] || s.closed == [] {
      CutIsUnique(env, p, files, live, s.closed, s.live);
    } else {
      var n := |s.closed| - 1;
      assert Full(env, p, s.closed[n]) && s.closed == s.closed[..n] + [s.closed[n]];
      FlattenAppendFile(s.closed[..n], s.closed[n]);
      assert Flatten(s.closed) + [] == Flatten(s.closed);
      CutIsUnique(env, p, files, live, s.closed[..n], s.closed[n]);
    }
  }

  // ---------------------------------------------------------------- what records hold

  /** The events that were written, with their timestamps, in order. */
  function WrittenEvents(actions: seq<Action>): seq<(Event, nat)> {
    if actions == [] then []
    else
      var a := actions[|actions| - 1];
      WrittenEvents(actions[..|actions| - 1]) + if a.Emit? && a.written then [(a.event, a.ts)] else []
  }

  /** What an event has under `key`, if anything; a value that is no object is wrapped. */
  function EventAt(event: Event, key: string): Option<Json> {
    match event
    case Object(members) => if key in members then Some(members[key]) else None
    case Opaque(value) => if key == "event" then Some(Str("opaque")) else if key == "value" then Some(value) else None
  }

  function At(m: Members, key: string): Option<Json> {
    if key in m then Some(m[key]) else None
  }

  /** Under every key that is not the sink's own, exactly what the event has there. */
  ghost predicate HoldsEvent(m: Members, event: Event) {
    forall key :: key !in RESERVED ==> At(m, key) == EventAt(event, key)
  }

  /** A record of `event`, number `n`, sealed at `ts` after the record with digest `prev`. */
  ghost predicate RecordOf(line: Line, event: Event, ts: nat, n: nat, prev: string) {
    && line.Obj? && HoldsEvent(line.members, event)
    && SEQ in line.members && line.members[SEQ] == Num(n) && TS in line.members && line.members[TS] == Num(ts)
    && PREV in line.members && line.members[PREV] == Str(prev)
  }

  lemma {:induction false} SealedHolds(env: Env, c: Chain, ts: nat, event: Event)
    ensures RecordOf(Obj(NextLine(env, c, ts, event).0), event, ts, c.seqNo + 1, c.prevHex)
  {
    hide HexEncode;
    assert |SEQ| == 3 && |TS| == 2 && |PREV| == 11 && |SHA| == 6 && |"event"| == 5 && |"value"| == 5;
    assert "event"[0] == 'e' && "value"[0] == 'v';
  }

  /** Record `i` of the log is that of the `i`-th event written, number `i + 1`. */
  ghost predicate Records(log: seq<Line>, events: seq<(Event, nat)>, i: nat)
    requires i < |log| == |events|
  {
    RecordOf(log[i], events[i].0, events[i].1, i + 1, if i == 0 then GENESIS else Sha(log[i - 1]))
  }

  /** The log is its events, in order, each with its own time, number and predecessor. */
  lemma {:induction false} LogIsTheEvents(env: Env, p: Policy, actions: seq<Action>)
    requires p.Accepted() && RestartsSafely(env, p, actions)
    ensures var log, events := Log(Run(env, p, actions)), WrittenEvents(actions);
            |log| == |events| && forall i :: 0 <= i < |log| ==> Records(log, events, i)
    decreases |actions|
  {
    hide Inv, Log, EmitStep, Restarted, RecordOf, NextLine, Sha, RestartsSafely;
    if actions == [] {
      EmptyLog();
    } else {
      var n := |actions| - 1;
      assert RestartsSafely(env, p, actions[..n]) by {
        PrefixSafe(env, p, actions, n);
      }
      RunsKeepTheChain(env, p, actions[..n]);
      LogIsTheEvents(env, p, actions[..n]);
      var s := Run(env, p, actions[..n]);
      assert Log(s) + [] == Log(s) && WrittenEvents(actions[..n]) + [] == WrittenEvents(actions[..n]);
      match actions[n]
      case Emit(event, ts, written) =>
        EmitKeepsInv(env, p, s, event, ts, written);
        ChainIsOfLog(env, p, s);
        SealedHolds(env, s.chain, ts, event);
        if written {
          RecordsGrow(Log(s), WrittenEvents(actions[..n]), Obj(NextLine(env, s.chain, ts, event).0), event, ts, s.chain);
        }
      case Restart(onCorrupt, ts, written) =>
        LastIsSafe(env, p, actions);
        EmptyLogRestart(env, p, s, onCorrupt, ts, written);
    }
  }

  lemma {:induction false} ChainIsOfLog(env: Env, p: Policy, s: Store)
    requires Inv(env, p, s)
    ensures s.chain == ChainOf(Log(s))
  {
    hide Genuine, Retained;
  }

  lemma {:induction false} LastIsSafe(env: Env, p: Policy, actions: seq<Action>)
    requires actions != [] && RestartsSafely(env, p, actions) && actions[|actions| - 1].Restart?
    ensures SafePoint(Run(env, p, actions[..|actions| - 1]))
  {
    hide Run;
  }

  lemma {:induction false} RecordsGrow(log: seq<Line>, events: seq<(Event, nat)>, line: Line, event: Event, ts: nat, c: Chain)
    requires |log| == |events| && (forall i :: 0 <= i < |log| ==> Records(log, events, i))
    requires c == ChainOf(log) && RecordOf(line, event, ts, c.seqNo + 1, c.prevHex)
    ensures var more, all := log + [line], events + [(event, ts)];
            forall i :: 0 <= i < |more| ==> Records(more, all, i)
  {
    hide RecordOf, Sha;
    var more, all := log + [line], events + [(event, ts)];
    forall i | 0 <= i < |more| ensures Records(more, all, i) {
      if i < |log| {
        assert Records(log, events, i);
      }
    }
  }
}
