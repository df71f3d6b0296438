/** What the gateway admits of a publication, whatever its client sends. */
module GatewayPublishes {
  import opened ByteOrder
  import opened Qos
  import opened Session
  import opened Gateway
  import opened GatewayConnection
  import GatewayLaws
  import GatewayCalls
  import opened LinkItems
  import opened LinkGateway
  import Link

  // ---------------------------------------------------------------- one sample

  /** A sample on an open publication, which the session takes. */
  predicate IsPublished(g: Gate, f: Frame) {
    && f.opcode.RosSample? && f.payload.AppPayload? && f.channelId in g.channels
    && g.session.phase.Ready? && g.session.Of(f.channelId).Active? && g.session.channels[f.channelId].kind == TopicPublish
  }

  /** The flags fit what the channel was opened as. */
  predicate FlagsFit(f: Frame, rt: Runtime) {
    f.reliable == rt.reliable && (f.retained ==> rt.transientLocal)
  }

  /** The number is the next one, or for best effort a later one. */
  predicate NumberFits(f: Frame, rt: Runtime) {
    if rt.reliable then f.sequence == rt.seqIn else f.sequence >= rt.seqIn
  }

  /** A sample is admitted exactly if flags and number fit. A stale best effort sample is dropped
      without a word; anything else that does not fit ends the session. */
  lemma {:induction false} SampleIsJudged(g: Gate, f: Frame, w: World)
    requires IsPublished(g, f) && w.parses
    ensures var u, rt := HandleInbound(g, Framed(f), w), g.channels[f.channelId];
            && (Admitted(f.channelId, f.sequence) in u.r.notes <==> FlagsFit(f, rt) && NumberFits(f, rt))
            && (FlagsFit(f, rt) && NumberFits(f, rt) ==>
              && f.channelId in u.g.channels && u.g.channels[f.channelId] == rt.(seqIn := f.sequence + 1)
              && u.r.notes == (if f.sequence > rt.seqIn then [SequenceGap(f.channelId)] else []) + [Admitted(f.channelId, f.sequence)]
              && (w.accepts ==> u.r.outbound == [] && !u.r.close))
            && (FlagsFit(f, rt) && !NumberFits(f, rt) && !rt.reliable ==>
              u == GateTurn(g, Reply([], false, [StaleSequence(f.channelId)])))
            && (!FlagsFit(f, rt) || (rt.reliable && !NumberFits(f, rt)) ==>
              u.r.close && (exists reason :: u.r.notes == [FailedSession(reason)]))
  {
    hide PushControl, FailSession;
    var t := GateTurn(g, NO_REPLY);
    assert DataLegal(g.session, f, ClientRole);
    assert HandleInbound(g, Framed(f), w) == HandlePublish(t, f, w);
    FailSteps(t, RosReliableIffEffective, w);
    FailSteps(t, RetainedNeedsTransientLocal, w);
    FailSteps(t, ReliableSequenceMismatch, w);
    var ch, rt := f.channelId, g.channels[f.channelId];
    var gap := if f.sequence > rt.seqIn then Note1(t, SequenceGap(ch)) else t;
    var u := gap.(g := gap.g.(channels := gap.g.channels[ch := rt.(seqIn := f.sequence + 1)]));
    PushSteps(Note1(u, Admitted(ch, f.sequence)), ErrorMessage(1, Some(ch)), w);
  }

  // ---------------------------------------------------------------- what a step does to a publication

  function Last(t: GateTurn, ch: nat): seq<nat> {
    Link.AdmittedOn(t.r.notes, ch)
  }

  /** Nothing admitted on `ch`; its port as before, gone, or new at zero. */
  predicate Quiet(t: GateTurn, u: GateTurn, ch: nat) {
    && Last(u, ch) == Last(t, ch)
    && (ch in u.g.channels ==>
      if ch in t.g.channels then u.g.channels[ch].seqIn == t.g.channels[ch].seqIn && u.g.channels[ch].reliable == t.g.channels[ch].reliable
      else u.g.channels[ch].seqIn == 0)
  }

  /** One sample admitted on `ch`, under a number that fits. */
  predicate Takes1(t: GateTurn, u: GateTurn, ch: nat, n: nat) {
    && Last(u, ch) == Last(t, ch) + [n] && ch in t.g.channels && ch in u.g.channels
    && u.g.channels[ch] == t.g.channels[ch].(seqIn := n + 1)
    && (if t.g.channels[ch].reliable then n == t.g.channels[ch].seqIn else n >= t.g.channels[ch].seqIn)
  }

  ghost predicate Moves(t: GateTurn, u: GateTurn, ch: nat) {
    Quiet(t, u, ch) || (u.r.close && Last(u, ch) == Last(t, ch)) || exists n :: Takes1(t, u, ch, n)
  }

  lemma {:induction false} NotesKeep(t: GateTurn, u: GateTurn, ch: nat)
    requires u.r.notes == t.r.notes && u.g.channels == t.g.channels
    ensures Quiet(t, u, ch)
  {
    hide Last;
    assert Last(u, ch) == Last(t, ch) by {
      SameNotes(t, u, ch);
    }
  }

  lemma {:induction false} SameNotes(t: GateTurn, u: GateTurn, ch: nat)
    requires u.r.notes == t.r.notes
    ensures Last(u, ch) == Last(t, ch)
  {
  }

  lemma {:induction false} NoteAdds(notes: seq<Note>, n: Note, ch: nat)
    ensures Link.AdmittedOn(notes + [n], ch) ==
            Link.AdmittedOn(notes, ch) + (if n.Admitted? && n.channelId == ch then [n.sequence] else [])
  {
    hide Link.AdmittedOn;
    Link.AdmittedJoins(notes, [n], ch);
    assert Link.AdmittedOn([n], ch) == if n.Admitted? && n.channelId == ch then [n.sequence] else [] by {
      NoteAlone(n, ch);
    }
  }

  lemma {:induction false} NoteAlone(n: Note, ch: nat)
    ensures Link.AdmittedOn([n], ch) == if n.Admitted? && n.channelId == ch then [n.sequence] else []
  {
    assert [n][1..] == [];
  }

  lemma {:induction false} FailMoves(t: GateTurn, reason: Reason, w: World, ch: nat)
    ensures FailSession(t, reason, w).r.close && Last(FailSession(t, reason, w), ch) == Last(t, ch)
  {
    hide FailSession, Link.AdmittedOn;
    FailSteps(t, reason, w);
    NoteAdds(t.r.notes, FailedSession(reason), ch);
    assert Link.AdmittedOn(t.r.notes, ch) + [] == Link.AdmittedOn(t.r.notes, ch);
  }

  lemma {:induction false} PublishMoves(t: GateTurn, f: Frame, w: World, ch: nat)
    ensures Moves(t, HandlePublish(t, f, w), ch)
  {
    hide PushControl, FailSession, Link.AdmittedOn, Takes1, Quiet;
    FailMoves(t, RosReliableIffEffective, w, ch);
    FailMoves(t, RetainedNeedsTransientLocal, w, ch);
    FailMoves(t, ReliableSequenceMismatch, w, ch);
    var r, target := HandlePublish(t, f, w), f.channelId;
    var before := Link.AdmittedOn(t.r.notes, ch);
    assert before + [] == before;
    if target !in t.g.channels {
      NotesKeep(t, r, ch);
    } else {
      var rt := t.g.channels[target];
      if f.reliable == rt.reliable && !(f.retained && !rt.transientLocal) {
        NoteAdds(t.r.notes, StaleSequence(target), ch);
        NoteAdds(t.r.notes, SequenceGap(target), ch);
        if !rt.reliable && f.sequence < rt.seqIn {
          assert Quiet(t, r, ch) by {
            StaleQuiet(t, r, target, ch);
          }
        } else if !(rt.reliable && f.sequence != rt.seqIn) {
          var gap := if f.sequence > rt.seqIn then Note1(t, SequenceGap(target)) else t;
          var u := gap.(g := gap.g.(channels := gap.g.channels[target := rt.(seqIn := f.sequence + 1)]));
          var v := Note1(u, Admitted(target, f.sequence));
          NoteAdds(gap.r.notes, Admitted(target, f.sequence), ch);
          PushSteps(v, ErrorMessage(1, Some(target)), w);
          if f.payload.AppPayload? {
            AdmissionMoves(t, r, f, ch);
          }
        }
      }
    }
  }

  lemma {:induction false} StaleQuiet(t: GateTurn, u: GateTurn, target: nat, ch: nat)
    requires u.g == t.g && Last(u, ch) == Last(t, ch)
    ensures Quiet(t, u, ch)
  {
  }

  lemma {:induction false} AdmissionMoves(t: GateTurn, u: GateTurn, f: Frame, ch: nat)
    requires f.channelId in t.g.channels
    requires var rt := t.g.channels[f.channelId];
             && (if rt.reliable then f.sequence == rt.seqIn else f.sequence >= rt.seqIn)
             && u.g.channels == t.g.channels[f.channelId := rt.(seqIn := f.sequence + 1)]
    requires Last(u, ch) == Last(t, ch) + (if ch == f.channelId then [f.sequence] else [])
    ensures Moves(t, u, ch)
  {
    hide Last;
    if ch == f.channelId {
      assert Takes1(t, u, ch, f.sequence);
    } else {
      assert Last(t, ch) + [] == Last(t, ch);
    }
  }

  lemma {:induction false} OpenMoves(t: GateTurn, target: nat, kind: Kind, qos: seq<Entry>, asked: Option<nat>, w: World, ch: nat)
    requires target !in t.g.channels
    ensures Quiet(t, OpenTheChannel(t, target, kind, qos, asked, w), ch)
  {
    hide PushControl, PushDelta, ResolveEffective, TakeAll, ReadyFor, Last;
    PushSteps(t, ChannelReady(target, 3, None), w);
    var r := OpenTheChannel(t, target, kind, qos, asked, w);
    var e := ResolveEffective(TakeAll(DEFAULT_REQUEST, qos));
    var u := t.(g := t.g.(channels := t.g.channels[target := NewRuntime(kind, e, asked)]));
    PushSteps(u, ReadyFor(target, kind, e), w);
    DeltaSteps(PushControl(u, ReadyFor(target, kind, e), w).turn, w, ch);
    assert r.r.notes == t.r.notes;
    SameNotes(t, r, ch);
  }

  lemma {:induction false} ControlMoves(t: GateTurn, msg: Control, fx: Effects, w: World, ch: nat)
    requires fx.opening.Some? ==> fx.opening.value !in t.g.channels
    ensures Quiet(t, HandleControl(t, msg, fx, w), ch)
  {
    hide PushControl, HandleAuthenticate, OpenTheChannel, Last;
    var u := HandleControl(t, msg, fx, w);
    ControlCounts(t, msg, fx, w);
    SameNotes(t, u, ch);
    match msg
    case Authenticate => AuthenticateSteps(t, w, ch);
    case OpenChannel(_, kind, qos, asked) =>
      if fx.opening.Some? {
        OpenMoves(t, fx.opening.value, kind, qos, asked, w, ch);
      }
    case Heartbeat(_) =>
      var s := t.(g := t.g.(heartbeats := t.g.heartbeats + 1));
      PushSteps(s, Heartbeat(s.g.heartbeats), w);
    case _ =>
  }

  lemma {:induction false} OperationQuiet(t: GateTurn, f: Frame, w: World, ch: nat)
    requires t.r.notes == []
    ensures var u := HandleOperation(t, f, w);
            Quiet(t, u, ch) || (u.r.close && Last(u, ch) == Last(t, ch))
  {
    hide PushControl, FailSession, PushApp;
    OperationNotes(t, f, w);
    var u := HandleOperation(t, f, w);
    assert Last(t, ch) == [];
    if u.r.notes != [] {
      assert u.r.notes == [u.r.notes[0]];
      NoteAlone(u.r.notes[0], ch);
    }
    var target := f.channelId;
    if target in t.g.channels && f.operationId.Some? {
      var rt, id := t.g.channels[target], f.operationId.value;
      FailSteps(t, MissingOperationId, w);
      var v := Note1(t.(g := t.g.(channels := t.g.channels[target := rt.(opSeqIn := rt.opSeqIn[id := f.sequence + 1])])),
                     OperationAdmitted(target, id, f.sequence));
      PushSteps(v, ErrorMessage(1, Some(target)), w);
      RespondPorts(v, target, ServiceResponse, id, w);
      RespondPorts(v, target, ActionResult, id, w);
    }
  }

  lemma {:induction false} RespondPorts(t: GateTurn, target: nat, op: Opcode, id: OperationId, w: World)
    requires target in t.g.channels
    ensures Respond(t, target, op, id, w).g.channels == t.g.channels[target := TakeOpOut(t.g.channels[target], id)]
  {
    hide ApplyFrame;
  }

  lemma {:induction false} InboundMoves(g: Gate, m: Wire, w: World, ch: nat)
    requires forall c :: GatewayLaws.Fresh(g, c)
    ensures Moves(GateTurn(g, NO_REPLY), HandleInbound(g, m, w), ch)
  {
    hide ApplyFrame, ApplyBootstrap, FailSession, HandlePublish, HandleOperation, HandleControl, HandleBootstrap, Link.AdmittedOn, Quiet, Takes1,
      GatewayLaws.Fresh;
    var t, r := GateTurn(g, NO_REPLY), HandleInbound(g, m, w);
    if g.session.phase.IsTerminal() {
      NotesKeep(t, r, ch);
    } else if !g.session.phase.InSelectedPlane() {
      BootstrapCounts(g, m, w);
      NotesKeep(t, r, ch);
    } else {
      FailMoves(t, ParseRejected, w, ch);
      FailMoves(t, SessionRejected, w, ch);
      if w.parses && m.Framed? && ApplyFrame(g.session, m.frame, ClientRole).Accepted? {
        AcceptedMoves(g, m.frame, w, ch);
      }
    }
  }

  lemma {:induction false} AcceptedMoves(g: Gate, f: Frame, w: World, ch: nat)
    requires (forall c :: GatewayLaws.Fresh(g, c)) && w.parses && ApplyFrame(g.session, f, ClientRole).Accepted?
    requires !g.session.phase.IsTerminal() && g.session.phase.InSelectedPlane()
    ensures Moves(GateTurn(g, NO_REPLY), HandleInbound(g, Framed(f), w), ch)
  {
    hide ApplyFrame, FailSession, HandlePublish, HandleOperation, HandleControl, Link.AdmittedOn, GatewayLaws.Fresh;
    var t := GateTurn(g, NO_REPLY);
    var a := ApplyFrame(g.session, f, ClientRole);
    var u := t.(g := t.g.(session := a.state));
    var v := u.(g := u.g.(controlIn := u.g.controlIn + 1));
    FailMoves(u, ControlSequenceMismatch, w, ch);
    if f.opcode.ControlCbor? {
      if f.payload.ControlPayload? {
        GatewayCalls.OpeningIsFresh(g, f);
        ControlMoves(v, f.payload.msg, a.effects, w, ch);
      }
    } else if f.opcode.RosSample? {
      PublishMoves(u, f, w, ch);
      MovesFrom(t, u, HandlePublish(u, f, w), ch);
    } else if !f.opcode.Media? {
      OperationQuiet(u, f, w, ch);
    }
  }

  lemma {:induction false} MovesFrom(t: GateTurn, u: GateTurn, r: GateTurn, ch: nat)
    requires u.g.channels == t.g.channels && u.r.notes == t.r.notes && Moves(u, r, ch)
    ensures Moves(t, r, ch)
  {
    hide Link.AdmittedOn;
    if n :| Takes1(u, r, ch, n) {
      assert Takes1(t, r, ch, n);
    }
  }

  // ---------------------------------------------------------------- every run

  /** What a turn of the loop notes. */
  function NotesOf(c: Conn, t: GatewayConnection.Turn): seq<Note> {
    if c.live && t.Inbound? then HandleInbound(c.gate, t.message, t.world).r.notes else []
  }

  function RunNotes(c: Conn, maxBytes: nat, turns: seq<GatewayConnection.Turn>): seq<Note>
    requires GatewayLaws.Prefixed(turns)
    decreases |turns|
  {
    if turns == [] then [] else NotesOf(c, turns[0]) + RunNotes(ConnStep(c, maxBytes, turns[0]), maxBytes, turns[1..])
  }

  /** What was admitted on `ch` so far, against its port if it is open. */
  ghost predicate Kept(c: Conn, notes: seq<Note>, ch: nat) {
    var done := Link.AdmittedOn(notes, ch);
    && GatewayLaws.Increasing(done)
    && (c.gate.session.Of(ch).Unused? ==> done == [])
    && (c.live && ch in c.gate.channels ==>
      && (forall i :: 0 <= i < |done| ==> done[i] < c.gate.channels[ch].seqIn)
      && (c.gate.channels[ch].reliable ==> done == UpTo(c.gate.channels[ch].seqIn)))
  }

  lemma {:induction false} MovesKept(c: Conn, notes: seq<Note>, u: GateTurn, ch: nat)
    requires c.live && Kept(c, notes, ch) && Moves(GateTurn(c.gate, NO_REPLY), u, ch) && GatewayLaws.Fresh(c.gate, ch)
    requires c.gate.session.Of(ch).Unused? || !u.g.session.Of(ch).Unused?
    requires ch in u.g.channels && ch !in c.gate.channels ==> c.gate.session.Of(ch).Unused?
    ensures Kept(Sent(c, u), notes + u.r.notes, ch)
  {
    hide Link.AdmittedOn;
    var t, done := GateTurn(c.gate, NO_REPLY), Link.AdmittedOn(notes, ch);
    Link.AdmittedJoins(notes, u.r.notes, ch);
    assert Last(t, ch) == [] by {
      NothingNoted(ch);
    }
    assert done + [] == done && UpTo(0) == [];
    if !Quiet(t, u, ch) && !(u.r.close && Last(u, ch) == Last(t, ch)) {
      var n :| Takes1(t, u, ch, n);
      assert [] + [n] == [n] && UpTo(n + 1) == UpTo(n) + [n];
    }
  }

  lemma {:induction false} NothingNoted(ch: nat)
    ensures Link.AdmittedOn([], ch) == []
  {
  }

  lemma {:induction false} StepKept(c: Conn, maxBytes: nat, t: GatewayConnection.Turn, notes: seq<Note>, ch: nat)
    requires Kept(c, notes, ch) && (forall n :: GatewayLaws.Fresh(c.gate, n)) && (t.Sample? ==> FRAME_HEADER_LENGTH <= |t.buf|)
    ensures Kept(ConnStep(c, maxBytes, t), notes + NotesOf(c, t), ch)
  {
    hide HandleInbound, PushRequest, SampleStep, Moves, Kept;
    assert notes + [] == notes;
    if c.live {
      match t
      case Inbound(m, w) =>
        InboundMoves(c.gate, m, w, ch);
        assert GatewayLaws.Fresh(c.gate, ch);
        GatewayLaws.InboundPolite(c, m, w, ch);
        MovesKept(c, notes, HandleInbound(c.gate, m, w), ch);
      case Sample(target, buf) => SampleKept(c, maxBytes, target, buf, notes, ch);
      case RosRequest(target, op, id, w) => RequestKept(c, target, op, id, w, notes, ch);
    }
  }

  lemma {:induction false} SampleKept(c: Conn, maxBytes: nat, target: nat, buf: seq<byte>, notes: seq<Note>, ch: nat)
    requires Kept(c, notes, ch) && FRAME_HEADER_LENGTH <= |buf|
    ensures Kept(SampleStep(c, maxBytes, target, buf), notes, ch)
  {
    hide FrameSample, Link.AdmittedOn;
    FramingNeeds(c.gate, target, buf);
  }

  lemma {:induction false} RequestKept(c: Conn, target: nat, op: OperationCode, id: OperationId, w: World, notes: seq<Note>, ch: nat)
    requires Kept(c, notes, ch) && c.live
    ensures Kept(Sent(c, PushRequest(c.gate, target, op, id, w)), notes, ch)
  {
    hide Link.AdmittedOn, ApplyFrame;
    var u := PushRequest(c.gate, target, op, id, w);
    if target in c.gate.channels {
      RespondPorts(GateTurn(c.gate, NO_REPLY), target, op, id, w);
      RespondSession(GateTurn(c.gate, NO_REPLY), target, op, id, w);
    }
  }

  lemma {:induction false} RespondSession(t: GateTurn, target: nat, op: Opcode, id: OperationId, w: World)
    requires target in t.g.channels && IsOperation(op)
    ensures Respond(t, target, op, id, w).g.session == t.g.session
  {
    hide DataLegal;
  }

  lemma {:induction false} RunKept(c: Conn, maxBytes: nat, turns: seq<GatewayConnection.Turn>, notes: seq<Note>, ch: nat)
    requires GatewayLaws.Prefixed(turns) && Kept(c, notes, ch) && forall n :: GatewayLaws.Fresh(c.gate, n)
    ensures Kept(GatewayLaws.RunConn(c, maxBytes, turns), notes + RunNotes(c, maxBytes, turns), ch)
    decreases |turns|
  {
    hide ConnStep, Kept, NotesOf, GatewayLaws.Fresh;
    if turns == [] {
      assert notes + [] == notes;
    } else {
      var d := ConnStep(c, maxBytes, turns[0]);
      StepKept(c, maxBytes, turns[0], notes, ch);
      forall n ensures GatewayLaws.Fresh(d.gate, n) {
        GatewayLaws.StaysFresh(c, maxBytes, turns[0], n);
      }
      RunKept(d, maxBytes, turns[1..], notes + NotesOf(c, turns[0]), ch);
      assert notes + (NotesOf(c, turns[0]) + RunNotes(d, maxBytes, turns[1..])) == (notes + NotesOf(c, turns[0])) + RunNotes(d, maxBytes, turns[1..]);
    }
  }

  /** Over every run, whatever arrives: what is admitted on a channel increases; and on an open
      publication it is all below the next number, and exactly 0, 1, 2, ... if it is reliable. */
  lemma {:induction false} AdmissionsInOrder(maxBytes: nat, turns: seq<GatewayConnection.Turn>, ch: nat)
    requires GatewayLaws.Prefixed(turns)
    ensures var c, done := GatewayLaws.RunConn(NEW_CONN, maxBytes, turns), Link.AdmittedOn(RunNotes(NEW_CONN, maxBytes, turns), ch);
            && GatewayLaws.Increasing(done)
            && (c.live && ch in c.gate.channels ==>
              && (forall i :: 0 <= i < |done| ==> done[i] < c.gate.channels[ch].seqIn)
              && (c.gate.channels[ch].reliable ==> done == UpTo(c.gate.channels[ch].seqIn)))
  {
    hide GatewayLaws.RunConn, RunNotes, Link.AdmittedOn;
    NothingNoted(ch);
    RunKept(NEW_CONN, maxBytes, turns, [], ch);
    assert [] + RunNotes(NEW_CONN, maxBytes, turns) == RunNotes(NEW_CONN, maxBytes, turns);
  }
}
