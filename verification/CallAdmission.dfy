/** The gateway's side of service and action frames: which it admits, and what it remembers. */
module CallAdmission {
  import opened ByteOrder
  import opened Qos
  import opened Session
  import opened Gateway
  import opened LinkItems
  import opened LinkGateway
  import opened Operations

  /** The operation frames admitted on `ch`, in order. */
  function AdmittedCalls(notes: seq<Note>, ch: nat): seq<Numbered> {
    if notes == [] then []
    else
      (if notes[0].OperationAdmitted? && notes[0].channelId == ch then [Numbered(notes[0].id, notes[0].sequence)] else [])
      + AdmittedCalls(notes[1..], ch)
  }

  lemma {:induction false} AdmittedCallsJoin(a: seq<Note>, b: seq<Note>, ch: nat)
    ensures AdmittedCalls(a + b, ch) == AdmittedCalls(a, ch) + AdmittedCalls(b, ch)
    decreases |a|
  {
    if a == [] {
      assert a + b == b;
    } else {
      assert (a + b)[1..] == a[1..] + b;
      AdmittedCallsJoin(a[1..], b, ch);
    }
  }

  lemma {:induction false} AdmittedCallsOne(n: Note, ch: nat)
    ensures AdmittedCalls([n], ch) == if n.OperationAdmitted? && n.channelId == ch then [Numbered(n.id, n.sequence)] else []
  {
    assert [n][1..] == [];
  }

  /** The calls a message carries on `ch`: one or none. */
  function Carries(m: Wire, ch: nat): (fs: seq<Numbered>)
    ensures |fs| <= 1
  {
    match CallOf(m, ch)
    case Some(f) => [f]
    case None => []
  }

  function Memory(g: Gate, ch: nat): Option<map<OperationId, nat>> {
    if ch in g.channels then Some(g.channels[ch].opSeqIn) else None
  }

  /** What is expected after the calls of one message. */
  function Remembered(seen: map<OperationId, nat>, fs: seq<Numbered>): map<OperationId, nat>
    requires |fs| <= 1
  {
    if fs == [] then seen else seen[fs[0].id := fs[0].sequence + 1]
  }

  /** Memories are kept, dropped with their channel, or begin empty with one. */
  predicate Keeps(g: Gate, h: Gate, ch: nat) {
    Memory(h, ch) == Memory(g, ch) || Memory(h, ch).None? || (Memory(g, ch).None? && Memory(h, ch) == Some(map[]))
  }

  lemma {:induction false} OpenKeeps(t: GateTurn, target: nat, kind: Kind, qos: seq<Entry>, asked: Option<nat>, w: World, ch: nat)
    requires target !in t.g.channels
    ensures Keeps(t.g, OpenTheChannel(t, target, kind, qos, asked, w).g, ch)
  {
    hide PushControl, PushDelta, ResolveEffective, TakeAll, ReadyFor;
    PushSteps(t, ChannelReady(target, 3, None), w);
    var e := ResolveEffective(TakeAll(DEFAULT_REQUEST, qos));
    var r := t.(g := t.g.(channels := t.g.channels[target := NewRuntime(kind, e, asked)]));
    PushSteps(r, ReadyFor(target, kind, e), w);
    DeltaSteps(PushControl(r, ReadyFor(target, kind, e), w).turn, w, ch);
  }

  lemma {:induction false} AuthenticateKeeps(t: GateTurn, w: World)
    ensures HandleAuthenticate(t, w).g.channels == t.g.channels
  {
    hide PushControl, PushSnapshot;
    PushSteps(t, ErrorMessage(0, None), w);
    PushSteps(t, SessionReady, w);
    SnapshotSteps(PushControl(t, SessionReady, w).turn, w, 0);
  }

  lemma {:induction false} ControlKeeps(t: GateTurn, msg: Control, fx: Effects, w: World, ch: nat)
    requires fx.opening.Some? ==> fx.opening.value !in t.g.channels
    ensures Keeps(t.g, HandleControl(t, msg, fx, w).g, ch)
  {
    hide PushControl, HandleAuthenticate, OpenTheChannel;
    match msg
    case Authenticate => AuthenticateKeeps(t, w);
    case OpenChannel(_, kind, qos, asked) =>
      if fx.opening.Some? {
        OpenKeeps(t, fx.opening.value, kind, qos, asked, w, ch);
      }
    case Heartbeat(_) =>
      var u := t.(g := t.g.(heartbeats := t.g.heartbeats + 1));
      PushSteps(u, Heartbeat(u.g.heartbeats), w);
    case _ =>
  }

  lemma {:induction false} PublishKeeps(t: GateTurn, f: Frame, w: World, ch: nat)
    ensures HandlePublish(t, f, w).r.close || Memory(HandlePublish(t, f, w).g, ch) == Memory(t.g, ch)
  {
    hide PushControl, FailSession;
    FailSteps(t, RosReliableIffEffective, w);
    FailSteps(t, RetainedNeedsTransientLocal, w);
    FailSteps(t, ReliableSequenceMismatch, w);
    var target := f.channelId;
    if target in t.g.channels {
      var rt := t.g.channels[target];
      var gap := if f.sequence > rt.seqIn then Note1(t, SequenceGap(target)) else t;
      var u := gap.(g := gap.g.(channels := gap.g.channels[target := rt.(seqIn := f.sequence + 1)]));
      PushSteps(Note1(u, Admitted(target, f.sequence)), ErrorMessage(1, Some(target)), w);
    }
  }

  lemma {:induction false} RespondKeeps(t: GateTurn, target: nat, op: Opcode, id: OperationId, w: World, ch: nat)
    requires target in t.g.channels && !op.ControlCbor?
    ensures Memory(Respond(t, target, op, id, w).g, ch) == Memory(t.g, ch)
  {
    hide PushApp;
    var rt := t.g.channels[target];
    var u := t.(g := t.g.(channels := t.g.channels[target := TakeOpOut(rt, id)]));
    AppSteps(u, OperationFrame(op, target, Expected(rt.opSeqOut, id), id, w.payloadLen), w, ch);
  }

  /** An admitted call is remembered; nothing else about any channel's memory changes. */
  lemma {:induction false} OperationRemembered(t: GateTurn, f: Frame, w: World, ch: nat)
    requires t.r == NO_REPLY && IsOperation(f.opcode)
    ensures var u := HandleOperation(t, f, w);
            u.r.close || (f.operationId.Some? && Memory(u.g, ch) ==
              match Memory(t.g, ch) { case Some(seen) => Some(Remembered(seen, Carries(Framed(f), ch))) case None => None })
  {
    hide PushControl, FailSession, Respond;
    var target := f.channelId;
    FailSteps(t, MissingOperationId, w);
    if target in t.g.channels && f.operationId.Some? {
      var rt, id := t.g.channels[target], f.operationId.value;
      FailSteps(t.(g := t.g.(channels := t.g.channels[target := rt.(opSeqIn := rt.opSeqIn[id := Expected(rt.opSeqIn, id)])])),
                OperationSequenceMismatch, w);
      var u := t.(g := t.g.(channels := t.g.channels[target := rt.(opSeqIn := rt.opSeqIn[id := f.sequence + 1])]));
      var v := Note1(u, OperationAdmitted(target, id, f.sequence));
      PushSteps(v, ErrorMessage(1, Some(target)), w);
      RespondKeeps(v, target, ServiceResponse, id, w, ch);
      RespondKeeps(v, target, ActionResult, id, w, ch);
    }
  }

  // ---------------------------------------------------------------- one inbound message

  /** The message's calls on `ch` are admitted at the number expected, or the session ends. */
  ghost predicate Admits(g: Gate, m: Wire, u: GateTurn, ch: nat) {
    var done := AdmittedCalls(u.r.notes, ch);
    && (done == Carries(m, ch) || (u.r.close && done == []))
    && (done != [] ==> ch in g.channels && done[0].sequence == Expected(g.channels[ch].opSeqIn, done[0].id))
    && (!u.r.close ==>
      match Memory(u.g, ch)
      case None => true
      case Some(seen) => seen == match Memory(g, ch) { case Some(was) => Remembered(was, done) case None => map[] })
  }

  predicate Mismatched(notes: seq<Note>) {
    FailedSession(OperationSequenceMismatch) in notes
  }

  /** The message is a call whose number is not the one its operation is expected at. */
  predicate OutOfSequence(g: Gate, m: Wire) {
    && m.Framed? && m.frame.channelId in g.channels && CallOf(m, m.frame.channelId).Some?
    && var f := CallOf(m, m.frame.channelId).value;
       f.sequence != Expected(g.channels[m.frame.channelId].opSeqIn, f.id)
  }

  lemma {:induction false} OperationAdmits(g: Gate, t: GateTurn, f: Frame, w: World, ch: nat)
    requires t == GateTurn(g.(session := t.g.session), NO_REPLY) && IsOperation(f.opcode)
    ensures Admits(g, Framed(f), HandleOperation(t, f, w), ch)
    ensures Mismatched(HandleOperation(t, f, w).r.notes) ==> OutOfSequence(g, Framed(f))
  {
    hide HandleOperation;
    OperationNotes(t, f, w);
    OperationRemembered(t, f, w, ch);
    var u := HandleOperation(t, f, w);
    if u.r.notes != [] {
      assert u.r.notes == [u.r.notes[0]];
      AdmittedCallsOne(u.r.notes[0], ch);
    }
  }

  /** Nothing said about calls, and every memory kept. */
  lemma {:induction false} SilentAdmits(g: Gate, m: Wire, u: GateTurn, ch: nat)
    requires u.r.notes == [] || (u.r.notes == [u.r.notes[0]] && !u.r.notes[0].OperationAdmitted? && u.r.notes[0] != FailedSession(OperationSequenceMismatch))
    requires u.r.close || (CallOf(m, ch).None? && Keeps(g, u.g, ch))
    ensures Admits(g, m, u, ch) && !Mismatched(u.r.notes)
  {
    hide CallOf;
    if u.r.notes != [] {
      AdmittedCallsOne(u.r.notes[0], ch);
    }
  }

  lemma {:induction false} InboundAdmitsCalls(g: Gate, m: Wire, w: World, ch: nat)
    requires forall c :: GateOk(g, c) && TakesNext(g, m, c)
    ensures Admits(g, m, HandleInbound(g, m, w), ch)
    ensures Mismatched(HandleInbound(g, m, w).r.notes) ==> OutOfSequence(g, m)
  {
    hide ApplyFrame, FailSession, HandlePublish, HandleOperation, HandleControl, HandleBootstrap, Admits, Mismatched, OutOfSequence, Keeps, CallOf, GateOk, TakesNext;
    var t := GateTurn(g, NO_REPLY);
    var r := HandleInbound(g, m, w);
    BootstrapCounts(g, m, w);
    KeepsItself(g, HandleBootstrap(t, m, w).g, ch);
    FailSteps(t, ParseRejected, w);
    FailSteps(t, SessionRejected, w);
    if g.session.phase.IsTerminal() || !g.session.phase.InSelectedPlane() || !w.parses || !m.Framed? {
      NotACall(m, ch);
      SilentAdmits(g, m, r, ch);
    } else {
      var f := m.frame;
      var a := ApplyFrame(g.session, f, ClientRole);
      if a.Violation? {
        SilentAdmits(g, m, r, ch);
      } else {
        var u := t.(g := t.g.(session := a.state));
        if !IsOperation(f.opcode) {
          NotACall(m, ch);
          PlainAdmits(g, f, w, ch);
        } else {
          OperationAdmits(g, u, f, w, ch);
        }
      }
    }
  }

  lemma {:induction false} KeepsItself(g: Gate, h: Gate, ch: nat)
    requires h.channels == g.channels
    ensures Keeps(g, h, ch)
  {
  }

  lemma {:induction false} NotACall(m: Wire, ch: nat)
    ensures !m.Framed? || !IsOperation(m.frame.opcode) ==> CallOf(m, ch).None?
  {
  }

  /** Control messages, samples and media. */
  lemma {:induction false} PlainAdmits(g: Gate, f: Frame, w: World, ch: nat)
    requires forall c :: GateOk(g, c) && TakesNext(g, Framed(f), c)
    requires !g.session.phase.IsTerminal() && g.session.phase.InSelectedPlane() && w.parses
    requires !IsOperation(f.opcode) && ApplyFrame(g.session, f, ClientRole).Accepted?
    ensures Admits(g, Framed(f), HandleInbound(g, Framed(f), w), ch)
    ensures !Mismatched(HandleInbound(g, Framed(f), w).r.notes)
  {
    hide ApplyFrame, FailSession, HandlePublish, HandleControl, Admits, Mismatched, CallOf, TakesNext;
    var a := ApplyFrame(g.session, f, ClientRole);
    var u := GateTurn(g.(session := a.state), NO_REPLY);
    var r := HandleInbound(g, Framed(f), w);
    NotACall(Framed(f), ch);
    FailSteps(u, ControlSequenceMismatch, w);
    if f.opcode.RosSample? {
      SampleAdmitted(g, f, w);
      PublishKeeps(u, f, w, ch);
      SilentAdmits(g, Framed(f), r, ch);
    } else if f.opcode.ControlCbor? && f.sequence == g.controlIn && f.payload.ControlPayload? {
      var v := u.(g := u.g.(controlIn := u.g.controlIn + 1));
      OpeningIsNew(g, f);
      ControlKeeps(v, f.payload.msg, a.effects, w, ch);
      ControlCounts(v, f.payload.msg, a.effects, w);
      SilentAdmits(g, Framed(f), r, ch);
    } else {
      if !r.r.close {
        KeepsItself(g, r.g, ch);
      }
      SilentAdmits(g, Framed(f), r, ch);
    }
  }

  lemma {:induction false} OpeningIsNew(g: Gate, f: Frame)
    requires forall c :: GateOk(g, c)
    ensures var a := ApplyFrame(g.session, f, ClientRole);
            a.Accepted? && f.opcode.ControlCbor? && a.effects.opening.Some? ==> a.effects.opening.value !in g.channels
  {
    var a := ApplyFrame(g.session, f, ClientRole);
    if a.Accepted? && f.opcode.ControlCbor? && a.effects.opening.Some? {
      assert GateOk(g, a.effects.opening.value);
    }
  }
}
