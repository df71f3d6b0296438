/** Service and action frames: the client numbers them per channel, whether or not they are
    then sent, and the gateway admits them per operation. When the two rules meet. */
module Operations {
  import opened ByteOrder
  import opened Session
  import opened Gateway

  /** One call that took a number, and whether its frame went out. */
  datatype Attempt = Attempt(id: OperationId, sent: bool)

  datatype Numbered = Numbered(id: OperationId, sequence: nat)

  /** The frames of the attempts made on one channel since it was opened: each attempt takes
      the next number, sent or not. */
  function Emitted(tries: seq<Attempt>): seq<Numbered> {
    if tries == [] then []
    else
      var n := |tries| - 1;
      Emitted(tries[..n]) + if tries[n].sent then [Numbered(tries[n].id, n)] else []
  }

  /** The gateway's next expected numbers once it has admitted `fs`. */
  function Seen(fs: seq<Numbered>): map<OperationId, nat> {
    if fs == [] then map[]
    else
      var n := |fs| - 1;
      Seen(fs[..n])[fs[n].id := fs[n].sequence + 1]
  }

  /** Every frame carries the number expected of its operation when it arrives. */
  predicate AllAdmitted(fs: seq<Numbered>) {
    fs == [] ||
    var n := |fs| - 1;
    AllAdmitted(fs[..n]) && fs[n].sequence == Expected(Seen(fs[..n]), fs[n].id)
  }

  /** Up to the last attempt that was sent, every attempt was, and all for one operation. */
  predicate InLine(tries: seq<Attempt>) {
    forall i, j :: 0 <= i <= j < |tries| && tries[j].sent ==> tries[i].sent && tries[i].id == tries[j].id
  }

  // ---------------------------------------------------------------- call frames on a link

  /** The operation frame on `ch` a message is, if it is one. */
  function CallOf(w: Wire, ch: nat): Option<Numbered> {
    if w.Framed? && IsOperation(w.frame.opcode) && w.frame.channelId == ch && w.frame.operationId.Some? then
      Some(Numbered(w.frame.operationId.value, w.frame.sequence))
    else None
  }

  function Calls(ws: seq<Wire>, ch: nat): seq<Numbered> {
    if ws == [] then []
    else (match CallOf(ws[0], ch) case Some(f) => [f] case None => []) + Calls(ws[1..], ch)
  }

  lemma {:induction false} CallsAppend(a: seq<Wire>, b: seq<Wire>, ch: nat)
    ensures Calls(a + b, ch) == Calls(a, ch) + Calls(b, ch)
    decreases |a|
  {
    hide CallOf;
    if a == [] {
      assert a + b == b;
    } else {
      assert (a + b)[1..] == a[1..] + b;
      CallsAppend(a[1..], b, ch);
    }
  }

  lemma {:induction false} CallsOne(w: Wire, ch: nat)
    ensures Calls([w], ch) == match CallOf(w, ch) { case Some(f) => [f] case None => [] }
  {
    hide CallOf;
    assert [w][1..] == [];
  }

  // ---------------------------------------------------------------- runs grow at the end

  lemma {:induction false} EmittedSnoc(tries: seq<Attempt>, a: Attempt)
    ensures Emitted(tries + [a]) == Emitted(tries) + if a.sent then [Numbered(a.id, |tries|)] else []
  {
    assert (tries + [a])[..|tries|] == tries;
  }

  lemma {:induction false} AdmittedSnoc(fs: seq<Numbered>, f: Numbered)
    ensures AllAdmitted(fs + [f]) <==> AllAdmitted(fs) && f.sequence == Expected(Seen(fs), f.id)
    ensures Seen(fs + [f]) == Seen(fs)[f.id := f.sequence + 1]
  {
    assert (fs + [f])[..|fs|] == fs;
  }

  lemma {:induction false} AdmittedPrefix(fs: seq<Numbered>, more: seq<Numbered>)
    requires AllAdmitted(fs + more)
    ensures AllAdmitted(fs)
    decreases |more|
  {
    if more == [] {
      assert fs + more == fs;
    } else {
      var n := |more| - 1;
      assert fs + more == (fs + more[..n]) + [more[n]];
      AdmittedSnoc(fs + more[..n], more[n]);
      AdmittedPrefix(fs, more[..n]);
    }
  }

  lemma {:induction false} InLinePrefix(tries: seq<Attempt>, more: seq<Attempt>)
    requires InLine(tries + more)
    ensures InLine(tries)
  {
    forall i, j | 0 <= i <= j < |tries| && tries[j].sent ensures tries[i].sent && tries[i].id == tries[j].id {
      assert (tries + more)[i] == tries[i] && (tries + more)[j] == tries[j];
    }
  }

  // ---------------------------------------------------------------- where the rules meet

  lemma {:induction false} AllSentBefore(tries: seq<Attempt>, k: nat)
    requires InLine(tries) && tries != [] && tries[|tries| - 1].sent && k < |tries|
    requires forall i :: 0 <= i < |tries| - 1 ==> (tries[i].sent <==> i < k)
    ensures k == |tries| - 1 && forall i :: 0 <= i < |tries| ==> tries[i].sent && tries[i].id == tries[|tries| - 1].id
  {
    var n := |tries| - 1;
    assert n > 0 ==> tries[n - 1].sent;
  }

  /** Attempts in line: the first `k` were sent, the rest not, and the gateway has seen one
      operation. */
  lemma {:induction false} SeenInLine(tries: seq<Attempt>) returns (k: nat)
    requires InLine(tries)
    ensures k <= |tries| && forall i :: 0 <= i < |tries| ==> (tries[i].sent <==> i < k)
    ensures AllAdmitted(Emitted(tries))
    ensures Seen(Emitted(tries)) == if k == 0 then map[] else map[tries[0].id := k]
  {
    if tries == [] {
      k := 0;
    } else {
      var n := |tries| - 1;
      assert tries == tries[..n] + [tries[n]];
      InLinePrefix(tries[..n], [tries[n]]);
      EmittedSnoc(tries[..n], tries[n]);
      k := SeenInLine(tries[..n]);
      assert forall i :: 0 <= i < n ==> tries[..n][i] == tries[i];
      if tries[n].sent {
        AdmittedSnoc(Emitted(tries[..n]), Numbered(tries[n].id, n));
        AllSentBefore(tries, k);
        k := k + 1;
      } else {
        assert Emitted(tries[..n]) + [] == Emitted(tries[..n]);
      }
    }
  }

  /** On a channel since it was opened, the gateway admits every frame the client sends iff
      every attempt up to the last one sent was sent, and all belong to one operation. A
      second operation is failed as out of sequence, and so is the same operation after a
      frame the client itself refused. */
  lemma {:induction false} OneOperationPerChannel(tries: seq<Attempt>)
    ensures AllAdmitted(Emitted(tries)) <==> InLine(tries)
  {
    if InLine(tries) {
      var _ := SeenInLine(tries);
    } else if AllAdmitted(Emitted(tries)) {
      var n := |tries| - 1;
      assert tries == tries[..n] + [tries[n]];
      EmittedSnoc(tries[..n], tries[n]);
      OneOperationPerChannel(tries[..n]);
      if tries[n].sent {
        AdmittedSnoc(Emitted(tries[..n]), Numbered(tries[n].id, n));
        var k := SeenInLine(tries[..n]);
        assert forall i :: 0 <= i < n ==> tries[..n][i] == tries[i];
        StillInLine(tries, k);
      } else {
        assert Emitted(tries[..n]) + [] == Emitted(tries[..n]);
        UnsentInLine(tries);
      }
      assert false;
    }
  }

  lemma {:induction false} UnsentInLine(tries: seq<Attempt>)
    requires tries != [] && !tries[|tries| - 1].sent && InLine(tries[..|tries| - 1])
    ensures InLine(tries)
  {
    var before := tries[..|tries| - 1];
    forall i, j | 0 <= i <= j < |tries| && tries[j].sent ensures tries[i].sent && tries[i].id == tries[j].id {
      assert before[i] == tries[i] && before[j] == tries[j];
    }
  }

  lemma {:induction false} StillInLine(tries: seq<Attempt>, k: nat)
    requires tries != [] && k < |tries| && InLine(tries[..|tries| - 1]) && tries[|tries| - 1].sent
    requires forall i :: 0 <= i < |tries| - 1 ==> (tries[i].sent <==> i < k)
    requires |tries| - 1 == Expected(if k == 0 then map[] else map[tries[0].id := k], tries[|tries| - 1].id)
    ensures InLine(tries)
  {
    var n := |tries| - 1;
    var before := tries[..n];
    forall i, j | 0 <= i <= j < |tries| && tries[j].sent ensures tries[i].sent && tries[i].id == tries[j].id {
      if j < n {
        assert before[i] == tries[i] && before[j] == tries[j];
      } else if i < n {
        assert before[0] == tries[0] && before[i] == tries[i];
      }
    }
  }

  /** The gateway's handler fails a frame exactly when the rule does not admit it. */
  lemma {:induction false} HandlerFollowsTheRule(t: GateTurn, f: Frame, w: World)
    requires f.channelId in t.g.channels && f.operationId.Some? && f.payload.AppPayload? && t.r == NO_REPLY
    ensures FailedSession(OperationSequenceMismatch) in HandleOperation(t, f, w).r.notes <==>
            f.sequence != Expected(t.g.channels[f.channelId].opSeqIn, f.operationId.value)
  {
    hide ApplyFrame;
  }
}
