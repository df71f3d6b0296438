/** One channel of a link, seen from both ends: what is in flight about it, and which joint
    states of the two peers are consistent. */
module LinkItems {
  import opened ByteOrder
  import opened Qos
  import opened Session
  import opened Client
  import opened Gateway

  // ---------------------------------------------------------------- what is in flight

  datatype Item =
    | OpenItem(kind: Kind, qos: seq<Entry>)
    | CloseItem
    | SampleItem(sequence: nat, reliable: bool, plain: bool)
    | OperationItem
    | ReadyItem(result: nat, effective: Option<nat>)
    | ErrorItem(scope: nat)
    | ControlItem(at: nat)

  /** What to look for: a channel's traffic towards the gateway or towards the client, or
      the control sequence numbers. */
  datatype Topic = Up(channelId: nat) | Down(channelId: nat) | ControlStream

  function ItemOf(w: Wire, topic: Topic): Option<Item> {
    if !w.Framed? then None
    else
      var f := w.frame;
      match topic
      case ControlStream => if f.opcode.ControlCbor? then Some(ControlItem(f.sequence)) else None
      case Up(ch) =>
        if f.opcode.ControlCbor? then
          if !f.payload.ControlPayload? then None
          else
            match f.payload.msg
            case OpenChannel(id, kind, qos, _) => if id == ch then Some(OpenItem(kind, qos)) else None
            case CloseChannel(id) => if id == ch then Some(CloseItem) else None
            case ErrorMessage(scope, id) => if id == Some(ch) then Some(ErrorItem(scope)) else None
            case _ => None
        else if f.channelId != ch || f.opcode.Media? then None
        else if f.opcode.RosSample? then Some(SampleItem(f.sequence, f.reliable, !f.retained && f.payload.AppPayload?))
        else Some(OperationItem)
      case Down(ch) =>
        if !f.opcode.ControlCbor? || !f.payload.ControlPayload? then None
        else
          match f.payload.msg
          case ChannelReady(id, result, effective) => if id == ch then Some(ReadyItem(result, effective)) else None
          case CloseChannel(id) => if id == ch then Some(CloseItem) else None
          case ErrorMessage(scope, id) => if id == Some(ch) then Some(ErrorItem(scope)) else None
          case _ => None
  }

  /** The control sequence number a message carries, if it is a control frame. */
  function ControlNumber(w: Wire): Option<nat> {
    if w.Framed? && w.frame.opcode.ControlCbor? then Some(w.frame.sequence) else None
  }

  function Items(ws: seq<Wire>, topic: Topic): seq<Item> {
    if ws == [] then []
    else (match ItemOf(ws[0], topic) case Some(i) => [i] case None => []) + Items(ws[1..], topic)
  }

  lemma {:induction false} ItemsAppend(a: seq<Wire>, b: seq<Wire>, topic: Topic)
    ensures Items(a + b, topic) == Items(a, topic) + Items(b, topic)
    decreases |a|
  {
    hide ItemOf;
    if a == [] {
      assert a + b == b;
    } else {
      assert (a + b)[1..] == a[1..] + b;
      ItemsAppend(a[1..], b, topic);
    }
  }

  lemma {:induction false} ItemsOne(w: Wire, topic: Topic)
    ensures Items([w], topic) == match ItemOf(w, topic) { case Some(i) => [i] case None => [] }
  {
    hide ItemOf;
    assert [w][1..] == [];
  }

  lemma {:induction false} ItemsSnoc(ws: seq<Wire>, w: Wire, topic: Topic)
    ensures Items(ws + [w], topic) == Items(ws, topic) + match ItemOf(w, topic) { case Some(i) => [i] case None => [] }
  {
    ItemsAppend(ws, [w], topic);
    ItemsOne(w, topic);
  }

  /** Consecutive control sequence numbers. */
  function Range(from: nat, end: nat): (s: seq<Item>)
    requires from <= end
    ensures |s| == end - from
    decreases end - from
  {
    if from == end then [] else [ControlItem(from)] + Range(from + 1, end)
  }

  lemma {:induction false} RangeSnoc(from: nat, end: nat)
    requires from <= end
    ensures Range(from, end + 1) == Range(from, end) + [ControlItem(end)]
    decreases end - from
  {
    if from < end {
      RangeSnoc(from + 1, end);
    }
  }

  lemma {:induction false} RangeJoin(a: nat, b: nat, c: nat)
    requires a <= b <= c
    ensures Range(a, c) == Range(a, b) + Range(b, c)
    decreases b - a
  {
    if a < b {
      RangeJoin(a + 1, b, c);
    }
  }

  // ---------------------------------------------------------------- the two views

  /** A channel as the client has it. */
  datatype ClientView = ClientView(state: ChannelState, kind: Kind, pending: Option<PendingOpen>, publication: Option<Publication>)

  function ClientViewOf(c: Engine, ch: nat): ClientView {
    ClientView(c.session.Of(ch), if ch in c.session.channels then c.session.channels[ch].kind else TopicSubscribe,
               if ch in c.pending then Some(c.pending[ch]) else None,
               if ch in c.publishes then Some(c.publishes[ch]) else None)
  }

  /** The part of a gateway runtime that decides what a publish must look like. */
  datatype Port = Port(kind: Kind, reliable: bool, seqIn: nat)

  datatype GateView = GateView(state: ChannelState, kind: Kind, port: Option<Port>)

  function GateViewOf(g: Gate, ch: nat): GateView {
    GateView(g.session.Of(ch), if ch in g.session.channels then g.session.channels[ch].kind else TopicSubscribe,
             if ch in g.channels then Some(Port(g.channels[ch].kind, g.channels[ch].reliable, g.channels[ch].seqIn)) else None)
  }

  /** A gateway between messages: a runtime exactly for each active channel, of its kind. */
  predicate Settled(v: GateView) {
    && !v.state.Pending?
    && (v.port.Some? <==> v.state.Active?)
    && (v.port.Some? ==> v.port.value.kind == v.kind)
  }

  function Next(v: GateView): GateView
    requires v.port.Some?
  {
    v.(port := Some(v.port.value.(seqIn := v.port.value.seqIn + 1)))
  }

  /** The gateway can take the messages in flight about a channel, one after the other. */
  predicate Takes(v: GateView, u: seq<Item>)
    decreases |u|
  {
    u == [] ||
    match u[0]
    case OpenItem(_, _) => v.state.Unused? && |u| == 1
    case CloseItem => v.state.Active? && |u| == 1
    case SampleItem(sequence, reliable, plain) =>
      v.state.Active? && v.port == Some(Port(TopicPublish, reliable, sequence)) && plain && Takes(Next(v), u[1..])
    case OperationItem => v.state.Active? && Takes(v, u[1..])
    case _ => false
  }

  datatype Outlook = Rests(view: GateView) | Opens(kind: Kind) | Closes

  /** Where the gateway will be once it has taken them. */
  function After(v: GateView, u: seq<Item>): Outlook
    requires Takes(v, u)
    decreases |u|
  {
    if u == [] then Rests(v)
    else
      if u[0].OpenItem? then Opens(u[0].kind)
      else if u[0].CloseItem? then Closes
      else After(if u[0].SampleItem? then Next(v) else v, u[1..])
  }

  predicate OnlyErrors(d: seq<Item>) {
    forall i :: 0 <= i < |d| ==> d[i].ErrorItem?
  }

  /** ChannelReady and the runtime it announces: reliability as the client will read it. */
  predicate Announces(v: GateView, kind: Kind, r: Item) {
    && r.ReadyItem?
    && if r.result == 0 then
         && v.state.Active? && v.port.Some? && v.port.value.kind == kind && v.port.value.seqIn == 0
         && (kind.TopicPublish? ==> r.effective.Some? && (r.effective.value != 2) == v.port.value.reliable)
       else r.result == 3 && v.state.Failed?
  }

  /** What an open client may assume of the gateway and of the messages in flight. */
  predicate Agrees(c: ClientView, v: GateView, u: seq<Item>, d: seq<Item>)
    requires Takes(v, u)
  {
    match c.state
    case Unused => v.state.Unused? && u == [] && d == [] && c.pending == None && c.publication == None
    case Pending =>
      && c.pending.Some? && c.pending.value.kind == c.kind && c.publication == None
      && ((|u| == 1 && u[0].OpenItem? && u[0].kind == c.kind && d == [])
          || (u == [] && |d| == 1 && Announces(v, c.kind, d[0])))
    case Active =>
      && c.pending == None && OnlyErrors(d)
      && After(v, u).Rests? && After(v, u).view.state.Active? && After(v, u).view.port.Some?
      && (if c.kind.TopicPublish? then
            c.publication.Some? && After(v, u).view.port.value == Port(TopicPublish, c.publication.value.reliable, c.publication.value.seqOut)
          else c.publication == None)
    case Failed => c.pending == None && c.publication == None && OnlyErrors(d) && u == []
    case Closed => c.pending == None && c.publication == None && OnlyErrors(d) && !After(v, u).Opens?
  }

  /** The joint invariant of one channel while the gateway runs. */
  predicate Joint(c: ClientView, closed: bool, v: GateView, u: seq<Item>, d: seq<Item>) {
    Settled(v) && Takes(v, u) && (!closed ==> Agrees(c, v, u, d))
  }

  // ---------------------------------------------------------------- the client moves

  function PendingKind(c: ClientView): Kind {
    if c.pending.Some? then c.pending.value.kind else TopicSubscribe
  }

  function Reliability(c: ClientView, effective: Option<nat>): nat {
    if effective.Some? then effective.value else if c.pending.Some? then c.pending.value.reliability else 1
  }

  /** What one client event does to a channel: `sent` goes towards the gateway, `got` is the
      message about the channel it consumed. */
  predicate ClientMoves(a: ClientView, b: ClientView, sent: seq<Item>, got: Option<Item>, closed: bool) {
    if closed then sent == []
    else if got.None? then
      || (b == a && sent == [])
      || (b == a && a.state.Active? && sent == [OperationItem])
      || (a.state.Unused? && |sent| == 1 && sent[0].OpenItem? && b.state.Pending? && b.kind == sent[0].kind
          && b.pending.Some? && b.pending.value.kind == b.kind && b.publication == a.publication)
      || (a.state.Active? && sent == [CloseItem] && b == ClientView(Closed, a.kind, None, None))
      || (a.state.Active? && a.kind.TopicPublish? && a.publication.Some?
          && sent == [SampleItem(a.publication.value.seqOut, a.publication.value.reliable, true)]
          && b == a.(publication := Some(a.publication.value.(seqOut := a.publication.value.seqOut + 1))))
    else
      match got.value
      case ReadyItem(result, effective) =>
        && sent == [] && a.state.Pending?
        && b == if result == 0 || result == 2 then
                  ClientView(Active, a.kind, None,
                             if PendingKind(a).TopicPublish? then Some(Publication(Reliability(a, effective) != 2, 0)) else a.publication)
                else ClientView(Failed, a.kind, None, a.publication)
      case ErrorItem(_) =>
        sent == [] && (b == a || (a.state.Pending? && b == ClientView(Failed, a.kind, None, a.publication)))
      case _ => false
  }

  lemma {:induction false} TakesSnoc(v: GateView, u: seq<Item>, i: Item)
    requires Settled(v) && Takes(v, u) && After(v, u).Rests?
    requires match i
             case OperationItem => After(v, u).view.state.Active?
             case CloseItem => After(v, u).view.state.Active?
             case SampleItem(sequence, reliable, plain) =>
               plain && After(v, u).view.state.Active? && After(v, u).view.port == Some(Port(TopicPublish, reliable, sequence))
             case _ => false
    ensures Takes(v, u + [i])
    ensures After(v, u + [i]) == match i
                                 case OperationItem => After(v, u)
                                 case CloseItem => Closes
                                 case SampleItem(_, _, _) => Rests(Next(After(v, u).view))
                                 case _ => After(v, u)
    decreases |u|
  {
    if u == [] {
      assert u + [i] == [i] && [i][1..] == [];
    } else {
      assert (u + [i])[1..] == u[1..] + [i] && (u + [i])[0] == u[0];
      if u[0].SampleItem? {
        TakesSnoc(Next(v), u[1..], i);
      } else if u[0].OperationItem? {
        TakesSnoc(v, u[1..], i);
      }
    }
  }

  /** A client move keeps the two ends consistent. */
  lemma {:induction false} ClientMoveKeeps(a: ClientView, b: ClientView, sent: seq<Item>, got: Option<Item>, closed: bool,
    v: GateView, u: seq<Item>, d: seq<Item>)
    requires ClientMoves(a, b, sent, got, closed)
    requires Joint(a, false, v, u, (match got case Some(i) => [i] case None => []) + d)
    ensures Joint(b, closed, v, u + sent, d)
  {
    var before := (match got case Some(i) => [i] case None => []) + d;
    assert u + [] == u;
    if closed {
    } else if got.Some? {
      assert before[0] == got.value && before[1..] == d;
      ReceiveKeeps(a, b, got.value, v, u, d);
    } else {
      assert before == d;
      if sent != [] {
        SendKeeps(a, b, sent[0], v, u, d);
        assert sent == [sent[0]];
      }
    }
  }

  lemma {:induction false} ReceiveKeeps(a: ClientView, b: ClientView, got: Item, v: GateView, u: seq<Item>, d: seq<Item>)
    requires ClientMoves(a, b, [], Some(got), false) && Joint(a, false, v, u, [got] + d)
    ensures Joint(b, false, v, u, d)
  {
    assert ([got] + d)[0] == got && forall i :: 0 <= i < |d| ==> d[i] == ([got] + d)[i + 1];
    if a.state.Pending? {
      assert u == [] && d == [];
    }
  }

  lemma {:induction false} SendKeeps(a: ClientView, b: ClientView, i: Item, v: GateView, u: seq<Item>, d: seq<Item>)
    requires ClientMoves(a, b, [i], None, false) && Joint(a, false, v, u, d)
    ensures Joint(b, false, v, u + [i], d)
  {
    if a.state.Active? {
      TakesSnoc(v, u, i);
    } else {
      assert u + [i] == [i];
    }
  }

  // ---------------------------------------------------------------- the gateway moves

  /** What the gateway does to a channel on taking `got`, the message about it, if any. */
  predicate GateMoves(a: GateView, b: GateView, got: Option<Item>, sent: seq<Item>) {
    match got
    case None => b == a && sent == []
    case Some(OpenItem(kind, _)) => |sent| == 1 && Settled(b) && Announces(b, kind, sent[0])
    case Some(CloseItem) => b.state.Closed? && b.port == None && sent == []
    case Some(SampleItem(_, _, _)) => a.port.Some? && b == Next(a) && OnlyErrors(sent)
    case Some(OperationItem) => b == a && OnlyErrors(sent)
    case _ => false
  }

  lemma {:induction false} GateMoveKeeps(c: ClientView, closed: bool, a: GateView, b: GateView, got: Option<Item>, sent: seq<Item>,
    u: seq<Item>, d: seq<Item>)
    requires Joint(c, closed, a, (match got case Some(i) => [i] case None => []) + u, d) && GateMoves(a, b, got, sent)
    ensures Joint(c, closed, b, u, d + sent)
  {
    var before := (match got case Some(i) => [i] case None => []) + u;
    assert d + [] == d;
    if got.None? {
      assert before == u;
    } else {
      assert before[0] == got.value && before[1..] == u;
    }
  }

}
