/** The client's heartbeats: when one is due, that the interval is kept over every run, and
    how many each event sends. */
module Heartbeats {
  import opened ByteOrder
  import opened CdrLimits
  import opened Session
  import opened Client
  import opened LinkItems
  import opened LinkClient
  import opened CallStreams
  import ClientLaws

  // ---------------------------------------------------------------- one timer

  predicate Due(c: Engine, now: nat) {
    c.session.phase.Ready? && c.nextHeartbeat.Some? && c.nextHeartbeat.value <= now
  }

  /** A timer sends one heartbeat, numbered on, exactly when the session is ready and the
      deadline is reached; it moves the deadline then, and sets it if there was none. */
  lemma {:induction false} TimerIsExact(t: Turn, now: nat, encodes: bool)
    requires HasRoom(t)
    ensures var u, due := HandleEvent(t, Timer(now, encodes)), Due(t.c, now);
            && u.c.lastTimer == Some(now) && u.o.events == t.o.events && u.c.session == t.c.session && u.c.closed == t.c.closed
            && u.c.nextHeartbeat ==
               (if due || (t.c.session.phase.Ready? && t.c.nextHeartbeat.None?) then Some(now + 15_000) else t.c.nextHeartbeat)
            && u.c.heartbeats == t.c.heartbeats + (if due then 1 else 0)
            && Sends(t, u, if due && encodes then [Framed(ControlFrame(t.c.controlOut, Heartbeat(t.c.heartbeats + 1)))] else [])
  {
    hide PushControl, Sends;
    if Due(t.c, now) {
      TimerBeats(t, now, encodes);
    } else {
      SendsNothing(t, HandleEvent(t, Timer(now, encodes)));
    }
  }

  lemma {:induction false} TimerBeats(t: Turn, now: nat, encodes: bool)
    requires HasRoom(t) && Due(t.c, now)
    ensures var u := HandleEvent(t, Timer(now, encodes));
            && u.c.lastTimer == Some(now) && u.o.events == t.o.events && u.c.session == t.c.session && u.c.closed == t.c.closed
            && u.c.nextHeartbeat == Some(now + 15_000) && u.c.heartbeats == t.c.heartbeats + 1
            && Sends(t, u, if encodes then [Framed(ControlFrame(t.c.controlOut, Heartbeat(t.c.heartbeats + 1)))] else [])
  {
    hide PushControl, Sends, Counts, ApplyControl, ControlFrame;
    var v := t.(c := t.c.(lastTimer := Some(now), heartbeats := t.c.heartbeats + 1));
    var p := PushControl(v, Heartbeat(v.c.heartbeats), encodes);
    var ws := PushEffect(v, Heartbeat(v.c.heartbeats), encodes);
    HeartbeatsGoOut(v, encodes);
    SendsOnward(v, p.turn, p.turn.(c := p.turn.c.(nextHeartbeat := Some(now + 15_000))), ws);
    SendsSame(t, v, HandleEvent(t, Timer(now, encodes)), ws);
  }

  /** A ready session never refuses a heartbeat, from either peer. */
  lemma {:induction false} HeartbeatAlwaysLegal(s: State, sequence: nat, counter: nat, sender: Role)
    requires s.phase.Ready?
    ensures ApplyFrame(s, ControlFrame(sequence, Heartbeat(counter)), sender) == Accepted(s, NOTHING)
  {
  }

  lemma {:induction false} HeartbeatsGoOut(t: Turn, encodes: bool)
    ensures var p := PushControl(t, Heartbeat(t.c.heartbeats), encodes);
            && (p.ok ==> p.turn.c.session == t.c.session)
            && (t.c.session.phase.Ready? ==> p.ok == encodes)
            && p.turn.c.heartbeats == t.c.heartbeats && p.turn.c.lastTimer == t.c.lastTimer
            && p.turn.c.nextHeartbeat == t.c.nextHeartbeat && p.turn.c.closed == t.c.closed
  {
    hide ApplyFrame;
    var a := ApplyFrame(t.c.session, ControlFrame(t.c.controlOut, Heartbeat(t.c.heartbeats)), ClientRole);
    if t.c.session.phase.Ready? {
      HeartbeatAlwaysLegal(t.c.session, t.c.controlOut, t.c.heartbeats, ClientRole);
    } else if a.Accepted? {
      HeartbeatNeedsReady(t.c.session, t.c.controlOut, t.c.heartbeats);
      assert false;
    }
  }

  lemma {:induction false} HeartbeatNeedsReady(s: State, sequence: nat, counter: nat)
    requires !s.phase.Ready?
    ensures ApplyFrame(s, ControlFrame(sequence, Heartbeat(counter)), ClientRole).Violation?
  {
  }

  // ---------------------------------------------------------------- the schedule

  /** A running schedule: ready, with a deadline. */
  predicate Scheduled(c: Engine, deadline: nat) {
    c.session.phase.Ready? && c.nextHeartbeat == Some(deadline)
  }

  /** Nothing but a timer touches the deadline of a ready engine, nor ends its being ready. */
  lemma {:induction false} OthersKeepDeadline(t: Turn, e: HostEvent, deadline: nat)
    requires Scheduled(t.c, deadline) && !e.Timer?
    ensures Scheduled(HandleEvent(t, e).c, deadline)
  {
    hide HandleCommand, HandleWsBytes, Release;
    match e
    case WsBytes(bufferId, bytes, parsed, encodes) => BytesKeepDeadline(t, bufferId, bytes, parsed, encodes, deadline);
    case Issue(cmd) => CommandKeepsDeadline(t, cmd, deadline);
    case ReleaseLease(_) =>
  }

  lemma {:induction false} PushKeepsDeadline(t: Turn, msg: Control, encodes: bool, deadline: nat)
    requires Scheduled(t.c, deadline)
    ensures Scheduled(PushControl(t, msg, encodes).turn.c, deadline)
  {
    hide ApplyControl;
    ControlAdvances(t.c.session, msg, ClientRole);
  }

  lemma {:induction false} SendKeepsDeadline(t: Turn, f: Frame, frames: bool, deadline: nat)
    requires Scheduled(t.c, deadline)
    ensures Scheduled(SendData(t, f, frames).turn.c, deadline)
  {
    hide ApplyFrame;
    FramesAdvance(t.c.session, f, ClientRole);
  }

  lemma {:induction false} CommandKeepsDeadline(t: Turn, cmd: Command, deadline: nat)
    requires Scheduled(t.c, deadline)
    ensures Scheduled(HandleCommand(t, cmd).c, deadline)
  {
    hide PushControl, SendData, NextOp, SentReliable, SampleFrame, OpenRequest;
    match cmd
    case Start(_) =>
    case Login(encodes) => PushKeepsDeadline(t, Authenticate, encodes, deadline);
    case OpenCommand(ch, kind, reliability, depth, _, encodes) =>
      PushKeepsDeadline(t, OpenRequest(ch, kind, RequestedReliability(kind, reliability), depth), encodes, deadline);
    case SendSample(ch, payloadLen, _, frames) =>
      if ch in t.c.publishes {
        var p := t.c.publishes[ch];
        SendKeepsDeadline(t.(c := t.c.(publishes := t.c.publishes[ch := p.(seqOut := p.seqOut + 1)])), SampleFrame(ch, p, payloadLen), frames, deadline);
      }
    case SendOperation(ch, op, id, payloadLen, _, frames) =>
      if ch in t.c.services || ch in t.c.actions {
        var sequence := if ch in t.c.services then t.c.services[ch].nextSeq else t.c.actions[ch].nextSeq;
        var took :=
          if ch in t.c.services then t.(c := t.c.(services := t.c.services[ch := NextOp(t.c.services[ch], id)]))
          else t.(c := t.c.(actions := t.c.actions[ch := NextOp(t.c.actions[ch], id)]));
        SendKeepsDeadline(took, Frame(op, SentReliable(op), false, ch, sequence, OPERATION_ID_AREA, payloadLen, Some(id), AppPayload), frames, deadline);
      }
    case Unsubscribe(ch, encodes) => PushKeepsDeadline(t, CloseChannel(ch), encodes, deadline);
    case Shutdown =>
  }

  lemma {:induction false} ControlKeepsDeadline(t: Turn, msg: Control, encodes: bool, deadline: nat)
    requires Scheduled(t.c, deadline) && ApplyControl(t.c.session, msg, ServerRole).Accepted?
    ensures var a := ApplyControl(t.c.session, msg, ServerRole);
            Scheduled(HandleControl(t.(c := t.c.(session := a.state, controlIn := t.c.controlIn + 1)), msg, a.effects, encodes).c, deadline)
  {
    hide PushControl, ApplyControl, ChannelIsReady, OpenDidFail;
    var a := ApplyControl(t.c.session, msg, ServerRole);
    var s := t.(c := t.c.(session := a.state, controlIn := t.c.controlIn + 1));
    ControlAdvances(t.c.session, msg, ServerRole);
    match msg
    case Heartbeat(counter) =>
      var u := Tell(s, HeartbeatSeen(counter));
      var v := u.(c := u.c.(heartbeats := u.c.heartbeats + 1));
      PushKeepsDeadline(v, Heartbeat(v.c.heartbeats), encodes, deadline);
    case ChannelReady(ch, _, effective) => OpeningKeepsDeadline(s, ch, effective, deadline);
    case ErrorMessage(_, channel) =>
      if a.effects.failing.Some? {
        OpeningKeepsDeadline(s, a.effects.failing.value, None, deadline);
      }
    case SessionReady => ReadyOnce(t.c.session);
    case _ =>
  }

  lemma {:induction false} ReadyOnce(s: State)
    requires s.phase.Ready?
    ensures ApplyControl(s, SessionReady, ServerRole).Violation?
  {
  }

  lemma {:induction false} OpeningKeepsDeadline(s: Turn, ch: nat, effective: Option<nat>, deadline: nat)
    requires Scheduled(s.c, deadline)
    ensures Scheduled(ChannelIsReady(s, ch, effective).c, deadline) && Scheduled(OpenDidFail(s, ch).c, deadline)
  {
  }

  lemma {:induction false} BytesKeepDeadline(t: Turn, bufferId: nat, bytes: seq<byte>, parsed: Parsed, encodes: bool, deadline: nat)
    requires Scheduled(t.c, deadline)
    ensures Scheduled(HandleWsBytes(t, bufferId, bytes, parsed, encodes).c, deadline)
  {
    hide HandleFrame, Ingest, FinishIngest, DeclaredLen;
    var (slab, id) := Ingest(t.c.slab, bufferId, t.c.host, bytes);
    FrameKeepsDeadline(t.(c := t.c.(slab := slab)), id, DeclaredLen(t.c.host, bytes), parsed, encodes, deadline);
  }

  lemma {:induction false} FrameKeepsDeadline(t: Turn, id: nat, declared: nat, parsed: Parsed, encodes: bool, deadline: nat)
    requires Scheduled(t.c, deadline)
    ensures Scheduled(HandleFrame(t, id, declared, parsed, encodes).c, deadline)
  {
    hide HandleControl, ApplyControl, Grant;
    if parsed.FrameParsed? && ApplyFrame(t.c.session, parsed.frame, ServerRole).Accepted? {
      FramesAdvance(t.c.session, parsed.frame, ServerRole);
      if parsed.frame.opcode.ControlCbor? && parsed.frame.payload.ControlPayload? {
        ControlKeepsDeadline(t, parsed.frame.payload.msg, encodes, deadline);
      }
    }
  }

  /** The times of the timers an open engine was given. */
  function TimerTimes(t: Turn, events: seq<HostEvent>): seq<nat>
    decreases |events|
  {
    if events == [] || t.c.closed then []
    else (if events[0].Timer? then [events[0].now] else []) + TimerTimes(HandleEvent(t, events[0]), events[1..])
  }

  /** The times of those at which it counted up its heartbeats. */
  function BeatTimes(t: Turn, events: seq<HostEvent>): seq<nat>
    decreases |events|
  {
    if events == [] || t.c.closed then []
    else
      var u := HandleEvent(t, events[0]);
      (if events[0].Timer? && u.c.heartbeats > t.c.heartbeats then [events[0].now] else []) + BeatTimes(u, events[1..])
  }

  /** The first time at or after the deadline, then the first at least 15 seconds later, and so on. */
  function EveryInterval(deadline: nat, times: seq<nat>): seq<nat>
    decreases |times|
  {
    if times == [] then []
    else if deadline <= times[0] then [times[0]] + EveryInterval(times[0] + 15_000, times[1..])
    else EveryInterval(deadline, times[1..])
  }

  /** The deadline after that. */
  function DeadlineAfter(deadline: nat, times: seq<nat>): nat {
    var beats := EveryInterval(deadline, times);
    if beats == [] then deadline else beats[|beats| - 1] + 15_000
  }

  lemma {:induction false} TimerStep(t: Turn, e: HostEvent, deadline: nat)
    requires Scheduled(t.c, deadline) && e.Timer?
    ensures var u := HandleEvent(t, e);
            && Scheduled(u.c, if deadline <= e.now then e.now + 15_000 else deadline)
            && (u.c.heartbeats > t.c.heartbeats <==> deadline <= e.now)
  {
    hide PushControl;
    var v := t.(c := t.c.(lastTimer := Some(e.now), heartbeats := t.c.heartbeats + 1));
    HeartbeatsGoOut(v, e.encodes);
    PushKeepsDeadline(v, Heartbeat(v.c.heartbeats), e.encodes, deadline);
  }

  lemma {:induction false} DeadlineStep(deadline: nat, times: seq<nat>)
    requires times != []
    ensures DeadlineAfter(deadline, times) == DeadlineAfter(if deadline <= times[0] then times[0] + 15_000 else deadline, times[1..])
  {
    if deadline <= times[0] {
      var rest := EveryInterval(times[0] + 15_000, times[1..]);
      assert EveryInterval(deadline, times) == [times[0]] + rest;
    }
  }

  lemma {:induction false} BatchKeepsInterval(t: Turn, events: seq<HostEvent>, deadline: nat)
    requires Scheduled(t.c, deadline)
    ensures BeatTimes(t, events) == EveryInterval(deadline, TimerTimes(t, events))
    ensures Scheduled(HandleAll(t, events).c, DeadlineAfter(deadline, TimerTimes(t, events)))
    decreases |events|
  {
    hide HandleEvent, DeadlineAfter, Scheduled;
    if events == [] || t.c.closed {
      assert DeadlineAfter(deadline, []) == deadline by {
        NoTimes(deadline);
      }
    } else {
      var e, u := events[0], HandleEvent(t, events[0]);
      var rest := TimerTimes(u, events[1..]);
      if e.Timer? {
        TimerStep(t, e, deadline);
        var times := [e.now] + rest;
        assert times[0] == e.now && times[1..] == rest && TimerTimes(t, events) == times;
        DeadlineStep(deadline, times);
        BatchKeepsInterval(u, events[1..], if deadline <= e.now then e.now + 15_000 else deadline);
        assert [] + BeatTimes(u, events[1..]) == BeatTimes(u, events[1..]);
      } else {
        OthersKeepDeadline(t, e, deadline);
        BatchKeepsInterval(u, events[1..], deadline);
        assert [] + rest == rest && [] + BeatTimes(u, events[1..]) == BeatTimes(u, events[1..]);
      }
    }
  }

  lemma {:induction false} NoTimes(deadline: nat)
    ensures DeadlineAfter(deadline, []) == deadline
  {
  }

  /** The same of a run, turn after turn. */
  function RunTimes(c: Engine, polls: seq<seq<HostEvent>>): seq<nat>
    decreases |polls|
  {
    if polls == [] then [] else TimerTimes(Turn(c, NO_OUTCOME), Batch(polls[0])) + RunTimes(Poll(c, polls[0]).c, polls[1..])
  }

  function RunBeats(c: Engine, polls: seq<seq<HostEvent>>): seq<nat>
    decreases |polls|
  {
    if polls == [] then [] else BeatTimes(Turn(c, NO_OUTCOME), Batch(polls[0])) + RunBeats(Poll(c, polls[0]).c, polls[1..])
  }

  lemma {:induction false} IntervalJoin(deadline: nat, a: seq<nat>, b: seq<nat>)
    ensures EveryInterval(deadline, a + b) == EveryInterval(deadline, a) + EveryInterval(DeadlineAfter(deadline, a), b)
    decreases |a|
  {
    hide DeadlineAfter;
    if a == [] {
      assert a + b == b && [] + EveryInterval(deadline, b) == EveryInterval(deadline, b);
      NoTimes(deadline);
    } else {
      assert (a + b)[1..] == a[1..] + b;
      DeadlineStep(deadline, a);
      IntervalJoin(if deadline <= a[0] then a[0] + 15_000 else deadline, a[1..], b);
    }
  }

  lemma {:induction false} PollKeepsInterval(c: Engine, events: seq<HostEvent>, deadline: nat)
    requires Scheduled(c, deadline)
    ensures var t, times := Poll(c, events), TimerTimes(Turn(c, NO_OUTCOME), Batch(events));
            && BeatTimes(Turn(c, NO_OUTCOME), Batch(events)) == EveryInterval(deadline, times)
            && Scheduled(t.c, DeadlineAfter(deadline, times)) && (!c.closed ==> t.o.deadline == Some(DeadlineAfter(deadline, times)))
  {
    hide HandleAll, DeadlineAfter, Sweep, Swept;
    BatchKeepsInterval(Turn(c, NO_OUTCOME), Batch(events), deadline);
    if c.closed {
      NoTimes(deadline);
    }
  }

  /** Over every run of a ready engine, whatever else happens: it counts a heartbeat at exactly
      the first timer at or after its deadline, and then whenever 15 seconds have passed since the
      last one, on time or late. The deadline a turn reports is when the next one is due. */
  lemma {:induction false} IntervalIsKept(c: Engine, polls: seq<seq<HostEvent>>, deadline: nat)
    requires Scheduled(c, deadline)
    ensures RunBeats(c, polls) == EveryInterval(deadline, RunTimes(c, polls))
    ensures ClientLaws.Run(c, polls).nextHeartbeat == Some(DeadlineAfter(deadline, RunTimes(c, polls)))
    ensures polls != [] && !c.closed ==> Poll(c, polls[0]).o.deadline == Poll(c, polls[0]).c.nextHeartbeat
    decreases |polls|
  {
    hide Poll, DeadlineAfter, BeatTimes, TimerTimes, EveryInterval;
    if polls == [] {
      NoTimes(deadline);
      assert EveryInterval(deadline, []) == [] by {
        NoBeats(deadline);
      }
    } else {
      var d, times := Poll(c, polls[0]).c, TimerTimes(Turn(c, NO_OUTCOME), Batch(polls[0]));
      PollKeepsInterval(c, polls[0], deadline);
      IntervalIsKept(d, polls[1..], DeadlineAfter(deadline, times));
      IntervalJoin(deadline, times, RunTimes(d, polls[1..]));
      DeadlineJoin(deadline, times, RunTimes(d, polls[1..]));
    }
  }

  lemma {:induction false} NoBeats(deadline: nat)
    ensures EveryInterval(deadline, []) == []
  {
  }

  lemma {:induction false} DeadlineJoin(deadline: nat, a: seq<nat>, b: seq<nat>)
    ensures DeadlineAfter(deadline, a + b) == DeadlineAfter(DeadlineAfter(deadline, a), b)
  {
    hide EveryInterval;
    IntervalJoin(deadline, a, b);
    var x, y := EveryInterval(deadline, a), EveryInterval(DeadlineAfter(deadline, a), b);
    if y == [] {
      assert x + y == x;
    } else {
      assert (x + y)[|x + y| - 1] == y[|y| - 1];
    }
  }

  /** The schedule begins when the session becomes ready, 15 seconds after the last timer if there
      was one. */
  lemma {:induction false} ScheduleBegins(t: Turn, bufferId: nat, bytes: seq<byte>, f: Frame, encodes: bool)
    requires t.c.session.phase.AwaitSessionReady? && f == ControlFrame(t.c.controlIn, SessionReady)
    ensures var u := HandleEvent(t, WsBytes(bufferId, bytes, FrameParsed(f), encodes));
            && u.c.session.phase.Ready? && u.o.events == t.o.events + [SessionIsReady] && u.o.outbound == t.o.outbound
            && u.c.nextHeartbeat == (if t.c.lastTimer.Some? then Some(t.c.lastTimer.value + 15_000) else t.c.nextHeartbeat)
  {
    hide Ingest, FinishIngest, DeclaredLen;
  }
}
