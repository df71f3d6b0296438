/** Requested and effective quality of service, and their wire maps. */
module Qos {
  import opened ByteOrder

  /** One entry of a wire map; values that are not unsigned integers are `None`. */
  datatype Entry = Entry(key: nat, value: Option<nat>)

  datatype RequestedQos = RequestedQos(
    reliability: nat, durability: nat, historyKind: nat, historyDepth: Option<nat>, liveliness: nat)

  const DEFAULT_REQUEST := RequestedQos(0, 0, 0, None, 0)

  /** One step of `from_wire`: later entries win, other keys and types are skipped, values
      are cast down. */
  function Take(out: RequestedQos, e: Entry): RequestedQos {
    if e.value.None? then out
    else
      var n := e.value.value;
      if e.key == 1 then out.(reliability := n % 0x100)
      else if e.key == 2 then out.(durability := n % 0x100)
      else if e.key == 3 then out.(historyKind := n % 0x100)
      else if e.key == 4 then out.(historyDepth := Some(n % 0x1_0000_0000))
      else if e.key == 7 then out.(liveliness := n % 0x100)
      else out
  }

  function TakeAll(out: RequestedQos, entries: seq<Entry>): RequestedQos
    decreases |entries|
  {
    if entries == [] then out else TakeAll(Take(out, entries[0]), entries[1..])
  }

  method FromWire(entries: seq<Entry>) returns (out: RequestedQos)
    ensures out == TakeAll(DEFAULT_REQUEST, entries)
  {
    out := DEFAULT_REQUEST;
    assert entries[0..] == entries;
    for i := 0 to |entries|
      invariant TakeAll(DEFAULT_REQUEST, entries) == TakeAll(out, entries[i..])
    {
      assert entries[i..][0] == entries[i] && entries[i..][1..] == entries[i + 1..];
      out := Take(out, entries[i]);
    }
  }

  datatype EffectiveQos = EffectiveQos(
    reliable: bool, transientLocal: bool, keepAll: bool, depth: nat, manualByTopic: bool)

  function ResolveEffective(r: RequestedQos): EffectiveQos {
    var keepAll := r.historyKind == 2;
    var asked := if r.historyDepth.Some? then r.historyDepth.value else 10;
    EffectiveQos(r.reliability != 2, r.durability == 1, keepAll,
                 if keepAll then 0 else if asked >= 1 then asked else 1, r.liveliness == 2)
  }

  function ToWire(e: EffectiveQos): seq<Entry> {
    [Entry(1, Some(if e.reliable then 1 else 2)), Entry(2, Some(if e.transientLocal then 1 else 2)),
     Entry(3, Some(if e.keepAll then 2 else 1))]
    + (if e.keepAll then [] else [Entry(4, Some(e.depth))])
    + [Entry(7, Some(if e.manualByTopic then 2 else 1))]
  }

  /** `field_effective_reliability`: what the client reads back from ChannelReady key 57. */
  function EffectiveReliability(entries: seq<Entry>): Option<nat> {
    if entries == [] then None
    else if entries[0].key == 1 && entries[0].value.Some? && entries[0].value.value <= 255 then entries[0].value
    else EffectiveReliability(entries[1..])
  }

  /** What every resolution yields: a depth of at least one, or none at all. */
  predicate Concrete(e: EffectiveQos) {
    if e.keepAll then e.depth == 0 else 1 <= e.depth <= U32_MAX
  }

  /** Effective QoS is a fixed point: asked for on the wire, it resolves to itself. */
  lemma {:induction false} EffectiveIsFixed(r: RequestedQos)
    requires r.historyDepth.Some? ==> r.historyDepth.value <= U32_MAX
    ensures var e := ResolveEffective(r);
            Concrete(e) && ResolveEffective(TakeAll(DEFAULT_REQUEST, ToWire(e))) == e
  {
    hide TakeAll, Take;
    var e := ResolveEffective(r);
    var w := ToWire(e);
    TakeOne(DEFAULT_REQUEST, w);
    TakeOne(Take(DEFAULT_REQUEST, w[0]), w[1..]);
    TakeOne(Take(Take(DEFAULT_REQUEST, w[0]), w[1]), w[2..]);
    var q := TakenSoFar(e);
    assert w[1..][1..] == w[2..] && w[2..][1..] == w[3..] && w[3..][1..] == w[4..];
    TakeOne(q, w[3..]);
    if e.keepAll {
      TakeNone(Take(q, w[3]), w[4..]);
    } else {
      TakeOne(Take(q, w[3]), w[4..]);
      TakeNone(Take(Take(q, w[3]), w[4]), w[4..][1..]);
    }
    TakenRest(e, q);
  }

  lemma {:induction false} TakeOne(out: RequestedQos, entries: seq<Entry>)
    requires entries != []
    ensures TakeAll(out, entries) == TakeAll(Take(out, entries[0]), entries[1..])
  {
  }

  lemma {:induction false} TakeNone(out: RequestedQos, entries: seq<Entry>)
    requires entries == []
    ensures TakeAll(out, entries) == out
  {
  }

  /** The request after the first three entries of an effective map. */
  lemma {:induction false} TakenSoFar(e: EffectiveQos) returns (q: RequestedQos)
    ensures var w := ToWire(e);
            q == Take(Take(Take(DEFAULT_REQUEST, w[0]), w[1]), w[2])
    ensures q == RequestedQos(if e.reliable then 1 else 2, if e.transientLocal then 1 else 2, if e.keepAll then 2 else 1, None, 0)
  {
    q := RequestedQos(if e.reliable then 1 else 2, if e.transientLocal then 1 else 2, if e.keepAll then 2 else 1, None, 0);
  }

  lemma {:induction false} TakenRest(e: EffectiveQos, q: RequestedQos)
    requires Concrete(e)
    requires q == RequestedQos(if e.reliable then 1 else 2, if e.transientLocal then 1 else 2, if e.keepAll then 2 else 1, None, 0)
    ensures var w := ToWire(e);
            ResolveEffective(if e.keepAll then Take(q, w[3]) else Take(Take(q, w[3]), w[4])) == e
  {
  }

  /** The client's test on key 57 recovers exactly the gateway's reliability. */
  lemma {:induction false} ReliabilityIsCarried(e: EffectiveQos)
    ensures EffectiveReliability(ToWire(e)) == Some(if e.reliable then 1 else 2)
  {
  }

  // ---------------------------------------------------------------- what a wire map asks for

  /** The last unsigned value under `key`, if there is one. */
  function LastUnder(entries: seq<Entry>, key: nat): Option<nat> {
    if entries == [] then None
    else
      var last := entries[|entries| - 1];
      if last.key == key && last.value.Some? then last.value else LastUnder(entries[..|entries| - 1], key)
  }

  lemma {:induction false} TakeSnoc(out: RequestedQos, entries: seq<Entry>, e: Entry)
    ensures TakeAll(out, entries + [e]) == Take(TakeAll(out, entries), e)
    decreases |entries|
  {
    hide Take;
    if entries == [] {
      assert entries + [e] == [e] && [e][1..] == [];
    } else {
      assert (entries + [e])[1..] == entries[1..] + [e];
      TakeSnoc(Take(out, entries[0]), entries[1..], e);
    }
  }

  function Cast(n: Option<nat>, span: nat): nat
    requires span > 0
  {
    if n.Some? then n.value % span else 0
  }

  /** Each member of the request is the last value under its own key, cast down; nothing
      else in the map matters. */
  lemma {:induction false} LastDecides(entries: seq<Entry>)
    ensures var r := TakeAll(DEFAULT_REQUEST, entries);
            && r.reliability == Cast(LastUnder(entries, 1), 0x100) && r.durability == Cast(LastUnder(entries, 2), 0x100)
            && r.historyKind == Cast(LastUnder(entries, 3), 0x100) && r.liveliness == Cast(LastUnder(entries, 7), 0x100)
            && r.historyDepth ==
               match LastUnder(entries, 4) { case Some(n) => Some(n % 0x1_0000_0000) case None => None }
  {
    if entries != [] {
      var n := |entries| - 1;
      assert entries == entries[..n] + [entries[n]];
      TakeSnoc(DEFAULT_REQUEST, entries[..n], entries[n]);
      LastDecides(entries[..n]);
    }
  }

  /** A map whose values fit their fields. */
  ghost predicate Fits(entries: seq<Entry>) {
    && (forall key :: key != 4 ==> LastUnder(entries, key).None? || LastUnder(entries, key).value < 0x100)
    && (LastUnder(entries, 4).Some? ==> LastUnder(entries, 4).value <= U32_MAX)
  }

  /** None if all is kept, the default of ten if none was asked for, never zero. */
  function DepthFor(keepAll: bool, asked: Option<nat>): nat {
    if keepAll then 0 else if asked == None then 10 else if asked == Some(0) then 1 else asked.value
  }

  /** What a channel gets for the map it was opened with: a concrete request is honoured; the
      system default, and a key left out, mean reliable, volatile, keep last 10, automatic;
      a depth of zero means one. */
  lemma {:induction false} RequestIsHonoured(entries: seq<Entry>)
    requires Fits(entries)
    ensures var e := ResolveEffective(TakeAll(DEFAULT_REQUEST, entries));
            && (e.reliable <==> LastUnder(entries, 1) != Some(2))
            && (e.transientLocal <==> LastUnder(entries, 2) == Some(1))
            && (e.keepAll <==> LastUnder(entries, 3) == Some(2))
            && (e.manualByTopic <==> LastUnder(entries, 7) == Some(2))
            && e.depth == DepthFor(e.keepAll, LastUnder(entries, 4))
  {
    hide LastUnder;
    LastDecides(entries);
    assert forall key | key in {1, 2, 3, 7} :: LastUnder(entries, key).None? || LastUnder(entries, key).value < 0x100;
  }

  /** Out of range the casts decide: 258 asks for best effort. */
  lemma {:induction false} CastsDecide(entries: seq<Entry>)
    ensures var e := ResolveEffective(TakeAll(DEFAULT_REQUEST, entries));
            && (e.reliable <==> Cast(LastUnder(entries, 1), 0x100) != 2)
            && (!e.keepAll ==> 1 <= e.depth <= U32_MAX)
  {
    LastDecides(entries);
  }

  lemma {:induction false} NothingAsked()
    ensures ResolveEffective(TakeAll(DEFAULT_REQUEST, [])) == EffectiveQos(true, false, false, 10, false)
  {
  }
}
