/** The per-connection sample write queue: byte and sample budgets, latest-wins admission
    and disposition counters. */
module WriteQueue {
  import opened ByteOrder

  datatype Frame = Frame(channelId: nat, reliable: bool, bytes: seq<byte>)

  function Total(items: seq<Frame>): nat {
    if items == [] then 0 else |items[0].bytes| + Total(items[1..])
  }

  /** The two budgets; at least one of each. */
  datatype Budget = Budget(maxSamples: nat, maxBytes: nat) {
    predicate Accepted() {
      maxSamples >= 1 && maxBytes >= 1
    }

    predicate Allows(items: seq<Frame>) {
      |items| <= maxSamples && Total(items) <= maxBytes
    }

    predicate CanFit(items: seq<Frame>, len: nat) {
      len <= maxBytes && |items| < maxSamples && Total(items) + len <= maxBytes
    }
  }

  /** The longest tail of `items` that leaves room for `len` more octets. */
  function Survivors(b: Budget, items: seq<Frame>, len: nat): (rest: seq<Frame>)
    ensures |rest| <= |items| && rest == items[|items| - |rest|..]
  {
    if b.CanFit(items, len) || items == [] then items else Survivors(b, items[1..], len)
  }

  /** Saturating `u64` increment, `n` times. */
  function Saturating(count: nat, n: nat): nat {
    if count + n <= U64_MAX then count + n else U64_MAX
  }

  // ---------------------------------------------------------------- the queue

  class SampleWriteQueue {
    const budget: Budget
    var items: seq<Frame>
    var bytes: nat
    var delivered: nat
    var sequenceGap: nat
    ghost var offered: nat
    ghost var popped: nat
    ghost var gaps: nat

    /** Budgets hold, `bytes` is exact, and every frame ever offered is accounted for: popped,
        dropped with a gap, or still queued. */
    /** Totals and accounts are right. */
    ghost predicate Counted()
      reads this
    {
      && budget.Accepted() && bytes == Total(items)
      && offered == popped + gaps + |items|
      && sequenceGap == Saturating(0, gaps) && delivered <= U64_MAX
    }

    ghost predicate Valid()
      reads this
    {
      Counted() && budget.Allows(items)
    }

    constructor (maxSamples: nat, maxBytes: nat)
      ensures Valid() && items == [] && offered == popped == gaps == delivered == 0
      ensures budget == Budget(if maxSamples > 1 then maxSamples else 1, if maxBytes > 1 then maxBytes else 1)
    {
      budget := Budget(if maxSamples > 1 then maxSamples else 1, if maxBytes > 1 then maxBytes else 1);
      items, bytes, delivered, sequenceGap := [], 0, 0, 0;
      offered, popped, gaps := 0, 0, 0;
    }

    method CanFit(len: nat) returns (fits: bool)
      requires Valid()
      ensures fits == budget.CanFit(items, len)
    {
      if len > budget.maxBytes {
        return false;
      }
      return |items| < budget.maxSamples && bytes + len <= budget.maxBytes;
    }

    method RecordGap()
      modifies this`sequenceGap, this`gaps
      ensures sequenceGap == Saturating(old(sequenceGap), 1) && gaps == old(gaps) + 1
      ensures old(sequenceGap == Saturating(0, gaps)) ==> sequenceGap == Saturating(0, gaps)
    {
      sequenceGap := if sequenceGap < U64_MAX then sequenceGap + 1 else U64_MAX;
      gaps := gaps + 1;
    }

    method Push(channelId: nat, reliable: bool, frame: seq<byte>)
      requires Valid()
      modifies this`items, this`bytes, this`offered
      ensures Counted() && items == old(items) + [Frame(channelId, reliable, frame)]
      ensures budget.CanFit(old(items), |frame|) ==> Valid()
      ensures offered == old(offered) + 1
    {
      TotalSnoc(items, Frame(channelId, reliable, frame));
      bytes := bytes + |frame|;
      items := items + [Frame(channelId, reliable, frame)];
      offered := offered + 1;
    }

    /** `admit_best_effort`, latest wins. A frame over the whole byte budget is refused and
        evicts nothing. Any other frame is queued behind exactly the longest tail of the old
        queue that leaves room for it. Whatever is lost is a sequence gap. */
    method AdmitBestEffort(channelId: nat, frame: seq<byte>)
      requires Valid()
      modifies this
      ensures Valid() && delivered == old(delivered) && popped == old(popped) && offered == old(offered) + 1
      ensures |frame| > budget.maxBytes ==> items == old(items) && gaps == old(gaps) + 1
      ensures |frame| <= budget.maxBytes ==>
        && items == Survivors(budget, old(items), |frame|) + [Frame(channelId, false, frame)]
        && gaps == old(gaps) + |old(items)| + 1 - |items|
    {
      hide Total, Survivors, Saturating;
      if |frame| > budget.maxBytes {
        RecordGap();
        offered := offered + 1;
        return;
      }
      EvictFor(|frame|);
      var fits := CanFit(|frame|);
      if !fits {
        assert false;  // an empty queue fits any frame within the byte budget
      }
      Push(channelId, false, frame);
    }

    /** The eviction loop. */
    method EvictFor(len: nat)
      requires Valid() && len <= budget.maxBytes
      modifies this`items, this`bytes, this`sequenceGap, this`gaps
      ensures Valid() && items == Survivors(budget, old(items), len) && budget.CanFit(items, len)
      ensures gaps + |items| == old(gaps) + |old(items)|
    {
      hide Total, Survivors, Saturating;
      var fits := CanFit(len);
      while !fits
        invariant Valid() && fits == budget.CanFit(items, len)
        invariant Survivors(budget, old(items), len) == Survivors(budget, items, len)
        invariant gaps + |items| == old(gaps) + |old(items)|
        decreases |items|
      {
        EmptyFits(budget, len);
        EvictionProceeds(budget, items, len);
        EvictOldest();
        fits := CanFit(len);
      }
      NoEviction(budget, items, len);
    }

    method EvictOldest()
      requires Valid() && items != []
      modifies this`items, this`bytes, this`sequenceGap, this`gaps
      ensures Valid() && items == old(items)[1..] && gaps == old(gaps) + 1
    {
      TotalCons(items);
      bytes := bytes - |items[0].bytes|;
      items := items[1..];
      RecordGap();
    }

    /** `try_reserve_reliable`: changes nothing. */
    method TryReserveReliable(len: nat) returns (reserved: bool)
      requires Valid()
      ensures reserved == budget.CanFit(items, len)
    {
      reserved := CanFit(len);
    }

    /** `push_reliable`: evicts nothing. Within budget if the reservation said so; the
        assertion in the source also lets any frame into an empty queue. */
    method PushReliable(channelId: nat, frame: seq<byte>)
      requires Valid() && (budget.CanFit(items, |frame|) || items == [])
      modifies this
      ensures Counted() && items == old(items) + [Frame(channelId, true, frame)]
      ensures budget.CanFit(old(items), |frame|) ==> Valid()
      ensures offered == old(offered) + 1 && popped == old(popped) && gaps == old(gaps) && delivered == old(delivered)
    {
      Push(channelId, true, frame);
    }

    method PopFront() returns (frame: Option<seq<byte>>)
      requires Valid()
      modifies this
      ensures Valid() && offered == old(offered) && gaps == old(gaps) && delivered == old(delivered)
      ensures old(items) == [] ==> frame == None && items == [] && popped == old(popped)
      ensures old(items) != [] ==>
        frame == Some(old(items)[0].bytes) && items == old(items)[1..] && popped == old(popped) + 1
    {
      hide Total;
      if items == [] {
        return None;
      }
      TotalCons(items);
      frame := Some(items[0].bytes);
      bytes := bytes - |items[0].bytes|;
      items := items[1..];
      popped := popped + 1;
    }

    method RecordDelivered()
      requires Valid()
      modifies this`delivered
      ensures Valid() && delivered == Saturating(old(delivered), 1)
    {
      delivered := if delivered < U64_MAX then delivered + 1 else U64_MAX;
    }
  }

  lemma {:induction false} TotalCons(items: seq<Frame>)
    requires items != []
    ensures Total(items) == |items[0].bytes| + Total(items[1..])
  {
  }

  lemma {:induction false} TotalSnoc(items: seq<Frame>, f: Frame)
    ensures Total(items + [f]) == Total(items) + |f.bytes|
  {
    if items == [] {
      assert [] + [f] == [f] && [f][1..] == [];
    } else {
      assert (items + [f])[1..] == items[1..] + [f];
      TotalSnoc(items[1..], f);
    }
  }

  lemma {:induction false} EmptyFits(b: Budget, len: nat)
    requires b.Accepted() && len <= b.maxBytes
    ensures b.CanFit([], len)
  {
  }

  lemma {:induction false} EvictionProceeds(b: Budget, items: seq<Frame>, len: nat)
    requires items != [] && !b.CanFit(items, len)
    ensures Survivors(b, items, len) == Survivors(b, items[1..], len)
  {
  }

  lemma {:induction false} NoEviction(b: Budget, items: seq<Frame>, len: nat)
    requires b.CanFit(items, len)
    ensures Survivors(b, items, len) == items
  {
  }

  /** Room for one more frame is what keeps both budgets with it. */
  lemma {:induction false} FitsMeansAllowed(b: Budget, items: seq<Frame>, f: Frame)
    ensures b.CanFit(items, |f.bytes|) <==> b.Allows(items + [f])
  {
    TotalSnoc(items, f);
  }

  /** Eviction is minimal: what survives and the new frame keep both budgets, and no longer
      tail of the old queue does with it. */
  lemma {:induction false} SurvivorsAreLongest(b: Budget, items: seq<Frame>, f: Frame)
    requires b.Accepted() && |f.bytes| <= b.maxBytes
    ensures b.Allows(Survivors(b, items, |f.bytes|) + [f])
    ensures forall k :: 0 <= k < |items| - |Survivors(b, items, |f.bytes|)| ==> !b.Allows(items[k..] + [f])
    decreases |items|
  {
    hide Total, Budget.CanFit, Budget.Allows;
    var len := |f.bytes|;
    FitsMeansAllowed(b, items, f);
    if items == [] {
      EmptyFits(b, len);
    } else if !b.CanFit(items, len) {
      SurvivorsAreLongest(b, items[1..], f);
      forall k | 0 <= k < |items| - |Survivors(b, items, len)| ensures !b.Allows(items[k..] + [f]) {
        if k == 0 {
          assert items[0..] == items;
        } else {
          assert items[k..] == items[1..][k - 1..];
        }
      }
    }
  }

  /** A queue that is empty at every admit loses a frame only when the frame alone exceeds
      the byte budget, and never evicts. */
  lemma {:induction false} EmptyQueueKeepsFrame(b: Budget, len: nat)
    requires b.Accepted()
    ensures Survivors(b, [], len) == []
    ensures b.CanFit([], len) <==> len <= b.maxBytes
  {
  }
}
