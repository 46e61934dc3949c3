/**
  The capacity promise: a queue built for `size` elements refuses a non-allocating
  enqueue only if it held at least `size` elements at some moment of that call.
 */
module QueueCapacity {
  import opened Wrappers
  import opened SpscQueue
  import opened QueueInvariant
  import opened QueueBlocks
  import opened QueueRefinement
  import opened QueueRuns
  import opened QueueRing
  import Producing = QueueProducer

  /** Usable slots of the first `m` blocks of the ring: each block wastes one. */
  ghost function RingMask<T>(blocks: seq<Block<T>>, ring: seq<nat>, m: nat): int
    requires InRange(ring, |blocks|) && m <= |ring|
  {
    if m == 0 then 0 else RingMask(blocks, ring, m - 1) + |blocks[ring[m - 1]].data| - 1
  }

  lemma {:induction false} RingMaskFrame<T>(
    blocks: seq<Block<T>>, ring: seq<nat>, blocks': seq<Block<T>>, ring': seq<nat>, m: nat)
    requires InRange(ring, |blocks|) && InRange(ring', |blocks'|) && m <= |ring| && m <= |ring'|
    requires forall i :: 0 <= i < m ==> |blocks'[ring'[i]].data| == |blocks[ring[i]].data|
    ensures RingMask(blocks', ring', m) == RingMask(blocks, ring, m)
  {
    if m > 0 {
      RingMaskFrame(blocks, ring, blocks', ring', m - 1);
    }
  }

  lemma {:induction false} RingMaskRotate<T>(blocks: seq<Block<T>>, ring: seq<nat>, m: nat)
    requires InRange(ring, |blocks|) && InRange(Rotate(ring), |blocks|) && m < |ring|
    ensures RingMask(blocks, Rotate(ring), m) + |blocks[ring[0]].data| - 1 == RingMask(blocks, ring, m + 1)
  {
    if m > 0 {
      RingMaskRotate(blocks, ring, m - 1);
      assert Rotate(ring)[m - 1] == ring[m];
    } else {
      assert RingMask(blocks, ring, 0) == 0;
    }
  }

  lemma {:induction false} RingMaskInsert<T>(blocks: seq<Block<T>>, ring: seq<nat>, k: nat, nb: nat, m: nat)
    requires k < m <= |ring| && nb < |blocks| && InRange(ring, |blocks|)
    requires InRange(InsertAfter(ring, k, nb), |blocks|)
    ensures RingMask(blocks, InsertAfter(ring, k, nb), m + 1)
         == RingMask(blocks, ring, m) + |blocks[nb].data| - 1
  {
    var ring' := InsertAfter(ring, k, nb);
    if m > k + 1 {
      RingMaskInsert(blocks, ring, k, nb, m - 1);
      assert ring'[m] == ring[m - 1];
    } else {
      assert ring'[m] == nb;
      RingMaskFrame(blocks, ring, blocks, ring', m);
    }
  }

  /**
    Room for `size` elements without the largest block: the block the consumer is in
    may be any of them, and the producer cannot reuse it until it is empty.
   */
  ghost predicate Room<T>(blocks: seq<Block<T>>, ring: seq<nat>, spare: Option<nat>, largest: nat, size: nat)
    requires InRange(ring, |blocks|) && (spare.Some? ==> spare.value < |blocks|)
  {
    && (forall b :: 0 <= b < |blocks| ==> |blocks[b].data| <= largest)
    && (match spare
        case None =>
          RingMask(blocks, ring, |ring|) >= size + if |ring| > 1 then largest - 1 else 0
        case Some(nb) =>
          RingMask(blocks, ring, |ring|) >= size && |blocks[nb].data| == largest)
  }

  ghost predicate Roomy<T>(s: State<T>, size: nat)
    requires Base(s)
  {
    Room(s.blocks, s.ring, Spare(s.p), s.largest, size)
  }

  lemma RoomFrame<T>(blocks: seq<Block<T>>, blocks': seq<Block<T>>, ring: seq<nat>, spare: Option<nat>, largest: nat, size: nat)
    requires InRange(ring, |blocks|) && (spare.Some? ==> spare.value < |blocks|)
    requires |blocks'| == |blocks| && forall b :: 0 <= b < |blocks| ==> |blocks'[b].data| == |blocks[b].data|
    requires Room(blocks, ring, spare, largest, size)
    ensures Room(blocks', ring, spare, largest, size)
  {
    RingMaskFrame(blocks, ring, blocks', ring, |ring|);
  }

  /** A block no smaller than any other is allocated, and then linked. */
  lemma RoomAllocate<T>(blocks: seq<Block<T>>, ring: seq<nat>, largest: nat, b: Block<T>, size: nat)
    requires InRange(ring, |blocks|) && Room(blocks, ring, None, largest, size) && 1 <= largest <= |b.data|
    ensures Room(blocks + [b], ring, Some(|blocks|), |b.data|, size)
  {
    RingMaskFrame(blocks, ring, blocks + [b], ring, |ring|);
  }

  lemma RoomLink<T>(blocks: seq<Block<T>>, ring: seq<nat>, k: nat, nb: nat, largest: nat, size: nat)
    requires InRange(ring, |blocks|) && nb < |blocks| && k < |ring|
    requires Room(blocks, ring, Some(nb), largest, size)
    ensures InRange(InsertAfter(ring, k, nb), |blocks|) && Room(blocks, InsertAfter(ring, k, nb), None, largest, size)
  {
    RingMaskInsert(blocks, ring, k, nb, |ring|);
  }

  lemma RoomRotate<T>(blocks: seq<Block<T>>, ring: seq<nat>, spare: Option<nat>, largest: nat, size: nat)
    requires InRange(ring, |blocks|) && (spare.Some? ==> spare.value < |blocks|) && ring != []
    requires Room(blocks, ring, spare, largest, size)
    ensures InRange(Rotate(ring), |blocks|) && Room(blocks, Rotate(ring), spare, largest, size)
  {
    RingMaskRotate(blocks, ring, |ring| - 1);
  }

  ghost predicate SizesKept<T>(s: State<T>, s': State<T>) {
    && |s.blocks| <= |s'.blocks|
    && forall b :: 0 <= b < |s.blocks| ==> |s'.blocks[b].data| == |s.blocks[b].data|
  }

  lemma ProducerKeepsSizes<T>(s: State<T>, granted: bool, raw: seq<T>)
    requires ProducerNext(s, granted, raw).Next?
    ensures SizesKept(s, ProducerNext(s, granted, raw).s)
  {
    hide NewBlockSize;
    hide InsertAfter;
  }

  lemma ProducerKeepsRing<T>(s: State<T>, granted: bool, raw: seq<T>)
    requires ProducerNext(s, granted, raw).Next? && !s.p.PLinkNew? && !(s.p.PMakeBlock? && granted)
    ensures var s' := ProducerNext(s, granted, raw).s;
            |s'.blocks| == |s.blocks| && s'.ring == s.ring && Spare(s'.p) == Spare(s.p) && s'.largest == s.largest
  { }

  lemma ConsumerKeepsSizes<T>(s: State<T>)
    requires ConsumerNext(s).Next?
    ensures SizesKept(s, ConsumerNext(s).s)
  { }

  lemma ConsumerKeepsRing<T>(s: State<T>)
    requires ConsumerNext(s).Next?
    ensures var s' := ConsumerNext(s).s;
            && s'.p == s.p && s'.largest == s.largest && |s'.blocks| == |s.blocks|
            && s'.ring == if s.c.CStoreFrontBlock? then Rotate(s.ring) else s.ring
  { }

  /** Blocks are only ever added, never smaller than those before, so room is never lost. */
  lemma ProducerKeepsRoom<T>(s: State<T>, granted: bool, raw: seq<T>, size: nat)
    requires Inv(s) && Enabled(s, ProducerStep(granted, raw)) && Roomy(s, size)
    ensures var o := ProducerNext(s, granted, raw); o.Next? && Base(o.s) && Roomy(o.s, size)
  {
    hide Inv;
    hide Base;
    hide Room;
    ProducerGoesOn(s, granted, raw);
    ProducerKeepsSizes(s, granted, raw);
    Places(s);
    var s' := ProducerNext(s, granted, raw).s;
    if s.p.PMakeBlock? && granted {
      LargestIsSome(s);
      RoomAllocate(s.blocks, s.ring, s.largest, NewBlock(raw), size);
    } else if s.p.PLinkNew? {
      LinkedNew(s);
      RoomFrame(s.blocks, s'.blocks, s.ring, Spare(s.p), s.largest, size);
      RoomLink(s'.blocks, s.ring, s.k, s.p.nb, s.largest, size);
    } else {
      ProducerKeepsRing(s, granted, raw);
      hide ProducerNext;
      RoomFrame(s.blocks, s'.blocks, s.ring, Spare(s.p), s.largest, size);
    }
  }

  lemma LargestIsSome<T>(s: State<T>)
    requires Inv(s)
    ensures 2 <= s.largest
  { }

  lemma LinkedNew<T>(s: State<T>)
    requires Inv(s) && s.p.PLinkNew?
    ensures s.p.tb < |s.blocks| && s.p.nb < |s.blocks|
  { }

  lemma Places<T>(s: State<T>)
    requires Inv(s)
    ensures InRange(s.ring, |s.blocks|) && s.k < |s.ring| && (Spare(s.p).Some? ==> Spare(s.p).value < |s.blocks|)
  { }

  lemma ConsumerKeepsRoom<T>(s: State<T>, size: nat)
    requires Inv(s) && Enabled(s, ConsumerStep) && Roomy(s, size)
    ensures var o := ConsumerNext(s); o.Next? && Base(o.s) && Roomy(o.s, size)
  {
    hide Inv;
    hide Base;
    hide Room;
    hide ConsumerNext;
    ConsumerGoesOn(s);
    ConsumerKeepsSizes(s);
    ConsumerKeepsRing(s);
    Places(s);
    var s' := ConsumerNext(s).s;
    RoomFrame(s.blocks, s'.blocks, s.ring, Spare(s.p), s.largest, size);
    if s.c.CStoreFrontBlock? {
      RoomRotate(s'.blocks, s.ring, Spare(s.p), s.largest, size);
    }
  }

  lemma StepKeepsRoomy<T>(s: State<T>, a: Action<T>, size: nat)
    requires Inv(s) && Enabled(s, a) && Roomy(s, size)
    ensures Step(s, a).Next? && Base(Step(s, a).s) && Roomy(Step(s, a).s, size)
  {
    match a {
      case ProducerStep(granted, raw) => ProducerKeepsRoom(s, granted, raw, size);
      case ConsumerStep => ConsumerKeepsRoom(s, size);
      case _ =>
    }
  }

  lemma {:induction false} AlwaysRoomy<T>(states: seq<State<T>>, actions: seq<Action<T>>, i: nat, size: nat)
    requires IsRun(states, actions) && Fresh(states[0]) && i <= |actions| && Roomy(states[0], size)
    ensures Inv(states[i]) && Roomy(states[i], size)
  {
    hide Base;
    hide Room;
    AlwaysInv(states, actions, i);
    if i > 0 {
      AlwaysRoomy(states, actions, i - 1, size);
      StepKeepsRoomy(states[i - 1], actions[i - 1], size);
    }
  }

  // ---------------------------------------------------------------- "full" answers

  lemma {:induction false} ArcHolds<T>(blocks: seq<Block<T>>, ring: seq<nat>, m: nat)
    requires AllOk(blocks) && InRange(ring, |blocks|) && 0 < m <= |ring|
    requires forall i :: 0 < i < m ==> Full(blocks[ring[i]])
    ensures |Contents(blocks, ring, m)| == RingMask(blocks, ring, m) - blocks[ring[0]].Mask() + blocks[ring[0]].Len()
  {
    if m > 1 {
      ArcHolds(blocks, ring, m - 1);
    } else {
      assert Contents(blocks, ring, 0) == [];
      assert RingMask(blocks, ring, 0) == 0;
    }
  }

  ghost predicate HoldsAtLeast<T>(s: State<T>, size: nat) {
    Base(s) && |Abs(s)| >= size
  }

  /** The tail block is full, and the front block comes next: there is no slot to be had without allocating. */
  ghost predicate Exhausted<T>(s: State<T>) {
    Base(s) && s.k + 1 == |s.ring| && Full(s.blocks[s.tailBlock])
  }

  /** No slot to be had, and at least `size` elements in the queue. */
  ghost predicate FullFor<T>(s: State<T>, size: nat) {
    Exhausted(s) && HoldsAtLeast(s, size)
  }

  lemma FullRingHolds<T>(s: State<T>, size: nat)
    requires Inv(s) && Roomy(s, size) && Spare(s.p).None?
    requires s.k + 1 == |s.ring| && Full(s.blocks[s.tailBlock])
    ensures FullFor(s, size)
  {
    ArcHolds(s.blocks, s.ring, s.k + 1);
  }

  /** The moment the current or last enqueue call before state `i` began. */
  function LastEnqueueCall<T>(actions: seq<Action<T>>, i: nat): (j: nat)
    requires i <= |actions|
    ensures j <= i
  {
    if i == 0 then 0
    else if actions[i - 1].CallEnqueue? then i
    else LastEnqueueCall(actions, i - 1)
  }

  lemma {:induction false} LastEnqueueCallPrefix<T>(actions: seq<Action<T>>, longer: seq<Action<T>>, i: nat)
    requires actions <= longer && i <= |actions|
    ensures LastEnqueueCall(longer, i) == LastEnqueueCall(actions, i)
  {
    if i > 0 {
      LastEnqueueCallPrefix(actions, longer, i - 1);
    }
  }

  lemma LastEnqueueCallExtends<T>(actions: seq<Action<T>>, a: Action<T>)
    ensures LastEnqueueCall(actions + [a], |actions| + 1)
         == if a.CallEnqueue? then |actions| + 1 else LastEnqueueCall(actions, |actions|)
  {
    LastEnqueueCallPrefix(actions, actions + [a], |actions|);
  }

  /** Between finding the tail block full and comparing its successor with the front block. */
  ghost predicate Deciding<T>(s: State<T>) {
    (s.p.PLoadNext? || s.p.PLoadFrontBlock?) && s.k + 1 == |s.ring|
  }

  /** Reloading a shadow moves neither the tail nor the elements. */
  lemma StillFull<T>(s: State<T>, s': State<T>, size: nat)
    requires FullFor(s, size) && Base(s') && Stutters(s, s') && s'.ring == s.ring && s'.k == s.k
    requires s'.blocks[s.tailBlock].Len() == s.blocks[s.tailBlock].Len()
    requires |s'.blocks[s.tailBlock].data| == |s.blocks[s.tailBlock].data|
    ensures FullFor(s', size)
  {
    Basics(s);
    Basics(s');
    hide Base;
    hide Abs;
  }

  lemma LoadFrontFullLook<T>(s: State<T>, size: nat)
    requires Inv(s) && s.p.PLoadFront? && Roomy(s, size)
    requires var o := ProducerNext(s, false, []); o.Next? && Deciding(o.s)
    ensures FullFor(ProducerNext(s, false, []).s, size)
  {
    RefreshShadows(s.blocks[s.tailBlock]);
    FullRingHolds(s, size);
    Producing.LoadFrontKeeps(s, false, []);
    StillFull(s, ProducerNext(s, false, []).s, size);
  }

  lemma ProducerFullLook<T>(s: State<T>, granted: bool, raw: seq<T>, size: nat)
    requires Inv(s) && Enabled(s, ProducerStep(granted, raw)) && Roomy(s, size)
    requires var o := ProducerNext(s, granted, raw); o.Next? && Deciding(o.s)
    ensures FullFor(ProducerNext(s, granted, raw).s, size) || Deciding(s)
  {
    if s.p.PLoadFront? {
      LoadFrontFullLook(s, size);
    } else {
      DecidingStays(s, granted, raw);
    }
    hide Inv;
    hide Base;
    hide ProducerNext;
  }

  lemma DecidingStays<T>(s: State<T>, granted: bool, raw: seq<T>)
    requires !s.p.PLoadFront? && !s.p.PIdle?
    requires var o := ProducerNext(s, granted, raw); o.Next? && Deciding(o.s)
    ensures Deciding(s)
  {
    hide HasSlot;
  }

  lemma FullLook<T>(s: State<T>, a: Action<T>, size: nat)
    requires Inv(s) && Enabled(s, a) && Roomy(s, size)
    requires Step(s, a).Next? && Deciding(Step(s, a).s)
    ensures FullFor(Step(s, a).s, size) || (Deciding(s) && !a.CallEnqueue?)
  {
    match a {
      case ProducerStep(granted, raw) => ProducerFullLook(s, granted, raw, size);
      case ConsumerStep => ConsumerStepKeeps(s);
      case CallEnqueue(_, _) =>
      case CallDequeue(_) =>
    }
  }

  lemma {:induction false} FullWitness<T>(states: seq<State<T>>, actions: seq<Action<T>>, i: nat, size: nat)
    returns (j: nat)
    requires IsRun(states, actions) && Fresh(states[0]) && i <= |actions| && Roomy(states[0], size)
    requires Deciding(states[i])
    ensures LastEnqueueCall(actions, i) <= j <= i && FullFor(states[j], size)
  {
    if FullFor(states[i], size) {
      j := i;
    } else {
      AlwaysRoomy(states, actions, i - 1, size);
      FullLook(states[i - 1], actions[i - 1], size);
      j := FullWitness(states, actions, i - 1, size);
    }
  }

  /** The producer asks for memory only where it has found that the front block comes next. */
  lemma AsksFrom<T>(s: State<T>, a: Action<T>)
    requires Inv(s) && Enabled(s, a) && Step(s, a).Next? && Step(s, a).s.p.PMakeBlock?
    ensures !a.CallEnqueue? && (s.p.PMakeBlock? || (a.ProducerStep? && Deciding(s)))
  {
    hide Inv;
    hide ProducerNext;
    match a {
      case ProducerStep(granted, raw) =>
        TurnsToMemory(s, granted, raw);
        LastBlock(s);
      case ConsumerStep => ConsumerLeaves(s);
      case _ =>
    }
  }

  lemma TurnsToMemory<T>(s: State<T>, granted: bool, raw: seq<T>)
    requires !s.p.PIdle? && ProducerNext(s, granted, raw).Next? && ProducerNext(s, granted, raw).s.p.PMakeBlock?
    ensures s.p.PLoadFrontBlock? && s.p.nx == s.frontBlock
  {
    hide HasSlot;
    hide InsertAfter;
    hide NewBlockSize;
  }

  /** Whoever asks for memory does so after a moment of this call when there was no slot to be had. */
  lemma {:induction false} AsksWhenFull<T>(states: seq<State<T>>, actions: seq<Action<T>>, i: nat, size: nat)
    returns (j: nat)
    requires IsRun(states, actions) && Fresh(states[0]) && i <= |actions| && Roomy(states[0], size)
    requires states[i].p.PMakeBlock?
    ensures LastEnqueueCall(actions, i) <= j <= i && FullFor(states[j], size)
  {
    hide *;
    RunLength(states, actions);
    if i == 0 {
      FreshRests(states[0]);
      assert false;
    }
    RunAt(states, actions, i - 1);
    AlwaysInv(states, actions, i - 1);
    AsksFrom(states[i - 1], actions[i - 1]);
    CallGoesOn(actions, i - 1);
    if states[i - 1].p.PMakeBlock? {
      j := AsksWhenFull(states, actions, i - 1, size);
    } else {
      j := FullWitness(states, actions, i - 1, size);
    }
  }

  lemma FreshRests<T>(s: State<T>)
    requires Fresh(s)
    ensures s.p.PIdle? && s.c.CIdle?
  { }

  lemma CallGoesOn<T>(actions: seq<Action<T>>, i: nat)
    requires i < |actions| && !actions[i].CallEnqueue?
    ensures LastEnqueueCall(actions, i + 1) == LastEnqueueCall(actions, i)
  { }

  /**
    An enqueue of either kind is refused only after a moment of the call when there was no
    slot to be had, and at least as many elements in the queue as it was built for.
   */
  lemma RefusalIsRight<T>(states: seq<State<T>>, actions: seq<Action<T>>, i: nat, size: nat)
    requires IsRun(states, actions) && Fresh(states[0]) && i < |actions| && Roomy(states[0], size)
    requires actions[i].ProducerStep? && states[i + 1].p.PIdle? && states[i + 1].p.last.Refused?
    ensures exists j :: LastEnqueueCall(actions, i) <= j <= i && FullFor(states[j], size)
  {
    hide *;
    RunAt(states, actions, i);
    AlwaysInv(states, actions, i);
    RefusedWhileDeciding(states[i], actions[i]);
    var j;
    if states[i].p.PMakeBlock? {
      j := AsksWhenFull(states, actions, i, size);
    } else {
      j := FullWitness(states, actions, i, size);
    }
  }

  /** A refusal comes where the front block comes next, or from the allocator. */
  lemma RefusedWhileDeciding<T>(s: State<T>, a: Action<T>)
    requires Inv(s) && Enabled(s, a) && a.ProducerStep?
    requires Step(s, a).Next? && Step(s, a).s.p.PIdle? && Step(s, a).s.p.last.Refused?
    ensures s.p.PMakeBlock? || Deciding(s)
  {
    hide Inv;
    hide ProducerNext;
    RefusedAt(s, a.granted, a.raw);
    if !s.p.PMakeBlock? {
      LastBlock(s);
    }
  }

  lemma RefusedAt<T>(s: State<T>, granted: bool, raw: seq<T>)
    requires !s.p.PIdle? && ProducerNext(s, granted, raw).Next?
    requires var p := ProducerNext(s, granted, raw).s.p; p.PIdle? && p.last.Refused?
    ensures s.p.PMakeBlock? || (s.p.PLoadFrontBlock? && s.p.nx == s.frontBlock)
  {
    hide HasSlot;
    hide InsertAfter;
    hide NewBlockSize;
  }

  lemma LastBlock<T>(s: State<T>)
    requires Inv(s) && s.p.PLoadFrontBlock? && s.p.nx == s.frontBlock
    ensures s.k + 1 == |s.ring|
  {
    Basics(s);
  }

  /**
    A block is allocated only after a moment of the call when there was no slot to be had,
    and at least as many elements in the queue as it was built for.
   */
  lemma AllocatesOnlyWhenFull<T>(states: seq<State<T>>, actions: seq<Action<T>>, i: nat, size: nat)
    requires IsRun(states, actions) && Fresh(states[0]) && i < |actions| && Roomy(states[0], size)
    requires |states[i + 1].blocks| != |states[i].blocks|
    ensures |states[i + 1].blocks| == |states[i].blocks| + 1 && actions[i].ProducerStep?
    ensures exists j :: LastEnqueueCall(actions, i) <= j <= i && FullFor(states[j], size)
  {
    hide *;
    RunAt(states, actions, i);
    AddsBlock(states[i], actions[i]);
    var j := AsksWhenFull(states, actions, i, size);
  }

  lemma AddsBlock<T>(s: State<T>, a: Action<T>)
    requires Enabled(s, a) && Step(s, a).Next? && |Step(s, a).s.blocks| != |s.blocks|
    ensures s.p.PMakeBlock? && a.ProducerStep? && |Step(s, a).s.blocks| == |s.blocks| + 1
  {
    hide InsertAfter;
    hide NewBlockSize;
    if a.ConsumerStep? {
      ConsumerKeepsRing(s);
    }
  }
}
