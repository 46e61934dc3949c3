/**
  What `max_capacity` promises: from an empty queue, while the consumer rests, exactly so
  many non-allocating enqueues succeed.
 */
module QueueFilling {
  import opened Circular
  import opened SpscQueue
  import opened QueueInvariant
  import opened QueueBlocks
  import opened QueueRefinement
  import opened QueueRuns
  import opened QueueCapacity

  /** The sum that `max_capacity` takes: the usable slots of all blocks of the ring. */
  ghost function Capacity<T>(s: State<T>): int
    requires Base(s)
  {
    RingMask(s.blocks, s.ring, |s.ring|)
  }

  /** Only non-allocating enqueues. */
  ghost predicate OnlyTryEnqueues<T>(actions: seq<Action<T>>) {
    forall i :: 0 <= i < |actions| ==>
      actions[i].ProducerStep? || (actions[i].CallEnqueue? && !actions[i].canAlloc)
  }

  ghost function Calls<T>(actions: seq<Action<T>>, i: nat): nat
    requires i <= |actions|
  {
    if i == 0 then 0 else Calls(actions, i - 1) + if actions[i - 1].CallEnqueue? then 1 else 0
  }

  function Least(a: int, b: int): int {
    if a <= b then a else b
  }

  /** The producer is past finding the tail block full. */
  predicate PastFull<T>(p: Producer<T>) {
    p.PLoadNext? || p.PLoadFrontBlock? || p.PLoadNextAgain? || p.PLoadNextFront? || p.PLoadNextTail?
    || p.PConstructNext? || p.PStoreNextTail? || p.PStoreTailBlock?
  }

  predicate NeverAllocates<T>(p: Producer<T>) {
    && (p.PLoadTailBlock? || p.PLoadTail? || p.PLoadFront? || p.PLoadNext? || p.PLoadFrontBlock? ==> !p.canAlloc)
    && !p.PMakeBlock? && Spare(p).None?
  }

  /** With the consumer at rest, every block that the producer has left is full. */
  ghost predicate FullBehind<T>(s: State<T>)
    requires Base(s)
  {
    && (forall i :: 0 <= i < s.k ==> Full(s.blocks[s.ring[i]]))
    && (PastFull(s.p) ==> Full(s.blocks[s.tailBlock]))
  }

  ghost predicate FullAt<T>(s: State<T>, b: nat) {
    Base(s) && b < |s.blocks| && Full(s.blocks[b])
  }

  ghost predicate Filling<T>(s: State<T>) {
    Inv(s) && s.c.CIdle? && NeverAllocates(s.p) && FullBehind(s)
  }

  // ---------------------------------------------------------------- how much is in the queue

  lemma {:induction false} RingMaskGrows<T>(blocks: seq<Block<T>>, ring: seq<nat>, m: nat, n: nat)
    requires AllOk(blocks) && InRange(ring, |blocks|) && m <= n <= |ring|
    ensures RingMask(blocks, ring, m) + (n - m) <= RingMask(blocks, ring, n)
  {
    if m < n {
      RingMaskGrows(blocks, ring, m, n - 1);
    }
  }

  /** All blocks before the tail are full, so their slots count as elements. */
  lemma HoldsSoMuch<T>(s: State<T>)
    requires Base(s) && FullBehind(s)
    ensures |Abs(s)| == RingMask(s.blocks, s.ring, s.k) + s.blocks[s.tailBlock].Len()
  {
    assert AllOk(s.blocks) && InRange(s.ring, |s.blocks|) && s.tailBlock == s.ring[s.k] && s.k < |s.ring|;
    assert forall i :: 0 <= i < s.k ==> Full(s.blocks[s.ring[i]]);
    hide Structure;
    hide Base;
    if s.k > 0 {
      assert Full(s.blocks[s.ring[0]]);
      ArcHolds(s.blocks, s.ring, s.k);
    }
    assert Abs(s) == Contents(s.blocks, s.ring, s.k) + s.blocks[s.tailBlock].Items();
  }

  lemma NeverAbove<T>(s: State<T>)
    requires Base(s) && FullBehind(s)
    ensures |Abs(s)| <= Capacity(s)
    ensures s.k + 1 == |s.ring| && Full(s.blocks[s.tailBlock]) ==> |Abs(s)| == Capacity(s)
  {
    HoldsSoMuch(s);
    RingMaskGrows(s.blocks, s.ring, s.k + 1, |s.ring|);
    assert s.blocks[s.ring[s.k]].Ok();
    assert RingMask(s.blocks, s.ring, s.k + 1) == RingMask(s.blocks, s.ring, s.k) + |s.blocks[s.tailBlock].data| - 1;
  }

  // ---------------------------------------------------------------- one step

  lemma StepKeepsCapacity<T>(s: State<T>, granted: bool, raw: seq<T>)
    requires Filling(s) && Enabled(s, ProducerStep(granted, raw))
    ensures var o := ProducerNext(s, granted, raw); o.Next? && Base(o.s) && Capacity(o.s) == Capacity(s)
  {
    hide ProducerNext;
    ProducerStepKeeps(s, granted, raw);
    ProducerKeepsSizes(s, granted, raw);
    ProducerKeepsRing(s, granted, raw);
    var s' := ProducerNext(s, granted, raw).s;
    RingMaskFrame(s.blocks, s.ring, s'.blocks, s.ring, |s.ring|);
  }

  /** A producer step moves the `tail` of at most one block, and no `front`. */
  lemma EndsAfter<T>(s: State<T>, granted: bool, raw: seq<T>, b: nat)
    requires Enabled(s, ProducerStep(granted, raw)) && ProducerNext(s, granted, raw).Next? && b < |s.blocks|
    ensures var s' := ProducerNext(s, granted, raw).s;
            && b < |s'.blocks| && s'.blocks[b].front == s.blocks[b].front
            && |s'.blocks[b].data| == |s.blocks[b].data|
            && (s'.blocks[b].tail == s.blocks[b].tail
                || (s.p.PStoreTail? && b == s.p.tb) || (s.p.PStoreNextTail? && b == s.p.nb)
                || (s.p.PStoreNewTail? && b == s.p.nb))
  {
    hide Inc;
    hide InsertAfter;
    hide NewBlock;
    hide NewBlockSize;
  }

  /** Where the producer goes while it does not allocate. */
  lemma PcAfter<T>(s: State<T>, granted: bool, raw: seq<T>)
    requires NeverAllocates(s.p) && Enabled(s, ProducerStep(granted, raw)) && ProducerNext(s, granted, raw).Next?
    ensures var s' := ProducerNext(s, granted, raw).s;
            && NeverAllocates(s'.p) && s'.c == s.c && s'.ring == s.ring
            && s'.k == (if s.p.PStoreTailBlock? then s.k + 1 else s.k)
            && (PastFull(s'.p) ==> (PastFull(s.p) && !s.p.PStoreTailBlock?) || s.p.PLoadFront?)
            && (s'.p.PIdle? ==> s'.p == PIdle(Accepted) || (s.p.PLoadFrontBlock? && s'.p == PIdle(Refused(false))))
            && (s.p.PLoadFrontBlock? && s'.p.PIdle? ==> s.p.nx == s.frontBlock)
  {
    hide HasSlot;
    hide Inc;
  }

  /** The producer goes on from its tail block only when that is full. */
  lemma GoesOnWhenFull<T>(s: State<T>, granted: bool, raw: seq<T>)
    requires Inv(s) && s.p.PLoadFront? && Enabled(s, ProducerStep(granted, raw))
    ensures var o := ProducerNext(s, granted, raw);
            o.Next? && (o.s.p.PLoadNext? ==> Full(s.blocks[s.tailBlock]))
  {
    RefreshShadows(s.blocks[s.tailBlock]);
  }

  /** A full block at or before the tail stays as it is, unless it is the tail block and takes an element. */
  lemma FullAfter<T>(s: State<T>, granted: bool, raw: seq<T>, i: nat)
    requires Inv(s) && NeverAllocates(s.p) && Enabled(s, ProducerStep(granted, raw)) && i <= s.k
    requires FullAt(s, s.ring[i]) && (i == s.k ==> !s.p.PStoreTail?)
    ensures var o := ProducerNext(s, granted, raw); o.Next? && FullAt(o.s, s.ring[i])
  {
    StoresElsewhere(s, i);
    hide *;
    ProducerGoesOn(s, granted, raw);
    FullAtUnfold(s, s.ring[i]);
    EndsAfter(s, granted, raw, s.ring[i]);
    StaysFull(s, ProducerNext(s, granted, raw).s, s.ring[i]);
  }

  lemma StoresElsewhere<T>(s: State<T>, i: nat)
    requires Inv(s) && NeverAllocates(s.p) && i <= s.k && (i == s.k ==> !s.p.PStoreTail?)
    ensures i < |s.ring|
    ensures s.p.PStoreTail? ==> s.p.tb != s.ring[i]
    ensures s.p.PStoreNextTail? ==> s.p.nb != s.ring[i]
    ensures !s.p.PStoreNewTail?
  {
    assert s.p.PStoreNextTail? ==> s.k + 1 < |s.ring| && s.p.nb == s.ring[s.k + 1];
  }

  lemma FullAtUnfold<T>(s: State<T>, b: nat)
    requires FullAt(s, b)
    ensures b < |s.blocks|
  { }

  lemma StaysFull<T>(s: State<T>, s': State<T>, b: nat)
    requires FullAt(s, b) && Base(s') && b < |s'.blocks|
    requires s'.blocks[b].front == s.blocks[b].front && s'.blocks[b].tail == s.blocks[b].tail
    requires |s'.blocks[b].data| == |s.blocks[b].data|
    ensures FullAt(s', b)
  { }

  lemma TailIsFull<T>(s: State<T>, granted: bool, raw: seq<T>)
    requires Filling(s) && Enabled(s, ProducerStep(granted, raw)) && ProducerNext(s, granted, raw).Next?
    requires PastFull(ProducerNext(s, granted, raw).s.p) || s.p.PStoreTailBlock?
    ensures FullAt(s, s.tailBlock) && !s.p.PStoreTail?
  {
    PcAfter(s, granted, raw);
    if s.p.PLoadFront? {
      GoesOnWhenFull(s, granted, raw);
    }
  }

  lemma FillingKnows<T>(s: State<T>)
    requires Filling(s)
    ensures Inv(s) && Base(s) && NeverAllocates(s.p)
  { }

  lemma BehindIsFull<T>(s: State<T>, i: nat)
    requires Filling(s) && i < s.k
    ensures i < |s.ring| && FullAt(s, s.ring[i])
  { }

  lemma FullBehindFrom<T>(s: State<T>)
    requires Base(s)
    requires forall i :: 0 <= i < s.k ==> FullAt(s, s.ring[i])
    requires PastFull(s.p) ==> FullAt(s, s.ring[s.k])
    ensures FullBehind(s)
  { }

  lemma BasePlaces<T>(s: State<T>)
    requires Base(s)
    ensures s.k < |s.ring| && s.tailBlock == s.ring[s.k] && forall i :: 0 <= i <= s.k ==> s.ring[i] < |s.blocks|
  { }

  lemma FullBehindAfter<T>(s: State<T>, granted: bool, raw: seq<T>)
    requires Filling(s) && Enabled(s, ProducerStep(granted, raw))
    ensures var o := ProducerNext(s, granted, raw); o.Next? && Base(o.s) && FullBehind(o.s)
  {
    hide *;
    FillingKnows(s);
    ProducerGoesOn(s, granted, raw);
    PcAfter(s, granted, raw);
    var s' := ProducerNext(s, granted, raw).s;
    BasePlaces(s);
    BasePlaces(s');
    forall i | 0 <= i <= s.k && (i < s.k || PastFull(s'.p) || s.p.PStoreTailBlock?)
      ensures FullAt(s', s.ring[i])
    {
      if i < s.k {
        BehindIsFull(s, i);
      } else {
        TailIsFull(s, granted, raw);
      }
      FullAfter(s, granted, raw, i);
    }
    FullBehindFrom(s');
  }

  lemma FillingStep<T>(s: State<T>, granted: bool, raw: seq<T>)
    requires Filling(s) && Enabled(s, ProducerStep(granted, raw))
    ensures var o := ProducerNext(s, granted, raw); o.Next? && Filling(o.s) && Capacity(o.s) == Capacity(s)
  {
    ProducerStepKeeps(s, granted, raw);
    PcAfter(s, granted, raw);
    FullBehindAfter(s, granted, raw);
    StepKeepsCapacity(s, granted, raw);
    hide Inv;
    hide Base;
    hide ProducerNext;
  }

  // ---------------------------------------------------------------- how many calls succeed

  /** After `n` calls the queue holds that many elements, or as many as fit. */
  ghost predicate FilledTo<T>(s: State<T>, n: nat, capacity: int) {
    && Base(s)
    && if s.p.PIdle? then
         |Abs(s)| == Least(n, capacity) && (n > 0 ==> s.p.last == if n <= capacity then Accepted else Refused(false))
       else
         n > 0 && |Abs(s)| == Least(n - 1, capacity)
  }

  lemma LastOfRing<T>(s: State<T>)
    requires Base(s) && s.blocks[s.tailBlock].next == s.frontBlock
    ensures s.k + 1 == |s.ring|
  {
    var i := if s.k + 1 < |s.ring| then s.k + 1 else 0;
    assert s.blocks[s.ring[s.k]].next == s.ring[i];
  }

  /** A refusal comes at the end of a ring of full blocks. */
  lemma RefusedWhenFull<T>(s: State<T>)
    requires Filling(s) && s.p.PLoadFrontBlock? && s.p.nx == s.frontBlock
    ensures |Abs(s)| == Capacity(s)
  {
    LastOfRing(s);
    NeverAbove(s);
  }

  lemma StepKeepsFilled<T>(s: State<T>, granted: bool, raw: seq<T>, n: nat)
    requires Filling(s) && Enabled(s, ProducerStep(granted, raw)) && FilledTo(s, n, Capacity(s))
    ensures var o := ProducerNext(s, granted, raw); o.Next? && FilledTo(o.s, n, Capacity(s))
  {
    hide Capacity;
    hide ProducerNext;
    hide Abs;
    hide Base;
    var a := ProducerStep(granted, raw);
    StepRefines(s, a);
    FillingStep(s, granted, raw);
    PcAfter(s, granted, raw);
    var s' := ProducerNext(s, granted, raw).s;
    NeverAbove(s');
    if s.p.PLoadFrontBlock? && s.p.nx == s.frontBlock {
      RefusedWhenFull(s);
    }
    assert Refines(s, a, s');
    hide Inv;
  }

  lemma RunStep<T>(states: seq<State<T>>, actions: seq<Action<T>>, i: nat)
    requires IsRun(states, actions) && OnlyTryEnqueues(actions) && i < |actions|
    ensures |states| == |actions| + 1
    ensures Enabled(states[i], actions[i]) && Step(states[i], actions[i]) == Next(states[i + 1])
    ensures actions[i].ProducerStep? || (actions[i].CallEnqueue? && !actions[i].canAlloc)
    ensures Calls(actions, i + 1) == Calls(actions, i) + if actions[i].CallEnqueue? then 1 else 0
  { }

  lemma CallKeepsFilled<T>(s: State<T>, x: T, n: nat)
    requires Filling(s) && s.p.PIdle? && FilledTo(s, n, Capacity(s))
    ensures var s' := s.(p := PLoadTailBlock(x, false));
            Filling(s') && Capacity(s') == Capacity(s) && FilledTo(s', n + 1, Capacity(s))
  { }

  /** Empty and at rest: nothing is full, and nothing has to be. */
  lemma EmptyIsFilling<T>(s: State<T>)
    requires Inv(s) && s.p.PIdle? && s.c.CIdle? && Abs(s) == []
    ensures Filling(s) && FilledTo(s, 0, Capacity(s))
  {
    RingMaskGrows(s.blocks, s.ring, 0, |s.ring|);
  }

  lemma {:induction false} FillsUp<T>(states: seq<State<T>>, actions: seq<Action<T>>, i: nat)
    requires IsRun(states, actions) && OnlyTryEnqueues(actions) && i <= |actions|
    requires Inv(states[0]) && states[0].p.PIdle? && states[0].c.CIdle? && Abs(states[0]) == []
    ensures |states| == |actions| + 1 && Filling(states[i]) && Capacity(states[i]) == Capacity(states[0])
    ensures FilledTo(states[i], Calls(actions, i), Capacity(states[0]))
  {
    hide *;
    if i == 0 {
      RunLength(states, actions);
      NoCalls(actions);
      EmptyIsFilling(states[0]);
    } else {
      FillsUp(states, actions, i - 1);
      RunStep(states, actions, i - 1);
      StepFillsUp(states[i - 1], actions[i - 1], Calls(actions, i - 1));
    }
  }

  lemma NoCalls<T>(actions: seq<Action<T>>)
    ensures Calls(actions, 0) == 0
  { }

  lemma StepFillsUp<T>(s: State<T>, a: Action<T>, n: nat)
    requires Filling(s) && FilledTo(s, n, Capacity(s)) && Enabled(s, a)
    requires a.ProducerStep? || (a.CallEnqueue? && !a.canAlloc)
    ensures Step(s, a).Next? && Filling(Step(s, a).s) && Capacity(Step(s, a).s) == Capacity(s)
    ensures FilledTo(Step(s, a).s, n + if a.CallEnqueue? then 1 else 0, Capacity(s))
  {
    if a.CallEnqueue? {
      CallKeepsFilled(s, a.x, n);
    } else {
      FillingStep(s, a.granted, a.raw);
      StepKeepsFilled(s, a.granted, a.raw, n);
    }
    hide Filling;
    hide FilledTo;
    hide Capacity;
  }

  /**
    From an empty queue at rest, while the consumer stays at rest, the n-th non-allocating
    enqueue succeeds if and only if n is at most the capacity, and the queue then holds
    what has succeeded.
   */
  lemma CapacityIsExact<T>(states: seq<State<T>>, actions: seq<Action<T>>, i: nat)
    requires IsRun(states, actions) && OnlyTryEnqueues(actions) && i <= |actions|
    requires Inv(states[0]) && states[0].p.PIdle? && states[0].c.CIdle? && Abs(states[0]) == []
    ensures |states| == |actions| + 1
    ensures states[i].p.PIdle? ==>
      && Base(states[i]) && |Abs(states[i])| == Least(Calls(actions, i), Capacity(states[0]))
      && (Calls(actions, i) > 0 ==> (states[i].p.last == Accepted <==> Calls(actions, i) <= Capacity(states[0])))
  {
    FillsUp(states, actions, i);
    hide IsRun;
    hide Filling;
    hide Inv;
    hide Base;
  }
}
