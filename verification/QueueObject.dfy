/**
  `ReaderWriterQueue` as an object: its calls statement by statement, on the fields they
  change. The other thread runs between any two accesses to shared memory; what it does
  there is the argument `others`, so each contract holds for every interleaving.
 */
module QueueObject {
  import opened Wrappers
  import opened Words
  import opened QueueArithmetic
  import opened Circular
  import opened SpscQueue
  import opened QueueInvariant
  import opened QueueRefinement
  import opened QueueRuns
  import opened QueueCapacity
  import opened QueueLifecycle
  import opened QueueSizes
  import opened QueueFilling

  /** What the other thread does around each access of a call; no access shares its number with another. */
  type Schedule<T> = nat -> seq<Action<T>>

  predicate OfConsumer<T>(a: Action<T>) { a.CallDequeue? || a.ConsumerStep? }

  predicate OfProducer<T>(a: Action<T>) { a.CallEnqueue? || a.ProducerStep? }

  class ReaderWriterQueue<T> {
    var blocks: seq<Block<T>>
    var frontBlock: nat
    var tailBlock: nat
    var largestBlockSize: nat

    /** Both threads' positions and the memory they share; the fields above mirror it. */
    var m: State<T>
    /** The run since construction, and the number of elements asked for then. */
    ghost var states: seq<State<T>>
    ghost var actions: seq<Action<T>>
    ghost var size: nat

    ghost predicate Recorded()
      reads `m, `states, `actions, `size
    {
      && IsRun(states, actions) && Fresh(states[0]) && Roomy(states[0], size)
      && m == states[|actions|] && Inv(m) && PowerSized(m)
    }

    ghost predicate Mirrors(s: State<T>)
      reads `blocks, `frontBlock, `tailBlock, `largestBlockSize
    {
      && s.blocks == blocks && s.frontBlock == frontBlock && s.tailBlock == tailBlock
      && s.largest == largestBlockSize
    }

    ghost predicate Valid()
      reads this
    {
      Recorded() && Mirrors(m)
    }

    /**
      Builds a ring with room for `size` elements without further allocation. `junk` is
      what the allocated memory happens to contain. For `size == 0` the one block has a
      single slot, which can hold nothing, and from `2^63` on none: see `QueueBounds`.
     */
    constructor (size: nat, maxBlockSize: nat, ghost k: nat, junk: (nat, nat) -> T)
      requires 1 <= k < W - 1 && maxBlockSize == Pow2(k) && size < Pow2(W)
      ensures maxBlockSize >= 2 && Constructed(m, size, maxBlockSize)
      ensures 1 <= size < Pow2(W - 1) ==> Valid() && Fresh(m) && states == [m] && this.size == size
    {
      hide Pow2;
      hide Fresh;
      hide Base;
      hide Room;
      hide EmptyRing;
      var count, largest := PlanBlocks(size, maxBlockSize, k);
      var ring := BuildRing(count, largest, junk);
      blocks, frontBlock, tailBlock, largestBlockSize := ring, 0, 0, largest;
      m := Built(maxBlockSize, largest, ring);
      states, actions, this.size := [Built(maxBlockSize, largest, ring)], [], size;
      PlanIsEnough(size, maxBlockSize, k, count, largest);
      if 1 <= size < Pow2(W - 1) {
        BuiltIsFresh(maxBlockSize, largest, ring, count);
        BuiltIsRoomy(maxBlockSize, largest, ring, count, size);
        ConstructedIsPowerSized(Built(maxBlockSize, largest, ring), size, maxBlockSize, k);
      }
    }

    /** The fields have been changed as action `a` changes them; put it on record. */
    method Commit(a: Action<T>)
      requires Recorded() && Enabled(m, a) && Step(m, a).Next? && Mirrors(Step(m, a).s)
      modifies `m, `states, `actions
      ensures Valid() && m == Step(old(m), a).s
      ensures states == old(states) + [m] && actions == old(actions) + [a]
    {
      hide Base;
      hide Room;
      hide ProducerKnows;
      hide ConsumerKnows;
      hide PowerSized;
      StepRefines(m, a);
      StepKeepsPowerSized(m, a);
      RunExtends(states, actions, a);
      RunLength(states, actions);
      hide IsRun;
      hide Step;
      hide Refines;
      m := Step(m, a).s;
      states := states + [m];
      actions := actions + [a];
    }

    /** What masking needs to know of a block. */
    lemma BlockSizes(b: nat)
      requires Valid() && b < |blocks|
      ensures IsBlockSize(|blocks[b].data|)
      ensures blocks[b].tail < |blocks[b].data| && blocks[b].front < |blocks[b].data|
    {
      SizeOf(m, b);
      assert blocks[b].Ok();
    }

    lemma ValidParts()
      requires Valid()
      ensures Inv(m) && PowerSized(m) && blocks == m.blocks
    { }

    lemma MaskedTail(b: nat)
      requires Valid() && b < |blocks|
      ensures var n, i := |blocks[b].data|, blocks[b].tail; And(i + 1, SizeMask(n)) == Inc(i, n)
    {
      hide *;
      BlockSizes(b);
      MaskedInc(|blocks[b].data|, blocks[b].tail);
    }

    /** The tail about to be stored is the one after the block's `tail`. */
    lemma MaskedStore()
      requires Valid() && m.p.PStoreTail?
      ensures m.p.tb < |blocks|
      ensures var n := |blocks[m.p.tb].data|; And(m.p.bt + 1, SizeMask(n)) == Inc(m.p.bt, n)
    {
      hide *;
      ValidParts();
      StoreAtTail(m);
      MaskedTail(m.p.tb);
    }

    lemma MaskedNextStore()
      requires Valid() && m.p.PStoreNextTail?
      ensures m.p.nb < |blocks|
      ensures var n := |blocks[m.p.nb].data|; And(m.p.nt + 1, SizeMask(n)) == Inc(m.p.nt, n)
    {
      hide *;
      ValidParts();
      StoreAtTail(m);
      MaskedTail(m.p.nb);
    }

    lemma MaskedFront()
      requires Valid() && m.c.CStoreFront?
      ensures m.c.fb < |blocks|
      ensures var n := |blocks[m.c.fb].data|; And(m.c.bf + 1, SizeMask(n)) == Inc(m.c.bf, n)
    {
      hide *;
      ValidParts();
      StoreAtFront(m);
      BlockSizes(m.c.fb);
      MaskedInc(|blocks[m.c.fb].data|, m.c.bf);
    }

    /** What a producer's call can count on across the consumer's steps. */
    twostate predicate ProducerHeld()
      reads this
    {
      && size == old(size) && m.p == old(m.p)
      && m.accepted == old(m.accepted) && m.largest == old(m.largest) && m.maxBlock == old(m.maxBlock)
      && old(states) <= states && old(actions) <= actions
      && LastEnqueueCall(actions, |actions|) == old(LastEnqueueCall(actions, |actions|))
      && SizesKept(old(m), m) && |m.blocks| == |old(m.blocks)|
    }

    method ConsumerActs(a: Action<T>)
      requires Valid() && OfConsumer(a) && Enabled(m, a)
      modifies this
      ensures Valid() && ProducerHeld()
    {
      hide Base;
      hide Room;
      hide ProducerKnows;
      hide ConsumerKnows;
      StepRefines(m, a);
      ConsumerTouches(m, a);
      if a.ConsumerStep? {
        ConsumerKeepsSizes(m);
        ConsumerKeepsRing(m);
      }
      LastEnqueueCallExtends(actions, a);
      var s := Step(m, a).s;
      blocks, frontBlock := s.blocks, s.frontBlock;
      Commit(a);
    }

    /** Any number of steps of the consumer. */
    method ConsumerRuns(schedule: seq<Action<T>>)
      requires Valid()
      modifies this
      ensures Valid() && ProducerHeld()
    {
      hide Inv;
      hide Room;
      for i := 0 to |schedule|
        invariant Valid() && ProducerHeld()
      {
        var a := schedule[i];
        if OfConsumer(a) && Enabled(m, a) {
          ConsumerActs(a);
        }
      }
    }

    /** One access of the producer, already made on the fields, then the consumer runs. */
    method EnqueueTurn(me: Action<T>, schedule: seq<Action<T>>)
      requires Recorded() && me.ProducerStep? && Enabled(m, me)
      requires Step(m, me).Next? && Mirrors(Step(m, me).s)
      modifies this
      ensures Valid() && size == old(size)
      ensures var s := Step(old(m), me).s;
              && m.p == s.p && m.accepted == s.accepted
              && m.largest == s.largest && m.maxBlock == s.maxBlock && SizesKept(s, m) && |m.blocks| == |s.blocks|
      ensures LastEnqueueCall(actions, |actions|) == old(LastEnqueueCall(actions, |actions|))
      ensures old(states) + [Step(old(m), me).s] <= states && old(actions) + [me] <= actions
      ensures Enabled(m, me) ==> Step(m, me).Next?
    {
      hide Base;
      hide Room;
      hide ProducerKnows;
      hide ConsumerKnows;
      LastEnqueueCallExtends(actions, me);
      Commit(me);
      ConsumerRuns(schedule);
      if Enabled(m, me) {
        StepRefines(m, me);
      }
    }

    /** The tail block has room: construct the element, then move `tail` past it. */
    method EnqueueInTail(x: T, tb: nat, bt: nat, me: Action<T>, others: Schedule<T>)
      requires Valid() && me.ProducerStep? && m.p == PConstruct(x, tb, bt) && Step(m, me).Next?
      modifies this
      ensures Valid() && size == old(size) && m.p == PIdle(Accepted)
      ensures |blocks| == |old(blocks)|
      ensures m.accepted == old(m.accepted) + [x]
    {
      hide Recorded;
      hide LastEnqueueCall;
      hide FullFor;
      hide SizesKept;
      blocks := blocks[tb := Place(blocks[tb], bt, x)];
      EnqueueTurn(me, others(5));
      StoreTail(x, tb, bt, me, others(6));
    }

    /** The element just constructed joins the queue: the enqueue takes effect. */
    method StoreTail(x: T, tb: nat, bt: nat, me: Action<T>, schedule: seq<Action<T>>)
      requires Valid() && me.ProducerStep? && m.p == PStoreTail(x, tb, bt) && Step(m, me).Next?
      modifies this
      ensures Valid() && size == old(size) && m.p == PIdle(Accepted)
      ensures |blocks| == |old(blocks)|
      ensures m.accepted == old(m.accepted) + [x]
    {
      hide Recorded;
      hide LastEnqueueCall;
      hide FullFor;
      hide SizesKept;
      hide And;
      hide SizeMask;
      MaskedStore();
      blocks := blocks[tb := blocks[tb].(tail := And(bt + 1, SizeMask(|blocks[tb].data|)))];
      EnqueueTurn(me, schedule);
    }

    /** A free block lies ahead: look at it, which must find it empty. */
    method LookAtNext(x: T, tb: nat, me: Action<T>, others: Schedule<T>) returns (nb: nat, nextBlockTail: nat)
      requires Valid() && me.ProducerStep? && m.p == PLoadNextAgain(x, tb) && Step(m, me).Next?
      modifies this
      ensures Valid() && size == old(size) && m.p == PConstructNext(x, nb, nextBlockTail)
      ensures |blocks| == |old(blocks)|
      ensures m.accepted == old(m.accepted) && Step(m, me).Next?
    {
      hide Recorded;
      hide LastEnqueueCall;
      hide FullFor;
      hide SizesKept;
      nb := blocks[tb].next;
      EnqueueTurn(me, others(11));
      var nextBlockFront := blocks[nb].front;
      blocks := blocks[nb := blocks[nb].(localFront := nextBlockFront)];
      EnqueueTurn(me, others(6));
      nextBlockTail := blocks[nb].tail;
      assert nextBlockFront == nextBlockTail;
      blocks := blocks[nb := blocks[nb].(localFront := nextBlockFront)];
      EnqueueTurn(me, others(7));
    }

    /** Make the block that holds the new element the tail block: the enqueue takes effect. */
    method PublishBlock(x: T, nb: nat, me: Action<T>, schedule: seq<Action<T>>)
      requires Valid() && me.ProducerStep? && m.p == PStoreTailBlock(x, nb) && Step(m, me).Next?
      modifies this
      ensures Valid() && size == old(size) && m.p == PIdle(Accepted)
      ensures |blocks| == |old(blocks)| && old(states) <= states
      ensures m.accepted == old(m.accepted) + [x]
    {
      hide Recorded;
      hide LastEnqueueCall;
      hide FullFor;
      hide SizesKept;
      tailBlock := nb;
      EnqueueTurn(me, schedule);
    }

    /** Fill the first slot of the free block, then make it the tail block. */
    method EnqueueInNext(x: T, nb: nat, nextBlockTail: nat, me: Action<T>, others: Schedule<T>)
      requires Valid() && me.ProducerStep? && m.p == PConstructNext(x, nb, nextBlockTail) && Step(m, me).Next?
      modifies this
      ensures Valid() && size == old(size) && m.p == PIdle(Accepted)
      ensures |blocks| == |old(blocks)|
      ensures m.accepted == old(m.accepted) + [x]
    {
      hide Recorded;
      hide LastEnqueueCall;
      hide FullFor;
      hide SizesKept;
      blocks := blocks[nb := Place(blocks[nb], nextBlockTail, x)];
      EnqueueTurn(me, others(8));
      StoreNextTail(x, nb, nextBlockTail, me, others);
      PublishBlock(x, nb, me, others(10));
    }

    method StoreNextTail(x: T, nb: nat, nextBlockTail: nat, me: Action<T>, others: Schedule<T>)
      requires Valid() && me.ProducerStep? && m.p == PStoreNextTail(x, nb, nextBlockTail) && Step(m, me).Next?
      modifies this
      ensures Valid() && size == old(size) && m.p == PStoreTailBlock(x, nb)
      ensures |blocks| == |old(blocks)|
      ensures m.accepted == old(m.accepted) && Step(m, me).Next?
    {
      hide Recorded;
      hide LastEnqueueCall;
      hide FullFor;
      hide SizesKept;
      hide And;
      hide SizeMask;
      MaskedNextStore();
      blocks := blocks[nb := blocks[nb].(tail := And(nextBlockTail + 1, SizeMask(|blocks[nb].data|)))];
      EnqueueTurn(me, others(9));
    }

    /** No free block ahead: allocate one and construct the element in its first slot. */
    method MakeBlock(x: T, tb: nat, raw: seq<T>, me: Action<T>, others: Schedule<T>) returns (nb: nat)
      requires Valid() && m.p == PMakeBlock(x, tb) && |raw| == NewBlockSize(m)
      requires me == ProducerStep(true, raw) && Step(m, me).Next?
      modifies this
      ensures Valid() && size == old(size) && m.p == PStoreNewTail(x, tb, nb)
      ensures |blocks| == |old(blocks)| + 1 && old(states) <= states
      ensures m.accepted == old(m.accepted) && Step(m, me).Next?
    {
      hide SizesKept;
      hide FullFor;
      hide LastEnqueueCall;
      hide Recorded;
      var newBlockSize := if largestBlockSize >= m.maxBlock then largestBlockSize else largestBlockSize * 2;
      nb := |blocks|;
      blocks := blocks + [NewBlock(raw)];
      largestBlockSize := newBlockSize;
      EnqueueTurn(me, others(11));
      blocks := blocks[nb := Place(blocks[nb], 0, x)];
      EnqueueTurn(me, others(6));
    }

    /** The new block holds its one element. */
    method FillBlock(x: T, tb: nat, nb: nat, me: Action<T>, others: Schedule<T>)
      requires Valid() && me.ProducerStep? && m.p == PStoreNewTail(x, tb, nb) && Step(m, me).Next?
      modifies this
      ensures Valid() && size == old(size) && m.p == PStoreNewNext(x, tb, nb)
      ensures |blocks| == |old(blocks)| && old(states) <= states
      ensures m.accepted == old(m.accepted) && Step(m, me).Next?
    {
      hide Recorded;
      hide LastEnqueueCall;
      hide FullFor;
      hide SizesKept;
      assert blocks[nb].front == 0;
      blocks := blocks[nb := blocks[nb].(localTail := 1, tail := 1)];
      EnqueueTurn(me, others(7));
    }

    /** Link the new block in after the tail block. */
    method LinkBlock(x: T, tb: nat, nb: nat, me: Action<T>, others: Schedule<T>)
      requires Valid() && me.ProducerStep? && m.p == PStoreNewNext(x, tb, nb) && Step(m, me).Next?
      modifies this
      ensures Valid() && size == old(size) && m.p == PStoreTailBlock(x, nb)
      ensures |blocks| == |old(blocks)| && old(states) <= states
      ensures m.accepted == old(m.accepted) && Step(m, me).Next?
    {
      hide Recorded;
      hide LastEnqueueCall;
      hide FullFor;
      hide SizesKept;
      blocks := blocks[nb := blocks[nb].(next := blocks[tb].next)];
      EnqueueTurn(me, others(8));
      blocks := blocks[tb := blocks[tb].(next := nb)];
      EnqueueTurn(me, others(9));
    }

    /** The start of an enqueue: is there room in the tail block? */
    method LookAtTail(x: T, canAlloc: bool, me: Action<T>, others: Schedule<T>)
      returns (tb: nat, blockTail: nat, room: bool)
      requires Valid() && me.ProducerStep? && m.p == PLoadTailBlock(x, canAlloc) && Step(m, me).Next?
      modifies this
      ensures Valid() && size == old(size) && m.accepted == old(m.accepted)
      ensures |blocks| == |old(blocks)|
      ensures m.p == if room then PConstruct(x, tb, blockTail) else PLoadNext(x, canAlloc, tb)
      ensures Step(m, me).Next? && NewBlockSize(m) == old(NewBlockSize(m))
      ensures LastEnqueueCall(actions, |actions|) == old(LastEnqueueCall(actions, |actions|))
    {
      hide Recorded;
      hide LastEnqueueCall;
      hide FullFor;
      hide SizesKept;
      tb := tailBlock;
      EnqueueTurn(me, others(1));
      var nextBlockTail;
      blockTail, nextBlockTail, room := CompareWithShadow(x, canAlloc, tb, me, others);
      if !room {
        room := CompareWithFront(x, canAlloc, tb, blockTail, nextBlockTail, me, others);
      }
    }

    method CompareWithShadow(x: T, canAlloc: bool, tb: nat, me: Action<T>, others: Schedule<T>)
      returns (blockTail: nat, nextBlockTail: nat, room: bool)
      requires Valid() && me.ProducerStep? && m.p == PLoadTail(x, canAlloc, tb) && Step(m, me).Next?
      modifies this
      ensures Valid() && size == old(size) && m.accepted == old(m.accepted)
      ensures |blocks| == |old(blocks)|
      ensures m.p == if room then PConstruct(x, tb, blockTail) else PLoadFront(x, canAlloc, tb, blockTail)
      ensures tb < |blocks| && nextBlockTail == Inc(blockTail, |blocks[tb].data|)
      ensures Step(m, me).Next? && NewBlockSize(m) == old(NewBlockSize(m))
      ensures LastEnqueueCall(actions, |actions|) == old(LastEnqueueCall(actions, |actions|))
    {
      hide Recorded;
      hide LastEnqueueCall;
      hide FullFor;
      MaskedTail(tb);
      hide And;
      hide SizeMask;
      hide Inc;
      var blockFront := blocks[tb].localFront;
      blockTail := blocks[tb].tail;
      nextBlockTail := And(blockTail + 1, SizeMask(|blocks[tb].data|));
      room := nextBlockTail != blockFront;
      EnqueueTurn(me, others(2));
    }

    method CompareWithFront(
      x: T, canAlloc: bool, tb: nat, blockTail: nat, nextBlockTail: nat, me: Action<T>, others: Schedule<T>)
      returns (room: bool)
      requires Valid() && me.ProducerStep? && m.p == PLoadFront(x, canAlloc, tb, blockTail) && Step(m, me).Next?
      requires tb < |blocks| && nextBlockTail == Inc(blockTail, |blocks[tb].data|)
      modifies this
      ensures Valid() && size == old(size) && m.accepted == old(m.accepted)
      ensures |blocks| == |old(blocks)|
      ensures m.p == if room then PConstruct(x, tb, blockTail) else PLoadNext(x, canAlloc, tb)
      ensures Step(m, me).Next? && NewBlockSize(m) == old(NewBlockSize(m))
      ensures LastEnqueueCall(actions, |actions|) == old(LastEnqueueCall(actions, |actions|))
    {
      hide Recorded;
      hide LastEnqueueCall;
      hide FullFor;
      hide SizesKept;
      hide Inc;
      var blockFront := blocks[tb].front;
      blocks := blocks[tb := blocks[tb].(localFront := blockFront)];
      room := nextBlockTail != blockFront;
      EnqueueTurn(me, others(3));
    }

    /** What the record says of the moment when no block ahead was found free. */
    lemma FoundNoneFree(i: nat)
      requires Recorded() && i < |actions| && i + 1 < |states| && actions[i].ProducerStep?
      requires states[i + 1].p.PMakeBlock? || (states[i + 1].p.PIdle? && states[i + 1].p.last.Refused?)
      ensures exists j :: LastEnqueueCall(actions, i) <= j < |states| && FullFor(states[j], size)
    {
      hide IsRun;
      hide Fresh;
      hide Room;
      hide PowerSized;
      hide Inv;
      hide FullFor;
      if states[i + 1].p.PMakeBlock? {
        var j := AsksWhenFull(states, actions, i + 1, size);
        CallGoesOn(actions, i);
      } else {
        RefusalIsRight(states, actions, i, size);
      }
    }

    /** The tail block is full: is the block after it free? */
    method LookAhead(x: T, canAlloc: bool, tb: nat, me: Action<T>, others: Schedule<T>) returns (free: bool)
      requires Valid() && me.ProducerStep? && m.p == PLoadNext(x, canAlloc, tb) && Step(m, me).Next?
      modifies this
      ensures Valid() && size == old(size) && m.accepted == old(m.accepted)
      ensures |blocks| == |old(blocks)|
      ensures m.p == if free then PLoadNextAgain(x, tb) else if canAlloc then PMakeBlock(x, tb) else PIdle(Refused(false))
      ensures Enabled(m, me) ==> Step(m, me).Next?
      ensures NewBlockSize(m) == old(NewBlockSize(m))
      ensures !free ==> exists j :: old(LastEnqueueCall(actions, |actions|)) <= j < |states| && FullFor(states[j], size)
    {
      hide Base;
      hide Room;
      hide FullFor;
      hide LastEnqueueCall;
      var next := blocks[tb].next;
      EnqueueTurn(me, others(4));
      free := next != frontBlock;
      ghost var before := actions;
      EnqueueTurn(me, others(5));
      if !free {
        LastEnqueueCallPrefix(before, actions, |before|);
        FoundNoneFree(|before|);
      }
    }

    method StartEnqueue(x: T, canAlloc: bool, me: Action<T>, others: Schedule<T>)
      requires Valid() && m.p.PIdle? && me.ProducerStep? && (me.granted ==> |me.raw| == NewBlockSize(m))
      modifies this
      ensures Valid() && size == old(size) && m.p == PLoadTailBlock(x, canAlloc)
      ensures m.accepted == old(m.accepted) && NewBlockSize(m) == old(NewBlockSize(m)) && |blocks| == |old(blocks)|
      ensures Step(m, me).Next? && LastEnqueueCall(actions, |actions|) == |old(states)|
    {
      hide Base;
      hide Room;
      hide ProducerKnows;
      hide ConsumerKnows;
      LastEnqueueCallExtends(actions, CallEnqueue(x, canAlloc));
      Commit(CallEnqueue(x, canAlloc));
      ConsumerRuns(others(0));
      StepRefines(m, me);
    }

    /** No free block: the element goes into a new one, if memory is to be had. */
    method EnqueueInNew(x: T, tb: nat, granted: bool, raw: seq<T>, me: Action<T>, others: Schedule<T>) returns (ok: bool)
      requires Valid() && m.p == PMakeBlock(x, tb) && (granted ==> |raw| == NewBlockSize(m))
      requires me == ProducerStep(granted, raw) && Step(m, me).Next?
      modifies this
      ensures Valid() && size == old(size) && m.p.PIdle? && ok == granted
      ensures m.accepted == old(m.accepted) + (if ok then [x] else [])
      ensures |blocks| == |old(blocks)| + (if ok then 1 else 0) && old(states) <= states
    {
      hide SizesKept;
      hide FullFor;
      hide LastEnqueueCall;
      hide Recorded;
      if !granted {
        EnqueueTurn(me, others(6));
        return false;
      }
      var nb := MakeBlock(x, tb, raw, me, others);
      FillBlock(x, tb, nb, me, others);
      LinkBlock(x, tb, nb, me, others);
      PublishBlock(x, nb, me, others(10));
      return true;
    }

    /**
      `enqueue` (may allocate) and `try_enqueue` (may not). The element joins the end of
      the queue, without a new block if there was a slot to be had throughout the call.
      Only after a moment without one, and with as many elements as the queue was built
      for, is it refused or put in a new block.
     */
    method InnerEnqueue(x: T, canAlloc: bool, granted: bool, raw: seq<T>, others: Schedule<T>) returns (ok: bool)
      requires Valid() && m.p.PIdle? && (granted ==> |raw| == NewBlockSize(m))
      modifies this
      ensures Valid() && size == old(size) && m.p.PIdle?
      ensures m.accepted == old(m.accepted) + (if ok then [x] else [])
      ensures !ok && canAlloc ==> !granted
      ensures !ok || |blocks| != |old(blocks)| ==>
        exists j :: |old(states)| <= j < |states| && FullFor(states[j], size)
      ensures |blocks| == |old(blocks)| || (ok && canAlloc && granted && |blocks| == |old(blocks)| + 1)
    {
      hide SizesKept;
      hide FullFor;
      hide LastEnqueueCall;
      hide Recorded;
      var me := ProducerStep(granted, raw);
      StartEnqueue(x, canAlloc, me, others);
      var tb, blockTail, room := LookAtTail(x, canAlloc, me, others);
      if room {
        EnqueueInTail(x, tb, blockTail, me, others);
        return true;
      }
      var free := LookAhead(x, canAlloc, tb, me, others);
      if free {
        var nb, nextBlockTail := LookAtNext(x, tb, me, others);
        EnqueueInNext(x, nb, nextBlockTail, me, others);
        return true;
      } else if canAlloc {
        ghost var j :| |old(states)| <= j < |states| && FullFor(states[j], size);
        ok := EnqueueInNew(x, tb, granted, raw, me, others);
      } else {
        return false;
      }
    }

    // -------------------------------------------------------------- the consumer's calls

    /** What a consumer's call can count on across the producer's steps. */
    twostate predicate ConsumerHeld()
      reads this
    {
      && size == old(size) && m.c == old(m.c) && m.removed == old(m.removed)
      && old(states) <= states && old(actions) <= actions
      && LastDequeueCall(actions, |actions|) == old(LastDequeueCall(actions, |actions|))
    }

    method ProducerActs(a: Action<T>)
      requires Valid() && OfProducer(a) && Enabled(m, a)
      modifies this
      ensures Valid() && ConsumerHeld()
    {
      hide Base;
      hide Room;
      hide ProducerKnows;
      hide ConsumerKnows;
      StepRefines(m, a);
      ProducerTouches(m, a);
      LastDequeueCallExtends(actions, a);
      var s := Step(m, a).s;
      blocks, tailBlock, largestBlockSize := s.blocks, s.tailBlock, s.largest;
      Commit(a);
    }

    /** Any number of steps of the producer. */
    method ProducerRuns(schedule: seq<Action<T>>)
      requires Valid()
      modifies this
      ensures Valid() && ConsumerHeld()
    {
      hide Inv;
      hide Room;
      for i := 0 to |schedule|
        invariant Valid() && ConsumerHeld()
      {
        var a := schedule[i];
        if OfProducer(a) && Enabled(m, a) {
          ProducerActs(a);
        }
      }
    }

    /** One access of the consumer, already made on the fields, then the producer runs. */
    method DequeueTurn(schedule: seq<Action<T>>)
      requires Recorded() && Enabled(m, ConsumerStep)
      requires ConsumerNext(m).Next? && Mirrors(ConsumerNext(m).s)
      modifies this
      ensures Valid() && size == old(size)
      ensures var s := ConsumerNext(old(m)).s; m.c == s.c && m.removed == s.removed
      ensures LastDequeueCall(actions, |actions|) == old(LastDequeueCall(actions, |actions|))
      ensures old(states) + [ConsumerNext(old(m)).s] <= states && old(actions) + [ConsumerStep] <= actions
      ensures !m.c.CIdle? ==> ConsumerNext(m).Next?
    {
      hide Base;
      hide Room;
      hide ProducerKnows;
      hide ConsumerKnows;
      LastDequeueCallExtends(actions, ConsumerStep);
      Commit(ConsumerStep);
      ProducerRuns(schedule);
      if !m.c.CIdle? {
        StepRefines(m, ConsumerStep);
      }
    }

    method StartDequeue(op: Operation, others: Schedule<T>)
      requires Valid() && m.c.CIdle?
      modifies this
      ensures Valid() && size == old(size) && m.c == CLoadFrontBlock(op) && m.removed == old(m.removed)
      ensures ConsumerNext(m).Next? && LastDequeueCall(actions, |actions|) == |old(states)|
    {
      hide Base;
      hide Room;
      hide ProducerKnows;
      hide ConsumerKnows;
      LastDequeueCallExtends(actions, CallDequeue(op));
      Commit(CallDequeue(op));
      ProducerRuns(others(0));
      StepRefines(m, ConsumerStep);
    }

    /** Is there an element in the front block? First by the shadow of `tail`, then by `tail`. */
    method LookAtFront(op: Operation, others: Schedule<T>) returns (fb: nat, bf: nat, found: bool)
      requires Valid() && m.c == CLoadFrontBlock(op) && ConsumerNext(m).Next?
      modifies this
      ensures Valid() && size == old(size) && m.removed == old(m.removed)
      ensures m.c == if found then Found(op, fb, bf) else CLoadTailBlock(op, fb, bf)
      ensures !m.c.CIdle? ==> ConsumerNext(m).Next?
      ensures LastDequeueCall(actions, |actions|) == old(LastDequeueCall(actions, |actions|))
    {
      hide Recorded;
      hide LastDequeueCall;
      hide IsEmpty;
      fb := frontBlock;
      DequeueTurn(others(1));
      var blockTail := blocks[fb].localTail;
      bf := blocks[fb].front;
      found := bf != blockTail;
      DequeueTurn(others(2));
      if !found {
        blockTail := blocks[fb].tail;
        blocks := blocks[fb := blocks[fb].(localTail := blockTail)];
        found := bf != blockTail;
        DequeueTurn(others(3));
      }
    }

    /** The front block looked empty: has the tail moved on from it? */
    method LookAtTailBlock(op: Operation, fb: nat, bf: nat, others: Schedule<T>) returns (ahead: bool)
      requires Valid() && m.c == CLoadTailBlock(op, fb, bf) && ConsumerNext(m).Next?
      modifies this
      ensures Valid() && size == old(size) && m.removed == old(m.removed)
      ensures m.c == if ahead then CReloadFrontBlock(op) else CIdle(Empty)
      ensures ahead ==> ConsumerNext(m).Next?
      ensures !ahead ==>
        exists j :: old(LastDequeueCall(actions, |actions|)) <= j < |states| && IsEmpty(states[j])
    {
      hide Base;
      hide Room;
      hide LastDequeueCall;
      hide IsEmpty;
      ghost var before := actions;
      ahead := fb != tailBlock;
      DequeueTurn(others(4));
      if !ahead {
        LastDequeueCallPrefix(before, actions, |before|);
        EmptyAnswerIsRight(states, actions, |before|);
      }
    }

    /** Look at the front block again, now that the producer can no longer fill it. */
    method LookAgain(op: Operation, others: Schedule<T>) returns (fb: nat, bf: nat, found: bool)
      requires Valid() && m.c == CReloadFrontBlock(op) && ConsumerNext(m).Next?
      modifies this
      ensures Valid() && size == old(size) && m.removed == old(m.removed)
      ensures m.c == if found then Found(op, fb, bf) else CLoadNext(op, fb)
      ensures !m.c.CIdle? ==> ConsumerNext(m).Next?
    {
      hide Recorded;
      hide LastDequeueCall;
      hide IsEmpty;
      fb := frontBlock;
      DequeueTurn(others(5));
      var blockTail := blocks[fb].tail;
      blocks := blocks[fb := blocks[fb].(localTail := blockTail)];
      DequeueTurn(others(6));
      bf := blocks[fb].front;
      found := bf != blockTail;
      DequeueTurn(others(7));
    }

    /** The front block is done with: move on to the next one, which must hold an element. */
    method Advance(op: Operation, fb: nat, others: Schedule<T>) returns (nb: nat, nf: nat)
      requires Valid() && m.c == CLoadNext(op, fb) && ConsumerNext(m).Next?
      modifies this
      ensures Valid() && size == old(size) && m.removed == old(m.removed)
      ensures m.c == Found(op, nb, nf) && (!m.c.CIdle? ==> ConsumerNext(m).Next?)
    {
      hide Recorded;
      hide LastDequeueCall;
      hide IsEmpty;
      nb := blocks[fb].next;
      DequeueTurn(others(8));
      nf := blocks[nb].front;
      DequeueTurn(others(9));
      EnterBlock(op, nb, nf, others);
    }

    /** `peek` only looks into the next block; the others make it the front block. */
    method EnterBlock(op: Operation, nb: nat, nf: nat, others: Schedule<T>)
      requires Valid() && m.c == CLoadNextTail(op, nb, nf) && ConsumerNext(m).Next?
      modifies this
      ensures Valid() && size == old(size) && m.removed == old(m.removed)
      ensures m.c == Found(op, nb, nf) && (!m.c.CIdle? ==> ConsumerNext(m).Next?)
    {
      hide Recorded;
      hide LastDequeueCall;
      hide IsEmpty;
      var nextBlockTail := blocks[nb].tail;
      assert nf != nextBlockTail;
      if op != Operation.Peek {
        blocks := blocks[nb := blocks[nb].(localTail := nextBlockTail)];
      }
      DequeueTurn(others(10));
      if op != Operation.Peek {
        frontBlock := nb;
        DequeueTurn(others(11));
      }
    }

    /** The part that `try_dequeue`, `pop` and `peek` share: where is the oldest element? */
    method FindFront(op: Operation, others: Schedule<T>) returns (fb: nat, bf: nat, found: bool)
      requires Valid() && m.c.CIdle?
      modifies this
      ensures Valid() && size == old(size) && m.removed == old(m.removed)
      ensures m.c == if found then Found(op, fb, bf) else CIdle(Empty)
      ensures !m.c.CIdle? ==> ConsumerNext(m).Next?
      ensures !found ==> exists j :: |old(states)| <= j < |states| && IsEmpty(states[j])
    {
      hide Recorded;
      hide LastDequeueCall;
      hide IsEmpty;
      StartDequeue(op, others);
      fb, bf, found := LookAtFront(op, others);
      if !found {
        var ahead := LookAtTailBlock(op, fb, bf, others);
        if ahead {
          fb, bf, found := LookAgain(op, others);
          if !found {
            fb, bf := Advance(op, fb, others);
            found := true;
          }
        }
      }
    }

    /** What the record says of a removal that is part of it. */
    lemma TakenOnRecord(i: nat, got: Option<T>)
      requires Recorded() && i < |actions| && i + 1 < |states| && actions[i].ConsumerStep?
      requires states[i + 1].c == CIdle(Removed(got)) && m.removed == states[i + 1].removed
      ensures |m.removed| == |states[i].removed| + 1 && states[i].removed <= m.removed <= m.accepted
      ensures got.Some? ==> m.removed == states[i].removed + [got.value]
    {
      DequeueYieldsNext(states, actions, i);
      Fifo(states, actions, |actions|);
      hide IsRun;
      hide Fresh;
      hide Room;
      hide PowerSized;
      hide Inv;
    }

    /** Move `front` past the element just destroyed: the removal takes effect. */
    method StoreFront(op: Operation, fb: nat, bf: nat, got: Option<T>, others: Schedule<T>)
      requires Valid() && m.c == CStoreFront(op, fb, bf, got) && ConsumerNext(m).Next?
      modifies this
      ensures Valid() && size == old(size) && m.c == CIdle(Removed(got))
      ensures |m.removed| == |old(m.removed)| + 1 && old(m.removed) <= m.removed <= m.accepted
      ensures got.Some? ==> m.removed == old(m.removed) + [got.value]
    {
      hide Recorded;
      hide LastDequeueCall;
      hide IsEmpty;
      hide And;
      hide SizeMask;
      ghost var i := |actions|;
      RecordParts();
      MaskedFront();
      blocks := blocks[fb := blocks[fb].(front := And(bf + 1, SizeMask(|blocks[fb].data|)))];
      DequeueTurn(others(13));
      TakenOnRecord(i, got);
    }

    lemma RecordParts()
      requires Recorded()
      ensures |states| == |actions| + 1 && m == states[|actions|]
    { }

    /** Destroy the element that was found and take it out of the queue. */
    method DropFront(op: Operation, fb: nat, bf: nat, got: Option<T>, others: Schedule<T>)
      requires Valid() && m.c == CDestroy(op, fb, bf, got) && ConsumerNext(m).Next?
      modifies this
      ensures Valid() && size == old(size) && m.c == CIdle(Removed(got))
      ensures |m.removed| == |old(m.removed)| + 1 && old(m.removed) <= m.removed <= m.accepted
      ensures got.Some? ==> m.removed == old(m.removed) + [got.value]
    {
      hide Recorded;
      hide LastDequeueCall;
      hide IsEmpty;
      blocks := blocks[fb := Kill(blocks[fb], bf)];
      DequeueTurn(others(12));
      StoreFront(op, fb, bf, got, others);
    }

    /**
      `try_dequeue`: the value handed out is the oldest accepted value not yet removed;
      on failure the queue was empty at some moment of the call, and `result` keeps its
      value.
     */
    method TryDequeue(result0: T, others: Schedule<T>) returns (ok: bool, result: T)
      requires Valid() && m.c.CIdle?
      modifies this
      ensures Valid() && size == old(size) && m.c.CIdle?
      ensures ok ==> m.removed == old(m.removed) + [result] && m.removed <= m.accepted
      ensures !ok ==> m.removed == old(m.removed) && result == result0
      ensures !ok ==> exists j :: |old(states)| <= j < |states| && IsEmpty(states[j])
    {
      hide Recorded;
      hide LastDequeueCall;
      hide IsEmpty;
      result := result0;
      var fb, bf, found := FindFront(Operation.TryDequeue, others);
      if found {
        result := blocks[fb].data[bf];
        DequeueTurn(others(14));
        DropFront(Operation.TryDequeue, fb, bf, Some(result), others);
      }
      ok := found;
    }

    /** `pop`: like `try_dequeue`, without handing the value out. */
    method Pop(others: Schedule<T>) returns (ok: bool)
      requires Valid() && m.c.CIdle?
      modifies this
      ensures Valid() && size == old(size) && m.c.CIdle?
      ensures ok ==> |m.removed| == |old(m.removed)| + 1 && old(m.removed) <= m.removed <= m.accepted
      ensures !ok ==> m.removed == old(m.removed)
      ensures !ok ==> exists j :: |old(states)| <= j < |states| && IsEmpty(states[j])
    {
      hide Recorded;
      hide LastDequeueCall;
      hide IsEmpty;
      var fb, bf, found := FindFront(Operation.Pop, others);
      if found {
        DropFront(Operation.Pop, fb, bf, None, others);
      }
      ok := found;
    }

    /** `peek`: the address of the oldest element, good until the consumer's next call. */
    method Peek(others: Schedule<T>) returns (address: Option<(nat, nat)>)
      requires Valid() && m.c.CIdle?
      modifies this
      ensures Valid() && size == old(size) && m.c.CIdle? && m.removed == old(m.removed)
      ensures address.Some? ==>
        var (b, j) := address.value;
        b < |blocks| && j < |blocks[b].data| && j < |blocks[b].live| && blocks[b].live[j]
        && |m.removed| < |m.accepted| && blocks[b].data[j] == m.accepted[|m.removed|]
      ensures address.None? ==> exists j :: |old(states)| <= j < |states| && IsEmpty(states[j])
    {
      hide Room;
      hide LastDequeueCall;
      hide IsEmpty;
      var fb, bf, found := FindFront(Operation.Peek, others);
      address := if found then Some((fb, bf)) else None;
      if found {
        PeekSeesTheOldest(m);
        Fifo(states, actions, |actions|);
      }
    }

    // -------------------------------------------------------------- at rest

    /** `size_approx` is exact while no call is in progress. */
    method SizeApprox() returns (result: nat)
      requires Valid() && m.p.PIdle? && m.c.CIdle?
      ensures result == |Abs(m)|
    {
      hide IsRun;
      hide Fresh;
      hide Base;
      hide Room;
      hide ProducerKnows;
      hide ConsumerKnows;
      hide Abs;
      hide Passed;
      hide PassedSlots;
      RingStart(m);
      result := 0;
      var block := frontBlock;
      ghost var i := 0;
      var more := true;
      while more
        invariant i <= |m.ring| && (more <==> i < |m.ring|) && (more ==> block == m.ring[i])
        invariant result == |Passed(m, i)|
        decreases |m.ring| - i
      {
        WalkRing(m, i);
        BlockSizes(block);
        MaskedDist(|blocks[block].data|, blocks[block].front, blocks[block].tail);
        result := result + And(Minus(blocks[block].tail, blocks[block].front), SizeMask(|blocks[block].data|));
        block := blocks[block].next;
        more := block != frontBlock;
        i := i + 1;
      }
      WholeRing(m, |m.ring|);
    }

    /** `max_capacity`: one less than the size of each block, summed; never below what was asked for. */
    method MaxCapacity() returns (result: nat)
      requires Valid() && m.p.PIdle? && m.c.CIdle?
      ensures result == Capacity(m)
      ensures |Abs(m)| <= result && size <= result
    {
      hide IsRun;
      hide Fresh;
      hide Base;
      hide Room;
      hide ProducerKnows;
      hide ConsumerKnows;
      hide Abs;
      hide Passed;
      CapacityIsPassed(m);
      hide Capacity;
      hide PassedSlots;
      RingStart(m);
      result := 0;
      var block := frontBlock;
      ghost var i := 0;
      var more := true;
      while more
        invariant i <= |m.ring| && (more <==> i < |m.ring|) && (more ==> block == m.ring[i])
        invariant result == PassedSlots(m, i) && |Passed(m, i)| <= result
        decreases |m.ring| - i
      {
        WalkRing(m, i);
        result := result + (SizeMask(|blocks[block].data|));
        block := blocks[block].next;
        more := block != frontBlock;
        i := i + 1;
      }
      WholeRing(m, |m.ring|);
      AlwaysRoomy(states, actions, |actions|, size);
      RoomAtRest(m, size);
    }

    /**
      The destructor: every block is visited once, and every element still in the queue
      is destroyed once, oldest first. With the removed ones that is every element ever
      accepted.
     */
    method Destroy() returns (destroyed: seq<T>, freed: seq<nat>)
      requires Valid() && m.p.PIdle? && m.c.CIdle?
      modifies `blocks
      ensures destroyed == Abs(m) && m.accepted == m.removed + destroyed
      ensures Distinct(freed) && forall b :: 0 <= b < |blocks| ==> b in freed
      ensures |blocks| == |m.blocks| && forall b :: 0 <= b < |blocks| ==> AllDead(blocks[b])
    {
      hide PassedSlots;
      hide Passed;
      hide Abs;
      hide ConsumerKnows;
      hide ProducerKnows;
      hide Room;
      hide Base;
      hide Fresh;
      hide IsRun;
      RingStart(m);
      Fifo(states, actions, |actions|);
      destroyed, freed := [], [];
      var block := frontBlock;
      var more := true;
      while more
        invariant |blocks| == |m.blocks| && |freed| <= |m.ring| && freed == m.ring[..|freed|]
        invariant (more <==> |freed| < |m.ring|) && (more ==> block == m.ring[|freed|])
        invariant destroyed == Passed(m, |freed|)
        invariant forall b :: 0 <= b < |blocks| ==>
          if b in freed then AllDead(blocks[b]) else blocks[b] == m.blocks[b]
        decreases |m.ring| - |freed|
      {
        WalkRing(m, |freed|);
        IdleAtRest(m, block);
        SizeOf(m, block);
        var nextBlock := blocks[block].next;
        var b, gone := DestroyElements(blocks[block]);
        blocks := blocks[block := b];
        destroyed := destroyed + gone;
        freed := freed + [block];
        block := nextBlock;
        more := block != frontBlock;
      }
      WholeRing(m, |m.ring|);
      assert freed == m.ring;
    }
  }

  /** The index that a store goes on from is the one in the block. */
  lemma StoreAtTail<T>(s: State<T>)
    requires Inv(s)
    ensures s.p.PStoreTail? ==> s.p.tb < |s.blocks| && s.p.bt == s.blocks[s.p.tb].tail
    ensures s.p.PStoreNextTail? ==> s.p.nb < |s.blocks| && s.p.nt == s.blocks[s.p.nb].tail
  { }

  lemma StoreAtFront<T>(s: State<T>)
    requires Inv(s)
    ensures s.c.CStoreFront? ==> s.c.fb < |s.blocks| && s.c.bf == s.blocks[s.c.fb].front
  { }

  lemma CapacityIsPassed<T>(s: State<T>)
    requires Base(s)
    ensures Capacity(s) == PassedSlots(s, |s.ring|)
  { }

  lemma ConsumerTouches<T>(s: State<T>, a: Action<T>)
    requires Enabled(s, a) && OfConsumer(a) && Step(s, a).Next?
    ensures var s' := Step(s, a).s;
            && s'.p == s.p && s'.accepted == s.accepted && s'.tailBlock == s.tailBlock
            && s'.largest == s.largest && s'.maxBlock == s.maxBlock
  { }

  lemma ProducerTouches<T>(s: State<T>, a: Action<T>)
    requires Enabled(s, a) && OfProducer(a) && Step(s, a).Next?
    ensures var s' := Step(s, a).s;
            s'.c == s.c && s'.removed == s.removed && s'.frontBlock == s.frontBlock
  { }
}
