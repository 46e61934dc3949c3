/**
  Block sizes are powers of two in every run, so the masks the code applies to its
  indices do what the machine's index arithmetic says.
 */
module QueueSizes {
  import opened Words
  import opened QueueArithmetic
  import opened Circular
  import opened SpscQueue
  import opened QueueRuns
  import opened QueueLifecycle
  import opened QueueInvariant
  import opened QueueFilling

  ghost predicate PowerSized<T>(s: State<T>) {
    && IsBlockSize(s.maxBlock) && IsBlockSize(s.largest)
    && forall b :: 0 <= b < |s.blocks| ==> IsBlockSize(|s.blocks[b].data|)
  }

  /** The size of the next block is twice the last one, up to the greatest. */
  lemma NewBlockSizeIsPower<T>(s: State<T>)
    requires PowerSized(s)
    ensures IsBlockSize(NewBlockSize(s))
  {
    if s.largest < s.maxBlock {
      var e: nat :| e < W && s.largest == Pow2(e);
      var k: nat :| k < W && s.maxBlock == Pow2(k);
      hide Pow2;
      if k <= e {
        Pow2Monotone(k, e);
        assert false;
      }
      Pow2Adds(1, e);
      SmallPowers();
      assert NewBlockSize(s) == Pow2(e + 1);
    }
  }

  /** What a step does to the sizes: a new block gets the size computed for it. */
  lemma StepSizes<T>(s: State<T>, a: Action<T>)
    requires Enabled(s, a) && Step(s, a).Next?
    ensures var s' := Step(s, a).s;
            && s'.maxBlock == s.maxBlock
            && (s'.largest == s.largest || s'.largest == NewBlockSize(s))
            && |s.blocks| <= |s'.blocks| <= |s.blocks| + 1
            && (forall b :: 0 <= b < |s.blocks| ==> |s'.blocks[b].data| == |s.blocks[b].data|)
            && (|s'.blocks| > |s.blocks| ==> |s'.blocks[|s.blocks|].data| == s'.largest == NewBlockSize(s))
  {
    match a {
      case ProducerStep(granted, raw) => ProducerSizes(s, granted, raw);
      case ConsumerStep => ConsumerSizes(s);
      case _ =>
    }
  }

  lemma ProducerSizes<T>(s: State<T>, granted: bool, raw: seq<T>)
    requires Enabled(s, ProducerStep(granted, raw)) && ProducerNext(s, granted, raw).Next?
    ensures var s' := ProducerNext(s, granted, raw).s;
            && s'.maxBlock == s.maxBlock
            && (s'.largest == s.largest || s'.largest == NewBlockSize(s))
            && |s.blocks| <= |s'.blocks| <= |s.blocks| + 1
            && (forall b :: 0 <= b < |s.blocks| ==> |s'.blocks[b].data| == |s.blocks[b].data|)
            && (|s'.blocks| > |s.blocks| ==> |s'.blocks[|s.blocks|].data| == s'.largest == NewBlockSize(s))
  {
    hide Inc;
    hide NewBlock;
    hide NewBlockSize;
    hide InsertAfter;
    if s.p.PMakeBlock? {
      NewBlockHolds(raw);
    }
  }

  lemma NewBlockHolds<T>(raw: seq<T>)
    ensures |NewBlock(raw).data| == |raw|
  { }

  lemma ConsumerSizes<T>(s: State<T>)
    requires Enabled(s, ConsumerStep) && ConsumerNext(s).Next?
    ensures var s' := ConsumerNext(s).s;
            && s'.maxBlock == s.maxBlock && s'.largest == s.largest && |s'.blocks| == |s.blocks|
            && forall b :: 0 <= b < |s.blocks| ==> |s'.blocks[b].data| == |s.blocks[b].data|
  {
    hide Inc;
    hide Rotate;
    hide Found;
  }

  lemma StepKeepsPowerSized<T>(s: State<T>, a: Action<T>)
    requires PowerSized(s) && Enabled(s, a) && Step(s, a).Next?
    ensures PowerSized(Step(s, a).s)
  {
    hide IsBlockSize;
    hide Step;
    hide NewBlockSize;
    StepSizes(s, a);
    NewBlockSizeIsPower(s);
  }

  lemma PowerFits(e: nat)
    requires Pow2(e) <= Pow2(W - 1)
    ensures e < W
  {
    hide Pow2;
    Pow2Adds(1, W - 1);
    SmallPowers();
    if e >= W {
      Pow2Monotone(W, e);
      assert false;
    }
  }

  lemma ConstructedIsPowerSized<T>(s: State<T>, size: nat, maxBlock: nat, k: nat)
    requires 1 <= k < W - 1 && maxBlock == Pow2(k) >= 2 && size < Pow2(W - 1) && Constructed(s, size, maxBlock)
    ensures PowerSized(s)
  {
    hide Pow2;
    var count: nat, largest: nat :| Planned(size, maxBlock, count, largest)
      && EmptyRing(s.blocks, count, largest) && s == Built(maxBlock, largest, s.blocks);
    var p: nat :| PlannedWith(size, maxBlock, count, largest, p);
    assert IsBlockSize(maxBlock);
    if p <= 2 * maxBlock {
      var e: nat :| p == Pow2(e);
      assert p <= Pow2(W - 1);
      PowerFits(e);
      assert IsBlockSize(largest);
    }
  }

  /** In every run from construction every block size is a power of two. */
  lemma {:induction false} AlwaysPowerSized<T>(
    states: seq<State<T>>, actions: seq<Action<T>>, i: nat, size: nat, maxBlock: nat, k: nat)
    requires 1 <= k < W - 1 && maxBlock == Pow2(k) >= 2 && size < Pow2(W - 1)
    requires IsRun(states, actions) && i <= |actions| && Constructed(states[0], size, maxBlock)
    ensures |states| == |actions| + 1 && PowerSized(states[i])
  {
    if i > 0 {
      AlwaysPowerSized(states, actions, i - 1, size, maxBlock, k);
      assert Step(states[i - 1], actions[i - 1]) == Next(states[i]);
      StepKeepsPowerSized(states[i - 1], actions[i - 1]);
    } else {
      ConstructedIsPowerSized(states[0], size, maxBlock, k);
    }
  }

  lemma SizeOf<T>(s: State<T>, id: nat)
    requires PowerSized(s) && id < |s.blocks|
    ensures IsBlockSize(|s.blocks[id].data|)
  { }

  /**
    In every run from construction, for every block and all indices in it: where the
    machine takes the next index or a distance, masking the machine word gives the same.
   */
  lemma MasksAreRight<T>(
    states: seq<State<T>>, actions: seq<Action<T>>, i: nat, size: nat, maxBlock: nat, k: nat, id: nat, a: nat, b: nat)
    requires 1 <= k < W - 1 && maxBlock == Pow2(k) >= 2 && size < Pow2(W - 1)
    requires IsRun(states, actions) && i <= |actions| && Constructed(states[0], size, maxBlock)
    requires id < |states[i].blocks| && a < |states[i].blocks[id].data| && b < |states[i].blocks[id].data|
    ensures var n := |states[i].blocks[id].data|;
            And(a + 1, SizeMask(n)) == Inc(a, n) && And(Minus(b, a), SizeMask(n)) == Dist(a, b, n)
  {
    hide *;
    AlwaysPowerSized(states, actions, i, size, maxBlock, k);
    var n := |states[i].blocks[id].data|;
    SizeOf(states[i], id);
    MaskedInc(n, a);
    MaskedDist(n, a, b);
  }

  // ---------------------------------------------------------------- how much room there is

  /** Whether one block will do. */
  lemma OneBlock(size: nat, maxBlock: nat, k: nat, p: nat)
    requires maxBlock == Pow2(k) && IsCeilPow2(size + 1, p)
    ensures p > 2 * maxBlock <==> size >= 2 * maxBlock
  {
    assert Pow2(k + 1) == 2 * maxBlock;
    hide Pow2;
  }

  /** Enough blocks of the greatest size for `size` elements, and one more. */
  lemma ManyBlocks(size: nat, maxBlock: nat, n: nat)
    requires maxBlock >= 2 && n == (size + maxBlock * 2 - 3) / (maxBlock - 1) && size >= maxBlock
    ensures n >= 2 && (n - 2) * (maxBlock - 1) < size <= (n - 1) * (maxBlock - 1)
  {
    BlockCount(size, maxBlock, n);
    var q := maxBlock - 1;
    assert size + maxBlock * 2 - 3 == size + 2 * q - 1;
    var r := (size + maxBlock * 2 - 3) % q;
    assert size + 2 * q - 1 == n * q + r;
    assert (n - 2) * q == n * q - 2 * q;
  }

  /**
    How much a queue holds as constructed. Below twice the greatest block size it is one
    block, whose slots are the least power of two above `size`; from there on it is as few
    blocks of the greatest size as hold `size` elements, and one more.
   */
  lemma ConstructedCapacity<T>(s: State<T>, size: nat, maxBlock: nat, k: nat)
    requires k >= 1 && maxBlock == Pow2(k) >= 2 && 1 <= size < Pow2(W - 1) && Constructed(s, size, maxBlock)
    ensures Fresh(s)
    ensures size < 2 * maxBlock ==> |s.ring| == 1 && Capacity(s) >= 0 && IsCeilPow2(size + 1, Capacity(s) + 1)
    ensures size >= 2 * maxBlock ==>
      && Capacity(s) == |s.ring| * (maxBlock - 1)
      && (|s.ring| - 2) * (maxBlock - 1) < size <= (|s.ring| - 1) * (maxBlock - 1)
  {
    hide Pow2;
    hide IsCeilPow2;
    hide Fresh;
    var count: nat, largest: nat :| Planned(size, maxBlock, count, largest)
      && EmptyRing(s.blocks, count, largest) && s == Built(maxBlock, largest, s.blocks);
    PlanIsEnough(size, maxBlock, k, count, largest);
    BuiltIsFresh(maxBlock, largest, s.blocks, count);
    FreshBase(s);
    RingMaskUniform(s.blocks, s.ring, count, largest);
    var p: nat :| PlannedWith(size, maxBlock, count, largest, p);
    OneBlock(size, maxBlock, k, p);
    if p > 2 * maxBlock {
      ManyBlocks(size, maxBlock, count);
    }
  }

  lemma FreshBase<T>(s: State<T>)
    requires Fresh(s)
    ensures Base(s) && InRange(s.ring, |s.blocks|)
  { }

  /** The default queue, for 15 elements and blocks of at most 512 slots, holds exactly 15. */
  lemma DefaultCapacity<T>(s: State<T>)
    requires 512 == Pow2(9) && 15 < Pow2(W - 1) && Constructed(s, 15, 512)
    ensures Fresh(s) && Capacity(s) == 15
  {
    ConstructedCapacity(s, 15, 512, 9);
    var c := Capacity(s) + 1;
    assert Pow2(4) == 16;
    assert IsCeilPow2(16, c);
  }

  /** No block is larger than the last one allocated, and that is at most twice the greatest size. */
  ghost predicate Bounded<T>(s: State<T>) {
    && s.largest <= 2 * s.maxBlock
    && forall b :: 0 <= b < |s.blocks| ==> |s.blocks[b].data| <= s.largest
  }

  lemma StepKeepsBounded<T>(s: State<T>, a: Action<T>)
    requires Bounded(s) && Enabled(s, a) && Step(s, a).Next?
    ensures Bounded(Step(s, a).s)
    ensures var s' := Step(s, a).s;
            |s'.blocks| > |s.blocks| ==>
              var n := |s'.blocks[|s.blocks|].data|;
              && |s'.blocks| == |s.blocks| + 1 && n <= 2 * s.maxBlock
              && forall b :: 0 <= b < |s.blocks| ==>
                   |s.blocks[b].data| <= n && (n >= 2 * |s.blocks[b].data| || n >= s.maxBlock)
  {
    hide Step;
    StepSizes(s, a);
    hide Enabled;
  }

  lemma ConstructedIsBounded<T>(s: State<T>, size: nat, maxBlock: nat)
    requires maxBlock >= 2 && Constructed(s, size, maxBlock)
    ensures Bounded(s) && s.maxBlock == maxBlock
  {
    hide IsCeilPow2;
    hide Pow2;
  }

  lemma {:induction false} AlwaysBounded<T>(states: seq<State<T>>, actions: seq<Action<T>>, i: nat, size: nat, maxBlock: nat)
    requires maxBlock >= 2 && IsRun(states, actions) && i <= |actions| && Constructed(states[0], size, maxBlock)
    ensures |states| == |actions| + 1 && Bounded(states[i]) && states[i].maxBlock == maxBlock
  {
    hide *;
    RunLength(states, actions);
    if i == 0 {
      ConstructedIsBounded(states[0], size, maxBlock);
    } else {
      AlwaysBounded(states, actions, i - 1, size, maxBlock);
      RunAt(states, actions, i - 1);
      StepKeepsBounded(states[i - 1], actions[i - 1]);
      StepSizes(states[i - 1], actions[i - 1]);
    }
  }

  /**
    In every run from construction, a block added is at least as large as every block there
    is, and at least twice as large until blocks have the greatest size; none is ever more
    than twice that.
   */
  lemma NewBlocksDouble<T>(
    states: seq<State<T>>, actions: seq<Action<T>>, i: nat, size: nat, maxBlock: nat, b: nat)
    requires maxBlock >= 2 && IsRun(states, actions) && i < |actions| && Constructed(states[0], size, maxBlock)
    requires |states| == |actions| + 1 && |states[i + 1].blocks| > |states[i].blocks| && b < |states[i].blocks|
    ensures var n := |states[i + 1].blocks[|states[i].blocks|].data|;
            && |states[i].blocks[b].data| <= n <= 2 * maxBlock
            && (n >= 2 * |states[i].blocks[b].data| || n >= maxBlock)
  {
    hide *;
    AlwaysBounded(states, actions, i, size, maxBlock);
    RunAt(states, actions, i);
    StepKeepsBounded(states[i], actions[i]);
  }
}
