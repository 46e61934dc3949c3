/** Facts about a queue at rest: as built, as measured, and as destroyed. */
module QueueLifecycle {
  import opened Words
  import opened QueueArithmetic
  import opened Circular
  import opened SpscQueue
  import opened QueueInvariant
  import opened QueueRuns
  import opened QueueCapacity

  /** `n` empty blocks of `largest` slots, each linked to the next and the last to the first. */
  ghost predicate EmptyRing<T>(blocks: seq<Block<T>>, n: nat, largest: nat) {
    && |blocks| == n
    && forall i :: 0 <= i < n ==>
         && |blocks[i].data| == |blocks[i].live| == largest
         && blocks[i].front == blocks[i].tail == blocks[i].localFront == blocks[i].localTail == 0
         && blocks[i].next == (if i + 1 < n then i + 1 else 0)
         && forall j :: 0 <= j < largest ==> !blocks[i].live[j]
  }

  function Built<T>(maxBlock: nat, largest: nat, blocks: seq<Block<T>>): State<T> {
    State(maxBlock, largest, blocks, 0, 0, PIdle(NotEnqueued), CIdle(NotDequeued),
          [], [], seq(|blocks|, i => i), 0)
  }

  lemma {:induction false} RingMaskUniform<T>(blocks: seq<Block<T>>, ring: seq<nat>, m: nat, largest: nat)
    requires InRange(ring, |blocks|) && m <= |ring|
    requires forall b :: 0 <= b < |blocks| ==> |blocks[b].data| == largest
    ensures RingMask(blocks, ring, m) == m * (largest - 1)
  {
    if m > 0 {
      RingMaskUniform(blocks, ring, m - 1, largest);
    }
  }

  lemma BuiltIsFresh<T>(maxBlock: nat, largest: nat, blocks: seq<Block<T>>, n: nat)
    requires n >= 1 && largest >= 2 && EmptyRing(blocks, n, largest)
    ensures Fresh(Built(maxBlock, largest, blocks))
  {
    var s := Built(maxBlock, largest, blocks);
    forall b | 0 <= b < n
      ensures b in s.ring
    {
      assert s.ring[b] == b;
    }
    ContentsEmpty(blocks, s.ring, 1);
  }

  /** One block large enough, or one block more than it takes. */
  lemma BuiltIsRoomy<T>(maxBlock: nat, largest: nat, blocks: seq<Block<T>>, n: nat, size: nat)
    requires n >= 1 && largest >= 2 && EmptyRing(blocks, n, largest)
    requires if n == 1 then largest - 1 >= size else (n - 1) * (largest - 1) >= size
    ensures Base(Built(maxBlock, largest, blocks)) && Roomy(Built(maxBlock, largest, blocks), size)
  {
    BuiltIsFresh(maxBlock, largest, blocks, n);
    var s := Built(maxBlock, largest, blocks);
    RingMaskUniform(blocks, s.ring, n, largest);
    assert n * (largest - 1) == (n - 1) * (largest - 1) + (largest - 1);
  }

  /** The block count of the constructor is one more than enough blocks for `size`. */
  lemma BlockCount(size: nat, maxBlock: nat, n: nat)
    requires maxBlock >= 2 && n == (size + maxBlock * 2 - 3) / (maxBlock - 1) && size >= maxBlock
    ensures n >= 2 && (n - 1) * (maxBlock - 1) >= size
  {
    var q := maxBlock - 1;
    assert size + maxBlock * 2 - 3 == (size + q - 1) + q;
    var r := (size + maxBlock * 2 - 3) % q;
    assert size + 2 * q - 1 == n * q + r;
    assert (n - 1) * q == n * q - q;
  }

  /** What the constructor decides, `p` being `ceilToPow2(size + 1)`, which wraps to 0 from `2^63` on. */
  ghost predicate PlannedWith(size: nat, maxBlock: nat, count: nat, largest: nat, p: nat)
    requires maxBlock >= 2
  {
    && (if size < Pow2(W - 1) then IsCeilPow2(size + 1, p) else p == 0)
    && if p > maxBlock * 2 then
         count == (size + maxBlock * 2 - 3) / (maxBlock - 1) && largest == maxBlock
       else
         count == 1 && largest == p
  }

  ghost predicate Planned(size: nat, maxBlock: nat, count: nat, largest: nat)
    requires maxBlock >= 2
  {
    exists p: nat :: PlannedWith(size, maxBlock, count, largest, p)
  }

  /** A queue as constructed for `size` elements. */
  ghost predicate Constructed<T>(s: State<T>, size: nat, maxBlock: nat)
    requires maxBlock >= 2
  {
    exists count: nat, largest: nat :: Planned(size, maxBlock, count, largest)
      && EmptyRing(s.blocks, count, largest) && s == Built(maxBlock, largest, s.blocks)
  }

  lemma PlanIsEnough(size: nat, maxBlock: nat, k: nat, count: nat, largest: nat)
    requires k >= 1 && maxBlock == Pow2(k) >= 2 && Planned(size, maxBlock, count, largest)
    ensures size == 0 ==> count == largest == 1
    ensures size >= Pow2(W - 1) ==> count == 1 && largest == 0
    ensures 1 <= size < Pow2(W - 1) ==> count >= 1 && largest >= 2
    ensures 1 <= size < Pow2(W - 1) ==> if count == 1 then largest - 1 >= size else (count - 1) * (largest - 1) >= size
  {
    SmallPowers();
    Pow2Monotone(0, W - 1);
    hide Pow2;
    var p: nat :| PlannedWith(size, maxBlock, count, largest, p);
    if p > 2 * maxBlock {
      Pow2Adds(1, k);
      BlockCount(size, maxBlock, count);
    }
  }

  method PlanBlocks(size: nat, maxBlock: nat, ghost k: nat) returns (count: nat, largest: nat)
    requires 1 <= k < W - 1 && maxBlock == Pow2(k) && size < Pow2(W)
    ensures maxBlock >= 2 && Planned(size, maxBlock, count, largest)
  {
    hide Pow2;
    Pow2Adds(1, W - 1);
    Pow2Monotone(1, k);
    SmallPowers();
    var p := CeilToPow2(if size + 1 == Pow2(W) then 0 else size + 1);
    if p > maxBlock * 2 {
      count := (size + maxBlock * 2 - 3) / (maxBlock - 1);
      largest := maxBlock;
    } else {
      count, largest := 1, p;
    }
    assert PlannedWith(size, maxBlock, count, largest, p);
  }

  method BuildRing<T>(count: nat, largest: nat, junk: (nat, nat) -> T) returns (ring: seq<Block<T>>)
    ensures EmptyRing(ring, count, largest)
  {
    ring := [];
    for i := 0 to count
      invariant EmptyRing(ring, i, largest)
    {
      var block := NewBlock(seq(largest, j requires 0 <= j < largest => junk(i, j)));
      if i > 0 {
        ring := ring[i - 1 := ring[i - 1].(next := i)];
      }
      ring := ring + [block.(next := 0)];
    }
  }

  /** What a walk of the ring has passed after `i` blocks: elements and usable slots. */
  ghost function Passed<T>(s: State<T>, i: nat): seq<T>
    requires Base(s) && i <= |s.ring|
  {
    Contents(s.blocks, s.ring, i)
  }

  ghost function PassedSlots<T>(s: State<T>, i: nat): int
    requires Base(s) && i <= |s.ring|
  {
    RingMask(s.blocks, s.ring, i)
  }

  /** Blocks outside the arc hold nothing, so walking the whole ring collects the queue. */
  lemma {:induction false} WholeRing<T>(s: State<T>, m: nat)
    requires Base(s) && !s.p.PStoreTailBlock? && s.k < m <= |s.ring|
    ensures Passed(s, m) == Abs(s)
  {
    if m > s.k + 1 {
      WholeRing(s, m - 1);
    }
  }

  /** One step of a walk; `next` comes back to the front block exactly after the last one. */
  lemma WalkRing<T>(s: State<T>, i: nat)
    requires Base(s) && i < |s.ring|
    ensures var id := s.ring[i];
            && id < |s.blocks| && s.blocks[id].Ok() && id !in s.ring[..i]
            && Passed(s, i + 1) == Passed(s, i) + s.blocks[id].Items()
            && PassedSlots(s, i + 1) == PassedSlots(s, i) + |s.blocks[id].data| - 1
            && if i + 1 < |s.ring| then s.blocks[id].next == s.ring[i + 1] != s.frontBlock
               else s.blocks[id].next == s.frontBlock
  { }

  lemma RoomAtRest<T>(s: State<T>, size: nat)
    requires Base(s) && Roomy(s, size) && Spare(s.p).None?
    ensures size <= PassedSlots(s, |s.ring|)
  { }

  lemma RingStart<T>(s: State<T>)
    requires Base(s)
    ensures |s.ring| > 0 && s.frontBlock == s.ring[0] && s.k < |s.ring|
    ensures Passed(s, 0) == [] && PassedSlots(s, 0) == 0
    ensures Distinct(s.ring) && (Spare(s.p).None? ==> forall b :: 0 <= b < |s.blocks| ==> b in s.ring)
  { }

  /** Once both threads are idle the live slots are exactly those of the elements. */
  ghost predicate AtRest<T>(b: Block<T>) {
    b.Ok() && forall j :: 0 <= j < |b.live| ==> (b.live[j] <==> b.Holds(j))
  }

  lemma IdleAtRest<T>(s: State<T>, b: nat)
    requires Base(s) && s.p.PIdle? && s.c.CIdle? && b < |s.blocks|
    ensures AtRest(s.blocks[b])
  { }

  ghost predicate AllDead<T>(b: Block<T>) {
    forall j :: 0 <= j < |b.live| ==> !b.live[j]
  }

  /** How far the loop has come: the elements before `i` are dead, `i` is `d` steps after `front`. */
  ghost predicate Destroyed<T>(b0: Block<T>, b: Block<T>, destroyed: seq<T>, i: nat, d: nat)
    requires b0.Ok()
  {
    && b == b0.(live := b.live) && |b.live| == |b0.live| && d <= b0.Len()
    && i == (if d < b0.Len() then Ahead(b0.front, d, |b0.data|) else b0.tail)
    && destroyed == b0.Items()[..d]
    && forall j :: 0 <= j < |b.live| ==> (b.live[j] <==> d <= Dist(b0.front, j, |b0.data|) < b0.Len())
  }

  lemma DestroyNext<T>(b0: Block<T>, b: Block<T>, destroyed: seq<T>, i: nat, d: nat)
    requires AtRest(b0) && Destroyed(b0, b, destroyed, i, d) && d < b0.Len()
    ensures i < |b.live| == |b.data| && b.live[i] && i != b.tail
    ensures Destroyed(b0, Kill(b, i), destroyed + [b.data[i]], Inc(i, |b.data|), d + 1)
  {
    assert b0.Items()[d] == b.data[i];
  }

  /** The destructor's inner loop: from `front` to `tail`, each element once, oldest first. */
  method DestroyElements<T>(b0: Block<T>) returns (b: Block<T>, destroyed: seq<T>)
    requires AtRest(b0) && IsBlockSize(|b0.data|)
    ensures destroyed == b0.Items() && AllDead(b) && b.next == b0.next
  {
    b := b0;
    destroyed := [];
    var i := b.front;
    ghost var d := 0;
    while i != b.tail
      invariant Destroyed(b0, b, destroyed, i, d)
      decreases b0.Len() - d
    {
      DestroyNext(b0, b, destroyed, i, d);
      MaskedInc(|b.data|, i);
      hide And;
      hide SizeMask;
      destroyed := destroyed + [b.data[i]];
      b := Kill(b, i);
      i := And(i + 1, SizeMask(|b.data|));
      d := d + 1;
    }
    assert d == b0.Len();
  }
}
