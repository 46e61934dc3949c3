/** What the single updates of the two threads do to one block. */
module QueueBlocks {
  import opened Circular
  import opened SpscQueue
  import opened QueueInvariant

  lemma ShadowsAreSound<T>(b: Block<T>)
    requires b.Ok()
    ensures b.HasRoom() ==> !Full(b)
    ensures b.HasItem() ==> b.Len() > 0
    ensures b.Len() == Dist(b.front, b.localTail, |b.data|) + Dist(b.localTail, b.tail, |b.data|)
  { }

  /** Constructing in the slot at `tail` changes neither the indices nor the elements. */
  lemma PlaceAtTail<T>(b: Block<T>, x: T)
    requires b.Ok() && b.HasRoom()
    ensures var b' := Place(b, b.tail, x);
            b'.Ok() && b'.Items() == b.Items() && b'.data[b'.tail] == x
    ensures !b.Holds(b.tail)
  { }

  lemma AdvanceTail<T>(b: Block<T>)
    requires b.Ok() && b.HasRoom()
    ensures var b' := b.(tail := Inc(b.tail, |b.data|));
            && b'.Ok() && b'.Items() == b.Items() + [b.data[b.tail]]
            && forall j :: 0 <= j < |b.data| ==> (b'.Holds(j) <==> b.Holds(j) || j == b.tail)
  { }

  lemma AdvanceFront<T>(b: Block<T>)
    requires b.Ok() && b.HasItem()
    ensures var b' := b.(front := Inc(b.front, |b.data|));
            && b'.Ok() && b.Items() == [b.data[b.front]] + b'.Items()
            && forall j :: 0 <= j < |b.data| ==> (b'.Holds(j) <==> b.Holds(j) && j != b.front)
  { }

  lemma RefreshShadows<T>(b: Block<T>)
    requires b.Ok()
    ensures var b' := b.(localFront := b.front); b'.Ok() && b'.Items() == b.Items() && (b'.HasRoom() <==> !Full(b))
    ensures var b' := b.(localTail := b.tail); b'.Ok() && b'.Items() == b.Items() && (b'.HasItem() <==> b.Len() > 0)
  { }
}

/** What the updates of one block, or of the ring, do to the whole structure. */
module QueueRing {
  import opened Wrappers
  import opened SpscQueue
  import opened QueueInvariant

  /** Equal elements block by block make equal contents. */
  lemma {:induction false} ContentsFrame<T>(
    blocks: seq<Block<T>>, ring: seq<nat>, blocks': seq<Block<T>>, ring': seq<nat>, m: nat)
    requires AllOk(blocks) && AllOk(blocks') && InRange(ring, |blocks|) && InRange(ring', |blocks'|)
    requires m <= |ring| && m <= |ring'|
    requires forall i :: 0 <= i < m ==> blocks'[ring'[i]].Items() == blocks[ring[i]].Items()
    ensures Contents(blocks', ring', m) == Contents(blocks, ring, m)
  {
    if m > 0 {
      ContentsFrame(blocks, ring, blocks', ring', m - 1);
    }
  }

  /** Same ends and successor: the block plays the same part in the ring. */
  ghost predicate SameEnds<T>(b: Block<T>, b': Block<T>) {
    b'.front == b.front && b'.tail == b.tail && b'.next == b.next && |b'.data| == |b.data|
  }

  /** An update that keeps the ends and the elements of one block. */
  lemma TouchBlock<T>(blocks: seq<Block<T>>, ring: seq<nat>, k: nat, publishing: bool, t: nat, b': Block<T>)
    requires Structure(blocks, ring, k, publishing) && t < |blocks|
    requires b'.Ok() && SameEnds(blocks[t], b') && b'.Items() == blocks[t].Items()
    ensures Structure(blocks[t := b'], ring, k, publishing)
    ensures Contents(blocks[t := b'], ring, k + 1) == Contents(blocks, ring, k + 1)
  {
    StructureTouched(blocks, ring, k, publishing, t, b');
    assert AllOk(blocks) && InRange(ring, |blocks|);
    hide Structure;
    ContentsFrame(blocks, ring, blocks[t := b'], ring, k + 1);
  }

  lemma StructureTouched<T>(blocks: seq<Block<T>>, ring: seq<nat>, k: nat, publishing: bool, t: nat, b': Block<T>)
    requires Structure(blocks, ring, k, publishing) && t < |blocks|
    requires b'.Ok() && SameEnds(blocks[t], b') && b'.Items() == blocks[t].Items()
    ensures AllOk(blocks[t := b']) && Structure(blocks[t := b'], ring, k, publishing)
  {
    assert b'.Len() == |b'.Items()| == blocks[t].Len();
  }

  /** An update of one block, and of the slots in flight, that keeps lifetimes right. */
  lemma TouchLifetimes<T>(blocks: seq<Block<T>>, t: nat, b': Block<T>,
                          unpublished: Spot, vacated: Spot, unpublished': Spot, vacated': Spot)
    requires AllOk(blocks) && Lifetimes(blocks, unpublished, vacated) && t < |blocks| && b'.Ok()
    requires forall j :: 0 <= j < |b'.live| ==>
      (b'.live[j] <==> (b'.Holds(j) || unpublished' == Spot(t, j)) && vacated' != Spot(t, j))
    requires unpublished' == unpublished || (OnlyIn(unpublished, t) && OnlyIn(unpublished', t))
    requires vacated' == vacated || (OnlyIn(vacated, t) && OnlyIn(vacated', t))
    ensures AllOk(blocks[t := b']) && Lifetimes(blocks[t := b'], unpublished', vacated')
  {
    forall b, j | 0 <= b < |blocks| && 0 <= j < |blocks[t := b'][b].live|
      ensures blocks[t := b'][b].live[j] <==>
        (blocks[t := b'][b].Holds(j) || unpublished' == Spot(b, j)) && vacated' != Spot(b, j)
    {
      if b != t {
        assert blocks[t := b'][b] == blocks[b];
      }
    }
  }

  ghost predicate OnlyIn(spot: Spot, t: nat) {
    spot.Spot? ==> spot.b == t
  }

  /** One more element at the end of the tail block. */
  lemma GrowTail<T>(blocks: seq<Block<T>>, ring: seq<nat>, k: nat, b': Block<T>, x: T)
    requires Structure(blocks, ring, k, false)
    requires b'.Ok() && b'.next == blocks[ring[k]].next
    requires b'.Items() == blocks[ring[k]].Items() + [x]
    ensures Structure(blocks[ring[k] := b'], ring, k, false)
    ensures Contents(blocks[ring[k] := b'], ring, k + 1) == Contents(blocks, ring, k + 1) + [x]
  {
    assert |b'.Items()| == b'.Len();
    ContentsFrame(blocks, ring, blocks[ring[k] := b'], ring, k);
  }

  /** The first element of the empty block after the tail, not yet part of the queue. */
  lemma FillNext<T>(blocks: seq<Block<T>>, ring: seq<nat>, k: nat, b': Block<T>, x: T)
    requires Structure(blocks, ring, k, false) && k + 1 < |ring|
    requires b'.Ok() && b'.next == blocks[ring[k + 1]].next && b'.Items() == [x]
    ensures Structure(blocks[ring[k + 1] := b'], ring, k, true)
    ensures Contents(blocks[ring[k + 1] := b'], ring, k + 1) == Contents(blocks, ring, k + 1)
  {
    assert |b'.Items()| == b'.Len();
    ContentsFrame(blocks, ring, blocks[ring[k + 1] := b'], ring, k + 1);
  }

  /** The tail moves on to the block that has been filled ahead of it. */
  lemma AdvanceTailBlock<T>(blocks: seq<Block<T>>, ring: seq<nat>, k: nat)
    requires Structure(blocks, ring, k, true) && k + 1 < |ring|
    requires k > 0 ==> Full(blocks[ring[k]])
    ensures Structure(blocks, ring, k + 1, false)
    ensures Contents(blocks, ring, k + 2) == Contents(blocks, ring, k + 1) + blocks[ring[k + 1]].Items()
  { }

  /** A block outside the ring changes, or comes into being. */
  lemma TouchSpare<T>(blocks: seq<Block<T>>, ring: seq<nat>, k: nat, publishing: bool, t: nat, b': Block<T>)
    requires Structure(blocks, ring, k, publishing) && t <= |blocks| && t !in ring && b'.Ok()
    ensures var blocks' := if t < |blocks| then blocks[t := b'] else blocks + [b'];
            && Structure(blocks', ring, k, publishing)
            && Contents(blocks', ring, k + 1) == Contents(blocks, ring, k + 1)
  {
    var blocks' := if t < |blocks| then blocks[t := b'] else blocks + [b'];
    assert AllOk(blocks) && k < |ring| && InRange(ring, |blocks|);
    hide Structure;
    hide Contents;
    SpareElsewhere(blocks, ring, t, b');
    StructureFrame(blocks, ring, k, publishing, blocks');
    ContentsFrame(blocks, ring, blocks', ring, k + 1);
  }

  lemma SpareElsewhere<T>(blocks: seq<Block<T>>, ring: seq<nat>, t: nat, b': Block<T>)
    requires AllOk(blocks) && InRange(ring, |blocks|) && t <= |blocks| && t !in ring && b'.Ok()
    ensures var blocks' := if t < |blocks| then blocks[t := b'] else blocks + [b'];
            && AllOk(blocks') && InRange(ring, |blocks'|)
            && forall i :: 0 <= i < |ring| ==> blocks'[ring[i]] == blocks[ring[i]]
  { }

  lemma StructureFrame<T>(blocks: seq<Block<T>>, ring: seq<nat>, k: nat, publishing: bool, blocks': seq<Block<T>>)
    requires Structure(blocks, ring, k, publishing) && AllOk(blocks') && |blocks| <= |blocks'|
    requires forall i :: 0 <= i < |ring| ==> blocks'[ring[i]] == blocks[ring[i]]
    ensures Structure(blocks', ring, k, publishing)
  { }

  lemma InsertPlaces(ring: seq<nat>, k: nat, nb: nat, count: nat)
    requires k < |ring| && Distinct(ring) && InRange(ring, count) && nb < count && nb !in ring
    ensures var ring' := InsertAfter(ring, k, nb);
            && |ring'| == |ring| + 1 && Distinct(ring') && InRange(ring', count)
            && (forall i :: 0 <= i <= k ==> ring'[i] == ring[i])
            && ring'[k + 1] == nb
            && (forall i :: k + 1 < i < |ring'| ==> ring'[i] == ring[i - 1])
  { }

  lemma InsertCovers(ring: seq<nat>, k: nat, nb: nat, count: nat)
    requires k < |ring| && Covers(count, ring, Some(nb))
    ensures Covers(count, InsertAfter(ring, k, nb), None)
  {
    var ring' := InsertAfter(ring, k, nb);
    assert ring'[k + 1] == nb;
    forall b | 0 <= b < count && b != nb
      ensures b in ring'
    {
      assert b in ring;
      var i :| 0 <= i < |ring| && ring[i] == b;
      assert ring'[if i <= k then i else i + 1] == b;
    }
  }

  lemma InsertLinks<T>(blocks: seq<Block<T>>, ring: seq<nat>, k: nat, nb: nat)
    requires k < |ring| && Distinct(ring) && InRange(ring, |blocks|) && Linked(blocks, ring)
    requires nb < |blocks| && nb !in ring && blocks[nb].next == blocks[ring[k]].next
    ensures var ring' := InsertAfter(ring, k, nb);
            InRange(ring', |blocks|) && Linked(blocks[ring[k] := blocks[ring[k]].(next := nb)], ring')
  {
    InsertPlaces(ring, k, nb, |blocks|);
    var ring' := InsertAfter(ring, k, nb);
    var blocks' := blocks[ring[k] := blocks[ring[k]].(next := nb)];
    forall i | 0 <= i < |ring'|
      ensures blocks'[ring'[i]].next == ring'[if i + 1 < |ring'| then i + 1 else 0]
    {
      if i < k {
        assert blocks'[ring'[i]] == blocks[ring[i]];
      } else if i > k + 1 {
        assert blocks'[ring'[i]] == blocks[ring[i - 1]];
      }
    }
  }

  /** A block with one element is linked in after the tail. */
  lemma LinkAfterTail<T>(blocks: seq<Block<T>>, ring: seq<nat>, k: nat, nb: nat)
    requires Structure(blocks, ring, k, false) && nb < |blocks| && nb !in ring
    requires blocks[nb].Len() == 1 && blocks[nb].next == blocks[ring[k]].next
    ensures var blocks' := blocks[ring[k] := blocks[ring[k]].(next := nb)];
            && Structure(blocks', InsertAfter(ring, k, nb), k, true)
            && Contents(blocks', InsertAfter(ring, k, nb), k + 1) == Contents(blocks, ring, k + 1)
  {
    hide Filled;
    hide Linked;
    hide Contents;
    hide Distinct;
    hide InsertAfter;
    var b' := blocks[ring[k]].(next := nb);
    var blocks' := blocks[ring[k] := b'];
    var ring' := InsertAfter(ring, k, nb);
    assert AllOk(blocks) && k < |ring| && InRange(ring, |blocks|) && Distinct(ring) && Linked(blocks, ring)
        && Filled(blocks, ring, k, false);
    InsertPlaces(ring, k, nb, |blocks|);
    InsertLinks(blocks, ring, k, nb);
    InsertBlocks(blocks, ring, k, nb);
    InsertFilled(blocks, ring, blocks', ring', k, nb);
    ContentsFrame(blocks, ring, blocks', ring', k + 1);
  }

  /** The blocks before and behind the new one are what they were. */
  lemma InsertBlocks<T>(blocks: seq<Block<T>>, ring: seq<nat>, k: nat, nb: nat)
    requires AllOk(blocks) && InRange(ring, |blocks|) && Distinct(ring) && k < |ring| && nb < |blocks| && nb !in ring
    ensures var blocks', ring' := blocks[ring[k] := blocks[ring[k]].(next := nb)], InsertAfter(ring, k, nb);
            && |ring'| == |ring| + 1 && InRange(ring', |blocks'|) && AllOk(blocks')
            && ring'[k] == ring[k] && ring'[k + 1] == nb && blocks'[nb] == blocks[nb]
            && (forall i :: 0 <= i < k ==> blocks'[ring'[i]] == blocks[ring[i]])
            && (forall i :: k + 1 < i < |ring'| ==> blocks'[ring'[i]] == blocks[ring[i - 1]])
            && blocks'[ring[k]].Items() == blocks[ring[k]].Items() && blocks'[ring[k]].Len() == blocks[ring[k]].Len()
  {
    InsertPlaces(ring, k, nb, |blocks|);
  }

  lemma InsertFilled<T>(blocks: seq<Block<T>>, ring: seq<nat>, blocks': seq<Block<T>>, ring': seq<nat>, k: nat, nb: nat)
    requires AllOk(blocks) && AllOk(blocks') && InRange(ring, |blocks|) && InRange(ring', |blocks'|)
    requires k < |ring| && |ring'| == |ring| + 1 && Filled(blocks, ring, k, false)
    requires forall i :: 0 <= i < k ==> blocks'[ring'[i]] == blocks[ring[i]]
    requires blocks'[ring'[k]].Len() == blocks[ring[k]].Len() && ring'[k + 1] == nb && blocks'[nb].Len() == 1
    requires forall i :: k + 1 < i < |ring'| ==> blocks'[ring'[i]] == blocks[ring[i - 1]]
    ensures Filled(blocks', ring', k, true)
  { }

  /** What steps need of the ring's shape, without the shape itself. */
  lemma Basics<T>(s: State<T>)
    requires Base(s)
    ensures s.k < |s.ring| && s.frontBlock == s.ring[0] && s.tailBlock == s.ring[s.k]
    ensures forall i :: 0 <= i < |s.ring| ==> s.ring[i] < |s.blocks|
    ensures forall b :: 0 <= b < |s.blocks| ==> s.blocks[b].Ok()
    ensures s.blocks[s.tailBlock].next == s.ring[if s.k + 1 < |s.ring| then s.k + 1 else 0]
    ensures s.k > 0 ==> s.blocks[s.frontBlock].next == s.ring[1] && s.ring[1] != s.frontBlock && s.tailBlock != s.frontBlock
    ensures s.k + 1 < |s.ring| ==> s.ring[s.k + 1] != s.tailBlock && s.ring[s.k + 1] != s.frontBlock
    ensures Spare(s.p).Some? ==> Spare(s.p).value < |s.blocks| && Spare(s.p).value !in s.ring
  { }

  /** The block after the front one holds an element, if the tail is that far. */
  lemma NextHolds<T>(s: State<T>)
    requires Base(s) && s.k > 0
    ensures 1 < |s.ring| && s.ring[1] < |s.blocks| && s.blocks[s.ring[1]].Ok() && s.blocks[s.ring[1]].Len() >= 1
    ensures s.k + 1 < |s.ring| ==> s.ring[1] != s.ring[s.k + 1]
  { }

  /** The lifetimes of the slots of one block. */
  lemma LivesAt<T>(s: State<T>, t: nat)
    requires Base(s) && t < |s.blocks|
    ensures |s.blocks[t].live| == |s.blocks[t].data|
    ensures forall j :: 0 <= j < |s.blocks[t].live| ==>
      (s.blocks[t].live[j] <==>
       (s.blocks[t].Holds(j) || Unpublished(s.p) == Spot(t, j)) && Vacated(s.c) != Spot(t, j))
  { }

  /** A step of either thread that only rewrites one block without moving its ends. */
  ghost predicate Touches<T>(s: State<T>, s': State<T>, t: nat)
    requires Base(s)
  {
    && t < |s.blocks| && |s'.blocks| == |s.blocks| && s'.blocks == s.blocks[t := s'.blocks[t]]
    && s' == s.(blocks := s'.blocks, p := s'.p, c := s'.c)
    && s'.blocks[t].Ok() && SameEnds(s.blocks[t], s'.blocks[t])
    && s'.blocks[t].Items() == s.blocks[t].Items()
    && s'.p.PStoreTailBlock? == s.p.PStoreTailBlock? && Spare(s'.p) == Spare(s.p)
  }

  lemma BaseAfterTouch<T>(s: State<T>, s': State<T>, t: nat)
    requires Base(s) && Touches(s, s', t)
    requires forall j :: 0 <= j < |s'.blocks[t].live| ==>
      (s'.blocks[t].live[j] <==>
       (s'.blocks[t].Holds(j) || Unpublished(s'.p) == Spot(t, j)) && Vacated(s'.c) != Spot(t, j))
    requires Unpublished(s'.p) == Unpublished(s.p) || (OnlyIn(Unpublished(s.p), t) && OnlyIn(Unpublished(s'.p), t))
    requires Vacated(s'.c) == Vacated(s.c) || (OnlyIn(Vacated(s.c), t) && OnlyIn(Vacated(s'.c), t))
    ensures Base(s') && Abs(s') == Abs(s)
  {
    TouchBlock(s.blocks, s.ring, s.k, s.p.PStoreTailBlock?, t, s'.blocks[t]);
    TouchLifetimes(s.blocks, t, s'.blocks[t], Unpublished(s.p), Vacated(s.c), Unpublished(s'.p), Vacated(s'.c));
  }

  /** The oldest element leaves the front block. */
  lemma ShrinkFront<T>(blocks: seq<Block<T>>, ring: seq<nat>, k: nat, publishing: bool, b': Block<T>, x: T)
    requires Structure(blocks, ring, k, publishing)
    requires b'.Ok() && b'.next == blocks[ring[0]].next
    requires blocks[ring[0]].Items() == [x] + b'.Items()
    ensures Structure(blocks[ring[0] := b'], ring, k, publishing)
    ensures Contents(blocks, ring, k + 1) == [x] + Contents(blocks[ring[0] := b'], ring, k + 1)
  {
    ShrinkContents(blocks, ring, b', x, k + 1);
  }

  lemma NoContents<T>(blocks: seq<Block<T>>, ring: seq<nat>)
    requires AllOk(blocks) && InRange(ring, |blocks|)
    ensures Contents(blocks, ring, 0) == []
  { }

  lemma ContentsOne<T>(blocks: seq<Block<T>>, ring: seq<nat>, m: nat)
    requires AllOk(blocks) && InRange(ring, |blocks|) && 0 < m <= |ring|
    ensures ring[m - 1] < |blocks| && blocks[ring[m - 1]].Ok()
    ensures Contents(blocks, ring, m) == Contents(blocks, ring, m - 1) + blocks[ring[m - 1]].Items()
  { }

  lemma OthersKept<T>(blocks: seq<Block<T>>, ring: seq<nat>, b': Block<T>, m: nat)
    requires AllOk(blocks) && InRange(ring, |blocks|) && Distinct(ring) && 0 < m <= |ring| && b'.Ok()
    ensures AllOk(blocks[ring[0] := b']) && InRange(ring, |blocks[ring[0] := b']|)
    ensures blocks[ring[0] := b'][ring[m - 1]] == if m == 1 then b' else blocks[ring[m - 1]]
  { }

  lemma {:induction false} ShrinkContents<T>(blocks: seq<Block<T>>, ring: seq<nat>, b': Block<T>, x: T, m: nat)
    requires AllOk(blocks) && InRange(ring, |blocks|) && Distinct(ring) && 0 < m <= |ring|
    requires b'.Ok() && blocks[ring[0]].Items() == [x] + b'.Items()
    ensures AllOk(blocks[ring[0] := b'])
    ensures Contents(blocks, ring, m) == [x] + Contents(blocks[ring[0] := b'], ring, m)
  {
    hide *;
    OthersKept(blocks, ring, b', m);
    if m == 1 {
      ShrinkFirst(blocks, ring, b', x);
    } else {
      ShrinkContents(blocks, ring, b', x, m - 1);
      ShrinkNext(blocks, ring, b', x, m);
    }
  }

  lemma ShrinkFirst<T>(blocks: seq<Block<T>>, ring: seq<nat>, b': Block<T>, x: T)
    requires AllOk(blocks) && InRange(ring, |blocks|) && ring != []
    requires b'.Ok() && blocks[ring[0]].Items() == [x] + b'.Items()
    ensures AllOk(blocks[ring[0] := b'])
    ensures Contents(blocks, ring, 1) == [x] + Contents(blocks[ring[0] := b'], ring, 1)
  {
    var blocks' := blocks[ring[0] := b'];
    ContentsOne(blocks, ring, 1);
    ContentsOne(blocks', ring, 1);
    NoContents(blocks, ring);
    NoContents(blocks', ring);
    hide Contents;
  }

  lemma ShrinkNext<T>(blocks: seq<Block<T>>, ring: seq<nat>, b': Block<T>, x: T, m: nat)
    requires AllOk(blocks) && InRange(ring, |blocks|) && Distinct(ring) && 1 < m <= |ring| && b'.Ok()
    requires AllOk(blocks[ring[0] := b'])
    requires Contents(blocks, ring, m - 1) == [x] + Contents(blocks[ring[0] := b'], ring, m - 1)
    ensures Contents(blocks, ring, m) == [x] + Contents(blocks[ring[0] := b'], ring, m)
  {
    var blocks' := blocks[ring[0] := b'];
    OthersKept(blocks, ring, b', m);
    ContentsOne(blocks, ring, m);
    ContentsOne(blocks', ring, m);
    hide *;
    var c, last := Contents(blocks', ring, m - 1), blocks[ring[m - 1]].Items();
    assert ([x] + c) + last == [x] + (c + last);
  }

  lemma RotatePlaces<T>(blocks: seq<Block<T>>, ring: seq<nat>)
    requires ring != [] && Distinct(ring) && InRange(ring, |blocks|) && Linked(blocks, ring)
    ensures var ring' := Rotate(ring);
            && |ring'| == |ring| && Distinct(ring') && InRange(ring', |blocks|) && Linked(blocks, ring')
            && (forall i :: 0 <= i < |ring| - 1 ==> ring'[i] == ring[i + 1])
            && ring'[|ring| - 1] == ring[0]
            && (forall b :: b in ring ==> b in ring')
  {
    var ring' := Rotate(ring);
    forall b | b in ring
      ensures b in ring'
    {
      var i :| 0 <= i < |ring| && ring[i] == b;
      assert ring'[if i == 0 then |ring| - 1 else i - 1] == b;
    }
    forall i | 0 <= i < |ring'|
      ensures blocks[ring'[i]].next == ring'[if i + 1 < |ring'| then i + 1 else 0]
    {
      assert ring'[i] == ring[if i + 1 < |ring| then i + 1 else 0];
    }
  }

  lemma RotatedAt(ring: seq<nat>, m: nat)
    requires m < |ring|
    ensures |Rotate(ring)| == |ring| && (m > 0 ==> Rotate(ring)[m - 1] == ring[m])
  { }

  /** Dropping an empty front block from the arc drops no element. */
  lemma {:induction false} RotateContents<T>(blocks: seq<Block<T>>, ring: seq<nat>, m: nat)
    requires AllOk(blocks) && InRange(ring, |blocks|) && m < |ring| && blocks[ring[0]].Len() == 0
    requires InRange(Rotate(ring), |blocks|)
    ensures Contents(blocks, Rotate(ring), m) == Contents(blocks, ring, m + 1)
  {
    RotatedAt(ring, m);
    ContentsOne(blocks, ring, m + 1);
    if m > 0 {
      ContentsOne(blocks, Rotate(ring), m);
      RotateContents(blocks, ring, m - 1);
    } else {
      NoContents(blocks, Rotate(ring));
      assert |blocks[ring[0]].Items()| == 0;
    }
    hide *;
  }

  /** The consumer moves on from an empty front block. */
  lemma RotateRing<T>(blocks: seq<Block<T>>, ring: seq<nat>, k: nat, publishing: bool)
    requires Structure(blocks, ring, k, publishing) && k > 0 && blocks[ring[0]].Len() == 0
    requires publishing ==> k + 1 < |ring|
    ensures Structure(blocks, Rotate(ring), k - 1, publishing)
    ensures Contents(blocks, Rotate(ring), k) == Contents(blocks, ring, k + 1)
  {
    hide Linked;
    hide Contents;
    RotatePlaces(blocks, ring);
    RotateContents(blocks, ring, k);
  }
}
