/** Every step of the consumer keeps the invariant and does one thing to the abstract queue. */
module QueueConsumer {
  import opened Circular
  import opened SpscQueue
  import opened QueueInvariant
  import opened QueueBlocks
  import opened QueueRing

  /**
    What the producer can count on while the consumer runs: the tail block stays the
    tail, full if it was and not the consumer's, and the block after it stays free.
   */
  ghost predicate TailFrozen<T>(s: State<T>, s': State<T>)
    requires Base(s) && Base(s')
  {
    var t, t' := s.blocks[s.tailBlock], s'.blocks[s'.tailBlock];
    && s'.p == s.p && s'.tailBlock == s.tailBlock && s'.accepted == s.accepted
    && s'.largest == s.largest && s'.maxBlock == s.maxBlock
    && |s'.blocks| == |s.blocks| && |s'.ring| == |s.ring| && s'.k <= s.k
    && t'.tail == t.tail && t'.next == t.next && t'.localFront == t.localFront && t'.data == t.data
    && (s'.k > 0 ==> t'.Len() == t.Len())
    && (s.k + 1 < |s.ring| ==>
          && s'.ring[s'.k + 1] == s.ring[s.k + 1]
          && s'.blocks[s.ring[s.k + 1]] == s.blocks[s.ring[s.k + 1]])
    && (Spare(s.p).Some? ==> s'.blocks[Spare(s.p).value] == s.blocks[Spare(s.p).value])
  }

  lemma ProducerUndisturbed<T>(s: State<T>, s': State<T>)
    requires Inv(s) && Base(s') && TailFrozen(s, s')
    ensures ProducerKnows(s')
  { }

  /** The promise of one consumer step. */
  ghost predicate ConsumerDid<T>(s: State<T>, o: Outcome<T>)
    requires Base(s)
  {
    o.Next? && Base(o.s) && ConsumerKnows(o.s) && TailFrozen(s, o.s)
    && (if !s.c.CIdle? && o.s.c.CIdle? && o.s.c.answer.Removed?
        then Dequeues(s, o.s, o.s.c.answer.result)
        else Stutters(s, o.s))
  }

  lemma FrozenAfterTouch<T>(s: State<T>, s': State<T>, t: nat)
    requires Base(s) && Base(s') && Touches(s, s', t) && s'.p == s.p
    requires s'.blocks[t].localFront == s.blocks[t].localFront && s'.blocks[t].data == s.blocks[t].data
    requires t in s.ring && (s.k + 1 < |s.ring| ==> t != s.ring[s.k + 1])
    ensures TailFrozen(s, s')
  { }

  /** A step that changes nothing but what the consumer is about to do. */
  lemma MovesOn<T>(s: State<T>, c: Consumer<T>)
    requires Base(s) && Vacated(c) == Vacated(s.c)
    ensures var s' := s.(c := c); Base(s') && Stutters(s, s') && TailFrozen(s, s')
  {
    Basics(s);
    hide Structure;
    hide Lifetimes;
    hide Covers;
    hide Contents;
  }

  lemma LoadFrontBlockKeeps<T>(s: State<T>)
    requires Inv(s) && s.c.CLoadFrontBlock?
    ensures ConsumerDid(s, ConsumerNext(s))
  {
    Basics(s);
    hide Structure;
    hide Lifetimes;
    hide Covers;
    hide Contents;
  }

  /** The consumer has found an element in its front block. */
  lemma FoundKnows<T>(s: State<T>, op: Operation)
    requires Base(s) && s.c == Found(op, s.frontBlock, s.blocks[s.frontBlock].front)
    requires s.blocks[s.frontBlock].HasItem() && s.blocks[s.frontBlock].Len() > 0
    ensures ConsumerKnows(s)
  {
    hide Base;
  }

  lemma LoadFrontKeeps<T>(s: State<T>)
    requires Inv(s) && s.c.CLoadFront?
    ensures ConsumerDid(s, ConsumerNext(s))
  {
    Basics(s);
    ShadowsAreSound(s.blocks[s.frontBlock]);
    var b, op := s.blocks[s.frontBlock], s.c.op;
    var c := if b.front != b.localTail then Found(op, s.frontBlock, b.front) else CLoadTail(op, s.frontBlock, b.front);
    assert ConsumerNext(s) == Next(s.(c := c)) && Vacated(c) == Vacated(s.c);
    MovesOn(s, c);
    if b.front != b.localTail {
      FoundKnows(s.(c := c), op);
    }
    hide Base;
    hide Abs;
    hide TailFrozen;
    hide Found;
    hide ConsumerNext;
  }

  lemma LoadTailBlockKeeps<T>(s: State<T>)
    requires Inv(s) && s.c.CLoadTailBlock?
    ensures ConsumerDid(s, ConsumerNext(s))
  {
    hide Structure;
    hide Lifetimes;
    hide Covers;
    hide Contents;
    Basics(s);
  }

  lemma ReloadFrontBlockKeeps<T>(s: State<T>)
    requires Inv(s) && s.c.CReloadFrontBlock?
    ensures ConsumerDid(s, ConsumerNext(s))
  {
    Basics(s);
    hide Structure;
    hide Lifetimes;
    hide Covers;
    hide Contents;
  }

  lemma ReloadFrontKeeps<T>(s: State<T>)
    requires Inv(s) && s.c.CReloadFront?
    ensures ConsumerDid(s, ConsumerNext(s))
  {
    hide Base;
    hide Abs;
    hide TailFrozen;
    hide ProducerKnows;
    Basics(s);
    ShadowsAreSound(s.blocks[s.frontBlock]);
    var s' := ConsumerNext(s).s;
    MovesOn(s, s'.c);
  }

  lemma LoadNextKeeps<T>(s: State<T>)
    requires Inv(s) && s.c.CLoadNext?
    ensures ConsumerDid(s, ConsumerNext(s))
  {
    hide Structure;
    hide Lifetimes;
    hide Covers;
    hide Contents;
    Basics(s);
  }

  lemma LoadNextFrontKeeps<T>(s: State<T>)
    requires Inv(s) && s.c.CLoadNextFront?
    ensures ConsumerDid(s, ConsumerNext(s))
  {
    hide Structure;
    hide Lifetimes;
    hide Covers;
    hide Contents;
    Basics(s);
  }

  lemma ReadKeeps<T>(s: State<T>)
    requires Inv(s) && s.c.CRead?
    ensures ConsumerDid(s, ConsumerNext(s))
  {
    hide Base;
    hide Abs;
    hide TailFrozen;
    hide ProducerKnows;
    Basics(s);
    LivesAt(s, s.frontBlock);
    var s' := ConsumerNext(s).s;
    MovesOn(s, s'.c);
  }

  lemma LoadTailKeeps<T>(s: State<T>)
    requires Inv(s) && s.c.CLoadTail?
    ensures ConsumerDid(s, ConsumerNext(s))
  {
    hide Structure;
    hide Lifetimes;
    hide Covers;
    hide Contents;
    hide Base;
    hide Abs;
    hide TailFrozen;
    hide ProducerKnows;
    Basics(s);
    var t := s.frontBlock;
    LivesAt(s, t);
    var s' := ConsumerNext(s).s;
    RefreshShadows(s.blocks[t]);
    BaseAfterTouch(s, s', t);
    FrozenAfterTouch(s, s', t);
  }

  lemma ReloadTailKeeps<T>(s: State<T>)
    requires Inv(s) && s.c.CReloadTail?
    ensures ConsumerDid(s, ConsumerNext(s))
  {
    hide Structure;
    hide Lifetimes;
    hide Covers;
    hide Contents;
    hide Base;
    hide Abs;
    hide TailFrozen;
    hide ProducerKnows;
    Basics(s);
    var t := s.frontBlock;
    LivesAt(s, t);
    var s' := ConsumerNext(s).s;
    RefreshShadows(s.blocks[t]);
    BaseAfterTouch(s, s', t);
    FrozenAfterTouch(s, s', t);
  }

  lemma PeekNextKeeps<T>(s: State<T>)
    requires Inv(s) && s.c.CLoadNextTail? && s.c.op == Peek
    ensures ConsumerDid(s, ConsumerNext(s))
  {
    hide Structure;
    hide Lifetimes;
    hide Covers;
    hide Contents;
    Basics(s);
    NextHolds(s);
  }

  lemma TakeNextKeeps<T>(s: State<T>)
    requires Inv(s) && s.c.CLoadNextTail? && s.c.op != Peek
    ensures ConsumerDid(s, ConsumerNext(s))
  {
    hide Structure;
    hide Lifetimes;
    hide Covers;
    hide Contents;
    hide Base;
    hide Abs;
    hide TailFrozen;
    hide ProducerKnows;
    Basics(s);
    NextHolds(s);
    var t := s.c.nb;
    LivesAt(s, t);
    var s' := ConsumerNext(s).s;
    RefreshShadows(s.blocks[t]);
    BaseAfterTouch(s, s', t);
    FrozenAfterTouch(s, s', t);
  }

  lemma LoadNextTailKeeps<T>(s: State<T>)
    requires Inv(s) && s.c.CLoadNextTail?
    ensures ConsumerDid(s, ConsumerNext(s))
  {
    if s.c.op == Peek {
      PeekNextKeeps(s);
    } else {
      TakeNextKeeps(s);
    }
  }

  lemma DestroyBase<T>(s: State<T>)
    requires Inv(s) && s.c.CDestroy?
    ensures var o := ConsumerNext(s); o.Next? && Base(o.s) && Abs(o.s) == Abs(s) && Touches(s, o.s, s.frontBlock)
  {
    hide Structure;
    hide Lifetimes;
    hide Covers;
    hide Contents;
    hide Base;
    hide Abs;
    hide ProducerKnows;
    Basics(s);
    LivesAt(s, s.frontBlock);
    ShadowsAreSound(s.blocks[s.frontBlock]);
    BaseAfterTouch(s, ConsumerNext(s).s, s.frontBlock);
  }

  lemma DestroyKeeps<T>(s: State<T>)
    requires Inv(s) && s.c.CDestroy?
    ensures ConsumerDid(s, ConsumerNext(s))
  {
    hide Base;
    hide Abs;
    hide TailFrozen;
    hide ProducerKnows;
    Basics(s);
    DestroyBase(s);
    FrozenAfterTouch(s, ConsumerNext(s).s, s.frontBlock);
  }

  lemma RotatedStructure<T>(s: State<T>)
    requires Inv(s) && s.c.CStoreFrontBlock?
    ensures Structure(s.blocks, Rotate(s.ring), s.k - 1, s.p.PStoreTailBlock?)
    ensures Contents(s.blocks, Rotate(s.ring), s.k) == Contents(s.blocks, s.ring, s.k + 1)
  {
    Basics(s);
    assert s.blocks[s.ring[0]].Len() == 0 && s.k > 0;
    assert s.p.PStoreTailBlock? ==> s.k + 1 < |s.ring|;
    hide Lifetimes;
    hide Covers;
    hide Contents;
    hide Rotate;
    RotateRing(s.blocks, s.ring, s.k, s.p.PStoreTailBlock?);
  }

  lemma RotatedCovers<T>(s: State<T>)
    requires Inv(s) && s.c.CStoreFrontBlock?
    ensures |Rotate(s.ring)| == |s.ring| && (forall i :: 0 <= i < |s.ring| - 1 ==> Rotate(s.ring)[i] == s.ring[i + 1])
    ensures Covers(|s.blocks|, Rotate(s.ring), Spare(s.p))
  {
    RotatePlaces(s.blocks, s.ring);
    hide Lifetimes;
    hide Contents;
    hide Filled;
  }

  lemma StoreFrontBlockBase<T>(s: State<T>)
    requires Inv(s) && s.c.CStoreFrontBlock?
    ensures var s' := ConsumerNext(s).s;
            && Base(s') && Stutters(s, s')
            && |s'.ring| == |s.ring| && forall i :: 0 <= i < |s.ring| - 1 ==> s'.ring[i] == s.ring[i + 1]
  {
    hide ConsumerNext;
    hide Found;
    hide Structure;
    hide Lifetimes;
    hide Covers;
    hide Contents;
    hide Rotate;
    Basics(s);
    RotatedStructure(s);
    RotatedCovers(s);
    FrontBlockStored(s);
  }

  lemma FrontBlockStored<T>(s: State<T>)
    requires Inv(s) && s.c.CStoreFrontBlock?
    ensures s.k > 0 && s.k < |s.ring| && s.c.nb == s.ring[1]
    ensures ConsumerNext(s) == Next(s.(frontBlock := s.c.nb, c := Found(s.c.op, s.c.nb, s.c.nf), ring := Rotate(s.ring),
                                       k := s.k - 1))
    ensures Vacated<T>(Found(s.c.op, s.c.nb, s.c.nf)) == Vacated(s.c)
  {
    Basics(s);
  }

  lemma StoreFrontBlockKeeps<T>(s: State<T>)
    requires Inv(s) && s.c.CStoreFrontBlock?
    ensures ConsumerDid(s, ConsumerNext(s))
  {
    hide Rotate;
    hide Abs;
    hide ConsumerNext;
    hide Base;
    hide ProducerKnows;
    StoreFrontBlockBase(s);
    NextHolds(s);
    FrontBlockStored(s);
    Basics(s);
  }

  lemma TakenStructure<T>(s: State<T>, b': Block<T>)
    requires Inv(s) && s.c.CStoreFront?
    requires var b := s.blocks[s.frontBlock]; b' == b.(front := Inc(b.front, |b.data|))
    ensures var b, blocks' := s.blocks[s.frontBlock], s.blocks[s.frontBlock := b'];
            && b.front < |b.data| && b'.Ok()
            && Structure(blocks', s.ring, s.k, s.p.PStoreTailBlock?)
            && Contents(s.blocks, s.ring, s.k + 1) == [b.data[b.front]] + Contents(blocks', s.ring, s.k + 1)
  {
    AdvanceFront(s.blocks[s.frontBlock]);
    var b := s.blocks[s.frontBlock];
    assert b.Items() == [b.data[b.front]] + b'.Items() && s.ring[0] == s.frontBlock;
    hide Lifetimes;
    hide Covers;
    hide Contents;
    ShrinkFront(s.blocks, s.ring, s.k, s.p.PStoreTailBlock?, b', b.data[b.front]);
  }

  lemma TakenLifetimes<T>(s: State<T>, b': Block<T>)
    requires Inv(s) && s.c.CStoreFront?
    requires var b := s.blocks[s.frontBlock]; b' == b.(front := Inc(b.front, |b.data|))
    ensures var blocks' := s.blocks[s.frontBlock := b']; AllOk(blocks') && Lifetimes(blocks', Unpublished(s.p), NoSpot)
  {
    LivesAt(s, s.frontBlock);
    AdvanceFront(s.blocks[s.frontBlock]);
    hide Structure;
    hide Lifetimes;
    hide Contents;
    TouchLifetimes(s.blocks, s.frontBlock, b', Unpublished(s.p), Vacated(s.c), Unpublished(s.p), NoSpot);
  }

  lemma StoreFrontBase<T>(s: State<T>)
    requires Inv(s) && s.c.CStoreFront?
    ensures var o := ConsumerNext(s); o.Next? && Base(o.s) && Dequeues(s, o.s, s.c.got)
  {
    LivesAt(s, s.frontBlock);
    var b := s.blocks[s.frontBlock];
    var b' := b.(front := Inc(b.front, |b.data|));
    TakenStructure(s, b');
    TakenLifetimes(s, b');
    assert ConsumerNext(s) == Next(s.(blocks := s.blocks[s.frontBlock := b'], removed := s.removed + [b.data[b.front]],
                                      c := CIdle(Removed(s.c.got))));
    hide ConsumerNext;
    hide Structure;
    hide Lifetimes;
    hide Contents;
    hide Covers;
  }

  lemma StoreFrontKeeps<T>(s: State<T>)
    requires Inv(s) && s.c.CStoreFront?
    ensures ConsumerDid(s, ConsumerNext(s))
  {
    StoreFrontBase(s);
  }
}
