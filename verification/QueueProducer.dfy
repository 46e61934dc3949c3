/** Every step of the producer keeps the invariant and does one thing to the abstract queue. */
module QueueProducer {
  import opened Wrappers
  import opened Circular
  import opened SpscQueue
  import opened QueueInvariant
  import opened QueueBlocks
  import opened QueueRing

  /**
    What the consumer can count on while the producer runs. Once the tail has left the
    front block, that block's `tail` and `next` are frozen, and so is the element the
    consumer may be reading.
   */
  ghost predicate FrontFrozen<T>(s: State<T>, s': State<T>)
    requires Base(s) && Base(s')
  {
    var f, f' := s.blocks[s.frontBlock], s'.blocks[s'.frontBlock];
    && s'.c == s.c && s'.frontBlock == s.frontBlock && s'.removed == s.removed
    && s.k <= s'.k
    && f'.front == f.front && f'.localTail == f.localTail && |f'.data| == |f.data|
    && (f.Len() > 0 ==> f'.data[f.front] == f.data[f.front] && f'.Len() > 0)
    && (s.k > 0 ==>
          && f'.tail == f.tail && f'.next == f.next
          && s'.ring[1] == s.ring[1]
          && s'.blocks[s.ring[1]].front == s.blocks[s.ring[1]].front
          && s'.blocks[s.ring[1]].localTail == s.blocks[s.ring[1]].localTail)
  }

  lemma ConsumerUndisturbed<T>(s: State<T>, s': State<T>)
    requires Inv(s) && Base(s') && FrontFrozen(s, s')
    ensures ConsumerKnows(s')
  {
    ShadowsAreSound(s.blocks[s.frontBlock]);
  }

  /** The promise of one producer step. */
  ghost predicate ProducerDid<T>(s: State<T>, o: Outcome<T>)
    requires Base(s)
  {
    o.Next? && Base(o.s) && ProducerKnows(o.s) && FrontFrozen(s, o.s)
    && (if !s.p.PIdle? && o.s.p == PIdle(Accepted) then Enqueues(s, o.s, s.p.x) else Stutters(s, o.s))
  }

  lemma FrozenAfterTouch<T>(s: State<T>, s': State<T>, t: nat)
    requires Base(s) && Base(s') && Touches(s, s', t) && s'.c == s.c
    requires s'.blocks[t].localTail == s.blocks[t].localTail
    requires s.blocks[t].Len() > 0 ==> s'.blocks[t].data[s.blocks[t].front] == s.blocks[t].data[s.blocks[t].front]
    ensures FrontFrozen(s, s')
  { }

  /** Work on the allocated block is invisible until the block is linked. */
  lemma SpareStepKeeps<T>(s: State<T>, s': State<T>, t: nat)
    requires Base(s) && Spare(s.p) == Some(t) && Spare(s'.p) == Some(t)
    requires |s'.blocks| == |s.blocks| && s'.blocks == s.blocks[t := s'.blocks[t]]
    requires s' == s.(blocks := s'.blocks, p := s'.p)
    requires s'.blocks[t].Ok() && OnlyIn(Unpublished(s.p), t) && OnlyIn(Unpublished(s'.p), t)
    requires forall j :: 0 <= j < |s'.blocks[t].live| ==>
      (s'.blocks[t].live[j] <==>
       (s'.blocks[t].Holds(j) || Unpublished(s'.p) == Spot(t, j)) && Vacated(s.c) != Spot(t, j))
    ensures Base(s') && Stutters(s, s') && FrontFrozen(s, s')
  {
    hide Structure;
    hide Lifetimes;
    hide Contents;
    hide Covers;
    Basics(s);
    SpareStays(s, s', t);
  }

  lemma SpareStays<T>(s: State<T>, s': State<T>, t: nat)
    requires Base(s) && Spare(s.p) == Some(t) && t < |s'.blocks| == |s.blocks| && s'.blocks == s.blocks[t := s'.blocks[t]]
    requires s'.blocks[t].Ok() && OnlyIn(Unpublished(s.p), t) && OnlyIn(Unpublished(s'.p), t)
    requires forall j :: 0 <= j < |s'.blocks[t].live| ==>
      (s'.blocks[t].live[j] <==>
       (s'.blocks[t].Holds(j) || Unpublished(s'.p) == Spot(t, j)) && Vacated(s.c) != Spot(t, j))
    ensures Structure(s'.blocks, s.ring, s.k, false) && Contents(s'.blocks, s.ring, s.k + 1) == Abs(s)
    ensures Lifetimes(s'.blocks, Unpublished(s'.p), Vacated(s.c))
    ensures forall i :: 0 <= i < |s.ring| ==> s'.blocks[s.ring[i]] == s.blocks[s.ring[i]]
  {
    assert t !in s.ring && AllOk(s.blocks);
    assert forall i :: 0 <= i < |s.ring| ==> s.ring[i] != t;
    hide Structure;
    hide Lifetimes;
    hide Contents;
    TouchSpare(s.blocks, s.ring, s.k, false, t, s'.blocks[t]);
    TouchLifetimes(s.blocks, t, s'.blocks[t], Unpublished(s.p), Vacated(s.c), Unpublished(s'.p), Vacated(s.c));
  }

  lemma LoadTailBlockKeeps<T>(s: State<T>, granted: bool, raw: seq<T>)
    requires Inv(s) && s.p.PLoadTailBlock?
    ensures ProducerDid(s, ProducerNext(s, granted, raw))
  {
    Basics(s);
    hide Structure;
    hide Lifetimes;
    hide Covers;
    hide Contents;
  }

  lemma LoadTailKeeps<T>(s: State<T>, granted: bool, raw: seq<T>)
    requires Inv(s) && s.p.PLoadTail?
    ensures ProducerDid(s, ProducerNext(s, granted, raw))
  {
    ShadowsAreSound(s.blocks[s.tailBlock]);
    Basics(s);
    hide Structure;
    hide Lifetimes;
    hide Covers;
    hide Contents;
  }

  lemma LoadNextKeeps<T>(s: State<T>, granted: bool, raw: seq<T>)
    requires Inv(s) && s.p.PLoadNext?
    ensures ProducerDid(s, ProducerNext(s, granted, raw))
  {
    hide Structure;
    hide Lifetimes;
    hide Covers;
    hide Contents;
    Basics(s);
  }

  lemma LoadFrontBlockKeeps<T>(s: State<T>, granted: bool, raw: seq<T>)
    requires Inv(s) && s.p.PLoadFrontBlock?
    ensures ProducerDid(s, ProducerNext(s, granted, raw))
  {
    hide Structure;
    hide Lifetimes;
    hide Covers;
    hide Contents;
    Basics(s);
  }

  lemma LoadNextAgainKeeps<T>(s: State<T>, granted: bool, raw: seq<T>)
    requires Inv(s) && s.p.PLoadNextAgain?
    ensures ProducerDid(s, ProducerNext(s, granted, raw))
  {
    hide Structure;
    hide Lifetimes;
    hide Covers;
    hide Contents;
    Basics(s);
  }

  lemma LoadFrontKeeps<T>(s: State<T>, granted: bool, raw: seq<T>)
    requires Inv(s) && s.p.PLoadFront?
    ensures ProducerDid(s, ProducerNext(s, granted, raw))
  {
    Basics(s);
    var t := s.tailBlock;
    LivesAt(s, t);
    hide Structure;
    hide Lifetimes;
    hide Covers;
    hide Contents;
    var s' := ProducerNext(s, granted, raw).s;
    RefreshShadows(s.blocks[t]);
    BaseAfterTouch(s, s', t);
    FrozenAfterTouch(s, s', t);
  }

  lemma ConstructKeeps<T>(s: State<T>, granted: bool, raw: seq<T>)
    requires Inv(s) && s.p.PConstruct?
    ensures ProducerDid(s, ProducerNext(s, granted, raw))
  {
    hide Structure;
    hide Lifetimes;
    hide Covers;
    hide Contents;
    hide Base;
    hide Abs;
    hide FrontFrozen;
    Basics(s);
    var t := s.tailBlock;
    LivesAt(s, t);
    var s' := ProducerNext(s, granted, raw).s;
    ShadowsAreSound(s.blocks[t]);
    PlaceAtTail(s.blocks[t], s.p.x);
    BaseAfterTouch(s, s', t);
    FrozenAfterTouch(s, s', t);
  }

  /** The block that takes the element published by a store to its `tail`. */
  lemma StoreTailBase<T>(s: State<T>, granted: bool, raw: seq<T>)
    requires Inv(s) && s.p.PStoreTail?
    ensures var o := ProducerNext(s, granted, raw); o.Next? && Base(o.s) && Enqueues(s, o.s, s.p.x)
  {
    hide Lifetimes;
    hide Structure;
    hide Covers;
    hide Contents;
    var t := s.tailBlock;
    Basics(s);
    LivesAt(s, t);
    var b := s.blocks[t];
    var b' := b.(tail := Inc(b.tail, |b.data|));
    AdvanceTail(b);
    GrowTail(s.blocks, s.ring, s.k, b', s.p.x);
    TouchLifetimes(s.blocks, t, b', Unpublished(s.p), Vacated(s.c), NoSpot, Vacated(s.c));
  }

  lemma StoreTailKeeps<T>(s: State<T>, granted: bool, raw: seq<T>)
    requires Inv(s) && s.p.PStoreTail?
    ensures ProducerDid(s, ProducerNext(s, granted, raw))
  {
    hide Base;
    hide Abs;
    StoreTailBase(s, granted, raw);
    Basics(s);
    AdvanceTail(s.blocks[s.tailBlock]);
    var s' := ProducerNext(s, granted, raw).s;
    FrozenAfterGrowth(s, s', s.tailBlock, s'.blocks[s.tailBlock]);
  }

  /** Moving `tail` on in a block that is not a front block left behind. */
  lemma FrozenAfterGrowth<T>(s: State<T>, s': State<T>, t: nat, b': Block<T>)
    requires Base(s) && Base(s') && t < |s.blocks| && s'.blocks == s.blocks[t := b']
    requires b' == s.blocks[t].(tail := b'.tail) && b'.Ok() && b'.Len() > 0 && (t == s.frontBlock ==> s.k == 0)
    requires s'.ring == s.ring && s'.k == s.k && s'.frontBlock == s.frontBlock
    requires s'.c == s.c && s'.removed == s.removed
    ensures FrontFrozen(s, s')
  { }

  lemma LoadNextFrontKeeps<T>(s: State<T>, granted: bool, raw: seq<T>)
    requires Inv(s) && s.p.PLoadNextFront?
    ensures ProducerDid(s, ProducerNext(s, granted, raw))
  {
    hide Structure;
    hide Lifetimes;
    hide Covers;
    hide Contents;
    Basics(s);
    var t := s.p.nb;
    LivesAt(s, t);
    var s' := ProducerNext(s, granted, raw).s;
    RefreshShadows(s.blocks[t]);
    BaseAfterTouch(s, s', t);
    FrozenAfterTouch(s, s', t);
  }

  lemma LoadNextTailKeeps<T>(s: State<T>, granted: bool, raw: seq<T>)
    requires Inv(s) && s.p.PLoadNextTail?
    ensures ProducerDid(s, ProducerNext(s, granted, raw))
  {
    Basics(s);
    hide Structure;
    hide Lifetimes;
    hide Covers;
    hide Contents;
    assert s.blocks[s.p.nb].(localFront := s.p.nf) == s.blocks[s.p.nb];
    assert s.blocks[s.p.nb := s.blocks[s.p.nb]] == s.blocks;
  }

  lemma ConstructNextKeeps<T>(s: State<T>, granted: bool, raw: seq<T>)
    requires Inv(s) && s.p.PConstructNext?
    ensures ProducerDid(s, ProducerNext(s, granted, raw))
  {
    hide Structure;
    hide Lifetimes;
    hide Covers;
    hide Contents;
    Basics(s);
    var t := s.p.nb;
    LivesAt(s, t);
    var s' := ProducerNext(s, granted, raw).s;
    PlaceAtTail(s.blocks[t], s.p.x);
    BaseAfterTouch(s, s', t);
    FrozenAfterTouch(s, s', t);
  }

  lemma NextIsEmpty<T>(s: State<T>)
    requires Base(s) && s.k + 1 < |s.ring| && !s.p.PStoreTailBlock?
    ensures s.ring[s.k + 1] < |s.blocks| && s.blocks[s.ring[s.k + 1]].Ok() && s.blocks[s.ring[s.k + 1]].Len() == 0
    ensures s.blocks[s.ring[s.k + 1]].Items() == []
  { }

  lemma StoreNextTailBase<T>(s: State<T>, granted: bool, raw: seq<T>)
    requires Inv(s) && s.p.PStoreNextTail?
    ensures var o := ProducerNext(s, granted, raw);
            && o.Next? && Base(o.s) && Stutters(s, o.s)
            && s.p.nb < |o.s.blocks| && o.s.blocks[s.p.nb].Ok() && o.s.blocks[s.p.nb].Items() == [s.p.x]
  {
    hide Contents;
    var t := s.p.nb;
    Basics(s);
    LivesAt(s, t);
    NextIsEmpty(s);
    var b := s.blocks[t];
    var b' := b.(tail := Inc(b.tail, |b.data|));
    AdvanceTail(b);
    assert ProducerNext(s, granted, raw) == Next(s.(blocks := s.blocks[t := b'], p := PStoreTailBlock(s.p.x, t)));
    hide ProducerNext;
    hide Lifetimes;
    hide Structure;
    hide Covers;
    FillNext(s.blocks, s.ring, s.k, b', s.p.x);
    TouchLifetimes(s.blocks, t, b', Unpublished(s.p), Vacated(s.c), NoSpot, Vacated(s.c));
  }

  lemma StoreNextTailKeeps<T>(s: State<T>, granted: bool, raw: seq<T>)
    requires Inv(s) && s.p.PStoreNextTail?
    ensures ProducerDid(s, ProducerNext(s, granted, raw))
  {
    StoreNextTailBase(s, granted, raw);
    Basics(s);
    var t := s.p.nb;
    var b' := s.blocks[t].(tail := Inc(s.blocks[t].tail, |s.blocks[t].data|));
    assert ProducerNext(s, granted, raw) == Next(s.(blocks := s.blocks[t := b'], p := PStoreTailBlock(s.p.x, t)));
    assert TailFull(s) && s.k + 1 < |s.ring| && t == s.ring[s.k + 1];
    assert |b'.Items()| == 1;
    hide ProducerNext;
    hide Base;
    hide Abs;
    FrozenAfterGrowth(s, s.(blocks := s.blocks[t := b'], p := PStoreTailBlock(s.p.x, t)), t, b');
  }

  lemma MakeBlockKeeps<T>(s: State<T>, granted: bool, raw: seq<T>)
    requires Inv(s) && s.p.PMakeBlock?
    requires granted ==> |raw| == NewBlockSize(s)
    ensures ProducerDid(s, ProducerNext(s, granted, raw))
  {
    if granted {
      MakeBlockGranted(s, raw);
    }
  }

  lemma MakeBlockBase<T>(s: State<T>, raw: seq<T>)
    requires Inv(s) && s.p.PMakeBlock? && |raw| == NewBlockSize(s)
    ensures var o := ProducerNext(s, true, raw); o.Next? && Base(o.s) && Stutters(s, o.s)
  {
    hide Contents;
    hide Lifetimes;
    hide Structure;
    Basics(s);
    NewBlockLifetimes(s.blocks, raw, Vacated(s.c));
    assert ProducerNext(s, true, raw) == Next(s.(blocks := s.blocks + [NewBlock(raw)], largest := NewBlockSize(s),
                                                p := PConstructNew(s.p.x, s.p.tb, |s.blocks|)));
    hide ProducerNext;
    TouchSpare(s.blocks, s.ring, s.k, false, |s.blocks|, NewBlock(raw));
  }

  lemma MakeBlockGranted<T>(s: State<T>, raw: seq<T>)
    requires Inv(s) && s.p.PMakeBlock? && |raw| == NewBlockSize(s)
    ensures ProducerDid(s, ProducerNext(s, true, raw))
  {
    hide Abs;
    hide Base;
    MakeBlockBase(s, raw);
    Basics(s);
    assert ProducerNext(s, true, raw) == Next(s.(blocks := s.blocks + [NewBlock(raw)], largest := NewBlockSize(s),
                                                p := PConstructNew(s.p.x, s.p.tb, |s.blocks|)));
    hide ProducerNext;
  }

  lemma NewBlockLifetimes<T>(blocks: seq<Block<T>>, raw: seq<T>, vacated: Spot)
    requires AllOk(blocks) && Lifetimes(blocks, NoSpot, vacated) && |raw| >= 2
    requires vacated.Spot? ==> vacated.b < |blocks|
    ensures AllOk(blocks + [NewBlock(raw)]) && Lifetimes(blocks + [NewBlock(raw)], NoSpot, vacated)
  { }

  lemma ConstructNewKeeps<T>(s: State<T>, granted: bool, raw: seq<T>)
    requires Inv(s) && s.p.PConstructNew?
    ensures ProducerDid(s, ProducerNext(s, granted, raw))
  {
    PlaceAtTail(s.blocks[s.p.nb], s.p.x);
    SpareStepKeeps(s, ProducerNext(s, granted, raw).s, s.p.nb);
  }

  lemma StoreNewTailKeeps<T>(s: State<T>, granted: bool, raw: seq<T>)
    requires Inv(s) && s.p.PStoreNewTail?
    ensures ProducerDid(s, ProducerNext(s, granted, raw))
  {
    var s' := ProducerNext(s, granted, raw).s;
    assert s'.blocks[s.p.nb].Items() == [s.p.x];
    SpareStepKeeps(s, s', s.p.nb);
  }

  lemma StoreNewNextKeeps<T>(s: State<T>, granted: bool, raw: seq<T>)
    requires Inv(s) && s.p.PStoreNewNext?
    ensures ProducerDid(s, ProducerNext(s, granted, raw))
  {
    var s' := ProducerNext(s, granted, raw).s;
    assert s'.blocks[s.p.nb].Items() == s.blocks[s.p.nb].Items();
    SpareStepKeeps(s, s', s.p.nb);
  }

  /** The state once the new block has been linked in. */
  function Linked<T>(s: State<T>): State<T>
    requires s.p.PLinkNew? && s.tailBlock < |s.blocks|
  {
    s.(blocks := s.blocks[s.tailBlock := s.blocks[s.tailBlock].(next := s.p.nb)],
       p := PStoreTailBlock(s.p.x, s.p.nb), ring := InsertAfter(s.ring, s.k, s.p.nb))
  }

  /** The block about to be linked is not in the ring. */
  lemma SpareIsNew<T>(s: State<T>)
    requires Base(s) && Spare(s.p).Some?
    ensures Spare(s.p).value !in s.ring && Spare(s.p).value + 1 == |s.blocks| && Distinct(s.ring) && InRange(s.ring, |s.blocks|)
    ensures AllOk(s.blocks)
  { }

  lemma LinkedStructure<T>(s: State<T>)
    requires Inv(s) && s.p.PLinkNew?
    ensures s.tailBlock < |s.blocks|
    ensures var s' := Linked(s);
            && Structure(s'.blocks, s'.ring, s'.k, true)
            && Contents(s'.blocks, s'.ring, s'.k + 1) == Contents(s.blocks, s.ring, s.k + 1)
  {
    Basics(s);
    SpareIsNew(s);
    assert |s.blocks[s.p.nb].Items()| == 1;
    assert s.blocks[s.p.nb].next == s.blocks[s.tailBlock].next;
    hide Lifetimes;
    hide Contents;
    hide Covers;
    LinkAfterTail(s.blocks, s.ring, s.k, s.p.nb);
  }

  lemma LinkedLifetimes<T>(s: State<T>)
    requires Inv(s) && s.p.PLinkNew?
    ensures s.tailBlock < |s.blocks|
    ensures AllOk(Linked(s).blocks) && Lifetimes(Linked(s).blocks, NoSpot, Vacated(s.c))
  {
    Basics(s);
    LivesAt(s, s.tailBlock);
    SpareIsNew(s);
    hide Structure;
    hide Lifetimes;
    TouchLifetimes(s.blocks, s.tailBlock, Linked(s).blocks[s.tailBlock], NoSpot, Vacated(s.c), NoSpot, Vacated(s.c));
  }

  lemma LinkNewBase<T>(s: State<T>)
    requires Inv(s) && s.p.PLinkNew?
    ensures s.tailBlock < |s.blocks|
    ensures var s' := Linked(s);
            && Base(s') && Stutters(s, s') && s.k + 1 < |s'.ring| && s'.ring[s.k + 1] == s.p.nb
            && forall i :: 0 <= i <= s.k ==> s'.ring[i] == s.ring[i]
  {
    hide Structure;
    hide Lifetimes;
    hide Contents;
    hide Covers;
    hide Distinct;
    hide InRange;
    hide InsertAfter;
    LinkedStructure(s);
    LinkedLifetimes(s);
    SpareIsNew(s);
    Basics(s);
    InsertPlaces(s.ring, s.k, s.p.nb, |s.blocks|);
    InsertCovers(s.ring, s.k, s.p.nb, |s.blocks|);
  }

  lemma LinkNewKeeps<T>(s: State<T>, granted: bool, raw: seq<T>)
    requires Inv(s) && s.p.PLinkNew?
    ensures ProducerDid(s, ProducerNext(s, granted, raw))
  {
    hide Abs;
    hide Base;
    hide InsertAfter;
    hide FrontFrozen;
    LinkNewBase(s);
    Basics(s);
    assert ProducerNext(s, granted, raw) == Next(Linked(s));
    FrozenAfterLink(s);
    hide ProducerNext;
  }

  lemma FrozenAfterLink<T>(s: State<T>)
    requires Base(s) && s.p.PLinkNew? && s.tailBlock < |s.blocks| && Base(Linked(s))
    requires forall i :: 0 <= i <= s.k ==> i < |Linked(s).ring| && Linked(s).ring[i] == s.ring[i]
    ensures FrontFrozen(s, Linked(s))
  {
    Basics(s);
    hide Base;
    hide InsertAfter;
  }

  lemma StoreTailBlockBase<T>(s: State<T>)
    requires Inv(s) && s.p.PStoreTailBlock?
    ensures var s' := ProducerNext(s, false, []).s; Base(s') && Enqueues(s, s', s.p.x)
  {
    hide Structure;
    hide Lifetimes;
    hide Covers;
    hide Contents;
    AdvanceTailBlock(s.blocks, s.ring, s.k);
  }

  lemma StoreTailBlockKeeps<T>(s: State<T>, granted: bool, raw: seq<T>)
    requires Inv(s) && s.p.PStoreTailBlock?
    ensures ProducerDid(s, ProducerNext(s, granted, raw))
  {
    hide Base;
    hide Abs;
    StoreTailBlockBase(s);
    Basics(s);
  }
}
