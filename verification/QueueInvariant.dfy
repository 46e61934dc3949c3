/**
  What holds in every state of the queue machine, whatever the interleaving.
 */
module QueueInvariant {
  import opened Wrappers
  import opened SpscQueue

  ghost predicate AllOk<T>(blocks: seq<Block<T>>) {
    forall b :: 0 <= b < |blocks| ==> blocks[b].Ok()
  }

  ghost predicate InRange(ring: seq<nat>, count: nat) {
    forall i :: 0 <= i < |ring| ==> ring[i] < count
  }

  ghost predicate Distinct(ring: seq<nat>) {
    forall i, j :: 0 <= i < j < |ring| ==> ring[i] != ring[j]
  }

  ghost predicate Linked<T>(blocks: seq<Block<T>>, ring: seq<nat>)
    requires InRange(ring, |blocks|)
  {
    forall i :: 0 <= i < |ring| ==>
                  blocks[ring[i]].next == ring[if i + 1 < |ring| then i + 1 else 0]
  }

  /** The block allocated by the producer and not yet linked into the ring. */
  function Spare<T>(p: Producer<T>): Option<nat> {
    match p
    case PConstructNew(_, _, nb) => Some(nb)
    case PStoreNewTail(_, _, nb) => Some(nb)
    case PStoreNewNext(_, _, nb) => Some(nb)
    case PLinkNew(_, _, nb) => Some(nb)
    case _ => None
  }

  ghost predicate Covers(count: nat, ring: seq<nat>, spare: Option<nat>) {
    && (forall b :: 0 <= b < count ==> b in ring || spare == Some(b))
    && (spare.Some? ==> spare.value + 1 == count && spare.value !in ring)
  }

  ghost predicate Full<T>(b: Block<T>)
    requires b.Ok()
  {
    b.Len() == b.Mask()
  }

  /**
    Blocks strictly between front and tail are full, every block after the front one up
    to the tail is non-empty, and all others are empty, except that between filling the
    block after the tail and storing `tailBlock` the producer has one element in it.
   */
  ghost predicate Filled<T>(blocks: seq<Block<T>>, ring: seq<nat>, k: nat, publishing: bool)
    requires AllOk(blocks) && InRange(ring, |blocks|)
  {
    && (forall i :: 0 < i < k && i < |ring| ==> Full(blocks[ring[i]]))
    && (0 < k < |ring| ==> blocks[ring[k]].Len() >= 1)
    && (forall i :: k < i < |ring| ==>
                      blocks[ring[i]].Len() == if i == k + 1 && publishing then 1 else 0)
  }

  /** The blocks form one ring, filled as it should be with the tail at position `k`. */
  ghost predicate Structure<T>(blocks: seq<Block<T>>, ring: seq<nat>, k: nat, publishing: bool) {
    && AllOk(blocks)
    && k < |ring| && InRange(ring, |blocks|) && Distinct(ring) && Linked(blocks, ring)
    && Filled(blocks, ring, k, publishing)
  }

  /** Slot `j` of block `b`: one that the code of one thread is in the middle of using. */
  datatype Spot = NoSpot | Spot(b: nat, j: nat)

  /** The slot where the producer has constructed an element it has not yet published. */
  function Unpublished<T>(p: Producer<T>): Spot {
    match p
    case PStoreTail(_, tb, bt) => Spot(tb, bt)
    case PStoreNextTail(_, nb, nt) => Spot(nb, nt)
    case PStoreNewTail(_, _, nb) => Spot(nb, 0)
    case _ => NoSpot
  }

  /** The slot whose element the consumer has destroyed without having moved `front` yet. */
  function Vacated<T>(c: Consumer<T>): Spot {
    match c
    case CStoreFront(_, fb, bf, _) => Spot(fb, bf)
    case _ => NoSpot
  }

  /** Exactly the slots of the arcs are alive, up to the two slots in flight. */
  ghost predicate Lifetimes<T>(blocks: seq<Block<T>>, unpublished: Spot, vacated: Spot)
    requires AllOk(blocks)
  {
    forall b, j :: 0 <= b < |blocks| && 0 <= j < |blocks[b].live| ==>
      (blocks[b].live[j] <==>
       (blocks[b].Holds(j) || unpublished == Spot(b, j)) && vacated != Spot(b, j))
  }

  ghost predicate Base<T>(s: State<T>) {
    && 2 <= s.largest
    && Structure(s.blocks, s.ring, s.k, s.p.PStoreTailBlock?)
    && s.frontBlock == s.ring[0] && s.tailBlock == s.ring[s.k]
    && Covers(|s.blocks|, s.ring, Spare(s.p))
    && Lifetimes(s.blocks, Unpublished(s.p), Vacated(s.c))
  }

  /** The tail block is full, unless the consumer is taking from it. */
  ghost predicate TailFull<T>(s: State<T>)
    requires Base(s)
  {
    s.k > 0 ==> Full(s.blocks[s.tailBlock])
  }

  /** What the producer knows at each point: its locals are still right. */
  ghost predicate ProducerKnows<T>(s: State<T>)
    requires Base(s)
  {
    var tail := s.blocks[s.tailBlock];
    match s.p
    case PIdle(_) => true
    case PLoadTailBlock(_, _) => true
    case PLoadTail(_, _, tb) => tb == s.tailBlock
    case PLoadFront(_, _, tb, bt) => tb == s.tailBlock && bt == tail.tail
    case PConstruct(_, tb, bt) => tb == s.tailBlock && bt == tail.tail && tail.HasRoom()
    case PStoreTail(x, tb, bt) =>
      tb == s.tailBlock && bt == tail.tail && tail.HasRoom() && tail.data[bt] == x
    case PLoadNext(_, _, tb) => tb == s.tailBlock && TailFull(s)
    case PLoadFrontBlock(_, _, tb, nx) => tb == s.tailBlock && nx == tail.next && TailFull(s)
    case PLoadNextAgain(_, tb) => tb == s.tailBlock && TailFull(s) && s.k + 1 < |s.ring|
    case PLoadNextFront(_, nb) => TailFull(s) && s.k + 1 < |s.ring| && nb == s.ring[s.k + 1]
    case PLoadNextTail(_, nb, nf) =>
      && TailFull(s) && s.k + 1 < |s.ring| && nb == s.ring[s.k + 1]
      && nf == s.blocks[nb].front == s.blocks[nb].localFront
    case PConstructNext(_, nb, nt) =>
      && TailFull(s) && s.k + 1 < |s.ring| && nb == s.ring[s.k + 1]
      && nt == s.blocks[nb].tail == s.blocks[nb].localFront
    case PStoreNextTail(x, nb, nt) =>
      && TailFull(s) && s.k + 1 < |s.ring| && nb == s.ring[s.k + 1]
      && nt == s.blocks[nb].tail == s.blocks[nb].localFront && s.blocks[nb].data[nt] == x
    case PMakeBlock(_, tb) => tb == s.tailBlock && TailFull(s)
    case PConstructNew(_, tb, nb) =>
      && tb == s.tailBlock && TailFull(s)
      && s.blocks[nb].front == s.blocks[nb].tail == s.blocks[nb].localFront == 0
      && s.blocks[nb].localTail == 0
    case PStoreNewTail(x, tb, nb) =>
      && tb == s.tailBlock && TailFull(s)
      && s.blocks[nb].front == s.blocks[nb].tail == s.blocks[nb].localFront == 0
      && s.blocks[nb].localTail == 0
      && s.blocks[nb].data[0] == x
    case PStoreNewNext(x, tb, nb) =>
      && tb == s.tailBlock && TailFull(s)
      && s.blocks[nb].Items() == [x]
    case PLinkNew(x, tb, nb) =>
      && tb == s.tailBlock && TailFull(s) && s.blocks[nb].next == tail.next
      && s.blocks[nb].Items() == [x]
    case PStoreTailBlock(x, nb) =>
      && TailFull(s) && s.k + 1 < |s.ring| && nb == s.ring[s.k + 1]
      && s.blocks[nb].Items() == [x]
  }

  /** The oldest element of the queue is in slot `j` of block `b`. */
  ghost predicate HeadAt<T>(s: State<T>, b: nat, j: nat)
    requires Base(s)
  {
    if s.blocks[s.frontBlock].Len() > 0 then
      b == s.frontBlock && j == s.blocks[b].front
    else
      s.k > 0 && b == s.ring[1] && j == s.blocks[b].front
  }

  /** What the consumer knows at each point: its locals are still right. */
  ghost predicate ConsumerKnows<T>(s: State<T>)
    requires Base(s)
  {
    var front := s.blocks[s.frontBlock];
    match s.c
    case CIdle(answer) => answer.At? ==> HeadAt(s, answer.block, answer.slot)
    case CLoadFrontBlock(_) => true
    case CLoadFront(_, fb) => fb == s.frontBlock
    case CLoadTail(_, fb, bf) => fb == s.frontBlock && bf == front.front
    case CLoadTailBlock(_, fb, bf) => fb == s.frontBlock && bf == front.front
    case CReloadFrontBlock(_) => s.k > 0
    case CReloadTail(_, fb) => s.k > 0 && fb == s.frontBlock
    case CReloadFront(_, fb, bt) =>
      s.k > 0 && fb == s.frontBlock && bt == front.tail == front.localTail
    case CLoadNext(_, fb) => s.k > 0 && fb == s.frontBlock && front.Len() == 0
    case CLoadNextFront(_, nb) => s.k > 0 && front.Len() == 0 && nb == s.ring[1]
    case CLoadNextTail(_, nb, nf) =>
      s.k > 0 && front.Len() == 0 && nb == s.ring[1] && nf == s.blocks[nb].front
    case CStoreFrontBlock(op, nb, nf) =>
      && op != Peek
      && s.k > 0 && front.Len() == 0 && nb == s.ring[1] && nf == s.blocks[nb].front
      && s.blocks[nb].HasItem()
    case CRead(op, fb, bf) =>
      op == TryDequeue && fb == s.frontBlock && bf == front.front && front.HasItem()
    case CDestroy(op, fb, bf, got) =>
      && op != Peek && fb == s.frontBlock && bf == front.front && front.HasItem()
      && got == (if op == TryDequeue then Some(front.data[bf]) else None)
    case CStoreFront(op, fb, bf, got) =>
      && op != Peek && fb == s.frontBlock && bf == front.front && front.HasItem()
      && got == (if op == TryDequeue then Some(front.data[bf]) else None)
  }

  ghost predicate Inv<T>(s: State<T>) {
    Base(s) && ProducerKnows(s) && ConsumerKnows(s)
  }

  // ---------------------------------------------------------------- the abstract queue

  /** The elements of the first `m` blocks of the ring, oldest first. */
  ghost function Contents<T>(blocks: seq<Block<T>>, ring: seq<nat>, m: nat): seq<T>
    requires AllOk(blocks) && InRange(ring, |blocks|) && m <= |ring|
  {
    if m == 0 then [] else Contents(blocks, ring, m - 1) + blocks[ring[m - 1]].Items()
  }

  /** What the queue holds: the blocks from `frontBlock` to `tailBlock` in link order. */
  ghost function Abs<T>(s: State<T>): seq<T>
    requires Base(s)
  {
    Contents(s.blocks, s.ring, s.k + 1)
  }

  // ---------------------------------------------------------------- its three moves

  ghost predicate Stutters<T>(s: State<T>, s': State<T>)
    requires Base(s) && Base(s')
  {
    Abs(s') == Abs(s) && s'.accepted == s.accepted && s'.removed == s.removed
  }

  ghost predicate Enqueues<T>(s: State<T>, s': State<T>, x: T)
    requires Base(s) && Base(s')
  {
    Abs(s') == Abs(s) + [x] && s'.accepted == s.accepted + [x] && s'.removed == s.removed
  }

  /** The oldest element leaves; a `try_dequeue` has moved exactly that element out. */
  ghost predicate Dequeues<T>(s: State<T>, s': State<T>, got: Option<T>)
    requires Base(s) && Base(s')
  {
    && Abs(s) != [] && Abs(s') == Abs(s)[1..]
    && s'.accepted == s.accepted && s'.removed == s.removed + [Abs(s)[0]]
    && (got.Some? ==> got == Some(Abs(s)[0]))
  }
}
