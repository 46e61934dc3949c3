/**
  The lock-free queue `moodycamel::ReaderWriterQueue` as a machine that takes one step
  per atomic load or store. Pointers are indices into `blocks`. One producer runs
  `inner_enqueue`, one consumer runs `try_dequeue`, `pop` or `peek`, and their steps
  interleave in any order.

  A step yields `Fault` when the code would touch a block or a slot that does not
  exist, construct an element over a live one, read or destroy a dead one, or fail one
  of its own assertions.
 */
module SpscQueue {
  import opened Wrappers
  import opened Circular

  /**
    One circular buffer. `data[j]` is the value last constructed in slot `j` and
    `live[j]` says whether an element is alive there.
   */
  datatype Block<T> = Block(
    front: nat, localTail: nat, tail: nat, localFront: nat,
    next: nat, data: seq<T>, live: seq<bool>)
  {
    /**
      The indices are in range and, going forward from `localFront`, come in the order
      localFront, front, localTail, tail without a full turn: no shadow index ever
      promises an element or a free slot that is not there.
     */
    ghost predicate Ok() {
      && |data| == |live| && 2 <= |data|
      && front < |data| && localTail < |data| && tail < |data| && localFront < |data|
      && Dist(localFront, front, |data|) + Dist(front, localTail, |data|)
         + Dist(localTail, tail, |data|) < |data|
    }

    ghost function Mask(): nat
      requires Ok()
    {
      |data| - 1
    }

    ghost function Len(): nat
      requires Ok()
    {
      Dist(front, tail, |data|)
    }

    /** Going by the producer's shadow of `front`, the slot at `tail` may be filled. */
    ghost predicate HasRoom()
      requires Ok()
    {
      Inc(tail, |data|) != localFront
    }

    /** Going by the consumer's shadow of `tail`, the slot at `front` may be taken. */
    ghost predicate HasItem()
      requires Ok()
    {
      front != localTail
    }

    /** The elements of the block, oldest first. */
    ghost function Items(): seq<T>
      requires Ok()
    {
      seq(Len(), i requires 0 <= i < Len() => data[Ahead(front, i, |data|)])
    }

    /** Slot `j` lies in the arc from `front` to `tail`. */
    ghost predicate Holds(j: nat)
      requires Ok() && j < |data|
    {
      Dist(front, j, |data|) < Len()
    }
  }

  datatype EnqueueAnswer = NotEnqueued | Accepted | Refused(canAlloc: bool)

  /** Where the producer is in `inner_enqueue`, with the locals still needed there. */
  datatype Producer<T> =
    | PIdle(last: EnqueueAnswer)
    | PLoadTailBlock(x: T, canAlloc: bool)
    | PLoadTail(x: T, canAlloc: bool, tb: nat)
    | PLoadFront(x: T, canAlloc: bool, tb: nat, bt: nat)
    | PConstruct(x: T, tb: nat, bt: nat)
    | PStoreTail(x: T, tb: nat, bt: nat)
    | PLoadNext(x: T, canAlloc: bool, tb: nat)
    | PLoadFrontBlock(x: T, canAlloc: bool, tb: nat, nx: nat)
    | PLoadNextAgain(x: T, tb: nat)
    | PLoadNextFront(x: T, nb: nat)
    | PLoadNextTail(x: T, nb: nat, nf: nat)
    | PConstructNext(x: T, nb: nat, nt: nat)
    | PStoreNextTail(x: T, nb: nat, nt: nat)
    | PMakeBlock(x: T, tb: nat)
    | PConstructNew(x: T, tb: nat, nb: nat)
    | PStoreNewTail(x: T, tb: nat, nb: nat)
    | PStoreNewNext(x: T, tb: nat, nb: nat)
    | PLinkNew(x: T, tb: nat, nb: nat)
    | PStoreTailBlock(x: T, nb: nat)

  datatype Operation = TryDequeue | Pop | Peek

  datatype DequeueAnswer<T> =
    | NotDequeued
    | Empty
    | Removed(result: Option<T>)
    | At(block: nat, slot: nat)

  /** Where the consumer is in `try_dequeue`, `pop` or `peek`. */
  datatype Consumer<T> =
    | CIdle(answer: DequeueAnswer<T>)
    | CLoadFrontBlock(op: Operation)
    | CLoadFront(op: Operation, fb: nat)
    | CLoadTail(op: Operation, fb: nat, bf: nat)
    | CLoadTailBlock(op: Operation, fb: nat, bf: nat)
    | CReloadFrontBlock(op: Operation)
    | CReloadTail(op: Operation, fb: nat)
    | CReloadFront(op: Operation, fb: nat, bt: nat)
    | CLoadNext(op: Operation, fb: nat)
    | CLoadNextFront(op: Operation, nb: nat)
    | CLoadNextTail(op: Operation, nb: nat, nf: nat)
    | CStoreFrontBlock(op: Operation, nb: nat, nf: nat)
    | CRead(op: Operation, fb: nat, bf: nat)
    | CDestroy(op: Operation, fb: nat, bf: nat, got: Option<T>)
    | CStoreFront(op: Operation, fb: nat, bf: nat, got: Option<T>)

  /**
    The queue object with both threads. `accepted` and `removed` are history: the
    arguments of the enqueues that answered true, and the elements the dequeues took.
    `ring` and `k` are history too, read by no step: the blocks in link order starting
    at `frontBlock`, and the position of `tailBlock` in that order.
   */
  datatype State<T> = State(
    maxBlock: nat, largest: nat,
    blocks: seq<Block<T>>, frontBlock: nat, tailBlock: nat,
    p: Producer<T>, c: Consumer<T>,
    accepted: seq<T>, removed: seq<T>,
    ring: seq<nat>, k: nat)

  datatype Outcome<T> = Fault | Next(s: State<T>)

  /** What the scheduler does next. `raw` is the content of freshly allocated memory. */
  datatype Action<T> =
    | CallEnqueue(x: T, canAlloc: bool)
    | ProducerStep(granted: bool, raw: seq<T>)
    | CallDequeue(op: Operation)
    | ConsumerStep

  // ---------------------------------------------------------------- shared memory

  predicate HasSlot<T>(blocks: seq<Block<T>>, b: nat, j: nat) {
    b < |blocks| && |blocks[b].data| == |blocks[b].live| && j < |blocks[b].data|
  }

  function Place<T>(b: Block<T>, j: nat, x: T): Block<T>
    requires j < |b.data| == |b.live|
  {
    b.(data := b.data[j := x], live := b.live[j := true])
  }

  function Kill<T>(b: Block<T>, j: nat): Block<T>
    requires j < |b.live|
  {
    b.(live := b.live[j := false])
  }

  function NewBlock<T>(raw: seq<T>): Block<T> {
    Block(0, 0, 0, 0, 0, raw, seq(|raw|, _ => false))
  }

  function NewBlockSize<T>(s: State<T>): nat {
    if s.largest >= s.maxBlock then s.largest else s.largest * 2
  }

  /** Construct `x` in slot `j` of block `b`, which must be dead; then go to `p`. */
  function Construct<T>(s: State<T>, b: nat, j: nat, x: T, p: Producer<T>): Outcome<T> {
    if HasSlot(s.blocks, b, j) && !s.blocks[b].live[j] then
      Next(s.(blocks := s.blocks[b := Place(s.blocks[b], j, x)], p := p))
    else
      Fault
  }

  function InsertAfter(ring: seq<nat>, k: nat, nb: nat): seq<nat> {
    if k < |ring| then ring[..k + 1] + [nb] + ring[k + 1..] else ring
  }

  function Rotate(ring: seq<nat>): seq<nat> {
    if ring == [] then ring else ring[1..] + [ring[0]]
  }

  // ---------------------------------------------------------------- inner_enqueue

  function ProducerNext<T>(s: State<T>, granted: bool, raw: seq<T>): Outcome<T> {
    var N := |s.blocks|;
    match s.p
    case PIdle(_) => Next(s)
    case PLoadTailBlock(x, can) => Next(s.(p := PLoadTail(x, can, s.tailBlock)))
    case PLoadTail(x, can, tb) =>
      if tb >= N then Fault else
        var b := s.blocks[tb];
        Next(s.(p := if Inc(b.tail, |b.data|) != b.localFront
                     then PConstruct(x, tb, b.tail) else PLoadFront(x, can, tb, b.tail)))
    case PLoadFront(x, can, tb, bt) =>
      if tb >= N then Fault else
        var b := s.blocks[tb];
        Next(s.(blocks := s.blocks[tb := b.(localFront := b.front)],
                p := if Inc(bt, |b.data|) != b.front
                     then PConstruct(x, tb, bt) else PLoadNext(x, can, tb)))
    case PConstruct(x, tb, bt) => Construct(s, tb, bt, x, PStoreTail(x, tb, bt))
    case PStoreTail(x, tb, bt) =>
      if tb >= N then Fault else
        var b := s.blocks[tb];
        Next(s.(blocks := s.blocks[tb := b.(tail := Inc(bt, |b.data|))],
                accepted := s.accepted + [x], p := PIdle(Accepted)))
    case PLoadNext(x, can, tb) =>
      if tb >= N then Fault else
        Next(s.(p := PLoadFrontBlock(x, can, tb, s.blocks[tb].next)))
    case PLoadFrontBlock(x, can, tb, nx) =>
      Next(s.(p := if nx != s.frontBlock then PLoadNextAgain(x, tb)
                   else if can then PMakeBlock(x, tb)
                   else PIdle(Refused(false))))
    case PLoadNextAgain(x, tb) =>
      if tb >= N then Fault else Next(s.(p := PLoadNextFront(x, s.blocks[tb].next)))
    case PLoadNextFront(x, nb) =>
      if nb >= N then Fault else
        var b := s.blocks[nb];
        Next(s.(blocks := s.blocks[nb := b.(localFront := b.front)],
                p := PLoadNextTail(x, nb, b.front)))
    case PLoadNextTail(x, nb, nf) =>
      if nb >= N || nf != s.blocks[nb].tail then Fault else
        Next(s.(blocks := s.blocks[nb := s.blocks[nb].(localFront := nf)],
                p := PConstructNext(x, nb, s.blocks[nb].tail)))
    case PConstructNext(x, nb, nt) => Construct(s, nb, nt, x, PStoreNextTail(x, nb, nt))
    case PStoreNextTail(x, nb, nt) =>
      if nb >= N then Fault else
        var b := s.blocks[nb];
        Next(s.(blocks := s.blocks[nb := b.(tail := Inc(nt, |b.data|))],
                p := PStoreTailBlock(x, nb)))
    case PMakeBlock(x, tb) =>
      if !granted then Next(s.(p := PIdle(Refused(true)))) else
        Next(s.(blocks := s.blocks + [NewBlock(raw)], largest := NewBlockSize(s),
                p := PConstructNew(x, tb, N)))
    case PConstructNew(x, tb, nb) => Construct(s, nb, 0, x, PStoreNewTail(x, tb, nb))
    case PStoreNewTail(x, tb, nb) =>
      if nb >= N || s.blocks[nb].front != 0 then Fault else
        Next(s.(blocks := s.blocks[nb := s.blocks[nb].(localTail := 1, tail := 1)],
                p := PStoreNewNext(x, tb, nb)))
    case PStoreNewNext(x, tb, nb) =>
      if nb >= N || tb >= N then Fault else
        Next(s.(blocks := s.blocks[nb := s.blocks[nb].(next := s.blocks[tb].next)],
                p := PLinkNew(x, tb, nb)))
    case PLinkNew(x, tb, nb) =>
      if tb >= N then Fault else
        Next(s.(blocks := s.blocks[tb := s.blocks[tb].(next := nb)],
                p := PStoreTailBlock(x, nb),
                ring := InsertAfter(s.ring, s.k, nb)))
    case PStoreTailBlock(x, nb) =>
      Next(s.(tailBlock := nb, k := s.k + 1,
              accepted := s.accepted + [x], p := PIdle(Accepted)))
  }

  // ---------------------------------------------------------------- try_dequeue, pop, peek

  /** The block holds an element at `bf`: peek answers its address, the others take it. */
  function Found<T>(op: Operation, fb: nat, bf: nat): Consumer<T> {
    match op
    case TryDequeue => CRead(op, fb, bf)
    case Pop => CDestroy(op, fb, bf, None)
    case Peek => CIdle(At(fb, bf))
  }

  function ConsumerNext<T>(s: State<T>): Outcome<T> {
    var N := |s.blocks|;
    match s.c
    case CIdle(_) => Next(s)
    case CLoadFrontBlock(op) => Next(s.(c := CLoadFront(op, s.frontBlock)))
    case CLoadFront(op, fb) =>
      if fb >= N then Fault else
        var b := s.blocks[fb];
        Next(s.(c := if b.front != b.localTail then Found(op, fb, b.front)
                     else CLoadTail(op, fb, b.front)))
    case CLoadTail(op, fb, bf) =>
      if fb >= N then Fault else
        var b := s.blocks[fb];
        Next(s.(blocks := s.blocks[fb := b.(localTail := b.tail)],
                c := if bf != b.tail then Found(op, fb, bf) else CLoadTailBlock(op, fb, bf)))
    case CLoadTailBlock(op, fb, bf) =>
      Next(s.(c := if fb != s.tailBlock then CReloadFrontBlock(op) else CIdle(Empty)))
    case CReloadFrontBlock(op) => Next(s.(c := CReloadTail(op, s.frontBlock)))
    case CReloadTail(op, fb) =>
      if fb >= N then Fault else
        var b := s.blocks[fb];
        Next(s.(blocks := s.blocks[fb := b.(localTail := b.tail)],
                c := CReloadFront(op, fb, b.tail)))
    case CReloadFront(op, fb, bt) =>
      if fb >= N then Fault else
        var bf := s.blocks[fb].front;
        Next(s.(c := if bf != bt then Found(op, fb, bf) else CLoadNext(op, fb)))
    case CLoadNext(op, fb) =>
      if fb >= N then Fault else Next(s.(c := CLoadNextFront(op, s.blocks[fb].next)))
    case CLoadNextFront(op, nb) =>
      if nb >= N then Fault else Next(s.(c := CLoadNextTail(op, nb, s.blocks[nb].front)))
    case CLoadNextTail(op, nb, nf) =>
      if nb >= N || nf == s.blocks[nb].tail then Fault else
        var b := s.blocks[nb];
        if op == Peek then Next(s.(c := CIdle(At(nb, nf)))) else
          Next(s.(blocks := s.blocks[nb := b.(localTail := b.tail)],
                  c := CStoreFrontBlock(op, nb, nf)))
    case CStoreFrontBlock(op, nb, nf) =>
      Next(s.(frontBlock := nb, c := Found(op, nb, nf),
              ring := Rotate(s.ring), k := if s.k == 0 then 0 else s.k - 1))
    case CRead(op, fb, bf) =>
      if HasSlot(s.blocks, fb, bf) && s.blocks[fb].live[bf] then
        Next(s.(c := CDestroy(op, fb, bf, Some(s.blocks[fb].data[bf]))))
      else Fault
    case CDestroy(op, fb, bf, got) =>
      if HasSlot(s.blocks, fb, bf) && s.blocks[fb].live[bf] then
        Next(s.(blocks := s.blocks[fb := Kill(s.blocks[fb], bf)],
                c := CStoreFront(op, fb, bf, got)))
      else Fault
    case CStoreFront(op, fb, bf, got) =>
      if !HasSlot(s.blocks, fb, bf) then Fault else
        var b := s.blocks[fb];
        Next(s.(blocks := s.blocks[fb := b.(front := Inc(bf, |b.data|))],
                removed := s.removed + [b.data[bf]],
                c := CIdle(Removed(got))))
  }

  // ---------------------------------------------------------------- the machine

  predicate Enabled<T>(s: State<T>, a: Action<T>) {
    match a
    case CallEnqueue(_, _) => s.p.PIdle?
    case ProducerStep(granted, raw) =>
      !s.p.PIdle? && (s.p.PMakeBlock? && granted ==> |raw| == NewBlockSize(s))
    case CallDequeue(_) => s.c.CIdle?
    case ConsumerStep => !s.c.CIdle?
  }

  function Step<T>(s: State<T>, a: Action<T>): Outcome<T>
    requires Enabled(s, a)
  {
    match a
    case CallEnqueue(x, can) => Next(s.(p := PLoadTailBlock(x, can)))
    case ProducerStep(granted, raw) => ProducerNext(s, granted, raw)
    case CallDequeue(op) => Next(s.(c := CLoadFrontBlock(op)))
    case ConsumerStep => ConsumerNext(s)
  }
}
