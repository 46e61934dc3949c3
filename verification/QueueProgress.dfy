/**
  The queue is wait-free: every call returns after a bounded number of its own steps,
  whatever the other thread does. And what the code asserts, or takes for granted about a
  slot, is true wherever it does.
 */
module QueueProgress {
  import opened SpscQueue
  import opened QueueInvariant
  import opened QueueBlocks
  import opened QueueRing
  import opened QueueRuns
  import opened QueueCapacity

  const ENQUEUE_STEPS: nat := 11
  const DEQUEUE_STEPS: nat := 14

  /** How many accesses an enqueue has before it at most. */
  function ProducerLeft<T>(p: Producer<T>): nat {
    match p
    case PIdle(_) => 0
    case PStoreTail(_, _, _) => 1
    case PStoreTailBlock(_, _) => 1
    case PConstruct(_, _, _) => 2
    case PStoreNextTail(_, _, _) => 2
    case PLinkNew(_, _, _) => 2
    case PConstructNext(_, _, _) => 3
    case PStoreNewNext(_, _, _) => 3
    case PLoadNextTail(_, _, _) => 4
    case PStoreNewTail(_, _, _) => 4
    case PLoadNextFront(_, _) => 5
    case PConstructNew(_, _, _) => 5
    case PLoadNextAgain(_, _) => 6
    case PMakeBlock(_, _) => 6
    case PLoadFrontBlock(_, _, _, _) => 7
    case PLoadNext(_, _, _) => 8
    case PLoadFront(_, _, _, _) => 9
    case PLoadTail(_, _, _) => 10
    case PLoadTailBlock(_, _) => ENQUEUE_STEPS
  }

  function ConsumerLeft<T>(c: Consumer<T>): nat {
    match c
    case CIdle(_) => 0
    case CStoreFront(_, _, _, _) => 1
    case CDestroy(_, _, _, _) => 2
    case CRead(_, _, _) => 3
    case CStoreFrontBlock(_, _, _) => 4
    case CLoadNextTail(_, _, _) => 5
    case CLoadNextFront(_, _) => 6
    case CLoadNext(_, _) => 7
    case CReloadFront(_, _, _) => 8
    case CReloadTail(_, _) => 9
    case CReloadFrontBlock(_) => 10
    case CLoadTailBlock(_, _, _) => 11
    case CLoadTail(_, _, _) => 12
    case CLoadFront(_, _) => 13
    case CLoadFrontBlock(_) => DEQUEUE_STEPS
  }

  lemma ProducerProgress<T>(s: State<T>, granted: bool, raw: seq<T>)
    requires !s.p.PIdle? && ProducerNext(s, granted, raw).Next?
    ensures ProducerLeft(ProducerNext(s, granted, raw).s.p) < ProducerLeft(s.p)
  {
    hide HasSlot;
    hide InsertAfter;
    hide NewBlock;
    hide NewBlockSize;
  }

  lemma ProducerMindsItself<T>(s: State<T>, granted: bool, raw: seq<T>)
    requires ProducerNext(s, granted, raw).Next?
    ensures ProducerNext(s, granted, raw).s.c == s.c
  {
    hide HasSlot;
    hide InsertAfter;
    hide NewBlock;
    hide NewBlockSize;
  }

  lemma ConsumerProgress<T>(s: State<T>)
    requires !s.c.CIdle? && ConsumerNext(s).Next?
    ensures var s' := ConsumerNext(s).s; ConsumerLeft(s'.c) < ConsumerLeft(s.c) && s'.p == s.p
  {
    hide HasSlot;
    hide Rotate;
    hide Kill;
  }

  /** The steps an enqueue has taken, since the last one began. */
  function ProducerTook<T>(actions: seq<Action<T>>, i: nat): nat
    requires i <= |actions|
  {
    if i == 0 || actions[i - 1].CallEnqueue? then 0
    else ProducerTook(actions, i - 1) + if actions[i - 1].ProducerStep? then 1 else 0
  }

  function ConsumerTook<T>(actions: seq<Action<T>>, i: nat): nat
    requires i <= |actions|
  {
    if i == 0 || actions[i - 1].CallDequeue? then 0
    else ConsumerTook(actions, i - 1) + if actions[i - 1].ConsumerStep? then 1 else 0
  }

  /** One step of either thread brings its call nearer to its end, and the other's no further away. */
  lemma StepProgress<T>(s: State<T>, a: Action<T>)
    requires Enabled(s, a) && Step(s, a).Next?
    ensures var s' := Step(s, a).s;
            && (a.ProducerStep? ==> ProducerLeft(s'.p) < ProducerLeft(s.p))
            && (a.CallEnqueue? ==> ProducerLeft(s'.p) == ENQUEUE_STEPS)
            && (!a.ProducerStep? && !a.CallEnqueue? ==> s'.p == s.p)
            && (a.ConsumerStep? ==> ConsumerLeft(s'.c) < ConsumerLeft(s.c))
            && (a.CallDequeue? ==> ConsumerLeft(s'.c) == DEQUEUE_STEPS)
            && (!a.ConsumerStep? && !a.CallDequeue? ==> s'.c == s.c)
  {
    hide ProducerNext;
    hide ConsumerNext;
    match a {
      case ProducerStep(granted, raw) =>
        ProducerProgress(s, granted, raw);
        ProducerMindsItself(s, granted, raw);
      case ConsumerStep => ConsumerProgress(s);
      case _ =>
    }
  }

  /**
    Wait-freedom: in every run, an enqueue takes at most 11 steps, and a dequeue, pop or
    peek at most 14, however the other thread's steps come in between.
   */
  lemma {:induction false} WaitFree<T>(states: seq<State<T>>, actions: seq<Action<T>>, i: nat)
    requires IsRun(states, actions) && Fresh(states[0]) && i <= |actions|
    ensures |states| == |actions| + 1
    ensures ProducerTook(actions, i) + ProducerLeft(states[i].p) <= ENQUEUE_STEPS
    ensures ConsumerTook(actions, i) + ConsumerLeft(states[i].c) <= DEQUEUE_STEPS
  {
    hide *;
    RunLength(states, actions);
    TookStep(actions, i);
    if i == 0 {
      FreshRests(states[0]);
      NothingLeft(states[0]);
    } else {
      RunAt(states, actions, i - 1);
      StepProgress(states[i - 1], actions[i - 1]);
      WaitFree(states, actions, i - 1);
    }
  }

  lemma NothingLeft<T>(s: State<T>)
    requires s.p.PIdle? && s.c.CIdle?
    ensures ProducerLeft(s.p) == 0 && ConsumerLeft(s.c) == 0
  { }

  lemma TookStep<T>(actions: seq<Action<T>>, i: nat)
    requires i <= |actions|
    ensures i == 0 ==> ProducerTook(actions, i) == 0 && ConsumerTook(actions, i) == 0
    ensures i > 0 ==>
      var a := actions[i - 1];
      && ProducerTook(actions, i)
         == (if a.CallEnqueue? then 0 else ProducerTook(actions, i - 1) + if a.ProducerStep? then 1 else 0)
      && ConsumerTook(actions, i)
         == (if a.CallDequeue? then 0 else ConsumerTook(actions, i - 1) + if a.ConsumerStep? then 1 else 0)
  { }

  // ---------------------------------------------------------------- what the code takes for granted

  ghost predicate DeadSlot<T>(s: State<T>, b: nat, j: nat) {
    HasSlot(s.blocks, b, j) && !s.blocks[b].live[j]
  }

  ghost predicate LiveSlot<T>(s: State<T>, b: nat, j: nat) {
    HasSlot(s.blocks, b, j) && s.blocks[b].live[j]
  }

  /** Where the producer constructs, the slot is dead; where it asserts, it is right. */
  ghost predicate ProducerIsSafe<T>(s: State<T>) {
    match s.p
    case PConstruct(_, tb, bt) => DeadSlot(s, tb, bt)
    case PConstructNext(_, nb, nt) => DeadSlot(s, nb, nt)
    case PConstructNew(_, _, nb) => DeadSlot(s, nb, 0)
    case PStoreNewTail(_, _, nb) => nb < |s.blocks| && s.blocks[nb].front == 0
    case PLoadNextTail(_, nb, nf) => nb < |s.blocks| && nf == s.blocks[nb].tail
    case _ => true
  }

  /** Where the consumer reads or destroys, the slot is alive; where it asserts, it is right. */
  ghost predicate ConsumerIsSafe<T>(s: State<T>) {
    match s.c
    case CRead(_, fb, bf) => LiveSlot(s, fb, bf)
    case CDestroy(_, fb, bf, _) => LiveSlot(s, fb, bf)
    case CLoadNextTail(_, nb, nf) => nb < |s.blocks| && nf != s.blocks[nb].tail
    case CIdle(answer) => answer.At? ==> LiveSlot(s, answer.block, answer.slot)
    case _ => true
  }

  lemma ProducerSafe<T>(s: State<T>)
    requires Inv(s)
    ensures ProducerIsSafe(s)
  {
    Basics(s);
    match s.p {
      case PConstruct(_, tb, bt) =>
        LivesAt(s, tb);
        PlaceAtTail(s.blocks[tb], s.p.x);
      case PConstructNext(_, nb, nt) => LivesAt(s, nb);
      case PConstructNew(_, _, nb) => LivesAt(s, nb);
      case _ =>
    }
  }

  lemma ConsumerSafe<T>(s: State<T>)
    requires Inv(s)
    ensures ConsumerIsSafe(s)
  {
    Basics(s);
    match s.c {
      case CRead(_, fb, bf) => LivesAt(s, fb);
      case CDestroy(_, fb, bf, _) => LivesAt(s, fb);
      case CLoadNextTail(_, nb, nf) => NextHolds(s);
      case CIdle(answer) =>
        if answer.At? {
          PeekSeesTheOldest(s);
        }
      case _ =>
    }
  }

  /** In every run: no live slot is constructed in, no dead one read, destroyed or pointed to, and no assertion fails. */
  lemma AlwaysSafe<T>(states: seq<State<T>>, actions: seq<Action<T>>, i: nat)
    requires IsRun(states, actions) && Fresh(states[0]) && i <= |actions|
    ensures |states| == |actions| + 1 && ProducerIsSafe(states[i]) && ConsumerIsSafe(states[i])
  {
    hide *;
    RunLength(states, actions);
    AlwaysInv(states, actions, i);
    ProducerSafe(states[i]);
    ConsumerSafe(states[i]);
  }
}
