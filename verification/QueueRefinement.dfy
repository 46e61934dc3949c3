/** The machine refines a FIFO queue, step by step and over whole runs. */
module QueueRefinement {
  import opened Circular
  import opened SpscQueue
  import opened QueueInvariant
  import Producing = QueueProducer
  import Consuming = QueueConsumer

  lemma ProducerStepKeeps<T>(s: State<T>, granted: bool, raw: seq<T>)
    requires Inv(s) && Enabled(s, ProducerStep(granted, raw))
    ensures Producing.ProducerDid(s, ProducerNext(s, granted, raw))
    ensures Inv(ProducerNext(s, granted, raw).s)
  {
    match s.p {
      case PLoadTailBlock(_, _) => Producing.LoadTailBlockKeeps(s, granted, raw);
      case PLoadTail(_, _, _) => Producing.LoadTailKeeps(s, granted, raw);
      case PLoadFront(_, _, _, _) => Producing.LoadFrontKeeps(s, granted, raw);
      case PConstruct(_, _, _) => Producing.ConstructKeeps(s, granted, raw);
      case PStoreTail(_, _, _) => Producing.StoreTailKeeps(s, granted, raw);
      case PLoadNext(_, _, _) => Producing.LoadNextKeeps(s, granted, raw);
      case PLoadFrontBlock(_, _, _, _) => Producing.LoadFrontBlockKeeps(s, granted, raw);
      case PLoadNextAgain(_, _) => Producing.LoadNextAgainKeeps(s, granted, raw);
      case PLoadNextFront(_, _) => Producing.LoadNextFrontKeeps(s, granted, raw);
      case PLoadNextTail(_, _, _) => Producing.LoadNextTailKeeps(s, granted, raw);
      case PConstructNext(_, _, _) => Producing.ConstructNextKeeps(s, granted, raw);
      case PStoreNextTail(_, _, _) => Producing.StoreNextTailKeeps(s, granted, raw);
      case PMakeBlock(_, _) => Producing.MakeBlockKeeps(s, granted, raw);
      case PConstructNew(_, _, _) => Producing.ConstructNewKeeps(s, granted, raw);
      case PStoreNewTail(_, _, _) => Producing.StoreNewTailKeeps(s, granted, raw);
      case PStoreNewNext(_, _, _) => Producing.StoreNewNextKeeps(s, granted, raw);
      case PLinkNew(_, _, _) => Producing.LinkNewKeeps(s, granted, raw);
      case PStoreTailBlock(_, _) => Producing.StoreTailBlockKeeps(s, granted, raw);
    }
    Producing.ConsumerUndisturbed(s, ProducerNext(s, granted, raw).s);
  }

  lemma ConsumerStepKeeps<T>(s: State<T>)
    requires Inv(s) && Enabled(s, ConsumerStep)
    ensures Consuming.ConsumerDid(s, ConsumerNext(s))
    ensures Inv(ConsumerNext(s).s)
  {
    match s.c {
      case CLoadFrontBlock(_) => Consuming.LoadFrontBlockKeeps(s);
      case CLoadFront(_, _) => Consuming.LoadFrontKeeps(s);
      case CLoadTail(_, _, _) => Consuming.LoadTailKeeps(s);
      case CLoadTailBlock(_, _, _) => Consuming.LoadTailBlockKeeps(s);
      case CReloadFrontBlock(_) => Consuming.ReloadFrontBlockKeeps(s);
      case CReloadTail(_, _) => Consuming.ReloadTailKeeps(s);
      case CReloadFront(_, _, _) => Consuming.ReloadFrontKeeps(s);
      case CLoadNext(_, _) => Consuming.LoadNextKeeps(s);
      case CLoadNextFront(_, _) => Consuming.LoadNextFrontKeeps(s);
      case CLoadNextTail(_, _, _) => Consuming.LoadNextTailKeeps(s);
      case CStoreFrontBlock(_, _, _) => Consuming.StoreFrontBlockKeeps(s);
      case CRead(_, _, _) => Consuming.ReadKeeps(s);
      case CDestroy(_, _, _, _) => Consuming.DestroyKeeps(s);
      case CStoreFront(_, _, _, _) => Consuming.StoreFrontKeeps(s);
    }
    Consuming.ProducerUndisturbed(s, ConsumerNext(s).s);
  }

  /**
    What action `a` did to the abstract queue: an enqueue that answers true appends its
    argument, a removal that answers takes the oldest element, every other step stutters.
   */
  ghost predicate Refines<T>(s: State<T>, a: Action<T>, s': State<T>)
    requires Base(s) && Base(s') && Enabled(s, a)
  {
    match a
    case ProducerStep(_, _) =>
      if s'.p == PIdle(Accepted) then Enqueues(s, s', s.p.x) else Stutters(s, s')
    case ConsumerStep =>
      if s'.c.CIdle? && s'.c.answer.Removed? then Dequeues(s, s', s'.c.answer.result)
      else Stutters(s, s')
    case _ => Stutters(s, s')
  }

  /** No step faults, every step keeps the invariant, and every step refines the FIFO queue. */
  lemma StepRefines<T>(s: State<T>, a: Action<T>)
    requires Inv(s) && Enabled(s, a)
    ensures Step(s, a).Next? && Inv(Step(s, a).s) && Refines(s, a, Step(s, a).s)
  {
    match a {
      case CallEnqueue(_, _) => CallsStutter(s);
      case ProducerStep(granted, raw) => ProducerStepKeeps(s, granted, raw);
      case CallDequeue(_) => CallsStutter(s);
      case ConsumerStep => ConsumerStepKeeps(s);
    }
    hide Inv;
    hide Base;
    hide Abs;
    hide ProducerNext;
    hide ConsumerNext;
  }

  lemma CallsStutter<T>(s: State<T>)
    requires Inv(s)
    ensures s.p.PIdle? ==> forall x, can :: var s' := s.(p := PLoadTailBlock(x, can)); Inv(s') && Stutters(s, s')
    ensures s.c.CIdle? ==> forall op :: var s' := s.(c := CLoadFrontBlock(op)); Inv(s') && Stutters(s, s')
  { }

  /** What a producer step leaves alone. */
  lemma ProducerLeaves<T>(s: State<T>, granted: bool, raw: seq<T>)
    requires Inv(s) && Enabled(s, ProducerStep(granted, raw))
    ensures var o := ProducerNext(s, granted, raw);
            && o.Next?
            && var s' := o.s;
            && s'.c == s.c && s'.removed == s.removed && s.k <= s'.k
            && s'.accepted == s.accepted + (if s'.p == PIdle(Accepted) then [s.p.x] else [])
  {
    ProducerStepKeeps(s, granted, raw);
  }

  /** What a consumer step leaves alone. */
  lemma ConsumerLeaves<T>(s: State<T>)
    requires Inv(s) && Enabled(s, ConsumerStep)
    ensures var o := ConsumerNext(s);
            && o.Next?
            && var s' := o.s;
            && s'.p == s.p && s'.accepted == s.accepted
            && |s'.removed| == |s.removed| + (if s'.c.CIdle? && s'.c.answer.Removed? then 1 else 0)
  {
    ConsumerStepKeeps(s);
  }

  /**
    Only `peek` answers with an address, only the others remove, only `try_dequeue` hands
    out what it removes, and a call stays what it is.
   */
  ghost predicate Answers<T>(op: Operation, c: Consumer<T>) {
    if c.CIdle? then
      match c.answer
      case Removed(result) => op != Peek && (result.Some? <==> op == TryDequeue)
      case At(_, _) => op == Peek
      case Empty => true
      case NotDequeued => false
    else c.op == op
  }

  lemma FoundAnswers<T>(op: Operation, fb: nat, bf: nat)
    ensures Answers<T>(op, Found(op, fb, bf))
  { }

  lemma ConsumerAnswers<T>(s: State<T>)
    requires Inv(s) && Enabled(s, ConsumerStep) && ConsumerNext(s).Next?
    ensures Answers(s.c.op, ConsumerNext(s).s.c)
  {
    assert s.c.CStoreFront? ==> s.c.op != Peek && (s.c.got.Some? <==> s.c.op == TryDequeue);
    hide Inv;
    hide HasSlot;
    hide Kill;
    hide Rotate;
    hide Inc;
    hide Found;
    match s.c {
      case CLoadFront(op, fb) => FoundAnswers<T>(op, fb, s.blocks[fb].front);
      case CLoadTail(op, fb, bf) => FoundAnswers<T>(op, fb, bf);
      case CReloadFront(op, fb, _) => FoundAnswers<T>(op, fb, s.blocks[fb].front);
      case CStoreFrontBlock(op, nb, nf) => FoundAnswers<T>(op, nb, nf);
      case _ =>
    }
  }
}
