/**
  `BlockingReaderWriterQueue`: the lock-free queue with a semaphore in front of it, both
  machines stepping under one producer and one consumer. The consumer enters the inner
  queue only with a permit, and then asserts that it finds an element there.
 */
module BlockingQueue {
  import opened Wrappers
  import opened SpscQueue
  import opened QueueInvariant
  import opened QueueRefinement
  import opened QueueRuns
  import Sema = Semaphore

  datatype Call = TryDequeueCall | WaitDequeueCall | WaitDequeueTimedCall(usecs: int) | PopCall | PeekCall

  datatype Producer = PRest(ok: bool) | PInside | PSignalling

  datatype Answer<T> = NoAnswer | Failed | Taken(result: Option<T>) | Seen(block: nat, slot: nat) | NothingSeen

  datatype Consumer<T> = CRest(answer: Answer<T>) | CWaiting(call: Call) | CInside(call: Call)

  datatype Blocking<T> = Blocking(q: State<T>, sem: Sema.State, p: Producer, c: Consumer<T>)

  datatype Result<T> = Failure | Success(b: Blocking<T>)

  datatype Move<T> =
    | StartEnqueue(x: T, canAlloc: bool)
    | ProducerMoves(granted: bool, raw: seq<T>)
    | StartDequeue(call: Call)
    | ConsumerMoves(timedOut: bool)

  function WaitOf(call: Call): Sema.Operation {
    match call
    case WaitDequeueCall => Sema.Wait(-1)
    case WaitDequeueTimedCall(usecs) => Sema.Wait(usecs)
    case _ => Sema.TryWait
  }

  function InnerOf(call: Call): Operation {
    match call
    case PopCall => Pop
    case PeekCall => Peek
    case _ => TryDequeue
  }

  predicate CanMove<T>(b: Blocking<T>, move: Move<T>) {
    match move
    case StartEnqueue(_, _) => b.p.PRest?
    case ProducerMoves(granted, raw) =>
      && !b.p.PRest?
      && (if b.p.PInside? then Enabled(b.q, ProducerStep(granted, raw)) else Sema.Enabled(b.sem, Sema.SignallerStep))
    case StartDequeue(_) => b.c.CRest?
    case ConsumerMoves(timedOut) =>
      && !b.c.CRest?
      && (if b.c.CWaiting? then Sema.Enabled(b.sem, Sema.WaiterStep(timedOut)) else Enabled(b.q, ConsumerStep))
  }

  /** An accepted element is followed by one signal; a refused one by none. */
  function ProducerMove<T>(b: Blocking<T>, granted: bool, raw: seq<T>): Result<T>
    requires CanMove(b, ProducerMoves(granted, raw))
  {
    match b.p
    case PInside =>
      (match ProducerNext(b.q, granted, raw)
       case Fault => Failure
       case Next(q) =>
         if q.p == PIdle(Accepted) then Success(b.(q := q, p := PSignalling, sem := b.sem.(g := Sema.Add(1))))
         else if q.p.PIdle? then Success(b.(q := q, p := PRest(false)))
         else Success(b.(q := q)))
    case PSignalling =>
      (match Sema.SignallerNext(b.sem)
       case Fault => Failure
       case Next(sem) => Success(b.(sem := sem, p := if sem.g.Quiet? then PRest(true) else PSignalling)))
  }

  function ConsumerMove<T>(b: Blocking<T>, timedOut: bool): Result<T>
    requires CanMove(b, ConsumerMoves(timedOut))
  {
    match b.c
    case CWaiting(call) =>
      var sem := Sema.WaiterNext(b.sem, timedOut);
      if sem.w == Sema.Idle(true) then
        Success(b.(sem := sem, c := CInside(call), q := b.q.(c := CLoadFrontBlock(InnerOf(call)))))
      else if sem.w == Sema.Idle(false) then
        if call.WaitDequeueCall? then Success(b.(sem := sem.(w := Sema.Load(WaitOf(call)))))
        else Success(b.(sem := sem, c := CRest(Failed)))
      else
        Success(b.(sem := sem))
    case CInside(call) =>
      (match ConsumerNext(b.q)
       case Fault => Failure
       case Next(q) =>
         if !q.c.CIdle? then Success(b.(q := q))
         else
           match q.c.answer
           case Removed(result) => Success(b.(q := q, c := CRest(Taken(result))))
           case At(block, slot) => Success(b.(q := q, c := CRest(Seen(block, slot))))
           case _ => if call.PeekCall? then Success(b.(q := q, c := CRest(NothingSeen))) else Failure)
  }

  function Perform<T>(b: Blocking<T>, move: Move<T>): Result<T>
    requires CanMove(b, move)
  {
    match move
    case StartEnqueue(x, can) => Success(b.(p := PInside, q := b.q.(p := PLoadTailBlock(x, can))))
    case ProducerMoves(granted, raw) => ProducerMove(b, granted, raw)
    case StartDequeue(call) =>
      if call.PeekCall? then
        Success(b.(c := CInside(call), q := b.q.(c := CLoadFrontBlock(Peek))))
      else
        Success(b.(c := CWaiting(call), sem := b.sem.(w := Sema.Load(WaitOf(call)))))
    case ConsumerMoves(timedOut) => ConsumerMove(b, timedOut)
  }

  // ---------------------------------------------------------------- the invariant

  /** Permits taken for which the element has not been taken yet. */
  function InFlight<T>(b: Blocking<T>): nat {
    if b.c.CInside? && !b.c.call.PeekCall? then 1 else 0
  }

  /** Elements accepted for which the permit has not been given yet. */
  function Unsignalled<T>(b: Blocking<T>): nat {
    if b.sem.g.Add? then 1 else 0
  }

  ghost predicate Together<T>(b: Blocking<T>) {
    && Inv(b.q) && Balanced(b.q) && Sema.Inv(b.sem) && b.sem.initial == 0
    && |b.q.accepted| == b.sem.signals + Unsignalled(b)
    && |b.q.removed| + InFlight(b) == b.sem.waits
    && (match b.p
        case PRest(_) => b.q.p.PIdle? && b.sem.g.Quiet?
        case PInside => !b.q.p.PIdle? && b.sem.g.Quiet?
        case PSignalling => b.q.p == PIdle(Accepted) && (b.sem.g == Sema.Add(1) || b.sem.g.Post?))
    && (match b.c
        case CRest(_) => b.q.c.CIdle? && b.sem.w.Idle?
        case CWaiting(call) => b.q.c.CIdle? && !b.sem.w.Idle? && !call.PeekCall?
        case CInside(call) =>
          && !b.q.c.CIdle? && b.q.c.op == InnerOf(call) && b.sem.w.Idle?
          && (!call.PeekCall? && b.q.c.CLoadTailBlock? ==> b.q.k > 0))
  }

  /**
    Permits never exceed elements: with the permits in flight, and with those the waiter
    may still get back, they are covered by what the queue holds.
   */
  lemma PermitsAreCovered<T>(b: Blocking<T>)
    requires Together(b)
    ensures |Abs(b.q)| == b.sem.count + Sema.Owed(b.sem) + InFlight(b) + Unsignalled(b)
    ensures |Abs(b.q)| >= InFlight(b) && |Abs(b.q)| >= b.sem.count + InFlight(b)
  {
    assert |b.q.accepted| == |b.q.removed| + |Abs(b.q)|;
    hide Balanced;
    hide Inv;
  }

  lemma EnqueuingKeepsTogether<T>(b: Blocking<T>, granted: bool, raw: seq<T>)
    requires Together(b) && b.p.PInside? && CanMove(b, ProducerMoves(granted, raw))
    ensures var r := ProducerMove(b, granted, raw); r.Success? && Together(r.b)
  {
    hide Inv;
    hide Balanced;
    hide Base;
    hide Refines;
    hide ProducerNext;
    StepBalances(b.q, ProducerStep(granted, raw));
    StepRefines(b.q, ProducerStep(granted, raw));
    ProducerLeaves(b.q, granted, raw);
    assert Step(b.q, ProducerStep(granted, raw)) == ProducerNext(b.q, granted, raw);
  }

  lemma SignallingKeepsTogether<T>(b: Blocking<T>, granted: bool, raw: seq<T>)
    requires Together(b) && b.p.PSignalling? && CanMove(b, ProducerMoves(granted, raw))
    ensures var r := ProducerMove(b, granted, raw); r.Success? && Together(r.b)
  {
    hide Inv;
    hide Balanced;
    Sema.StepKeeps(b.sem, Sema.SignallerStep);
  }

  lemma WaitingKeepsTogether<T>(b: Blocking<T>, timedOut: bool)
    requires Together(b) && b.c.CWaiting? && CanMove(b, ConsumerMoves(timedOut))
    ensures var r := ConsumerMove(b, timedOut); r.Success? && Together(r.b)
  {
    hide Inv;
    hide Balanced;
    hide Sema.WaiterNext;
    hide Sema.Inv;
    Sema.StepKeeps(b.sem, Sema.WaiterStep(timedOut));
    Sema.WaiterLeaves(b.sem, timedOut);
    Sema.CallKeeps(Sema.WaiterNext(b.sem, timedOut), WaitOf(b.c.call));
    CallsKeepInv(b.q, InnerOf(b.c.call));
  }

  lemma CallsKeepInv<T>(q: State<T>, op: Operation)
    requires Inv(q) && Balanced(q) && q.c.CIdle?
    ensures Inv(q.(c := CLoadFrontBlock(op))) && Balanced(q.(c := CLoadFrontBlock(op)))
  { }

  lemma EnqueueCallKeepsInv<T>(q: State<T>, x: T, canAlloc: bool)
    requires Inv(q) && Balanced(q) && q.p.PIdle?
    ensures Inv(q.(p := PLoadTailBlock(x, canAlloc))) && Balanced(q.(p := PLoadTailBlock(x, canAlloc)))
  { }

  lemma NonEmptyIsFound<T>(q: State<T>)
    requires Inv(q) && !q.c.CIdle? && Abs(q) != [] && (q.c.CLoadTailBlock? ==> q.k > 0)
    ensures var o := ConsumerNext(q);
            && o.Next? && o.s.c != CIdle(Empty)
            && (o.s.c.CLoadTailBlock? ==> o.s.k > 0)
  {
    StepRefines(q, ConsumerStep);
    assert Step(q, ConsumerStep) == ConsumerNext(q);
    var q' := ConsumerNext(q).s;
    hide ConsumerNext;
    hide Inv;
    hide Base;
    hide Abs;
    if q'.c == CIdle(Empty) {
      EmptyFromSecondLook(q);
    } else if q'.c.CLoadTailBlock? && q'.k == 0 {
      SecondLook(q, ConsumerStep);
      assert false;
    }
  }

  /** With a permit in flight the queue is not empty, so the inner call cannot answer "empty". */
  lemma PermitFindsElement<T>(b: Blocking<T>)
    requires Together(b) && InFlight(b) == 1
    ensures var o := ConsumerNext(b.q);
            && o.Next? && o.s.c != CIdle(Empty)
            && (o.s.c.CLoadTailBlock? ==> o.s.k > 0)
  {
    hide Inv;
    hide Balanced;
    hide ConsumerNext;
    PermitsAreCovered(b);
    NonEmptyIsFound(b.q);
  }

  lemma InsideKeepsTogether<T>(b: Blocking<T>, timedOut: bool)
    requires Together(b) && b.c.CInside? && CanMove(b, ConsumerMoves(timedOut))
    ensures var r := ConsumerMove(b, timedOut); r.Success? && Together(r.b)
  {
    hide Inv;
    hide Balanced;
    hide Base;
    hide Refines;
    hide ConsumerNext;
    StepBalances(b.q, ConsumerStep);
    StepRefines(b.q, ConsumerStep);
    ConsumerLeaves(b.q);
    ConsumerAnswers(b.q);
    assert Step(b.q, ConsumerStep) == ConsumerNext(b.q);
    if !b.c.call.PeekCall? {
      PermitFindsElement(b);
    }
  }

  /**
    In every interleaving, once the semaphore has let the consumer through, the inner
    dequeue or pop finds an element: the assertion after it, and every other, holds.
   */
  lemma MoveKeepsTogether<T>(b: Blocking<T>, move: Move<T>)
    requires Together(b) && CanMove(b, move)
    ensures Perform(b, move).Success? && Together(Perform(b, move).b)
  {
    hide Inv;
    hide Balanced;
    match move {
      case StartEnqueue(x, canAlloc) =>
        EnqueueCallKeepsInv(b.q, x, canAlloc);
      case ProducerMoves(granted, raw) =>
        if b.p.PInside? {
          EnqueuingKeepsTogether(b, granted, raw);
        } else {
          SignallingKeepsTogether(b, granted, raw);
        }
      case StartDequeue(call) =>
        CallsKeepInv(b.q, Peek);
      case ConsumerMoves(timedOut) =>
        if b.c.CWaiting? {
          WaitingKeepsTogether(b, timedOut);
        } else {
          InsideKeepsTogether(b, timedOut);
        }
    }
  }

  // ---------------------------------------------------------------- what callers see

  ghost predicate Initial<T>(b: Blocking<T>) {
    Fresh(b.q) && b.sem == Sema.Init(0) && b.p == PRest(false) && b.c == CRest(NoAnswer)
  }

  ghost predicate IsBlockingRun<T>(bs: seq<Blocking<T>>, moves: seq<Move<T>>) {
    && |bs| == |moves| + 1
    && forall i :: 0 <= i < |moves| ==> CanMove(bs[i], moves[i]) && Perform(bs[i], moves[i]) == Success(bs[i + 1])
  }

  lemma {:induction false} AlwaysTogether<T>(bs: seq<Blocking<T>>, moves: seq<Move<T>>, i: nat)
    requires IsBlockingRun(bs, moves) && Initial(bs[0]) && i <= |moves|
    ensures Together(bs[i])
  {
    hide Base;
    hide ProducerKnows;
    hide ConsumerKnows;
    if i > 0 {
      AlwaysTogether(bs, moves, i - 1);
      MoveKeepsTogether(bs[i - 1], moves[i - 1]);
    }
  }

  /** No run of the blocking queue ever fails an assertion. */
  lemma NeverFails<T>(bs: seq<Blocking<T>>, moves: seq<Move<T>>, move: Move<T>)
    requires IsBlockingRun(bs, moves) && Initial(bs[0]) && CanMove(bs[|moves|], move)
    ensures Perform(bs[|moves|], move).Success?
  {
    AlwaysTogether(bs, moves, |moves|);
    MoveKeepsTogether(bs[|moves|], move);
  }

  /** Calls that answer "nothing" when there is nothing: all but those that wait without a limit. */
  predicate MayGiveUp(call: Call) {
    match call
    case WaitDequeueCall => false
    case WaitDequeueTimedCall(usecs) => usecs >= 0
    case _ => true
  }

  /** Slot `slot` of block `block` is alive and holds the oldest element, which is `v`. */
  ghost predicate SeesOldest<T>(q: State<T>, block: nat, slot: nat, v: T) {
    && block < |q.blocks| && slot < |q.blocks[block].live| == |q.blocks[block].data|
    && q.blocks[block].live[slot] && q.blocks[block].data[slot] == v
  }

  /**
    What each call answers when it returns, `removed` being what had been removed when it
    began.
   */
  ghost predicate Answered<T>(removed: seq<T>, call: Call, q: State<T>, answer: Answer<T>) {
    var n := |removed|;
    match answer
    case NoAnswer => false
    case Failed => !call.PeekCall? && MayGiveUp(call) && q.removed == removed
    case Taken(result) =>
      && n < |q.accepted| && q.removed == removed + [q.accepted[n]]
      && !call.PeekCall? && result == (if call.PopCall? then None else Some(q.accepted[n]))
    case Seen(block, slot) =>
      && call.PeekCall? && q.removed == removed && q.c == CIdle(At(block, slot))
      && n < |q.accepted| && SeesOldest(q, block, slot, q.accepted[n])
    case NothingSeen => call.PeekCall? && q.removed == removed
  }

  /** The address that `peek` answers with, from that moment to the next call. */
  lemma AddressIsRight<T>(q: State<T>, block: nat, slot: nat)
    requires Inv(q) && Balanced(q) && q.c == CIdle(At(block, slot))
    ensures var n := |q.removed|; n < |q.accepted| && SeesOldest(q, block, slot, q.accepted[n])
  {
    PeekSeesTheOldest(q);
    SlotsPaired(q, block);
    assert q.accepted[|q.removed|] == Abs(q)[0];
    hide Base;
    hide Abs;
  }

  lemma SlotsPaired<T>(q: State<T>, block: nat)
    requires Base(q) && block < |q.blocks|
    ensures |q.blocks[block].live| == |q.blocks[block].data|
  {
    assert q.blocks[block].Ok();
  }

  /** The value at the head of the queue is the oldest accepted one that has not been removed. */
  lemma HeadIsOldest<T>(q: State<T>)
    requires Balanced(q) && Abs(q) != []
    ensures |q.removed| < |q.accepted| && q.accepted[|q.removed|] == Abs(q)[0]
  {
    hide Base;
    hide Abs;
  }

  /** What the inner operation of a call does when it returns. */
  lemma InnerAnswers<T>(q: State<T>)
    requires Inv(q) && Balanced(q) && !q.c.CIdle?
    ensures var o := ConsumerNext(q);
            && o.Next? && Inv(o.s) && Balanced(o.s) && o.s.accepted == q.accepted
            && (!o.s.c.CIdle? ==> o.s.c.op == q.c.op && o.s.removed == q.removed)
            && (o.s.c.CIdle? ==>
                  match o.s.c.answer
                  case Removed(result) =>
                    && q.c.op != Peek && |q.removed| < |q.accepted|
                    && o.s.removed == q.removed + [q.accepted[|q.removed|]]
                    && result == (if q.c.op == Pop then None else Some(q.accepted[|q.removed|]))
                  case At(_, _) => q.c.op == Peek && o.s.removed == q.removed
                  case Empty => o.s.removed == q.removed
                  case NotDequeued => false)
  {
    hide Inv;
    hide Base;
    hide Abs;
    hide Balanced;
    hide ConsumerNext;
    StepRefines(q, ConsumerStep);
    StepBalances(q, ConsumerStep);
    ConsumerLeaves(q);
    ConsumerAnswers(q);
    assert Step(q, ConsumerStep) == ConsumerNext(q);
    var q' := ConsumerNext(q).s;
    if q'.c.CIdle? && q'.c.answer.Removed? {
      HeadIsOldest(q);
    }
  }

  /**
    A call that returns from the inner queue answers as it should: `try_dequeue` and the
    waiting calls hand out the oldest accepted value not yet removed, `pop` removes it,
    `peek` gives its address or says that there was nothing.
   */
  lemma CallAnswers<T>(b: Blocking<T>, timedOut: bool)
    requires Together(b) && b.c.CInside? && CanMove(b, ConsumerMoves(timedOut))
    ensures var r := ConsumerMove(b, timedOut);
            && r.Success? && r.b.q.accepted == b.q.accepted
            && (r.b.c.CRest? ==> r.b.c.answer != Failed && Answered(b.q.removed, b.c.call, r.b.q, r.b.c.answer))
            && (!r.b.c.CRest? ==> r.b.c == b.c && r.b.q.removed == b.q.removed)
  {
    InsideKeepsTogether(b, timedOut);
    InnerAnswers(b.q);
    var q' := ConsumerNext(b.q).s;
    if q'.c.CIdle? && q'.c.answer.At? {
      AddressIsRight(q', q'.c.answer.block, q'.c.answer.slot);
    }
    hide Inv;
    hide Balanced;
    hide ConsumerNext;
    hide SeesOldest;
  }

  /**
    A call gives up only when every element in the queue belongs to an enqueue that has
    not returned yet; while the producer is at rest, only when the queue is empty.
   */
  lemma GivingUpIsRight<T>(b: Blocking<T>, timedOut: bool)
    requires Together(b) && b.c.CWaiting? && CanMove(b, ConsumerMoves(timedOut))
    requires ConsumerMove(b, timedOut).Success? && ConsumerMove(b, timedOut).b.c == CRest(Failed)
    ensures |Abs(b.q)| == Unsignalled(b) && (b.p.PRest? ==> Abs(b.q) == [])
  {
    PermitsAreCovered(b);
  }

  /** At rest `size_approx`, which asks the semaphore, is the number of elements. */
  lemma SizeApproxAtRest<T>(b: Blocking<T>)
    requires Together(b) && b.p.PRest? && b.c.CRest?
    ensures Sema.AvailableApprox(b.sem) == |Abs(b.q)|
  {
    PermitsAreCovered(b);
  }

  /** No wake-up is lost: a consumer asleep beside a producer at rest faces an empty queue. */
  lemma AsleepMeansEmpty<T>(b: Blocking<T>)
    requires Together(b) && b.p.PRest? && b.c.CWaiting?
    requires (b.sem.w.Sleep? || b.sem.w.SleepTimed?) && b.sem.kernel == 0
    ensures Abs(b.q) == []
  {
    PermitsAreCovered(b);
    Sema.NoLostWakeup(b.sem);
  }
}
