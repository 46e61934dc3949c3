/**
  Whole calls of the blocking queue, from start to return, in every interleaving: what they
  answer, what they change, and what they may claim about the queue.
 */
module BlockingRuns {
  import opened Wrappers
  import opened SpscQueue
  import opened QueueInvariant
  import opened QueueRuns
  import opened QueueRefinement
  import opened QueueCapacity
  import opened BlockingQueue
  import Sema = Semaphore

  // ---------------------------------------------------------------- one move

  lemma MoveAt<T>(bs: seq<Blocking<T>>, moves: seq<Move<T>>, i: nat)
    requires IsBlockingRun(bs, moves) && i < |moves|
    ensures |bs| == |moves| + 1
    ensures CanMove(bs[i], moves[i]) && Perform(bs[i], moves[i]) == Success(bs[i + 1])
  { }

  lemma RunStarts<T>(bs: seq<Blocking<T>>, moves: seq<Move<T>>)
    requires IsBlockingRun(bs, moves) && Initial(bs[0])
    ensures |bs| == |moves| + 1
    ensures Fresh(bs[0].q) && bs[0].p == PRest(false) && bs[0].c == CRest(NoAnswer)
  { }

  // ---------------------------------------------------------------- the consumer's calls

  /** The moment the current or last call of the consumer before state `i` began. */
  function LastDequeue<T>(moves: seq<Move<T>>, i: nat): (j: nat)
    requires i <= |moves|
    ensures j <= i && (j > 0 ==> moves[j - 1].StartDequeue?)
  {
    if i == 0 then 0 else if moves[i - 1].StartDequeue? then i else LastDequeue(moves, i - 1)
  }

  /** How far a call is that began when `removed` had been removed. */
  ghost predicate CallState<T>(removed: seq<T>, call: Call, b: Blocking<T>) {
    match b.c
    case CRest(answer) => Answered(removed, call, b.q, answer)
    case CWaiting(c) => c == call && !call.PeekCall? && b.q.removed == removed && Sema.Fits(WaitOf(call), b.sem.w)
    case CInside(c) => c == call && b.q.removed == removed
  }

  /** The other thread's moves, and this call's own, carry the call on. */
  lemma CallCarriesOn<T>(removed: seq<T>, call: Call, b: Blocking<T>, move: Move<T>)
    requires Together(b) && CanMove(b, move) && !move.StartDequeue? && CallState(removed, call, b)
    ensures Perform(b, move).Success? && CallState(removed, call, Perform(b, move).b)
  {
    MoveKeepsTogether(b, move);
    hide Together;
    match move {
      case StartEnqueue(x, canAlloc) =>
        OthersKeepAnswer(removed, call, b, Perform(b, move).b);
      case ProducerMoves(granted, raw) =>
        ProducerKeepsConsumer(b, granted, raw);
        OthersKeepAnswer(removed, call, b, Perform(b, move).b);
      case ConsumerMoves(timedOut) =>
        if b.c.CInside? {
          CallAnswers(b, timedOut);
        } else {
          WaitCarriesOn(removed, call, b, timedOut);
        }
    }
  }

  lemma ProducerKeepsConsumer<T>(b: Blocking<T>, granted: bool, raw: seq<T>)
    requires Together(b) && CanMove(b, ProducerMoves(granted, raw))
    ensures var r := ProducerMove(b, granted, raw);
            && r.Success? && r.b.c == b.c && r.b.q.c == b.q.c && r.b.q.removed == b.q.removed
            && b.q.accepted <= r.b.q.accepted && r.b.sem.w == b.sem.w
  {
    hide Inv;
    hide Balanced;
    hide ProducerNext;
    hide Sema.SignallerNext;
    MoveKeepsTogether(b, ProducerMoves(granted, raw));
    if b.p.PInside? {
      ProducerLeaves(b.q, granted, raw);
    } else {
      Sema.SignallerLeaves(b.sem);
    }
  }

  /** Moves of the producer leave an answer right: what it says of the queue stays true. */
  lemma OthersKeepAnswer<T>(removed: seq<T>, call: Call, b: Blocking<T>, b': Blocking<T>)
    requires Together(b') && CallState(removed, call, b)
    requires b'.c == b.c && b'.q.c == b.q.c && b'.q.removed == b.q.removed && b'.sem.w == b.sem.w
    requires b.q.accepted <= b'.q.accepted
    ensures CallState(removed, call, b')
  {
    hide Inv;
    hide Balanced;
    hide SeesOldest;
    if b.c.CRest? && b.c.answer.Seen? {
      AddressIsRight(b'.q, b.c.answer.block, b.c.answer.slot);
    }
  }

  lemma WaitCarriesOn<T>(removed: seq<T>, call: Call, b: Blocking<T>, timedOut: bool)
    requires Together(b) && b.c.CWaiting? && CanMove(b, ConsumerMoves(timedOut)) && CallState(removed, call, b)
    ensures ConsumerMove(b, timedOut).Success? && CallState(removed, call, ConsumerMove(b, timedOut).b)
  {
    hide Inv;
    hide Balanced;
    hide Sema.Inv;
    Sema.StepFits(b.sem, Sema.WaiterStep(timedOut), WaitOf(call));
    hide Sema.WaiterNext;
  }

  /**
    Every call of the consumer, in every run: `try_dequeue`, `pop` and the waiting calls
    wait for what they should, run the right inner operation once they have a permit, and
    answer with what it found; a call that gives up has removed nothing.
   */
  lemma {:induction false} DequeueAnswers<T>(bs: seq<Blocking<T>>, moves: seq<Move<T>>, i: nat)
    requires IsBlockingRun(bs, moves) && Initial(bs[0]) && i <= |moves|
    ensures |bs| == |moves| + 1
    ensures var j := LastDequeue(moves, i); j > 0 ==> CallState(bs[j].q.removed, moves[j - 1].call, bs[i])
  {
    hide *;
    RunStarts(bs, moves);
    if i > 0 {
      MoveAt(bs, moves, i - 1);
      AlwaysTogether(bs, moves, i - 1);
      LastDequeueStep(moves, i);
      if moves[i - 1].StartDequeue? {
        CallBegins(bs[i - 1], moves[i - 1].call);
      } else {
        DequeueAnswers(bs, moves, i - 1);
        var j := LastDequeue(moves, i - 1);
        if j > 0 {
          CallCarriesOn(bs[j].q.removed, moves[j - 1].call, bs[i - 1], moves[i - 1]);
        }
      }
    }
  }

  lemma LastDequeueStep<T>(moves: seq<Move<T>>, i: nat)
    requires 0 < i <= |moves|
    ensures LastDequeue(moves, i) == if moves[i - 1].StartDequeue? then i else LastDequeue(moves, i - 1)
  { }

  lemma CallBegins<T>(b: Blocking<T>, call: Call)
    requires CanMove(b, StartDequeue(call))
    ensures var b' := Perform(b, StartDequeue(call)).b; CallState(b'.q.removed, call, b')
  { }

  /**
    A call that may give up can always go on, whatever the producer does: `try_dequeue`,
    `pop` and `peek` at once, a timed wait if only by timing out.
   */
  lemma NeverStuck<T>(bs: seq<Blocking<T>>, moves: seq<Move<T>>, i: nat)
    requires IsBlockingRun(bs, moves) && Initial(bs[0]) && i <= |moves| && LastDequeue(moves, i) > 0
    requires MayGiveUp(moves[LastDequeue(moves, i) - 1].call)
    ensures |bs| == |moves| + 1 && (bs[i].c.CRest? || CanMove(bs[i], ConsumerMoves(true)))
    ensures !moves[LastDequeue(moves, i) - 1].call.WaitDequeueTimedCall? ==>
      bs[i].c.CRest? || CanMove(bs[i], ConsumerMoves(false))
  {
    hide *;
    DequeueAnswers(bs, moves, i);
    AlwaysTogether(bs, moves, i);
    CanGoOn(bs[LastDequeue(moves, i)].q.removed, moves[LastDequeue(moves, i) - 1].call, bs[i]);
  }

  lemma CanGoOn<T>(removed: seq<T>, call: Call, b: Blocking<T>)
    requires Together(b) && CallState(removed, call, b) && MayGiveUp(call)
    ensures b.c.CRest? || CanMove(b, ConsumerMoves(true))
    ensures !call.WaitDequeueTimedCall? ==> b.c.CRest? || CanMove(b, ConsumerMoves(false))
  {
    hide Inv;
    hide Balanced;
    hide Answered;
  }

  // ---------------------------------------------------------------- the producer's calls

  function LastEnqueue<T>(moves: seq<Move<T>>, i: nat): (j: nat)
    requires i <= |moves|
    ensures j <= i && (j > 0 ==> moves[j - 1].StartEnqueue?)
  {
    if i == 0 then 0 else if moves[i - 1].StartEnqueue? then i else LastEnqueue(moves, i - 1)
  }

  /** A producer in a call for `x` that may allocate, or may not. */
  predicate EnqueuesFor<T(==)>(x: T, canAlloc: bool, p: SpscQueue.Producer<T>) {
    match p
    case PIdle(_) => false
    case PLoadTailBlock(y, can) => y == x && can == canAlloc
    case PLoadTail(y, can, _) => y == x && can == canAlloc
    case PLoadFront(y, can, _, _) => y == x && can == canAlloc
    case PLoadNext(y, can, _) => y == x && can == canAlloc
    case PLoadFrontBlock(y, can, _, _) => y == x && can == canAlloc
    case PMakeBlock(y, _) => y == x && canAlloc
    case _ => p.x == x
  }

  lemma StaysInCall<T>(q: State<T>, granted: bool, raw: seq<T>, x: T, canAlloc: bool)
    requires EnqueuesFor(x, canAlloc, q.p) && ProducerNext(q, granted, raw).Next?
    ensures var p := ProducerNext(q, granted, raw).s.p;
            EnqueuesFor(x, canAlloc, p) || p == PIdle(Accepted) || p == PIdle(Refused(canAlloc))
  {
    hide InsertAfter;
    hide NewBlockSize;
    hide HasSlot;
  }

  /** How far an enqueue of `x` is that began when `accepted` had been accepted. */
  ghost predicate EnqueueState<T>(accepted: seq<T>, x: T, canAlloc: bool, b: Blocking<T>) {
    match b.p
    case PInside => b.q.accepted == accepted && EnqueuesFor(x, canAlloc, b.q.p)
    case PSignalling => b.q.accepted == accepted + [x]
    case PRest(ok) =>
      && b.q.accepted == accepted + (if ok then [x] else [])
      && b.q.p == PIdle(if ok then Accepted else Refused(canAlloc))
  }

  lemma EnqueueCarriesOn<T>(accepted: seq<T>, x: T, canAlloc: bool, b: Blocking<T>, move: Move<T>)
    requires Together(b) && CanMove(b, move) && !move.StartEnqueue? && EnqueueState(accepted, x, canAlloc, b)
    ensures Perform(b, move).Success? && EnqueueState(accepted, x, canAlloc, Perform(b, move).b)
  {
    hide Inv;
    hide Balanced;
    MoveKeepsTogether(b, move);
    match move {
      case ProducerMoves(granted, raw) =>
        if b.p.PInside? {
          StaysInCall(b.q, granted, raw, x, canAlloc);
          ProducerLeaves(b.q, granted, raw);
        }
      case ConsumerMoves(timedOut) => ConsumerKeepsProducer(b, timedOut);
      case StartDequeue(call) =>
    }
    hide ProducerNext;
    hide ConsumerMove;
    hide Sema.SignallerNext;
  }

  lemma ConsumerKeepsProducer<T>(b: Blocking<T>, timedOut: bool)
    requires Together(b) && CanMove(b, ConsumerMoves(timedOut))
    ensures var r := ConsumerMove(b, timedOut);
            r.Success? && r.b.p == b.p && r.b.q.p == b.q.p && r.b.q.accepted == b.q.accepted
  {
    hide Inv;
    hide Balanced;
    hide ConsumerNext;
    hide Sema.WaiterNext;
    MoveKeepsTogether(b, ConsumerMoves(timedOut));
    if b.c.CInside? {
      ConsumerLeaves(b.q);
    }
  }

  /**
    Every enqueue, in every run: it answers true if and only if its value has been accepted,
    once and during the call, and it allocates only if it may.
   */
  lemma {:induction false} EnqueueAnswers<T>(bs: seq<Blocking<T>>, moves: seq<Move<T>>, i: nat)
    requires IsBlockingRun(bs, moves) && Initial(bs[0]) && i <= |moves|
    ensures |bs| == |moves| + 1
    ensures var j := LastEnqueue(moves, i);
            j > 0 ==> EnqueueState(bs[j].q.accepted, moves[j - 1].x, moves[j - 1].canAlloc, bs[i])
  {
    hide *;
    RunStarts(bs, moves);
    if i > 0 {
      MoveAt(bs, moves, i - 1);
      AlwaysTogether(bs, moves, i - 1);
      LastEnqueueStep(moves, i);
      if moves[i - 1].StartEnqueue? {
        EnqueueBegins(bs[i - 1], moves[i - 1].x, moves[i - 1].canAlloc);
      } else {
        EnqueueAnswers(bs, moves, i - 1);
        var j := LastEnqueue(moves, i - 1);
        if j > 0 {
          EnqueueCarriesOn(bs[j].q.accepted, moves[j - 1].x, moves[j - 1].canAlloc, bs[i - 1], moves[i - 1]);
        }
      }
    }
  }

  lemma LastEnqueueStep<T>(moves: seq<Move<T>>, i: nat)
    requires 0 < i <= |moves|
    ensures LastEnqueue(moves, i) == if moves[i - 1].StartEnqueue? then i else LastEnqueue(moves, i - 1)
  { }

  lemma EnqueueBegins<T>(b: Blocking<T>, x: T, canAlloc: bool)
    requires CanMove(b, StartEnqueue(x, canAlloc))
    ensures var b' := Perform(b, StartEnqueue(x, canAlloc)).b; EnqueueState(b'.q.accepted, x, canAlloc, b')
  { }

  // ---------------------------------------------------------------- the inner queue's own run

  /** The step of the inner queue in a move, if there is one. */
  function InnerAction<T>(b: Blocking<T>, move: Move<T>): Option<Action<T>>
    requires CanMove(b, move)
  {
    match move
    case StartEnqueue(x, canAlloc) => Some(CallEnqueue(x, canAlloc))
    case ProducerMoves(granted, raw) => if b.p.PInside? then Some(ProducerStep(granted, raw)) else None
    case StartDequeue(call) => if call.PeekCall? then Some(CallDequeue(Peek)) else None
    case ConsumerMoves(timedOut) =>
      if b.c.CInside? then Some(ConsumerStep)
      else if Sema.WaiterNext(b.sem, timedOut).w == Sema.Idle(true) then Some(CallDequeue(InnerOf(b.c.call)))
      else None
  }

  lemma ConsumerMoveIsInner<T>(b: Blocking<T>, timedOut: bool)
    requires Together(b) && CanMove(b, ConsumerMoves(timedOut)) && ConsumerMove(b, timedOut).Success?
    ensures var q' := ConsumerMove(b, timedOut).b.q;
            if b.c.CInside? then ConsumerNext(b.q) == Next(q')
            else if Sema.WaiterNext(b.sem, timedOut).w == Sema.Idle(true) then
              b.q.c.CIdle? && q' == b.q.(c := CLoadFrontBlock(InnerOf(b.c.call)))
            else q' == b.q
  {
    hide Inv;
    hide Balanced;
    hide ConsumerNext;
    hide Sema.WaiterNext;
    hide Sema.Inv;
  }

  lemma MoveIsInner<T>(b: Blocking<T>, move: Move<T>)
    requires Together(b) && CanMove(b, move)
    ensures Perform(b, move).Success?
    ensures var q' := Perform(b, move).b.q;
            match InnerAction(b, move)
            case None => q' == b.q
            case Some(a) => Enabled(b.q, a) && Step(b.q, a) == Next(q')
  {
    hide Inv;
    hide Balanced;
    hide ProducerNext;
    hide ConsumerNext;
    hide Sema.WaiterNext;
    hide Sema.SignallerNext;
    MoveKeepsTogether(b, move);
    match move {
      case StartEnqueue(_, _) =>
      case StartDequeue(_) =>
      case ProducerMoves(granted, raw) =>
      case ConsumerMoves(timedOut) => ConsumerMoveIsInner(b, timedOut);
    }
  }

  /** The run of the inner queue up to state `i`; its `j`-th state is that of state `at[j]`. */
  datatype Inner<T> = Inner(states: seq<State<T>>, actions: seq<Action<T>>, at: seq<nat>)

  ghost predicate Projects<T>(bs: seq<Blocking<T>>, moves: seq<Move<T>>, i: nat, r: Inner<T>) {
    && i <= |moves| && |bs| == |moves| + 1
    && IsRun(r.states, r.actions) && r.states[0] == bs[0].q && r.states[|r.actions|] == bs[i].q
    && |r.at| == |r.states|
    && forall j :: 0 <= j < |r.at| ==> r.at[j] <= i && r.states[j] == bs[r.at[j]].q
  }

  /** From the start of a call on, the inner run is that of the call. */
  ghost predicate ProjectsCalls<T>(bs: seq<Blocking<T>>, moves: seq<Move<T>>, i: nat, r: Inner<T>) {
    && i <= |moves| && |bs| == |moves| + 1 && |r.at| == |r.actions| + 1
    && (forall j {:trigger r.at[j]} :: LastEnqueueCall(r.actions, |r.actions|) <= j < |r.at| ==> LastEnqueue(moves, i) <= r.at[j])
    && (bs[i].c.CInside? ==>
          forall j {:trigger r.at[j]} :: LastDequeueCall(r.actions, |r.actions|) <= j < |r.at| ==>
            LastDequeue(moves, i) <= r.at[j])
  }

  lemma NoInnerStep<T>(bs: seq<Blocking<T>>, moves: seq<Move<T>>, i: nat, r: Inner<T>)
    requires Projects(bs, moves, i, r) && ProjectsCalls(bs, moves, i, r) && i < |moves|
    requires CanMove(bs[i], moves[i]) && Perform(bs[i], moves[i]) == Success(bs[i + 1])
    requires InnerAction(bs[i], moves[i]) == None && bs[i + 1].q == bs[i].q
    ensures Projects(bs, moves, i + 1, r) && ProjectsCalls(bs, moves, i + 1, r)
  {
    hide IsRun;
    hide ProducerNext;
    hide ConsumerNext;
    hide Sema.WaiterNext;
    hide Sema.SignallerNext;
    hide LastEnqueueCall;
    hide LastDequeueCall;
  }

  function With<T>(r: Inner<T>, a: Action<T>, q: State<T>, i: nat): Inner<T> {
    Inner(r.states + [q], r.actions + [a], r.at + [i])
  }

  lemma InnerStep<T>(bs: seq<Blocking<T>>, moves: seq<Move<T>>, i: nat, r: Inner<T>, a: Action<T>)
    requires Projects(bs, moves, i, r) && i < |moves|
    requires Enabled(bs[i].q, a) && Step(bs[i].q, a) == Next(bs[i + 1].q)
    ensures Projects(bs, moves, i + 1, With(r, a, bs[i + 1].q, i + 1))
  {
    hide Step;
    hide Enabled;
    hide IsRun;
    RunLength(r.states, r.actions);
    RunExtends(r.states, r.actions, a);
    RunLength(r.states + [bs[i + 1].q], r.actions + [a]);
  }

  lemma InnerStepCalls<T>(bs: seq<Blocking<T>>, moves: seq<Move<T>>, i: nat, r: Inner<T>, a: Action<T>)
    requires ProjectsCalls(bs, moves, i, r) && i < |moves|
    requires CanMove(bs[i], moves[i]) && Perform(bs[i], moves[i]) == Success(bs[i + 1])
    requires InnerAction(bs[i], moves[i]) == Some(a)
    ensures ProjectsCalls(bs, moves, i + 1, With(r, a, bs[i + 1].q, i + 1))
  {
    hide LastEnqueueCall;
    hide LastDequeueCall;
    hide ProducerNext;
    hide ConsumerNext;
    hide Sema.WaiterNext;
    hide Sema.SignallerNext;
    LastEnqueueCallExtends(r.actions, a);
    LastDequeueCallExtends(r.actions, a);
    LastEnqueueStep(moves, i + 1);
    LastDequeueStep(moves, i + 1);
  }

  /**
    The inner queue makes a run of its own, so all that holds of the lock-free queue in
    every run holds of it inside the blocking one.
   */
  lemma {:induction false} InnerRun<T>(bs: seq<Blocking<T>>, moves: seq<Move<T>>, i: nat) returns (r: Inner<T>)
    requires IsBlockingRun(bs, moves) && Initial(bs[0]) && i <= |moves|
    ensures Projects(bs, moves, i, r) && ProjectsCalls(bs, moves, i, r)
  {
    hide *;
    RunStarts(bs, moves);
    if i == 0 {
      r := Inner([bs[0].q], [], [0]);
      InnerStarts(bs, moves);
    } else {
      r := InnerRun(bs, moves, i - 1);
      MoveAt(bs, moves, i - 1);
      AlwaysTogether(bs, moves, i - 1);
      MoveIsInner(bs[i - 1], moves[i - 1]);
      match InnerAction(bs[i - 1], moves[i - 1]) {
        case None => NoInnerStep(bs, moves, i - 1, r);
        case Some(a) =>
          InnerStep(bs, moves, i - 1, r, a);
          InnerStepCalls(bs, moves, i - 1, r, a);
          r := With(r, a, bs[i].q, i);
      }
    }
  }

  lemma InnerStarts<T>(bs: seq<Blocking<T>>, moves: seq<Move<T>>)
    requires |bs| == |moves| + 1 && bs[0].c.CRest?
    ensures Projects(bs, moves, 0, Inner([bs[0].q], [], [0])) && ProjectsCalls(bs, moves, 0, Inner([bs[0].q], [], [0]))
  { }

  lemma ProjectedParts<T>(bs: seq<Blocking<T>>, moves: seq<Move<T>>, i: nat, r: Inner<T>)
    requires Projects(bs, moves, i, r) && |bs| == |moves| + 1
    ensures IsRun(r.states, r.actions) && |r.states| == |r.actions| + 1
    ensures r.states[0] == bs[0].q && r.states[|r.actions|] == bs[i].q
  {
    RunLength(r.states, r.actions);
    hide IsRun;
  }

  /** A moment of the inner run's current call is one of the whole run's. */
  lemma DequeueMoment<T>(bs: seq<Blocking<T>>, moves: seq<Move<T>>, i: nat, r: Inner<T>, j: nat)
    requires Projects(bs, moves, i, r) && ProjectsCalls(bs, moves, i, r) && bs[i].c.CInside?
    requires LastDequeueCall(r.actions, |r.actions|) <= j < |r.states|
    ensures j < |r.at| && LastDequeue(moves, i) <= r.at[j] <= i && bs[r.at[j]].q == r.states[j]
  { }

  lemma EnqueueMoment<T>(bs: seq<Blocking<T>>, moves: seq<Move<T>>, i: nat, r: Inner<T>, j: nat)
    requires Projects(bs, moves, i, r) && ProjectsCalls(bs, moves, i, r)
    requires LastEnqueueCall(r.actions, |r.actions|) <= j < |r.states|
    ensures j < |r.at| && LastEnqueue(moves, i) <= r.at[j] <= i && bs[r.at[j]].q == r.states[j]
  { }

  lemma SawNothing<T>(b: Blocking<T>, timedOut: bool)
    requires Together(b) && b.c == CInside(PeekCall) && CanMove(b, ConsumerMoves(timedOut))
    requires ConsumerMove(b, timedOut).Success? && ConsumerMove(b, timedOut).b.c == CRest(NothingSeen)
    ensures Inv(b.q) && b.q.c.CLoadTailBlock? && b.q.k == 0
  {
    hide Inv;
    hide Balanced;
    hide ConsumerNext;
    InnerAnswers(b.q);
    EmptyFromSecondLook(b.q);
  }

  /** A `peek` that sees nothing overlapped a moment when the queue was empty. */
  lemma NothingSeenIsRight<T>(bs: seq<Blocking<T>>, moves: seq<Move<T>>, i: nat)
    requires IsBlockingRun(bs, moves) && Initial(bs[0]) && i < |moves| && |bs| == |moves| + 1
    requires moves[i].ConsumerMoves? && bs[i].c == CInside(PeekCall) && bs[i + 1].c == CRest(NothingSeen)
    ensures exists k :: LastDequeue(moves, i) <= k <= i && IsEmpty(bs[k].q)
  {
    hide *;
    RunStarts(bs, moves);
    MoveAt(bs, moves, i);
    AlwaysTogether(bs, moves, i);
    PerformConsumes(bs[i], moves[i]);
    SawNothing(bs[i], moves[i].timedOut);
    var r := InnerRun(bs, moves, i);
    ProjectedParts(bs, moves, i, r);
    var j := EmptyWitness(r.states, r.actions, |r.actions|);
    DequeueMoment(bs, moves, i, r, j);
    assert IsEmpty(bs[r.at[j]].q);
  }

  lemma PerformConsumes<T>(b: Blocking<T>, move: Move<T>)
    requires CanMove(b, move)
    ensures move.ConsumerMoves? ==> Perform(b, move) == ConsumerMove(b, move.timedOut)
    ensures move.ProducerMoves? ==> Perform(b, move) == ProducerMove(b, move.granted, move.raw)
  { }

  lemma ReturnsWith<T>(q: State<T>, granted: bool, raw: seq<T>)
    requires !q.p.PIdle? && ProducerNext(q, granted, raw).Next?
    ensures var p := ProducerNext(q, granted, raw).s.p; p.PIdle? ==> p.last == Accepted || p.last.Refused?
  {
    hide HasSlot;
    hide InsertAfter;
    hide NewBlockSize;
  }

  lemma WasRefused<T>(b: Blocking<T>, granted: bool, raw: seq<T>)
    requires Together(b) && b.p.PInside? && CanMove(b, ProducerMoves(granted, raw))
    requires ProducerMove(b, granted, raw).Success? && ProducerMove(b, granted, raw).b.p == PRest(false)
    ensures Inv(b.q) && (b.q.p.PMakeBlock? || Deciding(b.q))
  {
    hide Inv;
    hide Balanced;
    hide ProducerNext;
    hide Deciding;
    EnqueuingKeepsTogether(b, granted, raw);
    ReturnsWith(b.q, granted, raw);
    RefusedWhileDeciding(b.q, ProducerStep(granted, raw));
  }

  /**
    An enqueue of either kind on a queue built for `size` elements is refused only after a
    moment of the call when there was no slot to be had and at least that many elements.
   */
  lemma EnqueueRefusalIsRight<T>(bs: seq<Blocking<T>>, moves: seq<Move<T>>, i: nat, size: nat)
    requires IsBlockingRun(bs, moves) && Initial(bs[0]) && i < |moves| && |bs| == |moves| + 1
    requires Base(bs[0].q) && Roomy(bs[0].q, size)
    requires moves[i].ProducerMoves? && bs[i].p.PInside? && bs[i + 1].p == PRest(false)
    ensures exists k :: LastEnqueue(moves, i) <= k <= i && FullFor(bs[k].q, size)
  {
    hide *;
    RunStarts(bs, moves);
    MoveAt(bs, moves, i);
    AlwaysTogether(bs, moves, i);
    PerformConsumes(bs[i], moves[i]);
    WasRefused(bs[i], moves[i].granted, moves[i].raw);
    var r := InnerRun(bs, moves, i);
    ProjectedParts(bs, moves, i, r);
    var j;
    if bs[i].q.p.PMakeBlock? {
      j := AsksWhenFull(r.states, r.actions, |r.actions|, size);
    } else {
      j := FullWitness(r.states, r.actions, |r.actions|, size);
    }
    EnqueueMoment(bs, moves, i, r, j);
    assert FullFor(bs[r.at[j]].q, size);
  }
}
