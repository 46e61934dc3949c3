/** What every run of the queue, of any length and any interleaving, guarantees its callers. */
module QueueRuns {
  import opened Wrappers
  import opened SpscQueue
  import opened QueueInvariant
  import opened QueueRefinement

  /** A finite run: `states[i + 1]` is where `actions[i]` leads from `states[i]`. */
  ghost predicate IsRun<T>(states: seq<State<T>>, actions: seq<Action<T>>) {
    && |states| == |actions| + 1
    && forall i :: 0 <= i < |actions| ==>
         Enabled(states[i], actions[i]) && Step(states[i], actions[i]) == Next(states[i + 1])
  }

  lemma RunLength<T>(states: seq<State<T>>, actions: seq<Action<T>>)
    requires IsRun(states, actions)
    ensures |states| == |actions| + 1
  { }

  lemma RunAt<T>(states: seq<State<T>>, actions: seq<Action<T>>, i: nat)
    requires IsRun(states, actions) && i < |actions|
    ensures |states| == |actions| + 1
    ensures Enabled(states[i], actions[i]) && Step(states[i], actions[i]) == Next(states[i + 1])
  { }

  lemma ProducerGoesOn<T>(s: State<T>, granted: bool, raw: seq<T>)
    requires Inv(s) && Enabled(s, ProducerStep(granted, raw))
    ensures var o := ProducerNext(s, granted, raw); o.Next? && Inv(o.s) && Base(o.s)
  {
    ProducerStepKeeps(s, granted, raw);
  }

  lemma ConsumerGoesOn<T>(s: State<T>)
    requires Inv(s) && Enabled(s, ConsumerStep)
    ensures ConsumerNext(s).Next? && Inv(ConsumerNext(s).s) && Base(ConsumerNext(s).s)
  {
    ConsumerStepKeeps(s);
  }

  lemma RunExtends<T>(states: seq<State<T>>, actions: seq<Action<T>>, a: Action<T>)
    requires IsRun(states, actions) && Enabled(states[|actions|], a) && Step(states[|actions|], a).Next?
    ensures IsRun(states + [Step(states[|actions|], a).s], actions + [a])
  {
    hide Step;
    hide Enabled;
  }

  /** A queue as its constructor leaves it. */
  ghost predicate Fresh<T>(s: State<T>) {
    && Inv(s) && Abs(s) == [] && s.accepted == [] && s.removed == []
    && s.p == PIdle(NotEnqueued) && s.c == CIdle(NotDequeued)
  }

  lemma {:induction false} AlwaysInv<T>(states: seq<State<T>>, actions: seq<Action<T>>, i: nat)
    requires IsRun(states, actions) && Fresh(states[0]) && i <= |actions|
    ensures Inv(states[i])
  {
    hide *;
    RunLength(states, actions);
    if i == 0 {
      FreshIsBalanced(states[0]);
    } else {
      AlwaysInv(states, actions, i - 1);
      RunAt(states, actions, i - 1);
      StepRefines(states[i - 1], actions[i - 1]);
    }
  }

  lemma FreshIsBalanced<T>(s: State<T>)
    requires Fresh(s)
    ensures Inv(s) && Balanced(s)
  { }

  /** Nothing is lost or invented: accepted values are removed values plus the contents. */
  ghost predicate Balanced<T>(s: State<T>) {
    Base(s) && s.accepted == s.removed + Abs(s)
  }

  lemma StepBalances<T>(s: State<T>, a: Action<T>)
    requires Inv(s) && Enabled(s, a) && Balanced(s)
    ensures Step(s, a).Next? && Balanced(Step(s, a).s)
  {
    StepRefines(s, a);
    var s' := Step(s, a).s;
    assert Base(s) && Base(s');
    hide Inv;
    hide Base;
    hide Step;
    hide Balanced;
    hide Stutters;
    hide Enqueues;
    hide Dequeues;
    if a.ProducerStep? && s'.p == PIdle(Accepted) {
      EnqueueBalances(s, s', s.p.x);
    } else if a.ConsumerStep? && s'.c.CIdle? && s'.c.answer.Removed? {
      DequeueBalances(s, s', s'.c.answer.result);
    } else {
      StutterBalances(s, s');
    }
  }

  lemma StutterBalances<T>(s: State<T>, s': State<T>)
    requires Base(s) && Base(s') && Balanced(s) && Stutters(s, s')
    ensures Balanced(s')
  {
    hide Base;
  }

  lemma EnqueueBalances<T>(s: State<T>, s': State<T>, x: T)
    requires Base(s) && Base(s') && Balanced(s) && Enqueues(s, s', x)
    ensures Balanced(s')
  {
    hide Base;
    hide Abs;
    assert s.accepted + [x] == s.removed + (Abs(s) + [x]);
  }

  lemma DequeueBalances<T>(s: State<T>, s': State<T>, got: Option<T>)
    requires Base(s) && Base(s') && Balanced(s) && Dequeues(s, s', got)
    ensures Balanced(s')
  {
    hide Base;
    hide Abs;
    assert s.removed + Abs(s) == (s.removed + [Abs(s)[0]]) + Abs(s)[1..];
  }

  /**
    FIFO: at every moment of every run the accepted values are the removed ones followed
    by what the queue holds, so values leave in the order in which they were accepted.
   */
  lemma {:induction false} Fifo<T>(states: seq<State<T>>, actions: seq<Action<T>>, i: nat)
    requires IsRun(states, actions) && Fresh(states[0]) && i <= |actions|
    ensures Inv(states[i]) && states[i].accepted == states[i].removed + Abs(states[i])
    ensures states[i].removed <= states[i].accepted
  {
    hide Inv;
    hide Base;
    hide Abs;
    hide Fresh;
    AlwaysBalanced(states, actions, i);
    AlwaysInv(states, actions, i);
  }

  lemma {:induction false} AlwaysBalanced<T>(states: seq<State<T>>, actions: seq<Action<T>>, i: nat)
    requires IsRun(states, actions) && Fresh(states[0]) && i <= |actions|
    ensures Balanced(states[i])
  {
    hide *;
    RunLength(states, actions);
    if i == 0 {
      FreshIsBalanced(states[0]);
    } else {
      AlwaysBalanced(states, actions, i - 1);
      AlwaysInv(states, actions, i - 1);
      RunAt(states, actions, i - 1);
      StepBalances(states[i - 1], actions[i - 1]);
    }
  }

  /** Whatever the schedule, the code never faults: no run can be extended into an error. */
  lemma NeverFaults<T>(states: seq<State<T>>, actions: seq<Action<T>>, a: Action<T>)
    requires IsRun(states, actions) && Fresh(states[0]) && Enabled(states[|actions|], a)
    ensures Step(states[|actions|], a).Next?
  {
    AlwaysInv(states, actions, |actions|);
    StepRefines(states[|actions|], a);
  }

  /** The n-th value taken out by `try_dequeue` is the n-th value accepted. */
  lemma DequeueYieldsNext<T>(states: seq<State<T>>, actions: seq<Action<T>>, i: nat)
    requires IsRun(states, actions) && Fresh(states[0]) && i < |actions|
    requires actions[i].ConsumerStep? && states[i + 1].c.CIdle? && states[i + 1].c.answer.Removed?
    ensures var n := |states[i].removed|;
            && n < |states[i].accepted|
            && states[i + 1].removed == states[i].removed + [states[i].accepted[n]]
            && (states[i + 1].c.answer.result.Some? ==>
                  states[i + 1].c.answer.result.value == states[i].accepted[n])
  {
    Fifo(states, actions, i);
    StepRefines(states[i], actions[i]);
  }

  // ---------------------------------------------------------------- peek

  lemma {:induction false} ContentsStart<T>(blocks: seq<Block<T>>, ring: seq<nat>, m: nat, i: nat)
    requires AllOk(blocks) && InRange(ring, |blocks|) && i < m <= |ring|
    requires blocks[ring[i]].Len() > 0 && forall h :: 0 <= h < i ==> blocks[ring[h]].Len() == 0
    ensures Contents(blocks, ring, m) != []
    ensures Contents(blocks, ring, m)[0] == blocks[ring[i]].data[blocks[ring[i]].front]
  {
    if m > i + 1 {
      ContentsStart(blocks, ring, m - 1, i);
    } else if i > 0 {
      ContentsEmpty(blocks, ring, i);
    }
  }

  lemma {:induction false} ContentsEmpty<T>(blocks: seq<Block<T>>, ring: seq<nat>, m: nat)
    requires AllOk(blocks) && InRange(ring, |blocks|) && m <= |ring|
    requires forall h :: 0 <= h < m ==> blocks[ring[h]].Len() == 0
    ensures Contents(blocks, ring, m) == []
  {
    if m > 0 {
      ContentsEmpty(blocks, ring, m - 1);
    }
  }

  /**
    From the moment `peek` answers until the consumer's next call, the address it gave
    is that of a live element, and that element is the oldest in the queue.
   */
  lemma PeekSeesTheOldest<T>(s: State<T>)
    requires Inv(s) && s.c.CIdle? && s.c.answer.At?
    ensures var b := s.blocks[s.c.answer.block];
            var j := s.c.answer.slot;
            s.c.answer.block < |s.blocks| && j < |b.live| && b.live[j]
            && Abs(s) != [] && Abs(s)[0] == b.data[j]
  {
    if s.blocks[s.frontBlock].Len() > 0 {
      ContentsStart(s.blocks, s.ring, s.k + 1, 0);
    } else {
      ContentsStart(s.blocks, s.ring, s.k + 1, 1);
    }
  }

  // ---------------------------------------------------------------- "empty" answers

  /** The moment the current or last dequeue call before state `i` began. */
  function LastDequeueCall<T>(actions: seq<Action<T>>, i: nat): (j: nat)
    requires i <= |actions|
    ensures j <= i
  {
    if i == 0 then 0
    else if actions[i - 1].CallDequeue? then i
    else LastDequeueCall(actions, i - 1)
  }

  lemma {:induction false} LastDequeueCallPrefix<T>(actions: seq<Action<T>>, longer: seq<Action<T>>, i: nat)
    requires actions <= longer && i <= |actions|
    ensures LastDequeueCall(longer, i) == LastDequeueCall(actions, i)
  {
    if i > 0 {
      LastDequeueCallPrefix(actions, longer, i - 1);
    }
  }

  lemma LastDequeueCallExtends<T>(actions: seq<Action<T>>, a: Action<T>)
    ensures LastDequeueCall(actions + [a], |actions| + 1)
         == if a.CallDequeue? then |actions| + 1 else LastDequeueCall(actions, |actions|)
  {
    LastDequeueCallPrefix(actions, actions + [a], |actions|);
  }

  ghost predicate IsEmpty<T>(s: State<T>) {
    Base(s) && Abs(s) == []
  }

  /** A step that brings, or leaves, the consumer about to look whether the tail has moved on. */
  lemma SecondLook<T>(s: State<T>, a: Action<T>)
    requires Inv(s) && Enabled(s, a)
    requires Step(s, a).Next?
    requires var s' := Step(s, a).s; s'.c.CLoadTailBlock? && s'.k == 0
    ensures IsEmpty(Step(s, a).s) || (s.c.CLoadTailBlock? && s.k == 0 && !a.CallDequeue?)
  {
    hide Inv;
    hide IsEmpty;
    hide ProducerNext;
    hide ConsumerNext;
    match a {
      case ConsumerStep => LookedAtEmpty(s);
      case ProducerStep(granted, raw) => ProducerLeaves(s, granted, raw);
      case CallEnqueue(_, _) =>
      case CallDequeue(_) =>
    }
  }

  /** The access that brings the consumer there is the load of the `tail` of its front block. */
  lemma FromLoadTail<T>(s: State<T>)
    requires !s.c.CIdle? && ConsumerNext(s).Next? && ConsumerNext(s).s.c.CLoadTailBlock?
    ensures s.c.CLoadTail? && s.c.fb < |s.blocks| && s.c.bf == s.blocks[s.c.fb].tail
    ensures var t := s.c.fb; ConsumerNext(s).s.blocks == s.blocks[t := s.blocks[t].(localTail := s.blocks[t].tail)]
    ensures ConsumerNext(s).s.ring == s.ring && ConsumerNext(s).s.k == s.k
  {
    hide HasSlot;
    hide Kill;
    hide Rotate;
  }

  lemma LookedAtEmpty<T>(s: State<T>)
    requires Inv(s) && !s.c.CIdle? && ConsumerNext(s).Next?
    requires ConsumerNext(s).s.c.CLoadTailBlock? && ConsumerNext(s).s.k == 0
    ensures IsEmpty(ConsumerNext(s).s)
  {
    ConsumerGoesOn(s);
    hide *;
    FromLoadTail(s);
    FrontDrained(s);
    IsEmptyFrom(ConsumerNext(s).s);
  }

  lemma FrontDrained<T>(s: State<T>)
    requires Inv(s) && s.c.CLoadTail? && s.c.fb < |s.blocks| && s.c.bf == s.blocks[s.c.fb].tail
    ensures s.ring != [] && s.ring[0] == s.c.fb && s.blocks[s.c.fb].front == s.blocks[s.c.fb].tail
  { }

  lemma IsEmptyFrom<T>(s: State<T>)
    requires Base(s) && s.k == 0 && s.ring[0] < |s.blocks|
    requires s.blocks[s.ring[0]].front == s.blocks[s.ring[0]].tail
    ensures IsEmpty(s)
  {
    ContentsEmpty(s.blocks, s.ring, 1);
  }

  /**
    The second look is decisive: if the consumer found its front block empty and that
    block is still the tail block, the queue was empty at some moment of this call.
   */
  lemma {:induction false} EmptyWitness<T>(states: seq<State<T>>, actions: seq<Action<T>>, i: nat)
    returns (j: nat)
    requires IsRun(states, actions) && Fresh(states[0]) && i <= |actions|
    requires states[i].c.CLoadTailBlock? && states[i].k == 0
    ensures LastDequeueCall(actions, i) <= j <= i && IsEmpty(states[j])
  {
    if IsEmpty(states[i]) {
      j := i;
    } else {
      AlwaysInv(states, actions, i - 1);
      SecondLook(states[i - 1], actions[i - 1]);
      j := EmptyWitness(states, actions, i - 1);
    }
  }

  lemma EmptyFromSecondLook<T>(s: State<T>)
    requires Inv(s) && !s.c.CIdle? && ConsumerNext(s).Next? && ConsumerNext(s).s.c == CIdle(Empty)
    ensures s.c.CLoadTailBlock? && s.k == 0
  {
    hide *;
    AnswersEmpty(s);
    FrontIsTail(s);
  }

  lemma AnswersEmpty<T>(s: State<T>)
    requires !s.c.CIdle? && ConsumerNext(s).Next? && ConsumerNext(s).s.c == CIdle(Empty)
    ensures s.c.CLoadTailBlock? && s.c.fb == s.tailBlock
  {
    hide HasSlot;
    hide Kill;
    hide Rotate;
  }

  lemma FrontIsTail<T>(s: State<T>)
    requires Inv(s) && s.c.CLoadTailBlock? && s.c.fb == s.tailBlock
    ensures s.k == 0
  { }

  /** A dequeue, pop or peek that answers "empty" overlapped a moment when the queue was empty. */
  lemma EmptyAnswerIsRight<T>(states: seq<State<T>>, actions: seq<Action<T>>, i: nat)
    requires IsRun(states, actions) && Fresh(states[0]) && i < |actions|
    requires actions[i].ConsumerStep? && states[i + 1].c == CIdle(Empty)
    ensures exists j :: LastDequeueCall(actions, i) <= j <= i && IsEmpty(states[j])
  {
    AlwaysInv(states, actions, i);
    EmptyFromSecondLook(states[i]);
    hide Inv;
    hide Base;
    hide IsEmpty;
    hide Fresh;
    hide ConsumerNext;
    var j := EmptyWitness(states, actions, i);
  }
}
