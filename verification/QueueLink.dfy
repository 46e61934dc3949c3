/**
  The link between two pipelines: a `QueueSink` pushes into a queue from which a
  `QueueSource` pops. The sink ignores whether its push succeeded.
 */
module QueueLink {
  import opened Wrappers
  import Words
  import opened SpscQueue
  import opened QueueInvariant
  import opened QueueRuns
  import opened QueueCapacity
  import opened QueueFilling
  import opened QueueSizes
  import opened QueueObject

  /** What a queue is built for by default. */
  const LINK_SIZE: nat := 15

  // ---------------------------------------------------------------- the objects

  class MoodycamelQueue<T> {
    const queue: ReaderWriterQueue<T>

    constructor (junk: (nat, nat) -> T)
      ensures queue.Valid() && Fresh(queue.m) && queue.size == LINK_SIZE
      ensures Base(queue.m) && Capacity(queue.m) == LINK_SIZE
    {
      BlockSizeFits();
      assert LINK_SIZE == 15;
      hide *;
      queue := new ReaderWriterQueue<T>(LINK_SIZE, 512, 9, junk);
      new;
      DefaultCapacity(queue.m);
      FreshBase(queue.m);
    }

    /** `push` never allocates. */
    method Push(x: T, others: Schedule<T>) returns (ok: bool)
      requires queue.Valid() && queue.m.p.PIdle?
      modifies queue
      ensures queue.Valid() && queue.size == old(queue.size) && queue.m.p.PIdle?
      ensures queue.m.accepted == old(queue.m.accepted) + (if ok then [x] else [])
      ensures !ok ==> exists j :: |old(queue.states)| <= j < |queue.states| && FullFor(queue.states[j], queue.size)
    {
      hide *;
      ok := queue.InnerEnqueue(x, false, false, [], others);
    }

    method PopFront(item0: T, others: Schedule<T>) returns (ok: bool, item: T)
      requires queue.Valid() && queue.m.c.CIdle?
      modifies queue
      ensures queue.Valid() && queue.size == old(queue.size) && queue.m.c.CIdle?
      ensures ok ==> queue.m.removed == old(queue.m.removed) + [item] && queue.m.removed <= queue.m.accepted
      ensures !ok ==> queue.m.removed == old(queue.m.removed) && item == item0
      ensures !ok ==> exists j :: |old(queue.states)| <= j < |queue.states| && IsEmpty(queue.states[j])
    {
      hide *;
      ok, item := queue.TryDequeue(item0, others);
    }
  }

  class QueueSink<T> {
    const queue: MoodycamelQueue<T>

    constructor (queue: MoodycamelQueue<T>)
      ensures this.queue == queue
    {
      this.queue := queue;
    }

    /** The value is passed on, or dropped without notice, the queue having been full. */
    method Process(input: T, others: Schedule<T>)
      requires queue.queue.Valid() && queue.queue.m.p.PIdle?
      modifies queue.queue
      ensures queue.queue.Valid() && queue.queue.size == old(queue.queue.size) && queue.queue.m.p.PIdle?
      ensures var q := queue.queue;
              || q.m.accepted == old(q.m.accepted) + [input]
              || (q.m.accepted == old(q.m.accepted)
                  && exists j :: |old(q.states)| <= j < |q.states| && FullFor(q.states[j], q.size))
    {
      var ok := queue.Push(input, others);
    }
  }

  class QueueSource<T> {
    const queue: MoodycamelQueue<T>

    constructor (queue: MoodycamelQueue<T>)
      ensures this.queue == queue
    {
      this.queue := queue;
    }

    /** The oldest value passed on and not yet yielded, or nothing, the queue having been empty. */
    method Process(out0: T, others: Schedule<T>) returns (out: Option<T>)
      requires queue.queue.Valid() && queue.queue.m.c.CIdle?
      modifies queue.queue
      ensures queue.queue.Valid() && queue.queue.size == old(queue.queue.size) && queue.queue.m.c.CIdle?
      ensures var q := queue.queue;
              match out
              case Some(v) => q.m.removed == old(q.m.removed) + [v] && q.m.removed <= q.m.accepted
              case None =>
                && q.m.removed == old(q.m.removed)
                && exists j :: |old(q.states)| <= j < |q.states| && IsEmpty(q.states[j])
    {
      var ok, item := queue.PopFront(out0, others);
      if !ok {
        return None;
      }
      return Some(item);
    }
  }

  lemma BlockSizeFits()
    ensures 512 == Words.Pow2(9) && LINK_SIZE < Words.Pow2(Words.W - 1) < Words.Pow2(Words.W)
  {
    assert Words.Pow2(4) == 16;
    hide Words.Pow2;
    Words.Pow2Monotone(4, Words.W - 1);
    Words.Pow2Adds(1, Words.W - 1);
    Words.SmallPowers();
  }

  // ---------------------------------------------------------------- whole runs of the link

  /** The sink never allocates, and the source only dequeues. */
  ghost predicate IsLinkRun<T>(states: seq<State<T>>, actions: seq<Action<T>>) {
    && IsRun(states, actions) && Fresh(states[0]) && Roomy(states[0], LINK_SIZE)
    && forall i :: 0 <= i < |actions| ==>
         && (actions[i].CallEnqueue? ==> !actions[i].canAlloc)
         && (actions[i].CallDequeue? ==> actions[i].op == TryDequeue)
  }

  /** A value that the sink was given, and whether it was passed on. */
  datatype Sent<T> = Sent(x: T, kept: bool)

  /** The value of the sink's current or last call. */
  ghost function Given<T>(actions: seq<Action<T>>, i: nat): Option<T>
    requires i <= |actions|
  {
    if i == 0 then None
    else if actions[i - 1].CallEnqueue? then Some(actions[i - 1].x)
    else Given(actions, i - 1)
  }

  /** The sink's calls that have returned, in order. */
  ghost function Returned<T>(states: seq<State<T>>, actions: seq<Action<T>>, i: nat): seq<Sent<T>>
    requires |states| == |actions| + 1 && i <= |actions|
  {
    if i == 0 then []
    else
      Returned(states, actions, i - 1)
      + if actions[i - 1].ProducerStep? && states[i].p.PIdle? && Given(actions, i - 1).Some?
        then [Sent(Given(actions, i - 1).value, states[i].p.last == Accepted)] else []
  }

  ghost function Kept<T>(sent: seq<Sent<T>>): seq<T> {
    if sent == [] then []
    else Kept(sent[..|sent| - 1]) + if sent[|sent| - 1].kept then [sent[|sent| - 1].x] else []
  }

  /** The values the source has yielded, in order. */
  ghost function Yielded<T>(states: seq<State<T>>, actions: seq<Action<T>>, i: nat): seq<T>
    requires |states| == |actions| + 1 && i <= |actions|
  {
    if i == 0 then []
    else
      Yielded(states, actions, i - 1)
      + if actions[i - 1].ConsumerStep? && states[i].c.CIdle? && states[i].c.answer.Removed?
           && states[i].c.answer.result.Some?
        then [states[i].c.answer.result.value] else []
  }

  /** A producer that never allocates, and a consumer that hands out what it removes. */
  ghost predicate LinkPcs<T>(s: State<T>) {
    && (s.p.PLoadTailBlock? || s.p.PLoadTail? || s.p.PLoadFront? || s.p.PLoadNext? || s.p.PLoadFrontBlock? ==> !s.p.canAlloc)
    && !s.p.PMakeBlock?
    && (!s.c.CIdle? ==> s.c.op == TryDequeue)
    && (s.c.CDestroy? || s.c.CStoreFront? ==> s.c.got.Some?)
  }

  lemma StepKeepsPcs<T>(s: State<T>, a: Action<T>)
    requires Enabled(s, a) && Step(s, a).Next? && LinkPcs(s)
    requires (a.CallEnqueue? ==> !a.canAlloc) && (a.CallDequeue? ==> a.op == TryDequeue)
    ensures LinkPcs(Step(s, a).s)
  { }

  /** What a step does to a sink call that is under way. */
  lemma StepOfCall<T>(s: State<T>, a: Action<T>)
    requires Enabled(s, a) && Step(s, a).Next? && LinkPcs(s)
    ensures var s' := Step(s, a).s;
            && (a.ProducerStep? ==>
                  && !s.p.PIdle?
                  && (s'.p.PIdle? ==> s'.p.last == Accepted || s'.p.last == Refused(false))
                  && s'.accepted == (if s'.p == PIdle(Accepted) then s.accepted + [s.p.x] else s.accepted)
                  && (!s'.p.PIdle? ==> s'.p.x == s.p.x))
            && (!a.ProducerStep? ==> s'.accepted == s.accepted && (!a.CallEnqueue? ==> s'.p == s.p))
            && (a.CallEnqueue? ==> s'.p.x == a.x)
  { }

  lemma LinkStep<T>(states: seq<State<T>>, actions: seq<Action<T>>, i: nat)
    requires IsLinkRun(states, actions) && i < |actions|
    ensures |states| == |actions| + 1
    ensures Enabled(states[i], actions[i]) && Step(states[i], actions[i]) == Next(states[i + 1])
    ensures (actions[i].CallEnqueue? ==> !actions[i].canAlloc) && (actions[i].CallDequeue? ==> actions[i].op == TryDequeue)
  { }

  lemma LinkStart<T>(states: seq<State<T>>, actions: seq<Action<T>>)
    requires IsLinkRun(states, actions)
    ensures IsRun(states, actions) && Fresh(states[0]) && |states| == |actions| + 1
    ensures LinkPcs(states[0]) && states[0].p.PIdle? && states[0].accepted == states[0].removed == []
  { }

  lemma {:induction false} AlwaysLinkPcs<T>(states: seq<State<T>>, actions: seq<Action<T>>, i: nat)
    requires IsLinkRun(states, actions) && i <= |actions|
    ensures |states| == |actions| + 1
    ensures LinkPcs(states[i]) && (!states[i].p.PIdle? ==> Given(actions, i) == Some(states[i].p.x))
  {
    LinkStart(states, actions);
    if i > 0 {
      AlwaysLinkPcs(states, actions, i - 1);
      LinkStep(states, actions, i - 1);
      StepKeepsPcs(states[i - 1], actions[i - 1]);
      StepOfCall(states[i - 1], actions[i - 1]);
      hide IsLinkRun;
      hide LinkPcs;
      hide Step;
      hide Enabled;
    }
  }

  lemma {:induction false} KeptAreAccepted<T>(states: seq<State<T>>, actions: seq<Action<T>>, i: nat)
    requires IsLinkRun(states, actions) && i <= |actions|
    ensures |states| == |actions| + 1 && Kept(Returned(states, actions, i)) == states[i].accepted
  {
    hide IsLinkRun;
    hide LinkPcs;
    hide Step;
    hide Enabled;
    LinkStart(states, actions);
    if i > 0 {
      KeptAreAccepted(states, actions, i - 1);
      AlwaysLinkPcs(states, actions, i - 1);
      LinkStep(states, actions, i - 1);
      StepOfCall(states[i - 1], actions[i - 1]);
      var before, now := Returned(states, actions, i - 1), Returned(states, actions, i);
      if now != before {
        assert now[..|now| - 1] == before;
      }
    }
  }

  /** A consumer step that answers with a value removes that value; no other step removes any. */
  lemma YieldedIsRemoved<T>(states: seq<State<T>>, actions: seq<Action<T>>, i: nat)
    requires IsLinkRun(states, actions) && i < |actions|
    ensures |states| == |actions| + 1
    ensures var answer := states[i + 1].c;
            states[i + 1].removed == states[i].removed
              + if actions[i].ConsumerStep? && answer.CIdle? && answer.answer.Removed? && answer.answer.result.Some?
                then [answer.answer.result.value] else []
  {
    LinkStart(states, actions);
    AlwaysLinkPcs(states, actions, i);
    LinkStep(states, actions, i);
    if actions[i].ConsumerStep? && states[i + 1].c.CIdle? && states[i + 1].c.answer.Removed? {
      hide IsLinkRun;
      DequeueYieldsNext(states, actions, i);
    }
  }

  lemma {:induction false} YieldedAreRemoved<T>(states: seq<State<T>>, actions: seq<Action<T>>, i: nat)
    requires IsLinkRun(states, actions) && i <= |actions|
    ensures |states| == |actions| + 1 && Yielded(states, actions, i) == states[i].removed
  {
    LinkStart(states, actions);
    hide IsLinkRun;
    if i > 0 {
      YieldedAreRemoved(states, actions, i - 1);
      YieldedIsRemoved(states, actions, i - 1);
    }
  }

  /**
    In every interleaving the values the source yields are, in order, a prefix of those
    the sink was given and did not drop.
   */
  lemma LinkKeepsOrder<T>(states: seq<State<T>>, actions: seq<Action<T>>, i: nat)
    requires IsLinkRun(states, actions) && i <= |actions|
    ensures Yielded(states, actions, i) <= Kept(Returned(states, actions, i))
    ensures Base(states[i])
    ensures |Kept(Returned(states, actions, i))| - |Yielded(states, actions, i)| == |Abs(states[i])|
  {
    LinkStart(states, actions);
    hide IsLinkRun;
    hide IsRun;
    KeptAreAccepted(states, actions, i);
    YieldedAreRemoved(states, actions, i);
    Fifo(states, actions, i);
  }

  /** A value is dropped only if the queue held 15 elements at some moment of the push. */
  lemma DropMeansFull<T>(states: seq<State<T>>, actions: seq<Action<T>>, i: nat)
    requires IsLinkRun(states, actions) && i < |actions|
    requires Returned(states, actions, i + 1) != Returned(states, actions, i)
    requires !Returned(states, actions, i + 1)[|Returned(states, actions, i)|].kept
    ensures exists j :: LastEnqueueCall(actions, i) <= j <= i && FullFor(states[j], LINK_SIZE)
  {
    AlwaysLinkPcs(states, actions, i);
    StepOfCall(states[i], actions[i]);
    assert states[i + 1].p == PIdle(Refused(false));
    RefusalIsRight(states, actions, i, LINK_SIZE);
  }
}
