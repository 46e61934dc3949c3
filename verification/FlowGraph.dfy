/**
  `Flow`, `Producer` and the blocks built on them: a push engine over a graph of objects.
  Every block always produces a value, except that an aggregator waits for its producers.
 */
module FlowGraph {
  import opened Wrappers
  import opened Aggregator

  datatype Value<T> = Item(item: T) | Batch(items: seq<Value<T>>)

  datatype Policy = Fanout | RoundRobin

  /** A block and the user's code in it. A source's `out(k)` is what it produces the `k`-th time. */
  datatype Block<!T(==)> =
    | Source(out: nat -> Value<T>)
    | Module(process: Value<T> -> Value<T>)
    | Aggregate(combine: multiset<Value<T>> -> Value<T>)
    | Sink

  // ---------------------------------------------------------------- the wired graph

  /** The wiring of a set of flow objects. Along every edge the rank goes down. */
  datatype Graph<!T(==,!new)> = Graph(
    next: map<Flow<T>, seq<(Flow<T>, nat)>>, producers: map<Flow<T>, nat>, rank: map<Flow<T>, nat>)

  /** What execution changes: the sources' counters, the sinks' inputs, the barriers. */
  datatype Memory<!T(==,!new)> = Memory(
    produced: map<Flow<T>, nat>, received: map<Flow<T>, seq<Value<T>>>, latest: map<Flow<T>, map<nat, Value<T>>>)

  ghost predicate NodeOk<T(!new)>(g: Graph<T>, n: Flow<T>)
    requires n in g.next && g.next.Keys == g.rank.Keys == g.producers.Keys
  {
    && (!n.block.Sink? && n.policy.Fanout? ==> |g.next[n]| > 0)
    && (n.policy.RoundRobin? ==> Spreads(n.block))
    && (n.block.Aggregate? ==> g.producers[n] <= MAX_PRODUCERS)
    && forall i {:trigger EdgeOk(g, n, g.next[n][i])} :: 0 <= i < |g.next[n]| ==> EdgeOk(g, n, g.next[n][i])
  }

  ghost predicate EdgeOk<T(!new)>(g: Graph<T>, n: Flow<T>, e: (Flow<T>, nat))
    requires n in g.next && g.next.Keys == g.rank.Keys == g.producers.Keys
  {
    && e.0 in g.next && g.rank[e.0] < g.rank[n]
    && (e.0.block.Aggregate? ==> e.1 < g.producers[e.0])
  }

  /** Only blocks that produce vectors may be given the round-robin policy. */
  ghost predicate Spreads<T(!new)>(b: Block<T>) {
    match b
    case Source(out) => forall k :: out(k).Batch?
    case Module(process) => forall v :: process(v).Batch?
    case _ => false
  }

  ghost predicate GraphOk<T(!new)>(g: Graph<T>) {
    && g.next.Keys == g.rank.Keys == g.producers.Keys
    && forall n {:trigger NodeOk(g, n)} :: n in g.next ==> NodeOk(g, n)
  }

  ghost predicate Covers<T(!new)>(g: Graph<T>, m: Memory<T>) {
    g.next.Keys == m.produced.Keys == m.received.Keys == m.latest.Keys
  }

  // ---------------------------------------------------------------- what execution means

  /** `process_any`: the memory after it, and its output. */
  ghost function Process<T(!new)>(g: Graph<T>, m: Memory<T>, n: Flow<T>, v: Value<T>, id: nat): (Memory<T>, Option<Value<T>>)
    requires GraphOk(g) && Covers(g, m) && n in g.next
  {
    match n.block
    case Source(out) => (m.(produced := m.produced[n := m.produced[n] + 1]), Some(out(m.produced[n])))
    case Module(process) => (m, Some(process(v)))
    case Aggregate(combine) =>
      var a := Arrive(m.latest[n], g.producers[n], id, v);
      (m.(latest := m.latest[n := a.latest]),
       if a.fired.Some? then Some(combine(Values(a.fired.value, g.producers[n]))) else None)
    case Sink => (m.(received := m.received[n := m.received[n] + [v]]), None)
  }

  /** What each consumer in turn gets of an output: a copy, or an element while there are any. */
  ghost function Shares<T(!new)>(policy: Policy, output: Value<T>, consumers: nat): (vs: seq<Value<T>>)
    ensures |vs| <= consumers
  {
    match policy
    case Fanout => seq(consumers, _ => output)
    case RoundRobin =>
      if output.Item? then [] else if |output.items| <= consumers then output.items else output.items[..consumers]
  }

  ghost function Executed<T(!new)>(g: Graph<T>, m: Memory<T>, n: Flow<T>, v: Value<T>, id: nat): (m': Memory<T>)
    requires GraphOk(g) && Covers(g, m) && n in g.next
    ensures Covers(g, m')
    decreases g.rank[n], 1, 0
  {
    var (m1, output) := Process(g, m, n, v, id);
    match output
    case None => m1
    case Some(w) => Produced(g, m1, n, Shares(n.policy, w, |g.next[n]|), 0)
  }

  /** The consumers from the `i`-th on are executed, each on its share. */
  ghost function Produced<T(!new)>(g: Graph<T>, m: Memory<T>, n: Flow<T>, shares: seq<Value<T>>, i: nat): (m': Memory<T>)
    requires GraphOk(g) && Covers(g, m) && n in g.next && i <= |shares| <= |g.next[n]|
    ensures Covers(g, m')
    decreases g.rank[n], 0, |shares| - i
  {
    if i == |shares| then m
    else
      assert NodeOk(g, n) && EdgeOk(g, n, g.next[n][i]);
      Produced(g, Executed(g, m, g.next[n][i].0, shares[i], g.next[n][i].1), n, shares, i + 1)
  }

  lemma ProducedUnfolds<T(!new)>(g: Graph<T>, m: Memory<T>, n: Flow<T>, shares: seq<Value<T>>, i: nat)
    requires GraphOk(g) && Covers(g, m) && n in g.next && i <= |shares| <= |g.next[n]|
    ensures i == |shares| ==> Produced(g, m, n, shares, i) == m
    ensures i < |shares| ==>
      && EdgeOk(g, n, g.next[n][i])
      && Produced(g, m, n, shares, i)
      == Produced(g, Executed(g, m, g.next[n][i].0, shares[i], g.next[n][i].1), n, shares, i + 1)
  {
    assert NodeOk(g, n);
    if i < |shares| {
      assert EdgeOk(g, n, g.next[n][i]);
    }
  }

  // ---------------------------------------------------------------- the objects

  class Flow<T(==,!new)> {
    const block: Block<T>
    const policy: Policy
    /** The bit mask and the map of an aggregator; of no use to the other blocks. */
    const barrier: Aggregator<Value<T>>
    var next_nodes: seq<(Flow<T>, nat)>
    var produced: nat
    /** What a sink's `process` has been called with. */
    var received: seq<Value<T>>

    constructor (block: Block<T>, policy: Policy)
      requires block.Aggregate? ==> policy.Fanout?
      ensures this.block == block && this.policy == policy
      ensures next_nodes == [] && produced == 0 && received == []
      ensures fresh(barrier) && barrier.Valid() && barrier.producer_count == 0 && barrier.latest == map[]
    {
      this.block, this.policy := block, policy;
      barrier := new Aggregator<Value<T>>();
      next_nodes, produced, received := [], 0, [];
    }

    /** Only an aggregator tells its producers apart. */
    method RegisterProducer() returns (id: nat)
      requires barrier.Valid()
      modifies barrier`producer_count
      ensures barrier.Valid()
      ensures id == if block.Aggregate? then old(barrier.producer_count) else 0
      ensures barrier.producer_count == old(barrier.producer_count) + if block.Aggregate? then 1 else 0
    {
      if block.Aggregate? {
        id := barrier.RegisterProducer();
      } else {
        id := 0;
      }
    }

    method AddConsumer(next: Flow<T>)
      requires next.barrier.Valid()
      modifies this`next_nodes, next.barrier`producer_count
      ensures next.barrier.Valid()
      ensures next_nodes == old(next_nodes) + [(next, if next.block.Aggregate? then old(next.barrier.producer_count) else 0)]
      ensures next.barrier.producer_count == old(next.barrier.producer_count) + if next.block.Aggregate? then 1 else 0
    {
      var id := next.RegisterProducer();
      next_nodes := next_nodes + [(next, id)];
    }

    method CountProduct(ghost g: Graph<T>)
      requires Wired(g) && this in g.next
      modifies this`produced
      ensures Wired(g) && ProducedOf(g) == old(ProducedOf(g))[this := old(produced) + 1]
      ensures ReceivedOf(g) == old(ReceivedOf(g)) && LatestOf(g) == old(LatestOf(g))
    {
      hide Wired;
      hide ProducedOf;
      hide ReceivedOf;
      hide LatestOf;
      ghost var was := ProducedOf(g);
      produced := produced + 1;
      StillWired(g);
      Updated(was, ProducedOf(g), this, produced);
    }

    method ProcessSource(ghost g: Graph<T>) returns (output: Option<Value<T>>)
      requires Wired(g) && this in g.next && block.Source?
      modifies this`produced
      ensures Wired(g)
      ensures var m := old(MemoryOf(g));
              && this in m.produced && output == Some(block.out(m.produced[this]))
              && MemoryOf(g) == m.(produced := m.produced[this := m.produced[this] + 1])
    {
      hide *;
      MemoryParts(g);
      output := Some(block.out(produced));
      CountProduct(g);
      MemoryParts(g);
    }

    lemma WiredAggregator(g: Graph<T>)
      requires Wired(g) && this in g.next
      ensures GraphOk(g) && NextWired(g) && BarriersApart(g) && g.next.Keys == g.producers.Keys
      ensures forall n :: n in g.next ==> n.barrier.Valid() && n.barrier.producer_count == g.producers[n]
      ensures forall n :: n in g.next && n != this ==> n.barrier != barrier
    { }

    /** What the arrival of a value changes, and what is collected once everyone has arrived. */
    method Collect(ghost g: Graph<T>, in_: Value<T>, producer_id: nat) returns (output: Option<Value<T>>)
      requires Wired(g) && this in g.next && block.Aggregate? && producer_id < g.producers[this] <= MAX_PRODUCERS
      modifies barrier`state, barrier`latest
      ensures Wired(g)
      ensures ProducedOf(g) == old(ProducedOf(g)) && ReceivedOf(g) == old(ReceivedOf(g))
      ensures forall n :: n in g.next && n != this ==> n.barrier.latest == old(n.barrier.latest)
      ensures var a := Arrive(old(barrier.latest), g.producers[this], producer_id, in_);
              && barrier.latest == a.latest
              && output == if a.fired.Some? then Some(block.combine(Values(a.fired.value, g.producers[this]))) else None
    {
      hide *;
      WiredAggregator(g);
      ghost var products, inputs := ProducedOf(g), ReceivedOf(g);
      var collected := barrier.ProcessAny(in_, producer_id);
      WiredFrom(g);
      Unchanged(products, ProducedOf(g));
      Unchanged(inputs, ReceivedOf(g));
      output := if collected.Some? then Some(block.combine(multiset(collected.value))) else None;
    }

    method ProcessAggregator(ghost g: Graph<T>, in_: Value<T>, producer_id: nat) returns (output: Option<Value<T>>)
      requires Wired(g) && this in g.next && block.Aggregate? && producer_id < g.producers[this] <= MAX_PRODUCERS
      modifies barrier`state, barrier`latest
      ensures Wired(g)
      ensures var m := old(MemoryOf(g));
              && this in m.latest
              && var a := Arrive(m.latest[this], g.producers[this], producer_id, in_);
              && MemoryOf(g) == m.(latest := m.latest[this := a.latest])
              && output == if a.fired.Some? then Some(block.combine(Values(a.fired.value, g.producers[this]))) else None
    {
      hide *;
      MemoryParts(g);
      ghost var was := LatestOf(g);
      output := Collect(g, in_, producer_id);
      Updated(was, LatestOf(g), this, barrier.latest);
      MemoryParts(g);
    }

    method Keep(ghost g: Graph<T>, in_: Value<T>)
      requires Wired(g) && this in g.next
      modifies this`received
      ensures Wired(g) && ReceivedOf(g) == old(ReceivedOf(g))[this := old(received) + [in_]]
      ensures ProducedOf(g) == old(ProducedOf(g)) && LatestOf(g) == old(LatestOf(g))
    {
      hide Wired;
      hide ProducedOf;
      hide ReceivedOf;
      hide LatestOf;
      ghost var was := ReceivedOf(g);
      received := received + [in_];
      StillWired(g);
      Updated(was, ReceivedOf(g), this, received);
    }

    method ProcessSink(ghost g: Graph<T>, in_: Value<T>)
      requires Wired(g) && this in g.next && block.Sink?
      modifies this`received
      ensures Wired(g)
      ensures var m := old(MemoryOf(g));
              this in m.received && MemoryOf(g) == m.(received := m.received[this := m.received[this] + [in_]])
    {
      hide *;
      MemoryParts(g);
      Keep(g, in_);
      MemoryParts(g);
    }

    method ProcessAny(ghost g: Graph<T>, in_: Value<T>, producer_id: nat) returns (output: Option<Value<T>>)
      requires Wired(g) && this in g.next && (block.Aggregate? ==> producer_id < g.producers[this])
      modifies this`produced, this`received, barrier`state, barrier`latest
      ensures Wired(g)
      ensures (MemoryOf(g), output) == Process(g, old(MemoryOf(g)), this, in_, producer_id)
    {
      hide *;
      WiredGraph(g);
      CountFits(g, this);
      ProcessUnfolds(g, MemoryOf(g), this, in_, producer_id);
      match block {
        case Source(_) => output := ProcessSource(g);
        case Module(process) => output := Some(process(in_));
        case Aggregate(_) => output := ProcessAggregator(g, in_, producer_id);
        case Sink =>
          ProcessSink(g, in_);
          output := None;
      }
    }

    method Execute(ghost g: Graph<T>, in_: Value<T>, producer_id: nat)
      requires Wired(g) && this in g.next && (block.Aggregate? ==> producer_id < g.producers[this])
      modifies g.next.Keys`produced, g.next.Keys`received, Barriers(g)`state, Barriers(g)`latest
      ensures Wired(g) && MemoryOf(g) == Executed(g, old(MemoryOf(g)), this, in_, producer_id)
      decreases g.rank[this], 3
    {
      hide Shares;
      hide Produced;
      hide MemoryOf;
      assert NodeOk(g, this);
      hide Wired;
      var output := ProcessAny(g, in_, producer_id);
      if output.Some? {
        Produce(g, output.value);
      }
    }

    /** `execute()` on a module or an aggregator: the missing input fails the cast, if it comes to that. */
    method ExecuteOnNothing() returns (failed: bool)
      requires barrier.Valid() && (block.Module? || block.Aggregate?)
      ensures failed <==> block.Module? || 0 !in barrier.latest
    {
      match block {
        case Module(_) => failed := true;
        case Aggregate(_) => failed := barrier.ProcessNothing(0);
      }
    }

    /** One consumer is executed on its share. */
    method ExecuteNext(ghost g: Graph<T>, i: nat, share: Value<T>)
      requires Wired(g) && this in g.next && i < |g.next[this]| && EdgeOk(g, this, g.next[this][i])
      modifies g.next.Keys`produced, g.next.Keys`received, Barriers(g)`state, Barriers(g)`latest
      ensures Wired(g)
      ensures MemoryOf(g) == Executed(g, old(MemoryOf(g)), g.next[this][i].0, share, g.next[this][i].1)
      decreases g.rank[this], 0
    {
      var (next, id) := next_nodes[i];
      next.Execute(g, share, id);
    }

    /** Copies for all but the last consumer, which gets the output itself. */
    method Fanout(ghost g: Graph<T>, output: Value<T>)
      requires Wired(g) && this in g.next && !block.Sink? && policy.Fanout?
      modifies g.next.Keys`produced, g.next.Keys`received, Barriers(g)`state, Barriers(g)`latest
      ensures Wired(g)
      ensures MemoryOf(g) == Produced(g, old(MemoryOf(g)), this, Shares(policy, output, |g.next[this]|), 0)
      decreases g.rank[this], 1
    {
      ghost var shares := Shares(policy, output, |g.next[this]|);
      assert NodeOk(g, this);
      for i := 0 to |next_nodes| - 1
        invariant Wired(g)
        invariant Produced(g, MemoryOf(g), this, shares, i) == Produced(g, old(MemoryOf(g)), this, shares, 0)
      {
        assert EdgeOk(g, this, g.next[this][i]);
        ExecuteNext(g, i, output);
      }
      assert EdgeOk(g, this, g.next[this][|next_nodes| - 1]);
      ExecuteNext(g, |next_nodes| - 1, output);
    }

    lemma WiredHere(g: Graph<T>)
      requires Wired(g) && this in g.next
      ensures next_nodes == g.next[this] && GraphOk(g)
    { }

    /** Element by element, as long as there are elements and consumers. */
    method RoundRobinProduce(ghost g: Graph<T>, output: Value<T>)
      requires Wired(g) && this in g.next && !block.Sink? && policy.RoundRobin? && output.Batch?
      modifies g.next.Keys`produced, g.next.Keys`received, Barriers(g)`state, Barriers(g)`latest
      ensures Wired(g)
      ensures MemoryOf(g) == Produced(g, old(MemoryOf(g)), this, Shares(policy, output, |g.next[this]|), 0)
      decreases g.rank[this], 1
    {
      hide *;
      WiredHere(g);
      ghost var shares := Shares(policy, output, |g.next[this]|);
      RoundRobinShares(output, |next_nodes|);
      var outputs := output.items;
      var max_size := if |outputs| <= |next_nodes| then |outputs| else |next_nodes|;
      for i := 0 to max_size
        invariant Wired(g)
        invariant Produced(g, MemoryOf(g), this, shares, i) == Produced(g, old(MemoryOf(g)), this, shares, 0)
      {
        ProducedUnfolds(g, MemoryOf(g), this, shares, i);
        ExecuteNext(g, i, outputs[i]);
      }
      ProducedUnfolds(g, MemoryOf(g), this, shares, max_size);
    }

    method Produce(ghost g: Graph<T>, output: Value<T>)
      requires Wired(g) && this in g.next && !block.Sink? && (policy.RoundRobin? ==> output.Batch?)
      modifies g.next.Keys`produced, g.next.Keys`received, Barriers(g)`state, Barriers(g)`latest
      ensures Wired(g)
      ensures MemoryOf(g) == Produced(g, old(MemoryOf(g)), this, Shares(policy, output, |g.next[this]|), 0)
      decreases g.rank[this], 2
    {
      match policy {
        case RoundRobin => RoundRobinProduce(g, output);
        case Fanout => Fanout(g, output);
      }
    }
  }

  lemma MemoryParts<T(!new)>(g: Graph<T>)
    ensures MemoryOf(g) == Memory(ProducedOf(g), ReceivedOf(g), LatestOf(g))
  { }

  lemma ProcessUnfolds<T(!new)>(g: Graph<T>, m: Memory<T>, n: Flow<T>, v: Value<T>, id: nat)
    requires GraphOk(g) && Covers(g, m) && n in g.next
    ensures g.next.Keys == m.produced.Keys == m.received.Keys == m.latest.Keys == g.producers.Keys
    ensures Process(g, m, n, v, id) ==
            match n.block
            case Source(out) => (m.(produced := m.produced[n := m.produced[n] + 1]), Some(out(m.produced[n])))
            case Module(process) => (m, Some(process(v)))
            case Aggregate(combine) =>
              var a := Arrive(m.latest[n], g.producers[n], id, v);
              (m.(latest := m.latest[n := a.latest]),
               if a.fired.Some? then Some(combine(Values(a.fired.value, g.producers[n]))) else None)
            case Sink => (m.(received := m.received[n := m.received[n] + [v]]), None)
  { }

  lemma CountFits<T(!new)>(g: Graph<T>, n: Flow<T>)
    requires GraphOk(g) && n in g.next
    ensures n.block.Aggregate? ==> g.producers[n] <= MAX_PRODUCERS
  {
    assert NodeOk(g, n);
  }

  lemma RoundRobinShares<T(!new)>(output: Value<T>, consumers: nat)
    requires output.Batch?
    ensures var n := if |output.items| <= consumers then |output.items| else consumers;
            var shares := Shares(RoundRobin, output, consumers);
            |shares| == n && forall i :: 0 <= i < n ==> shares[i] == output.items[i]
  { }

  ghost function Barriers<T(!new)>(g: Graph<T>): set<Aggregator<Value<T>>> {
    set n | n in g.next :: n.barrier
  }

  lemma Updated<K, V>(was: map<K, V>, now: map<K, V>, k: K, v: V)
    requires k in was && now.Keys == was.Keys && now[k] == v && forall x :: x in was && x != k ==> now[x] == was[x]
    ensures now == was[k := v]
  { }

  lemma Unchanged<K, V>(was: map<K, V>, now: map<K, V>)
    requires now.Keys == was.Keys && forall x :: x in was ==> now[x] == was[x]
    ensures now == was
  { }

  ghost predicate NextWired<T(!new)>(g: Graph<T>)
    reads g.next.Keys`next_nodes
  {
    forall n :: n in g.next ==> n.next_nodes == g.next[n]
  }

  ghost predicate BarriersApart<T(!new)>(g: Graph<T>) {
    forall n, m :: n in g.next && m in g.next && n != m ==> n.barrier != m.barrier
  }

  ghost predicate BarriersWired<T(!new)>(g: Graph<T>)
    requires g.next.Keys == g.producers.Keys
    reads Barriers(g)
  {
    forall n :: n in g.next ==> n.barrier.Valid() && n.barrier.producer_count == g.producers[n]
  }

  /** The objects are wired as the graph says. */
  ghost predicate Wired<T(!new)>(g: Graph<T>)
    reads g.next.Keys`next_nodes, Barriers(g)
  {
    GraphOk(g) && NextWired(g) && BarriersApart(g) && BarriersWired(g)
  }

  lemma WiredGraph<T(!new)>(g: Graph<T>)
    requires Wired(g)
    ensures GraphOk(g)
  { }

  lemma WiredFrom<T(!new)>(g: Graph<T>)
    requires GraphOk(g) && NextWired(g) && BarriersApart(g) && g.next.Keys == g.producers.Keys
    requires forall n :: n in g.next ==> n.barrier.Valid() && n.barrier.producer_count == g.producers[n]
    ensures Wired(g)
  { }

  twostate lemma StillWired<T(!new)>(g: Graph<T>)
    requires old(Wired(g))
    requires forall n :: n in g.next ==> n.next_nodes == old(n.next_nodes) && unchanged(n.barrier)
    ensures Wired(g)
  { }

  ghost function ProducedOf<T(!new)>(g: Graph<T>): (m: map<Flow<T>, nat>)
    reads g.next.Keys`produced
    ensures m.Keys == g.next.Keys && forall n :: n in g.next ==> m[n] == n.produced
  {
    map n | n in g.next :: n.produced
  }

  ghost function ReceivedOf<T(!new)>(g: Graph<T>): (m: map<Flow<T>, seq<Value<T>>>)
    reads g.next.Keys`received
    ensures m.Keys == g.next.Keys && forall n :: n in g.next ==> m[n] == n.received
  {
    map n | n in g.next :: n.received
  }

  ghost function LatestOf<T(!new)>(g: Graph<T>): (m: map<Flow<T>, map<nat, Value<T>>>)
    reads Barriers(g)`latest
    ensures m.Keys == g.next.Keys && forall n :: n in g.next ==> m[n] == n.barrier.latest
  {
    map n | n in g.next :: n.barrier.latest
  }

  ghost function MemoryOf<T(!new)>(g: Graph<T>): (m: Memory<T>)
    reads g.next.Keys`produced, g.next.Keys`received, Barriers(g)`latest
    ensures Covers(g, m)
  {
    Memory(ProducedOf(g), ReceivedOf(g), LatestOf(g))
  }
}
