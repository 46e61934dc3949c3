/**
  A pipeline built by adding sources, nodes and sinks is a graph in which every execution
  ends; when its first node is an aggregator, each execution delivers one value.
 */
module PipelineGraph {
  import opened Aggregator
  import opened FlowGraph
  import opened FlowPaths
  import opened Pipeline
  import opened PipelineMeaning
  import opened PipelineRun

  // ---------------------------------------------------------------- ranks

  ghost function Position<T(!new)>(fs: seq<Flow<T>>, n: Flow<T>): (i: nat)
    requires n in fs
    ensures i < |fs| && fs[i] == n
  {
    if fs[0] == n then 0 else 1 + Position(fs[1..], n)
  }

  /** Sources are above the nodes, nodes above those after them, sinks at the bottom. */
  ghost function Level<T(!new)>(ss: seq<Flow<T>>, ns: seq<Flow<T>>, n: Flow<T>): nat {
    if n in ss then |ns| + 1 else if n in ns then |ns| - Position(ns, n) else 0
  }

  ghost function GraphOf<T(!new)>(w: Layout<T>, ss: seq<Flow<T>>, ns: seq<Flow<T>>): (g: Graph<T>)
    ensures g.next == w.next && g.producers == w.producers && g.rank.Keys == w.next.Keys
    ensures forall n :: n in w.next ==> g.rank[n] == Level(ss, ns, n)
  {
    Graph(w.next, w.producers, map n | n in w.next :: Level(ss, ns, n))
  }

  /**
    The objects of the layout are those of the pipeline, all with the fanout policy, there
    is a sink, and the first node can tell its producers apart.
   */
  ghost predicate Complete<T(!new)>(w: Layout<T>, ss: seq<Flow<T>>, ns: seq<Flow<T>>, ks: seq<Flow<T>>) {
    && Shape(w, ss, ns, ks) && InOrder(ss, ns, ks) && AllDistinct(ss + ns) && AllDistinct(ks) && AllIn(w, ks) && ks != []
    && (forall n :: n in w.next ==> n in ss || n in ns || n in ks)
    && (forall n :: n in w.next ==> n.policy.Fanout?)
    && (ns != [] && ns[0].block.Aggregate? ==> |ss| <= MAX_PRODUCERS)
  }

  lemma LevelOfSource<T(!new)>(ss: seq<Flow<T>>, ns: seq<Flow<T>>, i: nat)
    requires i < |ss|
    ensures Level(ss, ns, ss[i]) == |ns| + 1
  { }

  lemma LevelOfNode<T(!new)>(ss: seq<Flow<T>>, ns: seq<Flow<T>>, j: nat)
    requires AllDistinct(ss + ns) && j < |ns|
    ensures Level(ss, ns, ns[j]) == |ns| - j
  {
    forall i | 0 <= i < |ss|
      ensures ss[i] != ns[j]
    {
      ApartFrom(ss, ns, i, j);
    }
    if Position(ns, ns[j]) != j {
      ApartNodes(ss, ns, Position(ns, ns[j]), j);
    }
  }

  lemma LevelOfSink<T(!new)>(ss: seq<Flow<T>>, ns: seq<Flow<T>>, ks: seq<Flow<T>>, k: nat)
    requires InOrder(ss, ns, ks) && k < |ks|
    ensures Level(ss, ns, ks[k]) == 0
  { }

  /** An edge to one of the sinks. */
  lemma SinkEdgeOk<T(!new)>(w: Layout<T>, ss: seq<Flow<T>>, ns: seq<Flow<T>>, ks: seq<Flow<T>>, n: Flow<T>, k: nat)
    requires Complete(w, ss, ns, ks) && n in w.next && Level(ss, ns, n) > 0 && k < |ks|
    ensures EdgeOk(GraphOf(w, ss, ns), n, ToAll(ks)[k])
  {
    LevelOfSink(ss, ns, ks, k);
  }

  lemma SourceOk<T(!new)>(w: Layout<T>, ss: seq<Flow<T>>, ns: seq<Flow<T>>, ks: seq<Flow<T>>, i: nat)
    requires Complete(w, ss, ns, ks) && i < |ss|
    ensures ss[i] in w.next && NodeOk(GraphOf(w, ss, ns), ss[i])
  {
    var g, s := GraphOf(w, ss, ns), ss[i];
    assert s in w.next && s.block.Source? && s.policy.Fanout?;
    LevelOfSource(ss, ns, i);
    forall e: nat | e < |g.next[s]|
      ensures EdgeOk(g, s, g.next[s][e])
    {
      if ns == [] {
        SinkEdgeOk(w, ss, ns, ks, s, e);
      } else {
        LevelOfNode(ss, ns, 0);
        assert ns[0] in w.next && ns[0] in w.producers && w.producers[ns[0]] == Registrations(ns[0]) * |ss|;
      }
    }
  }

  /** What is known of the `j`-th node. */
  lemma NodeAt<T(!new)>(w: Layout<T>, ss: seq<Flow<T>>, ns: seq<Flow<T>>, ks: seq<Flow<T>>, j: nat)
    requires Complete(w, ss, ns, ks) && j < |ns|
    ensures ns[j] in w.next && ns[j] in w.producers && w.next[ns[j]] == EdgesAfter(ns, ks, j)
    ensures IsNode(ns[j]) && ns[j].policy.Fanout? && Level(ss, ns, ns[j]) == |ns| - j
    ensures ns[j].block.Aggregate? ==> w.producers[ns[j]] == if j == 0 then |ss| else 1
    ensures ns[j].block.Aggregate? ==> w.producers[ns[j]] <= MAX_PRODUCERS
    ensures w.next.Keys == w.producers.Keys
  {
    LevelOfNode(ss, ns, j);
  }

  lemma NextEdgeOk<T(!new)>(w: Layout<T>, ss: seq<Flow<T>>, ns: seq<Flow<T>>, ks: seq<Flow<T>>, j: nat)
    requires Complete(w, ss, ns, ks) && j + 1 < |ns|
    ensures ns[j] in w.next && w.next.Keys == w.producers.Keys
    ensures EdgeOk(GraphOf(w, ss, ns), ns[j], (ns[j + 1], 0))
  {
    hide *;
    NodeAt(w, ss, ns, ks, j);
    NodeAt(w, ss, ns, ks, j + 1);
    EdgeDown(GraphOf(w, ss, ns), ns[j], ns[j + 1], 0);
  }

  lemma EdgeDown<T(!new)>(g: Graph<T>, n: Flow<T>, to: Flow<T>, id: nat)
    requires g.next.Keys == g.rank.Keys == g.producers.Keys && n in g.next && to in g.next && g.rank[to] < g.rank[n]
    requires to.block.Aggregate? ==> id < g.producers[to]
    ensures EdgeOk(g, n, (to, id))
  { }

  lemma InnerNodeOk<T(!new)>(w: Layout<T>, ss: seq<Flow<T>>, ns: seq<Flow<T>>, ks: seq<Flow<T>>, j: nat)
    requires Complete(w, ss, ns, ks) && j < |ns|
    ensures ns[j] in w.next && NodeOk(GraphOf(w, ss, ns), ns[j])
  {
    var g, n := GraphOf(w, ss, ns), ns[j];
    NodeAt(w, ss, ns, ks, j);
    assert ks != [];
    hide Complete;
    hide Level;
    hide EdgeOk;
    forall e: nat | e < |g.next[n]|
      ensures EdgeOk(g, n, g.next[n][e])
    {
      if j + 1 == |ns| {
        SinkEdgeOk(w, ss, ns, ks, n, e);
      } else {
        NextEdgeOk(w, ss, ns, ks, j);
      }
    }
  }

  lemma SinkOk<T(!new)>(w: Layout<T>, ss: seq<Flow<T>>, ns: seq<Flow<T>>, ks: seq<Flow<T>>, k: nat)
    requires Complete(w, ss, ns, ks) && k < |ks|
    ensures ks[k] in w.next && NodeOk(GraphOf(w, ss, ns), ks[k])
  {
    forall n | n in ss + ns
      ensures n != ks[k]
    { }
    assert w.next[ks[k]] == [];
  }

  /** The wired objects form a ranked graph, so every execution of the pipeline ends. */
  lemma CompletePipelineIsGraph<T(!new)>(w: Layout<T>, ss: seq<Flow<T>>, ns: seq<Flow<T>>, ks: seq<Flow<T>>)
    requires Complete(w, ss, ns, ks)
    ensures GraphOk(GraphOf(w, ss, ns))
  {
    var g := GraphOf(w, ss, ns);
    assert g.next.Keys == g.rank.Keys == g.producers.Keys;
    forall n | n in g.next
      ensures NodeOk(g, n)
    {
      if n in ss {
        var i :| 0 <= i < |ss| && ss[i] == n;
        SourceOk(w, ss, ns, ks, i);
      } else if n in ns {
        var j :| 0 <= j < |ns| && ns[j] == n;
        InnerNodeOk(w, ss, ns, ks, j);
      } else {
        var k :| 0 <= k < |ks| && ks[k] == n;
        SinkOk(w, ss, ns, ks, k);
      }
    }
  }

  /** Adding sources, nodes and sinks in that order builds a complete pipeline. */
  lemma BuiltIsComplete<T(!new)>(w: Layout<T>, ss: seq<Flow<T>>, ns: seq<Flow<T>>, ks: seq<Flow<T>>)
    requires Unconnected(w) && AllIn(w, ss + ns + ks) && AllDistinct(ss + ns) && AllDistinct(ks) && InOrder(ss, ns, ks)
    requires ks != [] && (ns != [] && ns[0].block.Aggregate? ==> |ss| <= MAX_PRODUCERS)
    requires forall n :: n in w.next ==> n.policy.Fanout? && (n in ss || n in ns || n in ks)
    ensures Complete(AddedAll(w, ss + ns + ks), ss, ns, ks)
  {
    hide *;
    AutoWiring(w, ss, ns, ks);
    UnconnectedIsOk(w);
    LastOnes(w, AddedAll(w, ss + ns + ks), ss + ns, ks);
    CompleteUnfold(AddedAll(w, ss + ns + ks), ss, ns, ks);
  }

  lemma LastOnes<T(!new)>(w: Layout<T>, w': Layout<T>, fs: seq<Flow<T>>, ks: seq<Flow<T>>)
    requires AllIn(w, fs + ks) && w'.next.Keys == w.next.Keys
    ensures AllIn(w', ks)
  {
    forall k | 0 <= k < |ks|
      ensures ks[k] in w'.next
    {
      assert (fs + ks)[|fs| + k] == ks[k];
      assert ks[k] in w.next.Keys;
    }
  }

  lemma CompleteUnfold<T(!new)>(w: Layout<T>, ss: seq<Flow<T>>, ns: seq<Flow<T>>, ks: seq<Flow<T>>)
    requires Shape(w, ss, ns, ks) && InOrder(ss, ns, ks) && AllDistinct(ss + ns) && AllDistinct(ks) && AllIn(w, ks)
    requires ks != [] && (ns != [] && ns[0].block.Aggregate? ==> |ss| <= MAX_PRODUCERS)
    requires forall n :: n in w.next.Keys ==> n.policy.Fanout? && (n in ss || n in ns || n in ks)
    ensures Complete(w, ss, ns, ks)
  {
    hide Shape;
    hide InOrder;
    hide AllDistinct;
    hide AllIn;
  }

  // ---------------------------------------------------------------- the chain behind the first node

  /** What a node makes of one value; an aggregator with one producer fires at once. */
  ghost function Made<T(!new)>(n: Flow<T>, v: Value<T>): Value<T>
    requires IsNode(n)
  {
    if n.block.Module? then n.block.process(v) else n.block.combine(multiset{v})
  }

  /** What comes out behind the last node when `v` goes into the `j`-th. */
  ghost function Through<T(!new)>(ns: seq<Flow<T>>, j: nat, v: Value<T>): Value<T>
    requires j <= |ns| && forall i :: 0 <= i < |ns| ==> IsNode(ns[i])
    decreases |ns| - j
  {
    if j == |ns| then v else Through(ns, j + 1, Made(ns[j], v))
  }

  /** The sinks from the `i`-th on receive `v`. */
  ghost function Delivered<T(!new)>(m: Memory<T>, ks: seq<Flow<T>>, i: nat, v: Value<T>): (m': Memory<T>)
    requires i <= |ks| && forall k :: 0 <= k < |ks| ==> ks[k] in m.received
    ensures m'.received.Keys == m.received.Keys && m'.produced == m.produced && m'.latest == m.latest
    decreases |ks| - i
  {
    if i == |ks| then m
    else Delivered(Received(m, ks[i], v), ks, i + 1, v)
  }

  /** A chain of nodes before the sinks, all barriers empty. */
  ghost predicate Chain<T(!new)>(g: Graph<T>, m: Memory<T>, ns: seq<Flow<T>>, ks: seq<Flow<T>>) {
    && GraphOk(g) && Covers(g, m)
    && (forall k :: 0 <= k < |ks| ==> ks[k] in g.next && ks[k].block.Sink?)
    && (forall j :: 0 <= j < |ns| ==> ChainNode(g, ns, ks, j) && (ns[j] in m.latest && m.latest[ns[j]] == map[]))
  }

  ghost predicate ChainNode<T(!new)>(g: Graph<T>, ns: seq<Flow<T>>, ks: seq<Flow<T>>, j: nat)
    requires j < |ns|
  {
    && ns[j] in g.next && ns[j] in g.producers && IsNode(ns[j]) && ns[j].policy.Fanout?
    && (j > 0 && ns[j].block.Aggregate? ==> g.producers[ns[j]] == 1)
    && g.next[ns[j]] == if j + 1 == |ns| then ToAll(ks) else [(ns[j + 1], 0)]
  }

  lemma ChainAt<T(!new)>(g: Graph<T>, m: Memory<T>, ns: seq<Flow<T>>, ks: seq<Flow<T>>, j: nat)
    requires Chain(g, m, ns, ks) && j < |ns|
    ensures GraphOk(g) && Covers(g, m) && ChainNode(g, ns, ks, j)
    ensures ns[j] in g.next && ns[j] in m.latest && m.latest[ns[j]] == map[] && IsNode(ns[j])
    ensures forall i :: 0 <= i < |ns| ==> IsNode(ns[i])
    ensures forall k :: 0 <= k < |ks| ==> ks[k] in m.received
  { }

  /** A node before the sinks, and shares that are all the same value. */
  ghost predicate Serves<T(!new)>(
    g: Graph<T>, m: Memory<T>, n: Flow<T>, ks: seq<Flow<T>>, shares: seq<Value<T>>, v: Value<T>)
  {
    && GraphOk(g) && Covers(g, m) && n in g.next && g.next[n] == ToAll(ks) && |ks| == |shares|
    && forall k :: 0 <= k < |ks| ==> ks[k] in g.next && ks[k].block.Sink? && shares[k] == v
  }

  lemma ServesAt<T(!new)>(
    g: Graph<T>, m: Memory<T>, n: Flow<T>, ks: seq<Flow<T>>, shares: seq<Value<T>>, i: nat, v: Value<T>)
    requires Serves(g, m, n, ks, shares, v) && i <= |ks|
    ensures GraphOk(g) && Covers(g, m) && n in g.next && |g.next[n]| == |ks| == |shares|
    ensures forall k :: 0 <= k < |ks| ==> ks[k] in g.next && ks[k] in m.received && ks[k].block.Sink?
    ensures i < |ks| ==> g.next[n][i] == (ks[i], 0) && shares[i] == v && Serves(g, Received(m, ks[i], v), n, ks, shares, v)
  { }

  lemma DeliveredUnfolds<T(!new)>(m: Memory<T>, ks: seq<Flow<T>>, i: nat, v: Value<T>)
    requires i <= |ks| && forall k :: 0 <= k < |ks| ==> ks[k] in m.received
    ensures i == |ks| ==> Delivered(m, ks, i, v) == m
    ensures i < |ks| ==>
      var m1 := Received(m, ks[i], v);
      (forall k :: 0 <= k < |ks| ==> ks[k] in m1.received) && Delivered(m, ks, i, v) == Delivered(m1, ks, i + 1, v)
  { }

  lemma SinkReceives<T(!new)>(g: Graph<T>, m: Memory<T>, k: Flow<T>, v: Value<T>)
    requires GraphOk(g) && Covers(g, m) && k in g.next && k.block.Sink?
    ensures k in m.received && Executed(g, m, k, v, 0) == Received(m, k, v)
  {
    SinkOnly(g, m, k, v, 0);
    hide Executed;
  }

  ghost function Received<T(!new)>(m: Memory<T>, k: Flow<T>, v: Value<T>): Memory<T>
    requires k in m.received
  {
    m.(received := m.received[k := m.received[k] + [v]])
  }

  /** Passing an output on to all sinks. */
  lemma {:induction false} SinksServed<T(!new)>(
    g: Graph<T>, m: Memory<T>, n: Flow<T>, ks: seq<Flow<T>>, shares: seq<Value<T>>, i: nat, v: Value<T>)
    requires Serves(g, m, n, ks, shares, v) && i <= |ks|
    ensures forall k :: 0 <= k < |ks| ==> ks[k] in m.received
    ensures Produced(g, m, n, shares, i) == Delivered(m, ks, i, v)
    decreases |ks| - i
  {
    hide *;
    ServesAt(g, m, n, ks, shares, i, v);
    DeliveredUnfolds(m, ks, i, v);
    ProducedUnfolds(g, m, n, shares, i);
    if i < |ks| {
      SinkReceives(g, m, ks[i], v);
      SinksServed(g, Received(m, ks[i], v), n, ks, shares, i + 1, v);
    }
  }

  lemma PassedOn<T(!new)>(g: Graph<T>, m: Memory<T>, ns: seq<Flow<T>>, ks: seq<Flow<T>>, j: nat, w: Value<T>)
    requires Chain(g, m, ns, ks) && j < |ns|
    ensures forall k :: 0 <= k < |ks| ==> ks[k] in m.received
    ensures ns[j] in g.next
    ensures j + 1 < |ns| ==> ns[j + 1] in g.next
    ensures Produced(g, m, ns[j], Shares(ns[j].policy, w, |g.next[ns[j]]|), 0)
         == if j + 1 == |ns| then Delivered(m, ks, 0, w) else Executed(g, m, ns[j + 1], w, 0)
  {
    ChainAt(g, m, ns, ks, j);
    var n := ns[j];
    var shares := Shares(n.policy, w, |g.next[n]|);
    if j + 1 == |ns| {
      SinksServed(g, m, n, ks, shares, 0, w);
    } else {
      ChainAt(g, m, ns, ks, j + 1);
      assert shares == [w];
      hide Produced;
      hide Executed;
      hide Chain;
      ProducedUnfolds(g, m, n, shares, 0);
      ProducedUnfolds(g, Executed(g, m, ns[j + 1], w, 0), n, shares, 1);
    }
  }

  /** A module, or an aggregator with one producer, makes its output of each value at once. */
  lemma InnerExecuted<T(!new)>(g: Graph<T>, m: Memory<T>, n: Flow<T>, v: Value<T>)
    requires GraphOk(g) && Covers(g, m) && n in g.next && IsNode(n) && m.latest[n] == map[]
    requires n.block.Aggregate? ==> g.producers[n] == 1
    ensures Executed(g, m, n, v, 0) == Produced(g, m, n, Shares(n.policy, Made(n, v), |g.next[n]|), 0)
  {
    if n.block.Aggregate? {
      var none: map<nat, Value<T>> := map[];
      assert Registered(0, 1) && none.Keys + {0} == Everyone(1);
      var one := With(none, 0, v);
      assert Values(one, 1) == Values(one, 0) + Brought(one, 0) == multiset{v};
      assert m.latest[n := none] == m.latest;
      AggregatorFires(g, m, n, v, 0);
      hide Executed;
      hide Produced;
    }
  }

  /** A value that goes into the chain comes out at every sink, once, and no barrier keeps anything. */
  lemma {:induction false} ChainDelivers<T(!new)>(
    g: Graph<T>, m: Memory<T>, ns: seq<Flow<T>>, ks: seq<Flow<T>>, j: nat, v: Value<T>)
    requires Chain(g, m, ns, ks) && 0 < j < |ns|
    ensures ns[j] in g.next && forall k :: 0 <= k < |ks| ==> ks[k] in m.received
    ensures forall i :: 0 <= i < |ns| ==> IsNode(ns[i])
    ensures Executed(g, m, ns[j], v, 0) == Delivered(m, ks, 0, Through(ns, j, v))
    decreases |ns| - j
  {
    ChainAt(g, m, ns, ks, j);
    assert ns[j].block.Aggregate? ==> g.producers[ns[j]] == 1;
    hide Executed;
    hide Produced;
    hide Chain;
    hide Delivered;
    hide GraphOk;
    InnerExecuted(g, m, ns[j], v);
    PassedOn(g, m, ns, ks, j, Made(ns[j], v));
    if j + 1 < |ns| {
      ChainDelivers(g, m, ns, ks, j + 1, Made(ns[j], v));
    }
  }

  // ---------------------------------------------------------------- whole executions

  /** A pipeline ready to run: auto-wired, complete, its first node an aggregator, all barriers empty. */
  ghost predicate ReadyToRun<T(!new)>(
    w: Layout<T>, m: Memory<T>, ss: seq<Flow<T>>, ns: seq<Flow<T>>, ks: seq<Flow<T>>)
  {
    && Complete(w, ss, ns, ks) && ss != [] && ns != [] && ns[0].block.Aggregate?
    && Covers(GraphOf(w, ss, ns), m)
    && forall j :: 0 <= j < |ns| ==> ns[j] in m.latest && m.latest[ns[j]] == map[]
  }

  lemma ReadyIsChain<T(!new)>(w: Layout<T>, m: Memory<T>, ss: seq<Flow<T>>, ns: seq<Flow<T>>, ks: seq<Flow<T>>)
    requires ReadyToRun(w, m, ss, ns, ks)
    ensures Chain(GraphOf(w, ss, ns), m, ns, ks)
  {
    var g := GraphOf(w, ss, ns);
    CompletePipelineIsGraph(w, ss, ns, ks);
    forall j | 0 <= j < |ns|
      ensures ChainNode(g, ns, ks, j)
    {
      NodeEdgeAt(w, ns, ks, j);
      assert ns[j].policy.Fanout? && w.producers[ns[j]] == Registrations(ns[j]) * if j == 0 then |ss| else 1;
    }
  }

  lemma ReadyFeeds<T(!new)>(w: Layout<T>, m: Memory<T>, ss: seq<Flow<T>>, ns: seq<Flow<T>>, ks: seq<Flow<T>>)
    requires ReadyToRun(w, m, ss, ns, ks)
    ensures Feeds(GraphOf(w, ss, ns), ss, ns[0]) && Counters(m, ss) && ns[0] in m.latest && m.latest[ns[0]] == map[]
    ensures GraphOk(GraphOf(w, ss, ns)) && Covers(GraphOf(w, ss, ns), m)
    ensures forall i :: 0 <= i < |ss| ==> ss[i] in GraphOf(w, ss, ns).next
    ensures forall k :: 0 <= k < |ks| ==> ks[k] in m.received
    ensures forall i :: 0 <= i < |ns| ==> IsNode(ns[i])
  {
    CompletePipelineIsGraph(w, ss, ns, ks);
    assert forall i :: 0 <= i < |ss| ==> ss[i] in w.next;
    assert AllDistinct(ss) by {
      forall i, j | 0 <= i < j < |ss|
        ensures ss[i] != ss[j]
      {
        assert (ss + ns)[i] == ss[i] && (ss + ns)[j] == ss[j];
      }
    }
    WiringFeeds(GraphOf(w, ss, ns), w, ss, ns, ks);
  }

  /**
    One execution of a complete pipeline with an aggregator first: every source counts one
    product, every sink receives one value, made of one product of each source by all the
    nodes in turn, and every barrier is empty again.
   */
  lemma ExecutionDelivers<T(!new)>(w: Layout<T>, m: Memory<T>, ss: seq<Flow<T>>, ns: seq<Flow<T>>, ks: seq<Flow<T>>)
    requires ReadyToRun(w, m, ss, ns, ks)
    ensures var g := GraphOf(w, ss, ns);
            && GraphOk(g) && Covers(g, m) && (forall i :: 0 <= i < |ss| ==> ss[i] in g.next)
            && Counters(m, ss) && (forall k :: 0 <= k < |ks| ==> ks[k] in m.received)
            && (forall i :: 0 <= i < |ns| ==> IsNode(ns[i]))
            && SourcesExecuted(g, m, ss, 0)
            == Delivered(AllCounted(m, ss, |ss|), ks, 0, Through(ns, 1, Combined(m, ss, ns[0])))
  {
    var g := GraphOf(w, ss, ns);
    ReadyFeeds(w, m, ss, ns, ks);
    ReadyIsChain(w, m, ss, ns, ks);
    FiresOncePerExecution(g, m, ss, ns[0]);
    var done := AllCounted(m, ss, |ss|);
    ChainCounted(g, m, done, ns, ks);
    assert ns != [] && ns[0].block.Aggregate?;
    hide *;
    PassedOn(g, done, ns, ks, 0, Combined(m, ss, ns[0]));
    if |ns| > 1 {
      ChainDelivers(g, done, ns, ks, 1, Combined(m, ss, ns[0]));
    } else {
      ThroughAll(ns, Combined(m, ss, ns[0]));
    }
  }

  lemma ThroughAll<T(!new)>(ns: seq<Flow<T>>, v: Value<T>)
    requires forall i :: 0 <= i < |ns| ==> IsNode(ns[i])
    ensures Through(ns, |ns|, v) == v
  { }

  lemma ChainCounted<T(!new)>(g: Graph<T>, m: Memory<T>, m': Memory<T>, ns: seq<Flow<T>>, ks: seq<Flow<T>>)
    requires Chain(g, m, ns, ks) && Covers(g, m') && m'.latest == m.latest
    ensures Chain(g, m', ns, ks)
  { }

  // ---------------------------------------------------------------- any number of executions

  /** The memory after the pipeline has been executed `times` times. */
  ghost function Executions<T(!new)>(g: Graph<T>, m: Memory<T>, ss: seq<Flow<T>>, times: nat): (m': Memory<T>)
    requires GraphOk(g) && Covers(g, m) && forall i :: 0 <= i < |ss| ==> ss[i] in g.next
    ensures Covers(g, m')
  {
    if times == 0 then m else SourcesExecuted(g, Executions(g, m, ss, times - 1), ss, 0)
  }

  lemma {:induction false} DeliveredOnce<T(!new)>(m: Memory<T>, ks: seq<Flow<T>>, i: nat, v: Value<T>, k: nat)
    requires i <= |ks| && AllDistinct(ks) && k < |ks| && forall k :: 0 <= k < |ks| ==> ks[k] in m.received
    ensures Delivered(m, ks, i, v).received[ks[k]] == m.received[ks[k]] + if k < i then [] else [v]
    decreases |ks| - i
  {
    if i < |ks| {
      DeliveredOnce(Received(m, ks[i], v), ks, i + 1, v, k);
    }
  }

  /** The value delivered by the execution after `times` others. */
  ghost function Delivery<T(!new)>(
    w: Layout<T>, m: Memory<T>, ss: seq<Flow<T>>, ns: seq<Flow<T>>, ks: seq<Flow<T>>): Value<T>
    requires ReadyToRun(w, m, ss, ns, ks)
  {
    ReadyFeeds(w, m, ss, ns, ks);
    Through(ns, 1, Combined(m, ss, ns[0]))
  }

  lemma ReadyAgain<T(!new)>(w: Layout<T>, m: Memory<T>, ss: seq<Flow<T>>, ns: seq<Flow<T>>, ks: seq<Flow<T>>, k: nat)
    requires ReadyToRun(w, m, ss, ns, ks) && k < |ks|
    ensures var g := GraphOf(w, ss, ns);
            && GraphOk(g) && Covers(g, m) && (forall i :: 0 <= i < |ss| ==> ss[i] in g.next)
            && ks[k] in m.received
            && var m' := SourcesExecuted(g, m, ss, 0);
            && ReadyToRun(w, m', ss, ns, ks) && ks[k] in m'.received
            && m'.received[ks[k]] == m.received[ks[k]] + [Delivery(w, m, ss, ns, ks)]
  {
    SinkReady(w, m, ss, ns, ks, k);
    hide *;
    ExecutionDelivers(w, m, ss, ns, ks);
    var done, v := AllCounted(m, ss, |ss|), Delivery(w, m, ss, ns, ks);
    DeliveryIs(w, m, ss, ns, ks);
    DeliveredOnce(done, ks, 0, v, k);
    StillReady(w, m, SourcesExecuted(GraphOf(w, ss, ns), m, ss, 0), ss, ns, ks);
  }

  lemma DeliveryIs<T(!new)>(w: Layout<T>, m: Memory<T>, ss: seq<Flow<T>>, ns: seq<Flow<T>>, ks: seq<Flow<T>>)
    requires ReadyToRun(w, m, ss, ns, ks)
    ensures Counters(m, ss) && ns != [] && ns[0].block.Aggregate? && forall i :: 0 <= i < |ns| ==> IsNode(ns[i])
    ensures Delivery(w, m, ss, ns, ks) == Through(ns, 1, Combined(m, ss, ns[0]))
  {
    ReadyFeeds(w, m, ss, ns, ks);
  }

  lemma SinkReady<T(!new)>(w: Layout<T>, m: Memory<T>, ss: seq<Flow<T>>, ns: seq<Flow<T>>, ks: seq<Flow<T>>, k: nat)
    requires ReadyToRun(w, m, ss, ns, ks) && k < |ks|
    ensures ks[k] in m.received && AllDistinct(ks)
  { }

  lemma StillReady<T(!new)>(
    w: Layout<T>, m: Memory<T>, m': Memory<T>, ss: seq<Flow<T>>, ns: seq<Flow<T>>, ks: seq<Flow<T>>)
    requires ReadyToRun(w, m, ss, ns, ks) && Covers(GraphOf(w, ss, ns), m') && m'.latest == m.latest
    ensures ReadyToRun(w, m', ss, ns, ks)
  { }

  /**
    After any number of executions every barrier is empty, and every sink has received one
    value more than before for each of them.
   */
  lemma {:induction false} EveryExecutionDeliversOne<T(!new)>(
    w: Layout<T>, m: Memory<T>, ss: seq<Flow<T>>, ns: seq<Flow<T>>, ks: seq<Flow<T>>, times: nat, k: nat)
    requires ReadyToRun(w, m, ss, ns, ks) && k < |ks|
    ensures var g := GraphOf(w, ss, ns);
            && GraphOk(g) && Covers(g, m) && (forall i :: 0 <= i < |ss| ==> ss[i] in g.next)
            && ks[k] in m.received
            && var m' := Executions(g, m, ss, times);
            && ReadyToRun(w, m', ss, ns, ks) && ks[k] in m'.received
            && |m'.received[ks[k]]| == |m.received[ks[k]]| + times
            && (times > 0 ==>
                  var before := Executions(g, m, ss, times - 1);
                  && ReadyToRun(w, before, ss, ns, ks) && ks[k] in before.received
                  && m'.received[ks[k]] == before.received[ks[k]] + [Delivery(w, before, ss, ns, ks)])
  {
    hide *;
    ReadyAgain(w, m, ss, ns, ks, k);
    ExecutionsUnfold(GraphOf(w, ss, ns), m, ss, times);
    if times > 0 {
      EveryExecutionDeliversOne(w, m, ss, ns, ks, times - 1, k);
      ReadyAgain(w, Executions(GraphOf(w, ss, ns), m, ss, times - 1), ss, ns, ks, k);
    }
  }

  lemma ExecutionsUnfold<T(!new)>(g: Graph<T>, m: Memory<T>, ss: seq<Flow<T>>, times: nat)
    requires GraphOk(g) && Covers(g, m) && forall i :: 0 <= i < |ss| ==> ss[i] in g.next
    ensures times == 0 ==> Executions(g, m, ss, times) == m
    ensures times > 0 ==> Executions(g, m, ss, times) == SourcesExecuted(g, Executions(g, m, ss, times - 1), ss, 0)
  { }

  /** The loop of a worker that runs a pipeline; `times` is how often it goes round before it is stopped. */
  method ExecuteTimes<T(==,!new)>(p: Pipeline<T>, times: nat, ghost g: Graph<T>)
    requires Wired(g) && p.sources != []
    requires forall i :: 0 <= i < |p.sources| ==> p.sources[i] in g.next && p.sources[i].block.Source?
    requires p.nodes != [] ==> p.nodes[0] in g.next && IsNode(p.nodes[0])
    modifies g.next.Keys`produced, g.next.Keys`received, Barriers(g)`state, Barriers(g)`latest
    ensures Wired(g) && MemoryOf(g) == Executions(g, old(MemoryOf(g)), p.sources, times)
  {
    WiredIsOk(g);
    assert p.nodes != [] ==> p.nodes[0].block.Module? || p.nodes[0].block.Aggregate?;
    hide *;
    ghost var ss := p.sources;
    ghost var m0 := MemoryOf(g);
    ghost var m := m0;
    ExecutionsUnfold(g, m0, ss, 0);
    for i := 0 to times
      invariant Wired(g) && m == MemoryOf(g) && Covers(g, m) && m == Executions(g, m0, ss, i)
    {
      var failed := p.Execute(g);
      m := SourcesExecuted(g, m, ss, 0);
      ExecutionsUnfold(g, m0, ss, i + 1);
    }
  }

  /** The objects of a complete pipeline are wired as its graph, and with empty barriers ready to run. */
  lemma BuiltIsReady<T(!new)>(p: Pipeline<T>, all: set<Flow<T>>, ks: seq<Flow<T>>)
    requires p.Ready(all) && Complete(p.LayoutOf(all), p.sources, p.nodes, ks)
    requires p.sources != [] && p.nodes != [] && p.nodes[0].block.Aggregate?
    requires forall n :: n in all ==> n.barrier.latest == map[]
    ensures var w := p.LayoutOf(all);
            var g := GraphOf(w, p.sources, p.nodes);
            g.next.Keys == all && Wired(g) && ReadyToRun(w, MemoryOf(g), p.sources, p.nodes, ks)
  {
    var w := p.LayoutOf(all);
    var g := GraphOf(w, p.sources, p.nodes);
    hide *;
    CompletePipelineIsGraph(w, p.sources, p.nodes, ks);
    WiredAsBuilt(p, all, g);
    MemoryParts(g);
    ReadyFrom(w, MemoryOf(g), p.sources, p.nodes, ks);
  }

  lemma WiredAsBuilt<T(!new)>(p: Pipeline<T>, all: set<Flow<T>>, g: Graph<T>)
    requires p.Ready(all) && g == GraphOf(p.LayoutOf(all), p.sources, p.nodes) && GraphOk(g)
    ensures g.next.Keys == all && Wired(g) && (forall j :: 0 <= j < |p.nodes| ==> p.nodes[j] in g.next)
  {
    hide GraphOk;
    WiredFrom(g);
  }

  lemma ReadyFrom<T(!new)>(w: Layout<T>, m: Memory<T>, ss: seq<Flow<T>>, ns: seq<Flow<T>>, ks: seq<Flow<T>>)
    requires Complete(w, ss, ns, ks) && ss != [] && ns != [] && ns[0].block.Aggregate?
    requires Covers(GraphOf(w, ss, ns), m)
    requires forall j :: 0 <= j < |ns| ==> ns[j] in m.latest && m.latest[ns[j]] == map[]
    ensures ReadyToRun(w, m, ss, ns, ks)
  {
    hide Complete;
    hide Covers;
  }

  /** However often a complete pipeline with an aggregator first is executed, all masks are 0 afterwards. */
  method RunPipeline<T(==,!new)>(p: Pipeline<T>, times: nat, ghost w: Layout<T>, ghost ks: seq<Flow<T>>, ghost g: Graph<T>)
    requires g == GraphOf(w, p.sources, p.nodes) && Wired(g) && ReadyToRun(w, MemoryOf(g), p.sources, p.nodes, ks)
    modifies g.next.Keys`produced, g.next.Keys`received, Barriers(g)`state, Barriers(g)`latest
    ensures Wired(g) && ReadyToRun(w, MemoryOf(g), p.sources, p.nodes, ks)
    ensures forall j :: 0 <= j < |p.nodes| && p.nodes[j].block.Aggregate? ==> p.nodes[j].barrier.state == 0
  {
    hide *;
    ghost var ss, ns := p.sources, p.nodes;
    ghost var m0 := MemoryOf(g);
    ReadyParts(w, m0, ss, ns, ks);
    ExecuteTimes(p, times, g);
    EveryExecutionDeliversOne(w, m0, ss, ns, ks, times, 0);
    StatesAreZero(w, ss, ns, ks, g);
  }

  lemma StatesAreZero<T(!new)>(w: Layout<T>, ss: seq<Flow<T>>, ns: seq<Flow<T>>, ks: seq<Flow<T>>, g: Graph<T>)
    requires g == GraphOf(w, ss, ns) && Wired(g) && ReadyToRun(w, MemoryOf(g), ss, ns, ks)
    ensures forall j :: 0 <= j < |ns| && ns[j].block.Aggregate? ==> ns[j].barrier.state == 0
  {
    ReadyParts(w, MemoryOf(g), ss, ns, ks);
    hide *;
    forall j | 0 <= j < |ns| && ns[j].block.Aggregate?
      ensures ns[j].barrier.state == 0
    {
      StateIsZero(g, ns[j]);
    }
  }

  lemma ReadyParts<T(!new)>(w: Layout<T>, m: Memory<T>, ss: seq<Flow<T>>, ns: seq<Flow<T>>, ks: seq<Flow<T>>)
    requires ReadyToRun(w, m, ss, ns, ks)
    ensures var g := GraphOf(w, ss, ns);
            && GraphOk(g) && Covers(g, m) && |ks| > 0 && |ss| > 0
            && (forall i :: 0 <= i < |ss| ==> ss[i] in g.next && ss[i].block.Source?)
            && (forall j :: 0 <= j < |ns| ==>
                  ns[j] in g.next && IsNode(ns[j]) && ns[j] in m.latest && m.latest[ns[j]] == map[])
  {
    CompletePipelineIsGraph(w, ss, ns, ks);
    ReadyFeeds(w, m, ss, ns, ks);
  }

  lemma StateIsZero<T(!new)>(g: Graph<T>, n: Flow<T>)
    requires Wired(g) && n in g.next && n.block.Aggregate?
    requires n in MemoryOf(g).latest && MemoryOf(g).latest[n] == map[]
    ensures n.barrier.state == 0
  {
    CountFits(g, n);
    ZeroMeansNobody(n.barrier);
  }
}
