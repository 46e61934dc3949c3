/** `Pipeline`: objects are wired as they are added, and the sources are executed in turn. */
module Pipeline {
  import opened Aggregator
  import opened FlowGraph

  // ---------------------------------------------------------------- wiring

  /** The pipeline's two lists, and the edges and registrations of all flow objects. */
  datatype Layout<!T(==,!new)> = Layout(
    sources: seq<Flow<T>>, nodes: seq<Flow<T>>, next: map<Flow<T>, seq<(Flow<T>, nat)>>, producers: map<Flow<T>, nat>)

  ghost predicate LayoutOk<T(!new)>(w: Layout<T>) {
    && w.next.Keys == w.producers.Keys
    && (forall i :: 0 <= i < |w.sources| ==> w.sources[i] in w.next)
    && (forall i :: 0 <= i < |w.nodes| ==> w.nodes[i] in w.next)
  }

  /** The number by which `to` tells its next producer. */
  function IdFor<T(==,!new)>(to: Flow<T>, producers: nat): nat {
    if to.block.Aggregate? then producers else 0
  }

  /** By how much a registration raises the number of producers. */
  function Registrations<T(==,!new)>(to: Flow<T>): nat {
    if to.block.Aggregate? then 1 else 0
  }

  ghost function Connected<T(!new)>(w: Layout<T>, from: Flow<T>, to: Flow<T>): (w': Layout<T>)
    requires LayoutOk(w) && from in w.next && to in w.next
    ensures LayoutOk(w') && w'.next.Keys == w.next.Keys && w'.sources == w.sources && w'.nodes == w.nodes
  {
    w.(next := w.next[from := w.next[from] + [(to, IdFor(to, w.producers[to]))]],
       producers := w.producers[to := w.producers[to] + Registrations(to)])
  }

  /** The sources from the `i`-th on are connected. */
  ghost function SourcesConnected<T(!new)>(w: Layout<T>, i: nat, to: Flow<T>): (w': Layout<T>)
    requires LayoutOk(w) && i <= |w.sources| && to in w.next
    ensures LayoutOk(w') && w'.next.Keys == w.next.Keys && w'.sources == w.sources && w'.nodes == w.nodes
    decreases |w.sources| - i
  {
    if i == |w.sources| then w else SourcesConnected(Connected(w, w.sources[i], to), i + 1, to)
  }

  /** A node or a sink is connected to the last node, or to all sources if it is the first one. */
  ghost function Attached<T(!new)>(w: Layout<T>, f: Flow<T>): (w': Layout<T>)
    requires LayoutOk(w) && f in w.next
    ensures LayoutOk(w') && w'.next.Keys == w.next.Keys && w'.sources == w.sources && w'.nodes == w.nodes
  {
    if w.nodes != [] then Connected(w, w.nodes[|w.nodes| - 1], f) else SourcesConnected(w, 0, f)
  }

  lemma SourcesUnfold<T(!new)>(w: Layout<T>, i: nat, to: Flow<T>)
    requires LayoutOk(w) && i <= |w.sources| && to in w.next
    ensures i == |w.sources| ==> SourcesConnected(w, i, to) == w
    ensures i < |w.sources| ==>
      && w.sources[i] in w.next
      && SourcesConnected(w, i, to) == SourcesConnected(Connected(w, w.sources[i], to), i + 1, to)
  { }

  lemma AttachedIs<T(!new)>(w: Layout<T>, f: Flow<T>)
    requires LayoutOk(w) && f in w.next
    ensures w.nodes == [] ==> Attached(w, f) == SourcesConnected(w, 0, f)
    ensures w.nodes != [] ==>
      && w.nodes[|w.nodes| - 1] in w.next
      && Attached(w, f) == Connected(w, w.nodes[|w.nodes| - 1], f)
  { }

  /** Adding one object. A source is kept even when adding it throws. */
  ghost function Added<T(!new)>(w: Layout<T>, f: Flow<T>): (w': Layout<T>)
    requires LayoutOk(w) && f in w.next
    ensures LayoutOk(w') && w'.next.Keys == w.next.Keys
  {
    if f.block.Source? then w.(sources := w.sources + [f])
    else
      var w1 := Attached(w, f);
      if f.block.Sink? then w1 else w1.(nodes := w1.nodes + [f])
  }

  /** A source is refused, too late to keep it out, once there is a node. */
  ghost predicate Throws<T(!new)>(w: Layout<T>, f: Flow<T>) {
    f.block.Source? && w.nodes != []
  }

  datatype AddAnswer = Fine | UnorderedSources

  class Pipeline<T(==,!new)> {
    var sources: seq<Flow<T>>
    var nodes: seq<Flow<T>>

    constructor ()
      ensures sources == [] && nodes == []
    {
      sources, nodes := [], [];
    }

    ghost function LayoutOf(all: set<Flow<T>>): (w: Layout<T>)
      requires Ready(all)
      reads this, all`next_nodes, BarriersOf(all)
      ensures LayoutOk(w) && w.next.Keys == all
    {
      Layout(sources, nodes, EdgesOf(all), CountsOf(all))
    }

    ghost predicate Ready(all: set<Flow<T>>)
      reads this, BarriersOf(all)
    {
      && AllValid(all) && Apart(all)
      && (forall i :: 0 <= i < |sources| ==> sources[i] in all)
      && (forall i :: 0 <= i < |nodes| ==> nodes[i] in all)
    }

    /** `all` are the flow objects there are. */
    method Add(ghost all: set<Flow<T>>, f: Flow<T>) returns (answer: AddAnswer)
      requires Ready(all) && f in all
      modifies this, all`next_nodes, f.barrier`producer_count
      ensures Ready(all) && LayoutOf(all) == Added(old(LayoutOf(all)), f)
      ensures answer == UnorderedSources <==> Throws(old(LayoutOf(all)), f)
    {
      answer := Fine;
      if f.block.Source? {
        PushSource(all, f);
        if nodes != [] {
          answer := UnorderedSources;
        }
      } else {
        Attach(all, f);
        if !f.block.Sink? {
          PushNode(all, f);
        }
      }
    }

    method PushSource(ghost all: set<Flow<T>>, f: Flow<T>)
      requires Ready(all) && f in all
      modifies this`sources
      ensures Ready(all)
      ensures LayoutOf(all) == old(LayoutOf(all).(sources := sources + [f]))
    {
      hide Masks;
      sources := sources + [f];
    }

    method PushNode(ghost all: set<Flow<T>>, f: Flow<T>)
      requires Ready(all) && f in all
      modifies this`nodes
      ensures Ready(all)
      ensures LayoutOf(all) == old(LayoutOf(all).(nodes := nodes + [f]))
    {
      hide Masks;
      nodes := nodes + [f];
    }

    method Attach(ghost all: set<Flow<T>>, f: Flow<T>)
      requires Ready(all) && f in all
      modifies all`next_nodes, f.barrier`producer_count
      ensures Ready(all) && LayoutOf(all) == Attached(old(LayoutOf(all)), f)
    {
      InLayout(all);
      hide *;
      AttachedIs(LayoutOf(all), f);
      if nodes == [] {
        AttachToSources(all, f);
      } else {
        AttachToLast(all, f);
      }
    }

    method AttachToLast(ghost all: set<Flow<T>>, f: Flow<T>)
      requires Ready(all) && f in all && nodes != []
      modifies all`next_nodes, f.barrier`producer_count
      ensures Ready(all) && old(nodes[|nodes| - 1] in all)
      ensures LayoutOf(all) == Connected(old(LayoutOf(all)), old(nodes[|nodes| - 1]), f)
    {
      InLayout(all);
      hide *;
      ConnectHere(all, nodes[|nodes| - 1], f);
    }

    method AttachToSources(ghost all: set<Flow<T>>, f: Flow<T>)
      requires Ready(all) && f in all
      modifies all`next_nodes, f.barrier`producer_count
      ensures Ready(all) && LayoutOf(all) == SourcesConnected(old(LayoutOf(all)), 0, f)
    {
      InLayout(all);
      hide *;
      ghost var w := LayoutOf(all);
      ghost var end := SourcesConnected(w, 0, f);
      var list := sources;
      for i := 0 to |list|
        invariant Ready(all) && w == LayoutOf(all) && LayoutOk(w) && w.sources == list && w.next.Keys == all
        invariant SourcesConnected(w, i, f) == end
      {
        SourcesUnfold(w, i, f);
        ConnectHere(all, list[i], f);
        w := Connected(w, list[i], f);
      }
      SourcesUnfold(w, |list|, f);
    }

    lemma InLayout(all: set<Flow<T>>)
      requires Ready(all)
      ensures LayoutOf(all).sources == sources && LayoutOf(all).nodes == nodes && LayoutOf(all).next.Keys == all
      ensures (forall i :: 0 <= i < |sources| ==> sources[i] in all) && forall i :: 0 <= i < |nodes| ==> nodes[i] in all
      ensures LayoutOk(LayoutOf(all))
    { }

    method ConnectHere(ghost all: set<Flow<T>>, from: Flow<T>, to: Flow<T>)
      requires Ready(all) && from in all && to in all
      modifies from`next_nodes, to.barrier`producer_count
      ensures Ready(all) && LayoutOf(all) == Connected(old(LayoutOf(all)), from, to)
      ensures to.barrier.producer_count <= old(to.barrier.producer_count) + 1
    {
      hide AllValid;
      hide EdgesOf;
      hide CountsOf;
      Connect(all, from, to);
      assert CountsOf(all)[to] == to.barrier.producer_count;
    }

    static method Connect(ghost all: set<Flow<T>>, from: Flow<T>, to: Flow<T>)
      requires AllValid(all) && Apart(all) && from in all && to in all
      modifies from`next_nodes, to.barrier`producer_count
      ensures AllValid(all)
      ensures EdgesOf(all) == old(EdgesOf(all)[from := from.next_nodes + [(to, IdFor(to, to.barrier.producer_count))]])
      ensures CountsOf(all) == old(CountsOf(all)[to := to.barrier.producer_count + Registrations(to)])
    {
      hide Masks;
      hide EdgesOf;
      hide CountsOf;
      hide BarriersOf;
      ghost var edges, counts := EdgesOf(all), CountsOf(all);
      from.AddConsumer(to);
      Updated(edges, EdgesOf(all), from, from.next_nodes);
      Updated(counts, CountsOf(all), to, to.barrier.producer_count);
    }

    /** The sources in turn; without sources the first node, on nothing. */
    method Execute(ghost g: Graph<T>) returns (failed: bool)
      requires Wired(g) && forall i :: 0 <= i < |sources| ==> sources[i] in g.next && sources[i].block.Source?
      requires nodes != [] ==> nodes[0] in g.next && (nodes[0].block.Module? || nodes[0].block.Aggregate?)
      modifies g.next.Keys`produced, g.next.Keys`received, Barriers(g)`state, Barriers(g)`latest
      ensures failed <==>
        sources == [] && nodes != [] && (nodes[0].block.Module? || 0 !in old(nodes[0].barrier.latest))
      ensures Wired(g) && MemoryOf(g) == SourcesExecuted(g, old(MemoryOf(g)), sources, 0)
    {
      failed := false;
      if sources != [] {
        hide *;
        ExecuteEach(g, sources);
      } else if nodes != [] {
        failed := nodes[0].ExecuteOnNothing();
      }
    }

    static method ExecuteEach(ghost g: Graph<T>, sources: seq<Flow<T>>)
      requires Wired(g) && forall i :: 0 <= i < |sources| ==> sources[i] in g.next && sources[i].block.Source?
      modifies g.next.Keys`produced, g.next.Keys`received, Barriers(g)`state, Barriers(g)`latest
      ensures Wired(g) && MemoryOf(g) == SourcesExecuted(g, old(MemoryOf(g)), sources, 0)
    {
      WiredIsOk(g);
      hide *;
      ghost var m := MemoryOf(g);
      ghost var end := SourcesExecuted(g, m, sources, 0);
      for i := 0 to |sources|
        invariant Wired(g) && m == MemoryOf(g) && Covers(g, m)
        invariant SourcesExecuted(g, m, sources, i) == end
      {
        var source := sources[i];
        assert source in g.next && source.block.Source?;
        ExecutedUnfold(g, m, sources, i);
        source.Execute(g, Batch([]), 0);
        m := Executed(g, m, source, Batch([]), 0);
      }
      ExecutedUnfold(g, m, sources, |sources|);
    }
  }

  ghost function BarriersOf<T(!new)>(all: set<Flow<T>>): set<Aggregator<Value<T>>> {
    set n | n in all :: n.barrier
  }

  ghost predicate AllValid<T(!new)>(all: set<Flow<T>>)
    reads BarriersOf(all)
  {
    forall n :: n in all ==> n.barrier.Valid()
  }

  ghost predicate Apart<T(!new)>(all: set<Flow<T>>) {
    forall n, m :: n in all && m in all && n != m ==> n.barrier != m.barrier
  }

  ghost function EdgesOf<T(!new)>(all: set<Flow<T>>): (m: map<Flow<T>, seq<(Flow<T>, nat)>>)
    reads all`next_nodes
    ensures m.Keys == all && forall n :: n in all ==> m[n] == n.next_nodes
  {
    map n | n in all :: n.next_nodes
  }

  ghost function CountsOf<T(!new)>(all: set<Flow<T>>): (m: map<Flow<T>, nat>)
    reads BarriersOf(all)`producer_count
    ensures m.Keys == all && forall n :: n in all ==> m[n] == n.barrier.producer_count
  {
    map n | n in all :: n.barrier.producer_count
  }

  /** The sources from the `i`-th on are executed. */
  ghost function SourcesExecuted<T(!new)>(g: Graph<T>, m: Memory<T>, sources: seq<Flow<T>>, i: nat): (m': Memory<T>)
    requires GraphOk(g) && Covers(g, m) && i <= |sources| && forall k :: 0 <= k < |sources| ==> sources[k] in g.next
    ensures Covers(g, m')
    decreases |sources| - i
  {
    if i == |sources| then m
    else SourcesExecuted(g, Executed(g, m, sources[i], Batch([]), 0), sources, i + 1)
  }

  lemma ExecutedUnfold<T(!new)>(g: Graph<T>, m: Memory<T>, sources: seq<Flow<T>>, i: nat)
    requires GraphOk(g) && Covers(g, m) && i <= |sources| && forall k :: 0 <= k < |sources| ==> sources[k] in g.next
    ensures i == |sources| ==> SourcesExecuted(g, m, sources, i) == m
    ensures i < |sources| ==>
      SourcesExecuted(g, m, sources, i) == SourcesExecuted(g, Executed(g, m, sources[i], Batch([]), 0), sources, i + 1)
  { }

  lemma WiredIsOk<T(!new)>(g: Graph<T>)
    requires Wired(g)
    ensures GraphOk(g)
  { }
}
