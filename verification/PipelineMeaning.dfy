/** What a pipeline built by adding sources, nodes and sinks in that order is, and what executing it does. */
module PipelineMeaning {
  import opened FlowGraph
  import opened Pipeline

  // ---------------------------------------------------------------- auto-wiring

  ghost function AddedAll<T(!new)>(w: Layout<T>, fs: seq<Flow<T>>): (w': Layout<T>)
    requires LayoutOk(w) && AllIn(w, fs)
    ensures LayoutOk(w') && w'.next.Keys == w.next.Keys
  {
    if fs == [] then w else Added(AddedAll(w, fs[..|fs| - 1]), fs[|fs| - 1])
  }

  /** A new pipeline, and objects that nothing is connected to. */
  ghost predicate Unconnected<T(!new)>(w: Layout<T>) {
    && LayoutOk(w) && w.sources == w.nodes == []
    && forall n :: n in w.next ==> w.next[n] == [] && w.producers[n] == 0
  }

  ghost predicate AllDistinct<T(!new)>(fs: seq<Flow<T>>) {
    forall i, j :: 0 <= i < j < |fs| ==> fs[i] != fs[j]
  }

  ghost predicate AllIn<T(!new)>(w: Layout<T>, fs: seq<Flow<T>>) {
    forall i :: 0 <= i < |fs| ==> fs[i] in w.next
  }

  predicate IsNode<T(==,!new)>(f: Flow<T>) {
    f.block.Module? || f.block.Aggregate?
  }

  /** Sources, then modules and aggregators, then sinks. */
  ghost predicate InOrder<T(!new)>(ss: seq<Flow<T>>, ns: seq<Flow<T>>, ks: seq<Flow<T>>) {
    && (forall i :: 0 <= i < |ss| ==> ss[i].block.Source?)
    && (forall i :: 0 <= i < |ns| ==> IsNode(ns[i]))
    && (forall i :: 0 <= i < |ks| ==> ks[i].block.Sink?)
  }

  /** The edges to a list of sinks. */
  ghost function ToAll<T(!new)>(ks: seq<Flow<T>>): seq<(Flow<T>, nat)> {
    seq(|ks|, i requires 0 <= i < |ks| => (ks[i], 0))
  }

  lemma {:induction false} SourcesAdded<T(!new)>(w: Layout<T>, ss: seq<Flow<T>>)
    requires LayoutOk(w) && AllIn(w, ss) && forall i :: 0 <= i < |ss| ==> ss[i].block.Source?
    ensures AddedAll(w, ss) == w.(sources := w.sources + ss)
  {
    if ss != [] {
      var last := |ss| - 1;
      SourcesAdded(w, ss[..last]);
      assert ss[..last] + [ss[last]] == ss;
      assert w.sources + ss[..last] + [ss[last]] == w.sources + ss;
    } else {
      assert w.sources + ss == w.sources;
    }
  }

  lemma ConnectedNext<T(!new)>(w: Layout<T>, from: Flow<T>, to: Flow<T>, n: Flow<T>)
    requires LayoutOk(w) && from in w.next && to in w.next && n in w.next
    ensures var w' := Connected(w, from, to);
            && w'.next.Keys == w'.producers.Keys == w.next.Keys && w.producers.Keys == w.next.Keys
            && w'.next[n] == w.next[n] + (if n == from then [(to, IdFor(to, w.producers[to]))] else [])
            && w'.producers[to] == w.producers[to] + Registrations(to)
  { }

  /** The first node is connected to every source, and numbers them if it is an aggregator. */
  lemma {:induction false} FirstAttached<T(!new)>(w: Layout<T>, i: nat, f: Flow<T>, k: nat)
    requires LayoutOk(w) && f in w.next && AllDistinct(w.sources) && i <= k < |w.sources|
    ensures SourcesConnected(w, i, f).next[w.sources[k]]
         == w.next[w.sources[k]] + [(f, IdFor(f, w.producers[f] + k - i))]
    decreases |w.sources| - i
  {
    hide *;
    var s, n := w.sources[i], w.sources[k];
    SourcesUnfold(w, i, f);
    SourcesUnfold(w, k, f);
    ConnectedNext(w, s, f, n);
    DistinctAt(w.sources, i, k);
    var w1 := Connected(w, s, f);
    if i < k {
      FirstAttached(w1, i + 1, f, k);
      NextNumber(f, w.producers[f], k - i);
    } else {
      NextNumber(f, w.producers[f], 0);
      OthersUntouched(w1, i + 1, f, s);
    }
  }

  lemma NextNumber<T(!new)>(f: Flow<T>, p: nat, d: nat)
    ensures d > 0 ==> IdFor(f, p + Registrations(f) + d - 1) == IdFor(f, p + d)
    ensures d == 0 ==> IdFor(f, p + d) == IdFor(f, p)
  { }

  lemma DistinctAt<T(!new)>(fs: seq<Flow<T>>, i: nat, k: nat)
    requires AllDistinct(fs) && i <= k < |fs|
    ensures forall j :: i < j < |fs| ==> fs[j] != fs[i]
    ensures i < k ==> fs[i] != fs[k]
  { }

  lemma {:induction false} OthersUntouched<T(!new)>(w: Layout<T>, i: nat, f: Flow<T>, n: Flow<T>)
    requires LayoutOk(w) && f in w.next && n in w.next && i <= |w.sources|
    requires forall k :: i <= k < |w.sources| ==> w.sources[k] != n
    ensures SourcesConnected(w, i, f).next[n] == w.next[n]
    decreases |w.sources| - i
  {
    if i < |w.sources| {
      OthersUntouched(Connected(w, w.sources[i], f), i + 1, f, n);
    }
  }

  lemma {:induction false} SourcesCounted<T(!new)>(w: Layout<T>, i: nat, f: Flow<T>, x: Flow<T>)
    requires LayoutOk(w) && f in w.next && x in w.next && i <= |w.sources|
    ensures SourcesConnected(w, i, f).producers[x]
         == w.producers[x] + if x == f && f.block.Aggregate? then |w.sources| - i else 0
    decreases |w.sources| - i
  {
    if i < |w.sources| {
      SourcesCounted(Connected(w, w.sources[i], f), i + 1, f, x);
    }
  }

  // ---------------------------------------------------------------- the shape of a pipeline

  /** Every source leads to the first node, or to all sinks if there are no nodes. */
  ghost predicate SourceEdges<T(!new)>(w: Layout<T>, ss: seq<Flow<T>>, ns: seq<Flow<T>>, ks: seq<Flow<T>>) {
    forall i :: 0 <= i < |ss| ==>
      ss[i] in w.next && w.next[ss[i]] == if ns == [] then ToAll(ks) else [(ns[0], IdFor(ns[0], i))]
  }

  /** Where the `j`-th node leads: to the next one, or to all sinks. */
  ghost function EdgesAfter<T(!new)>(ns: seq<Flow<T>>, ks: seq<Flow<T>>, j: nat): seq<(Flow<T>, nat)>
    requires j < |ns|
  {
    if j + 1 == |ns| then ToAll(ks) else [(ns[j + 1], 0)]
  }

  /** Every node leads to the next one, the last to all sinks. */
  ghost predicate NodeEdges<T(!new)>(w: Layout<T>, ns: seq<Flow<T>>, ks: seq<Flow<T>>) {
    forall j :: 0 <= j < |ns| ==>
      ns[j] in w.next && w.next[ns[j]] == EdgesAfter(ns, ks, j)
  }

  /** An aggregator knows how many producers it has: all sources, or the node before it. */
  ghost predicate NodeCounts<T(!new)>(w: Layout<T>, ss: seq<Flow<T>>, ns: seq<Flow<T>>) {
    forall j :: 0 <= j < |ns| ==>
      ns[j] in w.producers && w.producers[ns[j]] == Registrations(ns[j]) * if j == 0 then |ss| else 1
  }

  /** Nothing is connected to the objects not added yet, nor to them from anywhere. */
  ghost predicate Untouched<T(!new)>(w: Layout<T>, added: seq<Flow<T>>) {
    forall n :: n in w.next && n !in added ==> w.next[n] == [] && n in w.producers && w.producers[n] == 0
  }

  ghost predicate Shape<T(!new)>(w: Layout<T>, ss: seq<Flow<T>>, ns: seq<Flow<T>>, ks: seq<Flow<T>>) {
    && LayoutOk(w) && w.sources == ss && w.nodes == ns
    && SourceEdges(w, ss, ns, ks) && NodeEdges(w, ns, ks) && NodeCounts(w, ss, ns)
    && Untouched(w, ss + ns)
  }

  lemma ToAllGrows<T(!new)>(ks: seq<Flow<T>>, f: Flow<T>)
    ensures ToAll(ks) + [(f, 0)] == ToAll(ks + [f])
    ensures ToAll<T>([]) == []
  { }

  lemma NotAmong<T(!new)>(ss: seq<Flow<T>>, ns: seq<Flow<T>>, f: Flow<T>)
    requires f !in ss + ns
    ensures f !in ss && f !in ns
  {
    forall i | 0 <= i < |ss|
      ensures ss[i] != f
    {
      assert (ss + ns)[i] == ss[i];
    }
    forall j | 0 <= j < |ns|
      ensures ns[j] != f
    {
      assert (ss + ns)[|ss| + j] == ns[j];
    }
  }

  lemma ApartFrom<T(!new)>(ss: seq<Flow<T>>, ns: seq<Flow<T>>, i: nat, j: nat)
    requires AllDistinct(ss + ns) && i < |ss| && j < |ns|
    ensures ss[i] != ns[j]
  {
    assert (ss + ns)[i] == ss[i] && (ss + ns)[|ss| + j] == ns[j];
  }

  lemma ApartNodes<T(!new)>(ss: seq<Flow<T>>, ns: seq<Flow<T>>, i: nat, j: nat)
    requires AllDistinct(ss + ns) && i < |ns| && j < |ns| && i != j
    ensures ns[i] != ns[j]
  {
    var a, b := if i < j then i else j, if i < j then j else i;
    assert (ss + ns)[|ss| + a] == ns[a] && (ss + ns)[|ss| + b] == ns[b];
  }

  lemma AddedFirst<T(!new)>(w: Layout<T>, f: Flow<T>)
    requires LayoutOk(w) && w.nodes == [] && f in w.next && !f.block.Source?
    ensures Added(w, f) == SourcesConnected(w, 0, f).(nodes := if f.block.Sink? then [] else [f])
  {
    hide SourcesConnected;
  }

  /** The first node, or a sink where there are no nodes. */
  lemma AddedToSources<T(!new)>(w: Layout<T>, f: Flow<T>, k: nat, n: Flow<T>)
    requires LayoutOk(w) && w.nodes == [] && f in w.next && n in w.next && !f.block.Source? && AllDistinct(w.sources)
    ensures var w' := Added(w, f);
            && w'.sources == w.sources && w'.nodes == (if f.block.Sink? then [] else [f])
            && (k < |w.sources| ==> w'.next[w.sources[k]] == w.next[w.sources[k]] + [(f, IdFor(f, w.producers[f] + k))])
            && (n !in w.sources ==> w'.next[n] == w.next[n])
            && w'.producers[n] == w.producers[n] + if n == f && f.block.Aggregate? then |w.sources| else 0
  {
    hide Added;
    hide SourcesConnected;
    hide AllDistinct;
    AddedFirst(w, f);
    if k < |w.sources| {
      FirstAttached(w, 0, f, k);
    }
    if n !in w.sources {
      OthersUntouched(w, 0, f, n);
    }
    SourcesCounted(w, 0, f, n);
  }

  /** A later node, or a sink where there are nodes. */
  lemma AddedToLast<T(!new)>(w: Layout<T>, f: Flow<T>, n: Flow<T>)
    requires LayoutOk(w) && w.nodes != [] && f in w.next && n in w.next && !f.block.Source?
    ensures var w' := Added(w, f);
            && w'.sources == w.sources && w'.nodes == (if f.block.Sink? then w.nodes else w.nodes + [f])
            && w'.next[n] == w.next[n] + (if n == w.nodes[|w.nodes| - 1] then [(f, IdFor(f, w.producers[f]))] else [])
            && w'.producers[n] == w.producers[n] + if n == f then Registrations(f) else 0
  {
    ConnectedNext(w, w.nodes[|w.nodes| - 1], f, n);
  }

  lemma FirstNodeShapes<T(!new)>(w: Layout<T>, ss: seq<Flow<T>>, f: Flow<T>)
    requires Shape(w, ss, [], []) && f in w.next && f !in ss && AllDistinct(ss) && (f.block.Module? || f.block.Aggregate?)
    ensures Shape(Added(w, f), ss, [f], [])
  {
    hide SourceEdges;
    hide Untouched;
    hide Added;
    hide NodeEdges;
    hide NodeCounts;
    FirstNodeReady(w, ss, f);
    FirstNodeSources(w, ss, f);
    FirstNodeUntouched(w, ss, f);
    AddedToSources(w, f, |ss|, f);
    NoSource(ss, f);
    OneNode(Added(w, f), ss, f);
  }

  lemma NoSource<T(!new)>(ss: seq<Flow<T>>, f: Flow<T>)
    requires f !in ss
    ensures forall i :: 0 <= i < |ss| ==> ss[i] != f
  { }

  lemma OneNode<T(!new)>(w: Layout<T>, ss: seq<Flow<T>>, f: Flow<T>)
    requires f in w.next && f in w.producers && w.next[f] == []
    requires w.producers[f] == if f.block.Aggregate? then |ss| else 0
    ensures NodeEdges(w, [f], []) && NodeCounts(w, ss, [f])
  {
    ToAllGrows([], f);
  }

  lemma FirstNodeReady<T(!new)>(w: Layout<T>, ss: seq<Flow<T>>, f: Flow<T>)
    requires Shape(w, ss, [], []) && f in w.next && f !in ss
    ensures Untouched(w, ss) && w.next[f] == [] && w.producers[f] == 0
    ensures forall i :: 0 <= i < |ss| ==> ss[i] in w.next && w.next[ss[i]] == []
  {
    assert ss + [] == ss;
    ToAllGrows([], f);
  }

  lemma FirstNodeSources<T(!new)>(w: Layout<T>, ss: seq<Flow<T>>, f: Flow<T>)
    requires LayoutOk(w) && w.sources == ss && w.nodes == [] && f in w.next && !f.block.Source? && AllDistinct(ss)
    requires w.producers[f] == 0 && forall i :: 0 <= i < |ss| ==> ss[i] in w.next && w.next[ss[i]] == []
    ensures SourceEdges(Added(w, f), ss, [f], [])
  {
    forall i | 0 <= i < |ss|
      ensures ss[i] in w.next && Added(w, f).next[ss[i]] == [(f, IdFor(f, i))]
    {
      AddedToSources(w, f, i, f);
    }
  }

  lemma FirstNodeUntouched<T(!new)>(w: Layout<T>, ss: seq<Flow<T>>, f: Flow<T>)
    requires LayoutOk(w) && w.sources == ss && w.nodes == [] && f in w.next && !f.block.Source? && AllDistinct(ss)
    requires Untouched(w, ss)
    ensures Untouched(Added(w, f), ss + [f])
  {
    forall n | n in w.next && n !in ss + [f]
      ensures Added(w, f).next[n] == [] && Added(w, f).producers[n] == 0
    {
      NotAmong(ss, [f], n);
      assert n != f by { assert [f][0] == f; }
      AddedToSources(w, f, |ss|, n);
    }
  }

  /** The effect of an object that is connected to one other. */
  ghost predicate Appended<T(!new)>(w: Layout<T>, w': Layout<T>, last: Flow<T>, f: Flow<T>) {
    && w'.next.Keys == w.next.Keys == w.producers.Keys == w'.producers.Keys
    && (forall n :: n in w.next ==> w'.next[n] == w.next[n] + if n == last then [(f, 0)] else [])
    && (forall n :: n in w.next ==> w'.producers[n] == w.producers[n] + if n == f then Registrations(f) else 0)
  }

  lemma AddedAppends<T(!new)>(w: Layout<T>, f: Flow<T>)
    requires LayoutOk(w) && w.nodes != [] && f in w.next && !f.block.Source? && IdFor(f, w.producers[f]) == 0
    ensures Appended(w, Added(w, f), w.nodes[|w.nodes| - 1], f)
  {
    var w' := Added(w, f);
    forall n | n in w.next
      ensures w'.next[n] == w.next[n] + if n == w.nodes[|w.nodes| - 1] then [(f, 0)] else []
      ensures w'.producers[n] == w.producers[n] + if n == f then Registrations(f) else 0
    {
      AddedToLast(w, f, n);
    }
  }

  lemma SourcesStay<T(!new)>(
    w: Layout<T>, w': Layout<T>, f: Flow<T>,
    ss: seq<Flow<T>>, ns: seq<Flow<T>>, ks: seq<Flow<T>>, ns': seq<Flow<T>>, ks': seq<Flow<T>>)
    requires ns != [] && Appended(w, w', ns[|ns| - 1], f) && SourceEdges(w, ss, ns, ks) && AllDistinct(ss + ns)
    requires ns' != [] && ns'[0] == ns[0]
    ensures SourceEdges(w', ss, ns', ks')
  {
    forall i | 0 <= i < |ss|
      ensures ss[i] in w'.next && w'.next[ss[i]] == [(ns[0], IdFor(ns[0], i))]
    {
      ApartFrom(ss, ns, i, |ns| - 1);
    }
  }

  lemma NodeEdgeAt<T(!new)>(w: Layout<T>, ns: seq<Flow<T>>, ks: seq<Flow<T>>, j: nat)
    requires NodeEdges(w, ns, ks) && j < |ns|
    ensures ns[j] in w.next
    ensures j + 1 == |ns| ==> w.next[ns[j]] == ToAll(ks)
    ensures j + 1 < |ns| ==> w.next[ns[j]] == [(ns[j + 1], 0)]
  { }

  /** A later node takes the place of the sinks that are not there yet. */
  lemma NodeGoesOn<T(!new)>(w: Layout<T>, w': Layout<T>, f: Flow<T>, ss: seq<Flow<T>>, ns: seq<Flow<T>>, j: nat)
    requires ns != [] && Appended(w, w', ns[|ns| - 1], f) && NodeEdges(w, ns, []) && AllDistinct(ss + ns) && j < |ns|
    ensures ns[j] in w'.next && w'.next[ns[j]] == [((ns + [f])[j + 1], 0)]
  {
    NodeEdgeAt(w, ns, [], j);
    ToAllGrows([], f);
    if j + 1 < |ns| {
      ApartNodes(ss, ns, j, |ns| - 1);
    }
    hide NodeEdges;
    hide ToAll;
    hide AllDistinct;
  }

  lemma NodesGoOn<T(!new)>(w: Layout<T>, w': Layout<T>, f: Flow<T>, ss: seq<Flow<T>>, ns: seq<Flow<T>>)
    requires ns != [] && Appended(w, w', ns[|ns| - 1], f) && NodeEdges(w, ns, []) && AllDistinct(ss + ns)
    requires f in w.next && f !in ns && w.next[f] == []
    ensures NodeEdges(w', ns + [f], [])
  {
    ToAllGrows([], f);
    assert f in w'.next && w'.next[f] == [];
    forall j | 0 <= j < |ns|
      ensures ns[j] in w'.next && w'.next[ns[j]] == EdgesAfter(ns + [f], [], j)
    {
      NodeGoesOn(w, w', f, ss, ns, j);
    }
  }

  lemma NodesLeadToSink<T(!new)>(
    w: Layout<T>, w': Layout<T>, f: Flow<T>, ss: seq<Flow<T>>, ns: seq<Flow<T>>, ks: seq<Flow<T>>)
    requires ns != [] && Appended(w, w', ns[|ns| - 1], f) && NodeEdges(w, ns, ks) && AllDistinct(ss + ns)
    ensures NodeEdges(w', ns, ks + [f])
  {
    ToAllGrows(ks, f);
    forall j | 0 <= j < |ns|
      ensures ns[j] in w'.next && w'.next[ns[j]] == EdgesAfter(ns, ks + [f], j)
    {
      if j < |ns| - 1 {
        ApartNodes(ss, ns, j, |ns| - 1);
      }
    }
  }

  lemma UntouchedStay<T(!new)>(w: Layout<T>, w': Layout<T>, last: Flow<T>, f: Flow<T>, added: seq<Flow<T>>)
    requires Appended(w, w', last, f) && Untouched(w, added) && last in added
    ensures Untouched(w', added + [f])
    ensures f.block.Sink? ==> Untouched(w', added)
  {
    forall n | n in w.next && n !in added + [f]
      ensures w'.next[n] == [] && w'.producers[n] == 0
    {
      NotAmong(added, [f], n);
      assert n != f by { assert [f][0] == f; }
    }
  }

  lemma NextNodeShapes<T(!new)>(w: Layout<T>, ss: seq<Flow<T>>, ns: seq<Flow<T>>, f: Flow<T>)
    requires Shape(w, ss, ns, []) && ns != [] && AllDistinct(ss + ns) && f in w.next && f !in ss + ns
    requires f.block.Module? || f.block.Aggregate?
    ensures Shape(Added(w, f), ss, ns + [f], [])
  {
    hide Added;
    hide Appended;
    hide SourceEdges;
    hide NodeEdges;
    hide NodeCounts;
    hide Untouched;
    hide AllDistinct;
    NextNodeReady(w, ss, ns, f);
    var w' := Added(w, f);
    CountsGoOn(w, w', f, ss, ns);
    SourcesStay(w, w', f, ss, ns, [], ns + [f], []);
    NodesGoOn(w, w', f, ss, ns);
    UntouchedStay(w, w', ns[|ns| - 1], f, ss + ns);
    assert ss + (ns + [f]) == (ss + ns) + [f];
  }

  lemma NextNodeReady<T(!new)>(w: Layout<T>, ss: seq<Flow<T>>, ns: seq<Flow<T>>, f: Flow<T>)
    requires LayoutOk(w) && w.nodes == ns && ns != [] && Untouched(w, ss + ns) && f in w.next && f !in ss + ns
    requires f.block.Module? || f.block.Aggregate?
    ensures f !in ns && w.next[f] == [] && w.producers[f] == 0 && ns[|ns| - 1] in ss + ns
    ensures Appended(w, Added(w, f), ns[|ns| - 1], f)
    ensures Added(w, f).sources == w.sources && Added(w, f).nodes == ns + [f]
  {
    assert w.next[f] == [] && w.producers[f] == 0;
    assert (ss + ns)[|ss| + |ns| - 1] == ns[|ns| - 1];
    hide Untouched;
    NotAmong(ss, ns, f);
    AddedToLast(w, f, f);
    AddedAppends(w, f);
  }

  lemma CountsGoOn<T(!new)>(w: Layout<T>, w': Layout<T>, f: Flow<T>, ss: seq<Flow<T>>, ns: seq<Flow<T>>)
    requires ns != [] && Appended(w, w', ns[|ns| - 1], f) && NodeCounts(w, ss, ns) && f !in ns
    requires f in w.next && w.producers[f] == 0
    ensures NodeCounts(w', ss, ns + [f])
  { }

  lemma SinkShapes<T(!new)>(w: Layout<T>, ss: seq<Flow<T>>, ns: seq<Flow<T>>, ks: seq<Flow<T>>, f: Flow<T>)
    requires Shape(w, ss, ns, ks) && AllDistinct(ss + ns) && f in w.next && f !in ss + ns && f.block.Sink?
    ensures Shape(Added(w, f), ss, ns, ks + [f])
  {
    if ns == [] {
      SinkToSources(w, ss, ks, f);
    } else {
      SinkToLast(w, ss, ns, ks, f);
    }
  }

  lemma SinkToSources<T(!new)>(w: Layout<T>, ss: seq<Flow<T>>, ks: seq<Flow<T>>, f: Flow<T>)
    requires Shape(w, ss, [], ks) && AllDistinct(ss + []) && f in w.next && f.block.Sink?
    ensures Shape(Added(w, f), ss, [], ks + [f])
  {
    assert ss + [] == ss;
    hide SourceEdges;
    hide Untouched;
    hide AllDistinct;
    hide Added;
    hide NodeEdges;
    hide NodeCounts;
    AddedToSources(w, f, |ss|, f);
    SourcesLeadToSink(w, ss, ks, f);
    SourcesStayUntouched(w, ss, f);
    NoNodes(Added(w, f), ss, ks + [f]);
  }

  lemma NoNodes<T(!new)>(w: Layout<T>, ss: seq<Flow<T>>, ks: seq<Flow<T>>)
    ensures NodeEdges(w, [], ks) && NodeCounts(w, ss, [])
  { }

  lemma SourcesLeadToSink<T(!new)>(w: Layout<T>, ss: seq<Flow<T>>, ks: seq<Flow<T>>, f: Flow<T>)
    requires LayoutOk(w) && w.sources == ss && w.nodes == [] && AllDistinct(ss) && SourceEdges(w, ss, [], ks)
    requires f in w.next && f.block.Sink?
    ensures SourceEdges(Added(w, f), ss, [], ks + [f])
  {
    ToAllGrows(ks, f);
    forall i | 0 <= i < |ss|
      ensures ss[i] in w.next && Added(w, f).next[ss[i]] == ToAll(ks + [f])
    {
      assert w.next[ss[i]] == ToAll(ks);
      AddedToSources(w, f, i, f);
    }
  }

  lemma SourcesStayUntouched<T(!new)>(w: Layout<T>, ss: seq<Flow<T>>, f: Flow<T>)
    requires LayoutOk(w) && w.sources == ss && w.nodes == [] && AllDistinct(ss) && Untouched(w, ss)
    requires f in w.next && f.block.Sink?
    ensures Untouched(Added(w, f), ss)
  {
    forall n | n in w.next && n !in ss
      ensures Added(w, f).next[n] == [] && Added(w, f).producers[n] == 0
    {
      AddedToSources(w, f, |ss|, n);
    }
  }

  lemma SinkToLast<T(!new)>(w: Layout<T>, ss: seq<Flow<T>>, ns: seq<Flow<T>>, ks: seq<Flow<T>>, f: Flow<T>)
    requires Shape(w, ss, ns, ks) && ns != [] && AllDistinct(ss + ns) && f in w.next && f.block.Sink?
    ensures Shape(Added(w, f), ss, ns, ks + [f])
  {
    var w' := Added(w, f);
    SinkReady(w, ss, ns, f);
    hide Added;
    hide Appended;
    hide SourceEdges;
    hide NodeEdges;
    hide NodeCounts;
    hide Untouched;
    hide AllDistinct;
    SourcesStay(w, w', f, ss, ns, ks, ns, ks + [f]);
    NodesLeadToSink(w, w', f, ss, ns, ks);
    UntouchedStay(w, w', ns[|ns| - 1], f, ss + ns);
  }

  lemma SinkReady<T(!new)>(w: Layout<T>, ss: seq<Flow<T>>, ns: seq<Flow<T>>, f: Flow<T>)
    requires LayoutOk(w) && w.nodes == ns && ns != [] && NodeCounts(w, ss, ns) && f in w.next && f.block.Sink?
    ensures var w' := Added(w, f);
            && Appended(w, w', ns[|ns| - 1], f) && ns[|ns| - 1] in ss + ns
            && w'.sources == w.sources && w'.nodes == ns && NodeCounts(w', ss, ns)
  {
    AddedToLast(w, f, f);
    AddedAppends(w, f);
    assert (ss + ns)[|ss| + |ns| - 1] == ns[|ns| - 1];
    hide Added;
  }

  /** Only sources: nothing is connected. */
  lemma SourcesShape<T(!new)>(w: Layout<T>, ss: seq<Flow<T>>)
    requires Unconnected(w) && AllIn(w, ss) && forall i :: 0 <= i < |ss| ==> ss[i].block.Source?
    ensures Shape(AddedAll(w, ss), ss, [], [])
  {
    SourcesAdded(w, ss);
    assert w.sources + ss == ss && ss + [] == ss;
    assert ToAll<T>([]) == [];
  }

  lemma LastOf<T(!new)>(a: seq<Flow<T>>, b: seq<Flow<T>>)
    requires b != []
    ensures var all := a + b;
            all[..|all| - 1] == a + b[..|b| - 1] && all[|all| - 1] == b[|b| - 1] && b == b[..|b| - 1] + [b[|b| - 1]]
  { }

  lemma {:induction false} NodesShape<T(!new)>(w: Layout<T>, ss: seq<Flow<T>>, ns: seq<Flow<T>>)
    requires Unconnected(w) && AllIn(w, ss + ns) && AllDistinct(ss + ns) && InOrder(ss, ns, [])
    ensures Shape(AddedAll(w, ss + ns), ss, ns, [])
  {
    if ns == [] {
      assert ss + ns == ss;
      SourcesShape(w, ss);
    } else {
      var before, f := ns[..|ns| - 1], ns[|ns| - 1];
      LastOf(ss, ns);
      NodesShape(w, ss, before);
      LastIsNew(ss + ns);
      var w1 := AddedAll(w, ss + before);
      hide Shape;
      hide AllDistinct;
      assert AddedAll(w, ss + ns) == Added(w1, f);
      if before == [] {
        assert ss + before == ss;
        FirstNodeShapes(w1, ss, f);
      } else {
        NextNodeShapes(w1, ss, before, f);
      }
    }
  }

  lemma LastIsNew<T(!new)>(fs: seq<Flow<T>>)
    requires AllDistinct(fs) && fs != []
    ensures AllDistinct(fs[..|fs| - 1]) && fs[|fs| - 1] !in fs[..|fs| - 1]
  { }

  lemma LastAdded<T(!new)>(w: Layout<T>, a: seq<Flow<T>>, b: seq<Flow<T>>)
    requires LayoutOk(w) && AllIn(w, a + b) && b != []
    ensures AllIn(w, a + b[..|b| - 1]) && b[|b| - 1] in w.next
    ensures AddedAll(w, a + b) == Added(AddedAll(w, a + b[..|b| - 1]), b[|b| - 1])
  {
    LastOf(a, b);
    var all := a + b;
    assert all[|all| - 1] in w.next;
    hide Added;
  }

  lemma SinkIsNew<T(!new)>(ss: seq<Flow<T>>, ns: seq<Flow<T>>, ks: seq<Flow<T>>)
    requires InOrder(ss, ns, ks) && ks != []
    ensures InOrder(ss, ns, ks[..|ks| - 1])
    ensures ks[|ks| - 1] !in ss + ns && ks[|ks| - 1].block.Sink?
  { }

  /**
    Auto-wiring: sources, nodes and sinks added in this order form a chain of nodes, with
    all sources before the first one and all sinks after the last one.
   */
  lemma {:induction false} AutoWiring<T(!new)>(w: Layout<T>, ss: seq<Flow<T>>, ns: seq<Flow<T>>, ks: seq<Flow<T>>)
    requires Unconnected(w) && AllIn(w, ss + ns + ks) && AllDistinct(ss + ns) && InOrder(ss, ns, ks)
    ensures Shape(AddedAll(w, ss + ns + ks), ss, ns, ks)
  {
    hide *;
    if ks == [] {
      assert ss + ns + ks == ss + ns;
      NodesShape(w, ss, ns);
    } else {
      UnconnectedIsOk(w);
      SinkIsNew(ss, ns, ks);
      LastAdded(w, ss + ns, ks);
      var before, f := ks[..|ks| - 1], ks[|ks| - 1];
      AutoWiring(w, ss, ns, before);
      SinkShapes(AddedAll(w, ss + ns + before), ss, ns, before, f);
      assert ks == before + [f];
    }
  }

  lemma UnconnectedIsOk<T(!new)>(w: Layout<T>)
    requires Unconnected(w)
    ensures LayoutOk(w)
  { }
}
