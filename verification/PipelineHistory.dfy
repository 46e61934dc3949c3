/** What becomes of a source, whatever was added to the pipeline before it and is added after it. */
module PipelineHistory {
  import opened FlowGraph
  import opened Pipeline
  import opened PipelineMeaning

  ghost predicate HasNode<T(!new)>(fs: seq<Flow<T>>) {
    exists i :: 0 <= i < |fs| && IsNode(fs[i])
  }

  ghost predicate HasSink<T(!new)>(fs: seq<Flow<T>>) {
    exists i :: 0 <= i < |fs| && fs[i].block.Sink?
  }

  /** The objects a source meets that are added after it: the sinks before the first node, and that node. */
  ghost function Met<T(!new)>(fs: seq<Flow<T>>): seq<Flow<T>> {
    if fs == [] then []
    else
      var before, f := fs[..|fs| - 1], fs[|fs| - 1];
      Met(before) + if HasNode(before) || f.block.Source? then [] else [f]
  }

  ghost function Targets<T(!new)>(edges: seq<(Flow<T>, nat)>): (fs: seq<Flow<T>>)
    ensures |fs| == |edges|
  {
    seq(|edges|, i requires 0 <= i < |edges| => edges[i].0)
  }

  // ---------------------------------------------------------------- any history

  ghost predicate Among<T(!new)>(lists: seq<Flow<T>>, fs: seq<Flow<T>>) {
    forall i :: 0 <= i < |lists| ==> lists[i] in fs
  }

  /** The lists of a pipeline after a history: sources are sources, nodes are not, and all were added. */
  ghost predicate Sorted<T(!new)>(w: Layout<T>, fs: seq<Flow<T>>) {
    && Among(w.sources, fs) && Among(w.nodes, fs)
    && (forall i :: 0 <= i < |w.sources| ==> w.sources[i].block.Source?)
    && (forall i :: 0 <= i < |w.nodes| ==> IsNode(w.nodes[i]))
  }

  /** One more object: the lists, and nothing for an object that is neither a source nor the last node. */
  lemma AddedLists<T(!new)>(w: Layout<T>, f: Flow<T>)
    requires LayoutOk(w) && f in w.next
    ensures Added(w, f).sources == w.sources + (if f.block.Source? then [f] else [])
    ensures Added(w, f).nodes == w.nodes + (if IsNode(f) then [f] else [])
  { }

  lemma AddedElsewhere<T(!new)>(w: Layout<T>, f: Flow<T>, n: Flow<T>)
    requires LayoutOk(w) && f in w.next && n in w.next && n !in w.sources && n !in w.nodes
    ensures Added(w, f).next[n] == w.next[n]
  {
    if !f.block.Source? && w.nodes == [] {
      OthersUntouched(w, 0, f, n);
    }
  }

  lemma LastStep<T(!new)>(w: Layout<T>, fs: seq<Flow<T>>)
    requires LayoutOk(w) && AllIn(w, fs) && fs != []
    ensures var before, f := fs[..|fs| - 1], fs[|fs| - 1];
            && AllIn(w, before) && f in w.next && fs == before + [f]
            && AddedAll(w, fs) == Added(AddedAll(w, before), f)
            && (HasNode(fs) <==> HasNode(before) || IsNode(f))
            && (HasSink(fs) <==> HasSink(before) || f.block.Sink?)
            && Met(fs) == Met(before) + if HasNode(before) || f.block.Source? then [] else [f]
  { }

  lemma AmongMore<T(!new)>(list: seq<Flow<T>>, fs: seq<Flow<T>>, f: Flow<T>)
    requires Among(list, fs)
    ensures Among(list, fs + [f]) && Among(list + [f], fs + [f])
  {
    assert (fs + [f])[|fs|] == f;
  }

  lemma SortedStep<T(!new)>(w: Layout<T>, before: seq<Flow<T>>, f: Flow<T>)
    requires LayoutOk(w) && f in w.next && Sorted(w, before)
    ensures Sorted(Added(w, f), before + [f])
  {
    AddedLists(w, f);
    AmongMore(w.sources, before, f);
    AmongMore(w.nodes, before, f);
    hide Added;
    hide Among;
    hide LayoutOk;
  }

  lemma NothingAdded<T(!new)>(w: Layout<T>)
    requires Unconnected(w)
    ensures AddedAll(w, []) == w && Sorted(w, []) && w.nodes == [] && !HasNode<T>([])
  { }

  /** In every history the lists are sorted, and there are nodes if and only if one was added. */
  lemma {:induction false} HistorySorts<T(!new)>(w: Layout<T>, fs: seq<Flow<T>>)
    requires Unconnected(w) && AllIn(w, fs)
    ensures Sorted(AddedAll(w, fs), fs)
    ensures AddedAll(w, fs).nodes != [] <==> HasNode(fs)
  {
    hide *;
    UnconnectedIsOk(w);
    if fs == [] {
      NothingAdded(w);
    } else {
      LastStep(w, fs);
      var before, f := fs[..|fs| - 1], fs[|fs| - 1];
      HistorySorts(w, before);
      SortedStep(AddedAll(w, before), before, f);
      AddedLists(AddedAll(w, before), f);
    }
  }

  /** What has not been added is connected to nothing. */
  lemma {:induction false} NotAddedNotConnected<T(!new)>(w: Layout<T>, fs: seq<Flow<T>>, n: Flow<T>)
    requires Unconnected(w) && AllIn(w, fs) && n in w.next && n !in fs
    ensures AddedAll(w, fs).next[n] == []
  {
    if fs != [] {
      LastStep(w, fs);
      var before, f := fs[..|fs| - 1], fs[|fs| - 1];
      NotAddedNotConnected(w, before, n);
      HistorySorts(w, before);
      AddedElsewhere(AddedAll(w, before), f, n);
      hide AddedAll;
      hide Added;
    }
  }

  // ---------------------------------------------------------------- when a source is refused

  /** Adding a source throws if and only if a module or an aggregator was added before it. */
  lemma SourceThrowsExactlyWhen<T(!new)>(w: Layout<T>, fs: seq<Flow<T>>, s: Flow<T>)
    requires Unconnected(w) && AllIn(w, fs) && s.block.Source?
    ensures Throws(AddedAll(w, fs), s) <==> HasNode(fs)
  {
    HistorySorts(w, fs);
  }

  /** As documented: after a module, an aggregator or a sink. */
  ghost predicate DocumentedToThrow<T(!new)>(fs: seq<Flow<T>>) {
    exists i :: 0 <= i < |fs| && !fs[i].block.Source?
  }

  /** The code does what is documented if and only if there is a node before the source, or no sink. */
  lemma ThrowsAsDocumentedExactlyWhen<T(!new)>(w: Layout<T>, fs: seq<Flow<T>>, s: Flow<T>)
    requires Unconnected(w) && AllIn(w, fs) && s.block.Source?
    ensures (Throws(AddedAll(w, fs), s) <==> DocumentedToThrow(fs)) <==> HasNode(fs) || !HasSink(fs)
  {
    SourceThrowsExactlyWhen(w, fs, s);
    assert DocumentedToThrow(fs) <==> HasNode(fs) || HasSink(fs) by {
      forall i | 0 <= i < |fs|
        ensures !fs[i].block.Source? <==> IsNode(fs[i]) || fs[i].block.Sink?
      { }
    }
  }

  // ---------------------------------------------------------------- where a source leads

  /** `s` stands at position `j` of a list and nowhere else. */
  ghost predicate OnlyAt<T(!new)>(list: seq<Flow<T>>, s: Flow<T>, j: nat) {
    && j < |list| && list[j] == s
    && forall i :: 0 <= i < |list| && i != j ==> list[i] != s
  }

  lemma {:induction false} ConnectedOnce<T(!new)>(w: Layout<T>, i: nat, f: Flow<T>, s: Flow<T>, j: nat)
    requires LayoutOk(w) && f in w.next && s in w.next && OnlyAt(w.sources, s, j) && i <= j
    ensures Targets(SourcesConnected(w, i, f).next[s]) == Targets(w.next[s]) + [f]
    decreases |w.sources| - i
  {
    hide SourcesConnected;
    hide Connected;
    hide LayoutOk;
    var x := w.sources[i];
    SourcesUnfold(w, i, f);
    ConnectedNext(w, x, f, s);
    var w1 := Connected(w, x, f);
    if i < j {
      ConnectedOnce(w1, i + 1, f, s, j);
    } else {
      OthersUntouched(w1, i + 1, f, s);
    }
  }

  /** One more object connects a source if it is a sink or a node, and the first node at most. */
  lemma AddedToSource<T(!new)>(w: Layout<T>, f: Flow<T>, s: Flow<T>, j: nat)
    requires LayoutOk(w) && f in w.next && s in w.next && OnlyAt(w.sources, s, j) && s !in w.nodes
    ensures Targets(Added(w, f).next[s])
         == Targets(w.next[s]) + if f.block.Source? || w.nodes != [] then [] else [f]
  {
    if !f.block.Source? {
      AttachedIs(w, f);
      if w.nodes == [] {
        ConnectedOnce(w, 0, f, s, j);
      } else {
        ConnectedNext(w, w.nodes[|w.nodes| - 1], f, s);
      }
      hide Attached;
      hide Connected;
      hide SourcesConnected;
    }
  }

  /** After a source, with the whole history before it and after it. */
  ghost function History<T(!new)>(fs: seq<Flow<T>>, s: Flow<T>, gs: seq<Flow<T>>): seq<Flow<T>> {
    fs + [s] + gs
  }

  lemma HistoryStep<T(!new)>(w: Layout<T>, fs: seq<Flow<T>>, s: Flow<T>, gs: seq<Flow<T>>)
    requires LayoutOk(w) && AllIn(w, History(fs, s, gs))
    ensures gs == [] ==>
      AllIn(w, fs) && s in w.next && AddedAll(w, History(fs, s, gs)) == Added(AddedAll(w, fs), s)
    ensures gs != [] ==>
      var before, f := gs[..|gs| - 1], gs[|gs| - 1];
      && AllIn(w, History(fs, s, before)) && f in w.next
      && AddedAll(w, History(fs, s, gs)) == Added(AddedAll(w, History(fs, s, before)), f)
      && Met(gs) == Met(before) + if HasNode(before) || f.block.Source? then [] else [f]
  {
    var all := History(fs, s, gs);
    LastStep(w, all);
    if gs == [] {
      assert all[..|all| - 1] == fs;
    } else {
      assert all[..|all| - 1] == History(fs, s, gs[..|gs| - 1]);
      assert all[|all| - 1] == gs[|gs| - 1];
    }
  }

  lemma HistoryHasNode<T(!new)>(fs: seq<Flow<T>>, s: Flow<T>, gs: seq<Flow<T>>)
    requires s.block.Source?
    ensures HasNode(History(fs, s, gs)) <==> HasNode(fs) || HasNode(gs)
  {
    var all := History(fs, s, gs);
    if HasNode(fs) {
      var i :| 0 <= i < |fs| && IsNode(fs[i]);
      assert all[i] == fs[i];
    }
    if HasNode(gs) {
      var i :| 0 <= i < |gs| && IsNode(gs[i]);
      assert all[|fs| + 1 + i] == gs[i];
    }
    if HasNode(all) {
      var i :| 0 <= i < |all| && IsNode(all[i]);
      assert all[i] == if i < |fs| then fs[i] else if i == |fs| then s else gs[i - |fs| - 1];
    }
  }

  /**
    A source that is added once meets the sinks added after it, up to and including the
    first node; after a node it meets nothing any more.
   */
  lemma {:induction false} SourceMeets<T(!new)>(w: Layout<T>, fs: seq<Flow<T>>, s: Flow<T>, gs: seq<Flow<T>>)
    requires Unconnected(w) && AllIn(w, History(fs, s, gs)) && s.block.Source? && s !in fs && s !in gs && s in w.next
    ensures var w' := AddedAll(w, History(fs, s, gs));
            && (exists j :: OnlyAt(w'.sources, s, j))
            && Targets(w'.next[s]) == if HasNode(fs) then [] else Met(gs)
  {
    UnconnectedIsOk(w);
    HistoryStep(w, fs, s, gs);
    if gs == [] {
      SourceAtFirst(w, fs, s);
      hide *;
      NothingMet<T>();
    } else {
      var before, f := gs[..|gs| - 1], gs[|gs| - 1];
      assert f != s && s !in before;
      SourceMeets(w, fs, s, before);
      HistorySorts(w, History(fs, s, before));
      HistoryHasNode(fs, s, before);
      SourceMeetsNext(w, AddedAll(w, History(fs, s, before)), History(fs, s, before), s, f);
      hide *;
    }
  }

  lemma NothingMet<T(!new)>()
    ensures Met<T>([]) == []
  { }

  lemma SourceAtFirst<T(!new)>(w: Layout<T>, fs: seq<Flow<T>>, s: Flow<T>)
    requires Unconnected(w) && AllIn(w, fs) && s.block.Source? && s !in fs && s in w.next
    ensures var w' := Added(AddedAll(w, fs), s);
            (exists j :: OnlyAt(w'.sources, s, j)) && Targets(w'.next[s]) == []
  {
    HistorySorts(w, fs);
    NotAddedNotConnected(w, fs, s);
    var w1 := AddedAll(w, fs);
    AddedLists(w1, s);
    assert OnlyAt(Added(w1, s).sources, s, |w1.sources|);
  }

  lemma SourceMeetsNext<T(!new)>(w: Layout<T>, w1: Layout<T>, fs: seq<Flow<T>>, s: Flow<T>, f: Flow<T>)
    requires LayoutOk(w1) && Sorted(w1, fs) && s in w1.next && s.block.Source? && f in w1.next && f != s
    requires exists j :: OnlyAt(w1.sources, s, j)
    ensures exists j :: OnlyAt(Added(w1, f).sources, s, j)
    ensures Targets(Added(w1, f).next[s])
         == Targets(w1.next[s]) + if f.block.Source? || w1.nodes != [] then [] else [f]
  {
    var j :| OnlyAt(w1.sources, s, j);
    assert s !in w1.nodes;
    AddedLists(w1, f);
    AddedToSource(w1, f, s, j);
    assert OnlyAt(Added(w1, f).sources, s, j);
  }

  ghost function Sinks<T(!new)>(fs: seq<Flow<T>>): seq<Flow<T>> {
    if fs == [] then []
    else Sinks(fs[..|fs| - 1]) + if fs[|fs| - 1].block.Sink? then [fs[|fs| - 1]] else []
  }

  lemma {:induction false} MetSinks<T(!new)>(fs: seq<Flow<T>>)
    requires !HasNode(fs)
    ensures Met(fs) == Sinks(fs)
  {
    if fs != [] {
      var before := fs[..|fs| - 1];
      assert !HasNode(before) && !IsNode(fs[|fs| - 1]);
      MetSinks(before);
    }
  }

  /** Without nodes a source leads to exactly the sinks added after it, in order, and not to those before. */
  lemma LateSourceMeetsLaterSinks<T(!new)>(w: Layout<T>, fs: seq<Flow<T>>, s: Flow<T>, gs: seq<Flow<T>>)
    requires Unconnected(w) && AllIn(w, History(fs, s, gs)) && s.block.Source? && s !in fs && s !in gs && s in w.next
    requires !HasNode(fs) && !HasNode(gs)
    ensures Targets(AddedAll(w, History(fs, s, gs)).next[s]) == Sinks(gs)
  {
    SourceMeets(w, fs, s, gs);
    MetSinks(gs);
  }
}
