/** What executing a pipeline does to its sinks and its barriers. */
module PipelineRun {
  import opened Wrappers
  import opened Aggregator
  import opened FlowGraph
  import opened FlowPaths
  import opened Pipeline
  import opened PipelineMeaning

  // ---------------------------------------------------------------- sources before modules

  ghost function AllArrivals<T(!new)>(
    g: Graph<T>, made: map<Flow<T>, nat>, ss: seq<Flow<T>>, i: nat, s: Flow<T>): seq<Value<T>>
    requires GraphOk(g) && g.next.Keys == made.Keys && i <= |ss| && forall k :: 0 <= k < |ss| ==> ss[k] in g.next
    decreases |ss| - i
  {
    if i == |ss| then [] else Arrivals(g, made, ss[i], Routes(g, ss[i], s), Batch([])) + AllArrivals(g, made, ss, i + 1, s)
  }

  lemma {:induction false} SameArrivals<T(!new)>(
    g: Graph<T>, made: map<Flow<T>, nat>, made': map<Flow<T>, nat>, n: Flow<T>, paths: seq<Path>, v: Value<T>)
    requires GraphOk(g) && Plain(g) && g.next.Keys == made.Keys == made'.Keys && n in g.next && made[n] == made'[n]
    ensures Arrivals(g, made, n, paths, v) == Arrivals(g, made', n, paths, v)
  {
    if paths != [] {
      SameTravel(g, made, made', n, paths[0], v);
      SameArrivals(g, made, made', n, paths[1..], v);
    }
  }

  lemma SameTravel<T(!new)>(
    g: Graph<T>, made: map<Flow<T>, nat>, made': map<Flow<T>, nat>, n: Flow<T>, path: Path, v: Value<T>)
    requires GraphOk(g) && Plain(g) && g.next.Keys == made.Keys == made'.Keys && n in g.next && made[n] == made'[n]
    ensures Travel(g, made, n, path, v) == Travel(g, made', n, path, v)
  {
    if path != [] && Output(made, n, v).Some? {
      var shares := Shares(n.policy, Output(made, n, v).value, |g.next[n]|);
      if path[0] < |shares| {
        Onward(g, n, path[0]);
        TravelElsewhere(g, made, made', g.next[n][path[0]].0, path[1..], shares[path[0]]);
      }
    }
  }

  /** The sources' products arrive source by source, each along its paths. */
  lemma {:induction false} PipelineIsPaths<T(!new)>(
    g: Graph<T>, m: Memory<T>, made: map<Flow<T>, nat>, ss: seq<Flow<T>>, i: nat, s: Flow<T>)
    requires GraphOk(g) && Plain(g) && Covers(g, m) && s in g.next && i <= |ss| && AllDistinct(ss)
    requires g.next.Keys == made.Keys
    requires forall k :: 0 <= k < |ss| ==> ss[k] in g.next && ss[k].block.Source?
    requires forall k :: i <= k < |ss| ==> m.produced[ss[k]] == made[ss[k]]
    ensures SourcesExecuted(g, m, ss, i).received[s] == m.received[s] + AllArrivals(g, made, ss, i, s)
    decreases |ss| - i
  {
    hide *;
    ExecutedUnfold(g, m, ss, i);
    ArrivalsUnfold(g, made, ss, i, s);
    if i < |ss| {
      SourceIsPaths(g, m, made, ss, i, s);
      PipelineIsPaths(g, Executed(g, m, ss[i], Batch([]), 0), made, ss, i + 1, s);
    }
  }

  lemma SourceIsPaths<T(!new)>(
    g: Graph<T>, m: Memory<T>, made: map<Flow<T>, nat>, ss: seq<Flow<T>>, i: nat, s: Flow<T>)
    requires GraphOk(g) && Plain(g) && Covers(g, m) && s in g.next && i < |ss| && AllDistinct(ss)
    requires g.next.Keys == made.Keys
    requires forall k :: 0 <= k < |ss| ==> ss[k] in g.next && ss[k].block.Source?
    requires forall k :: i <= k < |ss| ==> m.produced[ss[k]] == made[ss[k]]
    ensures var m1 := Executed(g, m, ss[i], Batch([]), 0);
            && m1.received[s] == m.received[s] + Arrivals(g, made, ss[i], Routes(g, ss[i], s), Batch([]))
            && g.next.Keys == m1.produced.Keys
            && forall k :: i + 1 <= k < |ss| ==> m1.produced[ss[k]] == made[ss[k]]
  {
    hide *;
    var m1 := Executed(g, m, ss[i], Batch([]), 0);
    Covered(g, m);
    Covered(g, m1);
    PushIsPaths(g, m, ss[i], Batch([]), 0, s);
    SameArrivals(g, m.produced, made, ss[i], Routes(g, ss[i], s), Batch([]));
    forall k | i + 1 <= k < |ss|
      ensures m1.produced[ss[k]] == made[ss[k]]
    {
      DistinctAt(ss, i, k);
      PushCounts(g, m, ss[i], Batch([]), 0, ss[k]);
    }
  }

  lemma ArrivalsUnfold<T(!new)>(g: Graph<T>, made: map<Flow<T>, nat>, ss: seq<Flow<T>>, i: nat, s: Flow<T>)
    requires GraphOk(g) && g.next.Keys == made.Keys && i <= |ss| && forall k :: 0 <= k < |ss| ==> ss[k] in g.next
    ensures i == |ss| ==> AllArrivals(g, made, ss, i, s) == []
    ensures i < |ss| ==>
      AllArrivals(g, made, ss, i, s)
      == Arrivals(g, made, ss[i], Routes(g, ss[i], s), Batch([])) + AllArrivals(g, made, ss, i + 1, s)
  { }

  // ---------------------------------------------------------------- sources before an aggregator

  /** Every source leads to the aggregator and to nothing else, the `i`-th as its `i`-th producer. */
  ghost predicate Feeds<T(!new)>(g: Graph<T>, ss: seq<Flow<T>>, agg: Flow<T>) {
    && ss != [] && AllDistinct(ss)
    && agg in g.next && agg in g.producers && agg.block.Aggregate? && g.producers[agg] == |ss|
    && forall i :: 0 <= i < |ss| ==> FeedsAs(g, ss[i], agg, i)
  }

  ghost predicate FeedsAs<T(!new)>(g: Graph<T>, s: Flow<T>, agg: Flow<T>, i: nat) {
    s in g.next && s.block.Source? && s.policy.Fanout? && g.next[s] == [(agg, i)]
  }

  /** Auto-wiring gives such a graph when the first node is an aggregator. */
  lemma WiringFeeds<T(!new)>(g: Graph<T>, w: Layout<T>, ss: seq<Flow<T>>, ns: seq<Flow<T>>, ks: seq<Flow<T>>)
    requires Shape(w, ss, ns, ks) && g.next == w.next && g.producers == w.producers
    requires ss != [] && AllDistinct(ss) && ns != [] && ns[0].block.Aggregate?
    requires forall i :: 0 <= i < |ss| ==> ss[i].block.Source? && ss[i].policy.Fanout?
    ensures Feeds(g, ss, ns[0])
  {
    hide *;
    ShapeParts(w, ss, ns, ks);
    FirstCounts(w, ss, ns, ks);
    forall i | 0 <= i < |ss|
      ensures FeedsAs(g, ss[i], ns[0], i)
    {
      LeadsToFirst(w, ss, ns, ks, i);
      FeedsAsIs(g, ss[i], ns[0], i);
    }
    FeedsFrom(g, ss, ns[0]);
  }

  lemma ShapeParts<T(!new)>(w: Layout<T>, ss: seq<Flow<T>>, ns: seq<Flow<T>>, ks: seq<Flow<T>>)
    requires Shape(w, ss, ns, ks)
    ensures SourceEdges(w, ss, ns, ks) && NodeEdges(w, ns, ks) && NodeCounts(w, ss, ns)
  {
    hide SourceEdges;
    hide NodeEdges;
    hide NodeCounts;
    hide Untouched;
    hide LayoutOk;
  }

  lemma FirstCounts<T(!new)>(w: Layout<T>, ss: seq<Flow<T>>, ns: seq<Flow<T>>, ks: seq<Flow<T>>)
    requires NodeEdges(w, ns, ks) && NodeCounts(w, ss, ns) && ns != [] && ns[0].block.Aggregate?
    ensures ns[0] in w.next && ns[0] in w.producers && w.producers[ns[0]] == |ss|
  {
    hide EdgesAfter;
  }

  lemma LeadsToFirst<T(!new)>(w: Layout<T>, ss: seq<Flow<T>>, ns: seq<Flow<T>>, ks: seq<Flow<T>>, i: nat)
    requires SourceEdges(w, ss, ns, ks) && ns != [] && ns[0].block.Aggregate? && i < |ss|
    ensures ss[i] in w.next && w.next[ss[i]] == [(ns[0], i)]
  {
    hide ToAll;
  }

  lemma FeedsAsIs<T(!new)>(g: Graph<T>, s: Flow<T>, agg: Flow<T>, i: nat)
    requires s in g.next && s.block.Source? && s.policy.Fanout? && g.next[s] == [(agg, i)]
    ensures FeedsAs(g, s, agg, i)
  { }

  lemma FeedsFrom<T(!new)>(g: Graph<T>, ss: seq<Flow<T>>, agg: Flow<T>)
    requires ss != [] && AllDistinct(ss)
    requires agg in g.next && agg in g.producers && agg.block.Aggregate? && g.producers[agg] == |ss|
    requires forall i :: 0 <= i < |ss| ==> FeedsAs(g, ss[i], agg, i)
    ensures Feeds(g, ss, agg)
  {
    hide FeedsAs;
    hide AllDistinct;
  }

  ghost function Product<T(!new)>(m: Memory<T>, s: Flow<T>): Value<T>
    requires s in m.produced && s.block.Source?
  {
    s.block.out(m.produced[s])
  }

  /** All sources have a counter. */
  ghost predicate Counters<T(!new)>(m: Memory<T>, ss: seq<Flow<T>>) {
    forall i :: 0 <= i < |ss| ==> ss[i] in m.produced && ss[i].block.Source?
  }

  /** What the aggregator holds after `i` sources. */
  ghost function Collected<T(!new)>(m: Memory<T>, ss: seq<Flow<T>>, i: nat): map<nat, Value<T>>
    requires Counters(m, ss) && i <= |ss|
  {
    if i == 0 then map[] else Collected(m, ss, i - 1)[i - 1 := Product(m, ss[i - 1])]
  }

  ghost function AllCounted<T(!new)>(m: Memory<T>, ss: seq<Flow<T>>, i: nat): (m': Memory<T>)
    requires Counters(m, ss) && i <= |ss|
    ensures m'.produced.Keys == m.produced.Keys && m'.received == m.received && m'.latest == m.latest
  {
    if i == 0 then m else Counted(AllCounted(m, ss, i - 1), ss[i - 1])
  }

  lemma {:induction false} CollectedKeys<T(!new)>(m: Memory<T>, ss: seq<Flow<T>>, i: nat, j: nat)
    requires Counters(m, ss) && i <= |ss|
    ensures j in Collected(m, ss, i) <==> j < i
    ensures j < i ==> Collected(m, ss, i)[j] == Product(m, ss[j])
  {
    if i > 0 {
      CollectedKeys(m, ss, i - 1, j);
    }
  }

  lemma {:induction false} NotCountedYet<T(!new)>(m: Memory<T>, ss: seq<Flow<T>>, i: nat, k: nat)
    requires Counters(m, ss) && AllDistinct(ss) && i <= k < |ss|
    ensures AllCounted(m, ss, i).produced[ss[k]] == m.produced[ss[k]]
  {
    if i > 0 {
      NotCountedYet(m, ss, i - 1, k);
    }
  }

  ghost function Products<T(!new)>(m: Memory<T>, ss: seq<Flow<T>>): (vs: seq<Value<T>>)
    requires Counters(m, ss)
    ensures |vs| == |ss| && forall j :: 0 <= j < |ss| ==> vs[j] == Product(m, ss[j])
  {
    seq(|ss|, j requires 0 <= j < |ss| => Product(m, ss[j]))
  }

  /** The aggregator's output once all sources have delivered. */
  ghost function Combined<T(!new)>(m: Memory<T>, ss: seq<Flow<T>>, agg: Flow<T>): Value<T>
    requires Counters(m, ss) && agg.block.Aggregate?
  {
    agg.block.combine(multiset(Products(m, ss)))
  }

  function With<V>(c: map<nat, V>, i: nat, v: V): map<nat, V> {
    c[i := v]
  }

  /** A source counts its product, and the aggregator takes it in. */
  ghost function TakenIn<T(!new)>(m: Memory<T>, s: Flow<T>, agg: Flow<T>, i: nat): (m': Memory<T>)
    requires s in m.produced && s.block.Source? && agg in m.latest
    ensures m'.produced.Keys == m.produced.Keys && m'.latest.Keys == m.latest.Keys && m'.received == m.received
  {
    Counted(m, s).(latest := m.latest[agg := With(m.latest[agg], i, Product(m, s))])
  }

  /** The memory once `i` sources have been executed, but not all. */
  ghost function Gathering<T(!new)>(m: Memory<T>, ss: seq<Flow<T>>, agg: Flow<T>, i: nat): (m': Memory<T>)
    requires Counters(m, ss) && i <= |ss| && agg in m.latest
    ensures m'.produced.Keys == m.produced.Keys && m'.latest.Keys == m.latest.Keys && m'.received == m.received
  {
    if i == 0 then m else TakenIn(Gathering(m, ss, agg, i - 1), ss[i - 1], agg, i - 1)
  }

  /** One step of the three recursions at once. */
  lemma GatheringUnfolds<T(!new)>(m: Memory<T>, ss: seq<Flow<T>>, agg: Flow<T>, i: nat)
    requires Counters(m, ss) && i <= |ss| && agg in m.latest
    ensures i == 0 ==> Gathering(m, ss, agg, i) == m == AllCounted(m, ss, i) && Collected(m, ss, i) == map[]
    ensures i > 0 ==>
      var s, before, now := ss[i - 1], Gathering(m, ss, agg, i - 1), Gathering(m, ss, agg, i);
      && s in m.produced && s.block.Source?
      && now.produced == Counted(before, s).produced
      && now.latest == before.latest[agg := With(before.latest[agg], i - 1, Product(before, s))]
      && AllCounted(m, ss, i) == Counted(AllCounted(m, ss, i - 1), s)
      && Collected(m, ss, i) == With(Collected(m, ss, i - 1), i - 1, Product(m, s))
    ensures i < |ss| ==> ss[i] in m.produced && ss[i].block.Source?
  { }

  lemma {:induction false} GatheringCounts<T(!new)>(m: Memory<T>, ss: seq<Flow<T>>, agg: Flow<T>, i: nat)
    requires Counters(m, ss) && i <= |ss| && agg in m.latest
    ensures Gathering(m, ss, agg, i).produced == AllCounted(m, ss, i).produced
  {
    hide *;
    GatheringUnfolds(m, ss, agg, i);
    if i > 0 {
      GatheringCounts(m, ss, agg, i - 1);
      CountedAlike(Gathering(m, ss, agg, i - 1), AllCounted(m, ss, i - 1), ss[i - 1]);
    }
  }

  lemma GatheringProduct<T(!new)>(m: Memory<T>, ss: seq<Flow<T>>, agg: Flow<T>, i: nat)
    requires Counters(m, ss) && AllDistinct(ss) && i < |ss| && agg in m.latest
    ensures ss[i] in m.produced && ss[i].block.Source?
    ensures Product(Gathering(m, ss, agg, i), ss[i]) == Product(m, ss[i])
  {
    NotCountedYet(m, ss, i, i);
    GatheringCounts(m, ss, agg, i);
    hide Gathering;
    hide AllCounted;
  }

  lemma CollectsOneMore<T(!new)>(m: Memory<T>, ss: seq<Flow<T>>, agg: Flow<T>, i: nat)
    requires Counters(m, ss) && 0 < i <= |ss| && agg in m.latest
    ensures ss[i - 1] in m.produced && ss[i - 1].block.Source?
    ensures var before := Gathering(m, ss, agg, i - 1);
            Gathering(m, ss, agg, i).latest[agg] == With(before.latest[agg], i - 1, Product(before, ss[i - 1]))
    ensures Collected(m, ss, i) == With(Collected(m, ss, i - 1), i - 1, Product(m, ss[i - 1]))
  { }

  lemma {:induction false} GatheringCollects<T(!new)>(m: Memory<T>, ss: seq<Flow<T>>, agg: Flow<T>, i: nat)
    requires Counters(m, ss) && AllDistinct(ss) && i <= |ss| && agg in m.latest && m.latest[agg] == map[]
    ensures Gathering(m, ss, agg, i).latest[agg] == Collected(m, ss, i)
  {
    hide *;
    if i > 0 {
      CollectsOneMore(m, ss, agg, i);
      GatheringCollects(m, ss, agg, i - 1);
      GatheringProduct(m, ss, agg, i - 1);
    } else {
      GatheringUnfolds(m, ss, agg, i);
    }
  }

  lemma {:induction false} GatheringElsewhere<T(!new)>(m: Memory<T>, ss: seq<Flow<T>>, agg: Flow<T>, i: nat)
    requires Counters(m, ss) && i <= |ss| && agg in m.latest
    ensures Gathering(m, ss, agg, i).latest[agg := map[]] == m.latest[agg := map[]]
  {
    hide *;
    GatheringUnfolds(m, ss, agg, i);
    if i > 0 {
      GatheringElsewhere(m, ss, agg, i - 1);
      var before := Gathering(m, ss, agg, i - 1);
      Overwrite(before.latest, agg, With(before.latest[agg], i - 1, Product(before, ss[i - 1])), map[]);
    }
  }

  lemma Overwrite<K, V>(m: map<K, V>, k: K, v: V, x: V)
    ensures m[k := v][k := x] == m[k := x]
  { }

  lemma CountedAlike<T(!new)>(a: Memory<T>, b: Memory<T>, s: Flow<T>)
    requires s in a.produced && a.produced == b.produced
    ensures Counted(a, s).produced == Counted(b, s).produced
  { }

  /** A source hands its product to the aggregator. */
  lemma SourceHandsOver<T(!new)>(g: Graph<T>, m: Memory<T>, s: Flow<T>, agg: Flow<T>, i: nat, v: Value<T>)
    requires GraphOk(g) && Covers(g, m) && agg in g.next && FeedsAs(g, s, agg, i)
    ensures Covers(g, Counted(m, s))
    ensures Executed(g, m, s, v, 0) == Executed(g, Counted(m, s), agg, Product(m, s), i)
  {
    PushedOnward(g, m, s, v, 0);
    var shares := Shares(s.policy, Product(m, s), |g.next[s]|);
    assert shares == [Product(m, s)];
    hide Executed;
    hide Produced;
    ProducedUnfolds(g, Counted(m, s), s, shares, 0);
    ProducedUnfolds(g, Executed(g, Counted(m, s), agg, Product(m, s), i), s, shares, 1);
  }

  lemma AggregatorKeeps<T(!new)>(g: Graph<T>, m: Memory<T>, agg: Flow<T>, v: Value<T>, i: nat)
    requires GraphOk(g) && Covers(g, m) && agg in g.next && agg.block.Aggregate?
    requires i !in m.latest[agg] && m.latest[agg].Keys + {i} != Everyone(g.producers[agg])
    ensures Executed(g, m, agg, v, i) == m.(latest := m.latest[agg := With(m.latest[agg], i, v)])
  { }

  lemma AggregatorFires<T(!new)>(g: Graph<T>, m: Memory<T>, agg: Flow<T>, v: Value<T>, i: nat)
    requires GraphOk(g) && Covers(g, m) && agg in g.next && agg.block.Aggregate?
    requires i !in m.latest[agg] && m.latest[agg].Keys + {i} == Everyone(g.producers[agg])
    ensures var output := agg.block.combine(Values(With(m.latest[agg], i, v), g.producers[agg]));
            var emptied := m.(latest := m.latest[agg := map[]]);
            && Covers(g, emptied)
            && Executed(g, m, agg, v, i) == Produced(g, emptied, agg, Shares(agg.policy, output, |g.next[agg]|), 0)
  {
    AggregatorProcesses(g, m, agg, v, i);
    hide Process;
    hide Produced;
    hide GraphOk;
    hide Values;
    hide Everyone;
  }

  lemma AggregatorProcesses<T(!new)>(g: Graph<T>, m: Memory<T>, agg: Flow<T>, v: Value<T>, i: nat)
    requires GraphOk(g) && Covers(g, m) && agg in g.next && agg.block.Aggregate?
    requires i !in m.latest[agg] && m.latest[agg].Keys + {i} == Everyone(g.producers[agg])
    ensures Process(g, m, agg, v, i) == (m.(latest := m.latest[agg := map[]]),
                                         Some(agg.block.combine(Values(With(m.latest[agg], i, v), g.producers[agg]))))
  { }

  lemma StillMissing<T(!new)>(m: Memory<T>, ss: seq<Flow<T>>, i: nat)
    requires Counters(m, ss) && i < |ss|
    ensures i !in Collected(m, ss, i)
    ensures Collected(m, ss, i).Keys + {i} == Everyone(i + 1)
    ensures i + 1 < |ss| ==> Everyone(i + 1) != Everyone(|ss|)
  {
    forall j: nat
      ensures j in Collected(m, ss, i) <==> j < i
      ensures j in Everyone(i + 1) <==> j < i + 1
    {
      CollectedKeys(m, ss, i, j);
      assert j < i + 1 ==> Registered(j, i + 1);
    }
    if i + 1 < |ss| {
      assert Registered(i + 1, |ss|) && i + 1 in Everyone(|ss|);
    }
  }

  /** All but the last source just fill the barrier. */
  lemma SourceFills<T(!new)>(g: Graph<T>, m: Memory<T>, ss: seq<Flow<T>>, agg: Flow<T>, i: nat)
    requires GraphOk(g) && Covers(g, m) && Feeds(g, ss, agg) && Counters(m, ss) && i + 1 < |ss|
    requires agg in m.latest && m.latest[agg] == map[]
    ensures Covers(g, Gathering(m, ss, agg, i)) && ss[i] in g.next
    ensures Executed(g, Gathering(m, ss, agg, i), ss[i], Batch([]), 0) == Gathering(m, ss, agg, i + 1)
  {
    assert FeedsAs(g, ss[i], agg, i) && agg in g.next && agg.block.Aggregate? && g.producers[agg] == |ss|;
    GatheringCollects(m, ss, agg, i);
    GatheringProduct(m, ss, agg, i);
    StillMissing(m, ss, i);
    var now := Gathering(m, ss, agg, i);
    assert Gathering(m, ss, agg, i + 1) == TakenIn(now, ss[i], agg, i);
    assert Counted(now, ss[i]).latest == now.latest;
    hide Executed;
    hide GraphOk;
    hide Feeds;
    hide Collected;
    hide Gathering;
    SourceHandsOver(g, now, ss[i], agg, i, Batch([]));
    AggregatorKeeps(g, Counted(now, ss[i]), agg, Product(now, ss[i]), i);
  }

  /** The last source fires the barrier, which is empty again before anything is passed on. */
  lemma LastSourceFires<T(!new)>(g: Graph<T>, m: Memory<T>, ss: seq<Flow<T>>, agg: Flow<T>)
    requires GraphOk(g) && Covers(g, m) && Feeds(g, ss, agg) && Counters(m, ss)
    requires agg in m.latest && m.latest[agg] == map[]
    ensures var last, done := |ss| - 1, AllCounted(m, ss, |ss|);
            && Covers(g, Gathering(m, ss, agg, last)) && ss[last] in g.next && Covers(g, done)
            && Executed(g, Gathering(m, ss, agg, last), ss[last], Batch([]), 0)
            == Produced(g, done, agg, Shares(agg.policy, Combined(m, ss, agg), |g.next[agg]|), 0)
  {
    var last := |ss| - 1;
    var s, now := ss[last], Gathering(m, ss, agg, last);
    FeedsLast(g, m, ss, agg);
    LastCompletes(m, ss, agg);
    LastEmpties(m, ss, agg);
    assert Combined(m, ss, agg) == agg.block.combine(multiset(Products(m, ss)));
    hide *;
    SourceHandsOver(g, now, s, agg, last, Batch([]));
    AggregatorFires(g, Counted(now, s), agg, Product(now, s), last);
  }

  lemma FeedsLast<T(!new)>(g: Graph<T>, m: Memory<T>, ss: seq<Flow<T>>, agg: Flow<T>)
    requires Covers(g, m) && Feeds(g, ss, agg) && Counters(m, ss)
    ensures var last := |ss| - 1;
            && |ss| > 0 && AllDistinct(ss) && FeedsAs(g, ss[last], agg, last) && ss[last] in g.next && agg in m.latest
            && agg in g.next && agg.block.Aggregate? && agg in g.producers && g.producers[agg] == |ss|
            && Covers(g, Gathering(m, ss, agg, last)) && Covers(g, AllCounted(m, ss, |ss|))
  {
    assert FeedsAs(g, ss[|ss| - 1], agg, |ss| - 1);
  }

  /** With the last source everybody has arrived. */
  lemma LastCompletes<T(!new)>(m: Memory<T>, ss: seq<Flow<T>>, agg: Flow<T>)
    requires Counters(m, ss) && AllDistinct(ss) && |ss| > 0
    requires agg in m.latest && m.latest[agg] == map[]
    ensures var last := |ss| - 1;
            var s, now := ss[last], Gathering(m, ss, agg, last);
            && s in now.produced && s.block.Source? && Product(now, s) == Product(m, s)
            && last !in now.latest[agg] && now.latest[agg].Keys + {last} == Everyone(|ss|)
            && Values(With(now.latest[agg], last, Product(now, s)), |ss|) == multiset(Products(m, ss))
  {
    hide *;
    var last := |ss| - 1;
    GatheringUnfolds(m, ss, agg, |ss|);
    GatheringCollects(m, ss, agg, last);
    GatheringProduct(m, ss, agg, last);
    StillMissing(m, ss, last);
    AllCollected(m, ss);
  }

  /** And what is left is what was there before, but for the sources' counters. */
  lemma LastEmpties<T(!new)>(m: Memory<T>, ss: seq<Flow<T>>, agg: Flow<T>)
    requires Counters(m, ss) && |ss| > 0 && agg in m.latest && m.latest[agg] == map[]
    ensures var last := |ss| - 1;
            var s, now := ss[last], Gathering(m, ss, agg, last);
            && s in now.produced && Counted(now, s).latest == now.latest
            && Counted(now, s).(latest := now.latest[agg := map[]]) == AllCounted(m, ss, |ss|)
  {
    hide *;
    var last := |ss| - 1;
    GatheringUnfolds(m, ss, agg, |ss|);
    GatheringCounts(m, ss, agg, |ss|);
    GatheringElsewhere(m, ss, agg, last);
    assert m.latest[agg := map[]] == m.latest;
    CountedOnly(Gathering(m, ss, agg, last), ss[last]);
  }

  lemma AllCollected<T(!new)>(m: Memory<T>, ss: seq<Flow<T>>)
    requires Counters(m, ss)
    ensures Values(Collected(m, ss, |ss|), |ss|) == multiset(Products(m, ss))
  {
    var c := Collected(m, ss, |ss|);
    forall j: nat
      ensures j in c <==> j < |ss|
      ensures j < |ss| ==> c[j] == Product(m, ss[j])
    {
      CollectedKeys(m, ss, |ss|, j);
    }
    ValuesOfAll(c, |ss|, Products(m, ss));
  }

  // ---------------------------------------------------------------- once per execution

  /** Pushing onward never comes back to a block, nor to one above it. */
  lemma {:induction false} ExecutedBelow<T(!new)>(g: Graph<T>, m: Memory<T>, n: Flow<T>, v: Value<T>, id: nat, x: Flow<T>)
    requires GraphOk(g) && Covers(g, m) && n in g.next && x in g.next && g.rank[x] > g.rank[n]
    ensures Executed(g, m, n, v, id).latest[x] == m.latest[x]
    decreases g.rank[n], 1, 0
  {
    var (m1, output) := Process(g, m, n, v, id);
    assert m1.latest[x] == m.latest[x];
    if output.Some? {
      var shares := Shares(n.policy, output.value, |g.next[n]|);
      assert Executed(g, m, n, v, id) == Produced(g, m1, n, shares, 0);
      hide *;
      ProducedBelow(g, m1, n, shares, 0, x);
    }
  }

  lemma {:induction false} ProducedBelow<T(!new)>(
    g: Graph<T>, m: Memory<T>, n: Flow<T>, shares: seq<Value<T>>, i: nat, x: Flow<T>)
    requires GraphOk(g) && Covers(g, m) && n in g.next && x in g.next && g.rank[x] >= g.rank[n]
    requires i <= |shares| <= |g.next[n]|
    ensures Produced(g, m, n, shares, i).latest[x] == m.latest[x]
    decreases g.rank[n], 0, |shares| - i
  {
    hide *;
    ProducedUnfolds(g, m, n, shares, i);
    if i < |shares| {
      Downward(g, n, i);
      var (next, id) := g.next[n][i];
      ExecutedBelow(g, m, next, shares[i], id, x);
      ProducedBelow(g, Executed(g, m, next, shares[i], id), n, shares, i + 1, x);
    }
  }

  lemma Downward<T(!new)>(g: Graph<T>, n: Flow<T>, i: nat)
    requires GraphOk(g) && n in g.next && i < |g.next[n]|
    ensures g.next[n][i].0 in g.next && 0 <= g.rank[g.next[n][i].0] < g.rank[n]
  {
    assert NodeOk(g, n) && EdgeOk(g, n, g.next[n][i]);
  }

  lemma {:induction false} SourcesGather<T(!new)>(g: Graph<T>, m: Memory<T>, ss: seq<Flow<T>>, agg: Flow<T>, i: nat)
    requires GraphOk(g) && Covers(g, m) && Feeds(g, ss, agg) && Counters(m, ss) && i < |ss|
    requires forall k :: 0 <= k < |ss| ==> ss[k] in g.next
    requires agg in m.latest && m.latest[agg] == map[]
    ensures Covers(g, Gathering(m, ss, agg, i))
    ensures SourcesExecuted(g, m, ss, 0) == SourcesExecuted(g, Gathering(m, ss, agg, i), ss, i)
  {
    hide *;
    if i > 0 {
      SourcesGather(g, m, ss, agg, i - 1);
      SourceFills(g, m, ss, agg, i - 1);
      ExecutedUnfold(g, Gathering(m, ss, agg, i - 1), ss, i - 1);
    } else {
      GatheringUnfolds(m, ss, agg, 0);
    }
  }

  lemma LastExecuted<T(!new)>(g: Graph<T>, m: Memory<T>, ss: seq<Flow<T>>)
    requires GraphOk(g) && Covers(g, m) && |ss| > 0 && forall k :: 0 <= k < |ss| ==> ss[k] in g.next
    ensures ss[|ss| - 1] in g.next
    ensures SourcesExecuted(g, m, ss, |ss| - 1) == Executed(g, m, ss[|ss| - 1], Batch([]), 0)
  {
    hide *;
    ExecutedUnfold(g, m, ss, |ss| - 1);
    ExecutedUnfold(g, Executed(g, m, ss[|ss| - 1], Batch([]), 0), ss, |ss|);
  }

  /**
    Executing a pipeline whose sources feed an aggregator passes on exactly one value: what
    the aggregator makes of one product of each source. Afterwards its barrier is empty again.
   */
  lemma FiresOncePerExecution<T(!new)>(g: Graph<T>, m: Memory<T>, ss: seq<Flow<T>>, agg: Flow<T>)
    requires GraphOk(g) && Covers(g, m) && Feeds(g, ss, agg) && Counters(m, ss)
    requires forall k :: 0 <= k < |ss| ==> ss[k] in g.next
    requires agg in m.latest && m.latest[agg] == map[]
    ensures Covers(g, AllCounted(m, ss, |ss|)) && agg in g.next
    ensures var m' := SourcesExecuted(g, m, ss, 0);
            && m' == Produced(g, AllCounted(m, ss, |ss|), agg, Shares(agg.policy, Combined(m, ss, agg), |g.next[agg]|), 0)
            && agg in m'.latest && m'.latest[agg] == map[]
  {
    hide *;
    FeedsLast(g, m, ss, agg);
    SourcesGather(g, m, ss, agg, |ss| - 1);
    LastExecuted(g, Gathering(m, ss, agg, |ss| - 1), ss);
    LastSourceFires(g, m, ss, agg);
    var done := AllCounted(m, ss, |ss|);
    var shares := Shares(agg.policy, Combined(m, ss, agg), |g.next[agg]|);
    Covered(g, Produced(g, done, agg, shares, 0));
    ProducedBelow(g, done, agg, shares, 0, agg);
  }
}
