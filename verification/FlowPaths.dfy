/** What pushing a value through a graph of modules means: function composition along paths. */
module FlowPaths {
  import opened Wrappers
  import opened Aggregator
  import opened FlowGraph

  /** The consumers taken, by their positions. */
  type Path = seq<nat>

  /** There are no aggregators, and nothing is sent to a source. */
  ghost predicate Plain<T(!new)>(g: Graph<T>) {
    forall n :: n in g.next ==>
      && !n.block.Aggregate?
      && forall i :: 0 <= i < |g.next[n]| ==> !g.next[n][i].0.block.Source?
  }

  ghost predicate Leads<T(!new)>(g: Graph<T>, n: Flow<T>, path: Path, s: Flow<T>)
    requires GraphOk(g) && n in g.next
    decreases |path|
  {
    if path == [] then n == s
    else
      && !n.block.Sink? && path[0] < |g.next[n]|
      && (assert NodeOk(g, n) && EdgeOk(g, n, g.next[n][path[0]]);
          Leads(g, g.next[n][path[0]].0, path[1..], s))
  }

  function Prefixed(i: nat, paths: seq<Path>): (r: seq<Path>)
    ensures |r| == |paths|
  {
    seq(|paths|, k requires 0 <= k < |paths| => [i] + paths[k])
  }

  /** The paths from `n` to the sink `s`, depth first. */
  ghost function Routes<T(!new)>(g: Graph<T>, n: Flow<T>, s: Flow<T>): seq<Path>
    requires GraphOk(g) && n in g.next
    decreases g.rank[n], 1, 0
  {
    if !n.block.Sink? then RoutesFrom(g, n, s, 0) else if n == s then [[]] else []
  }

  /** Those of them that begin with the `i`-th consumer or a later one. */
  ghost function RoutesFrom<T(!new)>(g: Graph<T>, n: Flow<T>, s: Flow<T>, i: nat): seq<Path>
    requires GraphOk(g) && n in g.next && i <= |g.next[n]|
    decreases g.rank[n], 0, |g.next[n]| - i
  {
    if i == |g.next[n]| then []
    else
      assert NodeOk(g, n) && EdgeOk(g, n, g.next[n][i]);
      Prefixed(i, Routes(g, g.next[n][i].0, s)) + RoutesFrom(g, n, s, i + 1)
  }

  /** Depth-first order. */
  predicate Before(p: Path, q: Path) {
    if p == [] || q == [] then p == [] && q != []
    else p[0] < q[0] || (p[0] == q[0] && Before(p[1..], q[1..]))
  }

  lemma {:induction false} RoutesLead<T(!new)>(g: Graph<T>, n: Flow<T>, s: Flow<T>, path: Path)
    requires GraphOk(g) && n in g.next && s.block.Sink?
    ensures path in Routes(g, n, s) <==> Leads(g, n, path, s)
    decreases g.rank[n], 1, 0
  {
    if !n.block.Sink? {
      RoutesFromLead(g, n, s, 0, path);
    } else if path != [] {
      assert path !in Routes(g, n, s);
    }
  }

  lemma {:induction false} RoutesFromLead<T(!new)>(g: Graph<T>, n: Flow<T>, s: Flow<T>, i: nat, path: Path)
    requires GraphOk(g) && n in g.next && s.block.Sink? && !n.block.Sink? && i <= |g.next[n]|
    ensures path in RoutesFrom(g, n, s, i) <==> path != [] && i <= path[0] && Leads(g, n, path, s)
    decreases g.rank[n], 0, |g.next[n]| - i
  {
    if i < |g.next[n]| {
      assert NodeOk(g, n) && EdgeOk(g, n, g.next[n][i]);
      var next := g.next[n][i].0;
      RoutesFromLead(g, n, s, i + 1, path);
      var routes := Routes(g, next, s);
      if path != [] && path[0] == i {
        RoutesLead(g, next, s, path[1..]);
        assert path == [i] + path[1..];
        PrefixedHas(i, routes, path[1..]);
      } else if path in Prefixed(i, routes) {
        assert false;
      }
    }
  }

  lemma PrefixedHas(i: nat, paths: seq<Path>, p: Path)
    ensures [i] + p in Prefixed(i, paths) <==> p in paths
  {
    if [i] + p in Prefixed(i, paths) {
      var k :| 0 <= k < |paths| && [i] + paths[k] == [i] + p;
      assert p == ([i] + p)[1..] == ([i] + paths[k])[1..] == paths[k];
    }
    if p in paths {
      var k :| 0 <= k < |paths| && paths[k] == p;
      assert Prefixed(i, paths)[k] == [i] + p;
    }
  }

  lemma {:induction false} RoutesInOrder<T(!new)>(g: Graph<T>, n: Flow<T>, s: Flow<T>, j: nat, k: nat)
    requires GraphOk(g) && n in g.next && s.block.Sink? && j < k < |Routes(g, n, s)|
    ensures Before(Routes(g, n, s)[j], Routes(g, n, s)[k])
    decreases g.rank[n], 1, 0
  {
    RoutesFromInOrder(g, n, s, 0, j, k);
  }

  lemma {:induction false} RoutesFromInOrder<T(!new)>(g: Graph<T>, n: Flow<T>, s: Flow<T>, i: nat, j: nat, k: nat)
    requires GraphOk(g) && n in g.next && s.block.Sink? && !n.block.Sink? && i <= |g.next[n]|
    requires j < k < |RoutesFrom(g, n, s, i)|
    ensures Before(RoutesFrom(g, n, s, i)[j], RoutesFrom(g, n, s, i)[k])
    decreases g.rank[n], 0, |g.next[n]| - i
  {
    assert NodeOk(g, n) && EdgeOk(g, n, g.next[n][i]);
    var next, all := g.next[n][i].0, RoutesFrom(g, n, s, i);
    var routes, rest := Routes(g, next, s), RoutesFrom(g, n, s, i + 1);
    if k < |routes| {
      RoutesInOrder(g, next, s, j, k);
      assert all[j] == [i] + routes[j] && all[k] == [i] + routes[k];
      assert all[j][1..] == routes[j] && all[k][1..] == routes[k];
    } else if j < |routes| {
      assert all[j] == [i] + routes[j];
      assert all[k] == rest[k - |routes|] && all[k] in rest;
      RoutesFromLead(g, n, s, i + 1, all[k]);
    } else {
      RoutesFromInOrder(g, n, s, i + 1, j - |routes|, k - |routes|);
    }
  }

  /** The paths found are all the paths there are, each once, in depth-first order. */
  lemma RoutesAreAllPaths<T(!new)>(g: Graph<T>, n: Flow<T>, s: Flow<T>, path: Path, j: nat, k: nat)
    requires GraphOk(g) && n in g.next && s.block.Sink?
    ensures path in Routes(g, n, s) <==> Leads(g, n, path, s)
    ensures j < k < |Routes(g, n, s)| ==> Before(Routes(g, n, s)[j], Routes(g, n, s)[k])
    ensures j < k < |Routes(g, n, s)| ==> Routes(g, n, s)[j] != Routes(g, n, s)[k]
  {
    RoutesLead(g, n, s, path);
    if j < k < |Routes(g, n, s)| {
      RoutesInOrder(g, n, s, j, k);
      NotBeforeItself(Routes(g, n, s)[j]);
    }
  }

  lemma {:induction false} NotBeforeItself(p: Path)
    ensures !Before(p, p)
  {
    if p != [] {
      NotBeforeItself(p[1..]);
    }
  }

  // ---------------------------------------------------------------- what arrives

  /** What a block makes of `v`; a source counts what it has produced. */
  ghost function Output<T(!new)>(made: map<Flow<T>, nat>, n: Flow<T>, v: Value<T>): Option<Value<T>>
    requires n in made
  {
    match n.block
    case Source(out) => Some(out(made[n]))
    case Module(process) => Some(process(v))
    case _ => None
  }

  /** What comes out at the end of a path when `v` goes in at its start. */
  ghost function Travel<T(!new)>(g: Graph<T>, made: map<Flow<T>, nat>, n: Flow<T>, path: Path, v: Value<T>): Option<Value<T>>
    requires GraphOk(g) && g.next.Keys == made.Keys && n in g.next
    decreases |path|
  {
    if path == [] then Some(v)
    else
      match Output(made, n, v)
      case None => None
      case Some(w) =>
        var shares := Shares(n.policy, w, |g.next[n]|);
        if path[0] >= |shares| then None
        else
          assert NodeOk(g, n) && EdgeOk(g, n, g.next[n][path[0]]);
          Travel(g, made, g.next[n][path[0]].0, path[1..], shares[path[0]])
  }

  ghost function Arrivals<T(!new)>(
    g: Graph<T>, made: map<Flow<T>, nat>, n: Flow<T>, paths: seq<Path>, v: Value<T>): seq<Value<T>>
    requires GraphOk(g) && g.next.Keys == made.Keys && n in g.next
  {
    if paths == [] then []
    else
      var first := Travel(g, made, n, paths[0], v);
      (if first.Some? then [first.value] else []) + Arrivals(g, made, n, paths[1..], v)
  }

  lemma {:induction false} ArrivalsAppend<T(!new)>(
    g: Graph<T>, made: map<Flow<T>, nat>, n: Flow<T>, a: seq<Path>, b: seq<Path>, v: Value<T>)
    requires GraphOk(g) && g.next.Keys == made.Keys && n in g.next
    ensures Arrivals(g, made, n, a + b, v) == Arrivals(g, made, n, a, v) + Arrivals(g, made, n, b, v)
  {
    hide *;
    if a == [] {
      assert a + b == b;
      NoArrivals(g, made, n, v);
    } else {
      ArrivalsAppend(g, made, n, a[1..], b, v);
      assert (a + b)[1..] == a[1..] + b && (a + b)[0] == a[0];
      ArrivalsOne(g, made, n, a, v);
      ArrivalsOne(g, made, n, a + b, v);
    }
  }

  lemma ArrivalsOne<T(!new)>(g: Graph<T>, made: map<Flow<T>, nat>, n: Flow<T>, paths: seq<Path>, v: Value<T>)
    requires GraphOk(g) && g.next.Keys == made.Keys && n in g.next && paths != []
    ensures var first := Travel(g, made, n, paths[0], v);
            Arrivals(g, made, n, paths, v)
            == (if first.Some? then [first.value] else []) + Arrivals(g, made, n, paths[1..], v)
  { }

  /** Paths through the `i`-th consumer carry what that consumer makes of its share. */
  lemma {:induction false} ArrivalsThrough<T(!new)>(
    g: Graph<T>, made: map<Flow<T>, nat>, n: Flow<T>, i: nat, paths: seq<Path>, v: Value<T>, w: Value<T>)
    requires GraphOk(g) && g.next.Keys == made.Keys && n in g.next && Output(made, n, v) == Some(w)
    requires i < |g.next[n]| && g.next[n][i].0 in g.next
    ensures var shares := Shares(n.policy, w, |g.next[n]|);
            Arrivals(g, made, n, Prefixed(i, paths), v)
            == if i < |shares| then Arrivals(g, made, g.next[n][i].0, paths, shares[i]) else []
  {
    hide *;
    NoArrivals(g, made, n, v);
    PrefixedOne(i, paths);
    if paths == [] {
      if i < |Shares(n.policy, w, |g.next[n]|)| {
        NoArrivals(g, made, g.next[n][i].0, Shares(n.policy, w, |g.next[n]|)[i]);
      }
    } else {
      ArrivalsThrough(g, made, n, i, paths[1..], v, w);
      ArrivalsOne(g, made, n, Prefixed(i, paths), v);
      TravelThrough(g, made, n, i, paths[0], v, w);
      if i < |Shares(n.policy, w, |g.next[n]|)| {
        ArrivalsOne(g, made, g.next[n][i].0, paths, Shares(n.policy, w, |g.next[n]|)[i]);
      }
    }
  }

  lemma NoArrivals<T(!new)>(g: Graph<T>, made: map<Flow<T>, nat>, n: Flow<T>, v: Value<T>)
    requires GraphOk(g) && g.next.Keys == made.Keys && n in g.next
    ensures Arrivals(g, made, n, [], v) == []
  { }

  lemma PrefixedOne(i: nat, paths: seq<Path>)
    ensures paths == [] ==> Prefixed(i, paths) == []
    ensures paths != [] ==>
      && Prefixed(i, paths) != [] && Prefixed(i, paths)[0] == [i] + paths[0]
      && Prefixed(i, paths)[1..] == Prefixed(i, paths[1..])
  { }

  /** A path through the `i`-th consumer carries what that consumer makes of its share. */
  lemma TravelThrough<T(!new)>(
    g: Graph<T>, made: map<Flow<T>, nat>, n: Flow<T>, i: nat, path: Path, v: Value<T>, w: Value<T>)
    requires GraphOk(g) && g.next.Keys == made.Keys && n in g.next && Output(made, n, v) == Some(w)
    requires i < |g.next[n]| && g.next[n][i].0 in g.next
    ensures var shares := Shares(n.policy, w, |g.next[n]|);
            Travel(g, made, n, [i] + path, v)
            == if i < |shares| then Travel(g, made, g.next[n][i].0, path, shares[i]) else None
  {
    assert ([i] + path)[1..] == path;
    hide GraphOk;
    hide Output;
    hide Shares;
  }

  /** Beyond the last share nothing arrives. */
  lemma {:induction false} NothingBeyond<T(!new)>(
    g: Graph<T>, made: map<Flow<T>, nat>, n: Flow<T>, s: Flow<T>, i: nat, v: Value<T>, w: Value<T>)
    requires GraphOk(g) && g.next.Keys == made.Keys && n in g.next && Output(made, n, v) == Some(w)
    requires |Shares(n.policy, w, |g.next[n]|)| <= i <= |g.next[n]|
    ensures Arrivals(g, made, n, RoutesFrom(g, n, s, i), v) == []
    decreases |g.next[n]| - i
  {
    if i < |g.next[n]| {
      assert NodeOk(g, n) && EdgeOk(g, n, g.next[n][i]);
      NothingBeyond(g, made, n, s, i + 1, v, w);
      ArrivalsThrough(g, made, n, i, Routes(g, g.next[n][i].0, s), v, w);
      ArrivalsAppend(g, made, n, Prefixed(i, Routes(g, g.next[n][i].0, s)), RoutesFrom(g, n, s, i + 1), v);
    }
  }

  /** Beside the sinks only the counter of a source changes. */
  lemma {:induction false} PushCounts<T(!new)>(g: Graph<T>, m: Memory<T>, n: Flow<T>, v: Value<T>, id: nat, x: Flow<T>)
    requires GraphOk(g) && Plain(g) && Covers(g, m) && n in g.next && x in g.next
    ensures Executed(g, m, n, v, id).produced[x] == m.produced[x] + if x == n && n.block.Source? then 1 else 0
    ensures Executed(g, m, n, v, id).latest[x] == m.latest[x]
    decreases g.rank[n], 1, 0
  {
    hide *;
    Covered(g, m);
    if n.block.Sink? {
      SinkOnly(g, m, n, v, id);
    } else {
      PlainHere(g, n);
      CountedOnly(m, n);
      PushedOnward(g, m, n, v, id);
      ProduceCounts(g, Counted(m, n), n, Shares(n.policy, Output(m.produced, n, v).value, |g.next[n]|), 0, x);
    }
  }

  lemma PlainHere<T(!new)>(g: Graph<T>, n: Flow<T>)
    requires Plain(g) && n in g.next
    ensures !n.block.Aggregate?
  { }

  lemma SinkOnly<T(!new)>(g: Graph<T>, m: Memory<T>, n: Flow<T>, v: Value<T>, id: nat)
    requires GraphOk(g) && Covers(g, m) && n in g.next && n.block.Sink?
    ensures n in m.received && Executed(g, m, n, v, id) == m.(received := m.received[n := m.received[n] + [v]])
  { }

  lemma {:induction false} ProduceCounts<T(!new)>(
    g: Graph<T>, m: Memory<T>, n: Flow<T>, shares: seq<Value<T>>, i: nat, x: Flow<T>)
    requires GraphOk(g) && Plain(g) && Covers(g, m) && n in g.next && i <= |shares| <= |g.next[n]| && x in g.next
    ensures Produced(g, m, n, shares, i).produced[x] == m.produced[x]
    ensures Produced(g, m, n, shares, i).latest[x] == m.latest[x]
    decreases g.rank[n], 0, |shares| - i
  {
    hide *;
    ProducedUnfolds(g, m, n, shares, i);
    if i < |shares| {
      Onward(g, n, i);
      var (next, id) := g.next[n][i];
      PushCounts(g, m, next, shares[i], id, x);
      ProduceCounts(g, Executed(g, m, next, shares[i], id), n, shares, i + 1, x);
    }
  }

  /**
    Push execution is path semantics: each sink receives, in depth-first order, what its
    paths from `n` make of the value.
   */
  lemma {:induction false} PushIsPaths<T(!new)>(g: Graph<T>, m: Memory<T>, n: Flow<T>, v: Value<T>, id: nat, s: Flow<T>)
    requires GraphOk(g) && Plain(g) && Covers(g, m) && n in g.next && s in g.next
    ensures Executed(g, m, n, v, id).received[s] == m.received[s] + Arrivals(g, m.produced, n, Routes(g, n, s), v)
    decreases g.rank[n], 1, 0
  {
    if n.block.Sink? {
      SinkIsPath(g, m, n, v, id, s);
    } else {
      assert !n.block.Aggregate?;
      var w := Output(m.produced, n, v).value;
      PushedOnward(g, m, n, v, id);
      CountedOnly(m, n);
      hide Executed;
      hide Produced;
      hide Counted;
      hide Output;
      hide Shares;
      hide Arrivals;
      hide RoutesFrom;
      ProducePaths(g, Counted(m, n), m.produced, n, v, w, 0, s);
    }
  }

  ghost function Counted<T(!new)>(m: Memory<T>, n: Flow<T>): Memory<T>
    requires n in m.produced
  {
    if n.block.Source? then m.(produced := m.produced[n := m.produced[n] + 1]) else m
  }

  lemma CountedOnly<T(!new)>(m: Memory<T>, n: Flow<T>)
    requires n in m.produced
    ensures var m' := Counted(m, n);
            && m'.received == m.received && m'.latest == m.latest && m'.produced.Keys == m.produced.Keys
            && (forall x :: x in m.produced && !x.block.Source? ==> m'.produced[x] == m.produced[x])
            && (!n.block.Source? ==> m' == m)
            && (n.block.Source? ==> m'.produced == m.produced[n := m.produced[n] + 1])
  { }

  lemma PushedOnward<T(!new)>(g: Graph<T>, m: Memory<T>, n: Flow<T>, v: Value<T>, id: nat)
    requires GraphOk(g) && Covers(g, m) && n in g.next && !n.block.Sink? && !n.block.Aggregate?
    ensures Output(m.produced, n, v).Some? && Covers(g, Counted(m, n))
    ensures Executed(g, m, n, v, id)
         == Produced(g, Counted(m, n), n, Shares(n.policy, Output(m.produced, n, v).value, |g.next[n]|), 0)
  { }

  lemma SinkIsPath<T(!new)>(g: Graph<T>, m: Memory<T>, n: Flow<T>, v: Value<T>, id: nat, s: Flow<T>)
    requires GraphOk(g) && Covers(g, m) && n in g.next && s in g.next && n.block.Sink?
    ensures Executed(g, m, n, v, id).received == m.received[n := m.received[n] + [v]]
    ensures Arrivals(g, m.produced, n, Routes(g, n, s), v) == if n == s then [v] else []
  {
    if n == s {
      assert Routes(g, n, s) == [[]];
      assert Arrivals(g, m.produced, n, [[]], v) == [v] + Arrivals(g, m.produced, n, [[]][1..], v);
    }
  }

  lemma {:induction false} ProducePaths<T(!new)>(
    g: Graph<T>, m: Memory<T>, made: map<Flow<T>, nat>, n: Flow<T>, v: Value<T>, w: Value<T>, i: nat, s: Flow<T>)
    requires GraphOk(g) && Plain(g) && Covers(g, m) && n in g.next && s in g.next
    requires g.next.Keys == made.Keys && Output(made, n, v) == Some(w)
    requires i <= |Shares(n.policy, w, |g.next[n]|)|
    ensures Produced(g, m, n, Shares(n.policy, w, |g.next[n]|), i).received[s]
         == m.received[s] + Arrivals(g, made, n, RoutesFrom(g, n, s, i), v)
    decreases g.rank[n], 0, |g.next[n]| - i
  {
    hide *;
    var shares := Shares(n.policy, w, |g.next[n]|);
    ProducedUnfolds(g, m, n, shares, i);
    if i < |shares| {
      Onward(g, n, i);
      var (next, id) := g.next[n][i];
      var routes, rest := Routes(g, next, s), RoutesFrom(g, n, s, i + 1);
      RoutesUnfold(g, n, s, i);
      PushIsPaths(g, m, next, shares[i], id, s);
      Covered(g, m);
      MadeElsewhere(g, m.produced, made, next, routes, shares[i]);
      ProducePaths(g, Executed(g, m, next, shares[i], id), made, n, v, w, i + 1, s);
      ArrivalsThrough(g, made, n, i, routes, v, w);
      ArrivalsAppend(g, made, n, Prefixed(i, routes), rest, v);
    } else {
      NothingBeyond(g, made, n, s, i, v, w);
    }
  }

  lemma Covered<T(!new)>(g: Graph<T>, m: Memory<T>)
    requires Covers(g, m)
    ensures g.next.Keys == m.produced.Keys == m.received.Keys == m.latest.Keys
  { }

  lemma RoutesUnfold<T(!new)>(g: Graph<T>, n: Flow<T>, s: Flow<T>, i: nat)
    requires GraphOk(g) && n in g.next && i < |g.next[n]| && g.next[n][i].0 in g.next
    ensures RoutesFrom(g, n, s, i) == Prefixed(i, Routes(g, g.next[n][i].0, s)) + RoutesFrom(g, n, s, i + 1)
  { }

  lemma Onward<T(!new)>(g: Graph<T>, n: Flow<T>, i: nat)
    requires GraphOk(g) && Plain(g) && n in g.next && i < |g.next[n]|
    ensures var next := g.next[n][i].0; next in g.next && 0 <= g.rank[next] < g.rank[n] && !next.block.Source?
  {
    assert NodeOk(g, n) && EdgeOk(g, n, g.next[n][i]);
  }

  /** Beyond the first block the sources' counters do not matter. */
  lemma {:induction false} TravelElsewhere<T(!new)>(
    g: Graph<T>, made: map<Flow<T>, nat>, made': map<Flow<T>, nat>, n: Flow<T>, path: Path, v: Value<T>)
    requires GraphOk(g) && Plain(g) && g.next.Keys == made.Keys == made'.Keys && n in g.next && !n.block.Source?
    ensures Travel(g, made, n, path, v) == Travel(g, made', n, path, v)
    decreases |path|
  {
    if path != [] && n.block.Module? {
      var shares := Shares(n.policy, n.block.process(v), |g.next[n]|);
      if path[0] < |shares| {
        assert NodeOk(g, n) && EdgeOk(g, n, g.next[n][path[0]]);
        TravelElsewhere(g, made, made', g.next[n][path[0]].0, path[1..], shares[path[0]]);
      }
    }
  }

  lemma {:induction false} MadeElsewhere<T(!new)>(
    g: Graph<T>, made: map<Flow<T>, nat>, made': map<Flow<T>, nat>, n: Flow<T>, paths: seq<Path>, v: Value<T>)
    requires GraphOk(g) && Plain(g) && g.next.Keys == made.Keys == made'.Keys && n in g.next && !n.block.Source?
    ensures Arrivals(g, made, n, paths, v) == Arrivals(g, made', n, paths, v)
  {
    if paths != [] {
      TravelElsewhere(g, made, made', n, paths[0], v);
      MadeElsewhere(g, made, made', n, paths[1..], v);
    }
  }

  // ---------------------------------------------------------------- fanout

  ghost predicate AllFanout<T(!new)>(g: Graph<T>) {
    forall n :: n in g.next ==> n.policy.Fanout?
  }

  /** The composition of the modules' functions along a path. */
  ghost function Composed<T(!new)>(g: Graph<T>, n: Flow<T>, path: Path, s: Flow<T>): Value<T> -> Value<T>
    requires GraphOk(g) && Plain(g) && n in g.next && !n.block.Source? && Leads(g, n, path, s)
    decreases |path|
  {
    if path == [] then v => v
    else
      assert NodeOk(g, n) && EdgeOk(g, n, g.next[n][path[0]]);
      var rest, process := Composed(g, g.next[n][path[0]].0, path[1..], s), n.block.process;
      v => rest(process(v))
  }

  lemma {:induction false} TravelComposes<T(!new)>(
    g: Graph<T>, made: map<Flow<T>, nat>, n: Flow<T>, path: Path, s: Flow<T>, v: Value<T>)
    requires GraphOk(g) && Plain(g) && AllFanout(g) && g.next.Keys == made.Keys
    requires n in g.next && !n.block.Source? && Leads(g, n, path, s)
    ensures Travel(g, made, n, path, v) == Some(Composed(g, n, path, s)(v))
    decreases |path|
  {
    if path != [] {
      assert NodeOk(g, n) && EdgeOk(g, n, g.next[n][path[0]]);
      var next, w := g.next[n][path[0]].0, n.block.process(v);
      TravelComposes(g, made, next, path[1..], s, w);
      FanoutTravels(g, made, n, path, v);
    }
  }

  lemma FanoutTravels<T(!new)>(g: Graph<T>, made: map<Flow<T>, nat>, n: Flow<T>, path: Path, v: Value<T>)
    requires GraphOk(g) && g.next.Keys == made.Keys && n in g.next && n.policy.Fanout?
    requires n.block.Module? && path != [] && path[0] < |g.next[n]| && g.next[n][path[0]].0 in g.next
    ensures Travel(g, made, n, path, v) == Travel(g, made, g.next[n][path[0]].0, path[1..], n.block.process(v))
  {
    assert Shares(n.policy, n.block.process(v), |g.next[n]|)[path[0]] == n.block.process(v);
  }

  lemma {:induction false} ArrivalsCompose<T(!new)>(
    g: Graph<T>, made: map<Flow<T>, nat>, n: Flow<T>, paths: seq<Path>, s: Flow<T>, v: Value<T>, k: nat)
    requires GraphOk(g) && Plain(g) && AllFanout(g) && g.next.Keys == made.Keys && n in g.next && !n.block.Source?
    requires forall j :: 0 <= j < |paths| ==> Leads(g, n, paths[j], s)
    ensures |Arrivals(g, made, n, paths, v)| == |paths|
    ensures k < |paths| ==> Arrivals(g, made, n, paths, v)[k] == Composed(g, n, paths[k], s)(v)
  {
    hide *;
    if paths == [] {
      NoArrivals(g, made, n, v);
    } else {
      ArrivalsOne(g, made, n, paths, v);
      TravelComposes(g, made, n, paths[0], s, v);
      ArrivalsCompose(g, made, n, paths[1..], s, v, if k == 0 then 0 else k - 1);
    }
  }

  /** Under fanout a sink gets one value for each path: the composition along it. */
  lemma FanoutComposes<T(!new)>(g: Graph<T>, m: Memory<T>, n: Flow<T>, v: Value<T>, id: nat, s: Flow<T>, k: nat)
    requires GraphOk(g) && Plain(g) && AllFanout(g) && Covers(g, m)
    requires n in g.next && !n.block.Source? && s in g.next && s.block.Sink?
    ensures var routes, got := Routes(g, n, s), Executed(g, m, n, v, id).received[s];
            && |got| == |m.received[s]| + |routes|
            && got[..|m.received[s]|] == m.received[s]
            && (k < |routes| ==>
                  && Leads(g, n, routes[k], s)
                  && got[|m.received[s]| + k] == Composed(g, n, routes[k], s)(v))
  {
    PushIsPaths(g, m, n, v, id, s);
    var routes := Routes(g, n, s);
    forall j | 0 <= j < |routes|
      ensures Leads(g, n, routes[j], s)
    {
      RoutesLead(g, n, s, routes[j]);
    }
    ArrivalsCompose(g, m.produced, n, routes, s, v, k);
  }

  // ---------------------------------------------------------------- round robin

  /** Under round robin the `i`-th element goes to the `i`-th consumer, as long as there are both. */
  lemma RoundRobinTravels<T(!new)>(
    g: Graph<T>, made: map<Flow<T>, nat>, n: Flow<T>, i: nat, path: Path, v: Value<T>, items: seq<Value<T>>)
    requires GraphOk(g) && g.next.Keys == made.Keys && n in g.next && n.policy.RoundRobin?
    requires Output(made, n, v) == Some(Batch(items))
    requires i < |g.next[n]| && g.next[n][i].0 in g.next
    ensures Travel(g, made, n, [i] + path, v)
            == if i < |items| then Travel(g, made, g.next[n][i].0, path, items[i]) else None
  {
    assert ([i] + path)[1..] == path;
  }
}
