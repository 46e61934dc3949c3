/** `Aggregator`: a barrier over the producers registered with it, kept as a bit mask. */
module Aggregator {
  import opened Wrappers
  import opened Words

  // ---------------------------------------------------------------- a barrier over a set

  ghost predicate Registered(p: nat, count: nat) {
    p < count
  }

  ghost function Everyone(count: nat): set<nat> {
    set p: nat | p < count && Registered(p, count)
  }

  /** What an arrival leaves behind, and what it sets free. */
  datatype Arrived<T> = Arrived(latest: map<nat, T>, fired: Option<map<nat, T>>)

  /** A second arrival is ignored; the last one missing sets everything free. */
  ghost function Arrive<T>(latest: map<nat, T>, count: nat, id: nat, v: T): Arrived<T> {
    if id in latest then Arrived(latest, None)
    else if latest.Keys + {id} == Everyone(count) then Arrived(map[], Some(latest[id := v]))
    else Arrived(latest[id := v], None)
  }

  /** What producer `p` has brought, if anything. */
  ghost function Brought<T>(m: map<nat, T>, p: nat): multiset<T> {
    if p in m then multiset{m[p]} else multiset{}
  }

  /** The values of the producers below `n`, in no particular order. */
  ghost function Values<T>(m: map<nat, T>, n: nat): multiset<T> {
    if n == 0 then multiset{} else Values(m, n - 1) + Brought(m, n - 1)
  }

  // ---------------------------------------------------------------- the mask

  ghost predicate Masks(state: nat, keys: set<nat>) {
    && state < Pow2(W)
    && forall i :: 0 <= i < W ==> (Bit(state, i) <==> i in keys)
  }

  lemma MaskOfNobody()
    ensures Masks(0, {})
  {
    hide Pow2;
    Pow2Monotone(0, W);
    SmallPowers();
    OnesBits(0, W);
    forall i | 0 <= i < W
      ensures !Bit(0, i)
    {
      assert Bits(0, W)[i] <==> i < 0;
    }
  }

  lemma PowerFits(p: nat)
    requires p < W
    ensures Pow2(p) < Pow2(W)
  {
    Pow2Monotone(p + 1, W);
  }

  lemma MaskOfOne(p: nat)
    requires p < W
    ensures Masks(Pow2(p), {p})
  {
    hide Pow2;
    PowerFits(p);
    PowerBits(p, W);
    forall i | 0 <= i < W
      ensures Bit(Pow2(p), i) <==> i == p
    {
      assert Bits(Pow2(p), W)[i] <==> i == p;
    }
  }

  lemma MaskOfEveryone(n: nat)
    requires n < W
    ensures Masks(Pow2(n) - 1, Everyone(n))
  {
    PowerFits(n);
    hide Pow2;
    OnesBits(n, W);
    forall i | 0 <= i < W
      ensures Bit(Pow2(n) - 1, i) <==> i in Everyone(n)
    {
      assert Bits(Pow2(n) - 1, W)[i] <==> i < n;
    }
  }

  /** The test of one bit asks whether the producer has arrived. */
  lemma MaskTest(state: nat, keys: set<nat>, p: nat)
    requires Masks(state, keys) && p < W
    ensures And(state, Pow2(p)) != 0 <==> p in keys
  {
    hide Pow2;
    MaskOfOne(p);
    MaskOfNobody();
    AndBits(state, Pow2(p));
    if p in keys {
      assert Bit(And(state, Pow2(p)), p);
    } else {
      NoBit(And(state, Pow2(p)));
    }
  }

  lemma MaskAdd(state: nat, keys: set<nat>, p: nat)
    requires Masks(state, keys) && p < W
    ensures Masks(Or(state, Pow2(p)), keys + {p})
  {
    hide Pow2;
    MaskOfOne(p);
    OrBits(state, Pow2(p));
  }

  /** The comparison with `2^n - 1` asks whether everybody has arrived. */
  lemma MaskIsFull(state: nat, keys: set<nat>, n: nat)
    requires Masks(state, keys) && n < W && forall p :: p in keys ==> p < n
    ensures state == Pow2(n) - 1 <==> keys == Everyone(n)
  {
    hide Pow2;
    MaskOfEveryone(n);
    if state == Pow2(n) - 1 {
      forall p: nat
        ensures p in keys <==> p in Everyone(n)
      {
        if p < n {
          assert Bit(state, p) <==> p in keys;
        }
      }
    } else if keys == Everyone(n) {
      SameBits(state, Pow2(n) - 1);
    }
  }

  // ---------------------------------------------------------------- the class

  /** The shift and the power of two are computed in `int`. */
  const MAX_PRODUCERS: nat := 30

  class Aggregator<In(==)> {
    var state: nat
    var producer_count: nat
    var latest: map<nat, In>

    ghost predicate Valid()
      reads this
    {
      && latest.Keys <= Everyone(producer_count)
      && (producer_count > 0 ==> latest.Keys != Everyone(producer_count))
      && Masks(state, latest.Keys)
    }

    constructor ()
      ensures Valid() && producer_count == 0 && latest == map[]
    {
      state, producer_count, latest := 0, 0, map[];
      MaskOfNobody();
    }

    method RegisterProducer() returns (id: nat)
      requires Valid()
      modifies this`producer_count
      ensures Valid() && id == old(producer_count) && producer_count == old(producer_count) + 1
    {
      id := producer_count;
      producer_count := producer_count + 1;
      assert id in Everyone(producer_count) && id !in latest.Keys;
    }

    /**
      Answers with what `process` is called on, if it is. The loop visits the map in an
      order that is not specified.
     */
    method ProcessAny(in_: In, producer_id: nat) returns (collected: Option<seq<In>>)
      requires Valid() && producer_id < producer_count <= MAX_PRODUCERS
      modifies this`state, this`latest
      ensures Valid()
      ensures var a := Arrive(old(latest), producer_count, producer_id, in_);
              && latest == a.latest
              && (collected.Some? <==> a.fired.Some?)
              && (collected.Some? ==> multiset(collected.value) == Values(a.fired.value, producer_count))
    {
      hide Pow2;
      hide Or;
      hide And;
      var idx := Pow2(producer_id);
      MaskTest(state, latest.Keys, producer_id);
      if And(state, idx) != 0 {
        return None;
      }
      MaskAdd(state, latest.Keys, producer_id);
      latest := latest[producer_id := in_];
      state := Or(state, idx);
      assert latest.Keys == old(latest.Keys) + {producer_id};
      MaskIsFull(state, latest.Keys, producer_count);
      if state == Pow2(producer_count) - 1 {
        state := 0;
        var values := Collect(latest, producer_count);
        latest := map[];
        MaskOfNobody();
        assert 0 in Everyone(producer_count);
        return Some(values);
      }
      return None;
    }

    /**
      `process_any` on an empty value: after the test of the mask the cast fails, before
      anything has been changed.
     */
    method ProcessNothing(producer_id: nat) returns (failed: bool)
      requires Valid() && producer_id < MAX_PRODUCERS
      ensures failed <==> producer_id !in latest
    {
      hide Pow2;
      hide And;
      MaskTest(state, latest.Keys, producer_id);
      var idx := Pow2(producer_id);
      if And(state, idx) != 0 {
        return false;
      }
      return true;
    }

    static method Collect(from: map<nat, In>, ghost count: nat) returns (values: seq<In>)
      requires from.Keys <= Everyone(count)
      ensures multiset(values) == Values(from, count)
    {
      hide *;
      values := [];
      var left := from;
      while left.Keys != {}
        invariant left.Keys <= from.Keys
        invariant multiset(values) + Values(left, count) == Values(from, count)
        decreases |left|
      {
        var p :| p in left.Keys;
        TakenOut(left, p, count);
        ValuesWithout(left, left - {p}, p, count);
        ghost var rest := Values(left - {p}, count);
        assert multiset(values + [left[p]]) + rest == multiset(values) + (rest + multiset{left[p]});
        values := values + [left[p]];
        left := left - {p};
      }
      NoValues(left, count);
    }
  }

  /** The state is 0 exactly when nobody has arrived. */
  lemma ZeroMeansNobody<In>(a: Aggregator<In>)
    requires a.Valid() && a.producer_count <= MAX_PRODUCERS
    ensures a.state == 0 <==> a.latest.Keys == {}
  {
    hide Pow2;
    MaskOfNobody();
    if a.latest.Keys == {} {
      NoBit(a.state);
    } else {
      var p :| p in a.latest.Keys;
      assert p in Everyone(a.producer_count);
      assert Bit(a.state, p) && !Bit(0, p);
    }
  }

  /** `m'` is `m` without what `p` has brought. */
  ghost predicate Without<T>(m: map<nat, T>, m': map<nat, T>, p: nat) {
    && p in m && p !in m'
    && forall q: nat :: q != p ==> Brought(m', q) == Brought(m, q)
  }

  lemma TakenOut<T>(m: map<nat, T>, p: nat, count: nat)
    requires p in m
    ensures Without(m, m - {p}, p) && Brought(m, p) == multiset{m[p]}
    ensures |m - {p}| < |m| && (m - {p}).Keys <= m.Keys
    ensures p in Everyone(count) ==> p < count
  {
    assert m == (m - {p})[p := m[p]];
  }

  lemma {:induction false} ValuesWithout<T>(m: map<nat, T>, m': map<nat, T>, p: nat, n: nat)
    requires Without(m, m', p)
    ensures Values(m, n) == if p < n then Values(m', n) + Brought(m, p) else Values(m', n)
  {
    hide *;
    OneValueMore(m, n);
    OneValueMore(m', n);
    WithoutAt(m, m', p, n - 1);
    if n > 0 {
      ValuesWithout(m, m', p, n - 1);
      var here, rest, top := Brought(m, p), Values(m', n - 1), Brought(m', n - 1);
      assert (rest + here) + top == (rest + top) + here;
    }
  }

  lemma OneValueMore<T>(m: map<nat, T>, n: nat)
    ensures Values(m, n) == if n == 0 then multiset{} else Values(m, n - 1) + Brought(m, n - 1)
  { }

  lemma WithoutAt<T>(m: map<nat, T>, m': map<nat, T>, p: nat, q: int)
    requires Without(m, m', p)
    ensures q >= 0 && q != p ==> Brought(m', q) == Brought(m, q)
    ensures Brought(m', p) == multiset{}
  { }

  lemma {:induction false} NoValues<T>(m: map<nat, T>, n: nat)
    requires m.Keys == {}
    ensures Values(m, n) == multiset{}
  {
    if n > 0 {
      NoValues(m, n - 1);
    }
  }

  /** When everybody has arrived, the values are those of everybody, each once. */
  lemma {:induction false} ValuesOfAll<T>(m: map<nat, T>, n: nat, values: seq<T>)
    requires |values| == n && forall p :: 0 <= p < n ==> p in m && m[p] == values[p]
    ensures Values(m, n) == multiset(values)
  {
    if n > 0 {
      ValuesOfAll(m, n - 1, values[..n - 1]);
      assert values == values[..n - 1] + [values[n - 1]];
    }
  }

  // ---------------------------------------------------------------- any sequence of arrivals

  ghost function LatestAfter<T>(arrivals: seq<(nat, T)>, count: nat, i: nat): map<nat, T>
    requires i <= |arrivals|
  {
    if i == 0 then map[]
    else Arrive(LatestAfter(arrivals, count, i - 1), count, arrivals[i - 1].0, arrivals[i - 1].1).latest
  }

  /** What the `i`-th arrival sets free. */
  ghost function FiredAt<T>(arrivals: seq<(nat, T)>, count: nat, i: nat): Option<map<nat, T>>
    requires i < |arrivals|
  {
    Arrive(LatestAfter(arrivals, count, i), count, arrivals[i].0, arrivals[i].1).fired
  }

  /** Where the arrivals since the last firing begin. */
  ghost function Since<T>(arrivals: seq<(nat, T)>, count: nat, i: nat): (since: nat)
    requires i <= |arrivals|
    ensures since <= i
  {
    if i == 0 then 0
    else if FiredAt(arrivals, count, i - 1).Some? then i
    else Since(arrivals, count, i - 1)
  }

  /** `v` is what producer `p` brought first among the arrivals from `since` up to `i`. */
  ghost predicate FirstOf<T>(arrivals: seq<(nat, T)>, since: nat, i: nat, p: nat, v: T)
    requires i <= |arrivals|
  {
    exists k :: since <= k < i && arrivals[k] == (p, v) && forall j :: since <= j < k ==> arrivals[j].0 != p
  }

  ghost predicate HasArrived<T>(arrivals: seq<(nat, T)>, since: nat, i: nat, p: nat)
    requires i <= |arrivals|
  {
    exists k :: since <= k < i && arrivals[k].0 == p
  }

  /** One more arrival matters to the one who brought it, and only if it is his first. */
  lemma FirstGrows<T>(arrivals: seq<(nat, T)>, since: nat, i: nat, p: nat, v: T)
    requires since <= i < |arrivals|
    ensures FirstOf(arrivals, since, i + 1, p, v) <==>
            FirstOf(arrivals, since, i, p, v) || (arrivals[i] == (p, v) && !HasArrived(arrivals, since, i, p))
  {
    if FirstOf(arrivals, since, i + 1, p, v) {
      var k :| since <= k < i + 1 && arrivals[k] == (p, v) && forall j :: since <= j < k ==> arrivals[j].0 != p;
      assert k < i ==> FirstOf(arrivals, since, i, p, v);
    }
  }

  /** What is kept is each producer's first arrival since the last firing. */
  lemma {:induction false} KeepsTheFirst<T>(arrivals: seq<(nat, T)>, count: nat, i: nat, p: nat, v: T)
    requires i <= |arrivals|
    ensures p in LatestAfter(arrivals, count, i) && LatestAfter(arrivals, count, i)[p] == v
            <==> FirstOf(arrivals, Since(arrivals, count, i), i, p, v)
  {
    if i > 0 {
      var since := Since(arrivals, count, i - 1);
      KeepsTheFirst(arrivals, count, i - 1, p, v);
      KeptIffArrived(arrivals, count, i - 1, arrivals[i - 1].0);
      FirstGrows(arrivals, since, i - 1, p, v);
    }
  }

  lemma {:induction false} KeptIffArrived<T>(arrivals: seq<(nat, T)>, count: nat, i: nat, p: nat)
    requires i <= |arrivals|
    ensures p in LatestAfter(arrivals, count, i) <==> HasArrived(arrivals, Since(arrivals, count, i), i, p)
  {
    if i > 0 {
      KeptIffArrived(arrivals, count, i - 1, p);
      var since := Since(arrivals, count, i - 1);
      assert HasArrived(arrivals, since, i, p) <==> HasArrived(arrivals, since, i - 1, p) || arrivals[i - 1].0 == p;
    }
  }

  ghost predicate AllRegistered<T>(arrivals: seq<(nat, T)>, count: nat) {
    forall k :: 0 <= k < |arrivals| ==> arrivals[k].0 < count
  }

  ghost predicate AllHaveArrived<T>(arrivals: seq<(nat, T)>, since: nat, i: nat, count: nat)
    requires i <= |arrivals|
  {
    forall p: nat :: Registered(p, count) ==> HasArrived(arrivals, since, i, p)
  }

  lemma {:induction false} NeverLeftFull<T>(arrivals: seq<(nat, T)>, count: nat, i: nat)
    requires i <= |arrivals| && count > 0 && AllRegistered(arrivals, count)
    ensures LatestAfter(arrivals, count, i).Keys <= Everyone(count)
    ensures LatestAfter(arrivals, count, i).Keys != Everyone(count)
  {
    assert Registered(0, count) && 0 in Everyone(count);
    if i > 0 {
      NeverLeftFull(arrivals, count, i - 1);
      assert Registered(arrivals[i - 1].0, count);
      var before := LatestAfter(arrivals, count, i - 1);
      var id := arrivals[i - 1].0;
      assert before[id := arrivals[i - 1].1].Keys == before.Keys + {id};
    }
  }

  lemma ArrivedGrows<T>(arrivals: seq<(nat, T)>, since: nat, i: nat, p: nat)
    requires since <= i < |arrivals|
    ensures HasArrived(arrivals, since, i + 1, p) <==> HasArrived(arrivals, since, i, p) || arrivals[i].0 == p
  {
    if HasArrived(arrivals, since, i + 1, p) {
      var k :| since <= k < i + 1 && arrivals[k].0 == p;
      assert k < i ==> HasArrived(arrivals, since, i, p);
    }
  }

  lemma ArrivedByNow<T>(arrivals: seq<(nat, T)>, count: nat, i: nat, p: nat)
    requires i < |arrivals|
    ensures HasArrived(arrivals, Since(arrivals, count, i), i + 1, p)
            <==> p in LatestAfter(arrivals, count, i) || p == arrivals[i].0
  {
    var since := Since(arrivals, count, i);
    hide Since;
    KeptIffArrived(arrivals, count, i, p);
    hide LatestAfter;
    ArrivedGrows(arrivals, since, i, p);
  }

  /** An arrival fires the barrier exactly when with it everybody has arrived since the last firing. */
  lemma FiresExactlyWhenAllArrived<T>(arrivals: seq<(nat, T)>, count: nat, i: nat)
    requires i < |arrivals| && count > 0 && AllRegistered(arrivals, count)
    ensures FiredAt(arrivals, count, i).Some? <==>
            AllHaveArrived(arrivals, Since(arrivals, count, i), i + 1, count)
  {
    hide HasArrived;
    hide LatestAfter;
    hide Since;
    var since, keys, id := Since(arrivals, count, i), LatestAfter(arrivals, count, i).Keys, arrivals[i].0;
    NeverLeftFull(arrivals, count, i);
    assert Registered(id, count);
    forall q: nat
      ensures HasArrived(arrivals, since, i + 1, q) <==> q in keys || q == id
    {
      ArrivedByNow(arrivals, count, i, q);
    }
    if AllHaveArrived(arrivals, since, i + 1, count) {
      forall q: nat | q in Everyone(count)
        ensures q in keys + {id}
      {
        assert Registered(q, count);
      }
      assert keys + {id} == Everyone(count);
      assert id in keys ==> keys + {id} == keys;
    } else {
      var q: nat :| Registered(q, count) && !HasArrived(arrivals, since, i + 1, q);
      assert q in Everyone(count) && q !in keys + {id};
    }
  }

  /** What a firing sets free is what each producer brought first since the last firing. */
  lemma FiringCollectsTheFirst<T>(arrivals: seq<(nat, T)>, count: nat, i: nat, p: nat, v: T)
    requires i < |arrivals| && FiredAt(arrivals, count, i).Some?
    ensures var fired := FiredAt(arrivals, count, i).value;
            && fired.Keys == Everyone(count)
            && (p in fired && fired[p] == v <==> FirstOf(arrivals, Since(arrivals, count, i), i + 1, p, v))
  {
    KeepsTheFirst(arrivals, count, i, p, v);
    KeptIffArrived(arrivals, count, i, arrivals[i].0);
    FirstGrows(arrivals, Since(arrivals, count, i), i, p, v);
  }
}
