/**
  `CPUManager` and `Worker`: cores move between two pools and the workers that hold them.
  Locking is not part of this model.
 */
module CpuManager {

  datatype AffinityType = Normal | Pinned | Isolated

  datatype Core = Core(cpu_id: int, affinity_type: AffinityType)

  datatype ThreadPolicy = ThreadPolicy(cores: nat, affinity_type: AffinityType, strict: bool)

  datatype Result = NotEnough | Cores(cores: seq<Core>)

  // ---------------------------------------------------------------- what an allocation is

  function Tagged(ids: seq<int>, kind: AffinityType): (cores: seq<Core>)
    ensures |cores| == |ids|
  {
    seq(|ids|, i requires 0 <= i < |ids| => Core(ids[i], kind))
  }

  /** The last `n` of a pool, last one first. */
  function FromBack(pool: seq<int>, n: nat): (ids: seq<int>)
    requires n <= |pool|
    ensures |ids| == n
  {
    seq(n, i requires 0 <= i < n => pool[|pool| - 1 - i])
  }

  function Rest(pool: seq<int>, n: nat): seq<int>
    requires n <= |pool|
  {
    pool[..|pool| - n]
  }

  function Min(a: nat, b: nat): nat {
    if a <= b then a else b
  }

  /** An allocation fails when there are too few cores, or too few isolated ones for a strict policy. */
  predicate Fails(pinned: seq<int>, isolated: seq<int>, policy: ThreadPolicy) {
    match policy.affinity_type
    case Isolated => policy.cores > |pinned| + |isolated| || (policy.strict && policy.cores > |isolated|)
    case _ => policy.cores > |pinned|
  }

  /** How many cores an allocation takes out of each pool. */
  function PinnedTaken(isolated: seq<int>, policy: ThreadPolicy): nat {
    match policy.affinity_type
    case Normal => 0
    case Pinned => policy.cores
    case Isolated => policy.cores - Min(policy.cores, |isolated|)
  }

  function IsolatedTaken(isolated: seq<int>, policy: ThreadPolicy): nat {
    if policy.affinity_type.Isolated? then Min(policy.cores, |isolated|) else 0
  }

  /** The cores a successful allocation answers with, in order. */
  function Allocated(pinned: seq<int>, isolated: seq<int>, policy: ThreadPolicy): seq<Core>
    requires !Fails(pinned, isolated, policy)
  {
    if policy.affinity_type.Normal? then Tagged(pinned[..policy.cores], Normal)
    else
      Tagged(FromBack(pinned, PinnedTaken(isolated, policy)), Pinned)
      + Tagged(FromBack(isolated, IsolatedTaken(isolated, policy)), Isolated)
  }

  /** `cores[at..at + n]` are the last `n` of a pool, last one first, and only those leave it. */
  ghost predicate FromTheBack(cores: seq<Core>, at: nat, n: nat, kind: AffinityType, pool: seq<int>, pool': seq<int>) {
    && n <= |pool| && |pool'| == |pool| - n && at + n <= |cores|
    && (forall i :: 0 <= i < |pool'| ==> pool'[i] == pool[i])
    && forall j :: at <= j < at + n ==> cores[j] == Core(pool[|pool| - 1 - (j - at)], kind)
  }

  /**
    What an allocation hands out and what it leaves: shared cores are the first of the
    pinned pool, which keeps them; pinned cores come from the back of that pool; isolated
    ones from the back of theirs, after as many pinned ones as there are too few of them.
   */
  ghost predicate HandsOut(
    policy: ThreadPolicy, pinned: seq<int>, isolated: seq<int>, cores: seq<Core>, pinned': seq<int>, isolated': seq<int>)
  {
    && |cores| == policy.cores
    && match policy.affinity_type
       case Normal =>
         && pinned' == pinned && isolated' == isolated && policy.cores <= |pinned|
         && forall i :: 0 <= i < policy.cores ==> cores[i] == Core(pinned[i], Normal)
       case Pinned =>
         FromTheBack(cores, 0, policy.cores, Pinned, pinned, pinned') && isolated' == isolated
       case Isolated =>
         if policy.cores <= |isolated| then
           FromTheBack(cores, 0, policy.cores, Isolated, isolated, isolated') && pinned' == pinned
         else
           var missing := policy.cores - |isolated|;
           && !policy.strict
           && FromTheBack(cores, 0, missing, Pinned, pinned, pinned')
           && FromTheBack(cores, missing, |isolated|, Isolated, isolated, isolated') && isolated' == []
  }

  lemma AllocatedIsHandedOut(pinned: seq<int>, isolated: seq<int>, policy: ThreadPolicy)
    requires !Fails(pinned, isolated, policy)
    ensures HandsOut(policy, pinned, isolated, Allocated(pinned, isolated, policy),
                     Rest(pinned, PinnedTaken(isolated, policy)), Rest(isolated, IsolatedTaken(isolated, policy)))
  {
    hide FromTheBack;
    hide FromBack;
    hide Tagged;
    AllOrNone(pinned);
    AllOrNone(isolated);
    var p, i := PinnedTaken(isolated, policy), IsolatedTaken(isolated, policy);
    if policy.affinity_type.Normal? {
      FirstAreTagged(pinned, policy.cores);
    } else {
      var taken, more := Tagged(FromBack(pinned, p), Pinned), Tagged(FromBack(isolated, i), Isolated);
      assert taken + more == [] + taken + more == taken + more + [];
      TakenFromTheBack([], more, pinned, p, Pinned);
      TakenFromTheBack(taken, [], isolated, i, Isolated);
    }
  }

  lemma AllOrNone(pool: seq<int>)
    ensures Rest(pool, 0) == pool && Rest(pool, |pool|) == [] && |FromBack(pool, 0)| == 0
  { }

  lemma FirstAreTagged(pool: seq<int>, n: nat)
    requires n <= |pool|
    ensures forall i :: 0 <= i < n ==> Tagged(pool[..n], Normal)[i] == Core(pool[i], Normal)
  { }

  lemma TakenFromTheBack(before: seq<Core>, after: seq<Core>, pool: seq<int>, n: nat, kind: AffinityType)
    requires n <= |pool|
    ensures FromTheBack(before + Tagged(FromBack(pool, n), kind) + after, |before|, n, kind, pool, Rest(pool, n))
  { }

  /** An allocation fails exactly when there is nothing that the policy could be handed. */
  lemma FailsExactlyWhen(pinned: seq<int>, isolated: seq<int>, policy: ThreadPolicy)
    ensures Fails(pinned, isolated, policy) <==>
            !exists cores, pinned', isolated' :: HandsOut(policy, pinned, isolated, cores, pinned', isolated')
  {
    if !Fails(pinned, isolated, policy) {
      AllocatedIsHandedOut(pinned, isolated, policy);
    }
  }

  /** The ids of the cores of one kind. */
  function Ids(cores: seq<Core>, kind: AffinityType): seq<int> {
    if cores == [] then []
    else (if cores[0].affinity_type == kind then [cores[0].cpu_id] else []) + Ids(cores[1..], kind)
  }

  /** The first occurrence of `x` is erased. */
  function Erased(pool: seq<int>, x: int): seq<int> {
    if pool == [] then [] else if pool[0] == x then pool[1..] else [pool[0]] + Erased(pool[1..], x)
  }

  lemma {:induction false} ErasedAt(pool: seq<int>, x: int, k: nat)
    requires k < |pool| && pool[k] == x && forall i :: 0 <= i < k ==> pool[i] != x
    ensures Erased(pool, x) == pool[..k] + pool[k + 1..]
    ensures multiset(Erased(pool, x)) + multiset{x} == multiset(pool)
  {
    if k > 0 {
      ErasedAt(pool[1..], x, k - 1);
      assert pool[1..][..k - 1] == pool[1..k] && pool[1..][k..] == pool[k + 1..];
      assert [pool[0]] + pool[1..k] == pool[..k];
    }
    WithoutOne(pool, k);
  }

  lemma WithoutOne(pool: seq<int>, k: nat)
    requires k < |pool|
    ensures multiset(pool[..k] + pool[k + 1..]) + multiset{pool[k]} == multiset(pool)
  {
    assert pool == pool[..k] + [pool[k]] + pool[k + 1..];
  }

  function ErasedAll(pool: seq<int>, xs: seq<int>): seq<int> {
    if xs == [] then pool else Erased(ErasedAll(pool, xs[..|xs| - 1]), xs[|xs| - 1])
  }

  // ---------------------------------------------------------------- the manager

  class Manager {
    /** `pinned_core_pool` and `isol_core_pool`. */
    var pinned: seq<int>
    var isolated: seq<int>

    /** Isolated cores are taken out of the online ones. */
    constructor (online: seq<int>, isolated: seq<int>)
      requires multiset(isolated) <= multiset(online)
      ensures this.isolated == isolated && pinned == ErasedAll(online, isolated)
      ensures multiset(pinned) + multiset(isolated) == multiset(online)
    {
      var pool := online;
      for i := 0 to |isolated|
        invariant pool == ErasedAll(online, isolated[..i])
        invariant multiset(pool) + multiset(isolated[..i]) == multiset(online)
      {
        PrefixLeavesNext(isolated, i, pool, online);
        assert isolated[..i + 1] == isolated[..i] + [isolated[i]];
        pool := EraseFirst(pool, isolated[i]);
      }
      assert isolated[..|isolated|] == isolated;
      this.pinned, this.isolated := pool, isolated;
    }

    /** `erase(find(pool, x))`, for an `x` that is there. */
    static method EraseFirst(pool: seq<int>, x: int) returns (rest: seq<int>)
      requires x in pool
      ensures rest == Erased(pool, x) && multiset(rest) + multiset{x} == multiset(pool)
    {
      var k := 0;
      while pool[k] != x
        invariant 0 <= k < |pool| && forall i :: 0 <= i < k ==> pool[i] != x
        decreases |pool| - k
      {
        k := k + 1;
      }
      ErasedAt(pool, x, k);
      return pool[..k] + pool[k + 1..];
    }

    /** The loop of both exclusive cases: cores go from the back of a pool to the end of a list. */
    static method PopBack(n: nat, from: seq<int>, kind: AffinityType, before: seq<Core>)
      returns (cpus: seq<Core>, pool: seq<int>)
      requires n <= |from|
      ensures cpus == before + Tagged(FromBack(from, n), kind) && pool == Rest(from, n)
    {
      cpus, pool := before, from;
      for i := 0 to n
        invariant cpus == before + Tagged(FromBack(from, i), kind) && pool == Rest(from, i)
      {
        cpus := cpus + [Core(pool[|pool| - 1], kind)];
        pool := pool[..|pool| - 1];
      }
    }

    /** All or nothing; a policy that is not strict falls back on pinned cores. */
    method Allocate(policy: ThreadPolicy) returns (r: Result)
      modifies this
      decreases if policy.affinity_type.Isolated? then 1 else 0
      ensures r.NotEnough? <==> Fails(old(pinned), old(isolated), policy)
      ensures r.NotEnough? ==> pinned == old(pinned) && isolated == old(isolated)
      ensures r.Cores? ==>
        && r.cores == Allocated(old(pinned), old(isolated), policy)
        && pinned == Rest(old(pinned), PinnedTaken(old(isolated), policy))
        && isolated == Rest(old(isolated), IsolatedTaken(old(isolated), policy))
      ensures r.Cores? ==> HandsOut(policy, old(pinned), old(isolated), r.cores, pinned, isolated)
    {
      hide HandsOut;
      if !Fails(pinned, isolated, policy) {
        AllocatedIsHandedOut(pinned, isolated, policy);
      }
      var total_cpus := |pinned|;
      if policy.affinity_type == Isolated {
        total_cpus := total_cpus + |isolated|;
      }
      if policy.cores > total_cpus {
        return NotEnough;
      }
      var cpus: seq<Core> := [];
      var pinned_copy, isolated_copy := pinned, isolated;
      match policy.affinity_type {
        case Normal =>
          for i := 0 to policy.cores
            invariant cpus == Tagged(pinned_copy[..i], Normal)
          {
            cpus := cpus + [Core(pinned_copy[i], Normal)];
          }
        case Pinned =>
          cpus, pinned_copy := PopBack(policy.cores, pinned_copy, Pinned, cpus);
        case Isolated =>
          var isolated_count := Min(policy.cores, |isolated_copy|);
          var pinned_count := policy.cores - isolated_count;
          if isolated_count < policy.cores {
            if policy.strict {
              return NotEnough;
            }
            var fallback := Allocate(ThreadPolicy(pinned_count, Pinned, policy.strict));
            assert fallback.Cores?;
            cpus := fallback.cores;
            pinned_copy, isolated_copy := pinned, isolated;
          }
          cpus, isolated_copy := PopBack(isolated_count, isolated_copy, Isolated, cpus);
      }
      pinned, isolated := pinned_copy, isolated_copy;
      return Cores(cpus);
    }

    /** One core goes back to the pool of its kind. */
    method DeallocateOne(core: Core)
      modifies this
      ensures pinned == old(pinned) + Ids([core], Pinned) && isolated == old(isolated) + Ids([core], Isolated)
    {
      match core.affinity_type {
        case Normal =>
        case Isolated => isolated := isolated + [core.cpu_id];
        case Pinned => pinned := pinned + [core.cpu_id];
      }
    }

    method Deallocate(cores: seq<Core>)
      modifies this
      ensures pinned == old(pinned) + Ids(cores, Pinned) && isolated == old(isolated) + Ids(cores, Isolated)
    {
      for i := 0 to |cores|
        invariant pinned == old(pinned) + Ids(cores[..i], Pinned)
        invariant isolated == old(isolated) + Ids(cores[..i], Isolated)
      {
        DeallocateOne(cores[i]);
        assert cores[..i + 1] == cores[..i] + [cores[i]];
        IdsAppend(cores[..i], [cores[i]], Pinned);
        IdsAppend(cores[..i], [cores[i]], Isolated);
      }
      assert cores[..|cores|] == cores;
    }
  }

  lemma PrefixLeavesNext(isolated: seq<int>, i: nat, pool: seq<int>, online: seq<int>)
    requires i < |isolated| && multiset(isolated) <= multiset(online)
    requires multiset(pool) + multiset(isolated[..i]) == multiset(online)
    ensures isolated[i] in pool
  {
    var x := isolated[i];
    assert isolated == isolated[..i] + [x] + isolated[i + 1..];
    assert multiset(isolated)[x] > multiset(isolated[..i])[x];
    assert (multiset(pool) + multiset(isolated[..i]))[x] >= multiset(isolated)[x];
    assert x in multiset(pool);
  }

  lemma {:induction false} IdsAppend(a: seq<Core>, b: seq<Core>, kind: AffinityType)
    ensures Ids(a + b, kind) == Ids(a, kind) + Ids(b, kind)
  {
    if a == [] {
      assert a + b == b;
    } else {
      IdsAppend(a[1..], b, kind);
      assert (a + b)[1..] == a[1..] + b;
      var first := if a[0].affinity_type == kind then [a[0].cpu_id] else [];
      assert first + (Ids(a[1..], kind) + Ids(b, kind)) == (first + Ids(a[1..], kind)) + Ids(b, kind);
    }
  }

  lemma {:induction false} IdsTagged(ids: seq<int>, tag: AffinityType, kind: AffinityType)
    ensures Ids(Tagged(ids, tag), kind) == if tag == kind then ids else []
  {
    if ids != [] {
      IdsTagged(ids[1..], tag, kind);
      assert Tagged(ids, tag)[1..] == Tagged(ids[1..], tag);
    }
  }

  lemma {:induction false} BackAndRest(pool: seq<int>, n: nat)
    requires n <= |pool|
    ensures multiset(Rest(pool, n) + FromBack(pool, n)) == multiset(pool)
  {
    if n == 0 {
      assert Rest(pool, n) + FromBack(pool, n) == pool;
    } else {
      BackAndRest(pool, n - 1);
      var x := pool[|pool| - n];
      assert FromBack(pool, n) == FromBack(pool, n - 1) + [x];
      assert Rest(pool, n - 1) == Rest(pool, n) + [x];
    }
  }

  /** The cores of each kind in an allocation are what the pool of that kind lost. */
  lemma AllocatedIds(pinned: seq<int>, isolated: seq<int>, policy: ThreadPolicy)
    requires !Fails(pinned, isolated, policy)
    ensures var cores := Allocated(pinned, isolated, policy);
            && |cores| == policy.cores
            && Ids(cores, Pinned) == FromBack(pinned, PinnedTaken(isolated, policy))
            && Ids(cores, Isolated) == FromBack(isolated, IsolatedTaken(isolated, policy))
  {
    if policy.affinity_type.Normal? {
      IdsTagged(pinned[..policy.cores], Normal, Pinned);
      IdsTagged(pinned[..policy.cores], Normal, Isolated);
    } else {
      var p, i := FromBack(pinned, PinnedTaken(isolated, policy)), FromBack(isolated, IsolatedTaken(isolated, policy));
      IdsAppend(Tagged(p, Pinned), Tagged(i, Isolated), Pinned);
      IdsAppend(Tagged(p, Pinned), Tagged(i, Isolated), Isolated);
      IdsTagged(p, Pinned, Pinned);
      IdsTagged(p, Pinned, Isolated);
      IdsTagged(i, Isolated, Pinned);
      IdsTagged(i, Isolated, Isolated);
    }
  }

  /** A fallback gives as many isolated cores as there are, and the inner allocation cannot fail. */
  lemma FallbackIsComplete(pinned: seq<int>, isolated: seq<int>, policy: ThreadPolicy)
    requires policy.affinity_type.Isolated? && !policy.strict && policy.cores <= |pinned| + |isolated|
    ensures !Fails(pinned, isolated, policy)
    ensures var cores := Allocated(pinned, isolated, policy);
            && |Ids(cores, Isolated)| == Min(policy.cores, |isolated|)
            && |Ids(cores, Pinned)| + |Ids(cores, Isolated)| == policy.cores
            && !Fails(pinned, isolated, ThreadPolicy(|Ids(cores, Pinned)|, Pinned, policy.strict))
  {
    AllocatedIds(pinned, isolated, policy);
  }

  /** Allocating and giving everything back restores both pools, but for the order. */
  lemma AllocateThenDeallocate(pinned: seq<int>, isolated: seq<int>, policy: ThreadPolicy)
    requires !Fails(pinned, isolated, policy)
    ensures var cores := Allocated(pinned, isolated, policy);
            && multiset(Rest(pinned, PinnedTaken(isolated, policy)) + Ids(cores, Pinned)) == multiset(pinned)
            && multiset(Rest(isolated, IsolatedTaken(isolated, policy)) + Ids(cores, Isolated)) == multiset(isolated)
  {
    AllocatedIds(pinned, isolated, policy);
    BackAndRest(pinned, PinnedTaken(isolated, policy));
    BackAndRest(isolated, IsolatedTaken(isolated, policy));
  }

  // ---------------------------------------------------------------- a worker

  /** The pools and the cores that one worker holds. */
  datatype Hold = Hold(pinned: seq<int>, isolated: seq<int>, held: seq<Core>)

  /** A start takes hold of the cores it gets, if it gets any; what was held is forgotten. */
  function Started(h: Hold, policy: ThreadPolicy): Hold {
    if Fails(h.pinned, h.isolated, policy) || policy.cores == 0 then h
    else
      Hold(Rest(h.pinned, PinnedTaken(h.isolated, policy)), Rest(h.isolated, IsolatedTaken(h.isolated, policy)),
           Allocated(h.pinned, h.isolated, policy))
  }

  function Stopped(h: Hold): Hold {
    Hold(h.pinned + Ids(h.held, Pinned), h.isolated + Ids(h.held, Isolated), [])
  }

  class Worker {
    const policy: ThreadPolicy
    const manager: Manager
    var allocated_cores: seq<Core>
    var stop_flag: bool

    ghost function Holding(): Hold
      reads this, manager
    {
      Hold(manager.pinned, manager.isolated, allocated_cores)
    }

    constructor (policy: ThreadPolicy, manager: Manager)
      ensures this.policy == policy && this.manager == manager && allocated_cores == []
    {
      this.policy, this.manager, allocated_cores, stop_flag := policy, manager, [], false;
    }

    /** Fails with the manager, and throws on an allocation of nothing. */
    method AllocateCores() returns (ok: bool, threw: bool)
      modifies this`allocated_cores, manager
      ensures Holding() == Started(old(Holding()), policy)
      ensures ok <==> !Fails(old(manager.pinned), old(manager.isolated), policy) && policy.cores > 0
      ensures threw <==> policy.cores == 0
    {
      var cores: seq<Core> := [];
      var r := manager.Allocate(policy);
      if r.NotEnough? {
        manager.Deallocate(cores);
        return false, false;
      }
      cores := r.cores;
      AllocatedIds(old(manager.pinned), old(manager.isolated), policy);
      if cores == [] {
        return false, true;
      }
      allocated_cores := cores;
      return true, false;
    }

    /** A worker that gets no cores is started all the same. */
    method Start() returns (threw: bool)
      modifies this, manager
      ensures Holding() == Started(old(Holding()), policy) && !stop_flag
      ensures threw <==> policy.cores == 0
    {
      stop_flag := false;
      var ok;
      ok, threw := AllocateCores();
    }

    method Stop()
      modifies this, manager
      ensures Holding() == Stopped(old(Holding())) && stop_flag
    {
      stop_flag := true;
      manager.Deallocate(allocated_cores);
      allocated_cores := [];
    }
  }

  /** In the pool of a kind and in the worker's hands, core `x` is found equally often. */
  ghost predicate SameCores(h: Hold, h': Hold) {
    && multiset(h.pinned) + multiset(Ids(h.held, Pinned)) == multiset(h'.pinned) + multiset(Ids(h'.held, Pinned))
    && multiset(h.isolated) + multiset(Ids(h.held, Isolated)) == multiset(h'.isolated) + multiset(Ids(h'.held, Isolated))
  }

  predicate HoldsNoneExclusively(held: seq<Core>) {
    forall i :: 0 <= i < |held| ==> held[i].affinity_type == Normal
  }

  lemma {:induction false} NoneExclusive(held: seq<Core>)
    ensures HoldsNoneExclusively(held) <==> Ids(held, Pinned) == [] && Ids(held, Isolated) == []
  {
    if held != [] {
      NoneExclusive(held[1..]);
      assert HoldsNoneExclusively(held) <==> held[0].affinity_type == Normal && HoldsNoneExclusively(held[1..]) by {
        assert held == [held[0]] + held[1..];
      }
    }
  }

  /**
    Starting a worker loses cores exactly when it gets new ones while holding some it does
    not share: `allocated_cores` is overwritten.
   */
  lemma StartKeepsCoresExactlyWhen(h: Hold, policy: ThreadPolicy)
    ensures SameCores(h, Started(h, policy)) <==>
            Fails(h.pinned, h.isolated, policy) || policy.cores == 0 || HoldsNoneExclusively(h.held)
  {
    NoneExclusive(h.held);
    if !Fails(h.pinned, h.isolated, policy) && policy.cores > 0 {
      AllocateThenDeallocate(h.pinned, h.isolated, policy);
      var h' := Started(h, policy);
      assert multiset(h'.pinned) + multiset(Ids(h'.held, Pinned)) == multiset(h.pinned);
      assert multiset(h'.isolated) + multiset(Ids(h'.held, Isolated)) == multiset(h.isolated);
      Cancel(multiset(h.pinned), Ids(h.held, Pinned));
      Cancel(multiset(h.isolated), Ids(h.held, Isolated));
    }
  }

  lemma Cancel(pool: multiset<int>, ids: seq<int>)
    ensures pool + multiset(ids) == pool <==> ids == []
  {
    if ids != [] {
      assert (pool + multiset(ids))[ids[0]] > pool[ids[0]];
    }
  }

  lemma StopKeepsCores(h: Hold)
    ensures SameCores(h, Stopped(h)) && Stopped(h).held == []
  { }

  // ---------------------------------------------------------------- many workers

  datatype Crew = Crew(pinned: seq<int>, isolated: seq<int>, held: seq<seq<Core>>)

  datatype Action = Start(w: nat) | Stop(w: nat)

  function After(c: Crew, policies: seq<ThreadPolicy>, a: Action): Crew
    requires a.w < |c.held| == |policies|
  {
    var h := Hold(c.pinned, c.isolated, c.held[a.w]);
    var h' := if a.Start? then Started(h, policies[a.w]) else Stopped(h);
    Crew(h'.pinned, h'.isolated, c.held[a.w := h'.held])
  }

  ghost predicate IsRun(crews: seq<Crew>, policies: seq<ThreadPolicy>, actions: seq<Action>) {
    && |crews| == |actions| + 1
    && forall i :: 0 <= i < |actions| ==>
         actions[i].w < |crews[i].held| == |policies| && crews[i + 1] == After(crews[i], policies, actions[i])
  }

  /** No worker is started again while it holds cores that it does not share. */
  ghost predicate NoRestart(crews: seq<Crew>, actions: seq<Action>)
    requires |crews| == |actions| + 1
  {
    forall i :: 0 <= i < |actions| && actions[i].Start? && actions[i].w < |crews[i].held| ==>
      HoldsNoneExclusively(crews[i].held[actions[i].w])
  }

  ghost function HeldBy(held: seq<seq<Core>>, kind: AffinityType, x: int): nat {
    if held == [] then 0 else multiset(Ids(held[0], kind))[x] + HeldBy(held[1..], kind, x)
  }

  lemma {:induction false} HeldByUpdate(held: seq<seq<Core>>, w: nat, cores: seq<Core>, kind: AffinityType, x: int)
    requires w < |held|
    ensures HeldBy(held[w := cores], kind, x) + multiset(Ids(held[w], kind))[x]
         == HeldBy(held, kind, x) + multiset(Ids(cores, kind))[x]
  {
    if w == 0 {
      assert held[w := cores][1..] == held[1..];
    } else {
      HeldByUpdate(held[1..], w - 1, cores, kind, x);
      assert held[w := cores][1..] == held[1..][w - 1 := cores];
    }
  }

  /** How often core `x` is found in the pool of a kind and in the hands of the workers. */
  ghost function Found(c: Crew, kind: AffinityType, x: int): nat {
    multiset(if kind.Pinned? then c.pinned else c.isolated)[x] + HeldBy(c.held, kind, x)
  }

  lemma AfterKeeps(c: Crew, policies: seq<ThreadPolicy>, a: Action, x: int)
    requires a.w < |c.held| == |policies| && (a.Start? ==> HoldsNoneExclusively(c.held[a.w]))
    ensures Found(After(c, policies, a), Pinned, x) == Found(c, Pinned, x)
    ensures Found(After(c, policies, a), Isolated, x) == Found(c, Isolated, x)
  {
    var h := Hold(c.pinned, c.isolated, c.held[a.w]);
    var h' := if a.Start? then Started(h, policies[a.w]) else Stopped(h);
    if a.Start? {
      StartKeepsCoresExactlyWhen(h, policies[a.w]);
    } else {
      StopKeepsCores(h);
    }
    KeptEach(h, h', x);
    HeldByUpdate(c.held, a.w, h'.held, Pinned, x);
    HeldByUpdate(c.held, a.w, h'.held, Isolated, x);
  }

  lemma KeptEach(h: Hold, h': Hold, x: int)
    requires SameCores(h, h')
    ensures multiset(h.pinned)[x] + multiset(Ids(h.held, Pinned))[x]
         == multiset(h'.pinned)[x] + multiset(Ids(h'.held, Pinned))[x]
    ensures multiset(h.isolated)[x] + multiset(Ids(h.held, Isolated))[x]
         == multiset(h'.isolated)[x] + multiset(Ids(h'.held, Isolated))[x]
  {
    assert (multiset(h.pinned) + multiset(Ids(h.held, Pinned)))[x]
        == (multiset(h'.pinned) + multiset(Ids(h'.held, Pinned)))[x];
    assert (multiset(h.isolated) + multiset(Ids(h.held, Isolated)))[x]
        == (multiset(h'.isolated) + multiset(Ids(h'.held, Isolated)))[x];
  }

  lemma RunStep(crews: seq<Crew>, policies: seq<ThreadPolicy>, actions: seq<Action>, i: nat)
    requires IsRun(crews, policies, actions) && NoRestart(crews, actions) && i < |actions|
    ensures |crews| == |actions| + 1
    ensures actions[i].w < |crews[i].held| == |policies| && crews[i + 1] == After(crews[i], policies, actions[i])
    ensures actions[i].Start? ==> HoldsNoneExclusively(crews[i].held[actions[i].w])
  { }

  /** Conservation over whole runs, kind by kind and core by core. */
  lemma {:induction false} CoresConserved(
    crews: seq<Crew>, policies: seq<ThreadPolicy>, actions: seq<Action>, i: nat, x: int)
    requires IsRun(crews, policies, actions) && NoRestart(crews, actions) && i <= |actions|
    ensures |crews| == |actions| + 1
    ensures Found(crews[i], Pinned, x) == Found(crews[0], Pinned, x)
    ensures Found(crews[i], Isolated, x) == Found(crews[0], Isolated, x)
  {
    assert |crews| == |actions| + 1;
    hide *;
    if i > 0 {
      CoresConserved(crews, policies, actions, i - 1, x);
      RunStep(crews, policies, actions, i - 1);
      AfterKeeps(crews[i - 1], policies, actions[i - 1], x);
    }
  }

  predicate NobodyHolds(held: seq<seq<Core>>) {
    forall w :: 0 <= w < |held| ==> held[w] == []
  }

  lemma {:induction false} NothingHeld(held: seq<seq<Core>>, kind: AffinityType, x: int)
    requires NobodyHolds(held)
    ensures HeldBy(held, kind, x) == 0
  {
    if held != [] {
      NothingHeld(held[1..], kind, x);
    }
  }

  lemma {:induction false} HeldAtLeast(held: seq<seq<Core>>, u: nat, v: nat, kind: AffinityType, x: int)
    requires u < |held| && v < |held|
    ensures HeldBy(held, kind, x) >= multiset(Ids(held[u], kind))[x]
    ensures u != v ==> HeldBy(held, kind, x) >= multiset(Ids(held[u], kind))[x] + multiset(Ids(held[v], kind))[x]
  {
    HeldByUpdate(held, u, [], kind, x);
    if u != v {
      HeldByUpdate(held[u := []], v, [], kind, x);
    }
  }

  ghost predicate Exclusive(cores: seq<Core>, x: int) {
    Core(x, Pinned) in cores || Core(x, Isolated) in cores
  }

  lemma {:induction false} InIds(cores: seq<Core>, kind: AffinityType, x: int)
    ensures Core(x, kind) in cores <==> multiset(Ids(cores, kind))[x] > 0
  {
    if cores != [] {
      InIds(cores[1..], kind, x);
      assert cores == [cores[0]] + cores[1..];
    }
  }

  /**
    In a run from idle workers over the cores of a machine that lists each core once, no
    core is held exclusively by two workers, and none that is held so is in a pool.
   */
  lemma ExclusiveMeansExclusive(
    crews: seq<Crew>, policies: seq<ThreadPolicy>, actions: seq<Action>, online: seq<int>, i: nat, u: nat, v: nat, x: int)
    requires IsRun(crews, policies, actions) && NoRestart(crews, actions) && i <= |actions|
    requires NobodyHolds(crews[0].held)
    requires multiset(crews[0].pinned) + multiset(crews[0].isolated) == multiset(online) && multiset(online)[x] <= 1
    requires u < |crews[i].held| && v < |crews[i].held| && Exclusive(crews[i].held[u], x)
    ensures u != v ==> !Exclusive(crews[i].held[v], x)
    ensures x !in crews[i].pinned && x !in crews[i].isolated
  {
    var c := crews[i];
    CoresConserved(crews, policies, actions, i, x);
    NothingHeld(crews[0].held, Pinned, x);
    NothingHeld(crews[0].held, Isolated, x);
    assert (multiset(crews[0].pinned) + multiset(crews[0].isolated))[x] <= 1;
    assert Found(c, Pinned, x) + Found(c, Isolated, x) <= 1;
    HeldAtLeast(c.held, u, v, Pinned, x);
    HeldAtLeast(c.held, u, v, Isolated, x);
    InIds(c.held[u], Pinned, x);
    InIds(c.held[u], Isolated, x);
    InIds(c.held[v], Pinned, x);
    InIds(c.held[v], Isolated, x);
  }

  /** Once everybody has stopped, both pools are back, but for the order. */
  lemma AllStopped(crews: seq<Crew>, policies: seq<ThreadPolicy>, actions: seq<Action>)
    requires IsRun(crews, policies, actions) && NoRestart(crews, actions)
    requires NobodyHolds(crews[0].held) && NobodyHolds(crews[|actions|].held)
    ensures multiset(crews[|actions|].pinned) == multiset(crews[0].pinned)
    ensures multiset(crews[|actions|].isolated) == multiset(crews[0].isolated)
  {
    forall x: int
      ensures multiset(crews[|actions|].pinned)[x] == multiset(crews[0].pinned)[x]
      ensures multiset(crews[|actions|].isolated)[x] == multiset(crews[0].isolated)[x]
    {
      CoresConserved(crews, policies, actions, |actions|, x);
      NothingHeld(crews[0].held, Pinned, x);
      NothingHeld(crews[0].held, Isolated, x);
      NothingHeld(crews[|actions|].held, Pinned, x);
      NothingHeld(crews[|actions|].held, Isolated, x);
    }
  }
}
