/**
  A pool and everything that is made of its blocks: unique buffers, released buffers and
  shared buffers, the last ones worked on by any number of threads. Operations on a unique
  buffer are the business of one thread, and the free list is locked, so these are single
  steps; `shared_buffer` moves by its own steps.

  A destroyed buffer stays in its list as `NOTHING`, which is what `reset` leaves.
 */
module PoolWorld {
  import opened Wrappers
  import opened MemPool
  import SharedBuffer

  /** `given[b]` is what control block `b` was built from. */
  datatype World = World(
    pool: Pool, free: seq<nat>, uniques: seq<Buffer>, released: seq<Buffer>,
    shared: SharedBuffer.State, given: seq<Buffer>)

  datatype Action =
    | Allocate
    | MoveConstruct(o: nat)
    | MoveAssign(d: nat, o: nat)
    | Swap(d: nat, o: nat)
    | Reset(d: nat)
    | Release(d: nat)
    | UniqueFromReleased(r: nat)
    | CallReleasedDeleter(r: nat)
    | SharedFromReleased(t: nat, r: nat)
    | SharedFromUnique(t: nat, o: nat)
    | Shared(a: SharedBuffer.Action)

  function ShareCall(t: nat, b: Buffer): SharedBuffer.Action {
    SharedBuffer.Call(t, SharedBuffer.Construct(b.data.Some?, b.count, b.deleter.ReturnTo?))
  }

  predicate Enabled(w: World, a: Action) {
    match a
    case Allocate => true
    case MoveConstruct(o) => o < |w.uniques|
    case MoveAssign(d, o) => d < |w.uniques| && o < |w.uniques|
    case Swap(d, o) => d < |w.uniques| && o < |w.uniques|
    case Reset(d) => d < |w.uniques|
    case Release(d) => d < |w.uniques|
    case UniqueFromReleased(r) => r < |w.released|
    case CallReleasedDeleter(r) => r < |w.released|
    case SharedFromReleased(t, r) => r < |w.released| && SharedBuffer.Enabled(w.shared, ShareCall(t, w.released[r]))
    case SharedFromUnique(t, o) => o < |w.uniques| && SharedBuffer.Enabled(w.shared, ShareCall(t, w.uniques[o]))
    case Shared(a) => SharedBuffer.Enabled(w.shared, a) && (a.Call? ==> !a.op.Construct?)
  }

  /** The control block whose deleter a step calls with the block's pointer. */
  function Invoked(s: SharedBuffer.State, a: SharedBuffer.Action): Option<nat>
    requires SharedBuffer.Enabled(s, a)
  {
    if a.Step? && s.threads[a.t].CallDeleter? && s.threads[a.t].b < |s.blocks| && s.blocks[s.threads[a.t].b].held then
      Some(s.threads[a.t].b)
    else None
  }

  /** The control block whose contents a step moves out to the caller of `release`. */
  function MovedOut(s: SharedBuffer.State, a: SharedBuffer.Action): Option<nat>
    requires SharedBuffer.Enabled(s, a)
  {
    if a.Step? && s.threads[a.t].MoveOut? then Some(s.threads[a.t].b) else None
  }

  function Share(w: World, t: nat, b: Buffer): World
    requires SharedBuffer.Enabled(w.shared, ShareCall(t, b))
  {
    match SharedBuffer.Perform(w.shared, ShareCall(t, b))
    case Fault => w
    case Next(s) => w.(shared := s, given := if |s.blocks| > |w.shared.blocks| then w.given + [b] else w.given)
  }

  function SharedNext(w: World, a: SharedBuffer.Action): World
    requires SharedBuffer.Enabled(w.shared, a)
  {
    match SharedBuffer.Perform(w.shared, a)
    case Fault => w
    case Next(s) =>
      var invoked, out := Invoked(w.shared, a), MovedOut(w.shared, a);
      w.(shared := s,
         free := if invoked.Some? && invoked.value < |w.given| then w.free + GivenBack(w.given[invoked.value]) else w.free,
         released := if out.Some? && out.value < |w.given| then w.released + [w.given[out.value]] else w.released)
  }

  function Next(w: World, a: Action): World
    requires Enabled(w, a)
  {
    match a
    case Allocate =>
      if w.free == [] then w
      else
        w.(free := w.free[1..],
           uniques := w.uniques + [Owning(w.free[0], w.pool.blockSize, w.pool.location, w.pool)])
    case MoveConstruct(o) => w.(uniques := w.uniques[o := NOTHING] + [w.uniques[o]])
    case MoveAssign(d, o) =>
      if d == o then w
      else w.(free := w.free + GivenBack(w.uniques[d]), uniques := w.uniques[d := w.uniques[o]][o := NOTHING])
    case Swap(d, o) => w.(uniques := w.uniques[d := w.uniques[o]][o := w.uniques[d]])
    case Reset(d) =>
      w.(free := w.free + GivenBack(w.uniques[d]), uniques := w.uniques[d := AfterReset(w.uniques[d])])
    case Release(d) => w.(uniques := w.uniques[d := NOTHING], released := w.released + [w.uniques[d]])
    case UniqueFromReleased(r) => w.(released := w.released[r := NOTHING], uniques := w.uniques + [w.released[r]])
    case CallReleasedDeleter(r) =>
      w.(free := w.free + GivenBack(w.released[r]), released := w.released[r := NOTHING])
    case SharedFromReleased(t, r) => Share(w, t, w.released[r]).(released := w.released[r := NOTHING])
    case SharedFromUnique(t, o) => Share(w, t, w.uniques[o]).(uniques := w.uniques[o := NOTHING])
    case Shared(a) => SharedNext(w, a)
  }

  // ---------------------------------------------------------------- who owns what

  /** The blocks a list of buffers would give back, were they all dropped. */
  ghost function Blocks(buffers: seq<Buffer>): seq<nat> {
    if buffers == [] then [] else GivenBack(buffers[0]) + Blocks(buffers[1..])
  }

  /** How often block `p` is among what a buffer would give back. */
  function Here(b: Buffer, p: nat): nat {
    if b.data == Some(p) && b.deleter.ReturnTo? then 1 else 0
  }

  ghost function Count(buffers: seq<Buffer>, p: nat): nat {
    if buffers == [] then 0 else Here(buffers[0], p) + Count(buffers[1..], p)
  }

  /** The control block still has its deleter, and has not called it. */
  predicate Charged(c: SharedBuffer.Control) {
    c.held && c.invoked == 0 && c.handed == 0
  }

  ghost function SharedHolds(s: SharedBuffer.State, given: seq<Buffer>): (bs: seq<Buffer>)
    requires |given| == |s.blocks|
    ensures |bs| == |given|
  {
    seq(|given|, b requires 0 <= b < |given| => if Charged(s.blocks[b]) then given[b] else NOTHING)
  }

  /** The blocks that some buffer owns. */
  ghost function Owned(w: World): seq<nat>
    requires |w.given| == |w.shared.blocks|
  {
    Blocks(w.uniques) + Blocks(w.released) + Blocks(SharedHolds(w.shared, w.given))
  }

  /** In how many places block `p` is. */
  ghost function Places(w: World, p: nat): nat
    requires |w.given| == |w.shared.blocks|
  {
    multiset(w.free)[p] + Count(w.uniques, p) + Count(w.released, p) + Count(SharedHolds(w.shared, w.given), p)
  }

  /** A buffer made of a block of the pool. */
  ghost predicate OfPool(pool: Pool, b: Buffer) {
    b.data.Some? && b == Owning(b.data.value, pool.blockSize, pool.location, pool)
  }

  ghost predicate AllOfPool(pool: Pool, bs: seq<Buffer>) {
    forall i :: 0 <= i < |bs| ==> bs[i] == NOTHING || OfPool(pool, bs[i])
  }

  ghost predicate GivenOfPool(w: World) {
    && |w.given| == |w.shared.blocks|
    && forall b :: 0 <= b < |w.given| ==> OfPool(w.pool, w.given[b]) && w.shared.blocks[b].nonEmpty
  }

  ghost predicate Inv(w: World) {
    && w.pool.blockSize > 0
    && SharedBuffer.Inv(w.shared)
    && AllOfPool(w.pool, w.uniques)
    && AllOfPool(w.pool, w.released)
    && GivenOfPool(w)
    && forall p: nat :: Places(w, p) == multiset(Carved(w.pool.blockSize, w.pool.blockCount))[p]
  }

  // ---------------------------------------------------------------- counting blocks

  lemma {:induction false} CountAppend(bs: seq<Buffer>, b: Buffer, p: nat)
    ensures Count(bs + [b], p) == Count(bs, p) + Here(b, p)
  {
    if bs != [] {
      CountAppend(bs[1..], b, p);
      assert (bs + [b])[1..] == bs[1..] + [b];
    } else {
      assert bs + [b] == [b];
    }
  }

  lemma {:induction false} CountUpdate(bs: seq<Buffer>, i: nat, b: Buffer, p: nat)
    requires i < |bs|
    ensures Count(bs[i := b], p) + Here(bs[i], p) == Count(bs, p) + Here(b, p)
  {
    if i == 0 {
      assert bs[i := b][1..] == bs[1..];
    } else {
      CountUpdate(bs[1..], i - 1, b, p);
      assert bs[i := b][1..] == bs[1..][i - 1 := b];
    }
  }

  /** A buffer taken out of one list and put at the end of it. */
  lemma CountMove(bs: seq<Buffer>, o: nat, p: nat)
    requires o < |bs|
    ensures Count(bs[o := NOTHING] + [bs[o]], p) == Count(bs, p)
  {
    CountUpdate(bs, o, NOTHING, p);
    CountAppend(bs[o := NOTHING], bs[o], p);
  }

  lemma CountPair(bs: seq<Buffer>, d: nat, o: nat, b: Buffer, p: nat)
    requires d < |bs| && o < |bs| && (d == o ==> b == bs[o])
    ensures Count(bs[d := bs[o]][o := b], p) + Here(bs[d], p) == Count(bs, p) + Here(b, p)
  {
    CountUpdate(bs, d, bs[o], p);
    CountUpdate(bs[d := bs[o]], o, b, p);
  }

  lemma FreeAppend(free: seq<nat>, b: Buffer, p: nat)
    ensures multiset(free + GivenBack(b))[p] == multiset(free)[p] + Here(b, p)
  { }

  lemma {:induction false} CountIsBlocks(bs: seq<Buffer>, p: nat)
    ensures multiset(Blocks(bs))[p] == Count(bs, p)
  {
    if bs != [] {
      CountIsBlocks(bs[1..], p);
    }
  }

  lemma PlacesAreOwned(w: World, p: nat)
    requires |w.given| == |w.shared.blocks|
    ensures multiset(w.free + Owned(w))[p] == Places(w, p)
    ensures multiset(Owned(w))[p] == Places(w, p) - multiset(w.free)[p]
  {
    CountIsBlocks(w.uniques, p);
    CountIsBlocks(w.released, p);
    CountIsBlocks(SharedHolds(w.shared, w.given), p);
  }

  // ---------------------------------------------------------------- every step conserves

  lemma AllocatePlaces(w: World, p: nat)
    requires |w.given| == |w.shared.blocks|
    ensures Places(Next(w, Allocate), p) == Places(w, p)
  {
    hide SharedHolds;
    if w.free != [] {
      assert w.free == [w.free[0]] + w.free[1..];
      CountAppend(w.uniques, Next(w, Allocate).uniques[|w.uniques|], p);
    }
  }

  lemma MovePlaces(w: World, a: Action, p: nat)
    requires |w.given| == |w.shared.blocks| && Enabled(w, a) && (a.MoveConstruct? || a.Swap?)
    ensures Places(Next(w, a), p) == Places(w, p)
  {
    hide SharedHolds;
    hide Count;
    match a {
      case MoveConstruct(o) => CountMove(w.uniques, o, p);
      case Swap(d, o) => CountPair(w.uniques, d, o, w.uniques[d], p);
    }
  }

  lemma DropPlaces(w: World, a: Action, p: nat)
    requires |w.given| == |w.shared.blocks| && Enabled(w, a) && (a.MoveAssign? || a.Reset?)
    ensures Places(Next(w, a), p) == Places(w, p)
  {
    hide SharedHolds;
    hide Count;
    FreeAppend(w.free, w.uniques[a.d], p);
    match a {
      case MoveAssign(d, o) =>
        if d != o {
          CountPair(w.uniques, d, o, NOTHING, p);
        }
      case Reset(d) => CountUpdate(w.uniques, d, AfterReset(w.uniques[d]), p);
    }
  }

  lemma ReleasedStepPlaces(w: World, a: Action, p: nat)
    requires Inv(w) && Enabled(w, a)
    requires a.Release? || a.UniqueFromReleased? || a.CallReleasedDeleter?
    ensures Places(Next(w, a), p) == Places(w, p)
  {
    match a {
      case Release(d) =>
        CountUpdate(w.uniques, d, NOTHING, p);
        CountAppend(w.released, w.uniques[d], p);
      case UniqueFromReleased(r) =>
        CountUpdate(w.released, r, NOTHING, p);
        CountAppend(w.uniques, w.released[r], p);
      case CallReleasedDeleter(r) =>
        FreeAppend(w.free, w.released[r], p);
        CountUpdate(w.released, r, NOTHING, p);
    }
  }

  /** Steps that leave the shared buffers alone. */
  lemma PrivateStepKeeps(w: World, a: Action)
    requires Inv(w) && Enabled(w, a) && !a.Shared? && !a.SharedFromReleased? && !a.SharedFromUnique?
    ensures Inv(Next(w, a))
  {
    forall p: nat
      ensures Places(Next(w, a), p) == Places(w, p)
    {
      if a.Release? || a.UniqueFromReleased? || a.CallReleasedDeleter? {
        ReleasedStepPlaces(w, a, p);
      } else if a.Allocate? {
        AllocatePlaces(w, p);
      } else if a.MoveConstruct? || a.Swap? {
        MovePlaces(w, a, p);
      } else {
        DropPlaces(w, a, p);
      }
    }
  }

  /** Converting a buffer of the pool puts its block in the charge of a new control block. */
  lemma ShareHolds(w: World, t: nat, b: Buffer)
    requires Inv(w) && SharedBuffer.Enabled(w.shared, ShareCall(t, b)) && (b == NOTHING || OfPool(w.pool, b))
    ensures var w' := Share(w, t, b);
            && SharedBuffer.Inv(w'.shared) && GivenOfPool(w')
            && SharedHolds(w'.shared, w'.given) == SharedHolds(w.shared, w.given) + (if b == NOTHING then [] else [b])
  {
    SharedBuffer.PerformKeeps(w.shared, ShareCall(t, b));
  }

  /** What a conversion is made from. */
  function Converted(w: World, a: Action): Buffer
    requires Enabled(w, a) && (a.SharedFromReleased? || a.SharedFromUnique?)
  {
    if a.SharedFromUnique? then w.uniques[a.o] else w.released[a.r]
  }

  /** Thread `t` has a new handle, to a new control block in charge of `b` if that was not empty. */
  ghost predicate TakesCharge(w: World, t: nat, b: Buffer, w': World) {
    var s, s', n := w.shared, w'.shared, |w.shared.handles|;
    && |s'.handles| == |s'.owner| == n + 1 && s'.owner[n] == t
    && (forall h :: 0 <= h < n && h < |s.owner| ==> s'.handles[h] == s.handles[h] && s'.owner[h] == s.owner[h])
    && if b == NOTHING then
         s'.handles[n] == None && s'.blocks == s.blocks && w'.given == w.given
       else
         var c := |s.blocks|;
         && s'.handles[n] == Some(c) && |s'.blocks| == c + 1 && |w'.given| == c + 1
         && w'.given[c] == b && s'.blocks[c].ref == 1 && Charged(s'.blocks[c])
         && forall x :: 0 <= x < c && x < |w.given| ==> s'.blocks[x] == s.blocks[x] && w'.given[x] == w.given[x]
  }

  /**
    A conversion empties the buffer it is made from and gives its thread a handle to a
    control block in charge of what was in it.
   */
  lemma ConversionTakesCharge(w: World, a: Action)
    requires Inv(w) && Enabled(w, a) && (a.SharedFromReleased? || a.SharedFromUnique?)
    ensures var w' := Next(w, a);
            && TakesCharge(w, a.t, Converted(w, a), w') && w'.free == w.free
            && (if a.SharedFromUnique? then
                  w'.uniques == w.uniques[a.o := NOTHING] && w'.released == w.released
                else
                  w'.released == w.released[a.r := NOTHING] && w'.uniques == w.uniques)
  {
    assert SharedBuffer.Inv(w.shared) && |w.shared.handles| == |w.shared.owner|;
    hide SharedBuffer.Inv;
  }

  lemma ConversionKeeps(w: World, a: Action)
    requires Inv(w) && Enabled(w, a) && (a.SharedFromReleased? || a.SharedFromUnique?)
    ensures Inv(Next(w, a)) && TakesCharge(w, a.t, Converted(w, a), Next(w, a))
    ensures Next(w, a).free == w.free
    ensures if a.SharedFromUnique? then Next(w, a).uniques == w.uniques[a.o := NOTHING]
            else Next(w, a).released == w.released[a.r := NOTHING]
  {
    ConversionTakesCharge(w, a);
    hide TakesCharge;
    var list, i := if a.SharedFromUnique? then w.uniques else w.released, if a.SharedFromUnique? then a.o else a.r;
    ShareHolds(w, a.t, list[i]);
    forall p: nat
      ensures Places(Next(w, a), p) == Places(w, p)
    {
      CountUpdate(list, i, NOTHING, p);
      CountAppend(SharedHolds(w.shared, w.given), list[i], p);
    }
  }

  /** A step of a shared buffer takes a block out of charge exactly when it calls or moves out the deleter. */
  lemma ChargesAfter(s: SharedBuffer.State, a: SharedBuffer.Action, b: nat)
    requires SharedBuffer.Inv(s) && SharedBuffer.Enabled(s, a) && (a.Call? ==> !a.op.Construct?) && b < |s.blocks|
    requires s.blocks[b].nonEmpty
    ensures var r := SharedBuffer.Perform(s, a);
            && r.Next? && SharedBuffer.Inv(r.s) && |r.s.blocks| == |s.blocks| && r.s.blocks[b].nonEmpty
            && (Charged(r.s.blocks[b]) <==>
                  Charged(s.blocks[b]) && Invoked(s, a) != Some(b) && MovedOut(s, a) != Some(b))
            && ((Invoked(s, a) == Some(b) || MovedOut(s, a) == Some(b)) ==> Charged(s.blocks[b]))
  {
    SharedBuffer.PerformKeeps(s, a);
    assert SharedBuffer.ThreadInv(s, a.t);
    hide SharedBuffer.Inv;
    if a.Step? {
      StepCharges(s, a.t, b);
    } else {
      CallCharges(s, a.t, a.op, b);
    }
  }

  lemma StepCharges(s: SharedBuffer.State, t: nat, b: nat)
    requires SharedBuffer.Enabled(s, SharedBuffer.Step(t)) && b < |s.blocks| && s.blocks[b].nonEmpty
    requires SharedBuffer.StepNext(s, t).Next? && |s.handles| == |s.owner| && SharedBuffer.ThreadInv(s, t)
    ensures var s', a := SharedBuffer.StepNext(s, t).s, SharedBuffer.Step(t);
            && |s'.blocks| == |s.blocks| && s'.blocks[b].nonEmpty
            && (Charged(s'.blocks[b]) <==>
                  Charged(s.blocks[b]) && Invoked(s, a) != Some(b) && MovedOut(s, a) != Some(b))
            && ((Invoked(s, a) == Some(b) || MovedOut(s, a) == Some(b)) ==> Charged(s.blocks[b]))
  { }

  lemma CallCharges(s: SharedBuffer.State, t: nat, op: SharedBuffer.Operation, b: nat)
    requires SharedBuffer.Enabled(s, SharedBuffer.Call(t, op)) && !op.Construct? && b < |s.blocks|
    requires SharedBuffer.CallNext(s, t, op).Next?
    ensures var s' := SharedBuffer.CallNext(s, t, op).s;
            |s'.blocks| == |s.blocks| && s'.blocks[b] == s.blocks[b].(ref := s'.blocks[b].ref)
  { }

  /** The charges after a step: all those before it, but for the one called or moved out. */
  lemma SharedStepHolds(w: World, a: SharedBuffer.Action)
    requires Inv(w) && Enabled(w, Shared(a))
    ensures var w' := Next(w, Shared(a));
            var gone := if Invoked(w.shared, a).Some? then Invoked(w.shared, a) else MovedOut(w.shared, a);
            && SharedBuffer.Inv(w'.shared) && GivenOfPool(w')
            && (gone == None ==>
                  w' == w.(shared := w'.shared) && SharedHolds(w'.shared, w'.given) == SharedHolds(w.shared, w.given))
            && (gone.Some? ==>
                  && gone.value < |w.given| && SharedHolds(w.shared, w.given)[gone.value] == w.given[gone.value]
                  && SharedHolds(w'.shared, w'.given) == SharedHolds(w.shared, w.given)[gone.value := NOTHING]
                  && w' == if Invoked(w.shared, a).Some? then
                       w.(shared := w'.shared, free := w.free + GivenBack(w.given[gone.value]))
                     else w.(shared := w'.shared, released := w.released + [w.given[gone.value]]))
  {
    var w' := Next(w, Shared(a));
    SharedBuffer.PerformKeeps(w.shared, a);
    SharedCountUnchanged(w.shared, a);
    forall b | 0 <= b < |w.given|
      ensures w'.shared.blocks[b].nonEmpty
      ensures Charged(w'.shared.blocks[b]) <==>
              Charged(w.shared.blocks[b]) && Invoked(w.shared, a) != Some(b) && MovedOut(w.shared, a) != Some(b)
      ensures (Invoked(w.shared, a) == Some(b) || MovedOut(w.shared, a) == Some(b)) ==> Charged(w.shared.blocks[b])
    {
      ChargesAfter(w.shared, a, b);
    }
  }

  lemma SharedStepKeeps(w: World, a: SharedBuffer.Action)
    requires Inv(w) && Enabled(w, Shared(a))
    ensures Inv(Next(w, Shared(a)))
  {
    var w' := Next(w, Shared(a));
    SharedStepHolds(w, a);
    var gone := if Invoked(w.shared, a).Some? then Invoked(w.shared, a) else MovedOut(w.shared, a);
    if gone.Some? {
      forall p: nat
        ensures Places(w', p) == Places(w, p)
      {
        CountUpdate(SharedHolds(w.shared, w.given), gone.value, NOTHING, p);
        FreeAppend(w.free, w.given[gone.value], p);
        CountAppend(w.released, w.given[gone.value], p);
      }
    }
  }

  lemma SharedCountUnchanged(s: SharedBuffer.State, a: SharedBuffer.Action)
    requires SharedBuffer.Inv(s) && SharedBuffer.Enabled(s, a) && (a.Call? ==> !a.op.Construct?)
    ensures SharedBuffer.Perform(s, a).Next? && |SharedBuffer.Perform(s, a).s.blocks| == |s.blocks|
    ensures Invoked(s, a).Some? ==> Invoked(s, a).value < |s.blocks|
    ensures MovedOut(s, a).Some? ==> MovedOut(s, a).value < |s.blocks|
  {
    SharedBuffer.PerformKeeps(s, a);
    assert SharedBuffer.ThreadInv(s, a.t);
  }

  lemma StepKeeps(w: World, a: Action)
    requires Inv(w) && Enabled(w, a)
    ensures Inv(Next(w, a)) && Next(w, a).pool == w.pool
  {
    match a {
      case Shared(x) => SharedStepKeeps(w, x);
      case SharedFromReleased(_, _) => ConversionKeeps(w, a);
      case SharedFromUnique(_, _) => ConversionKeeps(w, a);
      case _ => PrivateStepKeeps(w, a);
    }
  }

  // ---------------------------------------------------------------- where a block goes

  datatype Place = Free | InUnique(i: nat) | InReleased(i: nat) | InControl(b: nat)

  /** Block `p` is in that place. */
  ghost predicate At(w: World, place: Place, p: nat) {
    match place
    case Free => p in w.free
    case InUnique(i) => i < |w.uniques| && Here(w.uniques[i], p) == 1
    case InReleased(i) => i < |w.released| && Here(w.released[i], p) == 1
    case InControl(b) => b < |w.given| == |w.shared.blocks| && Charged(w.shared.blocks[b]) && Here(w.given[b], p) == 1
  }

  /** Where an action takes the block that is in a place: new buffers and control blocks come last. */
  function Goes(w: World, a: Action, place: Place, p: nat): Place
    requires Enabled(w, a)
  {
    match a
    case Allocate => if place == Free && w.free != [] && p == w.free[0] then InUnique(|w.uniques|) else place
    case MoveConstruct(o) => if place == InUnique(o) then InUnique(|w.uniques|) else place
    case MoveAssign(d, o) =>
      if d == o then place
      else if place == InUnique(d) then Free
      else if place == InUnique(o) then InUnique(d)
      else place
    case Swap(d, o) => if place == InUnique(d) then InUnique(o) else if place == InUnique(o) then InUnique(d) else place
    case Reset(d) => if place == InUnique(d) then Free else place
    case Release(d) => if place == InUnique(d) then InReleased(|w.released|) else place
    case UniqueFromReleased(r) => if place == InReleased(r) then InUnique(|w.uniques|) else place
    case CallReleasedDeleter(r) => if place == InReleased(r) then Free else place
    case SharedFromReleased(_, r) => if place == InReleased(r) then InControl(|w.given|) else place
    case SharedFromUnique(_, o) => if place == InUnique(o) then InControl(|w.given|) else place
    case Shared(x) =>
      if !place.InControl? then place
      else if Invoked(w.shared, x) == Some(place.b) then Free
      else if MovedOut(w.shared, x) == Some(place.b) then InReleased(|w.released|)
      else place
  }

  lemma CountAt(bs: seq<Buffer>, i: nat, j: nat, p: nat)
    requires i < |bs| && j < |bs|
    ensures Count(bs, p) >= Here(bs[i], p)
    ensures i != j ==> Count(bs, p) >= Here(bs[i], p) + Here(bs[j], p)
  {
    CountUpdate(bs, i, NOTHING, p);
    if i != j {
      CountUpdate(bs[i := NOTHING], j, NOTHING, p);
    }
  }

  lemma PlacesOnce(w: World, p: nat)
    requires Inv(w)
    ensures Places(w, p) <= 1
  {
    var c := Carved(w.pool.blockSize, w.pool.blockCount);
    assert c[..w.pool.blockCount] == c;
    CarvedOnce(w.pool.blockSize, w.pool.blockCount, w.pool.blockCount, p);
  }

  /** How many of a list's buffers a place accounts for. */
  lemma PlaceCounts(w: World, place: Place, p: nat)
    requires Inv(w) && At(w, place, p)
    ensures match place
            case Free => multiset(w.free)[p] >= 1
            case InUnique(i) => Count(w.uniques, p) >= 1
            case InReleased(i) => Count(w.released, p) >= 1
            case InControl(b) => Count(SharedHolds(w.shared, w.given), p) >= 1
  {
    match place {
      case Free =>
      case InUnique(i) => CountAt(w.uniques, i, i, p);
      case InReleased(i) => CountAt(w.released, i, i, p);
      case InControl(b) => CountAt(SharedHolds(w.shared, w.given), b, b, p);
    }
  }

  /** No block is in two places. */
  lemma OnePlace(w: World, here: Place, there: Place, p: nat)
    requires Inv(w) && At(w, here, p) && At(w, there, p)
    ensures here == there
  {
    PlacesOnce(w, p);
    PlaceCounts(w, here, p);
    PlaceCounts(w, there, p);
    if here.InUnique? && there.InUnique? {
      CountAt(w.uniques, here.i, there.i, p);
    } else if here.InReleased? && there.InReleased? {
      CountAt(w.released, here.i, there.i, p);
    } else if here.InControl? && there.InControl? {
      CountAt(SharedHolds(w.shared, w.given), here.b, there.b, p);
    }
    hide SharedBuffer.Inv;
  }

  /** Every operation takes every block where it should, and leaves all others where they are. */
  lemma BlockGoes(w: World, a: Action, place: Place, p: nat)
    requires Inv(w) && Enabled(w, a) && At(w, place, p)
    ensures At(Next(w, a), Goes(w, a, place, p), p)
  {
    match a {
      case Shared(x) => SharedBlockGoes(w, x, place, p);
      case SharedFromReleased(_, _) =>
        ConvertedBlockGoes(w, a, place, p);
      case SharedFromUnique(_, _) =>
        ConvertedBlockGoes(w, a, place, p);
      case _ => PrivateBlockGoes(w, a, place, p);
    }
  }

  lemma PrivateBlockGoes(w: World, a: Action, place: Place, p: nat)
    requires Inv(w) && Enabled(w, a) && At(w, place, p)
    requires !a.Shared? && !a.SharedFromReleased? && !a.SharedFromUnique?
    ensures At(Next(w, a), Goes(w, a, place, p), p)
  {
    hide SharedBuffer.Inv;
    hide Places;
  }

  lemma ConvertedBlockGoes(w: World, a: Action, place: Place, p: nat)
    requires Inv(w) && Enabled(w, a) && At(w, place, p) && (a.SharedFromReleased? || a.SharedFromUnique?)
    ensures At(Next(w, a), Goes(w, a, place, p), p)
  {
    hide SharedBuffer.Inv;
    hide Places;
    hide Next;
    ConversionTakesCharge(w, a);
    GoesConverted(w, a, place, p);
  }

  lemma GoesConverted(w: World, a: Action, place: Place, p: nat)
    requires Enabled(w, a) && (a.SharedFromReleased? || a.SharedFromUnique?)
    ensures Goes(w, a, place, p)
         == if place == (if a.SharedFromUnique? then InUnique(a.o) else InReleased(a.r)) then InControl(|w.given|) else place
  { }

  lemma SharedBlockGoes(w: World, a: SharedBuffer.Action, place: Place, p: nat)
    requires Inv(w) && Enabled(w, Shared(a)) && At(w, place, p)
    ensures At(Next(w, Shared(a)), Goes(w, Shared(a), place, p), p)
  {
    hide SharedBuffer.Inv;
    hide Places;
    SharedStepHolds(w, a);
    if place.InControl? {
      ChargesAfter(w.shared, a, place.b);
    }
  }

  // ---------------------------------------------------------------- whole runs

  ghost predicate IsRun(worlds: seq<World>, actions: seq<Action>) {
    && |worlds| == |actions| + 1
    && forall i :: 0 <= i < |actions| ==> Enabled(worlds[i], actions[i]) && worlds[i + 1] == Next(worlds[i], actions[i])
  }

  /** A pool just built, and `threads` threads without any buffers. */
  ghost predicate Start(w: World, threads: nat) {
    && w.pool.blockSize > 0
    && w == World(w.pool, Carved(w.pool.blockSize, w.pool.blockCount), [], [], SharedBuffer.Start(threads), [])
  }

  lemma {:induction false} AlwaysInv(worlds: seq<World>, actions: seq<Action>, threads: nat, i: nat)
    requires IsRun(worlds, actions) && Start(worlds[0], threads) && i <= |actions|
    ensures Inv(worlds[i]) && worlds[i].pool == worlds[0].pool
  {
    if i > 0 {
      AlwaysInv(worlds, actions, threads, i - 1);
      StepKeeps(worlds[i - 1], actions[i - 1]);
    }
  }

  /** Blocks start a whole number of block sizes apart. */
  lemma CarvedApart(size: nat, count: nat, i: nat, j: nat)
    requires i < j < count
    ensures Carved(size, count)[i] + size <= Carved(size, count)[j]
    ensures Carved(size, count)[j] + size <= size * count
  {
    var d, e := j - i - 1, count - j - 1;
    assert j * size == i * size + size + d * size;
    assert size * count == j * size + size + e * size;
  }

  lemma {:induction false} CarvedOnce(size: nat, count: nat, i: nat, p: nat)
    requires size > 0 && i <= count
    ensures multiset(Carved(size, count)[..i])[p] <= 1
  {
    var c := Carved(size, count);
    if i > 0 {
      CarvedOnce(size, count, i - 1, p);
      assert c[..i] == c[..i - 1] + [c[i - 1]];
      if c[i - 1] == p && p in multiset(c[..i - 1]) {
        var k :| 0 <= k < i - 1 && c[..i - 1][k] == p;
        CarvedApart(size, count, k, i - 1);
        assert false;
      }
    }
  }

  /** Two positions of a duplicate-free list of blocks of one pool hold blocks that do not overlap. */
  lemma PermutedApart(size: nat, count: nat, s: seq<nat>, i: nat, j: nat)
    requires size > 0 && multiset(s) == multiset(Carved(size, count)) && i < |s| && j < |s| && i != j
    ensures s[i] + size <= s[j] || s[j] + size <= s[i]
    ensures s[i] + size <= size * count
  {
    var c := Carved(size, count);
    assert s[i] in multiset(s) && s[j] in multiset(s);
    var a :| 0 <= a < |c| && c[a] == s[i];
    var b :| 0 <= b < |c| && c[b] == s[j];
    assert c[..count] == c;
    if a == b {
      CarvedOnce(size, count, count, s[i]);
      TwicePresent(s, i, j);
      assert false;
    }
    CarvedApart(size, count, if a < b then a else b, if a < b then b else a);
  }

  lemma TwicePresent(s: seq<nat>, i: nat, j: nat)
    requires i < |s| && j < |s| && i != j && s[i] == s[j]
    ensures multiset(s)[s[i]] >= 2
  {
    var k, m := if i < j then i else j, if i < j then j else i;
    assert s == s[..m] + s[m..];
    assert s[..m][k] == s[i] && s[m..][0] == s[i];
    assert s[i] in multiset(s[..m]) && s[i] in multiset(s[m..]);
    assert multiset(s) == multiset(s[..m]) + multiset(s[m..]);
  }

  lemma AllPlaces(w: World)
    requires Inv(w)
    ensures multiset(w.free + Owned(w)) == multiset(Carved(w.pool.blockSize, w.pool.blockCount))
  {
    forall p: nat
      ensures multiset(w.free + Owned(w))[p] == multiset(Carved(w.pool.blockSize, w.pool.blockCount))[p]
    {
      PlacesAreOwned(w, p);
    }
  }

  /**
    Conservation: in every run, the free blocks together with the owned ones are all the
    blocks carved at construction, each exactly once, and no two of them overlap.
   */
  lemma Conservation(worlds: seq<World>, actions: seq<Action>, threads: nat, i: nat, j: nat, k: nat)
    requires IsRun(worlds, actions) && Start(worlds[0], threads) && i <= |actions|
    ensures |worlds[i].given| == |worlds[i].shared.blocks|
    ensures var w, pool := worlds[i], worlds[0].pool;
            var all := w.free + Owned(w);
            && multiset(all) == multiset(Carved(pool.blockSize, pool.blockCount))
            && (j < |all| && k < |all| && j != k ==>
                  all[j] + pool.blockSize <= all[k] || all[k] + pool.blockSize <= all[j])
  {
    AlwaysInv(worlds, actions, threads, i);
    var w, pool := worlds[i], worlds[0].pool;
    var all := w.free + Owned(w);
    AllPlaces(w);
    if j < |all| && k < |all| && j != k {
      PermutedApart(pool.blockSize, pool.blockCount, all, j, k);
    }
  }

  /** A shared handle keeps its block in the charge of its control block. */
  lemma HandleOwnsItsBlock(worlds: seq<World>, actions: seq<Action>, threads: nat, i: nat, h: nat)
    requires IsRun(worlds, actions) && Start(worlds[0], threads) && i <= |actions|
    requires h < |worlds[i].shared.handles| && worlds[i].shared.handles[h].Some?
    ensures var w, b := worlds[i], worlds[i].shared.handles[h].value;
            && b < |w.given| == |w.shared.blocks| && Charged(w.shared.blocks[b])
            && w.given[b].data.Some? && w.given[b].data.value in Owned(w)
            && w.given[b].data.value !in w.free
  {
    AlwaysInv(worlds, actions, threads, i);
    var w, b := worlds[i], worlds[i].shared.handles[h].value;
    SharedBuffer.HandleIsAlive(w.shared, h);
    assert SharedBuffer.BlockInv(w.shared, b);
    var p := w.given[b].data.value;
    var holds := SharedHolds(w.shared, w.given);
    assert holds[b] == w.given[b];
    CountUpdate(holds, b, NOTHING, p);
    OwnedIsNotFree(w, p);
  }

  lemma OwnedIsNotFree(w: World, p: nat)
    requires Inv(w) && Places(w, p) > multiset(w.free)[p]
    ensures p in Owned(w) && p !in w.free
  {
    var c := Carved(w.pool.blockSize, w.pool.blockCount);
    assert c[..w.pool.blockCount] == c;
    CarvedOnce(w.pool.blockSize, w.pool.blockCount, w.pool.blockCount, p);
    PlacesAreOwned(w, p);
    assert p in multiset(Owned(w));
    assert p !in multiset(w.free);
  }

  /** Nothing in a list of buffers that are all empty. */
  lemma {:induction false} NoBlocks(bs: seq<Buffer>)
    requires forall i :: 0 <= i < |bs| ==> bs[i] == NOTHING
    ensures Blocks(bs) == []
  {
    if bs != [] {
      NoBlocks(bs[1..]);
    }
  }

  lemma IdleUncharged(s: SharedBuffer.State, b: nat)
    requires SharedBuffer.Inv(s) && b < |s.blocks| && s.blocks[b].nonEmpty
    requires forall h :: 0 <= h < |s.handles| ==> s.handles[h] == None
    requires forall t :: 0 <= t < |s.threads| ==> s.threads[t] == SharedBuffer.Idle
    ensures !Charged(s.blocks[b])
  {
    assert SharedBuffer.BlockInv(s, b);
    var x := Some(b);
    assert x !in s.handles && x !in SharedBuffer.InFlights(s.threads) && x !in SharedBuffer.Dyings(s.threads);
  }

  /** When every buffer has been dropped, every block is back in the pool. */
  lemma AllComeBack(worlds: seq<World>, actions: seq<Action>, threads: nat, i: nat)
    requires IsRun(worlds, actions) && Start(worlds[0], threads) && i <= |actions|
    requires var w := worlds[i];
             && (forall k :: 0 <= k < |w.uniques| ==> w.uniques[k].data == None)
             && (forall k :: 0 <= k < |w.released| ==> w.released[k].data == None)
             && (forall h :: 0 <= h < |w.shared.handles| ==> w.shared.handles[h] == None)
             && (forall t :: 0 <= t < |w.shared.threads| ==> w.shared.threads[t] == SharedBuffer.Idle)
    ensures multiset(worlds[i].free) == multiset(Carved(worlds[0].pool.blockSize, worlds[0].pool.blockCount))
  {
    AlwaysInv(worlds, actions, threads, i);
    var w := worlds[i];
    NoBlocks(w.uniques);
    NoBlocks(w.released);
    forall b | 0 <= b < |w.given|
      ensures SharedHolds(w.shared, w.given)[b] == NOTHING
    {
      IdleUncharged(w.shared, b);
    }
    NoBlocks(SharedHolds(w.shared, w.given));
    assert w.free + Owned(w) == w.free;
    AllPlaces(w);
  }

  // ---------------------------------------------------------------- reuse in order

  /** The block an action takes from the pool. */
  ghost function Taken(w: World, a: Action): seq<nat> {
    if a.Allocate? && w.free != [] then [w.free[0]] else []
  }

  /** The block an action brings back to the pool. */
  ghost function Returned(w: World, a: Action): seq<nat>
    requires Enabled(w, a)
  {
    match a
    case MoveAssign(d, o) => if d == o then [] else GivenBack(w.uniques[d])
    case Reset(d) => GivenBack(w.uniques[d])
    case CallReleasedDeleter(r) => GivenBack(w.released[r])
    case Shared(x) =>
      var b := Invoked(w.shared, x);
      if b.Some? && b.value < |w.given| then GivenBack(w.given[b.value]) else []
    case _ => []
  }

  ghost function AllTaken(worlds: seq<World>, actions: seq<Action>, i: nat): seq<nat>
    requires IsRun(worlds, actions) && i <= |actions|
  {
    if i == 0 then [] else AllTaken(worlds, actions, i - 1) + Taken(worlds[i - 1], actions[i - 1])
  }

  ghost function AllReturned(worlds: seq<World>, actions: seq<Action>, i: nat): seq<nat>
    requires IsRun(worlds, actions) && i <= |actions|
  {
    if i == 0 then [] else AllReturned(worlds, actions, i - 1) + Returned(worlds[i - 1], actions[i - 1])
  }

  /**
    Blocks are handed out in the order in which they became free: first as carved, then as
    given back.
   */
  lemma {:induction false} ReusedInOrder(worlds: seq<World>, actions: seq<Action>, threads: nat, i: nat)
    requires IsRun(worlds, actions) && Start(worlds[0], threads) && i <= |actions|
    ensures AllTaken(worlds, actions, i) + worlds[i].free
         == Carved(worlds[0].pool.blockSize, worlds[0].pool.blockCount) + AllReturned(worlds, actions, i)
  {
    if i > 0 {
      ReusedInOrder(worlds, actions, threads, i - 1);
      AlwaysInv(worlds, actions, threads, i - 1);
      StepQueues(worlds[i - 1], actions[i - 1]);
      QueueStep(AllTaken(worlds, actions, i - 1), Taken(worlds[i - 1], actions[i - 1]), worlds[i - 1].free, worlds[i].free,
                Carved(worlds[0].pool.blockSize, worlds[0].pool.blockCount), AllReturned(worlds, actions, i - 1),
                Returned(worlds[i - 1], actions[i - 1]));
    }
  }

  lemma StepQueues(w: World, a: Action)
    requires Inv(w) && Enabled(w, a)
    ensures Taken(w, a) + Next(w, a).free == w.free + Returned(w, a)
  {
    if a.Shared? {
      SharedCountUnchanged(w.shared, a.a);
    }
  }

  lemma QueueStep(
    all: seq<nat>, took: seq<nat>, free: seq<nat>, free': seq<nat>, carved: seq<nat>, back: seq<nat>, gave: seq<nat>)
    requires all + free == carved + back && took + free' == free + gave
    ensures (all + took) + free' == carved + (back + gave)
  {
    calc {
      (all + took) + free';
      all + (took + free');
      all + (free + gave);
      (all + free) + gave;
      (carved + back) + gave;
      carved + (back + gave);
    }
  }
}
