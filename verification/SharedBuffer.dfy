/**
  `shared_buffer`: any number of threads, each working on its own handles, sharing
  reference-counted control blocks. One step per access to a control block.

  A handle is only touched by its owning thread, so clearing it is put in the same step
  as giving up its reference. A step yields `Fault` when it would touch a control block
  that has been deleted.
 */
module SharedBuffer {
  import opened Wrappers

  /**
    A control block. `nonEmpty` says whether it was given a deleter to call; `held`
    whether it still has it. `invoked` and `handed` count the calls of the deleter and
    the times it was moved out by `release`.
   */
  datatype Control = Control(ref: nat, deleted: bool, nonEmpty: bool, held: bool, invoked: nat, handed: nat)

  /** What an assignment does once its old reference is gone. */
  datatype After = Nothing | Store(d: nat, new_ctrl: Option<nat>) | Steal(d: nat, o: nat)

  datatype Thread =
    | Idle
    | Decrement(h: nat, after: After)
    | CallDeleter(b: nat, after: After)
    | DeleteBlock(b: nat, after: After)
    | MoveOut(b: nat)
    | DeleteMovedOut(b: nat)

  /** `handles[h]` is the `ctrl_` of handle `h`, which thread `owner[h]` works on. */
  datatype State = State(blocks: seq<Control>, handles: seq<Option<nat>>, owner: seq<nat>, threads: seq<Thread>)

  datatype Outcome = Fault | Next(s: State)

  datatype Operation =
    | Construct(nonNull: bool, size: nat, nonEmpty: bool)
    | CopyConstruct(o: nat)
    | CopyAssign(d: nat, o: nat)
    | MoveConstruct(o: nat)
    | MoveAssign(d: nat, o: nat)
    | Reset(d: nat)
    | Release(d: nat)
    | Swap(d: nat, o: nat)
    | Send(d: nat, to: nat)

  datatype Action = Call(t: nat, op: Operation) | Step(t: nat)

  predicate Owns(s: State, t: nat, h: nat) {
    h < |s.handles| == |s.owner| && s.owner[h] == t
  }

  predicate Enabled(s: State, a: Action) {
    && a.t < |s.threads|
    && match a
       case Step(t) => s.threads[t] != Idle
       case Call(t, op) =>
         && s.threads[t] == Idle
         && match op
            case Construct(_, _, _) => true
            case CopyConstruct(o) => Owns(s, t, o)
            case CopyAssign(d, o) => Owns(s, t, d) && Owns(s, t, o)
            case MoveConstruct(o) => Owns(s, t, o)
            case MoveAssign(d, o) => Owns(s, t, d) && Owns(s, t, o)
            case Reset(d) => Owns(s, t, d)
            case Release(d) => Owns(s, t, d)
            case Swap(d, o) => Owns(s, t, d) && Owns(s, t, o)
            case Send(d, to) => Owns(s, t, d) && to < |s.threads|
  }

  /** A new handle of thread `t`. */
  function AddHandle(s: State, t: nat, ctrl: Option<nat>): State {
    s.(handles := s.handles + [ctrl], owner := s.owner + [t])
  }

  function SetThread(s: State, t: nat, pc: Thread): State
    requires t < |s.threads|
  {
    s.(threads := s.threads[t := pc])
  }

  /** The control block can be touched. */
  predicate Alive(s: State, b: nat) {
    b < |s.blocks| && !s.blocks[b].deleted
  }

  function AddRef(s: State, ctrl: Option<nat>): Outcome {
    match ctrl
    case None => Next(s)
    case Some(b) =>
      if !Alive(s, b) then Fault
      else Next(s.(blocks := s.blocks[b := s.blocks[b].(ref := s.blocks[b].ref + 1)]))
  }

  function Finish(s: State, t: nat, after: After): State
    requires t < |s.threads|
  {
    var s' := SetThread(s, t, Idle);
    match after
    case Nothing => s'
    case Store(d, new_ctrl) =>
      if d < |s.handles| then s'.(handles := s.handles[d := new_ctrl]) else s'
    case Steal(d, o) =>
      if d < |s.handles| && o < |s.handles| then
        s'.(handles := s.handles[d := s.handles[o]][o := None])
      else s'
  }

  function CallNext(s: State, t: nat, op: Operation): Outcome
    requires Enabled(s, Call(t, op))
  {
    match op
    case Construct(nonNull, size, nonEmpty) =>
      if !nonNull || size == 0 then Next(AddHandle(s, t, None))
      else
        Next(AddHandle(s.(blocks := s.blocks + [Control(1, false, nonEmpty, nonEmpty, 0, 0)]), t, Some(|s.blocks|)))
    case CopyConstruct(o) =>
      (match AddRef(s, s.handles[o])
       case Fault => Fault
       case Next(s') => Next(AddHandle(s', t, s.handles[o])))
    case CopyAssign(d, o) =>
      if d == o then Next(s)
      else
        (match AddRef(s, s.handles[o])
         case Fault => Fault
         case Next(s') => Next(SetThread(s', t, Decrement(d, Store(d, s.handles[o])))))
    case MoveConstruct(o) => Next(AddHandle(s.(handles := s.handles[o := None]), t, s.handles[o]))
    case MoveAssign(d, o) =>
      if d == o then Next(s) else Next(SetThread(s, t, Decrement(d, Steal(d, o))))
    case Reset(d) => Next(SetThread(s, t, Decrement(d, Nothing)))
    case Release(d) =>
      (match s.handles[d]
       case None => Next(s)
       case Some(b) =>
         if !Alive(s, b) then Fault
         else if s.blocks[b].ref != 1 then Next(s)
         else
           Next(SetThread(s, t, MoveOut(b)).(
                handles := s.handles[d := None], blocks := s.blocks[b := s.blocks[b].(ref := 0)])))
    case Swap(d, o) => Next(s.(handles := s.handles[d := s.handles[o]][o := s.handles[d]]))
    case Send(d, to) => Next(s.(owner := s.owner[d := to]))
  }

  function StepNext(s: State, t: nat): Outcome
    requires Enabled(s, Step(t))
  {
    match s.threads[t]
    case Idle => Next(s)
    case Decrement(h, after) =>
      if h >= |s.handles| then Fault
      else
        (match s.handles[h]
         case None => Next(Finish(s, t, after))
         case Some(b) =>
           if !Alive(s, b) || s.blocks[b].ref == 0 then Fault
           else
             var s' := s.(blocks := s.blocks[b := s.blocks[b].(ref := s.blocks[b].ref - 1)],
                          handles := s.handles[h := None]);
             if s.blocks[b].ref == 1 then Next(SetThread(s', t, CallDeleter(b, after)))
             else Next(Finish(s', t, after)))
    case CallDeleter(b, after) =>
      if !Alive(s, b) then Fault
      else
        var c := s.blocks[b];
        Next(SetThread(s, t, DeleteBlock(b, after)).(
             blocks := s.blocks[b := if c.held then c.(invoked := c.invoked + 1) else c]))
    case DeleteBlock(b, after) =>
      if !Alive(s, b) then Fault
      else Next(Finish(s.(blocks := s.blocks[b := s.blocks[b].(deleted := true)]), t, after))
    case MoveOut(b) =>
      if !Alive(s, b) then Fault
      else
        var c := s.blocks[b];
        Next(SetThread(s, t, DeleteMovedOut(b)).(
             blocks := s.blocks[b := if c.held then c.(held := false, handed := c.handed + 1) else c]))
    case DeleteMovedOut(b) =>
      if !Alive(s, b) then Fault
      else Next(SetThread(s, t, Idle).(blocks := s.blocks[b := s.blocks[b].(deleted := true)]))
  }

  function Perform(s: State, a: Action): Outcome
    requires Enabled(s, a)
  {
    match a
    case Call(t, op) => CallNext(s, t, op)
    case Step(t) => StepNext(s, t)
  }

  // ---------------------------------------------------------------- the invariant

  /** The reference a thread has counted for a handle it has not stored it in yet. */
  function InFlight(pc: Thread): Option<nat> {
    match pc
    case Decrement(_, Store(_, new_ctrl)) => new_ctrl
    case CallDeleter(_, Store(_, new_ctrl)) => new_ctrl
    case DeleteBlock(_, Store(_, new_ctrl)) => new_ctrl
    case _ => None
  }

  /** The block whose last reference a thread has given up, so that it is its to delete. */
  function Dying(pc: Thread): Option<nat> {
    match pc
    case CallDeleter(b, _) => Some(b)
    case DeleteBlock(b, _) => Some(b)
    case MoveOut(b) => Some(b)
    case DeleteMovedOut(b) => Some(b)
    case _ => None
  }

  ghost function InFlights(threads: seq<Thread>): seq<Option<nat>> {
    seq(|threads|, t requires 0 <= t < |threads| => InFlight(threads[t]))
  }

  ghost function Dyings(threads: seq<Thread>): seq<Option<nat>> {
    seq(|threads|, t requires 0 <= t < |threads| => Dying(threads[t]))
  }

  /** How many references to block `b` there are: live handles and handles in the making. */
  ghost function References(s: State, b: nat): nat {
    multiset(s.handles)[Some(b)] + multiset(InFlights(s.threads))[Some(b)]
  }

  ghost function Deaths(s: State, b: nat): nat {
    multiset(Dyings(s.threads))[Some(b)]
  }

  ghost predicate BlockInv(s: State, b: nat)
    requires b < |s.blocks|
  {
    var c := s.blocks[b];
    && c.ref == References(s, b)
    && (c.ref > 0 ==>
          !c.deleted && Deaths(s, b) == 0 && c.held == c.nonEmpty && c.invoked == c.handed == 0)
    && (c.ref == 0 ==> Deaths(s, b) == if c.deleted then 0 else 1)
    && (c.deleted ==> c.invoked + c.handed == if c.nonEmpty then 1 else 0)
  }

  /** Where a thread stands, as far as its handles and its dying block are concerned. */
  ghost predicate ThreadInv(s: State, t: nat)
    requires t < |s.threads| && |s.handles| == |s.owner|
  {
    match s.threads[t]
    case Idle => true
    case Decrement(h, after) => Owns(s, t, h) && AfterInv(s, t, h, after)
    case CallDeleter(b, after) =>
      && b < |s.blocks| && !s.blocks[b].deleted && ToStore(s, t, after)
      && s.blocks[b].held == s.blocks[b].nonEmpty && s.blocks[b].invoked == s.blocks[b].handed == 0
    case DeleteBlock(b, after) =>
      && b < |s.blocks| && !s.blocks[b].deleted && ToStore(s, t, after)
      && s.blocks[b].handed == 0 && s.blocks[b].invoked == if s.blocks[b].nonEmpty then 1 else 0
    case MoveOut(b) =>
      && b < |s.blocks| && !s.blocks[b].deleted
      && s.blocks[b].held == s.blocks[b].nonEmpty && s.blocks[b].invoked == s.blocks[b].handed == 0
    case DeleteMovedOut(b) =>
      && b < |s.blocks| && !s.blocks[b].deleted
      && s.blocks[b].invoked == 0 && s.blocks[b].handed == if s.blocks[b].nonEmpty then 1 else 0
  }

  ghost predicate AfterInv(s: State, t: nat, h: nat, after: After) {
    match after
    case Nothing => true
    case Store(d, _) => d == h
    case Steal(d, o) => d == h && o != d && Owns(s, t, o)
  }

  /** The handle an assignment is about to store in is empty. */
  ghost predicate ToStore(s: State, t: nat, after: After) {
    match after
    case Nothing => true
    case Store(d, _) => Owns(s, t, d) && s.handles[d] == None
    case Steal(d, o) => o != d && Owns(s, t, d) && s.handles[d] == None && Owns(s, t, o)
  }

  ghost predicate Inv(s: State) {
    && |s.handles| == |s.owner|
    && (forall h :: 0 <= h < |s.handles| && s.handles[h].Some? ==> s.handles[h].value < |s.blocks|)
    && (forall t :: 0 <= t < |s.threads| && InFlight(s.threads[t]).Some? ==> InFlight(s.threads[t]).value < |s.blocks|)
    && (forall b :: 0 <= b < |s.blocks| ==> BlockInv(s, b))
    && (forall t :: 0 <= t < |s.threads| ==> ThreadInv(s, t))
  }

  // ---------------------------------------------------------------- counting

  lemma UpdateCount(s: seq<Option<nat>>, i: nat, v: Option<nat>, x: Option<nat>)
    requires i < |s|
    ensures multiset(s[i := v])[x] + (if s[i] == x then 1 else 0) == multiset(s)[x] + (if v == x then 1 else 0)
  {
    assert s[i] in multiset(s);
  }

  lemma AppendCount(s: seq<Option<nat>>, v: Option<nat>, x: Option<nat>)
    ensures multiset(s + [v])[x] == multiset(s)[x] + (if v == x then 1 else 0)
  { }

  lemma SwapCount(s: seq<Option<nat>>, d: nat, o: nat, x: Option<nat>)
    requires d < |s| && o < |s|
    ensures multiset(s[d := s[o]][o := s[d]])[x] == multiset(s)[x]
  {
    UpdateCount(s, d, s[o], x);
    UpdateCount(s[d := s[o]], o, s[d], x);
  }

  lemma MoveCount(s: seq<Option<nat>>, o: nat, x: Option<nat>)
    requires o < |s| && x != None
    ensures multiset(s[o := None] + [s[o]])[x] == multiset(s)[x]
  {
    UpdateCount(s, o, None, x);
    AppendCount(s[o := None], s[o], x);
  }

  lemma IndexCounts(s: seq<Option<nat>>, i: nat)
    requires i < |s|
    ensures multiset(s)[s[i]] >= 1
  {
    assert s[i] in multiset(s);
  }

  lemma SetThreadCounts(threads: seq<Thread>, t: nat, pc: Thread, x: Option<nat>)
    requires t < |threads|
    ensures multiset(InFlights(threads[t := pc]))[x] + (if InFlight(threads[t]) == x then 1 else 0)
         == multiset(InFlights(threads))[x] + (if InFlight(pc) == x then 1 else 0)
    ensures multiset(Dyings(threads[t := pc]))[x] + (if Dying(threads[t]) == x then 1 else 0)
         == multiset(Dyings(threads))[x] + (if Dying(pc) == x then 1 else 0)
  {
    assert InFlights(threads[t := pc]) == InFlights(threads)[t := InFlight(pc)];
    assert Dyings(threads[t := pc]) == Dyings(threads)[t := Dying(pc)];
    UpdateCount(InFlights(threads), t, InFlight(pc), x);
    UpdateCount(Dyings(threads), t, Dying(pc), x);
  }

  /** A block that a handle refers to can be touched. */
  lemma HandleIsAlive(s: State, h: nat)
    requires Inv(s) && h < |s.handles| && s.handles[h].Some?
    ensures var b := s.handles[h].value; Alive(s, b) && s.blocks[b].ref > 0 && Deaths(s, b) == 0
  {
    IndexCounts(s.handles, h);
    assert BlockInv(s, s.handles[h].value);
  }

  /** A block that a thread is deleting has no references left and no other thread deleting it. */
  lemma DyingIsMine(s: State, t: nat, u: nat)
    requires Inv(s) && t < |s.threads| && Dying(s.threads[t]).Some?
    ensures var b := Dying(s.threads[t]).value;
            && b < |s.blocks| && s.blocks[b].ref == 0 && References(s, b) == 0 && Deaths(s, b) == 1
            && (u < |s.threads| && u != t ==> Dying(s.threads[u]) != Some(b))
  {
    var b := Dying(s.threads[t]).value;
    assert ThreadInv(s, t);
    assert BlockInv(s, b);
    var ds := Dyings(s.threads);
    assert ds[t] == Some(b);
    IndexCounts(ds, t);
    if u < |s.threads| && u != t && Dying(s.threads[u]) == Some(b) {
      UpdateCount(ds, t, None, Some(b));
      assert ds[t := None][u] == Some(b);
      IndexCounts(ds[t := None], u);
      assert false;
    }
  }

  // ---------------------------------------------------------------- one step

  /**
    What thread `t` may do beside the others: change its own handles, and one block that
    nobody else is deleting.
   */
  ghost predicate KeepsToItself(s: State, s': State, t: nat, touched: Option<nat>)
    requires |s.handles| == |s.owner|
  {
    && |s'.handles| == |s'.owner| >= |s.handles| && |s'.threads| == |s.threads| && |s'.blocks| >= |s.blocks|
    && (forall u :: 0 <= u < |s.threads| && u != t ==> s'.threads[u] == s.threads[u])
    && (forall h :: 0 <= h < |s.handles| && s.owner[h] != t ==>
                      s'.owner[h] == s.owner[h] && s'.handles[h] == s.handles[h])
    && (forall b :: 0 <= b < |s.blocks| && touched != Some(b) ==> s'.blocks[b] == s.blocks[b])
    && (forall u :: 0 <= u < |s.threads| && u != t && touched.Some? ==> Dying(s.threads[u]) != touched)
  }

  lemma OthersUndisturbed(s: State, s': State, t: nat, touched: Option<nat>, u: nat)
    requires Inv(s) && KeepsToItself(s, s', t, touched) && u < |s.threads| && u != t
    ensures ThreadInv(s', u)
  {
    assert ThreadInv(s, u);
    assert s'.threads[u] == s.threads[u];
  }

  /** What is left to show of a step that keeps to itself. */
  lemma InvFrom(s: State, s': State, t: nat, touched: Option<nat>)
    requires Inv(s) && KeepsToItself(s, s', t, touched) && t < |s.threads| && ThreadInv(s', t)
    requires forall b :: 0 <= b < |s'.blocks| ==> BlockInv(s', b)
    requires forall h :: 0 <= h < |s'.handles| && s'.handles[h].Some? ==> s'.handles[h].value < |s'.blocks|
    requires InFlight(s'.threads[t]).Some? ==> InFlight(s'.threads[t]).value < |s'.blocks|
    ensures Inv(s')
  {
    forall u | 0 <= u < |s'.threads|
      ensures ThreadInv(s', u)
    {
      if u != t {
        OthersUndisturbed(s, s', t, touched, u);
      }
    }
  }

  lemma ConstructKeeps(s: State, t: nat, op: Operation)
    requires Inv(s) && Enabled(s, Call(t, op)) && op.Construct?
    ensures var o := CallNext(s, t, op); o.Next? && Inv(o.s)
  {
    var s' := CallNext(s, t, op).s;
    forall b | 0 <= b < |s'.blocks|
      ensures BlockInv(s', b)
    {
      ConstructBlock(s, t, op, b);
    }
    hide BlockInv;
    InvFrom(s, s', t, None);
  }

  lemma ConstructBlock(s: State, t: nat, op: Operation, b: nat)
    requires Inv(s) && Enabled(s, Call(t, op)) && op.Construct?
    requires b < |CallNext(s, t, op).s.blocks|
    ensures BlockInv(CallNext(s, t, op).s, b)
  {
    var s' := CallNext(s, t, op).s;
    AppendCount(s.handles, s'.handles[|s.handles|], Some(b));
    if b < |s.blocks| {
      assert BlockInv(s, b);
      hide Inv;
    } else {
      FreshIsUnreferred(s, b);
      hide Inv;
    }
  }

  lemma FreshIsUnreferred(s: State, b: nat)
    requires Inv(s) && b >= |s.blocks|
    ensures References(s, b) == 0 && Deaths(s, b) == 0
  {
    forall t | 0 <= t < |s.threads|
      ensures InFlights(s.threads)[t] != Some(b) && Dyings(s.threads)[t] != Some(b)
    {
      assert ThreadInv(s, t);
    }
    assert Some(b) !in s.handles && Some(b) !in InFlights(s.threads) && Some(b) !in Dyings(s.threads);
  }

  lemma CopyConstructKeeps(s: State, t: nat, o: nat)
    requires Inv(s) && Enabled(s, Call(t, CopyConstruct(o)))
    ensures var r := CallNext(s, t, CopyConstruct(o)); r.Next? && Inv(r.s)
  {
    hide BlockInv;
    hide References;
    if s.handles[o].Some? {
      HandleIsAlive(s, o);
    }
    var s' := CallNext(s, t, CopyConstruct(o)).s;
    forall b | 0 <= b < |s'.blocks|
      ensures BlockInv(s', b)
    {
      CopiedBlock(s, t, o, b);
    }
    DyingUntouched(s, t, s.handles[o]);
    InvFrom(s, s', t, s.handles[o]);
  }

  lemma CopiedBlock(s: State, t: nat, o: nat, b: nat)
    requires Inv(s) && Enabled(s, Call(t, CopyConstruct(o))) && b < |s.blocks|
    requires CallNext(s, t, CopyConstruct(o)).Next?
    ensures BlockInv(CallNext(s, t, CopyConstruct(o)).s, b)
  {
    BlockOf(s, b);
    hide Inv;
    AppendCount(s.handles, s.handles[o], Some(b));
  }

  lemma BlockOf(s: State, b: nat)
    requires Inv(s) && b < |s.blocks|
    ensures BlockInv(s, b) && |s.handles| == |s.owner|
  { }

  /** No other thread is deleting a block that has references. */
  lemma DyingUntouched(s: State, t: nat, ctrl: Option<nat>)
    requires Inv(s) && t < |s.threads| && (ctrl.Some? ==> ctrl.value < |s.blocks| && s.blocks[ctrl.value].ref > 0)
    ensures forall u :: 0 <= u < |s.threads| && ctrl.Some? ==> Dying(s.threads[u]) != ctrl
  {
    forall u | 0 <= u < |s.threads| && ctrl.Some?
      ensures Dying(s.threads[u]) != ctrl
    {
      if Dying(s.threads[u]) == ctrl {
        DyingIsMine(s, u, u);
        assert false;
      }
    }
  }

  lemma CopyAssignKeeps(s: State, t: nat, d: nat, o: nat)
    requires Inv(s) && Enabled(s, Call(t, CopyAssign(d, o)))
    ensures var r := CallNext(s, t, CopyAssign(d, o)); r.Next? && Inv(r.s)
    ensures d != o ==>
      var s', ctrl := CallNext(s, t, CopyAssign(d, o)).s, s.handles[o];
      && s'.threads[t] == Decrement(d, Store(d, ctrl)) && s'.handles == s.handles
      && (ctrl.Some? ==> s'.blocks[ctrl.value].ref == s.blocks[ctrl.value].ref + 1)
  {
    if d != o {
      if s.handles[o].Some? {
        HandleIsAlive(s, o);
      }
      var s' := CallNext(s, t, CopyAssign(d, o)).s;
      forall b | 0 <= b < |s'.blocks|
        ensures BlockInv(s', b)
      {
        assert BlockInv(s, b);
        SetThreadCounts(s.threads, t, Decrement(d, Store(d, s.handles[o])), Some(b));
      }
      hide BlockInv;
      DyingUntouched(s, t, s.handles[o]);
      InvFrom(s, s', t, s.handles[o]);
    }
  }

  lemma MoveConstructKeeps(s: State, t: nat, o: nat)
    requires Inv(s) && Enabled(s, Call(t, MoveConstruct(o)))
    ensures var r := CallNext(s, t, MoveConstruct(o)); r.Next? && Inv(r.s)
  {
    hide BlockInv;
    var s' := CallNext(s, t, MoveConstruct(o)).s;
    forall b | 0 <= b < |s'.blocks|
      ensures BlockInv(s', b)
    {
      MovedBlock(s, t, o, b);
    }
    InvFrom(s, s', t, None);
  }

  lemma MovedBlock(s: State, t: nat, o: nat, b: nat)
    requires Inv(s) && Enabled(s, Call(t, MoveConstruct(o))) && b < |s.blocks|
    ensures BlockInv(CallNext(s, t, MoveConstruct(o)).s, b)
  {
    BlockOf(s, b);
    hide Inv;
    MoveCount(s.handles, o, Some(b));
  }

  /** Reset, destruction and move assignment begin by dropping the handle's reference. */
  lemma DropKeeps(s: State, t: nat, d: nat, after: After)
    requires Inv(s) && t < |s.threads| && s.threads[t] == Idle && Owns(s, t, d)
    requires !after.Store? && AfterInv(s, t, d, after)
    ensures Inv(SetThread(s, t, Decrement(d, after)))
  {
    var s' := SetThread(s, t, Decrement(d, after));
    forall b | 0 <= b < |s'.blocks|
      ensures BlockInv(s', b)
    {
      assert BlockInv(s, b);
      SetThreadCounts(s.threads, t, Decrement(d, after), Some(b));
    }
    InvFrom(s, s', t, None);
  }

  lemma ReleaseKeeps(s: State, t: nat, d: nat)
    requires Inv(s) && Enabled(s, Call(t, Release(d)))
    ensures var r := CallNext(s, t, Release(d)); r.Next? && Inv(r.s)
  {
    if s.handles[d].Some? {
      HandleIsAlive(s, d);
      var c := s.handles[d].value;
      assert BlockInv(s, c);
      if s.blocks[c].ref == 1 {
        var s' := CallNext(s, t, Release(d)).s;
        forall b | 0 <= b < |s'.blocks|
          ensures BlockInv(s', b)
        {
          ReleasedBlock(s, t, d, b);
        }
        hide BlockInv;
        DyingUntouched(s, t, s.handles[d]);
        InvFrom(s, s', t, s.handles[d]);
      }
    }
  }

  lemma ReleasedBlock(s: State, t: nat, d: nat, b: nat)
    requires Inv(s) && Enabled(s, Call(t, Release(d))) && s.handles[d].Some? && b < |s.blocks|
    requires Alive(s, s.handles[d].value) && s.blocks[s.handles[d].value].ref == 1
    ensures CallNext(s, t, Release(d)).Next? && BlockInv(CallNext(s, t, Release(d)).s, b)
  {
    var c := s.handles[d].value;
    assert BlockInv(s, b) && BlockInv(s, c);
    hide Inv;
    UpdateCount(s.handles, d, None, Some(b));
    SetThreadCounts(s.threads, t, MoveOut(c), Some(b));
  }

  lemma SwapKeeps(s: State, t: nat, d: nat, o: nat)
    requires Inv(s) && Enabled(s, Call(t, Swap(d, o)))
    ensures var r := CallNext(s, t, Swap(d, o)); r.Next? && Inv(r.s)
  {
    hide BlockInv;
    var s' := CallNext(s, t, Swap(d, o)).s;
    forall b | 0 <= b < |s'.blocks|
      ensures BlockInv(s', b)
    {
      SwappedBlock(s, t, d, o, b);
    }
    InvFrom(s, s', t, None);
  }

  lemma SwappedBlock(s: State, t: nat, d: nat, o: nat, b: nat)
    requires Inv(s) && Enabled(s, Call(t, Swap(d, o))) && b < |s.blocks|
    ensures BlockInv(CallNext(s, t, Swap(d, o)).s, b)
  {
    BlockOf(s, b);
    hide Inv;
    SwapCount(s.handles, d, o, Some(b));
  }

  lemma SendKeeps(s: State, t: nat, d: nat, to: nat)
    requires Inv(s) && Enabled(s, Call(t, Send(d, to)))
    ensures var r := CallNext(s, t, Send(d, to)); r.Next? && Inv(r.s)
  {
    var s' := CallNext(s, t, Send(d, to)).s;
    forall b | 0 <= b < |s'.blocks|
      ensures BlockInv(s', b)
    {
      assert BlockInv(s, b);
    }
    InvFrom(s, s', t, None);
  }

  lemma CallKeeps(s: State, t: nat, op: Operation)
    requires Inv(s) && Enabled(s, Call(t, op))
    ensures var r := CallNext(s, t, op); r.Next? && Inv(r.s)
  {
    match op {
      case Construct(_, _, _) => ConstructKeeps(s, t, op);
      case CopyConstruct(o) => CopyConstructKeeps(s, t, o);
      case CopyAssign(d, o) => CopyAssignKeeps(s, t, d, o);
      case MoveConstruct(o) => MoveConstructKeeps(s, t, o);
      case MoveAssign(d, o) => if d != o { DropKeeps(s, t, d, Steal(d, o)); }
      case Reset(d) => DropKeeps(s, t, d, Nothing);
      case Release(d) => ReleaseKeeps(s, t, d);
      case Swap(d, o) => SwapKeeps(s, t, d, o);
      case Send(d, to) => SendKeeps(s, t, d, to);
    }
  }

  /** The end of an assignment: the reference it holds moves into the handle just emptied. */
  lemma FinishKeeps(s: State, t: nat, h: nat, after: After)
    requires Inv(s) && t < |s.threads| && s.threads[t] == Decrement(h, after)
    requires h < |s.handles| && s.handles[h] == None
    ensures Inv(Finish(s, t, after))
  {
    assert ThreadInv(s, t);
    var s' := Finish(s, t, after);
    forall b | 0 <= b < |s'.blocks|
      ensures BlockInv(s', b)
    {
      FinishBlock(s, t, h, after, b);
    }
    hide BlockInv;
    InvFrom(s, s', t, None);
  }

  lemma FinishBlock(s: State, t: nat, h: nat, after: After, b: nat)
    requires Inv(s) && t < |s.threads| && s.threads[t] == Decrement(h, after)
    requires h < |s.handles| && s.handles[h] == None && b < |s.blocks|
    ensures BlockInv(Finish(s, t, after), b)
  {
    assert ThreadInv(s, t) && BlockInv(s, b) && |s.handles| == |s.owner|;
    hide Inv;
    var s' := Finish(s, t, after);
    SetThreadCounts(s.threads, t, Idle, Some(b));
    FinishReferences(s, t, h, after, b);
    assert References(s', b) == References(s, b) && Deaths(s', b) == Deaths(s, b);
    hide Finish;
    hide References;
    hide Deaths;
    hide ThreadInv;
  }

  lemma FinishReferences(s: State, t: nat, h: nat, after: After, b: nat)
    requires |s.handles| == |s.owner| && t < |s.threads| && s.threads[t] == Decrement(h, after) && ThreadInv(s, t)
    requires h < |s.handles| && s.handles[h] == None
    ensures References(Finish(s, t, after), b) == References(s, b)
  {
    SetThreadCounts(s.threads, t, Idle, Some(b));
    match after {
      case Nothing =>
      case Store(d, new_ctrl) => UpdateCount(s.handles, d, new_ctrl, Some(b));
      case Steal(d, o) => StealCount(s.handles, d, o, Some(b));
    }
  }

  lemma StealCount(s: seq<Option<nat>>, d: nat, o: nat, x: Option<nat>)
    requires d < |s| && o < |s| && d != o && s[d] == None && x != None
    ensures multiset(s[d := s[o]][o := None])[x] == multiset(s)[x]
  {
    UpdateCount(s, d, s[o], x);
    UpdateCount(s[d := s[o]], o, None, x);
  }

  /** Giving up a reference that is not the last one. */
  lemma GiveUpKeeps(s: State, t: nat, h: nat, after: After, b: nat)
    requires Inv(s) && t < |s.threads| && s.threads[t] == Decrement(h, after) && h < |s.handles|
    requires s.handles[h] == Some(b) && b < |s.blocks| && s.blocks[b].ref > 1
    ensures Inv(s.(blocks := s.blocks[b := s.blocks[b].(ref := s.blocks[b].ref - 1)], handles := s.handles[h := None]))
  {
    assert ThreadInv(s, t);
    var s' := s.(blocks := s.blocks[b := s.blocks[b].(ref := s.blocks[b].ref - 1)], handles := s.handles[h := None]);
    forall x | 0 <= x < |s'.blocks|
      ensures BlockInv(s', x)
    {
      assert BlockInv(s, x);
      UpdateCount(s.handles, h, None, Some(x));
    }
    hide BlockInv;
    DyingUntouched(s, t, Some(b));
    InvFrom(s, s', t, Some(b));
  }

  /** Giving up the last reference makes the block this thread's to delete. */
  lemma GiveUpLastKeeps(s: State, t: nat, h: nat, after: After, b: nat)
    requires Inv(s) && t < |s.threads| && s.threads[t] == Decrement(h, after) && h < |s.handles|
    requires s.handles[h] == Some(b) && Alive(s, b) && s.blocks[b].ref == 1
    ensures StepNext(s, t).Next? && Inv(StepNext(s, t).s)
  {
    assert ThreadInv(s, t);
    assert BlockInv(s, b);
    var s' := StepNext(s, t).s;
    forall x | 0 <= x < |s'.blocks|
      ensures BlockInv(s', x)
    {
      LastGivenUp(s, t, h, after, b, x);
    }
    hide BlockInv;
    DyingUntouched(s, t, Some(b));
    InvFrom(s, s', t, Some(b));
  }

  lemma LastGivenUp(s: State, t: nat, h: nat, after: After, b: nat, x: nat)
    requires Inv(s) && t < |s.threads| && s.threads[t] == Decrement(h, after) && h < |s.handles| && x < |s.blocks|
    requires s.handles[h] == Some(b) && Alive(s, b) && s.blocks[b].ref == 1
    ensures StepNext(s, t).Next? && BlockInv(StepNext(s, t).s, x)
  {
    assert BlockInv(s, x) && BlockInv(s, b);
    hide Inv;
    UpdateCount(s.handles, h, None, Some(x));
    SetThreadCounts(s.threads, t, CallDeleter(b, after), Some(x));
  }

  lemma DecrementKeeps(s: State, t: nat)
    requires Inv(s) && Enabled(s, Step(t)) && s.threads[t].Decrement?
    ensures var r := StepNext(s, t); r.Next? && Inv(r.s)
    ensures var h, s' := s.threads[t].h, StepNext(s, t).s;
            && h < |s.handles|
            && (s.handles[h].Some? ==>
                  var b := s.handles[h].value;
                  && s'.blocks[b].ref == s.blocks[b].ref - 1
                  && (Dying(s'.threads[t]) == Some(b) <==> s.blocks[b].ref == 1))
  {
    var h, after := s.threads[t].h, s.threads[t].after;
    assert ThreadInv(s, t);
    match s.handles[h] {
      case None => FinishKeeps(s, t, h, after);
      case Some(b) =>
        HandleIsAlive(s, h);
        if s.blocks[b].ref == 1 {
          GiveUpLastKeeps(s, t, h, after, b);
        } else {
          var s1 := s.(blocks := s.blocks[b := s.blocks[b].(ref := s.blocks[b].ref - 1)], handles := s.handles[h := None]);
          GiveUpKeeps(s, t, h, after, b);
          FinishKeeps(s1, t, h, after);
        }
    }
  }

  /** A thread works on a block it is deleting, and moves on to `pc`. */
  lemma WorkOnDying(s: State, t: nat, b: nat, c: Control, pc: Thread)
    requires Inv(s) && t < |s.threads| && Dying(s.threads[t]) == Some(b) && b < |s.blocks|
    requires c.ref == 0 && Dying(pc) == (if c.deleted then None else Some(b)) && InFlight(pc) == InFlight(s.threads[t])
    requires c.deleted ==> c.invoked + c.handed == if c.nonEmpty then 1 else 0
    requires ThreadInv(SetThread(s, t, pc).(blocks := s.blocks[b := c]), t)
    ensures Inv(SetThread(s, t, pc).(blocks := s.blocks[b := c]))
  {
    var s' := SetThread(s, t, pc).(blocks := s.blocks[b := c]);
    DyingIsMine(s, t, t);
    forall x | 0 <= x < |s'.blocks|
      ensures BlockInv(s', x)
    {
      assert BlockInv(s, x);
      SetThreadCounts(s.threads, t, pc, Some(x));
    }
    forall u | 0 <= u < |s.threads| && u != t
      ensures Dying(s.threads[u]) != Some(b)
    {
      DyingIsMine(s, t, u);
    }
    InvFrom(s, s', t, Some(b));
  }

  lemma DyingStepKeeps(s: State, t: nat)
    requires Inv(s) && Enabled(s, Step(t)) && Dying(s.threads[t]).Some?
    ensures var r := StepNext(s, t); r.Next? && Inv(r.s)
  {
    assert ThreadInv(s, t);
    var b := Dying(s.threads[t]).value;
    DyingIsMine(s, t, t);
    var c := s.blocks[b];
    match s.threads[t] {
      case CallDeleter(_, after) =>
        WorkOnDying(s, t, b, if c.held then c.(invoked := c.invoked + 1) else c, DeleteBlock(b, after));
      case DeleteBlock(_, after) =>
        var c' := c.(deleted := true);
        match after {
          case Nothing => WorkOnDying(s, t, b, c', Idle);
          case _ =>
            WorkOnDying(s, t, b, c', Decrement(after.d, after));
            var s1 := SetThread(s, t, Decrement(after.d, after)).(blocks := s.blocks[b := c']);
            FinishKeeps(s1, t, after.d, after);
            assert s1.threads[t := Idle] == s.threads[t := Idle];
        }
      case MoveOut(_) =>
        WorkOnDying(s, t, b, if c.held then c.(held := false, handed := c.handed + 1) else c, DeleteMovedOut(b));
      case DeleteMovedOut(_) =>
        WorkOnDying(s, t, b, c.(deleted := true), Idle);
    }
  }

  /** No thread ever touches a deleted control block, and the books stay right. */
  lemma PerformKeeps(s: State, a: Action)
    requires Inv(s) && Enabled(s, a)
    ensures Perform(s, a).Next? && Inv(Perform(s, a).s)
  {
    match a {
      case Call(t, op) => CallKeeps(s, t, op);
      case Step(t) =>
        if s.threads[t].Decrement? {
          DecrementKeeps(s, t);
        } else {
          DyingStepKeeps(s, t);
        }
    }
  }

  // ---------------------------------------------------------------- whole runs

  ghost predicate IsRun(states: seq<State>, actions: seq<Action>) {
    && |states| == |actions| + 1
    && forall i :: 0 <= i < |actions| ==>
         Enabled(states[i], actions[i]) && Perform(states[i], actions[i]) == Next(states[i + 1])
  }

  /** `n` threads and no buffers yet. */
  function Start(n: nat): State {
    State([], [], [], seq(n, _ => Idle))
  }

  lemma {:induction false} AlwaysInv(states: seq<State>, actions: seq<Action>, n: nat, i: nat)
    requires IsRun(states, actions) && states[0] == Start(n) && i <= |actions|
    ensures Inv(states[i])
  {
    if i > 0 {
      AlwaysInv(states, actions, n, i - 1);
      PerformKeeps(states[i - 1], actions[i - 1]);
    }
  }

  lemma NeverFaults(states: seq<State>, actions: seq<Action>, n: nat, a: Action)
    requires IsRun(states, actions) && states[0] == Start(n) && Enabled(states[|actions|], a)
    ensures Perform(states[|actions|], a).Next?
  {
    AlwaysInv(states, actions, n, |actions|);
    PerformKeeps(states[|actions|], a);
  }

  /**
    Exactly once: in every run, whatever the threads do, the count of a block is the
    number of references to it; its deleter is neither called nor handed out while there
    are any, never both and never twice; and once all calls have returned and no handle
    refers to the block, a non-empty deleter has been called or handed out.
   */
  lemma ExactlyOnce(states: seq<State>, actions: seq<Action>, n: nat, i: nat, b: nat)
    requires IsRun(states, actions) && states[0] == Start(n) && i <= |actions| && b < |states[i].blocks|
    ensures var s, c := states[i], states[i].blocks[b];
            && c.ref == References(s, b)
            && c.invoked + c.handed <= 1
            && (References(s, b) > 0 ==> c.invoked + c.handed == 0 && !c.deleted)
            && (Some(b) !in s.handles && (forall t :: 0 <= t < |s.threads| ==> s.threads[t] == Idle) ==>
                  c.deleted && c.invoked + c.handed == if c.nonEmpty then 1 else 0)
  {
    AlwaysInv(states, actions, n, i);
    var s, c := states[i], states[i].blocks[b];
    assert BlockInv(s, b);
    if c.ref == 0 && !c.deleted {
      assert Some(b) in multiset(Dyings(s.threads));
      var t :| 0 <= t < |s.threads| && Dyings(s.threads)[t] == Some(b);
      assert ThreadInv(s, t);
    }
    if Some(b) !in s.handles && forall t :: 0 <= t < |s.threads| ==> s.threads[t] == Idle {
      assert Some(b) !in InFlights(s.threads);
    }
  }

  /** `release` hands the buffer out exactly when the handle holds the only reference. */
  lemma ReleaseExactlyWhenUnique(s: State, t: nat, d: nat)
    requires Inv(s) && Enabled(s, Call(t, Release(d))) && s.handles[d].Some?
    ensures var r := CallNext(s, t, Release(d));
            && r.Next?
            && (r.s.threads[t].MoveOut? <==> References(s, s.handles[d].value) == 1)
            && (r.s.handles[d] == None <==> References(s, s.handles[d].value) == 1)
  {
    HandleIsAlive(s, d);
    assert BlockInv(s, s.handles[d].value);
  }

  /**
    The constructor takes charge of the deleter exactly when the pointer is not null and
    the size is not zero; otherwise the deleter is dropped uncalled.
   */
  lemma ConstructTakesChargeExactlyWhen(s: State, t: nat, nonNull: bool, size: nat, nonEmpty: bool)
    requires Inv(s) && Enabled(s, Call(t, Construct(nonNull, size, nonEmpty)))
    ensures var s' := CallNext(s, t, Construct(nonNull, size, nonEmpty)).s;
            (exists b :: |s.blocks| <= b < |s'.blocks| && s'.blocks[b].held == nonEmpty && References(s', b) == 1)
              <==> nonNull && size != 0
  {
    ConstructKeeps(s, t, Construct(nonNull, size, nonEmpty));
    var s' := CallNext(s, t, Construct(nonNull, size, nonEmpty)).s;
    if nonNull && size != 0 {
      assert BlockInv(s', |s.blocks|);
      assert s'.blocks[|s.blocks|].ref == 1;
    }
  }
}
