/**
  What each operation on shared buffers does to the handles of the thread that calls it,
  from the call to its return, whatever the other threads do meanwhile; and what it does
  to the counts.
 */
module SharedCalls {
  import opened Wrappers
  import opened SharedBuffer

  // ---------------------------------------------------------------- what an operation is for

  predicate MakesHandle(op: Operation) {
    op.Construct? || op.CopyConstruct? || op.MoveConstruct?
  }

  /** The handle may be released: it holds the only reference. */
  predicate Unique(s: State, d: nat) {
    d < |s.handles| && s.handles[d].Some? && s.handles[d].value < |s.blocks| && s.blocks[s.handles[d].value].ref == 1
  }

  function Held(s: State, h: nat): Option<nat> {
    if h < |s.handles| then s.handles[h] else None
  }

  /** What handle `h` holds once `op`, called in `s`, has returned; `|s.handles|` is the handle it makes, if any. */
  function Result(s: State, op: Operation, h: nat): Option<nat> {
    var n := |s.handles|;
    match op
    case Construct(nonNull, size, _) => if h == n && nonNull && size != 0 then Some(|s.blocks|) else Held(s, h)
    case CopyConstruct(o) => if h == n then Held(s, o) else Held(s, h)
    case CopyAssign(d, o) => if h == d then Held(s, o) else Held(s, h)
    case MoveConstruct(o) => if h == n then Held(s, o) else if h == o then None else Held(s, h)
    case MoveAssign(d, o) => if d == o then Held(s, h) else if h == d then Held(s, o) else if h == o then None else Held(s, h)
    case Reset(d) => if h == d then None else Held(s, h)
    case Release(d) => if h == d && Unique(s, d) then None else Held(s, h)
    case Swap(d, o) => if h == d then Held(s, o) else if h == o then Held(s, d) else Held(s, h)
    case Send(_, _) => Held(s, h)
  }

  /** The handles that are the caller's to speak of when the call has returned. */
  predicate Mine(s: State, t: nat, op: Operation, h: nat) {
    || (Owns(s, t, h) && !(op.Send? && op.d == h))
    || (MakesHandle(op) && h == |s.handles|)
  }

  /** The call has returned, and every handle of its thread holds what it should. */
  predicate Done(s0: State, t: nat, op: Operation, s: State) {
    forall h {:trigger Mine(s0, t, op, h)} :: 0 <= h <= |s0.handles| && Mine(s0, t, op, h) ==>
      Owns(s, t, h) && s.handles[h] == Result(s0, op, h)
  }

  // ---------------------------------------------------------------- on the way there

  /** What an operation does once it has given up the reference it started from. */
  function AfterOf(s0: State, op: Operation): Option<After> {
    match op
    case CopyAssign(d, o) => if d != o && o < |s0.handles| then Some(Store(d, s0.handles[o])) else None
    case MoveAssign(d, o) => if d != o then Some(Steal(d, o)) else None
    case Reset(d) => Some(Nothing)
    case _ => None
  }

  function Target(op: Operation): nat {
    match op
    case CopyAssign(d, _) => d
    case MoveAssign(d, _) => d
    case Reset(d) => d
    case Release(d) => d
    case _ => 0
  }

  /** Where the caller can be. */
  predicate AtCall(s0: State, op: Operation, pc: Thread) {
    match pc
    case Idle => true
    case Decrement(h, after) => h == Target(op) && AfterOf(s0, op) == Some(after)
    case CallDeleter(_, after) => AfterOf(s0, op) == Some(after)
    case DeleteBlock(_, after) => AfterOf(s0, op) == Some(after)
    case MoveOut(_) => op.Release? && Unique(s0, op.d)
    case DeleteMovedOut(_) => op.Release? && Unique(s0, op.d)
  }

  /** What handle `h` holds meanwhile: the old reference goes first, the rest at the end. */
  function Stage(s0: State, op: Operation, pc: Thread, h: nat): Option<nat> {
    if pc.Idle? then Result(s0, op, h)
    else if h >= |s0.handles| || (!pc.Decrement? && h == Target(op)) then None
    else s0.handles[h]
  }

  ghost predicate Underway(s0: State, t: nat, op: Operation, s: State) {
    && t < |s.threads| && AtCall(s0, op, s.threads[t])
    && forall h {:trigger Mine(s0, t, op, h)} :: 0 <= h <= |s0.handles| && Mine(s0, t, op, h) ==>
         Owns(s, t, h) && s.handles[h] == Stage(s0, op, s.threads[t], h)
  }

  lemma CallBegins(s0: State, t: nat, op: Operation)
    requires Inv(s0) && Enabled(s0, Call(t, op))
    ensures CallNext(s0, t, op).Next? && Underway(s0, t, op, CallNext(s0, t, op).s)
    ensures op.Send? ==>
      Owns(CallNext(s0, t, op).s, op.to, op.d) && CallNext(s0, t, op).s.handles[op.d] == s0.handles[op.d]
  {
    hide Inv;
    PerformKeeps(s0, Call(t, op));
  }

  /** Another thread changes none of this thread's handles, and not where it is. */
  lemma OthersLeave(s: State, a: Action, t: nat)
    requires Inv(s) && Enabled(s, a) && a.t != t && t < |s.threads|
    ensures var r := Perform(s, a);
            && r.Next? && t < |r.s.threads| && r.s.threads[t] == s.threads[t]
            && forall h :: 0 <= h < |s.handles| && Owns(s, t, h) ==> Owns(r.s, t, h) && r.s.handles[h] == s.handles[h]
  {
    hide Inv;
    hide ThreadInv;
    PerformKeeps(s, a);
    OwnHandle(s, a.t);
  }

  lemma OwnHandle(s: State, t: nat)
    requires Inv(s) && t < |s.threads|
    ensures |s.handles| == |s.owner|
    ensures var pc := s.threads[t];
            && (pc.Decrement? ==> Owns(s, t, pc.h) && AfterInv(s, t, pc.h, pc.after))
            && (pc.CallDeleter? || pc.DeleteBlock? ==> ToStore(s, t, pc.after))
  {
    assert ThreadInv(s, t);
  }

  /** The handles an assignment, a reset or a release works on are the caller's. */
  lemma WorksOnMine(s0: State, t: nat, op: Operation)
    requires Enabled(s0, Call(t, op))
    ensures AfterOf(s0, op).Some? || op.Release? ==> Mine(s0, t, op, Target(op)) && Target(op) < |s0.handles|
    ensures op.CopyAssign? || op.MoveAssign? ==> Mine(s0, t, op, op.o) && op.o < |s0.handles|
  { }

  lemma DropGoesOn(s0: State, t: nat, op: Operation, s: State)
    requires Enabled(s, Step(t)) && Underway(s0, t, op, s) && Enabled(s0, Call(t, op))
    requires s.threads[t].Decrement? && StepNext(s, t).Next?
    ensures Underway(s0, t, op, StepNext(s, t).s)
  {
    WorksOnMine(s0, t, op);
  }

  lemma DyingGoesOn(s0: State, t: nat, op: Operation, s: State)
    requires Enabled(s, Step(t)) && Underway(s0, t, op, s) && Enabled(s0, Call(t, op))
    requires !s.threads[t].Decrement? && StepNext(s, t).Next?
    ensures Underway(s0, t, op, StepNext(s, t).s)
  {
    WorksOnMine(s0, t, op);
  }

  lemma StepGoesOn(s0: State, t: nat, op: Operation, s: State)
    requires Inv(s) && Enabled(s, Step(t)) && Underway(s0, t, op, s) && Enabled(s0, Call(t, op))
    ensures StepNext(s, t).Next? && Underway(s0, t, op, StepNext(s, t).s)
  {
    hide Inv;
    hide Underway;
    hide StepNext;
    PerformKeeps(s, Step(t));
    if s.threads[t].Decrement? {
      DropGoesOn(s0, t, op, s);
    } else {
      DyingGoesOn(s0, t, op, s);
    }
  }

  // ---------------------------------------------------------------- the counts

  /** The count of a block; a block not yet made has none. */
  function Ref(s: State, b: nat): int {
    if b < |s.blocks| then s.blocks[b].ref else 0
  }

  predicate Copies(op: Operation) {
    op.CopyConstruct? || (op.CopyAssign? && op.d != op.o)
  }

  predicate Drops(s0: State, op: Operation) {
    AfterOf(s0, op).Some? || (op.Release? && Unique(s0, op.d))
  }

  /** The references to `b` a call has added so far, less those it has given up. */
  function Gained(s0: State, op: Operation, pc: Thread, b: nat): int {
    (if Copies(op) && Held(s0, op.o) == Some(b) then 1 else 0)
    - (if !pc.Decrement? && Drops(s0, op) && Held(s0, Target(op)) == Some(b) then 1 else 0)
  }

  lemma CallCounts(s0: State, t: nat, op: Operation, b: nat)
    requires Inv(s0) && Enabled(s0, Call(t, op)) && b < |s0.blocks|
    ensures var r := CallNext(s0, t, op);
            r.Next? && t < |r.s.threads| && Ref(r.s, b) == Ref(s0, b) + Gained(s0, op, r.s.threads[t], b)
  {
    hide Inv;
    PerformKeeps(s0, Call(t, op));
  }

  lemma StepCounts(s0: State, t: nat, op: Operation, s: State, b: nat)
    requires Inv(s) && Enabled(s, Step(t)) && Underway(s0, t, op, s) && Enabled(s0, Call(t, op)) && b < |s0.blocks|
    ensures var r := StepNext(s, t);
            && r.Next? && t < |r.s.threads|
            && Ref(r.s, b) - Ref(s, b) == Gained(s0, op, r.s.threads[t], b) - Gained(s0, op, s.threads[t], b)
  {
    hide Inv;
    PerformKeeps(s, Step(t));
    assert s.threads[t].Decrement? ==> Mine(s0, t, op, Target(op));
  }

  // ---------------------------------------------------------------- whole calls

  /** The moment after the current or last call of thread `t` before state `i` began. */
  function LastCall(actions: seq<Action>, t: nat, i: nat): (j: nat)
    requires i <= |actions|
    ensures j <= i && (j > 0 ==> actions[j - 1].Call? && actions[j - 1].t == t)
  {
    if i == 0 then 0
    else if actions[i - 1].Call? && actions[i - 1].t == t then i
    else LastCall(actions, t, i - 1)
  }

  /** By how much the actions of thread `t` from the `j`-th to the `i`-th have changed a count. */
  function Change(states: seq<State>, actions: seq<Action>, t: nat, b: nat, j: nat, i: nat): int
    requires |states| == |actions| + 1 && j <= i <= |actions|
  {
    if i == j then 0
    else
      Change(states, actions, t, b, j, i - 1)
      + if actions[i - 1].t == t then Ref(states[i], b) - Ref(states[i - 1], b) else 0
  }

  lemma RunAt(states: seq<State>, actions: seq<Action>, i: nat)
    requires IsRun(states, actions) && i < |actions|
    ensures |states| == |actions| + 1
    ensures Enabled(states[i], actions[i]) && Perform(states[i], actions[i]) == Next(states[i + 1])
  { }

  lemma RunStarts(states: seq<State>, actions: seq<Action>, n: nat)
    requires IsRun(states, actions) && states[0] == Start(n)
    ensures |states| == |actions| + 1 && |states[0].threads| == n
  { }

  lemma DoneFrom(s0: State, t: nat, op: Operation, s: State)
    requires Underway(s0, t, op, s) && s.threads[t] == Idle
    ensures Done(s0, t, op, s)
  { }

  lemma LastCallStep(actions: seq<Action>, t: nat, i: nat)
    requires 0 < i <= |actions|
    ensures LastCall(actions, t, i)
         == if actions[i - 1].Call? && actions[i - 1].t == t then i else LastCall(actions, t, i - 1)
  { }

  /**
    In every run, from the moment an operation has been called until its thread calls the
    next one: once it has returned, each of the thread's handles holds what the operation
    should leave in it.
   */
  lemma {:induction false} CallsDoWhatTheySay(states: seq<State>, actions: seq<Action>, n: nat, t: nat, i: nat)
    requires IsRun(states, actions) && states[0] == Start(n) && i <= |actions|
    ensures |states| == |actions| + 1
    ensures var j := LastCall(actions, t, i);
            j > 0 ==>
              && Inv(states[j - 1]) && Enabled(states[j - 1], actions[j - 1])
              && Underway(states[j - 1], t, actions[j - 1].op, states[i])
              && (states[i].threads[t] == Idle ==> Done(states[j - 1], t, actions[j - 1].op, states[i]))
  {
    hide *;
    RunStarts(states, actions, n);
    if i > 0 {
      RunAt(states, actions, i - 1);
      AlwaysInv(states, actions, n, i - 1);
      LastCallStep(actions, t, i);
      CallsDoWhatTheySay(states, actions, n, t, i - 1);
      var j := LastCall(actions, t, i);
      if j > 0 {
        Onward(states[j - 1], t, actions[j - 1].op, states[i - 1], actions[i - 1], j == i);
        if states[i].threads[t] == Idle {
          DoneFrom(states[j - 1], t, actions[j - 1].op, states[i]);
        }
      }
    }
  }

  lemma Onward(s0: State, t: nat, op: Operation, s: State, a: Action, first: bool)
    requires Inv(s0) && Enabled(s0, Call(t, op)) && Inv(s) && Enabled(s, a)
    requires if first then s == s0 && a == Call(t, op) else Underway(s0, t, op, s) && !(a.Call? && a.t == t)
    ensures Perform(s, a).Next? && t < |Perform(s, a).s.threads| && Underway(s0, t, op, Perform(s, a).s)
  {
    hide Inv;
    hide CallNext;
    hide StepNext;
    if first {
      CallBegins(s0, t, op);
    } else if a.t == t {
      StepGoesOn(s0, t, op, s);
    } else {
      OthersLeave(s, a, t);
    }
  }

  lemma CountOnward(s0: State, t: nat, op: Operation, s: State, a: Action, first: bool, b: nat)
    requires Inv(s0) && Enabled(s0, Call(t, op)) && Inv(s) && Enabled(s, a) && b < |s0.blocks|
    requires if first then s == s0 && a == Call(t, op) else Underway(s0, t, op, s) && !(a.Call? && a.t == t)
    ensures var r := Perform(s, a);
            && r.Next? && t < |r.s.threads|
            && Gained(s0, op, r.s.threads[t], b)
               == (if first then 0 else Gained(s0, op, s.threads[t], b))
                  + if a.t == t then Ref(r.s, b) - Ref(s, b) else 0
  {
    hide Inv;
    hide CallNext;
    hide StepNext;
    hide Gained;
    if first {
      CallCounts(s0, t, op, b);
    } else if a.t == t {
      StepCounts(s0, t, op, s, b);
    } else {
      OthersLeave(s, a, t);
    }
  }

  lemma ChangeStep(states: seq<State>, actions: seq<Action>, t: nat, b: nat, j: nat, i: nat)
    requires |states| == |actions| + 1 && j <= i <= |actions|
    ensures i == j ==> Change(states, actions, t, b, j, i) == 0
    ensures i > j ==>
      Change(states, actions, t, b, j, i)
      == Change(states, actions, t, b, j, i - 1) + if actions[i - 1].t == t then Ref(states[i], b) - Ref(states[i - 1], b) else 0
  { }

  /**
    What a call does itself to the count of a block: a copy adds one reference, whatever
    drops a reference gives up that one, and nothing else changes any.
   */
  lemma {:induction false} CallsCountOnce(states: seq<State>, actions: seq<Action>, n: nat, t: nat, i: nat, b: nat)
    requires IsRun(states, actions) && states[0] == Start(n) && i <= |actions| == |states| - 1
    requires var j := LastCall(actions, t, i); j > 0 && b < |states[j - 1].blocks|
    ensures var j := LastCall(actions, t, i);
            && t < |states[i].threads|
            && Change(states, actions, t, b, j - 1, i) == Gained(states[j - 1], actions[j - 1].op, states[i].threads[t], b)
  {
    hide *;
    var j := LastCall(actions, t, i);
    RunAt(states, actions, i - 1);
    AlwaysInv(states, actions, n, i - 1);
    LastCallStep(actions, t, i);
    CallsDoWhatTheySay(states, actions, n, t, i);
    CallsDoWhatTheySay(states, actions, n, t, i - 1);
    ChangeStep(states, actions, t, b, j - 1, i);
    ChangeStep(states, actions, t, b, j - 1, i - 1);
    CountOnward(states[j - 1], t, actions[j - 1].op, states[i - 1], actions[i - 1], j == i, b);
    if j < i {
      CallsCountOnce(states, actions, n, t, i - 1, b);
    }
  }

  // ---------------------------------------------------------------- progress, and what is touched

  /** How many steps a call has before it at most. */
  function StepsLeft(pc: Thread): nat {
    match pc
    case Idle => 0
    case Decrement(_, _) => 3
    case CallDeleter(_, _) => 2
    case DeleteBlock(_, _) => 1
    case MoveOut(_) => 2
    case DeleteMovedOut(_) => 1
  }

  /** Every step of a thread brings its call nearer to its return, and no other thread can hold it up. */
  lemma CallsReturn(s: State, a: Action, t: nat)
    requires Inv(s) && Enabled(s, a) && t < |s.threads|
    ensures var r := Perform(s, a);
            && r.Next? && t < |r.s.threads|
            && (a == Step(t) ==> StepsLeft(r.s.threads[t]) < StepsLeft(s.threads[t]))
            && (a.t != t ==> r.s.threads[t] == s.threads[t])
            && (r.s.threads[t] == Idle || Enabled(r.s, Step(t)))
  {
    hide Inv;
    if a.t != t {
      OthersLeave(s, a, t);
    } else {
      PerformKeeps(s, a);
    }
  }

  /** The control block that an action touches. */
  function Touched(s: State, a: Action): Option<nat>
    requires Enabled(s, a)
  {
    match a
    case Call(t, op) =>
      (match op
       case CopyConstruct(o) => s.handles[o]
       case CopyAssign(d, o) => if d == o then None else s.handles[o]
       case Release(d) => s.handles[d]
       case _ => None)
    case Step(t) =>
      (match s.threads[t]
       case Idle => None
       case Decrement(h, _) => Held(s, h)
       case CallDeleter(b, _) => Some(b)
       case DeleteBlock(b, _) => Some(b)
       case MoveOut(b) => Some(b)
       case DeleteMovedOut(b) => Some(b))
  }

  /** In every run a control block that is touched has not been deleted. */
  lemma TouchedIsAlive(states: seq<State>, actions: seq<Action>, n: nat, i: nat)
    requires IsRun(states, actions) && states[0] == Start(n) && i < |actions|
    ensures |states| == |actions| + 1 && Enabled(states[i], actions[i])
    ensures Touched(states[i], actions[i]).Some? ==> Alive(states[i], Touched(states[i], actions[i]).value)
  {
    hide *;
    RunAt(states, actions, i);
    AlwaysInv(states, actions, n, i);
    TouchesAlive(states[i], actions[i]);
  }

  lemma TouchesAlive(s: State, a: Action)
    requires Inv(s) && Enabled(s, a)
    ensures Touched(s, a).Some? ==> Alive(s, Touched(s, a).value)
  {
    match a {
      case Call(t, op) =>
        match op {
          case CopyConstruct(o) => if s.handles[o].Some? { HandleIsAlive(s, o); }
          case CopyAssign(_, o) => if s.handles[o].Some? { HandleIsAlive(s, o); }
          case Release(d) => if s.handles[d].Some? { HandleIsAlive(s, d); }
          case _ =>
        }
      case Step(t) =>
        assert ThreadInv(s, t);
        if s.threads[t].Decrement? && Held(s, s.threads[t].h).Some? {
          HandleIsAlive(s, s.threads[t].h);
        }
    }
  }
}
