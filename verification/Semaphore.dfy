/**
  `LightweightSemaphore` with one waiting and one signalling thread, one step per atomic
  access: a counter in user space in front of a counting kernel semaphore.
 */
module Semaphore {
  import opened Wrappers

  /** `tryWait()`, or `wait(timeout)`: negative waits for ever, zero does not sleep at all. */
  datatype Operation = TryWait | Wait(timeout: int)

  datatype Waiter =
    | Idle(got: bool)
    | Load(op: Operation)
    | Spin(op: Operation, left: nat)
    | Take
    | Decrement(timeout: int)
    | Sleep
    | SleepTimed
    | Undo
    | Retry
    | TryKernel

  datatype Signaller = Quiet | Add(n: nat) | Post

  /** `signals` and `waits` are history: permits signalled, and waits that answered true. */
  datatype State = State(
    count: int, kernel: nat, w: Waiter, g: Signaller,
    initial: nat, signals: nat, waits: nat)

  datatype Outcome = Fault | Next(s: State)

  datatype Action = CallWait(op: Operation) | WaiterStep(timedOut: bool) | CallSignal(n: nat) | SignallerStep

  const SPIN: nat := 1024

  function Got(s: State): State {
    s.(w := Idle(true), waits := s.waits + 1)
  }

  predicate Enabled(s: State, a: Action) {
    match a
    case CallWait(_) => s.w.Idle?
    case WaiterStep(timedOut) =>
      && !s.w.Idle?
      && (s.w.Sleep? ==> s.kernel > 0)
      && (s.w.SleepTimed? ==> timedOut || s.kernel > 0)
    case CallSignal(_) => s.g.Quiet?
    case SignallerStep => !s.g.Quiet?
  }

  function WaiterNext(s: State, timedOut: bool): State
    requires Enabled(s, WaiterStep(timedOut))
  {
    match s.w
    case Load(op) =>
      if s.count > 0 then s.(w := Take)
      else if op == TryWait then s.(w := Idle(false))
      else s.(w := Spin(op, SPIN))
    case Spin(op, left) =>
      if left > 0 then
        if s.count > 0 then s.(w := Take) else s.(w := Spin(op, left - 1))
      else
        s.(w := Decrement(if op.Wait? then op.timeout else 0))
    case Take => Got(s.(count := s.count - 1))
    case Decrement(timeout) =>
      var s' := s.(count := s.count - 1);
      if s.count > 0 then Got(s')
      else if timeout < 0 then s'.(w := Sleep)
      else if timeout > 0 then s'.(w := SleepTimed)
      else s'.(w := Undo)
    case Sleep => Got(s.(kernel := s.kernel - 1))
    case SleepTimed =>
      if timedOut then s.(w := Undo) else Got(s.(kernel := s.kernel - 1))
    case Undo =>
      var s' := s.(count := s.count + 1);
      if s.count < 0 then s'.(w := Idle(false)) else s'.(w := Retry)
    case Retry =>
      var s' := s.(count := s.count - 1);
      if s.count > 0 then s'.(w := TryKernel) else s'.(w := Undo)
    case TryKernel =>
      if s.kernel > 0 then Got(s.(kernel := s.kernel - 1)) else s.(w := Undo)
  }

  function SignallerNext(s: State): Outcome
    requires Enabled(s, SignallerStep)
  {
    match s.g
    case Add(n) =>
      if s.count < -1 then Fault else
        Next(s.(count := s.count + n, signals := s.signals + n,
                g := if s.count < 0 then Post else Quiet))
    case Post => Next(s.(kernel := s.kernel + 1, g := Quiet))
  }

  function Step(s: State, a: Action): Outcome
    requires Enabled(s, a)
  {
    match a
    case CallWait(op) => Next(s.(w := Load(op)))
    case WaiterStep(timedOut) => Next(WaiterNext(s, timedOut))
    case CallSignal(n) => Next(s.(g := Add(n)))
    case SignallerStep => SignallerNext(s)
  }

  /** The waiter has taken one off the counter and does not know yet whether it gets it. */
  predicate Committed(w: Waiter) {
    w.Sleep? || w.SleepTimed? || w.Undo? || w.TryKernel?
  }

  function Owed(s: State): nat {
    if Committed(s.w) then 1 else 0
  }

  /** Kernel permits there are or are about to be. */
  function KernelPermits(s: State): nat {
    s.kernel + if s.g.Post? then 1 else 0
  }

  predicate Inv(s: State) {
    && s.count + Owed(s) + s.waits == s.initial + s.signals
    && s.count >= (if Committed(s.w) then -1 else if s.w.Take? || s.w.Retry? then 1 else 0)
    && (s.w.TryKernel? ==> s.count >= 0)
    && KernelPermits(s) == if (Committed(s.w) && s.count >= 0) || s.w.Retry? then 1 else 0
  }

  function Init(initial: nat): State {
    State(initial, 0, Idle(false), Quiet, initial, 0, 0)
  }

  /** Permits there are: signalled, or there from the start, and not yet taken. */
  function Available(s: State): int {
    s.initial + s.signals - s.waits
  }

  /** `availableApprox` */
  function AvailableApprox(s: State): nat {
    if s.count > 0 then s.count else 0
  }

  // ---------------------------------------------------------------- one step

  /** Every step but a signal of zero permits keeps the invariant, and no assertion fails. */
  lemma StepKeeps(s: State, a: Action)
    requires Inv(s) && Enabled(s, a)
    requires a.SignallerStep? && s.g.Add? ==> s.g.n > 0 || s.count >= 0
    ensures Step(s, a).Next? && Inv(Step(s, a).s)
  { }

  /**
    `signal(0)` wakes a sleeping waiter without giving it a permit. A signal keeps the
    books exactly when it signals at least one permit or finds nobody waiting.
   */
  lemma SignalKeepsExactlyWhen(s: State)
    requires Inv(s) && s.g.Add?
    ensures Step(s, SignallerStep).Next?
    ensures Inv(Step(s, SignallerStep).s) <==> s.g.n > 0 || s.count >= 0
  { }

  lemma CallKeeps(s: State, op: Operation)
    requires Inv(s)
    ensures s.w.Idle? ==> Inv(s.(w := Load(op)))
  { }

  /** What a waiter step leaves alone. */
  lemma WaiterLeaves(s: State, timedOut: bool)
    requires Enabled(s, WaiterStep(timedOut))
    ensures var s' := WaiterNext(s, timedOut);
            && s'.g == s.g && s'.signals == s.signals && s'.initial == s.initial
            && s'.waits == s.waits + if s'.w == Idle(true) then 1 else 0
  { }

  /** What a signaller step leaves alone. */
  lemma SignallerLeaves(s: State)
    requires Enabled(s, SignallerStep) && SignallerNext(s).Next?
    ensures SignallerNext(s).s.w == s.w
  { }

  /** The undo loop goes round only while a post is on its way. */
  lemma UndoLoopsOnlyWhilePosting(s: State, timedOut: bool)
    requires Inv(s) && Enabled(s, WaiterStep(timedOut))
    ensures s.w.Retry? ==> WaiterNext(s, timedOut).w.TryKernel?
    ensures s.w.TryKernel? && WaiterNext(s, timedOut).w.Undo? ==> s.g.Post?
  { }

  /** A waiter asleep while nobody signals has no permit to wake up for. */
  lemma NoLostWakeup(s: State)
    requires Inv(s) && (s.w.Sleep? || s.w.SleepTimed?) && s.g.Quiet? && s.kernel == 0
    ensures Available(s) == 0 && s.count == -1
  { }

  // ---------------------------------------------------------------- whole runs

  ghost predicate IsRun(states: seq<State>, actions: seq<Action>) {
    && |states| == |actions| + 1
    && forall i :: 0 <= i < |actions| ==>
         Enabled(states[i], actions[i]) && Step(states[i], actions[i]) == Next(states[i + 1])
  }

  ghost predicate SignalsPermits(actions: seq<Action>) {
    forall i :: 0 <= i < |actions| && actions[i].CallSignal? ==> actions[i].n > 0
  }

  /**
    In every run whose signals carry at least one permit each, waits that succeed never
    outnumber the permits given, and the counter never drops below -1.
   */
  lemma {:induction false} WaitsNeverExceedSignals(states: seq<State>, actions: seq<Action>, i: nat, initial: nat)
    requires IsRun(states, actions) && states[0] == Init(initial) && SignalsPermits(actions) && i <= |actions|
    ensures Inv(states[i]) && (states[i].g.Add? ==> states[i].g.n > 0)
    ensures states[i].initial == initial && states[i].waits <= initial + states[i].signals
    ensures states[i].count >= -1
  {
    if i > 0 {
      WaitsNeverExceedSignals(states, actions, i - 1, initial);
      StepKeeps(states[i - 1], actions[i - 1]);
    }
  }

  /** A wait that gives up, like one that succeeds, leaves only its permit behind in the books. */
  lemma FinishedWaitLeavesNoTrace(states: seq<State>, actions: seq<Action>, i: nat, initial: nat)
    requires IsRun(states, actions) && states[0] == Init(initial) && SignalsPermits(actions) && i <= |actions|
    requires states[i].w.Idle?
    ensures states[i].count == Available(states[i]) && KernelPermits(states[i]) == 0
  {
    WaitsNeverExceedSignals(states, actions, i, initial);
  }

  // ---------------------------------------------------------------- what a wait may do

  /** The current or last wait before state `i`. */
  function LastWait(actions: seq<Action>, i: nat): (op: Option<Operation>)
    requires i <= |actions|
  {
    if i == 0 then None
    else if actions[i - 1].CallWait? then Some(actions[i - 1].op)
    else LastWait(actions, i - 1)
  }

  /** A wait without a timeout: it may sleep until it is signalled, and only that. */
  predicate ForEver(op: Operation) {
    op.Wait? && op.timeout < 0
  }

  /** Where a wait of each kind can be. */
  predicate Fits(op: Operation, w: Waiter) {
    match w
    case Idle(got) => !got ==> !ForEver(op)
    case Load(o) => o == op
    case Spin(o, _) => o == op && op.Wait?
    case Take => true
    case Decrement(timeout) => op == Wait(timeout)
    case Sleep => ForEver(op)
    case _ => op.Wait? && op.timeout >= 0 && (w.SleepTimed? ==> op.timeout > 0)
  }

  lemma StepFits(s: State, a: Action, op: Operation)
    requires Enabled(s, a) && Step(s, a).Next?
    requires if a.CallWait? then a.op == op else Fits(op, s.w)
    ensures Fits(op, Step(s, a).s.w)
  { }

  lemma {:induction false} AlwaysFits(states: seq<State>, actions: seq<Action>, i: nat)
    requires IsRun(states, actions) && i <= |actions|
    ensures LastWait(actions, i).Some? ==> Fits(LastWait(actions, i).value, states[i].w)
  {
    if i > 0 {
      AlwaysFits(states, actions, i - 1);
      var a := actions[i - 1];
      assert Enabled(states[i - 1], a) && Step(states[i - 1], a) == Next(states[i]);
      if LastWait(actions, i).Some? {
        StepFits(states[i - 1], a, LastWait(actions, i).value);
      }
    }
  }

  /** A wait without a timeout never answers false. */
  lemma ForEverNeverGivesUp(states: seq<State>, actions: seq<Action>, i: nat)
    requires IsRun(states, actions) && i <= |actions|
    requires LastWait(actions, i).Some? && ForEver(LastWait(actions, i).value)
    ensures states[i].w != Idle(false)
  {
    AlwaysFits(states, actions, i);
  }

  /** Any other wait can always go on, timing out where it has to, whatever the signaller does. */
  lemma OthersNeverStuck(states: seq<State>, actions: seq<Action>, i: nat)
    requires IsRun(states, actions) && i <= |actions|
    requires LastWait(actions, i).Some? && !ForEver(LastWait(actions, i).value)
    ensures states[i].w.Idle? || Enabled(states[i], WaiterStep(true))
    ensures LastWait(actions, i).value == TryWait ==> !states[i].w.SleepTimed?
  {
    AlwaysFits(states, actions, i);
  }

  /** A wait that answers false does so at a moment without a permit. */
  lemma RefusalIsRight(s: State, timedOut: bool)
    requires Inv(s) && Enabled(s, WaiterStep(timedOut)) && WaiterNext(s, timedOut).w == Idle(false)
    ensures Available(s) == 0
  { }

  /** How many steps a wait can take at most while nobody signals. */
  function StepsLeft(w: Waiter): nat {
    match w
    case Idle(_) => 0
    case Load(_) => SPIN + 7
    case Spin(_, left) => left + 6
    case Take => 1
    case Decrement(_) => 5
    case Sleep => 1
    case SleepTimed => 4
    case Undo => 3
    case Retry => 2
    case TryKernel => 1
  }

  lemma StepAlone(s: State, timedOut: bool)
    requires Inv(s) && s.g.Quiet? && Enabled(s, WaiterStep(timedOut))
    ensures var s' := WaiterNext(s, timedOut);
            && Inv(s') && s'.g.Quiet? && StepsLeft(s'.w) < StepsLeft(s.w)
            && (if s'.w.Idle? then s'.w.got == (Available(s) > 0) else Available(s') == Available(s))
  { }

  /**
    While nobody signals, a wait that is under way returns after a bounded number of steps,
    or sleeps for ever, and it answers true if and only if there is a permit.
   */
  lemma {:induction false} AloneAnswers(states: seq<State>, actions: seq<Action>, i: nat)
    requires IsRun(states, actions) && Inv(states[0]) && states[0].g.Quiet? && !states[0].w.Idle?
    requires forall k :: 0 <= k < |actions| ==> actions[k].WaiterStep?
    requires i <= |actions|
    ensures Inv(states[i]) && states[i].g.Quiet? && i + StepsLeft(states[i].w) <= StepsLeft(states[0].w)
    ensures if states[i].w.Idle? then states[i].w.got == (Available(states[0]) > 0)
            else Available(states[i]) == Available(states[0])
  {
    if i > 0 {
      AloneAnswers(states, actions, i - 1);
      assert Enabled(states[i - 1], actions[i - 1]) && Step(states[i - 1], actions[i - 1]) == Next(states[i]);
      StepAlone(states[i - 1], actions[i - 1].timedOut);
    }
  }

  // ---------------------------------------------------------------- signals of zero permits

  /** Some run leads from `z` to `s`; unless `zeros`, without any further signals of zero permits. */
  ghost predicate Reaches(z: State, s: State, zeros: bool) {
    exists states, actions ::
      && IsRun(states, actions) && (zeros || SignalsPermits(actions))
      && states[0] == z && states[|actions|] == s
  }

  lemma Stay(z: State, zeros: bool)
    ensures Reaches(z, z, zeros)
  {
    assert IsRun([z], []) && SignalsPermits([]);
  }

  lemma Go(z: State, s: State, a: Action, zeros: bool)
    requires Reaches(z, s, zeros) && Enabled(s, a) && Step(s, a).Next? && (zeros || !a.CallSignal?)
    ensures Reaches(z, Step(s, a).s, zeros)
  {
    var states, actions :|
      && IsRun(states, actions) && (zeros || SignalsPermits(actions))
      && states[0] == z && states[|actions|] == s;
    var states', actions' := states + [Step(s, a).s], actions + [a];
    assert IsRun(states', actions') && states'[0] == z && states'[|actions'|] == Step(s, a).s;
  }

  lemma {:induction false} ReturnsAlone(z: State, s: State, op: Operation)
    requires Inv(s) && s.g.Quiet? && Fits(op, s.w) && !ForEver(op) && Reaches(z, s, false)
    ensures exists s' :: Reaches(z, s', false) && s'.w == Idle(if s.w.Idle? then s.w.got else Available(s) > 0)
    decreases StepsLeft(s.w)
  {
    hide Reaches;
    if s.w.Idle? {
      assert Reaches(z, s, false) && s.w == Idle(s.w.got);
    } else {
      var a := WaiterStep(true);
      StepAlone(s, true);
      StepFits(s, a, op);
      Go(z, s, a, false);
      ReturnsAlone(z, WaiterNext(s, true), op);
    }
  }

  /**
    From every state of a wait that may give up, it can return while nobody signals: with
    false if there is no permit, with true if there is.
   */
  lemma WaitCanReturn(s: State, op: Operation)
    requires Inv(s) && s.g.Quiet? && Fits(op, s.w) && !ForEver(op) && !s.w.Idle?
    ensures exists s' :: Reaches(s, s', false) && s'.w == Idle(Available(s) > 0)
  {
    Stay(s, false);
    ReturnsAlone(s, s, op);
  }

  /** A waiter that finds the counter at zero ends its spinning empty-handed. */
  lemma {:induction false} SpinOut(z: State, s: State, left: nat, zeros: bool)
    requires s.count == 0 && Reaches(z, s.(w := Spin(Wait(-1), left)), zeros)
    ensures Reaches(z, s.(w := Spin(Wait(-1), 0)), zeros)
  {
    if left > 0 {
      Go(z, s.(w := Spin(Wait(-1), left)), WaiterStep(false), zeros);
      SpinOut(z, s, left - 1, zeros);
    }
  }

  /** With the counter at zero, a wait without a timeout comes to sleep. */
  lemma FallAsleep(z: State, s: State, zeros: bool)
    requires s.count == 0 && s.w.Idle? && Reaches(z, s, zeros)
    ensures Reaches(z, s.(w := Sleep, count := -1), zeros)
  {
    hide Reaches;
    Go(z, s, CallWait(Wait(-1)), zeros);
    Go(z, s.(w := Load(Wait(-1))), WaiterStep(false), zeros);
    SpinOut(z, s, SPIN, zeros);
    Go(z, s.(w := Spin(Wait(-1), 0)), WaiterStep(false), zeros);
    Go(z, s.(w := Decrement(-1)), WaiterStep(false), zeros);
  }

  /** More waits have succeeded than there were permits. */
  predicate Overdrawn(s: State) {
    s.waits > s.initial + s.signals
  }

  /** With `signal(0)`, which the code's assertion allows, a wait succeeds without any permit. */
  lemma ZeroSignalForgesAPermit()
    ensures exists s :: Reaches(Init(0), s, true) && Overdrawn(s)
  {
    hide Reaches;
    var z := Init(0);
    Stay(z, true);
    FallAsleep(z, z, true);
    var asleep := z.(w := Sleep, count := -1);
    Go(z, asleep, CallSignal(0), true);
    Go(z, asleep.(g := Add(0)), SignallerStep, true);
    Go(z, asleep.(g := Post), SignallerStep, true);
    Go(z, asleep.(kernel := 1), WaiterStep(false), true);
    var s := z.(w := Idle(true), count := -1, waits := 1);
    assert Reaches(z, s, true);
  }

  /** A stray kernel permit wakes whoever sleeps, or the next one who comes to sleep. */
  lemma StrayPermitForges(s: State)
    requires s.g.Post? && s.count == -1 && Available(s) == 0 && s.kernel == 0
    requires s.w.Sleep? || s.w.SleepTimed? || s.w.Undo?
    ensures exists s' :: Reaches(s, s', false) && Overdrawn(s')
  {
    hide Reaches;
    Stay(s, false);
    Go(s, s, SignallerStep, false);
    var s1 := s.(g := Quiet, kernel := 1);
    if s.w.Undo? {
      Go(s, s1, WaiterStep(false), false);
      var s2 := s1.(w := Idle(false), count := 0);
      FallAsleep(s, s2, false);
      Go(s, s2.(w := Sleep, count := -1), WaiterStep(false), false);
      var s3 := s2.(w := Idle(true), count := -1, kernel := 0, waits := s2.waits + 1);
      assert Reaches(s, s3, false) && Overdrawn(s3);
    } else {
      Go(s, s1, WaiterStep(false), false);
      var s2 := s1.(w := Idle(true), kernel := 0, waits := s1.waits + 1);
      assert Reaches(s, s2, false) && Overdrawn(s2);
    }
  }

  lemma {:induction false} InvBalances(states: seq<State>, actions: seq<Action>, i: nat)
    requires IsRun(states, actions) && SignalsPermits(actions) && i <= |actions|
    requires Inv(states[0]) && (states[0].g.Add? ==> states[0].g.n > 0)
    ensures Inv(states[i]) && (states[i].g.Add? ==> states[i].g.n > 0)
  {
    hide Inv;
    hide Enabled;
    hide Step;
    if i > 0 {
      InvBalances(states, actions, i - 1);
      RunAt(states, actions, i - 1);
      PermitsKeep(states[i - 1], actions[i - 1]);
    }
  }

  lemma RunAt(states: seq<State>, actions: seq<Action>, i: nat)
    requires IsRun(states, actions) && SignalsPermits(actions) && i < |actions|
    ensures Enabled(states[i], actions[i]) && Step(states[i], actions[i]) == Next(states[i + 1])
    ensures actions[i].CallSignal? ==> actions[i].n > 0
  { }

  lemma PermitsKeep(s: State, a: Action)
    requires Inv(s) && (s.g.Add? ==> s.g.n > 0) && Enabled(s, a) && (a.CallSignal? ==> a.n > 0)
    ensures Step(s, a).Next? && Inv(Step(s, a).s) && (Step(s, a).s.g.Add? ==> Step(s, a).s.g.n > 0)
  {
    hide Inv;
    StepKeeps(s, a);
  }

  /**
    After a signal, waits can come to outnumber permits, with no further signal of zero
    permits, if and only if it was one itself and found somebody waiting.
   */
  lemma ForgesExactlyWhen(s: State)
    requires Inv(s) && s.g.Add?
    ensures Step(s, SignallerStep).Next?
    ensures (exists s' :: Reaches(Step(s, SignallerStep).s, s', false) && Overdrawn(s')) <==> s.g.n == 0 && s.count < 0
  {
    var s1 := Step(s, SignallerStep).s;
    if s.g.n == 0 && s.count < 0 {
      StrayPermitForges(s1);
    } else {
      SignalKeepsExactlyWhen(s);
      forall s' | Reaches(s1, s', false)
        ensures !Overdrawn(s')
      {
        var states, actions :|
          && IsRun(states, actions) && (false || SignalsPermits(actions))
          && states[0] == s1 && states[|actions|] == s';
        InvBalances(states, actions, |actions|);
      }
    }
  }
}
