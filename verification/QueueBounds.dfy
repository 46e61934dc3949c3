/**
  The code is safe exactly for queues built for 1 up to `2^63 - 1` elements.

  Built for none, a queue starts with a block of a single slot. Once an enqueue has added
  a second block and the consumer has moved on to it, the producer may come back to the
  first one, where advancing `tail` leaves it where it was: the element is lost, and the
  consumer fails its assertion that a block it moves on to is not empty. Built for `2^63`
  or more, a queue starts with a block of no slots, because rounding up to a power of two
  wraps to 0; the first enqueue constructs its element outside.
 */
module QueueBounds {
  import opened Wrappers
  import opened Words
  import opened SpscQueue
  import opened QueueRuns
  import opened QueueLifecycle

  /** Some run leads from `z` to `s`. */
  ghost predicate Reaches<T(!new)>(z: State<T>, s: State<T>) {
    exists states, actions :: IsRun(states, actions) && states[0] == z && states[|actions|] == s
  }

  lemma Stay<T(!new)>(z: State<T>)
    ensures Reaches(z, z)
  {
    assert IsRun([z], []);
  }

  lemma Go<T(!new)>(z: State<T>, s: State<T>, a: Action<T>, s': State<T>)
    requires Reaches(z, s) && Enabled(s, a) && Step(s, a) == Next(s')
    ensures Reaches(z, s')
  {
    var states, actions :| IsRun(states, actions) && states[0] == z && states[|actions|] == s;
    var states', actions' := states + [s'], actions + [a];
    assert IsRun(states', actions');
    assert states'[0] == z && states'[|actions'|] == s';
  }

  /** Whatever the schedule, no step faults. */
  ghost predicate Safe<T(!new)>(z: State<T>) {
    forall s, a :: Reaches(z, s) && Enabled(s, a) ==> Step(s, a).Next?
  }

  // The states of the failing run. The first block has one slot, the second two.

  function First<T>(next: nat, j: T, live: bool): Block<T> {
    Block(0, 0, 0, 0, next, [j], [live])
  }

  function Start<T>(maxBlock: nat, j: T): State<T> {
    Built(maxBlock, 1, [First(0, j, false)])
  }

  function Second<T>(front: nat, x: T, j: T, live: bool): Block<T> {
    Block(front, 1, 1, 0, 0, [x, j], [live, false])
  }

  /** Both blocks, the tail at the second. */
  function Two<T>(maxBlock: nat, j: T, x: T): State<T> {
    State(maxBlock, 2, [First(1, j, false), Second(0, x, j, true)], 0, 1,
          PIdle(Accepted), CIdle(NotDequeued), [x], [], [0, 1], 1)
  }

  /** The consumer has moved on to the second block and is about to read `x`. */
  function Moved<T>(maxBlock: nat, j: T, x: T): State<T> {
    Two(maxBlock, j, x).(frontBlock := 1, ring := [1, 0], k := 0, c := CRead(TryDequeue, 1, 0))
  }

  /** The producer has put `y` in the first block, which still looks empty. */
  function Lost<T>(maxBlock: nat, j: T, x: T, y: T): State<T> {
    Moved(maxBlock, j, x).(blocks := [First(1, y, true), Second(0, x, j, true)],
                           tailBlock := 0, k := 1, accepted := [x, y])
  }

  /** `enqueue(x)` finds no room in the only block. */
  lemma EnqueueX1<T(!new)>(maxBlock: nat, j: T, x: T, z: State<T>)
    requires maxBlock >= 2 && Reaches(z, Start(maxBlock, j))
    ensures Reaches(z, Start(maxBlock, j).(p := PMakeBlock(x, 0)))
  {
    hide Reaches;
    var s := Start(maxBlock, j);
    var a := ProducerStep(true, [j, j]);
    var s0 := s;
    var s1 := s.(p := PLoadTailBlock(x, true));
    Go(z, s0, CallEnqueue(x, true), s1);
    var s2 := s.(p := PLoadTail(x, true, 0));
    Go(z, s1, a, s2);
    var s3 := s.(p := PLoadFront(x, true, 0, 0));
    Go(z, s2, a, s3);
    var s4 := s.(p := PLoadNext(x, true, 0));
    Go(z, s3, a, s4);
    var s5 := s.(p := PLoadFrontBlock(x, true, 0, 0));
    Go(z, s4, a, s5);
    var s6 := s.(p := PMakeBlock(x, 0));
    Go(z, s5, a, s6);
  }

  /** The new block holds `x`, but is not linked yet. */
  function Placed<T>(maxBlock: nat, j: T, x: T): State<T> {
    Start(maxBlock, j).(
      p := PStoreNewTail(x, 0, 1), largest := 2,
      blocks := [First(0, j, false), Block(0, 0, 0, 0, 0, [x, j], [true, false])])
  }

  /** It allocates a block and constructs `x` there. */
  lemma EnqueueX2<T(!new)>(maxBlock: nat, j: T, x: T, z: State<T>)
    requires maxBlock >= 2 && Reaches(z, Start(maxBlock, j).(p := PMakeBlock(x, 0)))
    ensures Reaches(z, Placed(maxBlock, j, x))
  {
    hide Reaches;
    var s := Start(maxBlock, j);
    var a := ProducerStep(true, [j, j]);
    assert NewBlock([j, j]).live[0 := true] == [true, false] && [j, j][0 := x] == [x, j];
    var s0 := s.(p := PMakeBlock(x, 0));
    var s1 := s.(p := PConstructNew(x, 0, 1), largest := 2, blocks := [First(0, j, false), NewBlock([j, j])]);
    Go(z, s0, a, s1);
    var s2 := Placed(maxBlock, j, x);
    Go(z, s1, a, s2);
  }

  /** It links that block and makes it the tail. */
  lemma EnqueueX3<T(!new)>(maxBlock: nat, j: T, x: T, z: State<T>)
    requires maxBlock >= 2 && Reaches(z, Placed(maxBlock, j, x))
    ensures Reaches(z, Two(maxBlock, j, x))
  {
    hide Reaches;
    var s := Start(maxBlock, j);
    var a := ProducerStep(true, [j, j]);
    var s0 := Placed(maxBlock, j, x);
    var s1 := s.(p := PStoreNewNext(x, 0, 1), largest := 2, blocks := [First(0, j, false), Second(0, x, j, true)]);
    Go(z, s0, a, s1);
    var s2 := s.(p := PLinkNew(x, 0, 1), largest := 2, blocks := [First(0, j, false), Second(0, x, j, true)]);
    Go(z, s1, a, s2);
    var s3 := s.(p := PStoreTailBlock(x, 1), largest := 2, blocks := [First(1, j, false), Second(0, x, j, true)], ring := [0, 1]);
    Go(z, s2, a, s3);
    var s4 := Two(maxBlock, j, x);
    Go(z, s3, a, s4);
  }

  /** The consumer finds the first block empty and moves on. */
  lemma MoveOn<T(!new)>(maxBlock: nat, j: T, x: T, z: State<T>)
    requires maxBlock >= 2 && Reaches(z, Two(maxBlock, j, x))
    ensures Reaches(z, Moved(maxBlock, j, x))
  {
    hide Reaches;
    var s := Two(maxBlock, j, x);
    var s0 := s;
    var s1 := s.(c := CLoadFrontBlock(TryDequeue));
    Go(z, s0, CallDequeue(TryDequeue), s1);
    var s2 := s.(c := CLoadFront(TryDequeue, 0));
    Go(z, s1, ConsumerStep, s2);
    var s3 := s.(c := CLoadTail(TryDequeue, 0, 0));
    Go(z, s2, ConsumerStep, s3);
    var s4 := s.(c := CLoadTailBlock(TryDequeue, 0, 0));
    Go(z, s3, ConsumerStep, s4);
    var s5 := s.(c := CReloadFrontBlock(TryDequeue));
    Go(z, s4, ConsumerStep, s5);
    var s6 := s.(c := CReloadTail(TryDequeue, 0));
    Go(z, s5, ConsumerStep, s6);
    var s7 := s.(c := CReloadFront(TryDequeue, 0, 0));
    Go(z, s6, ConsumerStep, s7);
    var s8 := s.(c := CLoadNext(TryDequeue, 0));
    Go(z, s7, ConsumerStep, s8);
    var s9 := s.(c := CLoadNextFront(TryDequeue, 1));
    Go(z, s8, ConsumerStep, s9);
    var s10 := s.(c := CLoadNextTail(TryDequeue, 1, 0));
    Go(z, s9, ConsumerStep, s10);
    var s11 := s.(c := CStoreFrontBlock(TryDequeue, 1, 0));
    Go(z, s10, ConsumerStep, s11);
    var s12 := Moved(maxBlock, j, x);
    Go(z, s11, ConsumerStep, s12);
  }

  /** `try_enqueue(y)` comes round to the first block. */
  lemma EnqueueY1<T(!new)>(maxBlock: nat, j: T, x: T, y: T, z: State<T>)
    requires maxBlock >= 2 && Reaches(z, Moved(maxBlock, j, x))
    ensures Reaches(z, Moved(maxBlock, j, x).(p := PLoadNextAgain(y, 1)))
  {
    hide Reaches;
    var s := Moved(maxBlock, j, x);
    var a := ProducerStep(false, []);
    var s0 := s;
    var s1 := s.(p := PLoadTailBlock(y, false));
    Go(z, s0, CallEnqueue(y, false), s1);
    var s2 := s.(p := PLoadTail(y, false, 1));
    Go(z, s1, a, s2);
    var s3 := s.(p := PLoadFront(y, false, 1, 1));
    Go(z, s2, a, s3);
    var s4 := s.(p := PLoadNext(y, false, 1));
    Go(z, s3, a, s4);
    var s5 := s.(p := PLoadFrontBlock(y, false, 1, 0));
    Go(z, s4, a, s5);
    var s6 := s.(p := PLoadNextAgain(y, 1));
    Go(z, s5, a, s6);
  }

  /** `y` is in the one slot of the first block, `tail` not yet advanced. */
  function Returned<T>(maxBlock: nat, j: T, x: T, y: T): State<T> {
    Moved(maxBlock, j, x).(p := PStoreNextTail(y, 0, 0), blocks := [First(1, y, true), Second(0, x, j, true)])
  }

  /** It constructs `y` there. */
  lemma EnqueueY2<T(!new)>(maxBlock: nat, j: T, x: T, y: T, z: State<T>)
    requires maxBlock >= 2 && Reaches(z, Moved(maxBlock, j, x).(p := PLoadNextAgain(y, 1)))
    ensures Reaches(z, Returned(maxBlock, j, x, y))
  {
    hide Reaches;
    var s := Moved(maxBlock, j, x);
    var a := ProducerStep(false, []);
    assert [j][0 := y] == [y] && [false][0 := true] == [true];
    var s0 := s.(p := PLoadNextAgain(y, 1));
    var s1 := s.(p := PLoadNextFront(y, 0));
    Go(z, s0, a, s1);
    var s2 := s.(p := PLoadNextTail(y, 0, 0));
    Go(z, s1, a, s2);
    var s3 := s.(p := PConstructNext(y, 0, 0));
    Go(z, s2, a, s3);
    var s4 := Returned(maxBlock, j, x, y);
    Go(z, s3, a, s4);
  }

  /** Advancing `tail` leaves it at 0. */
  lemma EnqueueY3<T(!new)>(maxBlock: nat, j: T, x: T, y: T, z: State<T>)
    requires maxBlock >= 2
    requires Reaches(z, Returned(maxBlock, j, x, y))
    ensures Reaches(z, Lost(maxBlock, j, x, y))
  {
    hide Reaches;
    var s := Moved(maxBlock, j, x);
    var a := ProducerStep(false, []);
    var s4 := Returned(maxBlock, j, x, y);
    var s5 := s.(p := PStoreTailBlock(y, 0), blocks := [First(1, y, true), Second(0, x, j, true)]);
    Go(z, s4, a, s5);
    var s6 := Lost(maxBlock, j, x, y);
    Go(z, s5, a, s6);
  }

  /** `x` is out; the consumer has moved past the second block and asserts there is more. */
  function Failing<T>(maxBlock: nat, j: T, x: T, y: T): State<T> {
    Lost(maxBlock, j, x, y).(blocks := [First(1, y, true), Second(1, x, j, false)],
                             removed := [x], c := CLoadNextTail(TryDequeue, 0, 0))
  }

  /** `x` is taken; the next dequeue goes looking for `y` in a block that looks empty. */
  lemma DequeueTwice<T(!new)>(maxBlock: nat, j: T, x: T, y: T, z: State<T>)
    requires maxBlock >= 2 && Reaches(z, Lost(maxBlock, j, x, y))
    ensures Reaches(z, Failing(maxBlock, j, x, y))
  {
    hide Reaches;
    var s := Lost(maxBlock, j, x, y);
    var t := Failing(maxBlock, j, x, y).(c := CIdle(Removed(Some(x))));
    assert [true, false][0 := false] == [false, false];
    var s0 := s;
    var s1 := s.(c := CDestroy(TryDequeue, 1, 0, Some(x)));
    Go(z, s0, ConsumerStep, s1);
    var s2 := s.(c := CStoreFront(TryDequeue, 1, 0, Some(x)), blocks := [First(1, y, true), Second(0, x, j, false)]);
    Go(z, s1, ConsumerStep, s2);
    var s3 := t;
    Go(z, s2, ConsumerStep, s3);
    var s4 := t.(c := CLoadFrontBlock(TryDequeue));
    Go(z, s3, CallDequeue(TryDequeue), s4);
    var s5 := t.(c := CLoadFront(TryDequeue, 1));
    Go(z, s4, ConsumerStep, s5);
    var s6 := t.(c := CLoadTail(TryDequeue, 1, 1));
    Go(z, s5, ConsumerStep, s6);
    var s7 := t.(c := CLoadTailBlock(TryDequeue, 1, 1));
    Go(z, s6, ConsumerStep, s7);
    var s8 := t.(c := CReloadFrontBlock(TryDequeue));
    Go(z, s7, ConsumerStep, s8);
    var s9 := t.(c := CReloadTail(TryDequeue, 1));
    Go(z, s8, ConsumerStep, s9);
    var s10 := t.(c := CReloadFront(TryDequeue, 1, 1));
    Go(z, s9, ConsumerStep, s10);
    var s11 := t.(c := CLoadNext(TryDequeue, 1));
    Go(z, s10, ConsumerStep, s11);
    var s12 := t.(c := CLoadNextFront(TryDequeue, 0));
    Go(z, s11, ConsumerStep, s12);
    var s13 := Failing(maxBlock, j, x, y);
    Go(z, s12, ConsumerStep, s13);
  }

  /** A block without slots: the first enqueue finds room where there is none. */
  lemma NoSlots<T(!new)>(z: State<T>, maxBlock: nat, x: T)
    requires EmptyRing(z.blocks, 1, 0) && z == Built(maxBlock, 0, z.blocks)
    ensures !Safe(z)
  {
    hide Reaches;
    var a := ProducerStep(false, []);
    Stay(z);
    var s1 := z.(p := PLoadTailBlock(x, false));
    Go(z, z, CallEnqueue(x, false), s1);
    var s2 := z.(p := PLoadTail(x, false, 0));
    Go(z, s1, a, s2);
    var s3 := z.(p := PConstruct(x, 0, 0));
    Go(z, s2, a, s3);
    assert Step(s3, a) == Fault;
  }

  /**
    From a queue constructed for `size` elements no schedule makes the code fault, if and
    only if `size` is at least 1 and below `2^63`.
   */
  lemma SafeExactlyWhenSized<T(!new)>(z: State<T>, size: nat, maxBlock: nat, k: nat, x: T)
    requires k >= 1 && maxBlock == Pow2(k) >= 2 && Constructed(z, size, maxBlock)
    ensures Safe(z) <==> 1 <= size < Pow2(W - 1)
  {
    hide Pow2;
    var count: nat, largest: nat :| Planned(size, maxBlock, count, largest)
      && EmptyRing(z.blocks, count, largest) && z == Built(maxBlock, largest, z.blocks);
    PlanIsEnough(size, maxBlock, k, count, largest);
    if 1 <= size < Pow2(W - 1) {
      BuiltIsFresh(maxBlock, largest, z.blocks, count);
      forall s, a | Reaches(z, s) && Enabled(s, a)
        ensures Step(s, a).Next?
      {
        var states, actions :| IsRun(states, actions) && states[0] == z && states[|actions|] == s;
        NeverFaults(states, actions, a);
      }
    } else if size > 0 {
      NoSlots(z, maxBlock, x);
    } else {
      Pow2Monotone(0, W - 1);
      SmallPowers();
      var j := z.blocks[0].data[0];
      assert z.blocks == [First(0, j, false)] by {
        assert z.blocks[0].data == [j] && z.blocks[0].live == [false];
      }
      Stay(z);
      EnqueueX1(maxBlock, j, j, z);
      EnqueueX2(maxBlock, j, j, z);
      EnqueueX3(maxBlock, j, j, z);
      MoveOn(maxBlock, j, j, z);
      EnqueueY1(maxBlock, j, j, j, z);
      EnqueueY2(maxBlock, j, j, j, z);
      EnqueueY3(maxBlock, j, j, j, z);
      DequeueTwice(maxBlock, j, j, j, z);
      assert Step(Failing(maxBlock, j, j, j), ConsumerStep) == Fault;
    }
  }
}
