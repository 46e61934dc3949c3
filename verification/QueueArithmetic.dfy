/** The index arithmetic of the queue on 64-bit words. */
module QueueArithmetic {
  import opened Words
  import opened Circular

  /** The least power of two that is at least `x`. */
  ghost predicate IsCeilPow2(x: nat, p: nat) {
    && x <= p
    && (exists k: nat :: p == Pow2(k))
    && (forall k: nat :: x <= Pow2(k) ==> p <= Pow2(k))
  }

  /** Every bit of `a` has been copied into the `w - 1` places below it. */
  ghost predicate Smeared(a: nat, x: nat, w: nat) {
    forall i :: 0 <= i < W ==> (Bit(x, i) <==> exists j :: i <= j < i + w && j < W && Bit(a, j))
  }

  lemma SmearMore(a: nat, x: nat, w: nat)
    requires Smeared(a, x, w)
    ensures Or(x, Shr(x, w)) < Pow2(W) && Smeared(a, Or(x, Shr(x, w)), 2 * w)
  {
    OrBits(x, Shr(x, w));
    ShrBits(x, w);
    var y := Or(x, Shr(x, w));
    forall i | 0 <= i < W
      ensures Bit(y, i) <==> exists j :: i <= j < i + 2 * w && j < W && Bit(a, j)
    {
      assert Bit(y, i) <==> Bit(x, i) || (i + w < W && Bit(x, i + w));
    }
  }

  lemma {:induction false} HighestBit(a: nat, n: nat) returns (t: nat)
    requires 0 < a < Pow2(W) && n <= W && forall i :: n <= i < W ==> !Bit(a, i)
    ensures t < n && Bit(a, t) && forall i :: t < i < W ==> !Bit(a, i)
  {
    if n == 0 {
      NoBit(a);
      assert false;
    } else if Bit(a, n - 1) {
      t := n - 1;
    } else {
      t := HighestBit(a, n - 1);
    }
  }

  /** The power of two above a word's highest bit is the least one above the word. */
  lemma NextPower(a: nat, t: nat)
    requires Pow2(t) <= a < Pow2(t + 1)
    ensures IsCeilPow2(a + 1, Pow2(t + 1))
  {
    forall k: nat | a + 1 <= Pow2(k)
      ensures Pow2(t + 1) <= Pow2(k)
    {
      if k <= t {
        Pow2Monotone(k, t);
        assert false;
      } else {
        Pow2Monotone(t + 1, k);
      }
    }
  }

  lemma SmearedOnes(a: nat, x: nat, t: nat)
    requires x < Pow2(W) && Smeared(a, x, W) && t < W
    requires Bit(a, t) && forall i :: t < i < W ==> !Bit(a, i)
    ensures x == Pow2(t + 1) - 1
  {
    hide Pow2;
    hide Bits;
    OnesBits(t + 1, W);
    var ones := Pow2(t + 1) - 1;
    Pow2Monotone(t + 1, W);
    forall i | 0 <= i < W
      ensures Bit(x, i) <==> Bit(ones, i)
    {
      assert Bits(ones, W)[i] <==> i < t + 1;
    }
    SameBits(x, ones);
  }

  /** A fully smeared word is one less than the power of two above it. */
  lemma FullySmeared(a: nat, x: nat)
    requires a < Pow2(W) && x < Pow2(W) && Smeared(a, x, W)
    ensures IsCeilPow2(a + 1, x + 1) && x + 1 <= Pow2(W)
    ensures a >= Pow2(W - 1) ==> x + 1 == Pow2(W)
  {
    SmallPowers();
    hide Pow2;
    hide Bits;
    if a == 0 {
      OnesBits(0, W);
      forall i | 0 <= i < W
        ensures !Bit(0, i)
      {
        assert Bits(0, W)[i] <==> i < 0;
      }
      NoBit(x);
      assert x + 1 == Pow2(0);
    } else {
      var t := HighestBit(a, W);
      HighBit(a, t);
      SmearedOnes(a, x, t);
      NextPower(a, t);
      Pow2Monotone(t + 1, W);
      if a >= Pow2(W - 1) && t + 1 < W {
        Pow2Monotone(t + 1, W - 1);
        assert false;
      }
    }
  }

  /**
    `ceilToPow2`: shifts and ors on a 64-bit word. Up to `2^63` the result is the least
    power of two not below `x`; for 0 and above `2^63` it wraps to 0.
   */
  method CeilToPow2(x0: nat) returns (x: nat)
    requires x0 < Pow2(W)
    ensures 1 <= x0 <= Pow2(W - 1) ==> IsCeilPow2(x0, x)
    ensures x0 == 0 || x0 > Pow2(W - 1) ==> x == 0
  {
    x := if x0 == 0 then Pow2(W) - 1 else x0 - 1;
    ghost var a := x;
    x := Or(x, Shr(x, 1));
    SmearMore(a, a, 1);
    ghost var y := x;
    x := Or(x, Shr(x, 2));
    SmearMore(a, y, 2);
    y := x;
    x := Or(x, Shr(x, 4));
    SmearMore(a, y, 4);
    var i := 1;
    while i < 8
      invariant i == 1 || i == 2 || i == 4 || i == 8
      invariant x < Pow2(W) && Smeared(a, x, 8 * i)
      decreases 8 - i
    {
      y := x;
      x := Or(x, Shr(x, 8 * i));
      SmearMore(a, y, 8 * i);
      i := 2 * i;
    }
    FullySmeared(a, x);
    assert Pow2(W) == 2 * Pow2(W - 1);
    x := if x + 1 == Pow2(W) then 0 else x + 1;
  }

  /** Masking with `2^k - 1` is the remainder by `2^k`. */
  lemma AndMask(y: nat, k: nat)
    requires y < Pow2(W) && k <= W
    ensures And(y, Pow2(k) - 1) == y % Pow2(k)
  {
    hide And;
    hide Pow2;
    hide Bits;
    var m := y % Pow2(k);
    AndBits(y, Pow2(k) - 1);
    OnesBits(k, W);
    Pow2Monotone(k, W);
    LowBits(y, W, k);
    forall i | 0 <= i < W
      ensures Bit(And(y, Pow2(k) - 1), i) <==> Bit(m, i)
    {
      assert Bits(Pow2(k) - 1, W)[i] <==> i < k;
    }
    SameBits(And(y, Pow2(k) - 1), m);
  }

  ghost predicate LowPart(y: seq<bool>, m: seq<bool>, k: nat) {
    |y| == |m| && forall i :: 0 <= i < |y| ==> (m[i] <==> i < k && y[i])
  }

  lemma {:induction false} LowBits(y: nat, n: nat, k: nat)
    requires k <= n
    ensures LowPart(Bits(y, n), Bits(y % Pow2(k), n), k)
  {
    if k == 0 {
      assert Pow2(0) == 1;
      OnesBits(0, n);
    } else {
      LowBits(y / 2, n - 1, k - 1);
      RemainderHalves(y, Pow2(k - 1));
    }
  }

  lemma RemainderHalves(y: nat, p: nat)
    requires p > 0
    ensures y % (2 * p) / 2 == y / 2 % p && y % (2 * p) % 2 == y % 2
  {
    var q := y / (2 * p);
    var r := y % (2 * p);
    assert y == q * (2 * p) + r;
    assert y == 2 * (q * p) + r;
    assert y / 2 == q * p + r / 2;
    DivUnique(q, p, r / 2);
  }

  /** `(a + 1) & sizeMask` is `Inc`. */
  lemma MaskedIncrement(a: nat, k: nat)
    requires k < W && a < Pow2(k)
    ensures And(a + 1, Pow2(k) - 1) == Inc(a, Pow2(k))
  {
    hide And;
    var p := Pow2(k);
    assert Pow2(k + 1) == 2 * p;
    hide Pow2;
    Pow2Monotone(k + 1, W);
    AndMask(a + 1, k);
    if a + 1 == p {
      DivUnique(1, p, 0);
    } else {
      DivUnique(0, p, a + 1);
    }
  }

  /** `(b - a) & sizeMask`, the subtraction wrapping at `2^64`, is `Dist`. */
  lemma MaskedDistance(a: nat, b: nat, k: nat)
    requires k < W && a < Pow2(k) && b < Pow2(k)
    ensures And(Minus(b, a), Pow2(k) - 1) == Dist(a, b, Pow2(k))
  {
    hide And;
    hide Pow2;
    var p := Pow2(k);
    Pow2Monotone(k, W);
    AndMask(Minus(b, a), k);
    Pow2Adds(W - k, k);
    if a <= b {
      DivUnique(0, p, b - a);
    } else {
      WrapsAway(Pow2(W), Pow2(W - k), p, p + b - a);
    }
  }

  lemma WrapsAway(big: nat, q: nat, p: nat, d: nat)
    requires big == q * p && q >= 1 && d < p
    ensures (big + d - p) % p == d
  {
    assert big + d - p == (q - 1) * p + d;
    DivUnique(q - 1, p, d);
  }

  /** A power of two that a 64-bit word can hold. */
  ghost predicate IsBlockSize(n: nat) {
    exists e: nat :: e < W && n == Pow2(e)
  }

  /** `sizeMask`, for a block of `n` slots. */
  function SizeMask(n: nat): nat {
    Minus(n, 1)
  }

  /** `(a + 1) & sizeMask` on 64-bit words is the index after `a`. */
  lemma MaskedInc(n: nat, a: nat)
    requires IsBlockSize(n) && a < n
    ensures And(a + 1, SizeMask(n)) == Inc(a, n)
  {
    var e: nat :| e < W && n == Pow2(e);
    MaskedIncrement(a, e);
  }

  /** `(b - a) & sizeMask`, the difference wrapping, is the way from `a` to `b`. */
  lemma MaskedDist(n: nat, a: nat, b: nat)
    requires IsBlockSize(n) && a < n && b < n
    ensures And(Minus(b, a), SizeMask(n)) == Dist(a, b, n)
  {
    var e: nat :| e < W && n == Pow2(e);
    MaskedDistance(a, b, e);
  }
}
