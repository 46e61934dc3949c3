/** 64-bit words as numbers, with the bitwise operators the code applies to them. */
module Words {

  const W: nat := 64

  function Pow2(n: nat): (p: nat)
    ensures p > 0
  {
    if n == 0 then 1 else 2 * Pow2(n - 1)
  }

  /** The `n` low bits of `x`, lowest first. */
  function Bits(x: nat, n: nat): (b: seq<bool>)
    ensures |b| == n
  {
    if n == 0 then [] else [x % 2 == 1] + Bits(x / 2, n - 1)
  }

  function Val(b: seq<bool>): (x: nat)
    ensures x < Pow2(|b|)
  {
    if b == [] then 0 else (if b[0] then 1 else 0) + 2 * Val(b[1..])
  }

  lemma {:induction false} ValBits(x: nat, n: nat)
    requires x < Pow2(n)
    ensures Val(Bits(x, n)) == x
  {
    if n > 0 {
      ValBits(x / 2, n - 1);
      assert Bits(x, n)[1..] == Bits(x / 2, n - 1);
    }
  }

  lemma {:induction false} BitsVal(b: seq<bool>)
    ensures Bits(Val(b), |b|) == b
  {
    if b != [] {
      BitsVal(b[1..]);
      assert Val(b) / 2 == Val(b[1..]);
    }
  }

  /** Bit `i` of a word. */
  predicate Bit(x: nat, i: nat)
    requires i < W
  {
    Bits(x, W)[i]
  }

  function Or(a: nat, b: nat): nat {
    Val(seq(W, i requires 0 <= i < W => Bit(a, i) || Bit(b, i)))
  }

  function And(a: nat, b: nat): nat {
    Val(seq(W, i requires 0 <= i < W => Bit(a, i) && Bit(b, i)))
  }

  function Shr(x: nat, k: nat): nat {
    Val(seq(W, i requires 0 <= i < W => i + k < W && Bit(x, i + k)))
  }

  lemma OrBits(a: nat, b: nat)
    ensures Or(a, b) < Pow2(W) && forall i :: 0 <= i < W ==> (Bit(Or(a, b), i) <==> Bit(a, i) || Bit(b, i))
  {
    BitsVal(seq(W, i requires 0 <= i < W => Bit(a, i) || Bit(b, i)));
  }

  lemma AndBits(a: nat, b: nat)
    ensures And(a, b) < Pow2(W) && forall i :: 0 <= i < W ==> (Bit(And(a, b), i) <==> Bit(a, i) && Bit(b, i))
  {
    BitsVal(seq(W, i requires 0 <= i < W => Bit(a, i) && Bit(b, i)));
  }

  lemma ShrBits(x: nat, k: nat)
    ensures Shr(x, k) < Pow2(W) && forall i :: 0 <= i < W ==> (Bit(Shr(x, k), i) <==> i + k < W && Bit(x, i + k))
  {
    BitsVal(seq(W, i requires 0 <= i < W => i + k < W && Bit(x, i + k)));
  }

  /** Words with the same bits are the same number. */
  lemma SameBits(a: nat, b: nat)
    requires a < Pow2(W) && b < Pow2(W) && forall i :: 0 <= i < W ==> (Bit(a, i) <==> Bit(b, i))
    ensures a == b
  {
    assert Bits(a, W) == Bits(b, W) by {
      forall i | 0 <= i < W
        ensures Bits(a, W)[i] == Bits(b, W)[i]
      {
        assert Bit(a, i) <==> Bit(b, i);
      }
    }
    ValBits(a, W);
    ValBits(b, W);
  }

  lemma SmallPowers()
    ensures Pow2(0) == 1 && Pow2(1) == 2
  { }

  lemma {:induction false} Pow2Monotone(m: nat, n: nat)
    requires m <= n
    ensures Pow2(m) <= Pow2(n)
  {
    if m < n {
      Pow2Monotone(m, n - 1);
    }
  }

  lemma {:induction false} Pow2Adds(m: nat, n: nat)
    ensures Pow2(m + n) == Pow2(m) * Pow2(n)
  {
    if m > 0 {
      Pow2Adds(m - 1, n);
    }
  }

  lemma DivUnique(q: nat, p: nat, r: nat)
    requires r < p
    ensures (q * p + r) / p == q && (q * p + r) % p == r
  {
    var x := q * p + r;
    var d := x / p - q;
    assert x == (x / p) * p + x % p;
    assert d * p == r - x % p;
    if d >= 1 {
      Scales(d, p);
      assert false;
    } else if d <= -1 {
      Scales(-d, p);
      assert false;
    }
  }

  lemma Scales(d: int, p: nat)
    requires d >= 1
    ensures d * p >= p
  { }

  predicate OnesBelow(b: seq<bool>, k: nat) {
    forall i :: 0 <= i < |b| ==> (b[i] <==> i < k)
  }

  predicate OnlyAt(b: seq<bool>, k: nat) {
    forall i :: 0 <= i < |b| ==> (b[i] <==> i == k)
  }

  /** `2^k - 1` has exactly the bits below `k`. */
  lemma {:induction false} OnesBits(k: nat, n: nat)
    requires k <= n
    ensures OnesBelow(Bits(Pow2(k) - 1, n), k)
  {
    if k > 0 {
      OnesBits(k - 1, n - 1);
      assert (Pow2(k) - 1) / 2 == Pow2(k - 1) - 1;
    } else if n > 0 {
      OnesBits(0, n - 1);
    }
  }

  /** `2^k` has bit `k` only. */
  lemma {:induction false} PowerBits(k: nat, n: nat)
    requires k < n
    ensures OnlyAt(Bits(Pow2(k), n), k)
  {
    if k > 0 {
      PowerBits(k - 1, n - 1);
    } else {
      OnesBits(0, n - 1);
    }
  }

  /** The highest bit of `x` says between which powers of two it lies. */
  lemma {:induction false} TopBit(x: nat, n: nat, t: nat)
    requires t < n && x < Pow2(n)
    requires Bits(x, n)[t] && forall i :: t < i < n ==> !Bits(x, n)[i]
    ensures Pow2(t) <= x < Pow2(t + 1)
  {
    if t > 0 {
      assert Bits(x, n)[t] == Bits(x / 2, n - 1)[t - 1];
      assert Bits(x, n)[1..] == Bits(x / 2, n - 1);
      TopBit(x / 2, n - 1, t - 1);
    } else {
      assert Bits(x, n)[1..] == Bits(x / 2, n - 1);
      NoBits(x / 2, n - 1);
    }
  }

  lemma {:induction false} NoBits(x: nat, n: nat)
    requires x < Pow2(n) && forall i :: 0 <= i < n ==> !Bits(x, n)[i]
    ensures x == 0
  {
    if n > 0 {
      assert Bits(x, n)[1..] == Bits(x / 2, n - 1);
      assert !Bits(x, n)[0];
      NoBits(x / 2, n - 1);
    }
  }

  lemma NoBit(x: nat)
    requires x < Pow2(W) && forall i :: 0 <= i < W ==> !Bit(x, i)
    ensures x == 0
  {
    forall i | 0 <= i < W
      ensures !Bits(x, W)[i]
    {
      assert !Bit(x, i);
    }
    NoBits(x, W);
  }

  lemma HighBit(x: nat, t: nat)
    requires t < W && x < Pow2(W) && Bit(x, t) && forall i :: t < i < W ==> !Bit(x, i)
    ensures Pow2(t) <= x < Pow2(t + 1)
  {
    forall i | t < i < W
      ensures !Bits(x, W)[i]
    {
      assert !Bit(x, i);
    }
    TopBit(x, W, t);
  }

  /** `b - a` on 64-bit words. */
  function Minus(b: nat, a: nat): nat {
    if a <= b then b - a else if a <= Pow2(W) + b then Pow2(W) + b - a else 0
  }
}
