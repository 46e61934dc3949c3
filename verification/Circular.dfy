/**
  Index arithmetic of one circular block. A block of `n` slots keeps its indices in
  `[0, n)`; masking with `n - 1` (n a power of two) is wrapping at `n`, which
  `QueueArithmetic` proves on machine words.
 */
module Circular {

  /** The index after `a`: what `(a + 1) & sizeMask` computes for `a < n`. */
  function Inc(a: nat, n: nat): nat {
    if a + 1 == n then 0 else a + 1
  }

  /** Steps forward from `a` to `b`: what `(b - a) & sizeMask` computes. */
  function Dist(a: nat, b: nat, n: nat): nat
    requires a < n && b < n
  {
    if a <= b then b - a else b + n - a
  }

  /** The index `i` steps after `a`. */
  function Ahead(a: nat, i: nat, n: nat): nat
    requires a < n && i < n
  {
    if a + i < n then a + i else a + i - n
  }
}
