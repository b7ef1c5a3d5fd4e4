/** Go's fixed-width integer types and the wrap-around of `uint32` addition. */
module Ints {

  const Uint32Modulus: nat := 0x1_0000_0000

  type uint8 = x: int | 0 <= x < 0x100
  type uint16 = x: int | 0 <= x < 0x1_0000
  type uint32 = x: int | 0 <= x < 0x1_0000_0000
  type int8 = x: int | -0x80 <= x < 0x80

  /** Go's `a += b` on `uint32`: the sum modulo 2^32. */
  function AddUint32(a: uint32, b: uint32): (r: uint32)
    ensures r < a ==> a + b >= Uint32Modulus
  {
    (a + b) % Uint32Modulus
  }

  /** The mathematical (unbounded) sum of a sequence. */
  function Sum(xs: seq<nat>): nat
  {
    if xs == [] then 0 else Sum(xs[..|xs| - 1]) + xs[|xs| - 1]
  }

  /** What a Go loop `for _, d := range xs { dist += d }` over `uint32` yields. */
  function WrappingSum(xs: seq<uint32>): uint32
  {
    Sum(xs) % Uint32Modulus
  }

  /** Adding the next element with wrap-around keeps the running value equal to the wrapped sum. */
  lemma WrappingSumStep(xs: seq<uint32>, i: nat)
    requires i < |xs|
    ensures AddUint32(WrappingSum(xs[..i]), xs[i]) == WrappingSum(xs[..i + 1])
  {
    assert xs[..i + 1][..i] == xs[..i];
  }

  /** The wrapped sum equals the plain sum exactly when the plain sum fits in 32 bits. */
  lemma WrappingSumExact(xs: seq<uint32>)
    ensures WrappingSum(xs) == Sum(xs) <==> Sum(xs) < Uint32Modulus
  {
  }

  /** The sum of two concatenated sequences is the sum of their sums. */
  lemma {:induction false} SumAppend(xs: seq<nat>, ys: seq<nat>)
    ensures Sum(xs + ys) == Sum(xs) + Sum(ys)
    decreases |ys|
  {
    if ys == [] {
      assert xs + ys == xs;
    } else {
      var zs := ys[..|ys| - 1];
      assert (xs + ys)[..|xs + ys| - 1] == xs + zs;
      SumAppend(xs, zs);
    }
  }
}
