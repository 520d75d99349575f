/**
 * The firmware's random number generator (emb/src/utils.c `next_rand`):
 * Marsaglia's xorshift32 with the shifts 13, 17 and 5, on a 32-bit state
 * the caller keeps. Every step is an invertible map on 32-bit words, so
 * the generator never reaches zero from a nonzero state, and stays at zero
 * from zero.
 */
module EmbUtils {
  /** The `uint32_t` a caller passes by address as the generator's state. */
  class Word32 {
    var value: bv32

    constructor (v: bv32)
      ensures value == v
    {
      value := v;
    }
  }

  /** `x ^= x << 13`, the shift dropping bits past 32. */
  function XorLeft13(x: bv32): bv32 { x ^ (x << 13) }

  /** `x ^= x >> 17`. */
  function XorRight17(x: bv32): bv32 { x ^ (x >> 17) }

  /** `x ^= x << 5`. */
  function XorLeft5(x: bv32): bv32 { x ^ (x << 5) }

  /** One step of the generator: the three xor-shifts in order. */
  function Xorshift(x: bv32): bv32 {
    XorLeft5(XorRight17(XorLeft13(x)))
  }

  /**
   * The generator run backwards by one step: each xor-shift is undone by
   * xoring in the word shifted by every multiple of the shift below 32, in
   * the reverse order.
   */
  function Unxorshift(y: bv32): bv32 {
    var u2 := y ^ (y << 5) ^ (y << 10) ^ (y << 15) ^ (y << 20) ^ (y << 25) ^ (y << 30);
    var u1 := u2 ^ (u2 >> 17);
    u1 ^ (u1 << 13) ^ (u1 << 26)
  }

  // The definitions, and the bit-level inverse, as facts about expressions
  // in the input word alone: the solver settles such bit-vector identities
  // by rewriting, but not through intermediate variables.

  lemma XorLeft13Unfold(x: bv32) ensures XorLeft13(x) == x ^ (x << 13) {}
  lemma XorRight17Unfold(x: bv32) ensures XorRight17(x) == x ^ (x >> 17) {}
  lemma XorLeft5Unfold(x: bv32) ensures XorLeft5(x) == x ^ (x << 5) {}

  lemma XorshiftUnfold(x: bv32)
    ensures Xorshift(x) == var x1 := x ^ (x << 13); var x2 := x1 ^ (x1 >> 17); x2 ^ (x2 << 5)
  {
    // Each step's definition, instantiated on the ground term it is applied to.
    assert XorLeft13(x) == (x ^ (x << 13));
    assert XorRight17((x ^ (x << 13))) == ((x ^ (x << 13)) ^ ((x ^ (x << 13)) >> 17));
    assert XorLeft5(((x ^ (x << 13)) ^ ((x ^ (x << 13)) >> 17))) == ((x ^ (x << 13)) ^ ((x ^ (x << 13)) >> 17)) ^ (((x ^ (x << 13)) ^ ((x ^ (x << 13)) >> 17)) << 5);
  }

  lemma UnxorshiftUnfold(y: bv32)
    ensures Unxorshift(y) ==
      var u2 := y ^ (y << 5) ^ (y << 10) ^ (y << 15) ^ (y << 20) ^ (y << 25) ^ (y << 30);
      var u1 := u2 ^ (u2 >> 17);
      u1 ^ (u1 << 13) ^ (u1 << 26)
  {
  }

  lemma InverseBits(x: bv32)
    ensures var x1 := x ^ (x << 13); var x2 := x1 ^ (x1 >> 17); var y := x2 ^ (x2 << 5);
      var u2 := y ^ (y << 5) ^ (y << 10) ^ (y << 15) ^ (y << 20) ^ (y << 25) ^ (y << 30);
      var u1 := u2 ^ (u2 >> 17);
      u1 ^ (u1 << 13) ^ (u1 << 26) == x
  {
  }

  /** Running the generator backwards after a step gives the state back: the step is a bijection. */
  lemma RoundTrip(x: bv32)
    ensures Unxorshift(Xorshift(x)) == x
  {
    XorshiftUnfold(x);
    UnxorshiftUnfold(var x1 := x ^ (x << 13); var x2 := x1 ^ (x1 >> 17); x2 ^ (x2 << 5));
    InverseBits(x);
  }

  /** Zero is a fixed point, and the only state that steps to zero. */
  lemma ZeroOnlyFromZero(x: bv32)
    ensures Xorshift(x) == 0 <==> x == 0
  {
    RoundTrip(x);
    XorshiftUnfold(0);
    UnxorshiftUnfold(0);
  }

  /** The state after n steps. */
  function Iterate(x: bv32, n: nat): bv32 {
    if n == 0 then x else Xorshift(Iterate(x, n - 1))
  }

  /** A zero seed stays zero forever, and a nonzero seed never reaches zero. */
  lemma {:induction false} ZeroStaysZero(x: bv32, n: nat)
    ensures Iterate(x, n) == 0 <==> x == 0
  {
    if n > 0 {
      ZeroStaysZero(x, n - 1);
      ZeroOnlyFromZero(Iterate(x, n - 1));
    }
  }

  /**
   * `next_rand`: the three xor-shifts on a copy of the state, written back;
   * the value returned is the new state.
   */
  method NextRand(state: Word32) returns (r: bv32)
    modifies state
    ensures r == state.value == Xorshift(old(state.value))
  {
    var x := state.value;
    XorLeft13Unfold(x);
    x := x ^ (x << 13);
    XorRight17Unfold(x);
    x := x ^ (x >> 17);
    XorLeft5Unfold(x);
    x := x ^ (x << 5);
    state.value := x;
    r := x;
  }
}
