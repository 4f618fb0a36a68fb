/** Session capability tokens: a SplitMix64 stream on 64-bit words with wrap-around arithmetic. */
module Tokens {
  import opened Words

  const TWO64: nat := 0x1_0000_0000_0000_0000

  const GAMMA: u64 := 0x9E3779B97F4A7C15
  const GAMMA_INVERSE: u64 := 0xF1DE83E19937733D
  const MUL1: u64 := 0xBF58476D1CE4E5B9
  const MUL1_INVERSE: u64 := 0x96DE1B173F119089
  const MUL2: u64 := 0x94D049BB133111EB
  const MUL2_INVERSE: u64 := 0x319642B2D24D8EC3

  function WrappingAdd(a: u64, b: u64): u64 { (a + b) % 0x1_0000_0000_0000_0000 }

  function WrappingMul(a: u64, b: u64): u64 { (a * b) % 0x1_0000_0000_0000_0000 }

  // ---------------------------------------------------------------- words as bits, lowest first

  function Pow2(k: nat): (p: nat)
    ensures p > 0
  {
    if k == 0 then 1 else 2 * Pow2(k - 1)
  }

  function Bits(n: nat, k: nat): (b: seq<bool>)
    ensures |b| == k
  {
    if k == 0 then [] else [n % 2 == 1] + Bits(n / 2, k - 1)
  }

  function Value(b: seq<bool>): nat {
    if b == [] then 0 else (if b[0] then 1 else 0) + 2 * Value(b[1..])
  }

  lemma {:induction false} ValueBits(n: nat, k: nat)
    requires n < Pow2(k)
    ensures Value(Bits(n, k)) == n
  {
    if k == 0 {
    } else {
      ValueBits(n / 2, k - 1);
      assert Bits(n, k)[1..] == Bits(n / 2, k - 1);
    }
  }

  lemma {:induction false} BitsValue(b: seq<bool>)
    ensures Value(b) < Pow2(|b|)
    ensures Bits(Value(b), |b|) == b
  {
    if b == [] {
    } else {
      BitsValue(b[1..]);
      assert Value(b) / 2 == Value(b[1..]);
      assert b == [b[0]] + b[1..];
    }
  }

  lemma {:induction false} Pow2Sum(a: nat, b: nat)
    ensures Pow2(a + b) == Pow2(a) * Pow2(b)
  {
    if a == 0 {
    } else {
      Pow2Sum(a - 1, b);
    }
  }

  lemma WordSize()
    ensures Pow2(64) == TWO64
  {
    assert Pow2(2) == 4 && Pow2(4) == 16;
    WordSizeFrom(16);
  }

  /** From 2^4 by repeated squaring. */
  lemma WordSizeFrom(n: nat)
    requires n == Pow2(4) == 16
    ensures Pow2(64) == TWO64
  {
    hide Pow2;
    Pow2Sum(4, 4);
    Pow2Sum(8, 8);
    Pow2Sum(16, 16);
    Pow2Sum(32, 32);
  }

  // ---------------------------------------------------------------- z ^ (z >> r)

  predicate BitAt(b: seq<bool>, i: nat) {
    i < |b| && b[i]
  }

  function XorShiftBits(b: seq<bool>, r: nat): (out: seq<bool>)
    requires r > 0
    ensures |out| == |b|
  {
    if b == [] then [] else [b[0] != BitAt(b[1..], r - 1)] + XorShiftBits(b[1..], r)
  }

  /** Bit `i` of `z ^ (z >> r)` is bit `i` of `z` xor bit `i + r`, where there is one. */
  lemma {:induction false} XorShiftAt(b: seq<bool>, r: nat, i: nat)
    requires r > 0 && i < |b|
    ensures XorShiftBits(b, r)[i] == (b[i] != BitAt(b, i + r))
  {
    if i == 0 {
    } else {
      XorShiftAt(b[1..], r, i - 1);
    }
  }

  function UnshiftBits(b: seq<bool>, r: nat): (out: seq<bool>)
    requires r > 0
    ensures |out| == |b|
  {
    if b == [] then []
    else
      var rest := UnshiftBits(b[1..], r);
      [b[0] != BitAt(rest, r - 1)] + rest
  }

  lemma {:induction false} UnshiftLaw(b: seq<bool>, r: nat)
    requires r > 0
    ensures UnshiftBits(XorShiftBits(b, r), r) == b
  {
    if b == [] {
    } else {
      UnshiftLaw(b[1..], r);
      assert XorShiftBits(b, r)[1..] == XorShiftBits(b[1..], r);
      assert b == [b[0]] + b[1..];
    }
  }

  lemma {:induction false} ShiftUnshiftLaw(b: seq<bool>, r: nat)
    requires r > 0
    ensures XorShiftBits(UnshiftBits(b, r), r) == b
  {
    if b == [] {
    } else {
      ShiftUnshiftLaw(b[1..], r);
      var rest := UnshiftBits(b[1..], r);
      assert UnshiftBits(b, r)[1..] == rest;
      assert b == [b[0]] + b[1..];
    }
  }

  function XorShift(z: u64, r: nat): u64
    requires r > 0
  {
    WordSize();
    BitsValue(XorShiftBits(Bits(z, 64), r));
    Value(XorShiftBits(Bits(z, 64), r))
  }

  function Unshift(z: u64, r: nat): u64
    requires r > 0
  {
    WordSize();
    BitsValue(UnshiftBits(Bits(z, 64), r));
    Value(UnshiftBits(Bits(z, 64), r))
  }

  lemma XorShiftInverse(z: u64, r: nat)
    requires r > 0
    ensures Unshift(XorShift(z, r), r) == z
    ensures XorShift(Unshift(z, r), r) == z
  {
    WordSize();
    BitsValue(XorShiftBits(Bits(z, 64), r));
    BitsValue(UnshiftBits(Bits(z, 64), r));
    UnshiftLaw(Bits(z, 64), r);
    ShiftUnshiftLaw(Bits(z, 64), r);
    ValueBits(z, 64);
  }

  // ---------------------------------------------------------------- multiplication by a unit

  lemma ModShift(a: int, k: int, m: int)
    requires m > 0
    ensures (a + k * m) % m == a % m
  {
    var q, r := a / m, a % m;
    assert a + k * m == (q + k) * m + r;
    DivisionUnique(a + k * m, q + k, r, m);
  }

  lemma DivisionUnique(x: int, q: int, r: int, m: int)
    requires m > 0
    requires x == q * m + r && 0 <= r < m
    ensures x % m == r
  {
    var q', r' := x / m, x % m;
    assert (q - q') * m == r' - r;
    if q > q' {
      AtLeastOnce(q - q', m);
    } else if q < q' {
      assert (q' - q) * m == r - r';
      AtLeastOnce(q' - q, m);
    }
  }

  lemma AtLeastOnce(k: int, m: int)
    requires k >= 1 && m > 0
    ensures k * m >= m
  {
  }

  lemma Associative(x: int, y: int, z: int)
    ensures (x * y) * z == x * (y * z)
  {
  }

  lemma Difference(x: int, y: int, z: int)
    ensures (x - y) * z == x * z - y * z
  {
  }

  lemma ReduceThenMultiply(z: int, c: int, d: int, q: int, k: int, m: int)
    requires c * d == k * m + 1
    ensures (z * c - q * m) * d == z + (z * k - q * d) * m
  {
    Difference(z * c, q * m, d);
    Associative(z, c, d);
    Difference(k * m, -1, z);
    Associative(z, k, m);
    Associative(q, m, d);
    Associative(q, d, m);
    Difference(z * k, q * d, m);
  }

  lemma Euclid(x: int, m: int)
    requires m > 0
    ensures x == (x / m) * m + x % m
  {
  }

  lemma MulInverseModulo(z: int, c: int, d: int, m: int)
    requires 0 <= z < m
    requires (c * d) % m == 1
    ensures ((z * c) % m * d) % m == z
  {
    var q, k := (z * c) / m, (c * d) / m;
    Euclid(z * c, m);
    Euclid(c * d, m);
    ReduceThenMultiply(z, c, d, q, k, m);
    ModShift(z, z * k - q * d, m);
    DivisionUnique(z, 0, z, m);
  }

  lemma MulInverse(z: u64, c: u64, d: u64)
    requires (c * d) % TWO64 == 1
    ensures WrappingMul(WrappingMul(z, c), d) == z
  {
    MulInverseModulo(z, c, d, TWO64);
  }

  lemma Units()
    ensures (MUL1 * MUL1_INVERSE) % TWO64 == 1
    ensures (MUL1_INVERSE * MUL1) % TWO64 == 1
    ensures (MUL2 * MUL2_INVERSE) % TWO64 == 1
    ensures (MUL2_INVERSE * MUL2) % TWO64 == 1
    ensures (GAMMA * GAMMA_INVERSE) % TWO64 == 1
  {
  }

  // ---------------------------------------------------------------- the issuer

  /** The output mix. */
  function Mix(z: u64): u64 {
    XorShift(WrappingMul(XorShift(WrappingMul(XorShift(z, 30), MUL1), 27), MUL2), 31)
  }

  /** 0 is the "no token" sentinel, so the mix value 0 is issued as 1. */
  function TokenOf(state: u64): u64 {
    if Mix(state) == 0 then 1 else Mix(state)
  }

  class TokenIssuer {
    var state: u64

    /** The seed with its lowest bit set. */
    constructor WithSeed(seed: u64)
      ensures state == if seed % 2 == 0 then seed + 1 else seed
    {
      state := if seed % 2 == 0 then seed + 1 else seed;
    }

    method NextToken() returns (token: u64)
      modifies this
      ensures state == WrappingAdd(old(state), GAMMA)
      ensures token == TokenOf(state) && token != 0
    {
      state := WrappingAdd(state, GAMMA);
      var z := state;
      z := WrappingMul(XorShift(z, 30), MUL1);
      z := WrappingMul(XorShift(z, 27), MUL2);
      z := XorShift(z, 31);
      token := if z == 0 then 1 else z;
    }
  }

  // ---------------------------------------------------------------- the mix is a bijection

  function Unmix(z: u64): u64 {
    Unshift(WrappingMul(Unshift(WrappingMul(Unshift(z, 31), MUL2_INVERSE), 27), MUL1_INVERSE), 30)
  }

  lemma UnmixMix(z: u64)
    ensures Unmix(Mix(z)) == z
  {
    Units();
    var a := XorShift(z, 30);
    var b := WrappingMul(a, MUL1);
    var c := XorShift(b, 27);
    var d := WrappingMul(c, MUL2);
    XorShiftInverse(d, 31);
    MulInverse(c, MUL2, MUL2_INVERSE);
    XorShiftInverse(b, 27);
    MulInverse(a, MUL1, MUL1_INVERSE);
    XorShiftInverse(z, 30);
  }

  lemma MixUnmix(z: u64)
    ensures Mix(Unmix(z)) == z
  {
    Units();
    var d := Unshift(z, 31);
    var c := WrappingMul(d, MUL2_INVERSE);
    var b := Unshift(c, 27);
    var a := WrappingMul(b, MUL1_INVERSE);
    XorShiftInverse(a, 30);
    MulInverse(b, MUL1_INVERSE, MUL1);
    XorShiftInverse(c, 27);
    MulInverse(d, MUL2_INVERSE, MUL2);
    XorShiftInverse(z, 31);
  }

  /** The output mix is a bijection on 64-bit words. */
  lemma MixBijective()
    ensures forall x: u64, y: u64 :: Mix(x) == Mix(y) ==> x == y
    ensures forall z: u64 :: Mix(Unmix(z)) == z
  {
    forall x: u64, y: u64 | Mix(x) == Mix(y) ensures x == y {
      UnmixMix(x);
      UnmixMix(y);
    }
    forall z: u64 ensures Mix(Unmix(z)) == z {
      MixUnmix(z);
    }
  }

  // ---------------------------------------------------------------- the walk of the state

  /** The state after `n` draws. */
  function StateAfter(start: u64, n: nat): u64 {
    if n == 0 then start else WrappingAdd(StateAfter(start, n - 1), GAMMA)
  }

  lemma {:induction false} StateIsLinear(start: u64, n: nat)
    ensures StateAfter(start, n) == (start + n * GAMMA) % TWO64
  {
    if n == 0 {
    } else {
      StateIsLinear(start, n - 1);
      var x := start + (n - 1) * GAMMA;
      ModShift(x % TWO64 + GAMMA, x / TWO64, TWO64);
      assert x + GAMMA == x % TWO64 + GAMMA + x / TWO64 * TWO64;
      assert x + GAMMA == start + n * GAMMA;
    }
  }

  /** A step size with an inverse returns to the same residue only after a full turn. */
  lemma NoEarlyReturn(d: nat)
    requires 0 < d < TWO64
    ensures (d * GAMMA) % TWO64 != 0
  {
    Units();
    MulInverse(d, GAMMA, GAMMA_INVERSE);
    assert (0 * GAMMA_INVERSE) % TWO64 == 0;
  }

  /** Any 2^64 consecutive states are pairwise different. */
  lemma StatesDistinct(start: u64, m: nat, n: nat)
    requires m < n < m + TWO64
    ensures StateAfter(start, m) != StateAfter(start, n)
  {
    StateIsLinear(start, m);
    StateIsLinear(start, n);
    NoEarlyReturn(n - m);
    var x, y := start + m * GAMMA, start + n * GAMMA;
    assert y - x == (n - m) * GAMMA;
    SameResidue(x, y, TWO64);
  }

  lemma SameResidue(x: nat, y: nat, m: nat)
    requires m > 0
    ensures x % m == y % m ==> (y - x) % m == 0
  {
    if x % m == y % m {
      assert y - x == 0 + (y / m - x / m) * m;
      ModShift(0, y / m - x / m, m);
    }
  }

  lemma {:induction false} Resume(start: u64, m: nat, n: nat)
    ensures StateAfter(StateAfter(start, m), n) == StateAfter(start, m + n)
  {
    if n == 0 {
    } else {
      Resume(start, m, n - 1);
    }
  }

  /** The number of draws that move a state by `d`. */
  function Draws(d: u64): u64 {
    WrappingMul(d, GAMMA_INVERSE)
  }

  lemma DrawsMove(start: u64, d: u64)
    ensures StateAfter(start, Draws(d)) == (start + d) % TWO64
  {
    hide StateAfter;
    Units();
    var n := Draws(d);
    MulInverse(d, GAMMA_INVERSE, GAMMA);
    Euclid(n * GAMMA, TWO64);
    StateIsLinear(start, n);
    ModShift(start + d, n * GAMMA / TWO64, TWO64);
  }

  /** In every full turn the walk reaches every word. */
  lemma WalkReaches(start: u64, m: nat, t: u64) returns (n: nat)
    ensures m <= n < m + TWO64
    ensures StateAfter(start, n) == t
  {
    hide StateAfter, Draws;
    var from := StateAfter(start, m);
    var d := if t >= from then t - from else t - from + TWO64;
    n := m + Draws(d);
    DrawsMove(from, d);
    Resume(start, m, Draws(d));
  }

  /** The `n`-th token an issuer with state `start` hands out, counting from 1. */
  function Token(start: u64, n: nat): u64 {
    TokenOf(StateAfter(start, n))
  }

  lemma MixDistinct(start: u64, m: nat, n: nat)
    requires m < n < m + TWO64
    ensures Mix(StateAfter(start, m)) != Mix(StateAfter(start, n))
  {
    StatesDistinct(start, m, n);
    MixBijective();
  }

  lemma MixApart(start: u64, m: nat, i: nat, n: nat)
    requires m <= i < m + TWO64 && m <= n < m + TWO64 && i != n
    ensures Mix(StateAfter(start, i)) != Mix(StateAfter(start, n))
  {
    if i < n {
      MixDistinct(start, i, n);
    } else {
      MixDistinct(start, n, i);
    }
  }

  /**
   Among any 2^64 consecutive tokens no value is 0, and two of them coincide only when both
   are 1: one drawn as 1 and the other drawn as 0.
   */
  lemma TokensDistinct(start: u64, m: nat, n: nat)
    requires m < n < m + TWO64
    ensures Token(start, m) != 0
    ensures Token(start, m) == Token(start, n) <==>
            Token(start, m) == 1 == Token(start, n)
            && (Mix(StateAfter(start, m)) == 0 || Mix(StateAfter(start, n)) == 0)
  {
    MixDistinct(start, m, n);
  }

  /** The value 1 is handed out at most twice in a full turn. */
  lemma OneAtMostTwice(start: u64, l: nat, m: nat, n: nat)
    requires l < m < n < l + TWO64
    ensures !(Token(start, l) == Token(start, m) == Token(start, n))
  {
    MixDistinct(start, l, m);
    MixDistinct(start, l, n);
    MixDistinct(start, m, n);
  }

  /** The `n`-th token is `w`, and lies in the full turn from the `m`-th on. */
  predicate IssuedAt(start: u64, m: nat, n: nat, w: u64) {
    m <= n < m + TWO64 && Token(start, n) == w
  }

  /** In every full turn each word above 1 is handed out exactly once. */
  lemma IssuedOnce(start: u64, m: nat, w: u64) returns (n: nat)
    requires w > 1
    ensures forall i: nat :: IssuedAt(start, m, i, w) <==> i == n
  {
    hide Mix, Unmix, StateAfter;
    n := WalkReaches(start, m, Unmix(w));
    MixUnmix(w);
    forall i: nat ensures IssuedAt(start, m, i, w) <==> i == n {
      if m <= i < m + TWO64 && i != n {
        MixApart(start, m, i, n);
      }
    }
  }

  /** In every full turn the value 1 is handed out exactly twice: once drawn as 0, once drawn as 1. */
  lemma OneIssuedTwice(start: u64, m: nat) returns (n: nat, k: nat)
    ensures n != k
    ensures forall i: nat :: IssuedAt(start, m, i, 1) <==> i == n || i == k
  {
    hide Mix, Unmix, StateAfter;
    n := WalkReaches(start, m, Unmix(0));
    k := WalkReaches(start, m, Unmix(1));
    MixUnmix(0);
    MixUnmix(1);
    forall i: nat ensures IssuedAt(start, m, i, 1) <==> i == n || i == k {
      if m <= i < m + TWO64 && i != n && i != k {
        MixApart(start, m, i, n);
        MixApart(start, m, i, k);
      }
    }
  }
}
