/** The token mix digit by digit: what each shift does to each binary place, and the constants in between. */
module TokenDigits {
  import opened Words
  import opened Tokens

  /** The binary digit of a number at a place, counted from the lowest. */
  function Digit(n: nat, place: nat): (d: nat)
    ensures d < 2
  {
    n / Pow2(place) % 2
  }

  lemma {:induction false} Halved(n: nat, place: nat)
    ensures Digit(n, place + 1) == Digit(n / 2, place)
  {
    DivideTwice(n, Pow2(place));
  }

  lemma DivideTwice(n: nat, p: nat)
    requires p > 0
    ensures n / (2 * p) == n / 2 / p
  {
    var q := n / 2 / p;
    var r := n / 2 - q * p;
    assert n / 2 == q * p + r && 0 <= r < p;
    assert n == 2 * (q * p + r) + n % 2;
    assert 2 * (q * p) == q * (2 * p);
    QuotientUnique(n, 2 * p, q, 2 * r + n % 2);
  }

  lemma QuotientUnique(n: nat, m: nat, q: nat, r: nat)
    requires m > 0 && n == q * m + r && r < m
    ensures n / m == q
  {
    DivisionUnique(n, q, r, m);
    assert n / m * m == q * m;
  }

  lemma {:induction false} BitIsDigit(n: nat, k: nat, i: nat)
    requires i < k
    ensures Bits(n, k)[i] <==> Digit(n, i) == 1
  {
    if i == 0 {
      assert n / Pow2(0) == n;
    } else {
      Halved(n, i - 1);
      BitIsDigit(n / 2, k - 1, i - 1);
    }
  }

  lemma {:induction false} HighDigit(n: nat, k: nat, i: nat)
    requires n < Pow2(k) && k <= i
    ensures Digit(n, i) == 0
    decreases k
  {
    if k == 0 {
      QuotientUnique(0, Pow2(i), 0, 0);
    } else {
      Halved(n, i - 1);
      HighDigit(n / 2, k - 1, i - 1);
    }
  }

  lemma ValueDigit(b: seq<bool>, i: nat)
    requires i < |b|
    ensures Digit(Value(b), i) == if b[i] then 1 else 0
  {
    BitsValue(b);
    BitIsDigit(Value(b), |b|, i);
  }

  /** `w` is `z` xor `z` moved down by `r` places: each place adds the digit `r` places above, without carry. */
  ghost predicate Shifted(z: u64, r: nat, w: u64) {
    forall i: nat :: i < 64 ==> Digit(w, i) == (Digit(z, i) + Digit(z, i + r)) % 2
  }

  lemma XorShiftDigits(z: u64, r: nat)
    requires r > 0
    ensures Shifted(z, r, XorShift(z, r))
  {
    hide Digit, XorShift;
    forall i: nat | i < 64 ensures Digit(XorShift(z, r), i) == (Digit(z, i) + Digit(z, i + r)) % 2 {
      XorShiftDigit(z, r, i);
    }
  }

  lemma XorShiftDigit(z: u64, r: nat, i: nat)
    requires r > 0 && i < 64
    ensures Digit(XorShift(z, r), i) == (Digit(z, i) + Digit(z, i + r)) % 2
  {
    hide Digit, Bits, Value, XorShiftBits;
    var b := Bits(z, 64);
    XorShiftAt(b, r, i);
    ValueDigit(XorShiftBits(b, r), i);
    BitIsDigit(z, 64, i);
    if i + r < 64 {
      BitIsDigit(z, 64, i + r);
    } else {
      WordSize();
      HighDigit(z, 64, i + r);
    }
  }

  /** The mix: down by 30 places, times a constant, by 27, times another, by 31; products keep 64 bits. */
  lemma MixSteps(z: u64) returns (a: u64, b: u64, c: u64, d: u64)
    ensures Shifted(z, 30, a)
    ensures b == a * 0xBF58_476D_1CE4_E5B9 % 0x1_0000_0000_0000_0000
    ensures Shifted(b, 27, c)
    ensures d == c * 0x94D0_49BB_1331_11EB % 0x1_0000_0000_0000_0000
    ensures Shifted(d, 31, Mix(z))
  {
    hide XorShift, Shifted;
    a := XorShift(z, 30);
    b := WrappingMul(a, MUL1);
    c := XorShift(b, 27);
    d := WrappingMul(c, MUL2);
    XorShiftDigits(z, 30);
    XorShiftDigits(b, 27);
    XorShiftDigits(d, 31);
  }

  /** A draw moves the state on by one odd constant; its token is the mix of the new state, or 1 where that is 0. */
  lemma DrawSteps(start: u64, n: nat)
    ensures StateAfter(start, n + 1) == (StateAfter(start, n) + 0x9E37_79B9_7F4A_7C15) % 0x1_0000_0000_0000_0000
    ensures Token(start, n) == if Mix(StateAfter(start, n)) == 0 then 1 else Mix(StateAfter(start, n))
  {
    hide Mix;
  }

  /** Two words with the same digits are the same, so `Shifted` fixes its result. */
  lemma {:induction false} DigitsTell(m: nat, n: nat, k: nat)
    requires m < Pow2(k) && n < Pow2(k)
    requires forall i: nat :: i < k ==> Digit(m, i) == Digit(n, i)
    ensures m == n
  {
    hide Digit;
    ValueBits(m, k);
    ValueBits(n, k);
    forall i: nat | i < k ensures Bits(m, k)[i] == Bits(n, k)[i] {
      BitIsDigit(m, k, i);
      BitIsDigit(n, k, i);
    }
    assert Bits(m, k) == Bits(n, k);
  }
}
