/** Octet strings, little-endian integers and UTF-8 well-formedness. */
module Bytes {
  import opened Words

  type Octets = seq<Byte>

  /** 256 to the power `k`. */
  function Limit(k: nat): (l: nat)
    ensures l > 0
  {
    if k == 0 then 1 else 256 * Limit(k - 1)
  }

  lemma Limits()
    ensures Limit(1) == 0x100 && Limit(2) == 0x1_0000 && Limit(4) == 0x1_0000_0000
    ensures Limit(8) == 0x1_0000_0000_0000_0000
  {
    assert Limit(2) == 0x1_0000;
    assert Limit(4) == 0x1_0000_0000;
    assert Limit(6) == 0x1_0000_0000_0000;
  }

  /** The `k` low-order bytes of `n`, least significant first. */
  function LE(n: nat, k: nat): (b: Octets)
    ensures |b| == k
    decreases k, n
  {
    if k == 0 then [] else [n % 256] + LE(n / 256, k - 1)
  }

  function FromLE(b: Octets): nat {
    if b == [] then 0 else b[0] + 256 * FromLE(b[1..])
  }

  lemma {:induction false} FromLEOfLE(n: nat, k: nat)
    requires n < Limit(k)
    ensures FromLE(LE(n, k)) == n
  {
    if k == 0 {
    } else {
      FromLEOfLE(n / 256, k - 1);
      assert LE(n, k)[1..] == LE(n / 256, k - 1);
    }
  }

  lemma {:induction false} LEOfFromLE(b: Octets)
    ensures FromLE(b) < Limit(|b|)
    ensures LE(FromLE(b), |b|) == b
  {
    if b == [] {
    } else {
      LEOfFromLE(b[1..]);
      assert FromLE(b) / 256 == FromLE(b[1..]);
      assert b == [b[0]] + b[1..];
    }
  }

  // ---------------------------------------------------------------- UTF-8 (RFC 3629, section 4)

  predicate Tail(b: Byte) { 0x80 <= b <= 0xBF }

  predicate Lead2(b: Octets) {
    |b| >= 2 && 0xC2 <= b[0] <= 0xDF && Tail(b[1])
  }

  predicate Lead3(b: Octets) {
    && |b| >= 3 && Tail(b[1]) && Tail(b[2])
    && (|| (b[0] == 0xE0 && 0xA0 <= b[1])
        || 0xE1 <= b[0] <= 0xEC
        || (b[0] == 0xED && b[1] <= 0x9F)
        || 0xEE <= b[0] <= 0xEF)
  }

  predicate Lead4(b: Octets) {
    && |b| >= 4 && Tail(b[1]) && Tail(b[2]) && Tail(b[3])
    && (|| (b[0] == 0xF0 && 0x90 <= b[1])
        || 0xF1 <= b[0] <= 0xF3
        || (b[0] == 0xF4 && b[1] <= 0x8F))
  }

  predicate Utf8(b: Octets) {
    b == []
    || (b[0] < 0x80 && Utf8(b[1..]))
    || (Lead2(b) && Utf8(b[2..]))
    || (Lead3(b) && Utf8(b[3..]))
    || (Lead4(b) && Utf8(b[4..]))
  }

  /** A string is its UTF-8 bytes. */
  type Text = b: Octets | Utf8(b) witness []
}
