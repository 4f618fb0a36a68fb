/** The byte-level test for UTF-8 against the code points it stands for (section 3 of RFC 3629). */
module Utf8Laws {
  import opened Words
  import opened Bytes

  /** A Unicode scalar value: any code point but the surrogates. */
  predicate Scalar(c: nat) {
    c < 0xD800 || 0xE000 <= c < 0x11_0000
  }

  /** The shortest form: one to four bytes, six bits in each that follows the first. */
  function ScalarBytes(c: nat): Octets
    requires Scalar(c)
  {
    if c < 0x80 then [c]
    else if c < 0x800 then [0xC0 + c / 64, 0x80 + c % 64]
    else if c < 0x1_0000 then [0xE0 + c / 4096, 0x80 + c / 64 % 64, 0x80 + c % 64]
    else [0xF0 + c / 262144, 0x80 + c / 4096 % 64, 0x80 + c / 64 % 64, 0x80 + c % 64]
  }

  ghost predicate AllScalars(cs: seq<nat>) {
    forall i :: 0 <= i < |cs| ==> Scalar(cs[i])
  }

  ghost function TextBytes(cs: seq<nat>): Octets
    requires AllScalars(cs)
  {
    if cs == [] then [] else ScalarBytes(cs[0]) + TextBytes(cs[1..])
  }

  lemma OneMore(c: nat, rest: Octets)
    requires Scalar(c) && Utf8(rest)
    ensures Utf8(ScalarBytes(c) + rest)
  {
    var head := ScalarBytes(c);
    var b := head + rest;
    assert b[|head|..] == rest;
    if c < 0x80 {
    } else if c < 0x800 {
      assert Lead2(b);
    } else if c < 0x1_0000 {
      ThreeBytes(c, b);
    } else {
      FourBytes(c, b);
    }
  }

  lemma ThreeBytes(c: nat, b: Octets)
    requires Scalar(c) && 0x800 <= c < 0x1_0000
    requires |b| >= 3 && b[..3] == ScalarBytes(c)
    ensures Lead3(b)
  {
    assert b[0] == b[..3][0] && b[1] == b[..3][1] && b[2] == b[..3][2];
  }

  lemma FourBytes(c: nat, b: Octets)
    requires Scalar(c) && c >= 0x1_0000
    requires |b| >= 4 && b[..4] == ScalarBytes(c)
    ensures Lead4(b)
  {
    assert b[0] == b[..4][0] && b[1] == b[..4][1] && b[2] == b[..4][2] && b[3] == b[..4][3];
  }

  lemma {:induction false} TextIsUtf8(cs: seq<nat>)
    requires AllScalars(cs)
    ensures Utf8(TextBytes(cs))
  {
    if cs == [] {
    } else {
      TextIsUtf8(cs[1..]);
      OneMore(cs[0], TextBytes(cs[1..]));
    }
  }

  lemma Digits(x: nat, y: nat, z: nat)
    requires y < 64 && z < 64
    ensures var c := x * 4096 + y * 64 + z; c / 4096 == x && c / 64 % 64 == y && c % 64 == z
  {
  }

  lemma FourDigits(w: nat, x: nat, y: nat, z: nat)
    requires x < 64 && y < 64 && z < 64
    ensures var c := w * 262144 + x * 4096 + y * 64 + z;
      c / 262144 == w && c / 4096 % 64 == x && c / 64 % 64 == y && c % 64 == z
  {
    Digits(w * 64 + x, y, z);
  }

  lemma LongForm(c: nat, w: nat, x: nat, y: nat, z: nat)
    requires 0x1_0000 <= c < 0x11_0000 && w < 8
    requires c / 262144 == w && c / 4096 % 64 == x && c / 64 % 64 == y && c % 64 == z
    ensures Scalar(c) && ScalarBytes(c) == [0xF0 + w, 0x80 + x, 0x80 + y, 0x80 + z]
  {
  }

  lemma Assemble2(b: Octets) returns (c: nat)
    requires Lead2(b)
    ensures Scalar(c) && ScalarBytes(c) == b[..2]
  {
    var x: nat, y: nat := b[0], b[1];
    c := (x - 0xC0) * 64 + (y - 0x80);
  }

  lemma Assemble3(b: Octets) returns (c: nat)
    requires Lead3(b)
    ensures Scalar(c) && ScalarBytes(c) == b[..3]
  {
    var x: nat, y: nat, z: nat := b[0], b[1], b[2];
    c := (x - 0xE0) * 4096 + (y - 0x80) * 64 + (z - 0x80);
    Digits(x - 0xE0, y - 0x80, z - 0x80);
  }

  lemma Assemble4(b: Octets) returns (c: nat)
    requires Lead4(b)
    ensures Scalar(c) && ScalarBytes(c) == b[..4]
  {
    var w: nat, x: nat, y: nat, z: nat := b[0], b[1], b[2], b[3];
    c := (w - 0xF0) * 262144 + (x - 0x80) * 4096 + (y - 0x80) * 64 + (z - 0x80);
    FourDigits(w - 0xF0, x - 0x80, y - 0x80, z - 0x80);
    LongForm(c, w - 0xF0, x - 0x80, y - 0x80, z - 0x80);
  }

  /** The first scalar of a non-empty well-formed string, and how many bytes it takes. */
  lemma FirstScalar(b: Octets) returns (c: nat, k: nat)
    requires b != [] && Utf8(b)
    ensures Scalar(c) && 1 <= k <= |b| && ScalarBytes(c) == b[..k] && Utf8(b[k..])
  {
    hide ScalarBytes, Scalar;
    if b[0] < 0x80 {
      c, k := b[0], 1;
      Ascii(c);
    } else if Lead2(b) {
      c := Assemble2(b);
      k := 2;
    } else if Lead3(b) {
      c := Assemble3(b);
      k := 3;
    } else {
      c := Assemble4(b);
      k := 4;
    }
  }

  lemma Ascii(c: Byte)
    requires c < 0x80
    ensures Scalar(c) && ScalarBytes(c) == [c]
  {
  }

  lemma {:induction false} Utf8HasScalars(b: Octets) returns (cs: seq<nat>)
    requires Utf8(b)
    ensures AllScalars(cs) && TextBytes(cs) == b
    decreases |b|
  {
    cs := [];
    if b == [] {
    } else {
      var c, k := FirstScalar(b);
      var rest := Utf8HasScalars(b[k..]);
      cs := [c] + rest;
      assert cs[1..] == rest;
      assert b == b[..k] + b[k..];
    }
  }

  /** A byte string passes the test exactly when it spells a sequence of scalar values in shortest form. */
  lemma Utf8Iff(b: Octets)
    ensures Utf8(b) <==> exists cs :: AllScalars(cs) && TextBytes(cs) == b
  {
    hide Utf8, TextBytes, AllScalars;
    if Utf8(b) {
      var cs := Utf8HasScalars(b);
    }
    forall cs | AllScalars(cs) && TextBytes(cs) == b ensures Utf8(b) {
      TextIsUtf8(cs);
    }
  }
}
