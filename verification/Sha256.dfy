// SHA-256 as the standard defines it (FIPS 180-4), over bytes, with its padding.
module Sha256 {
  import opened Domain

  // ----- Sections 3.2 and 4.1.2 of FIPS 180-4: rotation and the logical functions -----

  function Rotr(x: bv32, bits: bv6): bv32
    requires 0 < bits < 32
  {
    (x >> bits) | (x << (32 - bits))
  }

  /** The shifts make a rotation: nothing is lost, for every amount the algorithm uses. */
  lemma ShiftsRotate(x: bv32)
    ensures Rotr(x, 2) == x.RotateRight(2) && Rotr(x, 6) == x.RotateRight(6) && Rotr(x, 7) == x.RotateRight(7)
    ensures Rotr(x, 11) == x.RotateRight(11) && Rotr(x, 13) == x.RotateRight(13) && Rotr(x, 17) == x.RotateRight(17)
    ensures Rotr(x, 18) == x.RotateRight(18) && Rotr(x, 19) == x.RotateRight(19)
    ensures Rotr(x, 22) == x.RotateRight(22) && Rotr(x, 25) == x.RotateRight(25)
  {
  }

  function Ch(x: bv32, y: bv32, z: bv32): bv32 {
    (x & y) ^ (!x & z)
  }

  function Maj(x: bv32, y: bv32, z: bv32): bv32 {
    (x & y) ^ (x & z) ^ (y & z)
  }

  function BigSigma0(x: bv32): bv32 {
    Rotr(x, 2) ^ Rotr(x, 13) ^ Rotr(x, 22)
  }

  function BigSigma1(x: bv32): bv32 {
    Rotr(x, 6) ^ Rotr(x, 11) ^ Rotr(x, 25)
  }

  function SmallSigma0(x: bv32): bv32 {
    Rotr(x, 7) ^ Rotr(x, 18) ^ (x >> 3)
  }

  function SmallSigma1(x: bv32): bv32 {
    Rotr(x, 17) ^ Rotr(x, 19) ^ (x >> 10)
  }

  /** Section 2.2.1's addition of words: modulo two to the thirty-second. */
  function Plus(x: bv32, y: bv32): bv32 {
    x + y
  }

  /** Section 4.2.2: the round constants. */
  function K(t: nat): bv32
    requires t < 64
  {
    ((([0x428a2f98, 0x71374491, 0xb5c0fbcf, 0xe9b5dba5, 0x3956c25b, 0x59f111f1, 0x923f82a4, 0xab1c5ed5]
       + [0xd807aa98, 0x12835b01, 0x243185be, 0x550c7dc3, 0x72be5d74, 0x80deb1fe, 0x9bdc06a7, 0xc19bf174])
      + ([0xe49b69c1, 0xefbe4786, 0x0fc19dc6, 0x240ca1cc, 0x2de92c6f, 0x4a7484aa, 0x5cb0a9dc, 0x76f988da]
       + [0x983e5152, 0xa831c66d, 0xb00327c8, 0xbf597fc7, 0xc6e00bf3, 0xd5a79147, 0x06ca6351, 0x14292967]))
     + (([0x27b70a85, 0x2e1b2138, 0x4d2c6dfc, 0x53380d13, 0x650a7354, 0x766a0abb, 0x81c2c92e, 0x92722c85]
       + [0xa2bfe8a1, 0xa81a664b, 0xc24b8b70, 0xc76c51a3, 0xd192e819, 0xd6990624, 0xf40e3585, 0x106aa070])
      + ([0x19a4c116, 0x1e376c08, 0x2748774c, 0x34b0bcb5, 0x391c0cb3, 0x4ed8aa4a, 0x5b9cca4f, 0x682e6ff3]
       + [0x748f82ee, 0x78a5636f, 0x84c87814, 0x8cc70208, 0x90befffa, 0xa4506ceb, 0xbef9a3f7, 0xc67178f2])))[t]
  }

  /** The eight working variables, and equally the eight words of a hash value. */
  datatype Regs = Regs(a: bv32, b: bv32, c: bv32, d: bv32, e: bv32, f: bv32, g: bv32, h: bv32)

  /** Section 5.3.3: the initial hash value. */
  const INITIAL := Regs(0x6a09e667, 0xbb67ae85, 0x3c6ef372, 0xa54ff53a, 0x510e527f, 0x9b05688c, 0x1f83d9ab, 0x5be0cd19)

  // ----- Section 5.1.1: padding -----

  /** The least multiple of 64 that leaves room for the marker and the length. */
  function PaddedLength(n: nat): (m: nat)
    ensures m % 64 == 0 && n + 9 <= m < n + 9 + 64
  {
    (n + 8) / 64 * 64 + 64
  }

  lemma PaddedLengthIsLeast(n: nat, m: nat)
    requires m % 64 == 0 && n + 9 <= m
    ensures PaddedLength(n) <= m
  {
  }

  /** A number as big-endian bytes, reduced to what they can hold. */
  function BigEndian(n: nat, size: nat): (b: Bytes)
    ensures |b| == size
  {
    if size == 0 then [] else BigEndian(n / 256, size - 1) + [(n % 256) as byte]
  }

  function Pad(message: Bytes): (p: Bytes)
    ensures |p| == PaddedLength(|message|)
  {
    message + [0x80] + Zeros(PaddedLength(|message|) - |message| - 9) + BigEndian(8 * |message|, 8)
  }

  function Power(size: nat): (p: int)
    ensures p > 0
  {
    if size == 0 then 1 else 256 * Power(size - 1)
  }

  /** Numbers with equal encodings differ by a multiple of what the encoding can hold. */
  lemma {:induction false} EqualEncodings(m: nat, n: nat, size: nat) returns (q: int)
    requires BigEndian(m, size) == BigEndian(n, size)
    ensures m - n == q * Power(size)
  {
    if size == 0 {
      q := m - n;
    } else {
      var x, y := BigEndian(m / 256, size - 1), BigEndian(n / 256, size - 1);
      var u, v := (m % 256) as byte, (n % 256) as byte;
      assert (x + [u])[..size - 1] == x && (y + [v])[..size - 1] == y;
      assert (x + [u])[size - 1] == u && (y + [v])[size - 1] == v;
      q := EqualEncodings(m / 256, n / 256, size - 1);
      assert 256 * (q * Power(size - 1)) == q * (256 * Power(size - 1));
    }
  }

  lemma EightBytes()
    ensures Power(8) == 0x1_0000_0000_0000_0000
  {
    assert Power(2) == 65536;
    assert Power(4) == 0x1_0000_0000;
    assert Power(6) == 0x1_0000_0000_0000;
  }

  /** No two messages share a padded form. */
  lemma PaddingIsInjective(a: Bytes, b: Bytes)
    requires Pad(a) == Pad(b)
    ensures a == b
  {
    hide BigEndian, Power;
    var m, n, size := |a|, |b|, PaddedLength(|a|);
    assert Pad(a)[size - 8..] == BigEndian(8 * m, 8);
    assert Pad(b)[size - 8..] == BigEndian(8 * n, 8);
    var q := EqualEncodings(8 * m, 8 * n, 8);
    EightBytes();
    assert Pad(a)[..m] == a && Pad(b)[..n] == b;
  }

  // ----- Section 6.2.2: the computation -----

  /** Four bytes as a word. */
  function Word(bytes: Bytes, i: nat): bv32
    requires i + 4 <= |bytes|
  {
    (((bytes[i] as int * 256 + bytes[i + 1] as int) * 256 + bytes[i + 2] as int) * 256 + bytes[i + 3] as int) as bv32
  }

  /** A later word of the schedule, from the words two, seven, fifteen and sixteen places before it. */
  function Expanded(w2: bv32, w7: bv32, w15: bv32, w16: bv32): bv32 {
    Plus(Plus(Plus(w16, SmallSigma0(w15)), w7), SmallSigma1(w2))
  }

  /** The message schedule. */
  function W(padded: Bytes, offset: nat, t: nat): bv32
    requires offset + 64 <= |padded| && t < 64
  {
    if t < 16 then Word(padded, offset + 4 * t)
    else
      Expanded(W(padded, offset, t - 2), W(padded, offset, t - 7), W(padded, offset, t - 15), W(padded, offset, t - 16))
  }

  function T1(r: Regs, k: bv32, w: bv32): bv32 {
    Plus(Plus(Plus(Plus(r.h, BigSigma1(r.e)), Ch(r.e, r.f, r.g)), k), w)
  }

  function T2(r: Regs): bv32 {
    Plus(BigSigma0(r.a), Maj(r.a, r.b, r.c))
  }

  function Round(r: Regs, k: bv32, w: bv32): Regs {
    Regs(Plus(T1(r, k, w), T2(r)), r.a, r.b, r.c, Plus(r.d, T1(r, k, w)), r.e, r.f, r.g)
  }

  function Rounds(r: Regs, padded: Bytes, offset: nat, t: nat): Regs
    requires offset + 64 <= |padded| && t <= 64
  {
    if t == 0 then r else Round(Rounds(r, padded, offset, t - 1), K(t - 1), W(padded, offset, t - 1))
  }

  function Sum(x: Regs, y: Regs): Regs {
    Regs(Plus(x.a, y.a), Plus(x.b, y.b), Plus(x.c, y.c), Plus(x.d, y.d),
         Plus(x.e, y.e), Plus(x.f, y.f), Plus(x.g, y.g), Plus(x.h, y.h))
  }

  /** The hash value after so many blocks. */
  function HashValue(padded: Bytes, blocks: nat): Regs
    requires 64 * blocks <= |padded|
  {
    if blocks == 0 then INITIAL
    else
      var before := HashValue(padded, blocks - 1);
      Sum(before, Rounds(before, padded, 64 * (blocks - 1), 64))
  }

  function HexDigit(n: bv32): char {
    "0123456789abcdef"[(n & 0xf) as int]
  }

  function Hex(w: bv32): string {
    [HexDigit(w >> 28), HexDigit(w >> 24), HexDigit(w >> 20), HexDigit(w >> 16),
     HexDigit(w >> 12), HexDigit(w >> 8), HexDigit(w >> 4), HexDigit(w)]
  }

  function Words(r: Regs): (s: seq<bv32>)
    ensures |s| == 8
  {
    [r.a, r.b, r.c, r.d, r.e, r.f, r.g, r.h]
  }

  function HexAll(words: seq<bv32>): string {
    if words == [] then "" else HexAll(words[..|words| - 1]) + Hex(words[|words| - 1])
  }

  /** The digest of a message, in lower-case hexadecimal. */
  function Digest(message: Bytes): string {
    var padded := Pad(message);
    HexAll(Words(HashValue(padded, |padded| / 64)))
  }
}
