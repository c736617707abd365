// The browser's hand-written SHA-256, proved to compute the standard's definition.
module Sha256Shim {
  import opened Domain
  import opened Sha256

  // ----- 32-bit operators of the source language -----

  /** The signed value of the low 32 bits. */
  function ToInt32(x: int): (r: int)
    ensures -0x8000_0000 <= r < 0x8000_0000
    ensures -0x8000_0000 <= x < 0x8000_0000 ==> r == x
  {
    var u := x % 0x1_0000_0000;
    if u < 0x8000_0000 then u else u - 0x1_0000_0000
  }

  /** `(((n + 8) >> 6) + 1) << 6`, shifts acting on signed 32-bit values. */
  function ShiftedLength(n: nat): int {
    ToInt32((ToInt32(n + 8) / 64 + 1) * 64)
  }

  /** The shift formula is the least multiple of 64 that is at least `n + 9`, exactly while that fits. */
  lemma ShiftedLengthIsExact(n: nat)
    ensures ShiftedLength(n) == PaddedLength(n) <==> PaddedLength(n) < 0x8000_0000
    ensures PaddedLength(n) >= 0x8000_0000 ==> ShiftedLength(n) < n
  {
  }

  /** One word of the schedule, as the expansion loop computes it. */
  method ExpandWord(w16: bv32, a: bv32, w7: bv32, b: bv32) returns (word: bv32)
    ensures word == Expanded(b, w7, a, w16)
  {
    hide Plus, SmallSigma0, SmallSigma1;
    var s0, s1 := Mixed(a, b);
    word := Plus(Plus(Plus(w16, s0), w7), s1);
  }

  method Mixed(a: bv32, b: bv32) returns (s0: bv32, s1: bv32)
    ensures s0 == SmallSigma0(a) && s1 == SmallSigma1(b)
  {
    hide Rotr;
    s0 := Rotr(a, 7) ^ Rotr(a, 18) ^ (a >> 3);
    s1 := Rotr(b, 17) ^ Rotr(b, 19) ^ (b >> 10);
  }

  /** The first sum of a round. */
  method FirstSum(e: bv32, f: bv32, g: bv32, hh: bv32, k: bv32, w: bv32) returns (temp1: bv32)
    ensures temp1 == Plus(Plus(Plus(Plus(hh, BigSigma1(e)), Ch(e, f, g)), k), w)
  {
    hide Plus, BigSigma1, Ch;
    var S1, ch := Chosen(e, f, g);
    temp1 := Plus(Plus(Plus(Plus(hh, S1), ch), k), w);
  }

  method Chosen(e: bv32, f: bv32, g: bv32) returns (S1: bv32, ch: bv32)
    ensures S1 == BigSigma1(e) && ch == Ch(e, f, g)
  {
    hide Rotr;
    S1 := Rotr(e, 6) ^ Rotr(e, 11) ^ Rotr(e, 25);
    ch := (e & f) ^ (!e & g);
  }

  /** The second sum of a round. */
  method SecondSum(a: bv32, b: bv32, c: bv32) returns (temp2: bv32)
    ensures temp2 == Plus(BigSigma0(a), Maj(a, b, c))
  {
    hide Plus, BigSigma0, Maj;
    var S0, maj := Majority(a, b, c);
    temp2 := Plus(S0, maj);
  }

  method Majority(a: bv32, b: bv32, c: bv32) returns (S0: bv32, maj: bv32)
    ensures S0 == BigSigma0(a) && maj == Maj(a, b, c)
  {
    hide Rotr;
    S0 := Rotr(a, 2) ^ Rotr(a, 13) ^ Rotr(a, 22);
    maj := (a & b) ^ (a & c) ^ (b & c);
  }

  // ----- Padding in place -----

  lemma BigEndianWraps(n: nat)
    ensures BigEndian(n % 0x1_0000_0000, 4) == BigEndian(n, 4)
  {
    hide BigEndian;
    var q, m := n / 0x1_0000_0000, n % 0x1_0000_0000;
    LowByte(n, q * 0x100_0000, m);
    LowByte(n / 256, q * 0x1_0000, m / 256);
    LowByte(n / 256 / 256, q * 0x100, m / 256 / 256);
    LowByte(n / 256 / 256 / 256, q, m / 256 / 256 / 256);
    FourBytes(m);
    FourBytes(n);
  }

  lemma LowByte(n: nat, high: nat, low: nat)
    requires n == 256 * high + low
    ensures n % 256 == low % 256 && n / 256 == high + low / 256
  {
  }

  lemma FourBytes(n: nat)
    ensures BigEndian(n, 4) ==
            [(n / 256 / 256 / 256 % 256) as byte, (n / 256 / 256 % 256) as byte, (n / 256 % 256) as byte, (n % 256) as byte]
  {
    assert BigEndian(n / 256 / 256 / 256, 1) == [(n / 256 / 256 / 256 % 256) as byte];
    assert BigEndian(n / 256 / 256, 2) == BigEndian(n / 256 / 256 / 256, 1) + [(n / 256 / 256 % 256) as byte];
    assert BigEndian(n / 256, 3) == BigEndian(n / 256 / 256, 2) + [(n / 256 % 256) as byte];
    assert BigEndian(n, 4) == BigEndian(n / 256, 3) + [(n % 256) as byte];
  }

  /** Two 32-bit halves make the 64-bit length. */
  lemma EightFromTwoFours(n: nat)
    ensures BigEndian(n, 8) == BigEndian(n / 0x1_0000_0000, 4) + BigEndian(n % 0x1_0000_0000, 4)
  {
    BigEndianWraps(n);
    SplitLow(n);
  }

  lemma SplitLow(n: nat)
    ensures BigEndian(n, 8) == BigEndian(n / 0x1_0000_0000, 4) + BigEndian(n, 4)
  {
    var a, b, c, d := n / 256, n / 256 / 256, n / 256 / 256 / 256, n / 0x1_0000_0000;
    assert d == c / 256;
    assert BigEndian(c, 5) == BigEndian(d, 4) + [(c % 256) as byte];
    assert BigEndian(b, 6) == BigEndian(c, 5) + [(b % 256) as byte];
    assert BigEndian(a, 7) == BigEndian(b, 6) + [(a % 256) as byte];
    assert BigEndian(n, 8) == BigEndian(a, 7) + [(n % 256) as byte];
    FourBytes(n);
  }

  /** Writes the low 32 bits of a number, most significant byte first. */
  method SetUint32(view: array<byte>, offset: nat, n: nat)
    requires offset + 4 <= view.Length
    modifies view
    ensures view[..] == old(view[..])[..offset] + BigEndian(n, 4) + old(view[..])[offset + 4..]
  {
    hide BigEndian;
    FourBytes(n);
    view[offset] := (n / 256 / 256 / 256 % 256) as byte;
    view[offset + 1] := (n / 256 / 256 % 256) as byte;
    view[offset + 2] := (n / 256 % 256) as byte;
    view[offset + 3] := (n % 256) as byte;
    assert view[..] == view[..offset] + view[offset..offset + 4] + view[offset + 4..];
  }

  method CopyInto(target: array<byte>, offset: nat, bytes: Bytes)
    requires offset + |bytes| <= target.Length
    modifies target
    ensures target[..] == old(target[..])[..offset] + bytes + old(target[..])[offset + |bytes|..]
  {
    for i := 0 to |bytes|
      invariant target[..offset] == old(target[..])[..offset]
      invariant target[offset..offset + i] == bytes[..i]
      invariant target[offset + i..] == old(target[..])[offset + i..]
    {
      target[offset + i] := bytes[i];
    }
    assert bytes[..|bytes|] == bytes;
    assert target[..] == target[..offset] + target[offset..offset + |bytes|] + target[offset + |bytes|..];
  }

  lemma CopiedMessage(bytes: Bytes, m: nat)
    requires |bytes| <= m
    ensures Zeros(m)[..0] + bytes + Zeros(m)[|bytes|..] == bytes + Zeros(m - |bytes|)
  {
  }

  lemma MarkedMessage(bytes: Bytes, m: nat)
    requires |bytes| < m
    ensures (bytes + Zeros(m - |bytes|))[|bytes| := 0x80] == bytes + [0x80] + Zeros(m - |bytes| - 1)
  {
  }

  lemma LowWord(front: Bytes, z: nat, low: Bytes)
    requires |low| == 4
    ensures var s := front + Zeros(z + 8);
      s[..|s| - 4] + low + s[|s|..] == front + Zeros(z + 4) + low
  {
  }

  lemma HighWord(front: Bytes, z: nat, high: Bytes, low: Bytes)
    requires |low| == 4 && |high| == 4
    ensures var s := front + Zeros(z + 4) + low;
      s[..|s| - 8] + high + s[|s| - 4..] == front + Zeros(z) + (high + low)
  {
  }

  /** The message, the marker, zeros, and the bit length in the last eight bytes. */
  method PadInPlace(bytes: Bytes) returns (padded: array<byte>)
    requires ShiftedLength(|bytes|) == PaddedLength(|bytes|)
    ensures fresh(padded) && padded[..] == Pad(bytes)
  {
    hide BigEndian, PaddedLength, ShiftedLength, Zeros;
    var paddedLength: nat := ShiftedLength(|bytes|);
    padded := MarkMessage(bytes, paddedLength);
    WriteLength(padded, bytes + [0x80], paddedLength - |bytes| - 9, |bytes| * 8);
  }

  method MarkMessage(bytes: Bytes, paddedLength: nat) returns (padded: array<byte>)
    requires |bytes| < paddedLength
    ensures fresh(padded) && padded[..] == bytes + [0x80] + Zeros(paddedLength - |bytes| - 1)
  {
    hide Zeros;
    padded := ZeroArray(paddedLength);
    CopyInto(padded, 0, bytes);
    CopiedMessage(bytes, paddedLength);
    MarkedMessage(bytes, paddedLength);
    padded[|bytes|] := 0x80;
  }

  method WriteLength(padded: array<byte>, ghost front: Bytes, ghost z: nat, bitLength: nat)
    requires padded[..] == front + Zeros(z + 8)
    modifies padded
    ensures padded[..] == front + Zeros(z) + BigEndian(bitLength, 8)
  {
    hide BigEndian, Zeros;
    ghost var low := BigEndian(bitLength % 0x1_0000_0000, 4);
    WriteLow(padded, front, z, bitLength % 0x1_0000_0000);
    WriteHigh(padded, front, z, bitLength / 0x1_0000_0000, low);
    EightFromTwoFours(bitLength);
  }

  method WriteLow(padded: array<byte>, ghost front: Bytes, ghost z: nat, n: nat)
    requires padded[..] == front + Zeros(z + 8)
    modifies padded
    ensures padded[..] == front + Zeros(z + 4) + BigEndian(n, 4)
  {
    hide BigEndian, Zeros;
    ghost var s := padded[..];
    assert |s| == padded.Length;
    LowWord(front, z, BigEndian(n, 4));
    SetUint32(padded, padded.Length - 4, n);
  }

  method WriteHigh(padded: array<byte>, ghost front: Bytes, ghost z: nat, n: nat, ghost low: Bytes)
    requires |low| == 4 && padded[..] == front + Zeros(z + 4) + low
    modifies padded
    ensures padded[..] == front + Zeros(z) + (BigEndian(n, 4) + low)
  {
    hide BigEndian, Zeros;
    ghost var s := padded[..];
    assert |s| == padded.Length;
    HighWord(front, z, BigEndian(n, 4), low);
    SetUint32(padded, padded.Length - 8, n);
  }

  method ZeroArray(n: nat) returns (a: array<byte>)
    ensures fresh(a) && a[..] == Zeros(n)
  {
    a := new byte[n](_ => 0);
  }

  // ----- The loops -----

  method FillSchedule(view: Bytes, offset: nat, w: array<bv32>)
    requires offset + 64 <= |view| && w.Length == 64
    modifies w
    ensures forall t :: 0 <= t < 64 ==> w[t] == W(view, offset, t)
  {
    hide Word, Expanded, W;
    for i := 0 to 16
      invariant forall t :: 0 <= t < i ==> w[t] == W(view, offset, t)
    {
      FirstWords(view, offset, i);
      w[i] := Word(view, offset + i * 4);
    }
    for i := 16 to 64
      invariant forall t :: 0 <= t < i ==> w[t] == W(view, offset, t)
    {
      ScheduleWord(view, offset, i);
      w[i] := ExpandWord(w[i - 16], w[i - 15], w[i - 7], w[i - 2]);
    }
  }

  lemma ScheduleWord(p: Bytes, offset: nat, t: nat)
    requires offset + 64 <= |p| && 16 <= t < 64
    ensures W(p, offset, t) == Expanded(W(p, offset, t - 2), W(p, offset, t - 7), W(p, offset, t - 15), W(p, offset, t - 16))
  {
    hide Expanded, Word;
  }

  lemma FirstWords(p: Bytes, offset: nat, t: nat)
    requires offset + 64 <= |p| && t < 16
    ensures W(p, offset, t) == Word(p, offset + 4 * t)
  {
    hide Expanded, Word;
  }

  /** Sixty-four rounds over the working variables, then the sum with the value before. */
  method CompressBlock(h: array<bv32>, w: array<bv32>, ghost p: Bytes, ghost offset: nat, ghost before: Regs)
    requires h.Length == 8 && w.Length == 64 && h != w && offset + 64 <= |p|
    requires h[..] == Words(before)
    requires forall t :: 0 <= t < 64 ==> w[t] == W(p, offset, t)
    modifies h
    ensures h[..] == Words(Sum(before, Rounds(before, p, offset, 64)))
  {
    hide W, K, BigSigma0, BigSigma1, Ch, Maj, Plus, Rounds, Sum;
    assert Regs(h[0], h[1], h[2], h[3], h[4], h[5], h[6], h[7]) == before by { FromWords(before, h[..]); }
    var a, b, c, d, e, f, g, hh := h[0], h[1], h[2], h[3], h[4], h[5], h[6], h[7];
    NoRounds(before, p, offset);
    for i := 0 to 64
      invariant Regs(a, b, c, d, e, f, g, hh) == Rounds(before, p, offset, i)
      invariant h[..] == Words(before)
    {
      OneMoreRound(before, p, offset, i);
      var temp1 := FirstSum(e, f, g, hh, K(i), w[i]);
      var temp2 := SecondSum(a, b, c);
      hh := g;
      g := f;
      f := e;
      e := Plus(d, temp1);
      d := c;
      c := b;
      b := a;
      a := Plus(temp1, temp2);
    }
    AddInto(h, Regs(a, b, c, d, e, f, g, hh), before);
  }

  lemma FromWords(r: Regs, s: seq<bv32>)
    requires s == Words(r)
    ensures Regs(s[0], s[1], s[2], s[3], s[4], s[5], s[6], s[7]) == r
  {
  }

  lemma NoRounds(r: Regs, p: Bytes, offset: nat)
    requires offset + 64 <= |p|
    ensures Rounds(r, p, offset, 0) == r
  {
  }

  lemma OneMoreRound(r: Regs, p: Bytes, offset: nat, t: nat)
    requires offset + 64 <= |p| && t < 64
    ensures Rounds(r, p, offset, t + 1) == Round(Rounds(r, p, offset, t), K(t), W(p, offset, t))
  {
  }

  lemma ToWords(r: Regs, s: seq<bv32>)
    requires |s| == 8
    requires s[0] == r.a && s[1] == r.b && s[2] == r.c && s[3] == r.d
    requires s[4] == r.e && s[5] == r.f && s[6] == r.g && s[7] == r.h
    ensures s == Words(r)
  {
  }

  method AddInto(h: array<bv32>, r: Regs, ghost before: Regs)
    requires h.Length == 8 && h[..] == Words(before)
    modifies h
    ensures h[..] == Words(Sum(before, r))
  {
    hide Plus, Words;
    FromWords(before, h[..]);
    h[0] := Plus(h[0], r.a);
    h[1] := Plus(h[1], r.b);
    h[2] := Plus(h[2], r.c);
    h[3] := Plus(h[3], r.d);
    h[4] := Plus(h[4], r.e);
    h[5] := Plus(h[5], r.f);
    h[6] := Plus(h[6], r.g);
    h[7] := Plus(h[7], r.h);
    ToWords(Sum(before, r), h[..]);
  }

  method InitialHash() returns (h: array<bv32>)
    ensures fresh(h) && h.Length == 8 && h[..] == Words(INITIAL)
  {
    h := new bv32[] [0x6a09e667, 0xbb67ae85, 0x3c6ef372, 0xa54ff53a, 0x510e527f, 0x9b05688c, 0x1f83d9ab, 0x5be0cd19];
  }

  /** The digest of any message whose padded length a 32-bit shift can hold; nothing beyond. */
  method HashBytes(bytes: Bytes) returns (digest: Option<string>)
    ensures digest == if PaddedLength(|bytes|) < 0x8000_0000 then Some(Digest(bytes)) else None
  {
    hide Rounds, W, Sum, PaddedLength, ShiftedLength, HexAll;
    ShiftedLengthIsExact(|bytes|);
    if ShiftedLength(|bytes|) < |bytes| {
      return None;
    }
    var padded := PadInPlace(bytes);
    var h := InitialHash();
    var w := new bv32[64];
    var offset, blocks := 0, 0;
    while offset < padded.Length
      invariant offset == 64 * blocks && offset <= padded.Length && padded[..] == Pad(bytes)
      invariant h[..] == Words(HashValue(padded[..], blocks))
    {
      FillSchedule(padded[..], offset, w);
      CompressBlock(h, w, padded[..], offset, HashValue(padded[..], blocks));
      offset, blocks := offset + 64, blocks + 1;
    }
    var out := HexOf(h);
    return Some(out);
  }

  method HexOf(h: array<bv32>) returns (out: string)
    requires h.Length == 8
    ensures out == HexAll(h[..])
  {
    hide Hex;
    out := "";
    for i := 0 to 8
      invariant out == HexAll(h[..i])
    {
      assert h[..i + 1][..i] == h[..i];
      out := out + Hex(h[i]);
    }
    assert h[..8] == h[..];
  }

  // ----- Incremental hashing -----

  function Joined(chunks: seq<Bytes>): Bytes {
    if chunks == [] then [] else Joined(chunks[..|chunks| - 1]) + chunks[|chunks| - 1]
  }

  /** `encode` turns text into bytes; chunks are kept until the digest is asked for. */
  class Hash {
    const encode: string -> Bytes
    var chunks: seq<Bytes>

    constructor (encode: string -> Bytes)
      ensures this.encode == encode && chunks == []
    {
      this.encode := encode;
      chunks := [];
    }

    method Update(data: string)
      modifies this
      ensures chunks == old(chunks) + [encode(data)]
      ensures Joined(chunks) == old(Joined(chunks)) + encode(data)
    {
      chunks := chunks + [encode(data)];
      assert chunks[..|chunks| - 1] == old(chunks);
    }

    /** However the data was split into updates, the digest is that of the whole. */
    method DigestHex() returns (digest: Option<string>)
      ensures digest == if PaddedLength(|Joined(chunks)|) < 0x8000_0000 then Some(Digest(Joined(chunks))) else None
    {
      hide Digest, PaddedLength;
      var total := 0;
      for i := 0 to |chunks|
        invariant total == |Joined(chunks[..i])|
      {
        assert chunks[..i + 1][..i] == chunks[..i];
        total := total + |chunks[i]|;
      }
      assert chunks[..|chunks|] == chunks;
      var joined := new byte[total](_ => 0);
      var offset := 0;
      for i := 0 to |chunks|
        invariant offset == |Joined(chunks[..i])| <= joined.Length
        invariant joined[..offset] == Joined(chunks[..i])
      {
        assert chunks[..i + 1][..i] == chunks[..i];
        JoinedFits(chunks, i + 1);
        ghost var before := joined[..offset];
        CopyInto(joined, offset, chunks[i]);
        assert joined[..offset + |chunks[i]|] == before + chunks[i];
        offset := offset + |chunks[i]|;
      }
      assert joined[..offset] == joined[..];
      digest := HashBytes(joined[..]);
    }
  }

  lemma {:induction false} JoinedFits(chunks: seq<Bytes>, n: nat)
    requires n <= |chunks|
    ensures |Joined(chunks[..n])| <= |Joined(chunks)|
  {
    if n == |chunks| {
      assert chunks[..n] == chunks;
    } else {
      assert chunks[..|chunks| - 1][..n] == chunks[..n];
      JoinedFits(chunks[..|chunks| - 1], n);
    }
  }
}
