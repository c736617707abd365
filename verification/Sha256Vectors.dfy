// The constants of SHA-256 by their definition, and a digest the standard publishes.
module Sha256Vectors {
  import opened Domain
  import opened Sha256

  // ----- Sections 4.2.2 and 5.3.3 of FIPS 180-4: where the constants come from -----

  const WORD := 0x1_0000_0000

  /** The first sixty-four primes. */
  const PRIMES: seq<nat> :=
    [2, 3, 5, 7, 11, 13, 17, 19]
    + [23, 29, 31, 37, 41, 43, 47, 53]
    + [59, 61, 67, 71, 73, 79, 83, 89]
    + [97, 101, 103, 107, 109, 113, 127, 131]
    + [137, 139, 149, 151, 157, 163, 167, 173]
    + [179, 181, 191, 193, 197, 199, 211, 223]
    + [227, 229, 233, 239, 241, 251, 257, 263]
    + [269, 271, 277, 281, 283, 293, 307, 311]

  /** A word that is the first thirty-two bits of the fractional part of a number's cube root. */
  ghost predicate IsCubeRoot(w: bv32, n: nat) {
    exists x: nat :: CubeRootWith(w, n, x)
  }

  /** `x` is the cube root of `n`, in units of two to the minus thirty-second, rounded down. */
  predicate CubeRootWith(w: bv32, n: nat, x: nat) {
    x % WORD == w as int && Cube(x) <= n * Cube(WORD) < Cube(x + 1)
  }

  function Cube(x: nat): nat {
    x * x * x
  }

  ghost predicate IsSquareRoot(w: bv32, n: nat) {
    exists x: nat :: SquareRootWith(w, n, x)
  }

  predicate SquareRootWith(w: bv32, n: nat, x: nat) {
    x % WORD == w as int && x * x <= n * (WORD * WORD) < (x + 1) * (x + 1)
  }

  lemma RoundConstants0(t: nat)
    requires 0 <= t < 8
    ensures IsCubeRoot(K(t), PRIMES[t])
  {
    match t {
      case 0 => assert CubeRootWith(K(0), PRIMES[0], 0x1428a2f98);
      case 1 => assert CubeRootWith(K(1), PRIMES[1], 0x171374491);
      case 2 => assert CubeRootWith(K(2), PRIMES[2], 0x1b5c0fbcf);
      case 3 => assert CubeRootWith(K(3), PRIMES[3], 0x1e9b5dba5);
      case 4 => assert CubeRootWith(K(4), PRIMES[4], 0x23956c25b);
      case 5 => assert CubeRootWith(K(5), PRIMES[5], 0x259f111f1);
      case 6 => assert CubeRootWith(K(6), PRIMES[6], 0x2923f82a4);
      case 7 => assert CubeRootWith(K(7), PRIMES[7], 0x2ab1c5ed5);
    }
  }

  lemma RoundConstants1(t: nat)
    requires 8 <= t < 16
    ensures IsCubeRoot(K(t), PRIMES[t])
  {
    match t {
      case 8 => assert CubeRootWith(K(8), PRIMES[8], 0x2d807aa98);
      case 9 => assert CubeRootWith(K(9), PRIMES[9], 0x312835b01);
      case 10 => assert CubeRootWith(K(10), PRIMES[10], 0x3243185be);
      case 11 => assert CubeRootWith(K(11), PRIMES[11], 0x3550c7dc3);
      case 12 => assert CubeRootWith(K(12), PRIMES[12], 0x372be5d74);
      case 13 => assert CubeRootWith(K(13), PRIMES[13], 0x380deb1fe);
      case 14 => assert CubeRootWith(K(14), PRIMES[14], 0x39bdc06a7);
      case 15 => assert CubeRootWith(K(15), PRIMES[15], 0x3c19bf174);
    }
  }

  lemma RoundConstants2(t: nat)
    requires 16 <= t < 24
    ensures IsCubeRoot(K(t), PRIMES[t])
  {
    match t {
      case 16 => assert CubeRootWith(K(16), PRIMES[16], 0x3e49b69c1);
      case 17 => assert CubeRootWith(K(17), PRIMES[17], 0x3efbe4786);
      case 18 => assert CubeRootWith(K(18), PRIMES[18], 0x40fc19dc6);
      case 19 => assert CubeRootWith(K(19), PRIMES[19], 0x4240ca1cc);
      case 20 => assert CubeRootWith(K(20), PRIMES[20], 0x42de92c6f);
      case 21 => assert CubeRootWith(K(21), PRIMES[21], 0x44a7484aa);
      case 22 => assert CubeRootWith(K(22), PRIMES[22], 0x45cb0a9dc);
      case 23 => assert CubeRootWith(K(23), PRIMES[23], 0x476f988da);
    }
  }

  lemma RoundConstants3(t: nat)
    requires 24 <= t < 32
    ensures IsCubeRoot(K(t), PRIMES[t])
  {
    match t {
      case 24 => assert CubeRootWith(K(24), PRIMES[24], 0x4983e5152);
      case 25 => assert CubeRootWith(K(25), PRIMES[25], 0x4a831c66d);
      case 26 => assert CubeRootWith(K(26), PRIMES[26], 0x4b00327c8);
      case 27 => assert CubeRootWith(K(27), PRIMES[27], 0x4bf597fc7);
      case 28 => assert CubeRootWith(K(28), PRIMES[28], 0x4c6e00bf3);
      case 29 => assert CubeRootWith(K(29), PRIMES[29], 0x4d5a79147);
      case 30 => assert CubeRootWith(K(30), PRIMES[30], 0x506ca6351);
      case 31 => assert CubeRootWith(K(31), PRIMES[31], 0x514292967);
    }
  }

  lemma RoundConstants4(t: nat)
    requires 32 <= t < 40
    ensures IsCubeRoot(K(t), PRIMES[t])
  {
    match t {
      case 32 => assert CubeRootWith(K(32), PRIMES[32], 0x527b70a85);
      case 33 => assert CubeRootWith(K(33), PRIMES[33], 0x52e1b2138);
      case 34 => assert CubeRootWith(K(34), PRIMES[34], 0x54d2c6dfc);
      case 35 => assert CubeRootWith(K(35), PRIMES[35], 0x553380d13);
      case 36 => assert CubeRootWith(K(36), PRIMES[36], 0x5650a7354);
      case 37 => assert CubeRootWith(K(37), PRIMES[37], 0x5766a0abb);
      case 38 => assert CubeRootWith(K(38), PRIMES[38], 0x581c2c92e);
      case 39 => assert CubeRootWith(K(39), PRIMES[39], 0x592722c85);
    }
  }

  lemma RoundConstants5(t: nat)
    requires 40 <= t < 48
    ensures IsCubeRoot(K(t), PRIMES[t])
  {
    match t {
      case 40 => assert CubeRootWith(K(40), PRIMES[40], 0x5a2bfe8a1);
      case 41 => assert CubeRootWith(K(41), PRIMES[41], 0x5a81a664b);
      case 42 => assert CubeRootWith(K(42), PRIMES[42], 0x5c24b8b70);
      case 43 => assert CubeRootWith(K(43), PRIMES[43], 0x5c76c51a3);
      case 44 => assert CubeRootWith(K(44), PRIMES[44], 0x5d192e819);
      case 45 => assert CubeRootWith(K(45), PRIMES[45], 0x5d6990624);
      case 46 => assert CubeRootWith(K(46), PRIMES[46], 0x5f40e3585);
      case 47 => assert CubeRootWith(K(47), PRIMES[47], 0x6106aa070);
    }
  }

  lemma RoundConstants6(t: nat)
    requires 48 <= t < 56
    ensures IsCubeRoot(K(t), PRIMES[t])
  {
    match t {
      case 48 => assert CubeRootWith(K(48), PRIMES[48], 0x619a4c116);
      case 49 => assert CubeRootWith(K(49), PRIMES[49], 0x61e376c08);
      case 50 => assert CubeRootWith(K(50), PRIMES[50], 0x62748774c);
      case 51 => assert CubeRootWith(K(51), PRIMES[51], 0x634b0bcb5);
      case 52 => assert CubeRootWith(K(52), PRIMES[52], 0x6391c0cb3);
      case 53 => assert CubeRootWith(K(53), PRIMES[53], 0x64ed8aa4a);
      case 54 => assert CubeRootWith(K(54), PRIMES[54], 0x65b9cca4f);
      case 55 => assert CubeRootWith(K(55), PRIMES[55], 0x6682e6ff3);
    }
  }

  lemma RoundConstants7(t: nat)
    requires 56 <= t < 64
    ensures IsCubeRoot(K(t), PRIMES[t])
  {
    match t {
      case 56 => assert CubeRootWith(K(56), PRIMES[56], 0x6748f82ee);
      case 57 => assert CubeRootWith(K(57), PRIMES[57], 0x678a5636f);
      case 58 => assert CubeRootWith(K(58), PRIMES[58], 0x684c87814);
      case 59 => assert CubeRootWith(K(59), PRIMES[59], 0x68cc70208);
      case 60 => assert CubeRootWith(K(60), PRIMES[60], 0x690befffa);
      case 61 => assert CubeRootWith(K(61), PRIMES[61], 0x6a4506ceb);
      case 62 => assert CubeRootWith(K(62), PRIMES[62], 0x6bef9a3f7);
      case 63 => assert CubeRootWith(K(63), PRIMES[63], 0x6c67178f2);
    }
  }

  /** Every round constant comes from its own prime's cube root. */
  lemma RoundConstantsAreCubeRoots(t: nat)
    requires t < 64
    ensures IsCubeRoot(K(t), PRIMES[t])
  {
    hide IsCubeRoot, K;
    if t < 8 {
      RoundConstants0(t);
    } else if t < 16 {
      RoundConstants1(t);
    } else if t < 24 {
      RoundConstants2(t);
    } else if t < 32 {
      RoundConstants3(t);
    } else if t < 40 {
      RoundConstants4(t);
    } else if t < 48 {
      RoundConstants5(t);
    } else if t < 56 {
      RoundConstants6(t);
    } else {
      RoundConstants7(t);
    }
  }


  /** Every word of the initial hash value comes from its own prime's square root. */
  lemma InitialValueIsSquareRoots(t: nat)
    requires t < 8
    ensures IsSquareRoot(Words(INITIAL)[t], PRIMES[t])
  {
    match t {
      case 0 => assert SquareRootWith(Words(INITIAL)[0], PRIMES[0], 0x16a09e667);
      case 1 => assert SquareRootWith(Words(INITIAL)[1], PRIMES[1], 0x1bb67ae85);
      case 2 => assert SquareRootWith(Words(INITIAL)[2], PRIMES[2], 0x23c6ef372);
      case 3 => assert SquareRootWith(Words(INITIAL)[3], PRIMES[3], 0x2a54ff53a);
      case 4 => assert SquareRootWith(Words(INITIAL)[4], PRIMES[4], 0x3510e527f);
      case 5 => assert SquareRootWith(Words(INITIAL)[5], PRIMES[5], 0x39b05688c);
      case 6 => assert SquareRootWith(Words(INITIAL)[6], PRIMES[6], 0x41f83d9ab);
      case 7 => assert SquareRootWith(Words(INITIAL)[7], PRIMES[7], 0x45be0cd19);
    }
  }

  // ----- A published digest: the three bytes of "abc" -----

  const ABC: Bytes := [0x61, 0x62, 0x63]

  /** The one padded block of the message. */
  predicate IsBlock(p: Bytes) {
    |p| == 64 && p[..4] == ABC + [0x80] && (forall i :: 4 <= i < 63 ==> p[i] == 0) && p[63] == 24
  }

  lemma LengthInBytes()
    ensures BigEndian(24, 8) == [0, 0, 0, 0, 0, 0, 0, 24]
  {
    assert BigEndian(0, 1) == [0];
    assert BigEndian(0, 3) == [0, 0, 0];
    assert BigEndian(0, 5) == [0, 0, 0, 0, 0];
    assert BigEndian(0, 7) == [0, 0, 0, 0, 0, 0, 0];
  }

  lemma PaddedIsBlock(p: Bytes)
    requires p == ABC + [0x80] + Zeros(52) + [0, 0, 0, 0, 0, 0, 0, 24]
    ensures IsBlock(p)
  {
    assert p[..4] == ABC + [0x80];
    assert p[56..] == [0, 0, 0, 0, 0, 0, 0, 24];
    forall i | 4 <= i < 63
      ensures p[i] == 0
    {
      if i >= 56 {
        assert p[i] == p[56..][i - 56];
      }
    }
    assert p[63] == p[56..][7];
  }

  lemma AbcIsPadded()
    ensures IsBlock(Pad(ABC))
  {
    hide BigEndian, Zeros, IsBlock;
    LengthInBytes();
    PaddedIsBlock(Pad(ABC));
  }

  lemma ZeroWord(p: Bytes, i: nat)
    requires i + 4 <= |p| && p[i] == 0 && p[i + 1] == 0 && p[i + 2] == 0 && p[i + 3] == 0
    ensures Word(p, i) == 0
  {
  }

  lemma WordIs(p: Bytes, i: nat, n: nat)
    requires i + 4 <= |p| && n == ((p[i] as int * 256 + p[i + 1] as int) * 256 + p[i + 2] as int) * 256 + p[i + 3] as int
    ensures n < 0x1_0000_0000 && Word(p, i) == n as bv32
  {
  }

  lemma WordsAsNumbers()
    ensures 0x61626380 as bv32 == 0x61626380 && 24 as bv32 == 24
  {
  }

  lemma FirstBytes(p: Bytes)
    requires IsBlock(p)
    ensures p[0] == 0x61 && p[1] == 0x62 && p[2] == 0x63 && p[3] == 0x80
  {
    assert p[0] == p[..4][0] && p[1] == p[..4][1] && p[2] == p[..4][2] && p[3] == p[..4][3];
  }

  lemma FirstAndLastWord(p: Bytes)
    requires |p| == 64 && IsBlock(p) && p[60] == 0 && p[61] == 0 && p[62] == 0 && p[63] == 24
    ensures Word(p, 0) == 0x61626380 && Word(p, 60) == 24
  {
    FirstBytes(p);
    hide Word, IsBlock;
    WordsAsNumbers();
    WordIs(p, 0, 0x61626380);
    WordIs(p, 60, 24);
  }

  lemma ScheduleStep(p: Bytes, t: nat)
    requires |p| == 64 && 16 <= t < 64
    ensures W(p, 0, t) == Expanded(W(p, 0, t - 2), W(p, 0, t - 7), W(p, 0, t - 15), W(p, 0, t - 16))
  {
    hide Expanded, Word;
  }

  lemma RoundStep(p: Bytes, t: nat)
    requires |p| == 64 && t < 64
    ensures Rounds(INITIAL, p, 0, t + 1) == Round(Rounds(INITIAL, p, 0, t), K(t), W(p, 0, t))
  {
    hide Round, K, W;
  }

  lemma Schedule0(p: Bytes)
    requires IsBlock(p)

    ensures W(p, 0, 0) == 0x61626380 && (forall t: nat :: 0 < t < 15 ==> W(p, 0, t) == 0) && W(p, 0, 15) == 24
  {
    hide Word;
    FirstAndLastWord(p);
    forall t: nat | 0 < t < 15
      ensures W(p, 0, t) == 0
    {
      ZeroWord(p, 4 * t);
    }
  }

  lemma Expansion1()
    ensures Expanded(0x00000000, 0x00000000, 0x00000000, 0x61626380) == 0x61626380
    ensures Expanded(0x00000018, 0x00000000, 0x00000000, 0x00000000) == 0x000f0000
    ensures Expanded(0x61626380, 0x00000000, 0x00000000, 0x00000000) == 0x7da86405
    ensures Expanded(0x000f0000, 0x00000000, 0x00000000, 0x00000000) == 0x600003c6
    ensures Expanded(0x7da86405, 0x00000000, 0x00000000, 0x00000000) == 0x3e9d7b78
    ensures Expanded(0x600003c6, 0x00000000, 0x00000000, 0x00000000) == 0x0183fc00
    ensures Expanded(0x3e9d7b78, 0x00000018, 0x00000000, 0x00000000) == 0x12dcbfdb
    ensures Expanded(0x0183fc00, 0x61626380, 0x00000000, 0x00000000) == 0xe2e2c38e
  {
  }

  lemma Schedule1(p: Bytes)
    requires |p| == 64 && IsBlock(p)
    ensures W(p, 0, 16) == 0x61626380
    ensures W(p, 0, 17) == 0x000f0000
    ensures W(p, 0, 18) == 0x7da86405
    ensures W(p, 0, 19) == 0x600003c6
    ensures W(p, 0, 20) == 0x3e9d7b78
    ensures W(p, 0, 21) == 0x0183fc00
    ensures W(p, 0, 22) == 0x12dcbfdb
    ensures W(p, 0, 23) == 0xe2e2c38e
  {
    hide Expanded, W, IsBlock;
    Schedule0(p);
    Expansion1();
    ScheduleStep(p, 16); ScheduleStep(p, 17); ScheduleStep(p, 18); ScheduleStep(p, 19);
    ScheduleStep(p, 20); ScheduleStep(p, 21); ScheduleStep(p, 22); ScheduleStep(p, 23);
  }

  lemma Expansion2()
    ensures Expanded(0x12dcbfdb, 0x000f0000, 0x00000000, 0x00000000) == 0xc8215c1a
    ensures Expanded(0xe2e2c38e, 0x7da86405, 0x00000000, 0x00000000) == 0xb73679a2
    ensures Expanded(0xc8215c1a, 0x600003c6, 0x00000000, 0x00000000) == 0xe5bc3909
    ensures Expanded(0xb73679a2, 0x3e9d7b78, 0x00000000, 0x00000000) == 0x32663c5b
    ensures Expanded(0xe5bc3909, 0x0183fc00, 0x00000000, 0x00000000) == 0x9d209d67
    ensures Expanded(0x32663c5b, 0x12dcbfdb, 0x00000000, 0x00000000) == 0xec8726cb
    ensures Expanded(0x9d209d67, 0xe2e2c38e, 0x00000018, 0x00000000) == 0x702138a4
    ensures Expanded(0xec8726cb, 0xc8215c1a, 0x61626380, 0x00000018) == 0xd3b7973b
  {
  }

  lemma Schedule2(p: Bytes)
    requires |p| == 64 && IsBlock(p)
    ensures W(p, 0, 24) == 0xc8215c1a
    ensures W(p, 0, 25) == 0xb73679a2
    ensures W(p, 0, 26) == 0xe5bc3909
    ensures W(p, 0, 27) == 0x32663c5b
    ensures W(p, 0, 28) == 0x9d209d67
    ensures W(p, 0, 29) == 0xec8726cb
    ensures W(p, 0, 30) == 0x702138a4
    ensures W(p, 0, 31) == 0xd3b7973b
  {
    hide Expanded, W, IsBlock;
    Schedule0(p);
    Schedule1(p);
    Expansion2();
    ScheduleStep(p, 24); ScheduleStep(p, 25); ScheduleStep(p, 26); ScheduleStep(p, 27);
    ScheduleStep(p, 28); ScheduleStep(p, 29); ScheduleStep(p, 30); ScheduleStep(p, 31);
  }

  lemma Expansion3()
    ensures Expanded(0x702138a4, 0xb73679a2, 0x000f0000, 0x61626380) == 0x93f5997f
    ensures Expanded(0xd3b7973b, 0xe5bc3909, 0x7da86405, 0x000f0000) == 0x3b68ba73
    ensures Expanded(0x93f5997f, 0x32663c5b, 0x600003c6, 0x7da86405) == 0xaff4ffc1
    ensures Expanded(0x3b68ba73, 0x9d209d67, 0x3e9d7b78, 0x600003c6) == 0xf10a5c62
    ensures Expanded(0xaff4ffc1, 0xec8726cb, 0x0183fc00, 0x3e9d7b78) == 0x0a8b3996
    ensures Expanded(0xf10a5c62, 0x702138a4, 0x12dcbfdb, 0x0183fc00) == 0x72af830a
    ensures Expanded(0x0a8b3996, 0xd3b7973b, 0xe2e2c38e, 0x12dcbfdb) == 0x9409e33e
    ensures Expanded(0x72af830a, 0x93f5997f, 0xc8215c1a, 0xe2e2c38e) == 0x24641522
  {
  }

  lemma Schedule3(p: Bytes)
    requires |p| == 64 && IsBlock(p)
    ensures W(p, 0, 32) == 0x93f5997f
    ensures W(p, 0, 33) == 0x3b68ba73
    ensures W(p, 0, 34) == 0xaff4ffc1
    ensures W(p, 0, 35) == 0xf10a5c62
    ensures W(p, 0, 36) == 0x0a8b3996
    ensures W(p, 0, 37) == 0x72af830a
    ensures W(p, 0, 38) == 0x9409e33e
    ensures W(p, 0, 39) == 0x24641522
  {
    hide Expanded, W, IsBlock;
    Schedule1(p);
    Schedule2(p);
    Expansion3();
    ScheduleStep(p, 32); ScheduleStep(p, 33); ScheduleStep(p, 34); ScheduleStep(p, 35);
    ScheduleStep(p, 36); ScheduleStep(p, 37); ScheduleStep(p, 38); ScheduleStep(p, 39);
  }

  lemma Expansion4()
    ensures Expanded(0x9409e33e, 0x3b68ba73, 0xb73679a2, 0xc8215c1a) == 0x9f47bf94
    ensures Expanded(0x24641522, 0xaff4ffc1, 0xe5bc3909, 0xb73679a2) == 0xf0a64f5a
    ensures Expanded(0x9f47bf94, 0xf10a5c62, 0x32663c5b, 0xe5bc3909) == 0x3e246a79
    ensures Expanded(0xf0a64f5a, 0x0a8b3996, 0x9d209d67, 0x32663c5b) == 0x27333ba3
    ensures Expanded(0x3e246a79, 0x72af830a, 0xec8726cb, 0x9d209d67) == 0x0c4763f2
    ensures Expanded(0x27333ba3, 0x9409e33e, 0x702138a4, 0xec8726cb) == 0x840abf27
    ensures Expanded(0x0c4763f2, 0x24641522, 0xd3b7973b, 0x702138a4) == 0x7a290d5d
    ensures Expanded(0x840abf27, 0x9f47bf94, 0x93f5997f, 0xd3b7973b) == 0x065c43da
  {
  }

  lemma Schedule4(p: Bytes)
    requires |p| == 64 && IsBlock(p)
    ensures W(p, 0, 40) == 0x9f47bf94
    ensures W(p, 0, 41) == 0xf0a64f5a
    ensures W(p, 0, 42) == 0x3e246a79
    ensures W(p, 0, 43) == 0x27333ba3
    ensures W(p, 0, 44) == 0x0c4763f2
    ensures W(p, 0, 45) == 0x840abf27
    ensures W(p, 0, 46) == 0x7a290d5d
    ensures W(p, 0, 47) == 0x065c43da
  {
    hide Expanded, W, IsBlock;
    Schedule2(p);
    Schedule3(p);
    Expansion4();
    ScheduleStep(p, 40); ScheduleStep(p, 41); ScheduleStep(p, 42); ScheduleStep(p, 43);
    ScheduleStep(p, 44); ScheduleStep(p, 45); ScheduleStep(p, 46); ScheduleStep(p, 47);
  }

  lemma Expansion5()
    ensures Expanded(0x7a290d5d, 0xf0a64f5a, 0x3b68ba73, 0x93f5997f) == 0xfb3e89cb
    ensures Expanded(0x065c43da, 0x3e246a79, 0xaff4ffc1, 0x3b68ba73) == 0xcc7617db
    ensures Expanded(0xfb3e89cb, 0x27333ba3, 0xf10a5c62, 0xaff4ffc1) == 0xb9e66c34
    ensures Expanded(0xcc7617db, 0x0c4763f2, 0x0a8b3996, 0xf10a5c62) == 0xa9993667
    ensures Expanded(0xb9e66c34, 0x840abf27, 0x72af830a, 0x0a8b3996) == 0x84badedd
    ensures Expanded(0xa9993667, 0x7a290d5d, 0x9409e33e, 0x72af830a) == 0xc21462bc
    ensures Expanded(0x84badedd, 0x065c43da, 0x24641522, 0x9409e33e) == 0x1487472c
    ensures Expanded(0xc21462bc, 0xfb3e89cb, 0x9f47bf94, 0x24641522) == 0xb20f7a99
  {
  }

  lemma Schedule5(p: Bytes)
    requires |p| == 64 && IsBlock(p)
    ensures W(p, 0, 48) == 0xfb3e89cb
    ensures W(p, 0, 49) == 0xcc7617db
    ensures W(p, 0, 50) == 0xb9e66c34
    ensures W(p, 0, 51) == 0xa9993667
    ensures W(p, 0, 52) == 0x84badedd
    ensures W(p, 0, 53) == 0xc21462bc
    ensures W(p, 0, 54) == 0x1487472c
    ensures W(p, 0, 55) == 0xb20f7a99
  {
    hide Expanded, W, IsBlock;
    Schedule3(p);
    Schedule4(p);
    Expansion5();
    ScheduleStep(p, 48); ScheduleStep(p, 49); ScheduleStep(p, 50); ScheduleStep(p, 51);
    ScheduleStep(p, 52); ScheduleStep(p, 53); ScheduleStep(p, 54); ScheduleStep(p, 55);
  }

  lemma Expansion6()
    ensures Expanded(0x1487472c, 0xcc7617db, 0xf0a64f5a, 0x9f47bf94) == 0xef57b9cd
    ensures Expanded(0xb20f7a99, 0xb9e66c34, 0x3e246a79, 0xf0a64f5a) == 0xebe6b238
    ensures Expanded(0xef57b9cd, 0xa9993667, 0x27333ba3, 0x3e246a79) == 0x9fe3095e
    ensures Expanded(0xebe6b238, 0x84badedd, 0x0c4763f2, 0x27333ba3) == 0x78bc8d4b
    ensures Expanded(0x9fe3095e, 0xc21462bc, 0x840abf27, 0x0c4763f2) == 0xa43fcf15
    ensures Expanded(0x78bc8d4b, 0x1487472c, 0x7a290d5d, 0x840abf27) == 0x668b2ff8
    ensures Expanded(0xa43fcf15, 0xb20f7a99, 0x065c43da, 0x7a290d5d) == 0xeeaba2cc
    ensures Expanded(0x668b2ff8, 0xef57b9cd, 0xfb3e89cb, 0x065c43da) == 0x12b1edeb
  {
  }

  lemma Schedule6(p: Bytes)
    requires |p| == 64 && IsBlock(p)
    ensures W(p, 0, 56) == 0xef57b9cd
    ensures W(p, 0, 57) == 0xebe6b238
    ensures W(p, 0, 58) == 0x9fe3095e
    ensures W(p, 0, 59) == 0x78bc8d4b
    ensures W(p, 0, 60) == 0xa43fcf15
    ensures W(p, 0, 61) == 0x668b2ff8
    ensures W(p, 0, 62) == 0xeeaba2cc
    ensures W(p, 0, 63) == 0x12b1edeb
  {
    hide Expanded, W, IsBlock;
    Schedule4(p);
    Schedule5(p);
    Expansion6();
    ScheduleStep(p, 56); ScheduleStep(p, 57); ScheduleStep(p, 58); ScheduleStep(p, 59);
    ScheduleStep(p, 60); ScheduleStep(p, 61); ScheduleStep(p, 62); ScheduleStep(p, 63);
  }

  const R0 := Regs(0x6a09e667, 0xbb67ae85, 0x3c6ef372, 0xa54ff53a, 0x510e527f, 0x9b05688c, 0x1f83d9ab, 0x5be0cd19)
  const R1 := Regs(0x5d6aebcd, 0x6a09e667, 0xbb67ae85, 0x3c6ef372, 0xfa2a4622, 0x510e527f, 0x9b05688c, 0x1f83d9ab)
  const R2 := Regs(0x5a6ad9ad, 0x5d6aebcd, 0x6a09e667, 0xbb67ae85, 0x78ce7989, 0xfa2a4622, 0x510e527f, 0x9b05688c)
  const R3 := Regs(0xc8c347a7, 0x5a6ad9ad, 0x5d6aebcd, 0x6a09e667, 0xf92939eb, 0x78ce7989, 0xfa2a4622, 0x510e527f)
  const R4 := Regs(0xd550f666, 0xc8c347a7, 0x5a6ad9ad, 0x5d6aebcd, 0x24e00850, 0xf92939eb, 0x78ce7989, 0xfa2a4622)
  const R5 := Regs(0x04409a6a, 0xd550f666, 0xc8c347a7, 0x5a6ad9ad, 0x43ada245, 0x24e00850, 0xf92939eb, 0x78ce7989)
  const R6 := Regs(0x2b4209f5, 0x04409a6a, 0xd550f666, 0xc8c347a7, 0x714260ad, 0x43ada245, 0x24e00850, 0xf92939eb)
  const R7 := Regs(0xe5030380, 0x2b4209f5, 0x04409a6a, 0xd550f666, 0x9b27a401, 0x714260ad, 0x43ada245, 0x24e00850)
  const R8 := Regs(0x85a07b5f, 0xe5030380, 0x2b4209f5, 0x04409a6a, 0x0c657a79, 0x9b27a401, 0x714260ad, 0x43ada245)
  const R9 := Regs(0x8e04ecb9, 0x85a07b5f, 0xe5030380, 0x2b4209f5, 0x32ca2d8c, 0x0c657a79, 0x9b27a401, 0x714260ad)
  const R10 := Regs(0x8c87346b, 0x8e04ecb9, 0x85a07b5f, 0xe5030380, 0x1cc92596, 0x32ca2d8c, 0x0c657a79, 0x9b27a401)
  const R11 := Regs(0x4798a3f4, 0x8c87346b, 0x8e04ecb9, 0x85a07b5f, 0x436b23e8, 0x1cc92596, 0x32ca2d8c, 0x0c657a79)
  const R12 := Regs(0xf71fc5a9, 0x4798a3f4, 0x8c87346b, 0x8e04ecb9, 0x816fd6e9, 0x436b23e8, 0x1cc92596, 0x32ca2d8c)
  const R13 := Regs(0x87912990, 0xf71fc5a9, 0x4798a3f4, 0x8c87346b, 0x1e578218, 0x816fd6e9, 0x436b23e8, 0x1cc92596)
  const R14 := Regs(0xd932eb16, 0x87912990, 0xf71fc5a9, 0x4798a3f4, 0x745a48de, 0x1e578218, 0x816fd6e9, 0x436b23e8)
  const R15 := Regs(0xc0645fde, 0xd932eb16, 0x87912990, 0xf71fc5a9, 0x0b92f20c, 0x745a48de, 0x1e578218, 0x816fd6e9)
  const R16 := Regs(0xb0fa238e, 0xc0645fde, 0xd932eb16, 0x87912990, 0x07590dcd, 0x0b92f20c, 0x745a48de, 0x1e578218)
  const R17 := Regs(0x21da9a9b, 0xb0fa238e, 0xc0645fde, 0xd932eb16, 0x8034229c, 0x07590dcd, 0x0b92f20c, 0x745a48de)
  const R18 := Regs(0xc2fbd9d1, 0x21da9a9b, 0xb0fa238e, 0xc0645fde, 0x846ee454, 0x8034229c, 0x07590dcd, 0x0b92f20c)
  const R19 := Regs(0xfe777bbf, 0xc2fbd9d1, 0x21da9a9b, 0xb0fa238e, 0xcc899961, 0x846ee454, 0x8034229c, 0x07590dcd)
  const R20 := Regs(0xe1f20c33, 0xfe777bbf, 0xc2fbd9d1, 0x21da9a9b, 0xb0638179, 0xcc899961, 0x846ee454, 0x8034229c)
  const R21 := Regs(0x9dc68b63, 0xe1f20c33, 0xfe777bbf, 0xc2fbd9d1, 0x8ada8930, 0xb0638179, 0xcc899961, 0x846ee454)
  const R22 := Regs(0xc2606d6d, 0x9dc68b63, 0xe1f20c33, 0xfe777bbf, 0xe1257970, 0x8ada8930, 0xb0638179, 0xcc899961)
  const R23 := Regs(0xa7a3623f, 0xc2606d6d, 0x9dc68b63, 0xe1f20c33, 0x49f5114a, 0xe1257970, 0x8ada8930, 0xb0638179)
  const R24 := Regs(0xc5d53d8d, 0xa7a3623f, 0xc2606d6d, 0x9dc68b63, 0xaa47c347, 0x49f5114a, 0xe1257970, 0x8ada8930)
  const R25 := Regs(0x1c2c2838, 0xc5d53d8d, 0xa7a3623f, 0xc2606d6d, 0x2823ef91, 0xaa47c347, 0x49f5114a, 0xe1257970)
  const R26 := Regs(0xcde8037d, 0x1c2c2838, 0xc5d53d8d, 0xa7a3623f, 0x14383d8e, 0x2823ef91, 0xaa47c347, 0x49f5114a)
  const R27 := Regs(0xb62ec4bc, 0xcde8037d, 0x1c2c2838, 0xc5d53d8d, 0xc74c6516, 0x14383d8e, 0x2823ef91, 0xaa47c347)
  const R28 := Regs(0x77d37528, 0xb62ec4bc, 0xcde8037d, 0x1c2c2838, 0xedffbff8, 0xc74c6516, 0x14383d8e, 0x2823ef91)
  const R29 := Regs(0x363482c9, 0x77d37528, 0xb62ec4bc, 0xcde8037d, 0x6112a3b7, 0xedffbff8, 0xc74c6516, 0x14383d8e)
  const R30 := Regs(0xa0060b30, 0x363482c9, 0x77d37528, 0xb62ec4bc, 0xade79437, 0x6112a3b7, 0xedffbff8, 0xc74c6516)
  const R31 := Regs(0xea992a22, 0xa0060b30, 0x363482c9, 0x77d37528, 0x0109ab3a, 0xade79437, 0x6112a3b7, 0xedffbff8)
  const R32 := Regs(0x73b33bf5, 0xea992a22, 0xa0060b30, 0x363482c9, 0xba591112, 0x0109ab3a, 0xade79437, 0x6112a3b7)
  const R33 := Regs(0x98e12507, 0x73b33bf5, 0xea992a22, 0xa0060b30, 0x9cd9f5f6, 0xba591112, 0x0109ab3a, 0xade79437)
  const R34 := Regs(0xfe604df5, 0x98e12507, 0x73b33bf5, 0xea992a22, 0x59249dd3, 0x9cd9f5f6, 0xba591112, 0x0109ab3a)
  const R35 := Regs(0xa9a7738c, 0xfe604df5, 0x98e12507, 0x73b33bf5, 0x085f3833, 0x59249dd3, 0x9cd9f5f6, 0xba591112)
  const R36 := Regs(0x65a0cfe4, 0xa9a7738c, 0xfe604df5, 0x98e12507, 0xf4b002d6, 0x085f3833, 0x59249dd3, 0x9cd9f5f6)
  const R37 := Regs(0x41a65cb1, 0x65a0cfe4, 0xa9a7738c, 0xfe604df5, 0x0772a26b, 0xf4b002d6, 0x085f3833, 0x59249dd3)
  const R38 := Regs(0x34df1604, 0x41a65cb1, 0x65a0cfe4, 0xa9a7738c, 0xa507a53d, 0x0772a26b, 0xf4b002d6, 0x085f3833)
  const R39 := Regs(0x6dc57a8a, 0x34df1604, 0x41a65cb1, 0x65a0cfe4, 0xf0781bc8, 0xa507a53d, 0x0772a26b, 0xf4b002d6)
  const R40 := Regs(0x79ea687a, 0x6dc57a8a, 0x34df1604, 0x41a65cb1, 0x1efbc0a0, 0xf0781bc8, 0xa507a53d, 0x0772a26b)
  const R41 := Regs(0xd6670766, 0x79ea687a, 0x6dc57a8a, 0x34df1604, 0x26352d63, 0x1efbc0a0, 0xf0781bc8, 0xa507a53d)
  const R42 := Regs(0xdf46652f, 0xd6670766, 0x79ea687a, 0x6dc57a8a, 0x838b2711, 0x26352d63, 0x1efbc0a0, 0xf0781bc8)
  const R43 := Regs(0x17aa0dfe, 0xdf46652f, 0xd6670766, 0x79ea687a, 0xdecd4715, 0x838b2711, 0x26352d63, 0x1efbc0a0)
  const R44 := Regs(0x9d4baf93, 0x17aa0dfe, 0xdf46652f, 0xd6670766, 0xfda24c2e, 0xdecd4715, 0x838b2711, 0x26352d63)
  const R45 := Regs(0x26628815, 0x9d4baf93, 0x17aa0dfe, 0xdf46652f, 0xa80f11f0, 0xfda24c2e, 0xdecd4715, 0x838b2711)
  const R46 := Regs(0x72ab4b91, 0x26628815, 0x9d4baf93, 0x17aa0dfe, 0xb7755da1, 0xa80f11f0, 0xfda24c2e, 0xdecd4715)
  const R47 := Regs(0xa14c14b0, 0x72ab4b91, 0x26628815, 0x9d4baf93, 0xd57b94a9, 0xb7755da1, 0xa80f11f0, 0xfda24c2e)
  const R48 := Regs(0x4172328d, 0xa14c14b0, 0x72ab4b91, 0x26628815, 0xfecf0bc6, 0xd57b94a9, 0xb7755da1, 0xa80f11f0)
  const R49 := Regs(0x05757ceb, 0x4172328d, 0xa14c14b0, 0x72ab4b91, 0xbd714038, 0xfecf0bc6, 0xd57b94a9, 0xb7755da1)
  const R50 := Regs(0xf11bfaa8, 0x05757ceb, 0x4172328d, 0xa14c14b0, 0x6e5c390c, 0xbd714038, 0xfecf0bc6, 0xd57b94a9)
  const R51 := Regs(0x7a0508a1, 0xf11bfaa8, 0x05757ceb, 0x4172328d, 0x52f1ccf7, 0x6e5c390c, 0xbd714038, 0xfecf0bc6)
  const R52 := Regs(0x886e7a22, 0x7a0508a1, 0xf11bfaa8, 0x05757ceb, 0x49231c1e, 0x52f1ccf7, 0x6e5c390c, 0xbd714038)
  const R53 := Regs(0x101fd28f, 0x886e7a22, 0x7a0508a1, 0xf11bfaa8, 0x529e7d00, 0x49231c1e, 0x52f1ccf7, 0x6e5c390c)
  const R54 := Regs(0xf5702fdb, 0x101fd28f, 0x886e7a22, 0x7a0508a1, 0x9f4787c3, 0x529e7d00, 0x49231c1e, 0x52f1ccf7)
  const R55 := Regs(0x3ec45cdb, 0xf5702fdb, 0x101fd28f, 0x886e7a22, 0xe50e1b4f, 0x9f4787c3, 0x529e7d00, 0x49231c1e)
  const R56 := Regs(0x38cc9913, 0x3ec45cdb, 0xf5702fdb, 0x101fd28f, 0x54cb266b, 0xe50e1b4f, 0x9f4787c3, 0x529e7d00)
  const R57 := Regs(0xfcd1887b, 0x38cc9913, 0x3ec45cdb, 0xf5702fdb, 0x9b5e906c, 0x54cb266b, 0xe50e1b4f, 0x9f4787c3)
  const R58 := Regs(0xc062d46f, 0xfcd1887b, 0x38cc9913, 0x3ec45cdb, 0x7e44008e, 0x9b5e906c, 0x54cb266b, 0xe50e1b4f)
  const R59 := Regs(0xffb70472, 0xc062d46f, 0xfcd1887b, 0x38cc9913, 0x6d83bfc6, 0x7e44008e, 0x9b5e906c, 0x54cb266b)
  const R60 := Regs(0xb6ae8fff, 0xffb70472, 0xc062d46f, 0xfcd1887b, 0xb21bad3d, 0x6d83bfc6, 0x7e44008e, 0x9b5e906c)
  const R61 := Regs(0xb85e2ce9, 0xb6ae8fff, 0xffb70472, 0xc062d46f, 0x961f4894, 0xb21bad3d, 0x6d83bfc6, 0x7e44008e)
  const R62 := Regs(0x04d24d6c, 0xb85e2ce9, 0xb6ae8fff, 0xffb70472, 0x948d25b6, 0x961f4894, 0xb21bad3d, 0x6d83bfc6)
  const R63 := Regs(0xd39a2165, 0x04d24d6c, 0xb85e2ce9, 0xb6ae8fff, 0xfb121210, 0x948d25b6, 0x961f4894, 0xb21bad3d)
  const R64 := Regs(0x506e3058, 0xd39a2165, 0x04d24d6c, 0xb85e2ce9, 0x5ef50f24, 0xfb121210, 0x948d25b6, 0x961f4894)

  lemma RoundsOf0()
    ensures Round(R0, 0x428a2f98, 0x61626380) == R1
    ensures Round(R1, 0x71374491, 0x00000000) == R2
    ensures Round(R2, 0xb5c0fbcf, 0x00000000) == R3
    ensures Round(R3, 0xe9b5dba5, 0x00000000) == R4
    ensures Round(R4, 0x3956c25b, 0x00000000) == R5
    ensures Round(R5, 0x59f111f1, 0x00000000) == R6
    ensures Round(R6, 0x923f82a4, 0x00000000) == R7
    ensures Round(R7, 0xab1c5ed5, 0x00000000) == R8
  {
  }

  lemma After8(p: Bytes)
    requires |p| == 64 && IsBlock(p)
    ensures Rounds(INITIAL, p, 0, 8) == R8
  {
    hide Round, W, IsBlock, Rounds;
    NoRounds(p);
    RoundsOf0();
    Schedule0(p);
    RoundStep(p, 0); RoundStep(p, 1); RoundStep(p, 2); RoundStep(p, 3);
    RoundStep(p, 4); RoundStep(p, 5); RoundStep(p, 6); RoundStep(p, 7);
  }

  lemma RoundsOf1()
    ensures Round(R8, 0xd807aa98, 0x00000000) == R9
    ensures Round(R9, 0x12835b01, 0x00000000) == R10
    ensures Round(R10, 0x243185be, 0x00000000) == R11
    ensures Round(R11, 0x550c7dc3, 0x00000000) == R12
    ensures Round(R12, 0x72be5d74, 0x00000000) == R13
    ensures Round(R13, 0x80deb1fe, 0x00000000) == R14
    ensures Round(R14, 0x9bdc06a7, 0x00000000) == R15
    ensures Round(R15, 0xc19bf174, 0x00000018) == R16
  {
  }

  lemma After16(p: Bytes)
    requires |p| == 64 && IsBlock(p)
    ensures Rounds(INITIAL, p, 0, 16) == R16
  {
    hide Round, W, IsBlock, Rounds;
    After8(p);
    RoundsOf1();
    Schedule0(p);
    RoundStep(p, 8); RoundStep(p, 9); RoundStep(p, 10); RoundStep(p, 11);
    RoundStep(p, 12); RoundStep(p, 13); RoundStep(p, 14); RoundStep(p, 15);
  }

  lemma RoundsOf2()
    ensures Round(R16, 0xe49b69c1, 0x61626380) == R17
    ensures Round(R17, 0xefbe4786, 0x000f0000) == R18
    ensures Round(R18, 0x0fc19dc6, 0x7da86405) == R19
    ensures Round(R19, 0x240ca1cc, 0x600003c6) == R20
    ensures Round(R20, 0x2de92c6f, 0x3e9d7b78) == R21
    ensures Round(R21, 0x4a7484aa, 0x0183fc00) == R22
    ensures Round(R22, 0x5cb0a9dc, 0x12dcbfdb) == R23
    ensures Round(R23, 0x76f988da, 0xe2e2c38e) == R24
  {
  }

  lemma After24(p: Bytes)
    requires |p| == 64 && IsBlock(p)
    ensures Rounds(INITIAL, p, 0, 24) == R24
  {
    hide Round, W, IsBlock, Rounds;
    After16(p);
    RoundsOf2();
    Schedule1(p);
    RoundStep(p, 16); RoundStep(p, 17); RoundStep(p, 18); RoundStep(p, 19);
    RoundStep(p, 20); RoundStep(p, 21); RoundStep(p, 22); RoundStep(p, 23);
  }

  lemma RoundsOf3()
    ensures Round(R24, 0x983e5152, 0xc8215c1a) == R25
    ensures Round(R25, 0xa831c66d, 0xb73679a2) == R26
    ensures Round(R26, 0xb00327c8, 0xe5bc3909) == R27
    ensures Round(R27, 0xbf597fc7, 0x32663c5b) == R28
    ensures Round(R28, 0xc6e00bf3, 0x9d209d67) == R29
    ensures Round(R29, 0xd5a79147, 0xec8726cb) == R30
    ensures Round(R30, 0x06ca6351, 0x702138a4) == R31
    ensures Round(R31, 0x14292967, 0xd3b7973b) == R32
  {
  }

  lemma After32(p: Bytes)
    requires |p| == 64 && IsBlock(p)
    ensures Rounds(INITIAL, p, 0, 32) == R32
  {
    hide Round, W, IsBlock, Rounds;
    After24(p);
    RoundsOf3();
    Schedule2(p);
    RoundStep(p, 24); RoundStep(p, 25); RoundStep(p, 26); RoundStep(p, 27);
    RoundStep(p, 28); RoundStep(p, 29); RoundStep(p, 30); RoundStep(p, 31);
  }

  lemma RoundsOf4()
    ensures Round(R32, 0x27b70a85, 0x93f5997f) == R33
    ensures Round(R33, 0x2e1b2138, 0x3b68ba73) == R34
    ensures Round(R34, 0x4d2c6dfc, 0xaff4ffc1) == R35
    ensures Round(R35, 0x53380d13, 0xf10a5c62) == R36
    ensures Round(R36, 0x650a7354, 0x0a8b3996) == R37
    ensures Round(R37, 0x766a0abb, 0x72af830a) == R38
    ensures Round(R38, 0x81c2c92e, 0x9409e33e) == R39
    ensures Round(R39, 0x92722c85, 0x24641522) == R40
  {
  }

  lemma After40(p: Bytes)
    requires |p| == 64 && IsBlock(p)
    ensures Rounds(INITIAL, p, 0, 40) == R40
  {
    hide Round, W, IsBlock, Rounds;
    After32(p);
    RoundsOf4();
    Schedule3(p);
    RoundStep(p, 32); RoundStep(p, 33); RoundStep(p, 34); RoundStep(p, 35);
    RoundStep(p, 36); RoundStep(p, 37); RoundStep(p, 38); RoundStep(p, 39);
  }

  lemma RoundsOf5()
    ensures Round(R40, 0xa2bfe8a1, 0x9f47bf94) == R41
    ensures Round(R41, 0xa81a664b, 0xf0a64f5a) == R42
    ensures Round(R42, 0xc24b8b70, 0x3e246a79) == R43
    ensures Round(R43, 0xc76c51a3, 0x27333ba3) == R44
    ensures Round(R44, 0xd192e819, 0x0c4763f2) == R45
    ensures Round(R45, 0xd6990624, 0x840abf27) == R46
    ensures Round(R46, 0xf40e3585, 0x7a290d5d) == R47
    ensures Round(R47, 0x106aa070, 0x065c43da) == R48
  {
  }

  lemma After48(p: Bytes)
    requires |p| == 64 && IsBlock(p)
    ensures Rounds(INITIAL, p, 0, 48) == R48
  {
    hide Round, W, IsBlock, Rounds;
    After40(p);
    RoundsOf5();
    Schedule4(p);
    RoundStep(p, 40); RoundStep(p, 41); RoundStep(p, 42); RoundStep(p, 43);
    RoundStep(p, 44); RoundStep(p, 45); RoundStep(p, 46); RoundStep(p, 47);
  }

  lemma RoundsOf6()
    ensures Round(R48, 0x19a4c116, 0xfb3e89cb) == R49
    ensures Round(R49, 0x1e376c08, 0xcc7617db) == R50
    ensures Round(R50, 0x2748774c, 0xb9e66c34) == R51
    ensures Round(R51, 0x34b0bcb5, 0xa9993667) == R52
    ensures Round(R52, 0x391c0cb3, 0x84badedd) == R53
    ensures Round(R53, 0x4ed8aa4a, 0xc21462bc) == R54
    ensures Round(R54, 0x5b9cca4f, 0x1487472c) == R55
    ensures Round(R55, 0x682e6ff3, 0xb20f7a99) == R56
  {
  }

  lemma After56(p: Bytes)
    requires |p| == 64 && IsBlock(p)
    ensures Rounds(INITIAL, p, 0, 56) == R56
  {
    hide Round, W, IsBlock, Rounds;
    After48(p);
    RoundsOf6();
    Schedule5(p);
    RoundStep(p, 48); RoundStep(p, 49); RoundStep(p, 50); RoundStep(p, 51);
    RoundStep(p, 52); RoundStep(p, 53); RoundStep(p, 54); RoundStep(p, 55);
  }

  lemma RoundsOf7()
    ensures Round(R56, 0x748f82ee, 0xef57b9cd) == R57
    ensures Round(R57, 0x78a5636f, 0xebe6b238) == R58
    ensures Round(R58, 0x84c87814, 0x9fe3095e) == R59
    ensures Round(R59, 0x8cc70208, 0x78bc8d4b) == R60
    ensures Round(R60, 0x90befffa, 0xa43fcf15) == R61
    ensures Round(R61, 0xa4506ceb, 0x668b2ff8) == R62
    ensures Round(R62, 0xbef9a3f7, 0xeeaba2cc) == R63
    ensures Round(R63, 0xc67178f2, 0x12b1edeb) == R64
  {
  }

  lemma After64(p: Bytes)
    requires |p| == 64 && IsBlock(p)
    ensures Rounds(INITIAL, p, 0, 64) == R64
  {
    hide Round, W, IsBlock, Rounds;
    After56(p);
    RoundsOf7();
    Schedule6(p);
    RoundStep(p, 56); RoundStep(p, 57); RoundStep(p, 58); RoundStep(p, 59);
    RoundStep(p, 60); RoundStep(p, 61); RoundStep(p, 62); RoundStep(p, 63);
  }

  lemma NoRounds(p: Bytes)
    requires |p| == 64
    ensures Rounds(INITIAL, p, 0, 0) == INITIAL
  {
  }

  lemma AbcHashValue(p: Bytes)
    requires |p| == 64 && IsBlock(p)
    ensures HashValue(p, 1) == Regs(0xba7816bf, 0x8f01cfea, 0x414140de, 0x5dae2223, 0xb00361a3, 0x96177a9c, 0xb410ff61, 0xf20015ad)
  {
    hide Rounds, IsBlock, Plus;
    After64(p);
    AbcSum();
    assert HashValue(p, 0) == INITIAL;
  }

  lemma AbcSum()
    ensures Sum(INITIAL, Regs(0x506e3058, 0xd39a2165, 0x04d24d6c, 0xb85e2ce9, 0x5ef50f24, 0xfb121210, 0x948d25b6, 0x961f4894)) ==
            Regs(0xba7816bf, 0x8f01cfea, 0x414140de, 0x5dae2223, 0xb00361a3, 0x96177a9c, 0xb410ff61, 0xf20015ad)
  {
  }

  lemma HexOfWords()
    ensures Hex(0xba7816bf) == "ba7816bf"
    ensures Hex(0x8f01cfea) == "8f01cfea"
    ensures Hex(0x414140de) == "414140de"
    ensures Hex(0x5dae2223) == "5dae2223"
    ensures Hex(0xb00361a3) == "b00361a3"
    ensures Hex(0x96177a9c) == "96177a9c"
    ensures Hex(0xb410ff61) == "b410ff61"
    ensures Hex(0xf20015ad) == "f20015ad"
  {
  }

  lemma {:induction false} HexAllJoins(x: seq<bv32>, y: seq<bv32>)
    ensures HexAll(x + y) == HexAll(x) + HexAll(y)
  {
    hide Hex;
    if y == [] {
      assert x + y == x;
    } else {
      assert (x + y)[..|x + y| - 1] == x + y[..|y| - 1];
      HexAllJoins(x, y[..|y| - 1]);
    }
  }

  lemma TwoWords(a: bv32, b: bv32)
    ensures HexAll([a, b]) == Hex(a) + Hex(b)
  {
    hide Hex;
    assert [a, b][..1] == [a] && [a][..0] == [];
    assert HexAll([]) == "" && HexAll([a]) == Hex(a);
  }

  lemma FourWords(a: bv32, b: bv32, c: bv32, d: bv32)
    ensures HexAll([a, b, c, d]) == Hex(a) + Hex(b) + (Hex(c) + Hex(d))
  {
    hide Hex, HexAll;
    assert [a, b, c, d] == [a, b] + [c, d];
    HexAllJoins([a, b], [c, d]);
    TwoWords(a, b);
    TwoWords(c, d);
  }

  lemma EightWords(r: Regs)
    ensures HexAll(Words(r)) == Hex(r.a) + Hex(r.b) + (Hex(r.c) + Hex(r.d)) + (Hex(r.e) + Hex(r.f) + (Hex(r.g) + Hex(r.h)))
  {
    hide Hex, HexAll;
    assert Words(r) == [r.a, r.b, r.c, r.d] + [r.e, r.f, r.g, r.h];
    HexAllJoins([r.a, r.b, r.c, r.d], [r.e, r.f, r.g, r.h]);
    FourWords(r.a, r.b, r.c, r.d);
    FourWords(r.e, r.f, r.g, r.h);
  }

  /** The digest of "abc" is the one the standard publishes. */
  lemma AbcDigest()
    ensures Digest(ABC) == "ba7816bf" + "8f01cfea" + ("414140de" + "5dae2223") + ("b00361a3" + "96177a9c" + ("b410ff61" + "f20015ad"))
  {
    hide Hex, HashValue, Pad, HexAll, IsBlock;
    AbcIsPadded();
    BlockLength(Pad(ABC));
    AbcHashValue(Pad(ABC));
    HexOfWords();
    EightWords(HashValue(Pad(ABC), 1));
  }

  lemma BlockLength(p: Bytes)
    requires IsBlock(p)
    ensures |p| == 64
  {
  }
}
