// The binary quote frame: a parser that reads what it can, and the writer whose output it inverts.
module Ticker {
  import opened Domain

  const PACKET_LTP := 8
  const PACKET_INDEX_QUOTE := 28
  const PACKET_INDEX_FULL := 32
  const PACKET_QUOTE := 44
  const PACKET_FULL := 184

  const SEGMENT_NSE_CD := 3
  const SEGMENT_BSE_CD := 6

  // ----- Big-endian signed integers -----

  predicate IsInt16(n: int) {
    -0x8000 <= n < 0x8000
  }

  predicate IsInt32(n: int) {
    -0x8000_0000 <= n < 0x8000_0000
  }

  function ReadInt16(buffer: Bytes, offset: nat): (n: int)
    requires offset + 2 <= |buffer|
    ensures IsInt16(n)
  {
    var u := buffer[offset] as int * 0x100 + buffer[offset + 1] as int;
    if u < 0x8000 then u else u - 0x1_0000
  }

  function ReadInt32(buffer: Bytes, offset: nat): (n: int)
    requires offset + 4 <= |buffer|
    ensures IsInt32(n)
  {
    var u := buffer[offset] as int * 0x100_0000 + buffer[offset + 1] as int * 0x1_0000
             + buffer[offset + 2] as int * 0x100 + buffer[offset + 3] as int;
    if u < 0x8000_0000 then u else u - 0x1_0000_0000
  }

  function Int16Bytes(n: int): (b: Bytes)
    requires IsInt16(n)
    ensures |b| == 2 && ReadInt16(b, 0) == n
  {
    var u := if n < 0 then n + 0x1_0000 else n;
    [(u / 0x100) as byte, (u % 0x100) as byte]
  }

  function Int32Bytes(n: int): (b: Bytes)
    requires IsInt32(n)
    ensures |b| == 4 && ReadInt32(b, 0) == n
  {
    var u := if n < 0 then n + 0x1_0000_0000 else n;
    var high := u / 0x1_0000;
    var low := u % 0x1_0000;
    [(high / 0x100) as byte, (high % 0x100) as byte, (low / 0x100) as byte, (low % 0x100) as byte]
  }

  /** A read only looks at its own bytes. */
  lemma ReadsAreLocal(a: Bytes, b: Bytes, i: nat, j: nat)
    ensures i + 2 <= |a| && j + 2 <= |b| && a[i..i + 2] == b[j..j + 2] ==> ReadInt16(a, i) == ReadInt16(b, j)
    ensures i + 4 <= |a| && j + 4 <= |b| && a[i..i + 4] == b[j..j + 4] ==> ReadInt32(a, i) == ReadInt32(b, j)
  {
    if i + 2 <= |a| && j + 2 <= |b| && a[i..i + 2] == b[j..j + 2] {
      assert a[i] == a[i..i + 2][0] && a[i + 1] == a[i..i + 2][1];
      assert b[j] == b[j..j + 2][0] && b[j + 1] == b[j..j + 2][1];
    }
    if i + 4 <= |a| && j + 4 <= |b| && a[i..i + 4] == b[j..j + 4] {
      assert a[i] == a[i..i + 4][0] && a[i + 1] == a[i..i + 4][1] && a[i + 2] == a[i..i + 4][2] && a[i + 3] == a[i..i + 4][3];
      assert b[j] == b[j..j + 4][0] && b[j + 1] == b[j..j + 4][1] && b[j + 2] == b[j..j + 4][2] && b[j + 3] == b[j..j + 4][3];
    }
  }

  // ----- Packets -----

  datatype Packet = Packet(
    instrumentToken: int,
    lastPrice: real,
    lastQuantity: int,
    exchangeTimestamp: Option<Timestamp>,
    volumeTraded: Option<int>)

  /** The low byte of the token names the segment, whatever the token's sign. */
  function PriceDivisor(instrumentToken: int): (d: int)
    ensures d > 0
  {
    var segment := instrumentToken % 0x100;
    if segment == SEGMENT_NSE_CD then 10_000_000 else if segment == SEGMENT_BSE_CD then 10_000 else 100
  }

  function SecondsToMs(seconds: int): Option<Timestamp> {
    if seconds <= 0 then None else Some(seconds * 1000)
  }

  /** Lengths that name no mode are skipped. */
  function DecodePacket(packet: Bytes): Option<Packet> {
    var length := |packet|;
    if length < PACKET_LTP then None
    else
      var token := ReadInt32(packet, 0);
      var price := ReadInt32(packet, 4) as real / PriceDivisor(token) as real;
      if length == PACKET_INDEX_QUOTE then Some(Packet(token, price, 0, None, None))
      else if length == PACKET_INDEX_FULL then Some(Packet(token, price, 0, SecondsToMs(ReadInt32(packet, 28)), None))
      else if length == PACKET_LTP then Some(Packet(token, price, 0, None, None))
      else if length < PACKET_QUOTE then None
      else
        Some(Packet(token, price, ReadInt32(packet, 8),
                    if length >= PACKET_FULL then SecondsToMs(ReadInt32(packet, 60)) else None,
                    Some(ReadInt32(packet, 16))))
  }

  // ----- The parser -----

  function Kept(packet: Option<Packet>): seq<Packet> {
    if packet.Some? then [packet.value] else []
  }

  function ParseFrom(frame: Bytes, offset: nat, count: nat): seq<Packet>
    decreases count
  {
    if count == 0 || offset + 2 > |frame| then []
    else
      var length, start := ReadInt16(frame, offset), offset + 2;
      if length <= 0 || start + length > |frame| then []
      else Kept(DecodePacket(frame[start..start + length])) + ParseFrom(frame, start + length, count - 1)
  }

  function ParseFrame(frame: Bytes): seq<Packet> {
    if |frame| <= 2 || ReadInt16(frame, 0) <= 0 then [] else ParseFrom(frame, 2, ReadInt16(frame, 0))
  }

  method ParseTickerFrame(frame: Bytes) returns (packets: seq<Packet>)
    ensures packets == ParseFrame(frame)
  {
    hide DecodePacket, ParseFrom, ReadInt16;
    if |frame| <= 2 {
      return [];
    }
    var count := ReadInt16(frame, 0);
    if count <= 0 {
      return [];
    }
    packets := [];
    var offset: nat := 2;
    for i := 0 to count
      invariant packets + ParseFrom(frame, offset, count - i) == ParseFrom(frame, 2, count)
    {
      ParseStep(frame, offset, count - i);
      if offset + 2 > |frame| {
        return;
      }
      var length := ReadInt16(frame, offset);
      offset := offset + 2;
      if length <= 0 || offset + length > |frame| {
        return;
      }
      var packet := DecodePacket(frame[offset..offset + length]);
      Regroup(packets, Kept(packet), ParseFrom(frame, offset + length, count - i - 1));
      if packet.Some? {
        packets := packets + [packet.value];
      } else {
        assert packets + Kept(packet) == packets;
      }
      offset := offset + length;
    }
    ParseStep(frame, offset, 0);
  }

  lemma ParseStep(frame: Bytes, offset: nat, count: nat)
    ensures ParseFrom(frame, offset, count) ==
      if count == 0 || offset + 2 > |frame| then []
      else
        var length, start := ReadInt16(frame, offset), offset + 2;
        if length <= 0 || start + length > |frame| then []
        else Kept(DecodePacket(frame[start..start + length])) + ParseFrom(frame, start + length, count - 1)
  {
  }

  lemma Regroup(a: seq<Packet>, b: seq<Packet>, c: seq<Packet>)
    ensures a + (b + c) == a + b + c
  {
  }

  // ----- The writer -----

  predicate Framable(packets: seq<Bytes>) {
    |packets| < 0x8000 && forall p :: p in packets ==> |p| < 0x8000
  }

  function Body(packets: seq<Bytes>): Bytes
    requires forall p :: p in packets ==> |p| < 0x8000
  {
    if packets == [] then [] else Int16Bytes(|packets[0]|) + packets[0] + Body(packets[1..])
  }

  function Frame(packets: seq<Bytes>): Bytes
    requires Framable(packets)
  {
    Int16Bytes(|packets|) + Body(packets)
  }

  /** The decodings of the packets before the first empty one, which the parser takes for the end. */
  function Decodings(packets: seq<Bytes>): seq<Packet> {
    if packets == [] || packets[0] == [] then [] else Kept(DecodePacket(packets[0])) + Decodings(packets[1..])
  }

  lemma Slices(before: Bytes, size: Bytes, p: Bytes, rest: Bytes)
    requires |size| == 2
    ensures var frame := before + (size + p + rest);
      && |frame| == |before| + 2 + |p| + |rest|
      && frame[|before|..|before| + 2] == size[0..2]
      && frame[|before| + 2..|before| + 2 + |p|] == p
      && frame == before + size + p + rest
  {
  }

  lemma {:induction false} ParsesBody(before: Bytes, packets: seq<Bytes>)
    requires forall p :: p in packets ==> |p| < 0x8000
    ensures ParseFrom(before + Body(packets), |before|, |packets|) == Decodings(packets)
    decreases |packets|
  {
    hide DecodePacket, ReadInt16, ParseFrom;
    ParseStep(before + Body(packets), |before|, |packets|);
    if packets != [] {
      var p, rest := packets[0], Body(packets[1..]);
      var frame := before + Body(packets);
      var size := Int16Bytes(|p|);
      Slices(before, size, p, rest);
      ReadsAreLocal(frame, size, |before|, 0);
      if p != [] {
        ParsesBody(before + size + p, packets[1..]);
      }
    }
  }

  /** Parsing a written frame yields the decodings of its packets, in order, up to an empty packet. */
  lemma ParserInvertsWriter(packets: seq<Bytes>)
    requires Framable(packets)
    ensures ParseFrame(Frame(packets)) == Decodings(packets)
  {
    hide DecodePacket, ReadInt16, ParseFrom;
    var header := Int16Bytes(|packets|);
    var frame := Frame(packets);
    assert frame[0..2] == header[0..2];
    ReadsAreLocal(frame, header, 0, 0);
    ParsesBody(header, packets);
    if packets == [] {
      assert Body(packets) == [];
    } else {
      assert |Body(packets)| >= 2;
    }
  }

  // ----- Empty packets -----

  /** What every packet decodes to, empty ones skipped like any other that names no mode. */
  function AllDecodings(packets: seq<Bytes>): seq<Packet> {
    if packets == [] then [] else Kept(DecodePacket(packets[0])) + AllDecodings(packets[1..])
  }

  /** An empty packet with a decodable one behind it. */
  predicate Hides(packets: seq<Bytes>, i: nat, j: nat) {
    i < j < |packets| && packets[i] == [] && DecodePacket(packets[j]).Some?
  }

  lemma {:induction false} NothingDecodes(packets: seq<Bytes>)
    ensures AllDecodings(packets) == [] <==> forall j :: 0 <= j < |packets| ==> DecodePacket(packets[j]).None?
  {
    hide DecodePacket;
    if packets != [] {
      NothingDecodes(packets[1..]);
      assert forall j :: 0 < j < |packets| ==> packets[j] == packets[1..][j - 1];
    }
  }

  lemma EmptyDecodesToNothing(packet: Bytes)
    ensures packet == [] ==> DecodePacket(packet).None?
  {
    hide ReadInt32;
  }

  lemma HidesLater(packets: seq<Bytes>)
    requires packets != [] && packets[0] != []
    ensures (exists i: nat, j: nat :: Hides(packets, i, j)) <==> exists i: nat, j: nat :: Hides(packets[1..], i, j)
  {
    hide DecodePacket;
    if i: nat, j: nat :| Hides(packets, i, j) {
      assert Hides(packets[1..], i - 1, j - 1);
    }
    if i: nat, j: nat :| Hides(packets[1..], i, j) {
      assert Hides(packets, i + 1, j + 1);
    }
  }

  lemma HiddenByTheFirst(packets: seq<Bytes>)
    requires packets != [] && packets[0] == []
    ensures (exists i: nat, j: nat :: Hides(packets, i, j)) <==> exists j :: 0 <= j < |packets| && DecodePacket(packets[j]).Some?
  {
    hide DecodePacket;
    EmptyDecodesToNothing(packets[0]);
    if j: nat :| j < |packets| && DecodePacket(packets[j]).Some? {
      assert Hides(packets, 0, j);
    }
    if i: nat, j: nat :| Hides(packets, i, j) {
      assert DecodePacket(packets[j]).Some?;
    }
  }

  lemma {:induction false} DecodingsStopExactly(packets: seq<Bytes>)
    ensures Decodings(packets) == AllDecodings(packets) <==> !exists i: nat, j: nat :: Hides(packets, i, j)
  {
    hide DecodePacket, Hides;
    if packets == [] {
      assert forall i: nat, j: nat :: !Hides(packets, i, j) by { NothingHidden(); }
    } else if packets[0] == [] {
      NothingDecodes(packets);
      HiddenByTheFirst(packets);
    } else {
      HidesLater(packets);
      DecodingsStopExactly(packets[1..]);
      SameAfterPrefix(Kept(DecodePacket(packets[0])), Decodings(packets[1..]), AllDecodings(packets[1..]));
    }
  }

  lemma SameAfterPrefix(prefix: seq<Packet>, a: seq<Packet>, b: seq<Packet>)
    ensures prefix + a == prefix + b <==> a == b
  {
    assert (prefix + a)[|prefix|..] == a && (prefix + b)[|prefix|..] == b;
  }

  lemma NothingHidden()
    ensures forall i: nat, j: nat :: !Hides([], i, j)
  {
  }

  /**
   * The parser decodes every packet of a written frame exactly when no empty one has a decodable one
   * behind it: it takes an empty packet for the end of the frame.
   */
  lemma EveryPacketDecodesExactly(packets: seq<Bytes>)
    requires Framable(packets)
    ensures ParseFrame(Frame(packets)) == AllDecodings(packets) <==> !exists i: nat, j: nat :: Hides(packets, i, j)
  {
    hide ParseFrame, Frame, Hides, Decodings, AllDecodings, DecodePacket;
    ParserInvertsWriter(packets);
    DecodingsStopExactly(packets);
  }

  /** One empty packet is enough to hide a price. */
  lemma EmptyPacketHidesTheRest(token: int, price: int)
    requires IsInt32(token) && IsInt32(price)
    ensures ParseFrame(Frame([[], LtpPacket(token, price)])) == []
    ensures DecodePacket(LtpPacket(token, price)).Some?
  {
    hide ParseFrame, DecodePacket, LtpPacket;
    LtpDecodes(token, price);
    ShortPackets(token, price);
    ParserInvertsWriter([[], LtpPacket(token, price)]);
  }

  lemma ShortPackets(token: int, price: int)
    requires IsInt32(token) && IsInt32(price)
    ensures Framable([[], LtpPacket(token, price)])
  {
    hide Put;
  }

  // ----- Truncation -----

  /** A truncated frame parses to a prefix of what the whole frame parses to. */
  lemma {:induction false} TruncationParsesPrefix(frame: Bytes, n: nat, offset: nat, count: nat)
    requires n <= |frame|
    ensures ParseFrom(frame[..n], offset, count) <= ParseFrom(frame, offset, count)
    decreases count
  {
    hide DecodePacket, ReadInt16, ParseFrom;
    var cut := frame[..n];
    ParseStep(cut, offset, count);
    ParseStep(frame, offset, count);
    if count > 0 && offset + 2 <= n {
      assert cut[offset..offset + 2] == frame[offset..offset + 2];
      ReadsAreLocal(cut, frame, offset, offset);
      var length, start := ReadInt16(frame, offset), offset + 2;
      if length > 0 && start + length <= n {
        assert cut[start..start + length] == frame[start..start + length];
        TruncationParsesPrefix(frame, n, start + length, count - 1);
      }
    }
  }

  lemma TruncatedFrames(frame: Bytes, n: nat)
    requires n <= |frame|
    ensures ParseFrame(frame[..n]) <= ParseFrame(frame)
  {
    hide ParseFrom, ReadInt16;
    if n > 2 {
      assert frame[..n][0..2] == frame[0..2];
      ReadsAreLocal(frame[..n], frame, 0, 0);
      if ReadInt16(frame, 0) > 0 {
        TruncationParsesPrefix(frame, n, 2, ReadInt16(frame, 0));
      }
    }
  }

  // ----- Packets as the exchange writes them -----

  function Put(buffer: Bytes, offset: nat, n: int): (b: Bytes)
    requires offset + 4 <= |buffer| && IsInt32(n)
    ensures |b| == |buffer|
  {
    buffer[..offset] + Int32Bytes(n) + buffer[offset + 4..]
  }

  /** A written integer is read back, and integers elsewhere are untouched. */
  lemma PutIsRead(buffer: Bytes, offset: nat, n: int, other: nat)
    requires offset + 4 <= |buffer| && IsInt32(n) && other + 4 <= |buffer|
    ensures other == offset ==> ReadInt32(Put(buffer, offset, n), other) == n
    ensures other + 4 <= offset || offset + 4 <= other ==>
              ReadInt32(Put(buffer, offset, n), other) == ReadInt32(buffer, other)
  {
    hide ReadInt32;
    var b, w := Put(buffer, offset, n), Int32Bytes(n);
    if other == offset {
      assert b[offset..offset + 4] == w[0..4];
      ReadsAreLocal(b, w, offset, 0);
    } else if other + 4 <= offset || offset + 4 <= other {
      assert b[other..other + 4] == buffer[other..other + 4];
      ReadsAreLocal(b, buffer, other, other);
    }
  }

  function LtpPacket(token: int, price: int): (b: Bytes)
    requires IsInt32(token) && IsInt32(price)
  {
    Put(Put(Zeros(PACKET_LTP), 0, token), 4, price)
  }

  function QuotePacket(token: int, price: int, quantity: int, volume: int): (b: Bytes)
    requires IsInt32(token) && IsInt32(price) && IsInt32(quantity) && IsInt32(volume)
  {
    Put(Put(Put(Put(Zeros(PACKET_QUOTE), 0, token), 4, price), 8, quantity), 16, volume)
  }

  function FullPacket(token: int, price: int, quantity: int, volume: int, seconds: int): (b: Bytes)
    requires IsInt32(token) && IsInt32(price) && IsInt32(quantity) && IsInt32(volume) && IsInt32(seconds)
  {
    Put(Put(Put(Put(Put(Zeros(PACKET_FULL), 0, token), 4, price), 8, quantity), 16, volume), 60, seconds)
  }

  lemma LtpDecodes(token: int, price: int)
    requires IsInt32(token) && IsInt32(price)
    ensures DecodePacket(LtpPacket(token, price)) ==
            Some(Packet(token, price as real / PriceDivisor(token) as real, 0, None, None))
  {
    hide ReadInt32, Put;
    var a := Put(Zeros(PACKET_LTP), 0, token);
    PutIsRead(Zeros(PACKET_LTP), 0, token, 0);
    PutIsRead(a, 4, price, 0);
    PutIsRead(a, 4, price, 4);
  }

  lemma QuoteDecodes(token: int, price: int, quantity: int, volume: int)
    requires IsInt32(token) && IsInt32(price) && IsInt32(quantity) && IsInt32(volume)
    ensures DecodePacket(QuotePacket(token, price, quantity, volume)) ==
            Some(Packet(token, price as real / PriceDivisor(token) as real, quantity, None, Some(volume)))
  {
    hide ReadInt32, Put;
    var a := Put(Zeros(PACKET_QUOTE), 0, token);
    var b := Put(a, 4, price);
    var c := Put(b, 8, quantity);
    PutIsRead(Zeros(PACKET_QUOTE), 0, token, 0);
    PutIsRead(a, 4, price, 0);
    PutIsRead(a, 4, price, 4);
    PutIsRead(b, 8, quantity, 0);
    PutIsRead(b, 8, quantity, 4);
    PutIsRead(b, 8, quantity, 8);
    PutIsRead(c, 16, volume, 0);
    PutIsRead(c, 16, volume, 4);
    PutIsRead(c, 16, volume, 8);
    PutIsRead(c, 16, volume, 16);
  }

  /** A full packet is a quote packet that also carries the exchange's clock. */
  lemma FullDecodes(token: int, price: int, quantity: int, volume: int, seconds: int)
    requires IsInt32(token) && IsInt32(price) && IsInt32(quantity) && IsInt32(volume) && IsInt32(seconds)
    ensures DecodePacket(FullPacket(token, price, quantity, volume, seconds)) ==
            Some(Packet(token, price as real / PriceDivisor(token) as real, quantity,
                        if seconds > 0 then Some(seconds * 1000) else None, Some(volume)))
  {
    hide ReadInt32, Put;
    var a := Put(Zeros(PACKET_FULL), 0, token);
    var b := Put(a, 4, price);
    var c := Put(b, 8, quantity);
    var d := Put(c, 16, volume);
    PutIsRead(Zeros(PACKET_FULL), 0, token, 0);
    PutIsRead(a, 4, price, 0);
    PutIsRead(a, 4, price, 4);
    PutIsRead(b, 8, quantity, 0);
    PutIsRead(b, 8, quantity, 4);
    PutIsRead(b, 8, quantity, 8);
    PutIsRead(c, 16, volume, 0);
    PutIsRead(c, 16, volume, 4);
    PutIsRead(c, 16, volume, 8);
    PutIsRead(c, 16, volume, 16);
    forall o | o in [0, 4, 8, 16, 60]
      ensures o == 60 || ReadInt32(Put(d, 60, seconds), o) == ReadInt32(d, o)
      ensures o == 60 ==> ReadInt32(Put(d, 60, seconds), o) == seconds
    {
      PutIsRead(d, 60, seconds, o);
    }
  }
}
