/**
 The 12-byte TR-UDP header and the packets built on it.

   byte 0      checksum of the other header bytes
   byte 1      protocol version (low half), message type (high half)
   bytes 2-3   channel (4 bits), payload length (12 bits), little-endian
   bytes 4-7   packet id, little-endian
   bytes 8-11  timestamp, little-endian
 */
module TrudpHeader {
  import opened Bytes

  const HEADER_SIZE := 12
  const PROTOCOL_VERSION := 2

  type Word32 = x: int | 0 <= x < 0x1_0000_0000

  const TRU_ACK_PING := 5

  // ------------------------------------------------------------- getters

  function Version(p: seq<byte>): nat requires |p| >= HEADER_SIZE { p[1] % 16 }
  function MessageType(p: seq<byte>): nat requires |p| >= HEADER_SIZE { p[1] / 16 }
  function Channel(p: seq<byte>): nat requires |p| >= HEADER_SIZE { From16(p[2..4]) % 16 }
  function PayloadLength(p: seq<byte>): nat requires |p| >= HEADER_SIZE { From16(p[2..4]) / 16 }
  function PacketId(p: seq<byte>): Word32 requires |p| >= HEADER_SIZE { From32(p[4..8]) }
  function Timestamp(p: seq<byte>): Word32 requires |p| >= HEADER_SIZE { From32(p[8..12]) }

  function HeaderChecksum(p: seq<byte>): byte
    requires |p| >= HEADER_SIZE
  {
    Checksum(p[1..HEADER_SIZE])
  }

  /** trudpPacketCheck */
  predicate PacketCheck(p: seq<byte>) {
    && |p| >= HEADER_SIZE
    && |p| - HEADER_SIZE == PayloadLength(p)
    && p[0] == HeaderChecksum(p)
  }

  // ------------------------------------------------------------ builders

  /** The header bytes after the checksum. Fields narrower than the arguments keep
      their low bits: 4 of the type and of the channel, 12 of the length. */
  function HeaderBody(id: Word32, messageType: nat, channel: nat, payloadLength: nat, timestamp: Word32): (s: seq<byte>)
    ensures |s| == HEADER_SIZE - 1
  {
    [PROTOCOL_VERSION + 16 * (messageType % 16)]
    + LE16(channel % 16 + 16 * (payloadLength % 0x1000))
    + LE32(id) + LE32(timestamp)
  }

  function Header(id: Word32, messageType: nat, channel: nat, payloadLength: nat, timestamp: Word32): (s: seq<byte>)
    ensures |s| == HEADER_SIZE
  {
    var body := HeaderBody(id, messageType, channel, payloadLength, timestamp);
    [Checksum(body)] + body
  }

  /** A packet with its payload; the builders take the length as a 16-bit number. */
  function Packet(id: Word32, messageType: nat, channel: nat, data: seq<byte>, timestamp: Word32): seq<byte> {
    Header(id, messageType, channel, |data| % 0x1_0000, timestamp) + data
  }

  /** trudpPacketUpdateTimestamp, on the value of the packet */
  function WithTimestamp(p: seq<byte>, timestamp: Word32): (s: seq<byte>)
    requires |p| >= HEADER_SIZE
    ensures |s| == |p|
  {
    var body := p[1..8] + LE32(timestamp);
    [Checksum(body)] + body + p[HEADER_SIZE..]
  }

  // ---------------------------------------------------- the C code in place

  /** _trudpHeaderCreate: the fields first, the checksum of them last. */
  method HeaderCreate(th: array<byte>, id: Word32, messageType: nat, channel: nat,
                      payloadLength: nat, timestamp: Word32)
    requires th.Length >= HEADER_SIZE
    modifies th
    ensures th[..] == Header(id, messageType, channel, payloadLength, timestamp) + old(th[HEADER_SIZE..])
  {
    hide HeaderBody, Checksum;
    SetFields(th, id, messageType, channel, payloadLength, timestamp);
    var checksum := ByteChecksum(th, 1, HEADER_SIZE);
    th[0] := checksum;
  }

  method SetFields(th: array<byte>, id: Word32, messageType: nat, channel: nat,
                   payloadLength: nat, timestamp: Word32)
    requires th.Length >= HEADER_SIZE
    modifies th
    ensures th[1..HEADER_SIZE] == HeaderBody(id, messageType, channel, payloadLength, timestamp)
    ensures th[HEADER_SIZE..] == old(th[HEADER_SIZE..])
  {
    hide LE16, LE32;
    Copy(th, 4, LE32(id));
    th[1] := PROTOCOL_VERSION + 16 * (messageType % 16);
    Copy(th, 2, LE16(channel % 16 + 16 * (payloadLength % 0x1000)));
    Copy(th, 8, LE32(timestamp));
    assert forall i | HEADER_SIZE <= i < th.Length :: th[i] == old(th[i]);
    assert th[2..4] == LE16(channel % 16 + 16 * (payloadLength % 0x1000));
    assert th[4..8] == LE32(id) && th[8..12] == LE32(timestamp);
    assert th[1..HEADER_SIZE] == [th[1]] + th[2..4] + th[4..8] + th[8..12];
  }

  /** trudpPacketDATAcreateNew and trudpPacketPINGcreateNew */
  method CreateNew(id: Word32, messageType: nat, channel: nat, data: seq<byte>, timestamp: Word32)
    returns (packet: array<byte>)
    ensures fresh(packet)
    ensures packet[..] == Packet(id, messageType, channel, data, timestamp)
  {
    packet := new byte[HEADER_SIZE + |data|](_ => 0);
    HeaderCreate(packet, id, messageType, channel, |data| % 0x1_0000, timestamp);
    Copy(packet, HEADER_SIZE, data);
  }

  method UpdateTimestamp(packet: array<byte>, timestamp: Word32)
    requires packet.Length >= HEADER_SIZE
    modifies packet
    ensures packet[..] == WithTimestamp(old(packet[..]), timestamp)
  {
    Copy(packet, 8, LE32(timestamp));
    assert packet[1..HEADER_SIZE] == old(packet[..])[1..8] + LE32(timestamp);
    var checksum := ByteChecksum(packet, 1, HEADER_SIZE);
    packet[0] := checksum;
  }

  method Check(packet: array<byte>) returns (valid: bool)
    ensures valid == PacketCheck(packet[..])
    ensures valid <==> packet.Length >= HEADER_SIZE && packet[0] == Checksum(packet[1..HEADER_SIZE])
                       && packet[2] as int / 16 + 16 * packet[3] as int == packet.Length - HEADER_SIZE
  {
    if packet.Length < HEADER_SIZE {
      return false;
    }
    var checksum := ByteChecksum(packet, 1, HEADER_SIZE);
    assert packet[..][1..HEADER_SIZE] == packet[1..HEADER_SIZE];
    valid := packet.Length - HEADER_SIZE == PayloadLength(packet[..]) && packet[0] == checksum;
  }

  // ---------------------------------------------------------- properties

  lemma BodySlices(body: seq<byte>, a: byte, b: seq<byte>, c: seq<byte>, d: seq<byte>, p: seq<byte>)
    requires |b| == 2 && |c| == 4 && |d| == 4 && body == [a] + b + c + d
    requires |p| >= HEADER_SIZE && p[1..HEADER_SIZE] == body
    ensures p[1] == a && p[2..4] == b && p[4..8] == c && p[8..12] == d
  {
    assert forall i | 1 <= i < HEADER_SIZE :: p[i] == p[1..HEADER_SIZE][i - 1] == body[i - 1];
    assert body[1..3] == b && body[3..7] == c && body[7..] == d;
    assert forall i | 0 <= i < 2 :: p[2..4][i] == body[1..3][i];
    assert forall i | 0 <= i < 4 :: p[4..8][i] == body[3..7][i] && p[8..12][i] == body[7..][i];
  }

  lemma HeaderFields(id: Word32, messageType: nat, channel: nat, payloadLength: nat, timestamp: Word32, rest: seq<byte>)
    ensures var p := Header(id, messageType, channel, payloadLength, timestamp) + rest;
            && PacketId(p) == id && Timestamp(p) == timestamp && Version(p) == PROTOCOL_VERSION
            && MessageType(p) == messageType % 16 && Channel(p) == channel % 16
            && PayloadLength(p) == payloadLength % 0x1000
            && p[0] == HeaderChecksum(p)
  {
    hide LE16, LE32, From16, From32, Checksum;
    var p := Header(id, messageType, channel, payloadLength, timestamp) + rest;
    var word := channel % 16 + 16 * (payloadLength % 0x1000);
    assert p[1..HEADER_SIZE] == HeaderBody(id, messageType, channel, payloadLength, timestamp);
    BodySlices(p[1..HEADER_SIZE], PROTOCOL_VERSION + 16 * (messageType % 16), LE16(word), LE32(id), LE32(timestamp), p);
    FromLE16(word);
    FromLE32(id);
    FromLE32(timestamp);
  }

  /** Where the fields lie in the header, low bytes first */
  lemma HeaderLayout(id: Word32, messageType: nat, channel: nat, payloadLength: nat, timestamp: Word32)
    requires messageType < 16 && channel < 16 && payloadLength < 0x1000
    ensures var p := Header(id, messageType, channel, payloadLength, timestamp);
            && p[0] == Checksum(p[1..]) && p[1] as int == 2 + 16 * messageType
            && p[2] as int + 0x100 * p[3] as int == channel + 16 * payloadLength
            && p[4] as int + 0x100 * p[5] as int + 0x1_0000 * p[6] as int + 0x100_0000 * p[7] as int == id
            && p[8] as int + 0x100 * p[9] as int + 0x1_0000 * p[10] as int + 0x100_0000 * p[11] as int == timestamp
  {
    hide LE16, LE32, Checksum;
    LittleEndian(channel + 16 * payloadLength);
    LittleEndian(id);
    LittleEndian(timestamp);
    var p := Header(id, messageType, channel, payloadLength, timestamp);
    assert p[1..] == HeaderBody(id, messageType, channel, payloadLength, timestamp);
    BodySlices(p[1..], 2 + 16 * messageType, LE16(channel + 16 * payloadLength), LE32(id), LE32(timestamp), p);
    assert p[2] == p[2..4][0] && p[3] == p[2..4][1];
    assert p[4] == p[4..8][0] && p[5] == p[4..8][1] && p[6] == p[4..8][2] && p[7] == p[4..8][3];
    assert p[8] == p[8..12][0] && p[9] == p[8..12][1] && p[10] == p[8..12][2] && p[11] == p[8..12][3];
  }

  /** What is created can be read back, and is valid exactly if the payload length
      fits its 12 bits. */
  lemma CreatedPacket(id: Word32, messageType: nat, channel: nat, data: seq<byte>, timestamp: Word32)
    ensures var p := Packet(id, messageType, channel, data, timestamp);
            && PacketId(p) == id && Timestamp(p) == timestamp
            && (messageType < 16 ==> MessageType(p) == messageType)
            && (channel < 16 ==> Channel(p) == channel)
            && p[HEADER_SIZE..] == data
            && (PacketCheck(p) <==> |data| < 0x1000)
  {
    hide Header, HeaderChecksum, Channel, PayloadLength, PacketId, Timestamp, MessageType;
    HeaderFields(id, messageType, channel, |data| % 0x1_0000, timestamp, data);
    assert |data| % 0x1_0000 % 0x1000 == |data| % 0x1000;
  }

  lemma FieldsMakeBody(p: seq<byte>)
    requires |p| >= HEADER_SIZE && Version(p) == PROTOCOL_VERSION
    ensures p[1..HEADER_SIZE] == HeaderBody(PacketId(p), MessageType(p), Channel(p), PayloadLength(p), Timestamp(p))
  {
    hide LE16, LE32, From16, From32;
    LE16From(p[2..4]);
    LE32From(p[4..8]);
    LE32From(p[8..12]);
    assert From16(p[2..4]) == Channel(p) + 16 * PayloadLength(p);
    assert p[1..HEADER_SIZE] == [p[1]] + p[2..4] + p[4..8] + p[8..12];
  }

  /** And a valid packet of this version is what its fields create. */
  lemma ValidIsCreated(p: seq<byte>)
    requires PacketCheck(p)
    ensures Version(p) == PROTOCOL_VERSION
            <==> p == Packet(PacketId(p), MessageType(p), Channel(p), p[HEADER_SIZE..], Timestamp(p))
  {
    hide LE16, LE32, From16, From32, Checksum, HeaderBody;
    var data := p[HEADER_SIZE..];
    HeaderFields(PacketId(p), MessageType(p), Channel(p), |data| % 0x1_0000, Timestamp(p), data);
    if Version(p) == PROTOCOL_VERSION {
      FieldsMakeBody(p);
      assert |data| == PayloadLength(p) < 0x1000;
      assert p == [p[0]] + p[1..HEADER_SIZE] + data;
    }
  }

  /** A new timestamp changes nothing else, and keeps a valid packet valid. */
  lemma TimestampUpdated(p: seq<byte>, timestamp: Word32)
    requires |p| >= HEADER_SIZE
    ensures var q := WithTimestamp(p, timestamp);
            && Timestamp(q) == timestamp
            && PacketId(q) == PacketId(p) && MessageType(q) == MessageType(p) && Version(q) == Version(p)
            && Channel(q) == Channel(p) && PayloadLength(q) == PayloadLength(p)
            && q[HEADER_SIZE..] == p[HEADER_SIZE..]
            && (PacketCheck(p) ==> PacketCheck(q))
  {
    var q := WithTimestamp(p, timestamp);
    assert q[1..HEADER_SIZE] == p[1..8] + LE32(timestamp);
    assert p[1..8] == [p[1]] + p[2..4] + p[4..8];
    BodySlices(q[1..HEADER_SIZE], p[1], p[2..4], p[4..8], LE32(timestamp), q);
    FromLE32(timestamp);
  }

  /** One wrong byte anywhere in the header is noticed. */
  lemma HeaderErrorIsNoticed(p: seq<byte>, k: nat, b: byte)
    requires PacketCheck(p) && k < HEADER_SIZE && b != p[k]
    ensures !PacketCheck(p[k := b])
  {
    if k > 0 {
      ChecksumNotices(p[1..HEADER_SIZE], k - 1, b);
      assert p[k := b][1..HEADER_SIZE] == p[1..HEADER_SIZE][k - 1 := b];
    } else {
      assert p[k := b][1..HEADER_SIZE] == p[1..HEADER_SIZE];
    }
  }

  /** trudpPacketACKcreateNew and its kin: the answer to a packet. */
  function AnswerTo(p: seq<byte>, answerType: nat): seq<byte>
    requires |p| >= HEADER_SIZE
  {
    Packet(PacketId(p), answerType, Channel(p),
           if answerType == TRU_ACK_PING then p[HEADER_SIZE..] else [], Timestamp(p))
  }

  /** An answer to a valid packet is valid, and names that packet: its id, its channel
      and the time it was sent. */
  lemma AnswerMatches(p: seq<byte>, answerType: nat)
    requires PacketCheck(p) && answerType < 16
    ensures var q := AnswerTo(p, answerType);
            && PacketCheck(q) && MessageType(q) == answerType
            && PacketId(q) == PacketId(p) && Channel(q) == Channel(p) && Timestamp(q) == Timestamp(p)
            && q[HEADER_SIZE..] == (if answerType == TRU_ACK_PING then p[HEADER_SIZE..] else [])
  {
    var data := if answerType == TRU_ACK_PING then p[HEADER_SIZE..] else [];
    CreatedPacket(PacketId(p), answerType, Channel(p), data, Timestamp(p));
  }
}
