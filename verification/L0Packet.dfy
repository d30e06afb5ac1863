/**
 The L0 client packet: an 8-byte header, the peer name with its trailing zero, and
 the data.

   byte 0     command                 byte 4-5   reserved
   byte 1     peer name length        byte 6     checksum of name and data
   bytes 2-3  data length             byte 7     checksum of bytes 0-6
 */
module L0Packet {
  import opened Bytes

  const HEADER_SIZE := 8

  function NameLength(p: seq<byte>): nat requires |p| >= HEADER_SIZE { p[1] }
  function DataLength(p: seq<byte>): nat requires |p| >= HEADER_SIZE { From16(p[2..4]) }

  /** packetGetLength */
  function PacketLength(p: seq<byte>): nat
    requires |p| >= HEADER_SIZE
  {
    HEADER_SIZE + NameLength(p) + DataLength(p)
  }

  /** packetCheck: 0 valid, -2 and -1 too short, -3 wrong header, 1 wrong body. */
  function CheckCode(p: seq<byte>): int {
    if |p| <= HEADER_SIZE then -2
    else if p[7] != Checksum(p[..7]) then -3
    else if |p| < PacketLength(p) then -1
    else if p[6] == Checksum(p[HEADER_SIZE..PacketLength(p)]) then 0
    else 1
  }

  // -------------------------------------------------------------- getters

  function Command(p: seq<byte>): byte requires |p| >= HEADER_SIZE { p[0] }

  /** The C string that starts at the name. */
  function Name(p: seq<byte>): seq<byte>
    requires |p| >= HEADER_SIZE
  {
    CString(p[HEADER_SIZE..])
  }

  function Data(p: seq<byte>): seq<byte>
    requires |p| >= HEADER_SIZE && |p| >= PacketLength(p)
  {
    p[HEADER_SIZE + NameLength(p)..PacketLength(p)]
  }

  /** What strlen leaves of s. */
  function CString(s: seq<byte>): (r: seq<byte>)
    ensures |r| <= |s| && r == s[..|r|] && 0 !in r
    ensures |r| < |s| ==> s[|r|] == 0
  {
    if s == [] || s[0] == 0 then [] else [s[0]] + CString(s[1..])
  }

  lemma {:induction false} CStringOf(name: seq<byte>, rest: seq<byte>)
    requires 0 !in name
    ensures CString(name + [0] + rest) == name
  {
    if name != [] {
      assert (name + [0] + rest)[1..] == name[1..] + [0] + rest;
      CStringOf(name[1..], rest);
      assert (name + [0] + rest)[0] == name[0] && name[0] in name;
    }
  }

  lemma CStringWhole(s: seq<byte>)
    ensures CString(s + [0]) == s <==> 0 !in s
  {
    if 0 !in s { CStringOf(s, []); assert s + [0] + [] == s + [0]; }
  }

  // -------------------------------------------------------------- creation

  /** teoLNullPacketCreate: lengths keep their low 8 and 16 bits, and only so much of
      name and data is copied. */
  function Create(command: byte, peer: seq<byte>, data: seq<byte>): seq<byte>
    requires |peer| > 0
  {
    var body := peer[..|peer| % 0x100] + data[..|data| % 0x1_0000];
    var head := [command, Low(|peer|)] + LE16(|data|) + [0, 0, Checksum(body)];
    head + [Checksum(head)] + body
  }

  datatype Result = Created(packet: seq<byte>) | CantCreate

  /** PacketCreate: peer is a Go string; C sees it up to its first zero byte. */
  function PacketCreate(command: byte, peer: seq<byte>, data: seq<byte>): Result {
    var packet := Create(command, CString(peer + [0]) + [0], data);
    if |packet| == HEADER_SIZE + |peer| + 1 + |data| then Created(packet) else CantCreate
  }

  /** The C function at work in the buffer that PacketCreate made. */
  method CreateInBuffer(buffer: array<byte>, command: byte, peer: seq<byte>, data: seq<byte>)
    returns (length: nat)
    requires |peer| > 0
    modifies buffer
    ensures length == if buffer.Length < HEADER_SIZE + |peer| + |data| then 0
                      else |Create(command, peer, data)|
    ensures length > 0 ==> buffer[..length] == Create(command, peer, data)
  {
    if buffer.Length < HEADER_SIZE + |peer| + |data| {
      return 0;
    }
    var nameLength, dataLength := |peer| % 0x100, |data| % 0x1_0000;
    length := HEADER_SIZE + nameLength + dataLength;
    Copy(buffer, 0, [command, Low(|peer|)] + LE16(|data|) + [0, 0, 0, 0]);
    Copy(buffer, HEADER_SIZE, peer[..nameLength] + data[..dataLength]);
    ghost var body := peer[..nameLength] + data[..dataLength];
    assert buffer[HEADER_SIZE..length] == body;
    var checksum := ByteChecksum(buffer, HEADER_SIZE, length);
    buffer[6] := checksum;
    assert buffer[..7] == [command, Low(|peer|)] + LE16(|data|) + [0, 0, Checksum(body)];
    assert buffer[0..7] == buffer[..7];
    checksum := ByteChecksum(buffer, 0, 7);
    buffer[7] := checksum;
    assert buffer[..length] == buffer[..7] + [buffer[7]] + buffer[HEADER_SIZE..length];
  }

  /** A packet as the stream parser wants it: complete, nothing after it, and longer
      than a bare header. */
  ghost predicate WellFormed(p: seq<byte>) {
    |p| > HEADER_SIZE && PacketLength(p) == |p| && CheckCode(p) == 0
  }

  lemma CreateLayout(command: byte, peer: seq<byte>, data: seq<byte>)
    requires 0 < |peer| < 0x100 && |data| < 0x1_0000
    ensures var p := Create(command, peer, data);
            && WellFormed(p) && Command(p) == command
            && NameLength(p) == |peer| && DataLength(p) == |data|
            && p[HEADER_SIZE..] == peer + data && Data(p) == data
  {
    hide LE16, From16, Checksum;
    var p := Create(command, peer, data);
    var body := peer + data;
    var head := [command, Low(|peer|)] + LE16(|data|) + [0, 0, Checksum(body)];
    assert peer[..|peer|] == peer && data[..|data|] == data;
    assert p == head + [Checksum(head)] + body;
    assert p[2..4] == LE16(|data|) && p[..7] == head && p[HEADER_SIZE..] == body;
    FromLE16(|data|);
    assert p[HEADER_SIZE..|p|] == body;
  }

  /** Where the fields lie in the packet, low bytes first */
  lemma PacketLayout(command: byte, peer: seq<byte>, data: seq<byte>)
    requires 0 < |peer| < 0x100 && |data| < 0x1_0000
    ensures var p := Create(command, peer, data);
            && |p| == 8 + |peer| + |data| && p[0] == command && p[1] as int == |peer|
            && p[2] as int + 0x100 * p[3] as int == |data| && p[4] == p[5] == 0
            && p[6] == Checksum(peer + data) && p[7] == Checksum(p[..7]) && p[8..] == peer + data
  {
    hide LE16, Checksum;
    var body := peer + data;
    assert peer[..|peer|] == peer && data[..|data|] == data;
    var head := [command, Low(|peer|)] + LE16(|data|) + [0, 0, Checksum(body)];
    var p := Create(command, peer, data);
    assert p == head + [Checksum(head)] + body;
    assert p[..7] == head && p[8..] == body;
    LittleEndian(|data|);
  }

  /** PacketCreate succeeds exactly for names without a zero byte of at most 254 bytes
      and data of at most 65535; and what it creates is a well-formed packet from which
      command, name and data are read back. */
  lemma CreatedReadsBack(command: byte, peer: seq<byte>, data: seq<byte>)
    ensures var r := PacketCreate(command, peer, data);
            && (r.Created? <==> 0 !in peer && |peer| <= 254 && |data| <= 65535)
            && (r.Created? ==>
                  WellFormed(r.packet) && Command(r.packet) == command
                  && Name(r.packet) == peer && Data(r.packet) == data)
  {
    hide Create, CString, Name, Data, Command;
    var name := CString(peer + [0]);
    CStringWhole(peer);
    CreateLength(command, name + [0], data);
    if 0 in peer {
      assert |name| < |peer| by { NameCut(peer); }
    } else if |peer| <= 254 && |data| <= 65535 {
      CreateLayout(command, peer + [0], data);
      CStringOf(peer, data);
      NameReadsBack(Create(command, peer + [0], data), peer, data);
    }
  }

  lemma CreateLength(command: byte, peer: seq<byte>, data: seq<byte>)
    requires |peer| > 0
    ensures |Create(command, peer, data)| == HEADER_SIZE + |peer| % 0x100 + |data| % 0x1_0000
  {
  }

  lemma NameCut(peer: seq<byte>)
    requires 0 in peer
    ensures |CString(peer + [0])| < |peer|
  {
    var k :| 0 <= k < |peer| && peer[k] == 0;
    var name := CString(peer + [0]);
    assert forall i | 0 <= i < |name| :: name[i] in name && name[i] == (peer + [0])[i];
    assert (peer + [0])[k] == 0;
  }

  lemma NameReadsBack(p: seq<byte>, peer: seq<byte>, data: seq<byte>)
    requires |p| >= HEADER_SIZE && p[HEADER_SIZE..] == peer + [0] + data && 0 !in peer
    ensures Name(p) == peer
  {
    CStringOf(peer, data);
  }
}
