/**
 The packets of the teonet level: createPacketFrom and parsePacket, and the packets
 that carry an L0 client's command to a peer and back.
 */
module TeoPacket {
  import opened Bytes
  import opened L0Packet

  // --------------------------------------------- createPacketFrom, parsePacket

  const HEADER_ADD_SIZE := 2

  // What parsePacket fills in: the name without its trailing zero.
  datatype Parsed = Parsed(from: seq<byte>, cmd: byte, data: seq<byte>) | NotValid | Panics

  /** The value of a new packet: the length byte keeps the low 8 bits, the name is copied
      whole. */
  function PacketCreateNew(from: seq<byte>, cmd: byte, data: seq<byte>): (p: seq<byte>)
    ensures |p| == |from| + 1 + |data| + HEADER_ADD_SIZE
  {
    [Low(|from| + 1)] + from + [0, cmd] + data
  }

  /** Packet.Parse: an empty packet has no first byte to point at. */
  function Parse(p: seq<byte>): Parsed {
    if p == [] then Parsed.Panics
    else
      var fromLen := p[0];
      if fromLen > 0 && fromLen + HEADER_ADD_SIZE <= |p| && p[fromLen] == 0
         && |CString(p[1..])| + 1 == fromLen then
        Parsed(CString(p[1..]), p[1 + fromLen], p[fromLen + HEADER_ADD_SIZE..])
      else NotValid
  }

  /** createPacketFrom at work in the memory it allocates; from ends in a zero byte. */
  method CreatePacketFrom(cmd: byte, from: seq<byte>, data: seq<byte>) returns (packet: array<byte>)
    ensures fresh(packet)
    ensures packet[..] == [Low(|from|)] + from + [cmd] + data
  {
    var ptr := 0;
    packet := new byte[|from| + |data| + HEADER_ADD_SIZE](_ => 0);
    packet[0] := Low(|from|);
    ptr := ptr + 1;
    Copy(packet, ptr, from);
    ptr := ptr + |from|;
    packet[ptr] := cmd;
    ptr := ptr + 1;
    Copy(packet, ptr, data);
  }

  /** PacketCreateNew: the name goes to C with its trailing zero. */
  method NewPacket(from: seq<byte>, cmd: byte, data: seq<byte>) returns (packet: array<byte>)
    ensures fresh(packet)
    ensures packet[..] == PacketCreateNew(from, cmd, data)
  {
    packet := CreatePacketFrom(cmd, from + [0], data);
    assert packet[..] == [Low(|from| + 1)] + from + [0, cmd] + data;
  }

  /** ksnCorePacketData, as far as parsePacket fills it in. */
  class PacketData {
    var rawData: seq<byte>
    var fromLen: nat
    var from: seq<byte>
    var cmd: byte
    var data: seq<byte>

    /** Packet.Parse, and parsePacket, which it calls for a packet with a first byte. */
    method ParsePacket(packet: seq<byte>) returns (panics: bool, valid: bool)
      modifies this
      ensures panics <==> packet == []
      ensures !panics ==> rawData == packet && fromLen == packet[0]
      ensures valid <==> Parse(packet).Parsed?
      ensures valid ==> Parsed(from, cmd, data) == Parse(packet)
    {
      panics := |packet| == 0;
      valid := false;
      if panics {
        return;
      }
      var ptr := 0;
      rawData := packet;
      fromLen := packet[ptr];
      ptr := ptr + 1;
      if fromLen > 0 && fromLen + HEADER_ADD_SIZE <= |packet| && packet[ptr + fromLen - 1] == 0 {
        from := CString(packet[ptr..]);
        ptr := ptr + fromLen;
        if |from| + 1 == fromLen {
          cmd := packet[ptr];
          ptr := ptr + 1;
          data := packet[ptr..];
          valid := true;
        }
      }
    }
  }

  /** Name, command and data come back exactly for names without a zero byte of at most
      254 bytes. */
  lemma ParseUndoesCreate(from: seq<byte>, cmd: byte, data: seq<byte>)
    ensures Parse(PacketCreateNew(from, cmd, data)) == Parsed(from, cmd, data)
            <==> 0 !in from && |from| <= 254
  {
    var p := PacketCreateNew(from, cmd, data);
    if 0 !in from && |from| <= 254 {
      assert p[1..] == from + [0] + ([cmd] + data);
      CStringOf(from, [cmd] + data);
      assert p[|from| + 1] == 0 && p[|from| + 2] == cmd;
      assert p[|from| + 1 + HEADER_ADD_SIZE..] == data;
    }
  }

  /** And every packet that parses is what its fields create. */
  lemma CreateUndoesParse(p: seq<byte>)
    requires Parse(p).Parsed?
    ensures var r := Parse(p); PacketCreateNew(r.from, r.cmd, r.data) == p
    ensures 0 !in Parse(p).from && |Parse(p).from| <= 254
  {
    var n := p[0];
    var r := Parse(p);
    assert p[1..][..n - 1] == p[1..n];
    assert p == [p[0]] + p[1..n] + [p[n], p[n + 1]] + p[n + 2..];
  }

  // ----------------------------------------------- l0 packetCreate, packetParse

  /** l0Conn.packetCreate, appending to its buffer */
  method L0Create(client: seq<byte>, cmd: byte, data: seq<byte>) returns (buf: seq<byte>)
    ensures buf == L0Value(client, cmd, data)
  {
    buf := [cmd];
    buf := buf + [Low(|client| + 1)];
    buf := buf + LE16(|data|);
    buf := buf + (client + [0]);
    buf := buf + data;
  }

  function L0Value(client: seq<byte>, cmd: byte, data: seq<byte>): seq<byte> {
    [cmd, Low(|client| + 1)] + LE16(|data|) + client + [0] + data
  }

  /** binary.Read of n bytes: too short an input gives zeros, and is used up. */
  function Read(input: seq<byte>, n: nat): (r: (seq<byte>, seq<byte>))
    ensures |r.0| == n
  {
    if |input| >= n then (input[..n], input[n..]) else (seq(n, _ => 0), [])
  }

  /** What is left of the input from a position on. */
  function Rest(d: seq<byte>, at: nat): seq<byte> {
    if |d| >= at then d[at..] else []
  }

  /** Reading on from a position takes the next bytes, or none if they are too few; and
      nothing more is read after that. */
  lemma ReadSlices(d: seq<byte>, at: nat, n: nat)
    ensures Read(Rest(d, at), n) == (Slice(d, at, n), Rest(d, at + n))
  {
    if |d| >= at + n {
      assert d[at..][..n] == d[at..at + n] && d[at..][n..] == d[at + n..];
    }
  }

  datatype L0Parsed = L0Parsed(name: seq<byte>, cmd: byte, data: seq<byte>) | Panics

  /** l0Conn.packetParse. A name length of zero makes it slice below zero. */
  method L0Parse(d: seq<byte>) returns (r: L0Parsed)
    ensures r == L0Fields(d)
  {
    hide From16;
    var field := Read(d, 1);
    var cmd := field.0[0];
    ReadSlices(d, 0, 1);
    field := Read(field.1, 1);
    var fromLen: nat := field.0[0];
    ReadSlices(d, 1, 1);
    field := Read(field.1, 2);
    var dataLen := From16(field.0);
    ReadSlices(d, 2, 2);
    field := Read(field.1, fromLen);
    if fromLen == 0 {
      return L0Parsed.Panics;
    }
    var name := field.0[..fromLen - 1];
    ReadSlices(d, 4, fromLen);
    field := Read(field.1, dataLen);
    ReadSlices(d, 4 + fromLen, dataLen);
    return L0Parsed(name, cmd, field.0);
  }

  /** n bytes from a position on; zeros if they are not all there. */
  function Slice(d: seq<byte>, at: nat, n: nat): (r: seq<byte>)
    ensures |r| == n
  {
    if |d| >= at + n then d[at..at + n] else seq(n, _ => 0)
  }

  /** Where the fields of a packet lie. */
  function L0Fields(d: seq<byte>): L0Parsed {
    var fromLen: nat := Slice(d, 1, 1)[0];
    var dataLen := From16(Slice(d, 2, 2));
    if fromLen == 0 then L0Parsed.Panics
    else L0Parsed(Slice(d, 4, fromLen)[..fromLen - 1], Slice(d, 0, 1)[0], Slice(d, 4 + fromLen, dataLen))
  }

  /** Client, command and data come back exactly for names of at most 254 bytes and data
      of at most 65535. Here a zero byte in the name does no harm. */
  lemma L0ParseUndoesCreate(client: seq<byte>, cmd: byte, data: seq<byte>)
    ensures L0Fields(L0Value(client, cmd, data)) == L0Parsed(client, cmd, data)
            <==> |client| <= 254 && |data| <= 65535
  {
    hide LE16, From16;
    var p := L0Value(client, cmd, data);
    FromLE16(|data|);
    assert Slice(p, 0, 1) == [cmd] && Slice(p, 1, 1) == [Low(|client| + 1)] && Slice(p, 2, 2) == LE16(|data|);
    if |client| <= 254 && |data| <= 65535 {
      assert Slice(p, 4, |client| + 1) == client + [0] && (client + [0])[..|client|] == client;
      assert Slice(p, 4 + |client| + 1, |data|) == data;
    }
  }
}
