/**
 Reassembling L0 packets from a byte stream that arrives in chunks: PacketCheck with
 its read buffer, the loop that drains it, and the sender that cuts packets up.
 */
module L0Stream {
  import opened Bytes
  import opened L0Packet

  datatype Option<T> = None | Some(value: T)

  // ------------------------------------------------- one call of PacketCheck

  datatype Checked = Checked(buffer: seq<byte>, packet: Option<seq<byte>>, code: int)

  /** PacketCheck on the value of the read buffer. Code 0 comes with a packet; -1 asks
      for more; anything else means that bytes were thrown away. */
  function Check(buffer: seq<byte>, chunk: seq<byte>): Checked {
    if buffer == [] && chunk == [] then
      Checked(buffer, None, -1)
    else if buffer == [] then
      var code := CheckCode(chunk);
      if code == 0 then
        Checked(chunk[PacketLength(chunk)..], Some(chunk[..PacketLength(chunk)]), 0)
      else if code == -1 || code == -2 then
        Checked(chunk, None, -1)
      else
        Checked([], None, code)
    else
      var all := buffer + chunk;
      var code := CheckCode(all);
      if code == 0 then
        Checked(all[PacketLength(all)..], Some(all[..PacketLength(all)]), 0)
      else if code == 1 || code == -3 then
        Checked([], None, 1)
      else
        Checked(all, None, -1)
  }

  /** What a call does depends only on the bytes it has before it; but wrong bytes that
      come first are reported under their own code. */
  lemma BufferAndChunk(buffer: seq<byte>, chunk: seq<byte>)
    ensures var r, all := Check(buffer, chunk), buffer + chunk;
            && (r.code == 0 <==> CheckCode(all) == 0)
            && (r.code == -1 <==> CheckCode(all) == -1 || CheckCode(all) == -2)
            && (r.packet.Some? <==> r.code == 0)
            && (r.code == 0 ==> r.packet.value == all[..PacketLength(all)] && r.buffer == all[PacketLength(all)..])
            && (r.code == -1 ==> r.buffer == all)
            && (r.code != 0 && r.code != -1 ==> r.buffer == [])
  {
    assert [] + chunk == chunk;
  }

  // -------------------------------------------------------- the drain loop

  // What becomes of the bytes of a stream, piece by piece.
  datatype Item = Packet(bytes: seq<byte>) | Dropped(bytes: seq<byte>)

  datatype Drained = Drained(items: seq<Item>, buffer: seq<byte>, code: int)

  /** l0Conn.packetCheck: takes packets until PacketCheck has none left. */
  function Drain(buffer: seq<byte>, chunk: seq<byte>): Drained
    decreases |buffer| + |chunk|
  {
    var r := Check(buffer, chunk);
    if r.packet.Some? then
      BufferAndChunk(buffer, chunk);
      var rest := Drain(r.buffer, []);
      Drained([Packet(r.packet.value)] + rest.items, rest.buffer, rest.code)
    else
      Drained(if r.code == -1 then [] else [Dropped(buffer + chunk)], r.buffer, r.code)
  }

  function Packets(items: seq<Item>): seq<seq<byte>> {
    if items == [] then []
    else (if items[0].Packet? then [items[0].bytes] else []) + Packets(items[1..])
  }

  class TeoLNull {
    var readBuffer: seq<byte>

    constructor ()
      ensures readBuffer == []
    {
      readBuffer := [];
    }

    method PacketCheck(packet: seq<byte>) returns (retpacket: Option<seq<byte>>, retval: int)
      modifies this
      ensures Checked(readBuffer, retpacket, retval) == Check(old(readBuffer), packet)
    {
      retpacket := None;
      if |readBuffer| == 0 && |packet| == 0 {
        retval := -1;
        return;
      }
      retval := CheckCode(packet);
      if retval == 0 && |readBuffer| == 0 {
        var packetLength := PacketLength(packet);
        retpacket := Some(packet[..packetLength]);
        readBuffer := packet[packetLength..];
      } else if (retval == -1 || retval == -2) && |readBuffer| == 0 {
        readBuffer := readBuffer + packet;
        retval := -1;
      } else if |readBuffer| > 0 {
        readBuffer := readBuffer + packet;
        retval := CheckCode(readBuffer);
        if retval == 0 {
          var packetLength := PacketLength(readBuffer);
          retpacket := Some(readBuffer[..packetLength]);
          readBuffer := readBuffer[packetLength..];
        } else if retval == 1 || retval == -3 {
          readBuffer := [];
          retval := 1;
        } else {
          retval := -1;
        }
      }
    }

    /** l0Conn.packetCheck; processed collects the packets handed on. */
    method DrainLoop(chunk: seq<byte>) returns (processed: seq<seq<byte>>, status: int)
      modifies this
      ensures var d := Drain(old(readBuffer), chunk);
              processed == Packets(d.items) && readBuffer == d.buffer && status == d.code
    {
      ghost var goal := Drain(readBuffer, chunk);
      processed := [];
      var data := chunk;
      while true
        invariant var d := Drain(readBuffer, data);
                  processed + Packets(d.items) == Packets(goal.items) && d.buffer == goal.buffer && d.code == goal.code
        decreases |readBuffer| + |data|
      {
        BufferAndChunk(readBuffer, data);
        DrainStep(readBuffer, data);
        var p;
        p, status := PacketCheck(data);
        if status != 0 {
          return;
        }
        processed := processed + [p.value];
        data := [];
      }
    }
  }

  lemma DrainStep(buffer: seq<byte>, chunk: seq<byte>)
    ensures var r, d := Check(buffer, chunk), Drain(buffer, chunk);
            if r.code == 0 then
              var rest := Drain(r.buffer, []);
              && Packets(d.items) == [r.packet.value] + Packets(rest.items)
              && d.buffer == rest.buffer && d.code == rest.code
            else
              Packets(d.items) == [] && d.buffer == r.buffer && d.code == r.code
  {
    BufferAndChunk(buffer, chunk);
  }

  // ---------------------------------------------------------- whole streams

  datatype Fed = Fed(items: seq<Item>, buffer: seq<byte>)

  /** The items and the buffer after chunks, starting from an empty buffer. */
  function Feed(chunks: seq<seq<byte>>): Fed {
    if chunks == [] then Fed([], [])
    else
      var before := Feed(chunks[..|chunks| - 1]);
      var d := Drain(before.buffer, chunks[|chunks| - 1]);
      Fed(before.items + d.items, d.buffer)
  }

  function Join(parts: seq<seq<byte>>): seq<byte> {
    if parts == [] then [] else Join(parts[..|parts| - 1]) + parts[|parts| - 1]
  }

  function AllBytes(items: seq<Item>): seq<byte> {
    if items == [] then [] else items[0].bytes + AllBytes(items[1..])
  }

  lemma {:induction false} AllBytesConcat(a: seq<Item>, b: seq<Item>)
    ensures AllBytes(a + b) == AllBytes(a) + AllBytes(b)
  {
    if a == [] {
      assert a + b == b;
    } else {
      assert (a + b)[1..] == a[1..] + b;
      AllBytesConcat(a[1..], b);
    }
  }

  lemma {:induction false} PacketsConcat(a: seq<Item>, b: seq<Item>)
    ensures Packets(a + b) == Packets(a) + Packets(b)
  {
    if a == [] {
      assert a + b == b;
    } else {
      assert (a + b)[1..] == a[1..] + b;
      PacketsConcat(a[1..], b);
    }
  }

  /** As long as its header says, and both checksums are right. */
  ghost predicate Sound(p: seq<byte>) {
    && |p| >= HEADER_SIZE && PacketLength(p) == |p|
    && p[7] == Checksum(p[..7]) && p[6] == Checksum(p[HEADER_SIZE..])
  }

  ghost predicate OnlyGoodPackets(items: seq<Item>) {
    forall i | i in items && i.Packet? :: Sound(i.bytes)
  }

  lemma {:induction false} DrainAccounts(buffer: seq<byte>, chunk: seq<byte>)
    ensures var d := Drain(buffer, chunk);
            AllBytes(d.items) + d.buffer == buffer + chunk && OnlyGoodPackets(d.items)
    decreases |buffer| + |chunk|
  {
    hide Check, CheckCode, PacketLength, Sound;
    var r := Check(buffer, chunk);
    BufferAndChunk(buffer, chunk);
    if r.packet.Some? {
      PacketPrefix(buffer + chunk);
      DrainAccounts(r.buffer, []);
      var rest, p := Drain(r.buffer, []), r.packet.value;
      assert r.buffer + [] == r.buffer;
      assert ([Packet(p)] + rest.items)[1..] == rest.items;
      assert p + (AllBytes(rest.items) + rest.buffer) == p + AllBytes(rest.items) + rest.buffer;
    } else if r.code != -1 {
      assert AllBytes([Dropped(buffer + chunk)]) == buffer + chunk + AllBytes([]);
    }
  }

  lemma PacketPrefix(all: seq<byte>)
    requires CheckCode(all) == 0
    ensures HEADER_SIZE <= PacketLength(all) <= |all|
    ensures Sound(all[..PacketLength(all)])
  {
    var n := PacketLength(all);
    assert all[..n][2..4] == all[2..4] && all[..n][..7] == all[..7];
    assert all[..n][HEADER_SIZE..] == all[HEADER_SIZE..n];
  }

  lemma Regroup(a: seq<byte>, b: seq<byte>, c: seq<byte>, d: seq<byte>, e: seq<byte>)
    requires b + c == d + e
    ensures a + b + c == a + d + e
  {
    assert a + b + c == a + (b + c) && a + d + e == a + (d + e);
  }

  /** Whatever the bytes, all of them are accounted for in order: those in packets
      handed on, those thrown away, and those in the buffer. */
  lemma {:induction false} EveryByteIsAccountedFor(chunks: seq<seq<byte>>)
    ensures AllBytes(Feed(chunks).items) + Feed(chunks).buffer == Join(chunks)
  {
    if chunks != [] {
      hide Drain, AllBytes;
      var init, last := chunks[..|chunks| - 1], chunks[|chunks| - 1];
      var before, d := Feed(init), Drain(Feed(init).buffer, last);
      EveryByteIsAccountedFor(init);
      DrainAccounts(before.buffer, last);
      AllBytesConcat(before.items, d.items);
      Regroup(AllBytes(before.items), AllBytes(d.items), d.buffer, before.buffer, last);
    }
  }

  /** And what is handed on as a packet is one whole packet, with both checksums right. */
  lemma {:induction false} HandedOnIsWhole(chunks: seq<seq<byte>>)
    ensures OnlyGoodPackets(Feed(chunks).items)
  {
    if chunks != [] {
      var init, last := chunks[..|chunks| - 1], chunks[|chunks| - 1];
      HandedOnIsWhole(init);
      DrainAccounts(Feed(init).buffer, last);
    }
  }

  // ------------------------------------------- streams of well-formed packets

  ghost predicate AllWellFormed(ps: seq<seq<byte>>) {
    forall i | 0 <= i < |ps| :: WellFormed(ps[i])
  }

  /** Join, from the front. */
  lemma {:induction false} JoinFirst(ps: seq<seq<byte>>)
    requires ps != []
    ensures Join(ps) == ps[0] + Join(ps[1..])
  {
    if |ps| > 1 {
      var init := ps[..|ps| - 1];
      JoinFirst(init);
      assert init[1..] == ps[1..][..|ps| - 2];
    }
  }

  /** PacketCheck's verdict on the beginning of a stream of well-formed packets. */
  lemma VerdictOnPrefix(p: seq<byte>, rest: seq<byte>, s: seq<byte>)
    requires WellFormed(p) && s <= p + rest
    ensures CheckCode(s) == if |s| >= |p| then 0 else if |s| <= HEADER_SIZE then -2 else -1
    ensures |s| >= |p| ==> PacketLength(s) == |p| && s[..|p|] == p
  {
    if |s| > HEADER_SIZE {
      assert s[..7] == p[..7] && s[2..4] == p[2..4] && s[1] == p[1] && s[7] == p[7];
      if |s| >= |p| {
        assert s[..|p|] == p;
        assert s[HEADER_SIZE..|p|] == p[HEADER_SIZE..|p|];
      }
    }
  }

  /** What the buffer holds between two chunks: a part of the next packet. */
  ghost predicate Partial(buffer: seq<byte>, ps: seq<seq<byte>>) {
    if ps == [] then buffer == [] else |buffer| < |ps[0]| && buffer <= ps[0]
  }

  /** After some bytes of the stream Join(ps), the first k packets are out. */
  ghost predicate Progress(ps: seq<seq<byte>>, k: nat, before: seq<byte>, d: Drained) {
    && k <= |ps| && Packets(d.items) == ps[..k]
    && Partial(d.buffer, ps[k..])
    && before == Join(ps[..k]) + d.buffer
  }

  lemma {:induction false} DrainProgress(buffer: seq<byte>, chunk: seq<byte>, ps: seq<seq<byte>>) returns (k: nat)
    requires AllWellFormed(ps) && buffer + chunk <= Join(ps)
    ensures Progress(ps, k, buffer + chunk, Drain(buffer, chunk))
    decreases |ps|
  {
    hide Check, Drain, PacketLength;
    var all := buffer + chunk;
    DrainStep(buffer, chunk);
    BufferAndChunk(buffer, chunk);
    if ps == [] {
      assert all == [];
      k := 0;
    } else {
      JoinFirst(ps);
      VerdictOnPrefix(ps[0], Join(ps[1..]), all);
      if |all| < |ps[0]| {
        k := 0;
      } else {
        var r := Check(buffer, chunk);
        assert r.buffer + [] == r.buffer == all[|ps[0]|..];
        k := DrainProgress(r.buffer, [], ps[1..]);
        NextPacketOut(ps, k, all, r.buffer, Drain(r.buffer, []), Drain(buffer, chunk));
        k := k + 1;
      }
    }
  }

  lemma NextPacketOut(ps: seq<seq<byte>>, k: nat, all: seq<byte>, left: seq<byte>, rest: Drained, d: Drained)
    requires ps != [] && all == ps[0] + left
    requires Progress(ps[1..], k, left, rest)
    requires Packets(d.items) == [ps[0]] + Packets(rest.items) && d.buffer == rest.buffer
    ensures Progress(ps, k + 1, all, d)
  {
    assert ps[..k + 1][1..] == ps[1..][..k];
    JoinFirst(ps[..k + 1]);
    assert ps[k + 1..] == ps[1..][k..];
    assert [ps[0]] + ps[1..][..k] == ps[..k + 1];
  }

  lemma {:induction false} JoinSplit(ps: seq<seq<byte>>, k: nat)
    requires k <= |ps|
    ensures Join(ps) == Join(ps[..k]) + Join(ps[k..])
  {
    if k == 0 {
      assert ps[0..] == ps;
    } else {
      JoinFirst(ps);
      JoinSplit(ps[1..], k - 1);
      JoinFirst(ps[..k]);
      assert ps[..k][1..] == ps[1..][..k - 1] && ps[1..][k - 1..] == ps[k..];
    }
  }

  lemma PrefixCancels(a: seq<byte>, b: seq<byte>, last: seq<byte>, c: seq<byte>, total: seq<byte>)
    requires total == a + c && a + b + last <= total
    ensures b + last <= c
  {
    var s := a + b + last;
    assert forall i | 0 <= i < |b + last| :: (b + last)[i] == s[|a| + i] == total[|a| + i] == c[i];
  }

  lemma ProgressThen(ps: seq<seq<byte>>, i: nat, k: nat, before: seq<byte>, last: seq<byte>,
                     a: Fed, d: Drained)
    requires i <= |ps| && Packets(a.items) == ps[..i] && before == Join(ps[..i]) + a.buffer
    requires Progress(ps[i..], k, a.buffer + last, d)
    ensures Progress(ps, i + k, before + last, Drained(a.items + d.items, d.buffer, d.code))
  {
    hide Join, Packets, Partial;
    PacketsConcat(a.items, d.items);
    JoinMiddle(ps, i, k);
    assert ps[..i] + ps[i..][..k] == ps[..i + k] && ps[i..][k..] == ps[i + k..];
    assert before + last == Join(ps[..i]) + (a.buffer + last);
    assert before + last == Join(ps[..i]) + Join(ps[i..][..k]) + d.buffer;
  }

  lemma JoinMiddle(ps: seq<seq<byte>>, i: nat, k: nat)
    requires i + k <= |ps|
    ensures Join(ps[..i + k]) == Join(ps[..i]) + Join(ps[i..][..k])
  {
    hide Join;
    JoinSplit(ps[..i + k], i);
    assert ps[..i + k][..i] == ps[..i] && ps[..i + k][i..] == ps[i..][..k];
  }

  /** The rest of the stream starts with what is in the buffer and the next chunk. */
  lemma RestOfStream(ps: seq<seq<byte>>, i: nat, sofar: seq<byte>, buffer: seq<byte>, last: seq<byte>)
    requires i <= |ps| && sofar == Join(ps[..i]) + buffer && sofar + last <= Join(ps)
    ensures buffer + last <= Join(ps[i..])
  {
    JoinSplit(ps, i);
    PrefixCancels(Join(ps[..i]), buffer, last, Join(ps[i..]), Join(ps));
  }

  /** One more chunk. */
  lemma ChunkProgress(ps: seq<seq<byte>>, i: nat, sofar: seq<byte>, last: seq<byte>, a: Fed) returns (k: nat)
    requires AllWellFormed(ps) && sofar + last <= Join(ps)
    requires Progress(ps, i, sofar, Drained(a.items, a.buffer, 0))
    ensures var d := Drain(a.buffer, last);
            Progress(ps, k, sofar + last, Drained(a.items + d.items, d.buffer, 0))
  {
    hide Drain, Join, Packets, Partial, WellFormed;
    RestOfStream(ps, i, sofar, a.buffer, last);
    var n := DrainProgress(a.buffer, last, ps[i..]);
    ProgressThen(ps, i, n, sofar, last, a, Drain(a.buffer, last));
    k := i + n;
  }

  lemma NoProgress(ps: seq<seq<byte>>)
    requires AllWellFormed(ps)
    ensures Progress(ps, 0, [], Drained([], [], 0))
  {
  }

  lemma {:induction false} FeedProgress(chunks: seq<seq<byte>>, ps: seq<seq<byte>>) returns (k: nat)
    requires AllWellFormed(ps) && Join(chunks) <= Join(ps)
    ensures Progress(ps, k, Join(chunks), Drained(Feed(chunks).items, Feed(chunks).buffer, 0))
  {
    hide Drain, Progress, AllWellFormed;
    if chunks == [] {
      NoProgress(ps);
      k := 0;
    } else {
      var init, last := chunks[..|chunks| - 1], chunks[|chunks| - 1];
      var i := FeedProgress(init, ps);
      k := ChunkProgress(ps, i, Join(init), last, Feed(init));
    }
  }

  /** However a stream of well-formed packets is cut up, exactly those packets come out,
      in order, and nothing is left over or thrown away. */
  lemma StreamComesBack(chunks: seq<seq<byte>>, ps: seq<seq<byte>>)
    requires AllWellFormed(ps) && Join(chunks) == Join(ps)
    ensures Packets(Feed(chunks).items) == ps && Feed(chunks).buffer == []
    ensures forall i | i in Feed(chunks).items :: i.Packet?
  {
    var k := FeedProgress(chunks, ps);
    JoinSplit(ps, k);
    if k < |ps| {
      JoinFirst(ps[k..]);
      assert false;
    }
    assert ps[..k] == ps && ps[k..] == [];
    NothingDropped(chunks, ps);
  }

  lemma {:induction false} NothingDropped(chunks: seq<seq<byte>>, ps: seq<seq<byte>>)
    requires AllWellFormed(ps) && Join(chunks) <= Join(ps)
    ensures forall i | i in Feed(chunks).items :: i.Packet?
  {
    if chunks != [] {
      var init, last := chunks[..|chunks| - 1], chunks[|chunks| - 1];
      NothingDropped(init, ps);
      hide Drain, Packets, Partial;
      var k := FeedProgress(init, ps);
      RestOfStream(ps, k, Join(init), Feed(init).buffer, last);
      DrainDropsNothing(Feed(init).buffer, last, ps[k..]);
    }
  }

  lemma {:induction false} DrainDropsNothing(buffer: seq<byte>, chunk: seq<byte>, ps: seq<seq<byte>>)
    requires AllWellFormed(ps) && buffer + chunk <= Join(ps)
    ensures forall i | i in Drain(buffer, chunk).items :: i.Packet?
    decreases |ps|
  {
    var all := buffer + chunk;
    BufferAndChunk(buffer, chunk);
    if ps != [] {
      JoinFirst(ps);
      VerdictOnPrefix(ps[0], Join(ps[1..]), all);
      if |all| >= |ps[0]| {
        var r := Check(buffer, chunk);
        assert r.buffer + [] == r.buffer == all[|ps[0]|..];
        DrainDropsNothing(r.buffer, [], ps[1..]);
      }
    }
  }

  // -------------------------------------------------------------- the sender

  const CHUNK := 512

  /** send, over TR-UDP: full chunks, and the rest in the last write. */
  method Send(packet: seq<byte>) returns (writes: seq<seq<byte>>)
    ensures Join(writes) == packet
    ensures |writes| > 0 && |writes[|writes| - 1]| <= CHUNK
    ensures forall i | 0 <= i < |writes| - 1 :: |writes[i]| == CHUNK
  {
    var left := packet;
    writes := [];
    while |left| > CHUNK
      invariant Join(writes) + left == packet
      invariant forall i | 0 <= i < |writes| :: |writes[i]| == CHUNK
      decreases |left|
    {
      ghost var before := writes;
      writes := writes + [left[..CHUNK]];
      assert writes[..|writes| - 1] == before;
      left := left[CHUNK..];
    }
    ghost var before := writes;
    writes := writes + [left];
    assert writes[..|writes| - 1] == before;
  }

  ghost function Flatten(sends: seq<seq<seq<byte>>>): seq<seq<byte>> {
    if sends == [] then [] else Flatten(sends[..|sends| - 1]) + sends[|sends| - 1]
  }

  lemma {:induction false} JoinFlatten(sends: seq<seq<seq<byte>>>, ps: seq<seq<byte>>)
    requires |sends| == |ps| && forall i | 0 <= i < |ps| :: Join(sends[i]) == ps[i]
    ensures Join(Flatten(sends)) == Join(ps)
  {
    if ps != [] {
      var n := |ps| - 1;
      JoinFlatten(sends[..n], ps[..n]);
      var a, b := Flatten(sends[..n]), sends[n];
      JoinSplit(a + b, |a|);
      assert (a + b)[..|a|] == a && (a + b)[|a|..] == b;
    }
  }

  /** What one side sends is what the other side's drain loop hands on. */
  lemma SentComesBack(sends: seq<seq<seq<byte>>>, ps: seq<seq<byte>>)
    requires AllWellFormed(ps)
    requires |sends| == |ps| && forall i | 0 <= i < |ps| :: Join(sends[i]) == ps[i]
    ensures Packets(Feed(Flatten(sends)).items) == ps && Feed(Flatten(sends)).buffer == []
  {
    JoinFlatten(sends, ps);
    StreamComesBack(Flatten(sends), ps);
  }
}
