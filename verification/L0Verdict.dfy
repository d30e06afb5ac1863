/**
 When the stream parser takes a packet, when it waits and when it throws bytes away; and
 that it recovers from wrong bytes.
 */
module L0Verdict {
  import opened Bytes
  import opened L0Packet
  import opened L0Stream

  // ------------------------------------------------------------ the verdict

  /** The bytes begin with a whole packet. */
  ghost predicate HasPacket(s: seq<byte>) {
    exists n | HEADER_SIZE <= n <= |s| :: Sound(s[..n])
  }

  /** The bytes are the beginning of a packet. */
  ghost predicate BeginsPacket(s: seq<byte>) {
    exists p :: WellFormed(p) && s < p
  }

  lemma HasPacketIff(s: seq<byte>)
    requires |s| > HEADER_SIZE
    ensures CheckCode(s) == 0 <==> HasPacket(s)
  {
    if CheckCode(s) == 0 {
      PacketPrefix(s);
      assert Sound(s[..PacketLength(s)]);
    }
    if HasPacket(s) {
      var n :| HEADER_SIZE <= n <= |s| && Sound(s[..n]);
      assert s[..n][2..4] == s[2..4] && s[..n][..7] == s[..7];
      assert s[..n][HEADER_SIZE..] == s[HEADER_SIZE..n];
    }
  }

  lemma {:induction false} SumOfZeros(n: nat)
    ensures Sum(seq(n, _ => 0 as byte)) == 0
  {
    if n > 0 {
      var zeros := seq(n, _ => 0 as byte);
      assert zeros[..n - 1] == seq(n - 1, _ => 0 as byte);
      SumOfZeros(n - 1);
    }
  }

  /** Bytes that make up for what a checksum still lacks. */
  lemma Filling(body: seq<byte>, checksum: byte, n: nat) returns (fill: seq<byte>)
    requires n > 0
    ensures |fill| == n && Checksum(body + fill) == checksum
  {
    var zeros, x := seq(n - 1, _ => 0 as byte), (checksum - Sum(body)) % 0x100;
    fill := zeros + [x];
    SumOfZeros(n - 1);
    SumConcat(body, fill);
    SumConcat(zeros, [x]);
    assert Sum([x]) == x;
  }

  /** What waits can still become a packet. */
  lemma Completed(s: seq<byte>) returns (p: seq<byte>)
    requires CheckCode(s) == -1
    ensures WellFormed(p) && s < p
  {
    hide Checksum;
    var n := PacketLength(s);
    var fill := Filling(s[HEADER_SIZE..], s[6], n - |s|);
    p := s + fill;
    assert p[2..4] == s[2..4] && p[..7] == s[..7] && p[6] == s[6] && p[7] == s[7];
    assert p[HEADER_SIZE..n] == s[HEADER_SIZE..] + fill;
  }

  /** More than a header is kept for later exactly if a packet begins like that; taken
      for a packet exactly if it begins with one; and thrown away otherwise, under the one
      code or the other as the header's own checksum is right. */
  lemma VerdictLaw(s: seq<byte>)
    requires |s| > HEADER_SIZE
    ensures CheckCode(s) == 0 <==> HasPacket(s)
    ensures CheckCode(s) == -1 <==> BeginsPacket(s)
    ensures CheckCode(s) == -3 <==> s[7] != Checksum(s[..7])
    ensures CheckCode(s) == 1 || CheckCode(s) == -3 <==> !HasPacket(s) && !BeginsPacket(s)
  {
    HasPacketIff(s);
    if CheckCode(s) == -1 {
      var p := Completed(s);
      assert BeginsPacket(s);
    }
    if BeginsPacket(s) {
      var p :| WellFormed(p) && s < p;
      VerdictOnPrefix(p, [], s);
    }
  }

  /** A mere header, or less, always waits. */
  lemma HeaderWaits(s: seq<byte>)
    ensures |s| <= HEADER_SIZE <==> CheckCode(s) == -2
  {
  }

  // --------------------------------------------------------------- recovery

  /** Nothing that is or becomes a packet begins like this. */
  ghost predicate Wrong(s: seq<byte>) {
    |s| > HEADER_SIZE && !HasPacket(s) && !BeginsPacket(s)
  }

  /** Wrong bytes are thrown away, all of them, and only they are. */
  lemma WrongIsThrownAway(buffer: seq<byte>, chunk: seq<byte>)
    ensures var d := Drain(buffer, chunk);
            && (Wrong(buffer + chunk) ==> d.items == [Dropped(buffer + chunk)] && d.buffer == [])
            && (d.items != [] && d.items[0].Dropped? ==> Wrong(buffer + chunk))
  {
    hide Check, CheckCode, HasPacket, BeginsPacket;
    var all := buffer + chunk;
    BufferAndChunk(buffer, chunk);
    HeaderWaits(all);
    if |all| > HEADER_SIZE { VerdictLaw(all); }
    CodesAreFive(all);
  }

  lemma CodesAreFive(s: seq<byte>)
    ensures CheckCode(s) in {0, 1, -1, -2, -3}
  {
  }

  /** From an empty buffer, what came before does not matter. */
  lemma {:induction false} FeedAfter(before: seq<seq<byte>>, chunks: seq<seq<byte>>)
    requires Feed(before).buffer == []
    ensures Feed(before + chunks) == Fed(Feed(before).items + Feed(chunks).items, Feed(chunks).buffer)
  {
    hide Drain;
    if chunks == [] {
      assert before + chunks == before;
    } else {
      var init, last := chunks[..|chunks| - 1], chunks[|chunks| - 1];
      FeedAfter(before, init);
      assert (before + chunks)[..|before + chunks| - 1] == before + init;
      assert Feed(before).items + (Feed(init).items + Drain(Feed(init).buffer, last).items)
             == Feed(before).items + Feed(init).items + Drain(Feed(init).buffer, last).items;
    }
  }

  /** After wrong bytes, whatever came before them, a stream of well-formed packets comes
      out whole again, however it is cut up. */
  lemma StreamRecovers(before: seq<seq<byte>>, wrong: seq<byte>, chunks: seq<seq<byte>>, ps: seq<seq<byte>>)
    requires Wrong(Feed(before).buffer + wrong)
    requires AllWellFormed(ps) && Join(chunks) == Join(ps)
    ensures var fed := Feed(before + [wrong] + chunks);
            && Packets(fed.items) == Packets(Feed(before).items) + ps && fed.buffer == []
  {
    hide Drain, Packets, Wrong;
    var b := Feed(before);
    WrongIsThrownAway(b.buffer, wrong);
    assert (before + [wrong])[..|before|] == before;
    var dropped := [Dropped(b.buffer + wrong)];
    assert Feed(before + [wrong]) == Fed(b.items + dropped, []);
    FeedAfter(before + [wrong], chunks);
    StreamComesBack(chunks, ps);
    PacketsConcat(b.items + dropped, Feed(chunks).items);
    PacketsConcat(b.items, dropped);
    DroppedIsNoPacket(b.buffer + wrong);
  }

  lemma DroppedIsNoPacket(bytes: seq<byte>)
    ensures Packets([Dropped(bytes)]) == []
  {
  }
}
