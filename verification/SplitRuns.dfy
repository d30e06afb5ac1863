/**
 Messages split at one side and combined at the other, among fragments of other
 messages.
 */
module SplitRuns {
  import opened Bytes
  import opened SplitKeys
  import opened Split

  datatype Arrival = Arrival(from: string, data: seq<byte>)

  // The message that is followed through the arrivals.
  datatype Message = Message(from: string, packetNum: Word16, cmd: byte, data: seq<byte>)

  ghost function Receive(m: Fragments, arrivals: seq<Arrival>): Fragments {
    if arrivals == [] then m
    else
      var a := arrivals[|arrivals| - 1];
      Combine(Receive(m, arrivals[..|arrivals| - 1]), a.from, a.data).0
  }

  ghost predicate OfMessage(a: Arrival, msg: Message, k: nat) {
    k < Count(|msg.data|) && a == Arrival(msg.from, FragmentOf(msg.packetNum, msg.cmd, msg.data, k))
  }

  /** A fragment of another sender, or of another packet of the same one. */
  predicate Foreign(a: Arrival, msg: Message) {
    a.from != msg.from || PacketNum(a.data) != msg.packetNum
  }

  /** Fragments of the message before its last one, among foreign ones. */
  ghost predicate Mixed(arrivals: seq<Arrival>, msg: Message) {
    forall i | 0 <= i < |arrivals| ::
      Foreign(arrivals[i], msg) || exists k: nat :: k + 1 < Count(|msg.data|) && OfMessage(arrivals[i], msg, k)
  }

  ghost function Foreigners(arrivals: seq<Arrival>, msg: Message): seq<Arrival> {
    if arrivals == [] then []
    else
      var before, a := Foreigners(arrivals[..|arrivals| - 1], msg), arrivals[|arrivals| - 1];
      if Foreign(a, msg) then before + [a] else before
  }

  /** Every key a fragment of the message could have */
  ghost function MessageKeys(msg: Message): set<string> {
    Keys(msg.from, msg.packetNum, 0, LAST_PACKET_FLAG)
  }

  // ------------------------------------------------------ foreign fragments

  lemma ForeignKey(a: Arrival, msg: Message, i: nat)
    requires Foreign(a, msg)
    ensures MakeKey(a.from, PacketNum(a.data), i) !in MessageKeys(msg)
  {
    forall k: nat
      ensures MakeKey(a.from, PacketNum(a.data), i) != OwnKey(msg.from, msg.packetNum, k)
    {
      KeysAreDistinct(a.from, PacketNum(a.data), i, msg.from, msg.packetNum, k);
    }
  }

  ghost predicate SameOn(m: Fragments, m': Fragments, keys: set<string>) {
    forall key | key in keys :: (key in m <==> key in m') && (key in m ==> m[key] == m'[key])
  }

  /** Combining a foreign message neither sees nor changes the keys of this one. */
  lemma {:induction false} GatherForeign(m: Fragments, a: Arrival, msg: Message, i: nat, upto: nat, cmd: byte,
                                          packet: seq<byte>)
    requires Foreign(a, msg) && i <= upto + 1
    ensures var (m1, r1) := Gather(m, a.from, PacketNum(a.data), i, upto, cmd, packet);
            var (m2, r2) := Gather(m - MessageKeys(msg), a.from, PacketNum(a.data), i, upto, cmd, packet);
            r2 == r1 && m2 == m1 - MessageKeys(msg) && SameOn(m, m1, MessageKeys(msg))
    decreases upto + 1 - i
  {
    var keys := MessageKeys(msg);
    if i <= upto {
      hide MessageKeys, PacketNum;
      var key := MakeKey(a.from, PacketNum(a.data), i);
      ForeignKey(a, msg, i);
      if key in m && |m[key]| >= 4 && !(i == 0 && |m[key]| == 4) {
        var part := m[key][4..];
        var cmd' := if i == 0 then part[|part| - 1] else cmd;
        var part' := if i == 0 then part[..|part| - 1] else part;
        GatherForeign(m - {key}, a, msg, i + 1, upto, cmd', packet + part');
        assert m - {key} - keys == m - keys - {key};
      }
    }
  }

  lemma CombineForeign(m: Fragments, a: Arrival, msg: Message)
    requires Foreign(a, msg)
    ensures var (m1, r1) := Combine(m, a.from, a.data);
            var (m2, r2) := Combine(m - MessageKeys(msg), a.from, a.data);
            r2 == r1 && m2 == m1 - MessageKeys(msg) && SameOn(m, m1, MessageKeys(msg))
  {
    hide MessageKeys, Gather, PacketNum;
    var keys, key := MessageKeys(msg), KeyOf(a.from, a.data);
    ForeignKey(a, msg, Subindex(a.data));
    var added := m[key := a.data];
    assert (m - keys)[key := a.data] == added - keys;
    GatherForeign(added, a, msg, 0, Subindex(a.data), 0, []);
  }

  // ---------------------------------------------------------- own fragments

  lemma CombineOwn(m: Fragments, msg: Message, k: nat)
    requires k + 1 < Count(|msg.data|) <= LAST_PACKET_FLAG
    ensures var f := FragmentOf(msg.packetNum, msg.cmd, msg.data, k);
            && Combine(m, msg.from, f) == (m[OwnKey(msg.from, msg.packetNum, k) := f], Pending)
            && OwnKey(msg.from, msg.packetNum, k) in MessageKeys(msg)
  {
    FragmentReads(msg.packetNum, msg.cmd, msg.data, k);
  }

  // ------------------------------------------------------------------ runs

  ghost predicate Arrived(arrivals: seq<Arrival>, msg: Message, k: nat) {
    exists i | 0 <= i < |arrivals| :: OfMessage(arrivals[i], msg, k)
  }

  ghost predicate Waiting(m: Fragments, msg: Message, k: nat)
    requires k < Count(|msg.data|)
  {
    var key := OwnKey(msg.from, msg.packetNum, k);
    key in m && m[key] == FragmentOf(msg.packetNum, msg.cmd, msg.data, k)
  }

  lemma FragmentsDiffer(msg: Message, j: nat, k: nat)
    requires j < Count(|msg.data|) <= LAST_PACKET_FLAG && k < Count(|msg.data|)
    ensures FragmentOf(msg.packetNum, msg.cmd, msg.data, j) == FragmentOf(msg.packetNum, msg.cmd, msg.data, k)
            <==> j == k
    ensures OwnKey(msg.from, msg.packetNum, j) == OwnKey(msg.from, msg.packetNum, k) <==> j == k
    ensures OwnKey(msg.from, msg.packetNum, k) in MessageKeys(msg)
    ensures !Foreign(Arrival(msg.from, FragmentOf(msg.packetNum, msg.cmd, msg.data, j)), msg)
  {
    FragmentReads(msg.packetNum, msg.cmd, msg.data, j);
    FragmentReads(msg.packetNum, msg.cmd, msg.data, k);
    KeysAreDistinct(msg.from, msg.packetNum, j, msg.from, msg.packetNum, k);
  }

  /** A fragment waits from its arrival on, whatever else arrives. */
  lemma {:induction false} ArrivedWaits(m: Fragments, arrivals: seq<Arrival>, msg: Message, k: nat)
    requires Count(|msg.data|) <= LAST_PACKET_FLAG && Mixed(arrivals, msg)
    requires k + 1 < Count(|msg.data|) && Arrived(arrivals, msg, k)
    ensures Waiting(Receive(m, arrivals), msg, k)
  {
    hide Combine, FragmentOf, MakeKey, PacketNum, MessageKeys, Count;
    var before, a := arrivals[..|arrivals| - 1], arrivals[|arrivals| - 1];
    FragmentsDiffer(msg, k, k);
    if Foreign(a, msg) {
      ArrivedBefore(arrivals, msg, k);
      ArrivedWaits(m, before, msg, k);
      CombineForeign(Receive(m, before), a, msg);
    } else {
      var j: nat :| j + 1 < Count(|msg.data|) && OfMessage(a, msg, j);
      FragmentsDiffer(msg, j, k);
      CombineOwn(Receive(m, before), msg, j);
      if j != k {
        ArrivedBefore(arrivals, msg, k);
        ArrivedWaits(m, before, msg, k);
      }
    }
  }

  lemma ArrivedBefore(arrivals: seq<Arrival>, msg: Message, k: nat)
    requires arrivals != [] && Arrived(arrivals, msg, k) && !OfMessage(arrivals[|arrivals| - 1], msg, k)
    ensures Arrived(arrivals[..|arrivals| - 1], msg, k)
  {
    var i :| 0 <= i < |arrivals| && OfMessage(arrivals[i], msg, k);
    assert arrivals[..|arrivals| - 1][i] == arrivals[i];
  }

  lemma ReceiveOne(m: Fragments, arrivals: seq<Arrival>, a: Arrival)
    ensures Receive(m, arrivals + [a]) == Combine(Receive(m, arrivals), a.from, a.data).0
  {
    hide Combine;
    assert (arrivals + [a])[..|arrivals|] == arrivals;
  }

  /** To everyone else it is as if the fragments of this message were not there. */
  lemma {:induction false} OthersUndisturbed(m: Fragments, arrivals: seq<Arrival>, msg: Message)
    requires Count(|msg.data|) <= LAST_PACKET_FLAG && Mixed(arrivals, msg)
    ensures Receive(m, arrivals) - MessageKeys(msg)
            == Receive(m - MessageKeys(msg), Foreigners(arrivals, msg))
  {
    if arrivals != [] {
      hide Combine, FragmentOf, MakeKey, PacketNum, MessageKeys, Count;
      var keys := MessageKeys(msg);
      var before, a := arrivals[..|arrivals| - 1], arrivals[|arrivals| - 1];
      OthersUndisturbed(m, before, msg);
      if Foreign(a, msg) {
        CombineForeign(Receive(m, before), a, msg);
        ReceiveOne(m - keys, Foreigners(before, msg), a);
      } else {
        var j: nat :| j + 1 < Count(|msg.data|) && OfMessage(a, msg, j);
        CombineOwn(Receive(m, before), msg, j);
        var key := OwnKey(msg.from, msg.packetNum, j);
        assert Receive(m, before)[key := a.data] - keys == Receive(m, before) - keys;
      }
    }
  }

  /** Combining undoes splitting: for more than 448 bytes in at most 32768 fragments,
      when the others have arrived, in any order and mixed with fragments of other
      messages, the last fragment brings the message back. All its fragments leave the
      map, nothing else does, and the rest of the map is what it would be without them. */
  lemma CombineUndoesSplit(m: Fragments, arrivals: seq<Arrival>, msg: Message)
    requires |msg.data| > MAX_DATA_LEN && Count(|msg.data|) <= LAST_PACKET_FLAG
    requires Mixed(arrivals, msg)
    requires forall k | 0 <= k < Count(|msg.data|) - 1 :: Arrived(arrivals, msg, k)
    ensures var n, m1 := Count(|msg.data|), Receive(m, arrivals);
            && Combine(m1, msg.from, FragmentOf(msg.packetNum, msg.cmd, msg.data, n - 1))
               == (m1 - Keys(msg.from, msg.packetNum, 0, n), Whole(msg.cmd, msg.data))
            && m1 - MessageKeys(msg) == Receive(m - MessageKeys(msg), Foreigners(arrivals, msg))
  {
    var n, m1 := Count(|msg.data|), Receive(m, arrivals);
    var last, key := FragmentOf(msg.packetNum, msg.cmd, msg.data, n - 1), OwnKey(msg.from, msg.packetNum, n - 1);
    var added := m1[key := last];
    FragmentReads(msg.packetNum, msg.cmd, msg.data, n - 1);
    forall k | 0 <= k < n
      ensures OwnKey(msg.from, msg.packetNum, k) in added
      ensures added[OwnKey(msg.from, msg.packetNum, k)] == FragmentOf(msg.packetNum, msg.cmd, msg.data, k)
    {
      FragmentsDiffer(msg, n - 1, k);
      if k < n - 1 { ArrivedWaits(m, arrivals, msg, k); }
    }
    GatherAll(added, msg.from, msg.packetNum, msg.cmd, msg.data, 0, 0);
    assert Before(msg.data, 0) == [];
    assert key in Keys(msg.from, msg.packetNum, 0, n);
    assert added - Keys(msg.from, msg.packetNum, 0, n) == m1 - Keys(msg.from, msg.packetNum, 0, n);
    OthersUndisturbed(m, arrivals, msg);
  }

  /** A fragment that has not arrived does not wait. */
  lemma {:induction false} NotArrived(m: Fragments, arrivals: seq<Arrival>, msg: Message, k: nat)
    requires Count(|msg.data|) <= LAST_PACKET_FLAG && Mixed(arrivals, msg)
    requires k + 1 < Count(|msg.data|) && !Arrived(arrivals, msg, k) && OwnKey(msg.from, msg.packetNum, k) !in m
    ensures OwnKey(msg.from, msg.packetNum, k) !in Receive(m, arrivals)
  {
    if arrivals != [] {
      hide Combine, FragmentOf, MakeKey, PacketNum, MessageKeys, Count;
      var before, a := arrivals[..|arrivals| - 1], arrivals[|arrivals| - 1];
      assert before + [a] == arrivals;
      if Arrived(before, msg, k) { ArrivedStays(before, a, msg, k); }
      NotArrived(m, before, msg, k);
      FragmentsDiffer(msg, k, k);
      if Foreign(a, msg) {
        CombineForeign(Receive(m, before), a, msg);
      } else {
        var j: nat :| j + 1 < Count(|msg.data|) && OfMessage(a, msg, j);
        assert j != k;
        FragmentsDiffer(msg, j, k);
        CombineOwn(Receive(m, before), msg, j);
      }
    }
  }

  lemma ArrivedStays(arrivals: seq<Arrival>, a: Arrival, msg: Message, j: nat)
    requires Arrived(arrivals, msg, j)
    ensures Arrived(arrivals + [a], msg, j)
  {
    var i :| 0 <= i < |arrivals| && OfMessage(arrivals[i], msg, j);
    assert (arrivals + [a])[i] == arrivals[i];
  }

  lemma {:induction false} GatherStops(m: Fragments, from: string, packetNum: Word16, i: nat, upto: nat, cmd: byte,
                                       packet: seq<byte>, k: nat)
    requires i <= k <= upto && MakeKey(from, packetNum, k) !in m
    ensures !Gather(m, from, packetNum, i, upto, cmd, packet).1.Whole?
    decreases upto - i
  {
    hide MakeKey;
    var key := MakeKey(from, packetNum, i);
    if key in m && |m[key]| >= 4 && !(i == 0 && |m[key]| == 4) {
      var part := m[key][4..];
      var cmd' := if i == 0 then part[|part| - 1] else cmd;
      var part' := if i == 0 then part[..|part| - 1] else part;
      GatherStops(m - {key}, from, packetNum, i + 1, upto, cmd', packet + part', k);
    }
  }

  /** The last fragment brings nothing back while one of the others is still missing. */
  lemma LastComesTooEarly(m: Fragments, arrivals: seq<Arrival>, msg: Message, k: nat)
    requires Count(|msg.data|) <= LAST_PACKET_FLAG && Mixed(arrivals, msg)
    requires k + 1 < Count(|msg.data|) && !Arrived(arrivals, msg, k) && OwnKey(msg.from, msg.packetNum, k) !in m
    ensures !Combine(Receive(m, arrivals), msg.from,
                     FragmentOf(msg.packetNum, msg.cmd, msg.data, Count(|msg.data|) - 1)).1.Whole?
  {
    hide Gather, MakeKey, Receive, FragmentOf, Mixed, Arrived;
    var n, m1 := Count(|msg.data|), Receive(m, arrivals);
    var last := FragmentOf(msg.packetNum, msg.cmd, msg.data, n - 1);
    FragmentReads(msg.packetNum, msg.cmd, msg.data, n - 1);
    NotArrived(m, arrivals, msg, k);
    FragmentsDiffer(msg, n - 1, k);
    GatherStops(m1[OwnKey(msg.from, msg.packetNum, n - 1) := last], msg.from, msg.packetNum, 0, n - 1, 0, [], k);
  }

  /** With none of its fragments left over from before, the last fragment brings the
      message back exactly if all the others have arrived. */
  lemma ComesBackOnceComplete(m: Fragments, arrivals: seq<Arrival>, msg: Message)
    requires |msg.data| > MAX_DATA_LEN && Count(|msg.data|) <= LAST_PACKET_FLAG
    requires Mixed(arrivals, msg)
    requires forall k | 0 <= k < Count(|msg.data|) - 1 :: OwnKey(msg.from, msg.packetNum, k) !in m
    ensures Combine(Receive(m, arrivals), msg.from,
                    FragmentOf(msg.packetNum, msg.cmd, msg.data, Count(|msg.data|) - 1)).1 == Whole(msg.cmd, msg.data)
            <==> forall k | 0 <= k < Count(|msg.data|) - 1 :: Arrived(arrivals, msg, k)
  {
    hide Combine, Receive, FragmentOf, Mixed, Arrived, Keys, MessageKeys, Foreigners, OwnKey, Count;
    if forall k | 0 <= k < Count(|msg.data|) - 1 :: Arrived(arrivals, msg, k) {
      CombineUndoesSplit(m, arrivals, msg);
    } else {
      var k :| 0 <= k < Count(|msg.data|) - 1 && !Arrived(arrivals, msg, k);
      LastComesTooEarly(m, arrivals, msg, k);
    }
  }

  // ----------------------------------------------- exactly when it works

  /** The first k fragments of a message, in order */
  ghost function InOrder(msg: Message, k: nat): seq<Arrival>
    requires k <= Count(|msg.data|)
  {
    if k == 0 then []
    else InOrder(msg, k - 1) + [Arrival(msg.from, FragmentOf(msg.packetNum, msg.cmd, msg.data, k - 1))]
  }

  /** What combine returns for fragment k when they arrive in order. */
  ghost function ResultOf(m: Fragments, msg: Message, k: nat): Result
    requires k < Count(|msg.data|)
  {
    Combine(Receive(m, InOrder(msg, k)), msg.from, FragmentOf(msg.packetNum, msg.cmd, msg.data, k)).1
  }

  /** The last fragment brings the message back, and no earlier one brings anything. */
  ghost predicate ComesBack(m: Fragments, msg: Message) {
    var n := Count(|msg.data|);
    && n > 0 && ResultOf(m, msg, n - 1) == Whole(msg.cmd, msg.data)
    && forall k | 0 <= k < n - 1 :: ResultOf(m, msg, k) == Pending
  }

  lemma {:induction false} InOrderArrives(msg: Message, k: nat)
    requires k < Count(|msg.data|) <= LAST_PACKET_FLAG
    ensures Mixed(InOrder(msg, k), msg)
    ensures forall j | 0 <= j < k :: Arrived(InOrder(msg, k), msg, j)
  {
    hide FragmentOf, Count;
    if k > 0 {
      var before, a := InOrder(msg, k - 1), Arrival(msg.from, FragmentOf(msg.packetNum, msg.cmd, msg.data, k - 1));
      InOrderArrives(msg, k - 1);
      assert OfMessage(a, msg, k - 1);
      forall j | 0 <= j < k
        ensures Arrived(before + [a], msg, j)
      {
        if j < k - 1 {
          ArrivedStays(before, a, msg, j);
        } else {
          assert (before + [a])[|before|] == a;
        }
      }
    }
  }

  /** A fragment whose number reads as the last and the first: whatever is in the map,
      its own last byte is taken for the command and the rest for the message. */
  lemma LoneFragment(m: Fragments, from: string, f: seq<byte>)
    requires |f| > 4 && IsLast(f) && Subindex(f) == 0
    ensures Combine(m, from, f).1 == Whole(f[|f| - 1], f[4..|f| - 1])
  {
    var key := MakeKey(from, PacketNum(f), 0);
    var added := m[key := f];
    assert f[4..][..|f| - 5] == f[4..|f| - 1];
    assert Gather(added - {key}, from, PacketNum(f), 1, 0, f[|f| - 1], [] + f[4..|f| - 1]).1
           == Whole(f[|f| - 1], [] + f[4..|f| - 1]);
  }

  /** At exactly 448 bytes the command is not sent: the last byte of the data comes back
      in its place. */
  lemma CommandIsLost(m: Fragments, msg: Message)
    requires |msg.data| == MAX_DATA_LEN
    ensures ResultOf(m, msg, 0) == Whole(msg.data[447], msg.data[..447])
  {
    var f := FragmentOf(msg.packetNum, msg.cmd, msg.data, 0);
    FragmentReads(msg.packetNum, msg.cmd, msg.data, 0);
    assert f[4..] == msg.data;
    assert f[4..|f| - 1] == f[4..][..447];
    LoneFragment(Receive(m, InOrder(msg, 0)), msg.from, f);
  }

  /** Fragment number 32768 looks like the last and only fragment of a message. */
  lemma NumberOverflows(m: Fragments, msg: Message)
    requires Count(|msg.data|) > LAST_PACKET_FLAG
    ensures ResultOf(m, msg, LAST_PACKET_FLAG).Whole?
    ensures |ResultOf(m, msg, LAST_PACKET_FLAG).packet| < MAX_DATA_LEN
  {
    hide LE16, From16;
    var k := LAST_PACKET_FLAG;
    var f := FragmentOf(msg.packetNum, msg.cmd, msg.data, k);
    ChunkIsNotEmpty(msg.data, k);
    assert f == LE16(msg.packetNum) + LE16(LAST_PACKET_FLAG) + Chunk(msg.data, k) + [];
    FromLE16(LAST_PACKET_FLAG);
    assert f[2..4] == LE16(LAST_PACKET_FLAG);
    LoneFragment(Receive(m, InOrder(msg, k)), msg.from, f);
  }

  lemma InOrderIsPending(m: Fragments, msg: Message, k: nat)
    requires k + 1 < Count(|msg.data|) <= LAST_PACKET_FLAG
    ensures ResultOf(m, msg, k) == Pending
  {
    CombineOwn(Receive(m, InOrder(msg, k)), msg, k);
  }

  lemma InOrderComesBack(m: Fragments, msg: Message)
    requires |msg.data| > MAX_DATA_LEN && Count(|msg.data|) <= LAST_PACKET_FLAG
    ensures ResultOf(m, msg, Count(|msg.data|) - 1) == Whole(msg.cmd, msg.data)
  {
    hide Combine, Receive, FragmentOf, Mixed, Keys, MessageKeys, Foreigners, InOrder;
    InOrderArrives(msg, Count(|msg.data|) - 1);
    CombineUndoesSplit(m, InOrder(msg, Count(|msg.data|) - 1), msg);
  }

  /** A split message whose fragments arrive in order comes back exactly if it is not of
      448 bytes and has at most 32768 fragments. */
  lemma ComesBackIff(m: Fragments, msg: Message)
    requires |msg.data| >= MAX_DATA_LEN
    ensures ComesBack(m, msg) <==> |msg.data| != MAX_DATA_LEN && Count(|msg.data|) <= LAST_PACKET_FLAG
  {
    hide Combine, Receive, FragmentOf, InOrder, ResultOf;
    var n := Count(|msg.data|);
    if |msg.data| == MAX_DATA_LEN {
      CommandIsLost(m, msg);
    } else if n > LAST_PACKET_FLAG {
      NumberOverflows(m, msg);
    } else {
      InOrderComesBack(m, msg);
      forall k | 0 <= k < n - 1
        ensures ResultOf(m, msg, k) == Pending
      {
        InOrderIsPending(m, msg, k);
      }
    }
  }
}
