/**
 Splitting a large message into numbered fragments, and combining them again.
 */
module Split {
  import opened Bytes
  import opened SplitKeys

  const MAX_DATA_LEN := 448
  const LAST_PACKET_FLAG := 0x8000
  const CMD_SPLIT: byte := 68

  type Word16 = x: int | 0 <= x < 0x1_0000

  type Fragments = map<string, seq<byte>>

  // --------------------------------------------------------------- splitting

  function Count(length: nat): nat {
    (length + MAX_DATA_LEN - 1) / MAX_DATA_LEN
  }

  /** The fragment number as it is sent: 16 bits, the highest marking the last one. */
  function Subnum(index: nat, last: bool): Word16 {
    var n := index % 0x1_0000;
    if last && n < LAST_PACKET_FLAG then n + LAST_PACKET_FLAG else n
  }

  function Fragment(packetNum: Word16, cmd: byte, index: nat, chunk: seq<byte>, last: bool): seq<byte> {
    var n := Subnum(index, last);
    LE16(packetNum) + LE16(n) + chunk + (if n == 0 then [cmd] else [])
  }

  function Chunk(data: seq<byte>, index: nat): seq<byte>
    requires index < Count(|data|)
  {
    data[MAX_DATA_LEN * index..if index + 1 < Count(|data|) then MAX_DATA_LEN * (index + 1) else |data|]
  }

  /** The index-th fragment of a message */
  function FragmentOf(packetNum: Word16, cmd: byte, data: seq<byte>, index: nat): seq<byte>
    requires index < Count(|data|)
  {
    Fragment(packetNum, cmd, index, Chunk(data, index), index + 1 == Count(|data|))
  }

  // --------------------------------------------------------------- combining

  datatype Result =
    | Pending                              // no packet yet
    | Whole(cmd: byte, packet: seq<byte>)  // the message
    | Missing                              // an earlier fragment is not there
    | Panics                               // a fragment too short to slice

  /** binary.Read of the two numbers: what is not there reads as zero. */
  function PacketNum(data: seq<byte>): Word16 {
    if |data| >= 2 then From16(data[..2]) else 0
  }

  function RawSubnum(data: seq<byte>): Word16 {
    if |data| >= 4 then From16(data[2..4]) else 0
  }

  function IsLast(data: seq<byte>): bool { RawSubnum(data) >= LAST_PACKET_FLAG }
  function Subindex(data: seq<byte>): nat { RawSubnum(data) % LAST_PACKET_FLAG }

  function KeyOf(from: string, data: seq<byte>): string {
    MakeKey(from, PacketNum(data), Subindex(data))
  }

  /** The combining loop from fragment i on. */
  function Gather(m: Fragments, from: string, packetNum: Word16, i: nat, upto: nat, cmd: byte, packet: seq<byte>)
    : (Fragments, Result)
    requires i <= upto + 1
    decreases upto + 1 - i
  {
    if i == upto + 1 then (m, Whole(cmd, packet))
    else
      var key := MakeKey(from, packetNum, i);
      if key !in m then (m, Missing)
      else if |m[key]| < 4 || (i == 0 && |m[key]| == 4) then (m, Panics)
      else
        var data := m[key][4..];
        var cmd' := if i == 0 then data[|data| - 1] else cmd;
        var data' := if i == 0 then data[..|data| - 1] else data;
        Gather(m - {key}, from, packetNum, i + 1, upto, cmd', packet + data')
  }

  /** combine, on the value of the map */
  function Combine(m: Fragments, from: string, data: seq<byte>): (Fragments, Result) {
    var added := m[KeyOf(from, data) := data];
    if !IsLast(data) then (added, Pending)
    else Gather(added, from, PacketNum(data), 0, Subindex(data), 0, [])
  }

  // ---------------------------------------------------------------- the code

  class SplitPacket {
    var packetNum: Word16
    var m: Fragments

    constructor ()
      ensures packetNum == 0 && m == map[]
    {
      packetNum, m := 0, map[];
    }

    /** split; sent collects the calls of the callback. */
    method SplitData(cmd: byte, data: seq<byte>) returns (num: nat, sent: seq<(byte, seq<byte>)>)
      modifies this`packetNum
      ensures |data| < MAX_DATA_LEN ==> num == 0 && sent == [(cmd, data)] && packetNum == old(packetNum)
      ensures |data| >= MAX_DATA_LEN ==>
                && packetNum == (old(packetNum) + 1) % 0x1_0000
                && num == |sent| == Count(|data|)
                && forall i | 0 <= i < num :: sent[i] == (CMD_SPLIT, FragmentOf(packetNum, cmd, data, i))
    {
      if |data| < MAX_DATA_LEN {
        return 0, [(cmd, data)];
      }
      packetNum := (packetNum + 1) % 0x1_0000;
      num, sent := 0, [];
      var left := data;
      while |left| > 0
        invariant packetNum == (old(packetNum) + 1) % 0x1_0000
        invariant num == |sent| <= Count(|data|)
        invariant num < Count(|data|) ==> MAX_DATA_LEN * num < |data| && left == data[MAX_DATA_LEN * num..]
        invariant num == Count(|data|) ==> left == []
        invariant forall i | 0 <= i < num :: sent[i] == (CMD_SPLIT, FragmentOf(packetNum, cmd, data, i))
        decreases |left|
      {
        var l := |left|;
        var last := l <= MAX_DATA_LEN;
        if !last {
          l := MAX_DATA_LEN;
        }
        CountStep(|data|, num);
        assert left[..l] == Chunk(data, num);
        sent := sent + [(CMD_SPLIT, Fragment(packetNum, cmd, num, left[..l], last))];
        num := num + 1;
        left := left[l..];
      }
    }

    /** combine */
    method CombineData(from: string, data: seq<byte>) returns (r: Result)
      modifies this`m
      ensures (m, r) == Combine(old(m), from, data)
    {
      var num, sub := PacketNum(data), Subindex(data);
      m := m[MakeKey(from, num, sub) := data];
      if !IsLast(data) {
        return Pending;
      }
      ghost var goal := Gather(m, from, num, 0, sub, 0, []);
      var cmd: byte, packet := 0, [];
      var i := 0;
      while i <= sub
        invariant i <= sub + 1
        invariant Gather(m, from, num, i, sub, cmd, packet) == goal
      {
        var key := MakeKey(from, num, i);
        if key !in m {
          return Missing;
        }
        if |m[key]| < 4 || (i == 0 && |m[key]| == 4) {
          return Panics;
        }
        var part := m[key][4..];
        if i == 0 {
          var l := |part| - 1;
          cmd := part[l];
          part := part[..l];
        }
        packet := packet + part;
        m := m - {key};
        i := i + 1;
      }
      return Whole(cmd, packet);
    }
  }

  lemma CountStep(length: nat, index: nat)
    requires index < Count(length)
    ensures MAX_DATA_LEN * index < length
    ensures index + 1 == Count(length) <==> length - MAX_DATA_LEN * index <= MAX_DATA_LEN
  {
  }

  // ----------------------------------------------------------- one fragment

  /** What combine reads from a fragment of a message of at most 32768 fragments. */
  lemma FragmentReads(packetNum: Word16, cmd: byte, data: seq<byte>, index: nat)
    requires index < Count(|data|) <= LAST_PACKET_FLAG
    ensures var f := FragmentOf(packetNum, cmd, data, index);
            && PacketNum(f) == packetNum && Subindex(f) == index
            && (IsLast(f) <==> index + 1 == Count(|data|))
            && f[4..] == Chunk(data, index) + (if index == 0 && Count(|data|) > 1 then [cmd] else [])
  {
    var last := index + 1 == Count(|data|);
    var n, chunk := Subnum(index, last), Chunk(data, index);
    SubnumIs(index, last);
    hide Subnum, Chunk;
    var tail := if n == 0 then [cmd] else [];
    assert LE16(packetNum) + LE16(n) + chunk + tail == LE16(packetNum) + LE16(n) + (chunk + tail);
    NumbersRead(packetNum, n, chunk + tail);
  }

  lemma NumbersRead(packetNum: Word16, n: Word16, rest: seq<byte>)
    ensures var f := LE16(packetNum) + LE16(n) + rest;
            PacketNum(f) == packetNum && RawSubnum(f) == n && f[4..] == rest
  {
    hide LE16, From16;
    Slices(LE16(packetNum), LE16(n), rest, LE16(packetNum) + LE16(n) + rest);
    FromLE16(packetNum);
    FromLE16(n);
  }

  lemma Slices(a: seq<byte>, b: seq<byte>, c: seq<byte>, f: seq<byte>)
    requires |a| == |b| == 2 && f == a + b + c
    ensures f[..2] == a && f[2..4] == b && f[4..] == c
  {
  }

  /** Where the numbers lie in a fragment: the packet's, the fragment's with the mark of the
      last one, both with the low byte first; and at the end of the first the command. */
  lemma FragmentLayout(packetNum: Word16, cmd: byte, data: seq<byte>, index: nat)
    requires index < Count(|data|) <= LAST_PACKET_FLAG
    ensures var f, last := FragmentOf(packetNum, cmd, data, index), index + 1 == Count(|data|);
            && |f| >= 4 && f[0] as int + 0x100 * f[1] as int == packetNum
            && f[2] as int + 0x100 * f[3] as int == index + (if last then 0x8000 else 0)
            && (index == 0 && !last ==> f[|f| - 1] == cmd)
  {
    var n := Subnum(index, index + 1 == Count(|data|));
    LittleEndian(packetNum);
    LittleEndian(n);
    FragmentReads(packetNum, cmd, data, index);
    hide LE16, Chunk, PacketNum, Subindex, IsLast, Subnum;
    var f := FragmentOf(packetNum, cmd, data, index);
    SubnumIs(index, index + 1 == Count(|data|));
    assert f[..2] == LE16(packetNum) && f[2..4] == LE16(n);
    assert f[0] == f[..2][0] && f[1] == f[..2][1] && f[2] == f[2..4][0] && f[3] == f[2..4][1];
  }

  lemma SubnumIs(index: nat, last: bool)
    requires index < LAST_PACKET_FLAG
    ensures Subnum(index, last) == index + (if last then LAST_PACKET_FLAG else 0)
  {
  }

  lemma ChunkIsNotEmpty(data: seq<byte>, index: nat)
    requires index < Count(|data|)
    ensures 0 < |Chunk(data, index)| <= MAX_DATA_LEN
    ensures index + 1 < Count(|data|) ==> |Chunk(data, index)| == MAX_DATA_LEN
  {
    CountStep(|data|, index);
  }

  // ------------------------------------------------- gathering one message

  function OwnKey(from: string, packetNum: nat, k: nat): string {
    MakeKey(from, packetNum, k)
  }

  /** The keys of the fragments from i to n - 1 */
  ghost function Keys(from: string, packetNum: nat, i: nat, n: nat): set<string> {
    set k | i <= k < n :: OwnKey(from, packetNum, k)
  }

  lemma KeysStep(from: string, packetNum: nat, i: nat, n: nat)
    requires i < n
    ensures Keys(from, packetNum, i, n) == {OwnKey(from, packetNum, i)} + Keys(from, packetNum, i + 1, n)
  {
  }

  /** The fragments from i on are there. */
  ghost predicate Holds(m: Fragments, from: string, packetNum: Word16, cmd: byte, data: seq<byte>, i: nat) {
    forall k | i <= k < Count(|data|) ::
      OwnKey(from, packetNum, k) in m && m[OwnKey(from, packetNum, k)] == FragmentOf(packetNum, cmd, data, k)
  }

  /** The payload before fragment i */
  function Before(data: seq<byte>, i: nat): seq<byte>
    requires i <= Count(|data|)
  {
    if i < Count(|data|) then CountStep(|data|, i); data[..MAX_DATA_LEN * i] else data
  }

  lemma BeforeStep(data: seq<byte>, i: nat)
    requires i < Count(|data|)
    ensures Before(data, i) + Chunk(data, i) == Before(data, i + 1)
  {
    CountStep(|data|, i);
    if i + 1 < Count(|data|) { CountStep(|data|, i + 1); }
  }

  /** With all fragments there, the loop puts the message together and takes exactly its
      fragments out of the map. */
  lemma {:induction false} GatherAll(m: Fragments, from: string, packetNum: Word16, cmd: byte, data: seq<byte>, i: nat,
                                     acc: byte)
    requires 1 < Count(|data|) <= LAST_PACKET_FLAG && i <= Count(|data|)
    requires Holds(m, from, packetNum, cmd, data, i)
    requires i > 0 ==> acc == cmd
    ensures Gather(m, from, packetNum, i, Count(|data|) - 1, acc, Before(data, i))
            == (m - Keys(from, packetNum, i, Count(|data|)), Whole(cmd, data))
    decreases Count(|data|) - i
  {
    var n := Count(|data|);
    if i == n {
      assert Keys(from, packetNum, i, n) == {};
      assert m - {} == m;
    } else {
      hide Gather, FragmentOf, Chunk, Before, OwnKey, Holds, Keys;
      var key := OwnKey(from, packetNum, i);
      FragmentReads(packetNum, cmd, data, i);
      ChunkIsNotEmpty(data, i);
      BeforeStep(data, i);
      KeysStep(from, packetNum, i, n);
      HoldsRest(m, from, packetNum, cmd, data, i);
      GatherAll(m - {key}, from, packetNum, cmd, data, i + 1, cmd);
      assert m - {key} - Keys(from, packetNum, i + 1, n) == m - Keys(from, packetNum, i, n);
      GatherOne(m, from, packetNum, i, n - 1, acc, Before(data, i), Chunk(data, i), cmd);
    }
  }

  lemma HoldsRest(m: Fragments, from: string, packetNum: Word16, cmd: byte, data: seq<byte>, i: nat)
    requires i < Count(|data|) && Holds(m, from, packetNum, cmd, data, i)
    ensures var key := OwnKey(from, packetNum, i);
            && key in m && m[key] == FragmentOf(packetNum, cmd, data, i)
            && Holds(m - {key}, from, packetNum, cmd, data, i + 1)
  {
    hide FragmentOf, MakeKey;
    forall k | i + 1 <= k < Count(|data|)
      ensures OwnKey(from, packetNum, k) != OwnKey(from, packetNum, i)
    {
      KeysAreDistinct(from, packetNum, i, from, packetNum, k);
    }
  }

  /** One round of the loop, on a fragment with the given chunk. */
  lemma GatherOne(m: Fragments, from: string, packetNum: Word16, i: nat, upto: nat, acc: byte, packet: seq<byte>,
                  chunk: seq<byte>, cmd: byte)
    requires i <= upto && OwnKey(from, packetNum, i) in m
    requires var f := m[OwnKey(from, packetNum, i)];
             |f| > 4 && chunk != [] && f[4..] == chunk + (if i == 0 then [cmd] else [])
    requires i > 0 ==> acc == cmd
    ensures Gather(m, from, packetNum, i, upto, acc, packet)
            == Gather(m - {OwnKey(from, packetNum, i)}, from, packetNum, i + 1, upto, cmd, packet + chunk)
  {
    var part := m[OwnKey(from, packetNum, i)][4..];
    assert i == 0 ==> part[|part| - 1] == cmd && part[..|part| - 1] == chunk;
    assert i > 0 ==> part == chunk;
  }

  // --------------------------------------------------- combining, in every case

  /** A fragment is there that is long enough to be cut. */
  predicate Usable(m: Fragments, from: string, packetNum: Word16, k: nat) {
    var key := OwnKey(from, packetNum, k);
    key in m && |m[key]| >= (if k == 0 then 5 else 4)
  }

  /** What it adds to the message: all after the two numbers, of the first one all but the
      command at its end. */
  function Part(m: Fragments, from: string, packetNum: Word16, k: nat): seq<byte>
    requires Usable(m, from, packetNum, k)
  {
    var f := m[OwnKey(from, packetNum, k)];
    f[4..if k == 0 then |f| - 1 else |f|]
  }

  ghost predicate AllUsable(m: Fragments, from: string, packetNum: Word16, i: nat, j: nat) {
    forall k: nat | i <= k < j :: Usable(m, from, packetNum, k)
  }

  ghost function Parts(m: Fragments, from: string, packetNum: Word16, i: nat, j: nat): seq<byte>
    requires i <= j && AllUsable(m, from, packetNum, i, j)
    decreases j - i
  {
    if i == j then [] else Part(m, from, packetNum, i) + Parts(m, from, packetNum, i + 1, j)
  }

  /** The command is the last byte of the first fragment. */
  function CommandIn(m: Fragments, from: string, packetNum: Word16): byte
    requires Usable(m, from, packetNum, 0)
  {
    var f := m[OwnKey(from, packetNum, 0)];
    f[|f| - 1]
  }

  lemma PartElsewhere(m: Fragments, from: string, packetNum: Word16, h: nat, k: nat)
    requires h != k
    ensures var m' := m - {OwnKey(from, packetNum, h)};
            && (Usable(m', from, packetNum, k) <==> Usable(m, from, packetNum, k))
            && (OwnKey(from, packetNum, k) in m' <==> OwnKey(from, packetNum, k) in m)
            && (Usable(m, from, packetNum, k) ==> Part(m', from, packetNum, k) == Part(m, from, packetNum, k))
  {
    hide MakeKey;
    KeysAreDistinct(from, packetNum, h, from, packetNum, k);
  }

  lemma {:induction false} PartsElsewhere(m: Fragments, from: string, packetNum: Word16, h: nat, i: nat, j: nat)
    requires h < i <= j && AllUsable(m - {OwnKey(from, packetNum, h)}, from, packetNum, i, j)
    ensures var m' := m - {OwnKey(from, packetNum, h)};
            && AllUsable(m, from, packetNum, i, j)
            && Parts(m', from, packetNum, i, j) == Parts(m, from, packetNum, i, j)
    decreases j - i
  {
    hide Usable, Part, OwnKey;
    var m' := m - {OwnKey(from, packetNum, h)};
    if i < j {
      assert Usable(m', from, packetNum, i);
      PartElsewhere(m, from, packetNum, h, i);
      PartsElsewhere(m, from, packetNum, h, i + 1, j);
    }
  }

  /** The loop goes on exactly to the first fragment that is missing or too short, or to
      the last one; it takes those before out of the map, and puts them together. */
  lemma {:induction false} GatherLaw(m: Fragments, from: string, packetNum: Word16, i: nat, upto: nat, cmd: byte,
                                     packet: seq<byte>) returns (j: nat)
    requires i <= upto + 1
    ensures i <= j <= upto + 1 && AllUsable(m, from, packetNum, i, j)
    ensures j <= upto ==> !Usable(m, from, packetNum, j)
    ensures var (m', r) := Gather(m, from, packetNum, i, upto, cmd, packet);
            && m' == m - Keys(from, packetNum, i, j)
            && r == if j == upto + 1 then
                      Whole(if i == 0 then CommandIn(m, from, packetNum) else cmd,
                            packet + Parts(m, from, packetNum, i, j))
                    else if OwnKey(from, packetNum, j) in m then Panics else Missing
    decreases upto + 1 - i
  {
    if i == upto + 1 || !Usable(m, from, packetNum, i) {
      j := i;
      assert Keys(from, packetNum, i, j) == {} && m - {} == m && packet + [] == packet;
    } else {
      hide Keys, Parts;
      var key := OwnKey(from, packetNum, i);
      var part, cmd' := Part(m, from, packetNum, i), if i == 0 then CommandIn(m, from, packetNum) else cmd;
      GatherStep(m, from, packetNum, i, upto, cmd, packet);
      hide Gather, Usable, Part, OwnKey, CommandIn;
      j := GatherLaw(m - {key}, from, packetNum, i + 1, upto, cmd', packet + part);
      PartsElsewhere(m, from, packetNum, i, i + 1, j);
      PartElsewhere(m, from, packetNum, i, j);
      KeysStep(from, packetNum, i, j);
      PartsStep(m, from, packetNum, i, j);
      assert m - {key} - Keys(from, packetNum, i + 1, j) == m - Keys(from, packetNum, i, j);
      var parts := Parts(m, from, packetNum, i + 1, j);
      assert packet + part + parts == packet + (part + parts);
    }
  }

  lemma PartsStep(m: Fragments, from: string, packetNum: Word16, i: nat, j: nat)
    requires i < j && Usable(m, from, packetNum, i) && AllUsable(m, from, packetNum, i + 1, j)
    ensures AllUsable(m, from, packetNum, i, j)
    ensures Parts(m, from, packetNum, i, j) == Part(m, from, packetNum, i) + Parts(m, from, packetNum, i + 1, j)
  {
    hide Usable, Part;
  }

  /** One round of the loop, on any fragment that is usable. */
  lemma GatherStep(m: Fragments, from: string, packetNum: Word16, i: nat, upto: nat, cmd: byte, packet: seq<byte>)
    requires i <= upto && Usable(m, from, packetNum, i)
    ensures Gather(m, from, packetNum, i, upto, cmd, packet)
            == Gather(m - {OwnKey(from, packetNum, i)}, from, packetNum, i + 1, upto,
                      if i == 0 then CommandIn(m, from, packetNum) else cmd, packet + Part(m, from, packetNum, i))
  {
    var f := m[OwnKey(from, packetNum, i)];
    assert i == 0 ==> f[4..][..|f| - 5] == f[4..|f| - 1];
    assert f[4..|f|] == f[4..];
  }

  /** combine, of whatever bytes: a fragment that is not marked as the last waits in the
      map; one that is looks for all before it. */
  lemma CombineLaw(m: Fragments, from: string, data: seq<byte>) returns (j: nat)
    ensures var num, sub := PacketNum(data), Subindex(data);
            var added := m[OwnKey(from, num, sub) := data];
            if !IsLast(data) then Combine(m, from, data) == (added, Pending)
            else
              && j <= sub + 1 && AllUsable(added, from, num, 0, j) && (j <= sub ==> !Usable(added, from, num, j))
              && Combine(m, from, data).0 == added - Keys(from, num, 0, j)
              && Combine(m, from, data).1
                 == if j == sub + 1 then
                      Whole(CommandIn(added, from, num), Parts(added, from, num, 0, j))
                    else if OwnKey(from, num, j) in added then Panics else Missing
  {
    hide MakeKey, Gather, Keys;
    var num, sub := PacketNum(data), Subindex(data);
    j := 0;
    if IsLast(data) {
      var added := m[OwnKey(from, num, sub) := data];
      j := GatherLaw(added, from, num, 0, sub, 0, []);
      assert [] + Parts(added, from, num, 0, j) == Parts(added, from, num, 0, j);
    }
  }
}
