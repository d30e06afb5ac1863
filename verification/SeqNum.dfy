/**
 The 32-bit packet ids of TR-UDP and the unbounded sequence numbers behind them.

 The n-th packet of an epoch, counting from 0, carries the id Wire(n): the first
 packet has id 0, and from then on the ids run through 1 .. 2^32-1 over and over,
 so that 0 is never used again.
 */
module SeqNum {

  const LIMIT := 0x1_0000_0000

  // Number of ids in one lap; id 0 is not part of a lap.
  const PERIOD := LIMIT - 1

  // Farthest apart two sequence numbers may be for their ids still to be
  // compared correctly.
  const REACH := 0x8000_0000 - 2

  type ID = x: int | 0 <= x < LIMIT

  const FIRST_PACKET_ID: ID := 0

  function Wire(n: nat): ID {
    if n == 0 then FIRST_PACKET_ID else (n - 1) % PERIOD + 1
  }

  /** How many times the ids have started again from 1 before packet n. */
  function Lap(n: nat): nat {
    if n == 0 then 0 else (n - 1) / PERIOD
  }

  /** ChannelData.incID and ChannelData.ID: a 32-bit increment that skips 0. */
  function NextID(id: ID): (next: ID)
    ensures next != FIRST_PACKET_ID
    ensures next == Wire(id + 1)
  {
    var bumped := (id + 1) % LIMIT;
    if bumped == 0 then 1 else bumped
  }

  lemma NextIDFollowsWire(n: nat)
    ensures NextID(Wire(n)) == Wire(n + 1)
  {
    if n > 0 {
      assert n == (n - 1) / PERIOD * PERIOD + Wire(n);
      assert Wire(n) < PERIOD ==> n % PERIOD == Wire(n);
    }
  }

  function ModSubU(a: ID, b: ID, mod: nat): nat
    requires mod > 0
  {
    (a % mod + mod - b % mod) % mod
  }

  function PacketDistance(expectedID: ID, id: ID): int {
    var diff := ModSubU(id, expectedID, LIMIT);
    if diff < LIMIT / 2 then diff else diff - LIMIT
  }

  ghost predicate Near(m: int, n: int) {
    -REACH <= n - m <= REACH
  }

  lemma WireSplits(n: nat)
    ensures n > 0 ==> n == Lap(n) * PERIOD + Wire(n) && 1 <= Wire(n) <= PERIOD
    ensures n == 0 ==> Lap(n) == Wire(n) == 0
  {
  }

  lemma LapsOfNear(m: nat, n: nat)
    requires Near(m, n)
    ensures n - m == (Lap(n) - Lap(m)) * PERIOD + (Wire(n) - Wire(m))
    ensures -1 <= Lap(n) - Lap(m) <= 1
  {
    WireSplits(m);
    WireSplits(n);
  }

  /** The distance of two ids is the distance of their sequence numbers, plus one
      for every id 0 that was skipped between them. */
  lemma DistanceIsExact(m: nat, n: nat)
    requires Near(m, n)
    ensures PacketDistance(Wire(m), Wire(n)) == (n - m) + (Lap(n) - Lap(m))
  {
    LapsOfNear(m, n);
    var laps, d := Lap(n) - Lap(m), Wire(n) - Wire(m);
    assert ModSubU(Wire(n), Wire(m), LIMIT) == if d < 0 then d + LIMIT else d;
    assert laps == -1 || laps == 0 || laps == 1;
  }

  /** Comparing ids is comparing sequence numbers, also across the wrap. */
  lemma DistanceIsFaithful(m: nat, n: nat)
    requires Near(m, n)
    ensures PacketDistance(Wire(m), Wire(n)) == 0 <==> n == m
    ensures PacketDistance(Wire(m), Wire(n)) < 0 <==> n < m
    ensures PacketDistance(Wire(m), Wire(n)) > 0 <==> n > m
  {
    DistanceIsExact(m, n);
    if m <= n {
      assert Lap(m) <= Lap(n);
    } else {
      assert Lap(n) <= Lap(m);
    }
  }

  /** REACH cannot be raised: one step farther, a later packet looks earlier. */
  lemma ReachIsTight()
    ensures exists m: nat, n: nat ::
      n - m == REACH + 1 && PacketDistance(Wire(m), Wire(n)) < 0
  {
    var m, n := PERIOD, PERIOD + REACH + 1;
    assert Wire(m) == PERIOD && Wire(n) == REACH + 1;
    assert PacketDistance(Wire(m), Wire(n)) < 0;
  }

  /** Ids repeat exactly every PERIOD packets, and the id of packet 0 never. */
  lemma WireCollision(m: nat, n: nat)
    requires m <= n
    ensures Wire(m) == Wire(n) <==> m == n || (m > 0 && (n - m) % PERIOD == 0)
  {
    if m > 0 {
      assert m - 1 == Lap(m) * PERIOD + (Wire(m) - 1);
      assert n - 1 == Lap(n) * PERIOD + (Wire(n) - 1);
      var d := Wire(n) - Wire(m);
      assert n - m == (Lap(n) - Lap(m)) * PERIOD + d;
      if (n - m) % PERIOD == 0 {
        var k := (n - m) / PERIOD;
        assert (k - (Lap(n) - Lap(m))) * PERIOD == d;
        assert -PERIOD < d < PERIOD;
      }
    }
  }

  /** Fewer than PERIOD apart, equal ids mean equal sequence numbers. */
  lemma WireInjective(m: nat, n: nat)
    requires -PERIOD < n - m < PERIOD
    requires Wire(m) == Wire(n)
    ensures m == n
  {
    if m <= n { WireCollision(m, n); } else { WireCollision(n, m); }
  }
}
