/** Bytes, little-endian numbers and byte checksums, as the wire formats use them. */
module Bytes {

  type byte = x: int | 0 <= x < 0x100

  function Low(n: nat): byte { n % 0x100 }

  function LE16(n: nat): (s: seq<byte>)
    ensures |s| == 2
  {
    [Low(n), Low(n / 0x100)]
  }

  function LE32(n: nat): (s: seq<byte>)
    ensures |s| == 4
  {
    LE16(n % 0x1_0000) + LE16(n / 0x1_0000)
  }

  function From16(s: seq<byte>): (n: nat)
    requires |s| == 2
    ensures n < 0x1_0000
  {
    s[0] as int + 0x100 * s[1] as int
  }

  function From32(s: seq<byte>): (n: nat)
    requires |s| == 4
    ensures n < 0x1_0000_0000
  {
    From16(s[..2]) + 0x1_0000 * From16(s[2..])
  }

  lemma LowHalf(top: nat, low: nat, r: nat)
    requires low < 0x100 && r < 0x100
    ensures (0x1_0000 * top + (0x100 * low + r)) % 0x1_0000 == 0x100 * low + r
  {
  }

  lemma HalvesOf16(n: nat)
    ensures n % 0x1_0000 == n % 0x100 + 0x100 * (n / 0x100 % 0x100)
  {
    LowHalf(n / 0x100 / 0x100, n / 0x100 % 0x100, n % 0x100);
  }

  lemma FromLE16(n: nat)
    ensures From16(LE16(n)) == n % 0x1_0000
  {
    HalvesOf16(n);
  }

  lemma LE16From(s: seq<byte>)
    requires |s| == 2
    ensures LE16(From16(s)) == s
  {
    assert From16(s) / 0x100 == s[1];
  }

  lemma HalvesOf32(n: nat)
    ensures n % 0x1_0000_0000 == n % 0x1_0000 + 0x1_0000 * (n / 0x1_0000 % 0x1_0000)
  {
    var lo, hi := n % 0x1_0000, n / 0x1_0000;
    var top, low := hi / 0x1_0000, hi % 0x1_0000;
    assert n == 0x1_0000 * hi + lo && hi == 0x1_0000 * top + low;
    assert n == 0x1_0000_0000 * top + (0x1_0000 * low + lo);
  }

  lemma FromLE32(n: nat)
    ensures From32(LE32(n)) == n % 0x1_0000_0000
  {
    FromLE16(n % 0x1_0000);
    FromLE16(n / 0x1_0000);
    HalvesOf32(n);
    assert LE32(n)[..2] == LE16(n % 0x1_0000) && LE32(n)[2..] == LE16(n / 0x1_0000);
  }

  lemma LE32From(s: seq<byte>)
    requires |s| == 4
    ensures LE32(From32(s)) == s
  {
    var lo, hi := From16(s[..2]), From16(s[2..]);
    LE16From(s[..2]);
    LE16From(s[2..]);
    assert From32(s) % 0x1_0000 == lo && From32(s) / 0x1_0000 == hi;
  }

  function Sum(s: seq<byte>): nat {
    if s == [] then 0 else Sum(s[..|s| - 1]) + s[|s| - 1]
  }

  function Checksum(s: seq<byte>): byte {
    Sum(s) % 0x100
  }

  lemma {:induction false} SumConcat(a: seq<byte>, b: seq<byte>)
    ensures Sum(a + b) == Sum(a) + Sum(b)
  {
    if b == [] {
      assert a + b == a;
    } else {
      SumConcat(a, b[..|b| - 1]);
      assert (a + b)[..|a + b| - 1] == a + b[..|b| - 1];
    }
  }

  /** The checksum is the sum of the bytes modulo 256: it is that of a single byte, and it
      adds up. */
  lemma ChecksumAdds(a: seq<byte>, b: byte)
    ensures Checksum([]) == 0 && Checksum(a + [b]) == (Checksum(a) + b) % 0x100
  {
    SumConcat(a, [b]);
    assert Sum([b]) == b;
  }

  /** Numbers are sent with the low byte first. */
  lemma LittleEndian(n: nat)
    ensures n < 0x1_0000 ==> LE16(n)[0] as int + 0x100 * LE16(n)[1] as int == n
    ensures n < 0x1_0000_0000 ==>
              LE32(n)[0] as int + 0x100 * LE32(n)[1] as int
              + 0x1_0000 * LE32(n)[2] as int + 0x100_0000 * LE32(n)[3] as int == n
  {
    FromLE16(n);
    FromLE16(n % 0x1_0000);
    FromLE16(n / 0x1_0000);
  }

  /** Changing one byte changes the sum by the difference. */
  lemma {:induction false} SumUpdate(s: seq<byte>, k: nat, b: byte)
    requires k < |s|
    ensures Sum(s[k := b]) == Sum(s) - s[k] + b
  {
    var s', last := s[k := b], |s| - 1;
    if k == last {
      assert s'[..last] == s[..last];
    } else {
      assert s'[..last] == s[..last][k := b];
      SumUpdate(s[..last], k, b);
    }
  }

  /** So the checksum notices every change of a single byte. */
  lemma ChecksumNotices(s: seq<byte>, k: nat, b: byte)
    requires k < |s| && b != s[k]
    ensures Checksum(s[k := b]) != Checksum(s)
  {
    SumUpdate(s, k, b);
  }

  /** The checksum loops of the C code: an 8-bit accumulator that wraps. */
  method ByteChecksum(data: array<byte>, from: nat, to: nat) returns (checksum: byte)
    requires from <= to <= data.Length
    ensures checksum == Checksum(data[from..to])
  {
    checksum := 0;
    for i := from to to
      invariant checksum == Checksum(data[from..i])
    {
      assert data[from..i + 1][..i - from] == data[from..i];
      checksum := (checksum + data[i]) % 0x100;
    }
  }

  /** memcpy */
  method Copy(dst: array<byte>, at: nat, src: seq<byte>)
    requires at + |src| <= dst.Length
    modifies dst
    ensures dst[..] == old(dst[..at]) + src + old(dst[at + |src|..])
    ensures forall i | 0 <= i < dst.Length ::
      dst[i] == if at <= i < at + |src| then src[i - at] else old(dst[i])
  {
    forall i | 0 <= i < |src| {
      dst[at + i] := src[i];
    }
  }
}
