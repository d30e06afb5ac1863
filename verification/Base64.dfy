/**
 The base64 coder: groups of three bytes become four characters of the alphabet, the
 last group padded with '='.
 */
module Base64 {
  import opened Bytes

  const PAD: byte := 61        // '='

  // ---------------------------------------------------------- the alphabet

  type Sextet = x: int | 0 <= x < 64

  /** encoding_table */
  function Letter(i: Sextet): (c: byte)
    ensures c != PAD && 0 < c < 128
  {
    if i < 26 then 65 + i            // A-Z
    else if i < 52 then 97 + i - 26  // a-z
    else if i < 62 then 48 + i - 52  // 0-9
    else if i == 62 then 43          // +
    else 47                          // /
  }

  // A char in memory, signed or not
  type Cell = x: int | -128 <= x < 256

  // decoding_table: what it holds for bytes outside the alphabet is whatever the memory
  // it was put in held before; and bytes from 128 on may even look in front of it.
  type Garbage = byte -> Cell

  function Index(c: byte, garbage: Garbage): Cell {
    if 65 <= c <= 90 then c - 65
    else if 97 <= c <= 122 then c - 97 + 26
    else if 48 <= c <= 57 then c - 48 + 52
    else if c == 43 then 62
    else if c == 47 then 63
    else garbage(c)
  }

  lemma IndexOfLetter(i: Sextet, garbage: Garbage)
    ensures Index(Letter(i), garbage) == i
  {
  }

  // -------------------------------------------------------------- one group

  function Triple(a: int, b: int, c: int): int {
    a * 0x1_0000 + b * 0x100 + c
  }

  function Sextets(triple: int): (s: seq<Sextet>)
    requires 0 <= triple < 0x100_0000
    ensures |s| == 4
  {
    [triple / 0x4_0000, triple / 0x1000 % 64, triple / 64 % 64, triple % 64]
  }

  /** In 32 bits, as the cells are widened */
  function TripleOf(a: Cell, b: Cell, c: Cell, d: Cell): (t: int)
    ensures 0 <= t < 0x1_0000_0000
  {
    (a * 0x4_0000 + b * 0x1000 + c * 64 + d) % 0x1_0000_0000
  }

  function Octets(triple: int): (s: seq<byte>)
    requires 0 <= triple < 0x1_0000_0000
    ensures |s| == 3
  {
    [triple / 0x1_0000 % 0x100, triple / 0x100 % 0x100, triple % 0x100]
  }

  lemma TripleSplits(t: int)
    requires 0 <= t < 0x100_0000
    ensures var s := Sextets(t); TripleOf(s[0], s[1], s[2], s[3]) == t
  {
    assert t == 64 * (t / 64) + t % 64;
    assert t / 64 == 64 * (t / 0x1000) + t / 64 % 64;
    assert t / 0x1000 == 64 * (t / 0x4_0000) + t / 0x1000 % 64;
  }

  lemma OctetsOfTriple(a: byte, b: byte, c: byte)
    ensures 0 <= Triple(a, b, c) < 0x100_0000
    ensures Octets(Triple(a, b, c)) == [a, b, c]
  {
    var high := a * 0x100 + b;
    assert Triple(a, b, c) == high * 0x100 + c == a * 0x1_0000 + (b * 0x100 + c);
    assert (high * 0x100 + c) / 0x100 == high && (high * 0x100 + c) % 0x100 == c;
    assert (a * 0x1_0000 + (b * 0x100 + c)) / 0x1_0000 == a && a % 0x100 == a;
    assert high % 0x100 == b;
  }

  // --------------------------------------------------------------- encoding

  /** The four characters of a group of three bytes. */
  function Four(a: byte, b: byte, c: byte): (s: seq<byte>)
    ensures |s| == 4
  {
    OctetsOfTriple(a, b, c);
    var x := Sextets(Triple(a, b, c));
    [Letter(x[0]), Letter(x[1]), Letter(x[2]), Letter(x[3])]
  }

  /** The characters of g whole groups. */
  function Full(data: seq<byte>, g: nat): (s: seq<byte>)
    requires |data| == 3 * g
    ensures |s| == 4 * g
  {
    if g == 0 then []
    else Full(data[..3 * g - 3], g - 1) + Four(data[3 * g - 3], data[3 * g - 2], data[3 * g - 1])
  }

  /** The last, incomplete group: missing bytes count as zero. */
  function Unpadded(rest: seq<byte>): (s: seq<byte>)
    requires |rest| < 3
    ensures |s| == if rest == [] then 0 else 4
  {
    if rest == [] then []
    else Four(rest[0], if |rest| > 1 then rest[1] else 0, 0)
  }

  /** mod_table */
  function PadLength(n: nat): nat {
    if n % 3 == 0 then 0 else 3 - n % 3
  }

  function Padded(rest: seq<byte>): (s: seq<byte>)
    requires |rest| < 3
    ensures |s| == if rest == [] then 0 else 4
  {
    var raw := Unpadded(rest);
    raw[..|raw| - PadLength(|rest|)] + seq(PadLength(|rest|), _ => PAD)
  }

  function Raw(data: seq<byte>): seq<byte> {
    var g := |data| / 3;
    Full(data[..3 * g], g) + Unpadded(data[3 * g..])
  }

  function Encoded(data: seq<byte>): seq<byte> {
    var g := |data| / 3;
    Full(data[..3 * g], g) + Padded(data[3 * g..])
  }

  // --------------------------------------------------------------- decoding

  function Value(c: byte, garbage: Garbage): Cell {
    if c == PAD then 0 else Index(c, garbage)
  }

  function DecodeFour(a: byte, b: byte, c: byte, d: byte, garbage: Garbage): (s: seq<byte>)
    ensures |s| == 3
  {
    Octets(TripleOf(Value(a, garbage), Value(b, garbage), Value(c, garbage), Value(d, garbage)))
  }

  /** The bytes of g groups of characters. */
  function DecodeAll(s: seq<byte>, g: nat, garbage: Garbage): (data: seq<byte>)
    requires |s| == 4 * g
    ensures |data| == 3 * g
  {
    if g == 0 then []
    else DecodeAll(s[..4 * g - 4], g - 1, garbage)
         + DecodeFour(s[4 * g - 4], s[4 * g - 3], s[4 * g - 2], s[4 * g - 1], garbage)
  }

  function OutputLength(s: seq<byte>, g: nat): (n: nat)
    requires g > 0 && |s| == 4 * g
    ensures n <= 3 * g
  {
    3 * g - (if s[|s| - 1] == PAD then 1 else 0) - (if s[|s| - 2] == PAD then 1 else 0)
  }

  function Decoded(s: seq<byte>, garbage: Garbage): seq<byte>
    requires s != [] && |s| % 4 == 0
  {
    DecodeAll(s, |s| / 4, garbage)[..OutputLength(s, |s| / 4)]
  }

  // -------------------------------------------------------------- round trip

  /** The letters of section 4 of RFC 4648, in their order. */
  lemma AlphabetIsStandard(i: Sextet)
    ensures i < 26 ==> Letter(i) == 'A' as int + i
    ensures 26 <= i < 52 ==> Letter(i) == 'a' as int + (i - 26)
    ensures 52 <= i < 62 ==> Letter(i) == '0' as int + (i - 52)
    ensures Letter(62) == '+' as int && Letter(63) == '/' as int && PAD == '=' as int
  {
  }

  /** Which bits of a group go into which letter */
  lemma FourLetters(a: byte, b: byte, c: byte)
    ensures Four(a, b, c) == [Letter(a / 4), Letter(a % 4 * 16 + b / 16), Letter(b % 16 * 4 + c / 64), Letter(c % 64)]
  {
    hide Letter;
    OctetsOfTriple(a, b, c);
    var t := Triple(a, b, c);
    assert a == 4 * (a / 4) + a % 4 && b == 16 * (b / 16) + b % 16 && c == 64 * (c / 64) + c % 64;
    var s0, s1, s2, s3 := a / 4, a % 4 * 16 + b / 16, b % 16 * 4 + c / 64, c % 64;
    assert t == 64 * (64 * (64 * s0 + s1) + s2) + s3;
    SextetsAre(t, s0, s1, s2, s3);
  }

  lemma SextetsAre(t: int, a: Sextet, b: Sextet, c: Sextet, d: Sextet)
    requires 0 <= t < 0x100_0000 && t == 64 * (64 * (64 * a + b) + c) + d
    ensures Sextets(t) == [a, b, c, d]
  {
    assert t / 64 == 64 * (64 * a + b) + c && t % 64 == d;
    assert t / 0x1000 == 64 * a + b;
    assert t / 0x4_0000 == a;
  }

  lemma DecodeUndoesFour(a: byte, b: byte, c: byte, garbage: Garbage)
    ensures var s := Four(a, b, c); DecodeFour(s[0], s[1], s[2], s[3], garbage) == [a, b, c]
  {
    OctetsOfTriple(a, b, c);
    var x := Sextets(Triple(a, b, c));
    IndexOfLetter(x[0], garbage);
    IndexOfLetter(x[1], garbage);
    IndexOfLetter(x[2], garbage);
    IndexOfLetter(x[3], garbage);
    TripleSplits(Triple(a, b, c));
  }

  lemma DecodeAppend(s: seq<byte>, g: nat, four: seq<byte>, garbage: Garbage)
    requires |s| == 4 * g && |four| == 4
    ensures DecodeAll(s + four, g + 1, garbage)
            == DecodeAll(s, g, garbage) + DecodeFour(four[0], four[1], four[2], four[3], garbage)
  {
    hide DecodeFour;
    assert (s + four)[..4 * g] == s;
  }

  lemma FullStep(data: seq<byte>, g: nat)
    requires |data| == 3 * g && g > 0
    ensures Full(data, g) == Full(data[..3 * g - 3], g - 1)
                             + Four(data[3 * g - 3], data[3 * g - 2], data[3 * g - 1])
    ensures data == data[..3 * g - 3] + [data[3 * g - 3], data[3 * g - 2], data[3 * g - 1]]
  {
    hide Four;
  }

  lemma DecodeOneMore(s: seq<byte>, g: nat, a: byte, b: byte, c: byte, garbage: Garbage)
    requires |s| == 4 * g
    ensures DecodeAll(s + Four(a, b, c), g + 1, garbage) == DecodeAll(s, g, garbage) + [a, b, c]
  {
    hide Four, DecodeFour, DecodeAll;
    DecodeAppend(s, g, Four(a, b, c), garbage);
    DecodeUndoesFour(a, b, c, garbage);
  }

  lemma {:induction false} DecodeUndoesFull(data: seq<byte>, g: nat, garbage: Garbage)
    requires |data| == 3 * g
    ensures DecodeAll(Full(data, g), g, garbage) == data
  {
    if g == 0 {
    } else {
      hide Four, Full, DecodeAll;
      var h, front := g - 1, data[..3 * g - 3];
      var a, b, c := data[3 * h], data[3 * h + 1], data[3 * h + 2];
      FullStep(data, g);
      DecodeUndoesFull(front, h, garbage);
      DecodeOneMore(Full(front, h), h, a, b, c, garbage);
      assert DecodeAll(Full(data, g), g, garbage) == front + [a, b, c];
    }
  }

  /** The padding stands for the zero sextets it replaces. */
  lemma DecodeUndoesPadded(rest: seq<byte>, garbage: Garbage)
    requires 0 < |rest| < 3
    ensures var s := Padded(rest);
            && DecodeFour(s[0], s[1], s[2], s[3], garbage)[..|rest|] == rest
            && s[3] == PAD && (s[2] == PAD <==> |rest| == 1)
  {
    hide Octets, TripleOf, Sextets, Letter, Index;
    var a, b := rest[0], if |rest| > 1 then rest[1] else 0;
    OctetsOfTriple(a, b, 0);
    var x := Sextets(Triple(a, b, 0));
    TailSextets(a, b);
    IndexOfLetter(x[0], garbage);
    IndexOfLetter(x[1], garbage);
    IndexOfLetter(x[2], garbage);
    TripleSplits(Triple(a, b, 0));
  }

  lemma TailSextets(a: byte, b: byte)
    ensures 0 <= Triple(a, b, 0) < 0x100_0000
    ensures Sextets(Triple(a, b, 0))[3] == 0 && (b == 0 ==> Sextets(Triple(a, b, 0))[2] == 0)
  {
    var t := Triple(a, b, 0);
    assert t == 64 * (a * 0x400 + b * 4);
    assert t / 64 == a * 0x400 + b * 4;
    assert b == 0 ==> t / 64 == 64 * (a * 16);
  }

  lemma EndsUnpadded(data: seq<byte>, g: nat)
    requires |data| == 3 * g && g > 0
    ensures var s := Full(data, g); s[|s| - 1] != PAD && s[|s| - 2] != PAD
  {
  }

  /** Decoding undoes encoding, for every non-empty byte string. */
  lemma DecodeUndoesEncode(data: seq<byte>, garbage: Garbage)
    requires data != []
    ensures |Encoded(data)| == 4 * ((|data| + 2) / 3)
    ensures Encoded(data) != [] && |Encoded(data)| % 4 == 0 && Decoded(Encoded(data), garbage) == data
  {
    hide Four, Full, DecodeFour, DecodeAll, Padded;
    var g := |data| / 3;
    var full, rest := data[..3 * g], data[3 * g..];
    assert data == full + rest;
    DecodeUndoesFull(full, g, garbage);
    if rest == [] {
      EndsUnpadded(full, g);
      assert Encoded(data) == Full(full, g) && |Encoded(data)| / 4 == g;
      assert OutputLength(Encoded(data), g) == 3 * g;
    } else {
      DecodeUndoesPadded(rest, garbage);
      DecodeAppend(Full(full, g), g, Padded(rest), garbage);
    }
  }

  ghost predicate InAlphabet(c: byte) {
    exists i: Sextet :: Letter(i) == c
  }

  lemma {:induction false} FullInAlphabet(data: seq<byte>, g: nat)
    requires |data| == 3 * g
    ensures forall k | 0 <= k < 4 * g :: InAlphabet(Full(data, g)[k])
  {
    if g > 0 { FullInAlphabet(data[..3 * g - 3], g - 1); }
  }

  lemma PaddedInAlphabet(rest: seq<byte>)
    requires |rest| < 3
    ensures var s, pad := Padded(rest), PadLength(|rest|);
            && pad <= |s|
            && (forall k | 0 <= k < |s| - pad :: InAlphabet(s[k]))
            && (forall k | |s| - pad <= k < |s| :: s[k] == PAD)
  {
  }

  /** The characters are of the alphabet, and padding stands only at the end: two, one or
      none, as the length asks. */
  lemma PaddingStandsAtTheEnd(data: seq<byte>)
    ensures var s, pad := Encoded(data), PadLength(|data|);
            && pad <= 2 && pad <= |s|
            && (forall k | 0 <= k < |s| - pad :: InAlphabet(s[k]))
            && (forall k | |s| - pad <= k < |s| :: s[k] == PAD)
  {
    hide Full, Padded;
    var g := |data| / 3;
    FullInAlphabet(data[..3 * g], g);
    PaddedInAlphabet(data[3 * g..]);
    assert PadLength(|data[3 * g..]|) == PadLength(|data|);
  }

  // ------------------------------------------------------- the C functions

  /** ksn_base64_encode; the terminating zero byte is not part of the output length. */
  method Encode(data: seq<byte>) returns (encoded: array<byte>, outputLength: nat)
    ensures outputLength == 4 * ((|data| + 2) / 3) && encoded.Length == outputLength + 1
    ensures encoded[..outputLength] == Encoded(data) && encoded[outputLength] == 0
  {
    hide Four, Raw, Encoded, PadLength;
    RawEnds(data);
    outputLength := 4 * ((|data| + 2) / 3);
    encoded := new byte[outputLength + 1](_ => 0);
    var i, j := 0, 0;
    ghost var g := 0;
    while i < |data|
      invariant i <= |data| && i <= 3 * g < i + 3 && (i < |data| ==> i == 3 * g)
      invariant j == 4 * g <= outputLength
      invariant encoded[..j] == Raw(data[..i]) && encoded[outputLength] == 0
      decreases |data| - i
    {
      ghost var i0 := i;
      var a := data[i];
      i := i + 1;
      var b := if i < |data| then data[i] else 0;
      i := if i < |data| then i + 1 else i;
      var c := if i < |data| then data[i] else 0;
      i := if i < |data| then i + 1 else i;
      RawStep(data, g, i);
      Copy(encoded, j, Four(a, b, c));
      j := j + 4;
      g := g + 1;
    }
    assert data[..i] == data;
    PutPadding(encoded, outputLength, PadLength(|data|));
  }

  /** The loop that overwrites the end with padding. */
  method PutPadding(encoded: array<byte>, outputLength: nat, pad: nat)
    requires pad <= outputLength == encoded.Length - 1
    modifies encoded
    ensures encoded[..outputLength] == old(encoded[..outputLength - pad]) + seq(pad, _ => PAD)
    ensures encoded[outputLength] == old(encoded[outputLength])
  {
    for k := 0 to pad
      invariant encoded[..outputLength] == old(encoded[..outputLength - k]) + seq(k, _ => PAD)
      invariant encoded[outputLength] == old(encoded[outputLength])
    {
      encoded[outputLength - 1 - k] := PAD;
    }
  }

  lemma RawEnds(data: seq<byte>)
    ensures data[..0] == [] && Raw([]) == [] && |Raw(data)| == 4 * ((|data| + 2) / 3)
    ensures PadLength(|data|) <= |Raw(data)|
    ensures Encoded(data) == Raw(data)[..|Raw(data)| - PadLength(|data|)] + seq(PadLength(|data|), _ => PAD)
  {
    hide Four, Full;
    var rest := data[|data| / 3 * 3..];
    assert PadLength(|rest|) == PadLength(|data|);
  }

  lemma RawStep(data: seq<byte>, g: nat, i: nat)
    requires 3 * g < |data| && i == if 3 * g + 3 <= |data| then 3 * g + 3 else |data|
    ensures var b := if 3 * g + 1 < |data| then data[3 * g + 1] else 0;
            var c := if 3 * g + 2 < |data| then data[3 * g + 2] else 0;
            Raw(data[..i]) == Raw(data[..3 * g]) + Four(data[3 * g], b, c)
  {
    hide Four, Full, Unpadded;
    var before, after := data[..3 * g], data[..i];
    RawOfWhole(before, g);
    if i == 3 * g + 3 {
      RawOfWhole(after, g + 1);
      FullStep(after, g + 1);
      assert after[..3 * g] == before;
    } else {
      RawOfRest(data, g, i);
    }
  }

  lemma RawOfWhole(data: seq<byte>, g: nat)
    requires |data| == 3 * g
    ensures Raw(data) == Full(data, g)
  {
    hide Full;
    assert |data| / 3 == g && data[..3 * g] == data;
  }

  lemma RawOfRest(data: seq<byte>, g: nat, i: nat)
    requires i == |data| && 3 * g < i < 3 * g + 3
    ensures data[..i] == data
    ensures var b := if 3 * g + 1 < |data| then data[3 * g + 1] else 0;
            Raw(data) == Full(data[..3 * g], g) + Four(data[3 * g], b, 0)
  {
    hide Full, Four;
    assert |data| / 3 == g;
  }

  datatype Output = Null | Bytes(data: seq<byte>)

  function Min(a: nat, b: nat): nat { if a <= b then a else b }

  /** ksn_base64_decode. It looks at the two last characters, of an empty string at the two
      in front of it; if one of them looks like padding, the length wraps around, and
      there is no memory of that size. */
  method Decode(s: seq<byte>, garbage: Garbage, inFront: (byte, byte)) returns (r: Output)
    ensures r == if |s| % 4 != 0 then Null
                 else if s != [] then Bytes(Decoded(s, garbage))
                 else if inFront.0 == PAD || inFront.1 == PAD then Null
                 else Bytes([])
  {
    if |s| % 4 != 0 {
      return Null;
    }
    hide DecodeFour, DecodeAll;
    var last, secondLast := inFront.1, inFront.0;
    if |s| > 0 {
      last, secondLast := s[|s| - 1], s[|s| - 2];
    }
    var outputLength := |s| / 4 * 3;
    if last == PAD {
      outputLength := outputLength - 1;
    }
    if secondLast == PAD {
      outputLength := outputLength - 1;
    }
    if outputLength < 0 {
      return Null;
    }
    var decoded := new byte[outputLength](_ => 0);
    DecodeGroups(s, |s| / 4, garbage, decoded);
    r := Bytes(decoded[..]);
  }

  /** The loop over the groups; it stores no more than there is room for. */
  method DecodeGroups(s: seq<byte>, ghost groups: nat, garbage: Garbage, decoded: array<byte>)
    requires |s| == 4 * groups && decoded.Length <= 3 * groups
    modifies decoded
    ensures decoded[..] == DecodeAll(s, groups, garbage)[..decoded.Length]
  {
    hide DecodeFour;
    var i, j := 0, 0;
    ghost var g := 0;
    while i < |s|
      invariant i == 4 * g <= |s| && j == Min(3 * g, decoded.Length)
      invariant decoded[..j] == DecodeAll(s[..i], g, garbage)[..j]
      decreases |s| - i
    {
      var octets := DecodeFour(s[i], s[i + 1], s[i + 2], s[i + 3], garbage);
      DecodeStep(s, g, garbage);
      j := PutOctets(decoded, j, octets, 3 * g, DecodeAll(s[..i], g, garbage));
      i := i + 4;
      g := g + 1;
    }
    assert s[..i] == s;
  }

  lemma DecodeStep(s: seq<byte>, g: nat, garbage: Garbage)
    requires 4 * g + 4 <= |s|
    ensures DecodeAll(s[..4 * g + 4], g + 1, garbage)
            == DecodeAll(s[..4 * g], g, garbage)
               + DecodeFour(s[4 * g], s[4 * g + 1], s[4 * g + 2], s[4 * g + 3], garbage)
  {
    hide DecodeAll, DecodeFour;
    assert s[..4 * g] + s[4 * g..4 * g + 4] == s[..4 * g + 4];
    DecodeAppend(s[..4 * g], g, s[4 * g..4 * g + 4], garbage);
  }

  /** The three conditional stores at the end of a round. */
  method PutOctets(decoded: array<byte>, at: nat, octets: seq<byte>, ghost before: nat, ghost done: seq<byte>)
    returns (j: nat)
    requires |octets| == 3 && |done| == before
    requires at == Min(before, decoded.Length) && decoded[..at] == done[..at]
    modifies decoded
    ensures j == Min(before + 3, decoded.Length) && decoded[..j] == (done + octets)[..j]
  {
    j := at;
    for k := 0 to 3
      invariant j == Min(before + k, decoded.Length)
      invariant decoded[..j] == (done + octets)[..j]
    {
      if j < decoded.Length {
        decoded[j] := octets[k];
        j := j + 1;
      }
    }
  }
}
