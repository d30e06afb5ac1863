/**
 The string keys under which fragments wait: from, packet number and fragment number,
 with colons between. Names may contain colons; the keys are distinct all the same.
 */
module SplitKeys {

  function Digit(d: nat): char
    requires d < 10
  {
    ['0', '1', '2', '3', '4', '5', '6', '7', '8', '9'][d]
  }

  function Decimal(n: nat): (s: string)
    ensures s != [] && ':' !in s
  {
    if n < 10 then [Digit(n)] else Decimal(n / 10) + [Digit(n % 10)]
  }

  /** makeKey */
  function MakeKey(from: string, packetNum: nat, subpacketNum: nat): string {
    from + ":" + Decimal(packetNum) + ":" + Decimal(subpacketNum)
  }

  /** A number is written in decimal: its digits stand for it. */
  function ValueOf(s: string): int {
    if s == [] then 0 else 10 * ValueOf(s[..|s| - 1]) + (s[|s| - 1] as int - '0' as int)
  }

  lemma {:induction false} DecimalStandsFor(n: nat)
    ensures ValueOf(Decimal(n)) == n
    ensures n > 0 ==> Decimal(n)[0] != '0'
  {
    DigitsAreInOrder(n % 10);
    if n >= 10 {
      DecimalStandsFor(n / 10);
      assert Decimal(n)[..|Decimal(n)| - 1] == Decimal(n / 10);
    } else {
      assert [Digit(n)][..0] == [];
    }
  }

  lemma DigitsAreInOrder(d: nat)
    requires d < 10
    ensures Digit(d) as int == '0' as int + d
  {
  }

  lemma {:induction false} DecimalInjective(m: nat, n: nat)
    requires Decimal(m) == Decimal(n)
    ensures m == n
  {
    DecimalEnds(m);
    DecimalEnds(n);
    if m >= 10 && n >= 10 {
      DecimalInjective(m / 10, n / 10);
    }
  }

  lemma DecimalEnds(n: nat)
    ensures var s := Decimal(n);
            && (|s| == 1 <==> n < 10) && s[|s| - 1] == Digit(n % 10)
            && (n >= 10 ==> s[..|s| - 1] == Decimal(n / 10))
  {
  }

  /** What follows the last colon, and what stands before it, can be told apart. */
  lemma LastColon(a: string, c: string, b: string, d: string)
    requires ':' !in c && ':' !in d
    requires a + ":" + c == b + ":" + d
    ensures a == b && c == d
  {
    var s, t := a + ":" + c, b + ":" + d;
    assert s[|a|] == ':' && forall k | |a| < k < |s| :: s[k] == c[k - |a| - 1] != ':';
    assert t[|b|] == ':' && forall k | |b| < k < |t| :: t[k] == d[k - |b| - 1] != ':';
    assert a == s[..|a|] && b == t[..|b|] && c == s[|a| + 1..] && d == t[|b| + 1..];
  }

  lemma KeysAreDistinct(f: string, p: nat, i: nat, g: string, q: nat, j: nat)
    ensures MakeKey(f, p, i) == MakeKey(g, q, j) <==> f == g && p == q && i == j
  {
    if MakeKey(f, p, i) == MakeKey(g, q, j) {
      LastColon(f + ":" + Decimal(p), Decimal(i), g + ":" + Decimal(q), Decimal(j));
      LastColon(f, Decimal(p), g, Decimal(q));
      DecimalInjective(p, q);
      DecimalInjective(i, j);
    }
  }
}
