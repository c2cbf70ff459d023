/**
 * String helpers shared by the screens: prefix tests, the decimal rendering that
 * JavaScript's template literals give an integer, `padStart(2, "0")`, ASCII case
 * folding, and the "m:ss" rendering used by three screens.
 */
module Text {
  import opened Wrappers

  predicate StartsWith(s: string, prefix: string)
  {
    |prefix| <= |s| && s[..|prefix|] == prefix
  }

  predicate EndsWith(s: string, suffix: string)
  {
    |suffix| <= |s| && s[|s| - |suffix|..] == suffix
  }

  /** What is left of `s` once `prefix` is taken off its front
      (`s.replace(prefix, "")` when `s` starts with `prefix`). */
  function RemovePrefix(s: string, prefix: string): (r: string)
    requires StartsWith(s, prefix)
    ensures prefix + r == s
    ensures |r| == |s| - |prefix|
  {
    s[|prefix|..]
  }

  lemma PrefixRoundTrip(prefix: string, x: string)
    ensures StartsWith(prefix + x, prefix)
    ensures RemovePrefix(prefix + x, prefix) == x
  {
    assert (prefix + x)[..|prefix|] == prefix;
  }

  // ---------------------------------------------------------------- decimals

  predicate IsDigit(c: char)
  {
    '0' <= c <= '9'
  }

  predicate AllDigits(s: string)
  {
    forall i :: 0 <= i < |s| ==> IsDigit(s[i])
  }

  function DigitChar(d: nat): (c: char)
    requires d < 10
    ensures IsDigit(c) && c as int - '0' as int == d
  {
    ('0' as int + d) as char
  }

  function DigitValue(c: char): nat
    requires IsDigit(c)
  {
    c as int - '0' as int
  }

  /** The decimal digits of `n`, as `${n}` renders a non-negative integer. */
  function NatToString(n: nat): (r: string)
    ensures |r| >= 1 && AllDigits(r)
    ensures |r| > 1 ==> r[0] != '0'
    ensures n < 10 <==> |r| == 1
    decreases n
  {
    if n < 10 then [DigitChar(n)] else NatToString(n / 10) + [DigitChar(n % 10)]
  }

  /** `${i}` for any integer: a minus sign before the digits of a negative one. */
  function IntToString(i: int): (r: string)
    ensures i >= 0 ==> r == NatToString(i)
    ensures i < 0 ==> r == "-" + NatToString(-i)
  {
    if i < 0 then "-" + NatToString(-i) else NatToString(i)
  }

  /** The value of a string of decimal digits. */
  function ParseDigits(s: string): nat
    requires AllDigits(s)
  {
    if s == [] then 0 else 10 * ParseDigits(s[..|s| - 1]) + DigitValue(s[|s| - 1])
  }

  lemma {:induction false} ParseNatToString(n: nat)
    ensures ParseDigits(NatToString(n)) == n
    decreases n
  {
    if n >= 10 {
      var r := NatToString(n);
      assert r[..|r| - 1] == NatToString(n / 10);
      ParseNatToString(n / 10);
    }
  }

  /** NatToString is injective: different numbers never render alike. */
  lemma NatToStringInjective(m: nat, n: nat)
    requires NatToString(m) == NatToString(n)
    ensures m == n
  {
    ParseNatToString(m);
    ParseNatToString(n);
  }

  /** `s.padStart(2, "0")`: zeros in front until the string is two long. */
  function PadStart2(s: string): (r: string)
    ensures |r| == if |s| >= 2 then |s| else 2
    ensures EndsWith(r, s)
    ensures forall i :: 0 <= i < |r| - |s| ==> r[i] == '0'
  {
    if |s| >= 2 then s else if |s| == 1 then "0" + s else "00"
  }

  lemma {:induction false} TwoDigits(n: nat)
    requires n < 100
    ensures |PadStart2(NatToString(n))| == 2
    ensures AllDigits(PadStart2(NatToString(n)))
    ensures ParseDigits(PadStart2(NatToString(n))) == n
  {
    var d := NatToString(n);
    ParseNatToString(n);
    if n < 10 {
      var p := PadStart2(d);
      assert p == ['0', d[0]];
      assert p[..1] == ['0'];
      assert ParseDigits(p[..1]) == 0 by {
        assert p[..1][..0] == [];
      }
      assert d[..0] == [];
    } else {
      assert n / 10 < 10;
    }
  }

  // ---------------------------------------------------------------- JavaScript integer arithmetic

  /** JavaScript's `a % b` for b > 0: the remainder takes the sign of `a`. */
  function JsRem(a: int, b: int): (r: int)
    requires b > 0
    ensures a >= 0 ==> r == a % b
    ensures a < 0 ==> r == -((-a) % b)
    ensures -b < r < b
  {
    if a >= 0 then a % b else -((-a) % b)
  }

  /** Minutes, a colon and the seconds padded to two characters, with minutes rounded down and
      seconds taken by JavaScript's truncating remainder, for any integer number of seconds. */
  function MinutesSeconds(s: int): string
  {
    IntToString(s / 60) + ":" + PadStart2(IntToString(JsRem(s, 60)))
  }

  /** Reads back an "m:ss" string: minutes digits, a colon, two digits below 60. */
  function ParseMinutesSeconds(r: string): Option<nat>
  {
    if |r| < 4 || r[|r| - 3] != ':' then None
    else
      var m, ss := r[..|r| - 3], r[|r| - 2..];
      if AllDigits(m) && AllDigits(ss) && ParseDigits(ss) < 60
      then Some(60 * ParseDigits(m) + ParseDigits(ss))
      else None
  }

  lemma MinutesSecondsRoundTrip(s: nat)
    ensures ParseMinutesSeconds(MinutesSeconds(s)) == Some(s)
  {
    var m, ss := NatToString(s / 60), PadStart2(NatToString(s % 60));
    TwoDigits(s % 60);
    ParseNatToString(s / 60);
    var r := m + ":" + ss;
    assert JsRem(s, 60) == s % 60;
    assert IntToString(s / 60) == m && IntToString(s % 60) == NatToString(s % 60);
    assert MinutesSeconds(s) == r;
    assert r[..|r| - 3] == m;
    assert r[|r| - 2..] == ss;
  }

  // ---------------------------------------------------------------- ASCII case folding

  function LowerChar(c: char): char
  {
    if 'A' <= c <= 'Z' then (c as int - 'A' as int + 'a' as int) as char else c
  }

  /** ASCII lower-casing, the folding a `/i` regular expression applies to the letters it compares. */
  function ToLowerAscii(s: string): (r: string)
    ensures |r| == |s|
    ensures forall i :: 0 <= i < |s| ==> r[i] == LowerChar(s[i])
  {
    seq(|s|, i requires 0 <= i < |s| => LowerChar(s[i]))
  }
}
