/** The text primitives the debug renderers rely on: decimal rendering of
    indices (`{}` of a `usize`), `{:?}` of a list of indices, `join`,
    substring search (`str::contains`) and single-character replacement. */
module Text {

  function DigitChar(d: nat): (c: char)
    requires d < 10
    ensures '0' <= c <= '9' && (c as int) - ('0' as int) == d
  {
    ('0' as int + d) as char
  }

  predicate AllDigits(s: string)
  {
    forall k :: 0 <= k < |s| ==> '0' <= s[k] <= '9'
  }

  /** Decimal rendering of a natural number, most significant digit first. */
  function NatText(n: nat): (r: string)
    ensures r != [] && AllDigits(r)
    ensures n < 10 <==> |r| == 1
  {
    if n < 10 then [DigitChar(n)] else NatText(n / 10) + [DigitChar(n % 10)]
  }

  /** The value a string of decimal digits denotes. */
  function DecimalValue(s: string): nat
    requires AllDigits(s)
  {
    if s == [] then 0
    else DecimalValue(s[..|s| - 1]) * 10 + ((s[|s| - 1] as int) - ('0' as int))
  }

  /** Reading back a rendered index gives the index: the rendering loses nothing. */
  lemma {:induction false} DecimalValueOfNatText(n: nat)
    ensures DecimalValue(NatText(n)) == n
  {
    var r := NatText(n);
    if n >= 10 {
      DecimalValueOfNatText(n / 10);
      assert r[..|r| - 1] == NatText(n / 10);
    }
  }

  /** Two different indices never render alike. */
  lemma NatTextInjective(m: nat, n: nat)
    ensures NatText(m) == NatText(n) <==> m == n
  {
    DecimalValueOfNatText(m);
    DecimalValueOfNatText(n);
  }

  /** Where the pieces of `p + a + r` sit. */
  lemma ConcatAt(p: string, a: string, r: string)
    requires r != []
    ensures (p + a + r)[|p| + |a|] == r[0]
    ensures forall k :: 0 <= k < |a| ==> (p + a + r)[|p| + k] == a[k]
  {
  }

  /** A run of digits followed by a non-digit is read off unambiguously: two equal
      texts that share the prefix `p` and continue with digits up to a non-digit
      carry the same digits. */
  lemma DigitsTokenUnique(p: string, a: string, r1: string, b: string, r2: string)
    requires AllDigits(a) && AllDigits(b)
    requires r1 != [] && !('0' <= r1[0] <= '9') && r2 != [] && !('0' <= r2[0] <= '9')
    requires p + a + r1 == p + b + r2
    ensures a == b
  {
    ConcatAt(p, a, r1);
    ConcatAt(p, b, r2);
  }

  /** `parts.join(sep)`. */
  function Join(parts: seq<string>, sep: string): string
  {
    if parts == [] then ""
    else if |parts| == 1 then parts[0]
    else parts[0] + sep + Join(parts[1..], sep)
  }

  /** `{:?}` of a list of indices: `[0, 1, 2]`. */
  function DebugList(xs: seq<nat>): string
  {
    "[" + Join(seq(|xs|, k requires 0 <= k < |xs| => NatText(xs[k])), ", ") + "]"
  }

  /** `s.contains(pat)`: `pat` occurs somewhere in `s` (the empty pattern always does). */
  predicate ContainsText(s: string, pat: string)
    decreases |s|
  {
    pat <= s || (s != [] && ContainsText(s[1..], pat))
  }

  /** `s.replace(from, to)` for single characters. */
  function ReplaceChar(s: string, from: char, to: char): (r: string)
    ensures |r| == |s|
    ensures forall k :: 0 <= k < |s| ==> r[k] == (if s[k] == from then to else s[k])
    ensures from != to ==> from !in r
  {
    seq(|s|, k requires 0 <= k < |s| => if s[k] == from then to else s[k])
  }

  lemma PrefixExtends(a: string, b: string, c: string)
    requires a <= b
    ensures a <= b + c
  {
    assert (b + c)[..|a|] == b[..|a|];
  }

  lemma PrefixPrepend(h: string, a: string, b: string)
    requires a <= b
    ensures h + a <= h + b
  {
    assert (h + b)[..|h + a|] == h + a;
  }

  lemma EmptyConcat(s: string)
    ensures "" + s == s
  {
  }

  lemma AppendEmpty(s: string)
    ensures s + "" == s
  {
  }

  lemma Assoc(a: string, b: string, c: string)
    ensures a + b + c == a + (b + c)
  {
  }

  lemma AppendAssoc(a: string, b: string, c: string, d: string)
    ensures a + b + c + d == a + (b + c + d)
  {
  }

  lemma AppendAssoc5(x: string, a: string, b: string, c: string, d: string, e: string)
    ensures x + a + b + c + d + e == x + (a + b + c + d + e)
  {
    AppendAssoc(x, a, b, c);
    AppendAssoc(x, a + b + c, d, e);
  }
}
