/** Text helpers shared by the record renderings, the URL validator and the
    default orderings: decimal rendering of integers (what an f-string does
    with an int), substring containment (Python's `in` on str) and the
    code-point lexicographic order used to compare names. */
module Strings {

  /** The decimal digit character for `d`. */
  function DigitChar(d: nat): (c: char)
    requires d < 10
    ensures '0' <= c <= '9'
  {
    (('0' as int) + d) as char
  }

  /** The value of a decimal digit character. */
  function DigitValue(c: char): (d: nat)
    requires '0' <= c <= '9'
    ensures d < 10
  {
    (c as int) - ('0' as int)
  }

  predicate AllDigits(s: string)
  {
    forall i :: 0 <= i < |s| ==> '0' <= s[i] <= '9'
  }

  /** Renders a non-negative integer the way Python's `str(int)` does:
      at least one digit, nothing but digits, no leading zero. */
  function NatToString(n: nat): (s: string)
    ensures |s| >= 1 && AllDigits(s)
    ensures s[0] == '0' ==> n == 0 && |s| == 1
    decreases n
  {
    if n < 10 then [DigitChar(n)]
    else NatToString(n / 10) + [DigitChar(n % 10)]
  }

  /** Reads a string of digits back as the number it denotes. */
  function ParseDigits(s: string): (n: nat)
    requires AllDigits(s)
    decreases |s|
  {
    if |s| == 0 then 0
    else ParseDigits(s[..|s| - 1]) * 10 + DigitValue(s[|s| - 1])
  }

  /** The rendering loses nothing: the amount can be read back from it. */
  lemma {:induction false} ParseNatToString(n: nat)
    ensures ParseDigits(NatToString(n)) == n
    decreases n
  {
    var s := NatToString(n);
    if n < 10 {
      assert s[..0] == [];
    } else {
      var prefix := NatToString(n / 10);
      assert s[..|s| - 1] == prefix;
      ParseNatToString(n / 10);
    }
  }

  /** Distinct amounts render differently. */
  lemma NatToStringInjective(m: nat, n: nat)
    requires NatToString(m) == NatToString(n)
    ensures m == n
  {
    ParseNatToString(m);
    ParseNatToString(n);
  }

  /** `pat` occurs in `text` starting at index `i`. */
  predicate OccursAt(text: string, pat: string, i: nat)
  {
    i + |pat| <= |text| && text[i..i + |pat|] == pat
  }

  /** Python's `pat in text` for strings: a contiguous occurrence anywhere,
      tried at each starting position in turn. */
  predicate Contains(text: string, pat: string)
    decreases |text|
  {
    pat <= text || (|text| > 0 && Contains(text[1..], pat))
  }

  /** The scan agrees with the definition "some position holds an occurrence",
      in both directions. */
  lemma {:induction false} ContainsIff(text: string, pat: string)
    ensures Contains(text, pat) <==> exists i: nat :: OccursAt(text, pat, i)
    decreases |text|
  {
    if pat <= text {
      assert text[0..|pat|] == pat;
      assert OccursAt(text, pat, 0);
    }
    if |text| > 0 {
      var rest := text[1..];
      ContainsIff(rest, pat);
      if Contains(rest, pat) {
        var j: nat :| OccursAt(rest, pat, j);
        assert text[j + 1..j + 1 + |pat|] == rest[j..j + |pat|];
        assert OccursAt(text, pat, j + 1);
      }
    }
    if exists i: nat :: OccursAt(text, pat, i) {
      var i: nat :| OccursAt(text, pat, i);
      if i == 0 {
        assert pat <= text;
      } else {
        var rest := text[1..];
        assert rest[i - 1..i - 1 + |pat|] == text[i..i + |pat|];
        assert OccursAt(rest, pat, i - 1);
      }
    }
  }

  /** An occurrence survives any text placed before and after it. */
  lemma ContainsExtended(prefix: string, text: string, suffix: string, pat: string)
    requires Contains(text, pat)
    ensures Contains(prefix + text + suffix, pat)
  {
    ContainsIff(text, pat);
    var i: nat :| OccursAt(text, pat, i);
    var whole := prefix + text + suffix;
    assert whole[|prefix| + i..|prefix| + i + |pat|] == text[i..i + |pat|];
    assert OccursAt(whole, pat, |prefix| + i);
    ContainsIff(whole, pat);
  }

  /** A text shorter than the pattern never contains it. */
  lemma ShortNeverContains(text: string, pat: string)
    requires |text| < |pat|
    ensures !Contains(text, pat)
  {
  }

  /** Lexicographic order by code point: `a` is a prefix of `b`, or `a` is
      smaller at the first position where they differ. */
  predicate TextLe(a: string, b: string)
    decreases |a|
  {
    |a| == 0 || (|b| > 0 && (a[0] < b[0] || (a[0] == b[0] && TextLe(a[1..], b[1..]))))
  }

  lemma {:induction false} TextLeTotal(a: string, b: string)
    ensures TextLe(a, b) || TextLe(b, a)
    decreases |a|
  {
    if |a| > 0 && |b| > 0 && a[0] == b[0] {
      TextLeTotal(a[1..], b[1..]);
    }
  }

  lemma {:induction false} TextLeTransitive(a: string, b: string, c: string)
    requires TextLe(a, b) && TextLe(b, c)
    ensures TextLe(a, c)
    decreases |a|
  {
    if |a| > 0 && a[0] == b[0] && b[0] == c[0] {
      TextLeTransitive(a[1..], b[1..], c[1..]);
    }
  }
}
