/** The string operations the entities derive their file names and labels
    with: `toLowerCase`, `Number.prototype.toString`, `padStart`, `join`,
    `indexOf` and `substring`, on ASCII text. */
module Text {

  function LowerChar(c: char): char {
    if 'A' <= c <= 'Z' then (c as int + 32) as char else c
  }

  /** `s.toLowerCase()` for ASCII: each letter A-Z becomes a-z, everything else is kept. */
  function Lower(s: string): string {
    seq(|s|, i requires 0 <= i < |s| => LowerChar(s[i]))
  }

  /** Lower-casing a prefix is taking the prefix of the lower-cased string. */
  lemma LowerPrefix(s: string, n: nat)
    requires n <= |s|
    ensures Lower(s[..n]) == Lower(s)[..n]
  {
    var a, b := Lower(s[..n]), Lower(s)[..n];
    assert |a| == |b|;
    forall i | 0 <= i < n ensures a[i] == b[i] {
      assert s[..n][i] == s[i];
    }
  }

  predicate IsDigit(c: char) {
    '0' <= c <= '9'
  }

  function DigitChar(d: nat): (c: char)
    requires d < 10
    ensures IsDigit(c)
  {
    ('0' as int + d) as char
  }

  /** The decimal digits of `n`, most significant first, with no leading zero. */
  function NatToString(n: nat): (s: string)
    ensures |s| >= 1
    ensures forall i :: 0 <= i < |s| ==> IsDigit(s[i])
    ensures n >= 10 ==> s[0] != '0'
  {
    if n < 10 then [DigitChar(n)] else NatToString(n / 10) + [DigitChar(n % 10)]
  }

  /** `n.toString()` for an integer: a minus sign before the digits of a negative number. */
  function IntToString(n: int): (s: string)
    ensures |s| >= 1 && IsDigit(s[|s| - 1])
  {
    if n < 0 then "-" + NatToString(-n) else NatToString(n)
  }

  /** The value of a string of decimal digits. */
  function DigitsValue(s: string): nat
    requires forall i :: 0 <= i < |s| ==> IsDigit(s[i])
  {
    if s == [] then 0
    else
      assert IsDigit(s[|s| - 1]);
      10 * DigitsValue(s[..|s| - 1]) + (s[|s| - 1] as int - '0' as int)
  }

  /** Reading the digits back gives the number written. */
  lemma {:induction false} NatToStringRoundTrip(n: nat)
    ensures DigitsValue(NatToString(n)) == n
  {
    if n >= 10 {
      NatToStringRoundTrip(n / 10);
      var s := NatToString(n);
      assert s[..|s| - 1] == NatToString(n / 10);
    }
  }

  /** Numbers from 100 to 999 are written with exactly three digits. */
  lemma ThreeDigits(n: nat)
    requires 100 <= n < 1000
    ensures |NatToString(n)| == 3
  {
    TwoDigits(n / 10);
  }

  /** Numbers from 10 to 99 are written with exactly two digits. */
  lemma TwoDigits(n: nat)
    requires 10 <= n < 100
    ensures |NatToString(n)| == 2
  {
  }

  /** `s.padStart(width, ' ')`: spaces are put in front until the string is `width` long. */
  function PadStart(s: string, width: nat): (r: string)
    ensures |r| == if |s| < width then width else |s|
    ensures r[|r| - |s|..] == s
    ensures forall i :: 0 <= i < |r| - |s| ==> r[i] == ' '
  {
    if |s| >= width then s else seq(width - |s|, _ => ' ') + s
  }

  /** `s` is `code` right-aligned in a field of `width` columns (wider
      when the number needs it), then `": "` and `name`. */
  predicate Aligned(s: string, width: nat, code: int, name: string) {
    var digits := IntToString(code);
    var w := if |digits| < width then width else |digits|;
    && |s| == w + 2 + |name|
    && (forall i :: 0 <= i < w - |digits| ==> s[i] == ' ')
    && s[w - |digits|..w] == digits
    && s[w..] == ": " + name
  }

  /** The padded number, a colon and the name, laid out as `Aligned` says. */
  lemma PadStartAligned(width: nat, code: int, name: string)
    ensures Aligned(PadStart(IntToString(code), width) + (": " + name), width, code, name)
  {
    var digits := IntToString(code);
    var p := PadStart(digits, width);
    var s := p + (": " + name);
    assert s[..|p|] == p;
    assert s[|p| - |digits|..|p|] == p[|p| - |digits|..];
  }

  /** A label of a non-negative code can be read back: the field before the
      first colon gives the code, and what follows `": "` is the name. */
  lemma {:induction false} AlignedInjective(s: string, width: nat, c1: int, n1: string, c2: int, n2: string)
    requires c1 >= 0 && c2 >= 0
    requires Aligned(s, width, c1, n1) && Aligned(s, width, c2, n2)
    ensures c1 == c2 && n1 == n2
  {
    var d1, d2 := IntToString(c1), IntToString(c2);
    var w1 := if |d1| < width then width else |d1|;
    var w2 := if |d2| < width then width else |d2|;
    assert s[w1] == s[w1..][0] == ':';
    assert s[w2] == s[w2..][0] == ':';
    if w2 < w1 {
      FieldHasNoColon(s, width, c1, n1, w2);
    } else if w1 < w2 {
      FieldHasNoColon(s, width, c2, n2, w1);
    }
    assert n1 == (": " + n1)[2..] == s[w1..][2..] == (": " + n2)[2..] == n2;
    assert d1 == s[w1 - |d1|..w1] == d2;
    NatToStringRoundTrip(c1);
    NatToStringRoundTrip(c2);
  }

  /** No colon stands in the number's field of a non-negative code. */
  lemma FieldHasNoColon(s: string, width: nat, code: int, name: string, i: int)
    requires code >= 0 && Aligned(s, width, code, name)
    requires 0 <= i < (if |IntToString(code)| < width then width else |IntToString(code)|)
    ensures s[i] != ':'
  {
    var digits := IntToString(code);
    var w := if |digits| < width then width else |digits|;
    if i >= w - |digits| {
      assert s[i] == s[w - |digits|..w][i - (w - |digits|)] == digits[i - (w - |digits|)];
      assert IsDigit(digits[i - (w - |digits|)]);
    }
  }

  /** `xs.join(sep)` over numbers. */
  function Join(xs: seq<int>, sep: string): string {
    if xs == [] then ""
    else if |xs| == 1 then IntToString(xs[0])
    else IntToString(xs[0]) + sep + Join(xs[1..], sep)
  }

  /** A non-empty join ends with the last number written out. */
  lemma {:induction false} JoinEndsWithLast(xs: seq<int>, sep: string)
    requires xs != []
    ensures EndsWith(Join(xs, sep), IntToString(xs[|xs| - 1]))
  {
    if |xs| > 1 {
      JoinEndsWithLast(xs[1..], sep);
      assert xs[1..][|xs[1..]| - 1] == xs[|xs| - 1];
      EndsWithBehind(IntToString(xs[0]) + sep, Join(xs[1..], sep), IntToString(xs[|xs| - 1]));
    }
  }

  /** Text put in front keeps the end. */
  lemma EndsWithBehind(a: string, s: string, suffix: string)
    requires EndsWith(s, suffix)
    ensures EndsWith(a + s, suffix)
  {
    assert (a + s)[|a + s| - |suffix|..] == s[|s| - |suffix|..];
  }

  predicate EndsWith(s: string, suffix: string) {
    |suffix| <= |s| && s[|s| - |suffix|..] == suffix
  }

  lemma EndsWithAppend(a: string, b: string)
    ensures EndsWith(a + b, b)
  {
    assert (a + b)[|a|..] == b;
  }

  /** `s.indexOf(c)`: the first position of `c` in `s`, or -1. */
  function IndexOf(s: string, c: char): (k: int)
    ensures -1 <= k < |s|
    ensures k == -1 <==> c !in s
    ensures k >= 0 ==> s[k] == c && c !in s[..k]
  {
    if s == [] then -1
    else if s[0] == c then 0
    else
      var k := IndexOf(s[1..], c);
      if k < 0 then -1
      else
        assert s[..k + 1] == [s[0]] + s[1..][..k];
        k + 1
  }

  /** `s.substring(0, end)`: negative ends count as 0 and ends past the string as its length. */
  function Prefix(s: string, end: int): (r: string)
    ensures |r| == if end < 0 then 0 else if end > |s| then |s| else end
    ensures r <= s
  {
    if end < 0 then "" else if end > |s| then s else s[..end]
  }
}
