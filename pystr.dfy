/** The few pieces of Python's `str` behaviour the integration relies on:
    `str.isspace`, `str.strip`, and the decimal text `f"{n}"` of a
    non-negative integer, with the facts about them the other modules use. */
module PyStr {

  /** Python's `str.isspace()` on one character: the ASCII whitespace
      characters, the information separators U+001C..U+001F, and the Unicode
      characters whose bidirectional class is WS, B or S or whose category is Zs. */
  predicate IsSpace(c: char) {
    || c == ' '
    || ('\t' <= c <= '\r')
    || ('\U{1C}' <= c <= '\U{1F}')
    || c == '\U{85}'
    || c == '\U{A0}'
    || c == '\U{1680}'
    || ('\U{2000}' <= c <= '\U{200A}')
    || c == '\U{2028}'
    || c == '\U{2029}'
    || c == '\U{202F}'
    || c == '\U{205F}'
    || c == '\U{3000}'
  }

  /** Every character of `s` is whitespace (vacuously true of ""). */
  predicate Blank(s: string) {
    forall k :: 0 <= k < |s| ==> IsSpace(s[k])
  }

  /** `s.lstrip()`: drops the leading whitespace. */
  function LStrip(s: string): (r: string)
    ensures |r| <= |s| && r == s[|s| - |r|..]
    ensures forall k :: 0 <= k < |s| - |r| ==> IsSpace(s[k])
    ensures r == [] || !IsSpace(r[0])
  {
    if |s| > 0 && IsSpace(s[0]) then LStrip(s[1..]) else s
  }

  /** `s.rstrip()`: drops the trailing whitespace. */
  function RStrip(s: string): (r: string)
    ensures |r| <= |s| && r == s[..|r|]
    ensures forall k :: |r| <= k < |s| ==> IsSpace(s[k])
    ensures r == [] || !IsSpace(r[|r| - 1])
  {
    if |s| > 0 && IsSpace(s[|s| - 1]) then RStrip(s[..|s| - 1]) else s
  }

  /** `s.strip()`. */
  function Strip(s: string): (r: string) {
    RStrip(LStrip(s))
  }

  /** `s.strip() == ""` holds exactly when every character of `s` is whitespace. */
  lemma StripEmptyIffBlank(s: string)
    ensures Strip(s) == "" <==> Blank(s)
  {
    var l := LStrip(s);
    if !Blank(s) {
      var k :| 0 <= k < |s| && !IsSpace(s[k]);
      assert k >= |s| - |l|;
      var m := k - (|s| - |l|);
      assert l[m] == s[k];
      assert m < |RStrip(l)|;
    }
  }

  predicate IsDigit(c: char) {
    '0' <= c <= '9'
  }

  predicate AllDigits(s: string) {
    forall k :: 0 <= k < |s| ==> IsDigit(s[k])
  }

  function DigitChar(d: nat): (c: char)
    requires d < 10
    ensures IsDigit(c)
  {
    "0123456789"[d]
  }

  /** `f"{n}"` for a non-negative integer: its decimal digits, most significant first. */
  function DecimalString(n: nat): (s: string)
    ensures |s| >= 1 && AllDigits(s)
    ensures (n < 10) <==> |s| == 1
  {
    if n < 10 then [DigitChar(n)] else DecimalString(n / 10) + [DigitChar(n % 10)]
  }

  lemma DigitCharInjective(a: nat, b: nat)
    requires a < 10 && b < 10 && DigitChar(a) == DigitChar(b)
    ensures a == b
  {
  }

  /** Different numbers have different decimal texts. */
  lemma {:induction false} DecimalStringInjective(a: nat, b: nat)
    requires DecimalString(a) == DecimalString(b)
    ensures a == b
  {
    var s := DecimalString(a);
    if a < 10 || b < 10 {
      if a < 10 && b < 10 {
        DigitCharInjective(a, b);
      }
    } else {
      assert s[|s| - 1] == DigitChar(a % 10) == DigitChar(b % 10);
      DigitCharInjective(a % 10, b % 10);
      assert DecimalString(a / 10) == s[..|s| - 1] == DecimalString(b / 10);
      DecimalStringInjective(a / 10, b / 10);
    }
  }

  /** A text that ends in a non-digit, followed by a run of digits, can be cut
      back into those two parts in only one way. */
  lemma SplitBeforeDigits(p1: string, d1: string, p2: string, d2: string)
    requires |p1| > 0 && !IsDigit(p1[|p1| - 1]) && AllDigits(d1)
    requires |p2| > 0 && !IsDigit(p2[|p2| - 1]) && AllDigits(d2)
    requires p1 + d1 == p2 + d2
    ensures p1 == p2 && d1 == d2
  {
    LastNonDigitBound(p1, d1, p2, d2);
    LastNonDigitBound(p2, d2, p1, d1);
    var s := p1 + d1;
    assert p1 == s[..|p1|] == p2;
    assert d1 == s[|p1|..] == d2;
  }

  lemma LastNonDigitBound(p1: string, d1: string, p2: string, d2: string)
    requires AllDigits(d1) && |p2| > 0 && !IsDigit(p2[|p2| - 1])
    requires p1 + d1 == p2 + d2
    ensures |p2| <= |p1|
  {
    var s := p1 + d1;
    assert s[|p2| - 1] == (p2 + d2)[|p2| - 1] == p2[|p2| - 1];
    forall j | |p1| <= j < |s|
      ensures IsDigit(s[j])
    {
      assert s[j] == d1[j - |p1|];
    }
  }

  /** A run of digits followed by a text that starts with a non-digit can be
      cut back into those two parts in only one way. */
  lemma SplitAfterDigits(d1: string, t1: string, d2: string, t2: string)
    requires AllDigits(d1) && |t1| > 0 && !IsDigit(t1[0])
    requires AllDigits(d2) && |t2| > 0 && !IsDigit(t2[0])
    requires d1 + t1 == d2 + t2
    ensures d1 == d2 && t1 == t2
  {
    FirstNonDigitBound(d1, t1, d2, t2);
    FirstNonDigitBound(d2, t2, d1, t1);
    var s := d1 + t1;
    assert d1 == s[..|d1|] == d2;
    assert t1 == s[|d1|..] == t2;
  }

  lemma FirstNonDigitBound(d1: string, t1: string, d2: string, t2: string)
    requires AllDigits(d1) && |t2| > 0 && !IsDigit(t2[0])
    requires d1 + t1 == d2 + t2
    ensures |d1| <= |d2|
  {
    var s := d2 + t2;
    assert s[|d2|] == t2[0];
    forall j | 0 <= j < |d1|
      ensures IsDigit(s[j])
    {
      assert s[j] == (d1 + t1)[j] == d1[j];
    }
  }

  /** `f"{pre}{n1}{t1}" == f"{pre}{n2}{t2}"`, with both tails starting with a
      non-digit, only when the numbers and the tails are the same. */
  lemma NumberedTextInjective(pre: string, n1: nat, t1: string, n2: nat, t2: string)
    requires |t1| > 0 && !IsDigit(t1[0]) && |t2| > 0 && !IsDigit(t2[0])
    requires pre + DecimalString(n1) + t1 == pre + DecimalString(n2) + t2
    ensures n1 == n2 && t1 == t2
  {
    var d1, d2 := DecimalString(n1), DecimalString(n2);
    assert d1 + t1 == (pre + d1 + t1)[|pre|..];
    assert d2 + t2 == (pre + d2 + t2)[|pre|..];
    SplitAfterDigits(d1, t1, d2, t2);
    DecimalStringInjective(n1, n2);
  }

  /** `f"{p1}{n1}" == f"{p2}{n2}"`, with both prefixes ending in a non-digit,
      only when the prefixes and the numbers are the same. */
  lemma PrefixedNumberInjective(p1: string, n1: nat, p2: string, n2: nat)
    requires |p1| > 0 && !IsDigit(p1[|p1| - 1]) && |p2| > 0 && !IsDigit(p2[|p2| - 1])
    requires p1 + DecimalString(n1) == p2 + DecimalString(n2)
    ensures p1 == p2 && n1 == n2
  {
    SplitBeforeDigits(p1, DecimalString(n1), p2, DecimalString(n2));
    DecimalStringInjective(n1, n2);
  }
}
