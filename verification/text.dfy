/** Character classes, decimal digit strings and the space join of OCR fragments,
    as the extractor's regular expressions and its year conversion see them. */
module Text {

  /** `\d`, restricted to the ASCII digits. */
  predicate IsDigit(c: char) { '0' <= c <= '9' }

  /** `[A-Z]`. */
  predicate IsUpper(c: char) { 'A' <= c <= 'Z' }

  /** The ASCII part of Python's `\w`: letters, digits and '_'. */
  predicate IsAsciiWord(c: char) { IsDigit(c) || IsUpper(c) || ('a' <= c <= 'z') || c == '_' }

  /** The ASCII part of Python's `\s` on a `str` pattern: tab, line feed, vertical tab,
      form feed, carriage return, the four information separators and the space. */
  predicate IsSpace(c: char) { c == ' ' || ('\t' <= c <= '\r') || ('\U{1C}' <= c <= '\U{1F}') }

  /** A word-character class `w` as Python 3 uses it for `\b` on `str` patterns: exact on
      ASCII, and every CJK unified ideograph is a word character. Other non-ASCII
      characters are left to `w`. */
  predicate WordClass(w: char -> bool)
  {
    && (forall c: char :: c < '\U{80}' ==> (w(c) <==> IsAsciiWord(c)))
    && (forall c: char :: '\U{4E00}' <= c <= '\U{9FFF}' ==> w(c))
  }

  predicate AllDigits(t: string) { forall k :: 0 <= k < |t| ==> IsDigit(t[k]) }

  /** Length of the longest run of `inClass` characters starting at `p`:
      what a greedy `[...]*` consumes. */
  function RunLength(s: string, p: nat, inClass: char -> bool): (n: nat)
    requires p <= |s|
    ensures p + n <= |s|
    ensures forall k :: p <= k < p + n ==> inClass(s[k])
    ensures p + n == |s| || !inClass(s[p + n])
    decreases |s| - p
  {
    if p < |s| && inClass(s[p]) then 1 + RunLength(s, p + 1, inClass) else 0
  }

  function Pow10(k: nat): (r: nat)
    ensures r >= 1
  {
    if k == 0 then 1 else 10 * Pow10(k - 1)
  }

  function DigitValue(c: char): (d: nat)
    requires IsDigit(c)
    ensures d < 10
  {
    (c as int) - ('0' as int)
  }

  function DigitChar(d: nat): (c: char)
    requires d < 10
    ensures IsDigit(c) && DigitValue(c) == d
  {
    ('0' as int + d) as char
  }

  /** Python's `int(t)` on a string of ASCII digits (leading zeros allowed). */
  function DigitsValue(t: string): (v: nat)
    requires AllDigits(t)
    ensures v < Pow10(|t|)
    decreases |t|
  {
    if t == [] then 0 else DigitsValue(t[..|t| - 1]) * 10 + DigitValue(t[|t| - 1])
  }

  /** Python's `str(n)` on a natural number: decimal, no leading zero. */
  function NatToString(n: nat): (t: string)
    ensures AllDigits(t) && |t| >= 1
    ensures |t| > 1 ==> t[0] != '0'
    decreases n
  {
    if n < 10 then [DigitChar(n)] else NatToString(n / 10) + [DigitChar(n % 10)]
  }

  /** `int(str(n)) == n`. */
  lemma {:induction false} NatToStringValue(n: nat)
    ensures DigitsValue(NatToString(n)) == n
    decreases n
  {
    var t := NatToString(n);
    if n >= 10 {
      NatToStringValue(n / 10);
      assert t[..|t| - 1] == NatToString(n / 10);
    }
  }

  /** A number from 1000 to 9999 prints as exactly four digits. */
  lemma FourDigitString(n: nat)
    requires 1000 <= n <= 9999
    ensures |NatToString(n)| == 4
  {
    assert n / 10 / 10 == n / 100 && n / 100 / 10 == n / 1000;
    assert |NatToString(n / 1000)| == 1;
    assert |NatToString(n / 100)| == 2;
    assert |NatToString(n / 10)| == 3;
  }

  /** Python's `" ".join(fragments)`. */
  function Join(fragments: seq<string>): (text: string)
    ensures fragments == [] ==> text == []
    ensures |text| >= |fragments| - 1
    decreases |fragments|
  {
    if |fragments| == 0 then ""
    else if |fragments| == 1 then fragments[0]
    else fragments[0] + " " + Join(fragments[1..])
  }

  /** Joining one more fragment adds exactly one space and then that fragment: the
      fragments appear in order, each gap holding a single ' '. */
  lemma {:induction false} JoinAppend(fragments: seq<string>, f: string)
    requires |fragments| >= 1
    ensures Join(fragments + [f]) == Join(fragments) + " " + f
    decreases |fragments|
  {
    var all := fragments + [f];
    assert all[0] == fragments[0] && all[1..] == fragments[1..] + [f];
    if |fragments| == 1 {
      assert all[1..] == [f];
    } else {
      JoinAppend(fragments[1..], f);
    }
  }

  /** Total number of characters in the fragments. */
  function TotalLength(fragments: seq<string>): (n: nat)
    ensures fragments != [] ==> n >= |fragments[0]|
    decreases |fragments|
  {
    if fragments == [] then 0 else |fragments[0]| + TotalLength(fragments[1..])
  }

  /** The joined text is the fragments' characters plus one space per gap. */
  lemma {:induction false} JoinLength(fragments: seq<string>)
    requires |fragments| >= 1
    ensures |Join(fragments)| == TotalLength(fragments) + |fragments| - 1
    decreases |fragments|
  {
    if |fragments| > 1 {
      JoinLength(fragments[1..]);
    }
  }

  predicate InSomeFragment(c: char, fragments: seq<string>)
  {
    exists k :: 0 <= k < |fragments| && c in fragments[k]
  }

  /** Every character of the joined text is either a separating space or a character
      of one of the fragments. */
  lemma {:induction false} JoinCharacters(fragments: seq<string>, c: char)
    requires c in Join(fragments)
    ensures c == ' ' || InSomeFragment(c, fragments)
    decreases |fragments|
  {
    if |fragments| == 1 {
      assert c in fragments[0];
    } else if |fragments| > 1 {
      var rest := Join(fragments[1..]);
      assert Join(fragments) == fragments[0] + " " + rest;
      if c in fragments[0] {
      } else if c != ' ' {
        assert c in rest;
        JoinCharacters(fragments[1..], c);
        var k :| 0 <= k < |fragments[1..]| && c in fragments[1..][k];
        assert c in fragments[k + 1];
      }
    }
  }

  /** Joining fragments that hold no line feed gives a text without line feeds. */
  lemma JoinWithoutNewline(fragments: seq<string>)
    requires forall k :: 0 <= k < |fragments| ==> '\n' !in fragments[k]
    ensures '\n' !in Join(fragments)
  {
    if '\n' in Join(fragments) {
      JoinCharacters(fragments, '\n');
    }
  }
}
