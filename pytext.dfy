/**
 * The pieces of Python's text behaviour the assistant relies on:
 * `str.lower()`, `str(int)` inside an f-string, and the `repr` of a list of
 * plain strings inside an f-string.  Each rendering comes with the parser
 * that inverts it, so the lemmas can say the rendered text carries its
 * value verbatim.
 */
module PyText {
  import opened Wrappers

  // ---------------------------------------------------------------------
  // str.lower()

  predicate IsUpper(c: char) { 'A' <= c <= 'Z' }

  predicate IsLowerLetter(c: char) { 'a' <= c <= 'z' }

  /**
   * U+212A KELVIN SIGN: the one character outside ASCII that Python
   * lower-cases to ASCII text (the letter `k`).
   */
  const KelvinSign: char := '\U{212A}'

  function LowerChar(c: char): char
  {
    if IsUpper(c) then (c as int + 32) as char
    else if c == KelvinSign then 'k'
    else c
  }

  function UpperChar(c: char): char
  {
    if IsLowerLetter(c) then (c as int - 32) as char else c
  }

  /** `s.lower()`, letter by letter. */
  function Lower(s: string): (r: string)
    ensures |r| == |s|
    ensures forall i :: 0 <= i < |s| ==> r[i] == LowerChar(s[i])
  {
    if s == [] then [] else [LowerChar(s[0])] + Lower(s[1..])
  }

  /** A string that `lower()` leaves as it is. */
  predicate HasNoUpper(s: string)
  {
    forall i :: 0 <= i < |s| ==> LowerChar(s[i]) == s[i]
  }

  /** `u` is one of the ways to write the character `c` in upper case. */
  predicate IsUpperSpelling(u: char, c: char)
  {
    u == UpperChar(c) || (c == 'k' && u == KelvinSign)
  }

  /** `s` is `t` with any choice of its letters written in upper case. */
  predicate IsCasingOf(s: string, t: string)
  {
    |s| == |t| && forall i :: 0 <= i < |s| ==> s[i] == t[i] || IsUpperSpelling(s[i], t[i])
  }

  /** Lower-casing undoes any re-casing of a string that has no upper-case letter. */
  lemma LowerOfCasing(s: string, t: string)
    requires HasNoUpper(t) && IsCasingOf(s, t)
    ensures Lower(s) == t
  {
    forall i | 0 <= i < |s| ensures Lower(s)[i] == t[i] {
      assert LowerChar(t[i]) == t[i];
    }
  }

  // ---------------------------------------------------------------------
  // str(n) for a Python int, and int(s) as its inverse on decimal text

  predicate IsDigit(c: char) { '0' <= c <= '9' }

  predicate AllDigits(s: string) { forall i :: 0 <= i < |s| ==> IsDigit(s[i]) }

  function DigitChar(d: nat): (c: char)
    requires d < 10
    ensures IsDigit(c) && c as int - '0' as int == d
  {
    ('0' as int + d) as char
  }

  /** Decimal digits of a non-negative integer, most significant first, no leading zero. */
  function NatToDecimal(n: nat): (r: string)
    ensures |r| >= 1 && AllDigits(r)
    ensures |r| > 1 ==> r[0] != '0'
  {
    if n < 10 then [DigitChar(n)] else NatToDecimal(n / 10) + [DigitChar(n % 10)]
  }

  /** What `str(n)` (and `f"{n}"`) gives for an int. */
  function IntToDecimal(n: int): (r: string)
    ensures |r| >= 1
    ensures r[0] == '-' <==> n < 0
    ensures n >= 0 ==> AllDigits(r)
  {
    if n < 0 then "-" + NatToDecimal(-n) else NatToDecimal(n)
  }

  /** The value of a string of decimal digits. */
  function DecimalValue(s: string): nat
    requires AllDigits(s)
  {
    if s == [] then 0 else 10 * DecimalValue(s[..|s| - 1]) + (s[|s| - 1] as int - '0' as int)
  }

  /** `int(s)` on an optionally signed string of decimal digits; `None` on anything else. */
  function ParseInt(s: string): Option<int>
  {
    if |s| >= 2 && s[0] == '-' && AllDigits(s[1..]) then Some(-(DecimalValue(s[1..]) as int))
    else if |s| >= 1 && AllDigits(s) then Some(DecimalValue(s))
    else None
  }

  lemma {:induction false} NatToDecimalValue(n: nat)
    ensures DecimalValue(NatToDecimal(n)) == n
  {
    if n >= 10 {
      var r := NatToDecimal(n);
      NatToDecimalValue(n / 10);
      assert r[..|r| - 1] == NatToDecimal(n / 10);
    }
  }

  /** `int(str(n)) == n` for every Python int. */
  lemma IntToDecimalRoundTrip(n: int)
    ensures ParseInt(IntToDecimal(n)) == Some(n)
  {
    if n < 0 {
      var digits := NatToDecimal(-n);
      assert ("-" + digits)[1..] == digits;
      NatToDecimalValue(-n);
    } else {
      var digits := NatToDecimal(n);
      assert IsDigit(digits[0]);
      NatToDecimalValue(n);
    }
  }

  // ---------------------------------------------------------------------
  // repr of a list of strings, as an f-string prints `{some_list}`

  /**
   * Strings whose `repr` is the text itself between single quotes: printable
   * ASCII without a quote or a backslash (Python would escape or re-quote
   * anything else).
   */
  predicate IsPlainText(x: string)
  {
    forall i :: 0 <= i < |x| ==> ' ' <= x[i] <= '~' && x[i] != '\'' && x[i] != '\\'
  }

  predicate AllPlainText(xs: seq<string>)
  {
    forall k :: 0 <= k < |xs| ==> IsPlainText(xs[k])
  }

  function Quote(x: string): string { "'" + x + "'" }

  /** The items of a list repr: each quoted, separated by a comma and a space. */
  function JoinQuoted(xs: seq<string>): string
  {
    if |xs| == 0 then ""
    else if |xs| == 1 then Quote(xs[0])
    else Quote(xs[0]) + ", " + JoinQuoted(xs[1..])
  }

  /** `repr(xs)`, which is what Python prints for a list whose items are all plain text. */
  function ListRepr(xs: seq<string>): string
  {
    "[" + JoinQuoted(xs) + "]"
  }

  /** Index of the first single quote in `s`, or `|s|` when there is none. */
  function QuoteIndex(s: string): (r: nat)
    ensures r <= |s|
    ensures r < |s| ==> s[r] == '\''
    ensures forall i :: 0 <= i < r ==> s[i] != '\''
  {
    if s == [] then 0 else if s[0] == '\'' then 0 else 1 + QuoteIndex(s[1..])
  }

  /** Reads back the items that `JoinQuoted` wrote. */
  function ParseQuoted(s: string): Option<seq<string>>
    decreases |s|
  {
    if s == [] then Some([])
    else if s[0] != '\'' then None
    else
      var j := 1 + QuoteIndex(s[1..]);
      if j >= |s| then None
      else
        var rest := s[j + 1..];
        if rest == [] then Some([s[1..j]])
        else if |rest| >= 2 && rest[..2] == ", " then
          match ParseQuoted(rest[2..])
          case None => None
          case Some(more) => Some([s[1..j]] + more)
        else None
  }

  /** Reads back the list that `ListRepr` wrote. */
  function ParseListRepr(s: string): Option<seq<string>>
  {
    if |s| >= 2 && s[0] == '[' && s[|s| - 1] == ']' then ParseQuoted(s[1..|s| - 1]) else None
  }

  /** Text without a single quote, which is all the parser needs of an item. */
  predicate NoQuote(x: string)
  {
    forall i :: 0 <= i < |x| ==> x[i] != '\''
  }

  /** Every item of the list is free of single quotes. */
  predicate NoneQuoted(xs: seq<string>)
  {
    forall k :: 0 <= k < |xs| ==> NoQuote(xs[k])
  }

  lemma PlainTextIsNotQuoted(xs: seq<string>)
    requires AllPlainText(xs)
    ensures NoneQuoted(xs)
  {
    forall k | 0 <= k < |xs| ensures NoQuote(xs[k]) {
      assert IsPlainText(xs[k]);
    }
  }

  lemma {:induction false} QuoteIndexAfter(x: string, tail: string)
    requires NoQuote(x)
    ensures QuoteIndex(x + "'" + tail) == |x|
  {
    if x != [] {
      assert (x + "'" + tail)[1..] == x[1..] + "'" + tail;
      QuoteIndexAfter(x[1..], tail);
    }
  }

  /** The first item of a quoted list comes back whole, followed by the rest. */
  lemma QuotedHead(x: string, tail: string)
    requires NoQuote(x)
    ensures var s := Quote(x) + tail;
      s != [] && s[0] == '\'' && 1 + QuoteIndex(s[1..]) == |x| + 1 &&
      s[1..|x| + 1] == x && s[|x| + 2..] == tail
  {
    var s := Quote(x) + tail;
    assert s[1..] == x + "'" + tail;
    QuoteIndexAfter(x, tail);
  }

  lemma ParseQuotedSingle(x: string)
    requires NoQuote(x)
    ensures ParseQuoted(Quote(x)) == Some([x])
  {
    QuotedHead(x, "");
    assert Quote(x) + "" == Quote(x);
  }

  lemma ParseQuotedCons(x: string, t: string)
    requires NoQuote(x)
    ensures ParseQuoted(Quote(x) + (", " + t)) ==
      match ParseQuoted(t)
      case None => None
      case Some(more) => Some([x] + more)
  {
    var tail := ", " + t;
    QuotedHead(x, tail);
    assert tail[..2] == ", " && tail[2..] == t;
  }

  /** The tail of a quote-free list is quote-free, and so is its head. */
  lemma NoneQuotedTail(xs: seq<string>)
    requires |xs| > 0 && NoneQuoted(xs)
    ensures NoQuote(xs[0]) && NoneQuoted(xs[1..])
  {
    forall k | 0 <= k < |xs| - 1 ensures NoQuote(xs[1..][k]) {
      assert xs[1..][k] == xs[k + 1];
    }
  }

  lemma JoinQuotedCons(xs: seq<string>)
    requires |xs| > 1
    ensures JoinQuoted(xs) == Quote(xs[0]) + (", " + JoinQuoted(xs[1..]))
  {
  }

  lemma {:induction false} JoinQuotedRoundTrip(xs: seq<string>)
    requires NoneQuoted(xs)
    ensures ParseQuoted(JoinQuoted(xs)) == Some(xs)
    decreases |xs|
  {
    if |xs| == 1 {
      assert NoQuote(xs[0]);
      ParseQuotedSingle(xs[0]);
      assert JoinQuoted(xs) == Quote(xs[0]) && [xs[0]] == xs;
    } else if |xs| > 1 {
      var t := JoinQuoted(xs[1..]);
      JoinQuotedCons(xs);
      NoneQuotedTail(xs);
      JoinQuotedRoundTrip(xs[1..]);
      ParseQuotedCons(xs[0], t);
      assert [xs[0]] + xs[1..] == xs;
    }
  }

  /** Parsing a list repr gives back the list: every item, once, in order. */
  lemma ListReprRoundTrip(xs: seq<string>)
    requires NoneQuoted(xs)
    ensures ParseListRepr(ListRepr(xs)) == Some(xs)
  {
    var s := ListRepr(xs);
    assert s[1..|s| - 1] == JoinQuoted(xs);
    JoinQuotedRoundTrip(xs);
  }

  /** `needle` appears in `hay` starting at index `i`. */
  predicate OccursAt(needle: string, hay: string, i: nat)
  {
    i + |needle| <= |hay| && hay[i..i + |needle|] == needle
  }

  ghost predicate Occurs(needle: string, hay: string)
  {
    exists i: nat :: OccursAt(needle, hay, i)
  }

  lemma OccursAfter(needle: string, a: string, b: string, i: nat)
    requires OccursAt(needle, b, i)
    ensures OccursAt(needle, a + b, |a| + i)
  {
    assert (a + b)[|a| + i..|a| + i + |needle|] == b[i..i + |needle|];
  }

  lemma OccursBefore(needle: string, a: string, b: string, i: nat)
    requires OccursAt(needle, a, i)
    ensures OccursAt(needle, a + b, i)
  {
    assert (a + b)[i..i + |needle|] == a[i..i + |needle|];
  }

  /** Where the `k`th item, quoted, starts in the items of a list repr. */
  function QuotedItemOffset(xs: seq<string>, k: nat): (i: nat)
    requires k < |xs|
    ensures OccursAt(Quote(xs[k]), JoinQuoted(xs), i)
    decreases |xs|
  {
    if k == 0 then
      if |xs| == 1 then 0
      else
        OccursBefore(Quote(xs[0]), Quote(xs[0]), ", " + JoinQuoted(xs[1..]), 0);
        assert JoinQuoted(xs) == Quote(xs[0]) + (", " + JoinQuoted(xs[1..]));
        0
    else
      var head := Quote(xs[0]) + ", ";
      var i := QuotedItemOffset(xs[1..], k - 1);
      OccursAfter(Quote(xs[k]), head, JoinQuoted(xs[1..]), i);
      |head| + i
  }

  /** Every item of a list repr occurs in the repr, in quotes. */
  lemma ListReprMentions(xs: seq<string>, k: nat)
    requires k < |xs|
    ensures OccursAt(Quote(xs[k]), ListRepr(xs), 1 + QuotedItemOffset(xs, k))
  {
    var i := QuotedItemOffset(xs, k);
    OccursAfter(Quote(xs[k]), "[", JoinQuoted(xs), i);
    OccursBefore(Quote(xs[k]), "[" + JoinQuoted(xs), "]", 1 + i);
  }
}
