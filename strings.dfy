// Shared value types and the text operations the coin screens rely on.
//
// The application compares and searches text with the locale-aware
// case-insensitive operations of its platform library. This model stands in
// for the locale with ASCII case folding and an ordinal comparison of the
// folded text; every screen uses the same fold, so the properties proved here
// hold for any fold that maps equal text to equal text.

module Wrappers {
  datatype Option<T> = None | Some(value: T)
}

module Strings {

  /** Whitespace and line separators removed by the trimming of form input. */
  predicate IsWhitespace(ch: char) {
    ch == ' ' || ch == '\t' || ch == '\n' || ch == '\r' || ch == '\U{000B}' || ch == '\U{000C}'
    || ch == '\U{0085}' || ch == '\U{00A0}' || ch == '\U{1680}' || ('\U{2000}' <= ch <= '\U{200A}')
    || ch == '\U{2028}' || ch == '\U{2029}' || ch == '\U{202F}' || ch == '\U{205F}' || ch == '\U{3000}'
  }

  /**
   * The members of the punctuation character class (Unicode categories P*)
   * in the Basic Latin, Latin-1 Supplement and General Punctuation blocks.
   */
  predicate IsPunctuation(ch: char) {
    ch == '!' || ch == '"' || ch == '#' || ch == '%' || ch == '&' || ch == '\'' || ch == '('
    || ch == ')' || ch == '*' || ch == ',' || ch == '-' || ch == '.' || ch == '/' || ch == ':'
    || ch == ';' || ch == '?' || ch == '@' || ch == '[' || ch == '\\' || ch == ']' || ch == '_'
    || ch == '{' || ch == '}'
    || ch == '\U{00A1}' || ch == '\U{00A7}' || ch == '\U{00AB}' || ch == '\U{00B6}' || ch == '\U{00B7}'
    || ch == '\U{00BB}' || ch == '\U{00BF}'
    || ('\U{2010}' <= ch <= '\U{2027}') || ('\U{2030}' <= ch <= '\U{2043}')
    || ('\U{2045}' <= ch <= '\U{2051}') || ('\U{2053}' <= ch <= '\U{205E}')
  }

  predicate IsDecimalDigit(ch: char) {
    '0' <= ch <= '9'
  }

  predicate AllDigits(s: string) {
    forall i :: 0 <= i < |s| ==> IsDecimalDigit(s[i])
  }

  // ---------------------------------------------------------------------
  // Case folding and case-insensitive comparison

  function FoldChar(ch: char): char {
    if 'A' <= ch <= 'Z' then (ch as int + 32) as char else ch
  }

  function Fold(s: string): (r: string)
    ensures |r| == |s|
    ensures forall i :: 0 <= i < |s| ==> r[i] == FoldChar(s[i])
  {
    seq(|s|, i requires 0 <= i < |s| => FoldChar(s[i]))
  }

  /** Two texts equal up to case, as the source's comparisons of lower-cased text. */
  predicate EqualIgnoringCase(a: string, b: string) {
    Fold(a) == Fold(b)
  }

  datatype Ordering = Less | Same | Greater

  /** Ordinal lexicographic comparison of two texts. */
  function LexCompare(a: string, b: string): Ordering
    decreases |a|
  {
    if |a| == 0 && |b| == 0 then Same
    else if |a| == 0 then Less
    else if |b| == 0 then Greater
    else if a[0] < b[0] then Less
    else if a[0] > b[0] then Greater
    else LexCompare(a[1..], b[1..])
  }

  /** The case-insensitive comparison used to order categories by country. */
  function CompareIgnoringCase(a: string, b: string): Ordering {
    LexCompare(Fold(a), Fold(b))
  }

  lemma {:induction false} LexCompareFlip(a: string, b: string)
    ensures LexCompare(a, b) == Less <==> LexCompare(b, a) == Greater
    ensures LexCompare(a, b) == Same <==> a == b
    decreases |a|
  {
    if |a| != 0 && |b| != 0 && a[0] == b[0] {
      LexCompareFlip(a[1..], b[1..]);
      if LexCompare(a, b) == Same {
        assert a == [a[0]] + a[1..] && b == [b[0]] + b[1..];
      }
    }
  }

  lemma {:induction false} LexLessTransitive(a: string, b: string, c: string)
    requires LexCompare(a, b) == Less && LexCompare(b, c) == Less
    ensures LexCompare(a, c) == Less
    decreases |a|
  {
    if |a| != 0 && |b| != 0 && |c| != 0 && a[0] == b[0] && b[0] == c[0] {
      LexLessTransitive(a[1..], b[1..], c[1..]);
    }
  }

  /** Case-insensitive comparison is a strict order: asymmetric and transitive. */
  lemma CompareIgnoringCaseIsStrictOrder(a: string, b: string, c: string)
    ensures CompareIgnoringCase(a, b) == Less <==> CompareIgnoringCase(b, a) == Greater
    ensures CompareIgnoringCase(a, b) == Same <==> EqualIgnoringCase(a, b)
    ensures CompareIgnoringCase(a, b) == Less && CompareIgnoringCase(b, c) == Less
            ==> CompareIgnoringCase(a, c) == Less
  {
    LexCompareFlip(Fold(a), Fold(b));
    if CompareIgnoringCase(a, b) == Less && CompareIgnoringCase(b, c) == Less {
      LexLessTransitive(Fold(a), Fold(b), Fold(c));
    }
  }

  // ---------------------------------------------------------------------
  // Searching

  predicate IsPrefix(w: string, s: string) {
    |w| <= |s| && s[..|w|] == w
  }

  /** Whether `w` occurs in `s` at some position. */
  predicate Occurs(w: string, s: string)
    decreases |s|
  {
    IsPrefix(w, s) || (|s| > 0 && Occurs(w, s[1..]))
  }

  /**
   * Case-insensitive containment of a search word in a text. An empty word
   * is contained in nothing, as with the platform's range search.
   */
  predicate ContainsIgnoringCase(text: string, word: string) {
    |word| > 0 && Occurs(Fold(word), Fold(text))
  }

  lemma ContainsItself(text: string)
    requires |text| > 0
    ensures ContainsIgnoringCase(text, text)
  {
    assert IsPrefix(Fold(text), Fold(text));
  }

  // ---------------------------------------------------------------------
  // Splitting on single spaces

  function SplitFrom(s: string, current: string): (r: seq<string>)
    ensures |r| >= 1
    decreases |s|
  {
    if |s| == 0 then [current]
    else if s[0] == ' ' then [current] + SplitFrom(s[1..], "")
    else SplitFrom(s[1..], current + [s[0]])
  }

  /** The pieces of `s` between single spaces; empty pieces are kept. */
  function Split(s: string): seq<string> {
    SplitFrom(s, "")
  }

  function Join(pieces: seq<string>): string
    requires |pieces| >= 1
  {
    if |pieces| == 1 then pieces[0] else pieces[0] + " " + Join(pieces[1..])
  }

  predicate NoSpace(w: string) {
    forall i :: 0 <= i < |w| ==> w[i] != ' '
  }

  lemma {:induction false} SplitFromJoin(s: string, current: string)
    requires NoSpace(current)
    ensures Join(SplitFrom(s, current)) == current + s
    ensures forall i :: 0 <= i < |SplitFrom(s, current)| ==> NoSpace(SplitFrom(s, current)[i])
    decreases |s|
  {
    if |s| == 0 {
    } else if s[0] == ' ' {
      SplitFromJoin(s[1..], "");
      assert s == [' '] + s[1..];
    } else {
      SplitFromJoin(s[1..], current + [s[0]]);
      assert s == [s[0]] + s[1..];
    }
  }

  /** Splitting then re-joining with single spaces gives back the text; no piece has a space. */
  lemma SplitJoinRoundTrip(s: string)
    ensures Join(Split(s)) == s
    ensures forall i :: 0 <= i < |Split(s)| ==> NoSpace(Split(s)[i])
  {
    SplitFromJoin(s, "");
  }

  // ---------------------------------------------------------------------
  // Decimal text of integers

  function DigitChar(d: nat): char
    requires d < 10
  {
    ('0' as int + d) as char
  }

  function NatToString(n: nat): (r: string)
    ensures |r| >= 1 && AllDigits(r)
  {
    if n < 10 then [DigitChar(n)] else NatToString(n / 10) + [DigitChar(n % 10)]
  }

  /** Decimal text of an integer, with a leading '-' when negative. */
  function IntToString(n: int): string {
    if n < 0 then "-" + NatToString(-n) else NatToString(n)
  }

  /** The value of a text made of decimal digits. */
  function ParseDigits(s: string): nat
    requires AllDigits(s)
  {
    if |s| == 0 then 0 else 10 * ParseDigits(s[..|s| - 1]) + (s[|s| - 1] as int - '0' as int)
  }

  lemma {:induction false} ParseNatToString(n: nat)
    ensures ParseDigits(NatToString(n)) == n
  {
    if n >= 10 {
      ParseNatToString(n / 10);
      var s := NatToString(n);
      assert s[..|s| - 1] == NatToString(n / 10);
    }
  }

  /** Decimal text determines its number. */
  lemma NatToStringInjective(m: nat, n: nat)
    requires NatToString(m) == NatToString(n)
    ensures m == n
  {
    ParseNatToString(m);
    ParseNatToString(n);
  }
}
