// The texts handed to other applications: the web-search address built from
// the known fields of a coin or of a category's first coin, and the text
// shared for a coin, which depends on the kind of sharing activity.
//
// The builders accumulate into string variables, as the source does; each is
// a method proved against the function that specifies its result.

module ExternalSearch {
  import opened Wrappers
  import opened Strings
  import opened Coins
  import opened Categories
  import opened EditCoin

  const SearchEngine: string := "https://www.google.com/"
  const QueryStart: string := "search?q="

  // ---------------------------------------------------------------------
  // Tokens joined by plus signs

  /** Each piece followed by a plus sign, in order. */
  function PlusAll(pieces: seq<string>): string {
    if |pieces| == 0 then "" else pieces[0] + "+" + PlusAll(pieces[1..])
  }

  /** The space-separated tokens of `s`, each followed by a plus sign; empty tokens give a lone "+". */
  function PlusTokens(s: string): string {
    PlusAll(Split(s))
  }

  /** `s` with every space replaced by a plus sign. */
  function SpacesToPluses(s: string): string {
    seq(|s|, i requires 0 <= i < |s| => if s[i] == ' ' then '+' else s[i])
  }

  lemma {:induction false} PlusAllAppend(pieces: seq<string>, x: string)
    ensures PlusAll(pieces + [x]) == PlusAll(pieces) + x + "+"
  {
    if |pieces| == 0 {
      assert pieces + [x] == [x];
    } else {
      assert (pieces + [x])[1..] == pieces[1..] + [x];
      PlusAllAppend(pieces[1..], x);
    }
  }

  lemma SpacesToPlusesAppend(a: string, b: string)
    ensures SpacesToPluses(a + b) == SpacesToPluses(a) + SpacesToPluses(b)
  {
  }

  lemma {:induction false} PlusAllJoin(pieces: seq<string>)
    requires |pieces| >= 1
    requires forall i :: 0 <= i < |pieces| ==> NoSpace(pieces[i])
    ensures PlusAll(pieces) == SpacesToPluses(Join(pieces)) + "+"
  {
    assert SpacesToPluses(pieces[0]) == pieces[0];
    if |pieces| > 1 {
      PlusAllJoin(pieces[1..]);
      SpacesToPlusesAppend(pieces[0] + " ", Join(pieces[1..]));
      SpacesToPlusesAppend(pieces[0], " ");
    }
  }

  /** Tokenising and appending plus signs is the same as turning spaces into plus signs and adding one at the end. */
  lemma PlusTokensAreSpacesToPluses(s: string)
    ensures PlusTokens(s) == SpacesToPluses(s) + "+"
    ensures |PlusTokens(s)| == |s| + 1
  {
    SplitJoinRoundTrip(s);
    PlusAllJoin(Split(s));
  }

  /** Appends each space-separated token of `s`, followed by a plus sign, to `acc`. */
  method AppendTokens(acc: string, s: string) returns (r: string)
    ensures r == acc + PlusTokens(s)
  {
    var tokens := Split(s);
    r := acc;
    var i := 0;
    while i < |tokens|
      invariant 0 <= i <= |tokens|
      invariant r == acc + PlusAll(tokens[..i])
    {
      PlusAllAppend(tokens[..i], tokens[i]);
      assert tokens[..i + 1] == tokens[..i] + [tokens[i]];
      r := r + tokens[i] + "+";
      i := i + 1;
    }
    assert tokens[..|tokens|] == tokens;
  }

  // ---------------------------------------------------------------------
  // Keywords of a coin

  /** The era word after a year's digits: "CE" for a positive year, "BCE" for a negative one, none for year 0. */
  function EraKeyword(y: int): string {
    if y > 0 then EraCE + "+" else if y < 0 then EraBCE + "+" else ""
  }

  /** A year's keywords: the digits of its magnitude, then its era word. */
  function YearKeywords(year: Option<int>): string {
    match year
    case None => ""
    case Some(y) => NatToString(if y < 0 then -y else y) + "+" + EraKeyword(y)
  }

  function CountryKeywords(c: Coin): string {
    if GetCountry(c) != DefaultCountry then PlusTokens(GetCountry(c)) else ""
  }

  /** The value is searched only together with a known denomination. */
  function ValueKeyword(c: Coin): string {
    if GetValue(c) != 0 && GetDenomination(c) != DefaultDenomination then IntToString(GetValue(c)) + "+" else ""
  }

  function DenominationKeywords(c: Coin): string {
    if GetDenomination(c) != DefaultDenomination then PlusTokens(GetDenomination(c)) else ""
  }

  function MintKeywords(c: Coin): string {
    if GetMint(c) != DefaultMint then PlusTokens(GetMint(c)) else ""
  }

  function GradeKeywords(c: Coin): string {
    if GetGrade(c).Some? then "grade+" + IntToString(GetGrade(c).value) + "+" else ""
  }

  /** The keywords of a coin, in the order country, value, denomination, year, mint, grade. */
  function CoinKeywords(c: Coin): string {
    CountryKeywords(c) + ValueKeyword(c) + DenominationKeywords(c) + YearKeywords(GetYear(c))
    + MintKeywords(c) + GradeKeywords(c)
  }

  /** Non-empty keywords get "coin+" appended; then one trailing plus sign is dropped. */
  function FinishKeywords(keywords: string): string {
    var withCoin := if keywords != "" then keywords + "coin+" else keywords;
    if |withCoin| > 0 && withCoin[|withCoin| - 1] == '+' then withCoin[..|withCoin| - 1] else withCoin
  }

  /** Some field of the coin other than quantity, comments and images is known. */
  predicate AnythingKnown(c: Coin) {
    GetCountry(c) != DefaultCountry || GetValue(c) != 0 || GetDenomination(c) != DefaultDenomination
    || GetDescriptiveName(c) != DefaultDescriptiveName || GetYear(c).Some? || GetMint(c) != DefaultMint
    || GetGrade(c).Some?
  }

  /** The search address for a coin: the bare engine address when nothing is known. */
  function CoinSearchUrl(c: Coin): string {
    if AnythingKnown(c) then SearchEngine + QueryStart + FinishKeywords(CoinKeywords(c)) else SearchEngine
  }

  /** Appends "coin+" to non-empty keywords and drops a trailing plus sign. */
  method FinishKeywordString(keywords: string) returns (r: string)
    ensures r == FinishKeywords(keywords)
  {
    r := keywords;
    if r != "" {
      r := r + "coin+";
    }
    if |r| > 0 && r[|r| - 1] == '+' {
      r := r[..|r| - 1];
    }
  }

  lemma AppendAssociative(a: string, b: string, c: string)
    ensures (a + b) + c == a + (b + c)
  {
  }

  /** Appends the digits of a year's magnitude and then its era word, if there is a year. */
  method AppendYearKeywords(acc: string, year: Option<int>) returns (r: string)
    ensures r == acc + YearKeywords(year)
  {
    r := acc;
    if year.Some? {
      var y := year.value;
      var digits := NatToString(if y < 0 then -y else y) + "+";
      r := r + digits;
      if y > 0 {
        r := r + (EraCE + "+");
      } else if y < 0 {
        r := r + (EraBCE + "+");
      }
      AppendAssociative(acc, digits, EraKeyword(y));
    }
  }

  /** Collects the keywords of a coin, field by field. */
  method CollectCoinKeywords(c: Coin) returns (keywords: string)
    ensures keywords == CoinKeywords(c)
  {
    keywords := "";
    if GetCountry(c) != DefaultCountry {
      keywords := AppendTokens(keywords, GetCountry(c));
    }
    ghost var soFar := keywords;
    assert soFar == CountryKeywords(c);
    if GetValue(c) != 0 && GetDenomination(c) != DefaultDenomination {
      keywords := keywords + (IntToString(GetValue(c)) + "+");
    }
    assert keywords == soFar + ValueKeyword(c);
    soFar := keywords;
    if GetDenomination(c) != DefaultDenomination {
      keywords := AppendTokens(keywords, GetDenomination(c));
    }
    assert keywords == soFar + DenominationKeywords(c);
    keywords := AppendYearKeywords(keywords, GetYear(c));
    soFar := keywords;
    if GetMint(c) != DefaultMint {
      keywords := AppendTokens(keywords, GetMint(c));
    }
    assert keywords == soFar + MintKeywords(c);
    soFar := keywords;
    if GetGrade(c).Some? {
      keywords := keywords + ("grade+" + IntToString(GetGrade(c).value) + "+");
    }
    assert keywords == soFar + GradeKeywords(c);
  }

  /** Builds the search address for a coin. */
  method SafariSearchCoin(c: Coin) returns (url: string)
    ensures url == CoinSearchUrl(c)
  {
    url := SearchEngine;
    if AnythingKnown(c) {
      url := url + QueryStart;
      var keywords := CollectCoinKeywords(c);
      keywords := FinishKeywordString(keywords);
      url := url + keywords;
    }
  }

  // ---------------------------------------------------------------------
  // Keywords of a category

  /**
   * The keywords of a category, taken from its first coin according to the
   * grouping type; a category without a type has none. Every grouping type
   * but the last needs a first coin.
   */
  function CategoryKeywords(cat: CoinCategory): string
    requires cat.currentCategoryType == NoCategory || |cat.coinsInCategory| > 0
  {
    match cat.currentCategoryType
    case CountryValueAndCurrency =>
      var sample := cat.coinsInCategory[0];
      CountryKeywords(sample) + ValueKeyword(sample) + DenominationKeywords(sample)
    case Country => CountryKeywords(cat.coinsInCategory[0])
    case Currency =>
      var sample := cat.coinsInCategory[0];
      CountryKeywords(sample) + DenominationKeywords(sample)
    case Year => YearKeywords(GetYear(cat.coinsInCategory[0]))
    case NoCategory => ""
  }

  /** The search address for a category always carries a query, possibly empty. */
  function CategorySearchUrl(cat: CoinCategory): string
    requires cat.currentCategoryType == NoCategory || |cat.coinsInCategory| > 0
  {
    SearchEngine + (QueryStart + FinishKeywords(CategoryKeywords(cat)))
  }

  /** Builds the search address for a category. */
  method SafariSearchCategory(cat: CoinCategory) returns (url: string)
    requires cat.currentCategoryType == NoCategory || |cat.coinsInCategory| > 0
    ensures url == CategorySearchUrl(cat)
  {
    url := SearchEngine;
    var keywords := "";
    match cat.currentCategoryType {
      case CountryValueAndCurrency =>
        var sample := cat.coinsInCategory[0];
        if GetCountry(sample) != DefaultCountry {
          keywords := AppendTokens(keywords, GetCountry(sample));
        }
        ghost var soFar := keywords;
        if GetValue(sample) != 0 && GetDenomination(sample) != DefaultDenomination {
          keywords := keywords + (IntToString(GetValue(sample)) + "+");
        }
        assert keywords == soFar + ValueKeyword(sample);
        if GetDenomination(sample) != DefaultDenomination {
          keywords := AppendTokens(keywords, GetDenomination(sample));
        }
      case Country =>
        var sample := cat.coinsInCategory[0];
        if GetCountry(sample) != DefaultCountry {
          keywords := AppendTokens(keywords, GetCountry(sample));
        }
      case Currency =>
        var sample := cat.coinsInCategory[0];
        if GetCountry(sample) != DefaultCountry {
          keywords := AppendTokens(keywords, GetCountry(sample));
        }
        if GetDenomination(sample) != DefaultDenomination {
          keywords := AppendTokens(keywords, GetDenomination(sample));
        }
      case Year =>
        keywords := AppendYearKeywords(keywords, GetYear(cat.coinsInCategory[0]));
      case NoCategory =>
    }
    assert keywords == CategoryKeywords(cat);
    keywords := FinishKeywordString(keywords);
    url := url + (QueryStart + keywords);
  }

  // ---------------------------------------------------------------------
  // Properties of the search addresses

  /** The finished query is empty for no keywords, else the keywords followed by "coin"; it never ends with a plus sign. */
  lemma FinishKeywordsShape(keywords: string)
    ensures keywords == "" ==> FinishKeywords(keywords) == ""
    ensures keywords != "" ==> FinishKeywords(keywords) == keywords + "coin"
    ensures |FinishKeywords(keywords)| > 0 ==> FinishKeywords(keywords)[|FinishKeywords(keywords)| - 1] != '+'
  {
    if keywords != "" {
      assert (keywords + "coin+")[..|keywords + "coin+"| - 1] == keywords + "coin";
    }
  }

  /** Token keywords are never empty: even an empty text contributes a lone plus sign. */
  lemma PlusTokensNonEmpty(s: string)
    ensures PlusTokens(s) != ""
  {
    PlusTokensAreSpacesToPluses(s);
  }

  /** A coin has keywords exactly when its country, denomination, year, mint or grade is known; a value alone adds none. */
  lemma CoinKeywordsEmptyIff(c: Coin)
    ensures CoinKeywords(c) == "" <==>
      GetCountry(c) == DefaultCountry && GetDenomination(c) == DefaultDenomination && GetYear(c).None?
      && GetMint(c) == DefaultMint && GetGrade(c).None?
  {
    PlusTokensNonEmpty(GetCountry(c));
    PlusTokensNonEmpty(GetDenomination(c));
    PlusTokensNonEmpty(GetMint(c));
  }

  /** The address is the bare engine address exactly when nothing is known; otherwise it carries the finished query. */
  lemma CoinSearchUrlShape(c: Coin)
    ensures CoinSearchUrl(c) == SearchEngine <==> !AnythingKnown(c)
    ensures AnythingKnown(c) && CoinKeywords(c) == "" ==> CoinSearchUrl(c) == SearchEngine + QueryStart
    ensures AnythingKnown(c) && CoinKeywords(c) != "" ==>
      CoinSearchUrl(c) == SearchEngine + QueryStart + CoinKeywords(c) + "coin"
  {
    FinishKeywordsShape(CoinKeywords(c));
    if AnythingKnown(c) {
      assert |CoinSearchUrl(c)| > |SearchEngine|;
    }
  }

  /** Without a known denomination, the value does not change the keywords. */
  lemma ValueNeedsDenomination(c: Coin, v: int)
    requires GetDenomination(c) == DefaultDenomination
    ensures CoinKeywords(c.(value := v)) == CoinKeywords(c)
  {
  }

  /** The number of decimal digits at the start of a text. */
  function LeadingDigits(w: string): nat {
    if |w| == 0 || !IsDecimalDigit(w[0]) then 0 else 1 + LeadingDigits(w[1..])
  }

  lemma {:induction false} LeadingDigitsBeforePlus(x: string, rest: string)
    requires AllDigits(x)
    ensures LeadingDigits(x + "+" + rest) == |x|
  {
    if |x| > 0 {
      assert (x + "+" + rest)[1..] == x[1..] + "+" + rest;
      LeadingDigitsBeforePlus(x[1..], rest);
    }
  }

  /** Digits followed by a plus sign can be split off only one way. */
  lemma DigitsThenPlus(x: string, u: string, y: string, v: string)
    requires AllDigits(x) && AllDigits(y)
    requires x + "+" + u == y + "+" + v
    ensures x == y && u == v
  {
    LeadingDigitsBeforePlus(x, u);
    LeadingDigitsBeforePlus(y, v);
    assert x == (x + "+" + u)[..|x|];
    assert y == (y + "+" + v)[..|y|];
    assert u == (x + "+" + u)[|x| + 1..];
    assert v == (y + "+" + v)[|y| + 1..];
  }

  /** Different years, or a year and no year, give different year keywords. */
  lemma YearKeywordsInjective(a: Option<int>, b: Option<int>)
    requires YearKeywords(a) == YearKeywords(b)
    ensures a == b
  {
    if a.Some? && b.Some? {
      var x, y := a.value, b.value;
      var mx: nat := if x < 0 then -x else x;
      var my: nat := if y < 0 then -y else y;
      DigitsThenPlus(NatToString(mx), EraKeyword(x), NatToString(my), EraKeyword(y));
      NatToStringInjective(mx, my);
    }
  }

  /** The address of a category always carries a query; a category without a type gets an empty one. */
  lemma CategorySearchUrlShape(cat: CoinCategory)
    requires cat.currentCategoryType == NoCategory || |cat.coinsInCategory| > 0
    ensures IsPrefix(SearchEngine + QueryStart, CategorySearchUrl(cat))
    ensures cat.currentCategoryType == NoCategory ==> CategorySearchUrl(cat) == SearchEngine + QueryStart
    ensures CategoryKeywords(cat) != "" ==>
      CategorySearchUrl(cat) == SearchEngine + QueryStart + (CategoryKeywords(cat) + "coin")
  {
    var k := CategoryKeywords(cat);
    var f := FinishKeywords(k);
    FinishKeywordsShape(k);
    AppendAssociative(SearchEngine, QueryStart, f);
    PrefixOfAppend(SearchEngine + QueryStart, f);
  }

  lemma PrefixOfAppend(a: string, b: string)
    ensures IsPrefix(a, a + b)
  {
    assert (a + b)[..|a|] == a;
  }

  lemma PrefixExtend(a: string, b: string, z: string)
    requires IsPrefix(a, b)
    ensures IsPrefix(a, b + z)
  {
    assert (b + z)[..|a|] == b[..|a|];
  }

  /**
   * A category grouped by country, or by country and value, searches for a
   * prefix of what its first coin alone would search for.
   */
  lemma CategoryKeywordsPrefixOfCoinKeywords(cat: CoinCategory)
    requires |cat.coinsInCategory| > 0
    requires cat.currentCategoryType == CountryValueAndCurrency || cat.currentCategoryType == Country
    ensures IsPrefix(CategoryKeywords(cat), CoinKeywords(cat.coinsInCategory[0]))
  {
    var s := cat.coinsInCategory[0];
    var country, value, denomination := CountryKeywords(s), ValueKeyword(s), DenominationKeywords(s);
    var year, mint, grade := YearKeywords(GetYear(s)), MintKeywords(s), GradeKeywords(s);
    var p := CategoryKeywords(cat);
    if cat.currentCategoryType == CountryValueAndCurrency {
      assert p == country + value + denomination;
      PrefixOfAppend(p, year);
    } else {
      assert p == country;
      PrefixOfAppend(p, value);
      PrefixExtend(p, country + value, denomination);
      PrefixExtend(p, country + value + denomination, year);
    }
    PrefixExtend(p, country + value + denomination + year, mint);
    PrefixExtend(p, country + value + denomination + year + mint, grade);
    assert CoinKeywords(s) == country + value + denomination + year + mint + grade;
  }

  /** In a consistent category grouped by year, every coin would give the same year keywords as the first. */
  lemma YearCategorySearchIndependentOfSample(cat: CoinCategory, k: int)
    requires cat.currentCategoryType == Year && Homogeneous(cat)
    requires 0 <= k < |cat.coinsInCategory|
    ensures CategoryKeywords(cat) == YearKeywords(GetYear(cat.coinsInCategory[k]))
  {
    assert Matches(Year, cat.coinsInCategory[0], cat.coinsInCategory[k]);
  }

  // ---------------------------------------------------------------------
  // The year keyword as written: through a 32-bit conversion

  const Int32Min: int := -0x8000_0000
  const Int32Modulus: int := 0x1_0000_0000

  /** The 32-bit integer an integer converts to, keeping its low 32 bits. */
  function WrapInt32(n: int): (r: int)
    ensures Int32Min <= r < -Int32Min
    ensures (r - n) % Int32Modulus == 0
  {
    (n - Int32Min) % Int32Modulus + Int32Min
  }

  /**
   * The year keywords as the source computes them: the digits are those of
   * the magnitude of the year converted to a 32-bit integer, while the era
   * word follows the unconverted year. None stands for the trap taking the
   * magnitude of the least 32-bit integer.
   */
  function YearKeywordsAsWritten(year: Option<int>): Option<string> {
    match year
    case None => Some("")
    case Some(y) =>
      var w := WrapInt32(y);
      if w == Int32Min then None else Some(NatToString(if w < 0 then -w else w) + "+" + EraKeyword(y))
  }

  /** Within the 32-bit range the conversion changes nothing. */
  lemma YearKeywordsAsWrittenWithinInt32(year: Option<int>)
    requires year.Some? ==> Int32Min < year.value < -Int32Min
    ensures YearKeywordsAsWritten(year) == Some(YearKeywords(year))
  {
    if year.Some? {
      var y := year.value;
      assert (y - Int32Min) % Int32Modulus == y - Int32Min;
    }
  }

  /** A number one modulus below the 32-bit range, or within it, converts by adding that modulus, or unchanged. */
  lemma WrapInt32WithinOneModulus(n: int, k: int)
    requires k == 0 || k == 1
    requires Int32Min <= n + k * Int32Modulus < -Int32Min
    ensures WrapInt32(n) == n + k * Int32Modulus
  {
    var t := n + k * Int32Modulus - Int32Min;
    assert 0 <= t < Int32Modulus;
    assert n - Int32Min == t - k * Int32Modulus;
  }

  /**
   * As written, a BCE year below the 32-bit range by less than one modulus,
   * such as 3000000000 BCE, is searched with the keywords of a different
   * year: the digits of its 32-bit remainder followed by "BCE".
   */
  lemma YearKeywordsAsWrittenCollide(y: int)
    requires -Int32Modulus < y < Int32Min
    ensures YearKeywordsAsWritten(Some(y)) == YearKeywordsAsWritten(Some(-(y + Int32Modulus)))
    ensures YearKeywordsAsWritten(Some(y)) == Some(YearKeywords(Some(-(y + Int32Modulus))))
    ensures YearKeywords(Some(y)) != YearKeywords(Some(-(y + Int32Modulus)))
  {
    var z := -(y + Int32Modulus);
    WrapInt32WithinOneModulus(y, 1);
    WrapInt32WithinOneModulus(z, 0);
    if YearKeywords(Some(y)) == YearKeywords(Some(z)) {
      YearKeywordsInjective(Some(y), Some(z));
    }
  }

  /** Such a year is accepted by the form: 3000000000 entered with "BCE" selected is stored as -3000000000. */
  lemma FormAcceptsYearBeyondInt32(currentYear: int, n: nat)
    requires 0 <= currentYear <= 10_000_000_000 && n == 3000000000
    ensures var form := EditForm("", "", NatToString(n), "", "", "", "", DefaultNoCommentsText, DefaultNoDescriptionText, 0);
      ValidInput(form, currentYear) && StoredYear(form) == Some(-(n as int))
  {
    ParseNatToString(n);
    var form := EditForm("", "", NatToString(n), "", "", "", "", DefaultNoCommentsText, DefaultNoDescriptionText, 0);
    assert ParseInt(NatToString(n)) == Some(n);
    assert TextFieldTexts(form)[2] != "";
  }

  // ---------------------------------------------------------------------
  // Shared text

  /** The kinds of sharing activity the text depends on; every other kind is `OtherActivity`. */
  datatype ActivityType =
    | Mail | PostToFacebook | CopyToPasteboard | AirDrop | PostToWeibo
    | Message | PostToTwitter | PostToTencentWeibo
    | OtherActivity

  /** Activities that receive the complete summary. */
  predicate GetsCompleteSummary(a: ActivityType) {
    a.Mail? || a.PostToFacebook? || a.CopyToPasteboard? || a.AirDrop? || a.PostToWeibo?
  }

  /** Activities that receive the three-line summary. */
  predicate GetsShortSummary(a: ActivityType) {
    a.Message? || a.PostToTwitter? || a.PostToTencentWeibo?
  }

  const ShareTitle: string := "Check out this coin in my collection!\n"
  const ShareHeader: string := ShareTitle + "---\n"
  const Bullet: string := "\U{27A3} "

  /**
   * The bulleted description of every detail of a coin. It reads the stored
   * fields, not the getters: the raw value and quantity are printed, the
   * grade unchecked, and an empty country or mint prints as empty text.
   */
  function CompleteSummary(c: Coin): string {
    "Information about this coin:\n\n"
    + Bullet + "Value and Denomination: " + IntToString(c.value) + " "
    + (if c.currency != "" then c.currency else "units of an unknown currency") + "\n"
    + Bullet + "Year: " + (if c.year.Some? then IntToString(c.year.value) else "Unknown Year") + "\n"
    + Bullet + "Country: " + (if c.country != DefaultCountry then c.country else "Unknown Country") + "\n"
    + Bullet + "Mint: " + (if c.mint != DefaultMint then c.mint else "Unknown Mint") + "\n"
    + Bullet + "Grade: " + (if c.grade.Some? then IntToString(c.grade.value) else "Unknown Grade") + "\n"
    + Bullet + "Number of Coins: " + IntToString(c.numberOfInstances) + "\n"
    + Bullet + "Additional Comments: "
    + (if c.comments != DefaultComments && c.comments != "" then c.comments else "No Additional Comments") + "\n"
  }

  /** The value line of the short summary, shown only when both value and denomination are known. */
  function ShortValueLine(c: Coin): string {
    if GetValue(c) != 0 && GetDenomination(c) != DefaultDenomination then ValueAndDenomination(c) + ".\n"
    else "Value and Denomination N/A.\n"
  }

  function ShortCountryLine(c: Coin): string {
    if GetCountry(c) != DefaultCountry then GetCountry(c) + ".\n" else "Country N/A.\n"
  }

  function ShortDescriptionLine(c: Coin): string {
    if GetDescriptiveName(c) != DefaultDescriptiveName then GetDescriptiveName(c) + ".\n" else "Description N/A.\n"
  }

  /**
   * The text shared for a coin through an activity: the header, then the
   * complete summary, or value, country and description one line each with
   * "N/A" for unknown ones, or nothing, depending on the activity.
   */
  function ShareText(c: Coin, a: ActivityType): string {
    if GetsCompleteSummary(a) then ShareHeader + CompleteSummary(c)
    else if GetsShortSummary(a) then ShareHeader + ShortValueLine(c) + ShortCountryLine(c) + ShortDescriptionLine(c)
    else ShareHeader
  }

  /** Builds the shared text by appending, as the sharing item source does. */
  method ItemForActivityType(c: Coin, a: ActivityType) returns (text: string)
    ensures text == ShareText(c, a)
  {
    text := ShareTitle;
    text := text + "---\n";
    if GetsCompleteSummary(a) {
      text := text + CompleteSummary(c);
    } else if GetsShortSummary(a) {
      if GetValue(c) != 0 && GetDenomination(c) != DefaultDenomination {
        text := text + (ValueAndDenomination(c) + ".\n");
      } else {
        text := text + "Value and Denomination N/A.\n";
      }
      if GetCountry(c) != DefaultCountry {
        text := text + (GetCountry(c) + ".\n");
      } else {
        text := text + "Country N/A.\n";
      }
      if GetDescriptiveName(c) != DefaultDescriptiveName {
        text := text + (GetDescriptiveName(c) + ".\n");
      } else {
        text := text + "Description N/A.\n";
      }
    }
  }

  /** Every shared text starts with the header; activities of neither kind get the header alone. */
  lemma ShareTextStartsWithHeader(c: Coin, a: ActivityType)
    ensures IsPrefix(ShareHeader, ShareText(c, a))
    ensures !GetsCompleteSummary(a) && !GetsShortSummary(a) ==> ShareText(c, a) == ShareHeader
    ensures !(GetsCompleteSummary(a) && GetsShortSummary(a))
  {
    if GetsCompleteSummary(a) {
      PrefixOfAppend(ShareHeader, CompleteSummary(c));
    } else if GetsShortSummary(a) {
      PrefixOfAppend(ShareHeader, ShortValueLine(c));
      PrefixExtend(ShareHeader, ShareHeader + ShortValueLine(c), ShortCountryLine(c));
      PrefixExtend(ShareHeader, ShareHeader + ShortValueLine(c) + ShortCountryLine(c), ShortDescriptionLine(c));
    } else {
      PrefixOfAppend(ShareHeader, "");
    }
  }

  /** The value line reads "Value and Denomination N/A." exactly when the value or the denomination is unknown. */
  lemma ShortValueLineIff(c: Coin)
    ensures ShortValueLine(c) == "Value and Denomination N/A.\n" <==>
            !(GetValue(c) != 0 && GetDenomination(c) != DefaultDenomination)
  {
    var line := ShortValueLine(c);
    if GetValue(c) != 0 && GetDenomination(c) != DefaultDenomination {
      var digits := NatToString(if c.value < 0 then -c.value else c.value);
      assert IsDecimalDigit(digits[0]);
      assert line[0] == (if c.value < 0 then '-' else digits[0]);
    }
  }

  /** A coin with nothing known is shared in short form as three "N/A" lines. */
  lemma NewCoinShortText(a: ActivityType)
    requires GetsShortSummary(a)
    ensures ShareText(NewCoin(), a)
            == ShareHeader + "Value and Denomination N/A.\n" + "Country N/A.\n" + "Description N/A.\n"
  {
  }

  /** The complete summary ignores the description and the images. */
  lemma CompleteSummaryIgnoresDescription(c: Coin, name: string, obverse: Option<Image>, reverse: Option<Image>)
    ensures CompleteSummary(c.(descriptiveName := name, obverseImage := obverse, reverseImage := reverse))
            == CompleteSummary(c)
  {
  }
}
