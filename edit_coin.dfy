// The form used to enter or edit a coin: cleaning typed text, the
// keystroke filter of the numeric fields and the era chooser, validating
// the form, and building a coin from it.
//
// A text field's text is held as a string, with no text written as "".
// The era chooser is its enabled flag and selected segment: segment 0 is
// titled "BCE", segment 1 "CE", and -1 means nothing is selected.

module EditCoin {
  import opened Wrappers
  import opened Strings
  import opened Coins

  /** The placeholder texts shown in the comment and description boxes when they are empty. */
  const DefaultNoCommentsText: string := "Additional Comments Not Available"
  const DefaultNoDescriptionText: string := "Description Not Available"

  /** The largest value of the platform's integer type; longer digit strings do not convert. */
  const IntMax: int := 0x7FFF_FFFF_FFFF_FFFF

  /** The age of the universe in years, the bound on how far before year 0 a coin can be. */
  const AgeOfUniverse: int := 13800000000

  // ---------------------------------------------------------------------
  // Cleaning typed text

  /** The number of whitespace characters at the start of `s`. */
  function LeadingWhitespace(s: string): (n: nat)
    ensures n <= |s|
    ensures forall k :: 0 <= k < n ==> IsWhitespace(s[k])
    ensures n < |s| ==> !IsWhitespace(s[n])
  {
    if |s| == 0 || !IsWhitespace(s[0]) then 0 else 1 + LeadingWhitespace(s[1..])
  }

  /** The end of `s` once trailing whitespace after position `lo` is cut off. */
  function TrailingEnd(s: string, lo: nat): (m: nat)
    requires lo <= |s|
    ensures lo <= m <= |s|
    ensures forall k :: m <= k < |s| ==> IsWhitespace(s[k])
    ensures m > lo ==> !IsWhitespace(s[m - 1])
    decreases |s|
  {
    if |s| == lo || !IsWhitespace(s[|s| - 1]) then |s| else TrailingEnd(s[..|s| - 1], lo)
  }

  /** `s` without leading and trailing whitespace. */
  function TrimWhitespace(s: string): (r: string)
    ensures var i := LeadingWhitespace(s);
      i + |r| <= |s| && r == s[i..i + |r|]
      && (forall k :: i + |r| <= k < |s| ==> IsWhitespace(s[k]))
    ensures |r| > 0 ==> !IsWhitespace(r[0]) && !IsWhitespace(r[|r| - 1])
  {
    var i := LeadingWhitespace(s);
    s[i..TrailingEnd(s, i)]
  }

  /**
   * Trims leading and trailing whitespace and then removes one trailing
   * punctuation character, if there is one. No text stays no text.
   */
  function TrimWhiteSpaceAndRemoveLastPunctuation(str: Option<string>): (r: Option<string>)
    ensures str.None? <==> r.None?
    ensures str.Some? ==>
      var t := TrimWhitespace(str.value);
      if |t| > 0 && IsPunctuation(t[|t| - 1]) then r.value == t[..|t| - 1] else r.value == t
  {
    if str.None? then None
    else
      var toReturn := TrimWhitespace(str.value);
      if |toReturn| > 0 && IsPunctuation(toReturn[|toReturn| - 1]) then Some(toReturn[..|toReturn| - 1])
      else Some(toReturn)
  }

  /** The cleaned text is a piece of the typed text, starting where its leading whitespace ends. */
  lemma {:induction false} TrimmedIsInfix(s: string)
    ensures var r := TrimWhiteSpaceAndRemoveLastPunctuation(Some(s)).value;
      var i := LeadingWhitespace(s);
      i + |r| <= |s| && r == s[i..i + |r|]
  {
    var t := TrimWhitespace(s);
    var i := LeadingWhitespace(s);
    if |t| > 0 && IsPunctuation(t[|t| - 1]) {
      assert t[..|t| - 1] == s[i..i + |t| - 1];
    }
  }

  /** The cleaned text does not start with whitespace. */
  lemma {:induction false} TrimmedStartsWithNonWhitespace(s: string)
    ensures var r := TrimWhiteSpaceAndRemoveLastPunctuation(Some(s)).value;
      |r| > 0 ==> !IsWhitespace(r[0])
  {
    var t := TrimWhitespace(s);
    var r := TrimWhiteSpaceAndRemoveLastPunctuation(Some(s)).value;
    assert |r| > 0 ==> r[0] == t[0];
  }

  /** Only one punctuation character goes: cleaning "a.." gives "a.", and cleaning again gives "a". */
  lemma TrimIsNotIdempotent()
    ensures TrimWhiteSpaceAndRemoveLastPunctuation(Some("a..")) == Some("a.")
    ensures TrimWhiteSpaceAndRemoveLastPunctuation(Some("a.")) == Some("a")
  {
    assert LeadingWhitespace("a..") == 0 && TrailingEnd("a..", 0) == 3;
    assert TrimWhitespace("a..") == "a..";
    assert "a.."[..2] == "a.";
    assert LeadingWhitespace("a.") == 0 && TrailingEnd("a.", 0) == 2;
    assert TrimWhitespace("a.") == "a.";
    assert "a."[..1] == "a";
  }

  // ---------------------------------------------------------------------
  // The keystroke filter

  datatype TextField = ValueField | DenominationField | YearField | CountryField | MintField | GradeField | NumberField

  predicate IsNumericField(f: TextField) {
    f == ValueField || f == YearField || f == GradeField || f == NumberField
  }

  datatype EraChooser = EraChooser(enabled: bool, selectedSegment: int)

  const NoEraSelected: EraChooser := EraChooser(false, -1)
  const CESelected: EraChooser := EraChooser(true, 1)

  /** Whether a replacement typed into a field is accepted, and the era chooser afterwards. */
  datatype KeystrokeDecision = KeystrokeDecision(accept: bool, chooser: EraChooser)

  /**
   * Filters a replacement typed into a field holding `text`: deletions are
   * accepted (emptying the year also clears the era chooser); numeric fields
   * take only digits and refuse a "0" typed into an empty field; the first
   * digits typed into an empty year select "CE"; other fields take anything.
   */
  function ShouldChangeCharacters(field: TextField, text: string, replacement: string, chooser: EraChooser)
    : KeystrokeDecision
  {
    if replacement == "" then
      if field == YearField && |text| <= 1 then KeystrokeDecision(true, NoEraSelected)
      else KeystrokeDecision(true, chooser)
    else if IsNumericField(field) then
      var haveAllNumbers := AllDigits(replacement);
      if haveAllNumbers && field == YearField then
        if text == "" && replacement == "0" then KeystrokeDecision(false, chooser)
        else if text == "" && replacement != "" && replacement != "0" then KeystrokeDecision(haveAllNumbers, CESelected)
        else KeystrokeDecision(haveAllNumbers, chooser)
      else if haveAllNumbers then
        if replacement == "0" && text == "" then KeystrokeDecision(false, chooser)
        else KeystrokeDecision(haveAllNumbers, chooser)
      else KeystrokeDecision(haveAllNumbers, chooser)
    else KeystrokeDecision(true, chooser)
  }

  /** Acceptance: anything is deleted; numeric fields take digit strings other than a leading "0"; other fields take all. */
  lemma KeystrokeAcceptance(field: TextField, text: string, replacement: string, chooser: EraChooser)
    ensures ShouldChangeCharacters(field, text, replacement, chooser).accept
            <==> replacement == "" || !IsNumericField(field)
                 || (AllDigits(replacement) && !(replacement == "0" && text == ""))
  {
  }

  /** Only the year field moves the era chooser: emptying it clears the chooser, a first digit selects "CE". */
  lemma KeystrokeEraChooser(field: TextField, text: string, replacement: string, chooser: EraChooser)
    ensures var after := ShouldChangeCharacters(field, text, replacement, chooser).chooser;
      if field == YearField && replacement == "" && |text| <= 1 then after == NoEraSelected
      else if field == YearField && text == "" && replacement != "0" && replacement != "" && AllDigits(replacement)
      then after == CESelected
      else after == chooser
  {
  }

  // ---------------------------------------------------------------------
  // The form

  datatype EditForm = EditForm(
    value: string, denomination: string, year: string, country: string, mint: string,
    grade: string, number: string, comment: string, description: string, eraSegment: int)

  /** The texts of the seven text fields, in the order the form lists them. */
  function TextFieldTexts(form: EditForm): (r: seq<string>)
    ensures |r| == 7
  {
    [form.value, form.denomination, form.year, form.country, form.mint, form.grade, form.number]
  }

  /** Every text field is empty and both boxes show their placeholders. */
  predicate NoInputEntered(form: EditForm) {
    (forall k :: 0 <= k < |TextFieldTexts(form)| ==> TextFieldTexts(form)[k] == "")
    && form.comment == DefaultNoCommentsText && form.description == DefaultNoDescriptionText
  }

  /** Checks the text fields one by one, then the two boxes. */
  method AllFieldsEmpty(form: EditForm) returns (empty: bool)
    ensures empty == NoInputEntered(form)
  {
    var fields := TextFieldTexts(form);
    var i := 0;
    while i < |fields|
      invariant 0 <= i <= |fields|
      invariant forall k :: 0 <= k < i ==> fields[k] == ""
    {
      if fields[i] != "" {
        return false;
      }
      i := i + 1;
    }
    if form.comment != DefaultNoCommentsText {
      return false;
    }
    if form.description != DefaultNoDescriptionText {
      return false;
    }
    return true;
  }

  /** The integer a text converts to: digits only, and no larger than the integer type holds. */
  function ParseInt(s: string): (r: Option<int>)
    ensures r.Some? <==> s != "" && AllDigits(s) && ParseDigits(s) <= IntMax
    ensures r.Some? ==> 0 <= r.value <= IntMax && NatToString(r.value) != ""
  {
    if s != "" && AllDigits(s) && ParseDigits(s) <= IntMax then Some(ParseDigits(s)) else None
  }

  /** A non-empty field converts to an integer. */
  predicate Converts(s: string) {
    s == "" || ParseInt(s).Some?
  }

  /** The title of a segment of the era chooser. */
  function SegmentTitle(segment: int): Option<string> {
    if segment == 0 then Some(EraBCE) else if segment == 1 then Some(EraCE) else None
  }

  /** A non-empty year converts and lies within the bound of the selected era. */
  predicate YearWithinBounds(year: string, eraSegment: int, currentYear: int) {
    var y := ParseInt(year);
    if eraSegment == 1 then y.Some? && y.value <= currentYear
    else y.Some? && y.value <= AgeOfUniverse - currentYear
  }

  /** The form is accepted: something was entered, a grade is on the scale, a year within its era's bound. */
  predicate ValidInput(form: EditForm, currentYear: int)
    requires Converts(form.grade)
  {
    !NoInputEntered(form)
    && (form.grade != "" ==> GradingLowerLimit <= ParseInt(form.grade).value <= GradingUpperLimit)
    && (form.year != "" ==> YearWithinBounds(form.year, form.eraSegment, currentYear))
  }

  /** Runs the checks in turn, each able to clear the verdict. */
  method ValidateUserInput(form: EditForm, currentYear: int) returns (noInputErrors: bool)
    requires Converts(form.grade)
    ensures noInputErrors == ValidInput(form, currentYear)
  {
    noInputErrors := true;
    var empty := AllFieldsEmpty(form);
    if empty {
      noInputErrors := false;
    }
    if form.grade != "" {
      var grade := ParseInt(form.grade).value;
      if !(GradingLowerLimit <= grade && grade <= GradingUpperLimit) {
        noInputErrors := false;
      }
    }
    if form.year != "" {
      var year := ParseInt(form.year);
      if form.eraSegment == 1 {
        if year.None? || year.value > currentYear {
          noInputErrors := false;
        }
      } else {
        if year.None? || year.value > AgeOfUniverse - currentYear {
          noInputErrors := false;
        }
      }
    }
  }

  /** The year a non-empty year field stores: negated when the selected era is titled "BCE". */
  function StoredYear(form: EditForm): Option<int>
    requires Converts(form.year)
  {
    if form.year == "" then None
    else if SegmentTitle(form.eraSegment) == Some(EraBCE) then Some(-1 * ParseInt(form.year).value)
    else Some(ParseInt(form.year).value)
  }

  /** A cleaned non-empty text. */
  function Cleaned(s: string): string {
    TrimWhiteSpaceAndRemoveLastPunctuation(Some(s)).value
  }

  /** The form's value, country and denomination stored into `c`, each only when entered. */
  method StoreValueCountryDenomination(c: Coin, form: EditForm) returns (coin: Coin)
    requires Converts(form.value)
    ensures coin == c.(value := if form.value == "" then c.value else ParseInt(form.value).value,
                       country := if form.country == "" then c.country else Cleaned(form.country),
                       currency := if form.denomination == "" then c.currency else Cleaned(form.denomination))
  {
    coin := c;
    if form.value != "" {
      coin := SetValue(coin, ParseInt(form.value).value);
    }
    if form.country != "" {
      coin := SetCountry(coin, Cleaned(form.country));
    }
    if form.denomination != "" {
      coin := SetDenomination(coin, Cleaned(form.denomination));
    }
  }

  /** The form's mint, year and grade stored into `c`, each only when entered. */
  method StoreMintYearGrade(c: Coin, form: EditForm) returns (coin: Coin)
    requires Converts(form.year) && Converts(form.grade)
    ensures coin == c.(mint := if form.mint == "" then c.mint else Cleaned(form.mint),
                       year := if form.year == "" then c.year else StoredYear(form),
                       grade := if form.grade == "" then c.grade else Some(ParseInt(form.grade).value))
  {
    coin := c;
    if form.mint != "" {
      coin := SetMint(coin, Cleaned(form.mint));
    }
    if form.year != "" {
      coin := SetYear(coin, StoredYear(form));
    }
    if form.grade != "" {
      coin := SetGrade(coin, Some(ParseInt(form.grade).value));
    }
  }

  /**
   * The form's comments, quantity and description stored into `c`. Comments
   * are stored unless empty or the placeholder; the description only when the
   * comment box is non-empty and the description is not its placeholder.
   */
  method StoreCommentsNumberDescription(c: Coin, form: EditForm) returns (coin: Coin)
    requires Converts(form.number)
    ensures coin == c.(comments := if form.comment != "" && form.comment != DefaultNoCommentsText
                                   then Cleaned(form.comment) else c.comments,
                       numberOfInstances := if form.number == "" then c.numberOfInstances else ParseInt(form.number).value,
                       descriptiveName := if form.comment != "" && form.description != DefaultNoDescriptionText
                                          then Cleaned(form.description) else c.descriptiveName)
  {
    coin := c;
    if form.comment != "" && form.comment != DefaultNoCommentsText {
      coin := SetComments(coin, Cleaned(form.comment));
    }
    if form.number != "" {
      coin := SetNumInstances(coin, ParseInt(form.number).value);
    }
    if form.comment != "" && form.description != DefaultNoDescriptionText {
      coin := SetDescriptiveName(coin, Cleaned(form.description));
    }
  }

  /**
   * The coin an accepted form describes: a new coin with each entered field
   * stored through its setter, text fields cleaned first, and the two images.
   */
  method CoinFromForm(form: EditForm, obverse: Option<Image>, reverse: Option<Image>) returns (coin: Coin)
    requires Converts(form.grade) && Converts(form.value) && Converts(form.number) && Converts(form.year)
    ensures coin.value >= 0 && coin.numberOfInstances >= 0
    ensures coin.year == StoredYear(form)
    ensures coin.value == (if form.value == "" then 0 else ParseInt(form.value).value)
    ensures coin.grade == (if form.grade == "" then None else Some(ParseInt(form.grade).value))
    ensures coin.numberOfInstances == (if form.number == "" then 1 else ParseInt(form.number).value)
    ensures coin.country == (if form.country == "" then "" else Cleaned(form.country))
    ensures coin.currency == (if form.denomination == "" then "" else Cleaned(form.denomination))
    ensures coin.mint == (if form.mint == "" then "" else Cleaned(form.mint))
    ensures coin.comments == (if form.comment != "" && form.comment != DefaultNoCommentsText then Cleaned(form.comment) else "")
    ensures coin.descriptiveName
         == (if form.comment != "" && form.description != DefaultNoDescriptionText then Cleaned(form.description) else "")
    ensures coin.obverseImage == obverse && coin.reverseImage == reverse
  {
    coin := NewCoin();
    coin := StoreValueCountryDenomination(coin, form);
    coin := StoreMintYearGrade(coin, form);
    coin := StoreCommentsNumberDescription(coin, form);
    coin := SetObverseImage(coin, obverse);
    coin := SetReverseImage(coin, reverse);
  }

  /** Builds the coin for an accepted form, and none for a refused one. */
  method GetCoinFromInputtedData(form: EditForm, currentYear: int, obverse: Option<Image>, reverse: Option<Image>)
    returns (r: Option<Coin>)
    requires Converts(form.grade) && Converts(form.value) && Converts(form.number)
    ensures r.None? <==> !ValidInput(form, currentYear)
    ensures r.Some? ==>
      var coin := r.value;
      Converts(form.year)
      && coin.year == StoredYear(form)
      && coin.value == (if form.value == "" then 0 else ParseInt(form.value).value)
      && coin.grade == (if form.grade == "" then None else Some(ParseInt(form.grade).value))
      && coin.numberOfInstances == (if form.number == "" then 1 else ParseInt(form.number).value)
      && coin.country == (if form.country == "" then "" else Cleaned(form.country))
      && coin.currency == (if form.denomination == "" then "" else Cleaned(form.denomination))
      && coin.mint == (if form.mint == "" then "" else Cleaned(form.mint))
      && coin.comments == (if form.comment != "" && form.comment != DefaultNoCommentsText then Cleaned(form.comment) else "")
      && coin.descriptiveName
         == (if form.comment != "" && form.description != DefaultNoDescriptionText then Cleaned(form.description) else "")
      && coin.obverseImage == obverse && coin.reverseImage == reverse
  {
    var valid := ValidateUserInput(form, currentYear);
    if !valid {
      return None;
    }
    var coin := CoinFromForm(form, obverse, reverse);
    return Some(coin);
  }

  /** An accepted year: a "CE" year is at most the current year, a "BCE" year is stored negative and within the universe's age. */
  lemma AcceptedYearBounds(form: EditForm, currentYear: int)
    requires Converts(form.grade) && form.year != "" && ValidInput(form, currentYear)
    ensures Converts(form.year) && StoredYear(form).Some?
    ensures form.eraSegment == 1 ==> 0 <= StoredYear(form).value <= currentYear
    ensures form.eraSegment == 0 ==> -(AgeOfUniverse - currentYear) <= StoredYear(form).value <= 0
  {
  }

  /** With no era selected, the year is checked against the "BCE" bound but stored as a "CE" year. */
  lemma UnselectedEraStoredAsCE(form: EditForm, currentYear: int)
    requires Converts(form.grade) && form.year != "" && form.eraSegment == -1
    ensures ValidInput(form, currentYear) <==>
            !NoInputEntered(form)
            && (form.grade != "" ==> GradingLowerLimit <= ParseInt(form.grade).value <= GradingUpperLimit)
            && ParseInt(form.year).Some? && ParseInt(form.year).value <= AgeOfUniverse - currentYear
    ensures ValidInput(form, currentYear) ==> StoredYear(form) == Some(ParseInt(form.year).value)
  {
  }

  /** A form with nothing entered is refused. */
  lemma EmptyFormRefused(currentYear: int)
    ensures !ValidInput(EditForm("", "", "", "", "", "", "", DefaultNoCommentsText, DefaultNoDescriptionText, -1), currentYear)
  {
    var form := EditForm("", "", "", "", "", "", "", DefaultNoCommentsText, DefaultNoDescriptionText, -1);
    assert NoInputEntered(form);
  }
}
