// The coin record: its stored fields, the clamping setters, the getters that
// substitute a "(...?)" default for missing text, the formatted value and
// denomination, and the three ways two coins are compared.

module Coins {
  import opened Wrappers
  import opened Strings

  /** An opaque token standing for a photograph of one face of the coin. */
  type Image = nat

  const GradingLowerLimit: int := 1
  const GradingUpperLimit: int := 70

  const DefaultDescriptiveName: string := "(Description?)"
  const DefaultComments: string := "(Comments?)"
  const DefaultDenomination: string := "(Currency?)"
  const DefaultMint: string := "(Mint?)"
  const DefaultCountry: string := "(Country?)"
  const DefaultYear: string := "(Year?)"
  const DefaultGrade: string := "(Grade?)"
  const DefaultValueString: string := "(Value?)"
  const DefaultValueAndDenomination: string := DefaultValueString + " " + DefaultDenomination
  const NotAvailable: string := "N/A"

  /** Era words used when a year is shown or searched. */
  const EraBCE: string := "BCE"
  const EraCE: string := "CE"

  /**
   * The stored fields of a coin, exactly as held: text may be empty, the
   * year and grade may be absent, and value and quantity are unclamped
   * integers (only the setters clamp them).
   */
  datatype Coin = Coin(
    country: string,
    mint: string,
    year: Option<int>,
    currency: string,
    value: int,
    grade: Option<int>,
    comments: string,
    numberOfInstances: int,
    descriptiveName: string,
    obverseImage: Option<Image>,
    reverseImage: Option<Image>)

  /** The coin made by the no-argument initializer. */
  function NewCoin(): Coin {
    Coin("", "", None, "", 0, None, "", 1, "", None, None)
  }

  // ---------------------------------------------------------------------
  // Getters

  /** The stored text, or the given placeholder when the stored text is empty. */
  function OrDefault(stored: string, default: string): string {
    if stored == "" then default else stored
  }

  function GetCountry(c: Coin): string { OrDefault(c.country, DefaultCountry) }
  function GetMint(c: Coin): string { OrDefault(c.mint, DefaultMint) }
  function GetDenomination(c: Coin): string { OrDefault(c.currency, DefaultDenomination) }
  function GetComments(c: Coin): string { OrDefault(c.comments, DefaultComments) }
  function GetDescriptiveName(c: Coin): string { OrDefault(c.descriptiveName, DefaultDescriptiveName) }
  function GetYear(c: Coin): Option<int> { c.year }
  function GetValue(c: Coin): int { c.value }

  function GetGrade(c: Coin): Option<int> {
    if c.grade.Some? && GradingLowerLimit <= c.grade.value <= GradingUpperLimit then c.grade else None
  }

  function GetNumInstances(c: Coin): nat {
    if c.numberOfInstances >= 0 then c.numberOfInstances else 0
  }

  // ---------------------------------------------------------------------
  // Setters: each replaces one stored field

  function SetCountry(c: Coin, s: string): Coin { c.(country := s) }
  function SetMint(c: Coin, s: string): Coin { c.(mint := s) }
  function SetYear(c: Coin, y: Option<int>): Coin { c.(year := y) }
  function SetDenomination(c: Coin, s: string): Coin { c.(currency := s) }
  function SetGrade(c: Coin, g: Option<int>): Coin { c.(grade := g) }
  function SetComments(c: Coin, s: string): Coin { c.(comments := s) }
  function SetDescriptiveName(c: Coin, s: string): Coin { c.(descriptiveName := s) }
  function SetObverseImage(c: Coin, i: Option<Image>): Coin { c.(obverseImage := i) }
  function SetReverseImage(c: Coin, i: Option<Image>): Coin { c.(reverseImage := i) }

  /** Stores the value, except that a negative value is stored as 0. */
  function SetValue(c: Coin, v: int): (r: Coin)
    ensures r.value >= 0
    ensures v >= 0 ==> r.value == v
    ensures r == c.(value := r.value)
  {
    if v < 0 then c.(value := 0) else c.(value := v)
  }

  /** Stores the quantity, except that a negative quantity is stored as 0. */
  function SetNumInstances(c: Coin, n: int): (r: Coin)
    ensures r.numberOfInstances >= 0
    ensures n >= 0 ==> r.numberOfInstances == n
    ensures r == c.(numberOfInstances := r.numberOfInstances)
  {
    if n < 0 then c.(numberOfInstances := 0) else c.(numberOfInstances := n)
  }

  function IncrementNumInstances(c: Coin): (r: Coin)
    ensures r.numberOfInstances == c.numberOfInstances + 1
    ensures r == c.(numberOfInstances := r.numberOfInstances)
  {
    c.(numberOfInstances := c.numberOfInstances + 1)
  }

  /** Lowers the stored quantity by one; it may become negative. */
  function DecrementNumInstances(c: Coin): (r: Coin)
    ensures r.numberOfInstances == c.numberOfInstances - 1
    ensures r == c.(numberOfInstances := r.numberOfInstances)
  {
    c.(numberOfInstances := c.numberOfInstances - 1)
  }

  /** Copies every field of `right`, the value-level form of assigning into an existing coin. */
  function Assign(left: Coin, right: Coin): (r: Coin)
    ensures r == right
  {
    Coin(right.country, right.mint, right.year, right.currency, right.value, right.grade,
         right.comments, right.numberOfInstances, right.descriptiveName,
         right.obverseImage, right.reverseImage)
  }

  // ---------------------------------------------------------------------
  // Formatting

  /** "20 Cents"-style text, with a placeholder for a zero value or an empty currency. */
  function ValueAndDenomination(c: Coin): string {
    if c.value != 0 && c.currency != "" then IntToString(c.value) + " " + c.currency
    else if c.value == 0 && c.currency != "" then DefaultValueString + " " + c.currency
    else if c.value != 0 && c.currency == "" then IntToString(c.value) + " " + DefaultDenomination
    else DefaultValueAndDenomination
  }

  // ---------------------------------------------------------------------
  // Comparisons

  /** Same country, value and denomination: coins that belong to the same kind. */
  predicate OfSameType(a: Coin, b: Coin) {
    EqualIgnoringCase(GetCountry(a), GetCountry(b)) && GetValue(a) == GetValue(b)
    && EqualIgnoringCase(GetDenomination(a), GetDenomination(b))
  }

  /** Same stored description in every field except quantity and images. */
  predicate IsIdenticalCoin(a: Coin, b: Coin) {
    EqualIgnoringCase(a.country, b.country) && a.value == b.value
    && EqualIgnoringCase(a.currency, b.currency) && EqualIgnoringCase(a.mint, b.mint)
    && a.year == b.year && a.grade == b.grade && a.comments == b.comments
    && a.descriptiveName == b.descriptiveName
  }

  /** Equality of coins in all fields, text fields up to case. */
  predicate CoinsEqual(a: Coin, b: Coin) {
    IsIdenticalCoin(a, b) && a.numberOfInstances == b.numberOfInstances
    && a.obverseImage == b.obverseImage && a.reverseImage == b.reverseImage
  }

  // ---------------------------------------------------------------------
  // Properties

  /** The value read back after setting is never negative, and equals the argument when that is not. */
  lemma SetValueThenGet(c: Coin, v: int)
    ensures GetValue(SetValue(c, v)) == (if v < 0 then 0 else v)
  {
  }

  /** The quantity read back is never negative; setting a non-negative quantity reads it back. */
  lemma NumInstancesNeverNegative(c: Coin, n: int)
    ensures GetNumInstances(SetNumInstances(c, n)) == (if n < 0 then 0 else n)
    ensures GetNumInstances(DecrementNumInstances(c)) == (if c.numberOfInstances >= 1 then c.numberOfInstances - 1 else 0)
    ensures c.numberOfInstances >= 0 ==> GetNumInstances(IncrementNumInstances(c)) == GetNumInstances(c) + 1
  {
  }

  /** A grade reads back exactly when it lies within the grading scale. */
  lemma GradeReadsBackWithinScale(c: Coin, g: int)
    ensures GetGrade(SetGrade(c, Some(g))) == Some(g) <==> 1 <= g <= 70
    ensures GetGrade(SetGrade(c, Some(g))).None? <==> !(1 <= g <= 70)
    ensures GetGrade(SetGrade(c, None)).None?
  {
  }

  /** A text getter returns what was set when it is non-empty and its placeholder otherwise; never empty. */
  lemma TextGettersSubstituteDefaults(c: Coin, s: string)
    ensures GetCountry(SetCountry(c, s)) == (if s == "" then DefaultCountry else s)
    ensures GetMint(SetMint(c, s)) == (if s == "" then DefaultMint else s)
    ensures GetDenomination(SetDenomination(c, s)) == (if s == "" then DefaultDenomination else s)
    ensures GetComments(SetComments(c, s)) == (if s == "" then DefaultComments else s)
    ensures GetDescriptiveName(SetDescriptiveName(c, s)) == (if s == "" then DefaultDescriptiveName else s)
    ensures GetCountry(c) != "" && GetMint(c) != "" && GetDenomination(c) != ""
    ensures GetComments(c) != "" && GetDescriptiveName(c) != ""
  {
  }

  /** The four formats of the value and denomination. */
  lemma ValueAndDenominationCases(c: Coin)
    ensures c.value == 0 && c.currency == "" ==> ValueAndDenomination(c) == "(Value?) (Currency?)"
    ensures c.value == 0 && c.currency != "" ==> ValueAndDenomination(c) == "(Value?) " + c.currency
    ensures c.value != 0 ==> ValueAndDenomination(c) == IntToString(c.value) + " " + GetDenomination(c)
  {
  }

  /** The no-argument coin: one instance, no year, value 0, no grade, every text at its placeholder. */
  lemma NewCoinDefaults()
    ensures GetNumInstances(NewCoin()) == 1 && GetYear(NewCoin()).None? && GetValue(NewCoin()) == 0
    ensures GetGrade(NewCoin()).None?
    ensures GetCountry(NewCoin()) == DefaultCountry && GetMint(NewCoin()) == DefaultMint
    ensures GetDenomination(NewCoin()) == DefaultDenomination && GetComments(NewCoin()) == DefaultComments
    ensures ValueAndDenomination(NewCoin()) == DefaultValueAndDenomination
  {
  }

  /** Being of the same type is an equivalence. */
  lemma OfSameTypeIsEquivalence(a: Coin, b: Coin, c: Coin)
    ensures OfSameType(a, a)
    ensures OfSameType(a, b) ==> OfSameType(b, a)
    ensures OfSameType(a, b) && OfSameType(b, c) ==> OfSameType(a, c)
  {
  }

  /** Case folding keeps empty text empty and non-empty text non-empty. */
  lemma FoldEmpty(s: string)
    ensures Fold(s) == "" <==> s == ""
  {
  }

  /** Identical coins are of the same type, even though one compares stored fields and the other the getters. */
  lemma IdenticalCoinsAreOfSameType(a: Coin, b: Coin)
    requires IsIdenticalCoin(a, b)
    ensures OfSameType(a, b)
  {
    FoldEmpty(a.country);
    FoldEmpty(b.country);
    FoldEmpty(a.currency);
    FoldEmpty(b.currency);
  }

  /** Identity ignores the quantity and the images; full equality does not. */
  lemma IdentityIgnoresQuantityAndImages(a: Coin, b: Coin, n: int, o: Option<Image>, r: Option<Image>)
    ensures IsIdenticalCoin(a, b) <==> IsIdenticalCoin(a.(numberOfInstances := n, obverseImage := o, reverseImage := r), b)
    ensures CoinsEqual(a, b) ==> IsIdenticalCoin(a, b)
    ensures CoinsEqual(a, b) && n != a.numberOfInstances ==> !CoinsEqual(a.(numberOfInstances := n), b)
  {
  }

  /** After assigning `right` into any coin, the two are equal in every field. */
  lemma AssignMakesEqual(left: Coin, right: Coin)
    ensures CoinsEqual(Assign(left, right), right)
    ensures CoinsEqual(right, Assign(left, right))
  {
  }
}
