// A category: an ordered list of coins together with the grouping type that
// decides which further coins may join it, plus the decoding of the grouping
// type and of the sort order from their stored names.
//
// Each operation that changes the list in place is modelled as a function
// returning the category with its new list; the two loops of the source (the
// quantity counter and the search by full equality) are methods proved
// against the functions that specify them.

module Categories {
  import opened Wrappers
  import opened Strings
  import opened Coins

  // ---------------------------------------------------------------------
  // Grouping types and sort orders

  datatype CategoryType = CountryValueAndCurrency | Country | Year | Currency | NoCategory

  /** The stored name of each grouping type. */
  function RawValue(t: CategoryType): string {
    match t
    case CountryValueAndCurrency => "Country & Value"
    case Country => "Country"
    case Year => "Year"
    case Currency => "Country & Currency"
    case NoCategory => "No Category"
  }

  /** Decodes a stored name; every unknown name means no category. */
  function GetTheCategoryFromString(s: string): CategoryType {
    if s == RawValue(CountryValueAndCurrency) then CountryValueAndCurrency
    else if s == RawValue(Country) then Country
    else if s == RawValue(Year) then Year
    else if s == RawValue(Currency) then Currency
    else NoCategory
  }

  /** Whether a name is one of the four real grouping types. */
  predicate IsACategoryType(s: string) {
    s == "Country & Value" || s == "Country" || s == "Year" || s == "Country & Currency"
  }

  /** Decoding inverts the naming, and only the four names decode to a real type. */
  lemma CategoryNameRoundTrip(t: CategoryType, s: string)
    ensures GetTheCategoryFromString(RawValue(t)) == t
    ensures GetTheCategoryFromString(s) != NoCategory ==> RawValue(GetTheCategoryFromString(s)) == s
    ensures IsACategoryType(s) <==> GetTheCategoryFromString(s) != NoCategory
  {
  }

  datatype SortingOrder = Ascending | Descending

  function SortingOrderName(o: SortingOrder): string {
    match o
    case Ascending => "Ascending"
    case Descending => "Descending"
  }

  /** Decodes a stored sort order; anything but the two exact names is absent. */
  function GetSortingCriteria(s: string): Option<SortingOrder> {
    if s == SortingOrderName(Ascending) then Some(Ascending)
    else if s == SortingOrderName(Descending) then Some(Descending)
    else None
  }

  lemma SortingOrderNameRoundTrip(o: SortingOrder, s: string)
    ensures GetSortingCriteria(SortingOrderName(o)) == Some(o)
    ensures GetSortingCriteria(s).Some? ==> SortingOrderName(GetSortingCriteria(s).value) == s
    ensures GetSortingCriteria(s).None? <==> s != "Ascending" && s != "Descending"
  {
  }

  // ---------------------------------------------------------------------
  // The category value

  datatype CoinCategory = CoinCategory(coinsInCategory: seq<Coin>, currentCategoryType: CategoryType)

  /** The category made by the no-argument initializer. */
  function EmptyCategory(): CoinCategory {
    CoinCategory([], NoCategory)
  }

  /** A category holding `coins`, grouped by the named type when it is a real one. */
  function NewCategory(coins: seq<Coin>, categoryType: string): (r: CoinCategory)
    ensures r.coinsInCategory == coins
    ensures r.currentCategoryType == GetTheCategoryFromString(categoryType)
  {
    CoinCategory(coins, if IsACategoryType(categoryType) then GetTheCategoryFromString(categoryType) else NoCategory)
  }

  /** Rebuilding a category from its own type name keeps the type. */
  lemma NewCategoryKeepsType(coins: seq<Coin>, cat: CoinCategory)
    ensures NewCategory(coins, RawValue(cat.currentCategoryType)) == cat.(coinsInCategory := coins)
  {
    CategoryNameRoundTrip(cat.currentCategoryType, "");
  }

  // ---------------------------------------------------------------------
  // Membership

  /** Whether `aCoin` belongs with `testCoin` under the grouping type. */
  predicate Matches(t: CategoryType, testCoin: Coin, aCoin: Coin) {
    match t
    case CountryValueAndCurrency =>
      EqualIgnoringCase(GetCountry(testCoin), GetCountry(aCoin)) && GetValue(testCoin) == GetValue(aCoin)
      && EqualIgnoringCase(GetDenomination(testCoin), GetDenomination(aCoin))
    case Country => EqualIgnoringCase(GetCountry(testCoin), GetCountry(aCoin))
    case Currency =>
      EqualIgnoringCase(GetDenomination(testCoin), GetDenomination(aCoin))
      && EqualIgnoringCase(GetCountry(testCoin), GetCountry(aCoin))
    case Year => GetYear(testCoin) == GetYear(aCoin)
    case NoCategory => false
  }

  /** An empty category accepts any coin; otherwise the coin must match the first member. */
  predicate CoinFitsCategory(cat: CoinCategory, aCoin: Coin) {
    |cat.coinsInCategory| == 0 || Matches(cat.currentCategoryType, cat.coinsInCategory[0], aCoin)
  }

  /** Every member matches the first one. */
  predicate Homogeneous(cat: CoinCategory) {
    forall k :: 1 <= k < |cat.coinsInCategory| ==>
      Matches(cat.currentCategoryType, cat.coinsInCategory[0], cat.coinsInCategory[k])
  }

  /** For the four real types, matching is an equivalence; the country-value-currency type is being of the same type. */
  lemma MatchesIsEquivalence(t: CategoryType, a: Coin, b: Coin, c: Coin)
    requires t != NoCategory
    ensures Matches(t, a, a)
    ensures Matches(t, a, b) ==> Matches(t, b, a)
    ensures Matches(t, a, b) && Matches(t, b, c) ==> Matches(t, a, c)
    ensures Matches(CountryValueAndCurrency, a, b) <==> OfSameType(a, b)
  {
  }

  /** The fit test in full: empty accepts all, no-category accepts nothing more, year needs equal years. */
  lemma CoinFitsCategoryCases(cat: CoinCategory, c: Coin)
    ensures |cat.coinsInCategory| == 0 ==> CoinFitsCategory(cat, c)
    ensures cat.currentCategoryType == NoCategory && |cat.coinsInCategory| > 0 ==> !CoinFitsCategory(cat, c)
    ensures cat.currentCategoryType == Year && |cat.coinsInCategory| > 0
            ==> (CoinFitsCategory(cat, c) <==> cat.coinsInCategory[0].year == c.year)
    ensures cat.currentCategoryType == CountryValueAndCurrency && |cat.coinsInCategory| > 0
            ==> (CoinFitsCategory(cat, c) <==> OfSameType(cat.coinsInCategory[0], c))
  {
  }

  // ---------------------------------------------------------------------
  // Changes to the list

  /** Appends the coin when it fits; otherwise the category is unchanged. */
  function AddCoin(cat: CoinCategory, newCoin: Coin): (r: CoinCategory)
    ensures r.currentCategoryType == cat.currentCategoryType
    ensures CoinFitsCategory(cat, newCoin) ==> r.coinsInCategory == cat.coinsInCategory + [newCoin]
    ensures !CoinFitsCategory(cat, newCoin) ==> r == cat
  {
    if CoinFitsCategory(cat, newCoin) then cat.(coinsInCategory := cat.coinsInCategory + [newCoin]) else cat
  }

  lemma AddCoinKeepsHomogeneous(cat: CoinCategory, newCoin: Coin)
    requires Homogeneous(cat)
    ensures Homogeneous(AddCoin(cat, newCoin))
  {
  }

  predicate IsValidArrayIndex(cat: CoinCategory, index: int) {
    0 <= index < |cat.coinsInCategory|
  }

  /** Removes the coin at a valid index; an invalid index changes nothing. */
  function RemoveCoinAt(cat: CoinCategory, at: int): (r: CoinCategory)
    ensures r.currentCategoryType == cat.currentCategoryType
    ensures !IsValidArrayIndex(cat, at) ==> r == cat
    ensures IsValidArrayIndex(cat, at) ==>
      |r.coinsInCategory| == |cat.coinsInCategory| - 1
      && r.coinsInCategory == cat.coinsInCategory[..at] + cat.coinsInCategory[at + 1..]
      && multiset(r.coinsInCategory) + multiset{cat.coinsInCategory[at]} == multiset(cat.coinsInCategory)
  {
    if IsValidArrayIndex(cat, at) then
      assert cat.coinsInCategory == cat.coinsInCategory[..at] + [cat.coinsInCategory[at]] + cat.coinsInCategory[at + 1..];
      cat.(coinsInCategory := cat.coinsInCategory[..at] + cat.coinsInCategory[at + 1..])
    else cat
  }

  /** Two coins that both match the same coin match each other, for every grouping type. */
  lemma MatchesEuclidean(t: CategoryType, a: Coin, b: Coin, c: Coin)
    requires Matches(t, a, b) && Matches(t, a, c)
    ensures Matches(t, b, c)
  {
  }

  /** A coin that matches anything under a grouping type matches itself. */
  lemma MatchesReflexiveAt(t: CategoryType, a: Coin, b: Coin)
    requires Matches(t, a, b)
    ensures Matches(t, a, a)
  {
  }

  /** Removing any entry keeps every remaining member matching the (possibly new) first one. */
  lemma {:induction false} RemoveCoinAtKeepsHomogeneous(cat: CoinCategory, at: int)
    requires Homogeneous(cat)
    ensures Homogeneous(RemoveCoinAt(cat, at))
  {
    var s := cat.coinsInCategory;
    var t := cat.currentCategoryType;
    var r := RemoveCoinAt(cat, at).coinsInCategory;
    if IsValidArrayIndex(cat, at) {
      forall k | 1 <= k < |r|
        ensures Matches(t, r[0], r[k])
      {
        if at == 0 {
          assert r[0] == s[1] && r[k] == s[k + 1];
          MatchesEuclidean(t, s[0], s[1], s[k + 1]);
        } else {
          assert r[0] == s[0];
          assert r[k] == (if k < at then s[k] else s[k + 1]);
        }
      }
    }
  }

  /** The coin at a valid index, or nothing. */
  function GetCoin(cat: CoinCategory, at: int): (r: Option<Coin>)
    ensures r.Some? <==> IsValidArrayIndex(cat, at)
    ensures r.Some? ==> r.value == cat.coinsInCategory[at]
  {
    if IsValidArrayIndex(cat, at) then Some(cat.coinsInCategory[at]) else None
  }

  /** Overwrites the fields of the coin at a valid index with those of `c`. */
  function AssignCoin(cat: CoinCategory, at: int, c: Coin): (r: CoinCategory)
    ensures r.currentCategoryType == cat.currentCategoryType
    ensures |r.coinsInCategory| == |cat.coinsInCategory|
    ensures !IsValidArrayIndex(cat, at) ==> r == cat
    ensures IsValidArrayIndex(cat, at) ==> r.coinsInCategory[at] == c && CoinsEqual(r.coinsInCategory[at], c)
    ensures forall k :: 0 <= k < |cat.coinsInCategory| && k != at ==> r.coinsInCategory[k] == cat.coinsInCategory[k]
  {
    if IsValidArrayIndex(cat, at) then
      cat.(coinsInCategory := cat.coinsInCategory[at := Assign(cat.coinsInCategory[at], c)])
    else cat
  }

  function DeleteAllCoins(cat: CoinCategory): (r: CoinCategory)
    ensures r.coinsInCategory == [] && r.currentCategoryType == cat.currentCategoryType
  {
    cat.(coinsInCategory := [])
  }

  /** Exchanges two valid positions; otherwise nothing changes. */
  function SwapCoinsInCategory(cat: CoinCategory, indexOne: int, indexTwo: int): (r: CoinCategory)
    ensures r.currentCategoryType == cat.currentCategoryType
    ensures |r.coinsInCategory| == |cat.coinsInCategory|
    ensures multiset(r.coinsInCategory) == multiset(cat.coinsInCategory)
    ensures !(IsValidArrayIndex(cat, indexOne) && IsValidArrayIndex(cat, indexTwo)) ==> r == cat
    ensures IsValidArrayIndex(cat, indexOne) && IsValidArrayIndex(cat, indexTwo) ==>
      r.coinsInCategory[indexOne] == cat.coinsInCategory[indexTwo]
      && r.coinsInCategory[indexTwo] == cat.coinsInCategory[indexOne]
    ensures forall k :: 0 <= k < |cat.coinsInCategory| && k != indexOne && k != indexTwo ==>
      r.coinsInCategory[k] == cat.coinsInCategory[k]
  {
    if IsValidArrayIndex(cat, indexOne) && IsValidArrayIndex(cat, indexTwo) then
      var s := cat.coinsInCategory;
      cat.(coinsInCategory := s[indexOne := s[indexTwo]][indexTwo := s[indexOne]])
    else cat
  }

  /** Reordering keeps every member matching the first one, whichever entry ends up first. */
  lemma SwapKeepsHomogeneous(cat: CoinCategory, indexOne: int, indexTwo: int)
    requires Homogeneous(cat)
    ensures Homogeneous(SwapCoinsInCategory(cat, indexOne, indexTwo))
  {
    var s := cat.coinsInCategory;
    var t := cat.currentCategoryType;
    var r := SwapCoinsInCategory(cat, indexOne, indexTwo).coinsInCategory;
    forall k | 1 <= k < |r|
      ensures Matches(t, r[0], r[k])
    {
      assert r[0] in multiset(s) && r[k] in multiset(s);
      var a :| 0 <= a < |s| && s[a] == r[0];
      var b :| 0 <= b < |s| && s[b] == r[k];
      assert Matches(t, s[0], s[1]);
      MatchesReflexiveAt(t, s[0], s[1]);
      MatchesEuclidean(t, s[0], s[a], s[b]);
    }
  }

  // ---------------------------------------------------------------------
  // Counting and searching

  function CountNumberOfTypes(cat: CoinCategory): nat {
    |cat.coinsInCategory|
  }

  /** The sum of the reported quantities of the coins. */
  function TotalInstances(coins: seq<Coin>): nat {
    if |coins| == 0 then 0 else TotalInstances(coins[..|coins| - 1]) + GetNumInstances(coins[|coins| - 1])
  }

  lemma {:induction false} TotalInstancesAppend(s: seq<Coin>, t: seq<Coin>)
    ensures TotalInstances(s + t) == TotalInstances(s) + TotalInstances(t)
    decreases |t|
  {
    if |t| == 0 {
      assert s + t == s;
    } else {
      TotalInstancesAppend(s, t[..|t| - 1]);
      assert (s + t)[..|s + t| - 1] == s + t[..|t| - 1];
      assert (s + t)[|s + t| - 1] == t[|t| - 1];
    }
  }

  /** Every coin contributes its quantity: the total is at least any single quantity. */
  lemma {:induction false} TotalInstancesBoundsEach(coins: seq<Coin>, k: int)
    requires 0 <= k < |coins|
    ensures GetNumInstances(coins[k]) <= TotalInstances(coins)
  {
    assert coins == coins[..k] + [coins[k]] + coins[k + 1..];
    TotalInstancesAppend(coins[..k] + [coins[k]], coins[k + 1..]);
    TotalInstancesAppend(coins[..k], [coins[k]]);
    assert [coins[k]][..0] == [];
  }

  /** Replacing one coin changes the total by the difference of the two quantities. */
  lemma TotalInstancesUpdate(coins: seq<Coin>, j: int, c: Coin)
    requires 0 <= j < |coins|
    ensures TotalInstances(coins[j := c]) + GetNumInstances(coins[j]) == TotalInstances(coins) + GetNumInstances(c)
  {
    var r := coins[j := c];
    assert coins == coins[..j] + [coins[j]] + coins[j + 1..];
    assert r == coins[..j] + [c] + coins[j + 1..];
    TotalInstancesAppend(coins[..j] + [coins[j]], coins[j + 1..]);
    TotalInstancesAppend(coins[..j], [coins[j]]);
    TotalInstancesAppend(coins[..j] + [c], coins[j + 1..]);
    TotalInstancesAppend(coins[..j], [c]);
    assert [coins[j]][..0] == [] && [c][..0] == [];
  }

  /** Adds up the quantities of the coins, one coin at a time. */
  method CountNumberCoinsOverall(cat: CoinCategory) returns (counter: int)
    ensures counter == TotalInstances(cat.coinsInCategory)
    ensures counter >= 0
  {
    var coins := cat.coinsInCategory;
    counter := 0;
    var i := 0;
    while i < |coins|
      invariant 0 <= i <= |coins|
      invariant counter == TotalInstances(coins[..i])
    {
      assert coins[..i + 1][..i] == coins[..i];
      counter := counter + GetNumInstances(coins[i]);
      i := i + 1;
    }
    assert coins[..i] == coins;
  }

  /** The first position holding a coin equal in all fields to `c`, or -1. */
  function FirstIndexOf(coins: seq<Coin>, c: Coin): (r: int)
    ensures -1 <= r < |coins|
    ensures r >= 0 ==> CoinsEqual(coins[r], c)
    ensures forall k :: 0 <= k < |coins| && (r == -1 || k < r) ==> !CoinsEqual(coins[k], c)
  {
    if |coins| == 0 then -1
    else if CoinsEqual(coins[0], c) then 0
    else
      var rest := FirstIndexOf(coins[1..], c);
      if rest == -1 then -1 else rest + 1
  }

  /** Scans the category for the first coin equal to `c`. */
  method GetIndexOfCoinInCollection(cat: CoinCategory, coin: Coin) returns (index: int)
    ensures index == FirstIndexOf(cat.coinsInCategory, coin)
  {
    var coins := cat.coinsInCategory;
    var i := 0;
    while i < |coins|
      invariant 0 <= i <= |coins|
      invariant forall k :: 0 <= k < i ==> !CoinsEqual(coins[k], coin)
    {
      if CoinsEqual(coins[i], coin) {
        return i;
      }
      i := i + 1;
    }
    return -1;
  }

  /** Whether some member equals `c` in all fields. */
  predicate HasCoin(cat: CoinCategory, c: Coin) {
    FirstIndexOf(cat.coinsInCategory, c) != -1
  }

  lemma HasCoinIffSomeEqual(cat: CoinCategory, c: Coin)
    ensures HasCoin(cat, c) <==> exists k :: 0 <= k < |cat.coinsInCategory| && CoinsEqual(cat.coinsInCategory[k], c)
  {
  }

  /** Removes the first member equal to `c`; the category is unchanged when there is none. */
  method RemoveCoin(cat: CoinCategory, c: Coin) returns (r: CoinCategory)
    ensures r == RemoveCoinAt(cat, FirstIndexOf(cat.coinsInCategory, c))
  {
    var coins := cat.coinsInCategory;
    var i := 0;
    while i < |coins|
      invariant 0 <= i <= |coins|
      invariant forall k :: 0 <= k < i ==> !CoinsEqual(coins[k], c)
    {
      if CoinsEqual(coins[i], c) {
        return cat.(coinsInCategory := coins[..i] + coins[i + 1..]);
      }
      i := i + 1;
    }
    return cat;
  }

  /** Removing by value takes out exactly one entry when the category has the coin, and nothing otherwise. */
  lemma RemoveByValueCount(cat: CoinCategory, c: Coin)
    ensures HasCoin(cat, c) ==>
      |RemoveCoinAt(cat, FirstIndexOf(cat.coinsInCategory, c)).coinsInCategory| == |cat.coinsInCategory| - 1
    ensures !HasCoin(cat, c) ==> RemoveCoinAt(cat, FirstIndexOf(cat.coinsInCategory, c)) == cat
  {
  }
}
