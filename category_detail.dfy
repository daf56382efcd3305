// The screen that shows the coins of one category: deleting a coin (or the
// whole category with its last coin), reordering coins, saving an edited
// coin back into the right category, and searching the category's coins.
//
// The screen edits the category record it was opened on, which is the
// record at `categoryRow` of the collection it shares with the category
// list; the collection is reached through `table`.

module CategoryDetail {
  import opened Wrappers
  import opened Strings
  import opened Coins
  import opened Categories
  import opened CoinTable

  /** The collection with the category at `row` rebuilt from new coins; its type and index are kept. */
  function WithCoins(rs: seq<CategoryRecord>, row: int, coins: seq<Coin>): (r: seq<CategoryRecord>)
    requires 0 <= row < |rs|
    ensures r == rs[row := rs[row].(coinCategory := rs[row].coinCategory.(coinsInCategory := coins))]
  {
    NewCategoryKeepsType(coins, rs[row].coinCategory);
    rs[row := rs[row].(coinCategory := NewCategory(coins, RawValue(rs[row].coinCategory.currentCategoryType)))]
  }

  /**
   * The intended deletion of the coin at position `at` of the category at
   * `row`: the whole category goes when it has a single coin, otherwise
   * only that coin (nothing when `at` is not a position of the category).
   */
  function CoinDeleted(rs: seq<CategoryRecord>, row: int, at: int): (r: seq<CategoryRecord>)
    requires AllNonEmpty(rs) && 0 <= row < |rs|
    ensures AllNonEmpty(r)
    ensures DenseIndices(rs) ==> DenseIndices(r)
  {
    var cat := rs[row].coinCategory;
    if CountNumberOfTypes(cat) == 1 then DeletedCategory(rs, row)
    else WithCoins(rs, row, RemoveCoinAt(cat, at).coinsInCategory)
  }

  /** Rebuilding one category changes the collected coins by exactly the difference of its coins. */
  lemma WithCoinsMultiset(rs: seq<CategoryRecord>, row: int, coins: seq<Coin>)
    requires 0 <= row < |rs|
    ensures multiset(Flatten(WithCoins(rs, row, coins))) + multiset(rs[row].coinCategory.coinsInCategory)
            == multiset(Flatten(rs)) + multiset(coins)
  {
    FlattenUpdateMultiset(rs, row, rs[row].(coinCategory := rs[row].coinCategory.(coinsInCategory := coins)));
  }

  /** Deleting the coin at a position removes exactly that coin from the collection. */
  lemma CoinDeletedRemovesOne(rs: seq<CategoryRecord>, row: int, at: int)
    requires AllNonEmpty(rs) && 0 <= row < |rs| && IsValidArrayIndex(rs[row].coinCategory, at)
    ensures multiset(Flatten(CoinDeleted(rs, row, at))) + multiset{rs[row].coinCategory.coinsInCategory[at]}
            == multiset(Flatten(rs))
  {
    var cat := rs[row].coinCategory;
    if |cat.coinsInCategory| == 1 {
      FlattenDeletedCategory(rs, row);
      assert cat.coinsInCategory == [cat.coinsInCategory[at]];
    } else {
      var smaller := RemoveCoinAt(cat, at).coinsInCategory;
      WithCoinsMultiset(rs, row, smaller);
      assert CoinDeleted(rs, row, at) == WithCoins(rs, row, smaller);
      MultisetCancel(multiset(Flatten(WithCoins(rs, row, smaller))), multiset(cat.coinsInCategory),
                     multiset(Flatten(rs)), multiset(smaller), multiset{cat.coinsInCategory[at]});
    }
  }

  /**
   * The deletion the screen performs, where `selected` is the row recorded
   * when the screen was opened: a single-coin category is deleted through
   * that row, which is the shown category's row only when the screen was
   * not opened from search results.
   */
  function CoinDeletedAsWritten(rs: seq<CategoryRecord>, row: int, selected: int, at: int): (r: seq<CategoryRecord>)
    requires AllNonEmpty(rs) && 0 <= row < |rs|
    ensures AllNonEmpty(r)
    ensures DenseIndices(rs) ==> DenseIndices(r)
    ensures selected == row ==> r == CoinDeleted(rs, row, at)
  {
    var cat := rs[row].coinCategory;
    if CountNumberOfTypes(cat) == 1 then DeletedCategory(rs, selected)
    else WithCoins(rs, row, RemoveCoinAt(cat, at).coinsInCategory)
  }

  /**
   * When the recorded row is another category's, deleting the last coin of
   * the shown category deletes that other category with all its coins, and
   * the coin meant to go stays in the collection.
   */
  lemma SearchOpenedDeleteRemovesOtherCategory(rs: seq<CategoryRecord>, row: int, selected: int, at: int)
    requires AllNonEmpty(rs) && 0 <= row < |rs| && 0 <= selected < |rs| && selected != row
    requires |rs[row].coinCategory.coinsInCategory| == 1
    ensures multiset(Flatten(CoinDeletedAsWritten(rs, row, selected, at)))
            + multiset(rs[selected].coinCategory.coinsInCategory) == multiset(Flatten(rs))
    ensures rs[row].coinCategory.coinsInCategory[0] in Flatten(CoinDeletedAsWritten(rs, row, selected, at))
  {
    var r := CoinDeletedAsWritten(rs, row, selected, at);
    assert r == DeletedCategory(rs, selected);
    FlattenDeletedCategory(rs, selected);
    var rest := rs[..selected] + rs[selected + 1..];
    var pos := if row < selected then row else row - 1;
    assert rest[pos] == rs[row];
    FlattenMember(r, pos, 0);
  }

  /** The collection after moving the coin at `from` to `to`: the two coins swap places. */
  function Reordered(rs: seq<CategoryRecord>, row: int, from: int, to: int): (r: seq<CategoryRecord>)
    requires 0 <= row < |rs|
    ensures from == to ==> r == rs
  {
    if from != to then WithCoins(rs, row, SwapCoinsInCategory(rs[row].coinCategory, from, to).coinsInCategory)
    else rs
  }

  /** Reordering keeps every coin of the collection and the category sizes. */
  lemma ReorderedKeepsCoins(rs: seq<CategoryRecord>, row: int, from: int, to: int)
    requires AllNonEmpty(rs) && DenseIndices(rs) && 0 <= row < |rs|
    ensures AllNonEmpty(Reordered(rs, row, from, to)) && DenseIndices(Reordered(rs, row, from, to))
    ensures multiset(Flatten(Reordered(rs, row, from, to))) == multiset(Flatten(rs))
  {
    if from != to {
      var cat := rs[row].coinCategory;
      var swapped := SwapCoinsInCategory(cat, from, to).coinsInCategory;
      WithCoinsMultiset(rs, row, swapped);
      MultisetCancel(multiset(Flatten(WithCoins(rs, row, swapped))), multiset(cat.coinsInCategory),
                     multiset(Flatten(rs)), multiset(swapped), multiset{});
    }
  }

  // ---------------------------------------------------------------------
  // Saving an edited coin

  /** The four ways an edited coin is saved. */
  datatype EditOutcome =
    | AssignedInPlace     // still of the same type: the fields are copied into the stored coin
    | ReplacedSoleCoin    // the category's only coin, fitting no category: the category keeps just the new coin
    | MovedSoleCoin       // the category's only coin, fitting some category: the category goes, the coin is filed
    | MovedCoin           // one of several coins: it is deleted here and filed anew

  function OutcomeOfEdit(rs: seq<CategoryRecord>, row: int, at: int, newCoin: Coin): EditOutcome
    requires 0 <= row < |rs|
  {
    var cat := rs[row].coinCategory;
    var current := GetCoin(cat, at);
    if current.Some? && OfSameType(current.value, newCoin) then AssignedInPlace
    else if CountNumberOfTypes(cat) == 1 then
      if !CoinFitsExistingCategory(rs, newCoin) then ReplacedSoleCoin else MovedSoleCoin
    else MovedCoin
  }

  /**
   * The collection after saving the edit of the coin at `at` in the category
   * at `row`, where `selected` is the row recorded when the screen was
   * opened (none when no row was recorded). A moved single coin deletes its
   * category through that row; without a recorded row the delete step of a
   * moved coin does nothing.
   */
  function Edited(rs: seq<CategoryRecord>, row: int, at: int, newCoin: Coin, selected: Option<int>,
                  t: CategoryType, o: SortingOrder): (r: seq<CategoryRecord>)
    requires AllNonEmpty(rs) && 0 <= row < |rs|
    requires OutcomeOfEdit(rs, row, at, newCoin) == MovedSoleCoin ==> selected.Some?
    ensures AllNonEmpty(r)
  {
    var cat := rs[row].coinCategory;
    match OutcomeOfEdit(rs, row, at, newCoin)
    case AssignedInPlace => WithCoins(rs, row, AssignCoin(cat, at, newCoin).coinsInCategory)
    case ReplacedSoleCoin => WithCoins(rs, row, [newCoin])
    case MovedSoleCoin => Renumbered(AddedTo(DeletedCategory(rs, selected.value), newCoin, t, o))
    case MovedCoin =>
      Renumbered(AddedTo(if selected.Some? then CoinDeletedAsWritten(rs, row, selected.value, at) else rs, newCoin, t, o))
  }

  /** A category rebuilt from as many coins, one of them `c`, keeps the number of entries and holds `c`. */
  lemma WithCoinsSameSize(rs: seq<CategoryRecord>, row: int, coins: seq<Coin>, j: int, c: Coin)
    requires 0 <= row < |rs| && |coins| == |rs[row].coinCategory.coinsInCategory|
    requires 0 <= j < |coins| && coins[j] == c
    ensures |Flatten(WithCoins(rs, row, coins))| == |Flatten(rs)|
    ensures c in Flatten(WithCoins(rs, row, coins))
  {
    var r := WithCoins(rs, row, coins);
    FlattenUpdate(rs, row, r[row]);
    FlattenMember(r, row, j);
  }

  /** Filing a coin into a collection that lost one entry restores the number of entries. */
  lemma RefiledKeepsEntries(rs: seq<CategoryRecord>, smaller: seq<CategoryRecord>, x: Coin,
                            c: Coin, t: CategoryType, o: SortingOrder)
    requires AllNonEmpty(smaller) && multiset(Flatten(smaller)) + multiset{x} == multiset(Flatten(rs))
    ensures |Flatten(Renumbered(AddedTo(smaller, c, t, o)))| == |Flatten(rs)|
    ensures c in Flatten(Renumbered(AddedTo(smaller, c, t, o)))
  {
    assert |multiset(Flatten(smaller)) + multiset{x}| == |Flatten(smaller)| + 1;
    AddedToCount(smaller, c, t, o);
    AddedToContains(smaller, c, t, o);
  }

  /**
   * Saving an edit of a stored coin leaves the new coin in the collection.
   * When the recorded row is the shown category's, the number of entries is
   * kept; without a recorded row a moved coin is filed while its old entry
   * stays, so there is one entry more.
   */
  lemma EditKeepsEntriesAndStoresCoin(rs: seq<CategoryRecord>, row: int, at: int, newCoin: Coin,
                                      selected: Option<int>, t: CategoryType, o: SortingOrder)
    requires AllNonEmpty(rs) && 0 <= row < |rs| && IsValidArrayIndex(rs[row].coinCategory, at)
    requires selected.Some? ==> selected.value == row
    requires OutcomeOfEdit(rs, row, at, newCoin) == MovedSoleCoin ==> selected.Some?
    ensures |Flatten(Edited(rs, row, at, newCoin, selected, t, o))|
            == |Flatten(rs)| + (if selected.None? && OutcomeOfEdit(rs, row, at, newCoin) == MovedCoin then 1 else 0)
    ensures newCoin in Flatten(Edited(rs, row, at, newCoin, selected, t, o))
  {
    var cat := rs[row].coinCategory;
    match OutcomeOfEdit(rs, row, at, newCoin)
    case AssignedInPlace =>
      WithCoinsSameSize(rs, row, AssignCoin(cat, at, newCoin).coinsInCategory, at, newCoin);
    case ReplacedSoleCoin =>
      WithCoinsSameSize(rs, row, [newCoin], 0, newCoin);
    case MovedSoleCoin =>
      assert CountNumberOfTypes(cat) == 1;
      CoinDeletedRemovesOne(rs, row, at);
      assert CoinDeleted(rs, row, at) == DeletedCategory(rs, row);
      RefiledKeepsEntries(rs, CoinDeleted(rs, row, at), cat.coinsInCategory[at], newCoin, t, o);
    case MovedCoin =>
      if selected.Some? {
        CoinDeletedRemovesOne(rs, row, at);
        assert CoinDeletedAsWritten(rs, row, selected.value, at) == CoinDeleted(rs, row, at);
        RefiledKeepsEntries(rs, CoinDeleted(rs, row, at), cat.coinsInCategory[at], newCoin, t, o);
      } else {
        AddedToCount(rs, newCoin, t, o);
        AddedToContains(rs, newCoin, t, o);
      }
  }

  /**
   * When the recorded row is another category's, moving the edited last coin
   * of the shown category deletes that other category: the collection loses
   * all its entries and gains only the new coin.
   */
  lemma SearchOpenedEditRemovesOtherCategory(rs: seq<CategoryRecord>, row: int, at: int, newCoin: Coin,
                                             selected: int, t: CategoryType, o: SortingOrder)
    requires AllNonEmpty(rs) && 0 <= row < |rs| && 0 <= selected < |rs| && selected != row
    requires OutcomeOfEdit(rs, row, at, newCoin) == MovedSoleCoin
    ensures |Flatten(Edited(rs, row, at, newCoin, Some(selected), t, o))|
            + |rs[selected].coinCategory.coinsInCategory| == |Flatten(rs)| + 1
  {
    var smaller := DeletedCategory(rs, selected);
    var e := Edited(rs, row, at, newCoin, Some(selected), t, o);
    assert e == Renumbered(AddedTo(smaller, newCoin, t, o));
    AddedToCount(smaller, newCoin, t, o);
    DeletedCategoryCount(rs, selected);
  }

  /** Deleting a category removes as many entries as it holds. */
  lemma DeletedCategoryCount(rs: seq<CategoryRecord>, row: int)
    requires 0 <= row < |rs|
    ensures |Flatten(DeletedCategory(rs, row))| + |rs[row].coinCategory.coinsInCategory| == |Flatten(rs)|
  {
    FlattenDeletedCategory(rs, row);
    var lost := rs[row].coinCategory.coinsInCategory;
    assert |multiset(Flatten(DeletedCategory(rs, row))) + multiset(lost)| == |Flatten(DeletedCategory(rs, row))| + |lost|;
  }

  /**
   * The shown category stays in the collection after an edit, unless its
   * only coin is moved and the category deleted through the recorded row is
   * the shown one.
   */
  predicate ShownSurvivesEdit(rs: seq<CategoryRecord>, row: int, at: int, newCoin: Coin, selected: Option<int>)
    requires 0 <= row < |rs|
  {
    OutcomeOfEdit(rs, row, at, newCoin) != MovedSoleCoin || selected != Some(row)
  }

  /**
   * The row of the shown category after the edit: deleting a category before
   * it moves it one row back, and filing the coin into a new category placed
   * at or before it moves it one row on.
   */
  function ShownRowAfterEdit(rs: seq<CategoryRecord>, row: int, at: int, newCoin: Coin, selected: Option<int>,
                             t: CategoryType, o: SortingOrder): int
    requires AllNonEmpty(rs) && 0 <= row < |rs|
    requires OutcomeOfEdit(rs, row, at, newCoin) == MovedSoleCoin ==> selected.Some?
  {
    match OutcomeOfEdit(rs, row, at, newCoin)
    case AssignedInPlace => row
    case ReplacedSoleCoin => row
    case MovedSoleCoin =>
      if selected.value == row then row
      else RowAfterAdding(DeletedCategory(rs, selected.value), RowAfterDeleting(row, selected.value), newCoin, t, o)
    case MovedCoin =>
      RowAfterAdding(if selected.Some? then CoinDeletedAsWritten(rs, row, selected.value, at) else rs, row, newCoin, t, o)
  }

  /**
   * While the shown category survives the edit, ShownRowAfterEdit is a row
   * of the edited collection holding a category of the same type: with the
   * edited coin in place, or without the moved coin, or unchanged, unless the
   * moved coin was filed back into it.
   */
  lemma ShownRowAfterEditFollowsCategory(rs: seq<CategoryRecord>, row: int, at: int, newCoin: Coin,
                                         selected: Option<int>, t: CategoryType, o: SortingOrder)
    requires AllNonEmpty(rs) && 0 <= row < |rs|
    requires OutcomeOfEdit(rs, row, at, newCoin) == MovedSoleCoin ==> selected.Some?
    requires ShownSurvivesEdit(rs, row, at, newCoin, selected)
    ensures var k := ShownRowAfterEdit(rs, row, at, newCoin, selected, t, o);
      var e := Edited(rs, row, at, newCoin, selected, t, o);
      var outcome := OutcomeOfEdit(rs, row, at, newCoin);
      0 <= k < |e|
      && e[k].coinCategory.currentCategoryType == rs[row].coinCategory.currentCategoryType
      && (outcome == AssignedInPlace || outcome == ReplacedSoleCoin ==> k == row)
      && (outcome == MovedSoleCoin
          && FirstFit(DeletedCategory(rs, selected.value), newCoin) != RowAfterDeleting(row, selected.value)
          ==> e[k].coinCategory == rs[row].coinCategory)
      && (outcome == MovedCoin && selected.Some?
          && FirstFit(CoinDeletedAsWritten(rs, row, selected.value, at), newCoin) != row
          ==> e[k].coinCategory.coinsInCategory == RemoveCoinAt(rs[row].coinCategory, at).coinsInCategory)
      && (outcome == MovedCoin && selected.None? && FirstFit(rs, newCoin) != row
          ==> e[k].coinCategory == rs[row].coinCategory)
  {
    var cat := rs[row].coinCategory;
    match OutcomeOfEdit(rs, row, at, newCoin)
    case AssignedInPlace =>
    case ReplacedSoleCoin =>
    case MovedSoleCoin =>
      var d := selected.value;
      RowAfterDeletingFollowsCategory(rs, row, d);
      RowAfterAddingFollowsCategory(DeletedCategory(rs, d), RowAfterDeleting(row, d), newCoin, t, o);
    case MovedCoin =>
      var mid := if selected.Some? then CoinDeletedAsWritten(rs, row, selected.value, at) else rs;
      assert mid[row].coinCategory.currentCategoryType == cat.currentCategoryType;
      RowAfterAddingFollowsCategory(mid, row, newCoin, t, o);
  }

  /**
   * With the screen opened without a search, filing the edited coin into a
   * new category placed at or before the shown one moves the shown category
   * one row on, while the recorded row stays: the recorded row then
   * designates another category.
   */
  lemma EditMovesShownPastRecordedRow(rs: seq<CategoryRecord>, row: int, at: int, newCoin: Coin,
                                      t: CategoryType, o: SortingOrder)
    requires AllNonEmpty(rs) && 0 <= row < |rs|
    requires OutcomeOfEdit(rs, row, at, newCoin) == MovedCoin
    requires var mid := CoinDeleted(rs, row, at);
      FirstFit(mid, newCoin) < 0 && InsertPosition(InsertIndex(t, o, newCoin, mid), mid) <= row
    ensures ShownRowAfterEdit(rs, row, at, newCoin, Some(row), t, o) == row + 1
    ensures Edited(rs, row, at, newCoin, Some(row), t, o)[row + 1].coinCategory.coinsInCategory
            == RemoveCoinAt(rs[row].coinCategory, at).coinsInCategory
  {
    ShownRowAfterEditFollowsCategory(rs, row, at, newCoin, Some(row), t, o);
  }

  // ---------------------------------------------------------------------
  // Searching the coins of a category

  /** Whether one search word describes a coin, tested field by field. */
  predicate WordFitsCoin(word: string, coin: Coin) {
    (if GetValue(coin) > 0 then ContainsIgnoringCase(IntToString(GetValue(coin)), word)
     else ContainsIgnoringCase(DefaultValueString, word))
    || ContainsIgnoringCase(GetDenomination(coin), word)
    || (if GetYear(coin).Some? then
          ContainsIgnoringCase(IntToString(GetYear(coin).value), word)
          || (GetYear(coin).value < 0 && ContainsIgnoringCase(EraBCE, word))
          || (GetYear(coin).value > 0 && ContainsIgnoringCase(EraCE, word))
        else ContainsIgnoringCase(DefaultYear, word))
    || ContainsIgnoringCase(GetMint(coin), word)
    || (if GetGrade(coin).Some? then ContainsIgnoringCase(IntToString(GetGrade(coin).value), word)
        else ContainsIgnoringCase(NotAvailable, word))
    || ContainsIgnoringCase(IntToString(GetNumInstances(coin)), word)
    || ContainsIgnoringCase(GetCountry(coin), word)
  }

  /** The texts a coin can be found by. */
  function CoinSearchTexts(coin: Coin): (r: seq<string>)
    ensures |r| >= 6 && r[|r| - 1] == GetCountry(coin) && r[|r| - 2] == IntToString(GetNumInstances(coin))
  {
    var value := if coin.value > 0 then IntToString(coin.value) else DefaultValueString;
    var year := if coin.year.Some? then [IntToString(coin.year.value)] + EraWords(coin.year.value) else [DefaultYear];
    var grade := if GetGrade(coin).Some? then IntToString(GetGrade(coin).value) else NotAvailable;
    [value, GetDenomination(coin)] + year + [GetMint(coin), grade, IntToString(GetNumInstances(coin)), GetCountry(coin)]
  }

  /** A word fits a coin exactly when it occurs in one of the coin's search texts. */
  lemma WordFitsCoinIffInSearchTexts(word: string, coin: Coin)
    ensures WordFitsCoin(word, coin)
            <==> exists k :: 0 <= k < |CoinSearchTexts(coin)| && ContainsIgnoringCase(CoinSearchTexts(coin)[k], word)
  {
    var texts := CoinSearchTexts(coin);
    var n := |texts|;
    if WordFitsCoin(word, coin) {
      var value := if coin.value > 0 then IntToString(coin.value) else DefaultValueString;
      var grade := if GetGrade(coin).Some? then IntToString(GetGrade(coin).value) else NotAvailable;
      if ContainsIgnoringCase(value, word) {
        assert ContainsIgnoringCase(texts[0], word);
      } else if ContainsIgnoringCase(GetDenomination(coin), word) {
        assert ContainsIgnoringCase(texts[1], word);
      } else if ContainsIgnoringCase(GetMint(coin), word) {
        assert ContainsIgnoringCase(texts[n - 4], word);
      } else if ContainsIgnoringCase(grade, word) {
        assert ContainsIgnoringCase(texts[n - 3], word);
      } else if ContainsIgnoringCase(IntToString(GetNumInstances(coin)), word) {
        assert ContainsIgnoringCase(texts[n - 2], word);
      } else if ContainsIgnoringCase(GetCountry(coin), word) {
        assert ContainsIgnoringCase(texts[n - 1], word);
      } else if coin.year.Some? && !ContainsIgnoringCase(IntToString(coin.year.value), word) {
        assert ContainsIgnoringCase(texts[3], word);
      } else {
        assert ContainsIgnoringCase(texts[2], word);
      }
    }
  }

  /** Era words: "BCE" finds only years before 0, "CE" those after 0 and, being part of "BCE", those before. */
  lemma EraWordsMatchSignedYearsOnly(coin: Coin)
    requires coin.year.Some?
    ensures coin.year.value < 0 ==> WordFitsCoin("BCE", coin) && WordFitsCoin("CE", coin)
    ensures coin.year.value > 0 ==> WordFitsCoin("CE", coin)
    ensures coin.year.value == 0 ==> EraWords(coin.year.value) == []
  {
    assert Fold("BCE") == "bce" && Fold("CE") == "ce";
    assert "bce"[1..] == "ce";
    assert IsPrefix("bce", "bce") && IsPrefix("ce", "ce");
    assert Occurs("ce", "ce");
    assert Occurs("ce", "bce");
  }

  /** Whether some space-separated word of the query fits the coin. */
  predicate CoinMatchesQuery(coin: Coin, searchText: string) {
    exists k :: 0 <= k < |Split(searchText)| && WordFitsCoin(Split(searchText)[k], coin)
  }

  /** The coins shown for a query: those matching it, in the category's order. */
  function FilterCoins(coins: seq<Coin>, searchText: string): (r: seq<Coin>)
    ensures |r| <= |coins|
    ensures forall c :: c in r <==> c in coins && CoinMatchesQuery(c, searchText)
  {
    if |coins| == 0 then []
    else
      var rest := FilterCoins(coins[1..], searchText);
      assert forall c :: c in coins <==> c == coins[0] || c in coins[1..];
      if CoinMatchesQuery(coins[0], searchText) then [coins[0]] + rest else rest
  }

  /** Filtering distributes over concatenation, so the shown coins keep their order. */
  lemma {:induction false} FilterCoinsAppend(a: seq<Coin>, b: seq<Coin>, searchText: string)
    ensures FilterCoins(a + b, searchText) == FilterCoins(a, searchText) + FilterCoins(b, searchText)
    decreases |a|
  {
    if |a| > 0 {
      assert (a + b)[1..] == a[1..] + b;
      FilterCoinsAppend(a[1..], b, searchText);
    } else {
      assert a + b == b;
    }
  }

  // ---------------------------------------------------------------------
  // The screen

  /** The categories the list shows: the search results while searching, otherwise the whole collection. */
  function ListedCategories(rs: seq<CategoryRecord>, searchActive: bool, searchText: string): seq<CategoryRecord>
    requires AllNonEmpty(rs)
  {
    if searchActive then FilterCategories(rs, searchText) else rs
  }

  /** A position of a record in the collection. */
  function PositionOf(rs: seq<CategoryRecord>, x: CategoryRecord): (k: int)
    requires x in rs
    ensures 0 <= k < |rs| && rs[k] == x
  {
    if rs[0] == x then 0 else 1 + PositionOf(rs[1..], x)
  }

  class CategoryViewController {
    /** The collection shared with the category list. */
    const table: CoinTableController
    /** The position in the collection of the category shown. */
    var categoryRow: int
    /** The selected row of the category list, when one was recorded. */
    var indexOfSelectedCategory: Option<int>
    /** The coin waiting to be deleted, when there is one. */
    var indexOfCoinToDelete: Option<int>

    /** The shown category is in the collection. */
    ghost predicate Valid()
      reads this, table
    {
      table.Valid() && 0 <= categoryRow < |table.coinsByCategory|
    }

    /**
     * Opens the screen on the category tapped at row `tapped` of the list,
     * which shows the search results while searching. The screen shows that
     * category and records the tapped row as the selection, so while
     * searching the recorded row is a row of the search results.
     */
    constructor(table: CoinTableController, searchActive: bool, searchText: string, tapped: int)
      requires table.Valid()
      requires 0 <= tapped < |ListedCategories(table.coinsByCategory, searchActive, searchText)|
      ensures Valid()
      ensures this.table == table
      ensures table.coinsByCategory[categoryRow] == ListedCategories(table.coinsByCategory, searchActive, searchText)[tapped]
      ensures !searchActive ==> categoryRow == tapped
      ensures indexOfSelectedCategory == Some(tapped) && indexOfCoinToDelete == None
    {
      this.table := table;
      var listed := ListedCategories(table.coinsByCategory, searchActive, searchText);
      categoryRow := PositionOf(table.coinsByCategory, listed[tapped]);
      indexOfSelectedCategory := Some(tapped);
      indexOfCoinToDelete := None;
    }

    method SaveCoinToDelete(at: int)
      modifies this
      ensures indexOfCoinToDelete == Some(at)
      ensures categoryRow == old(categoryRow) && indexOfSelectedCategory == old(indexOfSelectedCategory)
    {
      indexOfCoinToDelete := Some(at);
    }

    method ClearCoinToDelete()
      modifies this
      ensures indexOfCoinToDelete == None
      ensures categoryRow == old(categoryRow) && indexOfSelectedCategory == old(indexOfSelectedCategory)
    {
      indexOfCoinToDelete := None;
    }

    /**
     * Deletes the pending coin when both a pending coin and a selected
     * category are recorded: when the shown category has one coin, the
     * category at the recorded row goes (the pending index then stays
     * recorded), otherwise the coin at the pending position, after which the
     * pending index is cleared.
     */
    method DeleteTheCoin()
      requires Valid()
      modifies this, table
      ensures table.Valid()
      ensures categoryRow == old(categoryRow) && indexOfSelectedCategory == old(indexOfSelectedCategory)
      ensures table.currentSortingCriteria == old(table.currentSortingCriteria)
      ensures table.currentSortingOrder == old(table.currentSortingOrder)
      ensures old(indexOfCoinToDelete).None? || old(indexOfSelectedCategory).None? ==>
        table.coinsByCategory == old(table.coinsByCategory) && indexOfCoinToDelete == old(indexOfCoinToDelete)
      ensures old(indexOfCoinToDelete).Some? && old(indexOfSelectedCategory).Some? ==>
        table.coinsByCategory == CoinDeletedAsWritten(old(table.coinsByCategory), categoryRow,
                                                      old(indexOfSelectedCategory).value, old(indexOfCoinToDelete).value)
        && indexOfCoinToDelete
           == (if |old(table.coinsByCategory)[categoryRow].coinCategory.coinsInCategory| == 1
               then old(indexOfCoinToDelete) else None)
    {
      if indexOfCoinToDelete.Some? && indexOfSelectedCategory.Some? {
        var cat := table.coinsByCategory[categoryRow].coinCategory;
        if CountNumberOfTypes(cat) == 1 {
          table.DeleteCoinCategory(indexOfSelectedCategory.value);
        } else {
          var smaller := RemoveCoinAt(cat, indexOfCoinToDelete.value);
          table.coinsByCategory := WithCoins(table.coinsByCategory, categoryRow, smaller.coinsInCategory);
          ClearCoinToDelete();
        }
      }
    }

    /** Moves a coin to another row of the category by swapping the two rows; a move onto itself does nothing. */
    method MoveRow(from: int, to: int)
      requires Valid()
      modifies table
      ensures Valid()
      ensures table.coinsByCategory == Reordered(old(table.coinsByCategory), categoryRow, from, to)
      ensures table.currentSortingCriteria == old(table.currentSortingCriteria)
      ensures table.currentSortingOrder == old(table.currentSortingOrder)
    {
      ReorderedKeepsCoins(table.coinsByCategory, categoryRow, from, to);
      if from != to {
        var swapped := SwapCoinsInCategory(table.coinsByCategory[categoryRow].coinCategory, from, to);
        table.coinsByCategory := WithCoins(table.coinsByCategory, categoryRow, swapped.coinsInCategory);
      }
    }

    /**
     * Saves the edited coin shown at row `at`: in place when it is still of
     * the same type; otherwise the category's only coin either stays alone
     * in it (when no category accepts it) or the category at the recorded
     * row is deleted and the coin filed; any other coin is deleted here and
     * filed anew. The screen keeps showing the same category, which may now
     * stand at another row.
     */
    method UpdateCoinInfo(newCoin: Coin, at: int)
      requires Valid()
      requires OutcomeOfEdit(table.coinsByCategory, categoryRow, at, newCoin) == MovedSoleCoin
               ==> indexOfSelectedCategory.Some?
      modifies this, table
      ensures table.Valid()
      ensures table.currentSortingCriteria == old(table.currentSortingCriteria)
      ensures table.currentSortingOrder == old(table.currentSortingOrder)
      ensures indexOfSelectedCategory == old(indexOfSelectedCategory)
      ensures categoryRow == ShownRowAfterEdit(old(table.coinsByCategory), old(categoryRow), at, newCoin,
                                               old(indexOfSelectedCategory), table.currentSortingCriteria,
                                               table.currentSortingOrder)
      ensures ShownSurvivesEdit(old(table.coinsByCategory), old(categoryRow), at, newCoin, old(indexOfSelectedCategory))
              ==> Valid()
      ensures table.coinsByCategory
              == Edited(old(table.coinsByCategory), old(categoryRow), at, newCoin, old(indexOfSelectedCategory),
                        table.currentSortingCriteria, table.currentSortingOrder)
      ensures indexOfCoinToDelete
              == if OutcomeOfEdit(old(table.coinsByCategory), old(categoryRow), at, newCoin) != MovedCoin
                 then old(indexOfCoinToDelete)
                 else if old(indexOfSelectedCategory).Some? then None else Some(at)
    {
      var cat := table.coinsByCategory[categoryRow].coinCategory;
      var shownRow := ShownRowAfterEdit(table.coinsByCategory, categoryRow, at, newCoin, indexOfSelectedCategory,
                                        table.currentSortingCriteria, table.currentSortingOrder);
      if ShownSurvivesEdit(table.coinsByCategory, categoryRow, at, newCoin, indexOfSelectedCategory) {
        ShownRowAfterEditFollowsCategory(table.coinsByCategory, categoryRow, at, newCoin, indexOfSelectedCategory,
                                         table.currentSortingCriteria, table.currentSortingOrder);
      }
      var current := GetCoin(cat, at);
      if current.Some? && OfSameType(current.value, newCoin) {
        var updated := AssignCoin(cat, at, newCoin);
        table.coinsByCategory := WithCoins(table.coinsByCategory, categoryRow, updated.coinsInCategory);
      } else if CountNumberOfTypes(cat) == 1 {
        if !CoinFitsExistingCategory(table.coinsByCategory, newCoin) {
          table.coinsByCategory := WithCoins(table.coinsByCategory, categoryRow, [newCoin]);
        } else {
          table.DeleteCoinCategory(indexOfSelectedCategory.value);
          table.AddCoin(newCoin);
        }
      } else {
        SaveCoinToDelete(at);
        DeleteTheCoin();
        table.AddCoin(newCoin);
      }
      categoryRow := shownRow;
    }

    /** The coins shown for a query typed into the screen's search bar. */
    function SearchResults(searchText: string): (r: seq<Coin>)
      reads this, table
      requires Valid()
      ensures forall c :: c in r <==> c in table.coinsByCategory[categoryRow].coinCategory.coinsInCategory
                                      && CoinMatchesQuery(c, searchText)
    {
      FilterCoins(table.coinsByCategory[categoryRow].coinCategory.coinsInCategory, searchText)
    }
  }
}
