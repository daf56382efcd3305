// The collection screen: the list of categories the whole collection is
// partitioned into, and the operations that add a coin to the right category,
// delete coins and categories, keep the stored positions dense, regroup the
// whole collection under new settings, and filter categories by a search.
//
// The persistent store orders categories by their stored `index`; this model
// keeps them as a sequence in that order. The two stored settings (grouping
// type and sort order) are fields of the controller.

module CoinTable {
  import opened Wrappers
  import opened Strings
  import opened Coins
  import opened Categories

  /** A stored category together with its stored position. */
  datatype CategoryRecord = CategoryRecord(coinCategory: CoinCategory, index: int)

  predicate AllNonEmpty(rs: seq<CategoryRecord>) {
    forall k :: 0 <= k < |rs| ==> |rs[k].coinCategory.coinsInCategory| > 0
  }

  predicate DenseIndices(rs: seq<CategoryRecord>) {
    forall k :: 0 <= k < |rs| ==> rs[k].index == k
  }

  /** The same categories with each stored position set to the category's place in the list. */
  function Renumbered(rs: seq<CategoryRecord>): (r: seq<CategoryRecord>)
    ensures |r| == |rs| && DenseIndices(r)
    ensures forall k :: 0 <= k < |rs| ==> r[k].coinCategory == rs[k].coinCategory
  {
    seq(|rs|, k requires 0 <= k < |rs| => rs[k].(index := k))
  }

  /** The first coin of a category, which stands for the whole category. */
  function FirstCoin(rec: CategoryRecord): Coin
    requires |rec.coinCategory.coinsInCategory| > 0
  {
    rec.coinCategory.coinsInCategory[0]
  }

  // ---------------------------------------------------------------------
  // Choosing where a coin goes

  /** The first category, in list order, that accepts the coin, or -1. */
  function FirstFit(rs: seq<CategoryRecord>, c: Coin): (r: int)
    ensures -1 <= r < |rs|
    ensures r >= 0 ==> CoinFitsCategory(rs[r].coinCategory, c)
    ensures forall k :: 0 <= k < |rs| && (r == -1 || k < r) ==> !CoinFitsCategory(rs[k].coinCategory, c)
  {
    if |rs| == 0 then -1
    else if CoinFitsCategory(rs[0].coinCategory, c) then 0
    else
      var rest := FirstFit(rs[1..], c);
      if rest == -1 then -1 else rest + 1
  }

  method FindFirstFit(rs: seq<CategoryRecord>, c: Coin) returns (i: int)
    ensures i == FirstFit(rs, c)
  {
    i := 0;
    while i < |rs|
      invariant 0 <= i <= |rs|
      invariant forall k :: 0 <= k < i ==> !CoinFitsCategory(rs[k].coinCategory, c)
    {
      if CoinFitsCategory(rs[i].coinCategory, c) {
        return;
      }
      i := i + 1;
    }
    i := -1;
  }

  /** Whether some existing category accepts the coin. */
  function CoinFitsExistingCategory(rs: seq<CategoryRecord>, c: Coin): (r: bool)
    ensures r <==> FirstFit(rs, c) >= 0
  {
    exists k :: 0 <= k < |rs| && CoinFitsCategory(rs[k].coinCategory, c)
  }

  /** The first coin identical to `c` apart from quantity and images, or -1. */
  function FirstIdentical(coins: seq<Coin>, c: Coin): (r: int)
    ensures -1 <= r < |coins|
    ensures r >= 0 ==> IsIdenticalCoin(coins[r], c)
    ensures forall k :: 0 <= k < |coins| && (r == -1 || k < r) ==> !IsIdenticalCoin(coins[k], c)
  {
    if |coins| == 0 then -1
    else if IsIdenticalCoin(coins[0], c) then 0
    else
      var rest := FirstIdentical(coins[1..], c);
      if rest == -1 then -1 else rest + 1
  }

  /** The coins with the first identical one counted once more. */
  function Bumped(coins: seq<Coin>, c: Coin): (r: seq<Coin>)
    ensures |r| == |coins|
  {
    var j := FirstIdentical(coins, c);
    if j >= 0 then coins[j := IncrementNumInstances(coins[j])] else coins
  }

  /** Raises the quantity of the first coin identical to `c`, if there is one. */
  method BumpFirstIdentical(coins: seq<Coin>, c: Coin) returns (r: seq<Coin>)
    ensures r == Bumped(coins, c)
  {
    r := coins;
    var j := 0;
    while j < |coins|
      invariant 0 <= j <= |coins|
      invariant forall k :: 0 <= k < j ==> !IsIdenticalCoin(coins[k], c)
    {
      if IsIdenticalCoin(coins[j], c) {
        r := coins[j := IncrementNumInstances(coins[j])];
        return;
      }
      j := j + 1;
    }
  }

  /** The year a category is ordered by; an absent year counts as 0. */
  function YearKey(c: Coin): int {
    match GetYear(c)
    case Some(y) => y
    case None => 0
  }

  /**
   * Whether a new category whose coin is `newCoin` goes before an existing
   * category whose first coin is `existing`: by country up to case for the
   * country-based types, by year for the year type, never otherwise.
   */
  predicate PlacedBefore(t: CategoryType, o: SortingOrder, newCoin: Coin, existing: Coin) {
    match t
    case Year =>
      if o == Ascending then YearKey(newCoin) < YearKey(existing) else YearKey(newCoin) > YearKey(existing)
    case NoCategory => false
    case _ =>
      if o == Ascending then CompareIgnoringCase(GetCountry(newCoin), GetCountry(existing)) == Less
      else CompareIgnoringCase(GetCountry(newCoin), GetCountry(existing)) == Greater
  }

  /** The first category the new one goes before, or the length of the list. */
  function FirstPlacedBefore(t: CategoryType, o: SortingOrder, c: Coin, rs: seq<CategoryRecord>): (r: nat)
    requires AllNonEmpty(rs)
    ensures r <= |rs|
    ensures r < |rs| ==> PlacedBefore(t, o, c, FirstCoin(rs[r]))
    ensures forall k :: 0 <= k < r ==> !PlacedBefore(t, o, c, FirstCoin(rs[k]))
  {
    if |rs| == 0 then 0
    else if PlacedBefore(t, o, c, FirstCoin(rs[0])) then 0
    else 1 + FirstPlacedBefore(t, o, c, rs[1..])
  }

  /**
   * The stored position given to a new category: the first category it goes
   * before, else the length of the list, or 1 when the list is empty; 0 for
   * a type without an order.
   */
  function InsertIndex(t: CategoryType, o: SortingOrder, c: Coin, rs: seq<CategoryRecord>): int
    requires AllNonEmpty(rs)
  {
    if t == NoCategory then 0
    else
      var k := FirstPlacedBefore(t, o, c, rs);
      if k < |rs| then k else if |rs| > 0 then |rs| else 1
  }

  /** Scans the categories for the new category's position, as the source's search loop does. */
  method ComputeInsertIndex(t: CategoryType, o: SortingOrder, c: Coin, rs: seq<CategoryRecord>)
    returns (insertIndex: int)
    requires AllNonEmpty(rs)
    ensures insertIndex == InsertIndex(t, o, c, rs)
  {
    if t == NoCategory {
      return 0;
    }
    insertIndex := if |rs| > 0 then |rs| else 1;
    var i := 0;
    while i < |rs|
      invariant 0 <= i <= |rs|
      invariant forall k :: 0 <= k < i ==> !PlacedBefore(t, o, c, FirstCoin(rs[k]))
      invariant insertIndex == if |rs| > 0 then |rs| else 1
    {
      if PlacedBefore(t, o, c, FirstCoin(rs[i])) {
        insertIndex := i;
        break;
      }
      i := i + 1;
    }
  }

  /** Where the new index puts a category among the existing ones: before the category holding that index. */
  function InsertPosition(index: int, rs: seq<CategoryRecord>): (p: nat)
    requires 0 <= index
    ensures p <= |rs|
  {
    if index < |rs| then index else |rs|
  }

  /**
   * The categories after adding a coin, before renumbering: the first
   * accepting category gains the coin (and its first identical coin one more
   * unit), or else a new one-coin category of the current type is placed at
   * its insertion index.
   */
  function AddedTo(rs: seq<CategoryRecord>, c: Coin, t: CategoryType, o: SortingOrder): (r: seq<CategoryRecord>)
    requires AllNonEmpty(rs)
    ensures AllNonEmpty(r)
  {
    var i := FirstFit(rs, c);
    if i >= 0 then
      var cat := rs[i].coinCategory;
      rs[i := rs[i].(coinCategory := NewCategory(Bumped(cat.coinsInCategory, c) + [c], RawValue(cat.currentCategoryType)))]
    else
      var index := InsertIndex(t, o, c, rs);
      var p := InsertPosition(index, rs);
      rs[..p] + [CategoryRecord(NewCategory([c], RawValue(t)), index)] + rs[p..]
  }

  /** The categories obtained by adding each coin in turn to an empty collection. */
  function ReAddAll(coins: seq<Coin>, t: CategoryType, o: SortingOrder): (r: seq<CategoryRecord>)
    ensures AllNonEmpty(r) && DenseIndices(r)
  {
    if |coins| == 0 then []
    else Renumbered(AddedTo(ReAddAll(coins[..|coins| - 1], t, o), coins[|coins| - 1], t, o))
  }

  /** All coins of all categories, category by category. */
  function Flatten(rs: seq<CategoryRecord>): seq<Coin> {
    if |rs| == 0 then [] else Flatten(rs[..|rs| - 1]) + rs[|rs| - 1].coinCategory.coinsInCategory
  }

  /** The categories after deleting the one at `row`, renumbered; an invalid row changes nothing. */
  function DeletedCategory(rs: seq<CategoryRecord>, row: int): (r: seq<CategoryRecord>)
    ensures 0 <= row < |rs| ==> |r| == |rs| - 1
    ensures !(0 <= row < |rs|) ==> r == rs
  {
    if 0 <= row < |rs| then Renumbered(rs[..row] + rs[row + 1..]) else rs
  }

  // ---------------------------------------------------------------------
  // The controller

  class CoinTableController {
    var coinsByCategory: seq<CategoryRecord>
    var currentSortingCriteria: CategoryType
    var currentSortingOrder: SortingOrder

    /** Every category holds a coin, and stored positions are the list positions. */
    ghost predicate Valid()
      reads this
    {
      AllNonEmpty(coinsByCategory) && DenseIndices(coinsByCategory)
    }

    constructor(criteria: CategoryType, order: SortingOrder)
      ensures Valid()
      ensures coinsByCategory == []
      ensures currentSortingCriteria == criteria && currentSortingOrder == order
    {
      coinsByCategory := [];
      currentSortingCriteria := criteria;
      currentSortingOrder := order;
    }

    /** Sets each category's stored position to its place in the list. */
    method UpdateIndices()
      modifies this
      ensures coinsByCategory == Renumbered(old(coinsByCategory))
      ensures currentSortingCriteria == old(currentSortingCriteria)
      ensures currentSortingOrder == old(currentSortingOrder)
    {
      var i := 0;
      while i < |coinsByCategory|
        invariant 0 <= i <= |coinsByCategory| == |old(coinsByCategory)|
        invariant forall k :: 0 <= k < i ==> coinsByCategory[k] == old(coinsByCategory)[k].(index := k)
        invariant forall k :: i <= k < |coinsByCategory| ==> coinsByCategory[k] == old(coinsByCategory)[k]
        invariant currentSortingCriteria == old(currentSortingCriteria)
        invariant currentSortingOrder == old(currentSortingOrder)
      {
        coinsByCategory := coinsByCategory[i := coinsByCategory[i].(index := i)];
        i := i + 1;
      }
    }

    /** Deletes the category at a valid row and renumbers; an invalid row changes nothing. */
    method DeleteCoinCategory(row: int)
      requires Valid()
      modifies this
      ensures Valid()
      ensures coinsByCategory == DeletedCategory(old(coinsByCategory), row)
      ensures currentSortingCriteria == old(currentSortingCriteria)
      ensures currentSortingOrder == old(currentSortingOrder)
    {
      if 0 <= row < |coinsByCategory| {
        coinsByCategory := coinsByCategory[..row] + coinsByCategory[row + 1..];
        UpdateIndices();
      }
    }

    /**
     * Deletes one coin from the category at `row`: the whole category when it
     * is the coin's only entry. Row 0 is never accepted. Reports whether the
     * category was deleted.
     */
    method DeleteCoin(c: Coin, row: int) returns (deletedCategory: bool)
      requires Valid()
      modifies this
      ensures Valid()
      ensures var rs := old(coinsByCategory);
        if 0 < row < |rs| && HasCoin(rs[row].coinCategory, c) then
          if |rs[row].coinCategory.coinsInCategory| == 1 then
            deletedCategory && coinsByCategory == DeletedCategory(rs, row)
          else
            !deletedCategory
            && coinsByCategory == rs[row := rs[row].(coinCategory := RemoveCoinAt(rs[row].coinCategory,
                                                     FirstIndexOf(rs[row].coinCategory.coinsInCategory, c)))]
        else !deletedCategory && coinsByCategory == rs
      ensures currentSortingCriteria == old(currentSortingCriteria)
      ensures currentSortingOrder == old(currentSortingOrder)
    {
      if 0 < row < |coinsByCategory| && HasCoin(coinsByCategory[row].coinCategory, c) {
        if CountNumberOfTypes(coinsByCategory[row].coinCategory) == 1 {
          DeleteCoinCategory(row);
          return true;
        } else {
          var smaller := RemoveCoin(coinsByCategory[row].coinCategory, c);
          coinsByCategory := coinsByCategory[row := coinsByCategory[row].(coinCategory := smaller)];
          return false;
        }
      }
      return false;
    }

    /** Files a coin under the current settings and renumbers the categories. */
    method AddCoin(coinToAdd: Coin)
      requires Valid()
      modifies this
      ensures Valid()
      ensures coinsByCategory == Renumbered(AddedTo(old(coinsByCategory), coinToAdd,
                                                     currentSortingCriteria, currentSortingOrder))
      ensures currentSortingCriteria == old(currentSortingCriteria)
      ensures currentSortingOrder == old(currentSortingOrder)
    {
      var i := FindFirstFit(coinsByCategory, coinToAdd);
      if i >= 0 {
        var cat := coinsByCategory[i].coinCategory;
        var coins := BumpFirstIdentical(cat.coinsInCategory, coinToAdd);
        coinsByCategory := coinsByCategory[i := coinsByCategory[i].(coinCategory :=
                             NewCategory(coins + [coinToAdd], RawValue(cat.currentCategoryType)))];
      } else {
        var index := ComputeInsertIndex(currentSortingCriteria, currentSortingOrder, coinToAdd, coinsByCategory);
        var p := InsertPosition(index, coinsByCategory);
        var newCategory := CategoryRecord(NewCategory([coinToAdd], RawValue(currentSortingCriteria)), index);
        coinsByCategory := coinsByCategory[..p] + [newCategory] + coinsByCategory[p..];
      }
      UpdateIndices();
    }

    /**
     * Regroups the whole collection under new settings: nothing happens when
     * either setting is missing or both equal the stored ones; otherwise the
     * settings are stored and every coin, in flattened order, is filed again.
     */
    method ResortCoinsInNewCategories(newCategorySetting: Option<CategoryType>,
                                      newCategorySortingOrder: Option<SortingOrder>)
      requires Valid()
      modifies this
      ensures Valid()
      ensures newCategorySetting.None? || newCategorySortingOrder.None?
              || (newCategorySetting.value == old(currentSortingCriteria)
                  && newCategorySortingOrder.value == old(currentSortingOrder))
              ==> coinsByCategory == old(coinsByCategory)
                  && currentSortingCriteria == old(currentSortingCriteria)
                  && currentSortingOrder == old(currentSortingOrder)
      ensures newCategorySetting.Some? && newCategorySortingOrder.Some?
              && !(newCategorySetting.value == old(currentSortingCriteria)
                   && newCategorySortingOrder.value == old(currentSortingOrder))
              ==> currentSortingCriteria == newCategorySetting.value
                  && currentSortingOrder == newCategorySortingOrder.value
                  && coinsByCategory == ReAddAll(Flatten(old(coinsByCategory)),
                                                 newCategorySetting.value, newCategorySortingOrder.value)
      ensures |Flatten(coinsByCategory)| == |Flatten(old(coinsByCategory))|
    {
      if newCategorySetting.None? || newCategorySortingOrder.None? {
        return;
      }
      if newCategorySetting.value == currentSortingCriteria && newCategorySortingOrder.value == currentSortingOrder {
        return;
      }
      currentSortingCriteria := newCategorySetting.value;
      currentSortingOrder := newCategorySortingOrder.value;
      ReAddAllCount(Flatten(coinsByCategory), currentSortingCriteria, currentSortingOrder);
      if |coinsByCategory| != 0 {
        var allCoins := FlattenCategories(coinsByCategory);
        DeleteAllCategories();
        AddAllCoins(allCoins);
      }
    }

    /** Deletes the first category as many times as there are categories. */
    method DeleteAllCategories()
      requires Valid()
      modifies this
      ensures Valid() && coinsByCategory == []
      ensures currentSortingCriteria == old(currentSortingCriteria)
      ensures currentSortingOrder == old(currentSortingOrder)
    {
      var numberOfCategoriesToDelete := |coinsByCategory|;
      var j := 0;
      while j < numberOfCategoriesToDelete
        invariant 0 <= j <= numberOfCategoriesToDelete
        invariant Valid()
        invariant |coinsByCategory| == numberOfCategoriesToDelete - j
        invariant currentSortingCriteria == old(currentSortingCriteria)
        invariant currentSortingOrder == old(currentSortingOrder)
      {
        DeleteCoinCategory(0);
        j := j + 1;
      }
    }

    /** Files each coin in turn into an empty collection. */
    method AddAllCoins(allCoins: seq<Coin>)
      requires Valid() && coinsByCategory == []
      modifies this
      ensures Valid()
      ensures coinsByCategory == ReAddAll(allCoins, currentSortingCriteria, currentSortingOrder)
      ensures currentSortingCriteria == old(currentSortingCriteria)
      ensures currentSortingOrder == old(currentSortingOrder)
    {
      var i := 0;
      while i < |allCoins|
        invariant 0 <= i <= |allCoins|
        invariant Valid()
        invariant coinsByCategory == ReAddAll(allCoins[..i], currentSortingCriteria, currentSortingOrder)
        invariant currentSortingCriteria == old(currentSortingCriteria)
        invariant currentSortingOrder == old(currentSortingOrder)
      {
        assert allCoins[..i + 1][..i] == allCoins[..i];
        AddCoin(allCoins[i]);
        i := i + 1;
      }
      assert allCoins[..i] == allCoins;
    }
  }

  /** Gathers the coins of all categories, category by category. */
  method FlattenCategories(rs: seq<CategoryRecord>) returns (allCoins: seq<Coin>)
    ensures allCoins == Flatten(rs)
  {
    allCoins := [];
    var i := 0;
    while i < |rs|
      invariant 0 <= i <= |rs|
      invariant allCoins == Flatten(rs[..i])
    {
      assert rs[..i + 1][..i] == rs[..i];
      allCoins := allCoins + rs[i].coinCategory.coinsInCategory;
      i := i + 1;
    }
    assert rs[..i] == rs;
  }

  // ---------------------------------------------------------------------
  // Entry counts

  lemma {:induction false} FlattenAppend(a: seq<CategoryRecord>, b: seq<CategoryRecord>)
    ensures Flatten(a + b) == Flatten(a) + Flatten(b)
    decreases |b|
  {
    if |b| == 0 {
      assert a + b == a;
    } else {
      FlattenAppend(a, b[..|b| - 1]);
      assert (a + b)[..|a + b| - 1] == a + b[..|b| - 1];
    }
  }

  lemma {:induction false} FlattenSameCategories(a: seq<CategoryRecord>, b: seq<CategoryRecord>)
    requires |a| == |b|
    requires forall k :: 0 <= k < |a| ==> a[k].coinCategory == b[k].coinCategory
    ensures Flatten(a) == Flatten(b)
    decreases |a|
  {
    if |a| > 0 {
      FlattenSameCategories(a[..|a| - 1], b[..|b| - 1]);
    }
  }

  /** Replacing one category changes the entry count by the difference of the two sizes. */
  lemma FlattenUpdate(rs: seq<CategoryRecord>, i: int, rec: CategoryRecord)
    requires 0 <= i < |rs|
    ensures |Flatten(rs[i := rec])| + |rs[i].coinCategory.coinsInCategory|
            == |Flatten(rs)| + |rec.coinCategory.coinsInCategory|
  {
    var r := rs[i := rec];
    assert rs == rs[..i] + [rs[i]] + rs[i + 1..];
    assert r == rs[..i] + [rec] + rs[i + 1..];
    FlattenAppend(rs[..i] + [rs[i]], rs[i + 1..]);
    FlattenAppend(rs[..i], [rs[i]]);
    FlattenAppend(rs[..i] + [rec], rs[i + 1..]);
    FlattenAppend(rs[..i], [rec]);
    assert [rs[i]][..0] == [] && [rec][..0] == [];
  }

  /** Inserting a category adds its size to the entry count. */
  lemma FlattenInsert(rs: seq<CategoryRecord>, p: int, rec: CategoryRecord)
    requires 0 <= p <= |rs|
    ensures |Flatten(rs[..p] + [rec] + rs[p..])| == |Flatten(rs)| + |rec.coinCategory.coinsInCategory|
  {
    assert rs == rs[..p] + rs[p..];
    FlattenAppend(rs[..p] + [rec], rs[p..]);
    FlattenAppend(rs[..p], [rec]);
    FlattenAppend(rs[..p], rs[p..]);
    assert [rec][..0] == [];
  }

  /** Cancels a common part on both sides of a multiset equation. */
  lemma MultisetCancel<T>(a: multiset<T>, c: multiset<T>, f: multiset<T>, s: multiset<T>, x: multiset<T>)
    requires a + c == f + s && s + x == c
    ensures a + x == f
  {
    forall e
      ensures (a + x)[e] == f[e]
    {
      assert (a + c)[e] == (f + s)[e];
      assert (s + x)[e] == c[e];
    }
  }

  /** The collected coins around one category. */
  lemma FlattenSplitAt(rs: seq<CategoryRecord>, i: int)
    requires 0 <= i < |rs|
    ensures Flatten(rs) == Flatten(rs[..i]) + rs[i].coinCategory.coinsInCategory + Flatten(rs[i + 1..])
  {
    var a, x, b := rs[..i], rs[i], rs[i + 1..];
    assert rs == (a + [x]) + b;
    FlattenAppend(a + [x], b);
    assert (a + [x])[..|a|] == a;
  }

  /** Replacing one category changes the collected coins by exactly that category's coins. */
  lemma FlattenUpdateMultiset(rs: seq<CategoryRecord>, i: int, rec: CategoryRecord)
    requires 0 <= i < |rs|
    ensures multiset(Flatten(rs[i := rec])) + multiset(rs[i].coinCategory.coinsInCategory)
            == multiset(Flatten(rs)) + multiset(rec.coinCategory.coinsInCategory)
  {
    var r := rs[i := rec];
    FlattenSplitAt(rs, i);
    FlattenSplitAt(r, i);
    assert r[..i] == rs[..i] && r[i + 1..] == rs[i + 1..];
  }

  /** Deleting a category removes exactly its coins from the collection. */
  lemma FlattenDeletedCategory(rs: seq<CategoryRecord>, row: int)
    requires 0 <= row < |rs|
    ensures multiset(Flatten(DeletedCategory(rs, row))) + multiset(rs[row].coinCategory.coinsInCategory)
            == multiset(Flatten(rs))
  {
    var a, b := rs[..row], rs[row + 1..];
    FlattenSameCategories(Renumbered(a + b), a + b);
    FlattenAppend(a, b);
    FlattenSplitAt(rs, row);
  }

  /** Every coin of every category is among the collected coins. */
  lemma FlattenMember(rs: seq<CategoryRecord>, k: int, j: int)
    requires 0 <= k < |rs| && 0 <= j < |rs[k].coinCategory.coinsInCategory|
    ensures rs[k].coinCategory.coinsInCategory[j] in Flatten(rs)
  {
    FlattenSplitAt(rs, k);
    var f := Flatten(rs[..k]);
    assert Flatten(rs)[|f| + j] == rs[k].coinCategory.coinsInCategory[j];
  }

  /** The added coin is in the collection afterwards. */
  lemma AddedToContains(rs: seq<CategoryRecord>, c: Coin, t: CategoryType, o: SortingOrder)
    requires AllNonEmpty(rs)
    ensures c in Flatten(AddedTo(rs, c, t, o))
    ensures c in Flatten(Renumbered(AddedTo(rs, c, t, o)))
  {
    var r := AddedTo(rs, c, t, o);
    if FirstFit(rs, c) >= 0 {
      AddedToExistingCategory(rs, c, t, o);
      var i := FirstFit(rs, c);
      FlattenMember(r, i, |r[i].coinCategory.coinsInCategory| - 1);
    } else {
      AddedToNewCategory(rs, c, t, o);
      FlattenMember(r, InsertPosition(InsertIndex(t, o, c, rs), rs), 0);
    }
    FlattenSameCategories(Renumbered(r), r);
  }

  lemma AddedToCount(rs: seq<CategoryRecord>, c: Coin, t: CategoryType, o: SortingOrder)
    requires AllNonEmpty(rs)
    ensures |Flatten(AddedTo(rs, c, t, o))| == |Flatten(rs)| + 1
    ensures |Flatten(Renumbered(AddedTo(rs, c, t, o)))| == |Flatten(rs)| + 1
  {
    var r := AddedTo(rs, c, t, o);
    var i := FirstFit(rs, c);
    if i >= 0 {
      var cat := rs[i].coinCategory;
      FlattenUpdate(rs, i, rs[i].(coinCategory := NewCategory(Bumped(cat.coinsInCategory, c) + [c], RawValue(cat.currentCategoryType))));
    } else {
      var index := InsertIndex(t, o, c, rs);
      FlattenInsert(rs, InsertPosition(index, rs), CategoryRecord(NewCategory([c], RawValue(t)), index));
    }
    FlattenSameCategories(Renumbered(r), r);
  }

  /** Filing a list of coins one by one into an empty collection makes one entry per coin. */
  lemma {:induction false} ReAddAllCount(coins: seq<Coin>, t: CategoryType, o: SortingOrder)
    ensures |Flatten(ReAddAll(coins, t, o))| == |coins|
    decreases |coins|
  {
    if |coins| > 0 {
      ReAddAllCount(coins[..|coins| - 1], t, o);
      AddedToCount(ReAddAll(coins[..|coins| - 1], t, o), coins[|coins| - 1], t, o);
    }
  }

  // ---------------------------------------------------------------------
  // Where an added coin ends up

  /** A coin that some category accepts joins the first such category, which grows by exactly one entry; nothing else changes. */
  lemma AddedToExistingCategory(rs: seq<CategoryRecord>, c: Coin, t: CategoryType, o: SortingOrder)
    requires AllNonEmpty(rs) && FirstFit(rs, c) >= 0
    ensures var i := FirstFit(rs, c);
      var r := AddedTo(rs, c, t, o);
      var before := rs[i].coinCategory.coinsInCategory;
      var after := r[i].coinCategory.coinsInCategory;
      |r| == |rs|
      && (forall k :: 0 <= k < |rs| && k != i ==> r[k] == rs[k])
      && r[i].index == rs[i].index
      && r[i].coinCategory.currentCategoryType == rs[i].coinCategory.currentCategoryType
      && |after| == |before| + 1 && after[|before|] == c
  {
    var i := FirstFit(rs, c);
    NewCategoryKeepsType(Bumped(rs[i].coinCategory.coinsInCategory, c) + [c], rs[i].coinCategory);
  }

  /**
   * In the accepting category, the first identical coin gains one unit and
   * every other coin is untouched; the total quantity grows by the new coin's
   * quantity plus that one unit.
   */
  lemma AddedToBumpsFirstIdentical(rs: seq<CategoryRecord>, c: Coin, t: CategoryType, o: SortingOrder)
    requires AllNonEmpty(rs) && FirstFit(rs, c) >= 0
    ensures var i := FirstFit(rs, c);
      var before := rs[i].coinCategory.coinsInCategory;
      var after := AddedTo(rs, c, t, o)[i].coinCategory.coinsInCategory;
      var j := FirstIdentical(before, c);
      (forall k :: 0 <= k < |before| && k != j ==> after[k] == before[k])
      && (j >= 0 ==> after[j] == IncrementNumInstances(before[j]))
      && TotalInstances(after) == TotalInstances(before) + GetNumInstances(c)
                                  + (if j >= 0 && before[j].numberOfInstances >= 0 then 1 else 0)
  {
    var i := FirstFit(rs, c);
    var before := rs[i].coinCategory.coinsInCategory;
    var j := FirstIdentical(before, c);
    var bumped := Bumped(before, c);
    TotalInstancesAppend(bumped, [c]);
    assert [c][..0] == [];
    if j >= 0 {
      TotalInstancesUpdate(before, j, IncrementNumInstances(before[j]));
    }
  }

  /** A coin no category accepts starts a new one-coin category of the current type at its insertion position. */
  lemma AddedToNewCategory(rs: seq<CategoryRecord>, c: Coin, t: CategoryType, o: SortingOrder)
    requires AllNonEmpty(rs) && FirstFit(rs, c) == -1
    ensures var index := InsertIndex(t, o, c, rs);
      var p := InsertPosition(index, rs);
      var r := AddedTo(rs, c, t, o);
      |r| == |rs| + 1
      && r[p].coinCategory == CoinCategory([c], t) && r[p].index == index
      && r[..p] == rs[..p] && r[p + 1..] == rs[p..]
  {
    CategoryNameRoundTrip(t, "");
    var index := InsertIndex(t, o, c, rs);
    var p := InsertPosition(index, rs);
    var r := AddedTo(rs, c, t, o);
    assert r[p + 1..] == rs[p..];
  }

  /** Where the category at `row` stands after a coin is added: one further on when a new category is placed at or before it. */
  function RowAfterAdding(rs: seq<CategoryRecord>, row: int, c: Coin, t: CategoryType, o: SortingOrder): int
    requires AllNonEmpty(rs)
  {
    if FirstFit(rs, c) < 0 && InsertPosition(InsertIndex(t, o, c, rs), rs) <= row then row + 1 else row
  }

  /**
   * Adding a coin moves no category out of place: the category at `row` is
   * found at RowAfterAdding, unchanged unless it is the one accepting the
   * coin, in which case it keeps its type and gains the coin at its end.
   */
  lemma RowAfterAddingFollowsCategory(rs: seq<CategoryRecord>, row: int, c: Coin, t: CategoryType, o: SortingOrder)
    requires AllNonEmpty(rs) && 0 <= row < |rs|
    ensures var k := RowAfterAdding(rs, row, c, t, o);
      var r := Renumbered(AddedTo(rs, c, t, o));
      var before := rs[row].coinCategory;
      0 <= k < |r|
      && r[k].coinCategory.currentCategoryType == before.currentCategoryType
      && (FirstFit(rs, c) != row ==> r[k].coinCategory == before)
      && (FirstFit(rs, c) == row ==>
            |r[k].coinCategory.coinsInCategory| == |before.coinsInCategory| + 1
            && r[k].coinCategory.coinsInCategory[|before.coinsInCategory|] == c)
  {
    var a := AddedTo(rs, c, t, o);
    var k := RowAfterAdding(rs, row, c, t, o);
    if FirstFit(rs, c) >= 0 {
      AddedToExistingCategory(rs, c, t, o);
      assert k == row;
    } else {
      AddedToNewCategory(rs, c, t, o);
      var p := InsertPosition(InsertIndex(t, o, c, rs), rs);
      if p <= row {
        assert a[k] == a[p + 1..][row - p] == rs[p..][row - p];
      } else {
        assert a[k] == a[..p][row] == rs[..p][row];
      }
    }
  }

  /** Where the category at `row` stands after the category at `deleted`, another row, is deleted. */
  function RowAfterDeleting(row: int, deleted: int): int {
    if 0 <= deleted < row then row - 1 else row
  }

  /** Deleting another category moves the category at `row` to RowAfterDeleting, unchanged. */
  lemma RowAfterDeletingFollowsCategory(rs: seq<CategoryRecord>, row: int, deleted: int)
    requires 0 <= row < |rs| && deleted != row
    ensures var k := RowAfterDeleting(row, deleted);
      0 <= k < |DeletedCategory(rs, deleted)| && DeletedCategory(rs, deleted)[k].coinCategory == rs[row].coinCategory
  {
    if 0 <= deleted < |rs| {
      var rest := rs[..deleted] + rs[deleted + 1..];
      assert rest[RowAfterDeleting(row, deleted)] == rs[row];
    }
  }

  /** The insertion index: 0 without an order, 1 for an empty list, else the first category the new one goes before. */
  lemma InsertIndexPlacement(t: CategoryType, o: SortingOrder, c: Coin, rs: seq<CategoryRecord>)
    requires AllNonEmpty(rs)
    ensures t == NoCategory ==> InsertIndex(t, o, c, rs) == 0
    ensures t != NoCategory && |rs| == 0 ==> InsertIndex(t, o, c, rs) == 1
    ensures t != NoCategory && |rs| > 0 ==>
      var index := InsertIndex(t, o, c, rs);
      0 <= index <= |rs|
      && (index < |rs| ==> PlacedBefore(t, o, c, FirstCoin(rs[index])))
      && (forall k :: 0 <= k < index ==> !PlacedBefore(t, o, c, FirstCoin(rs[k])))
  {
  }

  // ---------------------------------------------------------------------
  // Ordering of the categories

  /** No category is placed before a category that precedes it in the list. */
  predicate SortedBy(t: CategoryType, o: SortingOrder, rs: seq<CategoryRecord>)
    requires AllNonEmpty(rs)
  {
    forall a, b :: 0 <= a < b < |rs| ==> !PlacedBefore(t, o, FirstCoin(rs[b]), FirstCoin(rs[a]))
  }

  /** For a fixed grouping type and order, "placed before" is a strict order on coins. */
  lemma PlacedBeforeIsStrictOrder(t: CategoryType, o: SortingOrder, x: Coin, y: Coin, z: Coin)
    ensures !(PlacedBefore(t, o, x, y) && PlacedBefore(t, o, y, x))
    ensures PlacedBefore(t, o, x, y) && PlacedBefore(t, o, y, z) ==> PlacedBefore(t, o, x, z)
  {
    var cx, cy, cz := GetCountry(x), GetCountry(y), GetCountry(z);
    CompareIgnoringCaseIsStrictOrder(cx, cy, cz);
    CompareIgnoringCaseIsStrictOrder(cy, cx, cz);
    CompareIgnoringCaseIsStrictOrder(cz, cy, cx);
    CompareIgnoringCaseIsStrictOrder(cz, cx, cy);
  }

  /** Ordering looks only at the country and the year. */
  lemma PlacedBeforeIgnoresQuantity(t: CategoryType, o: SortingOrder, x: Coin, y: Coin, n: int, m: int)
    ensures PlacedBefore(t, o, x, y) == PlacedBefore(t, o, x.(numberOfInstances := n), y.(numberOfInstances := m))
  {
  }

  lemma RenumberedKeepsSorted(t: CategoryType, o: SortingOrder, rs: seq<CategoryRecord>)
    requires AllNonEmpty(rs) && SortedBy(t, o, rs)
    ensures AllNonEmpty(Renumbered(rs)) && SortedBy(t, o, Renumbered(rs))
  {
  }

  lemma AddedToExistingKeepsSorted(rs: seq<CategoryRecord>, c: Coin, t: CategoryType, o: SortingOrder)
    requires AllNonEmpty(rs) && SortedBy(t, o, rs) && FirstFit(rs, c) >= 0
    ensures SortedBy(t, o, AddedTo(rs, c, t, o))
  {
    var i := FirstFit(rs, c);
    var r := AddedTo(rs, c, t, o);
    AddedToExistingCategory(rs, c, t, o);
    var before := rs[i].coinCategory.coinsInCategory;
    var n := FirstCoin(r[i]).numberOfInstances;
    assert FirstCoin(r[i]) == FirstCoin(rs[i]).(numberOfInstances := n);
    forall a, b | 0 <= a < b < |r|
      ensures !PlacedBefore(t, o, FirstCoin(r[b]), FirstCoin(r[a]))
    {
      var na, nb := FirstCoin(r[a]).numberOfInstances, FirstCoin(r[b]).numberOfInstances;
      assert FirstCoin(r[a]) == FirstCoin(rs[a]).(numberOfInstances := na);
      assert FirstCoin(r[b]) == FirstCoin(rs[b]).(numberOfInstances := nb);
      PlacedBeforeIgnoresQuantity(t, o, FirstCoin(rs[b]), FirstCoin(rs[a]), nb, na);
    }
  }

  /** Where a new category is inserted, no earlier category comes after it and the next one does. */
  lemma InsertPositionFacts(rs: seq<CategoryRecord>, c: Coin, t: CategoryType, o: SortingOrder)
    requires AllNonEmpty(rs)
    ensures var p := InsertPosition(InsertIndex(t, o, c, rs), rs);
      (forall k :: 0 <= k < p ==> !PlacedBefore(t, o, c, FirstCoin(rs[k])))
      && (p < |rs| && t != NoCategory ==> PlacedBefore(t, o, c, FirstCoin(rs[p])))
  {
  }

  /** One pair of positions in the list with a category inserted at `p`. */
  lemma InsertedPairOrdered(rs: seq<CategoryRecord>, r: seq<CategoryRecord>, added: CategoryRecord,
                            p: nat, c: Coin, t: CategoryType, o: SortingOrder, a: int, b: int)
    requires AllNonEmpty(rs) && SortedBy(t, o, rs) && p <= |rs|
    requires |added.coinCategory.coinsInCategory| > 0 && FirstCoin(added) == c
    requires r == rs[..p] + [added] + rs[p..]
    requires forall k :: 0 <= k < p ==> !PlacedBefore(t, o, c, FirstCoin(rs[k]))
    requires p < |rs| && t != NoCategory ==> PlacedBefore(t, o, c, FirstCoin(rs[p]))
    requires 0 <= a < b < |r|
    ensures AllNonEmpty(r) && !PlacedBefore(t, o, FirstCoin(r[b]), FirstCoin(r[a]))
  {
    if b < p {
      assert r[a] == rs[a] && r[b] == rs[b];
    } else if a > p {
      assert r[a] == rs[a - 1] && r[b] == rs[b - 1];
    } else if b == p {
      assert r[a] == rs[a] && r[b] == added;
    } else if a == p {
      assert r[a] == added && r[b] == rs[b - 1];
      PlacedBeforeIsStrictOrder(t, o, FirstCoin(rs[b - 1]), c, FirstCoin(rs[p]));
      if t == NoCategory {
      } else if b - 1 == p {
      } else {
        assert !PlacedBefore(t, o, FirstCoin(rs[b - 1]), FirstCoin(rs[p]));
      }
    } else {
      assert r[a] == rs[a] && r[b] == rs[b - 1];
    }
  }

  lemma AddedToNewKeepsSorted(rs: seq<CategoryRecord>, c: Coin, t: CategoryType, o: SortingOrder)
    requires AllNonEmpty(rs) && SortedBy(t, o, rs) && FirstFit(rs, c) == -1
    ensures SortedBy(t, o, AddedTo(rs, c, t, o))
  {
    var index := InsertIndex(t, o, c, rs);
    var p := InsertPosition(index, rs);
    var r := AddedTo(rs, c, t, o);
    var added := CategoryRecord(NewCategory([c], RawValue(t)), index);
    assert r == rs[..p] + [added] + rs[p..];
    InsertPositionFacts(rs, c, t, o);
    forall a, b | 0 <= a < b < |r|
      ensures !PlacedBefore(t, o, FirstCoin(r[b]), FirstCoin(r[a]))
    {
      InsertedPairOrdered(rs, r, added, p, c, t, o, a, b);
    }
  }

  /** Filing a coin keeps the categories in the order of the current grouping type and sort order. */
  lemma AddedToKeepsSorted(rs: seq<CategoryRecord>, c: Coin, t: CategoryType, o: SortingOrder)
    requires AllNonEmpty(rs) && SortedBy(t, o, rs)
    ensures SortedBy(t, o, AddedTo(rs, c, t, o))
    ensures SortedBy(t, o, Renumbered(AddedTo(rs, c, t, o)))
  {
    if FirstFit(rs, c) >= 0 {
      AddedToExistingKeepsSorted(rs, c, t, o);
    } else {
      AddedToNewKeepsSorted(rs, c, t, o);
    }
    RenumberedKeepsSorted(t, o, AddedTo(rs, c, t, o));
  }

  /** Regrouping files every coin anew, so the result is in the chosen order. */
  lemma {:induction false} ReAddAllSorted(coins: seq<Coin>, t: CategoryType, o: SortingOrder)
    ensures SortedBy(t, o, ReAddAll(coins, t, o))
    decreases |coins|
  {
    if |coins| > 0 {
      ReAddAllSorted(coins[..|coins| - 1], t, o);
      AddedToKeepsSorted(ReAddAll(coins[..|coins| - 1], t, o), coins[|coins| - 1], t, o);
    }
  }

  // ---------------------------------------------------------------------
  // Searching the categories

  /** The era word a year is searchable by: "CE" after year 0, "BCE" before it, none for 0. */
  function EraWords(year: int): (r: seq<string>)
    ensures year > 0 <==> r == [EraCE]
    ensures year < 0 <==> r == [EraBCE]
    ensures year == 0 <==> r == []
  {
    if year > 0 then [EraCE] else if year < 0 then [EraBCE] else []
  }

  /**
   * Whether one search word describes a category, judged from its first coin
   * by the category's grouping type, or from the category's total quantity.
   */
  predicate WordFitsCategory(word: string, cat: CoinCategory)
    requires |cat.coinsInCategory| > 0
  {
    var sample := cat.coinsInCategory[0];
    var fitsByType :=
      match cat.currentCategoryType
      case CountryValueAndCurrency =>
        ContainsIgnoringCase(GetCountry(sample), word)
        || (if GetValue(sample) > 0 then
              ContainsIgnoringCase(IntToString(GetValue(sample)), word)
              || (GetYear(sample).Some? && GetYear(sample).value > 0 && ContainsIgnoringCase(EraCE, word))
              || (GetYear(sample).Some? && GetYear(sample).value < 0 && ContainsIgnoringCase(EraBCE, word))
            else ContainsIgnoringCase(DefaultValueString, word))
        || ContainsIgnoringCase(GetDenomination(sample), word)
      case Country => ContainsIgnoringCase(GetCountry(sample), word)
      case Year =>
        GetYear(sample).Some?
        && (ContainsIgnoringCase(IntToString(GetYear(sample).value), word)
            || (GetYear(sample).value > 0 && ContainsIgnoringCase(EraCE, word))
            || (GetYear(sample).value < 0 && ContainsIgnoringCase(EraBCE, word)))
      case Currency =>
        ContainsIgnoringCase(GetDenomination(sample), word) || ContainsIgnoringCase(GetCountry(sample), word)
      case NoCategory => false;
    fitsByType || ContainsIgnoringCase(IntToString(TotalInstances(cat.coinsInCategory)), word)
  }

  /** The texts a category can be found by, listed per grouping type. */
  function CategorySearchTexts(cat: CoinCategory): (r: seq<string>)
    requires |cat.coinsInCategory| > 0
    ensures |r| > 0 && r[|r| - 1] == IntToString(TotalInstances(cat.coinsInCategory))
  {
    var sample := cat.coinsInCategory[0];
    var eras := if sample.year.Some? then EraWords(sample.year.value) else [];
    var byType :=
      match cat.currentCategoryType
      case CountryValueAndCurrency =>
        [GetCountry(sample)]
        + (if sample.value > 0 then [IntToString(sample.value)] + eras else [DefaultValueString])
        + [GetDenomination(sample)]
      case Country => [GetCountry(sample)]
      case Year => if sample.year.Some? then [IntToString(sample.year.value)] + eras else []
      case Currency => [GetDenomination(sample), GetCountry(sample)]
      case NoCategory => [];
    byType + [IntToString(TotalInstances(cat.coinsInCategory))]
  }

  /** A word fits a category exactly when it occurs in one of the category's search texts. */
  lemma WordFitsCategoryIffInSearchTexts(word: string, cat: CoinCategory)
    requires |cat.coinsInCategory| > 0
    ensures WordFitsCategory(word, cat)
            <==> exists k :: 0 <= k < |CategorySearchTexts(cat)| && ContainsIgnoringCase(CategorySearchTexts(cat)[k], word)
  {
    var texts := CategorySearchTexts(cat);
    var n := |texts|;
    if WordFitsCategory(word, cat) {
      var sample := cat.coinsInCategory[0];
      if ContainsIgnoringCase(IntToString(TotalInstances(cat.coinsInCategory)), word) {
        assert ContainsIgnoringCase(texts[n - 1], word);
      } else {
        match cat.currentCategoryType
        case CountryValueAndCurrency =>
          if ContainsIgnoringCase(GetCountry(sample), word) {
            assert ContainsIgnoringCase(texts[0], word);
          } else if ContainsIgnoringCase(GetDenomination(sample), word) {
            assert ContainsIgnoringCase(texts[n - 2], word);
          } else if sample.value > 0 {
            if ContainsIgnoringCase(IntToString(sample.value), word) {
              assert ContainsIgnoringCase(texts[1], word);
            } else {
              assert ContainsIgnoringCase(texts[2], word);
            }
          } else {
            assert ContainsIgnoringCase(texts[1], word);
          }
        case Country =>
          assert ContainsIgnoringCase(texts[0], word);
        case Year =>
          if ContainsIgnoringCase(IntToString(sample.year.value), word) {
            assert ContainsIgnoringCase(texts[0], word);
          } else {
            assert ContainsIgnoringCase(texts[1], word);
          }
        case Currency =>
          if ContainsIgnoringCase(GetDenomination(sample), word) {
            assert ContainsIgnoringCase(texts[0], word);
          } else {
            assert ContainsIgnoringCase(texts[1], word);
          }
      }
    }
  }

  /** The quantity a category shows always finds it, whatever its grouping type. */
  lemma CategoryFoundByItsQuantity(cat: CoinCategory)
    requires |cat.coinsInCategory| > 0
    ensures WordFitsCategory(IntToString(TotalInstances(cat.coinsInCategory)), cat)
  {
    var text := IntToString(TotalInstances(cat.coinsInCategory));
    assert |text| > 0;
    ContainsItself(text);
  }

  /** Whether some space-separated word of the query fits the category. */
  predicate CategoryMatchesQuery(rec: CategoryRecord, searchText: string)
    requires |rec.coinCategory.coinsInCategory| > 0
  {
    exists k :: 0 <= k < |Split(searchText)| && WordFitsCategory(Split(searchText)[k], rec.coinCategory)
  }

  /** The categories shown for a query: those matching it, in their list order. */
  function FilterCategories(rs: seq<CategoryRecord>, searchText: string): (r: seq<CategoryRecord>)
    requires AllNonEmpty(rs)
    ensures |r| <= |rs| && AllNonEmpty(r)
    ensures forall x :: x in r <==> x in rs && CategoryMatchesQuery(x, searchText)
  {
    if |rs| == 0 then []
    else
      var rest := FilterCategories(rs[1..], searchText);
      assert forall x :: x in rs <==> x == rs[0] || x in rs[1..];
      if CategoryMatchesQuery(rs[0], searchText) then [rs[0]] + rest else rest
  }

  /** Filtering distributes over concatenation, so the shown categories keep their list order. */
  lemma {:induction false} FilterCategoriesAppend(a: seq<CategoryRecord>, b: seq<CategoryRecord>, searchText: string)
    requires AllNonEmpty(a) && AllNonEmpty(b)
    ensures AllNonEmpty(a + b)
    ensures FilterCategories(a + b, searchText) == FilterCategories(a, searchText) + FilterCategories(b, searchText)
    decreases |a|
  {
    if |a| > 0 {
      assert (a + b)[1..] == a[1..] + b;
      FilterCategoriesAppend(a[1..], b, searchText);
    } else {
      assert a + b == b;
    }
  }
}
