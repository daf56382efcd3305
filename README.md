# Coin collection core, modelled in Dafny

This project models the core of an iOS coin-collection app, plus the torpedo
counter of a small spaceship game from the same repository.

- **The coin record** (`Coins`, `coin.dfy`): the stored fields and the setters that clamp negative values to 0. The getters put a `(Country?)`-style placeholder in place of missing text. The module also holds the value-and-denomination text and the three ways two coins are compared: same type, identical, and equal.
- **A category of coins** (`Categories`, `coin_category.dfy`): the grouping types and their stored names, and the sort orders. It covers the test of whether a coin fits a category and every operation on the coin list. Adding up the quantities is a loop.
- **The collection screen** (`CoinTable`, `coin_table.dfy`): a class that holds the categories in list order with their stored positions. It models:
  - filing a coin into the first category that accepts it, or into a new category inserted in sort order;
  - deleting a coin or a whole category;
  - renumbering the stored positions;
  - regrouping the whole collection under new settings;
  - the category search.
- **The category screen** (`CategoryDetail`, `category_detail.dfy`): a class that shares the collection with the collection screen. It models deleting a coin, reordering rows, the four ways an edited coin is saved, and the coin search.
- **The edit form** (`EditCoin`, `edit_coin.dfy`): the keystroke filter, the cleaning of typed text, input validation, and the building of a coin from the form.
- **Search and share** (`ExternalSearch`, `external_search.dfy`): the search address for a coin or a category, and the text shared for each kind of sharing activity.
- **The torpedo counter** (`Spaceship`, `game_scene.dfy`): a class for the game scene. It covers the bounded torpedo stock, the shot counter, the score, the regeneration interval of each level, and the classification of physics contacts by category mask.

`Strings` and `Wrappers` (`strings.dfy`) hold the text operations the screens share and an `Option` type.

Four behaviours are modelled exactly as the code has them:

- When a coin is identical to one already in the accepting category, the existing coin's quantity is raised **and** the new coin is appended anyway.
- Deleting a coin through the collection screen refuses row 0.
- Regrouping can therefore increase the quantities.
- The edit form stores the description only when the comment box is non-empty.

## Model

| member | source | states |
|---|---|---|
| Strings.CompareIgnoringCaseIsStrictOrder | CoinCollection/CoinTableViewController.swift:603-740 | the case-insensitive country comparison used to place new categories is asymmetric and transitive, and "same" means equal up to case |
| Strings.ContainsItself | CoinCollection/CoinTableViewController.swift:1005 | any non-empty text contains itself, ignoring case |
| Strings.SplitJoinRoundTrip | CoinCollection/ExternalApplicationIntegration.swift:49-52 | splitting on single spaces and re-joining gives the text back; no piece contains a space |
| Strings.NatToString | CoinCollection/ExternalApplicationIntegration.swift:57 | decimal text of a number is non-empty and all digits |
| Strings.ParseNatToString | CoinCollection/EditCoinInformationViewController.swift:886 | parsing the decimal text of a number gives the number back |
| Strings.NatToStringInjective | CoinCollection/ExternalApplicationIntegration.swift:71 | different numbers have different decimal text |
| Coins.SetValue | CoinCollection/CoinCollection/Coin.swift:336-344 | the stored value is never negative, equals the argument when that is not negative, and nothing else changes |
| Coins.SetNumInstances | CoinCollection/CoinCollection/Coin.swift:385-394 | the stored quantity is never negative, equals the argument when that is not negative, and nothing else changes |
| Coins.IncrementNumInstances | CoinCollection/CoinCollection/Coin.swift:396-399 | the quantity grows by one; nothing else changes |
| Coins.DecrementNumInstances | CoinCollection/CoinCollection/Coin.swift:401-404 | the quantity drops by one, possibly below zero; nothing else changes |
| Coins.Assign | CoinCollection/CoinCollection/Coin.swift:556-573 | every field of the right-hand coin is copied |
| Coins.SetValueThenGet | CoinCollection/CoinCollection/Coin.swift:331-344 | the value read back after setting is the argument, or 0 for a negative argument |
| Coins.NumInstancesNeverNegative | CoinCollection/CoinCollection/Coin.swift:376-404 | the quantity read back is never negative, after setting, decrementing or incrementing |
| Coins.GradeReadsBackWithinScale | CoinCollection/CoinCollection/Coin.swift:347-360 | a stored grade reads back exactly when it lies in 1..70; otherwise no grade is read |
| Coins.TextGettersSubstituteDefaults | CoinCollection/CoinCollection/Coin.swift:257-420 | each text getter returns the stored text when it is non-empty and its placeholder otherwise; no getter returns empty text |
| Coins.ValueAndDenominationCases | CoinCollection/CoinCollection/Coin.swift:92-129 | the value-and-denomination text in its three cases: value and currency unknown, only the currency known, value known |
| Coins.NewCoinDefaults | CoinCollection/CoinCollection/Coin.swift:189-204 | a new coin has one instance, no year, value 0, no grade and every text at its placeholder |
| Coins.OfSameTypeIsEquivalence | CoinCollection/CoinCollection/Coin.swift:521-524 | being of the same type is reflexive, symmetric and transitive |
| Coins.FoldEmpty | CoinCollection/CoinCollection/Coin.swift:523 | lower-casing keeps empty text empty and non-empty text non-empty |
| Coins.IdenticalCoinsAreOfSameType | CoinCollection/CoinCollection/Coin.swift:521-538 | identical coins are of the same type, although one test compares stored fields and the other the getters |
| Coins.IdentityIgnoresQuantityAndImages | CoinCollection/CoinCollection/Coin.swift:526-554 | identity ignores the quantity and the images; equal coins are identical; equality sees the quantity |
| Coins.AssignMakesEqual | CoinCollection/CoinCollection/Coin.swift:540-573 | after the assignment the two coins are equal, in both directions |
| Categories.CategoryNameRoundTrip | CoinCollection/CoinCategory.swift:25-56 | decoding a type's name gives the type back; only the four names decode to a real type; `isACategoryType` agrees with the decoding |
| Categories.SortingOrderNameRoundTrip | CoinCollection/CoinCategory.swift:59-80 | decoding a sort order's name gives it back; anything but "Ascending" and "Descending" decodes to nothing |
| Categories.NewCategory | CoinCollection/CoinCategory.swift:146-160 | the category keeps the coins and gets the decoded type, or no category for an unknown name |
| Categories.NewCategoryKeepsType | CoinCollection/CoinCategory.swift:146-167 | rebuilding a category from its own type name keeps its type |
| Categories.MatchesIsEquivalence | CoinCollection/CoinCategory.swift:212-228 | for each real grouping type, matching is an equivalence; the country-and-value type is the same-type relation |
| Categories.CoinFitsCategoryCases | CoinCollection/CoinCategory.swift:196-229 | an empty category accepts any coin; a non-empty one without a type accepts none; year and country-and-value categories test the first coin |
| Categories.AddCoin | CoinCollection/CoinCategory.swift:186-194 | a fitting coin is appended; otherwise the category is unchanged |
| Categories.AddCoinKeepsHomogeneous | CoinCollection/CoinCategory.swift:186-229 | adding a coin keeps every member matching the first one |
| Categories.RemoveCoinAt | CoinCollection/CoinCategory.swift:247-254 | the coin at a valid index is removed and the rest keep their order; an invalid index changes nothing |
| Categories.MatchesEuclidean | CoinCollection/CoinCategory.swift:212-228 | two coins that match the same coin match each other |
| Categories.MatchesReflexiveAt | CoinCollection/CoinCategory.swift:212-228 | a coin that matches anything under a type matches itself |
| Categories.RemoveCoinAtKeepsHomogeneous | CoinCollection/CoinCategory.swift:247-254 | removing any coin keeps every member matching the new first one |
| Categories.GetCoin | CoinCollection/CoinCategory.swift:256-267 | a coin is returned exactly for a valid index, and it is the coin at that index |
| Categories.AssignCoin | CoinCollection/CoinCategory.swift:269-275 | at a valid index the stored coin becomes the given one (so also equal to it under the coin equality) and every other coin is unchanged; an invalid index changes nothing |
| Categories.DeleteAllCoins | CoinCollection/CoinCategory.swift:277-281 | the category becomes empty and keeps its type |
| Categories.SwapCoinsInCategory | CoinCollection/CoinCategory.swift:297-304 | two valid positions exchange their coins and the rest stay; the coins are a permutation of the old ones; otherwise nothing changes |
| Categories.SwapKeepsHomogeneous | CoinCollection/CoinCategory.swift:297-304 | reordering keeps every member matching whichever coin ends up first |
| Categories.TotalInstancesAppend | CoinCollection/CoinCategory.swift:103-116 | the total quantity of two lists joined is the sum of their totals |
| Categories.TotalInstancesBoundsEach | CoinCollection/CoinCategory.swift:103-116 | the total quantity is at least the quantity of any one coin |
| Categories.TotalInstancesUpdate | CoinCollection/CoinCategory.swift:103-116 | replacing one coin changes the total by the difference of the two quantities |
| Categories.CountNumberCoinsOverall | CoinCollection/CoinCategory.swift:103-116 | the loop adds up the quantities the getter reports, and the sum is never negative |
| Categories.FirstIndexOf | CoinCollection/CoinCategory.swift:231-245 | the result is -1 or the first position holding an equal coin; no earlier coin is equal |
| Categories.GetIndexOfCoinInCollection | CoinCollection/CoinCategory.swift:231-245 | the scanning loop returns the first position of an equal coin, or -1 |
| Categories.HasCoinIffSomeEqual | CoinCollection/CoinCategory.swift:306-309 | a category has a coin exactly when some member equals it |
| Categories.RemoveCoin | CoinCollection/CoinCategory.swift:283-295 | the loop removes the first member equal to the coin; nothing else changes |
| Categories.RemoveByValueCount | CoinCollection/CoinCategory.swift:283-295 | removing by value takes out exactly one entry when the coin is present, and nothing otherwise |
| CoinTable.Renumbered | CoinCollection/CoinTableViewController.swift:878-900 | the same categories in the same order, each stored position equal to its place in the list |
| CoinTable.FirstFit | CoinCollection/CoinTableViewController.swift:566-588 | -1, or the first category that accepts the coin; no earlier category accepts it |
| CoinTable.FindFirstFit | CoinCollection/CoinTableViewController.swift:566-588 | the scanning loop finds the first accepting category |
| CoinTable.CoinFitsExistingCategory | CoinCollection/CoinTableViewController.swift:804-817 | true exactly when some category accepts the coin |
| CoinTable.FirstIdentical | CoinCollection/CoinTableViewController.swift:572-580 | -1, or the first coin identical to the new one; no earlier coin is identical |
| CoinTable.BumpFirstIdentical | CoinCollection/CoinTableViewController.swift:572-580 | the loop raises the quantity of the first identical coin only |
| CoinTable.FirstPlacedBefore | CoinCollection/CoinTableViewController.swift:611-620 | the first category the new one sorts before, or the list length; no earlier category qualifies |
| CoinTable.ComputeInsertIndex | CoinCollection/CoinTableViewController.swift:602-794 | the search loops compute the insertion index that InsertIndexPlacement characterises |
| CoinTable.AddedTo | CoinCollection/CoinTableViewController.swift:558-802 | filing a coin leaves every category non-empty; AddedToExistingCategory and AddedToNewCategory state where the coin goes |
| CoinTable.ReAddAll | CoinCollection/CoinTableViewController.swift:863-868 | filing a list of coins one by one gives non-empty categories with dense positions |
| CoinTable.DeletedCategory | CoinCollection/CoinTableViewController.swift:497-515 | a valid row removes exactly one category; an invalid row changes nothing |
| CoinTable.CoinTableController.constructor | CoinCollection/CoinTableViewController.swift:47-62 | an empty collection with the given settings |
| CoinTable.CoinTableController.UpdateIndices | CoinCollection/CoinTableViewController.swift:878-900 | the loop sets every stored position to its place in the list |
| CoinTable.CoinTableController.DeleteCoinCategory | CoinCollection/CoinTableViewController.swift:497-515 | the category at a valid row is deleted and the rest renumbered; an invalid row changes nothing |
| CoinTable.CoinTableController.DeleteCoin | CoinCollection/CoinTableViewController.swift:517-556 | for a row other than 0 whose category holds the coin: the category goes when the coin is its only one, otherwise the first equal coin is removed; every other case changes nothing; the result says whether the category went |
| CoinTable.CoinTableController.AddCoin | CoinCollection/CoinTableViewController.swift:558-802 | the collection becomes the coin filed under the current settings, renumbered |
| CoinTable.CoinTableController.ResortCoinsInNewCategories | CoinCollection/CoinTableViewController.swift:819-874 | missing or unchanged settings change nothing; otherwise the settings are stored and the collection becomes all its coins, in list order, filed anew; the number of entries is kept |
| CoinTable.CoinTableController.DeleteAllCategories | CoinCollection/CoinTableViewController.swift:853-860 | deleting the first category as many times as there are categories empties the collection |
| CoinTable.CoinTableController.AddAllCoins | CoinCollection/CoinTableViewController.swift:862-868 | the loop files every coin in turn |
| CoinTable.FlattenCategories | CoinCollection/CoinTableViewController.swift:843-849 | the loop gathers the coins of all categories, category by category |
| CoinTable.FlattenDeletedCategory | CoinCollection/CoinTableViewController.swift:497-515 | deleting a category removes exactly its coins from the collection |
| CoinTable.AddedToContains | CoinCollection/CoinTableViewController.swift:558-802 | the added coin is in the collection afterwards |
| CoinTable.AddedToCount | CoinCollection/CoinTableViewController.swift:558-802 | adding a coin adds exactly one entry |
| CoinTable.ReAddAllCount | CoinCollection/CoinTableViewController.swift:863-868 | regrouping makes exactly one entry per coin |
| CoinTable.AddedToExistingCategory | CoinCollection/CoinTableViewController.swift:566-588 | an accepted coin joins the first accepting category, which grows by one entry ending in the coin; every other category is unchanged |
| CoinTable.AddedToBumpsFirstIdentical | CoinCollection/CoinTableViewController.swift:572-585 | in the accepting category the first identical coin gains one unit and the others are untouched; the category's total grows by the new coin's quantity plus that unit |
| CoinTable.AddedToNewCategory | CoinCollection/CoinTableViewController.swift:590-794 | a coin no category accepts starts a one-coin category of the current type at its insertion position; the other categories keep their order |
| CoinTable.InsertIndexPlacement | CoinCollection/CoinTableViewController.swift:602-794 | the insertion index is 0 without a grouping type, 1 for an empty collection, and otherwise the first category the new one sorts before |
| CoinTable.PlacedBeforeIsStrictOrder | CoinCollection/CoinTableViewController.swift:603-788 | "sorts before" is asymmetric and transitive for every grouping type and order |
| CoinTable.PlacedBeforeIgnoresQuantity | CoinCollection/CoinTableViewController.swift:603-788 | the order looks only at the country and the year, not at quantities |
| CoinTable.RenumberedKeepsSorted | CoinCollection/CoinTableViewController.swift:878-900 | renumbering keeps the categories sorted |
| CoinTable.AddedToExistingKeepsSorted | CoinCollection/CoinTableViewController.swift:566-588 | adding to an existing category keeps the categories sorted |
| CoinTable.InsertPositionFacts | CoinCollection/CoinTableViewController.swift:602-794 | no category before the insertion point sorts after the new one, and the one after it does |
| CoinTable.AddedToNewKeepsSorted | CoinCollection/CoinTableViewController.swift:590-794 | inserting a new category keeps the categories sorted |
| CoinTable.AddedToKeepsSorted | CoinCollection/CoinTableViewController.swift:558-802 | filing a coin keeps the categories sorted for the current type and order, before and after renumbering |
| CoinTable.ReAddAllSorted | CoinCollection/CoinTableViewController.swift:819-874 | regrouping yields categories sorted for the new settings |
| CoinTable.EraWords | CoinCollection/CoinTableViewController.swift:1070-1079 | "CE" for a year after 0, "BCE" for a year before it, nothing for year 0 |
| CoinTable.CategorySearchTexts | CoinCollection/CoinTableViewController.swift:990-1112 | the texts a category is found by end with its total quantity |
| CoinTable.WordFitsCategoryIffInSearchTexts | CoinCollection/CoinTableViewController.swift:990-1112 | a word fits a category exactly when it occurs, ignoring case, in one of the category's search texts |
| CoinTable.CategoryFoundByItsQuantity | CoinCollection/CoinTableViewController.swift:1103-1107 | the quantity shown for a category always finds it |
| CoinTable.FilterCategories | CoinCollection/CoinTableViewController.swift:969-988 | exactly the categories for which some word of the query fits are shown |
| CoinTable.FilterCategoriesAppend | CoinCollection/CoinTableViewController.swift:969-988 | filtering distributes over joining lists, so the results keep list order |
| CategoryDetail.WithCoins | CoinCollection/CoinCollection/CoinCategoryViewController.swift:381-382 | rebuilding a category from its coins and type name replaces only its coins |
| CategoryDetail.CoinDeleted | CoinCollection/CoinCollection/CoinCategoryViewController.swift:684-734 | the intended deletion of a coin keeps every category non-empty and the positions dense |
| CategoryDetail.WithCoinsMultiset | CoinCollection/CoinCollection/CoinCategoryViewController.swift:711-712 | rebuilding one category changes the collected coins by exactly the difference of its coins |
| CategoryDetail.CoinDeletedRemovesOne | CoinCollection/CoinCollection/CoinCategoryViewController.swift:684-734 | the intended deletion of a coin removes exactly that coin from the collection |
| CategoryDetail.CoinDeletedAsWritten | CoinCollection/CoinCollection/CoinCategoryViewController.swift:684-734 | the deletion as written keeps every category non-empty and the positions dense, and is the intended one when the recorded row is the shown category's |
| CategoryDetail.SearchOpenedDeleteRemovesOtherCategory | CoinCollection/CoinCollection/CoinCategoryViewController.swift:684-699 | when the recorded row is another category's, deleting the shown category's last coin removes all coins of that other category, and the coin meant to go stays |
| CategoryDetail.Reordered | CoinCollection/CoinCollection/CoinCategoryViewController.swift:370-390 | a move onto the same row changes nothing |
| CategoryDetail.ReorderedKeepsCoins | CoinCollection/CoinCollection/CoinCategoryViewController.swift:370-390 | reordering keeps every coin of the collection and the dense positions |
| CategoryDetail.WithCoinsSameSize | CoinCollection/CoinCollection/CoinCategoryViewController.swift:807-852 | a category rebuilt from as many coins keeps the number of entries and holds the stored coin |
| CategoryDetail.RefiledKeepsEntries | CoinCollection/CoinCollection/CoinCategoryViewController.swift:853-874 | filing the coin into a collection that lost one entry restores the number of entries and holds the coin |
| CategoryDetail.EditKeepsEntriesAndStoresCoin | CoinCollection/CoinCollection/CoinCategoryViewController.swift:772-876 | when the recorded row is the shown category's, saving an edit keeps the number of entries, in all four cases; without a recorded row a moved coin adds one entry; the edited coin is always in the collection |
| CategoryDetail.SearchOpenedEditRemovesOtherCategory | CoinCollection/CoinCollection/CoinCategoryViewController.swift:853-860 | when the recorded row is another category's, moving the edited last coin of the shown category removes all entries of that other category and adds only the new coin |
| CategoryDetail.ShownRowAfterEditFollowsCategory | CoinCollection/CoinCollection/CoinCategoryViewController.swift:807-874 | while the shown category survives an edit, its new row holds a category of the same type: at the same row after an in-place save, unchanged or without the moved coin after a move, unless the coin was filed back into it |
| CategoryDetail.EditMovesShownPastRecordedRow | CoinCollection/CoinCollection/CoinCategoryViewController.swift:862-874 | without a search, filing the edited coin into a new category placed at or before the shown one moves the shown category one row on, past the recorded row |
| CoinTable.RowAfterAddingFollowsCategory | CoinCollection/CoinTableViewController.swift:558-802 | adding a coin moves a category one row on exactly when a new category is placed at or before it, and changes it only when it accepts the coin, which then ends its coins |
| CategoryDetail.DeletedCategoryCount | CoinCollection/CoinTableViewController.swift:497-515 | deleting a category removes exactly as many entries as it holds |
| CoinTable.RowAfterDeletingFollowsCategory | CoinCollection/CoinTableViewController.swift:497-515 | deleting another category moves a category one row back when the deleted one was before it, and leaves it unchanged |
| CategoryDetail.CoinSearchTexts | CoinCollection/CoinCollection/CoinCategoryViewController.swift:926-1022 | the texts a coin is found by end with its quantity and its country |
| CategoryDetail.WordFitsCoinIffInSearchTexts | CoinCollection/CoinCollection/CoinCategoryViewController.swift:926-1022 | a word fits a coin exactly when it occurs, ignoring case, in one of the coin's search texts |
| CategoryDetail.EraWordsMatchSignedYearsOnly | CoinCollection/CoinCollection/CoinCategoryViewController.swift:957-985 | "BCE" and "CE" find a coin from before year 0, "CE" one after year 0, and year 0 has no era word |
| CategoryDetail.FilterCoins | CoinCollection/CoinCollection/CoinCategoryViewController.swift:910-924 | exactly the coins for which some word of the query fits are shown |
| CategoryDetail.FilterCoinsAppend | CoinCollection/CoinCollection/CoinCategoryViewController.swift:910-924 | filtering distributes over joining lists, so the results keep the category's order |
| CategoryDetail.PositionOf | CoinCollection/CoinTableViewController.swift:467 | the position found holds the record looked for |
| CategoryDetail.CategoryViewController.constructor | CoinCollection/CoinTableViewController.swift:457-472 | the screen shows the category tapped in the list (the search results while searching, otherwise the collection), records the tapped row as the selection, and has no coin pending deletion |
| CategoryDetail.CategoryViewController.SaveCoinToDelete | CoinCollection/CoinCollection/CoinCategoryViewController.swift:658-665 | records the row of the coin to delete |
| CategoryDetail.CategoryViewController.ClearCoinToDelete | CoinCollection/CoinCollection/CoinCategoryViewController.swift:667-671 | clears the pending row |
| CategoryDetail.CategoryViewController.DeleteTheCoin | CoinCollection/CoinCollection/CoinCategoryViewController.swift:673-736 | with a pending coin and a recorded row, the category at the recorded row goes when the shown category has one coin, otherwise the pending coin goes and the pending row is cleared; otherwise nothing changes |
| CategoryDetail.CategoryViewController.MoveRow | CoinCollection/CoinCollection/CoinCategoryViewController.swift:370-390 | moving between two different rows swaps the two coins; a move onto itself changes nothing |
| CategoryDetail.CategoryViewController.UpdateCoinInfo | CoinCollection/CoinCollection/CoinCategoryViewController.swift:772-876 | the collection becomes the one of the four save cases (assigned in place, sole coin replaced, the category at the recorded row deleted and the coin filed, coin deleted and filed); the screen follows the shown category to its new row and stays valid while that category survives; the recorded row is kept; a moved coin clears the pending row when a row is recorded and leaves it at the edited row otherwise |
| CategoryDetail.CategoryViewController.SearchResults | CoinCollection/CoinCollection/CoinCategoryViewController.swift:910-924 | the shown coins are exactly the category's coins matching the query |
| EditCoin.LeadingWhitespace | CoinCollection/EditCoinInformationViewController.swift:986 | the count of whitespace characters at the start; the next character is not whitespace |
| EditCoin.TrailingEnd | CoinCollection/EditCoinInformationViewController.swift:986 | everything after the end is whitespace; the last character kept is not |
| EditCoin.TrimWhitespace | CoinCollection/EditCoinInformationViewController.swift:986 | the text between leading and trailing whitespace; it neither starts nor ends with whitespace |
| EditCoin.TrimWhiteSpaceAndRemoveLastPunctuation | CoinCollection/EditCoinInformationViewController.swift:980-1002 | no text gives none; otherwise the trimmed text, without its last character when that is punctuation |
| EditCoin.TrimmedIsInfix | CoinCollection/EditCoinInformationViewController.swift:980-1002 | the cleaned text is a piece of the typed text starting where its leading whitespace ends |
| EditCoin.TrimmedStartsWithNonWhitespace | CoinCollection/EditCoinInformationViewController.swift:980-1002 | the cleaned text does not start with whitespace |
| EditCoin.TrimIsNotIdempotent | CoinCollection/EditCoinInformationViewController.swift:988-993 | only one punctuation character goes: "a.." cleans to "a.", and that cleans to "a" |
| EditCoin.KeystrokeAcceptance | CoinCollection/EditCoinInformationViewController.swift:390-464 | deletions are accepted; numeric fields accept digit strings except "0" typed into an empty field; other fields accept everything |
| EditCoin.KeystrokeEraChooser | CoinCollection/EditCoinInformationViewController.swift:394-439 | only the year field moves the era chooser: a deletion that leaves it empty disables the chooser, and digits other than a lone "0" typed into the empty field enable it on "CE" |
| EditCoin.AllFieldsEmpty | CoinCollection/EditCoinInformationViewController.swift:727-751 | true exactly when every text field is empty and both boxes show their placeholders |
| EditCoin.ParseInt | CoinCollection/EditCoinInformationViewController.swift:786 | a text converts exactly when it is a non-empty digit string whose value fits the integer type |
| EditCoin.ValidateUserInput | CoinCollection/EditCoinInformationViewController.swift:753-860 | the verdict is true exactly when something was entered, any grade lies in 1..70, and any year is within its era's bound |
| EditCoin.StoreValueCountryDenomination | CoinCollection/EditCoinInformationViewController.swift:883-901 | the value when entered, and the country and denomination cleaned when entered, are stored; nothing else changes |
| EditCoin.StoreMintYearGrade | CoinCollection/EditCoinInformationViewController.swift:903-936 | the mint, the year (negated for "BCE") and the grade are stored, each only when entered; nothing else changes |
| EditCoin.StoreCommentsNumberDescription | CoinCollection/EditCoinInformationViewController.swift:938-957 | the comments when the box holds real text, the quantity when entered, and the description only when the comment box is non-empty; nothing else changes |
| EditCoin.CoinFromForm | CoinCollection/EditCoinInformationViewController.swift:881-968 | every field of the built coin in terms of the form, with value and quantity never negative |
| EditCoin.GetCoinFromInputtedData | CoinCollection/EditCoinInformationViewController.swift:869-978 | no coin exactly when the input is refused; otherwise the coin built from the form |
| EditCoin.AcceptedYearBounds | CoinCollection/EditCoinInformationViewController.swift:795-854 | an accepted "CE" year is stored between 0 and the current year; an accepted "BCE" year is stored between minus (13800000000 minus the current year) and 0 |
| EditCoin.UnselectedEraStoredAsCE | CoinCollection/EditCoinInformationViewController.swift:809-928 | with no era selected, the year is checked against the "BCE" bound but stored as a positive year |
| EditCoin.EmptyFormRefused | CoinCollection/EditCoinInformationViewController.swift:765-771 | a form with nothing entered is refused |
| ExternalSearch.PlusTokensAreSpacesToPluses | CoinCollection/ExternalApplicationIntegration.swift:49-52 | appending each space-separated token with a plus sign is the text with spaces turned into plus signs, plus one more |
| ExternalSearch.AppendTokens | CoinCollection/ExternalApplicationIntegration.swift:49-52 | the loop appends every token followed by a plus sign |
| ExternalSearch.FinishKeywordString | CoinCollection/ExternalApplicationIntegration.swift:99-108 | the method gives the finished query of FinishKeywords, whose meaning FinishKeywordsShape states |
| ExternalSearch.AppendYearKeywords | CoinCollection/ExternalApplicationIntegration.swift:69-83 | appends the year keywords: the digits of the year's magnitude and its era word, which YearKeywordsInjective shows determine the year |
| ExternalSearch.CollectCoinKeywords | CoinCollection/ExternalApplicationIntegration.swift:44-96 | the keywords of a coin in the order country, value, denomination, year, mint, grade |
| ExternalSearch.SafariSearchCoin | CoinCollection/ExternalApplicationIntegration.swift:19-111 | the address the method builds step by step is the coin's search address, whose shape CoinSearchUrlShape states |
| ExternalSearch.SafariSearchCategory | CoinCollection/ExternalApplicationIntegration.swift:143-256 | the address the method builds is the category's search address, whose shape CategorySearchUrlShape states |
| ExternalSearch.FinishKeywordsShape | CoinCollection/ExternalApplicationIntegration.swift:99-108 | no keywords give an empty query; otherwise the keywords followed by "coin"; the query never ends with a plus sign |
| ExternalSearch.PlusTokensNonEmpty | CoinCollection/ExternalApplicationIntegration.swift:49-52 | even empty text contributes a lone plus sign |
| ExternalSearch.CoinKeywordsEmptyIff | CoinCollection/ExternalApplicationIntegration.swift:47-96 | a coin has keywords exactly when its country, denomination, year, mint or grade is known |
| ExternalSearch.CoinSearchUrlShape | CoinCollection/ExternalApplicationIntegration.swift:30-111 | the bare engine address exactly when nothing is known; otherwise the query start followed by the finished keywords, possibly empty |
| ExternalSearch.ValueNeedsDenomination | CoinCollection/ExternalApplicationIntegration.swift:55-58 | without a known denomination, the value does not change the keywords |
| ExternalSearch.DigitsThenPlus | CoinCollection/ExternalApplicationIntegration.swift:71 | digits followed by a plus sign split off in only one way |
| ExternalSearch.YearKeywordsInjective | CoinCollection/ExternalApplicationIntegration.swift:69-83 | different years, or a year and no year, give different year keywords |
| ExternalSearch.CategorySearchUrlShape | CoinCollection/ExternalApplicationIntegration.swift:143-256 | a category's address always carries a query; a category without a type gets an empty one; otherwise the keywords followed by "coin" |
| ExternalSearch.CategoryKeywordsPrefixOfCoinKeywords | CoinCollection/ExternalApplicationIntegration.swift:154-198 | for the country-and-value and country types, the category keywords begin the first coin's own keywords |
| ExternalSearch.YearCategorySearchIndependentOfSample | CoinCollection/ExternalApplicationIntegration.swift:220-236 | in a consistent year category, any coin gives the keywords the first coin gives |
| ExternalSearch.WrapInt32 | CoinCollection/ExternalApplicationIntegration.swift:71 | the 32-bit conversion yields a value in the 32-bit range congruent to the input |
| ExternalSearch.YearKeywordsAsWrittenWithinInt32 | CoinCollection/ExternalApplicationIntegration.swift:69-83 | within the 32-bit range, the code as written gives the intended year keywords |
| ExternalSearch.YearKeywordsAsWrittenCollide | CoinCollection/ExternalApplicationIntegration.swift:71 | a year between -4294967296 and the 32-bit minimum gets, as written, the keywords of another, different year |
| ExternalSearch.FormAcceptsYearBeyondInt32 | CoinCollection/EditCoinInformationViewController.swift:845-920 | the form accepts 3000000000 "BCE" and stores it as -3000000000 |
| ExternalSearch.ItemForActivityType | CoinCollection/ExternalApplicationIntegration.swift:331-398 | the text the method builds is the share text of the activity, whose shape ShareTextStartsWithHeader, ShortValueLineIff and NewCoinShortText state |
| ExternalSearch.ShareTextStartsWithHeader | CoinCollection/ExternalApplicationIntegration.swift:337-354 | every shared text starts with the header; other activities get the header alone; no activity is of both kinds |
| ExternalSearch.ShortValueLineIff | CoinCollection/ExternalApplicationIntegration.swift:362-369 | the value line reads "Value and Denomination N/A." exactly when the value or the denomination is unknown |
| ExternalSearch.NewCoinShortText | CoinCollection/ExternalApplicationIntegration.swift:352-392 | a coin with nothing known is shared in short form as three "N/A" lines |
| ExternalSearch.CompleteSummaryIgnoresDescription | CoinCollection/CoinCollection/Coin.swift:468-495 | the complete summary does not depend on the description or the images |
| Spaceship.RegenerationInterval | SpaceshipGame/SpaceshipGame/GameScene.swift:180-193 | 5, 10 or 15 seconds for easy, medium or hard: five seconds per difficulty step |
| Spaceship.OrderedBodies | SpaceshipGame/SpaceshipGame/GameScene.swift:364-377 | the two bodies with the smaller mask first |
| Spaceship.ClassifyContactSymmetric | SpaceshipGame/SpaceshipGame/GameScene.swift:362-401 | a contact is classified the same whichever body is reported first |
| Spaceship.ContactTable | SpaceshipGame/SpaceshipGame/GameScene.swift:96-98 | torpedo and alien is a hit; alien and spaceship is a crash; every other pair of categories has no effect |
| Spaceship.CategoriesAreSingleBits | SpaceshipGame/SpaceshipGame/GameScene.swift:96-98 | the three category masks are bits 0, 1 and 2 |
| Spaceship.ContactPoints | SpaceshipGame/SpaceshipGame/GameScene.swift:379-389 | a contact scores exactly one point when it is a torpedo hit on an alien between two sprites, otherwise none |
| Spaceship.Step | SpaceshipGame/SpaceshipGame/GameScene.swift:246-359 | one regeneration or tap keeps the stock within 0..maximum and fires at most one torpedo |
| Spaceship.ReplayStaysWithinCapacity | SpaceshipGame/SpaceshipGame/GameScene.swift:246-359 | over any sequence of events the stock stays within 0..maximum, and no more torpedoes are fired than the stock plus the regenerations |
| Spaceship.RegenerationsRefill | SpaceshipGame/SpaceshipGame/GameScene.swift:246-252 | k regenerations raise the stock to the smaller of stock plus k and the maximum, and fire nothing |
| Spaceship.TapsFireWhatIsInStock | SpaceshipGame/SpaceshipGame/GameScene.swift:321-359 | k taps fire the smaller of k and the stock |
| Spaceship.GameScene.constructor | SpaceshipGame/SpaceshipGame/GameScene.swift:62-74 | a new scene is on the easy level with score, shots and stock at 0 and a maximum of 5 |
| Spaceship.GameScene.DidMove | SpaceshipGame/SpaceshipGame/GameScene.swift:105-193 | starting the game records the level, resets the score, fills the stock and yields the level's regeneration interval; the shot count is kept |
| Spaceship.GameScene.AddTorpedo | SpaceshipGame/SpaceshipGame/GameScene.swift:246-252 | one more torpedo unless the stock is full; nothing else changes |
| Spaceship.GameScene.FireTorpedo | SpaceshipGame/SpaceshipGame/GameScene.swift:321-359 | with a torpedo in stock, one fewer in stock and one more shot; with none, nothing changes |
| Spaceship.GameScene.TorpedoDidCollideWithAlien | SpaceshipGame/SpaceshipGame/GameScene.swift:441-461 | exactly one point; the stock and the shot count are unchanged |
| Spaceship.GameScene.DidBegin | SpaceshipGame/SpaceshipGame/GameScene.swift:362-401 | the contact is classified by its ordered bodies and the score grows by the contact's points; the stock is unchanged |

## Left out

- Persistence is not modelled: archiving and unarchiving, the Core Data store and its fetched-results callbacks. The collection is the controller's sequence, held in the order of the stored `index`.
- A category the store orders by `index` is inserted before any existing category with the same index. The store's tie-break is unspecified.
- The two settings kept in the user defaults are fields of the collection screen. The current year is a parameter of the form.
- UIKit is not modelled: views, alerts, segues, table rows and labels, navigation, and rotation.
- Image contents are not modelled: an image is an opaque token, or none for the placeholder picture.
- The locale-aware case-insensitive comparisons are ASCII case folding followed by an ordinal comparison. Case mappings and digits beyond ASCII are not modelled.
- Strings.IsPunctuation covers the punctuation character class only in the Basic Latin, Latin-1 Supplement and General Punctuation blocks. Punctuation of other blocks, such as CJK, Arabic or supplementary punctuation, is kept by the model where the code removes it.
- EditCoin.TrimWhiteSpaceAndRemoveLastPunctuation: text is a sequence of Unicode scalars, not of grapheme clusters. The code converts the last Character to a single UnicodeScalar with a force unwrap (EditCoinInformationViewController.swift:989), which traps when the trimmed text ends in a Character of several scalars, such as a flag or a letter followed by a combining accent. The model tests the last scalar instead and does not capture the trap.
- The form's integer conversions trap when a numeric field holds text that does not convert to an integer. The model takes these as preconditions (`Converts`). The keystroke filter admits only digits, but a digit string too long for the integer type is not modelled.
- Integer overflow of the quantity, the score and the shot count is not modelled: integers are unbounded.
- ExternalSearch.AppendYearKeywords, ExternalSearch.CollectCoinKeywords, ExternalSearch.SafariSearchCoin and ExternalSearch.SafariSearchCategory use the digits of the year's full magnitude, the corrected half of the first "## Findings" row. The code as written converts the year to a 32-bit integer first; ExternalSearch.YearKeywordsAsWritten models that truncation and the trap on the magnitude of the least 32-bit integer.
- CategoryDetail.CategoryViewController.UpdateCoinInfo: when the shown category's only coin is moved and the category deleted through the recorded row is the shown one, the screen goes on showing a category that is no longer in the collection. The model keeps `categoryRow` unchanged; it then designates no record of that category, and `Valid()` is not promised.
- The stored category position is an Int16 in the store. The conversions at CoinCollection/CoinTableViewController.swift:624-787 and 893 trap above 32767 categories; the model's positions are unbounded.
- `textFieldDidEndEditing`, the placeholder handling of the text boxes (`textViewDidBeginEditing`, `textViewDidEndEditing`) and the incomplete summary are not modelled. They only change what the views show.
- The browser view is not modelled. Neither is the fallback to the address "www.google.com" when an address does not parse: the model's addresses are text.
- The list of excluded sharing activities, the subject line and the thumbnails are not modelled.
- The search results are functions of the collection, not fields of the controllers.
- Coins and categories are values. The code shares coin objects between the category screen and the collection, so the in-place changes are modelled as replacing the element: a coin's quantity raised in place, and `assign` into a stored coin.
- `swap` with two equal valid indices is modelled as leaving the category unchanged. The one caller only swaps different rows.
- Spaceship.GameScene: SpriteKit physics, timers, the accelerometer, sounds, alien spawning, the elapsed-time score label, the float state and the game-over screen are not modelled. A crash into the spaceship is reported through the contact kind and ends nothing in the model.
- The Pong game, the note-taking app and every other screen are not modelled.
- ExternalSearch.CompleteSummary prints raw stored fields as the code does. Its exact text is not related to the getters by any lemma beyond CompleteSummaryIgnoresDescription.

## Findings

| source | as written | input that shows it | evidently intended | confidence | as-written member | corrected member |
|---|---|---|---|---|---|---|
| CoinCollection/ExternalApplicationIntegration.swift:71 | the year keyword is `abs(Int32(year))`. The NSNumber conversion keeps only the low 32 bits, but the form accepts "BCE" years back to 13.8 billion (EditCoinInformationViewController.swift:845). The same code is at line 224 for year categories. | the year 3000000000 BCE, stored as -3000000000, is searched as "1294967296+BCE+", which are the keywords of 1294967296 BCE | the digits of the year's own magnitude, so that different years give different keywords | not executed | ExternalSearch.YearKeywordsAsWrittenCollide | ExternalSearch.YearKeywordsInjective |
| CoinCollection/CoinTableViewController.swift:467-470 | the screen records the tapped row once and never updates it. A category opened from the search results records its row in the results; without a search the recorded row goes stale when an edit files a coin into a new category placed before the shown one (CoinCollection/CoinCollection/CoinCategoryViewController.swift:869-873). In both cases the category screen deletes that row of the whole collection when the shown category loses its last coin (CoinCollection/CoinCollection/CoinCategoryViewController.swift:699) or its last coin is edited into another category (CoinCollection/CoinCollection/CoinCategoryViewController.swift:858) | the collection [Austria with 2 coins, Belgium with 1 coin]: searching "Belg" and opening result row 0, then deleting Belgium's coin, deletes Austria and keeps Belgium. Without a search, sorted by country in ascending order: [Austria with 2 coins] opened at row 0; editing one coin's country to Albania gives [Albania, Austria] with row 0 still recorded, and deleting Austria's last coin then deletes Albania | the shown category is the one deleted | not executed | CategoryDetail.SearchOpenedDeleteRemovesOtherCategory, CategoryDetail.EditMovesShownPastRecordedRow | CategoryDetail.CoinDeletedRemovesOne |
