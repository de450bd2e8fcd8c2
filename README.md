# OrderSystemMobile rules, modelled in Dafny

OrderSystemMobile is a SwiftUI point-of-sale app for a small shop. This
project models the rules under its views and verifies them:

- the shopping cart (`CartManager`): adding products, plus and minus on a
  cart line, and the total;
- products (`Product`): the price category derived from the price, and the
  `<` and `==` comparators;
- the menu feed (`NetworkMenuManager`): parsing the menu CSV, sorting the
  products and building the list of price categories without duplicates;
- menu editing (`EditMenuView`): deleting and moving products within a
  category, renumbering every product as `CCCC-PPPP`, and adding a product;
- the order feed (`NetworkOrderManager`): parsing the order CSV, grouping
  its lines by order number, and sorting newest first;
- the statistics of several days (`MultipleDaysStatisticsManager`): kept in
  date order as days arrive and are removed;
- the two input sanitisers, `phoneNumFormatter` and `amountFormatter`;
- the order panel of `OperationListView`: the alert for the submit button,
  `showAlert`, `clearOrderList`, `clearLoginState`, and the rule that enables
  the account login button.

Each Swift file of the core has one module: `CartManagement`, `Products`,
`MenuFeed`, `MenuEditing`, `OrderFeed`, `DailyStatistics`, `PhoneNumbers`,
`Amounts` and `Checkout`. Library behaviour the core relies on has helper
modules:

- `Text`: `components(separatedBy:)`, `split`, digit strings, zero padding
  and string `<`;
- `Numerals`: `Double(s)`, `Int(s)`, and the decimal parse that stands in
  for `NumberFormatter`;
- `Lists`: `firstIndex`, `filter`, and appending only missing elements;
- `Sorting`: `sorted(by:)` as the standard library's insertion sort, which
  it runs on lists of up to 63 elements (fewer than 64). The result is proved to be a permutation
  of the input, and to be sorted when the order is a strict weak order on
  the elements;
- `Wrappers`: `Option`.

Objects whose fields the app updates are classes with `seq` fields:

- `CartManager`
- `NetworkMenuManager`
- the editor state `MenuEditor`
- `NetworkOrderManager`
- `MultipleDaysStatisticsManager`
- the order panel `OrderPanel`

Their methods are proved against specification functions, and the lemmas
about those functions state what the app promises. Products, cart lines,
orders and days are datatypes.

Modelling choices:

- Prices are exact decimals (`real`). `Double(price)` reads an optional
  sign, digits and an optional fraction. An unparsable price counts as 0,
  as the code's `?? 0` does.
- UUIDs are abstract ids (`Uuid(n)`) that the caller supplies.
- Dates are whole numbers.
- Strings are sequences of characters. Swift's `String` `==` and `<`
  compare up to Unicode canonical equivalence; here they compare the
  characters one by one, and normalisation is not modelled.

Three facts about the code are recorded as lemmas:

- `Product.<` is a strict order but not a strict weak order, because
  incomparability is not transitive. Take `a` and `c` priced `"1"` with
  product numbers `"a"` and `"b"`, and `b` priced `"1.0"`. Then `a` and `b`
  are incomparable (different texts, same value), `b` and `c` are
  incomparable, and yet `a < c`. `sorted(by: >)` then leaves `[a, b, c]` as
  it is, which is not sorted by `>`. Without two price texts of one value,
  `>` is a strict weak order on the list and the sort does sort.
- `Product.==` can hold between products that `<` orders.
- `phoneNumFormatter` only ever drops the last character, so one call of
  `phoneNumFormatter` turns `"a1"` into `"a"`.

Three crashes in the code:

- The menu parser reads the fourth field of a line that has exactly three
  fields. This is a precondition.
- The order sort force-unwraps `Int(orderID)`, so with two or more orders
  every order number must parse. This is a precondition.
- `deleteItem` removes the computed positions in ascending order, each from
  the list the previous removal left. Selecting rows 1 and 2 of a category
  that holds the whole list of three products gives positions 1 and 2. After
  the removal at 1 only two products remain, and the removal at 2 is out of
  range (`MenuEditing.DeleteAsWrittenTraps`). `MenuEditing.DeleteAsWritten`
  requires the removals to stay in range (`RemovalsInBounds`).

## Model

| member | source | states |
|---|---|---|
| CartManagement.FindItem | OrderSystemMobile/CartManager.swift:17 | `firstIndex(where: id ==)`: the first line with that id, and `None` exactly when no line has it |
| CartManagement.NewLine | OrderSystemMobile/CartManager.swift:23 | a new cart line carries the product's id, productID, name and price, with quantity 1 |
| CartManagement.Incremented | OrderSystemMobile/CartManager.swift:31-32 | only quantities change, the length stays the same, and an absent id leaves the cart unchanged |
| CartManagement.AddedTo | OrderSystemMobile/CartManager.swift:16-26 | a product not in the cart appends exactly its new line; a product already in the cart bumps that line |
| CartManagement.Decremented | OrderSystemMobile/CartManager.swift:39-43 | an absent id leaves the cart unchanged; otherwise the cart loses at most one line |
| CartManagement.IncrementedEffect | OrderSystemMobile/CartManager.swift:31-32 | with unique ids, exactly the matching line gains one and every other line is untouched |
| CartManagement.AddExistingEffect | OrderSystemMobile/CartManager.swift:17-20 | adding a product in the cart raises only its line's quantity by one and keeps the length |
| CartManagement.DecrementedEffect | OrderSystemMobile/CartManager.swift:39-43 | the matching line loses one, and is removed exactly when its quantity was 1; other lines are untouched |
| CartManagement.AddPreservesValid | OrderSystemMobile/CartManager.swift:16-26 | adding keeps ids unique and every quantity at least 1 |
| CartManagement.IncrementPreservesValid | OrderSystemMobile/CartManager.swift:30-34 | plus keeps ids unique and every quantity at least 1 |
| CartManagement.DecrementPreservesValid | OrderSystemMobile/CartManager.swift:38-45 | minus keeps ids unique and every quantity at least 1 |
| CartManagement.AmountStep | OrderSystemMobile/CartManager.swift:49 | one more of a line adds one price to its amount |
| CartManagement.TotalEmpty | OrderSystemMobile/CartManager.swift:49 | an empty cart totals 0 |
| CartManagement.TotalAfterAdd | OrderSystemMobile/CartManager.swift:16-50 | adding a product raises the total by that product's price, or by the price on its existing line |
| CartManagement.TotalAfterIncrement | OrderSystemMobile/CartManager.swift:30-50 | plus raises the total by the line's price |
| CartManagement.TotalAfterDecrement | OrderSystemMobile/CartManager.swift:38-50 | minus lowers the total by the line's price, whether or not the line is removed |
| CartManagement.SumAppend | OrderSystemMobile/CartManager.swift:49 | the `reduce` over two parts is the sum of the two reductions |
| CartManagement.CartManager.constructor | OrderSystemMobile/CartManager.swift:12 | the cart starts empty and valid |
| CartManagement.CartManager.AddProduct | OrderSystemMobile/CartManager.swift:16-26 | the new items are `AddedTo` the old ones, and validity is kept |
| CartManagement.CartManager.CartListPlusOperation | OrderSystemMobile/CartManager.swift:30-34 | the new items are the old ones `Incremented` at the line's id, and validity is kept |
| CartManagement.CartManager.CartListMinusOperation | OrderSystemMobile/CartManager.swift:38-45 | the new items are the old ones `Decremented` at the line's id, and validity is kept |
| Products.NewProduct | OrderSystemMobile/Product.swift:25-32 | every field is the argument given, the price category is the price followed by 元, and the price reads back from the category |
| Products.SameCategoryIffSamePrice | OrderSystemMobile/Product.swift:30 | two freshly made products share a price category exactly when they share a price |
| Products.LessIrreflexive | OrderSystemMobile/Product.swift:72-77 | no product is less than itself |
| Products.LessTransitive | OrderSystemMobile/Product.swift:72-77 | `<` is transitive, across the price branch and the productID branch |
| Products.LessIsStrictOrder | OrderSystemMobile/Product.swift:72-77 | `<` and the derived `>` are strict partial orders |
| Products.SamePriceOrdered | OrderSystemMobile/Product.swift:76 | with equal price strings, products with different productIDs are ordered one way or the other |
| Products.LessIsNotStrictWeak | OrderSystemMobile/Product.swift:73-76 | prices "1" and "1.0" are mutually unordered, and so are "1.0" and "1", yet `<` orders the two "1" products |
| Products.LessNegativelyTransitive | OrderSystemMobile/Product.swift:72-77 | without two price texts of one value, `a < c` puts every `b` above `a` or below `c` |
| Products.GreaterIsStrictWeakOn | OrderSystemMobile/Product.swift:72-77 | on a list without two price texts of one value, `>` is a strict weak order |
| Products.SortedByGreater | OrderSystemMobile/URLRequest/NetworkMenuManager.swift:79 | `sorted(by: >)` sorts such a list |
| Products.SortLeavesUnsorted | OrderSystemMobile/URLRequest/NetworkMenuManager.swift:79 | with prices "1", "1.0", "1", `sorted(by: >)` returns the list unchanged, and it is not sorted by `>` |
| Products.PriceOne | OrderSystemMobile/Product.swift:74 | `Double("1") ?? 0` is 1 |
| Products.EqualButLess | OrderSystemMobile/Product.swift:72-86 | `==` compares productIDs only, so it holds between products that `<` orders |
| MenuFeed.ParseLine | OrderSystemMobile/URLRequest/NetworkMenuManager.swift:62-69 | a line gives a product exactly when it has at least four fields; that product has those fields, category price+元, and is food exactly when field four contains 食物 |
| MenuFeed.HeaderIgnored | OrderSystemMobile/URLRequest/NetworkMenuManager.swift:57-60 | line 0 does not affect what is parsed |
| MenuFeed.ParsedFromLines | OrderSystemMobile/URLRequest/NetworkMenuManager.swift:56-72 | every parsed product comes from a data line |
| MenuFeed.LinesParsed | OrderSystemMobile/URLRequest/NetworkMenuManager.swift:63-70 | every data line with four or more fields yields its product |
| MenuFeed.ParsedCount | OrderSystemMobile/URLRequest/NetworkMenuManager.swift:63-70 | as many products as data lines with four or more fields |
| MenuFeed.NetworkMenuManager.constructor | OrderSystemMobile/URLRequest/NetworkMenuManager.swift:13-16 | products and categories start empty |
| MenuFeed.NetworkMenuManager.ParseCSV | OrderSystemMobile/URLRequest/NetworkMenuManager.swift:54-73 | the old products are kept, in order, ahead of the new ones; the categories are untouched |
| MenuFeed.NetworkMenuManager.SortProductList | OrderSystemMobile/URLRequest/NetworkMenuManager.swift:78-85 | the products are the old ones passed through `sorted(by: >)`, a permutation of them, and sorted by `>` when no two price texts of one value occur; the categories gain the missing ones |
| MenuFeed.MenuCategories | OrderSystemMobile/URLRequest/NetworkMenuManager.swift:80-84 | no duplicates arise; a category is listed exactly when it was listed before or some product has it; old ones keep their order and new ones follow in order of first appearance |
| MenuEditing.GlobalPositions | OrderSystemMobile/EditMenuView.swift:141-143 | each selected row's position in the whole list holds the product that row shows |
| MenuEditing.DeleteSelectedContents | OrderSystemMobile/EditMenuView.swift:139-146 | the intended deletion removes every selected product and keeps every other one, in order |
| MenuEditing.DeleteOne | OrderSystemMobile/EditMenuView.swift:141-146 | deleting one row removes exactly the product it shows, and the code as written does the same |
| MenuEditing.DeleteAsWrittenShifts | OrderSystemMobile/EditMenuView.swift:141-146 | with rows 0 and 1 of a three-product section selected, the code keeps the second product instead of the third |
| MenuEditing.DeleteAsWrittenTraps | OrderSystemMobile/EditMenuView.swift:141-145 | with rows 1 and 2 of a three-product section selected, the positions are 1 and 2, and the second removal is out of range |
| MenuEditing.CategoriesAfterDeleteContents | OrderSystemMobile/EditMenuView.swift:149-151 | the category stays listed exactly when some product still has it; other categories keep their order |
| MenuEditing.PickPartition | OrderSystemMobile/EditMenuView.swift:173 | three tests that split the positions pick every element exactly once |
| MenuEditing.MovedIsPermutation | OrderSystemMobile/EditMenuView.swift:160-174 | `move(fromOffsets:toOffset:)` keeps the length and the multiset of products |
| MenuEditing.CategoryStart | OrderSystemMobile/EditMenuView.swift:162 | the first product of the category, or 0 when there is none |
| MenuEditing.DescendingIsStrict | OrderSystemMobile/EditMenuView.swift:218-220 | descending by a real key is a strict weak order |
| MenuEditing.SortPriceCategories | OrderSystemMobile/EditMenuView.swift:203-223 | the categories, permuted, in descending key order |
| MenuEditing.CodeValue | OrderSystemMobile/EditMenuView.swift:181-194 | a code has width `max(len(String(count-1)), 4)` and reads back as `count-1-index` |
| MenuEditing.CodeInjective | OrderSystemMobile/EditMenuView.swift:183-185 | different positions get different codes |
| MenuEditing.RankIsSectionRow | OrderSystemMobile/EditMenuView.swift:188-195 | a product's rank is its row in the filtered category list, and the category size is that list's length |
| MenuEditing.RankIncreases | OrderSystemMobile/EditMenuView.swift:195 | products of one category have strictly increasing rows |
| MenuEditing.LastIndexOf | OrderSystemMobile/EditMenuView.swift:187-197 | the last position of an element, which is the category code that survives when a name repeats |
| MenuEditing.RenumberKeepsPrices | OrderSystemMobile/EditMenuView.swift:187-197 | renumbering changes no price, so no two price texts of one value appear that were not there before |
| MenuEditing.RenumberedProduct | OrderSystemMobile/EditMenuView.swift:187-197 | a product whose category is listed gets `AssignedId`, every other product keeps its number, and only the number changes |
| MenuEditing.AssignedIdFormat | OrderSystemMobile/EditMenuView.swift:180-196 | the number is a category code of the category width, a dash, and a product code of the product width, both counted from the end |
| MenuEditing.AssignedIdsDistinct | OrderSystemMobile/EditMenuView.swift:187-197 | no two products with listed categories receive the same number |
| MenuEditing.CollectSelectedIds | OrderSystemMobile/EditMenuView.swift:141-143 | the loop collects exactly the ids of the selected rows |
| MenuEditing.RemoveSelected | OrderSystemMobile/EditMenuView.swift:144-146 | the loop keeps exactly the unselected products, in order |
| MenuEditing.RenumberCategory | OrderSystemMobile/EditMenuView.swift:188-197 | one outer pass: the loop gives each product of the category the category code, a dash and its own code, and leaves every other product as it was |
| MenuEditing.MenuEditor.constructor | OrderSystemMobile/EditMenuView.swift:139 | the editor starts with no products and no categories |
| MenuEditing.MenuEditor.DeleteItem | OrderSystemMobile/EditMenuView.swift:139-152 | the products are `DeleteSelected`, and the category goes exactly when its section is empty |
| MenuEditing.MenuEditor.MoveItem | OrderSystemMobile/EditMenuView.swift:160-174 | the rows, shifted by the category's first position, move before the target; categories are untouched |
| MenuEditing.MenuEditor.GenerateNewID | OrderSystemMobile/EditMenuView.swift:178-200 | the categories are sorted, every product is renumbered, and the products are the renumbered ones passed through `sorted(by: >)`: a permutation of them, sorted by `>` when no two price texts of one value occur |
| MenuEditing.MenuEditor.AddNewProduct | OrderSystemMobile/EditMenuView.swift:295-316 | exactly one product numbered "0000-0000" is appended; its category is added only if absent, so no duplicate arises |
| OrderFeed.OrderLineFields | OrderSystemMobile/URLRequest/NetworkOrderManager.swift:48-63 | a line is rejected exactly when it is blank, has fewer than 8 fields, or has a non-integer quantity; otherwise its fields map to the entry and its one product row |
| OrderFeed.FindOrder | OrderSystemMobile/URLRequest/NetworkOrderManager.swift:65 | `firstIndex(where: orderID ==)`: the first entry with that number, or past the end when none has it |
| OrderFeed.Entries | OrderSystemMobile/URLRequest/NetworkOrderManager.swift:47-63 | one parse result for each line, with the header line (index 0) rejected |
| OrderFeed.AddEntryUnique | OrderSystemMobile/URLRequest/NetworkOrderManager.swift:65-78 | joining or appending one line keeps order numbers distinct |
| OrderFeed.GroupedUnique | OrderSystemMobile/URLRequest/NetworkOrderManager.swift:65-78 | the grouped order numbers are pairwise distinct |
| OrderFeed.NoLineBefore | OrderSystemMobile/URLRequest/NetworkOrderManager.swift:65-77 | when no line among the first `m` has a number, none of them is an entry with it |
| OrderFeed.FirstLine | OrderSystemMobile/URLRequest/NetworkOrderManager.swift:67-77 | an accepted line with the given number, and no earlier line has it |
| OrderFeed.GroupedEntries | OrderSystemMobile/URLRequest/NetworkOrderManager.swift:47-80 | an entry exists exactly for each number that occurs; its fields come from the first such line and its products from all of them, in line order |
| OrderFeed.NoLineNoOrders | OrderSystemMobile/URLRequest/NetworkOrderManager.swift:65-78 | a number with no accepted line has no product rows |
| OrderFeed.AddEntryRows | OrderSystemMobile/URLRequest/NetworkOrderManager.swift:63-77 | one accepted line adds one product row, whether it joins an entry or starts one |
| OrderFeed.ProductRowsCount | OrderSystemMobile/URLRequest/NetworkOrderManager.swift:63-78 | the product rows across all orders equal the number of accepted lines |
| OrderFeed.NewerFirstIsGreater | OrderSystemMobile/URLRequest/NetworkOrderManager.swift:108-114 | when the numbers parse, the sort order is `>` on the integer order number |
| OrderFeed.NewerFirstIsStrict | OrderSystemMobile/URLRequest/NetworkOrderManager.swift:82 | newest-first is a strict weak order |
| OrderFeed.EqualAndOrder | OrderSystemMobile/URLRequest/NetworkOrderManager.swift:108-118 | equal entries are unordered, but "1" and "01" are unordered without being equal |
| OrderFeed.SortedNewestFirst | OrderSystemMobile/URLRequest/NetworkOrderManager.swift:82 | the sorted list is a permutation with non-increasing integer order numbers |
| OrderFeed.UniqueOrdersPermutation | OrderSystemMobile/URLRequest/NetworkOrderManager.swift:82 | rearranging entries with distinct order numbers keeps them distinct |
| OrderFeed.ProductRowsSorted | OrderSystemMobile/URLRequest/NetworkOrderManager.swift:82 | sorting keeps the number of product rows |
| OrderFeed.OrderDetailsFacts | OrderSystemMobile/URLRequest/NetworkOrderManager.swift:43-83 | after grouping and sorting, order numbers are distinct and there is one product row per accepted line |
| OrderFeed.AddOrderLine | OrderSystemMobile/URLRequest/NetworkOrderManager.swift:48-78 | one loop iteration: the line rejected, joined to its order, or appended as a new order |
| OrderFeed.GroupLines | OrderSystemMobile/URLRequest/NetworkOrderManager.swift:44-80 | the loop computes the grouping of every line |
| OrderFeed.NetworkOrderManager.constructor | OrderSystemMobile/URLRequest/NetworkOrderManager.swift:11 | no orders at first |
| OrderFeed.NetworkOrderManager.ParseCSV | OrderSystemMobile/URLRequest/NetworkOrderManager.swift:43-83 | the order list is the grouping sorted newest first, with distinct order numbers and one product row per accepted line |
| DailyStatistics.DateLessIsStrict | OrderSystemMobile/URLRequest/MultipleDaysStatisticsManager.swift:25-27 | `<` by date is a strict weak order |
| DailyStatistics.DateEqualIffUnordered | OrderSystemMobile/URLRequest/MultipleDaysStatisticsManager.swift:25-31 | `==` holds exactly when neither entry is `<` the other |
| DailyStatistics.ParseJSONData | OrderSystemMobile/URLRequest/MultipleDaysStatisticsManager.swift:71-82 | the decoded takings, or zero for both when decoding fails |
| DailyStatistics.WithDayProperties | OrderSystemMobile/URLRequest/MultipleDaysStatisticsManager.swift:63-64 | append then sort: one entry more, the new day present, nothing else gained or lost, and ascending by date |
| DailyStatistics.WithoutDateContents | OrderSystemMobile/URLRequest/MultipleDaysStatisticsManager.swift:84-86 | exactly the entries of other dates remain, in their order |
| DailyStatistics.WithoutAbsentDate | OrderSystemMobile/URLRequest/MultipleDaysStatisticsManager.swift:85 | removing a date not present changes nothing |
| DailyStatistics.WithoutDateAscending | OrderSystemMobile/URLRequest/MultipleDaysStatisticsManager.swift:85 | removal keeps the list in date order |
| DailyStatistics.MultipleDaysStatisticsManager.constructor | OrderSystemMobile/URLRequest/MultipleDaysStatisticsManager.swift:40 | the list starts empty |
| DailyStatistics.MultipleDaysStatisticsManager.ReceiveStatistics | OrderSystemMobile/URLRequest/MultipleDaysStatisticsManager.swift:62-65 | the list is the old one `WithDay` the decoded day |
| DailyStatistics.MultipleDaysStatisticsManager.RemoveCurrencyInfo | OrderSystemMobile/URLRequest/MultipleDaysStatisticsManager.swift:84-86 | the list is the old one `WithoutDate` |
| PhoneNumbers.Truncated | OrderSystemMobile/Formatter/PhoneNumFormatter.swift:17-19 | `prefix(11)`: a prefix of at most 11 characters, the whole input when it is short enough |
| PhoneNumbers.PhoneNumFormatter | OrderSystemMobile/Formatter/PhoneNumFormatter.swift:13-28 | at most 11 characters and a prefix of the input; the truncation is kept exactly when it is all digits, otherwise it loses its last character; empty in gives empty out |
| PhoneNumbers.WellFormedUnchanged | OrderSystemMobile/Formatter/PhoneNumFormatter.swift:17-25 | at most 11 digits come back unchanged |
| PhoneNumbers.Keystroke | OrderSystemMobile/Formatter/PhoneNumFormatter.swift:13-28 | typing after a well-formed number keeps a digit when there is room and otherwise changes nothing; the field stays well formed |
| PhoneNumbers.PasteKeepsNonDigit | OrderSystemMobile/Formatter/PhoneNumFormatter.swift:22-25 | one call drops only the last character, so it turns "a1" into "a" |
| Amounts.AmountFormatter | OrderSystemMobile/Formatter/AmountFormatter.swift:19-43 | the result is newValue, filtered newValue, oldValue or "1000"; empty stays empty; a foreign character gives the filtered text |
| Amounts.FilterChanges | OrderSystemMobile/Formatter/AmountFormatter.swift:23-24 | filtering changes the text exactly when it has a character outside "0123456789." |
| Amounts.Rejections | OrderSystemMobile/Formatter/AmountFormatter.swift:27-41 | more than two parts, a fraction over two digits, or an unparsable text give oldValue; a value above 1000 gives "1000" |
| Amounts.KeptIffWellFormed | OrderSystemMobile/Formatter/AmountFormatter.swift:19-43 | a new text is kept exactly when it is well formed |
| Amounts.CapWellFormed | OrderSystemMobile/Formatter/AmountFormatter.swift:39-41 | the cap "1000" is itself accepted |
| Amounts.FilterInserted | OrderSystemMobile/Formatter/AmountFormatter.swift:23-26 | a foreign character typed into a clean text is filtered away again |
| Amounts.EditKeepsWellFormed | OrderSystemMobile/Formatter/AmountFormatter.swift:19-43 | typing one character into an empty or well-formed amount leaves it empty or well formed |
| Checkout.RawValueInjective | OrderSystemMobile/Enums/PaymentMethod.swift:11-13 | different payment methods have different raw values |
| Checkout.SubmitAlert | OrderSystemMobile/OperationListView.swift:429-440 | the empty-list alert exactly when the cart is empty; otherwise cash and e-money ask to confirm the total, and the card asks for login with empty content |
| Checkout.SubmitAlertStateOnly | OrderSystemMobile/OperationListView.swift:429-440 | which alert appears depends only on cart emptiness and the method |
| Checkout.LoginEnabledAfterFormatting | OrderSystemMobile/OperationListView.swift:155 | after sanitising, login is enabled exactly when the first 11 characters typed are digits |
| Checkout.OrderPanel.constructor | OrderSystemMobile/OperationListView.swift:13-25 | the initial state: no comment, e-money selected, no alert shown, the empty-list alert, no account |
| Checkout.OrderPanel.ShowAlert | OrderSystemMobile/OperationListView.swift:443-448 | title, content and state are the arguments, the alert is shown, and nothing else changes |
| Checkout.OrderPanel.SubmitOrder | OrderSystemMobile/OperationListView.swift:429-440 | shows the alert `SubmitAlert` chooses for the cart, the method and the rendered total |
| Checkout.OrderPanel.ClearOrderList | OrderSystemMobile/OperationListView.swift:278-283 | the cart and the comment are emptied; the rest is untouched |
| Checkout.OrderPanel.ClearLoginState | OrderSystemMobile/OperationListView.swift:286-289 | the account is emptied, which disables login; the comment, the method and the alert are untouched |
| Checkout.OrderPanel.EditAccountID | OrderSystemMobile/OperationListView.swift:102-103 | the account becomes the sanitised new text; the comment, the method and the alert are untouched |
| Text.Split | OrderSystemMobile/URLRequest/NetworkMenuManager.swift:62 | `components(separatedBy:)`: at least one part, none containing the separator |
| Text.SplitJoin | OrderSystemMobile/URLRequest/NetworkOrderManager.swift:52 | joining the parts with the separator gives back the text |
| Numerals.ParseInt64 | OrderSystemMobile/URLRequest/NetworkOrderManager.swift:57 | `Int(s)` succeeds only within the 64-bit range |
| Numerals.Int64RoundTrip | OrderSystemMobile/URLRequest/NetworkOrderManager.swift:57-63 | every 64-bit integer written in decimal reads back as itself |
| Sorting.Sort | OrderSystemMobile/URLRequest/NetworkMenuManager.swift:79 | `sorted(by:)` on up to 63 elements: each element in turn moves left while it must come before its neighbour; the result is a permutation of the input |
| Sorting.InsertLastSorted | OrderSystemMobile/URLRequest/NetworkMenuManager.swift:79 | one insertion keeps a list sorted when the order is strict weak on the elements involved |
| Sorting.SortSorted | OrderSystemMobile/URLRequest/NetworkMenuManager.swift:79 | the result is sorted when the order is strict weak on the input |
| Sorting.SortThreeInOrder | OrderSystemMobile/URLRequest/NetworkMenuManager.swift:79 | three elements none of which must precede its left neighbour stay in place |

## Left out

- Networking, `DispatchQueue` hops and `@Published` notifications are left out. The fetched CSV text or decoded JSON is a parameter, and updates are sequential.
- JSON decoding is left out. Its result is an `Option<CurrencyResponse>` parameter.
- Rendering the `Decimal` total as text is library formatting. `SubmitOrder` takes it as a `render` parameter.
- MenuEditing.MenuEditor.AddNewProduct takes the price as text. The app makes that text from the entered number with `String(describing: Decimal(productPrice))` (EditMenuView.swift:299), a conversion from `Double` through `Decimal`, which is library formatting and is not modelled.
- PhoneNumbers.PhoneNumFormatter is modelled as one call. SwiftUI runs the `onChange(of: accountID)` action again after the action rewrites `accountID` (OperationListView.swift:102-103), and those repeated calls are not modelled. For `"a1"`, a second call would turn `"a"` into `""`.
- UUID generation is left out. Fresh ids are parameters: one per menu line for `ParseCSV`, one for `AddNewProduct` and one for `ReceiveStatistics`.
- Order entries and their product rows carry UUIDs in the app. Nothing in the core reads them, so the order datatypes leave them out.
- Floating point is modelled by exact reals. This covers `Double(price)` (sign, digits, optional fraction; no exponent, infinity or NaN) and the takings.
- `sumCurrency`, `Decimal.round`, `productPriceFormatter` and `calculateNewAmount` are left out as floating-point arithmetic.
- Amounts.AmountFormatter: `NumberFormatter` with the decimal style is locale-dependent library code. It is taken to read exactly the unsigned decimal literals that `Numerals.ParseUnsigned` reads.
- PhoneNumbers.PhoneNumFormatter: `Character.isNumber` is the ASCII digit test here, so other Unicode numerals are not modelled.
- Character counts are element counts of `seq<char>`. Grapheme clusters and UTF-16 lengths are not modelled.
- MenuEditing.SortPriceCategories: the regular expression and `Double` key of `sortPriceCategoriesList` are an abstract `key: string -> real`. Only the descending sort by that key is modelled.
- MenuEditing.MenuEditor.DeleteItem implements the intended deletion (remove the selected products). The code as written is `MenuEditing.DeleteAsWritten`; see Findings.
- MenuFeed.NetworkMenuManager.SortProductList promises sortedness by `>` only when no two price texts of one value (such as "1" and "1.0") occur, because otherwise `sorted(by: >)` need not sort (`Products.SortLeavesUnsorted`).
- MenuEditing.MenuEditor.GenerateNewID promises sortedness by `>` only under the same condition, for the same reason.
- Sorting.Sort models the insertion sort Swift runs on lists of fewer than 64 elements. On 64 or more elements Swift looks for runs and merges them; that phase is not modelled. Under a strict weak order any stable sort gives the same result, but that is not proved here. Under an order that is not strict weak, the result on longer lists may differ from the model.
- Checkout.OrderPanel.ClearLoginState does not model `isEditing = false` (OperationListView.swift:288). That is view state, the editing flag of the comment field.
- `Product`, `CartItem` and `OrderDetailsItem` are Swift classes; here they are values. Reference sharing is not modelled. For example, `EditMenuView` copies the references of `networkMenuManager.products` (EditMenuView.swift:105), so its renumbering (EditMenuView.swift:196) also changes those shared objects.
- MenuFeed.NetworkMenuManager.ParseCSV requires every data line not to have exactly three fields, because the code then reads a fourth field that does not exist.
- OrderFeed.NetworkOrderManager.ParseCSV requires every order number to parse as an `Int` once there are two or more orders, because the comparator force-unwraps `Int(orderID)`.
- OrderFeed.OrderLineFields states the quantity text by its parsed value, `Int(s)` then `"\(quantity)"`. It does not state the text itself.
- The product image upload, the VIP and account views, the statistics views and all SwiftUI layout are left out as presentation or I/O.
- Date formatting (`Date.toString`) is library code. Dates are whole numbers.

## Findings

| source | as written | input that shows it | evidently intended | confidence | as-written member | corrected member |
|---|---|---|---|---|---|---|
| OrderSystemMobile/EditMenuView.swift:141-146 | `deleteItem` computes the positions of all selected rows first, then removes them in ascending order, so each removal shifts the positions after it | three products of one category, rows 0 and 1 selected: positions 0 and 1 are computed, and removing 0 then 1 deletes the first and third products and keeps the second | remove exactly the products of the selected rows | not executed | MenuEditing.DeleteAsWrittenShifts | MenuEditing.DeleteSelectedContents |
| OrderSystemMobile/EditMenuView.swift:144-145 | the ascending removals can also run past the end of the shrinking list | three products of one category, rows 1 and 2 selected: positions 1 and 2 are computed, and after `remove(at: 1)` the call `remove(at: 2)` is out of range and traps | remove exactly the products of the selected rows | not executed | MenuEditing.DeleteAsWrittenTraps | MenuEditing.DeleteSelectedContents |
