# Rewards and invoicing front end: a Dafny model of its client-side logic

The application is a role-based front end (Company, Distributor, Dealer) over a REST
backend for a rewards-and-invoicing platform. This project models the logic the pages run
in the browser:

- the invoice line-item builder (`ProductSelector`): unit-of-measure conversion, reward
  per unit, available units, the allocation stock guard, the line edits (add, update,
  remove, quantity change), the expanded-card set and the selection summary;
- the distributor's allocated-products page: the summary of stock received from head
  office (the one real loop, modelled as a method with loop invariants), the
  available-units card, the received-quantity enrichment, the search and pages of 12;
- the dealer's invoice list: the text and date-range filter, the per-invoice total
  quantity and products summary, and pages of 10;
- the distributor's company catalog: the search combined with the sales-unit filter, the
  reward and carton columns, and pages of 20;
- the dealer's catalog: the search, the visible-products count and pages of 20;
- the dealer's wallet: the credit and debit columns and the product and quantity each
  transaction shows.

Modules:

| file | module | contents |
|---|---|---|
| js.dfy | `Js` | JavaScript values: `Option`, numbers after `Number(...)` (`Num`), truthiness, `||` fallbacks, number printing |
| seqs.dfy | `Seqs` | `filter`, summing `reduce`, `slice` and the page slice, with their lemmas |
| text.dfy | `Text` | `trim`, `toLowerCase`, `includes`, `join`, the normalised search key |
| records.dfy | `Records` | products, allocations, invoices, invoice items, units of measure |
| catalog_search.dfy | `CatalogSearch` | the name / item-number search the catalog pages share |
| product_selector.dfy | `ProductSelector` | the line-item builder, with the class `Selector` for its state |
| distributor_my_products.dfy | `DistributorMyProducts` | allocated products and the incoming-stock summary |
| dealer_invoices.dfy | `DealerInvoices` | the dealer's invoice list |
| distributor_all_products.dfy | `DistributorAllProducts` | the company catalog as the distributor sees it |
| dealer_all_products.dfy | `DealerAllProducts` | the dealer's catalog |
| dealer_wallet.dfy | `DealerWallet` | the wallet columns |

How the model represents the source:

- A numeric field is what `Number(field)` gives: `Finite(n)` for an integer, or
  `NotFinite` for NaN or a missing field. A string field is a `string`, and "" stands for
  a missing one, because both are falsy in the `||` chains the pages use.
- Dates are integer timestamps. `Date.now()` is a parameter `now`.
- `formatNumber` is a parameter of type `Num -> string`.
- The builder's line list belongs to the parent component and changes only through
  `onChange`. `Selector.items` is that list, and `hasOnChange` records whether a callback
  was passed.
- The source defines `calculateAvailableUnits` twice with different defaults. The model
  keeps both (`ProductSelector.AvailableUnits` and `DistributorMyProducts.AvailableUnitsHere`)
  and proves how they differ.

`handleQuantityChange` runs the stock guard for every delta, including a negative one
(src/components/invoice/ProductSelector.jsx:141-151). `ProductSelector.DecrementCanBeRefused`
shows a refused decrement.

## Model

| member | source | states |
|---|---|---|
| Records.ParseUom | src/components/invoice/ProductSelector.jsx:4-9 | a stored unit string maps to one of the four offered units exactly when it spells one of them, and printing the unit gives the string back |
| Records.UomRoundTrip | src/components/invoice/ProductSelector.jsx:4-9 | printing a canonical unit and parsing it again gives the same unit |
| Records.ParseUomInjective | src/components/invoice/ProductSelector.jsx:4-9 | two unit strings give equal units exactly when they are equal, so comparing units is comparing the strings the source compares with `===` |
| ProductSelector.PiecesFromUomLinear | src/components/invoice/ProductSelector.jsx:31-37 | conversion to pieces is linear in the quantity; one unit is 1 piece, 12 for a dozen, the product's own box or carton size (0 when missing), and 1 for an unknown unit |
| ProductSelector.RewardFallsBackToPerPiece | src/components/invoice/ProductSelector.jsx:11-29 | a unit with its own finite rate earns that rate; a unit without one earns the per-piece rate times its size in pieces; a piece without a rate, no product, or an unknown unit earns 0 |
| ProductSelector.AvailableUnits | src/components/invoice/ProductSelector.jsx:39-52 | with no product or no positive balance every count is 0; otherwise each count is the largest number of whole units that fit in the balance (a missing size counts as 1), and a size of 0 or less gives 0 |
| ProductSelector.FloorDivision | src/components/invoice/ProductSelector.jsx:48-50 | `Math.floor(pieces / size)` is the largest n with n * size <= pieces, for a positive size |
| ProductSelector.StockGuardIff | src/components/invoice/ProductSelector.jsx:122-139 | the guard always passes with stock hidden or for the Company role; otherwise it passes exactly when the product's pieces in other units plus the requested pieces fit in the allocated pieces |
| ProductSelector.StockGuardIgnoresOtherProducts | src/components/invoice/ProductSelector.jsx:129-136 | lines of other products, wherever they stand in the list, never change the guard's answer |
| ProductSelector.MissingBoxSizeIsUnguarded | src/components/invoice/ProductSelector.jsx:122-139 | with a non-numeric box size, any number of boxes passes the guard whenever zero boxes pass |
| ProductSelector.MixedUnitsGuardExample | src/components/invoice/ProductSelector.jsx:122-139 | with 100 pieces allocated and 5 boxes of 10 drafted, 6 boxes pass and one extra carton of 60 is refused |
| ProductSelector.FindLine | src/components/invoice/ProductSelector.jsx:93-95 | the search finds nothing exactly when no line has the product and unit; otherwise it returns the first such line |
| ProductSelector.SetQty | src/components/invoice/ProductSelector.jsx:105-111 | the list keeps its length; every matching line gets the new quantity and every other line is unchanged |
| ProductSelector.RemoveUnitExact | src/components/invoice/ProductSelector.jsx:118-120 | removal drops exactly the lines of the product and unit, keeps the others in order, and a second removal changes nothing |
| ProductSelector.RemovedUnitCounts | src/components/invoice/ProductSelector.jsx:118-120 | removal keeps every other line as often as the list holds it, duplicates included, and the kept and dropped lines add up to the whole list |
| ProductSelector.UpdateQuantityKeepsOtherLines | src/components/invoice/ProductSelector.jsx:90-116 | the lines of other product–unit pairs come out of every update unchanged and in their order |
| ProductSelector.UpdateQuantityMatchingLines | src/components/invoice/ProductSelector.jsx:90-116 | afterwards the pair has no lines when the new quantity max(0, current + delta) is 0; otherwise each of its existing lines has the new quantity, or there is exactly one new line |
| ProductSelector.UpdateQuantityKeepsLinesDistinct | src/components/invoice/ProductSelector.jsx:90-116 | an update never creates a second line for a product–unit pair |
| ProductSelector.UpdateKeepsOtherUnitsPieces | src/components/invoice/ProductSelector.jsx:90-116 | an update leaves unchanged the pieces the product has in other units |
| ProductSelector.UpdateSameUnitPieces | src/components/invoice/ProductSelector.jsx:90-116 | without duplicate lines, after an update the pieces in the edited unit are the pieces of the new quantity |
| ProductSelector.GuardedChangeWithinAllocation | src/components/invoice/ProductSelector.jsx:122-154 | when no product–unit pair has two lines, a guarded quantity change keeps that so, and it either leaves the list unchanged or leaves the product's pieces within the allocation |
| ProductSelector.AddUnitSkipsGuardAndDuplicates | src/components/invoice/ProductSelector.jsx:77-88 | adding a unit runs no guard and does not merge lines: adding PIECE twice against one allocated piece gives two equal lines and two pieces |
| ProductSelector.DuplicateLinesEscapeGuard | src/components/invoice/ProductSelector.jsx:122-154 | with two lines for the same product and unit, the guard lets through an increment that leaves more pieces than are allocated |
| ProductSelector.DecrementCanBeRefused | src/components/invoice/ProductSelector.jsx:141-151 | on a draft already over its allocation the guard refuses a decrement too, and the list stays as it was |
| ProductSelector.AvailableBoxesAreGuardLimit | src/components/invoice/ProductSelector.jsx:39-52 | on an empty draft with a positive box size, the box count the card shows is the largest box quantity the guard accepts |
| ProductSelector.FindProduct | src/components/invoice/ProductSelector.jsx:158 | the catalog search finds nothing exactly when no product has the id; otherwise it returns the first product with that id |
| ProductSelector.SummaryOf | src/components/invoice/ProductSelector.jsx:156-166 | the summary counts the lines, sums their raw quantities and sums, over the lines, reward per unit times quantity |
| ProductSelector.SummaryAdds | src/components/invoice/ProductSelector.jsx:156-166 | the summary of two lists joined is the field-wise sum of their summaries |
| ProductSelector.UnknownProductEarnsNothing | src/components/invoice/ProductSelector.jsx:158-162 | a line whose product is not in the catalog adds its quantity but no reward points |
| ProductSelector.Toggled | src/components/invoice/ProductSelector.jsx:67-75 | toggling flips the membership of the id and of nothing else |
| ProductSelector.ToggleTwice | src/components/invoice/ProductSelector.jsx:67-75 | toggling twice restores the set |
| ProductSelector.BoxButtonAlwaysDisabled | src/components/invoice/ProductSelector.jsx:288-290 | as written, the BOX key "boxs" is missing from the available-units record, so the BOX button is disabled whenever stock is shown to a non-Company user |
| ProductSelector.IntendedButtonDisabledIff | src/components/invoice/ProductSelector.jsx:288-290 | with the intended keys, a unit's button is disabled exactly when stock is shown to a non-Company user and none of that unit is available; PIECE, DOZEN and CARTON already behave so as written |
| ProductSelector.Selector.constructor | src/components/invoice/ProductSelector.jsx:54-55 | the builder starts with the parent's lines and no expanded card |
| ProductSelector.Selector.UpdateItems | src/components/invoice/ProductSelector.jsx:61-65 | the new list reaches the parent only when it passed an `onChange` callback |
| ProductSelector.Selector.CurrentSummary | src/components/invoice/ProductSelector.jsx:156-166 | the summary of the current lines counts every line |
| ProductSelector.Selector.ToggleProduct | src/components/invoice/ProductSelector.jsx:67-75 | the expanded set becomes the toggled set; the lines are untouched |
| ProductSelector.Selector.AddUnit | src/components/invoice/ProductSelector.jsx:77-88 | a product with an id gets one more line of quantity 1 at the end, seen only when the parent listens, and its card is expanded; a product without an id changes nothing |
| ProductSelector.Selector.UpdateQuantity | src/components/invoice/ProductSelector.jsx:90-116 | when the parent listens, the lines become the updated list described above; otherwise nothing changes |
| ProductSelector.Selector.RemoveUnit | src/components/invoice/ProductSelector.jsx:118-120 | when the parent listens, the lines of the product and unit are dropped; otherwise nothing changes |
| ProductSelector.Selector.HandleQuantityChange | src/components/invoice/ProductSelector.jsx:141-154 | the stock notification is raised exactly when current + delta is not negative and the guard refuses it, and, when the parent listens, the lines become the guarded quantity change |
| CatalogSearch.SearchFilteredMeaning | src/pages/dealer/DealerAllProducts.jsx:31-39 | a white-space search returns the list itself; otherwise the result keeps, in order, exactly the entries whose lowercased name or item number contains the trimmed, lowercased search |
| CatalogSearch.SearchFilteredCounts | src/pages/dealer/DealerAllProducts.jsx:31-39 | the search keeps each matching entry as often as the list holds it, and no other entry |
| CatalogSearch.SearchIgnoresCase | src/pages/dealer/DealerAllProducts.jsx:32 | a search and its lowercase spelling give the same list |
| Text.TrimStart | src/pages/dealer/DealerAllProducts.jsx:32 | trimming the start drops a white-space prefix and nothing else, and leaves no white space at the start |
| Text.TrimEnd | src/pages/dealer/DealerAllProducts.jsx:32 | trimming the end drops a white-space suffix and nothing else, and leaves no white space at the end |
| Text.TrimKeeps | src/pages/dealer/DealerInvoices.jsx:140 | trimming keeps every character that is not white space |
| Text.ToLowerMeaning | src/pages/dealer/DealerAllProducts.jsx:32 | lowercasing keeps the length, turns each ASCII capital into its small letter and leaves every other character alone, so no capital remains, and doing it twice changes nothing |
| Text.SearchKeyEmptyIff | src/pages/dealer/DealerAllProducts.jsx:32-33 | the search key is empty exactly when the search box holds only white space |
| Text.SearchKeyCaseInsensitive | src/pages/dealer/DealerAllProducts.jsx:32 | lowercasing the search text first does not change its key |
| Text.JoinStartsWithFirst | src/pages/dealer/DealerInvoices.jsx:142 | a joined list begins with its first part |
| Seqs.Filter | src/pages/dealer/DealerWallet.jsx:32 | a filter keeps at most all the elements, and only elements of the list that pass |
| Seqs.FilterMembership | src/pages/dealer/DealerWallet.jsx:32 | an element is kept exactly when it passes the filter |
| Seqs.FilterMultiplicity | src/pages/dealer/DealerWallet.jsx:32 | a filter keeps each passing element as many times as the list holds it, and no other element |
| Seqs.FilterIsSubsequence | src/pages/dealer/DealerWallet.jsx:32 | a filter keeps the order of the elements it keeps |
| Seqs.FilterDisjointCount | src/pages/dealer/DealerWallet.jsx:32-33 | two disjoint filters keep at most the whole list between them, and all of it exactly when every element passes one |
| Seqs.PageContents | src/pages/dealer/DealerInvoices.jsx:52 | a page holds the items from index (page - 1) * size on, at most size of them |
| Seqs.PageLocates | src/pages/dealer/DealerInvoices.jsx:52 | every item is shown on exactly one page, at position index % size of page index / size + 1 |
| DistributorMyProducts.SummarizeIncomingProducts | src/pages/distributor/DistributorMyProducts.jsx:7-31 | the nested loops that update the map in place compute the incoming summary |
| DistributorMyProducts.AddInvoiceItems | src/pages/distributor/DistributorMyProducts.jsx:17-27 | the item loop of one invoice computes that invoice's update of the summary |
| DistributorMyProducts.IncomingSummaryMeaning | src/pages/distributor/DistributorMyProducts.jsx:7-31 | without a receiver the summary is empty; otherwise a product key is present exactly when some item of a head-office invoice to the receiver carries it, its total is the sum of their quantities (a missing one counts as 0), its last date is the latest of their invoice dates, and the empty key is never present |
| DistributorMyProducts.OtherInvoicesIgnored | src/pages/distributor/DistributorMyProducts.jsx:13-15 | an invoice not addressed to the receiver, or not created by head office, changes nothing |
| DistributorMyProducts.AddItemsEntry | src/pages/distributor/DistributorMyProducts.jsx:17-27 | the item loop touches a key exactly when a keyed item carries it, and its record absorbs those items |
| DistributorMyProducts.AddInvoicesEntry | src/pages/distributor/DistributorMyProducts.jsx:12-28 | the invoice loop leaves a key present exactly when it has contributions, and its record has absorbed all of them in order |
| DistributorMyProducts.AbsorbMeaning | src/pages/distributor/DistributorMyProducts.jsx:20-25 | from the empty record, the total is the sum of the quantities and the date is the latest one, present exactly when something was absorbed |
| DistributorMyProducts.AvailableUnitsHere | src/pages/distributor/DistributorMyProducts.jsx:33-46 | this page's available units: all 0 with no product or no positive balance, otherwise the largest whole-unit counts that fit, with a size of 0 or a missing size counting as 1 |
| DistributorMyProducts.AvailableUnitsDefaults | src/pages/distributor/DistributorMyProducts.jsx:33-46 | this page's version agrees with the builder's except for a size of 0: this page then shows every piece as a unit, and the builder shows none |
| DistributorMyProducts.ReceivedQtyMeaning | src/pages/distributor/DistributorMyProducts.jsx:68-80 | a listed product's received quantity is what head office sent under its id, or else under the id it refers to, when that is nonzero, and its allocated quantity otherwise; it has a last receipt exactly when something was sent, and that is the latest invoice date |
| DistributorMyProducts.FilteredMeaning | src/pages/distributor/DistributorMyProducts.jsx:94-102 | a white-space search lists everything; otherwise the page keeps, in order, exactly the products whose name or item number contains the search key, each as often as the list holds it |
| DistributorMyProducts.PagedContents | src/pages/distributor/DistributorMyProducts.jsx:104 | a page holds at most 12 products, from index (page - 1) * 12 on |
| DealerInvoices.TextMatchIff | src/pages/dealer/DealerInvoices.jsx:16-20 | for a nonempty query, dropping the empty texts changes nothing: an invoice matches exactly when the distributor's name or some item name contains the query, ignoring case |
| DealerInvoices.SearchedTextIff | src/pages/dealer/DealerInvoices.jsx:10-20 | the text test passes exactly when the query is white space or the distributor or some product mentions its key |
| DealerInvoices.KeptIff | src/pages/dealer/DealerInvoices.jsx:14-23 | an invoice passes exactly when the text test passes and its date lies within the bounds, both ends included; an empty bound imposes nothing |
| DealerInvoices.ApplyFiltersMeaning | src/pages/dealer/DealerInvoices.jsx:9-25 | the filter keeps, in their order, exactly the invoices that pass that test |
| DealerInvoices.ApplyFiltersCounts | src/pages/dealer/DealerInvoices.jsx:9-25 | each invoice that passes is kept as often as the list holds it, and no other invoice |
| DealerInvoices.KeptByDefault | src/pages/dealer/DealerInvoices.jsx:7-23 | every invoice passes the default filters |
| DealerInvoices.DefaultFiltersKeepAll | src/pages/dealer/DealerInvoices.jsx:7-25 | the default filters return the whole list |
| DealerInvoices.TotalQtyMeaning | src/pages/dealer/DealerInvoices.jsx:134 | the total of no items is 0, and each item adds its quantity, a missing one counting as 0 |
| DealerInvoices.ProductsSummaryMeaning | src/pages/dealer/DealerInvoices.jsx:135-142 | the summary is the dash exactly for an invoice with no items; otherwise it is the item entries, in order, joined by ", " |
| DealerInvoices.SummaryHasBullet | src/pages/dealer/DealerInvoices.jsx:138-142 | the summary of at least one item contains the entry bullet, so it is neither empty nor the dash |
| DealerInvoices.PagedContents | src/pages/dealer/DealerInvoices.jsx:52 | a page holds at most 10 invoices from index (page - 1) * 10 on, and is not empty while invoices remain there |
| DistributorAllProducts.AllUnitsIsSearchOnly | src/pages/distributor/DistributorAllProducts.jsx:32-42 | with the unit filter "ALL" the list is exactly the search the other catalog pages run |
| DistributorAllProducts.KeepIff | src/pages/distributor/DistributorAllProducts.jsx:35-40 | a product passes exactly when the search is white space or matches it, and the unit filter is "ALL" or equals its sales unit |
| DistributorAllProducts.FilteredMeaning | src/pages/distributor/DistributorAllProducts.jsx:32-42 | the list keeps, in order, exactly the products that pass that test; with a specific unit every kept product has that sales unit; each kept product appears as often as in the list |
| DistributorAllProducts.DisplayRewardMeaning | src/pages/distributor/DistributorAllProducts.jsx:126-131 | the reward column shows the first nonzero rate in the order per piece, box, carton, dozen, and 0 exactly when none is set |
| DistributorAllProducts.DisplayRewardAgainstBuilder | src/pages/distributor/DistributorAllProducts.jsx:126-131 | with a per-piece rate the column shows what the invoice builder credits per piece; without one it can show a box rate while the builder credits a piece 0 |
| DistributorAllProducts.CartonDisplayMeaning | src/pages/distributor/DistributorAllProducts.jsx:136 | the carton column shows the pieces per carton the builder converts with, failing that the pieces per box, and a dash exactly when neither size is set |
| DistributorAllProducts.PagedContents | src/pages/distributor/DistributorAllProducts.jsx:44 | a page holds at most 20 products from index (page - 1) * 20 on |
| DealerAllProducts.FilteredMeaning | src/pages/dealer/DealerAllProducts.jsx:31-39 | a white-space search returns the list itself; otherwise a product is kept, in order, exactly when its name or item number contains the search key, as often as the list holds it; the visible count is the kept number, at most all |
| DealerAllProducts.PagedContents | src/pages/dealer/DealerAllProducts.jsx:41 | a page holds at most 20 products from index (page - 1) * 20 on |
| DealerWallet.ColumnOfType | src/pages/dealer/DealerWallet.jsx:32-33 | a column keeps, in order, exactly the transactions of its type |
| DealerWallet.ColumnCounts | src/pages/dealer/DealerWallet.jsx:32-33 | a column holds each transaction of its type as often as the list does, and nothing else |
| DealerWallet.ColumnsMeaning | src/pages/dealer/DealerWallet.jsx:32-33 | credits are exactly the "Credit" transactions and debits exactly the "Debit" ones, in order; none is in both; the columns hold every transaction exactly when there is no other type |
| DealerWallet.ResolveProductNameMeaning | src/pages/dealer/DealerWallet.jsx:145-149 | the name is the dash without allocated products; otherwise only the first allocation counts: its description, else its name, else "SKU"; it is never empty |
| DealerWallet.ResolveQuantityMeaning | src/pages/dealer/DealerWallet.jsx:151-155 | the quantity is the dash exactly without allocated products, whatever the formatter prints; otherwise it is the first allocation's formatted quantity, a space and its unit ("undefined" when missing) |

## Left out

- Fetching, toasts, `console.error`, routing and the JSX rendering are network and UI plumbing.
  So are `useEffect`, `useMemo` and `Promise.all`. The model takes the loaded data as arguments.
- `src/components/Login.jsx` is not part of this model. Its transitions are wired to
  asynchronous authentication calls and to animation.
- `src/pages/dealer/DealerContent.jsx` is not part of this model. It is a layout wrapper.
- `formatNumber`, `Pagination` and `ContentView` are components and utilities whose source
  is not shown. `formatNumber` is a parameter.
- Numbers are integers. Fractions, infinities and the exact `Number()` coercion rules are
  left out, including `Number(null) === 0` and `Number("")`. Non-numeric text and a missing
  field are both `NotFinite`.
- `Number(item.qty || 0)` gives NaN for non-numeric text, and that NaN would poison a running
  sum. `Records.ItemQty` counts such an item as 0, like a missing one.
- Date parsing (`new Date(...)`), time zones and `toLocaleDateString` are left out. Dates are
  integer timestamps, and a date-filter bound is the timestamp its input denotes.
- `Date.now()` is the parameter `now`.
- The products summary prints `item.qty` as it is stored. The model prints the number, and
  "undefined" for a missing one. Text that is not a number is not kept.
- `String(toId) !== target` is modelled as string equality of ids. The case where `toUser`
  is an object without `_id`, and stringifies as "[object Object]", is left out.
- `toLowerCase` is modelled on ASCII letters only. Unicode case mapping is not modelled.
- The "balance readiness" percentage (src/pages/distributor/DistributorMyProducts.jsx:201-216)
  is floating-point display math. So is `toLocaleString`. Both are left out.
- React state batching is left out. `addUnit` and the button handler both derive
  `expandedProducts` from the same render's value (src/components/invoice/ProductSelector.jsx:87, 297-298).
  The model applies each update to the current set.
- `ProductSelector.NormalizeReward`, `ProductSelector.RewardPerUnit` and
  `ProductSelector.PiecesFromUom` have no `ensures` of their own. They are single
  expressions, and their properties are the lemmas `RewardFallsBackToPerPiece` and
  `PiecesFromUomLinear`.
- The page number is an argument. Resetting it to 1 on every filter change is UI state and
  is not modelled.

## Findings

| source | as written | input that shows it | evidently intended | confidence | as-written member | corrected member |
|---|---|---|---|---|---|---|
| src/components/invoice/ProductSelector.jsx:289-290 | the unit key is `option.value.toLowerCase() + "s"`, which gives "boxs" for BOX, a key the available-units record (fields pieces, dozens, boxes, cartons) lacks, so `availableUnits[unitKey] === undefined` holds | `showStock` true, role "Dealer", any available units, e.g. 100 pieces with boxes of 10 (10 boxes): the BOX button is disabled | the BOX button reads `boxes` and is disabled only when no box is available | not executed | ProductSelector.BoxButtonAlwaysDisabled | ProductSelector.IntendedButtonDisabledIff |
