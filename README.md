# ShoppingSolution core, modelled in Dafny

ShoppingSolution is a small grocery shop with four parts. The model covers the
logic at the centre of each:

- **Order back end (Node, Express, Mongoose).** The `Order` document carries:
  - its schema validators and its `orderNumber` and `fullName` virtuals;
  - a pre-save hook that recomputes every line total and both summary totals;
  - `addItem` and `getSummary`.

  The REST routes in `orders.ts` and `orders.js` are modelled too: the Joi
  creation schema, creation, the paginated list, reads by id and by customer
  email, status updates and the soft delete.
- **React checkout (Redux Toolkit).** Three slices:
  - the cart, with find-or-insert, re-pricing and totals rounded to the cent;
  - the order form, with its field validation, its error and touched maps, and
    the submit and fetch request flags;
  - the catalogue, with its category and search filters and its fetch
    reducers.
- **Product catalogue API (.NET).**
  - Product validation: every rule is checked and each failure adds its
    message.
  - Price arithmetic: discount, basket total and VAT.
  - The product and category services: cache-aside reads, and writes that
    evict the cached list. They share one in-memory cache.
- **Angular demo component `signals-basic`.** Its counter, names and todo
  list, with the computed signals derived from them.

Each source file becomes one Dafny module. Code that computes a value
becomes functions and lemmas:

- the Joi schema, the pagination arithmetic, the price service and the
  computed signals;
- the filters and the validators.

Code that changes state in place becomes a class whose methods update its
fields:

- the Mongoose document and its pre-save hook;
- the Redux slices, whose Immer drafts are mutated by the reducers;
- the .NET services over their table and the shared cache;
- the Angular component's signals.

Each such method's `ensures` ties the new state to a pure function of the old
one, for example `State() == Added(old(State()), product, quantity)`. Lemmas
about those functions state what the source promises: invariants the reducers
keep, round trips, and "nothing else changes". Loops in the source stay loops
with invariants:

- the pre-save `forEach`;
- the cart's `calculateTotals` folds;
- the `Object.keys(payload).forEach` of `updateCustomerInfo`;
- the `foreach` of `CalculateTotalPrice`.

Amounts of money are exact rationals (`real`). The modules are:

| file | module |
|---|---|
| `wrappers.dfy` | `Option` and `Result` |
| `text.dfy` | JavaScript `trim`, ASCII case mapping, `includes`, `slice(-n)`, the checkout email pattern, and .NET `IsNullOrWhiteSpace` |
| `money.dfy` | `Math.round(x * 100) / 100` |
| `sequences.dfy` | `Array.prototype.filter` and subsequences |

## Model

| member | source | states |
|---|---|---|
| OrderModel.StatusName | backend-nodejs/src/models/Order.ts:165-169 | every status is stored under one of the six names of the schema's enum |
| OrderModel.ParseStatus | backend-nodejs/src/models/Order.ts:165-169 | a string passes the enum check exactly when it is one of the six names, and then denotes the status with that name |
| OrderModel.StatusNameRoundTrip | backend-nodejs/src/models/Order.ts:165-169 | every status parses back from its own name |
| OrderModel.OrderNumber | backend-nodejs/src/models/Order.ts:188-190 | the order number is "ORD-" followed by the upper-cased last eight characters of the id, or all of a shorter id |
| OrderModel.OrderNumberDependsOnLastEight | backend-nodejs/src/models/Order.ts:188-190 | two ids that agree on their last eight characters get the same order number |
| OrderModel.FullName | backend-nodejs/src/models/Order.ts:193-195 | the virtual full name is the stored first name, one space, and the stored last name, with no trimming; it is never empty |
| OrderModel.GetSummary | backend-nodejs/src/models/Order.ts:234-243 | the summary has the id's order number and the customer's full name, and copies the totals, status and order date unchanged |
| OrderModel.SummaryNameFallbackDead | backend-nodejs/src/models/Order.ts:237 | the full name is never empty, so the `||` fallback is never taken, and either side is "first last" |
| OrderModel.AfterPreSave | backend-nodejs/src/models/Order.ts:203-220 | the hook sets each line's total to price × quantity, stamps `updatedAt`, and keeps the lines' other fields, the customer, the status, the order date and the currency |
| OrderModel.WithLineTotals | backend-nodejs/src/models/Order.ts:210-211 | each line, in place and in order, gets total = price × quantity |
| OrderModel.LineTotalsIgnoreSupplied | backend-nodejs/src/models/Order.ts:210-211 | the recomputed lines depend only on price and quantity, never on the client's line totals |
| OrderModel.PreSaveTotals | backend-nodejs/src/models/Order.ts:203-220 | after the hook, total items is the quantity sum, the total amount is the sum of price × quantity rounded to the cent once, and the currency is kept |
| OrderModel.TotalQuantityOfLineTotals | backend-nodejs/src/models/Order.ts:210-213 | recomputing line totals does not change the quantity sum |
| OrderModel.TotalQuantityAtLeastLines | backend-nodejs/src/models/Order.ts:92-97 | with the line schema's quantity ≥ 1, the order has at least as many items as lines |
| OrderModel.SumOfLineTotalsNonNegative | backend-nodejs/src/models/Order.ts:59-98 | with non-negative prices and positive quantities, the unrounded sum of line totals is non-negative |
| OrderModel.PreSaveTotalsBounds | backend-nodejs/src/models/Order.ts:203-220 | for an order that meets the schema, the hook's amount is ≥ 0 and its item count is at least the number of lines |
| OrderModel.RoundingOnceDiffersFromPerLine | backend-nodejs/src/models/Order.ts:216 | two half-cent lines total 0.01 when rounded once, as the hook does, but 0.02 when each line is rounded |
| OrderModel.EmptyOrderRejected | backend-nodejs/src/models/Order.ts:135-144 | an order without lines never passes validation |
| OrderModel.PreSaveKeepsSchema | backend-nodejs/src/models/Order.ts:147-162 | a valid order is still valid after the hook: the recomputed totals meet the summary bounds |
| OrderModel.TrimmedItem | backend-nodejs/src/models/Order.ts:59-98 | the setters leave the line's three strings without outer whitespace and keep its ids and numbers |
| OrderModel.TrimmedItemSchema | backend-nodejs/src/models/Order.ts:59-98 | a line passes the item validators after its setters exactly when both names hold more than whitespace, price ≥ 0, quantity ≥ 1 and total ≥ 0 |
| OrderModel.TrimmedItems | backend-nodejs/src/models/Order.ts:59-98 | the `trim` setters act on every line, in order, and the number of lines is unchanged |
| OrderModel.OrderDocument.constructor | backend-nodejs/src/models/Order.ts:101-185 | `new Order(value)` applies the `trim` and `lowercase` setters, status pending, and dates now |
| OrderModel.OrderDocument.PreSave | backend-nodejs/src/models/Order.ts:203-220 | the `forEach` loop leaves the document equal to the hook's function of the old document, so PreSaveTotals describes it |
| OrderModel.OrderDocument.Save | backend-nodejs/src/models/Order.ts:101-220 | validation runs first, on the values as supplied; an invalid document is left unchanged with a validation error, a valid one goes through the hook and returns its summary |
| OrderModel.OrderDocument.AddItem | backend-nodejs/src/models/Order.ts:228-231 | the line, with its `trim` setters applied, is appended and the document saved: a valid document becomes the hook's result and the summary of the saved document is returned; an invalid one gives a validation error with the line still appended |
| OrderModel.AddItemTotals | backend-nodejs/src/models/Order.ts:228-231 | after `addItem` the totals grow by the new line's quantity and by its price × quantity before rounding, and the new last line carries its recomputed total |
| OrderRoutes.TextRuleError | backend-nodejs/src/routes/orders.ts:49-69 | Joi `string().min().max().required()` passes exactly on a non-empty string within the bounds, and reports "string.empty" exactly for "" |
| OrderRoutes.CustomerViolation | backend-nodejs/src/routes/orders.ts:49-69 | there is no customer error exactly when every customer rule holds |
| OrderRoutes.ItemViolation | backend-nodejs/src/routes/orders.ts:71-84 | there is no line error exactly when every line rule holds; an error points at that line |
| OrderRoutes.FirstItemViolation | backend-nodejs/src/routes/orders.ts:71-84 | the reported line error is that of the earliest bad line, and none is reported exactly when all lines pass |
| OrderRoutes.SummaryViolation | backend-nodejs/src/routes/orders.ts:86-90 | there is no summary error exactly when the summary rules hold |
| OrderRoutes.WithDefaults | backend-nodejs/src/routes/orders.ts:71-90 | the validated value keeps every line, filling in the defaults for an absent unit and currency |
| OrderRoutes.ValidateCreate | backend-nodejs/src/routes/orders.ts:99-108 | validation succeeds exactly when every rule holds, returns the request with the defaults filled in, and otherwise reports the first violation in key order |
| OrderRoutes.EmptyItemsRefused | backend-nodejs/src/routes/orders.ts:71-84 | with a valid customer, a request without lines is refused with "array.min" on `items` |
| OrderRoutes.CreateOrder | backend-nodejs/src/routes/orders.ts:94-145 | a request failing Joi gives 400 and stores nothing; one failing the schema is refused and stores nothing; otherwise the saved order is stored under the new id and its order number and summary are returned |
| OrderRoutes.CreatedOrderTotals | backend-nodejs/src/routes/orders.ts:111-124 | a created order stores the recomputed totals of its lines, not the client's, and status pending |
| OrderRoutes.TrimmingKeepsTotals | backend-nodejs/src/routes/orders.ts:111-112 | the string setters never change the quantity sum or the amount sum |
| OrderRoutes.SameAmountsSameTotals | backend-nodejs/src/models/Order.ts:210-214 | lines with equal prices and quantities give equal totals whatever their other fields |
| OrderRoutes.TsPageParam | backend-nodejs/src/routes/orders.ts:150-151 | `parseInt(q \|\| d)`: an absent value gives the default, and only unparsable text gives NaN |
| OrderRoutes.JsPageParam | backend-nodejs/src/routes/orders.js:108-109 | `parseInt(q) \|\| d`: a parsed non-zero value is kept; absent, zero or NaN give the default |
| OrderRoutes.PageFallbacksAgree | backend-nodejs/src/routes/orders.js:108-109 | the two routes read a page value alike exactly when it is neither "0" nor unparsable |
| OrderRoutes.JsPageParamNonZero | backend-nodejs/src/routes/orders.js:108-109 | with a non-zero default, orders.js never divides by a zero limit |
| OrderRoutes.Skip | backend-nodejs/src/routes/orders.ts:152 | the first page skips nothing, and no page from the first on skips a negative number |
| OrderRoutes.PagesAdjacent | backend-nodejs/src/routes/orders.ts:152 | each page starts exactly `limit` orders after the one before |
| OrderRoutes.Paginate | backend-nodejs/src/routes/orders.ts:161-177 | the pagination echoes the page and the total; its page count is the fewest pages of `limit` holding every order, zero exactly when there are none; `hasNextPage` and `hasPrevPage` compare the page with that count and with 1 |
| OrderRoutes.CeilDiv | backend-nodejs/src/routes/orders.ts:162 | `Math.ceil(total / limit)` is the fewest pages of `limit` that hold `total` |
| OrderRoutes.HasNextPageIffMoreOrders | backend-nodejs/src/routes/orders.ts:171-177 | `hasNextPage` holds exactly when some order lies beyond the current page |
| OrderRoutes.HasPrevPageIffSkipped | backend-nodejs/src/routes/orders.ts:171-177 | `hasPrevPage` holds exactly when the current page skips some orders |
| OrderRoutes.Listed | backend-nodejs/src/routes/orders.ts:158-168 | a listed order keeps only `_id`, the customer's names and email, the summary, the status and the order date, plus its order number |
| OrderRoutes.ListPage | backend-nodejs/src/routes/orders.ts:154-169 | the page is empty once the skip passes the end, and otherwise holds `limit` orders or the rest of the list, whichever is fewer: those at positions skip, skip+1, … of the sorted list, each with the selected fields and its order number |
| OrderRoutes.NextPageNonEmptyIffHasNext | backend-nodejs/src/routes/orders.ts:154-177 | the next page holds an order exactly when the pagination says there is a next page |
| OrderRoutes.GetOrder | backend-nodejs/src/routes/orders.ts:192-226 | a stored id gives that order; any other id gives not found |
| OrderRoutes.UpdateStatus | backend-nodejs/src/routes/orders.ts:254-296 | a name outside the six gives 400 whatever the id; a valid name with an unknown id gives 404; otherwise only that order changes, to the new status stamped now |
| OrderRoutes.UpdateStatusThenGet | backend-nodejs/src/routes/orders.ts:254-296 | after a status update the next read of that order sees the new status and time, and every other order reads as before |
| OrderRoutes.AnyStatusFromAnyStatus | backend-nodejs/src/routes/orders.ts:257-266 | there is no transition table: any listed status can be set from any status |
| OrderRoutes.CancelOrder | backend-nodejs/src/routes/orders.ts:299-329 | deleting a stored order keeps it, cancelled, and touches no other order; an unknown id gives not found |
| OrderRoutes.CancelIsStatusUpdate | backend-nodejs/src/routes/orders.ts:299-329 | the soft delete is exactly the status update to "cancelled" |
| OrderRoutes.CustomerLookupKey | backend-nodejs/src/routes/orders.ts:231 | the lookup key has the email's length and no upper-case ASCII letter |
| OrderRoutes.LookupKeyIgnoresCase | backend-nodejs/src/routes/orders.ts:231 | emails differing only in letter case have one lookup key, and lower-casing it again changes nothing |
| OrderRoutes.CustomerOrders | backend-nodejs/src/routes/orders.ts:229-251 | the result is the summary of exactly the stored orders whose email equals the lower-cased key |
| OrderRoutes.SavedOrderFoundByAnyCase | backend-nodejs/src/routes/orders.ts:229-251 | an order saved with an email that has no outer spaces is found by a lookup with that email in any letter case |
| CartSlice.IndexOfIdFrom | frontend/src/store/slices/cartSlice.ts:57-58 | the scan returns the first position at or after `from` holding the id, or none when no such position exists |
| CartSlice.IndexOfId | frontend/src/store/slices/cartSlice.ts:57-58 | `find` finds a line with that id exactly when the cart has one |
| CartSlice.WithTotals | frontend/src/store/slices/cartSlice.ts:115-119 | `calculateTotals` makes the totals agree with the lines and changes neither the lines nor the open flag |
| CartSlice.WithQuantity | frontend/src/store/slices/cartSlice.ts:86-95 | a re-priced line gets the new quantity and total = its own price × quantity, and every other field is kept |
| CartSlice.NewCartItem | frontend/src/store/slices/cartSlice.ts:63-75 | a new line has the product's id and price, the given quantity, total = price × quantity, and the unit falls back to the default when absent or empty |
| CartSlice.InitialCartValid | frontend/src/store/slices/cartSlice.ts:44-49 | the empty cart meets the invariant: ids unique, every line priced, totals agree |
| CartSlice.AddToExistingLine | frontend/src/store/slices/cartSlice.ts:55-62 | adding a product already in the cart changes only its line's quantity and total, and the number of lines stays the same |
| CartSlice.AddNewLine | frontend/src/store/slices/cartSlice.ts:63-76 | adding a new product appends exactly one line for it, quantity defaulting to 1 |
| CartSlice.AddKeepsValid | frontend/src/store/slices/cartSlice.ts:55-78 | `addToCart` keeps the cart invariant; in particular no id appears twice |
| CartSlice.RemoveDropsExactlyThatId | frontend/src/store/slices/cartSlice.ts:80-84 | a line is kept exactly when its id differs, and the kept lines stay in order |
| CartSlice.RemoveKeepsValid | frontend/src/store/slices/cartSlice.ts:80-84 | `removeFromCart` keeps the cart invariant |
| CartSlice.FilterKeepsUniqueIds | frontend/src/store/slices/cartSlice.ts:82 | filtering lines with unique ids leaves unique ids |
| CartSlice.UpdateIgnored | frontend/src/store/slices/cartSlice.ts:86-95 | an update with an unknown id or a quantity ≤ 0 leaves the cart unchanged, totals included |
| CartSlice.UpdateSetsLine | frontend/src/store/slices/cartSlice.ts:86-95 | a valid update sets that line's quantity and total and leaves every other line alone |
| CartSlice.UpdateKeepsValid | frontend/src/store/slices/cartSlice.ts:86-95 | `updateQuantity` keeps the cart invariant |
| CartSlice.ClearKeepsValid | frontend/src/store/slices/cartSlice.ts:97-101 | clearing empties the lines, zeroes both totals, keeps the open flag, and meets the invariant |
| CartSlice.DisplayFlagOperations | frontend/src/store/slices/cartSlice.ts:103-113 | toggling twice restores the cart; opening and closing are idempotent; none of the three touches lines or totals |
| CartSlice.CartItemById | frontend/src/store/slices/cartSlice.ts:139-140 | the selector finds a line exactly when one with that id exists, and what it finds is a line of the cart with that id |
| CartSlice.AddedProductSelectable | frontend/src/store/slices/cartSlice.ts:55-78 | after `addToCart` the selector finds the product's line |
| CartSlice.RemovedProductNotSelectable | frontend/src/store/slices/cartSlice.ts:80-84 | after `removeFromCart` the selector finds nothing for that id |
| CartSlice.CartState.constructor | frontend/src/store/slices/cartSlice.ts:44-49 | the slice starts empty, closed and with zero totals |
| CartSlice.CartState.CalculateTotals | frontend/src/store/slices/cartSlice.ts:115-119 | the two left folds, over the draft's lines, leave the state that WithTotals describes |
| CartSlice.CartState.AddToCart | frontend/src/store/slices/cartSlice.ts:55-78 | the draft ends as the find-or-insert of the product followed by the totals, so AddKeepsValid applies |
| CartSlice.CartState.RemoveFromCart | frontend/src/store/slices/cartSlice.ts:80-84 | the draft ends with the lines of other ids, then re-derives the totals |
| CartSlice.CartState.UpdateQuantity | frontend/src/store/slices/cartSlice.ts:86-95 | the draft line is re-priced only for a known id and a positive quantity; otherwise nothing changes |
| CartSlice.CartState.ClearCart | frontend/src/store/slices/cartSlice.ts:97-101 | the draft ends with no lines and zero totals |
| CartSlice.CartState.ToggleCart | frontend/src/store/slices/cartSlice.ts:103-105 | only the open flag flips |
| CartSlice.CartState.OpenCart | frontend/src/store/slices/cartSlice.ts:107-109 | only the open flag is set |
| CartSlice.CartState.CloseCart | frontend/src/store/slices/cartSlice.ts:111-113 | only the open flag is cleared |
| OrderSlice.FieldKey | frontend/src/store/slices/orderSlice.ts:97-126 | each form field is reported under one of the four keys |
| OrderSlice.FieldKeysDistinct | frontend/src/store/slices/orderSlice.ts:97-126 | distinct fields have distinct keys |
| OrderSlice.TextFaultMeaning | frontend/src/store/slices/orderSlice.ts:101-111 | a name or address field is missing exactly when blank, too short exactly when its trimmed text is, and passes otherwise |
| OrderSlice.EmailFaultMeaning | frontend/src/store/slices/orderSlice.ts:113-118 | the email is missing exactly when blank, malformed exactly when not blank and not of the form atom@atom.atom, and passes exactly when it has that form |
| OrderSlice.WithErrorEntries | frontend/src/store/slices/orderSlice.ts:97-126 | recording one field's verdict adds or overwrites only that field's key, with its message |
| OrderSlice.FormErrorsAt | frontend/src/store/slices/orderSlice.ts:97-126 | a field has an entry exactly when it fails, and the entry is the message of its first failing check |
| OrderSlice.FormErrorsOnlyFieldKeys | frontend/src/store/slices/orderSlice.ts:97-126 | the error object has no key besides the four fields' |
| OrderSlice.FormErrorsEmptyIffNoFault | frontend/src/store/slices/orderSlice.ts:97-126 | the error object is empty exactly when no field fails |
| OrderSlice.FormErrorsEmptyIffAcceptable | frontend/src/store/slices/orderSlice.ts:97-126 | the error object is empty exactly when both names have at least 2, and the address at least 10, trimmed characters and the email has its form |
| OrderSlice.MessagesNonEmpty | frontend/src/store/slices/orderSlice.ts:101-124 | every message is non-empty, so the truthiness test of `updateCustomerInfo` sees every error |
| OrderSlice.PatchKeysListsPresentFields | frontend/src/store/slices/orderSlice.ts:85 | `Object.keys(payload)` lists exactly the fields the payload carries |
| OrderSlice.ErrorsWithoutStep | frontend/src/store/slices/orderSlice.ts:85-89 | one iteration deletes that key's truthy error and nothing else |
| OrderSlice.PatchClearsExactlyItsFields | frontend/src/store/slices/orderSlice.ts:83-90 | after `updateCustomerInfo`, the patched fields have no error and every other error is kept |
| OrderSlice.ValidateFormReplacesErrors | frontend/src/store/slices/orderSlice.ts:97-128 | `validateForm` replaces the whole error map with the validator's verdict and leaves the fields alone |
| OrderSlice.SetFieldTouchedOnlyThatField | frontend/src/store/slices/orderSlice.ts:92-95 | the field's touched flag is set, true by default, and no other changes |
| OrderSlice.ClearFormResets | frontend/src/store/slices/orderSlice.ts:130-141 | `clearForm` resets the fields, errors, touched flags and submit outcome, and keeps the last order |
| OrderSlice.SubmitStateMachine | frontend/src/store/slices/orderSlice.ts:154-176 | pending sets submitting and clears the outcome; fulfilled records success and the order; rejected records the error; pending then fulfilled ends in success with no error |
| OrderSlice.FormReducersKeepSubmitFlags | frontend/src/store/slices/orderSlice.ts:83-150 | the form reducers keep a submission in flight free of a recorded outcome |
| OrderSlice.RequestReducersKeepSubmitFlags | frontend/src/store/slices/orderSlice.ts:154-188 | the submit and fetch reducers keep a submission in flight free of a recorded outcome |
| OrderSlice.FetchReducersStayApart | frontend/src/store/slices/orderSlice.ts:177-188 | the fetch reducers touch only the loading flag, the error and the selected order |
| OrderSlice.OrderState.constructor | frontend/src/store/slices/orderSlice.ts:60-77 | the slice starts with the empty form and no request state |
| OrderSlice.OrderState.UpdateCustomerInfo | frontend/src/store/slices/orderSlice.ts:83-90 | the payload is merged, and the `forEach` over its keys leaves the error map that PatchClearsExactlyItsFields describes |
| OrderSlice.OrderState.SetFieldTouched | frontend/src/store/slices/orderSlice.ts:92-95 | the draft ends as SetFieldTouchedOnlyThatField describes |
| OrderSlice.OrderState.ValidateForm | frontend/src/store/slices/orderSlice.ts:97-128 | the draft's error map becomes the validator's verdict |
| OrderSlice.OrderState.ClearForm | frontend/src/store/slices/orderSlice.ts:130-141 | the draft ends as ClearFormResets describes |
| OrderSlice.OrderState.ClearError | frontend/src/store/slices/orderSlice.ts:143-146 | both errors are cleared and nothing else |
| OrderSlice.OrderState.SetSelectedOrder | frontend/src/store/slices/orderSlice.ts:148-150 | only the selected order changes |
| OrderSlice.OrderState.SubmitPending | frontend/src/store/slices/orderSlice.ts:154-158 | the submit flags move as SubmitStateMachine describes |
| OrderSlice.OrderState.SubmitFulfilled | frontend/src/store/slices/orderSlice.ts:159-171 | success and the last order are recorded, and the form is emptied |
| OrderSlice.OrderState.SubmitRejected | frontend/src/store/slices/orderSlice.ts:172-176 | the error is recorded and submitting ends |
| OrderSlice.OrderState.FetchPending | frontend/src/store/slices/orderSlice.ts:177-180 | loading starts and the error clears |
| OrderSlice.OrderState.FetchFulfilled | frontend/src/store/slices/orderSlice.ts:181-184 | loading ends and the order is selected |
| OrderSlice.OrderState.FetchRejected | frontend/src/store/slices/orderSlice.ts:185-188 | loading ends and the error is recorded |
| CatalogSlice.CategoryRestricted | frontend/src/store/slices/catalogSlice.ts:72-81 | keeps exactly the products of the selected category, or all of them with none selected, in their order |
| CatalogSlice.SearchIsOneFilter | frontend/src/store/slices/catalogSlice.ts:83-99 | the two-step search equals a single filter by both tests, so it keeps the products' order |
| CatalogSlice.SearchMembership | frontend/src/store/slices/catalogSlice.ts:83-99 | a product is shown exactly when it is listed, in the selected category, and its lower-cased name or category name includes the lower-cased term |
| CatalogSlice.EmptyTermIsCategoryRestriction | frontend/src/store/slices/catalogSlice.ts:96-97 | with an empty term the search is the category restriction alone |
| CatalogSlice.SelectCategoryShowsItsProducts | frontend/src/store/slices/catalogSlice.ts:72-81 | selecting a category shows exactly its products, in order, and ignores the search term |
| CatalogSlice.SearchShowsMatches | frontend/src/store/slices/catalogSlice.ts:83-99 | searching shows exactly the matches within the selected category, in order |
| CatalogSlice.ClearFiltersShowsAll | frontend/src/store/slices/catalogSlice.ts:101-105 | clearing shows every product, and clearing twice is clearing once |
| CatalogSlice.ClearedSearchIsIdentity | frontend/src/store/slices/catalogSlice.ts:83-105 | after clearing, searching for "" changes nothing |
| CatalogSlice.RequestFlags | frontend/src/store/slices/catalogSlice.ts:114-156 | pending sets loading and clears the error, rejected records it, and neither touches anything else |
| CatalogSlice.ReducersKeepFilteredFromProducts | frontend/src/store/slices/catalogSlice.ts:72-125 | every reducer except the two product fetches keeps the shown list an order-preserving subsequence of the products |
| CatalogSlice.AllProductsShownWithoutCategory | frontend/src/store/slices/catalogSlice.ts:146-152 | with no category selected, loading all products shows them all |
| CatalogSlice.AllProductsKeepStaleListWithCategory | frontend/src/store/slices/catalogSlice.ts:146-152 | with a category selected, loading all products can leave a shown product that is no longer in the list |
| CatalogSlice.CategoryProductsShowPayload | frontend/src/store/slices/catalogSlice.ts:132-135 | a category's fetched products are shown as they came, and the full list is kept |
| CatalogSlice.CatalogState.constructor | frontend/src/store/slices/catalogSlice.ts:58-66 | the slice starts empty, with no selection and no term |
| CatalogSlice.CatalogState.SetSelectedCategory | frontend/src/store/slices/catalogSlice.ts:72-81 | the draft ends as SelectCategoryShowsItsProducts describes |
| CatalogSlice.CatalogState.SetSearchTerm | frontend/src/store/slices/catalogSlice.ts:83-99 | the draft ends as SearchShowsMatches describes |
| CatalogSlice.CatalogState.ClearFilters | frontend/src/store/slices/catalogSlice.ts:101-105 | the draft ends as ClearFiltersShowsAll describes |
| CatalogSlice.CatalogState.ClearError | frontend/src/store/slices/catalogSlice.ts:107-109 | only the error clears |
| CatalogSlice.CatalogState.FetchPending | frontend/src/store/slices/catalogSlice.ts:114-117 | the pending case of each thunk, as RequestFlags describes |
| CatalogSlice.CatalogState.FetchRejected | frontend/src/store/slices/catalogSlice.ts:122-125 | the rejected case of each thunk, as RequestFlags describes |
| CatalogSlice.CatalogState.CategoriesFetched | frontend/src/store/slices/catalogSlice.ts:118-121 | the categories become the payload and loading ends |
| CatalogSlice.CatalogState.CategoryProductsFetched | frontend/src/store/slices/catalogSlice.ts:132-135 | the draft ends as CategoryProductsShowPayload describes |
| CatalogSlice.CatalogState.AllProductsFetched | frontend/src/store/slices/catalogSlice.ts:146-152 | the products become the payload, and the shown list does too only without a selected category |
| CatalogModels.CacheKeysDistinct | ProductCatalogApi/Services/ProductService.cs:27 | the product and category services cache under different keys |
| CatalogModels.ProductsIn | ProductCatalogApi/Services/CacheService.cs:18-36 | a read hits exactly when the entry exists and is a product list, since a failed cast is caught as a miss, and returns that list |
| CatalogModels.CategoriesIn | ProductCatalogApi/Services/CacheService.cs:18-36 | likewise for a category list |
| CatalogModels.Cache.constructor | ProductCatalogApi/Services/CacheService.cs:12-16 | the cache starts empty |
| CatalogModels.Cache.Set | ProductCatalogApi/Services/CacheService.cs:38-56 | the entry is stored or overwritten and every other entry kept |
| CatalogModels.Cache.Remove | ProductCatalogApi/Services/CacheService.cs:58-69 | the entry is dropped and every other entry kept |
| ProductValidation.IsValidPrice | ProductCatalogApi/Services/ProductValidationService.cs:33-36 | a valid price is positive and below 100000 |
| ProductValidation.PriceLimits | ProductCatalogApi/Services/ProductValidationService.cs:33-36 | both ends are as written: 0.01 and 99999.99 pass; 0, 100000 and a negative price fail |
| ProductValidation.IsValidName | ProductCatalogApi/Services/ProductValidationService.cs:38-41 | a valid name is present, has at most 100 characters, and holds at least one character that is not whitespace |
| ProductValidation.ValidNameLength | ProductCatalogApi/Services/ProductValidationService.cs:38-41 | a valid name has between 1 and 100 characters, as its message says |
| ProductValidation.BlankNameInvalid | ProductCatalogApi/Services/ProductValidationService.cs:18-19 | a one-character name of whitespace fails, a rule the message does not mention |
| ProductValidation.MessagesDistinct | ProductCatalogApi/Services/ProductValidationService.cs:14-31 | the four messages are pairwise different |
| ProductValidation.ValidateProduct | ProductCatalogApi/Services/ProductValidationService.cs:14-31 | each rule's message appears exactly when that rule fails, the messages keep rule order, and the list is empty exactly when every rule holds |
| ProductValidation.FailedRuleMessages | ProductCatalogApi/Services/ProductValidationService.cs:16-28 | the messages appended for a set of failed rules name exactly those rules |
| ProductValidation.RuleOrderKept | ProductCatalogApi/Services/ProductValidationService.cs:16-28 | the appended messages form a subsequence of the four in rule order |
| ProductValidation.IsValidProduct | ProductCatalogApi/Services/ProductValidationService.cs:8-12 | a product is valid exactly when all four rules hold |
| PriceCalculation.DiscountedPrice | ProductCatalogApi/Services/PriceCalculationService.cs:8-14 | a percentage outside 0..100 throws; otherwise the result is the price less that percentage of it |
| PriceCalculation.DiscountEndpoints | ProductCatalogApi/Services/PriceCalculationService.cs:8-14 | 0% keeps the price and 100% makes it free |
| PriceCalculation.DiscountWithinPrice | ProductCatalogApi/Services/PriceCalculationService.cs:8-14 | for a non-negative price the discounted price lies between 0 and the price |
| PriceCalculation.DiscountMonotonic | ProductCatalogApi/Services/PriceCalculationService.cs:8-14 | a larger discount never gives a higher price |
| PriceCalculation.CalculateTotalPrice | ProductCatalogApi/Services/PriceCalculationService.cs:16-27 | the `foreach` returns the basket total: the sum of price × quantity over the products that have a quantity |
| PriceCalculation.BasketTotalAppend | ProductCatalogApi/Services/PriceCalculationService.cs:16-27 | the total of two runs of products is the sum of their totals |
| PriceCalculation.RepeatedProductCountedTwice | ProductCatalogApi/Services/PriceCalculationService.cs:19-24 | a product listed twice is charged twice |
| PriceCalculation.UnlistedProductsIgnored | ProductCatalogApi/Services/PriceCalculationService.cs:21-24 | products without a quantity add nothing: the total is that of the products that have one |
| PriceCalculation.Vat | ProductCatalogApi/Services/PriceCalculationService.cs:29-32 | without a rate, VAT is 17% of the price |
| PriceCalculation.VatDistributes | ProductCatalogApi/Services/PriceCalculationService.cs:29-32 | VAT on a basket is the sum of the VAT on its parts |
| Products.EvictionRestoresCoherence | ProductCatalogApi/Services/ProductService.cs:55 | once the product list is evicted, the cache is coherent with any table |
| Products.ExpiryKeepsCoherence | ProductCatalogApi/Services/CacheService.cs:44-47 | an entry expiring never makes the cache disagree with the table |
| Products.UpdatedRow | ProductCatalogApi/Repositories/ProductRepository.cs:46-58 | the update copies name, price, category and unit onto the stored row and keeps its id and description |
| Products.ProductService.constructor | ProductCatalogApi/Services/ProductService.cs:13-23 | the service works over the given table and cache |
| Products.ProductService.GetAllProducts | ProductCatalogApi/Services/ProductService.cs:25-37 | while the cache is coherent with the table the caller gets the table's content; a hit leaves the cache alone, a miss caches the list; coherence is kept (see CascadeLeavesProductListStale for the one write that breaks it) |
| Products.ProductService.GetProductById | ProductCatalogApi/Services/ProductService.cs:39-42 | finds the row exactly when the id is stored |
| Products.ProductService.GetProductsByCategory | ProductCatalogApi/Repositories/ProductRepository.cs:31-37 | returns exactly the rows of that category |
| Products.ProductService.SearchProducts | ProductCatalogApi/Services/ProductService.cs:87-90 | returns exactly the rows the database's text match accepts |
| Products.ProductService.CreateProduct | ProductCatalogApi/Services/ProductService.cs:49-59 | invalid data throws and changes nothing; otherwise the row is inserted under the new id and the list evicted |
| Products.ProductService.UpdateProduct | ProductCatalogApi/Services/ProductService.cs:61-74 | an unknown id gives null before validation; invalid data throws; otherwise the stored row takes the new fields and the list is evicted; nothing changes on the two early exits |
| Products.ProductService.DeleteProduct | ProductCatalogApi/Services/ProductService.cs:76-85 | reports whether the row existed, removes it, and evicts the list exactly when one was removed |
| Categories.ServicesKeepEachOthersEntries | ProductCatalogApi/Services/CategoryService.cs:23-35 | product-side evictions and writes leave the category list coherent, and category-side evictions leave the product list coherent as long as the product table is unchanged |
| Categories.CascadeDeleted | ProductCatalogApi/Data/ProductCatalogContext.cs:28-31 | the cascade keeps exactly the product rows of other categories, unchanged |
| Categories.CascadeLeavesProductListStale | ProductCatalogApi/Services/CategoryService.cs:63-72 | deleting a category that has products, with the product list cached, leaves that list still holding the deleted products |
| Categories.CategoryService.constructor | ProductCatalogApi/Services/CategoryService.cs:13-21 | the service works over the given table and cache |
| Categories.CategoryService.GetAllCategories | ProductCatalogApi/Services/CategoryService.cs:23-35 | the caller always gets the table's content; a miss caches the list; coherence is kept |
| Categories.CategoryService.GetCategoryById | ProductCatalogApi/Services/CategoryService.cs:37-40 | finds the row exactly when the id is stored |
| Categories.CategoryService.CreateCategory | ProductCatalogApi/Services/CategoryService.cs:42-49 | inserts without validation under the new id and evicts the list |
| Categories.CategoryService.UpdateCategory | ProductCatalogApi/Services/CategoryService.cs:51-61 | an unknown id gives null and changes nothing; otherwise the row is stored under the id and the list evicted |
| Categories.CategoryService.DeleteCategory | ProductCatalogApi/Services/CategoryService.cs:63-72 | reports whether the row existed, removes it, and evicts the list exactly when one was removed |
| SignalsBasic.JsRemainder | frontend-angular/src/app/signals-basic/signals-basic.ts:28 | JavaScript `%` takes the dividend's sign and is smaller than the divisor in size |
| SignalsBasic.JsRemainderOdd | frontend-angular/src/app/signals-basic/signals-basic.ts:28 | negating the dividend negates the remainder, which agrees with the Euclidean one on non-negative dividends |
| SignalsBasic.DoubleCount | frontend-angular/src/app/signals-basic/signals-basic.ts:26 | `doubleCount` is always even and half of it is the count |
| SignalsBasic.SquareCount | frontend-angular/src/app/signals-basic/signals-basic.ts:27 | `squareCount` is never negative or below the count, and is 0 exactly at 0 |
| SignalsBasic.IsEven | frontend-angular/src/app/signals-basic/signals-basic.ts:28 | `count % 2 === 0` holds exactly for even counts, negative ones included |
| SignalsBasic.NegativeOddRemainder | frontend-angular/src/app/signals-basic/signals-basic.ts:28 | for -3 the JavaScript remainder is -1, and -3 is not even |
| SignalsBasic.FullName | frontend-angular/src/app/signals-basic/signals-basic.ts:29-33 | the full name is never empty |
| SignalsBasic.JoinNames | frontend-angular/src/app/signals-basic/signals-basic.ts:32 | joining the names never gives the empty string |
| SignalsBasic.FullNameHasNoOuterWhitespace | frontend-angular/src/app/signals-basic/signals-basic.ts:29-33 | the full name has no whitespace at either end |
| SignalsBasic.FullNameCases | frontend-angular/src/app/signals-basic/signals-basic.ts:29-33 | with both names it is "first last", with one name that name, and with neither "Anonymous" |
| SignalsBasic.FullNameIgnoresOuterWhitespace | frontend-angular/src/app/signals-basic/signals-basic.ts:30-31 | whitespace around the names never shows |
| SignalsBasic.CompletedCount | frontend-angular/src/app/signals-basic/signals-basic.ts:37 | at most the number of todos |
| SignalsBasic.RemainingCount | frontend-angular/src/app/signals-basic/signals-basic.ts:38 | at most the number of todos |
| SignalsBasic.CountsAddUp | frontend-angular/src/app/signals-basic/signals-basic.ts:36-38 | completed plus remaining is `todoCount` |
| SignalsBasic.AddedTodo | frontend-angular/src/app/signals-basic/signals-basic.ts:83-90 | non-blank text is appended trimmed as an open todo; blank text changes nothing |
| SignalsBasic.RemovedAt | frontend-angular/src/app/signals-basic/signals-basic.ts:92-94 | removing never lengthens the list |
| SignalsBasic.RemovedAtSplices | frontend-angular/src/app/signals-basic/signals-basic.ts:92-94 | exactly the entry at the index goes, the rest stay in order, and an index outside the list changes nothing |
| SignalsBasic.ToggledAt | frontend-angular/src/app/signals-basic/signals-basic.ts:96-102 | toggling keeps the length |
| SignalsBasic.ToggleFlipsOnlyThatEntry | frontend-angular/src/app/signals-basic/signals-basic.ts:96-102 | every text is kept, exactly the entry at the index flips, and an index outside the list changes nothing |
| SignalsBasic.ToggleTwice | frontend-angular/src/app/signals-basic/signals-basic.ts:96-102 | toggling an entry twice restores the list |
| SignalsBasic.ToggleMovesOneTodo | frontend-angular/src/app/signals-basic/signals-basic.ts:96-102 | a toggle moves one todo between completed and remaining |
| SignalsBasic.CounterOperations | frontend-angular/src/app/signals-basic/signals-basic.ts:60-70 | increment and decrement undo each other, and reset gives 0 whatever came before |
| SignalsBasic.LastNameNeverChangesAsWritten | frontend-angular/src/app/signals-basic/signals-basic.ts:78-80 | as written, entering "Ada" then "Lovelace" leaves the last name empty and the full name "Ada" |
| SignalsBasic.NamesEnteredShowInFullName | frontend-angular/src/app/signals-basic/signals-basic.ts:73-80 | with the setter in place, two non-blank names show as "first last", trimmed |
| SignalsBasic.SignalsBasicComponent.constructor | frontend-angular/src/app/signals-basic/signals-basic.ts:15-23 | count 0, empty names, and the two initial todos |
| SignalsBasic.SignalsBasicComponent.Increment | frontend-angular/src/app/signals-basic/signals-basic.ts:60-62 | count goes up by one and nothing else changes |
| SignalsBasic.SignalsBasicComponent.Decrement | frontend-angular/src/app/signals-basic/signals-basic.ts:64-66 | count goes down by one and nothing else changes |
| SignalsBasic.SignalsBasicComponent.Reset | frontend-angular/src/app/signals-basic/signals-basic.ts:68-70 | count becomes 0 and nothing else changes |
| SignalsBasic.SignalsBasicComponent.UpdateFirstName | frontend-angular/src/app/signals-basic/signals-basic.ts:73-76 | the first name becomes the input's value |
| SignalsBasic.SignalsBasicComponent.UpdateLastName | frontend-angular/src/app/signals-basic/signals-basic.ts:78-80 | the last name becomes the input's value: the corrected behaviour (see Findings) |
| SignalsBasic.SignalsBasicComponent.AddTodo | frontend-angular/src/app/signals-basic/signals-basic.ts:83-90 | the list ends as AddedTodo describes |
| SignalsBasic.SignalsBasicComponent.RemoveTodo | frontend-angular/src/app/signals-basic/signals-basic.ts:92-94 | the list ends as RemovedAtSplices describes |
| SignalsBasic.SignalsBasicComponent.ToggleTodo | frontend-angular/src/app/signals-basic/signals-basic.ts:96-102 | the list ends as ToggleFlipsOnlyThatEntry describes |
| Text.Trim | frontend-angular/src/app/signals-basic/signals-basic.ts:30-31 | `trim` gives a string no longer than its input, with no whitespace at either end |
| Text.TrimEmptyIffBlank | frontend/src/store/slices/orderSlice.ts:101 | `!s.trim()` holds exactly when the string is all whitespace |
| Text.TrimIdempotent | frontend/src/store/slices/orderSlice.ts:101-103 | trimming twice is trimming once |
| Text.TrimKeepsTrimmed | backend-nodejs/src/models/Order.ts:118-123 | a string with no outer whitespace is its own trim |
| Text.LowerKeepsNoOuterWhitespace | backend-nodejs/src/models/Order.ts:118-123 | lower-casing keeps a string free of outer whitespace |
| Text.ToLower | backend-nodejs/src/routes/orders.ts:231 | lower-casing keeps the length and maps each character on its own |
| Text.ToUpper | backend-nodejs/src/models/Order.ts:189 | upper-casing keeps the length and maps each character on its own |
| Text.ToLowerIdempotent | frontend/src/store/slices/catalogSlice.ts:85-95 | lower-casing twice is lower-casing once, and leaves no upper-case ASCII letter |
| Text.IncludesEmpty | frontend/src/store/slices/catalogSlice.ts:92-95 | every string includes the empty string |
| Text.SliceLast | backend-nodejs/src/models/Order.ts:189 | `slice(-n)` is the last n characters, or the whole of a shorter string, and is a suffix of it |
| Text.EmailRegexIsShape | frontend/src/store/slices/orderSlice.ts:113 | `/^[^\s@]+@[^\s@]+\.[^\s@]+$/` matches exactly: no whitespace, one '@' with text before it, and a '.' after it with text on both sides |
| Money.Round2 | frontend/src/store/slices/cartSlice.ts:118 | the result is whole cents within half a cent of the input |
| Money.Round2FixesWholeCents | backend-nodejs/src/models/Order.ts:216 | rounding leaves an amount alone exactly when it is whole cents |
| Money.Round2Idempotent | frontend/src/store/slices/cartSlice.ts:118 | rounding twice is rounding once |
| Money.Round2Monotonic | backend-nodejs/src/models/Order.ts:216 | rounding preserves order |
| Money.Round2NonNegative | backend-nodejs/src/models/Order.ts:216 | a non-negative amount rounds to a non-negative amount |
| Sequences.FilterMembers | frontend/src/store/slices/cartSlice.ts:82 | `filter` keeps exactly the elements its test accepts |
| Sequences.FilterIsSubsequence | frontend/src/store/slices/catalogSlice.ts:77-79 | `filter` keeps the order of what it keeps |
| Sequences.FilterAllKept | frontend/src/store/slices/catalogSlice.ts:72-81 | filtering with a test every element passes changes nothing |
| Sequences.FilterOfFilter | frontend/src/store/slices/catalogSlice.ts:87-95 | filtering twice is filtering once by both tests |
| Sequences.FilterDistributes | frontend/src/store/slices/catalogSlice.ts:77-79 | filtering a concatenation filters each part |
| Sequences.FilterPartition | frontend-angular/src/app/signals-basic/signals-basic.ts:37-38 | a test and its negation together keep every element once |
| Sequences.SubsequenceMembers | frontend/src/store/slices/catalogSlice.ts:77-79 | a subsequence holds only elements of its source |
| Sequences.SubsequenceReflexive | frontend/src/store/slices/catalogSlice.ts:75 | every list is a subsequence of itself |

## Left out

- I/O is left out: HTTP requests and responses, the MongoDB driver, Entity Framework queries, logging and `console` output. The routes and services are modelled up to the data they read and write. A store of orders is a map from id to document, and a service's table is a map from id to row.
- `_id` generation, `Date.now` and `DateTime` are parameters: the fresh id, `now`, and the database-generated id of a new row.
- The Redux thunks and Angular's HTTP-free effects are left out. The thunks' network calls are outside the model, and each reducer case takes the thunk's payload or message as a parameter. The component's three `effect` callbacks only log, so they are left out.
- Floating point is not modelled: money is an exact `real`. JavaScript `number` rounding error, .NET `decimal` precision and overflow are therefore absent.
- Integers are unbounded; there is no 53-bit limit on counts or quantities.
- Case mapping covers ASCII letters only. `toLowerCase`, `toUpperCase` and Mongoose's `lowercase` also map other Unicode letters.
- Lengths count characters, not UTF-16 code units. This affects C# `name.Length` and JavaScript `.length` on characters outside the BMP.
- Joi's `.email()` check and the Mongoose email pattern (`Order.ts:123`) are parameters (`isEmail`, `emailMatches`), not implemented. The checkout pattern of `orderSlice.ts:113` is implemented.
- Joi removes or refuses unknown keys; the model has no unknown keys. The request is typed.
- Joi runs with `abortEarly`, so one violation is reported: the first in key order.
- A malformed id for `findById` raises Mongoose's CastError (400). This is not modelled. `GetOrder`, `UpdateStatus` and `CancelOrder` treat every string id as a key that is present or absent.
- Mongoose `timestamps: true` adds its own `createdAt` and `updatedAt`; only the schema's explicit `updatedAt`, stamped by the hook, is modelled.
- The list route's `find().sort({ orderDate: -1 })` is taken as given: ListPage receives the list already sorted, and its skip, limit and `select` are modelled. `findByEmail` (`Order.ts:223-225`) and the customer route's newest-first order are modelled as a map keyed by order id, so their order is not captured.
- OrderRoutes.ListPage: requires page ≥ 1 and limit ≥ 1. `orders.ts` passes a zero, negative or NaN `page`/`limit` on to the driver, which refuses a negative skip or treats limit 0 as no limit. That behaviour belongs to the driver and is not modelled.
- OrderRoutes.HasNextPageIffMoreOrders: stated for page ≥ 1 and limit ≥ 1 only, for the same reason. With limit 0, `Math.ceil(total / 0)` is `Infinity` in JavaScript.
- OrderRoutes.CeilDiv: stated for a positive limit only, for the same reason.
- The products and categories returned by the .NET services are sets, because the repository's `ToListAsync` order is unspecified.
- EF `Include` of the category navigation property is left out, as is the product's category object; the search's `Contains` match on names is the parameter `matches`.
- Products.ProductService.UpdateProduct: `product.Id = id` mutates the caller's object. The model returns a new value, so this aliasing is not captured.
- Categories.CategoryService.UpdateCategory: the stored row is replaced by the given category with its id set. CategoryRepository.cs is not part of this model, so how its `UpdateAsync` merges fields is not captured.
- Cache entry lifetimes are left out: the 10- and 30-minute absolute expirations and the 5-minute sliding default. Expiry is modelled as removal (`Cache.Remove`); ExpiryKeepsCoherence shows it is harmless.
- `RemoveByPatternAsync` only logs, so it is left out. The cache's `catch` blocks around `Set` and `Remove` are left out: an in-memory store does not throw.
- The plain field-read selectors of the three slices are left out. `selectCartItemById` is modelled as `CartItemById`.
- The Angular template and the DOM input event are left out. `updateFirstName` and `updateLastName` take the input's value as a parameter.
- The order total is rounded once, on the sum (`Order.ts:216`); the lines' own totals are not rounded.
- Any valid status may be set from any status (`orders.ts` status route); the code has no transition rules.
- `orders.js` and `orders.ts` parse `page` and `limit` differently, and both are modelled.
- Categories.CategoryService.DeleteCategory: the database cascade of `ProductCatalogContext.cs:28-31` also deletes the category's products, but the service's table holds categories only, so the method does not remove them. CascadeDeleted and CascadeLeavesProductListStale state the cascade on values: Products.ProductService.GetAllProducts can then serve a cached list that still holds the deleted products until the entry expires.

## Findings

| source | as written | input that shows it | evidently intended | confidence | as-written member | corrected member |
|---|---|---|---|---|---|---|
| frontend-angular/src/app/signals-basic/signals-basic.ts:78-80 | `updateLastName` reads the input element but never sets the `lastName` signal | enter first name "Ada", then last name "Lovelace": the last name stays "" and the full name shows "Ada" | store the input's value, `this.lastName.set(input.value)`, as `updateFirstName` does | high; not executed | SignalsBasic.LastNameNeverChangesAsWritten | SignalsBasic.NamesEnteredShowInFullName |

The component class uses the corrected setter (`SignalsBasicComponent.UpdateLastName`). The as-written behaviour is kept as `AfterUpdateLastNameAsWritten`.
