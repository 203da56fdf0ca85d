# Storefront cart and search rules, modelled in Dafny

This project models the client-side rules of a jewellery storefront written in
TypeScript and React.

- **The bag (cart store).** An ordered list of lines keyed by
  `(id, selectedSize, selectedMaterial)`. Adding a line whose key is present
  raises that line's quantity; otherwise the line is appended. Removing and
  updating act on the exact key. Clearing empties the bag. The total and the
  count are sums over the lines.
- **The bag summary.** Shipping is free from a subtotal of 5000, else 200.
  The summary shows the grand total, the "add X more for free shipping" hint,
  the per-line quantity controls (the decrement clamps at 1) and the
  "Empty / 1 item / N items" heading.
- **The product page.** The effective price of the selected variant and
  whether it is in stock. The prioritised stock label. The distinct material
  and size buttons. The material-then-size variant picker, which falls back
  to the current selection. "Add to Bag", which puts one line of quantity 1
  in the bag only when in stock. The cyclic image carousel.
- **Search.**
  - The search overlay clears its results on a blank query. Otherwise it
    concatenates the name matches and the category matches and keeps the
    first product of each id.
  - The shared `searchProducts` helper turns the text and the filters into
    query clauses. After the base rows it appends the products whose variant
    material contains the query, each new id once.

Layout, one module per file:

- `options.dfy` (`Options`): `Option`, with `GetOr` for JavaScript's `??`.
- `text.dfy` (`Text`): `trim`, `toLowerCase`, `includes`, and the decimal
  rendering of a count.
- `dedup.dfy` (`Dedup`): `FirstByKey`, first-occurrence de-duplication
  threaded through a set of seen keys. It serves the `new Set(...)` pickers,
  the overlay's `seen` filter and the `existingIds` merge, and is proved once
  here.
- `cart_store.dfy` (`CartStore`):
  - class `Cart`, whose methods replace its `items` sequence;
  - the functions that specify them: `WithItem`, `Removed`, `Updated`,
    `Total`, `Count`.
- `cart_sheet.dfy` (`CartSheet`): the bag summary as pure functions.
- `product_interactions.dfy` (`ProductInteractions`):
  - pure selectors;
  - class `ProductView`, holding the selected variant, the active image and
    the "added" flag.
- `search_modal.dfy` (`SearchModal`): the `seen`-set loop, and class
  `SearchModalState` with `results`, `loading` and `searched`. A search is
  split into its start and the moment its lookups answer, so that overlapping
  searches can be stated.
- `search.dfy` (`Search`): the clause selection, the `existingIds` loop, and
  `searchProducts`.

The database lookups are not modelled. Each operation that depends on one
takes the rows the lookup returned (or its error) as a parameter.

Where the system's design notes and its code differ, the model follows the
code:

- Cart quantities are described as positive integers. The store stores
  whatever quantity it is given, including zero and negative values, so
  `Cart.UpdateQuantity` does too.
- The product page advertises free shipping on orders over ₹10,000. The
  threshold the bag applies is 5000, and that is the one modelled.

## Model

| member | source | states |
|---|---|---|
| CartStore.FindIndex | src/store/cart.store.ts:38-43 | returns the first index whose line has the exact `(id, size, material)` key, and nothing exactly when no line has that key |
| CartStore.WithItem | src/store/cart.store.ts:35-55 | adding never shortens the bag and lengthens it by at most one line, keeps every existing line's key in place, and leaves the added key present |
| CartStore.AddExistingMerges | src/store/cart.store.ts:37-49 | when the key is present, adding keeps the length, raises that line's quantity by the new quantity and leaves every other line unchanged |
| CartStore.AddNewAppends | src/store/cart.store.ts:52-53 | when the key is absent, adding appends the new line after the unchanged earlier lines |
| CartStore.AddPreservesUniqueKeys | src/store/cart.store.ts:38-53 | adding keeps every key at most once, so the same id in a different size becomes a separate line |
| CartStore.AddSums | src/store/cart.store.ts:35-55 | adding raises the count by the added quantity and the total by that quantity times the price of the line it lands on |
| CartStore.AddSameKeyTwice | src/store/cart.store.ts:38-53 | adding the same key twice to a bag without it yields one line whose quantity is the sum of both additions |
| CartStore.AddDistinctKeysTwice | src/store/cart.store.ts:38-53 | adding two different new keys appends both, in order |
| CartStore.Removed | src/store/cart.store.ts:57-68 | removing never lengthens the bag |
| CartStore.RemovedMembers | src/store/cart.store.ts:59-66 | every line left after removing is an original line with a different key |
| CartStore.RemoveKeepsOthers | src/store/cart.store.ts:59-66 | every original line with a different key survives removing |
| CartStore.RemovedAppend | src/store/cart.store.ts:59-66 | removing works line by line in order: removing from a concatenation removes from each part |
| CartStore.RemoveAbsentIsNoop | src/store/cart.store.ts:57-68 | removing a key no line has leaves the bag unchanged |
| CartStore.RemoveIdempotent | src/store/cart.store.ts:57-68 | removing the same key twice is the same as removing it once |
| CartStore.RemoveAt | src/store/cart.store.ts:57-68 | with unique keys, removing the key of line `i` deletes exactly line `i` and keeps the rest in order |
| CartStore.RemovePreservesUniqueKeys | src/store/cart.store.ts:57-68 | removing keeps the keys unique |
| CartStore.UpdateKeepsKeys | src/store/cart.store.ts:70-83 | updating keeps the length and every line's key, hence key uniqueness |
| CartStore.UpdateAt | src/store/cart.store.ts:70-83 | with unique keys, updating the key of line `i` changes only that line's quantity, to the given value even if zero or negative, and moves the count by the difference |
| CartStore.UpdateAbsentIsNoop | src/store/cart.store.ts:70-83 | updating a key no line has leaves the bag unchanged |
| CartStore.Updated | src/store/cart.store.ts:70-83 | updating keeps the length and every key; lines with the key get exactly the given quantity, all other lines are unchanged |
| CartStore.LineTotal | src/store/cart.store.ts:89 | a line's contribution is non-negative when its price and quantity are |
| CartStore.Total | src/store/cart.store.ts:87-92 | the total of an empty bag is 0 |
| CartStore.Count | src/store/cart.store.ts:94-96 | the count of an empty bag is 0 |
| CartStore.Singleton | src/store/cart.store.ts:87-96 | a one-line bag totals price times quantity and counts its quantity |
| CartStore.TotalAppend | src/store/cart.store.ts:87-92 | the total is additive over concatenation, so it is the sum of price times quantity over the lines |
| CartStore.CountAppend | src/store/cart.store.ts:94-96 | the count is additive over concatenation, so it is the sum of the quantities |
| CartStore.SumsReplaceAt | src/store/cart.store.ts:87-96 | replacing one line moves the total and the count by exactly that line's difference |
| CartStore.SumsRemoveAt | src/store/cart.store.ts:87-96 | deleting one line lowers the total and the count by exactly that line's share |
| CartStore.TotalNonNegative | src/store/cart.store.ts:87-92 | with non-negative prices and quantities the total is non-negative |
| CartStore.CountAtLeastLines | src/store/cart.store.ts:94-96 | with quantities of at least 1 the count is at least the number of lines, and 0 exactly for an empty bag |
| CartStore.Cart.constructor | src/store/cart.store.ts:33 | the bag starts empty |
| CartStore.Cart.AddItem | src/store/cart.store.ts:35-55 | the new bag is the merge-or-append of the new line into the old one, and keys stay unique |
| CartStore.Cart.RemoveItem | src/store/cart.store.ts:57-68 | the new bag is the old one without the lines of the exact key, and keys stay unique |
| CartStore.Cart.UpdateQuantity | src/store/cart.store.ts:70-83 | the new bag is the old one with the exact key's quantity overwritten, and keys stay unique |
| CartStore.Cart.ClearCart | src/store/cart.store.ts:85 | the bag is empty, so its total and count are 0 |
| CartStore.Cart.CartTotal | src/store/cart.store.ts:87-92 | the total of the current lines, 0 when there are none |
| CartStore.Cart.CartCount | src/store/cart.store.ts:94-96 | the count of the current lines, 0 when there are none |
| CartSheet.ShippingFee | src/components/cart/CartSheet.tsx:228 | shipping is free exactly when the subtotal is at least 5000, and 200 otherwise |
| CartSheet.ShippingText | src/components/cart/CartSheet.tsx:228 | the text reads "Free" exactly when no fee is charged, and otherwise shows the fee that is charged, as "₹" and its digits |
| CartSheet.GrandTotal | src/components/cart/CartSheet.tsx:234-236 | the grand total is the subtotal plus the shipping fee, between the subtotal and the subtotal plus 200 |
| CartSheet.FreeShippingGap | src/components/cart/CartSheet.tsx:241-246 | the hint appears exactly when shipping is charged; its amount is positive, every subtotal below subtotal plus the amount is still charged, and adding the amount makes shipping free |
| CartSheet.DecrementRequest | src/components/cart/CartSheet.tsx:183 | the decrement asks for one less, never below 1 |
| CartSheet.IncrementRequest | src/components/cart/CartSheet.tsx:199 | the increment asks for more than the current quantity |
| CartSheet.IncrementDecrementInverse | src/components/cart/CartSheet.tsx:179-207 | from a quantity of at least 1 the decrement undoes the increment, and from at least 2 the increment undoes the decrement |
| CartSheet.DecrementLine | src/components/cart/CartSheet.tsx:179-191 | the minus button keeps the bag's length and keys, lowers the line by one from 2 upward, and never below 1 |
| CartSheet.IncrementLine | src/components/cart/CartSheet.tsx:195-207 | the plus button keeps the bag's length and keys and raises the line's quantity |
| CartSheet.RemoveLine | src/components/cart/CartSheet.tsx:154-166 | the remove button leaves only original lines with a key other than that line's |
| CartSheet.CountLabel | src/components/cart/CartSheet.tsx:82 | the heading is "Empty" exactly for a count of 0 or less, "1 item" for 1, and above 1 exactly the count's digits followed by " items" |
| CartSheet.CountLabelRoundTrip | src/components/cart/CartSheet.tsx:82 | the count can be read back from the heading, so different counts give different headings |
| CartSheet.LineControlsTouchOnlyTheirLine | src/components/cart/CartSheet.tsx:155-202 | each line's remove, decrement and increment controls pass that line's full key, so they delete or change only that line |
| CartSheet.ControlsKeepQuantitiesPositive | src/components/cart/CartSheet.tsx:179-202 | if every quantity is at least 1, it stays so after either quantity control |
| CartSheet.DecrementLineCount | src/components/cart/CartSheet.tsx:180-186 | the decrement lowers the count by 1, or by nothing at quantity 1 |
| Text.Trim | src/lib/search.ts:35 | the trimmed text is a slice of the text with only white space before and after it; it is empty exactly when the text is all white space, and otherwise starts and ends with non-space |
| Text.TrimIdempotent | src/lib/search.ts:35 | trimming twice is trimming once |
| Text.ToLower | src/lib/search.ts:58 | lowering keeps the length and lowers each letter |
| Text.ToLowerIdempotent | src/lib/search.ts:92 | a lowered string has no upper-case letter, and lowering it again changes nothing |
| Text.Contains | src/lib/search.ts:108 | an occurrence needs the text to be at least as long; the empty string and the text itself always occur |
| Text.NatToString | src/components/cart/CartSheet.tsx:82 | a count renders as a non-empty string of digits with no leading zero, as JavaScript prints it |
| Text.ParseNatToString | src/components/cart/CartSheet.tsx:82 | reading the digits back gives the count |
| Text.NatToStringInjective | src/components/cart/CartSheet.tsx:82 | different counts render differently |
| Dedup.FirstByKey | src/components/common/SearchModal.tsx:83-88 | the kept elements come from the input, none with an already-seen key, and there are no more of them than inputs |
| Dedup.FirstByKeyDistinct | src/components/common/SearchModal.tsx:83-88 | the kept elements have pairwise distinct keys |
| Dedup.FirstByKeyKeys | src/components/common/SearchModal.tsx:83-88 | the kept keys are exactly the input's keys that were not already seen |
| Dedup.FirstByKeySubsequence | src/components/common/SearchModal.tsx:83-88 | the kept elements keep their relative order |
| Dedup.FirstByKeyFirstOccurrences | src/components/common/SearchModal.tsx:83-88 | each kept element is the first input element with its key, in the order of those first occurrences |
| Dedup.FirstByKeyAppend | src/components/common/SearchModal.tsx:82-88 | de-duplicating a concatenation de-duplicates the first part, then the second part with the first part's keys seen |
| Dedup.FirstByKeyOfDistinct | src/components/common/SearchModal.tsx:82-88 | a list with distinct, unseen keys is kept whole |
| Dedup.DedupLoopStep | src/lib/search.ts:113-119 | one turn of a seen-set loop, keeping the element exactly when its key is new, keeps the loop on course to the first-occurrence result |
| ProductInteractions.EffectivePrice | src/components/product/ProductInteractions.tsx:67 | the price is the base price plus the selected variant's adjustment, or the base price when none is selected |
| ProductInteractions.IsInStock | src/components/product/ProductInteractions.tsx:69-71 | in stock exactly when a variant is selected that has units left or is made to order |
| ProductInteractions.StockLabelOf | src/components/product/ProductInteractions.tsx:73-79 | made to order first, then "n left" for a positive count, then "Out of Stock" only when the variant asks for it, else no label; a label other than out-of-stock shows exactly when in stock |
| ProductInteractions.StockText | src/components/product/ProductInteractions.tsx:73-79 | "Out of Stock" and the made-to-order text each appear exactly for their label, and the in-stock text carries the number left |
| ProductInteractions.MaterialsOf | src/components/product/ProductInteractions.tsx:82 | one material per variant, in order |
| ProductInteractions.Materials | src/components/product/ProductInteractions.tsx:82 | no more buttons than variants, each the material of some variant |
| ProductInteractions.MaterialsSpec | src/components/product/ProductInteractions.tsx:82 | the material buttons list each material once, exactly the variants' materials, in order of first appearance |
| ProductInteractions.SizeCandidates | src/components/product/ProductInteractions.tsx:83-89 | every candidate size is non-empty and belongs to a variant in the given material |
| ProductInteractions.Sizes | src/components/product/ProductInteractions.tsx:83-89 | no size buttons with nothing selected; each button is a non-empty size of a variant in the selected material |
| ProductInteractions.SizesSpec | src/components/product/ProductInteractions.tsx:83-89 | the size buttons list each size once, exactly the non-empty sizes of variants in the selected material, and none with nothing selected |
| ProductInteractions.FindMaterial | src/components/product/ProductInteractions.tsx:92 | finds the first variant in the material, and nothing exactly when no variant has it |
| ProductInteractions.FindMaterialAndSize | src/components/product/ProductInteractions.tsx:97-100 | finds the first variant in the material and of the size, and nothing exactly when none has both |
| ProductInteractions.MaterialChoice | src/components/product/ProductInteractions.tsx:91-94 | picking a material selects the first variant in it, even when the current one already has it; with none, the selection is kept |
| ProductInteractions.SizeChoice | src/components/product/ProductInteractions.tsx:96-102 | picking a size never changes the material, selects the first variant of that material and size, and otherwise keeps the selection |
| ProductInteractions.JsRem | src/components/product/ProductInteractions.tsx:126-127 | the dividend is the quotient truncated toward zero times n plus the remainder, which lies in [0, n) for a non-negative dividend and in (-n, 0] for a non-positive one |
| ProductInteractions.JsRemNearZero | src/components/product/ProductInteractions.tsx:126-127 | a dividend within one divisor of zero is its own remainder; one turn above, it wraps once |
| ProductInteractions.NextImage | src/components/product/ProductInteractions.tsx:127 | the next index stays in range, steps forward and wraps from the last image to the first |
| ProductInteractions.PrevImage | src/components/product/ProductInteractions.tsx:125-126 | the previous index stays in range, steps back and wraps from the first image to the last |
| ProductInteractions.PrevNextInverse | src/components/product/ProductInteractions.tsx:125-127 | previous undoes next and next undoes previous |
| ProductInteractions.CartLine | src/components/product/ProductInteractions.tsx:106-115 | the line added has quantity 1, the effective price, and the product's slug and name |
| ProductInteractions.AddToBagLine | src/components/product/ProductInteractions.tsx:104-115 | when in stock the line carries the selected variant's own id, size and material (the product-id fallback is unreachable), and the bag count grows by exactly 1 |
| ProductInteractions.ProductView.constructor | src/components/product/ProductInteractions.tsx:60-62 | the panel starts on the first variant, the first image, and not added |
| ProductInteractions.ProductView.SelectMaterial | src/components/product/ProductInteractions.tsx:91-94 | the selection becomes the material choice and stays one of the variants |
| ProductInteractions.ProductView.SelectSize | src/components/product/ProductInteractions.tsx:96-102 | the selection becomes the size choice, in the same material |
| ProductInteractions.ProductView.SelectImage | src/components/product/ProductInteractions.tsx:225 | a thumbnail makes its image the active one |
| ProductInteractions.ProductView.ShowNextImage | src/components/product/ProductInteractions.tsx:127 | the active image becomes the next one, in range |
| ProductInteractions.ProductView.ShowPrevImage | src/components/product/ProductInteractions.tsx:125-126 | the active image becomes the previous one, in range |
| ProductInteractions.ProductView.AddToCart | src/components/product/ProductInteractions.tsx:104-116 | out of stock, the bag and the flag are unchanged; in stock, the line is merged into the bag and the flag is set |
| ProductInteractions.ProductView.AddedAcknowledgementExpired | src/components/product/ProductInteractions.tsx:122 | the "added" flag is cleared |
| SearchModal.UniqueById | src/components/common/SearchModal.tsx:83-88 | the `seen`-set loop yields the first product of each id in the combined list |
| SearchModal.MergedResults | src/components/common/SearchModal.tsx:82-88 | no more results than the two lists hold, each taken from one of them |
| SearchModal.NameMatchesFirst | src/components/common/SearchModal.tsx:82-88 | the results are the name matches, then the category matches whose id is not among them |
| SearchModal.DistinctNameMatchesKept | src/components/common/SearchModal.tsx:82-88 | name matches with distinct ids are kept whole, in order, at the front |
| SearchModal.MergedIdsDistinctAndComplete | src/components/common/SearchModal.tsx:83-88 | result ids are pairwise distinct and are exactly the ids of both lists, and every result comes from one of them |
| SearchModal.MergedKeepsFirstOccurrences | src/components/common/SearchModal.tsx:83-88 | each result is the first product with its id in the combined list, in that list's order |
| SearchModal.MissingMatchesContributeNothing | src/components/common/SearchModal.tsx:82 | a lookup without data contributes no rows |
| SearchModal.SearchModalState.constructor | src/components/common/SearchModal.tsx:31-34 | an empty query, no results, not loading, not searched, no search started and none pending |
| SearchModal.SearchModalState.Open | src/components/common/SearchModal.tsx:38-45 | opening clears the query and the results and marks nothing searched |
| SearchModal.SearchModalState.SetQuery | src/components/common/SearchModal.tsx:128 | typing replaces the query |
| SearchModal.SearchModalState.StartSearch | src/components/common/SearchModal.tsx:56-63 | a blank query clears the results and the searched mark and leaves loading alone; any other query keeps the results, sets searched and loading, and leaves its lookups pending |
| SearchModal.SearchModalState.FinishSearch | src/components/common/SearchModal.tsx:81-91 | when the lookups answer, the merged results are written and loading ends, whatever searches started since |
| SearchModal.SearchModalState.FinishSearchIfLatest | src/components/common/SearchModal.tsx:81-91 | only the latest search writes its results; a superseded one leaves them alone and keeps loading on only while the latest search is pending |
| SearchModal.SearchModalState.Search | src/components/common/SearchModal.tsx:55-92 | with no other search overlapping, a blank query clears the results and the searched mark and leaves loading alone; any other query ends with the merged results, searched, not loading |
| SearchModal.StaleResultsAfterClear | src/components/common/SearchModal.tsx:55-99 | clearing the box while a search is pending, then letting it answer, shows its results with the overlay marked not searched |
| SearchModal.CurrentOnlyAfterClear | src/components/common/SearchModal.tsx:55-99 | with the latest-only finish, the same sequence leaves no results, not searched, not loading |
| Search.SortFor | src/lib/search.ts:72-78 | price_asc orders by base price ascending, price_desc by base price descending, newest by creation descending, anything else by featured first |
| Search.LoweredFilter | src/lib/search.ts:57-64 | a string filter applies exactly when set and non-empty, lowercased |
| Search.BuildClauses | src/lib/search.ts:35-78 | active only, the limit, a text match exactly when the query is not blank (on the trimmed query), lowered category and gender filters, a price cap exactly when the maximum is set, non-zero and below 200000, and the sort's ordering |
| Search.FiltersCaseInsensitive | src/lib/search.ts:57-64 | category and gender filters that differ only in letter case send the same clauses |
| Search.MatchesMaterial | src/lib/search.ts:106-110 | a match needs a variant list holding a material at least as long as the query |
| Search.MaterialFiltered | src/lib/search.ts:106-110 | every kept product has a variant whose lowered material contains the lowered query |
| Search.MaterialFilteredComplete | src/lib/search.ts:106-110 | every such product of the material lookup is kept |
| Search.AppendNewById | src/lib/search.ts:113-119 | the `existingIds` loop yields the base results followed by the first candidate of each id not already present |
| Search.SearchResults | src/lib/search.ts:80-123 | without an error, at least the base rows; every row comes from the base rows or the material rows |
| Search.SearchProducts | src/lib/search.ts:35-123 | sends the clauses built from the query and the filters, and returns the specified results |
| Search.ErrorYieldsNothing | src/lib/search.ts:82-85 | a lookup error yields no rows |
| Search.BaseRowsArePrefix | src/lib/search.ts:87-121 | the base rows come first and unchanged; with a blank query or no material rows they are all |
| Search.AppendedRowsSpec | src/lib/search.ts:105-119 | the appended rows come from the material lookup, match the material, share no id with a base row or with each other, and cover every matching id not among the base rows |
| Search.MatchingMaterialAppended | src/lib/search.ts:105-119 | a matching product with a new id appears in the results |

## Left out

- Persistence of the bag in the browser's local storage (src/store/cart.store.ts:98-100). It is I/O.
- The database lookups. Their answers are parameters:
  - the overlay's two `ilike` lookups, active products only, 8 rows each;
  - the base query and the 20-row material lookup of `searchProducts`.
- The `ilike` pattern semantics, including `%` and `_` inside the query. These run in the database.
- Search.SearchProducts: it returns the clauses of the base query but not those of the material lookup, which are fixed (active products, 20 rows).
- SearchModal.SearchModalState.Search: it is the search with no other search overlapping. Overlapping searches are modelled only through StartSearch and FinishSearch. The timing that decides which lookups answer first is left out, and so is the 300 ms debounce itself.
- The 300 ms debounce that calls the overlay's search. Framer-motion animations and toast notifications. The 2-second timer is modelled only by its callback, `AddedAcknowledgementExpired`.
- `toLocaleString` currency formatting of amounts.
- Text.Trim: strips ASCII white space, NBSP and BOM only, not every Unicode space separator.
- Text.ToLower: lowers ASCII letters only; other letters are left as they are.
- CartStore.Cart.AddItem:
  - it models the merge as a new line value;
  - the source increments `quantity` on the existing line object in place, after only a shallow copy of the array;
  - so the previous state's object shares that change, and this aliasing is not captured.
- Prices and quantities are integers (rupees and counts). JavaScript numbers are floating point, and overflow or rounding is not modelled.
- ProductInteractions.ProductView.ShowNextImage and ProductView.ShowPrevImage require at least one image. With none, JavaScript's `% 0` yields NaN, but the buttons render only with more than one image.
- ProductInteractions.SizeChoice requires a selected variant, because the handler reads its material without optional chaining. With no variant there are no size buttons.
- Server-side checkout, pricing and order writing (the checkout actions and the order API route). They are not part of this model.
- The product page's zoom, tabs and description, and the rest of the rendering.

## Findings

| source | as written | input that shows it | evidently intended | confidence | as-written member | corrected member |
|---|---|---|---|---|---|---|
| src/components/common/SearchModal.tsx:55-99 | a search whose lookups are still pending writes its results when they answer, even if a later search has started; the debounce clears only timers that have not fired | type "ring", then clear the box before the lookups for "ring" answer: the ring products are shown under an empty box, marked not searched (line 179 renders any non-empty results) | only the latest search updates the results and the loading state | medium, not executed | SearchModal.StaleResultsAfterClear | SearchModal.CurrentOnlyAfterClear |
