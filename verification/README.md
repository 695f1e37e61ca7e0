# Cart, menu filter and product dialog of the Nando's India site

This project is a Dafny model of the client-side core of the restaurant site's
web front end. It covers three parts.

- **The cart store** (`src/store/cartStore.ts`). The state is the list of cart
  lines plus the drawer flag. Each store action is a pure state-to-state
  function: `addItem`, `removeItem`, `updateQuantity`, `clearCart` and
  `toggleCart`. The two readers, `getTotalPrice` and `getTotalItems`, are
  methods with `reduce` loops.
- **The menu page's filter** (`src/app/menu/page.tsx`). It keeps the catalog
  entries whose lower-cased name or description contains the lower-cased
  search text, and whose category, spice level and vegetarian flag pass the
  current dropdowns. The "Clear All Filters" button restores the initial
  query.
- **The product customisation dialog** (`src/components/menu/ProductModal.tsx`).
  This covers:
  - its option tables (heat levels, sides with prices, sauces);
  - its local state and the clicks that change it;
  - the displayed total, `calculateTotal`;
  - `handleAddToCart`. It builds the customization strings and calls
    `addItem` once per unit of quantity.

The record shapes come from `src/types/index.ts` (module `MenuTypes`). The
JavaScript array methods the code is written with (`filter`, `find`,
`forEach` + `push`, `reduce`) are modelled once, generically, in module `Seqs`.
The string operations `toLowerCase` and `includes` are in module `Text`.

Three behaviours of the code are worth stating up front, because a reader
might expect otherwise.

- **Line total.** The dialog's displayed total includes the prices of the
  selected sides (`ProductModal.tsx:52-59`). A cart line's `totalPrice`,
  however, is unit price × quantity only (`cartStore.ts:37`, `:48`, `:69`).
  `ProductModal.CartTotalOmitsSides` states the gap: after an add, the cart
  total grows by the displayed total minus the sides' price × quantity.
- **Merge key.** The code matches a line on id, selected spice level and the
  `customizations` string list (`cartStore.ts:25-30`). Sides, sauces and the
  note exist only inside the strings the dialog builds (`ProductModal.tsx:62-79`).
- **What gets incremented.** The `find` at `cartStore.ts:25-30` looks for the
  line with the full key, but the `map` test at `:35-36` compares only id and
  spice level. So every line with the same id and spice level is
  incremented, including a sibling with different customizations. The full
  key of the `find` is the evidence that one line was meant. This is logged
  under Findings below. `AddItem` models the code as written.

Modelling choices:

- **Equality of customizations.** The code compares
  `JSON.stringify(customizations)`. The model compares
  `Option<seq<string>>` values directly. Serialisation is injective on string
  arrays and keeps `undefined` apart from `[]`.
- **Numbers.** Prices, quantities and totals are unbounded integers. Every
  catalog price is a whole number of rupees.

## Model

| member | source | states |
|---|---|---|
| MenuTypes.ParseSpice | src/types/index.ts:1 | A string is read as a spice level exactly when it is one of the six names, and reading a level's name gives back that level |
| Seqs.Filter | src/store/cartStore.ts:57 | `filter` keeps exactly the elements passing the test, with their multiplicities, in their original order, and keeps a duplicate-free list duplicate-free |
| Seqs.Find | src/store/cartStore.ts:25-30 | `find` gives nothing exactly when no element passes, and otherwise the first passing element |
| Seqs.FilterMap | src/components/menu/ProductModal.tsx:65-68 | The `forEach`/`push` of lookup results is never longer than its input. Each pushed value is the lookup result of some input, and every successful lookup is pushed |
| Text.Lower | src/app/menu/page.tsx:51-52 | Lower-casing keeps the length, lowers each character in place and leaves no capital letter |
| Text.LowerIdempotent | src/app/menu/page.tsx:51-52 | Lower-casing twice is the same as lower-casing once |
| Text.IncludesHasOccurrence | src/app/menu/page.tsx:51-52 | If `includes` holds, the needle occurs at some position of the text |
| Text.OccurrenceIncluded | src/app/menu/page.tsx:51-52 | If the needle occurs at some position, `includes` holds |
| Text.IncludesIff | src/app/menu/page.tsx:51-52 | `includes` holds exactly when the needle occurs at some position |
| MenuFilter.FilterMenu | src/app/menu/page.tsx:49-59 | The filtered menu is an order-preserving sub-list of the catalog holding exactly the matching entries with their multiplicities; a chosen spice level and the vegetarian switch hold for every entry shown |
| MenuFilter.EmptySearchMatchesAll | src/app/menu/page.tsx:51-52 | With empty search text, only the category, spice and vegetarian tests decide what is shown |
| MenuFilter.ClearedShowsWholeCatalog | src/app/menu/page.tsx:359-364 | After "Clear All Filters" the page shows the whole catalog in catalog order |
| MenuFilter.FilterMenuIdempotent | src/app/menu/page.tsx:49-59 | Filtering the filtered list again with the same state changes nothing |
| MenuFilter.VegOnlyNarrows | src/app/menu/page.tsx:55 | Turning on "vegetarian only" shows an order-preserving sub-list of what was shown without it |
| MenuFilter.SearchCaseInsensitive | src/app/menu/page.tsx:51-52 | A search text and its lower-cased form show the same entries |
| MenuFilter.MatchesSearchIff | src/app/menu/page.tsx:51-52 | An entry passes the search exactly when the lowered query occurs at some position of the lowered name or description |
| MenuFilter.ChoicesComplete | src/app/menu/page.tsx:27-46 | The category and spice button lists start with "All" and offer every category and every spice level |
| CartStore.IncrementWhere | src/store/cartStore.ts:34-39 | The increment `map` gives each line that passes the test one more unit and a total re-derived from its own unit price, and leaves every other line as it was |
| CartStore.IncrementWhereWellFormed | src/store/cartStore.ts:34-39 | The increment `map` keeps every line at quantity ≥ 1 with total = unit price × quantity |
| CartStore.AddItem | src/store/cartStore.ts:23-53 | Without a matching (id, spice, customizations) line, addItem appends a one-unit line at the unit price. With one, it keeps the length and increments exactly the lines of the same id and spice level. The drawer flag is kept and consistent lines stay consistent |
| CartStore.RemoveItem | src/store/cartStore.ts:55-59 | removeItem keeps exactly the lines of other ids, with their multiplicities and in order. An absent id leaves the cart unchanged. The drawer flag is kept and consistency is preserved |
| CartStore.UpdateQuantity | src/store/cartStore.ts:61-73 | A quantity ≤ 0 is removeItem. Otherwise every line of that id gets the new quantity and a re-derived total, and every other line is unchanged. Consistency is preserved |
| CartStore.ClearCart | src/store/cartStore.ts:75 | clearCart empties the lines, keeps the drawer flag, and both totals become 0 |
| CartStore.ToggleCart | src/store/cartStore.ts:77 | toggleCart flips the drawer flag and leaves the lines alone |
| CartStore.GetTotalPrice | src/store/cartStore.ts:79-81 | The `reduce` loop returns the sum of the lines' totals, and 0 for an empty cart |
| CartStore.GetTotalItems | src/store/cartStore.ts:83-85 | The `reduce` loop returns the sum of the lines' quantities, and 0 for an empty cart |
| CartStore.Apply | src/store/cartStore.ts:23-77 | Every store action keeps a consistent cart consistent |
| CartStore.RunPreservesWellFormed | src/store/cartStore.ts:23-77 | Any sequence of store actions keeps a consistent cart consistent |
| CartStore.ReachableCartsWellFormed | src/store/cartStore.ts:20-77 | Starting from the empty cart, every reachable line has quantity ≥ 1 and total = unit price × quantity |
| CartStore.AddItemFreshId | src/store/cartStore.ts:43-51 | Adding an id the cart does not hold appends one line of one unit at the unit price |
| CartStore.AddItemOntoOwnLine | src/store/cartStore.ts:25-40 | When the only line of the item's id is the last one and has the same selection, addItem increments just that line |
| CartStore.MergedLine | src/store/cartStore.ts:34-49 | The line built by repeated adds keeps the item, spice level and customizations it was created with |
| CartStore.MergedLineShape | src/store/cartStore.ts:37-48 | The line built by n adds has quantity n and total n × unit price |
| CartStore.RepeatedAddBuildsLine | src/store/cartStore.ts:23-53 | n identical adds of a fresh id leave the old lines followed by the single merged line |
| CartStore.RepeatedAddStep | src/store/cartStore.ts:32-40 | One more identical add after n − 1 of them increments the merged line |
| CartStore.RepeatedAddMerges | src/store/cartStore.ts:23-53 | n identical adds of a fresh id leave exactly one new line, at the end, with quantity n and total n × unit price |
| CartStore.RepeatedAddTotals | src/store/cartStore.ts:79-85 | n identical adds of a fresh id raise getTotalItems by n and getTotalPrice by n × unit price |
| CartStore.UpdateQuantityIdempotent | src/store/cartStore.ts:61-73 | Applying the same updateQuantity twice is the same as applying it once |
| CartStore.ToggleCartInvolution | src/store/cartStore.ts:77 | Toggling the drawer twice restores the cart |
| CartStore.TotalPriceIsPriceTimesQuantity | src/store/cartStore.ts:79-81 | On a consistent cart, getTotalPrice is the sum over lines of unit price × quantity |
| CartStore.TotalItemsAtLeastLines | src/store/cartStore.ts:83-85 | On a consistent cart, getTotalItems is at least the number of lines |
| CartStore.AddItemNewLineTotals | src/store/cartStore.ts:43-51 | An add that opens a new line raises getTotalItems by 1 and getTotalPrice by the unit price |
| CartStore.BumpedQuantities | src/store/cartStore.ts:34-39 | If exactly the lines passing a test gain one unit, the quantity sum grows by the number of such lines |
| CartStore.AddItemMatchTotals | src/store/cartStore.ts:32-40 | An add that finds a match raises getTotalItems by the number of lines with that id and spice level |
| CartStore.AddItemBumpsSiblingVariant | src/store/cartStore.ts:34-38 | As written, an add that finds a match also increments a line of the same id and spice but other customizations, so getTotalItems grows by at least 2 |
| CartStore.AddItemExact | src/store/cartStore.ts:25-40 | The corrected addItem increments exactly the lines with the found key and otherwise appends a one-unit line. The drawer flag is kept and consistency is preserved |
| CartStore.AddItemExactKeepsKeysUnique | src/store/cartStore.ts:25-51 | The corrected addItem never creates two lines with the same (id, spice, customizations) key |
| CartStore.UniqueKeyMatchesOnce | src/store/cartStore.ts:25-30 | With unique keys, at most one line matches a key |
| CartStore.AddItemExactAddsOneUnit | src/store/cartStore.ts:23-53 | With unique keys, each corrected add raises getTotalItems by exactly 1 |
| ProductModal.HeatSpice | src/components/menu/ProductModal.tsx:18-25 | Every heat button's name is a spice level name, so the cast to a spice level is well defined |
| ProductModal.CalculateTotal | src/components/menu/ProductModal.tsx:52-59 | The displayed total is (unit price + prices of the known selected sides) × quantity |
| ProductModal.PricedSides | src/components/menu/ProductModal.tsx:54-57 | The loop over the selected sides adds each known side's price × quantity and skips unknown ids |
| ProductModal.DisplayedTotalSplit | src/components/menu/ProductModal.tsx:52-58 | The displayed total is unit price × quantity plus sides' price × quantity |
| ProductModal.UnknownSideAddsNothing | src/components/menu/ProductModal.tsx:54-56 | A selected id missing from the side table adds nothing to the displayed total |
| ProductModal.PushEntries | src/components/menu/ProductModal.tsx:65-74 | A `forEach`/`push` loop appends, in order, the label of every id its table knows |
| ProductModal.BuildCustomizations | src/components/menu/ProductModal.tsx:62-79 | The built list is the side labels in selection order, then the sauce labels, then the note if it is non-empty |
| ProductModal.KnownSelectionsListed | src/components/menu/ProductModal.tsx:62-79 | When every selected id is known, the list has one entry per side, one per sauce and one for a non-empty note, each at its position in selection order |
| ProductModal.LabelsNameEntries | src/components/menu/ProductModal.tsx:65-74 | A side or sauce gets a label exactly when its table knows it, and the label is "Side: " or "Sauce: " followed by its name |
| ProductModal.DecreaseQuantity | src/components/menu/ProductModal.tsx:290 | The minus button never goes below 1: from q ≥ 2 it gives q − 1, and from q ≤ 1 it gives 1 |
| ProductModal.IncreaseQuantity | src/components/menu/ProductModal.tsx:299 | The plus button raises the quantity |
| ProductModal.DecreaseUndoesIncrease | src/components/menu/ProductModal.tsx:290-299 | For any quantity ≥ 1, minus after plus restores it |
| ProductModal.Toggle | src/components/menu/ProductModal.tsx:96-106 | Toggling drops a selected id, keeping the order of the rest, and appends an unselected one. Other ids are untouched and a duplicate-free selection stays duplicate-free |
| ProductModal.ToggleTwiceRestores | src/components/menu/ProductModal.tsx:96-100 | Toggling an unselected id twice restores the selection |
| ProductModal.Step | src/components/menu/ProductModal.tsx:166-299 | Each click keeps the dialog valid: quantity ≥ 1, heat index in range, no id selected twice, every selected id a row of its table. Side and sauce clicks pass a table id, because the buttons are rendered from the tables |
| ProductModal.RunModalStaysValid | src/components/menu/ProductModal.tsx:166-299 | Any sequence of clicks keeps a valid dialog valid |
| ProductModal.InitialModalValid | src/components/menu/ProductModal.tsx:44-48 | The opening state is valid |
| ProductModal.ReachableModalsValid | src/components/menu/ProductModal.tsx:44-106 | Every dialog state reachable from the opening state is valid |
| ProductModal.TableIdsListed | src/components/menu/ProductModal.tsx:62-74 | When every selected id is a table row, each selected side and sauce has its label in the list, at its position in selection order |
| ProductModal.ReachableDialogsListEverySelection | src/components/menu/ProductModal.tsx:62-74 | In every dialog the user can reach, the list names each selected side, then each selected sauce, in selection order |
| ProductModal.AddRepeatedly | src/components/menu/ProductModal.tsx:82-84 | The add loop performs max(quantity, 0) identical addItem calls |
| ProductModal.HandleAddToCart | src/components/menu/ProductModal.tsx:61-94 | handleAddToCart makes max(quantity, 0) identical addItem calls with the chosen heat and the built list, then resets the dialog. A quantity ≤ 0 leaves the cart unchanged. For a fresh id, one line with the whole quantity is appended |
| ProductModal.CartTotalOmitsSides | src/components/menu/ProductModal.tsx:52-84 | For a fresh id, the cart total grows by the displayed total minus the sides' price × quantity |

## Left out

- Persistence: the store's `persist` wrapper and its storage key (`src/store/cartStore.ts:18`, `:87-89`). These are browser storage I/O.
- Presentation: rendering, animations, opening and closing the dialog (`src/app/menu/page.tsx:61-69`), the `onAddToCart`/`onClose` callbacks, toasts and the filter panel's show/hide flag.
- The catalog data (`menuItems`) and `formatPrice` are not part of this model. The catalog is an arbitrary input list.
- Floating point: JavaScript numbers are modelled as unbounded integers.
- Text.Lower: lowers ASCII capitals only, because Unicode case mapping is not modelled.
- ProductModal.IncreaseQuantity: its contract says only that the quantity grows. The exact step is pinned down by DecreaseUndoesIncrease.
- Seqs.FilterMap: its contract states membership in both directions but not order. Order is stated through FilterMapAppend, KnownSelectionsListed and ReachableDialogsListEverySelection.
- CartStore.RepeatedAddMerges: has a closed form only for an id the cart does not yet hold. For other carts, each call is described by AddItem's contract.
- ProductModal.HandleAddToCart: its closed form for the appended line requires an id the cart does not yet hold. In general it is stated as the sequence of addItem calls.
- ProductModal.CartTotalOmitsSides: stated only for an id the cart does not yet hold.
- ProductModal.KnownSelectionsListed: assumes every selected id is in its table. Every reachable dialog meets this (ReachableDialogsListEverySelection). For other selections, unknown ids are simply dropped (LabelsNameEntries, PushEntries).

## Findings

| source | as written | input that shows it | evidently intended | confidence | as-written member | corrected member |
|---|---|---|---|---|---|---|
| src/store/cartStore.ts:34-38 | Once `find` matches a line on (id, spice, customizations), the `map` increments every line with the same id and spice, whatever its customizations | A cart holding item "1" at Medium twice, once with `["Side: Coleslaw"]` and once with `[]`; then `addItem(item1, "Medium", [])` raises both lines, so one add adds two units | Increment only the line(s) with the full matched key, so that each add adds one unit | not executed | CartStore.AddItemBumpsSiblingVariant | CartStore.AddItemExactAddsOneUnit |
