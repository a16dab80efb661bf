# Storefront cart, catalog and sheet sync: a Dafny model

The storefront sells a catalog of products kept in a Google Sheet. This project models the logic at its core and proves what that logic promises:

- **Cart store.** A cart holds lines keyed by (product id, size, color).
  - `addToCart` merges a line into the existing line with the same key, or appends it.
  - `removeFromCart` drops every line with an id.
  - `toggleCart` flips the drawer.
  - `cartCount` is the sum of the quantities.
  - The drawer shows the subtotal of price × quantity.
  - On load, the cart restores the saved lines.
- **Catalog ingestion.** The published sheet is fetched as CSV.
  - Rows without an id or a name are dropped.
  - Each kept row becomes a product. Its sizes and colors cells are split on commas, without trimming. Its price is whatever `parseFloat` gives, NaN included. Its images column is never read.
  - A placeholder URL, a failed fetch, a non-ok status, a parse error or an empty result all give the bundled ten-product catalog. The storefront never sees an empty catalog.
- **Sheet sync.** The operator edits the sheet through the Sheets API.
  - An access token is set by the consent callback. Every call requires it.
  - A product is encoded as a fixed nine-column row, A to I.
  - `findRowIndex` scans column A for the first row with the id. It returns a 0-based index, or -1. A non-ok answer reads as an empty column, so it also gives -1.
  - `appendRow` adds a row. `updateRow` writes columns A..I of the 1-based row `index + 1`. `deleteRow` always refuses.
  - A field that `JSON.stringify` sends as `null` is skipped by the store. That covers a NaN price, an absent description, and absent sizes or colors. An update leaves such a cell as it was; an append leaves it empty.
- **Admin save (`handleSave`).**
  - It first checks that the operator is authorised and that a spreadsheet id is configured.
  - Editing a product means locate-then-overwrite. Adding a product means append.
  - Only after the remote write succeeds is the local product list updated, by replacing the product or appending it. A failed call is reported and changes neither the list nor the sheet.
- **Product editor form.**
  - Opening the editor resets the form.
  - The image gallery holds at most five links, and its first entry is the primary image.
  - The sizes and colors fields are comma lists: split, trim each piece, drop the empty ones.
  - The product handed to the dashboard on submit keeps the edited product's id, or gets a fresh one. Its image is the first gallery entry when that is non-empty, else the primary image, else `''`.

Modules:
- `Types`: the product and cart-line records, and a JavaScript number used as a price (cents, or NaN).
- `Text`: `split`, `join`, `trim` and `includes` on strings.
- `Cart`: the cart functions, and the `CartStore` class holding `items` and `isOpen`.
- `Catalog`: the ingestion pipeline, as functions of the feed response.
- `SheetsAdmin`:
  - the row codec and the column-A scan;
  - the `Spreadsheet` class, whose rows the remote calls change;
  - the `AdminSession` class, which holds the module-level token state.
- `Dashboard`: the `AdminDashboard` class and `HandleSave`.
- `ProductEditor`: the form rules, and the `ProductEditorForm` class.

The network, the CSV tokenizer, `parseFloat`, `JSON.parse` and `crypto.randomUUID` are not modelled as code. Each answer they give is a parameter:
- a `RemoteResponse` or `FeedResponse` value;
- a `parse`, `parsePrice` or `decode` function;
- a `freshId` string.

The main results:
- **The admin codec and the catalog agree.** A row appended by `appendRow` is read back by the storefront as the same product, minus its gallery, when:
  - its id and name are non-empty;
  - its price text parses back to the same price;
  - its sizes, colors and description are present;
  - no size or color holds a comma, and neither list is the single empty item `[""]`.

  This is `PublishedRowRoundTrip`.
- **The comma-list fields round-trip for clean lists.** A list shown in the field (`items.join(', ')`) parses back to itself when every item is non-empty, trimmed and comma-free (`ParseListRoundTrip`). Every list the parser itself produces is clean, so parsing twice is the same as parsing once (`ParseListStable`). A list ingested from the catalog need not be clean: shown and parsed, it comes back with its items trimmed and its empty items dropped.
- **Locate-then-write is safe.** It changes only the located row, and a second lookup finds that same row.
- **Appends are not deduplicated.** A product whose id is already on the sheet gets a second row, and the older row shadows it.
- **The header row is scanned.** The header row is scanned along with the data. A product whose id is the text `id` is therefore located at the header row, and an update of it would overwrite the header.
- **The cart keeps at most one line per key.** Under that invariant, `addToCart` raises `cartCount` by exactly the quantity added. `removeFromCart` lowers it by exactly the quantities removed.
- **The subtotal is NaN exactly when some price is NaN.** Otherwise it is the integer sum of price × quantity in cents.

The catalog does not trim the pieces of a sizes or colors cell, and it keeps a product whose price is not a number. Both follow the code. A reader might expect the pieces to be trimmed, as the editor's fields do, and rows without a usable price to be dropped; the code does neither.

## Model

| member | source | states |
|---|---|---|
| Types.Plus | src/components/cart/CartDrawer.tsx:25 | a sum is NaN iff either operand is NaN; otherwise the amounts add |
| Types.Times | src/components/cart/CartDrawer.tsx:25 | a price × quantity is NaN iff the price is; otherwise the amount is scaled by the quantity |
| Text.Split | src/services/googleSheets.ts:115-116 | `split(',')` gives at least one piece, and no piece holds the separator |
| Text.SplitCount | src/services/googleSheets.ts:115-116 | a split gives one more piece than the text has separators |
| Text.JoinSplit | src/services/googleSheets.ts:115-116 | joining the pieces of a split with the separator gives back the original text |
| Text.SplitJoin | src/services/googleSheetsAdmin.ts:147-149 | splitting a join of separator-free pieces gives back the pieces |
| Text.Join | src/services/googleSheetsAdmin.ts:147-149 | `join(sep)` starts with the first item and is that item alone for a one-item list; `Text.JoinSplit` and `Text.SplitJoin` give its inverse |
| Text.Trim | src/pages/Admin/ProductEditor.tsx:191 | `trim()` leaves no white space at either end and introduces no character |
| Text.TrimPadded | src/pages/Admin/ProductEditor.tsx:190-191 | a trimmed text is unchanged by `trim`, also behind the space that `join(', ')` adds |
| Text.Contains | src/services/googleSheets.ts:94 | `includes(sub)` is true iff `sub` occurs at some index of the text |
| Cart.FindLine | src/context/CartContext.tsx:33-35 | `find` gives nothing iff no line has the key; otherwise it gives the first line with the key |
| Cart.IncrementMatching | src/context/CartContext.tsx:38-42 | the map raises every line with the key by the quantity and leaves every other line as it was |
| Cart.AddLine | src/context/CartContext.tsx:31-46 | after an add some line carries the added key; the cart grows by one line iff no line had that key before, and otherwise keeps its length (the contents are `Cart.AddMerges` and `Cart.AddAppends`) |
| Cart.RemoveLines | src/context/CartContext.tsx:51 | the filter keeps exactly the lines whose id differs from the removed id |
| Cart.TotalQuantity | src/context/CartContext.tsx:56 | when every line holds at least one unit, `cartCount` is at least the number of lines; its additivity and its change under add and remove are `Cart.TotalQuantityConcat`, `Cart.AddLineCount` and `Cart.RemoveLinesCount` |
| Cart.Subtotal | src/components/cart/CartDrawer.tsx:25 | a numeric subtotal means no line's price is NaN; the converse and the sum in cents are `Cart.SubtotalSum` |
| Cart.InitialItems | src/context/CartContext.tsx:16-23 | no saved cart, an empty one or one that does not decode gives an empty cart; a decoded save is restored |
| Cart.AddMerges | src/context/CartContext.tsx:37-42 | adding an existing key keeps the length and raises exactly the matching lines by the quantity |
| Cart.AddAppends | src/context/CartContext.tsx:45 | adding a new key appends exactly one line at the end and keeps the earlier lines |
| Cart.AddKeepsKeysUnique | src/context/CartContext.tsx:30-46 | `addToCart` preserves at most one line per (id, size, color) |
| Cart.AddTwice | src/context/CartContext.tsx:30-46 | adding the same key twice leaves one line with the summed quantity and the first product's fields |
| Cart.RemoveConcat | src/context/CartContext.tsx:51 | removal distributes over concatenation, keeping the survivors' order |
| Cart.RemoveAllVariants | src/context/CartContext.tsx:51 | after removal, no line with the id remains, whatever its size or color |
| Cart.RemoveKeepsKeysUnique | src/context/CartContext.tsx:51 | removal preserves at most one line per key |
| Cart.RemoveTwice | src/context/CartContext.tsx:51 | removal is idempotent |
| Cart.TotalQuantityConcat | src/context/CartContext.tsx:56 | `cartCount` is additive over concatenation |
| Cart.AddLineCount | src/context/CartContext.tsx:30-56 | `cartCount` after an add grows by the quantity times the number of merged lines, or by the quantity for an appended line |
| Cart.IncrementCount | src/context/CartContext.tsx:38-56 | the map raises `cartCount` by the quantity times the number of matching lines |
| Cart.UniqueCountsOne | src/context/CartContext.tsx:33-42 | with unique keys, at most one line matches, and exactly one when the key is present |
| Cart.RemoveLinesCount | src/context/CartContext.tsx:50-56 | `cartCount` after removal drops by exactly the quantities of the removed lines |
| Cart.SubtotalSum | src/components/cart/CartDrawer.tsx:25 | the subtotal is NaN iff some line's price is NaN, and otherwise the sum of price × quantity in cents |
| Cart.MergeThenRemoveExample | src/context/CartContext.tsx:30-52 | adding product "1" at 10.00 with 2 then 3 gives one line of 5 and a subtotal of 50.00; removing "1" empties the cart |
| Cart.CartStore.constructor | src/context/CartContext.tsx:16-24 | the cart starts with the restored lines, and the drawer closed |
| Cart.CartStore.AddToCart | src/context/CartContext.tsx:30-48 | the new lines are the merge-or-append of the old; the drawer is open; unique keys are kept, and the count grows by the quantity |
| Cart.CartStore.RemoveFromCart | src/context/CartContext.tsx:50-52 | the new lines are the old ones filtered by id; the drawer is unchanged; unique keys are kept; the count drops by the removed quantities |
| Cart.CartStore.ToggleCart | src/context/CartContext.tsx:54 | the drawer flag flips and the lines are unchanged |
| Catalog.MockProducts | src/services/googleSheets.ts:7-89 | the bundled catalog has ten products with ids "1".."10", all distinct and all named |
| Catalog.SplitCell | src/services/googleSheets.ts:115-116 | an empty cell gives no items; otherwise the comma-free pieces, untrimmed, join back to the cell |
| Catalog.RecordOfRow | src/services/googleSheets.ts:104-105 | with `header: true`, a row of at least nine cells gives the fields id, name, price, category, image, images, sizes, colors and description from its first nine cells, in that order |
| Catalog.Keep | src/services/googleSheets.ts:108 | a row is kept iff its id and its name are non-empty; `Catalog.KeptRows` states the filter over a whole feed |
| Catalog.ToProduct | src/services/googleSheets.ts:109-118 | a kept row's id, name, category, image and description pass through, the price is `parseFloat` of its cell, the gallery is absent, and sizes and colors are comma-free lists that join back to their cells |
| Catalog.KeptRows | src/services/googleSheets.ts:107-108 | a row is kept iff it has a non-empty id and a non-empty name |
| Catalog.MapRows | src/services/googleSheets.ts:109-118 | each kept row becomes one product, in order |
| Catalog.ProductsOf | src/services/googleSheets.ts:107-118 | the parsed rows give at most one product each, and every product has a non-empty id and name |
| Catalog.FetchProducts | src/services/googleSheets.ts:91-139 | the catalog is never empty; it is either the bundled one or exactly the products of the parsed rows |
| Catalog.KeptRowsConcat | src/services/googleSheets.ts:107-108 | the row filter keeps feed order |
| Catalog.IngestedFields | src/services/googleSheets.ts:109-118 | a kept row's id, name, category, image and description pass through; the price is the parser's (NaN included); the lists split without trimming; the images column is not read |
| Catalog.FailuresFallBack | src/services/googleSheets.ts:99-138 | an unreachable feed, a non-ok status or a parse error gives the bundled catalog |
| Catalog.PlaceholderFallsBack | src/services/googleSheets.ts:94-96 | a placeholder URL gives the bundled catalog, whatever the response |
| Catalog.ParsedFeed | src/services/googleSheets.ts:106-126 | a parsed feed gives its kept rows' products in order, or the bundled catalog when it has none |
| Catalog.FetchedProductsNamed | src/services/googleSheets.ts:107-126 | every product the storefront receives has a non-empty id and name |
| SheetsAdmin.EncodeRow | src/services/googleSheetsAdmin.ts:140-152 | a row has nine cells, A..I: id, name, category and image as given; the price skipped iff NaN; the gallery `''` when absent; sizes and colors skipped iff absent; the description as given or skipped. The gallery, sizes and colors split back to the lists under `CellSafe` (no item holds a comma and the list is not `[""]`) |
| SheetsAdmin.PriceCell | src/services/googleSheetsAdmin.ts:145 | the price cell is skipped (`null`) iff the price is NaN |
| SheetsAdmin.PriceCellWhole | src/services/googleSheetsAdmin.ts:145 | a whole amount is written as its digits with no fraction |
| SheetsAdmin.PriceCellFraction | src/services/googleSheetsAdmin.ts:145 | an amount with cents is written as the whole digits, a point, the tenths digit and the hundredths digit unless it is zero |
| SheetsAdmin.PriceCellNegative | src/services/googleSheetsAdmin.ts:145 | a negative amount is written as a minus sign before its magnitude's text |
| SheetsAdmin.PriceCellExample | src/services/googleSheetsAdmin.ts:145 | a price of 249 is written as `249` |
| SheetsAdmin.ImagesCell | src/services/googleSheetsAdmin.ts:147 | the images cell is always sent, and is `''` when the gallery is absent |
| SheetsAdmin.ListCell | src/services/googleSheetsAdmin.ts:148-149 | a sizes or colors cell is skipped iff the list is absent |
| SheetsAdmin.Filled | src/services/googleSheetsAdmin.ts:154-163 | the row an append creates has one cell per value sent, a skipped value leaving its cell empty |
| SheetsAdmin.ListCellRoundTrip | src/services/googleSheetsAdmin.ts:147-149 | a comma-free list, other than `[""]`, joined into a cell is split back to itself by the catalog |
| SheetsAdmin.PublishedRowRoundTrip | src/services/googleSheetsAdmin.ts:140-152 | under `SheetSafe`, a row the admin appends is ingested by the catalog as the same product, without its gallery; this assumes the sheet's header row is `id,name,price,category,image,images,sizes,colors,description` |
| SheetsAdmin.FindIndex | src/services/googleSheetsAdmin.ts:183-185 | `findIndex` is -1 iff no row has the id in column A; otherwise it is the first such row's 0-based index |
| SheetsAdmin.RowHasId | src/services/googleSheetsAdmin.ts:185 | a row of the column-A read matches iff its first cell is the id; an empty row never matches. `SheetsAdmin.FindIndex` states the scan |
| SheetsAdmin.MergeRow | src/services/googleSheetsAdmin.ts:192-214 | a write of A..I replaces each sent cell, keeps each skipped (`null`) cell, and keeps any cells past column I |
| SheetsAdmin.WriteRow | src/services/googleSheetsAdmin.ts:190-206 | a write changes only the addressed row, and creates empty rows up to it when the sheet is shorter |
| SheetsAdmin.RangeText | src/services/googleSheetsAdmin.ts:190 | the range starts `Sheet1!A`, and its row number is 0 or negative iff the index is negative |
| SheetsAdmin.LocateThenWrite | src/services/googleSheetsAdmin.ts:175-204 | overwriting the located row changes only that row, keeps the sheet's length and the id in column A, and a second lookup finds the same row |
| SheetsAdmin.SkippedCellsKept | src/services/googleSheetsAdmin.ts:192-214 | an update writes id, name, category and image; it keeps the old price cell for a NaN price, and the old description, sizes or colors cell when that field is absent; an absent gallery clears column F |
| SheetsAdmin.AppendedNaNPriceEmpty | src/services/googleSheetsAdmin.ts:140-163 | an appended product with a NaN price gets an empty price cell |
| SheetsAdmin.DuplicateAppendShadowed | src/services/googleSheetsAdmin.ts:137-185 | appending an id already on the sheet adds a second row with it, and lookups still find the first |
| SheetsAdmin.AppendThenLocate | src/services/googleSheetsAdmin.ts:137-185 | appending a new id makes the new last row the one a lookup finds |
| SheetsAdmin.HeaderRowScanned | src/services/googleSheetsAdmin.ts:183-185 | the header row is scanned, so the id "id" is located at index 0 |
| SheetsAdmin.LocateExample | src/services/googleSheetsAdmin.ts:185-190 | id "7" in the third row after the header is at index 2, written to range `Sheet1!A3:I3` |
| SheetsAdmin.Spreadsheet.Append | src/services/googleSheetsAdmin.ts:154 | the append endpoint adds one row after the last, with skipped cells left empty |
| SheetsAdmin.Spreadsheet.WriteRange | src/services/googleSheetsAdmin.ts:206 | a PUT to a 1-based range writes the row with index `rowNumber - 1` |
| SheetsAdmin.AdminSession.constructor | src/services/googleSheetsAdmin.ts:4-5 | page load has no token client and no token |
| SheetsAdmin.AdminSession.HasToken | src/services/googleSheetsAdmin.ts:36 | `!accessToken` is false iff a non-empty token is held; every call fails with `NoAccessToken` exactly when it is false |
| SheetsAdmin.AdminSession.InitGoogleAuth | src/services/googleSheetsAdmin.ts:10-23 | the client is created only when the Google script is loaded; the token is untouched |
| SheetsAdmin.AdminSession.RequestAccessToken | src/services/googleSheetsAdmin.ts:25-31 | consent starts iff the client exists |
| SheetsAdmin.AdminSession.OnTokenResponse | src/services/googleSheetsAdmin.ts:16-20 | a non-empty `access_token` replaces the token and is passed on; any other response changes nothing |
| SheetsAdmin.AdminSession.AppendRow | src/services/googleSheetsAdmin.ts:137-171 | without a token it fails; otherwise the store's answer decides; only success appends the encoded row |
| SheetsAdmin.AdminSession.FindRowIndex | src/services/googleSheetsAdmin.ts:175-186 | without a token it fails; an unreachable store is an error; a non-ok answer gives -1; an ok answer gives the first matching 0-based index |
| SheetsAdmin.AdminSession.UpdateRow | src/services/googleSheetsAdmin.ts:188-222 | without a token it fails; otherwise the store's answer decides the outcome, whatever the index. When the store accepts a non-negative index, exactly the encoded row is written at that index. A negative index addresses no row of the sheet, so nothing is written. On failure the sheet is unchanged |
| SheetsAdmin.AdminSession.DeleteRow | src/services/googleSheetsAdmin.ts:224-231 | it always fails: without a token, as unauthorised, and otherwise as unsupported |
| Dashboard.ReplaceById | src/pages/Admin/Dashboard.tsx:70 | every local product with the saved id is replaced; every other product is kept in place |
| Dashboard.ReplaceByIdIdempotent | src/pages/Admin/Dashboard.tsx:70 | replacing twice is replacing once, and afterwards every entry with the id is the saved product |
| Dashboard.AdminDashboard.constructor | src/pages/Admin/Dashboard.tsx:9-27 | the dashboard starts with an empty list, the saved sheet id or '', not authorised, and the editor closed |
| Dashboard.AdminDashboard.Mount | src/pages/Admin/Dashboard.tsx:18-24 | mounting creates the token client when the script is loaded, and leaves the token as it was |
| Dashboard.AdminDashboard.SeedProducts | src/pages/Admin/Dashboard.tsx:14-16 | a non-empty fetched catalog replaces the local list; an empty one leaves it; the authorisation invariant `Valid()` is kept |
| Dashboard.AdminDashboard.OnTokenResponse | src/pages/Admin/Dashboard.tsx:20-23 | a delivered non-empty token is stored in the session and marks the dashboard authorised; any other response leaves both as they were; the client stays ready |
| Dashboard.AdminDashboard.HandleAddStart | src/pages/Admin/Dashboard.tsx:39-42 | the editor opens with no product; the authorisation invariant `Valid()` is kept |
| Dashboard.AdminDashboard.HandleEditStart | src/pages/Admin/Dashboard.tsx:44-47 | the editor opens on the given product; the authorisation invariant `Valid()` is kept |
| Dashboard.AdminDashboard.HandleSaveSheetId | src/pages/Admin/Dashboard.tsx:31-37 | a non-empty answer becomes the spreadsheet id; otherwise the id is kept; the authorisation invariant `Valid()` is kept |
| Dashboard.AdminDashboard.HandleSave | src/pages/Admin/Dashboard.tsx:49-75 | without authorisation, or without a sheet id, nothing remote happens; for an edit, each answer of the locate and the write fixes the outcome (network error, not found, store error, updated); for an add, the write's answer does; the list and the sheet change only on `Updated` or `Added`, which need accepted writes, and then change to exactly the replaced or appended product and row |
| ProductEditor.ResetForm | src/pages/Admin/ProductEditor.tsx:23-37 | a new product's form is empty, in category 'Women', with empty lists; an edited product's form carries every one of its fields |
| ProductEditor.OpenThenSubmit | src/pages/Admin/ProductEditor.tsx:23-52 | opening on a product with an id and an image whose gallery starts with that image, and submitting it untouched, hands back that product; a new product gets the fresh id and the empty form's fields |
| ProductEditor.RemoveAt | src/pages/Admin/ProductEditor.tsx:67 | the filter drops exactly the entry at the index, keeping the rest in order, and is a no-op for an index out of range |
| ProductEditor.AddImage | src/pages/Admin/ProductEditor.tsx:54-63 | the gallery gains the link iff it is non-empty and there are fewer than five images, and never grows past five; the full effect is `ProductEditor.AddImageEffect` |
| ProductEditor.RemoveImage | src/pages/Admin/ProductEditor.tsx:65-73 | the gallery loses one entry iff the index is in range, and the primary image is then its first entry, or `''` |
| ProductEditor.SubmitProduct | src/pages/Admin/ProductEditor.tsx:41-52 | the submitted product has the form's name, price, category, gallery, sizes, colors and description; it has an id whenever the fresh id is non-empty; its image is `''`, a gallery entry or the form's image |
| ProductEditor.TrimAll | src/pages/Admin/ProductEditor.tsx:191 | each piece is trimmed, in place |
| ProductEditor.DropEmpty | src/pages/Admin/ProductEditor.tsx:191 | `filter(Boolean)` keeps exactly the non-empty pieces |
| ProductEditor.DropEmptyConcat | src/pages/Admin/ProductEditor.tsx:191 | the filter distributes over concatenation, so it keeps order and duplicates |
| ProductEditor.DuplicatesKept | src/pages/Admin/ProductEditor.tsx:191 | a field reading `x, x` gives the item `x` twice |
| ProductEditor.ParseList | src/pages/Admin/ProductEditor.tsx:191 | every parsed item is non-empty, trimmed and comma-free |
| ProductEditor.ParseListRoundTrip | src/pages/Admin/ProductEditor.tsx:190-191 | a list whose items are all non-empty, trimmed and comma-free, shown as `join(', ')`, parses back to itself |
| ProductEditor.ParseListStable | src/pages/Admin/ProductEditor.tsx:190-191 | showing and re-parsing the parser's output changes nothing |
| ProductEditor.AddImageEffect | src/pages/Admin/ProductEditor.tsx:54-63 | an empty link or a full gallery leaves the form alone; otherwise the link is appended, and it becomes primary only in an empty gallery |
| ProductEditor.AddImageBound | src/pages/Admin/ProductEditor.tsx:57 | the gallery never grows past five |
| ProductEditor.AddImageKeepsPrimary | src/pages/Admin/ProductEditor.tsx:54-63 | adding keeps "the primary image is the first gallery entry" |
| ProductEditor.RemoveImageEffect | src/pages/Admin/ProductEditor.tsx:65-73 | removal drops exactly the indexed entry, and the primary image becomes the new first entry, or '' |
| ProductEditor.SubmitImage | src/pages/Admin/ProductEditor.tsx:41-52 | the submitted image is the first gallery entry when there is one, else the primary image or ''; the id is the edited product's, else the fresh one |
| ProductEditor.ProductEditorForm.constructor | src/pages/Admin/ProductEditor.tsx:23-37 | opening the editor runs the reset for the given product |
| ProductEditor.ProductEditorForm.Reset | src/pages/Admin/ProductEditor.tsx:23-37 | the form becomes the reset form of the product |
| ProductEditor.ProductEditorForm.HandleAddImage | src/pages/Admin/ProductEditor.tsx:54-63 | the form is updated by the add rule, keeping the five-image bound and the primary-image invariant |
| ProductEditor.ProductEditorForm.HandleRemoveImage | src/pages/Admin/ProductEditor.tsx:65-73 | the form is updated by the removal rule, and the primary image follows the gallery afterwards |
| ProductEditor.ProductEditorForm.EditSizes | src/pages/Admin/ProductEditor.tsx:191 | the sizes become the parsed list of the typed text; nothing else changes |
| ProductEditor.ProductEditorForm.EditColors | src/pages/Admin/ProductEditor.tsx:201 | the colors become the parsed list of the typed text; nothing else changes |
| ProductEditor.ProductEditorForm.HandleSubmit | src/pages/Admin/ProductEditor.tsx:41-52 | the saved product is the form's product, with the id and image rules |

## Left out

- Prices: a price is an integer number of cents, or NaN. Floating-point rounding in the subtotal, amounts with more than two decimals, and Infinity are not modelled.
- `Papa.parse` is not modelled; it appears as a `parse` function parameter. Its CSV tokenising and header mapping, the 800 ms mock delay and the console messages are also not modelled.
- `fetch` and `response.text()` are not modelled; their result is a `FeedResponse` parameter.
- `parseFloat` is not modelled; it is a `parsePrice` function parameter.
- Persistence to `localStorage` is not modelled: the cart save effect and the stored spreadsheet id. Reading the saved cart is modelled, with `JSON.parse` as a `decode` function parameter.
- Text.Trim: states that the result has no white space at either end and draws its characters from the input. It does not state that the result is exactly the slice between the first and last non-white characters; the definition does that.
- Text.Split: states only that there is at least one piece and that no piece holds the separator. The piece count is the separate lemma `Text.SplitCount`, and that the pieces join back to the text is `Text.JoinSplit`.
- Cart.CartStore.AddToCart: the count grows by exactly `quantity` only when keys were unique beforehand. The general count is `Cart.AddLineCount`.
- Catalog.FetchProducts: the feed URL is a parameter. The configured `SHEET_CSV_URL` does not contain `PLACEHOLDER`, but no fact about that constant is stated.
- Catalog.RecordOfRow: every row is taken to carry all nine columns. For a shorter row the CSV parser leaves the missing fields undefined; the model reads them as empty cells.
- The Google Drive helpers (folder lookup and image upload, googleSheetsAdmin.ts:35-134) are not part of this model.
- OAuth is reduced to a token callback: the consent UI, token expiry and the Google script loader are not modelled, and the script loader becomes a `googleLoaded` flag.
- The Sheets API is not modelled as a service. Its answers are `RemoteResponse` inputs. Its `USER_ENTERED` reinterpretation of cell text, and its omission of trailing empty rows and cells, are not modelled. A cell is written as text, and a `null` cell is skipped.
- Concurrency and interleaving are not modelled. Each save sees one sheet state, so the race between locating a row and writing it is out of scope.
- Dashboard.tsx beyond line 75 is not part of this model: the rest of the add path and the render. A remote failure is modelled as `Failed(error)` that leaves the local list unchanged.
- Dashboard's `alert` calls are not modelled. The `prompt` answer is an input.
- The product editor's first-render state (category '') is not modelled. The reset effect replaces it before the form is shown, and the model starts from the reset form.
- The editor's price and text inputs, `Number(formData.price)` and the drag-and-drop mock are not modelled. The price is taken from the form as it is.
- JSX, styling, routing, the header, the product card and the cart drawer's rendering are not modelled. Only the drawer's subtotal is.
