# electronics-pos in Dafny

This is a model of the logic at the heart of the electronics-pos point-of-sale system. The system is an Express/Mongoose backend with a React frontend. The model covers:

- **Sale transaction engine.** `createSale` walks the requested items in order. For each item it looks up the product, checks stock, takes the quantity and saves the product, then prices the line at the catalogue price. It then fills the four payment buckets (cash, momo, card, other) and attributes the sale to a teller and/or client by the caller's role. `getSales` is the role-scoped query over stored sales.
- **Catalogue handlers.** Create, list, get, update and delete, as operations on a map from product id to product record. The product and sale record shapes come from the Mongoose schemas.
- **Image matching.** The one-shot script's `normalize` and three-step `findBestMatch`, and the admin endpoint's simpler first-token match. Both assignment loops set a product's image and report the matches.
- **Role gates.** The server's `authorizeRoles` middleware and the browser's `ProtectedRoute`.
- **Browser carts.**
  - The teller desk's in-memory cart (add, set quantity, remove by id, total, search, checkout validation and payload, and the day's summaries).
  - The cart kept in `localStorage`, edited by the product pages, the cart page, the checkout page and the header's logout.
  - The client dashboard's response handling and slices.

Money, quantities and stock are integers in minor units. Identifiers and roles are strings. Each `save()` is an immediate update of the stored map. Time is an integer parameter `now`.

The modules, one file each:

| module | file | models |
|---|---|---|
| `Wrappers` | wrappers.dfy | Option, Result, JavaScript truthiness of a string |
| `Text` | text.dfy | toLowerCase, `\s`, trim, includes, startsWith, the two word splits |
| `Models` | models.dfy | Product and Sale records, payment-method enum, `create` validation and defaults |
| `Catalog` | catalog.dfy | product CRUD handlers |
| `ImageMatch` | image_match.dfy | `normalize`, `findBestMatch`, the endpoint's match, dot-file filter |
| `SaleEngine` | sale_engine.dfy | createSale as a specification fold: stock loop, breakdown, attribution |
| `SalesQuery` | sales_query.dfy | getSales scope and filters, as written and corrected |
| `Backend` | store.dfy | class `Store`: the createSale loop and both image-assignment loops on the stored map |
| `Access` | access.dfy | authorizeRoles and ProtectedRoute |
| `CartLines` | cart.dfy | cart lines, sums, teller cart operations, add-or-increment, splice |
| `Browser` | browser.dfy | class `Storage` (localStorage and the cart:updated count), class `CartPage`, header |
| `Checkout` | checkout.dfy | payment validity, change, breakdown sent, items sent, class `CheckoutPage` |
| `Teller` | teller.dfy | search, class `TellerDesk` checkout, day's breakdown, top products |
| `ClientDashboard` | client_dashboard.dfy | response normalisation, featured and recent slices, item counts |

The stock loop of `createSale` appears twice. `SaleEngine.ProcessItems` is a fold over the items, one `Step` per item, with the error frozen once set. `Backend.Store.CreateSale` is the loop itself, and its loop invariant ties the prefix processed so far to that fold. The image-assignment loops follow the same pattern: `Backend.AssignRun` is the fold and `Backend.Store.AssignImages` is the loop. The properties of `createSale` (order, no rollback, repeated products, pricing, totals, breakdown) are lemmas about the folds.

Step 1 of `findBestMatch` has no length filter, so a one-letter name such as "X" matches any file whose normalised name contains "x" (`ImageMatch.ShortNameExample`, `ImageMatch.FullNameAlwaysFound`). Only step 3 skips words of one or two characters.

## Model

| member | source | states |
|---|---|---|
| Text.LowerChar | backend/scripts/assignImages.js:16 | an upper-case ASCII letter becomes its own lower-case letter (code + 32); every other character is unchanged |
| Text.Lower | backend/scripts/assignImages.js:16 | lower-casing keeps the length and maps each character through LowerChar |
| Text.ContainsPrefix | backend/scripts/assignImages.js:26 | every prefix of a string that `includes` finds is found too |
| Text.Contains | backend/scripts/assignImages.js:26 | `includes`: a found string is no longer than the searched one, and one of equal length is that string |
| Text.ContainsNoWhite | backend/scripts/assignImages.js:26 | a string found inside a whitespace-free string has no whitespace |
| Text.ContainsAt | backend/scripts/assignImages.js:26 | a string occurring at some index is found by `includes` |
| Text.ContainsSomewhere | backend/scripts/assignImages.js:26 | a found string sits at some index of the searched one, so with ContainsAt `includes` holds exactly when t occurs in s |
| Text.FirstWord | backend/scripts/assignImages.js:29 | `split(/\s+/)[0]` is a whitespace-free prefix that ends at the first whitespace |
| Text.Words | backend/scripts/assignImages.js:35 | `split(/\s+/).filter(Boolean)` yields non-empty, whitespace-free words; with WordsNoneIff, WordsOfWord and WordsSplit they are exactly the maximal non-whitespace runs, left to right |
| Text.WordsNoneIff | backend/scripts/assignImages.js:35 | there are no words exactly when the string is all whitespace |
| Text.FirstWordSplit | backend/scripts/assignImages.js:29 | a whitespace character ends the first word |
| Text.WordsOfWord | backend/scripts/assignImages.js:35 | one non-empty run without whitespace is a single word |
| Text.WordsSplit | backend/scripts/assignImages.js:35 | splitting the string at a whitespace character splits the word list into the words before it followed by the words after it |
| Text.UpToSpace | backend/controllers/ProductController.js:56 | `split(' ')[0]` is the prefix before the first space and contains no space |
| Text.TrimStartShape | backend/scripts/assignImages.js:16 | trimStart drops exactly the leading whitespace: what it drops is all whitespace, and the suffix it leaves is empty or starts with non-whitespace |
| Text.TrimEndShape | backend/scripts/assignImages.js:16 | trimEnd drops exactly the trailing whitespace: what it drops is all whitespace, and the prefix it leaves is empty or ends with non-whitespace |
| Text.Trim | backend/scripts/assignImages.js:16 | trim never lengthens its input and leaves no whitespace at either end; TrimSlice gives which slice it is |
| Text.TrimSlice | backend/scripts/assignImages.js:16 | trim(s) is the slice of s between its leading and trailing whitespace: everything cut off is whitespace and the slice starts and ends with non-whitespace, so trim(" ab ") is "ab" |
| Models.NewProduct | backend/models/Product.js:9-17 | creation succeeds exactly when name is truthy and price is given; stock defaults to 0; the optional fields are kept; both timestamps are the creation time |
| Models.ParseMethod | backend/models/Sale.js:17 | exactly "cash", "momo", "card" and "other" are accepted, each as its own enum value |
| Models.ParseMethodName | backend/models/Sale.js:17 | every payment method round-trips through its name |
| Models.NewSale | backend/models/Sale.js:9-24 | the method defaults to cash; an unknown method fails validation; on success the items, teller, client and total are kept, the breakdown defaults to zeros and the date is the creation time |
| Catalog.CreateProduct | backend/controllers/ProductController.js:70-77 | stores the validated product under the new id, leaving every other product unchanged, exactly when validation succeeds; otherwise the validation error is returned |
| Catalog.GetProducts | backend/controllers/ProductController.js:80-87 | returns exactly the stored products, unfiltered |
| Catalog.GetProductById | backend/controllers/ProductController.js:90-98 | returns the stored record, or 404 "Product not found" exactly when the id is missing |
| Catalog.UpdateProduct | backend/controllers/ProductController.js:101-108 | a missing id returns null and changes nothing; otherwise each supplied field (name, price, stock, category, brand, image, description) is replaced and each absent one kept, the creation time is kept, the update time is now, and the new record is returned |
| Catalog.Patched | backend/controllers/ProductController.js:101-108 | the creation time is kept and the update time is now; a patch supplying nothing changes only the update time |
| Catalog.UpdateIdempotent | backend/controllers/ProductController.js:101-108 | sending the same update twice at the same time leaves the catalogue as the first did |
| Catalog.DeleteProduct | backend/controllers/ProductController.js:111-118 | always replies "Product deleted"; afterwards the id is absent and every other product is unchanged |
| Catalog.CreateThenGet | backend/controllers/ProductController.js:70-98 | a product just created is what a get by its id returns |
| Catalog.UpdateThenGet | backend/controllers/ProductController.js:101-108 | the record an update returns is what the next get returns |
| Catalog.DeleteIdempotent | backend/controllers/ProductController.js:111-118 | after a delete the id is not found, and deleting again changes nothing |
| Catalog.DeleteMissing | backend/controllers/ProductController.js:113-114 | deleting a missing id changes nothing yet still replies "Product deleted" |
| Catalog.MissingIdReplies | backend/controllers/ProductController.js:92-114 | on a missing id, get answers 404, update answers null without a change, delete answers "Product deleted" |
| ImageMatch.KeepAllowedShape | backend/scripts/assignImages.js:16 | the punctuation filter keeps only a-z, 0-9 and whitespace, and leaves such a string unchanged |
| ImageMatch.KeepAllowedOne | backend/scripts/assignImages.js:16 | one character is kept exactly when it is a-z, 0-9 or whitespace, and dropped otherwise |
| ImageMatch.KeepAllowedAppend | backend/scripts/assignImages.js:16 | the filter works piece by piece over a concatenation, so with KeepAllowedOne it keeps every allowed character, in order, and drops the rest |
| ImageMatch.TrimShape | backend/scripts/assignImages.js:16 | trim never lengthens its input, keeps a string of a-z, 0-9 and whitespace within that set, and leaves no whitespace at either end |
| ImageMatch.Normalize | backend/scripts/assignImages.js:15-17 | the normalised name has no whitespace at either end; NormalizeSlice says which characters survive |
| ImageMatch.NormalizeSlice | backend/scripts/assignImages.js:15-17 | normalize(s) is the lower-cased, filtered s with only the whitespace at its two ends cut off |
| ImageMatch.NormalizeShape | backend/scripts/assignImages.js:15-17 | normalize's output holds only a-z, 0-9 and whitespace, with none at either end |
| ImageMatch.LowerOfKept | backend/scripts/assignImages.js:16 | lower-casing leaves an already normalised string unchanged |
| ImageMatch.NormalizeIdempotent | backend/scripts/assignImages.js:15-17 | normalize(normalize(s)) == normalize(s) |
| ImageMatch.KeysOf | backend/scripts/assignImages.js:25 | one key per file, in list order: key j is the key of file j |
| ImageMatch.FirstHit | backend/scripts/assignImages.js:24-27 | the index found holds a key containing the search string and no earlier key does; none is found only when no key contains it |
| ImageMatch.FirstHitIsFirst | backend/scripts/assignImages.js:24-27 | the earliest index whose key contains the string is the one found |
| ImageMatch.Find | backend/controllers/ProductController.js:56 | `files.find(f => key(f).includes(t))`: a result is a file whose key contains t, and there is none exactly when no file's key contains t |
| ImageMatch.FindIsFirst | backend/controllers/ProductController.js:56 | the first file in list order whose key contains t is the one returned |
| ImageMatch.WordHit | backend/scripts/assignImages.js:35-41 | step 3 returns the index of a key containing one of the words longer than 2, and nothing exactly when no key contains such a word |
| ImageMatch.WordHitIsFirst | backend/scripts/assignImages.js:35-41 | step 3 is token-major: the first word longer than 2 that some key contains decides, at the first key containing it |
| ImageMatch.BestHit | backend/scripts/assignImages.js:23-42 | the three steps return the index of a key containing the name, its first word, or one of its words longer than 2 |
| ImageMatch.FindBestMatch | backend/scripts/assignImages.js:20-43 | a result is one of the files and its normalised name contains the normalised name, its first word, or one of its words longer than 2; an empty normalised name gives null |
| ImageMatch.FullNameHitWins | backend/scripts/assignImages.js:24-27 | the first file in list order containing the whole normalised name is the match |
| ImageMatch.FirstWordHitWins | backend/scripts/assignImages.js:29-33 | when step 1 fails, the first file containing the first word is the match, whatever its length |
| ImageMatch.WordHitWins | backend/scripts/assignImages.js:35-41 | when steps 1 and 2 fail, the match is the first file containing the first word longer than 2 that any file contains |
| ImageMatch.FullNameAlwaysFound | backend/scripts/assignImages.js:24-27 | if any file contains the whole normalised name, a file containing it is returned (no length filter in step 1) |
| ImageMatch.ShortNameExample | backend/scripts/assignImages.js:21-27 | the one-letter name "X" matches "x.png" |
| ImageMatch.NormalizeNoWhite | backend/scripts/assignImages.js:15-17 | a whitespace-free string stays whitespace-free through normalize |
| ImageMatch.KeepAllowedNoWhite | backend/scripts/assignImages.js:16 | the punctuation filter adds no whitespace |
| ImageMatch.SpacedNameMissesStep1 | backend/scripts/assignImages.js:24-27 | a multi-word name never matches a whitespace-free file name in step 1 |
| ImageMatch.BestHitNoneIff | backend/scripts/assignImages.js:23-42 | over the keys, nothing is found exactly when no key contains the name or its first word, and no key contains a word longer than 2 |
| ImageMatch.NoMatchIff | backend/scripts/assignImages.js:20-43 | null exactly when the normalised name is empty, or no file contains the name, its first word, or any of its words longer than 2 |
| ImageMatch.ControllerMatch | backend/controllers/ProductController.js:55-56 | the endpoint's match is one of the files |
| ImageMatch.ControllerFallbackRedundant | backend/controllers/ProductController.js:56 | the full-name fallback never changes the result; the match is the first file containing the first space-separated token |
| ImageMatch.ControllerEmptyNameTakesFirst | backend/controllers/ProductController.js:55-56 | an empty product name matches the first file of a non-empty directory |
| ImageMatch.VisibleFiles | backend/scripts/assignImages.js:48 | keeps exactly the files not starting with "."; with VisibleFilesAppend and VisibleFilesKeepsVisible it keeps list order and repeats |
| ImageMatch.VisibleFilesAppend | backend/scripts/assignImages.js:48 | the filter works piece by piece over a concatenation, so list order is kept |
| ImageMatch.VisibleFilesKeepsVisible | backend/scripts/assignImages.js:48 | a listing without dot-files passes through whole, order and repeats included |
| ImageMatch.ImagePath | backend/scripts/assignImages.js:55 | the image is "/uploads/products/" followed by the file name |
| SaleEngine.ErrorReply | backend/controllers/SaleController.js:19-56 | both loop errors are 400 with "Product not found: <id>" (or "undefined") and "Insufficient stock for <name>"; a failed Sale.create is 500 with the validator's enum message naming the rejected method |
| SaleEngine.Withdrawn | backend/controllers/SaleController.js:23-24 | a saved product loses exactly qty units, keeps every other field, and gets a new update time only if the stock changed |
| SaleEngine.Step | backend/controllers/SaleController.js:18-26 | once an error is set nothing changes; the product ids stay; an item passes only when its product is stored with enough stock, and then adds one line |
| SaleEngine.Run | backend/controllers/SaleController.js:17-27 | no items leave the scan as it was; a run without error started without error and added one line per item |
| SaleEngine.ProcessItems | backend/controllers/SaleController.js:17-27 | the loop starts from the stored catalogue with no lines and total 0; on success there is one line per item |
| SaleEngine.LinesTotal | backend/controllers/SaleController.js:26 | Σ price × qty: 0 for no lines and the line's amount for one; SuccessLines ties it to the loop's total |
| SaleEngine.QtyFor | backend/controllers/SaleController.js:17-23 | Σ qty over the items naming a product: 0 for no items, and for one item its qty exactly when it names the product |
| SaleEngine.StepAccepts | backend/controllers/SaleController.js:18-26 | a stored product with enough stock goes through and adds price × qty to the total |
| SaleEngine.RunAppend | backend/controllers/SaleController.js:17-27 | running the loop over a + b is running it over a, then over b |
| SaleEngine.RunFrozen | backend/controllers/SaleController.js:19-21 | after an error nothing further happens |
| SaleEngine.SuccessPrefix | backend/controllers/SaleController.js:17-27 | a successful run succeeded on every prefix |
| SaleEngine.FirstFailureStops | backend/controllers/SaleController.js:17-21 | the first failing item ends the call; the catalogue keeps the decrements of the items before it |
| SaleEngine.RunKeepsCatalogue | backend/controllers/SaleController.js:23-24 | whatever the outcome, the same product ids stay stored and only stock and update times change |
| SaleEngine.SuccessLines | backend/controllers/SaleController.js:17-27 | on success there is one line per item, in order, with its product, its qty and the catalogue price; the total is Σ price × qty (0 for no items) |
| SaleEngine.StockAfterSuccess | backend/controllers/SaleController.js:18-24 | on success each product's stock drops by the sum of qty over all items naming it |
| SaleEngine.TouchedStockNonNegative | backend/controllers/SaleController.js:20-23 | on success every product an item named is left with stock ≥ 0 |
| SaleEngine.NeverOversells | backend/controllers/SaleController.js:18-23 | on success the quantity taken of a product never exceeds its starting stock, even when it is listed twice |
| SaleEngine.StockStaysNonNegative | backend/controllers/SaleController.js:17-27 | stock that starts non-negative stays non-negative, whatever the outcome |
| SaleEngine.AmountOr | backend/controllers/SaleController.js:34-37 | `x \|\| fallback`: a non-zero supplied amount is kept, an absent or zero one falls back |
| SaleEngine.SaleBreakdown | backend/controllers/SaleController.js:33-38 | a supplied non-zero amount stays in its bucket; an absent or zero cash, momo or card amount becomes the total for its own method and 0 otherwise; the other bucket is the supplied amount or 0 |
| SaleEngine.DefaultBreakdownCoversTotal | backend/controllers/SaleController.js:33-38 | with no amounts and method cash, momo or card, that bucket holds the total and the others 0 |
| SaleEngine.OtherNeverDefaults | backend/controllers/SaleController.js:37 | the other bucket is the supplied amount or 0, never the total, even for method "other" |
| SaleEngine.ZeroIsAbsent | backend/controllers/SaleController.js:34-37 | a supplied 0 is treated exactly as an absent amount |
| SaleEngine.Absent0 | backend/controllers/SaleController.js:34-37 | every 0 amount replaced by absent |
| SaleEngine.Attribution | backend/controllers/SaleController.js:41-50 | teller is set exactly for a teller caller; a client caller is the client; any other caller's client is the truthy clientId or none |
| SaleEngine.ClientBuysForSelf | backend/controllers/SaleController.js:45-46 | a client caller's clientId is ignored |
| SaleEngine.CreateSaleSpec | backend/controllers/SaleController.js:11-58 | the loop's catalogue always persists; a loop error is the reply; otherwise an invalid method fails after the decrements; a created sale has the priced lines, the total, the method, the breakdown and the attribution |
| SaleEngine.InvalidMethodKeepsDecrements | backend/controllers/SaleController.js:52-56 | any method outside the enum fails at Sale.create with every decrement already saved |
| SaleEngine.SampleSale | backend/controllers/SaleController.js:11-58 | three phones paid in cash: stock 10 becomes 7, total 150, all in the cash bucket |
| SaleEngine.SampleNoRollback | backend/controllers/SaleController.js:17-24 | phones then too many cables: the call fails on the cables and the phones stay taken |
| SaleEngine.SampleRepeatedProduct | backend/controllers/SaleController.js:18-24 | a product listed twice is checked the second time against the reduced stock |
| SalesQuery.SalesFor | backend/controllers/SaleController.js:61-86 | returns exactly the stored sales the role scope and filters admit; SalesForAppend gives the stored order |
| SalesQuery.SalesForAppend | backend/controllers/SaleController.js:80-81 | the query filters piece by piece over the stored list, so it keeps stored order, and a single sale is returned exactly when visible |
| SalesQuery.TellerScoped | backend/controllers/SaleController.js:68-69 | a teller only ever sees sales they made |
| SalesQuery.DefaultScopes | backend/controllers/SaleController.js:66-72 | without parameters a client sees exactly their own sales and an admin sees all |
| SalesQuery.ClientReadsOthersAsWritten | backend/controllers/SaleController.js:77 | as written, a client passing another client's id sees that client's sale |
| SalesQuery.ScopedSalesFor | backend/controllers/SaleController.js:61-86 | returns exactly the sales the corrected scope admits |
| SalesQuery.ScopedSalesForAppend | backend/controllers/SaleController.js:80-81 | the corrected query keeps stored order in the same way |
| SalesQuery.ScopedClientSeesOwnOnly | backend/controllers/SaleController.js:70-77 | with the corrected scope no parameter lets a non-staff caller see another's sale |
| SalesQuery.ScopedAgreesForStaff | backend/controllers/SaleController.js:66-79 | the correction changes nothing for admins and tellers |
| Backend.MatchFor | backend/scripts/assignImages.js:48-53 | the chosen file is in the directory; the script never chooses a dot-file |
| Backend.Imaged | backend/scripts/assignImages.js:55-56 | only the image changes, and the update time only when the image did |
| Backend.Assigned | backend/controllers/ProductController.js:57-61 | only the image and the update time can change; an unlisted or unmatched product is unchanged; a matched one gets its file's image path |
| Backend.MatchedUpdates | backend/scripts/assignImages.js:52-63 | the report lists only listed, matched products with their image path, and every matched listed product appears |
| Backend.MatchedUpdatesCount | backend/controllers/ProductController.js:57-63 | over products listed once each, the report's length is the number of listed products whose name matches a file |
| Backend.AssignStep | backend/scripts/assignImages.js:53-58 | one iteration changes only its own product, as Assigned says, and keeps every name |
| Backend.AssignRun | backend/scripts/assignImages.js:52-62 | the loop keeps the stored ids and every name |
| Backend.AssignRunNext | backend/scripts/assignImages.js:52-62 | the run over one more product is one more step |
| Backend.AssignRunReport | backend/scripts/assignImages.js:57-63 | the loop's report is MatchedUpdates; MatchedUpdatesCount gives its length |
| Backend.AssignRunEffect | backend/controllers/ProductController.js:54-61 | each matched product gets its image, and unmatched or unlisted ones are unchanged |
| Backend.Store.CreateSale | backend/controllers/SaleController.js:11-58 | the loop leaves the catalogue and reply of CreateSaleSpec; a sale is stored exactly on success |
| Backend.Store.AssignOne | backend/scripts/assignImages.js:53-58 | one iteration is AssignStep on the stored map; sales are untouched |
| Backend.Store.AssignImages | backend/controllers/ProductController.js:49-67 | the loop's catalogue and report are AssignRun's; each product is Assigned; the report is MatchedUpdates and its length (`updated`) is the number of matched products; sales are untouched |
| Access.AuthorizeRoles | backend/middleware/roleMiddleware.js:5-13 | no user is 401 before any role test; a role outside the list is 403; next exactly for a listed role |
| Access.EmptyRolesRefuseAll | backend/middleware/roleMiddleware.js:10 | with no roles listed every authenticated user gets 403 |
| Access.RouteDecision | frontend/src/components/ProtectedRoute.jsx:9-20 | no token redirects to "/"; an empty role list admits any token holder; otherwise render exactly for a listed role |
| Access.GatesAgree | frontend/src/components/ProtectedRoute.jsx:17-19 | for a logged-in user the browser gate and the server gate agree, except that an empty role list admits in the browser and refuses on the server |
| CartLines.Total | frontend/src/pages/TellerDashboard.jsx:93 | Σ price × qty: 0 for an empty cart and the line's amount for one line; SumsAppend extends it over concatenation |
| CartLines.Count | frontend/src/pages/Cart.jsx:24 | Σ qty: 0 for an empty cart and the line's qty for one line; SumsAppend extends it over concatenation |
| CartLines.SumsAppend | frontend/src/pages/TellerDashboard.jsx:93 | subtotal and count distribute over concatenation |
| CartLines.SumsUpdate | frontend/src/pages/Cart.jsx:21-24 | replacing one line changes subtotal and count by that line's difference |
| CartLines.AddToCart | frontend/src/pages/TellerDashboard.jsx:75-83 | an existing product gets qty added, others are unchanged, order is kept; a new product is appended as {product, qty} |
| CartLines.AddToCartCounts | frontend/src/pages/TellerDashboard.jsx:75-83 | adding keeps product ids unique and raises the count by qty |
| CartLines.UpdateQty | frontend/src/pages/TellerDashboard.jsx:85-87 | the matching line's qty becomes qty when qty ≥ 1 and exactly 1 otherwise, i.e. max(1, qty); every other line is unchanged |
| CartLines.RemoveFromCart | frontend/src/pages/TellerDashboard.jsx:89-91 | keeps exactly the lines with other ids |
| CartLines.RemoveFromCartAppend | frontend/src/pages/TellerDashboard.jsx:90 | the filter works piecewise over a concatenation, so order is kept |
| CartLines.RemoveFromCartAt | frontend/src/pages/TellerDashboard.jsx:89-91 | with unique ids, removing by id removes exactly the line at that id's index |
| CartLines.RemoveFromCartMissing | frontend/src/pages/TellerDashboard.jsx:90 | removing an id no line has changes nothing |
| CartLines.RemoveAt | frontend/src/pages/Cart.jsx:29-30 | splice(idx, 1) drops exactly the element at idx and shifts the rest; an index past the end drops nothing |
| CartLines.RemoveAtSums | frontend/src/pages/Cart.jsx:30-33 | removing a line takes its qty off the count and its amount off the subtotal |
| CartLines.IndexOf | frontend/src/pages/Products.jsx:60 | `cart.find` by product id yields the first line with the id, and none exactly when no line has it |
| CartLines.AddOrIncrement | frontend/src/pages/ProductDetails.jsx:39-41 | the stored cart's add raises the count by k, keeps ids unique and leaves the product in the cart |
| CartLines.AddOrIncrementIsAddToCart | frontend/src/pages/Products.jsx:59-61 | on a cart with unique ids the stored cart's add and the teller's add agree |
| Browser.LinesOf | frontend/src/pages/Cart.jsx:16 | the stored lines, or none when nothing is stored; their Σ qty is the header's count |
| Browser.CartCount | frontend/src/components/PageNav.jsx:13-19 | the count is Σ qty of the stored cart; no cart or one that does not parse counts 0 |
| Browser.BadgeShownIffItems | frontend/src/components/PageNav.jsx:71 | the badge (ShowBadge, a positive count) shows only for a stored non-empty cart, and always for one whose lines hold at least one unit each |
| Browser.AddEnabled | frontend/src/pages/Products.jsx:66 | the add button is enabled exactly when one unit would pass the server's stock check |
| Browser.HomeRoute | frontend/src/components/PageNav.jsx:34-39 | admin, teller and client go to their dashboards; anything else goes to "/" |
| Browser.Storage.constructor | frontend/src/components/PageNav.jsx:11 | an empty storage and a count of 0 |
| Browser.Storage.AddToCart | frontend/src/pages/ClientDashboard.jsx:56-65 | the stored cart becomes the add-or-increment of the old one and the broadcast count is its Σ qty; a cart that does not parse changes nothing |
| Browser.Storage.ClickAdd | frontend/src/pages/Products.jsx:58-66 | one unit is added exactly when the button is enabled (in stock) and the cart parses, and the count rises by 1; a click on the disabled button changes nothing; a cart that does not parse changes neither cart nor count; the session keys stay |
| Browser.Storage.AddChosen | frontend/src/pages/ProductDetails.jsx:38-48 | the chosen qty is added exactly when the button is enabled (in stock) and the cart parses, and the count rises by it; a click on the disabled button changes nothing; a cart that does not parse changes neither cart nor count; the session keys stay |
| Browser.Storage.Logout | frontend/src/components/PageNav.jsx:42-52 | the four session keys and the cart are removed and 0 is broadcast |
| Browser.CartPage.constructor | frontend/src/pages/Cart.jsx:16 | the page starts with the stored lines |
| Browser.CartPage.UpdateQty | frontend/src/pages/Cart.jsx:19-37 | only line idx changes, to exactly qty with no clamping; storage and the broadcast count follow; the page's subtotal (line 37) shifts by that line's difference; the session keys stay |
| Browser.CartPage.RemoveItem | frontend/src/pages/Cart.jsx:28-37 | exactly the line at idx is dropped, the rest keep their order; storage and the broadcast count follow; the page's subtotal (line 37) loses that line's amount; the session keys stay |
| Models.BucketSum | frontend/src/pages/Checkout.jsx:33 | the sum of the four buckets: 0 for the zero breakdown, and with non-negative amounts at least each amount |
| Checkout.IsPaymentValid | frontend/src/pages/Checkout.jsx:34-38 | nothing to pay is invalid; "other" needs a breakdown of at least the subtotal; other methods need an amount of at least the subtotal |
| Checkout.ChangeDue | frontend/src/pages/Checkout.jsx:40-49 | a single method's change is amount minus subtotal, possibly negative; "other" shows breakdown − subtotal when the breakdown covers the subtotal and 0 otherwise |
| Checkout.ValidPaymentChange | frontend/src/pages/Checkout.jsx:34-49 | a valid payment never shows negative change |
| Checkout.BreakdownToSend | frontend/src/pages/Checkout.jsx:60-62 | a full copy for "other", otherwise the single key of the method holding the amount paid |
| Checkout.SingleMethodStoresReceived | frontend/src/pages/Checkout.jsx:62 | paid by one method with a non-zero amount, the server stores that amount in the method's bucket |
| Checkout.OtherStoresBreakdown | frontend/src/pages/Checkout.jsx:61 | paid by "other", the server stores exactly the entered breakdown |
| Checkout.CheckoutItemsAsWritten | frontend/src/pages/Checkout.jsx:57 | as written, no item carries the product reference the server reads |
| Checkout.CheckoutAlwaysRejected | frontend/src/pages/Checkout.jsx:57 | as written, every non-empty checkout is refused with 400 "Product not found: undefined" and the catalogue is unchanged |
| Checkout.CartItems | frontend/src/pages/TellerDashboard.jsx:107 | one {product, qty} item per cart line, in order |
| Checkout.QtyForUnmentioned | backend/controllers/SaleController.js:17-24 | a product no item names is taken 0 times |
| Checkout.CartInit | frontend/src/pages/TellerDashboard.jsx:107 | dropping a cart's last line keeps it unique and in stock, and its last product is not named before |
| Checkout.CartItemsAccepted | frontend/src/pages/TellerDashboard.jsx:107 | a cart of distinct, stocked products sent as {product, qty} passes the stock loop with total equal to the subtotal |
| Checkout.CheckoutPage.constructor | frontend/src/pages/Checkout.jsx:10-31 | the page loads the stored cart, starts on cash with the amount equal to the subtotal |
| Checkout.CheckoutPage.SelectMethod | frontend/src/pages/Checkout.jsx:29-49 | a method other than "other" resets the amount to the subtotal; the change is recomputed and the error cleared |
| Checkout.CheckoutPage.HandlePay | frontend/src/pages/Checkout.jsx:51-75 | an empty cart or invalid payment posts nothing (the latter sets the error); otherwise the payload is posted, the error is untouched, and on success the stored cart is removed and 0 broadcast; the change, the rest of the page and the session keys stay |
| Teller.Matches | frontend/src/pages/TellerDashboard.jsx:72 | every product matches the empty query; a product with no brand and no category matches a non-empty query exactly when its lower-cased name contains it |
| Teller.EmptyQueryKeepsAll | frontend/src/pages/TellerDashboard.jsx:71-72 | the filter keeps every product for an empty query, so the page's empty-search shortcut agrees with it |
| Teller.MatchingProducts | frontend/src/pages/TellerDashboard.jsx:72 | keeps exactly the products whose name, brand or category contains the query |
| Teller.MatchingProductsAppend | frontend/src/pages/TellerDashboard.jsx:72 | the filter keeps list order |
| Teller.FilterProducts | frontend/src/pages/TellerDashboard.jsx:69-73 | an empty trimmed query returns all products, otherwise the matching ones |
| Teller.TellerPayload | frontend/src/pages/TellerDashboard.jsx:107-114 | items are {product, qty}; an empty client id becomes null; the breakdown is a copy or a single key; change is received minus total, unclamped |
| Teller.CheckoutRefusal | frontend/src/pages/TellerDashboard.jsx:96-104 | refuses an empty cart; for "other" a breakdown below the total or equal to 0; otherwise an amount below the total |
| Teller.DeskAgreesWithCheckoutPage | frontend/src/pages/TellerDashboard.jsx:96-104 | for a positive total the desk accepts exactly what the checkout page accepts |
| Teller.TellerDesk.constructor | frontend/src/pages/TellerDashboard.jsx:13-23 | an empty cart, cash, a zero breakdown and nothing paid |
| Teller.TellerDesk.HandleCheckout | frontend/src/pages/TellerDashboard.jsx:95-126 | a refusal posts nothing and changes nothing; success empties the cart, zeroes the breakdown and the amount; a server error keeps them and shows its message |
| Teller.BreakdownMatchesTotal | frontend/src/pages/TellerDashboard.jsx:161-169 | when every sale's buckets add up to its total, the day's buckets add up to the day's total |
| Teller.BreakdownsTotal | frontend/src/pages/TellerDashboard.jsx:163-169 | bucket-wise sums: zeros for no sales and the sale's own breakdown for one |
| Teller.AmountsTotal | frontend/src/pages/TellerDashboard.jsx:161 | Σ totalAmount: 0 for no sales and the sale's total for one |
| Teller.PaymentBreakdownToday | frontend/src/pages/TellerDashboard.jsx:163-169 | the accumulator holds the bucket-wise sums over the day's sales |
| Teller.EntryIndex | frontend/src/pages/TellerDashboard.jsx:175 | finds the name's entry, and none exactly when no entry has the name |
| Teller.QtyOfNameAbsent | frontend/src/pages/TellerDashboard.jsx:173-176 | a name no line carries sums to 0 |
| Teller.Bump | frontend/src/pages/TellerDashboard.jsx:175 | other names' entries are unchanged; a present name's qty grows by qty; a new name is appended with qty |
| Teller.Tallied | frontend/src/pages/TellerDashboard.jsx:172-176 | the table holds at most one entry per sold line |
| Teller.BumpNames | frontend/src/pages/TellerDashboard.jsx:175 | a bump keeps every entry's name in place, adds at most one entry, and leaves an entry for the name |
| Teller.TalliedDistinct | frontend/src/pages/TellerDashboard.jsx:172-176 | the table never holds two entries for one name |
| Teller.TalliedQty | frontend/src/pages/TellerDashboard.jsx:172-176 | every entry holds its name's summed qty |
| Teller.TalliedCovers | frontend/src/pages/TellerDashboard.jsx:172-176 | every name sold has an entry |
| Teller.TalliedSums | frontend/src/pages/TellerDashboard.jsx:172-176 | one entry per name sold, holding the sum of qty over that name's lines |
| Teller.TallyNames | frontend/src/pages/TellerDashboard.jsx:172-176 | the forEach loop builds exactly the tallied table |
| Teller.InsertDesc | frontend/src/pages/TellerDashboard.jsx:177 | an insertion adds one entry |
| Teller.InsertDescPerm | frontend/src/pages/TellerDashboard.jsx:177 | an insertion keeps the entries and adds the new one |
| Teller.InsertDescBound | frontend/src/pages/TellerDashboard.jsx:177 | a bound on every quantity bounds the insertion too |
| Teller.InsertDescSorted | frontend/src/pages/TellerDashboard.jsx:177 | inserting into a descending list keeps it descending |
| Teller.InsertDescAfterTies | frontend/src/pages/TellerDashboard.jsx:177 | an insertion lands after every leading entry with at least its qty, ties included, and before the first with less; the rest keep their order |
| Teller.SortDesc | frontend/src/pages/TellerDashboard.jsx:177 | the sort keeps the length |
| Teller.SortDescPerm | frontend/src/pages/TellerDashboard.jsx:177 | the sort is a permutation |
| Teller.SortDescSorted | frontend/src/pages/TellerDashboard.jsx:177 | the sort's result is in descending qty |
| Teller.SortDescMembers | frontend/src/pages/TellerDashboard.jsx:177 | the sorted table holds exactly the table's entries |
| Teller.PrefixDominates | frontend/src/pages/TellerDashboard.jsx:177 | in a descending list every entry of a prefix sold at least as much as any entry past it |
| Teller.TopProducts | frontend/src/pages/TellerDashboard.jsx:171-178 | min(5, n) entries of an n-entry table, a prefix of the sorted table |
| Teller.TopProductsAreTop | frontend/src/pages/TellerDashboard.jsx:171-178 | the top list is descending, holds only table entries, and each of them sold at least as much as any entry left out |
| ClientDashboard.ProductsFromResponse | frontend/src/pages/ClientDashboard.jsx:27-34 | an array body is used as-is, else an array `products` field, else nothing; a failed request gives nothing |
| ClientDashboard.OrdersFromResponse | frontend/src/pages/ClientDashboard.jsx:40-53 | orders are kept exactly when there is a token and the body is a non-empty array |
| ClientDashboard.Take | frontend/src/pages/ClientDashboard.jsx:67 | slice(0, n) is the prefix of length min(n, length) |
| ClientDashboard.TakeSplits | frontend/src/pages/ClientDashboard.jsx:67 | the slice and the rest give back the list; the slice is the whole list exactly when it is short enough |
| ClientDashboard.Featured | frontend/src/pages/ClientDashboard.jsx:67 | the first six products in the order received |
| ClientDashboard.RecentOrders | frontend/src/pages/ClientDashboard.jsx:117 | the first five orders received |
| ClientDashboard.RecentOrdersAreOwn | frontend/src/pages/ClientDashboard.jsx:43-44 | a client's recent orders are all theirs, and at most five |
| ClientDashboard.SameQtySameCount | frontend/src/pages/ClientDashboard.jsx:122 | lines with the requested quantities have the requested item count |
| ClientDashboard.ItemCount | frontend/src/pages/ClientDashboard.jsx:122 | Σ qty over an order's lines: 0 for none and the line's qty for one |
| ClientDashboard.CreatedSaleItemCount | frontend/src/pages/ClientDashboard.jsx:122 | the item count a created sale's card would show is the number of units requested (as written the card fails to render; see Findings) |
| ClientDashboard.AmountField | backend/models/Sale.js:16 | a sale's only numeric top-level field is `totalAmount`; any other key reads as undefined |
| ClientDashboard.OrderCards | frontend/src/pages/ClientDashboard.jsx:117-126 | a successful render gives one card per order; one undefined amount fails it |
| ClientDashboard.RecentCardsAsWritten | frontend/src/pages/ClientDashboard.jsx:124 | reading `o.total` fails the render for every client with at least one order |
| ClientDashboard.CardsShowTotals | frontend/src/pages/ClientDashboard.jsx:117-126 | read under `totalAmount`, every order gets a card with its item count and stored total |
| ClientDashboard.RecentCards | frontend/src/pages/ClientDashboard.jsx:117-126 | the intended list: one card per recent order with its item count and total |

## Left out

- Mongoose persistence, Express wiring and the route table: the store is an in-memory map and each `save()` is an immediate update. Requests are handled one at a time, so the lost-update race between simultaneous sales is not modelled.
- JWT verification: the caller's id and role are parameters.
- File-system and upload plumbing: the directory listing is a `seq<string>` parameter. The console logs of the script and its database connection are not modelled.
- Floating-point money and `toFixed` rounding: all amounts are integers, so `Number(x) || 0` on a number is the number itself. Non-numeric and NaN values are not modelled.
- Dates: timestamps are integers. The "today" filter of the teller dashboard and the date parsing of getSales query parameters are not modelled; the day's summaries take the day's sales as given.
- Mongo cast errors (a malformed id makes `findById` throw, giving 500) are not modelled. A missing product reference is modelled: `findById(undefined)` finds nothing, hence "Product not found: undefined".
- A request without an `items` array makes createSale throw (500); the model's request always has a sequence of items. A `null` paymentBreakdown is not modelled.
- Text.Lower: lower-cases ASCII letters only, not the rest of Unicode.
- Models.NewSale: models only the payment-method enum check of Sale.create's validation; its message is the standard enum-validation text, built in SaleEngine.ErrorReply. Other validation failures of Sale.create are not modelled.
- SaleEngine.CreateSaleSpec: the 500 replies of the catch block cover only the failed Sale.create; other thrown errors are not modelled.
- Catalog.UpdateProduct: does not re-validate supplied fields, as the handler does not; cast errors on them are not modelled.
- Catalog.GetProducts: returns a set, so the database's listing order is not modelled.
- The order of the directory listing and of the products the database returns is a parameter of the image-assignment loops; the loops visit them in that order.
- Object key order in the tally table: entries are kept in insertion order. JavaScript's enumeration of integer-like keys first, and the `__proto__` key, are not modelled.
- Teller.SortDesc: an insertion sort that places each table entry after every earlier entry of equal quantity (Teller.InsertDescAfterTies), matching the stable Array.prototype.sort of current engines; stability of the whole sort is not stated as one lemma.
- In the top-products tally each sold line carries the populated product's name; the fallback to the raw product id when a line has no populated product is only a name string there.
- The server ignores the `paymentReceived` and `change` fields of the posted body; they are carried in the payload but have no effect.
- Browser.CartPage.UpdateQty: the page writes into the shared line object before copying, so React's previous state is aliased; the model keeps one copy of the lines.
- A stored cart holding JSON `null` counts 0 in the header; the model's stored cart is absent, a list of lines, or unreadable.
- Checkout.CheckoutPage.HandlePay: posts the corrected {product, qty} items of Checkout.CartItems (see Findings); the as-written items are Checkout.CheckoutItemsAsWritten.
- The teller desk's add from the details view (`Number(qty || 1)`), its client lookup and its logout are display-side variants of modelled operations and are not modelled separately.
- Browser.CartPage.constructor and Checkout.CheckoutPage.constructor: require a stored cart that parses. On unreadable text `JSON.parse` throws (frontend/src/pages/Cart.jsx:16, frontend/src/pages/Checkout.jsx:23) and the page does not render; that crash is not modelled.
- The details page's quantity input (it starts at 1 and takes `Number` of what is typed) is not modelled; Browser.Storage.AddChosen takes the chosen quantity as a parameter.
- React rendering, toasts, navigation and loading flags are not modelled.

## Findings

| source | as written | input that shows it | evidently intended | confidence | as-written member | corrected member |
|---|---|---|---|---|---|---|
| frontend/src/pages/Checkout.jsx:57 | items are posted as {productId, qty, price}, but the server reads `i.product` (backend/controllers/SaleController.js:18) | any non-empty cart: the first item has no `product`, so the reply is 400 "Product not found: undefined" | items posted as {product, qty}, as the teller desk does | high; not executed | Checkout.CheckoutAlwaysRejected | Checkout.CartItemsAccepted |
| backend/controllers/SaleController.js:77 | a `clientId` query parameter replaces the client constraint for every role, including the client role | caller c1 with role client and query clientId=c2 sees a sale whose client is c2 | the parameter narrows results for admins and tellers only; a client stays restricted to their own sales | high; not executed | SalesQuery.ClientReadsOthersAsWritten | SalesQuery.ScopedClientSeesOwnOnly |
| frontend/src/pages/ClientDashboard.jsx:124 | each recent-order card formats `o.total.toFixed(2)`, but a sale's field is `totalAmount` (backend/models/Sale.js:16), so `o.total` is undefined and toFixed throws a TypeError | any client with at least one sale: the dashboard render throws and the error boundary (frontend/src/main.jsx:11) shows "Application Error" in place of the app | format `o.totalAmount` | high; not executed | ClientDashboard.RecentCardsAsWritten | ClientDashboard.RecentCards |
