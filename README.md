# MiniPlantStore backend: cart, wishlist and plant catalog rules in Dafny

This project models the business core of a small plant-shop backend. The original is an Express/Mongoose
service. The model covers:

- the per-user **cart** store (routes/cart.js, models/Cart.js);
- the per-user **wishlist** store (routes/wishlist.js, models/Wishlist.js);
- the **plant record** schema (models/Plant.js);
- the **plant routes'** create validation and listing arithmetic (routes/plants.js).

The plant catalog is treated as a read-only map from plant id to plant record (`PlantModel.Catalog`).

Modules, one per file:

- `common.dfy`
  - `Wrappers`: `Option`, for a JSON field that is present or absent, and JavaScript truthiness of a string.
  - `Http`: the status codes and the `{success, data}` response.
- `object_id.dfy`, `ObjectIds`
  - The driver's cast of a request string to an ObjectId: any 24 hex digits are accepted, and the string form is lower case.
  - The wishlist's `isValidObjectId` round-trip check. It holds exactly of 24 lower-case hex digits.
- `plant.dfy`, `PlantModel`
  - The plant record and its schema constraints (`PlantValid`).
  - The defaults and `trim` setters applied by `new Plant(...)` and validation on save (`NewPlant`).
  - JavaScript `String.prototype.trim` (`Trim`).
- `plants_routes.dfy`, `PlantRoutes`
  - POST `/`: the truthiness and sign checks, then the document handed to the schema (`CreatePlant`).
  - GET `/`: the category and stock filters, the sort direction, and the skip/limit window with the page count.
- `cart_model.dfy`, `CartModel`
  - Cart lines and the cart schema.
  - The two `reduce` folds of the pre-save hook (`SumQty`, `SumAmount`) and their algebra.
- `cart_routes.dfy`, `CartRoutes`
  - The pure specifications of each handler: hydration on read, lookup, upsert, set-quantity and filter.
  - The as-written upsert, for the finding below.
  - The class `CartStore`, holding `carts: map<string, Cart>`. Its methods load a cart, change its lines, and save it.
  - Saving validates the schema and recomputes the totals.
  - The invariant `Valid()` says every stored cart:
    - belongs to its key;
    - passes the schema;
    - has totals equal to the folds;
    - holds at most one line per plant.
- `wishlist_model.dfy`, `WishlistModel`: wishlist entries and the wishlist schema.
- `wishlist_routes.dfy`, `WishlistRoutes`
  - The pure specifications of each handler.
  - The class `WishlistStore`, holding `wishlists: map<string, Wishlist>`. Its invariant: each stored wishlist belongs to its key, passes the schema and has one entry per plant.

Modelling conventions:

- Every handler is atomic. Request bodies are `Option` fields.
- A failed save is the `catch` path: status 500 in the cart and wishlist routes, 400 in plant creation. The store is left unchanged.
- The current time is a parameter `now: int`.
- Prices and quantities are integers, as the seed data has them.

## Model

| member | source | states |
|---|---|---|
| ObjectIds.Cast | routes/cart.js:77 | the driver casts a string exactly when it is 24 hex digits of either case; the result is canonical (lower case) and agrees digit by digit with the input, lower-cased |
| ObjectIds.IsValidObjectId | routes/wishlist.js:8-10 | `isValidObjectId(id)` holds if and only if `id` is exactly 24 lower-case hex digits |
| ObjectIds.CastCanonical | routes/wishlist.js:9 | casting the canonical form again gives the same ObjectId, so the round trip is stable |
| PlantModel.Trim | models/Plant.js:7 | `trim` leaves no whitespace at either end, never lengthens, and leaves already-trimmed strings unchanged |
| PlantModel.TrimRemovesOnlyEnds | models/Plant.js:7 | `trim` returns an infix of its input, and everything it drops before and after that infix is whitespace |
| PlantModel.TrimIdempotent | routes/plants.js:130 | the schema's `trim` setter applied after the route's `name.trim()` changes nothing |
| PlantModel.PlantValid | models/Plant.js:3-58 | the schema's constraints on a stored plant: a non-empty trimmed name of at most 100 characters, a non-negative price, known categories, a description of at most 500 characters, a known light requirement, popularity within 0..100 |
| PlantModel.NewPlant | models/Plant.js:3-58 | every accepted plant meets all constraints. A missing name or price, an empty trimmed name, a name over 100 characters, a negative price, an unknown category, a description over 500 characters, an unknown light requirement or a popularity outside 0..100 is rejected. Otherwise it is accepted, with name and scientific name trimmed and defaults isAvailable true, the placeholder image, light 'Medium' and popularity 0. An absent scientific name stays absent; description, watering frequency, pot size and care instructions are stored as given |
| PlantRoutes.CreateDoc | routes/plants.js:129-142 | the document handed to `new Plant`: name, description and scientific name trimmed, price and categories as given, isAvailable defaulting to true, popularity 0 when falsy, the other fields passed through |
| PlantRoutes.CreatePlant | routes/plants.js:115-158 | every failure is 400 and every success 201 with a valid plant. A falsy name, a missing price or a price of 0 (falsy), a negative price (the sign check), or a missing or empty category list is refused. The saved name is trimmed, and so are the description and the scientific name when given; isAvailable keeps the request's value when one is given and falls back to true only when it is absent; popularity falls back to 0 when falsy; watering frequency, pot size and care instructions are stored as given. Any request meeting all rules is accepted |
| PlantRoutes.CreateDocSaved | routes/plants.js:129-142 | the plant saved from a request's document has each field as the route and the schema set it: trimmed name, description and scientific name, isAvailable defaulting to true, popularity 0 when falsy, the light and image defaults, and the other fields as given |
| PlantRoutes.CreateDocMeetsSchema | routes/plants.js:115-142 | a request meeting the route's rules yields a document meeting the schema's rules: the route's trimmed name survives the schema's own trim |
| PlantRoutes.CreateDocAccepted | routes/plants.js:129-144 | the document of a request meeting every rule is accepted on save |
| PlantRoutes.BuildQuery | routes/plants.js:25-32 | the category filter is set exactly when the category is truthy and not 'all'; the availability filter exactly when `inStock` is the string 'true' |
| PlantRoutes.Matches | routes/plants.js:25-32 | a plant matches when it lists the filter category (if one is set) and is available (if the stock filter is set) |
| PlantRoutes.Select | routes/plants.js:38 | the selected plants are exactly the listed plants matching the filter, in order |
| PlantRoutes.SelectConcat | routes/plants.js:38 | selection keeps the listed order: selecting from two lists one after the other is selecting from each and concatenating |
| PlantRoutes.SelectSingleton | routes/plants.js:38 | a single plant is selected exactly when it matches the filter |
| PlantRoutes.NoFilterSelectsEverything | routes/plants.js:25-32 | 'all', an empty and an absent category select alike, and any `inStock` other than 'true' keeps unavailable plants |
| PlantRoutes.SortDirection | routes/plants.js:36 | the direction is 1 exactly when sortOrder is 'asc', otherwise -1 (including the default 'desc') |
| PlantRoutes.PageCount | routes/plants.js:51 | the page count is `ceil(total / limit)`: for a positive limit the least n with total ≤ n·limit; the negative-limit case likewise; absent (null) for limit 0 |
| PlantRoutes.Window | routes/plants.js:40-41 | the window is the contiguous run starting at `skip`, of length min(remaining, abs(limit)), the whole rest for limit 0, and empty when skip passes the end |
| PlantRoutes.ListPlants | routes/plants.js:10-55 | success exactly when the skip `(page-1)·limit` is not negative, else 500. The returned plants are exactly the window of the selected plants at skip `(page-1)·limit` of size `limit`, and all match the filter. The page count is `PageCount` of the number of matches. totalItems counts every match, count is the page length, current is the page, the page has at most abs(limit) plants, and the direction is SortDirection's |
| PlantRoutes.EveryMatchIsOnItsPage | routes/plants.js:40-51 | with a positive limit, the i-th match is element i mod limit of page i / limit + 1, and that page is within the reported page count |
| CartModel.ItemValid | models/Cart.js:3-25 | a line is valid when it has a plant id and a quantity of at least 1 |
| CartModel.SchemaValid | models/Cart.js:27-33 | a cart is valid when it has a user id and every line is valid |
| CartModel.SumQty | models/Cart.js:48 | the `reduce` over the lines' quantities, starting at 0 |
| CartModel.SumAmount | models/Cart.js:49 | the `reduce` over the lines' price × quantity, starting at 0 |
| CartModel.SumsBounds | models/Cart.js:9-14 | lines with quantity ≥ 1 give totalItems ≥ the number of lines; non-negative prices and quantities give a non-negative totalAmount |
| CartModel.WithTotals | models/Cart.js:47-50 | the pre-save hook makes totalItems the sum of quantities and totalAmount the sum of price × quantity, whatever they were, and changes nothing else |
| CartModel.IndexOf | routes/cart.js:106-108 | `findIndex`: -1 exactly when no line holds the plant, otherwise the first line that does |
| CartModel.SumsConcat | models/Cart.js:48-49 | both folds distribute over concatenation of line lists |
| CartModel.SumsAddQuantity | models/Cart.js:48-49 | adding d to one line's quantity adds d to totalItems and that line's price × d to totalAmount |
| CartModel.SumsFront | models/Cart.js:48-49 | each fold is the first line's contribution plus the fold over the rest |
| CartModel.SumsAppend | models/Cart.js:48-49 | appending a line adds its quantity and its price × quantity to the totals |
| CartRoutes.Hydrate | routes/cart.js:32-39 | GET drops the lines whose plant does not resolve and shows the others in stored order with their plant's current fields; it never shows more lines than are stored |
| CartRoutes.HydrateConcat | routes/cart.js:32-39 | GET keeps the stored order: hydrating two runs of lines in sequence is hydrating each and concatenating the results |
| CartRoutes.HydrateSingleton | routes/cart.js:33-38 | one line is shown, joined with its plant's current fields, exactly when its plant resolves |
| CartRoutes.Dangling | routes/cart.js:33 | the dangling lines are exactly the lines whose plant no longer resolves |
| CartRoutes.HydrateCount | routes/cart.js:32-39 | GET shows all lines but the dangling ones: shown plus dangling equals all lines |
| CartRoutes.HydrateShowsResolvingLines | routes/cart.js:32-39 | every shown line carries its plant's current catalog fields, and every line whose plant resolves is shown |
| CartRoutes.HydrateAllResolve | routes/cart.js:32-39 | when every plant resolves, GET shows every line in stored order |
| CartRoutes.StoredTotalCountsDanglingLines | routes/cart.js:41-47 | the stored totalItems that GET reports equals the shown quantities plus the quantities of dangling lines (it is not recomputed over the shown lines) |
| CartRoutes.ResolveForCart | routes/cart.js:69-90 | checked in order: falsy plant id is 400; an id the driver cannot cast is 500; a missing plant is 404; an unavailable plant is 400. It resolves exactly when all pass, giving the cast id and the catalog plant |
| CartRoutes.Upsert | routes/cart.js:92-121 | a plant already in the cart has its line's quantity increased, with price, addedAt and all other lines unchanged and no new line; a new plant gets one line appended with the current price and time |
| CartRoutes.UpsertKeepsPlantsUnique | routes/cart.js:106-120 | the upsert keeps at most one line per plant |
| CartRoutes.UpsertTotals | routes/cart.js:112-123 | after the upsert, totalItems grows by exactly the quantity added, and totalAmount by that quantity at the price of the line it lands on |
| CartRoutes.RepeatedAddsMerge | routes/cart.js:94-112 | two adds of one plant to an empty cart give a single line with the summed quantity at the first add's price |
| CartRoutes.SetQuantity | routes/cart.js:173-184 | the matching line's quantity is replaced (not increased), every other line is unchanged, uniqueness is kept, and the totals change by the difference |
| CartRoutes.WithoutPlant | routes/cart.js:222-224 | the remaining lines are exactly the lines for other plants |
| CartRoutes.WithoutPlantConcat | routes/cart.js:222-224 | the filter keeps the stored order: filtering two runs of lines in sequence is filtering each and concatenating the results |
| CartRoutes.WithoutPlantSingleton | routes/cart.js:222-224 | one line is kept exactly when it is for another plant |
| CartRoutes.WithoutPlantLength | routes/cart.js:221-231 | the filter keeps the length exactly when no line holds the plant (the 404 test) |
| CartRoutes.WithoutPlantUnique | routes/cart.js:222-224 | filtering keeps at most one line per plant |
| CartRoutes.RemoveTotals | routes/cart.js:222-233 | removing a plant's only line takes exactly its quantity and price × quantity off the totals |
| CartRoutes.NotPresentFilter | routes/cart.js:222-226 | filtering out a plant that has no line changes nothing |
| CartRoutes.UpsertAsWritten | routes/cart.js:106-120 | as written, lines are matched against the raw request string; when none matches, a new line with the cast id is appended |
| CartRoutes.AsWrittenAgreesOnCanonicalIds | routes/cart.js:106-120 | for an id already in canonical form, the as-written upsert is the corrected one |
| CartRoutes.UpperCaseVariantCastsBack | routes/cart.js:77 | upper-casing one hex letter of a canonical id gives a different string that the driver casts to the same id |
| CartRoutes.UpperCaseIdDuplicatesLine | routes/cart.js:106-120 | as written, adding a plant already in the cart under such a spelling appends a second line for the same plant |
| CartRoutes.SampleIdDuplicatesLine | routes/cart.js:106-120 | the concrete case: "507F1f77bcf86cd799439011" added to a cart holding "507f1f77bcf86cd799439011" gives two lines for one plant |
| CartRoutes.FindLine | routes/cart.js:106-108 | the loop returns exactly `IndexOf` |
| CartRoutes.MergeLine | routes/cart.js:106-120 | the merge-or-push, built as a new sequence value, computes exactly `Upsert` |
| CartRoutes.CartStore.Save | models/Cart.js:47-50 | a save succeeds exactly when the schema holds, and then stores the cart with recomputed totals under its user; otherwise nothing changes |
| CartRoutes.CartStore.Get | routes/cart.js:9-49 | with no cart: empty items and zero totals (not 404). Otherwise: the hydrated lines and the STORED totals. The store is not modified |
| CartRoutes.CartStore.AddItem | routes/cart.js:64-148 | keeps the invariant. Every refusal returns its status and changes nothing. Otherwise the user's lines become `Upsert` of the old ones (or of none) and the reply is 201 with the new totals and the plant name; if the schema rejects the result, 500 and nothing changes. A new cart holds exactly one line at the current price |
| CartRoutes.CartStore.UpdateQuantity | routes/cart.js:153-204 | keeps the invariant; quantity ≤ 0 is 400, a missing cart or line is 404, each leaving the store unchanged; otherwise the cart becomes `SetQuantity` with recomputed totals and those totals are returned |
| CartRoutes.CartStore.RemoveItem | routes/cart.js:209-252 | keeps the invariant; a missing cart or a plant with no line is 404 and changes nothing; otherwise every line of the plant is removed and the recomputed totals are returned |
| CartRoutes.CartStore.Clear | routes/cart.js:257-289 | keeps the invariant; a missing cart is 404 and changes nothing; otherwise the cart is emptied with zero totals and zero totals are reported |
| WishlistModel.EntryValid | models/Wishlist.js:8-21 | an entry is valid when it has a plant id and notes of at most 500 characters |
| WishlistModel.SchemaValid | models/Wishlist.js:3-22 | a wishlist is valid when it has a user id and every entry is valid |
| WishlistModel.NewEntry | models/Wishlist.js:14-17 | an entry keeps its plant and notes, and addedAt falls back to the creation time when not given |
| WishlistModel.SchemaAdmitsDuplicates | models/Wishlist.js:28 | the schema (with its non-unique index) accepts a wishlist holding two entries for one plant |
| WishlistRoutes.HydrateEntries | routes/wishlist.js:39-46 | GET drops the entries whose plant does not resolve and shows the others in stored order with their plant's current fields; it never shows more entries than are stored |
| WishlistRoutes.HydrateEntriesConcat | routes/wishlist.js:39-46 | GET keeps the stored order: hydrating two runs of entries in sequence is hydrating each and concatenating the results |
| WishlistRoutes.HydrateEntriesSingleton | routes/wishlist.js:40-45 | one entry is shown, joined with its plant's current fields, exactly when its plant resolves |
| WishlistRoutes.DanglingEntries | routes/wishlist.js:40 | the dangling entries are exactly those whose plant no longer resolves |
| WishlistRoutes.HydrateEntriesCount | routes/wishlist.js:39-52 | the entries shown plus the dangling ones are all entries |
| WishlistRoutes.HydrateShowsResolvingEntries | routes/wishlist.js:39-46 | every shown entry carries its plant's current catalog fields, and every entry whose plant resolves is shown |
| WishlistRoutes.ResolveForWishlist | routes/wishlist.js:77-98 | checked in order: falsy plant id is 400; non-canonical id is 400; missing plant is 404. It resolves exactly when the id is canonical and names a plant. Availability is not checked |
| WishlistRoutes.FindEntry | routes/wishlist.js:110-112 | the loop finds an entry exactly when one holds the plant |
| WishlistRoutes.WithoutEntry | routes/wishlist.js:172-174 | the remaining entries are exactly those for other plants |
| WishlistRoutes.WithoutEntryConcat | routes/wishlist.js:172-174 | the filter keeps the stored order: filtering two runs of entries in sequence is filtering each and concatenating the results |
| WishlistRoutes.WithoutEntrySingleton | routes/wishlist.js:172-174 | one entry is kept exactly when it is for another plant |
| WishlistRoutes.WithoutEntryLength | routes/wishlist.js:171-181 | the filter keeps the length exactly when no entry holds the plant (the 404 test) |
| WishlistRoutes.WithoutEntryUnique | routes/wishlist.js:172-174 | filtering keeps at most one entry per plant |
| WishlistRoutes.WithoutEntryDropsOne | routes/wishlist.js:171-189 | with one entry per plant, removing a saved plant drops exactly one entry |
| WishlistRoutes.WishlistStore.Save | models/Wishlist.js:3-25 | a save succeeds exactly when the schema holds (userId required, plantId required, notes at most 500 characters) and then stores the wishlist; otherwise nothing changes |
| WishlistRoutes.WishlistStore.Get | routes/wishlist.js:15-65 | no wishlist gives an empty list and count 0; otherwise the hydrated entries, with totalItems equal to the number shown, i.e. all entries minus the dangling ones |
| WishlistRoutes.WishlistStore.AddPlant | routes/wishlist.js:70-145 | keeps the invariant. The reply has a 2xx status exactly when an entry was added. Every refusal returns its status and changes nothing. A plant already saved gives AlreadyInWishlist (status 400, isInWishlist) and leaves the entries, notes included, unchanged. Otherwise one entry (notes default '', addedAt now) is appended, or a new wishlist is created with just it, and 201 reports the new length and the plant name; a schema rejection (notes too long) is 500 and changes nothing |
| WishlistRoutes.WishlistStore.RemovePlant | routes/wishlist.js:150-201 | keeps the invariant; a non-canonical id is 400 before any lookup; a missing wishlist or entry is 404, changing nothing; otherwise every entry of the plant is removed and the new length, one less, is returned |

## Left out

- I/O and the database are not modelled: connection handling, `populate` and `lean` queries, and the second fetch after a cart save. A lookup is a catalog-map membership test.
- Concurrency is not modelled: two simultaneous requests for one user race (last writer wins). Each handler is modelled as atomic.
- Timestamps: `Date.now`, `new Date()` and `createdAt`/`updatedAt` become a `now: int` parameter. `updatedAt` is not part of the responses modelled.
- JavaScript number coercion is not modelled. `parseInt` of a non-numeric string gives NaN, `limit * 1` coerces, prices may be floating point. Quantities, prices, page and limit are integers here.
- CartRoutes.CartStore.UpdateQuantity takes an integer quantity. It does not model an absent or non-numeric quantity, which passes the `<= 0` test as NaN and then fails the save with 500.
- CartRoutes.CartStore.AddItem takes an integer quantity and only the 24-hex-digit string form of an id. A 12-byte raw string, which older drivers also accept as an ObjectId, is treated as not castable (500).
- The regex search of the listing (`search`, routes/plants.js:15-22) is not modelled. It depends on the regular-expression engine.
- Sort execution is not modelled. `ListPlants` takes the plants in the order the database sort produces, and only the sort direction is computed. `sortBy` names a field and has no further logic.
- Response message strings, the development-only `error.message`, and the `cartItemId`/`wishlistItemId` fields are not modelled. Cart lines have no `_id`, so `cartItemId` is always undefined.
- The populate projection and the rest of the document (`...item.plantId`) are reduced to `PlantSummary`.
- Non-string request values are not modelled: a number as a plantId, an array as a category, `null` notes.
- PlantModel.PlantValid (the `maxlength` of name and description) and WishlistModel.EntryValid (the `maxlength` of notes) count characters of a `seq<char>`. JavaScript's `maxlength` counts UTF-16 code units, so a string with characters outside the basic plane may differ.
- The other plant routes are not part of this model. Each is one database call, and the model has no database:
  - GET `/:id` (routes/plants.js:69-92) answers 404 when `findById` finds nothing and 500 on an error, such as an id that does not cast.
  - PUT `/:id` (routes/plants.js:164-192) merges the request body into the plant, with `updatedAt` set and the schema validators run. It answers 404 when there is no such plant, and 400 on any error, a validation failure included.
  - DELETE `/:id` (routes/plants.js:197-220) answers 404 when there is no such plant and 500 on an error.
  - GET `/categories/list` (routes/plants.js:225-240) has no 404 path. It answers with the distinct categories over all plants, sorted by JavaScript's default string order, and 500 on an error.
- server.js, config/database.js, scripts/setupDatabase.js, seeders/*.js and src/controllers/plantController.js are not part of this model. They are framework wiring, I/O, static data and an unused duplicate of the listing.
- CartRoutes.CartStore.AddItem uses the corrected matching by cast id (`Upsert`), so the invariant's one-line-per-plant clause holds of the model only. The program as written can store two lines for one plant (routes/cart.js:106-120; see Findings and `UpsertAsWritten`).
- Logging is not modelled: the `console.log` and `console.error` calls (routes/wishlist.js:19, 75, 154 and every `catch` block of the routes) have no effect on the state or the responses.
- CartRoutes.CartStore.UpdateQuantity and CartRoutes.CartStore.RemoveItem compare the raw path parameter with the stored canonical ids, as written. An id spelled in upper case therefore gives 404. This breaks no invariant, so it is modelled as is.

## Findings

| source | as written | input that shows it | evidently intended | confidence | as-written member | corrected member |
|---|---|---|---|---|---|---|
| routes/cart.js:106-120 | POST looks the plant up through the driver's cast (`findById(plantId)` accepts upper-case hex) but finds the existing line by comparing the stored canonical id with the raw request string; a new line stores the cast id | a cart holding plant "507f1f77bcf86cd799439011" and a POST of plantId "507F1f77bcf86cd799439011": the plant is found, no line matches, and a second line for the same plant is pushed | lines are matched by the plant's ObjectId, so a second add of the same plant merges into its line and the cart keeps one line per plant | not executed | CartRoutes.UpsertAsWritten, CartRoutes.UpperCaseIdDuplicatesLine, CartRoutes.SampleIdDuplicatesLine | CartRoutes.Upsert, CartRoutes.UpsertKeepsPlantsUnique |
