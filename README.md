# Food-ordering frontend: order, search and form logic in Dafny

This project models the client-side logic of a food-ordering web frontend and proves properties of it. Six parts are covered:

- **Cart.** The restaurant detail page merges a dish into the cart by id or appends it. It filters a line out on removal. It snapshots the cart to session storage under `cartItems-<restaurantId>` and rehydrates it on mount. Checkout turns the cart into a payload that carries quantities as decimal text.
- **Search state.** The search page holds a query, a page, the selected cuisines and a sort option. Five setters rebuild it, and every one except the page change returns to page 1.
- **Cuisine filter.** Checking a cuisine appends it, unchecking filters it out, reset clears the selection, and the list shows all cuisines or only the first seven.
- **Search request.** The search state becomes four query parameters set on a `URLSearchParams`. The request is issued only when the route names a city.
- **Sort dropdown.** A fixed table of three options, with a fallback label.
- **Restaurant form and checkout button.** The form has a validation schema. Its submit handler flattens the values into ordered multipart entries with indexed keys. The checkout button decides between login, loading and the checkout trigger.

One Dafny module corresponds to each source file:

- `CartReducer`, `CartJson` and `DetailsPage` cover `src/pages/DetailsPage.tsx`. `CartJson` is a concrete model of the `JSON.stringify`/`JSON.parse` pair the page uses, with the round trip proved.
- `SearchPage`, `CuisinesFilter`, `SearchApi`, `SortOptionDropdown`, `RestaurantForm` and `CheckoutButton` each cover the file of the same name.
- `Wrappers`, `Decimal` and `Strings` hold `Option`/`Result`, integer `toString` with its reader, and `join`/`split`.

The code works two ways, and the model follows each:

- **Stateful code becomes classes.** The cart store is a class with `cart` and `storage` fields. `URLSearchParams` is a class whose `Set` reassigns its list of pairs. `FormData` is a class whose `Append` extends its entries. `onSubmit` appends through two loops with invariants.
- **Pure code becomes functions.** The record-spread setters, the filters and the lookups are functions.

Two behaviours of the page's code are modelled as they are:

- **`removeFromCart` writes nothing to session storage.** Only `addToCart` saves a snapshot. A reload after a removal therefore brings the removed line back. `DetailsPage.OrderWalkThrough` shows this.
- **Unreadable stored text is not turned into an empty cart.** `JSON.parse` throws on it, so mounting fails with `SyntaxError` (`DetailsPage.Mount`).

One part of the model departs from the code on purpose. `RestaurantForm.Resolve` validates with the corrected schema `RestaurantForm.Schema`, in which the image file is optional. The schema as written is `RestaurantForm.SchemaAsWritten`, and the Findings section shows the edit it wrongly rejects. Submission (`RestaurantForm.OnSubmit`) is modelled on data that passed the corrected schema.

## Model

| member | source | states |
|---|---|---|
| Decimal.IntToString | src/pages/DetailsPage.tsx:71 | `toString` of an integer: at least one character, starting with '-' exactly for negatives; `IntToStringRoundTrip` reads it back |
| Decimal.IntToStringRoundTrip | src/pages/DetailsPage.tsx:71 | reading back `toString` of an integer, followed by non-digit text, yields the integer and that text |
| Decimal.IntToStringInjective | src/pages/DetailsPage.tsx:71 | two integers have the same decimal text exactly when they are equal |
| Strings.Join | src/api/SearchApi.tsx:13 | `join(",")`: the empty list gives "" and a single element is itself; `SplitJoin` recovers the list |
| Strings.SplitJoin | src/api/SearchApi.tsx:13 | splitting the comma-join of a non-empty list whose elements contain no comma gives the list back |
| CartReducer.AddToCart | src/pages/DetailsPage.tsx:32-47 | the new cart holds the dish's id; every earlier line keeps its id, name and price; lines with the dish's id gain one in quantity and the others keep theirs; an absent id adds one line at the end with quantity 1 and the length grows by one, otherwise the length is unchanged |
| CartReducer.AddNewAppends | src/pages/DetailsPage.tsx:42-46 | a dish whose id is not in the cart appends exactly `{id, name, price, quantity 1}` after the unchanged earlier lines |
| CartReducer.AddExistingIncrements | src/pages/DetailsPage.tsx:36-41 | in a cart with unique ids, a dish already present raises only its own line's quantity by one; length, order and the other lines are unchanged |
| CartReducer.AddTwiceToEmpty | src/pages/DetailsPage.tsx:34-46 | the same dish added twice to an empty cart gives one line of quantity 2 |
| CartReducer.AddPreservesWellFormed | src/pages/DetailsPage.tsx:34-47 | unique ids and quantities of at least 1 survive an addition |
| CartReducer.RemoveFromCart | src/pages/DetailsPage.tsx:57 | no line with the id is left; a line is in the result exactly when it was in the cart with another id; the cart does not grow |
| CartReducer.RemoveDistributes | src/pages/DetailsPage.tsx:57 | removal commutes with concatenation, so the remaining lines keep their relative order |
| CartReducer.RemoveAbsentIsIdentity | src/pages/DetailsPage.tsx:57 | removing an id that is not in the cart returns an equal cart |
| CartReducer.RemovePreservesWellFormed | src/pages/DetailsPage.tsx:57 | unique ids and quantities of at least 1 survive a removal |
| CartReducer.RemoveUndoesNewAdd | src/pages/DetailsPage.tsx:42-57 | adding a dish that was absent and then removing it gives the original cart |
| CartReducer.CheckoutItems | src/pages/DetailsPage.tsx:67-72 | one payload entry per line in cart order, with `menuItemId` the line's id, the same name, and a quantity text that reads back as the line's quantity; no price |
| CartJson.EncodeCart | src/pages/DetailsPage.tsx:49 | `JSON.stringify(cart)`: an array text, never empty, opening with `[` and closing with `]`; `CartRoundTrip` reads it back |
| CartJson.DecodeCart | src/pages/DetailsPage.tsx:29 | `JSON.parse` of a stored cart: the cart, or `SyntaxError`; `CartRoundTrip` states what it gives on every snapshot |
| CartJson.EscapeRoundTrip | src/pages/DetailsPage.tsx:49 | the reader of string literals recovers every string from its `JSON.stringify` escaping (section 25.5.2.3 of ECMA-262) |
| CartJson.StringRoundTrip | src/pages/DetailsPage.tsx:49 | a quoted, escaped string reads back as itself followed by what came after it |
| CartJson.ItemRoundTrip | src/pages/DetailsPage.tsx:49 | the JSON object written for a cart line reads back as that line |
| CartJson.ItemsRoundTrip | src/pages/DetailsPage.tsx:49 | the comma-separated objects of a non-empty cart and the closing bracket read back as the cart |
| CartJson.CartRoundTrip | src/pages/DetailsPage.tsx:29-49 | `JSON.parse(JSON.stringify(cart))` gives the same cart: lines, order, prices and quantities |
| DetailsPage.StorageKey | src/pages/DetailsPage.tsx:28 | the key is `cartItems-` followed by exactly the restaurant id |
| DetailsPage.StorageKeyInjective | src/pages/DetailsPage.tsx:28 | two restaurants share a storage key exactly when their ids are equal |
| DetailsPage.LoadCart | src/pages/DetailsPage.tsx:27-30 | a missing or empty stored value gives the empty cart; any other value is decoded, and unreadable text is a `SyntaxError` |
| DetailsPage.SaveCart | src/pages/DetailsPage.tsx:49 | `setItem(key, JSON.stringify(cart))`: the slot holds the snapshot; `SaveThenLoad` states that it reloads and that other slots are untouched |
| DetailsPage.SnapshotLoads | src/pages/DetailsPage.tsx:27-30 | a slot that is absent, empty or holds the snapshot of a well-formed cart always loads, and loads a cart with unique ids and positive quantities |
| DetailsPage.SaveKeepsSnapshotValid | src/pages/DetailsPage.tsx:49 | saving a well-formed cart leaves a valid snapshot in its slot |
| DetailsPage.SaveThenLoad | src/pages/DetailsPage.tsx:28-49 | after saving a cart under a key, loading that key gives the cart; loading any other key gives what it gave before |
| DetailsPage.CheckoutDisabled | src/pages/DetailsPage.tsx:113 | the checkout button is disabled exactly when the cart is empty |
| DetailsPage.DeliveryDetailsOf | src/pages/DetailsPage.tsx:74-80 | the delivery details copy the five fields of the submitted user form |
| DetailsPage.CartStore.constructor | src/pages/DetailsPage.tsx:27-30 | the store starts with the cart read from storage for its restaurant; when the slot holds a valid snapshot, or none, the store invariant holds |
| DetailsPage.CartStore.AddToCart | src/pages/DetailsPage.tsx:32-53 | the cart becomes the merged cart; storage gets its snapshot under the store's key, and reloading it gives the new cart; the store invariant (a well-formed cart and a valid snapshot in its slot) is kept |
| DetailsPage.CartStore.RemoveFromCart | src/pages/DetailsPage.tsx:55-60 | the cart becomes the filtered cart and storage is left exactly as it was; the invariant is kept |
| DetailsPage.CartStore.CheckoutData | src/pages/DetailsPage.tsx:62-81 | no request exactly when no restaurant is loaded; otherwise the request carries the checkout items of the current cart, the restaurant's id and the delivery details |
| DetailsPage.Mount | src/pages/DetailsPage.tsx:27-30 | mounting fails exactly when the stored text cannot be decoded; otherwise a fresh store holds the decoded cart and the untouched storage; a slot with a valid snapshot always mounts to a store that keeps the invariant, and a first visit mounts to the empty cart |
| DetailsPage.OrderWalkThrough | src/pages/DetailsPage.tsx:32-60 | adding m1, m1, m2 and removing m1 leaves only the m2 line, while reloading storage gives back `[m1 × 2, m2 × 1]`, since removal is not saved |
| SearchPage.SetSearchQuery | src/pages/SearchPage.tsx:30-36 | sets the query and page 1; cuisines and sort are unchanged |
| SearchPage.ResetSearch | src/pages/SearchPage.tsx:38-46 | whatever the state, the result is the initial state `{"", 1, [], "bestMatch"}` |
| SearchPage.SetPage | src/pages/SearchPage.tsx:48-53 | sets only the page; query, cuisines and sort are unchanged |
| SearchPage.SetSelectedCuisines | src/pages/SearchPage.tsx:55-61 | replaces the cuisine list wholesale and sets page 1; query and sort are unchanged |
| SearchPage.SetSortOption | src/pages/SearchPage.tsx:63-69 | sets the sort and page 1; query and cuisines are unchanged |
| SearchPage.PageResetsUnlessPageChange | src/pages/SearchPage.tsx:30-69 | every transition except a page change leaves the state on page 1; a page change only replaces the page |
| SearchPage.RunEndsOnFinalPage | src/pages/SearchPage.tsx:30-69 | after any sequence of transitions the page is that of the last action if it was a page change, page 1 if it was anything else, and the starting page if there were none |
| SearchPage.PageChangesKeepFilters | src/pages/SearchPage.tsx:48-53 | a run of page changes alone moves only the page |
| SearchPage.PagePositive | src/pages/SearchPage.tsx:21-69 | from a positive page, the page stays positive while every page change asks for a positive page |
| SearchPage.ResetIdempotent | src/pages/SearchPage.tsx:21-46 | reset is idempotent and yields the state the page starts in |
| SearchPage.ToggleCuisineResetsPage | src/pages/SearchPage.tsx:55-61 | toggling a cuisine box returns to page 1, and the cuisine is selected afterwards exactly when the box was checked |
| SearchPage.ChooseSortOption | src/pages/SearchPage.tsx:63-69 | choosing dropdown entry i sets that entry's value as the sort, shows its label, and returns to page 1 |
| SearchPage.NoResults | src/pages/SearchPage.tsx:71-73 | "No results found" exactly when there is no response, the response has no data, or the city is absent or empty; an empty data list does not take this branch |
| CuisinesFilter.Uncheck | src/components/CuisinesFilter.tsx:20 | the result holds exactly the selected cuisines other than the clicked one, and is no longer than the selection |
| CuisinesFilter.HandleCuisinesChange | src/components/CuisinesFilter.tsx:15-22 | checking appends the cuisine after the unchanged selection; unchecking removes every occurrence and keeps every other cuisine |
| CuisinesFilter.UncheckDistributes | src/components/CuisinesFilter.tsx:20 | unchecking commutes with concatenation, so the rest keeps its order |
| CuisinesFilter.UncheckAbsent | src/components/CuisinesFilter.tsx:20 | unchecking a cuisine that is not selected leaves the selection equal |
| CuisinesFilter.CheckThenUncheck | src/components/CuisinesFilter.tsx:18-20 | checking a cuisine not previously selected and then unchecking it restores the selection |
| CuisinesFilter.HandleCuisinesReset | src/components/CuisinesFilter.tsx:24-26 | reset hands on the empty selection |
| CuisinesFilter.VisibleCuisines | src/components/CuisinesFilter.tsx:40 | expanded shows the whole list; collapsed shows the first min(7, n) cuisines; always a prefix |
| CuisinesFilter.IsSelected | src/components/CuisinesFilter.tsx:41 | a box is ticked exactly when its cuisine occurs in the selection |
| SortOptionDropdown.FindOption | src/components/SortOptionDropdown.tsx:31 | a found option has the value and sits at the first index holding that value; nothing is found exactly when no option has the value |
| SortOptionDropdown.SelectedSortLabel | src/components/SortOptionDropdown.tsx:30-31 | a known value shows its own label; an unknown value shows "Best match" |
| SortOptionDropdown.OnSelect | src/components/SortOptionDropdown.tsx:42 | the value emitted for entry i is one whose label is entry i's label |
| SortOptionDropdown.SortOptionsTable | src/components/SortOptionDropdown.tsx:14-27 | three options, in the order bestMatch, deliveryPrice, estimatedDeliveryTime, with pairwise distinct values |
| SortOptionDropdown.SelectedSortLabelExamples | src/components/SortOptionDropdown.tsx:30-31 | `deliveryPrice` shows "Delivery price", `estimatedDeliveryTime` shows "Estimated delivery time", and an unknown value shows "Best match" |
| SearchApi.Get | src/api/SearchApi.tsx:11-14 | `get` finds nothing exactly when no pair has the name |
| SearchApi.GetAt | src/api/SearchApi.tsx:11-14 | `get` returns the value of the first pair with the name |
| SearchApi.SetParam | src/api/SearchApi.tsx:11-14 | `set` (section 6.2 of the WHATWG URL Standard) on a list of pairs; its contract is `SetParamSpec` |
| SearchApi.ReplaceFirstAt | src/api/SearchApi.tsx:11-14 | the replacement takes the place of the first pair with the name, and later pairs with that name are dropped |
| SearchApi.SetParamSpec | src/api/SearchApi.tsx:11-14 | after `set`, `get` gives the new value and exactly one pair has the name; the pairs with other names are untouched and in order; an existing name is replaced at the index of its first pair, with the later duplicates removed; a new name is appended |
| SearchApi.SearchParams.Set | src/api/SearchApi.tsx:11-14 | the object's pairs become those of the `set` operation applied to the old pairs |
| SearchApi.SearchParamsOf | src/api/SearchApi.tsx:10-14 | the four pairs of a search; `CreateSearchParams` produces them and `SearchParamsCarryState` reads the state back from them |
| SearchApi.SetFourNames | src/api/SearchApi.tsx:10-14 | four `set` calls with distinct names on empty parameters give the four pairs in call order |
| SearchApi.CreateSearchParams | src/api/SearchApi.tsx:9-14 | the four `set` calls produce exactly `searchQuery`, `page`, `selectedCuisines`, `sortOption` with the state's values |
| SearchApi.SearchParamsCarryState | src/api/SearchApi.tsx:10-14 | exactly four names in this order; query and sort verbatim; the page text reads back as the page; the empty cuisine list gives "" |
| SearchApi.CuisinesParamRoundTrip | src/api/SearchApi.tsx:13 | for a non-empty cuisine list without commas, splitting the parameter on "," recovers the list |
| SearchApi.SearchQueryKey | src/api/SearchApi.tsx:25 | the cache key is the query name `searchRestaurants` with the whole state |
| SearchApi.QueryKeyIdentifiesState | src/api/SearchApi.tsx:25 | two states share a cache key exactly when they agree field by field |
| SearchApi.UseSearchRestaurants | src/api/SearchApi.tsx:24-30 | a request is issued exactly when the city is present and non-empty, and then carries the key, the city and the state's parameters |
| RestaurantForm.SchemaAsWritten | src/components/forms/RestaurantForm.tsx:16-42 | the schema as written, with a required image file; `AsWrittenRequiresFile` and `AsWrittenRejectsExistingImage` state what it accepts |
| RestaurantForm.Resolve | src/components/forms/RestaurantForm.tsx:16-42 | validation with the corrected schema, not the written one: data exactly when `Schema` holds, carrying the submitted values unchanged |
| RestaurantForm.ResolvedDataValid | src/components/forms/RestaurantForm.tsx:29-42 | validated data has a cuisine, menu rows with non-empty names and prices of at least 1, and an image URL or file |
| RestaurantForm.RejectsEmptyCuisines | src/components/forms/RestaurantForm.tsx:29 | an empty cuisine list is rejected |
| RestaurantForm.RejectsInvalidMenuItem | src/components/forms/RestaurantForm.tsx:32-33 | a menu row with an empty name or a price below 1 is rejected |
| RestaurantForm.RejectsMissingImage | src/components/forms/RestaurantForm.tsx:39-42 | neither an image URL nor an image file: rejected |
| RestaurantForm.AsWrittenRequiresFile | src/components/forms/RestaurantForm.tsx:36-42 | as written, the schema holds exactly when the field rules hold and a new file is chosen; the refinement adds nothing |
| RestaurantForm.AsWrittenRejectsExistingImage | src/components/forms/RestaurantForm.tsx:36-42 | an edit that keeps the existing image URL and chooses no file meets every field rule and the refinement, yet the schema as written rejects it |
| RestaurantForm.SchemaExtendsAsWritten | src/components/forms/RestaurantForm.tsx:36-42 | the intended schema accepts what the written one accepts, plus valid forms that have only an image URL |
| RestaurantForm.FormData.Append | src/components/forms/RestaurantForm.tsx:71-84 | `append` adds the pair after the existing entries |
| RestaurantForm.CuisineEntries | src/components/forms/RestaurantForm.tsx:76-78 | one entry per cuisine |
| RestaurantForm.CuisineEntryKey | src/components/forms/RestaurantForm.tsx:76-78 | the entry for cuisine i has the key `cuisines[i]` and the cuisine as its value |
| RestaurantForm.MenuEntries | src/components/forms/RestaurantForm.tsx:79-82 | two entries per menu row |
| RestaurantForm.MenuEntryKeys | src/components/forms/RestaurantForm.tsx:79-82 | row i gives `menuItems[i][name]` with its name, then `menuItems[i][price]` with its price as text |
| RestaurantForm.AppendHeader | src/components/forms/RestaurantForm.tsx:71-75 | the five scalar appends add the header entries after the existing ones |
| RestaurantForm.AppendCuisines | src/components/forms/RestaurantForm.tsx:76-78 | the cuisine loop appends the cuisine entries in list order |
| RestaurantForm.AppendMenuItems | src/components/forms/RestaurantForm.tsx:79-82 | the menu loop appends each row's name and price entries in list order |
| RestaurantForm.FormEntries | src/components/forms/RestaurantForm.tsx:70-85 | the body of a submission; `OnSubmit` builds it and the lemmas below state its layout and keys |
| RestaurantForm.OnSubmit | src/components/forms/RestaurantForm.tsx:68-88 | the submitted body is exactly the header, the cuisine entries, the menu entries and the optional file entry |
| RestaurantForm.HeaderComesFirst | src/components/forms/RestaurantForm.tsx:71-75 | the body starts with `name`, `city`, `country`, `deliveryPrice`, `estimatedDeliveryTime`, in that order, with the numbers as decimal text |
| RestaurantForm.CuisineEntryAt | src/components/forms/RestaurantForm.tsx:76-78 | cuisine i is entry 5 + i of the body, keyed `cuisines[i]` |
| RestaurantForm.MenuEntriesAt | src/components/forms/RestaurantForm.tsx:79-82 | menu row i gives its name entry and, immediately after it, its price entry |
| RestaurantForm.EntryCount | src/components/forms/RestaurantForm.tsx:71-85 | the body has 5 + cuisines + 2 × menu rows entries, plus 1 if a file is chosen |
| RestaurantForm.ImageEntryLastIffFile | src/components/forms/RestaurantForm.tsx:83-85 | the last entry is a file exactly when a file was chosen, and it is then `imageFile` with that file; every other entry is text |
| RestaurantForm.CuisineKeyInjective | src/components/forms/RestaurantForm.tsx:77 | two cuisine keys are equal exactly when their indexes are |
| RestaurantForm.MenuKeyInjective | src/components/forms/RestaurantForm.tsx:80-81 | menu keys are equal exactly when row and field agree; a name key never equals a price key |
| RestaurantForm.KeysDistinct | src/components/forms/RestaurantForm.tsx:71-85 | no two entries of the body share a key |
| CheckoutButton.Render | src/components/CheckoutButton.tsx:29-45 | not signed in: the login button whatever the other flags; signed in while auth is loading, no profile loaded or a checkout is in flight: the loading button; otherwise the checkout trigger, disabled exactly when `disabled` |
| CheckoutButton.StartIffAllowed | src/components/CheckoutButton.tsx:29-45 | checkout can be started exactly when the user is signed in, auth is settled, the profile is loaded, no checkout is in flight and the button is enabled |
| CheckoutButton.NoSecondSubmission | src/components/CheckoutButton.tsx:37-39 | while a checkout is in flight the trigger is never offered |
| CheckoutButton.OutcomesExclusiveAndExhaustive | src/components/CheckoutButton.tsx:29-58 | login, loading and checkout are each tied to their condition, and exactly one of them happens |
| CheckoutButton.CartGatesCheckout | src/pages/DetailsPage.tsx:112-116 | on the details page, checkout can start exactly when the cart is non-empty and the user is signed in, auth is settled, the profile is loaded and nothing is in flight |

## Left out

- Rendering: JSX, styling, the loading text of the details page, the expand toggle of the cuisine list, the form's loading button and the dialog contents.
- Network calls: `fetch`, `res.ok`/`res.json()`, `createCheckoutSession` and the `window.location.href` redirect. The API modules `src/api/RestaurantApi.tsx` and `src/api/UserApi.tsx` are not part of this model.
- The Auth0 login redirect (`loginWithRedirect` with `returnTo`): the flags it sets are inputs of `CheckoutButton.Render`.
- react-query caching, refetching and the order in which responses arrive. The code has no guard against stale responses, so there is nothing of its own to verify there. Only the cache key and the `enabled` gate are modelled.
- Percent-encoding of the query string (`params.toString()`, section 5.2 of the WHATWG URL Standard): the model stops at the list of name-value pairs.
- Number range: `quantity`, `page`, prices and delivery fields are unbounded integers. JavaScript numbers lose precision past 2^53, and `toString` switches to exponent notation from 1e21. `Decimal.IntToString` gives plain digits for every integer.
- Floating point: prices, delivery price and delivery time are integers, as in minor currency units. `toString` of a non-integral number is not modelled.
- RestaurantForm.Resolve: `z.coerce.number` coercion of non-numeric text is not modelled: a number field is either absent (`None`) or an integer. `z.string` accepting an empty name, city or country is kept.
- CartJson.DecodeCart: reads exactly the texts `JSON.stringify` writes for a cart: no whitespace, keys in the written order, integer numbers, no surrogate `\u` escapes. Other JSON texts that `JSON.parse` would read (other key orders, whitespace, fractions) are reported as `SyntaxError`. Nothing but the page writes this key, so only the round trip matters.
- Session storage quota errors and its persistence across tabs: storage is a map of strings.
- `useParams` may leave `restaurantId` undefined (key `cartItems-undefined`): the id is modelled as a string.
- The `email as string` cast of the user form: the email is modelled as a string.
- The cuisine list is a configuration constant of the application, so it is a parameter of `CuisinesFilter.VisibleCuisines`.
- `form.reset(restaurant)` and the form's default values are React plumbing. They only prefill the values that `RestaurantForm.Resolve` then validates.
- Asynchronous state updates: the `useState` updater functions are applied one after another, as React applies queued updates.
- Field names: the source's `_id` is `id`, and a sort option's `label` is `caption`, because `label` is a reserved word in Dafny.

## Findings

| source | as written | input that shows it | evidently intended | confidence | as-written member | corrected member |
|---|---|---|---|---|---|---|
| src/components/forms/RestaurantForm.tsx:37 | `imageFile: z.instanceof(File, …)` makes the file required, so the refinement `imageUrl \|\| imageFile` on lines 39-42 can never be what fails | editing a restaurant that already has `imageUrl` set, without choosing a new file (`RestaurantForm.ExistingImageEdit`): rejected with "Image is required" | `imageFile` optional, one of image URL or file required. The refinement, the `if (formData.imageFile)` guard on line 83 and the display of the existing image in the image section all assume this | not executed; high | RestaurantForm.AsWrittenRejectsExistingImage | RestaurantForm.Resolve |
