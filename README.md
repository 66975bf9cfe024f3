# SwapSpot marketplace core, modelled in Dafny

SwapSpot is a browser marketplace. This project models the three parts of it
that contain logic:

- **The cart slice** (`cart.dfy`, module `Cart`). The state is a list of cart
  lines keyed by listing id, each with a quantity, plus an `isOpen` flag.
  The reducers `addToCart`, `removeFromCart`, `updateQuantity`,
  `incrementQuantity`, `decrementQuantity` and `toggleCart` change that state
  in place. They are the methods of class `CartState`. Each method is proved
  equal to a pure function of the old items (`Added`, `Removed`,
  `QuantityUpdated`, `Incremented`, `Decremented`). Lemmas then state what
  those functions do: ids stay unique, every quantity stays at least 1,
  other lines are left alone, and `addToCart` (and `incrementQuantity` for
  an id in the cart) raises the item count by exactly one. The
  selectors `selectCartItemCount` and `selectCartTotal` are left folds
  (`SumOf`). `items.find` is the loop method `Find`.
- **The "create a listing" wizard** (`wizard.dfy`, module `Wizard`). Class
  `ListingWizard` holds `step`, `listingType`, `formData`, `errors`,
  `isSubmitting` and `showForm`, and its methods are the component's
  handlers. The step-dependent check in `validateStep` is given twice:
  - the method `ValidateStep` builds the error map key by key, as the
    component does;
  - the function `ValidationErrors` states it as a table of required fields
    per step.

  The method is proved to produce the table's map. The two buttons at the
  foot of the form are `LeftButton` (Back, or Cancel at step 1) and
  `RightButton` (Next, or Submit at step 3, disabled while submitting). With
  these, `step` provably stays in 1..3. The timed completion of a submission
  is the explicit method `CompleteSubmission`. The field `pendingCompletions`
  counts the timers that have been started and have not yet fired.
- **The listing filter** (`listings.dfy`, module `Listings`). It is the body
  of the filter effect on the home page. It applies an exact category filter
  unless "All Categories" is selected. When the search term is not empty, it
  then applies a case-insensitive substring search on title or description.
  `FilterListings` is the pure function. The lemmas show that it is one
  order-preserving filter by a single predicate, that it is idempotent, and
  that after Clear Filters it shows every listing.

Two helper modules support these. `Sequences` holds the order-preserving
`filter` shared by `removeFromCart` and the listing page, and a recursive
definition of "subsequence". `Text` holds ECMAScript's `trim` whitespace set,
an ASCII `toLowerCase` and `includes`.

The model follows the code as written. In particular:

- The wizard has only six fields: title, description, price, condition,
  category and location. It has no buy- or swap-specific fields, no file
  upload and no min/max price check.
- `nextStep` does not cap `step` at 3, and `prevStep` does not floor it at 1.
  Only the buttons keep `step` in range (`src/components/MainFeature.jsx:506`
  and `:527`). That is why `NextStep` requires `step < 3` and `PrevStep`
  requires `step > 1`, while the button methods require nothing.
- `handleSubmit` validates whatever step is current. It does not check that
  the step is 3.
- Closing the form while a submission is running does not cancel the timer.
  The completion still fires later: it resets the form and closes it.

Some behaviour of the code is easy to overlook. The model keeps it:

- The price check at step 2 is `!formData.price`, without `trim`. Taken on
  its own, `validateStep` would accept a price of only spaces
  (`Step2Errors`). The price box is a number input
  (`src/components/MainFeature.jsx:375`), which never stores such a value, so
  in the page itself this case does not arise.
- The condition buttons (`src/components/MainFeature.jsx:423`) set
  `formData.condition` without clearing `errors.condition`
  (`SelectCondition`).
- `handleChange` blanks an error only when it is truthy. The key stays in the
  map with `''` as its value.
- The submission completion does not clear `errors` and does not reset
  `listingType`. `toggleForm` resets neither `listingType` nor
  `isSubmitting`.
- Adding an id that is already in the cart raises the total by the price
  stored in that line, not by the price in the new payload
  (`AddRaisesTotalByPrice`).

## Model

| member | source | states |
|---|---|---|
| `Sequences.Filter` | src/store/cartSlice.js:24 | `filter`: the result is no longer than the input, and an element is in it iff it is in the input and passes the predicate |
| `Sequences.FilterIsSubsequence` | src/pages/Home.jsx:133 | a filtered sequence is an order-preserving subsequence of its input |
| `Sequences.FilterAppend` | src/store/cartSlice.js:24 | filtering distributes over concatenation, so kept elements keep their relative order |
| `Sequences.FilterIdempotent` | src/pages/Home.jsx:139-142 | filtering twice by one predicate equals filtering once |
| `Sequences.FilterFuse` | src/pages/Home.jsx:129-143 | two chained filters equal one filter by the conjunction |
| `Text.TrimEmptyIff` | src/components/MainFeature.jsx:69-70 | `s.trim()` is empty exactly when every character of `s` is ECMAScript whitespace or a line terminator |
| `Text.Trim` | src/components/MainFeature.jsx:69-70 | `trim()` never lengthens the text, and what it returns is empty or starts and ends with a character that is not whitespace |
| `Text.Lower` | src/pages/Home.jsx:138-141 | `toLowerCase` keeps the length, maps each character on its own, and leaves no ASCII capital |
| `Text.LowerIdempotent` | src/pages/Home.jsx:138-141 | lower-casing a lower-cased string changes nothing |
| `Text.Contains` | src/pages/Home.jsx:140-141 | `includes` can only hold when the needle is no longer than the text |
| `Text.ContainsEmptyAndSelf` | src/pages/Home.jsx:140-141 | every string includes `''` and itself, so an empty lower-cased term matches any listing |
| `Cart.IndexOf` | src/store/cartSlice.js:13 | `find` gives the first line with the id, or -1 exactly when no line has it |
| `Cart.IndexOfUnique` | src/store/cartSlice.js:28 | with unique ids, the line `find` returns is the only line with that id |
| `Cart.Find` | src/store/cartSlice.js:35 | the search loop returns the first index with the id, or -1 when none has it |
| `Cart.SumOf` | src/store/cartSlice.js:57-58 | a `reduce` sum of terms that are all non-negative is non-negative |
| `Cart.SumOfUpdate` | src/store/cartSlice.js:57-58 | replacing one line changes the fold by exactly the difference of that line's terms |
| `Cart.ItemCount` | src/store/cartSlice.js:57 | `selectCartItemCount`: when every quantity is at least 1, the count is at least the number of lines |
| `Cart.Total` | src/store/cartSlice.js:58 | `selectCartTotal`: never negative while every price and quantity is non-negative |
| `Cart.Added` | src/store/cartSlice.js:12-21 | after `addToCart` some line has the payload's id; the length grows by one exactly when no line had it |
| `Cart.Removed` | src/store/cartSlice.js:23-25 | after `removeFromCart` no line has the id and the list is no longer |
| `Cart.QuantityUpdated` | src/store/cartSlice.js:26-33 | `updateQuantity` keeps the number of lines and every line's id and price |
| `Cart.Incremented` | src/store/cartSlice.js:34-39 | `incrementQuantity` keeps the number of lines and every line's id and price |
| `Cart.Decremented` | src/store/cartSlice.js:40-45 | `decrementQuantity` keeps the number of lines and every line's id and price |
| `Cart.AddNewAppends` | src/store/cartSlice.js:18-20 | adding an absent id appends exactly one line, `{ ...payload, quantity: 1 }`; earlier lines are unchanged |
| `Cart.AddExistingBumps` | src/store/cartSlice.js:13-17 | adding a present id raises that line's quantity by exactly 1; the length, the line's other fields and every other line are unchanged |
| `Cart.AddKeepsInvariant` | src/store/cartSlice.js:12-21 | `addToCart` keeps ids unique and every quantity at least 1 |
| `Cart.AddCountsOne` | src/store/cartSlice.js:57 | `addToCart` raises the item count by exactly 1 |
| `Cart.AddRaisesTotalByPrice` | src/store/cartSlice.js:58 | `addToCart` raises the total by one unit price: the payload's for a new line, the stored line's for an existing one |
| `Cart.AddAllKeepsInvariant` | src/store/cartSlice.js:12-21 | any sequence of `addToCart` calls keeps ids unique and quantities at least 1, and raises the item count by the number of calls |
| `Cart.RemoveDropsOnlyId` | src/store/cartSlice.js:23-25 | after `removeFromCart(id)` no line has the id; a line remains iff it was there with another id; the order is kept; an absent id changes nothing |
| `Cart.RemoveKeepsInvariant` | src/store/cartSlice.js:23-25 | `removeFromCart` keeps ids unique and quantities at least 1 |
| `Cart.UpdateSetsClamped` | src/store/cartSlice.js:26-33 | `updateQuantity` sets the matching line's quantity to `max(1, q)` and changes nothing else; an absent id changes nothing |
| `Cart.IncrementAddsOne` | src/store/cartSlice.js:34-39 | `incrementQuantity` adds 1 to the matching line only, raising the item count by 1; an absent id changes nothing |
| `Cart.DecrementFloorsAtOne` | src/store/cartSlice.js:40-45 | `decrementQuantity` subtracts 1 only from a matching line whose quantity is above 1; otherwise, and for an absent id, nothing changes |
| `Cart.QuantityReducersKeepInvariant` | src/store/cartSlice.js:26-45 | the update, increment and decrement reducers keep ids unique and quantities at least 1 |
| `Cart.CartState.constructor` | src/store/cartSlice.js:3-6 | the initial state has no items, is closed and satisfies the invariant |
| `Cart.CartState.AddToCart` | src/store/cartSlice.js:12-21 | the new items equal `Added(old items, payload)`; the invariant holds; the item count rises by 1; `isOpen` is unchanged |
| `Cart.CartState.RemoveFromCart` | src/store/cartSlice.js:23-25 | the new items equal `Removed(old items, id)`; no line has the id; the invariant holds |
| `Cart.CartState.UpdateQuantity` | src/store/cartSlice.js:26-33 | the new items equal `QuantityUpdated(old items, id, q)`; the invariant holds |
| `Cart.CartState.IncrementQuantity` | src/store/cartSlice.js:34-39 | the new items equal `Incremented(old items, id)`; the invariant holds |
| `Cart.CartState.DecrementQuantity` | src/store/cartSlice.js:40-45 | the new items equal `Decremented(old items, id)`; the invariant holds |
| `Cart.CartState.ToggleCart` | src/store/cartSlice.js:46-48 | `isOpen` is negated and the items are untouched, so two toggles restore the state |
| `Wizard.FormData.Set` | src/components/MainFeature.jsx:51-54 | the spread update sets the named field to the value and leaves every other field as it was |
| `Wizard.ValidationErrors` | src/components/MainFeature.jsx:65-75 | a field has an error iff the step requires it and it is missing, and its message is that field's message |
| `Wizard.Step1Errors` | src/components/MainFeature.jsx:68-70 | at step 1, title errors iff `title.trim()` is empty and description iff `description.trim()` is empty; no other key appears |
| `Wizard.Step2Errors` | src/components/MainFeature.jsx:71-74 | at step 2, price errors iff it is empty and the type is not swap; condition and category error iff empty; title, description and location never do |
| `Wizard.OtherStepsPass` | src/components/MainFeature.jsx:65-78 | at any step other than 1 and 2 the error map is empty |
| `Wizard.ValidationPassesIff` | src/components/MainFeature.jsx:77-78 | validation passes iff every required field is filled in |
| `Wizard.ListingWizard.constructor` | src/components/MainFeature.jsx:7-19 | the initial state: sell, empty form, no errors, step 1, not submitting, form hidden |
| `Wizard.ListingWizard.HandleChange` | src/components/MainFeature.jsx:49-63 | only `formData[name]` changes; a truthy `errors[name]` becomes `''`; every other error entry and all other state stay as they were |
| `Wizard.ListingWizard.SelectCondition` | src/components/MainFeature.jsx:423 | a condition button sets only `formData.condition`; the errors are unchanged |
| `Wizard.ListingWizard.SelectType` | src/components/MainFeature.jsx:246-283 | choosing a listing type changes only `listingType`, not the step, form or errors |
| `Wizard.ListingWizard.ValidateStep` | src/components/MainFeature.jsx:65-79 | the key-by-key error map it stores equals `ValidationErrors` for the current step, type and form, and it returns whether that map is empty |
| `Wizard.ListingWizard.NextStep` | src/components/MainFeature.jsx:81-86 | errors become the step's error map; the step rises by 1 iff that map is empty; form and type are unchanged; the step stays in 1..3 |
| `Wizard.ListingWizard.PrevStep` | src/components/MainFeature.jsx:88-91 | the step drops by 1 without validation; form, errors and type are unchanged |
| `Wizard.ListingWizard.HandleSubmit` | src/components/MainFeature.jsx:93-98 | errors become the step's error map; on success `isSubmitting` is set and one completion is scheduled; on failure `isSubmitting` is unchanged and none is scheduled |
| `Wizard.ListingWizard.CompleteSubmission` | src/components/MainFeature.jsx:100-113 | the completion clears `isSubmitting`, empties the form, returns to step 1 and hides the form; errors and listing type are kept |
| `Wizard.ListingWizard.ToggleForm` | src/components/MainFeature.jsx:117-132 | opening empties the form, sets step 1 and clears the errors; closing only hides the form; the listing type and `isSubmitting` are never reset |
| `Wizard.ListingWizard.LeftButton` | src/components/MainFeature.jsx:506-525 | after step 1 it goes back one step, keeping form, errors and visibility; at step 1 it cancels by toggling the form, which empties the form and errors when it opens and keeps them when it closes; the type, `isSubmitting` and pending completions never change; the step stays in 1..3 |
| `Wizard.ListingWizard.RightButton` | src/components/MainFeature.jsx:527-553 | before step 3 the errors become the step's error map and the step rises by 1 iff that map is empty; at step 3, unless disabled by a running submission, it always starts the submission because step 3 has no required fields; the form, type and visibility never change; the step stays in 1..3 |
| `Listings.FilterListings` | src/pages/Home.jsx:129-143 | a listing is shown iff it is among the listings, in the selected category (unless All Categories) and matching the term (when non-empty); the result is no longer than the input |
| `Listings.FilterListingsIsOneFilter` | src/pages/Home.jsx:129-143 | the two chained filters equal one filter by the combined category-and-search predicate |
| `Listings.FilterListingsPreservesOrder` | src/pages/Home.jsx:133-142 | the result is an order-preserving subsequence of the listings, and filtering a concatenation concatenates the results |
| `Listings.FilterListingsIdempotent` | src/pages/Home.jsx:133-142 | filtering the shown listings again with the same inputs returns them unchanged |
| `Listings.FilterListingsIgnoresTermCase` | src/pages/Home.jsx:138-141 | the search ignores the term's case: lower-casing the term first shows the same listings |
| `Listings.ClearFilters` | src/pages/Home.jsx:325-328 | Clear Filters sets the term to `''` and the category to All Categories |
| `Listings.ClearFiltersShowsAll` | src/pages/Home.jsx:325-328 | after Clear Filters the filter returns the listings unchanged |

## Left out

- Text.Lower: JavaScript's `toLowerCase` folds all of Unicode, including context-dependent and length-changing mappings. The model folds only the ASCII letters A-Z.
- Cart prices and quantities are unbounded integers. JavaScript numbers are doubles, so `selectCartTotal` can round, and `Math.max(1, NaN)` is `NaN`. Neither is modelled.
- The cart's `selectCartItems` and `selectCartIsOpen` selectors only read a field. They are the fields `items` and `isOpen` of `CartState`.
- Store wiring (`src/store/index.js`), the cart drop-down and icon (rendering, the `9+` badge, `toFixed(2)`), the 404 page, dark mode and routing are UI or browser I/O.
- Timers become explicit steps. The submission's 1.5 s delay is `CompleteSubmission`. The filter effect's 500 ms delay, its cleanup and `isLoading` are dropped, and the filter is the pure function `FilterListings`.
- The listing refresh shuffles with `Math.random`, which is nondeterministic. It is not modelled, and `FilterListings` takes the current listings as a parameter.
- Toast notifications, `window.scrollTo`, animations and icons are side effects with no logic. They are not modelled.
- Cart lines keep only `id`, `title`, `price` and `image` of the dispatched listing (`src/store/cartSlice.js:20` copies every field of it). Nothing in the slice reads the other fields, so `Product` and `Item` leave them out.
- The listing's `seller` record, which holds a floating-point rating, is not part of `Listing`.
- Wizard.ListingWizard.ValidateStep: it compares the map with the empty map instead of counting `Object.keys(newErrors)`. The two agree for every map.
- The wizard's file upload, drag-and-drop, preview URLs and type-specific buy and swap fields are not in `src/components/MainFeature.jsx`. They are not part of this model.
