# Hidden Eats: food-stall store and submission rules, modelled in Dafny

Hidden Eats is a single-page application for finding and reviewing informal
food stalls. All of its data lives in the browser's key-value storage. Its
only real logic is the storage service and the rules the pages apply around
it. This project models that logic and proves properties of it:

- `LocalStorageService` (`local_storage.dfy`, module `LocalStorage`). It holds
  two whole collections, stalls under `"foodStalls"` and reviews under
  `"reviews"`. When it is constructed, it seeds three example stalls if the
  stored stall collection is empty. `addStall` and
  `addReview` append and give ids from the clock. The queries are lookup by
  id and filter by stall. After every review, the first stall with the
  review's `stallId` gets a new `rating`: the mean of all of that stall's
  reviews.
  - The class keeps each key as an `Option<seq<…>>` field. `None` is a key
    that was never written.
  - Its methods are proved against pure functions on a `Storage` value. The
    lemmas are proved about those functions.
- The stall list view (`stall_list.dfy`). It filters by location, sorts by
  rating (an unrated stall counts as 0) or by name, lists the distinct
  locations, and resets the filters.
- The stall submission form (`add_stall_form.dfy`). It runs a guard chain
  whose first failure decides the message, then a case-insensitive
  duplicate-name check. The stored record has trimmed text and no rating.
- The review submission form (`add_review_form.dfy`). A rating must be
  picked, then a comment written. The review is the fixed current user's,
  and the form clears after it is added.
- Supporting modules:
  - `text.dfy`: trim, ASCII lower-casing, the name ordering, decimal ids and
    `parseFloat`.
  - `types.dfy`: the `FoodStall` and `Review` records.
  - `wrappers.dfy`: `Option` and `Result`.

The clock (`Date.now()`, `new Date()`) is a `now` parameter, in
milliseconds. The result of reading an image file is an `upload` parameter:
`Some(dataUrl)`, or `None` when the read fails.

Notes on the code's behaviour:

- `addStall` and `addReview` take ids from the clock, and nothing keeps them unique. `SeedLookup` shows
  that two seeds stamped on the same tick share an id, so the second cannot
  be found by id.
- `addReview` recomputes the rating after it has stored the new review, so the
  set of reviews it averages is never empty. Any seeded rating is simply
  replaced.
- `getStallById` and the rating update both use the first stall with a
  matching id.

## Model

| member | source | states |
|---|---|---|
| LocalStorage.AllStalls | src/services/localStorage.ts:66-69 | reading an absent stall key gives the empty sequence, otherwise the stored one |
| LocalStorage.AllReviews | src/services/localStorage.ts:88-91 | reading an absent review key gives the empty sequence, otherwise the stored one |
| LocalStorage.NewId | src/services/localStorage.ts:75 | the clock-derived id of `addStall` (also line 97 of `addReview`) is a non-empty digit string that reads back as the clock value |
| LocalStorage.FindStallIndex | src/services/localStorage.ts:106 | -1 exactly when no stall has the id; otherwise a position holding it with no earlier one |
| LocalStorage.StallById | src/services/localStorage.ts:82-85 | nothing exactly when no stall has the id; otherwise the first stall that has it |
| LocalStorage.ReviewsFor | src/services/localStorage.ts:117-120 | every review returned has the requested stallId, and there are no more than stored |
| LocalStorage.ReviewsForCounts | src/services/localStorage.ts:117-120 | each review of the stall appears exactly as often as it is stored; no review of another stall appears |
| LocalStorage.ReviewsForMembers | src/services/localStorage.ts:117-120 | a review is in the filtered list exactly when it is stored and names that stall |
| LocalStorage.ReviewsForNone | src/services/localStorage.ts:108 | a stall that no stored review names has no reviews |
| LocalStorage.ReviewsForAppend | src/services/localStorage.ts:117-120 | filtering distributes over concatenation, so stored order is kept |
| LocalStorage.ReviewsForOther | src/services/localStorage.ts:108 | a new review of another stall leaves this stall's reviews unchanged |
| LocalStorage.ReviewsForSame | src/services/localStorage.ts:101-108 | a new review of this stall is appended to this stall's reviews |
| LocalStorage.RatingSumBounds | src/services/localStorage.ts:109 | ratings within [lo, hi] sum to within [lo·n, hi·n] |
| LocalStorage.MeanRatingBounds | src/services/localStorage.ts:109 | the mean of ratings within [lo, hi] is within [lo, hi] |
| LocalStorage.RatingSumAppend | src/services/localStorage.ts:109 | the `reduce` sum of the ratings adds up part by part over any split of the reviews |
| LocalStorage.MeanTimesCount | src/services/localStorage.ts:109 | the mean, counted once per review, gives back the sum of their ratings |
| LocalStorage.Rerate | src/services/localStorage.ts:105-112 | no write exactly when no stall has the stallId. Otherwise the first match gets the mean of its reviews (at least one, the new one included) and every other stall is unchanged |
| LocalStorage.RerateIsIncrementalMean | src/services/localStorage.ts:108-110 | the new rating is (old sum + new rating) / (old count + 1) over that stall's reviews |
| LocalStorage.FirstReviewSetsRating | src/services/localStorage.ts:105-111 | a stall's first review gives it exactly that review's rating; any seeded rating is discarded |
| LocalStorage.TwoReviewsAverage | src/services/localStorage.ts:105-111 | reviews rated 4 and then 5 for one stall leave its rating at 4.5 |
| LocalStorage.FindIgnoresRatings | src/services/localStorage.ts:106-110 | changing ratings never changes which stall a lookup by id finds |
| LocalStorage.FindAfterAppend | src/services/localStorage.ts:77 | after an append, a lookup finds the earlier match if any, else the new stall if it has the id, else nothing |
| LocalStorage.LookupAfterAppend | src/services/localStorage.ts:71-85 | looking up a just-added stall's id finds it exactly when no earlier stall has that id; otherwise it finds the earlier stall |
| LocalStorage.InitializeEffect | src/services/localStorage.ts:15-63 | the contract of `Initialize`, the constructor's effect on the keys: absent keys are written as empty. Existing reviews are kept, a non-empty stall collection is untouched and an empty one is seeded |
| LocalStorage.SeedContents | src/services/localStorage.ts:27-61 | the seed is exactly three stalls: Joe's Street Tacos, Mei's Dumplings, Curry Express, in that order, with their locations, dishes, prices and ratings 4.5, 4.8, 4.2 |
| LocalStorage.InitializeIdempotent | src/services/localStorage.ts:15-26 | initialising twice equals initialising once, whatever the clock reads |
| LocalStorage.SeedLookup | src/services/localStorage.ts:27-61 | seeds stamped on distinct ticks are each found by their id; when two share a tick, the second's id finds the first |
| LocalStorage.WithReview | src/services/localStorage.ts:93-112 | addReview's writes: the review is appended; the stall key is rewritten only when a stall has the stallId |
| LocalStorage.AddReviewKeepsRatingsConsistent | src/services/localStorage.ts:105-112 | addReview preserves this invariant: every stall a lookup reaches that has reviews carries their mean |
| LocalStorage.AddStallKeepsRatingsConsistent | src/services/localStorage.ts:71-80 | appending a stall no review mentions preserves the rating invariant |
| LocalStorage.LocalStorageService.constructor | src/services/localStorage.ts:15-63 | the stored keys afterwards are the initialised storage, with seeds only on an empty stall collection |
| LocalStorage.LocalStorageService.SeedExamples | src/services/localStorage.ts:27-61 | the three demo `addStall` calls on an empty collection leave exactly the three example stalls, stamped with their own clock readings; the reviews are untouched |
| LocalStorage.LocalStorageService.GetAllStalls | src/services/localStorage.ts:66-69 | the service's stored stalls, or none when the key is absent |
| LocalStorage.LocalStorageService.GetAllReviews | src/services/localStorage.ts:88-91 | the service's stored reviews, or none when the key is absent |
| LocalStorage.LocalStorageService.GetStallById | src/services/localStorage.ts:82-85 | nothing exactly when no stored stall has the id; otherwise the first stored stall that has it |
| LocalStorage.LocalStorageService.GetReviewsByStallId | src/services/localStorage.ts:117-120 | every review returned names the stall, and a review is returned exactly when it is stored and names the stall |
| LocalStorage.LocalStorageService.AddStall | src/services/localStorage.ts:71-80 | the result is the input plus the clock's id. It is appended as the one new last stall, earlier stalls and the reviews are untouched |
| LocalStorage.LocalStorageService.AddReview | src/services/localStorage.ts:93-115 | the review gets the clock's id, and both timestamps are overridden with now. It is appended, and the stalls are rerated as WithReview says |
| Types.StallWithId | src/services/localStorage.ts:73-76 | the new stall has the given id and otherwise exactly the caller's fields |
| Types.ReviewWithId | src/services/localStorage.ts:95-100 | the new review has the id, both timestamps are now, and the other fields are the caller's |
| Text.DecimalRoundTrip | src/services/localStorage.ts:75 | reading the decimal id back gives the clock value |
| Text.NatToDecimalInjective | src/services/localStorage.ts:75 | distinct clock values give distinct ids (equal ones give equal ids) |
| Text.TrimStartSpec | src/components/AddStallForm.tsx:48-51 | the leading white-space run is dropped, all of it and nothing more |
| Text.TrimEndSpec | src/components/AddStallForm.tsx:48-51 | the trailing white-space run is dropped, all of it and nothing more |
| Text.TrimIsCore | src/components/AddStallForm.tsx:48-51 | trim returns a slice of its input. What it drops is white space, and the slice has none at either end |
| Text.TrimEmptyIffBlank | src/components/AddStallForm.tsx:25-28 | a string trims to empty exactly when it is all white space |
| Text.TrimOfFilled | src/components/AddStallForm.tsx:48-51 | a string that is not all white space trims to a non-empty string with no white space at either end |
| Text.LexLeTotal | src/components/StallList.tsx:35 | any two names are ordered one way or the other |
| Text.LexLeTransitive | src/components/StallList.tsx:35 | the name order is transitive |
| Text.LexLeAntisymmetric | src/components/StallList.tsx:35 | names ordered both ways are equal |
| Text.ParseFloat | src/components/AddStallForm.tsx:32 | NaN exactly when no digit follows the optional white space and sign, either before or after a decimal point |
| Text.ParseFloatOfDecimal | src/components/AddStallForm.tsx:32 | a plain decimal integer parses to its value |
| StallList.FilterByLocation | src/components/StallList.tsx:30 | every stall kept is at the selected location, or the selection is 'all' |
| StallList.FilterAllKeepsEverything | src/components/StallList.tsx:30 | with 'all', every stall is kept, in order |
| StallList.FilterCounts | src/components/StallList.tsx:30 | with a location, exactly the stalls located there are kept, each as often as stored |
| StallList.PrecedesTotal | src/components/StallList.tsx:31-36 | the comparator orders any two stalls one way or the other |
| StallList.PrecedesTransitive | src/components/StallList.tsx:31-36 | the comparator's order is transitive |
| StallList.Insert | src/components/StallList.tsx:31-36 | inserting into a sorted list keeps it sorted, adding exactly the one element |
| StallList.Sort | src/components/StallList.tsx:31-36 | the result is sorted under the comparator and a permutation of the input |
| StallList.SortedPairwise | src/components/StallList.tsx:32-35 | in a sorted list every earlier stall may precede every later one |
| StallList.FilteredStallsSpec | src/components/StallList.tsx:29-36 | the contract of `FilteredStalls`: the list holds exactly the kept stalls with their multiplicities. By rating it is non-increasing, a missing rating counting as 0; by name it is non-decreasing |
| StallList.Locations | src/components/StallList.tsx:22 | the location options have no repeats and are exactly the locations of the stalls |
| StallList.ResetFilters | src/components/StallList.tsx:38-41 | the sort becomes rating and the location 'all'; the filter panel's state is kept |
| StallList.ResetListsEveryStall | src/components/StallList.tsx:38-41 | after a reset the list is every stall, highest rated first |
| AddStallForm.Validate | src/components/AddStallForm.tsx:25-41 | the guards run in source order, and the first failure decides the error: blank text fields, empty price, missing image, unparsable or non-positive price, taken name (untrimmed, ignoring case). Success is exactly when all pass, with the parsed positive price |
| AddStallForm.AcceptedStallIsWellFormed | src/components/AddStallForm.tsx:47-56 | the contract of `NewStallData`: an accepted stall is stored with non-empty, trimmed text fields, a positive price, the uploaded image URL and no rating |
| AddStallForm.BlankPriceIsInvalid | src/components/AddStallForm.tsx:29-35 | a price of one space passes the empty check but is rejected as invalid |
| AddStallForm.PaddedNameEscapesDuplicateCheck | src/components/AddStallForm.tsx:39-48 | an existing name typed with a leading space passes every check, and the stored stall's name equals the existing one |
| AddStallForm.StallForm.constructor | src/components/AddStallForm.tsx:10-17 | the form starts empty, idle and without a message |
| AddStallForm.StallForm.HandleSubmit | src/components/AddStallForm.tsx:19-64 | on a failed check or image read: the message is shown, the form goes idle and the store is unchanged. Otherwise the trimmed record is appended via addStall and the browser goes to its page |
| AddReviewForm.ValidateReview | src/components/AddReviewForm.tsx:31-37 | rating 0 is rejected first, then a blank comment, and only then is the review accepted |
| AddReviewForm.AcceptedReviewIsWellFormed | src/components/AddReviewForm.tsx:45-54 | the contract of `NewReviewData`: an accepted review carries the form's stallId, user "1" named "Demo User", the nonzero rating, a non-empty trimmed comment and the given image URL |
| AddReviewForm.ReviewForm.constructor | src/components/AddReviewForm.tsx:12-16 | the form starts with rating 0, an empty comment, no image, idle and without a message |
| AddReviewForm.ReviewForm.HandleSubmit | src/components/AddReviewForm.tsx:25-72 | on a failed check or image read: the message is shown, addReview is not called and the entries stay. Otherwise the review (no image URL when none was picked) is added as WithReview says and the form resets to rating 0 and an empty comment. It always ends idle |
| AddReviewForm.ReviewForm.Record | src/components/AddReviewForm.tsx:45-61 | the success path: the review built from the form's stall, rating and trimmed comment is added as WithReview says, and the form is cleared and idle |

## Left out

- JSON serialisation and the key-value API are left out, as are unparsable stored data and a key holding the empty string. The model stores the sequences directly.
- `uploadImage` is left out. Reading the file is asynchronous I/O, so its outcome is the `upload` parameter.
- A second submission interleaving at the image read is left out. That await is the only suspension point; the model runs each submission to completion.
- Clock readings are simplified. The source reads the clock separately for an id and for each `new Date()`; each operation here takes one reading, `now`, and uses it for all of them.
- Floating point is left out. Stall ratings, prices and the mean rating are `real`; a review's rating is an `int`, the star count the form collects. `parseFloat` reads sign, digits and a fraction; exponents, `Infinity` and NaN ratings are not modelled.
- Locale behaviour is simplified. `localeCompare` is the ordinal lexicographic order, `toLowerCase` maps ASCII letters only, and `trim` knows ASCII white space plus NO-BREAK SPACE and BYTE ORDER MARK.
- StallList.Sort: the insertion sort keeps comparator ties in input order, as `Array.prototype.sort` must, but stability is not proved.
- Rendering, animation, styling and routing are left out, along with the auth stubs, `handleImageChange` and the clearing of the file input. Navigation is the returned route. The `onReviewAdded` callback belongs to the parent page.
- The per-user review filter is left out. It lives in `MyReviews.tsx`, which is not part of this model.
- AddReviewForm.ReviewForm.Record: clears the form before calling `addReview`, where the source calls it first. The two touch disjoint state and `addReview` cannot fail in the model, so the final state is the same.
