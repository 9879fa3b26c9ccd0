# Review Insights, modelled in Dafny

Review Insights is a Next.js application. It searches the Google Places
directory for local businesses. A language model labels each review positive,
negative or neutral. The results page shows the places found, the reviews of
the selected place and percentage breakdowns by stars and by sentiment. A
second model call writes a narrative summary of a place's reviews.
Signed-in users can claim businesses in two tables.

This project models the decision logic of that core:

- `PlacesSearch` (`places_search.dfy`): the search endpoint `GET /api/places`.
  It models the request guards, the upstream request it builds, validation of
  the classifier's `{score, label}` reply, and the mapping of places and
  reviews into the records the browser receives.
- `SearchResultsView` (`search_results_view.dfy`): the results view. It models
  the sentiment filter and its ten-review window, the rounded percentages, the
  search-box rule, and the view state as a class.
- `ResultsPage` (`results_page.dfy`): the results page. It models the
  `name-index` location ids and their decoding, the cards and rows handed to
  the view, and the two state transitions (selecting a location and loading
  more reviews) as methods of a class.
- `SentimentSummary` (`sentiment_summary.dfy`): the summary endpoint
  `POST /api/analyze-sentiment`. It models validation, the newline join, the
  exact prompt and the fallback text.
- `Auth` (`auth.dfy`): the credential check, the display-name fallback, the
  `session` callback and the `redirect` callback.
- `ClaimedBusinesses` (`claimed_businesses.dfy`): the `claimed_businesses`
  table as a class. It has the claim/unclaim toggle, the claim lookup, the
  per-user list and the first-claim-only insert. Each route is also a pure
  function of the old table that gives its answer and the new table.
- `BusinessLocations` (`business_locations.dfy`): the `businessLocations`
  table and the owner claim, in which the first claim wins.
- `ReviewLoader` (`review_loader.dfy`): the loading animation's progress
  counter and its step caption.
- `Text` and `Wrappers`: shared helpers. They hold JavaScript truthiness,
  `trim`, `split`/`join`, decimal rendering and `parseInt`, plus an `Option`
  type.

External services are parameters of the functions that use them:

- the chat-completion call
- `JSON.parse`
- the places directory `fetch`
- `encodeURIComponent`
- `new URL(u).origin`
- `bcrypt.compare`
- the place-details fetch (`None` when it fails)
- the clock

The database is an in-memory sequence of rows. The session is an
`Option<Session>` argument.

Some promises are not stated in the functions themselves. Lemmas state them:

- The location id round-trips for names without `-` and misreads names with one.
- Toggling a claim flips its status, and toggling twice restores it.
- The toggle route lets two users claim one place, while the first-claim
  route keeps places unique.
- After a successful owner claim, every later claim is refused.

## Model

| member | source | states |
|---|---|---|
| `Text.Trim` | src/components/location-search-results.tsx:67-68 | `trim` yields the contiguous slice between leading and trailing whitespace: everything before it and everything after it is whitespace; it is empty exactly when the input is all whitespace, and otherwise starts and ends with a non-space |
| `Text.Split` | src/app/results/page.tsx:109 | `split` with a one-character separator yields at least one piece, none containing the separator, whose join gives back the input |
| `Text.SplitJoin` | src/app/results/page.tsx:96-109 | splitting a join recovers the pieces when none contains the separator |
| `Text.SplitHead` | src/lib/auth.ts:44 | the first piece of a split is the text before the first separator, or the whole string when there is none |
| `Text.NatToString` | src/app/results/page.tsx:97 | an index renders as a non-empty decimal digit string denoting it, with no leading zero except for `0` itself |
| `Text.ParseIntNatToString` | src/app/results/page.tsx:109 | `parseInt` of a rendered index gives the index back |
| `Text.ParseInt` | src/app/results/page.tsx:109 | `parseInt` gives nothing for the empty string and for a string that starts with neither whitespace, a sign nor a digit |
| `Text.ReadDigits` | src/app/results/page.tsx:109 | after the sign and the radix prefix, `parseInt` finds a number exactly when the text starts with a digit of that radix |
| `Text.ParseIntDigits` | src/app/results/page.tsx:109 | `parseInt` of a string of decimal digits is the number they denote |
| `Text.ParseIntPrefix` | src/app/results/page.tsx:109 | `parseInt` of decimal digits followed by a non-digit is the value of the digits; what follows them is ignored |
| `Text.ParseIntHex` | src/app/results/page.tsx:109 | after a `0x` or `0X` prefix `parseInt` reads the following hexadecimal digits in base 16 |
| `Text.ParseIntSkipsSpaces` | src/app/results/page.tsx:109 | leading whitespace does not change the result of `parseInt` |
| `Text.ParseIntSign` | src/app/results/page.tsx:109 | a leading `-` negates the number read after it (NaN stays NaN), and a leading `+` changes nothing |
| `Text.Join` | src/app/api/analyze-sentiment/route.ts:19 | the join starts with the first item, and with a one-character separator it holds the items' own separators plus one per further item |
| `PlacesSearch.LabelOf` | src/app/api/places/route.ts:33 | a label is accepted exactly when it is `positive`, `negative` or `neutral` |
| `PlacesSearch.LabelText` | src/app/api/places/route.ts:33-39 | every label's spelling is accepted back as that label |
| `PlacesSearch.ValidateReply` | src/app/api/places/route.ts:27-44 | a classification is returned only for non-empty content that parses to an object with a numeric `score` and an accepted `label`, and it carries those values |
| `PlacesSearch.ValidateAcceptsReply` | src/app/api/places/route.ts:30-40 | conversely, every well-formed reply is accepted unchanged |
| `PlacesSearch.AnalyzeSentiment` | src/app/api/places/route.ts:9-49 | no verdict when the completion throws or its content is empty, or when the content does not parse; a verdict only for a parsed reply with a numeric score and an accepted label, carrying those values; and every such well-formed reply gives exactly its classification |
| `PlacesSearch.UnwrapText` | src/app/api/places/route.ts:136-137 | a string text is kept, an object's `text` is taken, anything else becomes empty |
| `PlacesSearch.RatingOrZero` | src/app/api/places/route.ts:141 | a missing rating becomes 0, a present one is kept |
| `PlacesSearch.MapReview` | src/app/api/places/route.ts:136-147 | a review keeps its id, gets its rating or 0, its normalised text, author, date and photo or empty strings, and the classifier's verdict on that text |
| `PlacesSearch.MapReviews` | src/app/api/places/route.ts:134-149 | one output per review, in order |
| `PlacesSearch.AnyOpen` | src/app/api/places/route.ts:159 | true exactly when some period is open |
| `PlacesSearch.MapHours` | src/app/api/places/route.ts:158-161 | `open_now` holds exactly when some period is open (none when periods are missing); weekday texts default to empty |
| `PlacesSearch.MapPlace` | src/app/api/places/route.ts:151-166 | every missing field defaults to empty or 0, opening hours appear exactly when present, `id` and `placeId` are both the place id, and reviews are mapped in order |
| `PlacesSearch.MapPlaces` | src/app/api/places/route.ts:132-167 | one output per place, in order |
| `PlacesSearch.BuildSearchRequest` | src/app/api/places/route.ts:98-114 | the URL carries `?pageToken=` and the encoded token exactly when a token is given; the body has the query or empty text, `en`, 20 results, and the token only when given |
| `PlacesSearch.Search` | src/app/api/places/route.ts:87-172 | 400 without query and token (before the key check), 500 without an API key, an upstream error status passed through, 500 when the call throws, 404 for no places; a reply with places always gives a page, which maps every place in order and carries the next-page token |
| `SearchResultsView.Matching` | src/components/location-search-results.tsx:72-73 | the filter keeps only reviews it matches, as an order-preserving selection as long as the number of matching reviews (so duplicates are kept), every matching review among them, and everything for `all` |
| `SearchResultsView.MatchingUnique` | src/components/location-search-results.tsx:72-73 | the filter's result is the only order-preserving selection of kept reviews as long as the number of kept reviews |
| `SearchResultsView.FilteredReviews` | src/components/location-search-results.tsx:72-74 | the first ten of the filter's result, or all of it when shorter: a prefix of it of length min(10, kept count); with `all` the first ten reviews; when fewer than ten are shown, no kept review is missing |
| `SearchResultsView.Percent` | src/components/location-search-results.tsx:199 | a percentage between 0 and 100, rounded half up, and 0 for an empty list |
| `SearchResultsView.RatingBreakdown` | src/components/location-search-results.tsx:197-199 | one percentage per star from 5 down to 1, each the rounded share of reviews with that rating, all 0 without reviews |
| `SearchResultsView.SentimentBreakdown` | src/components/location-search-results.tsx:223-225 | one percentage per label in the order positive, neutral, negative, each the rounded share of reviews with that label |
| `SearchResultsView.RatingBucketsPartition` | src/components/location-search-results.tsx:197-198 | the five star counts plus the out-of-range count make up all reviews |
| `SearchResultsView.SentimentBucketsPartition` | src/components/location-search-results.tsx:223-224 | the three label counts plus the unlabelled count make up all reviews |
| `SearchResultsView.CountWherePermutation` | src/components/location-search-results.tsx:197-198 | a count of reviews satisfying a test is the same for every reordering of the reviews |
| `SearchResultsView.BreakdownsIgnoreOrder` | src/components/location-search-results.tsx:197-199 | both the star and the sentiment percentages are the same for every reordering of the reviews |
| `SearchResultsView.SearchTarget` | src/components/location-search-results.tsx:65-70 | navigation happens exactly when the query has a non-space character, to `/results?q=` and the encoded trimmed query |
| `SearchResultsView.SearchTargetIgnoresPadding` | src/components/location-search-results.tsx:67-68 | whitespace around the query does not change the navigation |
| `SearchResultsView.SearchResults.constructor` | src/components/location-search-results.tsx:53-56 | the first location is selected, the filter is `all`, the query is the initial one |
| `SearchResultsView.SearchResults.ClickLocation` | src/components/location-search-results.tsx:58-63 | the clicked location becomes selected and the listener, if any, gets its id |
| `SearchResultsView.SearchResults.ChangeFilter` | src/components/location-search-results.tsx:176-178 | the filter becomes the chosen one and the reviews shown are the filtered window |
| `SearchResultsView.SearchResults.ReceiveReviews` | src/components/location-search-results.tsx:72-74 | new `initialReviews` props replace the reviews, and the reviews shown are the current filter's window over them |
| `SearchResultsView.SearchResults.EditQuery` | src/components/location-search-results.tsx:96 | the query text becomes what was typed |
| `SearchResultsView.SearchResults.SubmitSearch` | src/components/location-search-results.tsx:65-70 | submitting navigates exactly when the trimmed query is non-empty |
| `ResultsPage.Lookup` | src/app/results/page.tsx:109-110 | when the id's second piece parses to an index of the list, the place at that index; otherwise nothing |
| `ResultsPage.LocationId` | src/app/results/page.tsx:97 | the id is the name, a `-`, then the decimal digits of the index with no leading zero (so `0` only for index 0) |
| `ResultsPage.DecodeLocationId` | src/app/results/page.tsx:109 | nothing for an id without `-`; otherwise `parseInt` of the piece after the first `-` |
| `ResultsPage.LocationIdRoundTrip` | src/app/results/page.tsx:96-109 | for a name without `-`, decoding the id `name-i` gives back `i` |
| `ResultsPage.DashedNameReadsSecondPiece` | src/app/results/page.tsx:96-109 | for a name `a-b`, decoding reads `b` instead of the index |
| `ResultsPage.MappedLocations` | src/app/results/page.tsx:96-106 | one card per place, in order; the card at `i` has id `name-i`, the place's name, rating, review total, address, phone, business status and open-now flag, and the placeholder image |
| `ResultsPage.SelectRecoversPlace` | src/app/results/page.tsx:96-110 | clicking the card of a dash-free place selects that place |
| `ResultsPage.DashedNameSelectsOther` | src/app/results/page.tsx:96-110 | clicking the card of a place named `a-b` selects nothing when `parseInt(b)` is NaN, and the place at index `parseInt(b)` when that is an index of the list (so `Cafe-2go` selects place 2) |
| `ResultsPage.DisplaySentiment` | src/app/results/page.tsx:159 | a non-empty label is shown as it is; a missing sentiment, one without a label or an empty label is shown as `neutral`; the shown label is never empty |
| `ResultsPage.MappedReviews` | src/app/results/page.tsx:154-163 | one row per review of the selected place, in order, none without a selection; each row has the review's id, author, rating, text, date and photo, its displayed sentiment, and the author's first character as avatar |
| `ResultsPage.SearchReviewsAreBucketed` | src/app/results/page.tsx:159 | every review from the search endpoint lands in one of the three sentiment buckets, an unclassified one in `neutral` |
| `ResultsPage.HasMoreReviews` | src/app/results/page.tsx:173 | true exactly when a place is selected and its next-page token is non-empty |
| `ResultsPage.ReplaceWhere` | src/app/results/page.tsx:132-134 | exactly the places with the id are replaced, the others are unchanged |
| `ResultsPage.MergeWhere` | src/app/results/page.tsx:114-116 | exactly the places with the id are overlaid with the details, the others are unchanged |
| `ResultsPage.Merge` | src/app/results/page.tsx:115-118 | the spread `{...place, ...details}`: each field the details carry replaces the place's, every other field is the place's |
| `ResultsPage.MergeIdempotent` | src/app/results/page.tsx:114-118 | details carrying nothing leave a place as it is, and overlaying the same details twice is overlaying them once |
| `ResultsPage.WithMoreReviews` | src/app/results/page.tsx:127-131 | the reviews become old followed by new, the token becomes the reply's, nothing else changes |
| `ResultsPage.Results.constructor` | src/app/results/page.tsx:46-47 | no places and no selection |
| `ResultsPage.Results.ShowSearchResults` | src/app/results/page.tsx:82-85 | the found places are shown and the first is selected when there is one |
| `ResultsPage.Results.SelectLocation` | src/app/results/page.tsx:108-121 | an id naming no place changes nothing; otherwise the place is selected, and when details arrive that place in the list and the selection are overlaid with them; a failed fetch leaves the list unchanged |
| `ResultsPage.Results.LoadMoreReviews` | src/app/results/page.tsx:123-139 | with a non-empty token and a reply with reviews, the selected place gets old plus new reviews and the new token, in the list and as the selection; otherwise nothing changes |
| `SentimentSummary.CombinedSplitsBack` | src/app/api/analyze-sentiment/route.ts:19 | reviews without line breaks are recovered by splitting at newlines |
| `SentimentSummary.UserMessage` | src/app/api/analyze-sentiment/route.ts:30 | the message is the fixed opening, the location name (`undefined` when missing), the fixed request ending in a blank line, and the combined text, each at its place |
| `SentimentSummary.SummaryRequest` | src/app/api/analyze-sentiment/route.ts:19-35 | the request has the fixed system instruction, temperature 0.7, at most 200 tokens, and the user message over the newline join of the reviews, which starts with the first review and holds one extra newline per further review |
| `SentimentSummary.Analyze` | src/app/api/analyze-sentiment/route.ts:8-46 | 500 for a body that does not parse or a model call that throws; 400 for missing, non-array or empty reviews; otherwise the model's text, or `No analysis available` when it is empty; an analysis is never empty |
| `SentimentSummary.AnalyzeSucceeds` | src/app/api/analyze-sentiment/route.ts:12-39 | valid reviews and a model call that does not throw always give an analysis |
| `Auth.FindByEmail` | src/lib/auth.ts:23-25 | a user is found only when it has the email, and nothing is found only when no user has it |
| `Auth.DisplayName` | src/lib/auth.ts:44 | the stored name when non-empty, else the email text before its first `@` (all of it without one) |
| `Auth.Authorize` | src/lib/auth.ts:16-50 | no user without email or password; a user only when the lookup succeeds, the stored hash is non-empty and the comparison says yes, and then its id, email and display name |
| `Auth.AuthorizeAccepts` | src/lib/auth.ts:23-45 | conversely, a stored user whose hash matches is signed in |
| `Auth.UserId` | src/app/api/business/claim/route.ts:12 | `session?.user?.id` is present exactly when there is a session with a user with an id, and is that id |
| `Auth.SessionCallback` | src/lib/auth.ts:54-62 | the user's id becomes the token subject and every other session and user field is kept |
| `Auth.Redirect` | src/lib/auth.ts:63-67 | a path gets the base URL in front; a same-origin URL is kept; any other URL becomes the base URL; a URL that does not parse gives no answer (the callback throws); the result never leaves the base origin |
| `ClaimedBusinesses.Without` | src/app/api/places/claim/route.ts:64-68 | the delete removes exactly the rows of the (user, place) pair and keeps all others |
| `ClaimedBusinesses.WithoutKeepsCopies` | src/app/api/places/claim/route.ts:64-68 | the delete keeps every copy of every row not of the pair and removes all rows of the pair, in table order |
| `ClaimedBusinesses.Toggled` | src/app/api/places/claim/route.ts:50-81 | the toggle flips whether the user claims the place and leaves every other (user, place) claim as it was; with a claim it deletes exactly the pair's rows, without one it appends exactly the new row |
| `ClaimedBusinesses.ToggleTwice` | src/app/api/places/claim/route.ts:50-81 | toggling twice restores the claim status, and restores the table itself when there was no claim |
| `ClaimedBusinesses.TogglePost` | src/app/api/places/claim/route.ts:8-86 | 401 without a session user, 404 for an unknown user, 400 for a missing field, 500 for a body that does not parse, all leaving the table; a known user with a complete body always gets `claimed`, which is whether the claim was absent before, and the table is toggled |
| `ClaimedBusinesses.ClaimFirstPost` | src/app/api/businesses/claim/route.ts:7-46 | 401 without a session, 500 for a body that does not parse, 400 for a missing field, 400 when any user claimed the place, none changing the table; for an unclaimed place a session user that exists gets 200 and exactly one appended row, anyone else 500 and no change |
| `ClaimedBusinesses.ClaimFirstSinglesOut` | src/app/api/businesses/claim/route.ts:25-39 | after a 200 exactly one row, the new one, names the place |
| `ClaimedBusinesses.ClaimFirstKeepsPlacesUnique` | src/app/api/businesses/claim/route.ts:25-39 | the first-claim route keeps at most one row per place |
| `ClaimedBusinesses.ToggleSharesPlaces` | src/app/api/places/claim/route.ts:50-81 | the toggle route lets two users hold rows for the same place |
| `ClaimedBusinesses.ClaimsOf` | src/app/api/places/claimed/route.ts:21-23 | exactly the rows of the user |
| `ClaimedBusinesses.ClaimsOfKeepsCopies` | src/app/api/places/claimed/route.ts:21-23 | the list holds every copy of every row of the user and nothing else, in table order |
| `ClaimedBusinesses.ClaimStore.TogglePlaceClaim` | src/app/api/places/claim/route.ts:8-86 | the answer and new table are those of the toggle route |
| `ClaimedBusinesses.ClaimStore.PlaceClaimStatus` | src/app/api/places/claim/route.ts:88-126 | 401 without a session user, 400 without a place id, otherwise whether the user claims the place; the table is only read |
| `ClaimedBusinesses.ClaimStore.ClaimedBy` | src/app/api/places/claimed/route.ts:8-32 | 401 without a session user, otherwise every copy of that user's rows and no other row, in table order |
| `ClaimedBusinesses.ClaimStore.ClaimFirst` | src/app/api/businesses/claim/route.ts:7-46 | the answer and new table are those of the first-claim route |
| `BusinessLocations.FindById` | src/app/api/business/claim/route.ts:29-31 | the first location with the id, or none when no location has it |
| `BusinessLocations.SetOwner` | src/app/api/business/claim/route.ts:48-54 | the locations with the id get the owner and claim time; all others are unchanged |
| `BusinessLocations.ClaimPost` | src/app/api/business/claim/route.ts:8-67 | 401 without a session user id, 500 for a body that does not parse, 400 without a business id, 404 for an unknown id, 400 for an owned location, none changing the table; for an unowned location an existing user gets 200 with owner and time set on that location only, anyone else 500 and no change |
| `BusinessLocations.OwnedIsRefused` | src/app/api/business/claim/route.ts:40-45 | a location with an owner is refused with 400 and nothing changes |
| `BusinessLocations.FirstClaimWins` | src/app/api/business/claim/route.ts:40-54 | after a successful claim a second claim is refused and the first user stays the owner |
| `BusinessLocations.ClaimKeepsIdsDistinct` | src/app/api/business/claim/route.ts:48-54 | a claim keeps location ids distinct |
| `BusinessLocations.LocationStore.Claim` | src/app/api/business/claim/route.ts:8-67 | the answer and new table are those of the owner-claim route, and ids stay distinct |
| `ReviewLoader.StepFor` | src/components/review-loader.tsx:23-26 | the step is 0 below 25, 3 from 75, within the quarter its progress falls in, and always a valid caption index |
| `ReviewLoader.StepMonotone` | src/components/review-loader.tsx:23-26 | the step never goes back as progress grows |
| `ReviewLoader.Loader.constructor` | src/components/review-loader.tsx:7-8 | progress 0 and step 0 |
| `ReviewLoader.Loader.Caption` | src/components/review-loader.tsx:35 | the caption is always one of the four steps |
| `ReviewLoader.Loader.Tick` | src/components/review-loader.tsx:17-33 | below 100 progress advances by exactly one and the step follows; at 100 nothing changes; progress stays within 0..100 |
| `ReviewLoader.Loader.Animate` | src/components/review-loader.tsx:17-33 | after n ticks progress has advanced by n, capped at 100 |

## Left out

- Network, databases and models. The Google Places API, the OpenAI chat
  completions, `bcrypt`, URL parsing and the drizzle database are oracles or
  in-memory rows. The classifier's system prompt, model name, temperature and
  `response_format` in `src/app/api/places/route.ts` are not modelled; only
  the review text passed to the classifier is. The `X-Goog-FieldMask` header
  and the `details` fields of error answers are not modelled either.
  Each oracle is a function of its input, so the model classifies the same
  review text the same way every time and gets the same summary for the same
  prompt. The real completions are sampled and may differ from call to call.
- Database failures. A database query or insert that throws answers 500.
  This is modelled only where the code itself provokes it: an insert whose
  user id is missing or names no row of `users` violates the foreign key.
  That is a 500 in the `businesses/claim` route and in the `business/claim`
  route. Other driver exceptions are not modelled. Among them: in
  `business/claim` a `businessId` that is not a uuid makes the lookup throw,
  which answers 500 "Error claiming business"; the model treats every id as
  a value the lookup accepts, so such an id gets 404 there.
- `eq(column, undefined)` is taken to match no row. A session without a user
  id is therefore an unknown user (404) in the toggle route. It claims
  nothing in the lookup, and it has no claims in the list.
- `SentimentSummary.Analyze`: the items of `reviews` are taken to be
  strings, as the route's request type says. JavaScript's `join` renders an
  object as `[object Object]` and `null` or `undefined` as an empty string;
  that conversion is not modelled. The only caller,
  `src/app/locations/[placeId]/page.tsx` (lines 118-121 and 129), posts
  objects `{ text, rating }`. In the running program every line of the
  summary prompt is therefore `[object Object]`, not the review text the
  model's prompt carries.
- `PlacesSearch.Search`: `Promise.all` is a sequential, order-preserving map.
  An upstream error whose body is not JSON (500) is folded into
  `UpstreamThrew`.
- `SearchResultsView.Percent`: `Math.round` on a floating-point quotient is
  modelled as exact half-up rounding. IEEE arithmetic can differ at exact .5
  boundaries. The rating and sentiment percentages need not sum to 100.
  Reviews rated 0 fall in no star bucket.
- `SearchResultsView.SearchResults`: the locations are passed to `useState`,
  which keeps its initial value when the props change, so the class keeps
  them as a constant. The reviews are read from the props on every render;
  a new list arrives through `ReceiveReviews`. React's batching of state
  updates and the stale closures of asynchronous handlers are not modelled.
  Each method is one atomic update.
- `ResultsPage.MappedReviews`: `review.author[0]` is a UTF-16 code unit in
  JavaScript. The model takes the first character of the author string, so
  an author starting with a character outside the Basic Multilingual Plane
  gets its whole character here and half a surrogate pair there.
- `ResultsPage.Results.SelectLocation`: the selection and the details reply
  are one atomic step. The loading flags, the error message and the redirect
  to `/` without a query are not modelled.
- The place-details route (`/api/places/[placeId]/details`) is not part of
  this model. Its reply is a parameter. It sends sentiments as bare strings,
  which is the `NoLabel` case of `ResultsPage.ReviewSentiment`.
- `ReviewLoader`: the 50 ms timer is not modelled. A tick is one firing.
- Generated ids, `createdAt`/`updatedAt` timestamps and review uuids are not
  modelled.
- The duplicate search handlers in the header, the search bar and the landing
  page are not modelled. The presentational components are not modelled
  either.
