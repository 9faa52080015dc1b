# Vacation planner: packages from flights and hotels

This project models the data-shaping core of the vacation planner backend
(`index.js`) behind its `/packages` request, and proves properties of it. The
request runs in this order:

1. The flight search request is built from the itinerary (`parse_flight`).
2. The provider's trip options are normalised (`format_flight`).
3. Three flights are chosen: the cheapest, the fastest and the shortest.
4. One hotel search is planned for each stay between two segments. Each
   search takes its check-in date from the cheapest flight.
5. Each search's hotel list is stamped (`format_hotel`). Hotels over the
   budget or under the star minimum are then deleted, and the survivors are
   tagged with their segment.
6. `select_package_hotels` builds its budget-pruned stack of hotel
   combinations and picks three entries from it.
7. The `/packages` callback merges the three flights and the three
   combinations into packages with a total price.

The modules follow that flow:

- `Common`: option and result types, and the error kinds a request can end with.
- `Numbers`: JavaScript's base-10 `parseInt`, and the decimal text of an integer.
- `Ranking`: the first-seen argmin that a stable sort followed by `[0]` computes.
- `Flights`: the search request, `format_flight` and the flight pick.
- `Hotels`: `format_hotel`, hotel search planning, and the filter and tagging.
- `Packages`: the stack of `select_package_hotels`, its three picks and the merge.
- `Pipeline`: the whole request, with the providers given as their answers.

Where the source changes state step by step, the model is a method with
loops. Each such method is proved equal to a reference function, and the
properties are proved about that function. This applies to `format_flight`'s
nested loops, the hotel filter, the stack loops and the merge. The request as
a whole follows the same pattern. `Pipeline.ComputePackages` computes the
reference `RequestOutcome`, which is built from its stages `FlightsFound`,
`StaysFound` and `PackagesFound`. `Pipeline.RequestMeaning` then states when
the request hangs, when it resolves, and what it resolves with.

The model follows the code where a plain reading of the service disagrees with
it. An unknown airline code makes `airlines.findWhere(...)` return undefined,
and `.get('name')` on it throws inside the promise executor
(index.js:294-296). That rejects the whole `format_flight` batch, so it does
not skip the one option. `Flights.FormatAllSucceeds` states this.

## Model

| member | source | states |
|---|---|---|
| Numbers.ParseIntRoundTrip | index.js:276 | parseInt of an integer's decimal text, followed by anything that does not start with a digit, gives back that integer |
| Numbers.ParseIntNoDigits | index.js:276 | text with no digit parses to NaN (None) |
| Ranking.ArgMin | index.js:356-361 | the index a stable ascending sort puts first: its key is least, and every earlier element's key is strictly greater |
| Flights.SaleTotalRoundTrip | index.js:275-276 | a three-letter code followed by an amount splits back into that code (first three characters) and that integer |
| Flights.BuildFlightQuery | index.js:233-250 | for seg ≤ 5 the request has slices o_1..o_seg in order, one adult, 100 solutions, and a price cap whose currency is USD and whose amount reads back as the budget; seg > 5 fails as eval('o_6') does |
| Flights.FormatSegment | index.js:290-300 | the leg loop lays stop_0..stop_(k-1) of the segment, and adds every leg's duration and mileage to the running totals; an unknown carrier on a leg fails |
| Flights.FormatSlice | index.js:281-304 | the segment loop gives trip_i as the reference TripOf and adds every leg of every segment to the totals; it fails exactly when a segment with a leg has an unknown carrier |
| Flights.FormatTripOption | index.js:274-306 | one trip option becomes the reference FlightOptionOf (currency, price, summed duration and distance, one trip per slice); it fails exactly when some carrier is unknown |
| Flights.FormatFlight | index.js:269-310 | the outer loop computes the reference FormatAll: options in provider order, with the first unknown carrier rejecting the batch |
| Flights.FormatAllSucceeds | index.js:273-308 | format_flight succeeds exactly when every looked-up carrier is known; otherwise it fails with the unknown-carrier error |
| Flights.FormatAllValues | index.js:273-306 | on success there is one formatted option per trip option, and option n is trip option n formatted |
| Flights.SlicesKnownEach | index.js:294-296 | the slice-by-slice carrier check holds exactly when every slice's segments with legs name known carriers |
| Flights.FormattedPrice | index.js:275-276 | a formatted option's currency is the code in front of the amount, and its price is the amount's integer part |
| Flights.LayStopsKeys | index.js:290-291 | laying k legs adds keys stop_0..stop_(k-1) with those legs and keeps every other key |
| Flights.TripStops | index.js:286-303 | stop_x of trip_i exists exactly when some segment of the slice has more than x legs, and holds leg x of the last such segment |
| Flights.StopKeptForEveryReachingSegment | index.js:290-291 | every segment with more than x legs leaves a stop_x |
| Flights.TripsAt | index.js:281-282 | there is one trip per slice, and trip_i is built from slice i alone |
| Flights.LastStopIsLastLeg | index.js:389-390 | stop_(stop_number - 1) of a trip is the last leg of the slice's last segment; it is missing exactly when the slice has no segment or that segment has no leg |
| Flights.StopNumberCountsLastSegmentOnly | index.js:286-303 | for a two-leg segment followed by a one-leg segment: stop_number is 1, the duration sums all three legs, stop_0 comes from the second segment and stop_1 from the first |
| Flights.PickFlights | index.js:356-377 | three flights: the first option in provider order with the least price, the first with the least duration, and the first with the least distance |
| Hotels.FormatHotels | index.js:171-202 | one entry per provider hotel in provider order, each holding that hotel's fields and the search's checkout date, with no segment yet (the reference Stamped) |
| Hotels.DatePartOfDateTime | index.js:390 | the check-in date read from an ISO date-time (a ten-character date, then the time) is its date part |
| Hotels.PlanHotelQueries | index.js:384-394 | the loop over i < seg - 1 computes the reference plan, failing at the first search that cannot be formed |
| Hotels.NoFlightNoPlan | index.js:384-389 | without a cheapest flight (flights[0] undefined) every plan with at least one search fails with the missing-flight error |
| Hotels.PlanMeaning | index.js:384-394 | the plan succeeds exactly when each of its seg - 1 searches can be formed; it then holds seg - 1 searches, and search i is the one formed for i |
| Hotels.CheckInIsLastArrival | index.js:389-394 | for a formatted cheapest flight, search i goes to d_(i+1) and checks out on date_(i+2); its check-in is the date of the last leg of the last segment of slice i; there is no search when that leg is missing |
| Hotels.SegmentTag | index.js:414-422 | the tag is the first k in 0..3 with checkout == date_(k+2); there is no tag when no date matches |
| Hotels.FilterHotels | index.js:398-432 | the delete-and-tag loop computes the reference filter (survivors, tagged, in order); it rejects with "No hotel option" exactly when that is empty |
| Hotels.FilteredMembers | index.js:398-422 | a hotel is kept exactly when it is the tagged form of a hotel of the answer that survives (rate plus cheapest flight under budget, stars at least the minimum) |
| Hotels.FilteredAllSurvive | index.js:398-411 | every kept hotel's rate plus the cheapest flight's price is under budget, and its star rating reaches star (3 when absent) |
| Hotels.NoSurvivorRejects | index.js:426-430 | the filter result is empty exactly when no hotel of the answer survives |
| Hotels.TagChangesOnlySegment | index.js:414-422 | tagging changes the segment field and nothing else |
| Hotels.TagIsSearchIndex | index.js:414-422 | when date_(i+2) differs from the earlier dates, the hotels of search i are tagged with segment i |
| Packages.CopiesCarried | index.js:505-519 | copying trip_0..trip_3 one by one, when present, gives exactly the entry's trip_0..trip_3 fields |
| Packages.SeedStack | index.js:474-484 | the first stay gives one entry per hotel, in order, as the reference Seeds |
| Packages.ExtendEntry | index.js:491-524 | one entry against every hotel gives the reference Extensions: those that are not pruned, in hotel order |
| Packages.ExtendStack | index.js:490-526 | every entry, in stack order, gives the reference ExtendAll |
| Packages.BuildStack | index.js:468-529 | the stack loops compute the reference StackAfter; a stack that runs empty fails at the read of its last entry |
| Packages.SeedsMembers | index.js:474-484 | an entry is a seed exactly when it is the seed of some hotel of the first stay |
| Packages.ExtensionsMembers | index.js:491-524 | an extension is kept exactly when it extends the entry by a hotel whose running price plus the cheapest flight stays under the budget |
| Packages.ExtendAllMembers | index.js:490-526 | an entry of the next stack is exactly an unpruned extension of some entry by some hotel |
| Packages.StackComplete | index.js:468-529 | every affordable choice of one hotel per stay is in the stack, which therefore does not fail |
| Packages.StackSound | index.js:468-529 | every stack entry is the entry of some affordable choice of one hotel per stay |
| Packages.BuildSums | index.js:475-523 | an entry's price, star rating, guest rating, reviews and percent recommended are the sums over its chosen hotels, and trip counts the stays |
| Packages.ChoiceWithinBudget | index.js:494-499 | the entry of an affordable choice is under budget with the cheapest flight, given that its first hotel passed the filter |
| Packages.PruningLosesNothing | index.js:494-499 | with no negative rates, a choice of two or more stays survives pruning exactly when its full price plus the cheapest flight is under the budget |
| Packages.BuildFilesEachStay | index.js:505-520 | with later stays tagged by their own index and at most four stays, an entry holds the hotel of stay i under trip_i and nothing else |
| Packages.BuildHotelsChosen | index.js:505-520 | an entry holds only hotels its choice picked |
| Packages.StackWithinBudget | index.js:468-529 | once the first stay passed the filter, every final entry is under budget with the cheapest flight and covers every stay |
| Packages.StackStarsPositive | index.js:550-555 | hotels with positive stars give every entry a positive star sum, so the price-per-star ratio is defined |
| Packages.PickHotels | index.js:531-557 | three picks from the stack: an entry; the first entry with the highest guest rating; the first entry with the lowest price per star |
| Packages.SelectPackageHotels | index.js:464-557 | the selection is the stack's failure, or its three picks |
| Packages.SelectionMeaning | index.js:464-557 | the selection succeeds exactly when some choice of hotels is affordable, and otherwise fails on the empty stack; each pick is under budget with the cheapest flight, covers every stay, and is the entry of an affordable choice |
| Packages.StackFailsWithoutChoice | index.js:526-527 | a failed stack has no affordable choice, and its error is the empty-stack read |
| Packages.StackErrorIsNoCombination | index.js:527 | the only way the stack fails is the read of the last entry of an empty stack |
| Packages.MergePackages | index.js:90-113 | the merge succeeds exactly when there are as many picks as flights; it then gives the reference Merged: package i is flight i with pick i and a total price equal to hotel price plus flight price (NaN when the flight price is) |
| Pipeline.SearchFlights | index.js:352-377 | the flight side computes the reference FlightsFound: the query built, the provider's answer formatted, and its three picks; seg > 5 rejects; on success there are no flights or exactly three, and the first has a price |
| Pipeline.FlightsFoundSucceeds | index.js:352-377 | the flight side succeeds exactly when seg ≤ 5, the provider answers the built request, and every carrier of the answer is known; with an answer, the only failure is the unknown carrier |
| Pipeline.FlightsFoundNone | index.js:352-377 | on success no flight is carried forward exactly when the provider's answer is empty |
| Pipeline.FlightsFoundPicks | index.js:352-377 | from a non-empty answer, the three flights are formatted options of that answer: the first has the least price, the second the least duration, the third the least distance |
| Pipeline.SearchHotels | index.js:392-432 | the searches compute the reference HotelsFound: each search's answer stamped and filtered, in search order, with the first failure rejecting; every kept hotel is under budget with the cheapest flight and at the star minimum |
| Pipeline.HotelsFoundMeaning | index.js:392-432 | the searches succeed exactly when every search does; stay k is then search k's filtered answer; otherwise the error is that of the first failing search |
| Pipeline.SearchAnswerRejects | index.js:392-430 | a search is rejected exactly when the provider does not answer it or none of its hotels survives the filter |
| Pipeline.HotelsFoundSurvive | index.js:398-411 | every hotel of every answered search is under budget with the cheapest flight and reaches the star minimum |
| Pipeline.StaysQualify | index.js:384-432 | stays are found only with a cheapest flight; there is one per planned search, and all their hotels survive the filter |
| Pipeline.PicksQualify | index.js:398-411 | the entry of an affordable choice over filtered stays holds only hotels that passed the filter |
| Pipeline.SelectionQualifies | index.js:464-557 | over filtered stays the selection's three picks cover every stay; the first is under budget with the cheapest flight, and every hotel in them passed the filter |
| Pipeline.PackagesWithoutFlights | index.js:384-389 | with no flights the first hotel search fails on flights[0] and the request rejects |
| Pipeline.PackagesFoundResolves | index.js:381-451 | with flights chosen, the request resolves exactly when the stays after the cheapest flight are found and admit an affordable choice of one hotel per stay; the packages are then the flights merged with the selection's picks over those stays |
| Pipeline.PackagesFoundSafe | index.js:381-451 | after the flights the request never hangs; resolved means three packages covering seg - 1 stays, all hotels passed the filter, and the first package's total is under budget |
| Pipeline.PackagesForFlights | index.js:381-451 | the stage after the flights computes the reference PackagesFound (plan, searches, selection, merge, first failure rejecting), and keeps the guarantees of PackagesFoundSafe |
| Pipeline.ComputePackages | index.js:336-451 | the request computes the reference RequestOutcome; seg > 5 rejects; it hangs only when seg ≤ 1; resolved means 2 ≤ seg ≤ 5 and three packages, the first with a total price under budget, all covering seg - 1 stays with hotels that passed the filter |
| Pipeline.RequestMeaning | index.js:336-451 | the request hangs exactly when the flight side succeeds with seg ≤ 1; it resolves exactly when the flight side finds options, a hotel search is due, and the stays after the cheapest flight admit an affordable choice; package i then holds flight i of the flight side |

## Left out

- Network and server: the Express routes, CORS, the flight provider client and the hotel provider request. Each provider is a map from request to answer. A request with no entry in the map is a provider failure.
- Concurrency: the hotel searches run concurrently in the source, and their results are joined by a counter. The model runs them one by one in search order, and the first rejection wins. The join's sort by segment is taken to keep search order. That holds when each search's checkout date is distinct from the earlier ones (`Hotels.TagIsSearchIndex`).
- Requests that never settle: with seg ≤ 1 no hotel search starts and the promise stays pending. The model returns `Pending` for this, with no notion of time.
- Airline directory: the airline-code library is a map from code to name. A code missing from the map is the library's undefined result.
- Floating point: ratings, star ratings and percentages are exact reals. NaN from `parseFloat` on hotel fields, and comparisons with NaN, are not modelled. The price-per-star ratio is a real division rather than a cross-multiplication.
- parseInt: only base 10 and ASCII white space are modelled. Hexadecimal prefixes, Unicode spaces and JavaScript's number precision are not.
- Query parameters: budget and seg are integers and star is an optional real. The source's string-to-number coercions and missing query parameters are not modelled. The five triples are always present.
- Ranking.ArgMin: ties are resolved as a stable sort resolves them (first in provider order). `Array.prototype.sort` is stable only from ECMAScript 2019; on older engines, sorts of more than ten elements could pick another of the equal elements.
- Flights.PickFlights: requires every price to be readable. With a NaN price the comparator makes the sort's result implementation-defined.
- Pipeline.SearchFlights: when the provider offers no option, the model has no flights rather than three undefined values. The first hotel search then fails on flights[0], as in the source.
- Pipeline.ComputePackages: requires every provider price to be readable, and star to be absent or positive, so that every price-per-star ratio is defined.
- Pipeline.PackagesForFlights: same requirements as ComputePackages.
- Packages.PickHotels: the first pick sorts by totalRecommendations, a field no entry has, so the contract promises only that it is an entry. It requires positive star sums.
- Packages.SelectPackageHotels: requires positive hotel star ratings, for the price-per-star ratio.
- Packages.MergePackages: no budget claim for packages 2 and 3. Pruning uses only the cheapest flight, but those packages pair with the fastest and the shortest flight.
- Hotels.FilterHotels: the source deletes keys from the response object while iterating over it. The model builds the list of survivors instead.
- format_hotel: description, availability, rooms left, amenities, brand and the two image URLs are passed through untouched by the core, so they are not modelled. Neither is the extra list wrapping (`[formatted]`), nor the hotel provider's constant request parameters. A provider hotel without `jsonHotelBrand` or `lowRateInfo` makes index.js:188 or index.js:194 throw, which rejects that search; the model counts such an answer as an unanswered search (a provider failure).
- Deep copies: `JSON.parse(JSON.stringify(...))` copies of hotels are plain value copies.
- Logging: `console.log` calls have no effect on the model.
