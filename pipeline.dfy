/** The /packages request from query to answer: build and send the flight
    search, format its answer, pick three flights, plan and run the hotel
    searches, filter their answers, select three hotel combinations and merge
    them with the flights. The providers are given as their answers. */
module Pipeline {
  import opened Common
  import opened Flights
  import opened Hotels
  import opened Packages

  /** How the request's promise ends: resolved with packages, rejected with
      an error, or never settled. */
  datatype Outcome = Resolved(packages: seq<Package>) | Rejected(error: Error) | Pending

  /** The flight provider's answer to each request it answers; a request
      without an entry fails. */
  type FlightProvider = map<FlightQuery, seq<RawTripOption>>

  /** The hotel provider's hotel list for each search it answers. */
  type HotelProvider = map<HotelQuery, seq<RawHotel>>

  predicate PricesReadable(raw: seq<RawTripOption>) {
    forall n :: 0 <= n < |raw| ==> Amount(raw[n].saleTotal).Some?
  }

  /** Every hotel of a combination is within budget with the cheapest flight
      and reaches the star minimum. */
  predicate HotelsQualify(c: Combination, budget: int, flightPrice: int, star: Option<real>) {
    forall s :: s in c.hotels ==>
      c.hotels[s].info.rateWithTax + flightPrice < budget && c.hotels[s].info.starRating >= MinStar(star)
  }

  /** Every hotel of every stay is within budget with the cheapest flight and
      reaches the star minimum. */
  predicate StaysSurvive(segments: seq<seq<Hotel>>, budget: int, flightPrice: int, star: Option<real>) {
    forall k, j :: 0 <= k < |segments| && 0 <= j < |segments[k]| ==> Survives(segments[k][j], budget, flightPrice, star)
  }

  // ---------------------------------------------------------------------------
  // Reference definitions of the request

  /** What the flight side yields: the three picks of the formatted answer,
      none when the provider offered no option, or the first failure. */
  function FlightsFound(budget: int, seg: int, params: seq<Segment>, airline: Directory, flightProvider: FlightProvider)
    : (r: Result<seq<FlightOption>, Error>)
    requires |params| == MaxSegments
    requires forall q :: q in flightProvider ==> PricesReadable(flightProvider[q])
    ensures r.Success? ==> r.value == [] || (|r.value| == 3 && r.value[0].price.Some?)
  {
    if seg > MaxSegments then Failure(TooManySegments)
    else
      var q := FlightQueryOf(budget, seg, params);
      if q !in flightProvider then Failure(ProviderFailure)
      else match FormatAll(flightProvider[q], airline)
        case Failure(e) => Failure(e)
        case Success(options) =>
          if options == [] then Success([])
          else
            FormattedPricesReadable(flightProvider[q], airline);
            Success(PickFlights(options))
  }

  /** One hotel search's answer, stamped and filtered; a search the provider
      does not answer fails, and so does an answer with no survivor. */
  function SearchAnswer(q: HotelQuery, budget: int, flightPrice: int, star: Option<real>,
                        params: seq<Segment>, hotelProvider: HotelProvider): Result<seq<Hotel>, Error>
    requires |params| == MaxSegments
  {
    if q !in hotelProvider then Failure(ProviderFailure)
    else
      var kept := Filtered(Stamped(hotelProvider[q], q.checkOut), budget, flightPrice, star, params);
      if kept == [] then Failure(NoHotelOption) else Success(kept)
  }

  /** The answers of the searches in search order, or the first failure. */
  function HotelsFound(queries: seq<HotelQuery>, budget: int, flightPrice: int, star: Option<real>,
                       params: seq<Segment>, hotelProvider: HotelProvider): Result<seq<seq<Hotel>>, Error>
    requires |params| == MaxSegments
  {
    if queries == [] then Success([])
    else match HotelsFound(queries[..|queries| - 1], budget, flightPrice, star, params, hotelProvider)
      case Failure(e) => Failure(e)
      case Success(segments) =>
        match SearchAnswer(queries[|queries| - 1], budget, flightPrice, star, params, hotelProvider)
        case Failure(e) => Failure(e)
        case Success(kept) => Success(segments + [kept])
  }

  /** The hotel lists of the seg - 1 stays: the searches planned from the
      cheapest flight, each answered and filtered. */
  function StaysFound(budget: int, seg: int, star: Option<real>, params: seq<Segment>,
                      flight0: Option<FlightOption>, hotelProvider: HotelProvider): Result<seq<seq<Hotel>>, Error>
    requires |params| == MaxSegments && 2 <= seg
    requires flight0.None? || flight0.value.price.Some?
  {
    match Plan(flight0, params, seg - 1)
    case Failure(e) => Failure(e)
    case Success(queries) =>
      PlanMeaning(flight0, params, seg - 1);
      assert QueryFor(flight0, params, 0).Success?;
      HotelsFound(queries, budget, flight0.value.price.value, star, params, hotelProvider)
  }

  /** The stays after the cheapest flight are found and admit an affordable
      choice of one hotel per stay. */
  ghost predicate StaysAffordable(budget: int, seg: int, star: Option<real>, params: seq<Segment>,
                            flight: FlightOption, hotelProvider: HotelProvider)
    requires |params| == MaxSegments && 2 <= seg && flight.price.Some?
  {
    && StaysFound(budget, seg, star, params, Some(flight), hotelProvider).Success?
    && exists c :: IsChoice(c, StaysFound(budget, seg, star, params, Some(flight), hotelProvider).value) && |c| > 0
         && Affordable(c, StaysFound(budget, seg, star, params, Some(flight), hotelProvider).value, budget, flight.price.value)
  }

  /** The request once the flights are chosen and a hotel search is due. */
  function PackagesFound(budget: int, seg: int, star: Option<real>, params: seq<Segment>,
                         flights: seq<FlightOption>, hotelProvider: HotelProvider): Outcome
    requires |params| == MaxSegments && 2 <= seg
    requires flights == [] || (|flights| == 3 && flights[0].price.Some?)
    requires star.None? || star.value > 0.0
  {
    var flight0 := if flights == [] then None else Some(flights[0]);
    match StaysFound(budget, seg, star, params, flight0, hotelProvider)
    case Failure(e) => Rejected(e)
    case Success(segments) =>
      StaysQualify(budget, seg, star, params, flight0, hotelProvider);
      match Selection(segments, budget, flights[0].price.value)
      case Failure(e) => Rejected(e)
      case Success(picks) => Resolved(Merged(flights, picks))
  }

  /** The whole request. */
  function RequestOutcome(budget: int, seg: int, star: Option<real>, params: seq<Segment>, airline: Directory,
                          flightProvider: FlightProvider, hotelProvider: HotelProvider): Outcome
    requires |params| == MaxSegments
    requires forall q :: q in flightProvider ==> PricesReadable(flightProvider[q])
    requires star.None? || star.value > 0.0
  {
    match FlightsFound(budget, seg, params, airline, flightProvider)
    case Failure(e) => Rejected(e)
    case Success(flights) =>
      if seg - 1 <= 0 then Pending
      else PackagesFound(budget, seg, star, params, flights, hotelProvider)
  }

  // ---------------------------------------------------------------------------
  // The request as the source runs it

  /** parse_flight and the flight pick of parse_packages: the three chosen
      flights, or none when the provider offered no option (then they are
      undefined, which the first hotel search trips over). */
  method SearchFlights(budget: int, seg: int, params: seq<Segment>, airline: Directory, flightProvider: FlightProvider)
    returns (r: Result<seq<FlightOption>, Error>)
    requires |params| == MaxSegments
    requires forall q :: q in flightProvider ==> PricesReadable(flightProvider[q])
    ensures r == FlightsFound(budget, seg, params, airline, flightProvider)
    ensures seg > MaxSegments ==> r == Failure(TooManySegments)
    ensures r.Success? ==> seg <= MaxSegments && (r.value == [] || |r.value| == 3)
    ensures r.Success? && r.value != [] ==> r.value[0].price.Some?
  {
    var query := BuildFlightQuery(budget, seg, params);
    if query.Failure? {
      return Failure(query.error);
    }
    if query.value !in flightProvider {
      return Failure(ProviderFailure);
    }
    var raw := flightProvider[query.value];
    var formatted := FormatFlight(raw, airline);
    if formatted.Failure? {
      return Failure(formatted.error);
    }
    var options := formatted.value;
    if options == [] {
      return Success([]);
    }
    FormattedPricesReadable(raw, airline);
    return Success(PickFlights(options));
  }

  /** The hotel searches of parse_packages, taken in search order: each
      answer formatted, filtered and tagged; a failed search or an empty
      filter result rejects. */
  method SearchHotels(queries: seq<HotelQuery>, budget: int, flightPrice: int, star: Option<real>,
                      params: seq<Segment>, hotelProvider: HotelProvider)
    returns (r: Result<seq<seq<Hotel>>, Error>)
    requires |params| == MaxSegments
    ensures r == HotelsFound(queries, budget, flightPrice, star, params, hotelProvider)
    ensures r.Success? ==> |r.value| == |queries| && StaysSurvive(r.value, budget, flightPrice, star)
    ensures r.Failure? ==> r.error == ProviderFailure || r.error == NoHotelOption
  {
    var segments: seq<seq<Hotel>> := [];
    var i := 0;
    while i < |queries|
      invariant 0 <= i <= |queries|
      invariant HotelsFound(queries[..i], budget, flightPrice, star, params, hotelProvider) == Success(segments)
    {
      assert queries[..i + 1][..i] == queries[..i];
      var q := queries[i];
      if q !in hotelProvider {
        HotelsFailureSticks(queries, i + 1, budget, flightPrice, star, params, hotelProvider);
        return Failure(ProviderFailure);
      }
      var hotels := FormatHotels(hotelProvider[q], q.checkOut);
      var kept := FilterHotels(hotels, budget, flightPrice, star, params);
      if kept.Failure? {
        HotelsFailureSticks(queries, i + 1, budget, flightPrice, star, params, hotelProvider);
        return Failure(kept.error);
      }
      segments := segments + [kept.value];
      i := i + 1;
    }
    assert queries[..i] == queries;
    HotelsFoundMeaning(queries, budget, flightPrice, star, params, hotelProvider);
    HotelsFoundSurvive(queries, budget, flightPrice, star, params, hotelProvider);
    return Success(segments);
  }

  /** parse_packages followed by the /packages callbacks. */
  method ComputePackages(budget: int, seg: int, star: Option<real>, params: seq<Segment>, airline: Directory,
                         flightProvider: FlightProvider, hotelProvider: HotelProvider)
    returns (r: Outcome)
    requires |params| == MaxSegments
    requires forall q :: q in flightProvider ==> PricesReadable(flightProvider[q])
    requires star.None? || star.value > 0.0
    ensures r == RequestOutcome(budget, seg, star, params, airline, flightProvider, hotelProvider)
    ensures seg > MaxSegments ==> r == Rejected(TooManySegments)
    ensures r.Pending? ==> seg <= 1
    ensures r.Resolved? ==> 2 <= seg <= MaxSegments && |r.packages| == 3
    ensures r.Resolved? ==> r.packages[0].totalPrice.Some? && r.packages[0].totalPrice.value < budget
    ensures r.Resolved? ==> r.packages[0].flight.price.Some? && forall i :: 0 <= i < 3 ==>
      && r.packages[i].hotel.trip == seg - 1
      && HotelsQualify(r.packages[i].hotel, budget, r.packages[0].flight.price.value, star)
  {
    var flights := SearchFlights(budget, seg, params, airline, flightProvider);
    if flights.Failure? {
      return Rejected(flights.error);
    }
    if seg - 1 <= 0 {
      // No hotel search starts, so nothing ever settles the promise.
      return Pending;
    }
    r := PackagesForFlights(budget, seg, star, params, flights.value, hotelProvider);
  }

  /** What parse_packages and the callbacks do once the flights are chosen
      and at least one hotel search is due. */
  method PackagesForFlights(budget: int, seg: int, star: Option<real>, params: seq<Segment>,
                            flights: seq<FlightOption>, hotelProvider: HotelProvider)
    returns (r: Outcome)
    requires |params| == MaxSegments && 2 <= seg
    requires flights == [] || (|flights| == 3 && flights[0].price.Some?)
    requires star.None? || star.value > 0.0
    ensures r == PackagesFound(budget, seg, star, params, flights, hotelProvider)
    ensures !r.Pending?
    ensures r.Resolved? ==> seg <= MaxSegments && |r.packages| == 3
    ensures r.Resolved? ==> r.packages[0].totalPrice.Some? && r.packages[0].totalPrice.value < budget
    ensures r.Resolved? ==> r.packages[0].flight.price.Some? && forall i :: 0 <= i < 3 ==>
      && r.packages[i].hotel.trip == seg - 1
      && HotelsQualify(r.packages[i].hotel, budget, r.packages[0].flight.price.value, star)
  {
    var flight0 := if flights == [] then None else Some(flights[0]);
    var queries := PlanHotelQueries(flight0, seg, params);
    if queries.Failure? {
      r := Rejected(queries.error);
    } else {
      PlanMeaning(flight0, params, seg - 1);
      assert QueryFor(flight0, params, 0).Success?;
      var flightPrice := flight0.value.price.value;
      var segments := SearchHotels(queries.value, budget, flightPrice, star, params, hotelProvider);
      if segments.Failure? {
        r := Rejected(segments.error);
      } else {
        StaysQualify(budget, seg, star, params, flight0, hotelProvider);
        var picks := SelectPackageHotels(segments.value, budget, flightPrice);
        if picks.Failure? {
          r := Rejected(picks.error);
        } else {
          // Three picks meet three flights, so the merge finds every package.
          var packages := MergePackages(flights, picks.value);
          assert packages.Success?;
          r := Resolved(packages.value);
        }
      }
    }
    PackagesFoundSafe(budget, seg, star, params, flights, hotelProvider);
  }

  // ---------------------------------------------------------------------------
  // What the request promises

  /** The flight side succeeds exactly when seg is within the five triples,
      the provider answers the request and every carrier it names is known;
      an unknown carrier is the only formatting failure. */
  lemma FlightsFoundSucceeds(budget: int, seg: int, params: seq<Segment>, airline: Directory, flightProvider: FlightProvider)
    requires |params| == MaxSegments
    requires forall q :: q in flightProvider ==> PricesReadable(flightProvider[q])
    ensures FlightsFound(budget, seg, params, airline, flightProvider).Success? <==>
      && seg <= MaxSegments
      && FlightQueryOf(budget, seg, params) in flightProvider
      && forall n :: 0 <= n < |flightProvider[FlightQueryOf(budget, seg, params)]| ==>
           OptionCarriersKnown(flightProvider[FlightQueryOf(budget, seg, params)][n], airline)
    ensures (seg <= MaxSegments && FlightQueryOf(budget, seg, params) in flightProvider &&
             FlightsFound(budget, seg, params, airline, flightProvider).Failure?) ==>
      FlightsFound(budget, seg, params, airline, flightProvider).error == UnknownCarrier
  {
    if seg <= MaxSegments && FlightQueryOf(budget, seg, params) in flightProvider {
      FormatAllSucceeds(flightProvider[FlightQueryOf(budget, seg, params)], airline);
    }
  }

  /** The flight side carries no flight forward exactly when the provider
      offered no option. */
  lemma FlightsFoundNone(budget: int, seg: int, params: seq<Segment>, airline: Directory, flightProvider: FlightProvider)
    requires |params| == MaxSegments
    requires forall q :: q in flightProvider ==> PricesReadable(flightProvider[q])
    requires FlightsFound(budget, seg, params, airline, flightProvider).Success?
    ensures seg <= MaxSegments && FlightQueryOf(budget, seg, params) in flightProvider
    ensures FlightsFound(budget, seg, params, airline, flightProvider).value == [] <==>
      flightProvider[FlightQueryOf(budget, seg, params)] == []
  {
    FormatAllValues(flightProvider[FlightQueryOf(budget, seg, params)], airline);
  }

  /** The flights carried forward from a non-empty answer: three formatted
      options of the answer, the first with the least price, the second with
      the least duration and the third with the least distance. */
  lemma FlightsFoundPicks(budget: int, seg: int, params: seq<Segment>, airline: Directory, flightProvider: FlightProvider,
                          raw: seq<RawTripOption>, flights: seq<FlightOption>)
    requires |params| == MaxSegments
    requires forall q :: q in flightProvider ==> PricesReadable(flightProvider[q])
    requires seg <= MaxSegments && FlightQueryOf(budget, seg, params) in flightProvider
    requires raw == flightProvider[FlightQueryOf(budget, seg, params)] && raw != []
    requires FlightsFound(budget, seg, params, airline, flightProvider) == Success(flights)
    ensures |flights| == 3
    ensures exists n :: 0 <= n < |raw| && flights[0] == FlightOptionOf(raw[n], airline)
    ensures exists n :: 0 <= n < |raw| && flights[1] == FlightOptionOf(raw[n], airline)
    ensures exists n :: 0 <= n < |raw| && flights[2] == FlightOptionOf(raw[n], airline)
    ensures forall n :: 0 <= n < |raw| ==>
      && flights[0].price.Some? && FlightOptionOf(raw[n], airline).price.Some?
      && flights[0].price.value <= FlightOptionOf(raw[n], airline).price.value
    ensures forall n :: 0 <= n < |raw| ==> flights[1].duration <= FlightOptionOf(raw[n], airline).duration
    ensures forall n :: 0 <= n < |raw| ==> flights[2].distance <= FlightOptionOf(raw[n], airline).distance
  {
    var options := FormatAll(raw, airline).value;
    FormattedPricesReadable(raw, airline);
    assert flights == PickFlights(options);
    FormatAllValues(raw, airline);
    CheapestFromAnswer(raw, airline, options, flights);
    FastestFromAnswer(raw, airline, options, flights);
    ShortestFromAnswer(raw, airline, options, flights);
  }

  lemma CheapestFromAnswer(raw: seq<RawTripOption>, airline: Directory, options: seq<FlightOption>, flights: seq<FlightOption>)
    requires |options| == |raw| > 0 && forall n :: 0 <= n < |raw| ==> options[n] == FlightOptionOf(raw[n], airline)
    requires forall j :: 0 <= j < |options| ==> options[j].price.Some?
    requires flights == PickFlights(options)
    ensures exists n :: 0 <= n < |raw| && flights[0] == FlightOptionOf(raw[n], airline)
    ensures forall n :: 0 <= n < |raw| ==>
      && flights[0].price.Some? && FlightOptionOf(raw[n], airline).price.Some?
      && flights[0].price.value <= FlightOptionOf(raw[n], airline).price.value
  {
    var p :| 0 <= p < |options| && flights[0] == options[p];
    assert flights[0] == FlightOptionOf(raw[p], airline);
  }

  lemma FastestFromAnswer(raw: seq<RawTripOption>, airline: Directory, options: seq<FlightOption>, flights: seq<FlightOption>)
    requires |options| == |raw| > 0 && forall n :: 0 <= n < |raw| ==> options[n] == FlightOptionOf(raw[n], airline)
    requires forall j :: 0 <= j < |options| ==> options[j].price.Some?
    requires flights == PickFlights(options)
    ensures exists n :: 0 <= n < |raw| && flights[1] == FlightOptionOf(raw[n], airline)
    ensures forall n :: 0 <= n < |raw| ==> flights[1].duration <= FlightOptionOf(raw[n], airline).duration
  {
    var d :| 0 <= d < |options| && flights[1] == options[d];
    assert flights[1] == FlightOptionOf(raw[d], airline);
  }

  lemma ShortestFromAnswer(raw: seq<RawTripOption>, airline: Directory, options: seq<FlightOption>, flights: seq<FlightOption>)
    requires |options| == |raw| > 0 && forall n :: 0 <= n < |raw| ==> options[n] == FlightOptionOf(raw[n], airline)
    requires forall j :: 0 <= j < |options| ==> options[j].price.Some?
    requires flights == PickFlights(options)
    ensures exists n :: 0 <= n < |raw| && flights[2] == FlightOptionOf(raw[n], airline)
    ensures forall n :: 0 <= n < |raw| ==> flights[2].distance <= FlightOptionOf(raw[n], airline).distance
  {
    var m :| 0 <= m < |options| && flights[2] == options[m];
    assert flights[2] == FlightOptionOf(raw[m], airline);
  }

  /** A failed search fails every longer run of searches the same way. */
  lemma {:induction false} HotelsFailureSticks(queries: seq<HotelQuery>, n: nat, budget: int, flightPrice: int,
                                              star: Option<real>, params: seq<Segment>, hotelProvider: HotelProvider)
    requires |params| == MaxSegments
    requires n <= |queries| && HotelsFound(queries[..n], budget, flightPrice, star, params, hotelProvider).Failure?
    ensures HotelsFound(queries, budget, flightPrice, star, params, hotelProvider)
         == HotelsFound(queries[..n], budget, flightPrice, star, params, hotelProvider)
  {
    if n < |queries| {
      var init := queries[..|queries| - 1];
      assert init[..n] == queries[..n];
      HotelsFailureSticks(init, n, budget, flightPrice, star, params, hotelProvider);
    } else {
      assert queries[..n] == queries;
    }
  }

  /** The searches succeed exactly when every search does; then stay k holds
      search k's filtered answer; otherwise the error is the first failing
      search's. */
  lemma {:induction false} HotelsFoundMeaning(queries: seq<HotelQuery>, budget: int, flightPrice: int, star: Option<real>,
                                             params: seq<Segment>, hotelProvider: HotelProvider)
    requires |params| == MaxSegments
    ensures HotelsFound(queries, budget, flightPrice, star, params, hotelProvider).Success? <==>
      forall k :: 0 <= k < |queries| ==> SearchAnswer(queries[k], budget, flightPrice, star, params, hotelProvider).Success?
    ensures HotelsFound(queries, budget, flightPrice, star, params, hotelProvider).Success? ==>
      && |HotelsFound(queries, budget, flightPrice, star, params, hotelProvider).value| == |queries|
      && forall k :: 0 <= k < |queries| ==>
           SearchAnswer(queries[k], budget, flightPrice, star, params, hotelProvider)
           == Success(HotelsFound(queries, budget, flightPrice, star, params, hotelProvider).value[k])
    ensures HotelsFound(queries, budget, flightPrice, star, params, hotelProvider).Failure? ==>
      exists k :: 0 <= k < |queries|
        && SearchAnswer(queries[k], budget, flightPrice, star, params, hotelProvider)
           == Failure(HotelsFound(queries, budget, flightPrice, star, params, hotelProvider).error)
        && forall k' :: 0 <= k' < k ==> SearchAnswer(queries[k'], budget, flightPrice, star, params, hotelProvider).Success?
  {
    if queries != [] {
      var init := queries[..|queries| - 1];
      HotelsFoundMeaning(init, budget, flightPrice, star, params, hotelProvider);
      assert forall k :: 0 <= k < |init| ==> init[k] == queries[k];
    }
  }

  /** A search is rejected exactly when the provider does not answer it or
      none of its hotels survives the filter. */
  lemma SearchAnswerRejects(q: HotelQuery, budget: int, flightPrice: int, star: Option<real>,
                            params: seq<Segment>, hotelProvider: HotelProvider)
    requires |params| == MaxSegments
    ensures SearchAnswer(q, budget, flightPrice, star, params, hotelProvider).Failure? <==>
      q !in hotelProvider ||
      forall j :: 0 <= j < |hotelProvider[q]| ==> !Survives(Hotel(hotelProvider[q][j], q.checkOut, None), budget, flightPrice, star)
  {
    if q in hotelProvider {
      var hs := Stamped(hotelProvider[q], q.checkOut);
      NoSurvivorRejects(hs, budget, flightPrice, star, params);
      assert |hs| == |hotelProvider[q]|;
      assert forall j :: 0 <= j < |hs| ==> hs[j] == Hotel(hotelProvider[q][j], q.checkOut, None);
    }
  }

  /** Every hotel of every answered search survives the filter. */
  lemma {:induction false} HotelsFoundSurvive(queries: seq<HotelQuery>, budget: int, flightPrice: int, star: Option<real>,
                                             params: seq<Segment>, hotelProvider: HotelProvider)
    requires |params| == MaxSegments
    requires HotelsFound(queries, budget, flightPrice, star, params, hotelProvider).Success?
    ensures StaysSurvive(HotelsFound(queries, budget, flightPrice, star, params, hotelProvider).value, budget, flightPrice, star)
  {
    if queries != [] {
      var init, q := queries[..|queries| - 1], queries[|queries| - 1];
      HotelsFoundSurvive(init, budget, flightPrice, star, params, hotelProvider);
      var before := HotelsFound(init, budget, flightPrice, star, params, hotelProvider).value;
      var kept := SearchAnswer(q, budget, flightPrice, star, params, hotelProvider).value;
      FilteredAllSurvive(Stamped(hotelProvider[q], q.checkOut), budget, flightPrice, star, params);
      var segments: seq<seq<Hotel>> := HotelsFound(queries, budget, flightPrice, star, params, hotelProvider).value;
      assert segments == before + [kept];
      forall k: int, j: int | 0 <= k < |segments| && 0 <= j < |segments[k]|
        ensures Survives(segments[k][j], budget, flightPrice, star)
      {
        if k < |before| {
          assert segments[k][j] == before[k][j];
        } else {
          assert k == |before| && segments[k] == kept;
        }
      }
    }
  }

  /** The stays exist only with a cheapest flight; there is one per planned
      search, and all their hotels survive the filter. */
  lemma StaysQualify(budget: int, seg: int, star: Option<real>, params: seq<Segment>,
                     flight0: Option<FlightOption>, hotelProvider: HotelProvider)
    requires |params| == MaxSegments && 2 <= seg
    requires flight0.None? || flight0.value.price.Some?
    requires StaysFound(budget, seg, star, params, flight0, hotelProvider).Success?
    ensures flight0.Some?
    ensures |StaysFound(budget, seg, star, params, flight0, hotelProvider).value| == seg - 1
    ensures StaysSurvive(StaysFound(budget, seg, star, params, flight0, hotelProvider).value,
                         budget, flight0.value.price.value, star)
  {
    PlanMeaning(flight0, params, seg - 1);
    assert QueryFor(flight0, params, 0).Success?;
    var queries := Plan(flight0, params, seg - 1).value;
    HotelsFoundMeaning(queries, budget, flight0.value.price.value, star, params, hotelProvider);
    HotelsFoundSurvive(queries, budget, flight0.value.price.value, star, params, hotelProvider);
  }

  /** Without flights (flights[0] undefined) the first hotel search fails. */
  lemma PackagesWithoutFlights(budget: int, seg: int, star: Option<real>, params: seq<Segment>, hotelProvider: HotelProvider)
    requires |params| == MaxSegments && 2 <= seg
    requires star.None? || star.value > 0.0
    ensures PackagesFound(budget, seg, star, params, [], hotelProvider) == Rejected(NoFlightOption)
  {
    NoFlightNoPlan(params, seg - 1);
  }

  /** With flights chosen, the request resolves exactly when the stays after
      the cheapest flight are found and admit an affordable choice; package i
      is then flight i merged with pick i of the selection over those stays. */
  lemma PackagesFoundResolves(budget: int, seg: int, star: Option<real>, params: seq<Segment>,
                              flights: seq<FlightOption>, hotelProvider: HotelProvider)
    requires |params| == MaxSegments && 2 <= seg
    requires |flights| == 3 && flights[0].price.Some?
    requires star.None? || star.value > 0.0
    ensures PackagesFound(budget, seg, star, params, flights, hotelProvider).Resolved? <==>
      StaysAffordable(budget, seg, star, params, flights[0], hotelProvider)
    ensures PackagesFound(budget, seg, star, params, flights, hotelProvider).Resolved? ==>
      && StaysFound(budget, seg, star, params, Some(flights[0]), hotelProvider).Success?
      && StaysSurvive(StaysFound(budget, seg, star, params, Some(flights[0]), hotelProvider).value, budget, flights[0].price.value, star)
      && Selection(StaysFound(budget, seg, star, params, Some(flights[0]), hotelProvider).value, budget, flights[0].price.value).Success?
      && PackagesFound(budget, seg, star, params, flights, hotelProvider).packages
         == Merged(flights, Selection(StaysFound(budget, seg, star, params, Some(flights[0]), hotelProvider).value, budget, flights[0].price.value).value)
  {
    var stays := StaysFound(budget, seg, star, params, Some(flights[0]), hotelProvider);
    if stays.Success? {
      StaysQualify(budget, seg, star, params, Some(flights[0]), hotelProvider);
      SelectionMeaning(stays.value, budget, flights[0].price.value);
    }
  }

  /** What any outcome of the stage after the flights keeps: it never hangs;
      when it resolves, the three packages cover the seg - 1 stays, hold only
      hotels that passed the filter, and the first is within budget. */
  lemma PackagesFoundSafe(budget: int, seg: int, star: Option<real>, params: seq<Segment>,
                          flights: seq<FlightOption>, hotelProvider: HotelProvider)
    requires |params| == MaxSegments && 2 <= seg
    requires flights == [] || (|flights| == 3 && flights[0].price.Some?)
    requires star.None? || star.value > 0.0
    ensures !PackagesFound(budget, seg, star, params, flights, hotelProvider).Pending?
    ensures PackagesFound(budget, seg, star, params, flights, hotelProvider).Resolved? ==>
      && seg <= MaxSegments && |PackagesFound(budget, seg, star, params, flights, hotelProvider).packages| == 3
      && PackagesFound(budget, seg, star, params, flights, hotelProvider).packages[0].totalPrice.Some?
      && PackagesFound(budget, seg, star, params, flights, hotelProvider).packages[0].totalPrice.value < budget
      && PackagesFound(budget, seg, star, params, flights, hotelProvider).packages[0].flight.price.Some?
      && forall i :: 0 <= i < 3 ==>
           && PackagesFound(budget, seg, star, params, flights, hotelProvider).packages[i].hotel.trip == seg - 1
           && HotelsQualify(PackagesFound(budget, seg, star, params, flights, hotelProvider).packages[i].hotel,
                            budget, flights[0].price.value, star)
  {
    if flights != [] {
      var stays := StaysFound(budget, seg, star, params, Some(flights[0]), hotelProvider);
      if stays.Success? {
        StaysQualify(budget, seg, star, params, Some(flights[0]), hotelProvider);
        SelectionQualifies(stays.value, budget, flights[0].price.value, star);
        PlanMeaning(Some(flights[0]), params, seg - 1);
        assert QueryFor(Some(flights[0]), params, seg - 2).Success?;
      }
    }
  }

  /** The whole request: seg beyond five rejects; it hangs exactly when the
      flight side succeeds with at most one segment; it resolves exactly when
      the flight side finds options, a hotel search is due, and the stays
      after the cheapest flight admit an affordable choice; package i then
      holds flight i of the flight side. */
  lemma RequestMeaning(budget: int, seg: int, star: Option<real>, params: seq<Segment>, airline: Directory,
                       flightProvider: FlightProvider, hotelProvider: HotelProvider)
    requires |params| == MaxSegments
    requires forall q :: q in flightProvider ==> PricesReadable(flightProvider[q])
    requires star.None? || star.value > 0.0
    ensures seg > MaxSegments ==>
      RequestOutcome(budget, seg, star, params, airline, flightProvider, hotelProvider) == Rejected(TooManySegments)
    ensures RequestOutcome(budget, seg, star, params, airline, flightProvider, hotelProvider).Pending? <==>
      seg <= 1 && FlightsFound(budget, seg, params, airline, flightProvider).Success?
    ensures RequestOutcome(budget, seg, star, params, airline, flightProvider, hotelProvider).Resolved? <==>
      && 2 <= seg
      && FlightsFound(budget, seg, params, airline, flightProvider).Success?
      && FlightsFound(budget, seg, params, airline, flightProvider).value != []
      && StaysAffordable(budget, seg, star, params, FlightsFound(budget, seg, params, airline, flightProvider).value[0], hotelProvider)
    ensures RequestOutcome(budget, seg, star, params, airline, flightProvider, hotelProvider).Resolved? ==>
      && FlightsFound(budget, seg, params, airline, flightProvider).Success?
      && |RequestOutcome(budget, seg, star, params, airline, flightProvider, hotelProvider).packages| == 3
      && forall i :: 0 <= i < 3 ==>
           RequestOutcome(budget, seg, star, params, airline, flightProvider, hotelProvider).packages[i].flight
           == FlightsFound(budget, seg, params, airline, flightProvider).value[i]
  {
    var flights := FlightsFound(budget, seg, params, airline, flightProvider);
    if flights.Success? && 2 <= seg {
      if flights.value == [] {
        PackagesWithoutFlights(budget, seg, star, params, hotelProvider);
      } else {
        PackagesFoundResolves(budget, seg, star, params, flights.value, hotelProvider);
      }
    }
  }

  /** Picks that are entries of affordable choices over filtered stays hold
      only hotels that passed the filter. */
  lemma PicksQualify(segments: seq<seq<Hotel>>, budget: int, flightPrice: int, star: Option<real>, picks: seq<Combination>)
    requires |segments| > 0
    requires StaysSurvive(segments, budget, flightPrice, star)
    requires forall i :: 0 <= i < |picks| ==>
      exists c :: IsChoice(c, segments) && |c| > 0 && Affordable(c, segments, budget, flightPrice) && picks[i] == Build(c, segments)
    ensures forall i :: 0 <= i < |picks| ==> HotelsQualify(picks[i], budget, flightPrice, star)
  {
    forall i | 0 <= i < |picks|
      ensures HotelsQualify(picks[i], budget, flightPrice, star)
    {
      var c :| IsChoice(c, segments) && |c| > 0 && Affordable(c, segments, budget, flightPrice) && picks[i] == Build(c, segments);
      BuildHotelsChosen(c, segments);
    }
  }

  /** Readable amounts give every formatted option a price. */
  lemma FormattedPricesReadable(raw: seq<RawTripOption>, airline: Directory)
    requires PricesReadable(raw) && FormatAll(raw, airline).Success?
    ensures forall k :: 0 <= k < |FormatAll(raw, airline).value| ==> FormatAll(raw, airline).value[k].price.Some?
  {
    FormatAllValues(raw, airline);
  }

  /** The selection over filtered stays: three picks covering every stay,
      the first within budget with the cheapest flight, all holding only
      hotels that passed the filter. */
  lemma SelectionQualifies(segments: seq<seq<Hotel>>, budget: int, flightPrice: int, star: Option<real>)
    requires |segments| > 0 && MinStar(star) > 0.0
    requires StaysSurvive(segments, budget, flightPrice, star)
    ensures Selection(segments, budget, flightPrice).Success? ==>
      var picks := Selection(segments, budget, flightPrice).value;
      && |picks| == 3 && picks[0].price + flightPrice < budget
      && forall i :: 0 <= i < 3 ==> picks[i].trip == |segments| && HotelsQualify(picks[i], budget, flightPrice, star)
  {
    SelectionMeaning(segments, budget, flightPrice);
    if Selection(segments, budget, flightPrice).Success? {
      PicksQualify(segments, budget, flightPrice, star, Selection(segments, budget, flightPrice).value);
    }
  }
}
