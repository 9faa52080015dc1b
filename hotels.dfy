/** Hotel side of the planner: the provider's hotel list as format_hotel hands
    it on, the hotel searches parse_packages plans from the cheapest flight,
    and the filter and segment tagging it applies to each search's answer. */
module Hotels {
  import opened Common
  import opened Flights

  /** The fields of one provider hotel that the planner reads, with numbers
      already parsed (totalReviews and rateWithTax by parseInt, the ratings by
      parseFloat). */
  datatype RawHotel = RawHotel(hotelId: string, name: string, city: string, address: string,
                               totalReviews: int, guestRating: real, starRating: real,
                               rateWithTax: int, percentRecommended: real, totalRecommendations: real)

  /** One 'hotel_i' entry: the provider's fields, the checkout date of the
      search that found it and, once tagged, the itinerary segment it serves. */
  datatype Hotel = Hotel(info: RawHotel, checkout: string, segment: Option<nat>)

  /** A hotel search: destination city, check-in and checkout dates. */
  datatype HotelQuery = HotelQuery(city: string, checkIn: string, checkOut: string)

  // ---------------------------------------------------------------------------
  // format_hotel

  /** format_hotel: one entry per provider hotel, in provider order, each
      stamped with the checkout date of the search and not yet tagged. */
  method FormatHotels(raw: seq<RawHotel>, checkout: string) returns (r: seq<Hotel>)
    ensures r == Stamped(raw, checkout)
    ensures |r| == |raw|
    ensures forall i :: 0 <= i < |r| ==> r[i].info == raw[i] && r[i].checkout == checkout && r[i].segment.None?
  {
    r := [];
    var i := 0;
    while i < |raw|
      invariant 0 <= i <= |raw|
      invariant |r| == i
      invariant forall i' :: 0 <= i' < i ==> r[i'] == Hotel(raw[i'], checkout, None)
    {
      r := r + [Hotel(raw[i], checkout, None)];
      i := i + 1;
    }
  }

  /** The entries format_hotel hands on for one answer. */
  function Stamped(raw: seq<RawHotel>, checkout: string): seq<Hotel> {
    seq(|raw|, i requires 0 <= i < |raw| => Hotel(raw[i], checkout, None))
  }

  // ---------------------------------------------------------------------------
  // Planning the hotel searches

  /** The date part (first ten characters) of an ISO date-time. */
  function ArrivalDate(time: string): string {
    time[..Min(10, |time|)]
  }

  /** The check-in date read from an ISO date-time (a ten-character date,
      then the time) is its date part. */
  lemma DatePartOfDateTime(date: string, rest: string)
    requires |date| == 10
    ensures ArrivalDate(date + rest) == date
  {
  }

  /** The search for the stay after segment i + 1 (0-based i): the city is
      d_(i+1), check-in is the arrival date of the last stop of trip_i of the
      cheapest flight, checkout is date_(i+2). flights[0] missing, trip_i or
      its last stop missing, and date_(i+2) beyond the fifth triple are the
      ways this step throws, checked in the source's order. */
  function QueryFor(flight0: Option<FlightOption>, params: seq<Segment>, i: nat): Result<HotelQuery, Error>
    requires |params| == MaxSegments
  {
    if flight0.None? then Failure(NoFlightOption)
    else if i >= |flight0.value.trips| then Failure(MissingStop)
    else match LastStop(flight0.value.trips[i])
      case None => Failure(MissingStop)
      case Some(stop) =>
        if i + 1 >= MaxSegments then Failure(TooManySegments)
        else Success(HotelQuery(params[i].destination, ArrivalDate(stop.leg.arrivalTime), params[i + 1].date))
  }

  /** The first n searches, or the first failure among them. */
  function Plan(flight0: Option<FlightOption>, params: seq<Segment>, n: nat): Result<seq<HotelQuery>, Error>
    requires |params| == MaxSegments
  {
    if n == 0 then Success([])
    else match Plan(flight0, params, n - 1)
      case Failure(e) => Failure(e)
      case Success(qs) =>
        match QueryFor(flight0, params, n - 1)
        case Failure(e) => Failure(e)
        case Success(q) => Success(qs + [q])
  }

  /** parse_packages' loop over i < seg - 1 that starts the hotel searches. */
  method PlanHotelQueries(flight0: Option<FlightOption>, seg: int, params: seq<Segment>)
    returns (r: Result<seq<HotelQuery>, Error>)
    requires |params| == MaxSegments
    ensures r == Plan(flight0, params, Max(seg - 1, 0))
  {
    var queries: seq<HotelQuery> := [];
    var i := 0;
    while i < seg - 1
      invariant 0 <= i <= Max(seg - 1, 0)
      invariant Plan(flight0, params, i) == Success(queries)
    {
      if QueryFor(flight0, params, i).Failure? {
        PlanFailureSticks(flight0, params, i + 1, Max(seg - 1, 0));
      }
      if flight0.None? {
        return Failure(NoFlightOption);
      }
      var trips := flight0.value.trips;
      if i >= |trips| {
        return Failure(MissingStop);
      }
      var stop := LastStop(trips[i]);
      if stop.None? {
        return Failure(MissingStop);
      }
      if i + 1 >= MaxSegments {
        return Failure(TooManySegments);
      }
      var checkIn := stop.value.leg.arrivalTime[..Min(10, |stop.value.leg.arrivalTime|)];
      queries := queries + [HotelQuery(params[i].destination, checkIn, params[i + 1].date)];
      i := i + 1;
    }
    return Success(queries);
  }

  /** A search that cannot be formed fails every longer plan the same way. */
  lemma {:induction false} PlanFailureSticks(flight0: Option<FlightOption>, params: seq<Segment>, m: nat, n: nat)
    requires |params| == MaxSegments
    requires m <= n && Plan(flight0, params, m).Failure?
    ensures Plan(flight0, params, n) == Plan(flight0, params, m)
  {
    if m < n {
      PlanFailureSticks(flight0, params, m, n - 1);
    }
  }

  /** Without a cheapest flight (flights[0] undefined) every plan with a
      search fails on it. */
  lemma NoFlightNoPlan(params: seq<Segment>, n: nat)
    requires |params| == MaxSegments && n > 0
    ensures Plan(None, params, n) == Failure(NoFlightOption)
  {
    PlanFailureSticks(None, params, 1, n);
  }

  /** The plan succeeds exactly when every one of its searches can be formed,
      and then holds n searches, search i being QueryFor(i). */
  lemma {:induction false} PlanMeaning(flight0: Option<FlightOption>, params: seq<Segment>, n: nat)
    requires |params| == MaxSegments
    ensures Plan(flight0, params, n).Success? <==> forall i :: 0 <= i < n ==> QueryFor(flight0, params, i).Success?
    ensures Plan(flight0, params, n).Success? ==>
      |Plan(flight0, params, n).value| == n &&
      forall i :: 0 <= i < n ==> QueryFor(flight0, params, i) == Success(Plan(flight0, params, n).value[i])
  {
    if n > 0 {
      PlanMeaning(flight0, params, n - 1);
    }
  }

  /** What a planned search holds when the cheapest flight is a formatted trip
      option: the check-in date is the arrival date of the last leg of the
      last segment of slice i, and no search can be formed when that slice
      has no segment or its last segment no leg. */
  lemma CheckInIsLastArrival(o: RawTripOption, airline: Directory, params: seq<Segment>, i: nat)
    requires |params| == MaxSegments
    requires i < |o.slices| && i + 1 < MaxSegments
    ensures var segs := o.slices[i].segments;
      QueryFor(Some(FlightOptionOf(o, airline)), params, i).Success? <==> segs != [] && |segs[|segs| - 1].legs| > 0
    ensures var segs := o.slices[i].segments;
      QueryFor(Some(FlightOptionOf(o, airline)), params, i).Success? ==>
        var last := segs[|segs| - 1];
        QueryFor(Some(FlightOptionOf(o, airline)), params, i).value
          == HotelQuery(params[i].destination, ArrivalDate(last.legs[|last.legs| - 1].arrivalTime), params[i + 1].date)
  {
    TripsAt(o.slices, airline);
    LastStopIsLastLeg(o.slices[i].segments, airline);
  }

  // ---------------------------------------------------------------------------
  // Filtering and tagging one search's answer

  /** The least star rating a hotel may have: `star`, or 3 when absent. */
  function MinStar(star: Option<real>): real {
    if star.None? then 3.0 else star.value
  }

  /** A hotel stays when its rate plus the cheapest flight's price is under
      the budget and its star rating reaches the minimum. */
  predicate Survives(h: Hotel, budget: int, flightPrice: int, star: Option<real>) {
    h.info.rateWithTax + flightPrice < budget && h.info.starRating >= MinStar(star)
  }

  /** The segment a checkout date belongs to: the first k in 0..3 with
      checkout == date_(k+2). */
  function SegmentTag(checkout: string, params: seq<Segment>): (t: Option<nat>)
    requires |params| == MaxSegments
    ensures t.Some? ==> t.value < MaxSegments - 1 && params[t.value + 1].date == checkout
    ensures t.Some? ==> forall k :: 1 <= k <= t.value ==> params[k].date != checkout
    ensures t.None? ==> forall k :: 1 <= k < MaxSegments ==> params[k].date != checkout
  {
    if params[1].date == checkout then Some(0)
    else if params[2].date == checkout then Some(1)
    else if params[3].date == checkout then Some(2)
    else if params[4].date == checkout then Some(3)
    else None
  }

  /** A surviving hotel with its segment set; a checkout date matching no
      date leaves the hotel untouched. */
  function Tagged(h: Hotel, params: seq<Segment>): Hotel
    requires |params| == MaxSegments
  {
    match SegmentTag(h.checkout, params)
    case Some(k) => h.(segment := Some(k))
    case None => h
  }

  /** The reference filter: the survivors, tagged, in their original order. */
  function Filtered(hs: seq<Hotel>, budget: int, flightPrice: int, star: Option<real>, params: seq<Segment>): seq<Hotel>
    requires |params| == MaxSegments
  {
    if hs == [] then []
    else
      var last := hs[|hs| - 1];
      Filtered(hs[..|hs| - 1], budget, flightPrice, star, params)
        + (if Survives(last, budget, flightPrice, star) then [Tagged(last, params)] else [])
  }

  /** The callback that receives one search's answer: delete every hotel over
      budget or under the star minimum, tag the rest with their segment, and
      reject when nothing is left. */
  method FilterHotels(response: seq<Hotel>, budget: int, flightPrice: int, star: Option<real>, params: seq<Segment>)
    returns (r: Result<seq<Hotel>, Error>)
    requires |params| == MaxSegments
    ensures r.Failure? <==> Filtered(response, budget, flightPrice, star, params) == []
    ensures r.Failure? ==> r.error == NoHotelOption
    ensures r.Success? ==> r.value == Filtered(response, budget, flightPrice, star, params)
  {
    var kept: seq<Hotel> := [];
    var i := 0;
    while i < |response|
      invariant 0 <= i <= |response|
      invariant kept == Filtered(response[..i], budget, flightPrice, star, params)
    {
      assert response[..i + 1][..i] == response[..i];
      var h := response[i];
      if h.info.rateWithTax + flightPrice >= budget {
        // over budget: deleted
      } else if star.None? && h.info.starRating < 3.0 {
        // under the default three stars: deleted
      } else if h.info.starRating < (if star.None? then 0.0 else star.value) {
        // under the requested stars (starRating < undefined is false): deleted
      } else {
        if h.checkout == params[1].date {
          h := h.(segment := Some(0));
        } else if h.checkout == params[2].date {
          h := h.(segment := Some(1));
        } else if h.checkout == params[3].date {
          h := h.(segment := Some(2));
        } else if h.checkout == params[4].date {
          h := h.(segment := Some(3));
        }
        kept := kept + [h];
      }
      i := i + 1;
    }
    assert response[..i] == response;
    if kept == [] {
      return Failure(NoHotelOption);
    }
    return Success(kept);
  }

  /** Soundness and completeness of the filter: a hotel is in the result
      exactly when it is the tagged form of a surviving hotel of the answer. */
  lemma {:induction false} FilteredMembers(hs: seq<Hotel>, budget: int, flightPrice: int, star: Option<real>,
                                           params: seq<Segment>, x: Hotel)
    requires |params| == MaxSegments
    ensures x in Filtered(hs, budget, flightPrice, star, params) <==>
      exists i :: 0 <= i < |hs| && Survives(hs[i], budget, flightPrice, star) && x == Tagged(hs[i], params)
  {
    if hs != [] {
      var init := hs[..|hs| - 1];
      FilteredMembers(init, budget, flightPrice, star, params, x);
      assert forall i :: 0 <= i < |init| ==> init[i] == hs[i];
      if x in Filtered(hs, budget, flightPrice, star, params) && x !in Filtered(init, budget, flightPrice, star, params) {
        assert Survives(hs[|hs| - 1], budget, flightPrice, star) && x == Tagged(hs[|hs| - 1], params);
      }
    }
  }

  /** Every hotel the filter keeps is within budget with the cheapest
      flight and reaches the star minimum. */
  lemma {:induction false} FilteredAllSurvive(hs: seq<Hotel>, budget: int, flightPrice: int, star: Option<real>, params: seq<Segment>)
    requires |params| == MaxSegments
    ensures forall j :: 0 <= j < |Filtered(hs, budget, flightPrice, star, params)| ==>
      Survives(Filtered(hs, budget, flightPrice, star, params)[j], budget, flightPrice, star)
  {
    var f := Filtered(hs, budget, flightPrice, star, params);
    forall j | 0 <= j < |f|
      ensures f[j].info.rateWithTax + flightPrice < budget && f[j].info.starRating >= MinStar(star)
    {
      FilteredMembers(hs, budget, flightPrice, star, params, f[j]);
    }
  }

  /** The answer of a search is rejected exactly when none of its hotels
      survives. */
  lemma {:induction false} NoSurvivorRejects(hs: seq<Hotel>, budget: int, flightPrice: int, star: Option<real>, params: seq<Segment>)
    requires |params| == MaxSegments
    ensures Filtered(hs, budget, flightPrice, star, params) == [] <==>
      forall i :: 0 <= i < |hs| ==> !Survives(hs[i], budget, flightPrice, star)
  {
    var f := Filtered(hs, budget, flightPrice, star, params);
    if f != [] {
      FilteredMembers(hs, budget, flightPrice, star, params, f[0]);
    }
    forall i | 0 <= i < |hs| && Survives(hs[i], budget, flightPrice, star)
      ensures f != []
    {
      FilteredMembers(hs, budget, flightPrice, star, params, Tagged(hs[i], params));
    }
  }

  /** Tagging changes the segment and nothing else, and sets it to the
      segment whose checkout date the hotel's search used. */
  lemma TagChangesOnlySegment(h: Hotel, params: seq<Segment>)
    requires |params| == MaxSegments
    ensures Tagged(h, params).info == h.info && Tagged(h, params).checkout == h.checkout
    ensures SegmentTag(h.checkout, params).Some? ==> Tagged(h, params).segment == SegmentTag(h.checkout, params)
    ensures SegmentTag(h.checkout, params).None? ==> Tagged(h, params) == h
  {
  }

  /** When date_(i+2) differs from every earlier date_(k+2), the hotels of
      search i (checkout date_(i+2)) are tagged with segment i. */
  lemma TagIsSearchIndex(params: seq<Segment>, i: nat)
    requires |params| == MaxSegments && i + 1 < MaxSegments
    requires forall k :: 1 <= k <= i ==> params[k].date != params[i + 1].date
    ensures SegmentTag(params[i + 1].date, params) == Some(i)
  {
  }
}
