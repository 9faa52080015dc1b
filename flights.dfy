/** Flight side of the planner: the search request built from the itinerary
    (parse_flight), the normalisation of the provider's trip options
    (format_flight) and the choice of three flights (parse_packages). */
module Flights {
  import opened Common
  import opened Numbers
  import opened Ranking

  /** One origin/destination/date triple of the query (o_i, d_i, date_i). */
  datatype Segment = Segment(origin: string, destination: string, date: string)

  /** The search request: one slice per itinerary segment, one adult, a price
      cap written as currency code and amount, at most 100 solutions. */
  datatype FlightQuery = FlightQuery(adultCount: nat, slices: seq<Segment>, maxPrice: string, solutions: nat)

  /** One flight of a segment as the provider reports it (leg[k]). */
  datatype Leg = Leg(arrivalTime: string, departureTime: string, duration: int, mileage: int)

  /** One flight number of a slice with its legs (slice[i].segment[j]). */
  datatype RawSegment = RawSegment(carrier: string, number: string, legs: seq<Leg>)

  /** The part of a trip option that covers one itinerary segment. */
  datatype RawSlice = RawSlice(segments: seq<RawSegment>)

  /** One priced solution of the provider (tripOption[n]). */
  datatype RawTripOption = RawTripOption(saleTotal: string, slices: seq<RawSlice>)

  /** The airline directory: IATA code to airline name. */
  type Directory = map<string, string>

  /** A leg after formatting: the leg itself plus airline name and flight number. */
  datatype Stop = Stop(leg: Leg, carrier: string, flight: string)

  /** The 'trip_i' object: its 'stop_k' entries and its 'stop_number', which is
      absent when the slice has no segment at all. */
  datatype Trip = Trip(stops: map<nat, Stop>, stopNumber: Option<nat>)

  /** One formatted trip option; a price parseInt cannot read is NaN (None). */
  datatype FlightOption = FlightOption(currency: string, price: Option<int>, duration: int, distance: int, trips: seq<Trip>)

  // ---------------------------------------------------------------------------
  // The search request

  /** Currency code of a combined currency+amount string: its first three characters. */
  function Currency(saleTotal: string): string {
    saleTotal[..Min(3, |saleTotal|)]
  }

  /** Amount of a combined currency+amount string: parseInt of what follows the code. */
  function Amount(saleTotal: string): Option<int> {
    ParseInt(saleTotal[Min(3, |saleTotal|)..])
  }

  /** A three-letter code followed by the text of an integer (and possibly a
      fractional part) splits back into that code and that integer. */
  lemma SaleTotalRoundTrip(code: string, price: int, rest: string)
    requires |code| == 3
    requires rest == [] || !IsDigit(rest[0])
    ensures Currency(code + IntToString(price) + rest) == code
    ensures Amount(code + IntToString(price) + rest) == Some(price)
  {
    var s := code + IntToString(price) + rest;
    assert s[3..] == IntToString(price) + rest;
    ParseIntRoundTrip(price, rest);
  }

  /** The request parse_flight sends when seg is within the five triples. */
  function FlightQueryOf(budget: int, seg: int, params: seq<Segment>): FlightQuery
    requires |params| == MaxSegments && seg <= MaxSegments
  {
    FlightQuery(1, params[..Max(seg, 0)], "USD" + IntToString(budget), 100)
  }

  /** The request of parse_flight: slices o_1..o_seg in order; eval('o_6')
      throws when seg exceeds the five triples the function takes. */
  method BuildFlightQuery(budget: int, seg: int, params: seq<Segment>) returns (r: Result<FlightQuery, Error>)
    requires |params| == MaxSegments
    ensures r.Success? <==> seg <= MaxSegments
    ensures r.Success? ==> r.value == FlightQueryOf(budget, seg, params)
    ensures r.Failure? ==> r.error == TooManySegments
    ensures r.Success? ==> r.value.slices == params[..Max(seg, 0)]
    ensures r.Success? ==> r.value.adultCount == 1 && r.value.solutions == 100
    ensures r.Success? ==> Currency(r.value.maxPrice) == "USD" && Amount(r.value.maxPrice) == Some(budget)
  {
    var segments: seq<Segment> := [];
    var i := 1;
    while i <= seg
      invariant 1 <= i <= MaxSegments + 1
      invariant i <= Max(seg, 0) + 1
      invariant segments == params[..i - 1]
    {
      if i > MaxSegments {
        return Failure(TooManySegments);
      }
      segments := segments + [params[i - 1]];
      i := i + 1;
    }
    var maxPrice := "USD" + IntToString(budget);
    SaleTotalRoundTrip("USD", budget, "");
    assert maxPrice == "USD" + IntToString(budget) + "";
    r := Success(FlightQuery(1, segments, maxPrice, 100));
  }

  // ---------------------------------------------------------------------------
  // Reference definitions for format_flight

  /** The legs of a run of segments, in order. */
  function SegmentLegs(segs: seq<RawSegment>): seq<Leg> {
    if segs == [] then [] else SegmentLegs(segs[..|segs| - 1]) + segs[|segs| - 1].legs
  }

  /** The legs of a run of slices, in order. */
  function SliceLegs(slices: seq<RawSlice>): seq<Leg> {
    if slices == [] then [] else SliceLegs(slices[..|slices| - 1]) + SegmentLegs(slices[|slices| - 1].segments)
  }

  function TotalDuration(legs: seq<Leg>): int {
    if legs == [] then 0 else TotalDuration(legs[..|legs| - 1]) + legs[|legs| - 1].duration
  }

  function TotalMileage(legs: seq<Leg>): int {
    if legs == [] then 0 else TotalMileage(legs[..|legs| - 1]) + legs[|legs| - 1].mileage
  }

  /** A segment's airline name; only looked up when the segment has a leg. */
  function CarrierName(airline: Directory, s: RawSegment): string {
    if s.carrier in airline then airline[s.carrier] else ""
  }

  /** Every segment that has a leg names an airline the directory knows. */
  predicate CarriersKnown(segs: seq<RawSegment>, airline: Directory) {
    forall j :: 0 <= j < |segs| && |segs[j].legs| > 0 ==> segs[j].carrier in airline
  }

  /** Every slice of a run passes CarriersKnown, checked slice by slice. */
  predicate SlicesKnown(slices: seq<RawSlice>, airline: Directory) {
    slices == [] || (SlicesKnown(slices[..|slices| - 1], airline) && CarriersKnown(slices[|slices| - 1].segments, airline))
  }

  predicate OptionCarriersKnown(o: RawTripOption, airline: Directory) {
    SlicesKnown(o.slices, airline)
  }

  /** SlicesKnown holds exactly when every slice's airline codes are known. */
  lemma {:induction false} SlicesKnownEach(slices: seq<RawSlice>, airline: Directory)
    ensures SlicesKnown(slices, airline) <==> forall i :: 0 <= i < |slices| ==> CarriersKnown(slices[i].segments, airline)
  {
    if slices != [] {
      var init := slices[..|slices| - 1];
      SlicesKnownEach(init, airline);
      assert forall i :: 0 <= i < |init| ==> init[i] == slices[i];
    }
  }

  function StopOf(s: RawSegment, k: nat, airline: Directory): Stop
    requires k < |s.legs|
  {
    Stop(s.legs[k], CarrierName(airline, s), s.number)
  }

  /** `m` with 'stop_0' .. 'stop_(k-1)' set from the legs of segment `s`. */
  function LayStops(m: map<nat, Stop>, s: RawSegment, airline: Directory, k: nat): map<nat, Stop>
    requires k <= |s.legs|
  {
    if k == 0 then m else LayStops(m, s, airline, k - 1)[k - 1 := StopOf(s, k - 1, airline)]
  }

  /** The 'trip_i' object built from the segments of slice i. The stop keys
      start again at 'stop_0' for every segment, and 'stop_number' is the leg
      count of the segment processed last. */
  function TripOf(segs: seq<RawSegment>, airline: Directory): Trip {
    if segs == [] then Trip(map[], None)
    else
      var s := segs[|segs| - 1];
      Trip(LayStops(TripOf(segs[..|segs| - 1], airline).stops, s, airline, |s.legs|), Some(|s.legs|))
  }

  function Trips(slices: seq<RawSlice>, airline: Directory): seq<Trip> {
    if slices == [] then [] else Trips(slices[..|slices| - 1], airline) + [TripOf(slices[|slices| - 1].segments, airline)]
  }

  /** The formatted trip option. */
  function FlightOptionOf(o: RawTripOption, airline: Directory): FlightOption {
    var legs := SliceLegs(o.slices);
    FlightOption(Currency(o.saleTotal), Amount(o.saleTotal),
                 TotalDuration(legs), TotalMileage(legs), Trips(o.slices, airline))
  }

  // ---------------------------------------------------------------------------
  // format_flight

  /** Durations and mileages of consecutive runs of legs add up. */
  lemma {:induction false} TotalsAppend(a: seq<Leg>, b: seq<Leg>)
    ensures TotalDuration(a + b) == TotalDuration(a) + TotalDuration(b)
    ensures TotalMileage(a + b) == TotalMileage(a) + TotalMileage(b)
  {
    if b != [] {
      assert (a + b)[..|a + b| - 1] == a + b[..|b| - 1];
      TotalsAppend(a, b[..|b| - 1]);
    } else {
      assert a + b == a;
    }
  }

  /** The innermost loop of format_flight for segment `s` of a slice: set
      'stop_0' .. 'stop_(k-1)' from its legs and add every leg's duration and
      mileage to the running totals. */
  method FormatSegment(s: RawSegment, airline: Directory, stops0: map<nat, Stop>, duration0: int, distance0: int)
    returns (r: Result<map<nat, Stop>, Error>, duration: int, distance: int)
    ensures r.Success? <==> |s.legs| == 0 || s.carrier in airline
    ensures r.Failure? ==> r.error == UnknownCarrier
    ensures r.Success? ==> r.value == LayStops(stops0, s, airline, |s.legs|)
    ensures r.Success? ==> duration == duration0 + TotalDuration(s.legs) && distance == distance0 + TotalMileage(s.legs)
  {
    var stops := stops0;
    duration, distance := duration0, distance0;
    var k := 0;
    while k < |s.legs|
      invariant 0 <= k <= |s.legs|
      invariant k > 0 ==> s.carrier in airline
      invariant stops == LayStops(stops0, s, airline, k)
      invariant duration == duration0 + TotalDuration(s.legs[..k])
      invariant distance == distance0 + TotalMileage(s.legs[..k])
    {
      if s.carrier !in airline {
        return Failure(UnknownCarrier), duration, distance;
      }
      stops := stops[k := Stop(s.legs[k], airline[s.carrier], s.number)];
      duration := duration + s.legs[k].duration;
      distance := distance + s.legs[k].mileage;
      assert s.legs[..k + 1][..k] == s.legs[..k];
      k := k + 1;
    }
    assert s.legs[..k] == s.legs;
    r := Success(stops);
  }

  /** The middle loop of format_flight for one slice: every segment laid out
      in turn; 'stop_number' is set after each segment. */
  method FormatSlice(slice: RawSlice, airline: Directory, duration0: int, distance0: int)
    returns (r: Result<Trip, Error>, duration: int, distance: int)
    ensures r.Success? <==> CarriersKnown(slice.segments, airline)
    ensures r.Failure? ==> r.error == UnknownCarrier
    ensures r.Success? ==> r.value == TripOf(slice.segments, airline)
    ensures r.Success? ==> duration == duration0 + TotalDuration(SegmentLegs(slice.segments))
    ensures r.Success? ==> distance == distance0 + TotalMileage(SegmentLegs(slice.segments))
  {
    var segs := slice.segments;
    var stops: map<nat, Stop> := map[];
    var stopNumber: Option<nat> := None;
    duration, distance := duration0, distance0;
    var j := 0;
    while j < |segs|
      invariant 0 <= j <= |segs|
      invariant CarriersKnown(segs[..j], airline)
      invariant Trip(stops, stopNumber) == TripOf(segs[..j], airline)
      invariant duration == duration0 + TotalDuration(SegmentLegs(segs[..j]))
      invariant distance == distance0 + TotalMileage(SegmentLegs(segs[..j]))
    {
      var s := segs[j];
      var laid, d, m := FormatSegment(s, airline, stops, duration, distance);
      if laid.Failure? {
        UnknownCarrierFails(segs, j, airline);
        return Failure(laid.error), duration, distance;
      }
      SegmentStep(segs, j, airline);
      SegmentTotalsStep(segs, j);
      stops, stopNumber := laid.value, Some(|s.legs|);
      duration, distance := d, m;
      j := j + 1;
    }
    assert segs[..j] == segs;
    r := Success(Trip(stops, stopNumber));
  }

  /** One more segment: the reference definitions advance by that segment. */
  lemma SegmentStep(segs: seq<RawSegment>, j: nat, airline: Directory)
    requires j < |segs|
    requires CarriersKnown(segs[..j], airline)
    requires |segs[j].legs| == 0 || segs[j].carrier in airline
    ensures CarriersKnown(segs[..j + 1], airline)
    ensures TripOf(segs[..j + 1], airline)
         == Trip(LayStops(TripOf(segs[..j], airline).stops, segs[j], airline, |segs[j].legs|), Some(|segs[j].legs|))
  {
    assert segs[..j + 1][..j] == segs[..j];
  }

  /** One more segment adds its legs' duration and mileage to the totals. */
  lemma SegmentTotalsStep(segs: seq<RawSegment>, j: nat)
    requires j < |segs|
    ensures TotalDuration(SegmentLegs(segs[..j + 1])) == TotalDuration(SegmentLegs(segs[..j])) + TotalDuration(segs[j].legs)
    ensures TotalMileage(SegmentLegs(segs[..j + 1])) == TotalMileage(SegmentLegs(segs[..j])) + TotalMileage(segs[j].legs)
  {
    assert segs[..j + 1][..j] == segs[..j];
    TotalsAppend(SegmentLegs(segs[..j]), segs[j].legs);
  }

  lemma UnknownCarrierFails(segs: seq<RawSegment>, j: nat, airline: Directory)
    requires j < |segs|
    requires |segs[j].legs| > 0 && segs[j].carrier !in airline
    ensures !CarriersKnown(segs, airline)
  {
  }

  /** The body of format_flight's outer loop for one trip option. */
  method FormatTripOption(o: RawTripOption, airline: Directory) returns (r: Result<FlightOption, Error>)
    ensures r.Success? <==> OptionCarriersKnown(o, airline)
    ensures r.Failure? ==> r.error == UnknownCarrier
    ensures r.Success? ==> r.value == FlightOptionOf(o, airline)
  {
    var currency := Currency(o.saleTotal);
    var price := Amount(o.saleTotal);
    var duration, distance := 0, 0;
    var trips: seq<Trip> := [];
    var i := 0;
    while i < |o.slices|
      invariant 0 <= i <= |o.slices|
      invariant SlicesKnown(o.slices[..i], airline)
      invariant trips == Trips(o.slices[..i], airline)
      invariant duration == TotalDuration(SliceLegs(o.slices[..i]))
      invariant distance == TotalMileage(SliceLegs(o.slices[..i]))
    {
      var trip, d, m := FormatSlice(o.slices[i], airline, duration, distance);
      if trip.Failure? {
        SlicesKnownEach(o.slices, airline);
        return Failure(trip.error);
      }
      SliceStep(o.slices, i, airline);
      trips := trips + [trip.value];
      duration, distance := d, m;
      i := i + 1;
    }
    assert o.slices[..i] == o.slices;
    r := Success(FlightOption(currency, price, duration, distance, trips));
  }

  /** One more slice: the reference definitions advance by that slice. */
  lemma SliceStep(slices: seq<RawSlice>, i: nat, airline: Directory)
    requires i < |slices|
    ensures SlicesKnown(slices[..i + 1], airline) <==> SlicesKnown(slices[..i], airline) && CarriersKnown(slices[i].segments, airline)
    ensures Trips(slices[..i + 1], airline) == Trips(slices[..i], airline) + [TripOf(slices[i].segments, airline)]
    ensures TotalDuration(SliceLegs(slices[..i + 1]))
         == TotalDuration(SliceLegs(slices[..i])) + TotalDuration(SegmentLegs(slices[i].segments))
    ensures TotalMileage(SliceLegs(slices[..i + 1]))
         == TotalMileage(SliceLegs(slices[..i])) + TotalMileage(SegmentLegs(slices[i].segments))
  {
    assert slices[..i + 1][..i] == slices[..i];
    TotalsAppend(SliceLegs(slices[..i]), SegmentLegs(slices[i].segments));
  }

  /** format_flight's result: every trip option formatted, in provider order;
      the first unknown airline code rejects the whole batch. */
  function FormatAll(raw: seq<RawTripOption>, airline: Directory): Result<seq<FlightOption>, Error>
  {
    if raw == [] then Success([])
    else
      var last := raw[|raw| - 1];
      match FormatAll(raw[..|raw| - 1], airline)
      case Failure(e) => Failure(e)
      case Success(fs) =>
        if OptionCarriersKnown(last, airline) then Success(fs + [FlightOptionOf(last, airline)])
        else Failure(UnknownCarrier)
  }

  /** format_flight. The airline lookup throws on an unknown code, which
      rejects the promise of the whole batch. */
  method FormatFlight(raw: seq<RawTripOption>, airline: Directory) returns (r: Result<seq<FlightOption>, Error>)
    ensures r == FormatAll(raw, airline)
  {
    var formatted: seq<FlightOption> := [];
    var n := 0;
    while n < |raw|
      invariant 0 <= n <= |raw|
      invariant FormatAll(raw[..n], airline) == Success(formatted)
    {
      assert raw[..n + 1][..n] == raw[..n];
      var option := FormatTripOption(raw[n], airline);
      if option.Failure? {
        FormatAllFailureSticks(raw, n + 1, airline);
        return Failure(option.error);
      }
      formatted := formatted + [option.value];
      n := n + 1;
    }
    assert raw[..n] == raw;
    r := Success(formatted);
  }

  /** Once a prefix of the batch fails, the whole batch fails the same way. */
  lemma {:induction false} FormatAllFailureSticks(raw: seq<RawTripOption>, n: nat, airline: Directory)
    requires n <= |raw| && FormatAll(raw[..n], airline).Failure?
    ensures FormatAll(raw, airline) == FormatAll(raw[..n], airline)
  {
    if n < |raw| {
      assert raw[..|raw| - 1][..n] == raw[..n];
      FormatAllFailureSticks(raw[..|raw| - 1], n, airline);
      assert FormatAll(raw, airline) == FormatAll(raw[..|raw| - 1], airline);
    } else {
      assert raw[..n] == raw;
    }
  }

  /** format_flight succeeds exactly when every airline code it looks up is
      known, and otherwise fails on an unknown carrier. */
  lemma {:induction false} FormatAllSucceeds(raw: seq<RawTripOption>, airline: Directory)
    ensures FormatAll(raw, airline).Success? <==> forall n :: 0 <= n < |raw| ==> OptionCarriersKnown(raw[n], airline)
    ensures FormatAll(raw, airline).Failure? ==> FormatAll(raw, airline).error == UnknownCarrier
  {
    if raw != [] {
      var init := raw[..|raw| - 1];
      FormatAllSucceeds(init, airline);
      assert forall n :: 0 <= n < |init| ==> init[n] == raw[n];
    }
  }

  /** On success, option n of format_flight's result is trip option n formatted. */
  lemma {:induction false} FormatAllValues(raw: seq<RawTripOption>, airline: Directory)
    requires FormatAll(raw, airline).Success?
    ensures |FormatAll(raw, airline).value| == |raw|
    ensures forall n :: 0 <= n < |raw| ==> FormatAll(raw, airline).value[n] == FlightOptionOf(raw[n], airline)
  {
    if raw != [] {
      var init := raw[..|raw| - 1];
      FormatAllValues(init, airline);
      assert forall n :: 0 <= n < |init| ==> init[n] == raw[n];
    }
  }

  // ---------------------------------------------------------------------------
  // Properties of the formatted options

  /** The price of a formatted option is the integer part of the provider's
      amount, and its currency the code in front of it. */
  lemma FormattedPrice(o: RawTripOption, airline: Directory, code: string, price: int, rest: string)
    requires |code| == 3 && (rest == [] || !IsDigit(rest[0]))
    requires o.saleTotal == code + IntToString(price) + rest
    ensures FlightOptionOf(o, airline).currency == code
    ensures FlightOptionOf(o, airline).price == Some(price)
  {
    SaleTotalRoundTrip(code, price, rest);
  }

  lemma {:induction false} LayStopsKeys(m: map<nat, Stop>, s: RawSegment, airline: Directory, k: nat)
    requires k <= |s.legs|
    ensures forall x: nat :: x in LayStops(m, s, airline, k) <==> x in m || x < k
    ensures forall x: nat :: x < k ==> LayStops(m, s, airline, k)[x] == StopOf(s, x, airline)
    ensures forall x: nat :: x in m && x >= k ==> LayStops(m, s, airline, k)[x] == m[x]
  {
    if k > 0 {
      LayStopsKeys(m, s, airline, k - 1);
      var prev := LayStops(m, s, airline, k - 1);
      assert LayStops(m, s, airline, k) == prev[k - 1 := StopOf(s, k - 1, airline)];
      forall x: nat
        ensures x in LayStops(m, s, airline, k) <==> x in m || x < k
      {
        assert x in prev <==> x in m || x < k - 1;
      }
    }
  }

  /** The last segment of `segs` that has more than `x` legs, or -1. */
  function LastSegmentReaching(segs: seq<RawSegment>, x: nat): (j: int)
    ensures -1 <= j < |segs|
    ensures j >= 0 ==> x < |segs[j].legs|
    ensures forall j' :: j < j' < |segs| ==> |segs[j'].legs| <= x
  {
    if segs == [] then -1
    else if x < |segs[|segs| - 1].legs| then |segs| - 1
    else LastSegmentReaching(segs[..|segs| - 1], x)
  }

  /** Which legs a 'trip_i' object keeps: 'stop_x' exists exactly when some
      segment has more than x legs, and it holds leg x of the LAST such
      segment; legs of earlier segments at the same position are overwritten. */
  lemma {:induction false} TripStops(segs: seq<RawSegment>, airline: Directory, x: nat)
    ensures x in TripOf(segs, airline).stops <==> LastSegmentReaching(segs, x) >= 0
    ensures x in TripOf(segs, airline).stops ==>
      TripOf(segs, airline).stops[x] == StopOf(segs[LastSegmentReaching(segs, x)], x, airline)
  {
    if segs != [] {
      var s := segs[|segs| - 1];
      var init := segs[..|segs| - 1];
      TripStops(init, airline, x);
      LayStopsKeys(TripOf(init, airline).stops, s, airline, |s.legs|);
      var j := LastSegmentReaching(init, x);
      if j >= 0 {
        assert init[j] == segs[j];
      }
    }
  }

  /** trip_i of a formatted option is built from slice i alone. */
  lemma {:induction false} TripsAt(slices: seq<RawSlice>, airline: Directory)
    ensures |Trips(slices, airline)| == |slices|
    ensures forall i :: 0 <= i < |slices| ==> Trips(slices, airline)[i] == TripOf(slices[i].segments, airline)
  {
    if slices != [] {
      TripsAt(slices[..|slices| - 1], airline);
    }
  }

  /** Every segment with more than x legs leaves a 'stop_x'. */
  lemma StopKeptForEveryReachingSegment(segs: seq<RawSegment>, airline: Directory, x: nat, j: nat)
    requires j < |segs| && x < |segs[j].legs|
    ensures x in TripOf(segs, airline).stops
  {
    TripStops(segs, airline, x);
  }

  /** The stop numbered stop_number - 1 of a trip, as parse_packages reads it;
      None where that lookup meets undefined. */
  function LastStop(t: Trip): Option<Stop> {
    match t.stopNumber
    case None => None
    case Some(n) => if n >= 1 && n - 1 in t.stops then Some(t.stops[n - 1]) else None
  }

  /** The last stop of a trip is the last leg of the slice's last segment;
      there is none when the slice has no segment or its last segment no leg. */
  lemma {:induction false} LastStopIsLastLeg(segs: seq<RawSegment>, airline: Directory)
    ensures LastStop(TripOf(segs, airline)).Some? <==> segs != [] && |segs[|segs| - 1].legs| > 0
    ensures LastStop(TripOf(segs, airline)).Some? ==>
      var s := segs[|segs| - 1];
      LastStop(TripOf(segs, airline)).value == StopOf(s, |s.legs| - 1, airline)
  {
    if segs != [] {
      var s := segs[|segs| - 1];
      LayStopsKeys(TripOf(segs[..|segs| - 1], airline).stops, s, airline, |s.legs|);
    }
  }

  /** stop_number counts the legs of the last segment only, while the duration
      adds up every leg: a slice of a two-leg and a one-leg segment reports one
      stop but three legs' duration. */
  lemma StopNumberCountsLastSegmentOnly(a: Leg, b: Leg, c: Leg, airline: Directory)
    ensures var segs := [RawSegment("XX", "1", [a, b]), RawSegment("XX", "2", [c])];
      && TripOf(segs, airline).stopNumber == Some(1)
      && TotalDuration(SegmentLegs(segs)) == a.duration + b.duration + c.duration
      && 0 in TripOf(segs, airline).stops && 1 in TripOf(segs, airline).stops
      && TripOf(segs, airline).stops[0] == StopOf(segs[1], 0, airline)
      && TripOf(segs, airline).stops[1] == StopOf(segs[0], 1, airline)
  {
    var segs := [RawSegment("XX", "1", [a, b]), RawSegment("XX", "2", [c])];
    var first := [segs[0]];
    assert segs[..|segs| - 1] == segs[..1] == first && first[..0] == [];
    assert SegmentLegs(first) == [a, b];
    assert SegmentLegs(segs) == [a, b] + [c] == [a, b, c];
    assert [a, b, c][..2] == [a, b] && [a, b][..1] == [a] && [a][..0] == [];
    assert TotalDuration([a]) == a.duration;
    assert TotalDuration([a, b]) == a.duration + b.duration;
    TripStops(segs, airline, 0);
    TripStops(segs, airline, 1);
    assert LastSegmentReaching(first, 1) == 0;
    assert LastSegmentReaching(segs, 1) == 0;
    assert LastSegmentReaching(segs, 0) == 1;
  }

  // ---------------------------------------------------------------------------
  // The three flights carried forward

  function PriceKey(o: FlightOption): real { if o.price.Some? then o.price.value as real else 0.0 }
  function DurationKey(o: FlightOption): real { o.duration as real }
  function DistanceKey(o: FlightOption): real { o.distance as real }

  /** parse_packages' flight choice: the cheapest, the fastest and the
      shortest option, each the first in provider order among equals. */
  function PickFlights(options: seq<FlightOption>): (r: seq<FlightOption>)
    requires |options| > 0
    requires forall j :: 0 <= j < |options| ==> options[j].price.Some?
    ensures |r| == 3
    ensures r[0].price.Some?
    ensures forall j :: 0 <= j < |options| ==>
      r[0].price.value <= options[j].price.value && r[1].duration <= options[j].duration && r[2].distance <= options[j].distance
    ensures exists k :: 0 <= k < |options| && r[0] == options[k] && forall j :: 0 <= j < k ==> options[j].price.value > r[0].price.value
    ensures exists k :: 0 <= k < |options| && r[1] == options[k] && forall j :: 0 <= j < k ==> options[j].duration > r[1].duration
    ensures exists k :: 0 <= k < |options| && r[2] == options[k] && forall j :: 0 <= j < k ==> options[j].distance > r[2].distance
  {
    var p, d, m := ArgMin(options, PriceKey), ArgMin(options, DurationKey), ArgMin(options, DistanceKey);
    assert forall j :: 0 <= j < |options| ==> PriceKey(options[j]) == options[j].price.value as real;
    assert forall j :: 0 <= j < |options| ==> DurationKey(options[j]) == options[j].duration as real;
    assert forall j :: 0 <= j < |options| ==> DistanceKey(options[j]) == options[j].distance as real;
    [options[p], options[d], options[m]]
  }
}
