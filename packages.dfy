/** The package side of the planner: the budget-pruned cross product of the
    surviving hotels of every stay (select_package_hotels), the three
    combinations picked from it, and the pairing of the three flights with
    the three combinations into packages. */
module Packages {
  import opened Common
  import opened Ranking
  import opened Flights
  import opened Hotels

  /** The key of a 'trip_<segment>' field of a combination: a segment number,
      or 'trip_undefined' for a hotel whose checkout date matched no date. */
  datatype Slot = At(index: nat) | Undefined

  /** A stack entry: running sums over the chosen hotels, the hotels under
      their 'trip_' keys, and the number of stays covered. */
  datatype Combination = Combination(price: int, percentRecommended: real, starRating: real,
                                     totalReviews: int, guestRating: real,
                                     hotels: map<Slot, Hotel>, trip: nat)

  /** A package: a flight, a hotel combination and their total price, which
      is NaN (None) when the flight's price is. */
  datatype Package = Package(flight: FlightOption, hotel: Combination, totalPrice: Option<int>)

  function SlotOf(h: Hotel): Slot {
    if h.segment.Some? then At(h.segment.value) else Undefined
  }

  // ---------------------------------------------------------------------------
  // Reference definitions for the stack

  /** The entry a hotel of the first stay starts; it is always filed under
      'trip_0', whatever its segment tag. */
  function Seed(h: Hotel): Combination {
    Combination(h.info.rateWithTax, h.info.percentRecommended, h.info.starRating,
                h.info.totalReviews, h.info.guestRating, map[At(0) := h], 1)
  }

  /** The fields an extension copies from its entry: those of 'trip_0' to
      'trip_3' that are present. */
  function Carried(m: map<Slot, Hotel>): map<Slot, Hotel> {
    map s | s in m && s.At? && s.index < 4 :: m[s]
  }

  /** Copy of the 'trip_k' field of `m` into `acc` when it is present. */
  function CopySlot(acc: map<Slot, Hotel>, m: map<Slot, Hotel>, k: nat): map<Slot, Hotel> {
    if At(k) in m then acc[At(k) := m[At(k)]] else acc
  }

  /** Copying 'trip_0' to 'trip_3' one at a time, as the source does, gives
      the carried fields. */
  lemma CopiesCarried(m: map<Slot, Hotel>)
    ensures CopySlot(CopySlot(CopySlot(CopySlot(map[], m, 0), m, 1), m, 2), m, 3) == Carried(m)
  {
    var copied := CopySlot(CopySlot(CopySlot(CopySlot(map[], m, 0), m, 1), m, 2), m, 3);
    forall s | s in Carried(m)
      ensures s in copied
    {
      assert s == At(0) || s == At(1) || s == At(2) || s == At(3);
    }
  }

  /** Entry `e` extended with hotel `h`: sums grow by h's fields, h is filed
      under its own segment's key, and one more stay is covered. */
  function Extend(e: Combination, h: Hotel): Combination {
    Combination(h.info.rateWithTax + e.price, h.info.percentRecommended + e.percentRecommended,
                h.info.starRating + e.starRating, h.info.totalReviews + e.totalReviews,
                h.info.guestRating + e.guestRating, Carried(e.hotels)[SlotOf(h) := h], e.trip + 1)
  }

  /** An extension is dropped when its price plus the cheapest flight's price
      reaches the budget. */
  predicate Pruned(e: Combination, h: Hotel, budget: int, flightPrice: int) {
    h.info.rateWithTax + e.price + flightPrice >= budget
  }

  function Seeds(hs: seq<Hotel>): seq<Combination> {
    if hs == [] then [] else Seeds(hs[..|hs| - 1]) + [Seed(hs[|hs| - 1])]
  }

  /** The kept extensions of one entry, in hotel order. */
  function Extensions(e: Combination, hs: seq<Hotel>, budget: int, flightPrice: int): seq<Combination> {
    if hs == [] then []
    else
      var h := hs[|hs| - 1];
      Extensions(e, hs[..|hs| - 1], budget, flightPrice) + (if Pruned(e, h, budget, flightPrice) then [] else [Extend(e, h)])
  }

  /** The kept extensions of every entry, entry by entry. */
  function ExtendAll(stack: seq<Combination>, hs: seq<Hotel>, budget: int, flightPrice: int): seq<Combination> {
    if stack == [] then []
    else ExtendAll(stack[..|stack| - 1], hs, budget, flightPrice) + Extensions(stack[|stack| - 1], hs, budget, flightPrice)
  }

  /** The stack after the given stays: seeded from the first, extended by
      each later one; an empty stack after a stay makes the read of its last
      entry throw. */
  function StackAfter(segments: seq<seq<Hotel>>, budget: int, flightPrice: int): Result<seq<Combination>, Error> {
    if segments == [] then Success([])
    else match StackAfter(segments[..|segments| - 1], budget, flightPrice)
      case Failure(e) => Failure(e)
      case Success(stack) =>
        var hs := segments[|segments| - 1];
        var next := if stack == [] then Seeds(hs) else ExtendAll(stack, hs, budget, flightPrice);
        if next == [] then Failure(NoCombination) else Success(next)
  }

  // ---------------------------------------------------------------------------
  // select_package_hotels: the stack

  /** The loops of select_package_hotels that build the stack. */
  method BuildStack(segments: seq<seq<Hotel>>, budget: int, flightPrice: int) returns (r: Result<seq<Combination>, Error>)
    ensures r == StackAfter(segments, budget, flightPrice)
  {
    var stack: seq<Combination> := [];
    var s := 0;
    while s < |segments|
      invariant 0 <= s <= |segments|
      invariant StackAfter(segments[..s], budget, flightPrice) == Success(stack)
    {
      assert segments[..s + 1][..s] == segments[..s];
      var hs := segments[s];
      var next: seq<Combination>;
      if stack == [] {
        next := SeedStack(hs);
      } else {
        next := ExtendStack(stack, hs, budget, flightPrice);
      }
      if next == [] {
        StackFailureSticks(segments, s + 1, budget, flightPrice);
        return Failure(NoCombination);
      }
      stack := next;
      s := s + 1;
    }
    assert segments[..s] == segments;
    r := Success(stack);
  }

  /** The first stay's loop: one entry per hotel. */
  method SeedStack(hs: seq<Hotel>) returns (next: seq<Combination>)
    ensures next == Seeds(hs)
  {
    next := [];
    var n := 0;
    while n < |hs|
      invariant 0 <= n <= |hs|
      invariant next == Seeds(hs[..n])
    {
      assert hs[..n + 1][..n] == hs[..n];
      var h := hs[n];
      next := next + [Combination(h.info.rateWithTax, h.info.percentRecommended, h.info.starRating,
                                  h.info.totalReviews, h.info.guestRating, map[At(0) := h], 1)];
      n := n + 1;
    }
    assert hs[..n] == hs;
  }

  /** A later stay's loops: every entry against every hotel, skipping the
      extensions the budget prunes. */
  method ExtendStack(stack: seq<Combination>, hs: seq<Hotel>, budget: int, flightPrice: int) returns (next: seq<Combination>)
    ensures next == ExtendAll(stack, hs, budget, flightPrice)
  {
    next := [];
    var e := 0;
    while e < |stack|
      invariant 0 <= e <= |stack|
      invariant next == ExtendAll(stack[..e], hs, budget, flightPrice)
    {
      assert stack[..e + 1][..e] == stack[..e];
      var extensions := ExtendEntry(stack[e], hs, budget, flightPrice);
      next := next + extensions;
      e := e + 1;
    }
    assert stack[..e] == stack;
  }

  /** The inner loop for one entry: a new entry per hotel, unless pruned;
      'trip_0' to 'trip_3' are copied when present, then the hotel is filed
      under 'trip_' + its segment. */
  method ExtendEntry(entry: Combination, hs: seq<Hotel>, budget: int, flightPrice: int) returns (extensions: seq<Combination>)
    ensures extensions == Extensions(entry, hs, budget, flightPrice)
  {
    extensions := [];
    var n := 0;
    while n < |hs|
      invariant 0 <= n <= |hs|
      invariant extensions == Extensions(entry, hs[..n], budget, flightPrice)
    {
      assert hs[..n + 1][..n] == hs[..n];
      var h := hs[n];
      var price := h.info.rateWithTax + entry.price;
      if price + flightPrice < budget {
        var hotels: map<Slot, Hotel> := map[];
        if At(0) in entry.hotels { hotels := hotels[At(0) := entry.hotels[At(0)]]; }
        if At(1) in entry.hotels { hotels := hotels[At(1) := entry.hotels[At(1)]]; }
        if At(2) in entry.hotels { hotels := hotels[At(2) := entry.hotels[At(2)]]; }
        if At(3) in entry.hotels { hotels := hotels[At(3) := entry.hotels[At(3)]]; }
        CopiesCarried(entry.hotels);
        var slot := if h.segment.Some? then At(h.segment.value) else Undefined;
        hotels := hotels[slot := h];
        extensions := extensions + [Combination(price, h.info.percentRecommended + entry.percentRecommended,
                                                h.info.starRating + entry.starRating, h.info.totalReviews + entry.totalReviews,
                                                h.info.guestRating + entry.guestRating, hotels, entry.trip + 1)];
      }
      n := n + 1;
    }
    assert hs[..n] == hs;
  }

  /** Once the stack runs empty, every later stay leaves the same failure. */
  lemma {:induction false} StackFailureSticks(segments: seq<seq<Hotel>>, n: nat, budget: int, flightPrice: int)
    requires n <= |segments| && StackAfter(segments[..n], budget, flightPrice).Failure?
    ensures StackAfter(segments, budget, flightPrice) == StackAfter(segments[..n], budget, flightPrice)
  {
    if n < |segments| {
      assert segments[..|segments| - 1][..n] == segments[..n];
      StackFailureSticks(segments[..|segments| - 1], n, budget, flightPrice);
      assert StackAfter(segments, budget, flightPrice) == StackAfter(segments[..|segments| - 1], budget, flightPrice);
    } else {
      assert segments[..n] == segments;
    }
  }

  // ---------------------------------------------------------------------------
  // What the stack holds: one entry per affordable choice of a hotel per stay

  /** `c` picks hotel c[i] of stay i, for every stay. */
  predicate IsChoice(c: seq<nat>, segments: seq<seq<Hotel>>) {
    |c| == |segments| && forall i :: 0 <= i < |c| ==> c[i] < |segments[i]|
  }

  /** The entry the stack would hold for choice `c`, built without pruning. */
  function Build(c: seq<nat>, segments: seq<seq<Hotel>>): Combination
    requires IsChoice(c, segments) && |c| > 0
    decreases |c|
  {
    var k := |c| - 1;
    if k == 0 then Seed(segments[0][c[0]])
    else Extend(Build(c[..k], segments[..k]), segments[k][c[k]])
  }

  /** No step of building `c` was pruned. */
  predicate Affordable(c: seq<nat>, segments: seq<seq<Hotel>>, budget: int, flightPrice: int)
    requires IsChoice(c, segments) && |c| > 0
    decreases |c|
  {
    var k := |c| - 1;
    k == 0 ||
    (Affordable(c[..k], segments[..k], budget, flightPrice) &&
     !Pruned(Build(c[..k], segments[..k]), segments[k][c[k]], budget, flightPrice))
  }

  lemma {:induction false} SeedsMembers(hs: seq<Hotel>, x: Combination)
    ensures x in Seeds(hs) <==> exists j :: 0 <= j < |hs| && x == Seed(hs[j])
  {
    if hs != [] {
      var init := hs[..|hs| - 1];
      SeedsMembers(init, x);
      assert forall j :: 0 <= j < |init| ==> init[j] == hs[j];
    }
  }

  lemma {:induction false} ExtensionsMembers(e: Combination, hs: seq<Hotel>, budget: int, flightPrice: int, x: Combination)
    ensures x in Extensions(e, hs, budget, flightPrice) <==>
      exists j :: 0 <= j < |hs| && !Pruned(e, hs[j], budget, flightPrice) && x == Extend(e, hs[j])
  {
    if hs != [] {
      var init := hs[..|hs| - 1];
      ExtensionsMembers(e, init, budget, flightPrice, x);
      assert forall j :: 0 <= j < |init| ==> init[j] == hs[j];
    }
  }

  lemma {:induction false} ExtendAllMembers(stack: seq<Combination>, hs: seq<Hotel>, budget: int, flightPrice: int, x: Combination)
    ensures x in ExtendAll(stack, hs, budget, flightPrice) <==>
      exists i, j :: 0 <= i < |stack| && 0 <= j < |hs| && !Pruned(stack[i], hs[j], budget, flightPrice) && x == Extend(stack[i], hs[j])
  {
    if stack != [] {
      var init := stack[..|stack| - 1];
      ExtendAllMembers(init, hs, budget, flightPrice, x);
      ExtensionsMembers(stack[|stack| - 1], hs, budget, flightPrice, x);
      assert forall i :: 0 <= i < |init| ==> init[i] == stack[i];
    }
  }

  lemma StackNonEmpty(segments: seq<seq<Hotel>>, budget: int, flightPrice: int)
    requires |segments| > 0 && StackAfter(segments, budget, flightPrice).Success?
    ensures StackAfter(segments, budget, flightPrice).value != []
  {
  }

  /** Completeness of the pruned product: every affordable choice is in the
      stack, which therefore succeeds. */
  lemma {:induction false} StackComplete(segments: seq<seq<Hotel>>, budget: int, flightPrice: int, c: seq<nat>)
    requires IsChoice(c, segments) && |c| > 0 && Affordable(c, segments, budget, flightPrice)
    ensures StackAfter(segments, budget, flightPrice).Success?
    ensures Build(c, segments) in StackAfter(segments, budget, flightPrice).value
  {
    var k := |c| - 1;
    var init := segments[..k];
    var hs := segments[k];
    var x := Build(c, segments);
    if k == 0 {
      assert StackAfter(init, budget, flightPrice) == Success([]);
      SeedsMembers(hs, x);
    } else {
      BuildStep(c, segments, budget, flightPrice);
      StackComplete(init, budget, flightPrice, c[..k]);
      var stack := StackAfter(init, budget, flightPrice).value;
      StackStep(segments, budget, flightPrice);
      var i :| 0 <= i < |stack| && stack[i] == Build(c[..k], init);
      ExtendAllMembers(stack, hs, budget, flightPrice, x);
      assert 0 <= c[k] < |hs|;
    }
  }

  /** Building a choice of two or more stays: its prefix, extended. */
  lemma BuildStep(c: seq<nat>, segments: seq<seq<Hotel>>, budget: int, flightPrice: int)
    requires IsChoice(c, segments) && |c| > 1
    ensures IsChoice(c[..|c| - 1], segments[..|c| - 1])
    ensures Build(c, segments) == Extend(Build(c[..|c| - 1], segments[..|c| - 1]), segments[|c| - 1][c[|c| - 1]])
    ensures Affordable(c, segments, budget, flightPrice) <==>
      Affordable(c[..|c| - 1], segments[..|c| - 1], budget, flightPrice) &&
      !Pruned(Build(c[..|c| - 1], segments[..|c| - 1]), segments[|c| - 1][c[|c| - 1]], budget, flightPrice)
  {
  }

  /** A later stay extends a non-empty stack. */
  lemma StackStep(segments: seq<seq<Hotel>>, budget: int, flightPrice: int)
    requires |segments| > 1
    requires StackAfter(segments[..|segments| - 1], budget, flightPrice).Success?
    requires StackAfter(segments[..|segments| - 1], budget, flightPrice).value != []
    ensures var next := ExtendAll(StackAfter(segments[..|segments| - 1], budget, flightPrice).value,
                                  segments[|segments| - 1], budget, flightPrice);
      StackAfter(segments, budget, flightPrice) == if next == [] then Failure(NoCombination) else Success(next)
  {
  }

  /** Soundness of the pruned product: every entry of the stack is the
      entry of an affordable choice. */
  lemma StackSound(segments: seq<seq<Hotel>>, budget: int, flightPrice: int, x: Combination)
    requires |segments| > 0 && StackAfter(segments, budget, flightPrice).Success?
    requires x in StackAfter(segments, budget, flightPrice).value
    ensures exists c :: IsChoice(c, segments) && |c| > 0 && Affordable(c, segments, budget, flightPrice) && x == Build(c, segments)
  {
    var c := ChoiceOf(segments, budget, flightPrice, x);
  }

  /** The affordable choice whose entry is `x`, found stay by stay. */
  lemma {:induction false} ChoiceOf(segments: seq<seq<Hotel>>, budget: int, flightPrice: int, x: Combination)
    returns (c: seq<nat>)
    requires |segments| > 0 && StackAfter(segments, budget, flightPrice).Success?
    requires x in StackAfter(segments, budget, flightPrice).value
    ensures IsChoice(c, segments) && |c| > 0 && Affordable(c, segments, budget, flightPrice) && x == Build(c, segments)
  {
    var k := |segments| - 1;
    var init := segments[..k];
    var hs := segments[k];
    if k == 0 {
      assert StackAfter(init, budget, flightPrice) == Success([]);
      SeedsMembers(hs, x);
      var j :| 0 <= j < |hs| && x == Seed(hs[j]);
      c := [j];
    } else {
      StackNonEmpty(init, budget, flightPrice);
      var stack := StackAfter(init, budget, flightPrice).value;
      StackStep(segments, budget, flightPrice);
      ExtendAllMembers(stack, hs, budget, flightPrice, x);
      var i, j :| 0 <= i < |stack| && 0 <= j < |hs| && !Pruned(stack[i], hs[j], budget, flightPrice) && x == Extend(stack[i], hs[j]);
      var c' := ChoiceOf(init, budget, flightPrice, stack[i]);
      ChoiceStep(segments, c', j, budget, flightPrice);
      c := c' + [j];
    }
  }

  /** Extending a choice for the first stays by hotel j of the next stay. */
  lemma ChoiceStep(segments: seq<seq<Hotel>>, c: seq<nat>, j: nat, budget: int, flightPrice: int)
    requires |segments| > 1 && IsChoice(c, segments[..|segments| - 1]) && |c| > 0
    requires j < |segments[|segments| - 1]|
    ensures IsChoice(c + [j], segments)
    ensures Build(c + [j], segments) == Extend(Build(c, segments[..|segments| - 1]), segments[|segments| - 1][j])
    ensures Affordable(c + [j], segments, budget, flightPrice) <==>
      Affordable(c, segments[..|segments| - 1], budget, flightPrice) &&
      !Pruned(Build(c, segments[..|segments| - 1]), segments[|segments| - 1][j], budget, flightPrice)
  {
    assert (c + [j])[..|c|] == c;
  }

  // ---------------------------------------------------------------------------
  // What an entry holds

  /** The hotels a choice picks, one per stay, in stay order. */
  function Picked(c: seq<nat>, segments: seq<seq<Hotel>>): (hs: seq<RawHotel>)
    requires IsChoice(c, segments)
    ensures |hs| == |c| && forall i :: 0 <= i < |c| ==> hs[i] == segments[i][c[i]].info
  {
    seq(|c|, i requires 0 <= i < |c| => segments[i][c[i]].info)
  }

  function SumRates(hs: seq<RawHotel>): int {
    if hs == [] then 0 else SumRates(hs[..|hs| - 1]) + hs[|hs| - 1].rateWithTax
  }

  function SumStars(hs: seq<RawHotel>): real {
    if hs == [] then 0.0 else SumStars(hs[..|hs| - 1]) + hs[|hs| - 1].starRating
  }

  function SumGuestRatings(hs: seq<RawHotel>): real {
    if hs == [] then 0.0 else SumGuestRatings(hs[..|hs| - 1]) + hs[|hs| - 1].guestRating
  }

  function SumReviews(hs: seq<RawHotel>): int {
    if hs == [] then 0 else SumReviews(hs[..|hs| - 1]) + hs[|hs| - 1].totalReviews
  }

  function SumPercents(hs: seq<RawHotel>): real {
    if hs == [] then 0.0 else SumPercents(hs[..|hs| - 1]) + hs[|hs| - 1].percentRecommended
  }

  /** An entry's price, star rating, guest rating, reviews and percent
      recommended are the sums over its chosen hotels, and 'trip' counts the
      stays. */
  lemma {:induction false} BuildSums(c: seq<nat>, segments: seq<seq<Hotel>>)
    requires IsChoice(c, segments) && |c| > 0
    ensures var b := Build(c, segments);
      var hs := Picked(c, segments);
      && b.price == SumRates(hs) && b.starRating == SumStars(hs) && b.guestRating == SumGuestRatings(hs)
      && b.totalReviews == SumReviews(hs) && b.percentRecommended == SumPercents(hs) && b.trip == |c|
  {
    var k := |c| - 1;
    var hs := Picked(c, segments);
    if k == 0 {
      assert hs[..0] == [];
    } else {
      BuildSums(c[..k], segments[..k]);
      assert hs[..k] == Picked(c[..k], segments[..k]);
    }
  }

  /** Every entry keeps the stack's budget invariant: when the first stay's
      hotels passed the filter, its price plus the cheapest flight's price is
      under the budget. */
  lemma {:induction false} ChoiceWithinBudget(c: seq<nat>, segments: seq<seq<Hotel>>, budget: int, flightPrice: int)
    requires IsChoice(c, segments) && |c| > 0 && Affordable(c, segments, budget, flightPrice)
    requires segments[0][c[0]].info.rateWithTax + flightPrice < budget
    ensures Build(c, segments).price + flightPrice < budget
  {
    if |c| > 1 {
      BuildStep(c, segments, budget, flightPrice);
    }
  }

  /** With no negative rate, pruning partial sums loses nothing: a choice of
      two or more stays survives exactly when its full price fits the budget. */
  lemma {:induction false} PruningLosesNothing(c: seq<nat>, segments: seq<seq<Hotel>>, budget: int, flightPrice: int)
    requires IsChoice(c, segments) && |c| > 1
    requires forall i :: 0 <= i < |c| ==> segments[i][c[i]].info.rateWithTax >= 0
    ensures Affordable(c, segments, budget, flightPrice) <==> Build(c, segments).price + flightPrice < budget
  {
    var k := |c| - 1;
    if k > 1 {
      assert forall i :: 0 <= i < k ==> c[..k][i] == c[i] && segments[..k][i] == segments[i];
      PruningLosesNothing(c[..k], segments[..k], budget, flightPrice);
    }
  }

  /** With every later stay's hotels tagged with their own stay (distinct
      checkout dates) and at most four stays, an entry files the hotel of
      stay i under 'trip_i' and holds nothing else. */
  lemma {:induction false} BuildFilesEachStay(c: seq<nat>, segments: seq<seq<Hotel>>)
    requires IsChoice(c, segments) && 0 < |c| <= 4
    requires forall i, j :: 1 <= i < |segments| && 0 <= j < |segments[i]| ==> segments[i][j].segment == Some(i)
    ensures forall i :: 0 <= i < |c| ==> At(i) in Build(c, segments).hotels && Build(c, segments).hotels[At(i)] == segments[i][c[i]]
    ensures forall s :: s in Build(c, segments).hotels ==> s.At? && s.index < |c|
  {
    var k := |c| - 1;
    if k > 0 {
      BuildFilesEachStay(c[..k], segments[..k]);
      var prev := Build(c[..k], segments[..k]).hotels;
      assert Carried(prev) == prev;
      assert segments[k][c[k]].segment == Some(k);
    }
  }

  /** An entry holds only hotels its choice picked. */
  lemma {:induction false} BuildHotelsChosen(c: seq<nat>, segments: seq<seq<Hotel>>)
    requires IsChoice(c, segments) && |c| > 0
    ensures forall s :: s in Build(c, segments).hotels ==>
      exists i :: 0 <= i < |c| && Build(c, segments).hotels[s] == segments[i][c[i]]
  {
    var k := |c| - 1;
    if k > 0 {
      BuildHotelsChosen(c[..k], segments[..k]);
      var prev := Build(c[..k], segments[..k]).hotels;
      assert forall s :: s in Carried(prev) ==> s in prev && Carried(prev)[s] == prev[s];
    }
  }

  /** The stack after every stay: each entry is within budget once the first
      stay passed the filter, and covers every stay. */
  lemma StackWithinBudget(segments: seq<seq<Hotel>>, budget: int, flightPrice: int, x: Combination)
    requires |segments| > 0 && StackAfter(segments, budget, flightPrice).Success?
    requires x in StackAfter(segments, budget, flightPrice).value
    requires forall j :: 0 <= j < |segments[0]| ==> segments[0][j].info.rateWithTax + flightPrice < budget
    ensures x.price + flightPrice < budget
    ensures x.trip == |segments|
  {
    var c := ChoiceOf(segments, budget, flightPrice, x);
    ChoiceWithinBudget(c, segments, budget, flightPrice);
    BuildSums(c, segments);
  }

  // ---------------------------------------------------------------------------
  // The three picks

  function GuestKey(x: Combination): real { -x.guestRating }

  /** Price per star; the ratio is only meaningful where the star sum is positive. */
  function ValueKey(x: Combination): real {
    if x.starRating > 0.0 then x.price as real / x.starRating else 0.0
  }

  /** stack[k] has the highest guest rating, and no earlier entry does. */
  predicate FirstBestRated(stack: seq<Combination>, k: int) {
    && 0 <= k < |stack|
    && (forall j :: 0 <= j < |stack| ==> stack[j].guestRating <= stack[k].guestRating)
    && (forall j :: 0 <= j < k ==> stack[j].guestRating < stack[k].guestRating)
  }

  /** stack[k] has the lowest price per star, and no earlier entry does. */
  predicate FirstBestValue(stack: seq<Combination>, k: int) {
    && 0 <= k < |stack|
    && (forall j :: 0 <= j < |stack| ==> ValueKey(stack[k]) <= ValueKey(stack[j]))
    && (forall j :: 0 <= j < k ==> ValueKey(stack[k]) < ValueKey(stack[j]))
  }

  /** The three combinations select_package_hotels returns. The first sorts
      by a field no entry has, so every comparison is NaN and the order is
      left alone; the second is the first entry with the highest guest
      rating; the third the first with the lowest price per star. */
  function PickHotels(stack: seq<Combination>): (r: seq<Combination>)
    requires |stack| > 0
    requires forall k :: 0 <= k < |stack| ==> stack[k].starRating > 0.0
    ensures |r| == 3 && r[0] in stack
    ensures exists k :: FirstBestRated(stack, k) && r[1] == stack[k]
    ensures exists k :: FirstBestValue(stack, k) && r[2] == stack[k]
  {
    var g, v := ArgMin(stack, GuestKey), ArgMin(stack, ValueKey);
    assert forall j :: 0 <= j < |stack| ==> GuestKey(stack[j]) == -stack[j].guestRating;
    assert FirstBestRated(stack, g) && FirstBestValue(stack, v);
    [stack[0], stack[g], stack[v]]
  }

  lemma {:induction false} SumStarsPositive(hs: seq<RawHotel>)
    requires |hs| > 0 && forall i :: 0 <= i < |hs| ==> hs[i].starRating > 0.0
    ensures SumStars(hs) > 0.0
  {
    if |hs| > 1 {
      SumStarsPositive(hs[..|hs| - 1]);
    }
  }

  /** Hotels with positive star ratings give every entry a positive star sum. */
  lemma StackStarsPositive(segments: seq<seq<Hotel>>, budget: int, flightPrice: int)
    requires |segments| > 0 && StackAfter(segments, budget, flightPrice).Success?
    requires forall i, j :: 0 <= i < |segments| && 0 <= j < |segments[i]| ==> segments[i][j].info.starRating > 0.0
    ensures forall k :: 0 <= k < |StackAfter(segments, budget, flightPrice).value| ==>
      StackAfter(segments, budget, flightPrice).value[k].starRating > 0.0
  {
    var stack := StackAfter(segments, budget, flightPrice).value;
    forall k | 0 <= k < |stack|
      ensures stack[k].starRating > 0.0
    {
      var c := ChoiceOf(segments, budget, flightPrice, stack[k]);
      BuildSums(c, segments);
      SumStarsPositive(Picked(c, segments));
    }
  }

  /** select_package_hotels: the stack's failure, or its three picks. With
      no stay at all the picks are undefined and the merge reads a field of
      undefined, which rejects the request. */
  function Selection(segments: seq<seq<Hotel>>, budget: int, flightPrice: int): (r: Result<seq<Combination>, Error>)
    requires forall i, j :: 0 <= i < |segments| && 0 <= j < |segments[i]| ==> segments[i][j].info.starRating > 0.0
    ensures r.Success? ==> |r.value| == 3
  {
    match StackAfter(segments, budget, flightPrice)
    case Failure(e) => Failure(e)
    case Success(stack) =>
      if stack == [] then Failure(MissingPackage)
      else
        StackStarsPositive(segments, budget, flightPrice);
        Success(PickHotels(stack))
  }

  method SelectPackageHotels(segments: seq<seq<Hotel>>, budget: int, flightPrice: int) returns (r: Result<seq<Combination>, Error>)
    requires forall i, j :: 0 <= i < |segments| && 0 <= j < |segments[i]| ==> segments[i][j].info.starRating > 0.0
    ensures r == Selection(segments, budget, flightPrice)
  {
    var stack := BuildStack(segments, budget, flightPrice);
    if stack.Failure? {
      return Failure(stack.error);
    }
    if stack.value == [] {
      return Failure(MissingPackage);
    }
    StackStarsPositive(segments, budget, flightPrice);
    r := Success(PickHotels(stack.value));
  }

  /** What the selection promises: three picks, each an entry of an
      affordable choice of one hotel per stay covering every stay, each
      within budget together with the cheapest flight once the first stay's
      hotels passed the filter; it fails exactly when no choice is
      affordable. */
  lemma SelectionMeaning(segments: seq<seq<Hotel>>, budget: int, flightPrice: int)
    requires |segments| > 0
    requires forall i, j :: 0 <= i < |segments| && 0 <= j < |segments[i]| ==> segments[i][j].info.starRating > 0.0
    requires forall j :: 0 <= j < |segments[0]| ==> segments[0][j].info.rateWithTax + flightPrice < budget
    ensures Selection(segments, budget, flightPrice).Success? <==>
      exists c :: IsChoice(c, segments) && |c| > 0 && Affordable(c, segments, budget, flightPrice)
    ensures Selection(segments, budget, flightPrice).Failure? ==> Selection(segments, budget, flightPrice).error == NoCombination
    ensures Selection(segments, budget, flightPrice).Success? ==>
      var picks := Selection(segments, budget, flightPrice).value;
      |picks| == 3 &&
      forall i :: 0 <= i < 3 ==>
        picks[i].price + flightPrice < budget && picks[i].trip == |segments| &&
        exists c :: IsChoice(c, segments) && |c| > 0 && Affordable(c, segments, budget, flightPrice) && picks[i] == Build(c, segments)
  {
    var r := StackAfter(segments, budget, flightPrice);
    if r.Success? {
      StackNonEmpty(segments, budget, flightPrice);
      var picks := Selection(segments, budget, flightPrice).value;
      forall i | 0 <= i < 3
        ensures picks[i].price + flightPrice < budget && picks[i].trip == |segments|
        ensures exists c :: IsChoice(c, segments) && |c| > 0 && Affordable(c, segments, budget, flightPrice) && picks[i] == Build(c, segments)
      {
        StackWithinBudget(segments, budget, flightPrice, picks[i]);
        StackSound(segments, budget, flightPrice, picks[i]);
      }
      StackSound(segments, budget, flightPrice, r.value[0]);
    } else {
      StackFailsWithoutChoice(segments, budget, flightPrice);
    }
  }

  /** A failing stack has no affordable choice, and fails on an empty stack. */
  lemma StackFailsWithoutChoice(segments: seq<seq<Hotel>>, budget: int, flightPrice: int)
    requires StackAfter(segments, budget, flightPrice).Failure?
    ensures StackAfter(segments, budget, flightPrice).error == NoCombination
    ensures forall c :: IsChoice(c, segments) && |c| > 0 ==> !Affordable(c, segments, budget, flightPrice)
  {
    forall c | IsChoice(c, segments) && |c| > 0 && Affordable(c, segments, budget, flightPrice)
      ensures false
    {
      StackComplete(segments, budget, flightPrice, c);
    }
    StackErrorIsNoCombination(segments, budget, flightPrice);
  }

  lemma {:induction false} StackErrorIsNoCombination(segments: seq<seq<Hotel>>, budget: int, flightPrice: int)
    requires StackAfter(segments, budget, flightPrice).Failure?
    ensures StackAfter(segments, budget, flightPrice).error == NoCombination
  {
    var init := segments[..|segments| - 1];
    if StackAfter(init, budget, flightPrice).Failure? {
      StackErrorIsNoCombination(init, budget, flightPrice);
    }
  }

  // ---------------------------------------------------------------------------
  // The package merge

  /** The merge's packages: flight i with pick i and their total price, NaN
      (None) when the flight's price is. */
  function Merged(flights: seq<FlightOption>, picks: seq<Combination>): seq<Package>
    requires |picks| == |flights|
  {
    seq(|flights|, i requires 0 <= i < |flights| =>
      Package(flights[i], picks[i], if flights[i].price.Some? then Some(picks[i].price + flights[i].price.value) else None))
  }

  /** A 'package_i' object while the merge fills it. */
  datatype Draft = Draft(flight: FlightOption, hotel: Option<Combination>)

  /** The /packages callback that pairs flight i with pick i: one package per
      flight, then the picks written in, then the total prices. A pick beyond
      the flights, or a flight without a pick, reads a field of undefined. */
  method MergePackages(flights: seq<FlightOption>, picks: seq<Combination>) returns (r: Result<seq<Package>, Error>)
    ensures r.Success? <==> |picks| == |flights|
    ensures r.Failure? ==> r.error == MissingPackage
    ensures r.Success? ==> r.value == Merged(flights, picks)
    ensures r.Success? ==> |r.value| == |flights| && forall i :: 0 <= i < |flights| ==>
      && r.value[i].flight == flights[i] && r.value[i].hotel == picks[i]
      && r.value[i].totalPrice == (if flights[i].price.Some? then Some(picks[i].price + flights[i].price.value) else None)
  {
    var drafts: seq<Draft> := [];
    var i := 0;
    while i < |flights|
      invariant 0 <= i <= |flights|
      invariant |drafts| == i
      invariant forall k :: 0 <= k < i ==> drafts[k] == Draft(flights[k], None)
    {
      drafts := drafts + [Draft(flights[i], None)];
      i := i + 1;
    }
    i := 0;
    while i < |picks|
      invariant 0 <= i <= |picks|
      invariant i <= |flights| && |drafts| == |flights|
      invariant forall k :: 0 <= k < |flights| ==> drafts[k].flight == flights[k]
      invariant forall k :: 0 <= k < |flights| ==> drafts[k].hotel == if k < i then Some(picks[k]) else None
    {
      if i >= |drafts| {
        return Failure(MissingPackage);
      }
      drafts := drafts[i := drafts[i].(hotel := Some(picks[i]))];
      i := i + 1;
    }
    assert |picks| <= |flights|;
    var packages: seq<Package> := [];
    var n := 0;
    while n < |flights|
      invariant 0 <= n <= |flights|
      invariant |packages| == n && n <= |picks|
      invariant forall k :: 0 <= k < n ==>
        packages[k] == Package(flights[k], picks[k],
                               if flights[k].price.Some? then Some(picks[k].price + flights[k].price.value) else None)
    {
      var hotel := drafts[n].hotel;
      if hotel.None? {
        return Failure(MissingPackage);
      }
      var flight := drafts[n].flight;
      var total := if flight.price.Some? then Some(hotel.value.price + flight.price.value) else None;
      packages := packages + [Package(flight, hotel.value, total)];
      n := n + 1;
    }
    r := Success(packages);
  }
}
