/**
 * The response normaliser: route segments of the upstream search API become
 * Hops, and the two response shapes (round trip, multi-leg) become Journeys.
 */
module Normalize {
  import opened Wrappers
  import opened Itinerary

  /**
   * One entry of a result's `route` list, already decoded from JSON:
   * airports, the four timestamps in seconds, the carrier and the `return`
   * flag (0 on the outbound leg, 1 on the way back).
   */
  datatype RouteSegment = RouteSegment(
    flyFrom: string,
    flyTo: string,
    dTime: int,
    dTimeUtc: int,
    aTime: int,
    aTimeUtc: int,
    airline: string,
    returnFlag: int)

  /** One result of a round-trip search: a combined price and a flat route. */
  datatype RoundTripResult = RoundTripResult(price: real, route: seq<RouteSegment>)

  /** One leg group of a multi-leg result, priced on its own. */
  datatype LegGroup = LegGroup(price: real, route: seq<RouteSegment>)

  /** One result of a multi-leg search: its leg groups, in submission order. */
  datatype MultiLegResult = MultiLegResult(route: seq<LegGroup>)

  /** Copies a segment's fields into a Hop; only the `return` flag is dropped. */
  function ConvertHop(s: RouteSegment): (h: Hop)
    ensures SegmentOf(h, s.returnFlag) == s
    ensures h.DurationSecs() == s.aTimeUtc - s.dTimeUtc
  {
    Hop(depAirport := s.flyFrom, arrAirport := s.flyTo,
        depTime := s.dTime, depTimeUtc := s.dTimeUtc,
        arrTime := s.aTime, arrTimeUtc := s.aTimeUtc,
        airlineId := s.airline)
  }

  /** The segment a hop was read from, given the flag ConvertHop dropped. */
  function SegmentOf(h: Hop, returnFlag: int): RouteSegment {
    RouteSegment(h.depAirport, h.arrAirport, h.depTime, h.depTimeUtc,
                 h.arrTime, h.arrTimeUtc, h.airlineId, returnFlag)
  }

  lemma HopRoundTrip(h: Hop, returnFlag: int)
    ensures ConvertHop(SegmentOf(h, returnFlag)) == h
  {
  }

  /** One hop per segment, in route order: no segment is lost, reordered or altered. */
  function ConvertHops(route: seq<RouteSegment>): (hops: seq<Hop>)
    ensures |hops| == |route|
    ensures forall i :: 0 <= i < |route| ==> SegmentOf(hops[i], route[i].returnFlag) == route[i]
  {
    seq(|route|, i requires 0 <= i < |route| => ConvertHop(route[i]))
  }

  /** The segments whose `return` flag equals `flag`, in route order. */
  function WithFlag(route: seq<RouteSegment>, flag: int): (r: seq<RouteSegment>)
    ensures |r| <= |route|
    ensures forall i :: 0 <= i < |r| ==> r[i].returnFlag == flag
  {
    if route == [] then []
    else (if route[0].returnFlag == flag then [route[0]] else []) + WithFlag(route[1..], flag)
  }

  /** Selection by flag keeps exactly the segments carrying that flag. */
  lemma {:induction false} WithFlagMembers(route: seq<RouteSegment>, flag: int)
    ensures forall s :: s in WithFlag(route, flag) <==> s in route && s.returnFlag == flag
  {
    if route != [] {
      WithFlagMembers(route[1..], flag);
      assert route == [route[0]] + route[1..];
    }
  }

  /** Selection by flag preserves route order: it distributes over concatenation. */
  lemma {:induction false} WithFlagAppend(a: seq<RouteSegment>, b: seq<RouteSegment>, flag: int)
    ensures WithFlag(a + b, flag) == WithFlag(a, flag) + WithFlag(b, flag)
  {
    if a == [] {
      assert a + b == b;
    } else {
      assert (a + b)[1..] == a[1..] + b;
      WithFlagAppend(a[1..], b, flag);
    }
  }

  /** When every flag is 0 or 1, the outbound and inbound selections split the route. */
  lemma {:induction false} OutboundInboundPartition(route: seq<RouteSegment>)
    requires forall i :: 0 <= i < |route| ==> route[i].returnFlag == 0 || route[i].returnFlag == 1
    ensures |WithFlag(route, 0)| + |WithFlag(route, 1)| == |route|
    ensures multiset(WithFlag(route, 0)) + multiset(WithFlag(route, 1)) == multiset(route)
  {
    if route != [] {
      OutboundInboundPartition(route[1..]);
      assert route == [route[0]] + route[1..];
    }
  }

  /**
   * The two Flights of a round-trip result: the outbound hops (flag 0) and
   * the return hops (flag 1), each in route order, each at half the price.
   */
  function SingleFlightLegs(data: RoundTripResult): (flights: seq<Flight>)
    ensures |flights| == 2
    ensures flights[0].hops == ConvertHops(WithFlag(data.route, 0))
    ensures flights[1].hops == ConvertHops(WithFlag(data.route, 1))
    ensures flights[0].price == flights[1].price
    ensures flights[0].price + flights[1].price == data.price
  {
    var price := data.price;
    [Flight(ConvertHops(WithFlag(data.route, 0)), price / 2.0),
     Flight(ConvertHops(WithFlag(data.route, 1)), price / 2.0)]
  }

  /** Splitting the price loses nothing: the journey costs what the result quoted. */
  lemma SingleFlightPrice(data: RoundTripResult)
    ensures TotalPrice(SingleFlightLegs(data)) == data.price
  {
    var flights := SingleFlightLegs(data);
    assert flights[1..][1..] == [];
    assert TotalPrice(flights[1..]) == flights[1].price;
  }

  method ConvertSingleFlight(data: RoundTripResult) returns (journey: Journey)
    ensures fresh(journey)
    ensures journey.flights == SingleFlightLegs(data) && journey.scoreComponents == None
  {
    journey := new Journey(SingleFlightLegs(data));
  }

  /** The Flight one leg group becomes: its hops, at its own price. */
  function LegFlight(group: LegGroup): (f: Flight)
    ensures f.price == group.price && |f.hops| == |group.route|
    ensures forall i :: 0 <= i < |group.route| ==> SegmentOf(f.hops[i], group.route[i].returnFlag) == group.route[i]
  {
    Flight(ConvertHops(group.route), group.price)
  }

  function GroupPrices(groups: seq<LegGroup>): real {
    if groups == [] then 0.0 else groups[0].price + GroupPrices(groups[1..])
  }

  method ConvertMultiFlightJourney(data: MultiLegResult) returns (journey: Journey)
    ensures fresh(journey) && journey.scoreComponents == None
    ensures |journey.flights| == |data.route|
    ensures forall i :: 0 <= i < |data.route| ==> journey.flights[i] == LegFlight(data.route[i])
  {
    var flights: seq<Flight> := [];
    for i := 0 to |data.route|
      invariant |flights| == i
      invariant forall k :: 0 <= k < i ==> flights[k] == LegFlight(data.route[k])
    {
      var hops := ConvertHops(data.route[i].route);
      flights := flights + [Flight(hops, data.route[i].price)];
    }
    journey := new Journey(flights);
  }

  /** A multi-leg journey costs the sum of its groups' prices, unsplit. */
  lemma {:induction false} MultiLegPrice(groups: seq<LegGroup>, flights: seq<Flight>)
    requires |flights| == |groups|
    requires forall i :: 0 <= i < |groups| ==> flights[i] == LegFlight(groups[i])
    ensures TotalPrice(flights) == GroupPrices(groups)
  {
    if groups != [] {
      MultiLegPrice(groups[1..], flights[1..]);
    }
  }

  /** `[convert_single_flight(r) for r in data['data']]`: one Journey per round-trip result, in order. */
  method ConvertSingleFlights(results: seq<RoundTripResult>) returns (journeys: seq<Journey>)
    ensures |journeys| == |results|
    ensures forall i :: 0 <= i < |results| ==>
              fresh(journeys[i]) && journeys[i].scoreComponents == None
              && journeys[i].flights == SingleFlightLegs(results[i])
    ensures forall a, b :: 0 <= a < b < |journeys| ==> journeys[a] != journeys[b]
  {
    journeys := [];
    for i := 0 to |results|
      invariant |journeys| == i
      invariant forall a, b :: 0 <= a < b < |journeys| ==> journeys[a] != journeys[b]
      invariant forall k :: 0 <= k < i ==>
                  fresh(journeys[k]) && journeys[k].scoreComponents == None
                  && journeys[k].flights == SingleFlightLegs(results[k])
    {
      var journey := ConvertSingleFlight(results[i]);
      journeys := journeys + [journey];
    }
  }

  /** `[convert_multi_flight_journey(r) for r in data]`: one Journey per multi-leg result, in order. */
  method ConvertMultiFlightJourneys(results: seq<MultiLegResult>) returns (journeys: seq<Journey>)
    ensures |journeys| == |results|
    ensures forall i :: 0 <= i < |results| ==>
              var groups := results[i].route;
              && fresh(journeys[i]) && journeys[i].scoreComponents == None
              && |journeys[i].flights| == |groups|
              && forall g :: 0 <= g < |groups| ==> journeys[i].flights[g] == LegFlight(groups[g])
    ensures forall a, b :: 0 <= a < b < |journeys| ==> journeys[a] != journeys[b]
  {
    journeys := [];
    for i := 0 to |results|
      invariant |journeys| == i
      invariant forall a, b :: 0 <= a < b < |journeys| ==> journeys[a] != journeys[b]
      invariant forall k :: 0 <= k < i ==>
                  var groups := results[k].route;
                  && fresh(journeys[k]) && journeys[k].scoreComponents == None
                  && |journeys[k].flights| == |groups|
                  && forall g :: 0 <= g < |groups| ==> journeys[k].flights[g] == LegFlight(groups[g])
    {
      var journey := ConvertMultiFlightJourney(results[i]);
      journeys := journeys + [journey];
    }
  }
}
