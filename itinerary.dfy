/**
 * The itinerary entity graph: Hop -> Flight -> Journey, with the read-only
 * derived properties the search client computes from the owned hops.
 * Timestamps are integer seconds since the epoch; prices are exact reals.
 */
module Itinerary {
  import opened Wrappers

  /** One physical flight segment. */
  datatype Hop = Hop(
    depAirport: string,
    arrAirport: string,
    depTime: int,
    arrTime: int,
    depTimeUtc: int,
    arrTimeUtc: int,
    airlineId: string)
  {
    /** Time in the air on this segment. */
    function DurationSecs(): int {
      arrTimeUtc - depTimeUtc
    }
  }

  /** Sum of the in-air times of the hops. */
  function AirTime(hops: seq<Hop>): int {
    if hops == [] then 0 else hops[0].DurationSecs() + AirTime(hops[1..])
  }

  /** Sum of the ground times between consecutive hops. */
  function LayoverTime(hops: seq<Hop>): int {
    if |hops| < 2 then 0 else hops[1].depTimeUtc - hops[0].arrTimeUtc + LayoverTime(hops[1..])
  }

  /** Every hop arrives no earlier than it departs, and departs no earlier than the previous one arrived. */
  predicate Chronological(hops: seq<Hop>) {
    && (forall i :: 0 <= i < |hops| ==> hops[i].depTimeUtc <= hops[i].arrTimeUtc)
    && (forall i :: 0 < i < |hops| ==> hops[i - 1].arrTimeUtc <= hops[i].depTimeUtc)
  }

  /** A sequence of hops flown as one priced unit. */
  datatype Flight = Flight(hops: seq<Hop>, price: real)
  {
    /** The endpoint accessors below index the first and last hop, so they are undefined without hops. */
    predicate HasHops() {
      |hops| > 0
    }

    function DepAirport(): string
      requires HasHops()
    {
      hops[0].depAirport
    }

    function ArrAirport(): string
      requires HasHops()
    {
      hops[|hops| - 1].arrAirport
    }

    function DepTime(): int
      requires HasHops()
    {
      hops[0].depTime
    }

    function DepTimeUtc(): int
      requires HasHops()
    {
      hops[0].depTimeUtc
    }

    function ArrTime(): int
      requires HasHops()
    {
      hops[|hops| - 1].arrTime
    }

    function ArrTimeUtc(): int
      requires HasHops()
    {
      hops[|hops| - 1].arrTimeUtc
    }

    /**
     * Last arrival minus first departure: the layovers between hops count,
     * so this is the hops' air time plus their ground time.
     */
    function DurationSecs(): (d: int)
      requires HasHops()
      ensures d == AirTime(hops) + LayoverTime(hops)
    {
      SpanIsAirPlusLayover(hops);
      ArrTimeUtc() - DepTimeUtc()
    }
  }

  lemma {:induction false} SpanIsAirPlusLayover(hops: seq<Hop>)
    requires |hops| > 0
    ensures hops[|hops| - 1].arrTimeUtc - hops[0].depTimeUtc == AirTime(hops) + LayoverTime(hops)
  {
    if |hops| > 1 {
      SpanIsAirPlusLayover(hops[1..]);
    }
  }

  /** For chronological hops the layovers never shorten a flight: it lasts at least its air time, which is non-negative. */
  lemma {:induction false} ChronologicalFlightCoversAirTime(f: Flight)
    requires f.HasHops() && Chronological(f.hops)
    ensures 0 <= AirTime(f.hops) <= f.DurationSecs()
  {
    NonNegativeTimes(f.hops);
  }

  lemma {:induction false} NonNegativeTimes(hops: seq<Hop>)
    requires Chronological(hops)
    ensures AirTime(hops) >= 0 && LayoverTime(hops) >= 0
  {
    if hops != [] {
      NonNegativeTimes(hops[1..]);
    }
  }

  /**
   * Cutting a flight's hops in two: the first part keeps the departure,
   * the second keeps the arrival, and the whole lasts both parts plus the
   * connection between them.
   */
  lemma SplitFlight(f: Flight, k: nat, p1: real, p2: real)
    requires 0 < k < |f.hops|
    ensures var a := Flight(f.hops[..k], p1);
            var b := Flight(f.hops[k..], p2);
            && a.DepAirport() == f.DepAirport() && a.DepTime() == f.DepTime() && a.DepTimeUtc() == f.DepTimeUtc()
            && b.ArrAirport() == f.ArrAirport() && b.ArrTime() == f.ArrTime() && b.ArrTimeUtc() == f.ArrTimeUtc()
            && f.DurationSecs() == a.DurationSecs() + (b.DepTimeUtc() - a.ArrTimeUtc()) + b.DurationSecs()
  {
  }

  /** A journey's price: the prices of its flights added up (0 for no flights). */
  function TotalPrice(flights: seq<Flight>): real {
    if flights == [] then 0.0 else flights[0].price + TotalPrice(flights[1..])
  }

  predicate AllHaveHops(flights: seq<Flight>) {
    forall i :: 0 <= i < |flights| ==> flights[i].HasHops()
  }

  /** A journey's duration: the durations of its flights added up (0 for no flights). */
  function TotalDuration(flights: seq<Flight>): int
    requires AllHaveHops(flights)
  {
    if flights == [] then 0 else flights[0].DurationSecs() + TotalDuration(flights[1..])
  }

  lemma {:induction false} TotalPriceAppend(a: seq<Flight>, b: seq<Flight>)
    ensures TotalPrice(a + b) == TotalPrice(a) + TotalPrice(b)
  {
    if a == [] {
      assert a + b == b;
    } else {
      assert (a + b)[1..] == a[1..] + b;
      TotalPriceAppend(a[1..], b);
    }
  }

  lemma {:induction false} TotalDurationAppend(a: seq<Flight>, b: seq<Flight>)
    requires AllHaveHops(a) && AllHaveHops(b)
    ensures AllHaveHops(a + b)
    ensures TotalDuration(a + b) == TotalDuration(a) + TotalDuration(b)
  {
    if a == [] {
      assert a + b == b;
    } else {
      assert (a + b)[1..] == a[1..] + b;
      TotalDurationAppend(a[1..], b);
    }
  }

  /**
   * A full itinerary. The flights never change after construction; the score
   * breakdown is absent until the ranking attaches one.
   */
  class Journey {
    const flights: seq<Flight>
    var scoreComponents: Option<seq<real>>

    constructor (flights: seq<Flight>)
      ensures this.flights == flights && scoreComponents == None
    {
      this.flights := flights;
      scoreComponents := None;
    }

    function Price(): real {
      TotalPrice(flights)
    }

    function DurationSecs(): int
      requires AllHaveHops(flights)
    {
      TotalDuration(flights)
    }
  }
}
