/**
 * The ranking engine: a journey's score is a weighted cost made of its
 * price, a surcharge for the hub it starts from, a surcharge for the hub it
 * ends at and a charge for the hours it takes; journeys are ranked by a
 * stable ascending sort on that score. Also the duration formatter: the hours padded to width 2, `h`, then two minute digits (` 5h07`).
 */
module Ranking {
  import opened Wrappers
  import opened Text
  import opened Itinerary
  import opened Sorting

  /** `int(secs / 3600)`: whole hours, truncated toward zero. */
  function Hours(secs: int): (h: int)
    ensures secs >= 0 ==> 0 <= 3600 * h <= secs < 3600 * h + 3600
    ensures secs < 0 ==> 3600 * h - 3600 < secs <= 3600 * h <= 0
  {
    if secs >= 0 then secs / 3600 else -((-secs) / 3600)
  }

  /**
   * `int(secs / 60 % 60)`. Python's `%` is floored, so the remainder is in
   * [0, 60) for every sign; that is the Euclidean remainder of `secs div 60`.
   */
  function Minutes(secs: int): (m: nat)
    ensures m < 60
  {
    (secs / 60) % 60
  }

  /** For a non-negative duration, hours and minutes are the whole hours and the whole minutes left over. */
  lemma HoursMinutesBracket(secs: int)
    requires secs >= 0
    ensures 3600 * Hours(secs) + 60 * Minutes(secs) <= secs < 3600 * Hours(secs) + 60 * Minutes(secs) + 60
  {
    var q := secs / 60;
    assert secs == 60 * q + secs % 60;
    assert q == 60 * (q / 60) + q % 60;
    assert secs == 3600 * (q / 60) + 60 * (q % 60) + secs % 60;
    assert secs / 3600 == q / 60;
  }

  /** `f"{h:2d}h{m:02d}"` with the hours and minutes of `secs`. */
  function FormatTime(secs: int): (s: string)
    ensures |s| >= 5 && s[|s| - 3] == 'h'
  {
    PadLeft(IntToString(Hours(secs)), 2) + ("h" + ZeroPadded(Minutes(secs), 2))
  }

  /** The text is the padded hours, then `h`, then the two minute digits. */
  lemma FormatTimeParts(secs: int)
    ensures var s := FormatTime(secs);
      && s[..|s| - 3] == PadLeft(IntToString(Hours(secs)), 2)
      && s[|s| - 2..] == ZeroPadded(Minutes(secs), 2)
  {
    var head, tail := PadLeft(IntToString(Hours(secs)), 2), "h" + ZeroPadded(Minutes(secs), 2);
    assert (head + tail)[..|head + tail| - 3] == head;
    assert (head + tail)[|head + tail| - 2..] == tail[1..];
  }

  /** The two digits after the `h` read back as the minutes, for every duration. */
  lemma FormatTimeMinutes(secs: int)
    ensures var s := FormatTime(secs);
      AllDigits(s[|s| - 2..]) && DigitsValue(s[|s| - 2..]) == Minutes(secs)
  {
    FormatTimeParts(secs);
    assert Pow10(2) == 100;
    ZeroPaddedReadsBack(Minutes(secs), 2);
  }

  /**
   * For a non-negative duration, the text before the `h`, once its padding
   * is trimmed, is exactly the decimal rendering of the hours, which reads
   * back as the hours.
   */
  lemma FormatTimeHours(secs: int)
    requires secs >= 0
    ensures var s := FormatTime(secs);
      TrimLeft(s[..|s| - 3]) == Decimal(Hours(secs)) && DigitsValue(Decimal(Hours(secs))) == Hours(secs)
  {
    FormatTimeParts(secs);
    var hours := Decimal(Hours(secs));
    assert IsDigit(hours[0]);
    TrimPadLeft(hours, 2);
    DecimalReadsBack(Hours(secs));
  }

  /** Cost of an hour of travel. */
  const HOURLY_COST: real := 15.0

  /** Cost of an hour spent waiting at a hub. */
  const EXT_HOURLY_COST: real := 2.0 * HOURLY_COST

  /** Ground transport, local transport and food, plus the buffer hours spent waiting. */
  const AIRPORT_COSTS: map<string, real> := map[
    "HEL" := 20.0 + 20.0 + 10.0 + 4.0 * EXT_HOURLY_COST,
    "RIX" := 25.0 + 5.0 + 5.0 + 5.0 * EXT_HOURLY_COST]

  /** `airport_costs.get(airport, 0)`. */
  function Surcharge(airport: string): (c: real)
    ensures airport == "HEL" ==> c == 170.0
    ensures airport == "RIX" ==> c == 185.0
    ensures airport != "HEL" && airport != "RIX" ==> c == 0.0
  {
    if airport in AIRPORT_COSTS then AIRPORT_COSTS[airport] else 0.0
  }

  /** A journey can be scored when it has a first and a last flight and every flight has hops. */
  predicate Scorable(flights: seq<Flight>) {
    |flights| > 0 && AllHaveHops(flights)
  }

  /** The charge for the hours a journey takes, departure to arrival of each flight. */
  function TimeCost(flights: seq<Flight>): real
    requires AllHaveHops(flights)
  {
    TotalDuration(flights) as real / 3600.0 * HOURLY_COST
  }

  /** The four components of the score, in display order. */
  function ScoreComponents(flights: seq<Flight>): (c: seq<real>)
    requires Scorable(flights)
    ensures |c| == 4
  {
    [TotalPrice(flights),
     Surcharge(flights[0].DepAirport()),
     Surcharge(flights[|flights| - 1].ArrAirport()),
     TimeCost(flights)]
  }

  /** Python's `sum`: a left-to-right fold starting at 0. */
  function Sum(xs: seq<real>): real {
    if xs == [] then 0.0 else Sum(xs[..|xs| - 1]) + xs[|xs| - 1]
  }

  function Score(flights: seq<Flight>): real
    requires Scorable(flights)
  {
    Sum(ScoreComponents(flights))
  }

  lemma SumOfFour(a: real, b: real, c: real, d: real)
    ensures Sum([a, b, c, d]) == a + b + c + d
  {
    assert [a, b, c, d][..3] == [a, b, c];
    assert [a, b, c][..2] == [a, b];
    assert [a, b][..1] == [a];
    assert [a][..0] == [];
    assert Sum([a]) == a;
    assert Sum([a, b]) == a + b;
    assert Sum([a, b, c]) == a + b + c;
  }

  /** The score is the price, plus the two hub surcharges, plus 15 per hour of travel. */
  lemma ScoreIsWeightedCost(flights: seq<Flight>)
    requires Scorable(flights)
    ensures Score(flights) == TotalPrice(flights)
                              + Surcharge(flights[0].DepAirport())
                              + Surcharge(flights[|flights| - 1].ArrAirport())
                              + TimeCost(flights)
  {
    var price, from, to := TotalPrice(flights), Surcharge(flights[0].DepAirport()), Surcharge(flights[|flights| - 1].ArrAirport());
    var time := TimeCost(flights);
    assert ScoreComponents(flights) == [price, from, to, time];
    SumOfFour(price, from, to, time);
  }

  /** The surcharges add between 0 and 370 (two RIX ends) on top of price and time. */
  lemma ScoreBounds(flights: seq<Flight>)
    requires Scorable(flights)
    ensures var base := TotalPrice(flights) + TimeCost(flights);
            base <= Score(flights) <= base + 370.0
  {
    ScoreIsWeightedCost(flights);
  }

  /**
   * `journey_score`: computes the components afresh, stores them on the
   * journey (replacing any earlier breakdown) and returns their sum.
   */
  method JourneyScore(journey: Journey) returns (score: real)
    requires Scorable(journey.flights)
    modifies journey
    ensures journey.scoreComponents == Some(ScoreComponents(journey.flights))
    ensures score == Score(journey.flights) == Sum(journey.scoreComponents.value)
  {
    var components := ScoreComponents(journey.flights);
    journey.scoreComponents := Some(components);
    score := Sum(components);
  }

  predicate AllScorable(journeys: seq<Journey>) {
    forall j :: j in journeys ==> Scorable(j.flights)
  }

  /**
   * The sort key, total so that it can be passed to SortBy. Python raises
   * IndexError on a journey that cannot be scored; SortJourneys requires
   * every journey to be scorable, where the key is the score.
   */
  function ScoreOf(j: Journey): real {
    if Scorable(j.flights) then Score(j.flights) else 0.0
  }

  /**
   * `sorted(journeys, key=journey_score)`: scores every journey (attaching
   * its breakdown) and returns them in stable ascending order of score.
   */
  method SortJourneys(journeys: seq<Journey>) returns (ranked: seq<Journey>)
    requires AllScorable(journeys)
    modifies set j | j in journeys
    ensures ranked == SortBy(ScoreOf, journeys)
    ensures multiset(ranked) == multiset(journeys)
    ensures SortedBy(ScoreOf, ranked) && SameOrderPerKey(ScoreOf, ranked, journeys)
    ensures SortBy(ScoreOf, ranked) == ranked
    ensures forall j :: j in journeys ==> j.scoreComponents == Some(ScoreComponents(j.flights))
    ensures forall j :: j in ranked ==> j in journeys && j.scoreComponents.Some? && Sum(j.scoreComponents.value) == ScoreOf(j)
  {
    for i := 0 to |journeys|
      invariant forall k :: 0 <= k < i ==> journeys[k].scoreComponents == Some(ScoreComponents(journeys[k].flights))
    {
      var _ := JourneyScore(journeys[i]);
    }
    ranked := SortBy(ScoreOf, journeys);
    SortIsSorted(ScoreOf, journeys);
    SortIsStable(ScoreOf, journeys);
    SortIsIdempotent(ScoreOf, journeys);
    assert forall j :: j in ranked ==> j in multiset(journeys);
  }
}
