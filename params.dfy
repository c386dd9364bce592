/**
 * Request parameters of the two flight searches: the round-trip query
 * string and the list of one-way requests of a multi-leg search.
 */
module Params {
  import opened Wrappers
  import opened Text
  import opened Dicts

  datatype CalendarDate = CalendarDate(year: int, month: int, day: int)

  predicate IsLeapYear(y: int) {
    y % 4 == 0 && (y % 100 != 0 || y % 400 == 0)
  }

  function DaysInMonth(y: int, m: int): int
    requires 1 <= m <= 12
  {
    if m == 2 then (if IsLeapYear(y) then 29 else 28)
    else if m == 4 || m == 6 || m == 9 || m == 11 then 30
    else 31
  }

  predicate ValidDate(d: CalendarDate) {
    1 <= d.year <= 9999 && 1 <= d.month <= 12 && 1 <= d.day <= DaysInMonth(d.year, d.month)
  }

  /** A Python `date`: always a real day between years 1 and 9999. */
  type Date = d: CalendarDate | ValidDate(d) witness CalendarDate(1970, 1, 1)

  /** strftime('%d/%m/%Y'): two-digit day and month, four-digit year. */
  function FormatDate(d: Date): (s: string)
    ensures |s| == 10 && s[2] == '/' && s[5] == '/'
  {
    ZeroPadded(d.day, 2) + "/" + ZeroPadded(d.month, 2) + "/" + ZeroPadded(d.year, 4)
  }

  /** Reads a DD/MM/YYYY string back into a date. */
  function ParseDate(s: string): Option<CalendarDate> {
    if |s| == 10 && s[2] == '/' && s[5] == '/'
       && AllDigits(s[..2]) && AllDigits(s[3..5]) && AllDigits(s[6..])
    then Some(CalendarDate(DigitsValue(s[6..]), DigitsValue(s[3..5]), DigitsValue(s[..2])))
    else None
  }

  /** The date text sent upstream identifies the date: parsing it gives the date back. */
  lemma FormatDateRoundTrip(d: Date)
    ensures ParseDate(FormatDate(d)) == Some(d)
  {
    var s := FormatDate(d);
    assert s[..2] == ZeroPadded(d.day, 2);
    assert s[3..5] == ZeroPadded(d.month, 2);
    assert s[6..] == ZeroPadded(d.year, 4);
    assert Pow10(2) == 100 && Pow10(4) == 10000;
    ZeroPaddedReadsBack(d.day, 2);
    ZeroPaddedReadsBack(d.month, 2);
    ZeroPaddedReadsBack(d.year, 4);
  }

  /** Adds `maxFlyDuration` only when one is given. */
  function WithMaxFlyDuration(d: Dict, maxFlyDuration: Option<int>): (r: Dict)
    requires "maxFlyDuration" !in Keys(d)
    ensures "maxFlyDuration" in Keys(r) <==> maxFlyDuration.Some?
    ensures maxFlyDuration.Some? ==> Get(r, "maxFlyDuration") == Some(Int(maxFlyDuration.value))
    ensures forall k :: k != "maxFlyDuration" ==> Get(r, k) == Get(d, k)
    ensures |r| == if maxFlyDuration.Some? then |d| + 1 else |d|
  {
    if maxFlyDuration.Some? then Put(d, "maxFlyDuration", Int(maxFlyDuration.value)) else d
  }

  /** The query parameters of a round-trip search. */
  function RoundTripParams(flyFrom: string, flyTo: string, departureDates: (Date, Date),
                           returnDates: (Date, Date), maxFlyDuration: Option<int>): Dict
  {
    WithMaxFlyDuration(RoundTripBase(flyFrom, flyTo, departureDates, returnDates), maxFlyDuration)
  }

  function RoundTripBase(flyFrom: string, flyTo: string, departureDates: (Date, Date),
                         returnDates: (Date, Date)): (p: Dict)
    ensures "maxFlyDuration" !in Keys(p) && |p| == 8
  {
    var base: Dict := [
      ("partner", Str("picky")),
      ("flyFrom", Str(flyFrom)),
      ("to", Str(flyTo)),
      ("dateFrom", Str(FormatDate(departureDates.0))),
      ("dateTo", Str(FormatDate(departureDates.1))),
      ("returnFrom", Str(FormatDate(returnDates.0))),
      ("returnTo", Str(FormatDate(returnDates.1))),
      ("typeFlight", Str("round"))];
    assert "maxFlyDuration" !in Keys(base);
    base
  }

  /**
   * A round-trip query names the partner, both airports and the four dates
   * as DD/MM/YYYY, is of type `round`, and carries `maxFlyDuration` exactly
   * when one is given.
   */
  lemma RoundTripParamsContents(flyFrom: string, flyTo: string, departureDates: (Date, Date),
                                returnDates: (Date, Date), maxFlyDuration: Option<int>)
    ensures var p := RoundTripParams(flyFrom, flyTo, departureDates, returnDates, maxFlyDuration);
      && Get(p, "partner") == Some(Str("picky"))
      && Get(p, "flyFrom") == Some(Str(flyFrom)) && Get(p, "to") == Some(Str(flyTo))
      && Get(p, "dateFrom") == Some(Str(FormatDate(departureDates.0)))
      && Get(p, "dateTo") == Some(Str(FormatDate(departureDates.1)))
      && Get(p, "returnFrom") == Some(Str(FormatDate(returnDates.0)))
      && Get(p, "returnTo") == Some(Str(FormatDate(returnDates.1)))
      && Get(p, "typeFlight") == Some(Str("round"))
      && ("maxFlyDuration" in Keys(p) <==> maxFlyDuration.Some?)
      && (maxFlyDuration.Some? ==> Get(p, "maxFlyDuration") == Some(Int(maxFlyDuration.value)))
      && |p| == if maxFlyDuration.Some? then 9 else 8
  {
    var base := RoundTripBase(flyFrom, flyTo, departureDates, returnDates);
    GetFindsEntry(base, "partner", Str("picky"));
    GetFindsEntry(base, "flyFrom", Str(flyFrom));
    GetFindsEntry(base, "to", Str(flyTo));
    GetFindsEntry(base, "dateFrom", Str(FormatDate(departureDates.0)));
    GetFindsEntry(base, "dateTo", Str(FormatDate(departureDates.1)));
    GetFindsEntry(base, "returnFrom", Str(FormatDate(returnDates.0)));
    GetFindsEntry(base, "returnTo", Str(FormatDate(returnDates.1)));
    GetFindsEntry(base, "typeFlight", Str("round"));
  }

  /**
   * What is left of a leg's dictionary once `dates`, `from` and `to` have
   * been popped out of it: none of those three keys.
   */
  type LegExtra = d: Dict | "from" !in Keys(d) && "to" !in Keys(d) && "dates" !in Keys(d)

  /**
   * One leg of a multi-leg search as the caller passes it: the `from`, `to`
   * and `dates` entries, and whatever other entries the caller's dictionary
   * holds (they override the defaults).
   */
  datatype LegSpec = LegSpec(from: string, to: string, dates: (Date, Date), extra: LegExtra)

  /** The parameters every one-way request starts from. */
  function LegDefaults(leg: LegSpec, maxFlyDuration: Option<int>): Dict {
    WithMaxFlyDuration(LegBase(leg), maxFlyDuration)
  }

  function LegBase(leg: LegSpec): (p: Dict)
    ensures "maxFlyDuration" !in Keys(p)
  {
    var base: Dict := [
      ("flyFrom", Str(leg.from)),
      ("to", Str(leg.to)),
      ("dateFrom", Str(FormatDate(leg.dates.0))),
      ("dateTo", Str(FormatDate(leg.dates.1))),
      ("typeFlight", Str("oneway"))];
    assert "maxFlyDuration" !in Keys(base);
    base
  }

  /** A one-way request's defaults: the leg's airports and dates, `oneway`, and the optional maximum duration. */
  lemma LegDefaultsContents(leg: LegSpec, maxFlyDuration: Option<int>)
    ensures var p := LegDefaults(leg, maxFlyDuration);
      && Get(p, "flyFrom") == Some(Str(leg.from)) && Get(p, "to") == Some(Str(leg.to))
      && Get(p, "dateFrom") == Some(Str(FormatDate(leg.dates.0)))
      && Get(p, "dateTo") == Some(Str(FormatDate(leg.dates.1)))
      && Get(p, "typeFlight") == Some(Str("oneway"))
      && ("maxFlyDuration" in Keys(p) <==> maxFlyDuration.Some?)
      && (maxFlyDuration.Some? ==> Get(p, "maxFlyDuration") == Some(Int(maxFlyDuration.value)))
  {
    var base := LegBase(leg);
    GetFindsEntry(base, "flyFrom", Str(leg.from));
    GetFindsEntry(base, "to", Str(leg.to));
    GetFindsEntry(base, "dateFrom", Str(FormatDate(leg.dates.0)));
    GetFindsEntry(base, "dateTo", Str(FormatDate(leg.dates.1)));
    GetFindsEntry(base, "typeFlight", Str("oneway"));
  }

  /**
   * The one-way request of a leg: the defaults, then the leg's own entries
   * merged last (`params.update(flight)`).
   */
  function LegRequest(leg: LegSpec, maxFlyDuration: Option<int>): Dict {
    Update(LegDefaults(leg, maxFlyDuration), leg.extra)
  }

  /**
   * What a one-way request holds: each of the leg's own entries wins over a
   * default; `typeFlight` is `oneway` unless the leg sets it; `maxFlyDuration`
   * is present only when given for the search or set by the leg.
   */
  lemma LegRequestContents(leg: LegSpec, maxFlyDuration: Option<int>)
    ensures var p := LegRequest(leg, maxFlyDuration);
      && Keys(p) == Keys(LegDefaults(leg, maxFlyDuration)) + Keys(leg.extra)
      && (forall k :: k in Keys(leg.extra) ==> Get(p, k) == Get(leg.extra, k))
      && (forall k :: k !in Keys(leg.extra) ==> Get(p, k) == Get(LegDefaults(leg, maxFlyDuration), k))
      && ("typeFlight" !in Keys(leg.extra) ==> Get(p, "typeFlight") == Some(Str("oneway")))
      && ("maxFlyDuration" in Keys(p) <==> maxFlyDuration.Some? || "maxFlyDuration" in Keys(leg.extra))
  {
    LegDefaultsContents(leg, maxFlyDuration);
    forall k {
      UpdateGet(LegDefaults(leg, maxFlyDuration), leg.extra, k);
    }
  }

  /** The `requests` list of a multi-leg search: one one-way request per leg, in leg order. */
  method FlightsMultiRequests(legs: seq<LegSpec>, maxFlyDuration: Option<int>) returns (requests: seq<Dict>)
    ensures |requests| == |legs|
    ensures forall i :: 0 <= i < |legs| ==> requests[i] == LegRequest(legs[i], maxFlyDuration)
  {
    requests := [];
    var i := 0;
    while i < |legs|
      invariant 0 <= i <= |legs|
      invariant |requests| == i
      invariant forall k :: 0 <= k < i ==> requests[k] == LegRequest(legs[k], maxFlyDuration)
    {
      var params := LegRequest(legs[i], maxFlyDuration);
      requests := requests + [params];
      i := i + 1;
    }
  }
}
