/**
 * The search client: every request goes through a cache keyed by the
 * canonical form of (method, URL, params, body). A live entry is returned
 * without contacting the upstream API; otherwise the upstream is asked, an
 * HTTP 400-599 status fails the request and caches nothing, and any other
 * reply is cached for an hour and returned.
 */
module Client {
  import opened Wrappers
  import opened Dicts
  import opened Params
  import opened Itinerary
  import opened Normalize

  const BASE_URL := "https://api.skypicker.com"

  /** Seconds a cached reply stays live. */
  const CACHE_TTL := 3600

  /** The `data` argument of a request: none, or the `{'requests': [...]}` body of a multi-leg search. */
  datatype Body = NoBody | Requests(requests: seq<Dict>)

  /** A request as handed to the HTTP layer. */
  datatype Call = Call(httpMethod: string, url: string, params: Option<Dict>, body: Body)

  datatype AirlineRecord = AirlineRecord(id: string, name: string)

  /** A decoded upstream reply, in one of the three shapes the API returns. */
  datatype Payload =
    | RoundTripData(data: seq<RoundTripResult>)
    | MultiLegData(results: seq<MultiLegResult>)
    | AirlineList(airlines: seq<AirlineRecord>)

  datatype Reply = Reply(status: int, payload: Payload)

  datatype ApiError = HttpError(status: int) | MalformedResponse

  /**
   * The cache key: the request with every dictionary replaced by the mapping
   * it denotes, which is what serialising with sorted keys achieves; list
   * order (the legs of a multi-leg body) is kept.
   */
  datatype CacheKey = CacheKey(
    httpMethod: string,
    url: string,
    params: Option<map<string, Scalar>>,
    body: Option<seq<map<string, Scalar>>>)

  function BodyKey(body: Body): Option<seq<map<string, Scalar>>> {
    match body
    case NoBody => None
    case Requests(rs) => Some(seq(|rs|, i requires 0 <= i < |rs| => ToMap(rs[i])))
  }

  function KeyOf(call: Call): CacheKey {
    CacheKey(call.httpMethod, call.url,
             if call.params.Some? then Some(ToMap(call.params.value)) else None,
             BodyKey(call.body))
  }

  /** Two requests that differ only in the insertion order of their parameters share a key, and only those. */
  lemma KeyIgnoresParamOrder(httpMethod: string, url: string, p1: Dict, p2: Dict, body: Body)
    ensures KeyOf(Call(httpMethod, url, Some(p1), body)) == KeyOf(Call(httpMethod, url, Some(p2), body))
            <==> forall e :: e in p1 <==> e in p2
  {
    SameMapIffSameEntries(p1, p2);
  }

  /** The same for the bodies of multi-leg searches, request by request. */
  lemma KeyIgnoresBodyOrder(rs1: seq<Dict>, rs2: seq<Dict>)
    requires |rs1| == |rs2|
    ensures BodyKey(Requests(rs1)) == BodyKey(Requests(rs2))
            <==> forall i :: 0 <= i < |rs1| ==> (forall e :: e in rs1[i] <==> e in rs2[i])
  {
    forall i | 0 <= i < |rs1| {
      SameMapIffSameEntries(rs1[i], rs2[i]);
    }
    if forall i :: 0 <= i < |rs1| ==> (forall e :: e in rs1[i] <==> e in rs2[i]) {
      assert BodyKey(Requests(rs1)).value == BodyKey(Requests(rs2)).value;
    }
    if BodyKey(Requests(rs1)) == BodyKey(Requests(rs2)) {
      forall i | 0 <= i < |rs1| ensures ToMap(rs1[i]) == ToMap(rs2[i]) {
        assert BodyKey(Requests(rs1)).value[i] == ToMap(rs1[i]);
      }
    }
  }

  /** A cached reply and the time at which the store drops it. */
  datatype CacheEntry = CacheEntry(payload: Payload, expiresAt: int)

  predicate IsHttpError(status: int) {
    400 <= status < 600
  }

  /** What the store's `get` finds: an entry that has not expired yet. */
  predicate Live(cache: map<CacheKey, CacheEntry>, key: CacheKey, now: int) {
    key in cache && now < cache[key].expiresAt
  }

  /**
   * The contract of one request, relating the cache and the count of
   * upstream calls before and after it to the outcome.
   */
  ghost predicate Served(cache: map<CacheKey, CacheEntry>, cache': map<CacheKey, CacheEntry>,
                         calls: nat, calls': nat, call: Call, now: int, upstream: Call -> Reply,
                         r: Result<Payload, ApiError>)
  {
    var key := KeyOf(call);
    if Live(cache, key, now) then
      r == Success(cache[key].payload) && cache' == cache && calls' == calls
    else
      var reply := upstream(call);
      && calls' == calls + 1
      && if IsHttpError(reply.status) then
           r == Failure(HttpError(reply.status)) && cache' == cache
         else
           r == Success(reply.payload) && cache' == cache[key := CacheEntry(reply.payload, now + CACHE_TTL)]
  }

  /** Asking again within the hour after a fresh successful call is answered from the cache. */
  lemma RepeatWithinTtlIsCached(c0: map<CacheKey, CacheEntry>, c1: map<CacheKey, CacheEntry>,
                                c2: map<CacheKey, CacheEntry>, n0: nat, n1: nat, n2: nat,
                                call: Call, t1: int, t2: int, upstream: Call -> Reply,
                                r1: Result<Payload, ApiError>, r2: Result<Payload, ApiError>)
    requires Served(c0, c1, n0, n1, call, t1, upstream, r1)
    requires Served(c1, c2, n1, n2, call, t2, upstream, r2)
    requires !Live(c0, KeyOf(call), t1) && r1.Success?
    requires t2 < t1 + CACHE_TTL
    ensures r2 == r1 && c2 == c1 && n2 == n0 + 1
  {
  }

  /** Once the hour is over, the same request reaches the upstream API exactly once more. */
  lemma RepeatAfterTtlCallsAgain(c0: map<CacheKey, CacheEntry>, c1: map<CacheKey, CacheEntry>,
                                 c2: map<CacheKey, CacheEntry>, n0: nat, n1: nat, n2: nat,
                                 call: Call, t1: int, t2: int, upstream: Call -> Reply,
                                 r1: Result<Payload, ApiError>, r2: Result<Payload, ApiError>)
    requires Served(c0, c1, n0, n1, call, t1, upstream, r1)
    requires Served(c1, c2, n1, n2, call, t2, upstream, r2)
    requires !Live(c0, KeyOf(call), t1) && r1.Success?
    requires t2 >= t1 + CACHE_TTL
    ensures n2 == n0 + 2
  {
  }

  /** `{airline['id']: airline['name'] for airline in airlines}`. */
  function Directory(airlines: seq<AirlineRecord>): (names: map<string, string>)
    ensures names.Keys == set a | a in airlines :: a.id
  {
    if airlines == [] then map[]
    else
      var last := airlines[|airlines| - 1];
      var names := Directory(airlines[..|airlines| - 1])[last.id := last.name];
      assert airlines == airlines[..|airlines| - 1] + [last];
      names
  }

  /** A carrier listed more than once gets the name of its last listing. */
  lemma {:induction false} DirectoryLastWins(airlines: seq<AirlineRecord>, i: nat)
    requires i < |airlines|
    requires forall j :: i < j < |airlines| ==> airlines[j].id != airlines[i].id
    ensures airlines[i].id in Directory(airlines)
    ensures Directory(airlines)[airlines[i].id] == airlines[i].name
  {
    if i < |airlines| - 1 {
      DirectoryLastWins(airlines[..|airlines| - 1], i);
    }
  }

  class KiwiApi {
    var cache: map<CacheKey, CacheEntry>
    /** How many calls reached the upstream API so far. */
    ghost var upstreamCalls: nat

    /**
     * A client over the store it connects to. The store is shared and
     * persistent, so it may already hold live entries from earlier clients.
     */
    constructor (store: map<CacheKey, CacheEntry>)
      ensures cache == store && upstreamCalls == 0
    {
      cache := store;
      upstreamCalls := 0;
    }

    method Request(call: Call, now: int, upstream: Call -> Reply) returns (r: Result<Payload, ApiError>)
      modifies this
      ensures Served(old(cache), cache, old(upstreamCalls), upstreamCalls, call, now, upstream, r)
    {
      var key := KeyOf(call);
      if key in cache && now < cache[key].expiresAt {
        return Success(cache[key].payload);
      }
      var reply := upstream(call);
      upstreamCalls := upstreamCalls + 1;
      if 400 <= reply.status < 600 {
        return Failure(HttpError(reply.status));
      }
      cache := cache[key := CacheEntry(reply.payload, now + CACHE_TTL)];
      return Success(reply.payload);
    }

    /** The round-trip search: a GET of `/flights` with the round-trip parameters. */
    method FlightsData(flyFrom: string, flyTo: string, departureDates: (Date, Date), returnDates: (Date, Date),
                       maxFlyDuration: Option<int>, now: int, upstream: Call -> Reply)
      returns (r: Result<Payload, ApiError>)
      modifies this
      ensures Served(old(cache), cache, old(upstreamCalls), upstreamCalls,
                     Call("get", BASE_URL + "/flights",
                          Some(RoundTripParams(flyFrom, flyTo, departureDates, returnDates, maxFlyDuration)), NoBody),
                     now, upstream, r)
    {
      var params := RoundTripParams(flyFrom, flyTo, departureDates, returnDates, maxFlyDuration);
      r := Request(Call("get", BASE_URL + "/flights", Some(params), NoBody), now, upstream);
    }

    /** The multi-leg search: a POST of `/flights_multi` whose body lists one one-way request per leg. */
    method FlightsMultiData(legs: seq<LegSpec>, maxFlyDuration: Option<int>, now: int, upstream: Call -> Reply)
      returns (r: Result<Payload, ApiError>, ghost requests: seq<Dict>)
      modifies this
      ensures |requests| == |legs|
      ensures forall i :: 0 <= i < |legs| ==> requests[i] == LegRequest(legs[i], maxFlyDuration)
      ensures Served(old(cache), cache, old(upstreamCalls), upstreamCalls,
                     Call("post", BASE_URL + "/flights_multi", None, Requests(requests)), now, upstream, r)
    {
      var data := FlightsMultiRequests(legs, maxFlyDuration);
      requests := data;
      r := Request(Call("post", BASE_URL + "/flights_multi", None, Requests(data)), now, upstream);
    }

    /** The airline directory: a GET of `/airlines`, turned into an id-to-name mapping. */
    method AirlineNames(now: int, upstream: Call -> Reply)
      returns (r: Result<map<string, string>, ApiError>, ghost response: Result<Payload, ApiError>)
      modifies this
      ensures Served(old(cache), cache, old(upstreamCalls), upstreamCalls,
                     Call("GET", BASE_URL + "/airlines", None, NoBody), now, upstream, response)
      ensures response.Failure? ==> r == Failure(response.error)
      ensures response.Success? && response.value.AirlineList? ==> r == Success(Directory(response.value.airlines))
      ensures response.Success? && !response.value.AirlineList? ==> r == Failure(MalformedResponse)
    {
      var res := Request(Call("GET", BASE_URL + "/airlines", None, NoBody), now, upstream);
      response := res;
      match res
      case Failure(e) => r := Failure(e);
      case Success(AirlineList(airlines)) => r := Success(Directory(airlines));
      case Success(_) => r := Failure(MalformedResponse);
    }

    /** Round-trip search, each result normalised into a Journey of two Flights. */
    method Flights(flyFrom: string, flyTo: string, departureDates: (Date, Date), returnDates: (Date, Date),
                   maxFlyDuration: Option<int>, now: int, upstream: Call -> Reply)
      returns (r: Result<seq<Journey>, ApiError>, ghost response: Result<Payload, ApiError>)
      modifies this
      ensures Served(old(cache), cache, old(upstreamCalls), upstreamCalls,
                     Call("get", BASE_URL + "/flights",
                          Some(RoundTripParams(flyFrom, flyTo, departureDates, returnDates, maxFlyDuration)), NoBody),
                     now, upstream, response)
      ensures response.Failure? ==> r == Failure(response.error)
      ensures response.Success? && !response.value.RoundTripData? ==> r == Failure(MalformedResponse)
      ensures response.Success? && response.value.RoundTripData? ==>
                r.Success? && |r.value| == |response.value.data|
                && forall i :: 0 <= i < |r.value| ==>
                     fresh(r.value[i]) && r.value[i].scoreComponents == None
                     && r.value[i].flights == SingleFlightLegs(response.value.data[i])
      ensures r.Success? ==> forall a, b :: 0 <= a < b < |r.value| ==> r.value[a] != r.value[b]
    {
      var res := FlightsData(flyFrom, flyTo, departureDates, returnDates, maxFlyDuration, now, upstream);
      response := res;
      match res
      case Failure(e) => r := Failure(e);
      case Success(RoundTripData(results)) =>
        var journeys := ConvertSingleFlights(results);
        r := Success(journeys);
      case Success(_) => r := Failure(MalformedResponse);
    }

    /** Multi-leg search, each result normalised into a Journey with one Flight per leg group. */
    method FlightsMulti(legs: seq<LegSpec>, maxFlyDuration: Option<int>, now: int, upstream: Call -> Reply)
      returns (r: Result<seq<Journey>, ApiError>, ghost response: Result<Payload, ApiError>, ghost requests: seq<Dict>)
      modifies this
      ensures |requests| == |legs|
      ensures forall i :: 0 <= i < |legs| ==> requests[i] == LegRequest(legs[i], maxFlyDuration)
      ensures Served(old(cache), cache, old(upstreamCalls), upstreamCalls,
                     Call("post", BASE_URL + "/flights_multi", None, Requests(requests)), now, upstream, response)
      ensures response.Failure? ==> r == Failure(response.error)
      ensures response.Success? && !response.value.MultiLegData? ==> r == Failure(MalformedResponse)
      ensures response.Success? && response.value.MultiLegData? ==>
                r.Success? && |r.value| == |response.value.results|
                && forall i :: 0 <= i < |r.value| ==>
                     var groups := response.value.results[i].route;
                     && fresh(r.value[i]) && r.value[i].scoreComponents == None
                     && |r.value[i].flights| == |groups|
                     && forall g :: 0 <= g < |groups| ==> r.value[i].flights[g] == LegFlight(groups[g])
      ensures r.Success? ==> forall a, b :: 0 <= a < b < |r.value| ==> r.value[a] != r.value[b]
    {
      var res;
      res, requests := FlightsMultiData(legs, maxFlyDuration, now, upstream);
      response := res;
      match res
      case Failure(e) => r := Failure(e);
      case Success(MultiLegData(results)) =>
        var journeys := ConvertMultiFlightJourneys(results);
        r := Success(journeys);
      case Success(_) => r := Failure(MalformedResponse);
    }
  }
}
