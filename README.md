# flightsearch in Dafny

A model of the core of *flightsearch*, a small tool that searches flights on the
Kiwi/Skypicker API. The tool turns the API's results into journeys and ranks
them by a weighted cost. The model covers four parts:

- **The itinerary entities** (`itinerary.dfy`).
  - A `Hop` is one flight segment.
  - A `Flight` is a priced sequence of hops. Its endpoints come from the first and last hop. Its duration is last arrival minus first departure, so layovers count.
  - A `Journey` is a list of flights, with a total price and a total duration. It also carries a score breakdown that starts out absent and is filled in by the ranking.
- **The search client** (`dicts.dfy`, `params.dfy`, `client.dfy`).
  - The parameter builders of the round-trip search and the multi-leg search. Python dictionaries are modelled with their insertion order, `d[k] = v` and `d.update(e)`.
  - A request path that looks in a cache first. The cache key does not depend on the order of dictionary keys. An entry lives for one hour. An HTTP 400–599 reply fails the request and caches nothing.
  - The airline directory.
- **The response normaliser** (`normalize.dfy`).
  - A round-trip result is split by its `return` flag into an outbound and an inbound flight, each at half the price.
  - Each leg group of a multi-leg result becomes a flight at the group's own price.
- **The ranking engine** (`ranking.dfy`, `sorting.dfy`, `text.dfy`).
  - The score has four components: price, a surcharge for the departure hub, a surcharge for the arrival hub, and 15 per hour of travel. Scoring stores the components on the journey.
  - Journeys are ranked by a stable ascending sort on the score.
  - The duration formatter: the hours padded to width 2, `h`, then two minute digits (` 5h07`).

The model replaces a few things with simpler ones:

- Timestamps are integer seconds.
- Prices and score components are exact reals.
- The Redis store is a map from cache key to (payload, expiry time), handed to the client when it is created, since every client shares one persistent store. The current time is passed in as `now`.
- The HTTP call is a function parameter `upstream` that returns (status, payload).
- The upstream JSON is already decoded into datatypes (`RoundTripResult`, `MultiLegResult`, `AirlineRecord`). A reply of the wrong shape is the error `MalformedResponse`.

Four behaviours of the code that the model keeps as they are:

- **Flights without hops.** The code builds a flight with no hops whenever a round-trip result has no segment with a given `return` flag, and a multi-leg group with an empty route gives one too. So `Flight` allows zero hops. Everything that reads a flight's endpoints or duration requires hops: the endpoint accessors, `Flight.DurationSecs`, `TotalDuration`, `JourneyScore` and `SortJourneys`.
- **Other `return` flags.** The code compares the `return` flag with 0 and with 1, so a segment with any other flag ends up in neither flight. `OutboundInboundPartition` states the exact split when every flag is 0 or 1.
- **Negative durations.** The formatter rounds the hours toward zero but the minutes down, so a negative duration prints misleadingly: -60 s gives ` 0h59` and -3601 s gives `-1h59`. `Hours` and `Minutes` state these two roundings.
- **Cache outages.** The code has no path for an unreachable cache, and neither does the model.

## Model

| member | source | states |
|---|---|---|
| Itinerary.Hop.DurationSecs | kiwi.py:22-24 | a hop's air time, arrival minus departure in UTC; `AirTime` sums it over a flight, and `SpanIsAirPlusLayover` and `ChronologicalFlightCoversAirTime` relate that sum to the flight's duration |
| Itinerary.Flight.DepAirport | kiwi.py:37-39 | the first hop's departure airport; defined only for a flight with hops; `SplitFlight` states that the first part of a cut flight keeps it |
| Itinerary.Flight.ArrAirport | kiwi.py:41-43 | the last hop's arrival airport; defined only for a flight with hops; `SplitFlight` states that the second part of a cut flight keeps it |
| Itinerary.Flight.DepTime | kiwi.py:45-47 | the first hop's local departure time; defined only for a flight with hops; `SplitFlight` states that the first part keeps it |
| Itinerary.Flight.DepTimeUtc | kiwi.py:49-51 | the first hop's UTC departure time; defined only for a flight with hops; `SplitFlight` states that the first part keeps it, and `SpanIsAirPlusLayover` measures the duration from it |
| Itinerary.Flight.ArrTime | kiwi.py:53-55 | the last hop's local arrival time; defined only for a flight with hops; `SplitFlight` states that the second part keeps it |
| Itinerary.Flight.ArrTimeUtc | kiwi.py:57-59 | the last hop's UTC arrival time; defined only for a flight with hops; `SplitFlight` states that the second part keeps it, and `SpanIsAirPlusLayover` measures the duration to it |
| Itinerary.Flight.DurationSecs | kiwi.py:33-35 | last UTC arrival minus first UTC departure equals the hops' air time plus the ground time between consecutive hops |
| Itinerary.SpanIsAirPlusLayover | kiwi.py:50-59 | for any non-empty hop list, the span from first departure to last arrival is air time plus layover time |
| Itinerary.ChronologicalFlightCoversAirTime | kiwi.py:22-35 | for chronological hops, the air time is non-negative and never exceeds the flight's duration |
| Itinerary.SplitFlight | kiwi.py:37-59 | cutting a flight's hops in two: the first part keeps the departure airport and its local and UTC times, the second keeps the arrival airport and times, and the whole lasts both parts plus the connection between them |
| Itinerary.TotalPriceAppend | kiwi.py:70-72 | a journey's price is additive over its flights: the price of a concatenation is the sum of the prices |
| Itinerary.TotalDurationAppend | kiwi.py:66-68 | a journey's duration is additive over its flights in the same way |
| Itinerary.Journey.Price | kiwi.py:70-72 | the sum of the flights' prices; `TotalPriceAppend` states that it is additive over flights, and `SingleFlightPrice` and `MultiLegPrice` give its value for each kind of result |
| Itinerary.Journey.DurationSecs | kiwi.py:66-68 | the sum of the flights' durations, for flights with hops; `TotalDurationAppend` states that it is additive over flights |
| Itinerary.Journey.constructor | kiwi.py:62-64 | a new journey holds the given flights and has no score breakdown yet |
| Normalize.ConvertHop | kiwi.py:180-186 | every segment field except the `return` flag is copied into the hop, so the segment can be rebuilt from the hop and its flag; the hop lasts arrival minus departure in UTC |
| Normalize.HopRoundTrip | kiwi.py:180-186 | converting the segment rebuilt from a hop gives that hop back |
| Normalize.ConvertHops | kiwi.py:161-162 | one hop per segment, in route order, and each segment is recovered from its hop and its flag: no segment is lost, reordered or altered |
| Normalize.WithFlag | kiwi.py:159-160 | the selection is no longer than the route and every selected segment carries the flag; `WithFlagMembers` and `WithFlagAppend` state that it keeps exactly those segments, in order |
| Normalize.WithFlagMembers | kiwi.py:159-160 | selecting by flag keeps exactly the segments that carry that flag |
| Normalize.WithFlagAppend | kiwi.py:159-160 | selecting by flag keeps route order: it distributes over concatenation |
| Normalize.OutboundInboundPartition | kiwi.py:159-160 | when every flag is 0 or 1, the outbound and inbound selections together are the route: their lengths add up and their multisets sum to it |
| Normalize.SingleFlightLegs | kiwi.py:158-170 | exactly two flights: the flag-0 hops, then the flag-1 hops, each in route order; both at the same price, and the two prices add up to the quoted price |
| Normalize.SingleFlightPrice | kiwi.py:164-168 | the journey built from a round-trip result costs exactly the quoted price |
| Normalize.ConvertSingleFlight | kiwi.py:158-170 | returns a new journey whose flights are those two flights and which has no breakdown |
| Normalize.LegFlight | kiwi.py:175-176 | a leg group becomes a flight at the group's own price whose hops are the group's segments, one per segment in route order, each segment recovered from its hop |
| Normalize.ConvertMultiFlightJourney | kiwi.py:172-178 | K leg groups give a new journey of exactly K flights, in group order, each the flight of its group |
| Normalize.MultiLegPrice | kiwi.py:174-176 | a multi-leg journey costs the sum of its groups' prices, unsplit |
| Normalize.ConvertSingleFlights | kiwi.py:88 | one new journey per round-trip result, in result order, no two of them the same object |
| Normalize.ConvertMultiFlightJourneys | kiwi.py:112 | one new journey per multi-leg result, in result order, no two of them the same object |
| Dicts.Put | kiwi.py:105 | `d[k] = v`: afterwards `k` maps to `v` and every other key keeps its value; an existing key keeps its place, a new key goes last |
| Dicts.Update | kiwi.py:128 | `d.update(e)`: the keys afterwards are the union of both dictionaries' keys |
| Dicts.UpdateGet | kiwi.py:128 | after `d.update(e)`, a key of `e` maps to its value in `e`, and any other key keeps its value in `d` |
| Dicts.ToMap | kiwi.py:142 | the mapping a dictionary denotes holds exactly the dictionary's entries: a key maps to a value in it if and only if that pair is in the dictionary |
| Dicts.SameMapIffSameEntries | kiwi.py:142 | two dictionaries denote the same mapping if and only if they hold the same entries, whatever their insertion order |
| Params.FormatDate | kiwi.py:98-101 | a `%d/%m/%Y` date is 10 characters with slashes at positions 2 and 5 |
| Params.FormatDateRoundTrip | kiwi.py:77 | parsing the DD/MM/YYYY text gives the date back, so distinct dates give distinct parameters |
| Params.WithMaxFlyDuration | kiwi.py:104-105 | `maxFlyDuration` is present if and only if one is given, and then holds it; every other key is unchanged |
| Params.RoundTripParams | kiwi.py:94-105 | the round-trip query; its contents are stated by `RoundTripParamsContents` |
| Params.RoundTripBase | kiwi.py:94-103 | the fixed round-trip parameters are eight entries and do not include `maxFlyDuration` |
| Params.RoundTripParamsContents | kiwi.py:94-105 | the round-trip query holds partner `picky`, both airports, the four dates as DD/MM/YYYY and type `round`; it holds `maxFlyDuration` exactly when one is given; it has 8 or 9 entries |
| Params.LegBase | kiwi.py:119-125 | the fixed one-way parameters do not include `maxFlyDuration` |
| Params.LegDefaultsContents | kiwi.py:118-127 | a leg's defaults hold its airports, its two dates as DD/MM/YYYY and type `oneway`, plus `maxFlyDuration` exactly when one is given |
| Params.LegRequest | kiwi.py:118-128 | one leg's request body entry; its contents are stated by `LegRequestContents` |
| Params.LegRequestContents | kiwi.py:118-128 | a leg's own entries override the defaults; keys the leg does not set keep their default values; `typeFlight` is `oneway` unless the leg sets it; `maxFlyDuration` is present exactly when given for the search or set by the leg |
| Params.FlightsMultiRequests | kiwi.py:116-130 | one request per leg, in leg order, each being that leg's request |
| Client.KeyOf | kiwi.py:142 | the cache key of a call: method, URL, and the parameters and body as the mappings they denote; `KeyIgnoresParamOrder` and `KeyIgnoresBodyOrder` state that key order does not matter and that different entries give different keys |
| Client.Served | kiwi.py:143-156 | how one call is served from a cache: a live entry gives its payload with nothing changed and no upstream call; otherwise exactly one upstream call, a 400–599 status fails and stores nothing, any other status is stored for 3600 s and returned; `Request` ensures it, and `RepeatWithinTtlIsCached` and `RepeatAfterTtlCallsAgain` follow from it |
| Client.KeyIgnoresParamOrder | kiwi.py:142 | two requests that differ only in the parameters share a cache key if and only if their parameters hold the same entries |
| Client.KeyIgnoresBodyOrder | kiwi.py:142 | two multi-leg bodies of equal length share a key if and only if each pair of corresponding requests holds the same entries |
| Client.RepeatWithinTtlIsCached | kiwi.py:143-155 | after a successful miss, the same request within the hour returns the same payload, leaves the cache as it is and adds no upstream call |
| Client.RepeatAfterTtlCallsAgain | kiwi.py:143-155 | after a successful miss, the same request once the hour is over reaches the upstream exactly once more |
| Client.Directory | kiwi.py:138 | the directory's ids are exactly the ids of the listed airlines |
| Client.DirectoryLastWins | kiwi.py:138 | an airline maps to the name of its last listing |
| Client.KiwiApi.constructor | kiwi.py:79-81 | a new client works over the store it connects to, whatever live entries that shared, persistent store already holds, and has made no upstream calls |
| Client.KiwiApi.Request | kiwi.py:140-156 | a live entry returns its payload, with no change and no upstream call; otherwise exactly one upstream call: a 400–599 status fails with that status and leaves the cache unchanged, and any other status stores the payload under the key for 3600 s and returns it |
| Client.KiwiApi.FlightsData | kiwi.py:91-107 | a `get` of `https://api.skypicker.com/flights` with the round-trip parameters, served as `Request` serves it |
| Client.KiwiApi.FlightsMultiData | kiwi.py:115-134 | a `post` of `/flights_multi` with no query parameters, whose body is one request per leg in leg order, served as `Request` serves it |
| Client.KiwiApi.AirlineNames | kiwi.py:136-138 | a `GET` of `/airlines`; a failure is passed on, an airline list becomes its directory, and any other payload is malformed |
| Client.KiwiApi.Flights | kiwi.py:83-89 | a failure is passed on; otherwise each round-trip result becomes a new journey, in order, whose flights are its two split flights, no two journeys the same object |
| Client.KiwiApi.FlightsMulti | kiwi.py:109-113 | the request sent is the `post` of `/flights_multi` whose body is one request per leg, in leg order, served as `Request` serves it; a failure of that reply is passed on, a reply of another shape is malformed, and otherwise each multi-leg result becomes a new journey, in order, with one flight per leg group, no two journeys the same object |
| Text.ZeroPadded | main.py:15 | `{m:02d}`, and the `%d`/`%m` fields of kiwi.py:98-101: exactly `width` characters, all digits; `ZeroPaddedReadsBack` states that they read back as the number when it fits the width |
| Text.IntToString | main.py:15 | `{h:d}` before padding: a minus sign for a negative number, then the decimal digits of the magnitude; `FormatTimeParts` places it, padded, before the `h`, and `FormatTimeHours` reads the hours back from it for non-negative durations |
| Text.PadLeft | main.py:15 | the `2` of `{h:2d}`: right-aligns in a field of the given width with spaces and never truncates; `TrimPadLeft` states that trimming the spaces gives the text back |
| Text.ZeroPaddedReadsBack | main.py:15 | `{m:02d}` on a number below 100 is two digits that read back as the number |
| Text.TrimPadLeft | main.py:15 | `{h:2d}` pads with spaces only: trimming them gives the number's text back |
| Ranking.Hours | main.py:13 | `int(secs / 3600)`: the whole hours in `secs`, rounded toward zero, for either sign |
| Ranking.Minutes | main.py:14 | the minute of the hour is between 0 and 59 for every sign of `secs` |
| Ranking.HoursMinutesBracket | main.py:13-14 | for non-negative `secs`, h hours plus m minutes is at most `secs` and less than one minute short of it |
| Ranking.FormatTime | main.py:12-15 | the text is at least five characters and its third-to-last character is `h` |
| Ranking.FormatTimeParts | main.py:15 | the text is the hours padded to width 2, then `h`, then the minutes zero-padded to two digits |
| Ranking.FormatTimeMinutes | main.py:14-15 | for every duration, the two characters after the `h` are digits that read back as the minutes |
| Ranking.FormatTimeHours | main.py:13-15 | for non-negative `secs`, the text before the `h`, with its padding trimmed, is the decimal rendering of the hours and reads back as the hours |
| Ranking.Surcharge | main.py:54-59 | HEL costs 170, RIX costs 185, and every other airport costs 0 |
| Ranking.TimeCost | main.py:65 | 15 per hour of the journey's duration, in exact reals; `ScoreIsWeightedCost` and `ScoreBounds` state its place in the score |
| Ranking.ScoreComponents | main.py:61-66 | the breakdown has exactly four components |
| Ranking.Sum | main.py:69 | the sum of the components; `SumOfFour` gives it for a four-part breakdown |
| Ranking.Score | main.py:69 | the journey's score, the sum of its four components; `ScoreIsWeightedCost` states it as price plus the two surcharges plus the time cost, and `ScoreBounds` bounds it |
| Ranking.ScoreIsWeightedCost | main.py:61-69 | the score is price, plus the departure surcharge of the first flight, plus the arrival surcharge of the last flight, plus the duration in hours times 15 |
| Ranking.ScoreBounds | main.py:56-69 | the surcharges put the score between price plus time cost and that plus 370 |
| Ranking.JourneyScore | main.py:53-69 | the stored breakdown is replaced by the four components, computed afresh, and the returned score is their sum |
| Ranking.SortJourneys | main.py:72-73 | every journey is scored. The result is a permutation of the input, non-decreasing in score, with equal scores in their input order. Every returned journey carries a breakdown that sums to its score. Sorting the result again changes nothing |
| Sorting.Insert | main.py:73 | inserting adds exactly the one element |
| Sorting.SortBy | main.py:73 | the sort returns a permutation of its input |
| Sorting.WithKeyMember | main.py:73 | an element is in a tie group exactly when it is in the list with that key |
| Sorting.SortIsSorted | main.py:73 | the sort's result is non-decreasing in the key |
| Sorting.SortIsStable | main.py:73 | in the sort's result, every group of equal keys is in input order |
| Sorting.StableSortedOrderIsUnique | main.py:73 | two sorted lists with every tie group in the same order are equal |
| Sorting.SortIsTheStableSort | main.py:73 | any sorted rearrangement that keeps tie groups in input order is the sort's result, so the model is Python's `sorted` and no other order |
| Sorting.SortedIsFixpoint | main.py:73 | an already sorted list sorts to itself |
| Sorting.SortIsIdempotent | main.py:73 | sorting the sorted list again changes nothing |

## Left out

- The HTTP transport (`requests.request`) and the Redis server. They are replaced by the `upstream` function parameter and the in-memory `cache` map. Expiry, which Redis performs, is modelled by the explicit clock `now` and the `Live` predicate.
- The JSON text of the cache key and of cached payloads. The key is modelled as the structured value the sorted-key serialisation denotes. The payload is stored as its decoded value.
- Decoding the upstream JSON. A missing field (`KeyError`) or a non-numeric price string in `float(data['price'])` is not modelled, because payloads are already typed values.
- Timezone conversion in `datetime.fromtimestamp`. Timestamps are integer seconds, taken as they come.
- Floating point. Prices, halves and score components are exact reals, and `int(secs / 3600)` is exact integer division truncated toward zero.
- Ranking.FormatTimeHours: the read-back of the hours is proved for non-negative durations only. For negative ones, the hours text carries a minus sign.
- Params.FormatDate: years are 1 to 9999 as in Python's `date` and always rendered with four digits. Platform-dependent `strftime` behaviour for years below 1000 is not modelled.
- Params.FlightsMultiRequests: `pop`-ing `dates`, `from` and `to` out of the caller's dictionaries is modelled by taking each leg as a `LegSpec` whose `extra` holds the remaining entries. The caller-visible mutation of its own dictionaries is not modelled, and neither is the `KeyError` for a leg missing one of those three keys.
- Ranking.JourneyScore and Ranking.SortJourneys: the `IndexError` Python raises for a journey with no flights, or with a flight without hops, is modelled as the preconditions `Scorable` and `AllScorable`; the error path itself is not modelled.
- The `print` calls in `kiwi.py`, and the whole printing and command-line layer in `main.py` (`print_hops`, `print_journey`, `print_journey_summaries`, the click commands). The breakdown that `print_journey_summaries` asserts on is covered by `SortJourneys`.
- `bookinginfo.py`, which is a network fetch followed by printing.
- A cache-backend outage, which the code does not handle.
