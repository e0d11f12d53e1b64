# Transport notification bot — a verified model

A Telegram bot for Moscow public transport. A user finds a station by sharing a location, by
coordinates or by name. The bot lists the next departures and lets the user subscribe to a
route with a lead time of 5, 10, 15 or 20 minutes. A background cycle then looks up each
active subscription's arrival estimate once a minute. When the estimate equals the lead time,
it sends a notification. Subscriptions can be listed, toggled and deleted from inline buttons.
The bot's web API sits behind a sliding-window rate limiter.

This project models, in Dafny, the parts of the system that decide things:

- `Arrivals`, `Yandex`, `Refactored`: the live schedule provider.
  - Board selection: keep departures after `now`, sort them by departure, take ten or the first of a route.
  - The ceiling-minute arithmetic.
  - The three-variant query fallback. The list path and the estimate path continue under different conditions.
  - The route-activity test, the nearby-station mapping.
  - The id-based service that forwards to the provider, with its two-step station search.
- `Legacy`, `Mosgorpass`, `Geocoding`: the older resolver.
  - The `mgs:` secondary-provider fallback of the estimate. It matches route numbers ignoring case; the primary path matches them exactly.
  - The parsers of secondary-provider stop documents, nested loops with an earliest-time fold.
  - The nearby-stop mapping.
  - The arrival-time message, the two-hour activity window.
  - The geocode retry chains.
- `Subscriptions`, `Users`, `Tables`: the two stores, as classes holding their rows. Ids are assigned the way an identity column assigns them.
- `Notifications`: the notification cycle, as a specification (`Run`) and as the method that updates the store in place.
  - The one-minute debounce.
  - The choice of target.
  - The exact-equality firing rule.
  - The stamping of `LastNotifiedAt`.
  - An exception stops the rest of the cycle.
- `Tokens`, `Commands`, `Menus`, `Bot`: the Telegram front end.
  - The callback-data grammar, with its builders, parsers and round trips.
  - The first-match dispatch of callbacks and text commands.
  - The truncated keyboards and what each button reads back as.
  - Every handler, as a method over the two stores that returns the replies it sends.
- `RateLimit`: the web API's rate limiter, a class over its request map.
- `Text`, `Sequences`, `Options`: the .NET string, LINQ and nullable operations the code relies on.

Time is whole seconds on one clock. `DateTime.MinValue` is instant 0. Each operation receives
the current instant once, as `now`.

Collaborators the code only calls are parameters (functions of their arguments):
- HTTP responses, as datatypes of the outcomes the code distinguishes;
- the geocoders;
- the stop and route catalogue;
- `double.TryParse`.

## Model

| member | source | states |
|---|---|---|
| Text.Trim | TransportBot.Services/Services/TelegramBotService.cs:135 | no longer than the input, and neither end is white space |
| Text.TrimDropsOnlyWhiteSpace | TransportBot.Services/Services/TelegramBotService.cs:135 | the result is a contiguous piece of the input, and only white space is cut from each end |
| Text.TrimIdempotent | TransportBot.Services/Services/TelegramBotService.cs:135 | trimming a trimmed string changes nothing |
| Text.ToLowerIdempotent | TransportBot.Services/Services/TelegramBotService.cs:214 | lower-casing lower-cased text changes nothing |
| Text.ToLower | TransportBot.Services/Services/TelegramBotService.cs:214 | same length, and every character is already folded; `ToLowerIdempotent` follows |
| Text.FoldCharIdempotent | TransportBot.Services/Services/TelegramBotService.cs:214 | folding a folded character changes nothing |
| Text.LowerEqualsIgnoreCase | TransportBot.Services/Services/TelegramBotService.cs:208 | a string equals its lower-cased form ignoring case |
| Text.Split | TransportBot.Services/Services/TelegramBotService.cs:326 | at least one part, and no part contains the delimiter |
| Text.JoinSplit | TransportBot.Services/Services/TelegramBotService.cs:326-330 | joining the parts of a split on the same delimiter restores the string |
| Text.SplitAfterField | TransportBot.Services/Services/TelegramBotService.cs:326 | a field free of the delimiter followed by the delimiter splits off as the first part |
| Text.SplitWithoutDelimiter | TransportBot.Services/Services/TelegramBotService.cs:326 | a string without the delimiter splits into itself alone |
| Text.RemoveAbsent | TransportBot.Services/Services/TelegramBotService.cs:380 | `Replace(w, "")` leaves a string without `w` unchanged |
| Text.RemovePrefixOnly | TransportBot.Services/Services/TelegramBotService.cs:380 | removing a word that occurs only at the front leaves the rest |
| Text.NatToStringValue | TransportBot.Services/Services/TelegramBotService.cs:399 | the digits of a natural number read back as that number |
| Text.IntToStringChars | TransportBot.Services/Services/TelegramBotService.cs:399 | every character of `n.ToString()` is a minus sign or a decimal digit |
| Text.IntToString | TransportBot.Services/Services/TelegramBotService.cs:399 | non-empty, with a leading minus exactly for negative numbers; `NatToStringValue` and `ParseIntToString` read it back |
| Text.ParseInt32 | TransportBot.Services/Services/TelegramBotService.cs:380 | `int.Parse` succeeds only with a value in the 32-bit range |
| Text.ParseIntToString | TransportBot.Services/Services/TelegramBotService.cs:380 | `int.Parse(n.ToString()) == n` for every 32-bit `n` |
| Text.SignAndDigits | TransportBot.Services/Services/TelegramBotService.cs:380 | `n.ToString()` is a minus sign exactly when `n` is negative, then digits whose value is the magnitude of `n` |
| Sequences.Where | TransportBot.Services/Services/YandexApiService.cs:74 | only elements of the input that satisfy the predicate, and every element that satisfies it |
| Sequences.WhereAppend | TransportBot.Services/Services/YandexApiService.cs:74 | filtering distributes over concatenation |
| Sequences.WhereMultiset | TransportBot.Services/Services/YandexApiService.cs:74 | an element satisfying the predicate is kept as often as it occurs; any other element is dropped |
| Sequences.WhereSnoc | TransportBot.Services/Services/YandexApiService.cs:74 | filtering keeps input order: one more element at the end is kept last iff it satisfies the predicate |
| Sequences.SortBy | TransportBot.Services/Services/YandexApiService.cs:75 | `OrderBy` gives a sorted permutation of its input |
| Sequences.SortByMembers | TransportBot.Services/Services/YandexApiService.cs:75 | sorting keeps exactly the elements it was given |
| Sequences.SortByStable | TransportBot.Services/Services/YandexApiService.cs:75 | sorting is stable: elements with equal keys keep their order |
| Sequences.InsertSorted | TransportBot.Services/Services/YandexApiService.cs:75 | inserting into a sorted sequence keeps it sorted |
| Sequences.Take | TransportBot.Services/Services/YandexApiService.cs:76 | a prefix of length `min(n, |s|)` |
| Arrivals.CeilMinutes | TransportBot.Services/Services/YandexApiService.cs:83 | the ceiling of seconds over sixty: `60(m-1) < s <= 60m` |
| Arrivals.MinutesUntil | TransportBot.Services/Services/YandexApiService.cs:153-154 | never negative; at least 1 and the ceiling for a future departure; 0 otherwise |
| Arrivals.MinutesMonotonic | TransportBot.Services/Services/YandexApiService.cs:153-154 | a later departure is never fewer minutes away |
| Arrivals.TransportTypeNameIgnoresCase | TransportBot.Services/Services/YandexApiService.cs:230-241 | the type name does not depend on letter case |
| Arrivals.TransportTypeNames | TransportBot.Services/Services/YandexApiService.cs:230-241 | bus, trolleybus, tram, suburban and metro map to their names in any letter case; a missing or unknown type maps to the fallback |
| Arrivals.TransportTypeName | TransportBot.Services/Services/YandexApiService.cs:230-241 | always one of the six display names; no type gives the fallback |
| Arrivals.ToArrival | TransportBot.Services/Services/YandexApiService.cs:76-84 | an upcoming entry becomes an arrival at its departure, after now and at least a minute away, named after its thread |
| Arrivals.RouteName | TransportBot.Services/Services/YandexApiService.cs:80 | the title when there is one; else the number when there is one; "Маршрут" with neither |
| Arrivals.Upcoming | TransportBot.Services/Services/YandexApiService.cs:74-75 | sorted by departure; only board entries departing after now, and every such entry |
| Arrivals.UpcomingCount | TransportBot.Services/Services/YandexApiService.cs:74-75 | a reordering of the filtered board: each entry departing after now occurs as often as on the board, no other entry occurs |
| Arrivals.UpcomingStable | TransportBot.Services/Services/YandexApiService.cs:75 | `OrderBy` is stable: entries with the same departure keep their board order |
| Arrivals.SelectArrivals | TransportBot.Services/Services/YandexApiService.cs:73-85 | at most ten arrivals, each at least a minute away, in ascending order |
| Arrivals.SelectArrivalsFromBoard | TransportBot.Services/Services/YandexApiService.cs:73-85 | every listed arrival comes from an upcoming board entry |
| Arrivals.SelectArrivalsEarliest | TransportBot.Services/Services/YandexApiService.cs:73-85 | an upcoming entry is left out only when ten earlier-or-equal ones are listed |
| Arrivals.RouteDepartures | TransportBot.Services/Services/YandexApiService.cs:146-149 | sorted by departure; only upcoming entries of the route, and every such entry |
| Arrivals.RouteDeparturesCount | TransportBot.Services/Services/YandexApiService.cs:146-149 | a reordering of the filtered board: each upcoming entry of the route occurs as often as on the board, no other entry occurs |
| Arrivals.RouteDeparturesStable | TransportBot.Services/Services/YandexApiService.cs:147 | departures of the route at the same instant keep their board order |
| Arrivals.NextDeparture | TransportBot.Services/Services/YandexApiService.cs:146-150 | present iff the route has an upcoming entry; then the earliest such entry |
| Arrivals.BoardEta | TransportBot.Services/Services/YandexApiService.cs:146-155 | present iff the route has an upcoming entry; then at least 1 and the minimum over them |
| Arrivals.SelectedRouteHasEta | TransportBot.Services/Services/YandexApiService.cs:73-155 | a route listed among a board's arrivals has an estimate from that board, no later than the listed one |
| Yandex.Responses | TransportBot.Services/Services/YandexApiService.cs:35-41 | the three variants' responses, in the fixed order |
| Yandex.ArrivalsFrom | TransportBot.Services/Services/YandexApiService.cs:43-96 | at most ten arrivals, each at least a minute away, in ascending order |
| Yandex.ArrivalsFromFirstBoard | TransportBot.Services/Services/YandexApiService.cs:66-86 | the first non-empty board decides the list, even if none of it is upcoming |
| Yandex.ArrivalsFromAbort | TransportBot.Services/Services/YandexApiService.cs:98-102 | an exception outside the inner try ends the list path with nothing |
| Yandex.ArrivalsFromExhausted | TransportBot.Services/Services/YandexApiService.cs:95-96 | when every variant is skipped the list is empty |
| Yandex.GetArrivals | TransportBot.Services/Services/YandexApiService.cs:31-103 | the loop returns `ArrivalsFrom`; it queries a prefix of the variants ending at the first one not skipped |
| Yandex.ResponseEta | TransportBot.Services/Services/YandexApiService.cs:139-155 | only a non-empty board gives an estimate, and it is that board's `BoardEta` |
| Yandex.EtaScan | TransportBot.Services/Services/YandexApiService.cs:117-164 | a found estimate is at least one minute |
| Yandex.EtaScanExhausted | TransportBot.Services/Services/YandexApiService.cs:117-164 | when every variant misses, the scan is exhausted |
| Yandex.EtaScanFirstMatch | TransportBot.Services/Services/YandexApiService.cs:146-155 | the first board with an upcoming departure of the route decides the estimate |
| Yandex.EtaScanAbort | TransportBot.Services/Services/YandexApiService.cs:166-170 | an exception before a match aborts the scan |
| Yandex.EtaMinutesSentinel | TransportBot.Services/Services/YandexApiService.cs:164-169 | the minutes are -1 iff no board before an exception lists the route, and at least 1 otherwise |
| Yandex.ScanVariants | TransportBot.Services/Services/YandexApiService.cs:117-162 | the loop ends as `EtaScan` says; it queries a prefix of the variants ending at the first one that does not miss |
| Yandex.GetMinutesUntilArrival | TransportBot.Services/Services/YandexApiService.cs:105-171 | the scan's minutes; always -1 or at least 1 |
| Yandex.ListedRouteHasEta | TransportBot.Services/Services/YandexApiService.cs:73-155 | a route among the listed arrivals has an estimate no later than the listed one |
| Yandex.IsRouteActive | TransportBot.Services/Services/YandexApiService.cs:173-185 | true iff some listed arrival carries exactly that route number; then the estimate path finds it |
| Yandex.NearbyRadius | TransportBot.Services/Services/YandexApiService.cs:193 | `max(distance, 2000)` |
| Yandex.ToExternalStation | TransportBot.Services/Services/YandexApiService.cs:202-210 | a missing code or title becomes ""; the other fields pass through |
| Yandex.NearbyStations | TransportBot.Services/Services/YandexApiService.cs:198-221 | nothing on failure or a missing array; otherwise one station per element, in order |
| Yandex.GetNearbyStations | TransportBot.Services/Services/YandexApiService.cs:187-228 | the oracle is asked with the requested radius when it is at least 2000 m, else with 2000 m, and its stations are mapped |
| Yandex.NearbyRadiusFloor | TransportBot.Services/Services/YandexApiService.cs:193 | every radius up to 2000 gives the same stations |
| Refactored.GetMinutesUntilArrivalById | TransportBot.Services/Services/RefactoredTransportApiService.cs:23-26 | route id becomes the route number and stop id the station code; -1 or at least 1 |
| Refactored.GetArrivalsById | TransportBot.Services/Services/RefactoredTransportApiService.cs:28-31 | the list of the station whose code is the decimal id |
| Refactored.IsRouteActiveById | TransportBot.Services/Services/RefactoredTransportApiService.cs:33-36 | asks about station "default" whatever the id |
| Refactored.IdsStayDistinct | TransportBot.Services/Services/RefactoredTransportApiService.cs:23-31 | distinct ids address distinct codes |
| Refactored.Geocode | TransportBot.Services/Services/RefactoredTransportApiService.cs:87-91 | present iff the service resolves the query, with its coordinates |
| Refactored.SearchResult | TransportBot.Services/Services/RefactoredTransportApiService.cs:53-85 | nothing for a blank query or two failed geocodes; the query first, "Москва q" only after it fails; radius 5000 |
| Refactored.SearchStations | TransportBot.Services/Services/RefactoredTransportApiService.cs:53-85 | the stations `SearchResult` gives; no geocoder call for a blank query, otherwise the retry chain's attempts |
| Geocoding.FirstSuccess | TransportBot.Services/Services/TransportApiService.cs:596-616 | present iff some query resolves; then the first resolved one's result |
| Geocoding.Attempts | TransportBot.Services/Services/TransportApiService.cs:607-614 | the queries sent: a prefix ending at the first success, all of them when none succeeds |
| Geocoding.FirstSuccessAt | TransportBot.Services/Services/TransportApiService.cs:607-614 | when query n is the first to resolve, its result after n+1 attempts |
| Geocoding.FirstSuccessNone | TransportBot.Services/Services/TransportApiService.cs:616 | when none resolves, failure after trying all |
| Geocoding.FirstSuccessExtend | TransportBot.Services/Services/TransportApiService.cs:350-366 | after failures, the next query is tried |
| Geocoding.FirstSuccessDecided | TransportBot.Services/Services/TransportApiService.cs:350-366 | once one resolves, later queries are never sent |
| Geocoding.InTurnNext | TransportBot.Services/Services/TransportApiService.cs:350-366 | a loop step after a failure keeps the chain invariant |
| Geocoding.InTurnDone | TransportBot.Services/Services/TransportApiService.cs:350-366 | a stopped chain returned `FirstSuccess` after `Attempts` |
| Legacy.FirstMatch | TransportBot.Services/Services/TransportApiService.cs:132 | the first arrival whose number equals the route ignoring case; none iff no such arrival |
| Legacy.FirstMatchIgnoresCase | TransportBot.Services/Services/TransportApiService.cs:132 | the fallback's match does not depend on the requested route's case |
| Legacy.PrimaryMatchIsCaseSensitive | TransportBot.Services/Services/TransportApiService.cs:112-116 | the primary path does not find "A1" when asked for "a1" |
| Legacy.LegacyEta | TransportBot.Services/Services/TransportApiService.cs:71-144 | -1 or not negative; a scan that found minutes returns them and an aborted scan -1; a non-`mgs:` code never consults the secondary provider; after every variant missed, a `mgs:` code gets the minutes of the first secondary arrival of the route, or -1 |
| Legacy.LegacyEtaFallbackEarliest | TransportBot.Services/Services/TransportApiService.cs:129-136 | after every variant missed, a `mgs:` code gets -1 iff the secondary provider lists no arrival of the route, else the minutes of one of them, no more than any other |
| Legacy.FirstMatchEarliest | TransportBot.Services/Services/TransportApiService.cs:131-134 | on arrivals sorted by minutes, the first of the route has the fewest minutes of the route; -1 iff there is none |
| Legacy.FirstMatchNoLater | TransportBot.Services/Services/TransportApiService.cs:131-134 | on a list sorted by minutes, the first arrival of the route is due no later than any other of the route |
| Legacy.NonMgsIgnoresSecondary | TransportBot.Services/Services/TransportApiService.cs:129-137 | outside the `mgs:` namespace the answer is the same for every secondary provider |
| Legacy.GetMinutesUntilArrival | TransportBot.Services/Services/TransportApiService.cs:71-144 | returns `LegacyEta`; the secondary provider is asked iff every variant missed and the code is `mgs:` |
| Legacy.MetroEta | TransportBot.Services/Services/TransportApiService.cs:146-183 | one metro query, no fallback; -1 or the board's estimate |
| Legacy.GetArrivalsById | TransportBot.Services/Services/TransportApiService.cs:258-261 | the list of the decimal id |
| Legacy.ArrivingNowTextIsDistinct | TransportBot.Services/Services/TransportApiService.cs:58-67 | no other message reads "arriving now" |
| Legacy.ArrivalTime | TransportBot.Services/Services/TransportApiService.cs:32-69 | an exception or undecodable body gives the lookup-failed notice, a failed status the no-data notice |
| Legacy.ArrivalTimeMatchesEta | TransportBot.Services/Services/TransportApiService.cs:49-58 | the message names the board's estimate; with one clock reading "arriving now" cannot occur |
| Legacy.IsRouteActiveById | TransportBot.Services/Services/TransportApiService.cs:263-288 | corrected: true iff the search lists the route departing within the next two hours, both ends excluded |
| Legacy.ActiveRouteDueWithinTwoHours | TransportBot.Services/Services/TransportApiService.cs:274-277 | an active route has a departure between 1 and 120 minutes away |
| Legacy.DecodeSearchAsWritten | TransportBot.Services/Services/TransportApiService.cs:271-272 | as written, a decoded response lists no segment: one that lists any fails to decode |
| Legacy.RouteNeverActiveAsWritten | TransportBot.Services/Services/TransportApiService.cs:263-288 | as written, no search response makes any route active |
| Legacy.IsRouteActiveAsWritten | TransportBot.Services/Services/TransportApiService.cs:263-288 | as written, a route is active only when the corrected check also finds it active |
| Legacy.RouteActivityLostAsWritten | TransportBot.Services/Services/TransportApiService.cs:263-288 | route 7 departing in one minute is active by the corrected check and inactive as written |
| Legacy.Rewrites | TransportBot.Services/Services/TransportApiService.cs:607-614 | only alternatives different from the query are sent |
| Legacy.Stripped | TransportBot.Services/Services/TransportApiService.cs:604 | no longer than the query and already trimmed |
| Legacy.Alternatives | TransportBot.Services/Services/TransportApiService.cs:599-605 | four rewrites, the first three of which always differ from the query; `GeocodeQueriesShape` gives their order |
| Legacy.RewritesAppend | TransportBot.Services/Services/TransportApiService.cs:607-614 | the rewrite filter distributes over concatenation |
| Legacy.GeocodeQueries | TransportBot.Services/Services/TransportApiService.cs:596-614 | the original query first, then only queries that differ from it |
| Legacy.RewritesOfFour | TransportBot.Services/Services/TransportApiService.cs:599-614 | when the first three of four alternatives differ from the query, all three are sent, and the fourth only if it differs too |
| Legacy.GeocodeQueriesShape | TransportBot.Services/Services/TransportApiService.cs:596-614 | the query, ", Москва", "станция ", "метро ", then the stripped query only when it differs |
| Legacy.PlainQuerySkipsStripped | TransportBot.Services/Services/TransportApiService.cs:604-609 | a trimmed query naming neither word is sent four times at most |
| Legacy.Geocode | TransportBot.Services/Services/TransportApiService.cs:590-623 | nothing for an empty query; the original's result when it resolves; otherwise some chain query's result |
| Legacy.RewritesStep | TransportBot.Services/Services/TransportApiService.cs:607-614 | the rewrites after k+1 alternatives extend those after k |
| Legacy.PendingSkip | TransportBot.Services/Services/TransportApiService.cs:609 | an alternative equal to the query is skipped |
| Legacy.PendingSend | TransportBot.Services/Services/TransportApiService.cs:609-612 | a differing alternative is the next query sent |
| Legacy.GeocodeAsync | TransportBot.Services/Services/TransportApiService.cs:590-623 | returns `Geocode`; no query for an empty input, else exactly the chain's attempts |
| Legacy.LegacySearchResult | TransportBot.Services/Services/TransportApiService.cs:339-390 | nothing for a blank query or when all four queries fail to geocode; when the query itself geocodes, the stations within 10000 m of that point |
| Legacy.LegacySearchFallback | TransportBot.Services/Services/TransportApiService.cs:348-366 | the first of the four queries that geocodes decides the result: the stations within 10000 m of its point |
| Legacy.SearchStations | TransportBot.Services/Services/TransportApiService.cs:339-390 | returns `LegacySearchResult`; geocodes the four queries in turn until one resolves |
| Legacy.GeocodeInTurn | TransportBot.Services/Services/TransportApiService.cs:348-366 | each query is geocoded only while every earlier one failed |
| Mosgorpass.Earlier | TransportBot.Services/Services/TransportApiService.cs:548 | the kept time is no later than the candidate or the previous one, and is one of them |
| Mosgorpass.EarliestArrival | TransportBot.Services/Services/TransportApiService.cs:544-554 | fails iff some element throws; otherwise the minimum of the element times |
| Mosgorpass.ArrivalItemTime | TransportBot.Services/Services/TransportApiService.cs:544-553 | a non-string non-object element throws; a parsed string gives its time; a time comes only from a parsed string or a `time` string |
| Mosgorpass.RouteNearest | TransportBot.Services/Services/TransportApiService.cs:541-563 | only the `arrivals` walk can throw, a time needs one of the arrays, and without `arrivals` the `times` walk gives the earliest parsed string |
| Mosgorpass.EarliestTime | TransportBot.Services/Services/TransportApiService.cs:558-564 | the minimum of the parsed strings |
| Mosgorpass.MgsArrival | TransportBot.Services/Services/TransportApiService.cs:569-578 | bus route; minutes not negative, zero iff the time has passed; estimate = now + minutes |
| Mosgorpass.RouteStep | TransportBot.Services/Services/TransportApiService.cs:539-579 | throws iff the element is not an object, its number is not text, or a non-blank number's times throw; a non-blank number with a nearest time yields exactly its normalised arrival |
| Mosgorpass.CollectRoutes | TransportBot.Services/Services/TransportApiService.cs:537-580 | at most one arrival per route, each normalised |
| Mosgorpass.YieldsSnoc | TransportBot.Services/Services/TransportApiService.cs:537-580 | what the routes yield, one more route at the end adds its own yield last |
| Mosgorpass.CollectRoutesNoFault | TransportBot.Services/Services/TransportApiService.cs:537-580 | when no route throws, the loop completes with what every route yields, in route order |
| Mosgorpass.CollectRoutesUntilFault | TransportBot.Services/Services/TransportApiService.cs:537-587 | the loop collects, in order, what the routes before the first throwing one yield, and stops iff one throws |
| Mosgorpass.CollectAfterStop | TransportBot.Services/Services/TransportApiService.cs:583-586 | after an exception, later routes change nothing |
| Mosgorpass.ArrivalsOfStop | TransportBot.Services/Services/TransportApiService.cs:528-588 | sorted by minutes, all normalised, a reordering of the collected arrivals; nothing for a malformed document |
| Mosgorpass.ArrivalsOfStopYields | TransportBot.Services/Services/TransportApiService.cs:528-588 | the parser returns exactly, reordered, what the routes before the first throwing one yield |
| Mosgorpass.PastTimeKept | TransportBot.Services/Services/TransportApiService.cs:569-577 | a route whose only time has passed yields an arrival due in 0 minutes |
| Mosgorpass.FaultKeepsEarlierRoutes | TransportBot.Services/Services/TransportApiService.cs:583-587 | an exception keeps the arrivals before it, drops those after and ends the loop |
| Mosgorpass.NearestOfArrivals | TransportBot.Services/Services/TransportApiService.cs:544-554 | the loop computes `EarliestArrival` |
| Mosgorpass.NearestOfTimes | TransportBot.Services/Services/TransportApiService.cs:558-564 | the loop computes `EarliestTime` |
| Mosgorpass.ParseRoute | TransportBot.Services/Services/TransportApiService.cs:539-579 | the loop body computes `RouteStep` |
| Mosgorpass.ParseMosgorpassArrivals | TransportBot.Services/Services/TransportApiService.cs:528-588 | the nested loops compute `ArrivalsOfStop` |
| Mosgorpass.StopId | TransportBot.Services/Services/TransportApiService.cs:495-496 | the code without its "mgs:" prefix |
| Mosgorpass.MgsArrivals | TransportBot.Services/Services/TransportApiService.cs:490-526 | nothing outside the namespace; else the first non-empty endpoint parse |
| Mosgorpass.MgsArrivalsSorted | TransportBot.Services/Services/TransportApiService.cs:587 | the fetched list is sorted by minutes, none negative |
| Mosgorpass.TryEndpoint | TransportBot.Services/Services/TransportApiService.cs:510-512 | one attempt: a failed status gives nothing, a body gives the parser's list (`EndpointArrivals`) |
| Mosgorpass.TryGetMosgorpassArrivals | TransportBot.Services/Services/TransportApiService.cs:490-526 | returns `MgsArrivals`; the second endpoint is asked only when the first gave nothing |
| Mosgorpass.StationOf | TransportBot.Services/Services/TransportApiService.cs:448-456 | code "mgs:"+id, the name, type bus, distance 0 |
| Mosgorpass.StationsOf | TransportBot.Services/Services/TransportApiService.cs:446-457 | at most one station per element |
| Mosgorpass.CompleteStations | TransportBot.Services/Services/TransportApiService.cs:440-458 | at most one station per element |
| Mosgorpass.CompleteStationsAppend | TransportBot.Services/Services/TransportApiService.cs:440-458 | the mapping extends element by element |
| Mosgorpass.CollectNearby | TransportBot.Services/Services/TransportApiService.cs:440-458 | at most one station per element |
| Mosgorpass.CollectNearbyComplete | TransportBot.Services/Services/TransportApiService.cs:440-487 | the loop runs to the end iff no element throws; then it has the complete elements in order |
| Mosgorpass.NearbyWithoutFaults | TransportBot.Services/Services/TransportApiService.cs:431-488 | with no faulty element, exactly the complete elements in input order |
| Mosgorpass.ParseMosgorpassNearby | TransportBot.Services/Services/TransportApiService.cs:431-488 | the loop computes `NearbyOfDocument`: the stations collected before any exception |
| Mosgorpass.NearbyAfterStop | TransportBot.Services/Services/TransportApiService.cs:483-487 | after an exception, later elements change nothing |
| Tables.Find | TransportBot.Infrastructure/Repositories/SubscriptionRepository.cs:23 | present iff some row has the key; then a row with that key |
| Tables.FindUnique | TransportBot.Infrastructure/Repositories/SubscriptionRepository.cs:23 | under unique keys a row is what its key finds |
| Tables.FindAppend | TransportBot.Infrastructure/Repositories/SubscriptionRepository.cs:45-48 | an appended row is found only when its key was new |
| Tables.Without | TransportBot.Infrastructure/Repositories/SubscriptionRepository.cs:57-65 | exactly the rows with other keys, none added |
| Tables.WithoutAbsent | TransportBot.Infrastructure/Repositories/SubscriptionRepository.cs:60 | deleting a missing key changes nothing |
| Tables.HeadKeyFresh | TransportBot.Infrastructure/Repositories/SubscriptionRepository.cs:57-65 | under unique keys no later row shares the first row's key |
| Tables.WithoutUnique | TransportBot.Infrastructure/Repositories/SubscriptionRepository.cs:57-65 | deletion keeps keys unique |
| Tables.WithoutUniqueOn | TransportBot.Infrastructure/Data/TransportDbContext.cs:64-66 | deleting by one key keeps a second unique index unique |
| Tables.AppendUnique | TransportBot.Infrastructure/Data/TransportDbContext.cs:64-66 | appending a record whose key is absent keeps the index unique |
| Tables.ReplaceUniqueOn | TransportBot.Infrastructure/Data/TransportDbContext.cs:64-66 | an update that keeps a record's second key keeps that index unique |
| Tables.ReplaceLast | TransportBot.Services/Services/UserService.cs:37-68 | updating a just-appended record whose key no earlier record has changes only that record |
| Tables.WithoutPresent | TransportBot.Infrastructure/Repositories/SubscriptionRepository.cs:57-65 | deleting a present key removes exactly one row |
| Tables.Replace | TransportBot.Infrastructure/Repositories/SubscriptionRepository.cs:51-55 | same length and keys; rows with other keys unchanged |
| Tables.ReplaceFind | TransportBot.Infrastructure/Repositories/SubscriptionRepository.cs:51-55 | update keeps keys unique and its key then finds the new row |
| Tables.ReplaceFindRec | TransportBot.Infrastructure/Repositories/SubscriptionRepository.cs:51-55 | a lookup after an update finds the new row for its key, the old row for others |
| Tables.FindReplace | TransportBot.Infrastructure/Repositories/UserRepository.cs:42-46 | a lookup by a second key after an update that keeps that key finds the updated row |
| Subscriptions.ToggledChangesOnlyActive | TransportBot.Services/Services/SubscriptionService.cs:58-67 | only the flag of the record with that id changes |
| Subscriptions.Toggled | TransportBot.Services/Services/SubscriptionService.cs:58-67 | same length and ids; a missing id leaves the table unchanged; `ToggledChangesOnlyActive` says only that record's flag changes |
| Subscriptions.ToggledIdempotent | TransportBot.Services/Services/SubscriptionService.cs:64-65 | toggling twice to one value equals toggling once |
| Subscriptions.Active | TransportBot.Infrastructure/Repositories/SubscriptionRepository.cs:35-43 | filtered with the named predicate `IsActive`; counted and ordered by the two lemmas below |
| Subscriptions.ActiveCount | TransportBot.Infrastructure/Repositories/SubscriptionRepository.cs:41 | each active record is listed as often as it is stored, no inactive one is |
| Subscriptions.ActiveSnoc | TransportBot.Infrastructure/Repositories/SubscriptionRepository.cs:35-43 | table order is kept: a record stored last is listed last when active |
| Subscriptions.OfUser | TransportBot.Infrastructure/Repositories/SubscriptionRepository.cs:26-33 | only records of that user, and every one of them |
| Subscriptions.OfUserCount | TransportBot.Infrastructure/Repositories/SubscriptionRepository.cs:31 | each record of the user is listed as often as it is stored, no other user's is |
| Subscriptions.OfUserSnoc | TransportBot.Infrastructure/Repositories/SubscriptionRepository.cs:26-33 | table order is kept: a record stored last is listed last when it is the user's |
| Subscriptions.SubscriptionStore.constructor | TransportBot.Infrastructure/Repositories/SubscriptionRepository.cs:12-15 | an empty table |
| Subscriptions.SubscriptionStore.GetSubscription | TransportBot.Services/Services/SubscriptionService.cs:53-56 | present iff a record has the id; then that record |
| Subscriptions.SubscriptionStore.Add | TransportBot.Infrastructure/Repositories/SubscriptionRepository.cs:45-49 | appends the record with the next identity |
| Subscriptions.SubscriptionStore.CreateSubscription | TransportBot.Services/Services/SubscriptionService.cs:15-19 | stores the record unchanged except the id, with no validation; it is then found |
| Subscriptions.SubscriptionStore.CreateSubscriptionById | TransportBot.Services/Services/SubscriptionService.cs:21-36 | stores an active record with these ids and minutes, never notified |
| Subscriptions.SubscriptionStore.DeleteSubscription | TransportBot.Services/Services/SubscriptionService.cs:43-51 | false and no change for a missing id; else exactly that record removed |
| Subscriptions.SubscriptionStore.UpdateSubscription | TransportBot.Infrastructure/Repositories/SubscriptionRepository.cs:51-55 | replaces the record with that id, which is then found |
| Subscriptions.SubscriptionStore.ToggleSubscription | TransportBot.Services/Services/SubscriptionService.cs:58-67 | false for a missing id; the rows become `Toggled` |
| Subscriptions.SubscriptionStore.UserSubscriptions | TransportBot.Services/Services/SubscriptionService.cs:38-41 | the user's records as `OfUser` lists them: only theirs, and all of them |
| Users.Merge | TransportBot.Services/Services/UserService.cs:61-63 | each of name, latitude, longitude replaced only by a present argument |
| Users.UserStore.constructor | TransportBot.Infrastructure/Repositories/UserRepository.cs:12-15 | an empty table |
| Users.UserStore.GetUser | TransportBot.Services/Services/UserService.cs:27-30 | present iff a user has the id |
| Users.UserStore.GetUserByTelegramId | TransportBot.Services/Services/UserService.cs:32-35 | present iff a user has the Telegram id, then a user with it (the only one, since `Valid` keeps the Telegram id unique) |
| Users.UserStore.Register | TransportBot.Services/Services/UserService.cs:37-54 | an existing user is returned with nothing added; else exactly one new user with that id and name; the table and next id are those `AfterRegister` gives; the Telegram id stays unique |
| Users.AfterRegister | TransportBot.Services/Services/UserService.cs:37-54 | registration keeps every existing record in place, and afterwards the account is found; a known account's user is the one found before |
| Users.AppendValid | TransportBot.Services/Services/UserService.cs:37-54 | appending a new account under the next id keeps ids and Telegram ids unique and below the next id |
| Users.UserStore.Update | TransportBot.Services/Services/UserService.cs:56-67 | a missing id fails with no change; else the merged record replaces the old |
| Users.UserStore.Delete | TransportBot.Services/Services/UserService.cs:22-25 | a missing id is a no-op; else exactly that user removed |
| Notifications.Debounced | TransportBot.Services/Services/NotificationService.cs:34-36 | a record stamped at this very instant is skipped; a never-notified one is not, once the clock is past the window |
| Notifications.Fires | TransportBot.Services/Services/NotificationService.cs:34-49 | a firing record is not debounced, and one without a target fires only with the lead of -1 |
| Notifications.Visit | TransportBot.Services/Services/NotificationService.cs:34-55 | a stopped cycle stays as it is; a visit adds at most one lookup and, only when the record fires, one notice; the store keeps its size; it stops only on a firing record whose save fails or that is gone |
| Notifications.Run | TransportBot.Services/Services/NotificationService.cs:32-56 | the store keeps its size; at most one lookup and one notice per record of the snapshot |
| Notifications.TargetOf | TransportBot.Services/Services/NotificationService.cs:38-47 | external iff both external fields are non-blank; else internal iff both ids set |
| Notifications.Eta | TransportBot.Services/Services/NotificationService.cs:37-47 | -1 without a target, otherwise the target's lookup |
| Notifications.StoppedStaysStopped | TransportBot.Services/Services/NotificationService.cs:28-61 | once an exception stops the cycle, later subscriptions change nothing |
| Notifications.RunStep | TransportBot.Services/Services/NotificationService.cs:32-56 | one more subscription of the snapshot is one more visit |
| Notifications.RunExaminesSnapshot | TransportBot.Services/Services/NotificationService.cs:30-56 | only subscriptions of the snapshot are looked up or notified, and only undebounced ones |
| Notifications.StampStep | TransportBot.Services/Services/NotificationService.cs:49-55 | one more visit keeps the invariant that exactly the firing records visited so far are stamped |
| Notifications.RunWithoutFailures | TransportBot.Services/Services/NotificationService.cs:32-56 | with no failed save the cycle completes, notifies each firing one in order and stamps exactly those |
| Notifications.CycleOverActive | TransportBot.Services/Services/NotificationService.cs:30-56 | over the active records: the firing ones notified and stamped, the rest unchanged |
| Notifications.LiveFiring | TransportBot.Services/Services/NotificationService.cs:49 | a lead of 0 or below -1 never fires; a lead of -1 fires without a target |
| Notifications.VisitSubscription | TransportBot.Services/Services/NotificationService.cs:34-55 | one loop turn updates the store as `Visit` says |
| Notifications.CheckAndSendNotifications | TransportBot.Services/Services/NotificationService.cs:26-62 | the store and the sent notices are those of `Run` over the active records |
| Tokens.StationTokenRoundTrip | TransportBot.Services/Services/TelegramBotService.cs:299-301 | `Substring(4)` of "yst_"+code gives any code back |
| Tokens.StationToken | TransportBot.Services/Services/TelegramBotService.cs:59 | the token starts with `yst_`, the prefix the handler tests, and is four characters longer than the code; `StationTokenRoundTrip` reads the code back |
| Tokens.ParseRouteToken | TransportBot.Services/Services/TelegramBotService.cs:326-330 | fails iff the split has fewer than three parts; the code read has no '_' |
| Tokens.ParseNotifyTokenAsWritten | TransportBot.Services/Services/TelegramBotService.cs:353-358 | too few parts iff the split has fewer than four; a parse yields a code and route without '_' and 32-bit minutes |
| Tokens.ParseIdToken | TransportBot.Services/Services/TelegramBotService.cs:380 | an id parsed is a 32-bit integer |
| Tokens.ParseRouteChoiceToken | TransportBot.Services/Services/TelegramBotService.cs:411-415 | a missing part iff the split has fewer than three; both ids parsed are 32-bit |
| Tokens.ParseInternalNotifyToken | TransportBot.Services/Services/TelegramBotService.cs:434-439 | a missing part iff the split has fewer than four; the ids and minutes parsed are 32-bit |
| Tokens.RouteTokenRoundTrip | TransportBot.Services/Services/TelegramBotService.cs:324-330 | the `yrt_` parse gives back code and route when the code has no '_' |
| Tokens.RouteToken | TransportBot.Services/Services/TelegramBotService.cs:180 | the token starts with `yrt_` and adds five characters to code and route; `RouteTokenRoundTrip` reads them back |
| Tokens.NotifyTokenAsWrittenRoundTrip | TransportBot.Services/Services/TelegramBotService.cs:351-358 | the parse as written gives the token back when neither code nor route has '_' |
| Tokens.NotifyTokenAsWrittenSplitsRoute | TransportBot.Services/Services/TelegramBotService.cs:353-358 | the parse as written reads route "A_5" at 10 minutes as route "A" at 5 |
| Tokens.NotifyTokenParts | TransportBot.Services/Services/TelegramBotService.cs:344-353 | the parts of a `ynotify_` token |
| Tokens.NotifyTokenRoundTrip | TransportBot.Services/Services/TelegramBotService.cs:344-358 | the corrected parse gives back every token whose code has no '_' |
| Tokens.NotifyToken | TransportBot.Services/Services/TelegramBotService.cs:344-345 | the token starts with `ynotify_`; `NotifyTokenAsWrittenRoundTrip` and `NotifyTokenRoundTrip` read it back |
| Tokens.ParseNotifyToken | TransportBot.Services/Services/TelegramBotService.cs:344-358 | corrected parse: too few parts iff the split has fewer than four; a parse yields a code without '_' and 32-bit minutes; `NotifyTokenRoundTrip` gives back every token whose code has no '_' |
| Tokens.ExternalLeadButtons | TransportBot.Services/Services/TelegramBotService.cs:344-345 | four buttons, one per lead time |
| Tokens.ExternalLeadButtonsOfferLeadTimes | TransportBot.Services/Services/TelegramBotService.cs:344-358 | for a code and route without '_', the handler's parse as written reads the buttons back as 5, 10, 15 and 20 minutes for that station and route |
| Tokens.IdTokenRoundTrip | TransportBot.Services/Services/TelegramBotService.cs:380 | `int.Parse(data.Replace(word, ""))` gives back any 32-bit id |
| Tokens.IdToken | TransportBot.Services/Services/TelegramBotService.cs:572-573 | the token starts with its word and carries at least one more character; `IdTokenRoundTrip` reads the id back |
| Tokens.RouteChoiceTokenRoundTrip | TransportBot.Services/Services/TelegramBotService.cs:399-415 | the `route_` parse gives back both ids |
| Tokens.RouteChoiceToken | TransportBot.Services/Services/TelegramBotService.cs:399 | the token starts with `route_`, the prefix the handler tests; `RouteChoiceTokenRoundTrip` reads both ids back |
| Tokens.InternalNotifyTokenRoundTrip | TransportBot.Services/Services/TelegramBotService.cs:427-439 | the `notify_` parse gives back both ids and the minutes |
| Tokens.InternalNotifyToken | TransportBot.Services/Services/TelegramBotService.cs:427-428 | the token starts with `notify_`; `InternalNotifyTokenRoundTrip` reads ids and minutes back |
| Tokens.InternalLeadButtons | TransportBot.Services/Services/TelegramBotService.cs:427-428 | four buttons, one per lead time |
| Tokens.InternalLeadButtonsOfferLeadTimes | TransportBot.Services/Services/TelegramBotService.cs:427-428 | the buttons read back as exactly 5, 10, 15 and 20 minutes for that stop and route |
| Commands.ParseCommand | TransportBot.Services/Services/TelegramBotService.cs:131-233 | search, diagnosis, station and set-location need their prefix ignoring case and carry trimmed arguments; not understood iff no prefix, `/nearby` or menu command matches ignoring case |
| Commands.ParseCallback | TransportBot.Services/Services/TelegramBotService.cs:291-526 | unknown iff the data is neither a known word nor starts with a known prefix |
| Commands.StationBranch | TransportBot.Services/Services/TelegramBotService.cs:299-301 | data starting "yst_" shows the station after the prefix |
| Commands.RouteBranch | TransportBot.Services/Services/TelegramBotService.cs:324-330 | data starting "yrt_" is read by the route parse |
| Commands.NotifyBranch | TransportBot.Services/Services/TelegramBotService.cs:351-358 | data starting "ynotify_" is read by the notify parse as written |
| Commands.StopBranch | TransportBot.Services/Services/TelegramBotService.cs:378-380 | data starting "stop_" is read by the id parse |
| Commands.ChoiceBranch | TransportBot.Services/Services/TelegramBotService.cs:411-415 | data starting "route_" is read by the route-choice parse |
| Commands.InternalNotifyBranch | TransportBot.Services/Services/TelegramBotService.cs:434-439 | data starting "notify_" is read by the internal notify parse |
| Commands.DeleteBranch | TransportBot.Services/Services/TelegramBotService.cs:493-495 | data starting "delete_" is read by the id parse |
| Commands.ToggleBranch | TransportBot.Services/Services/TelegramBotService.cs:507-509 | data starting "toggle_" is read by the id parse |
| Commands.StationTokenDispatch | TransportBot.Services/Services/TelegramBotService.cs:59 | a station button asks for that station |
| Commands.RouteTokenDispatch | TransportBot.Services/Services/TelegramBotService.cs:313 | a departure button asks for that route at that station |
| Commands.NotifyTokenDispatch | TransportBot.Services/Services/TelegramBotService.cs:344-358 | a lead-time button whose code and route have no '_' subscribes to that station, route and lead |
| Commands.NotifyTokenDispatchSplitsRoute | TransportBot.Services/Services/TelegramBotService.cs:351-358 | the button for route "A_5" at 10 minutes subscribes to route "A" at 5 minutes |
| Commands.StopTokenDispatch | TransportBot.Services/Services/TelegramBotService.cs:378-380 | a stop button asks for that stop |
| Commands.RouteChoiceTokenDispatch | TransportBot.Services/Services/TelegramBotService.cs:399-415 | a route button chooses that route at that stop |
| Commands.InternalNotifyTokenDispatch | TransportBot.Services/Services/TelegramBotService.cs:427-439 | an internal lead button subscribes to that stop, route and lead |
| Commands.SubscriptionTokenDispatch | TransportBot.Services/Services/TelegramBotService.cs:572-573 | toggle and delete buttons act on that subscription |
| Commands.Words | TransportBot.Services/Services/TelegramBotService.cs:193 | the pieces kept are non-empty and trimmed |
| Commands.WordOf | TransportBot.Services/Services/TelegramBotService.cs:193 | a piece is kept iff its trim is not empty, and then as its trim |
| Commands.WordsOfOne | TransportBot.Services/Services/TelegramBotService.cs:193 | one piece gives its own word, if any |
| Commands.WordsSnoc | TransportBot.Services/Services/TelegramBotService.cs:193 | the words keep piece order: a last piece adds its word last |
| Commands.SearchArgument | TransportBot.Services/Services/TelegramBotService.cs:133-137 | `/search` and anything after it searches for the trimmed rest |
| Commands.DiagArgument | TransportBot.Services/Services/TelegramBotService.cs:139-141 | `/diag_station` and anything after it diagnoses the trimmed rest |
| Commands.StationArgument | TransportBot.Services/Services/TelegramBotService.cs:162-164 | `/station` and anything after it asks for the trimmed rest |
| Commands.NearbyCommand | TransportBot.Services/Services/TelegramBotService.cs:208-212 | `/nearby` in any letter case asks for nearby stations |
| Commands.NotPrefixIgnoringCase | TransportBot.Services/Services/TelegramBotService.cs:133 | a differing folded character rules out a case-insensitive prefix |
| Commands.SwitchCommand | TransportBot.Services/Services/TelegramBotService.cs:214-233 | each menu command is recognised in any letter case |
| Menus.BuildStationMenu | TransportBot.Services/Services/TelegramBotService.cs:52-60 | the loop builds `StationMenu` |
| Menus.StationMenu | TransportBot.Services/Services/TelegramBotService.cs:52-60 | one single-button `yst_` row for each of the first ten stations; `StationMenuDispatch` says which station each asks for |
| Menus.DepartureMenu | TransportBot.Services/Services/TelegramBotService.cs:173-182 | one single-button `yrt_` row for each of the first eight arrivals; `DepartureMenuDispatch` says which route each asks for |
| Menus.RouteChoiceMenu | TransportBot.Services/Services/TelegramBotService.cs:394-401 | one single-button `route_` row for each of the first eight routes; `RouteChoiceMenuDispatch` says which route each chooses |
| Menus.SubscriptionMenu | TransportBot.Services/Services/TelegramBotService.cs:562-576 | a `new_location` row, then a toggle and a delete button for each of the first five subscriptions; `SubscriptionMenuDispatch` says which each acts on |
| Menus.BuildDepartureMenu | TransportBot.Services/Services/TelegramBotService.cs:173-182 | the loop builds `DepartureMenu` |
| Menus.BuildRouteChoiceMenu | TransportBot.Services/Services/TelegramBotService.cs:394-401 | the loop builds `RouteChoiceMenu` |
| Menus.BuildSubscriptionMenu | TransportBot.Services/Services/TelegramBotService.cs:562-576 | the loop builds `SubscriptionMenu` |
| Menus.StationMenuDispatch | TransportBot.Services/Services/TelegramBotService.cs:52-60 | at most ten rows, button i asking for station i |
| Menus.DepartureMenuDispatch | TransportBot.Services/Services/TelegramBotService.cs:173-182 | at most eight rows, button i asking for arrival i's route |
| Menus.RouteChoiceMenuDispatch | TransportBot.Services/Services/TelegramBotService.cs:394-401 | at most eight rows, button i choosing route i |
| Menus.SubscriptionMenuDispatch | TransportBot.Services/Services/TelegramBotService.cs:562-576 | a new-location row, then toggle and delete for each of the first five |
| Menus.SubscriptionRowDispatch | TransportBot.Services/Services/TelegramBotService.cs:567-574 | row i toggles and deletes subscription i-1 |
| Menus.NewLocationDispatch | TransportBot.Services/Services/TelegramBotService.cs:489 | "new_location" reads as the new-location request |
| Menus.ExternalLeadMenuDispatch | TransportBot.Services/Services/TelegramBotService.cs:344-345 | for a code and route without '_', each lead button subscribes with its own lead time |
| Menus.InternalLeadMenuDispatch | TransportBot.Services/Services/TelegramBotService.cs:427-428 | each internal lead button subscribes with its own lead time |
| Bot.ShowDepartures | TransportBot.Services/Services/TelegramBotService.cs:299-323 | a loading note, then the departure keyboard of the station's arrivals or, when there are none, a no-departures note |
| Bot.ShowRouteEta | TransportBot.Services/Services/TelegramBotService.cs:324-350 | the estimate or a no-data note, then the lead-time keyboard |
| Bot.CreateExternalSubscription | TransportBot.Services/Services/TelegramBotService.cs:351-377 | when the chat's user exists, an active, never-notified external subscription with the next id is appended and confirmed; else nothing changes and nothing is said |
| Bot.ShowStopRoutes | TransportBot.Services/Services/TelegramBotService.cs:378-410 | nothing for an unknown stop; else a note and the route keyboard or a no-routes note |
| Bot.ChooseRouteAtStop | TransportBot.Services/Services/TelegramBotService.cs:411-433 | the lead-time keyboard when stop and route both exist; else nothing |
| Bot.CreateInternalSubscription | TransportBot.Services/Services/TelegramBotService.cs:434-466 | when the chat's user exists, an active, never-notified internal subscription with the next id is appended and confirmed; else nothing changes and nothing is said |
| Bot.ListSubscriptions | TransportBot.Services/Services/TelegramBotService.cs:467-488 | a new sender is appended with the next id and no location, a known one is left as is; then that user's subscriptions are listed |
| Bot.DeleteById | TransportBot.Services/Services/TelegramBotService.cs:493-506 | the record is gone afterwards and nothing else changes; the reply says whether it was there |
| Bot.ToggleById | TransportBot.Services/Services/TelegramBotService.cs:507-526 | the flag becomes the negation of the stored one, nothing else changes; missing gives no reply |
| Bot.HandleCallback | TransportBot.Services/Services/TelegramBotService.cs:283-527 | throws iff malformed; unknown data does nothing; every button gives its handler's replies and store effects: the subscribe buttons append the subscription, my-subscriptions registers and lists, delete removes and toggle flips the record; only those change subscriptions |
| Bot.SearchStops | TransportBot.Services/Services/TelegramBotService.cs:631-671 | usage for a blank query; else a note and the first ten stations or a none-found note |
| Bot.Diagnose | TransportBot.Services/Services/TelegramBotService.cs:139-161 | usage for a blank code; else the count and the first three arrivals, or an empty-board note |
| Bot.StationCommand | TransportBot.Services/Services/TelegramBotService.cs:162-190 | usage for a blank code; else a loading note, then the departure keyboard or, for an empty board, the no-departures note |
| Bot.ShowNearby | TransportBot.Services/Services/TelegramBotService.cs:46-72 | a note without a stored location; otherwise the station keyboard for that location, or a note when nothing is near |
| Bot.SetLocationCommand | TransportBot.Services/Services/TelegramBotService.cs:191-207 | with three words and two numbers: the sender's location is stored as `StoreLocation` does, a confirmation follows, then the nearby reply for the chat's user (the stations near the new point when chat and sender agree); else usage and the users table unchanged |
| Bot.StoreLocation | TransportBot.Services/Services/TelegramBotService.cs:197-198 | a known account's user gets the coordinates, keeps its name, and every other user is unchanged; a new account is appended under the next id, with no name and the coordinates |
| Bot.LocationStoredKeepsOthers | TransportBot.Services/Services/TelegramBotService.cs:197-198 | on a valid table, storing a location leaves every other account's user as it was and gives the account's user the coordinates |
| Bot.RegisterThenLocate | TransportBot.Services/Services/TelegramBotService.cs:197-198 | registering without a name and then updating the coordinates of the user returned leaves the table as `LocationStored` says, with the account then finding the updated user |
| Bot.ShowUserSubscriptions | TransportBot.Services/Services/TelegramBotService.cs:541-583 | a note for an unknown user; else the list with its keyboard or a none note |
| Bot.HandleText | TransportBot.Services/Services/TelegramBotService.cs:131-238 | each command gives its own replies: search, diagnosis, station, set-location, nearby, start, help, subscriptions, stops, Moscow, and the not-understood note; `/setlocation` stores the sender's location, every other command leaves the users table and its next id unchanged |
| Bot.HandleLocation | TransportBot.Services/Services/TelegramBotService.cs:240-281 | the sender's location is stored as `StoreLocation` does, the other users unchanged; then two notes and the stations within 1200 m of the point |
| Bot.LocationReplies | TransportBot.Services/Services/TelegramBotService.cs:244-276 | three replies, the last being the stations within 1200 m of the point |
| Bot.HandleMessage | TransportBot.Services/Services/TelegramBotService.cs:110-129 | for every content, the sender is first registered as `RegisterAsync` does (a new one appended under the next id with its user name); then text gets its command's replies and effect, a location is stored for the sender with the location replies, other content no reply and no further change |
| Bot.HandleUpdate | TransportBot.Services/Services/TelegramBotService.cs:74-108 | a message gets its message replies and users-table effect; a well-formed button with a chat gets its button's replies and store effects, and leaves the subscriptions alone unless it subscribes, deletes or toggles, and the users alone unless it lists subscriptions; a malformed button gets only the generic error and changes nothing; unknown data or a missing chat gets no reply; a message never changes subscriptions |
| RateLimit.ClientId | TransportBot.WebApi/Middleware/RateLimitingMiddleware.cs:43-46 | "unknown" without a remote address |
| RateLimit.AdmitCount | TransportBot.WebApi/Middleware/RateLimitingMiddleware.cs:29-38 | adding a key raises a client's count by at most one, by exactly one for a fresh key extending the id |
| RateLimit.RequestKeyExtends | TransportBot.WebApi/Middleware/RateLimitingMiddleware.cs:38 | a request key starts with its client id |
| RateLimit.ExtendingIdsShareCount | TransportBot.WebApi/Middleware/RateLimitingMiddleware.cs:29 | a request from a client whose id extends this one counts against this one |
| RateLimit.Unexpired | TransportBot.WebApi/Middleware/RateLimitingMiddleware.cs:23-27 | keeps exactly the entries at most a minute old, with their times |
| RateLimit.ClientCount | TransportBot.WebApi/Middleware/RateLimitingMiddleware.cs:29 | zero iff no key starts with the client id |
| RateLimit.Admit | TransportBot.WebApi/Middleware/RateLimitingMiddleware.cs:38 | adds the key, at the current time if it is new; existing entries are unchanged |
| RateLimit.RateLimiter.constructor | TransportBot.WebApi/Middleware/RateLimitingMiddleware.cs:9 | an empty request map |
| RateLimit.RateLimiter.ExpireOld | TransportBot.WebApi/Middleware/RateLimitingMiddleware.cs:23-27 | exactly the entries more than a minute old are removed |
| RateLimit.RateLimiter.Invoke | TransportBot.WebApi/Middleware/RateLimitingMiddleware.cs:18-41 | accepted iff the count is below 100; rejection adds nothing; acceptance adds one entry and keeps the count at most 100 |

## Findings

| source | as written | input that shows it | evidently intended | confidence | as-written member | corrected member |
|---|---|---|---|---|---|---|
| TransportBot.Services/Services/TelegramBotService.cs:353-358 | the `ynotify_` handler takes the route from part 2 and the minutes from part 3 of the split on '_' | `NotifyToken("s1", "A_5", 10)`, the button for route "A_5" with a 10-minute lead, reads as route "A" with a 5-minute lead | the route is every part between the code and the last part, joined again; the `yrt_` handler at lines 326-330 does it this way | not executed | Tokens.NotifyTokenAsWrittenSplitsRoute | Tokens.NotifyTokenRoundTrip |
| TransportBot.Services/Services/TransportApiService.cs:798-808 | the segment's `DateTime Departure` carries `JsonDateTimeOffsetConverter`, a converter for `DateTime?`, so `Deserialize<YandexSearchResponse>` at line 272 throws for a response listing a segment and the catch at lines 283-287 returns false | route 7 with a segment departing in one minute: `IsRouteActiveAsync(7)` returns false | the converter matches the property's type (or the property is nullable), and the method reports a departure within two hours | not executed | Legacy.RouteActivityLostAsWritten | Legacy.IsRouteActiveById |

`Commands.ParseCallback` models the button handler as written, so it reads `ynotify_` data with
`Tokens.ParseNotifyTokenAsWritten`. `Tokens.ParseNotifyToken` is the corrected parse; its round
trip for every code without '_' is proved by `Tokens.NotifyTokenRoundTrip`.

`Legacy.IsRouteActiveAsWritten` is `IsRouteActiveAsync` over the decode as written
(`Legacy.DecodeSearchAsWritten`). `Legacy.IsRouteActiveById` is the corrected check, with
`Legacy.ActiveRouteDueWithinTwoHours` proved about it.

## Left out

- HTTP, JSON and the Telegram SDK.
  - Each request, together with its status check, body read and deserialisation, is one value of a response datatype from an oracle.
  - A sent message is a `Reply` value naming what it says.
  - Message wording, emoji, `AnswerCallbackQuery` and the keyboard button titles are not modelled. Only button callback data is.
- Clocks: each operation reads the clock once, as `now`. The source reads `DateTime.Now` several times in one call.
  - Instants are whole seconds, not ticks.
  - Local and universal time are one clock, so `ToLocalTime` is the identity and time-zone conversions are not modelled.
- Notification rules: the firing rule is `eta == NotifyBeforeMinutes` and the debounce is one minute, as the code has them. A description of the system that speaks of a five-minute debounce and a `0 < eta <= lead` window disagrees with the code; the model follows the code.
- `SendNotificationAsync` swallows every failure. A send is therefore modelled as always producing its notice, and `LastNotifiedAt` advances after it either way.
- Failures of the notification cycle: only a failing store update is modelled, as the oracle `saveFails`. A lookup that throws is not separately modelled, because both lookup services catch their own exceptions and return -1.
- `TryGetMosgorpassNearbyAsync` is never called by the code. Only the parser it would use, `ParseMosgorpassNearby`, is modelled.
- `RouteId` values come from `string.GetHashCode()` and are not modelled.
- Case folding covers ASCII and basic Cyrillic letters, not the whole Unicode table.
- Floating point: coordinates and distances pass through as `real` with no arithmetic. `double.TryParse` is the oracle `parseReal`. The geocoders (`GeocodingService`, `TryGeocodeWithYandex`, `TryGeocodeWithNominatim`) are oracles.
- `DateTime.TryParse` is not modelled: each time string carries its parse result.
- Databases: identity columns are a counter in each store. Cascade deletes and EF change tracking are not modelled.
- The stop and route catalogue of the `stop_`, `route_` and `notify_` handlers is a set of oracles (`stopExists`, `routeExists`, `routesAtStop`).
- Lookups by chat: the subscribe, nearby and list-by-command handlers look the user up by the chat id, while registration uses the sender id. The model keeps this as written.
- The rate limiter:
  - it counts with a culture-sensitive `StartsWith`, which is modelled as ordinal;
  - the fresh GUID of each request is a parameter;
  - the concurrency of `ConcurrentDictionary` is not modelled: each request runs alone.
- Services are total functions in the model, so the inner catch blocks of `HandleLocationAsync` and `SearchStopsByNameAsync` have nothing to catch and are not modelled.
- Commands.ParseCallback: the callback prefixes (`"yst_"`, `"ynotify_"`, `"stop_"` and the rest) are tested with `string.StartsWith(string)`, which compares with the current culture. The model compares ordinally, character by character.
- Legacy.LegacyEta: `stationCode.StartsWith("mgs:")` is also culture-sensitive in the source and is modelled as an ordinal prefix test.
- Commands.NotifyTokenDispatch: promised only for a code and a route without '_'. With '_' in the route, the handler as written misreads the button (see Findings).
- Tokens.ExternalLeadButtonsOfferLeadTimes: promised only for a code and a route without '_', for the same reason.
- Menus.ExternalLeadMenuDispatch: promised only for a code and a route without '_', for the same reason.
- Legacy.DecodeSearchAsWritten: the serializer's refusal of the converter is modelled as a failed decode of any response listing a segment. Whether it also fails a response without segments is not modelled; the result is false either way.
- Legacy.SearchStations: the source's four guarded `GeocodeAsync` calls are written as one loop over the four queries (`GeocodeInTurn`). It sends the same queries in the same order.
- Legacy.ArrivalTime: returns which message is sent, as a datatype; the wording is only `NoticeText`.
- The welcome, help, Moscow-stops and all-stops replies are single fixed messages, modelled as one note each.
- Timers, polling, hosting, the web API controllers, the cache service and the pass-through stop and route services are not part of this model.
