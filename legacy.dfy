/**
 * The legacy transport resolver. Its list lookup, nearby lookup and type names are the same
 * code as the live provider's (`Yandex.GetArrivals`, `Yandex.GetNearbyStations`,
 * `Arrivals.TransportTypeName`); what it adds is the secondary-provider fallback of the ETA,
 * the single-query metro ETA, the arrival text, the route-activity search and its own geocode
 * retry chains.
 */
module Legacy {
  import opened Options
  import opened Text
  import opened Sequences
  import opened Arrivals
  import opened Geocoding
  import Yandex
  import Mosgorpass

  // ---------------------------------------------------------------------------------------
  // ETA by station code, with the secondary-provider fallback

  /**
   * The fallback's `FirstOrDefault`: the first arrival whose route number equals `route`
   * ignoring case.
   */
  function FirstMatch(arrivals: seq<TransportArrival>, route: string): (r: Option<TransportArrival>)
    ensures r.None? <==> forall i :: 0 <= i < |arrivals| ==> !MatchesRoute(arrivals[i], route)
    ensures r.Some? ==> exists i :: (0 <= i < |arrivals| && arrivals[i] == r.value
      && MatchesRoute(r.value, route) && forall j :: 0 <= j < i ==> !MatchesRoute(arrivals[j], route))
    decreases |arrivals|
  {
    if arrivals == [] then None
    else if MatchesRoute(arrivals[0], route) then Some(arrivals[0])
    else
      var r := FirstMatch(arrivals[1..], route);
      assert forall i :: 1 <= i < |arrivals| ==> arrivals[i] == arrivals[1..][i - 1];
      r
  }

  /** `string.Equals(a.RouteNumber, route, OrdinalIgnoreCase)`; a null number matches nothing. */
  predicate MatchesRoute(a: TransportArrival, route: string)
  {
    a.routeNumber.Some? && EqualsIgnoreCase(a.routeNumber.value, route)
  }

  /** The fallback match does not depend on the letter case of the requested route. */
  lemma {:induction false} FirstMatchIgnoresCase(arrivals: seq<TransportArrival>, r1: string, r2: string)
    requires EqualsIgnoreCase(r1, r2)
    ensures FirstMatch(arrivals, r1) == FirstMatch(arrivals, r2)
    decreases |arrivals|
  {
    if arrivals != [] {
      FirstMatchIgnoresCase(arrivals[1..], r1, r2);
    }
  }

  /** The primary path, by contrast, matches route numbers exactly: "a1" does not find "A1". */
  lemma PrimaryMatchIsCaseSensitive(now: Instant)
    ensures BoardEta([BoardItem(Some(now + 60), Some(Thread(None, Some("A1"), None, None)))], "a1", now).None?
    ensures BoardEta([BoardItem(Some(now + 60), Some(Thread(None, Some("A1"), None, None)))], "A1", now) == Some(1)
  {
    var board := [BoardItem(Some(now + 60), Some(Thread(None, Some("A1"), None, None)))];
    assert Serves(board[0], "A1", now);
    assert "A1" != "a1" by { assert "A1"[0] != "a1"[0]; }
  }

  /**
   * What the legacy `GetMinutesUntilArrivalAsync(routeNumber, stationCode)` returns: the
   * primary scan's minutes; when every variant missed and the code is in the `mgs:`
   * namespace, the minutes of the first secondary arrival of the route; `-1` otherwise.
   */
  function LegacyEta(fetch: (string, BoardQuery) -> BoardResponse, stop: (Mosgorpass.Endpoint, string) -> Mosgorpass.StopResponse,
                     routeNumber: string, stationCode: string, now: Instant): (m: int)
    ensures m == -1 || m >= 0
    ensures !StartsWith(stationCode, Mosgorpass.MgsPrefix) ==>
      m == Yandex.ScanMinutes(Yandex.EtaScan(Yandex.Responses(fetch, stationCode), routeNumber, now))
    ensures var scan := Yandex.EtaScan(Yandex.Responses(fetch, stationCode), routeNumber, now);
      (scan.Found? ==> m == scan.minutes) && (scan.Aborted? ==> m == -1)
    ensures (Yandex.EtaScan(Yandex.Responses(fetch, stationCode), routeNumber, now).Exhausted?
             && StartsWith(stationCode, Mosgorpass.MgsPrefix)) ==>
      var first := FirstMatch(Mosgorpass.MgsArrivals(stop, stationCode, now), routeNumber);
      m == if first.Some? then first.value.minutesUntilArrival else -1
  {
    match Yandex.EtaScan(Yandex.Responses(fetch, stationCode), routeNumber, now)
    case Found(minutes) => minutes
    case Aborted => -1
    case Exhausted =>
      if StartsWith(stationCode, Mosgorpass.MgsPrefix) then
        var arrivals := Mosgorpass.MgsArrivals(stop, stationCode, now);
        Mosgorpass.MgsArrivalsSorted(stop, stationCode, now);
        var match_ := FirstMatch(arrivals, routeNumber);
        if match_.Some? then match_.value.minutesUntilArrival else -1
      else -1
  }

  /**
   * When every variant missed, a `mgs:` code gets the earliest secondary arrival of the route:
   * `-1` exactly when the secondary provider lists none, else minutes no later than any it lists.
   */
  lemma LegacyEtaFallbackEarliest(fetch: (string, BoardQuery) -> BoardResponse,
                                  stop: (Mosgorpass.Endpoint, string) -> Mosgorpass.StopResponse,
                                  routeNumber: string, stationCode: string, now: Instant)
    requires Yandex.EtaScan(Yandex.Responses(fetch, stationCode), routeNumber, now).Exhausted?
    requires StartsWith(stationCode, Mosgorpass.MgsPrefix)
    ensures var arrivals := Mosgorpass.MgsArrivals(stop, stationCode, now);
      var m := LegacyEta(fetch, stop, routeNumber, stationCode, now);
      && (m == -1 <==> forall j :: 0 <= j < |arrivals| ==> !MatchesRoute(arrivals[j], routeNumber))
      && (m != -1 ==> exists j :: 0 <= j < |arrivals| && MatchesRoute(arrivals[j], routeNumber)
                                  && m == arrivals[j].minutesUntilArrival)
      && (forall j :: 0 <= j < |arrivals| && MatchesRoute(arrivals[j], routeNumber) ==>
            m <= arrivals[j].minutesUntilArrival)
  {
    var arrivals := Mosgorpass.MgsArrivals(stop, stationCode, now);
    Mosgorpass.MgsArrivalsSorted(stop, stationCode, now);
    FirstMatchEarliest(arrivals, routeNumber);
  }

  /**
   * On a list sorted by minutes, the first arrival of the route has the fewest minutes among
   * the arrivals of the route.
   */
  lemma FirstMatchEarliest(arrivals: seq<TransportArrival>, route: string)
    requires SortedBy(arrivals, Mosgorpass.MinutesKey)
    requires forall a :: a in arrivals ==> a.minutesUntilArrival >= 0
    ensures var first := FirstMatch(arrivals, route);
      var m := if first.Some? then first.value.minutesUntilArrival else -1;
      && (m == -1 <==> forall j :: 0 <= j < |arrivals| ==> !MatchesRoute(arrivals[j], route))
      && (m != -1 ==> exists j :: 0 <= j < |arrivals| && MatchesRoute(arrivals[j], route)
                                  && m == arrivals[j].minutesUntilArrival)
      && (forall j :: 0 <= j < |arrivals| && MatchesRoute(arrivals[j], route) ==>
            m <= arrivals[j].minutesUntilArrival)
  {
    var first := FirstMatch(arrivals, route);
    if first.Some? {
      var i :| 0 <= i < |arrivals| && arrivals[i] == first.value && MatchesRoute(first.value, route)
        && forall j :: 0 <= j < i ==> !MatchesRoute(arrivals[j], route);
      assert arrivals[i] in arrivals;
      FirstMatchNoLater(arrivals, route);
    }
  }

  lemma {:induction false} FirstMatchNoLater(arrivals: seq<TransportArrival>, route: string)
    requires SortedBy(arrivals, Mosgorpass.MinutesKey)
    ensures FirstMatch(arrivals, route).Some? ==> forall j :: 0 <= j < |arrivals| && MatchesRoute(arrivals[j], route) ==>
      FirstMatch(arrivals, route).value.minutesUntilArrival <= arrivals[j].minutesUntilArrival
    decreases |arrivals|
  {
    if arrivals != [] {
      if MatchesRoute(arrivals[0], route) {
        assert forall j :: 0 < j < |arrivals| ==> Mosgorpass.MinutesKey(arrivals[0]) <= Mosgorpass.MinutesKey(arrivals[j]);
      } else {
        var tail := arrivals[1..];
        assert SortedBy(tail, Mosgorpass.MinutesKey) by {
          forall i, j | 0 <= i < j < |tail| ensures Mosgorpass.MinutesKey(tail[i]) <= Mosgorpass.MinutesKey(tail[j]) {
            assert tail[i] == arrivals[i + 1] && tail[j] == arrivals[j + 1];
          }
        }
        FirstMatchNoLater(tail, route);
        assert forall j :: 0 < j < |arrivals| ==> arrivals[j] == tail[j - 1];
      }
    }
  }

  /** A code outside the `mgs:` namespace never depends on the secondary provider. */
  lemma NonMgsIgnoresSecondary(fetch: (string, BoardQuery) -> BoardResponse,
                               stop1: (Mosgorpass.Endpoint, string) -> Mosgorpass.StopResponse,
                               stop2: (Mosgorpass.Endpoint, string) -> Mosgorpass.StopResponse,
                               routeNumber: string, stationCode: string, now: Instant)
    requires !StartsWith(stationCode, Mosgorpass.MgsPrefix)
    ensures LegacyEta(fetch, stop1, routeNumber, stationCode, now) == LegacyEta(fetch, stop2, routeNumber, stationCode, now)
  {
  }

  /**
   * `GetMinutesUntilArrivalAsync(routeNumber, stationCode)` of the legacy resolver.
   * `consulted` reports whether the secondary provider was asked: only after every variant
   * missed, and only for a `mgs:` code.
   */
  method GetMinutesUntilArrival(fetch: (string, BoardQuery) -> BoardResponse,
                                stop: (Mosgorpass.Endpoint, string) -> Mosgorpass.StopResponse,
                                routeNumber: string, stationCode: string, now: Instant)
    returns (minutes: int, consulted: bool)
    ensures minutes == LegacyEta(fetch, stop, routeNumber, stationCode, now)
    ensures consulted <==> (Yandex.EtaScan(Yandex.Responses(fetch, stationCode), routeNumber, now).Exhausted?
      && StartsWith(stationCode, Mosgorpass.MgsPrefix))
  {
    var scan, tried := Yandex.ScanVariants(fetch, routeNumber, stationCode, now);
    consulted := false;
    if scan.Found? {
      return scan.minutes, consulted;
    }
    if scan.Aborted? {
      return -1, consulted;
    }
    if StartsWith(stationCode, Mosgorpass.MgsPrefix) {
      consulted := true;
      var arrivals, endpoints := Mosgorpass.TryGetMosgorpassArrivals(stop, stationCode, now);
      var match_ := FirstMatch(arrivals, routeNumber);
      if match_.Some? {
        return match_.value.minutesUntilArrival, consulted;
      }
      return -1, consulted;
    }
    minutes := -1;
  }

  // ---------------------------------------------------------------------------------------
  // Single-query lookups

  /**
   * `GetMinutesUntilArrivalAsync(int routeId, int stopId)`: one metro-departures query with no
   * fallback; `-1` unless its board lists an upcoming departure of the route.
   */
  function MetroEta(fetch: (string, BoardQuery) -> BoardResponse, routeId: int, stopId: int, now: Instant): (m: int)
    ensures m == -1 || m >= 1
    ensures m >= 1 <==> Yandex.ResponseEta(fetch(IntToString(stopId), MetroDepartures), IntToString(routeId), now).Some?
    ensures m >= 1 ==> Some(m) == Yandex.ResponseEta(fetch(IntToString(stopId), MetroDepartures), IntToString(routeId), now)
  {
    var next := Yandex.ResponseEta(fetch(IntToString(stopId), MetroDepartures), IntToString(routeId), now);
    if next.Some? then next.value else -1
  }

  /** `GetArrivalsAsync(int stopId)`: the list lookup of the decimal id. */
  method GetArrivalsById(fetch: (string, BoardQuery) -> BoardResponse, stopId: int, now: Instant)
    returns (arrivals: seq<TransportArrival>)
    ensures arrivals == Yandex.ArrivalsFrom(Yandex.Responses(fetch, IntToString(stopId)), now)
  {
    var tried;
    arrivals, tried := Yandex.GetArrivals(fetch, IntToString(stopId), now);
  }

  /** The messages `GetArrivalTimeAsync` can answer with. */
  datatype ArrivalNotice = NoArrivalData | LookupFailed | ArrivingIn(minutes: int) | ArrivingNow

  /** The text of each message. */
  function NoticeText(n: ArrivalNotice): string
  {
    match n
    case NoArrivalData => "Нет данных о прибытии транспорта"
    case LookupFailed => "Нет данных о прибытии"
    case ArrivingIn(minutes) => "Прибытие через " + IntToString(minutes) + " мин"
    case ArrivingNow => "Прибывает сейчас"
  }

  /** No other message reads like "arriving now". */
  lemma ArrivingNowTextIsDistinct(n: ArrivalNotice)
    requires !n.ArrivingNow?
    ensures NoticeText(n) != NoticeText(ArrivingNow)
  {
    var now := NoticeText(ArrivingNow);
    match n
    case NoArrivalData => assert |NoticeText(n)| != |now|;
    case LookupFailed => assert |NoticeText(n)| != |now|;
    case ArrivingIn(m) => assert NoticeText(n)[5] != now[5];
  }

  /**
   * `GetArrivalTimeAsync(stopId, routeId)`: the message for the next departure of the route on
   * the surface-departures board. An exception (request or deserialisation) gives the short
   * no-data message; a failure status or no match gives the long one.
   */
  function ArrivalTime(fetch: (string, BoardQuery) -> BoardResponse, stopId: string, routeId: string, now: Instant)
    : (notice: ArrivalNotice)
    ensures var r := fetch(stopId, SurfaceDepartures);
      (r.Threw? || r.Undecodable? ==> notice == LookupFailed)
      && (r.StatusFailed? ==> notice == NoArrivalData)
  {
    var r := fetch(stopId, SurfaceDepartures);
    if r.Threw? || r.Undecodable? then LookupFailed
    else if !HasBoard(r) then NoArrivalData
    else
      var next := NextDeparture(r.schedule.value, routeId, now);
      if next.None? then NoArrivalData
      else
        var minutes := CeilMinutes(next.value.departure.value - now);
        if minutes > 0 then ArrivingIn(minutes) else ArrivingNow
  }

  /**
   * The arrival message agrees with the ETA of the same board: it names the ETA's minutes
   * when there is one and says there is no data otherwise. So, with one clock reading for the
   * whole lookup, "arriving now" cannot occur.
   */
  lemma ArrivalTimeMatchesEta(fetch: (string, BoardQuery) -> BoardResponse, stopId: string, routeId: string, now: Instant)
    ensures var r := fetch(stopId, SurfaceDepartures);
      var eta := Yandex.ResponseEta(r, routeId, now);
      ArrivalTime(fetch, stopId, routeId, now) ==
        if r.Threw? || r.Undecodable? then LookupFailed
        else if eta.Some? then ArrivingIn(eta.value)
        else NoArrivalData
    ensures ArrivalTime(fetch, stopId, routeId, now) != ArrivingNow
  {
    var r := fetch(stopId, SurfaceDepartures);
    if HasBoard(r) {
      var next := NextDeparture(r.schedule.value, routeId, now);
      assert Yandex.ResponseEta(r, routeId, now) == BoardEta(r.schedule.value, routeId, now);
      if next.Some? {
        assert MinutesUntil(next.value.departure.value, now) == CeilMinutes(next.value.departure.value - now);
      }
    }
  }

  /** One segment of the route search: a departure instant and its thread. */
  datatype Segment = Segment(departure: Instant, thread: Option<Thread>)

  /** The route search response; `SearchFailed` is a failure status or an exception. */
  datatype SearchResponse = SearchFailed | SearchDecoded(segments: Option<seq<Segment>>)

  /** How far ahead a departure keeps a route active: two hours. */
  const ActiveWindow := 7200

  /** A segment of route `route` departs within the next two hours, both ends excluded. */
  predicate ActiveSegment(s: Segment, route: string, now: Instant)
  {
    s.thread.Some? && s.thread.value.number == Some(route) && now < s.departure < now + ActiveWindow
  }

  /** `IsRouteActiveAsync(int routeId)`: the fixed search lists the route within two hours. */
  function IsRouteActiveById(search: SearchResponse, routeId: int, now: Instant): (active: bool)
    ensures active ==> search.SearchDecoded? && search.segments.Some?
    ensures active <==> (search.SearchDecoded? && search.segments.Some?
      && exists s :: s in search.segments.value && ActiveSegment(s, IntToString(routeId), now))
  {
    search.SearchDecoded? && search.segments.Some?
    && exists s | s in search.segments.value :: ActiveSegment(s, IntToString(routeId), now)
  }

  /** An active route has a departure between one and 120 minutes away. */
  lemma ActiveRouteDueWithinTwoHours(search: SearchResponse, routeId: int, now: Instant)
    requires IsRouteActiveById(search, routeId, now)
    ensures exists s :: (s in search.segments.value && s.thread.Some? && s.thread.value.number == Some(IntToString(routeId))
      && 1 <= MinutesUntil(s.departure, now) <= 120)
  {
    var s :| s in search.segments.value && ActiveSegment(s, IntToString(routeId), now);
    assert 1 <= MinutesUntil(s.departure, now) <= 120;
  }

  /**
   * The route search decoded as written: a segment's departure is a non-nullable instant
   * carrying a converter for a nullable one, which the serializer refuses, so decoding a
   * response that lists any segment throws.
   */
  function DecodeSearchAsWritten(search: SearchResponse): (r: SearchResponse)
    ensures r.SearchDecoded? ==> r.segments.None? || r.segments.value == []
    ensures r != search ==> search.SearchDecoded? && search.segments.Some? && search.segments.value != []
  {
    if search.SearchDecoded? && search.segments.Some? && search.segments.value != [] then SearchFailed
    else search
  }

  /** `IsRouteActiveAsync` as written: the check over what the refused converter lets through. */
  function IsRouteActiveAsWritten(search: SearchResponse, routeId: int, now: Instant): (active: bool)
    ensures active ==> IsRouteActiveById(search, routeId, now)
  {
    IsRouteActiveById(DecodeSearchAsWritten(search), routeId, now)
  }

  /** As written, no search response makes a route active. */
  lemma RouteNeverActiveAsWritten(search: SearchResponse, routeId: int, now: Instant)
    ensures !IsRouteActiveAsWritten(search, routeId, now)
  {
    var d := DecodeSearchAsWritten(search);
    if d.SearchDecoded? && d.segments.Some? {
      assert d.segments.value == [];
    }
  }

  /** Route 7 departing in a minute is active, yet the code as written reports it inactive. */
  lemma RouteActivityLostAsWritten()
    ensures var search := SearchDecoded(Some([Segment(60, Some(Thread(None, Some("7"), None, None)))]));
      IsRouteActiveById(search, 7, 0) && !IsRouteActiveAsWritten(search, 7, 0)
  {
    var s := Segment(60, Some(Thread(None, Some("7"), None, None)));
    assert IntToString(7) == "7";
    assert ActiveSegment(s, IntToString(7), 0);
    RouteNeverActiveAsWritten(SearchDecoded(Some([s])), 7, 0);
  }

  // ---------------------------------------------------------------------------------------
  // Geocode retry chains

  /** `query.Replace("станция", "").Replace("метро", "").Trim()`. */
  function Stripped(query: string): (r: string)
    ensures |r| <= |query|
    ensures Trim(r) == r
  {
    var r := Trim(RemoveAll(RemoveAll(query, "станция"), "метро"));
    TrimIdempotent(RemoveAll(RemoveAll(query, "станция"), "метро"));
    r
  }

  /** The rewrites tried after the original query, in order. */
  function Alternatives(query: string): (r: seq<string>)
    ensures |r| == 4 && r[0] != query && r[1] != query && r[2] != query
  {
    [query + ", Москва", "станция " + query, "метро " + query, Stripped(query)]
  }

  /** The rewrites in `alternatives` that the loop sends: those that differ from the query. */
  function Rewrites(query: string, alternatives: seq<string>): (r: seq<string>)
    ensures |r| <= |alternatives|
    ensures forall i :: 0 <= i < |r| ==> r[i] != query
    decreases |alternatives|
  {
    if alternatives == [] then []
    else (if alternatives[0] != query then [alternatives[0]] else []) + Rewrites(query, alternatives[1..])
  }

  /** `Rewrites` distributes over concatenation. */
  lemma {:induction false} RewritesAppend(query: string, a: seq<string>, b: seq<string>)
    ensures Rewrites(query, a + b) == Rewrites(query, a) + Rewrites(query, b)
    decreases |a|
  {
    if a == [] {
      assert a + b == b;
    } else {
      assert (a + b)[1..] == a[1..] + b;
      RewritesAppend(query, a[1..], b);
    }
  }

  /** The queries `GeocodeAsync` sends, in order: the original, then the differing rewrites. */
  function GeocodeQueries(query: string): (qs: seq<string>)
    ensures |qs| >= 1 && qs[0] == query
    ensures forall i :: 1 <= i < |qs| ==> qs[i] != query
  {
    [query] + Rewrites(query, Alternatives(query))
  }

  /** Rewrites of four alternatives whose first three differ from the query. */
  lemma RewritesOfFour(query: string, a: seq<string>)
    requires |a| == 4 && a[0] != query && a[1] != query && a[2] != query
    ensures Rewrites(query, a) == a[..3] + if a[3] != query then [a[3]] else []
  {
    assert a[1..][1..][1..][1..] == [];
    assert Rewrites(query, a[1..][1..][1..]) == if a[3] != query then [a[3]] else [];
    assert Rewrites(query, a[1..][1..]) == [a[2]] + Rewrites(query, a[1..][1..][1..]);
    assert Rewrites(query, a[1..]) == [a[1]] + Rewrites(query, a[1..][1..]);
    assert a[..3] == [a[0], a[1], a[2]];
  }

  /** The first three rewrites are always sent; only the stripped query can equal the original. */
  lemma GeocodeQueriesShape(query: string)
    ensures |GeocodeQueries(query)| == 4 || |GeocodeQueries(query)| == 5
    ensures GeocodeQueries(query)[..4] == [query, query + ", Москва", "станция " + query, "метро " + query]
    ensures |GeocodeQueries(query)| == 5 <==> Stripped(query) != query
  {
    var alts := Alternatives(query);
    assert |alts[0]| > |query| && |alts[1]| > |query| && |alts[2]| > |query|;
    RewritesOfFour(query, alts);
  }

  /** A trimmed query that names neither "станция" nor "метро" is sent at most four times. */
  lemma PlainQuerySkipsStripped(query: string)
    requires forall i :: !OccursAt(query, "станция", i)
    requires forall i :: !OccursAt(query, "метро", i)
    requires Trim(query) == query
    ensures |GeocodeQueries(query)| == 4
  {
    RemoveAbsent(query, "станция");
    RemoveAbsent(query, "метро");
    GeocodeQueriesShape(query);
  }

  /** What `GeocodeAsync(query)` returns: nothing for an empty query, else the chain's first success. */
  function Geocode(tryYandex: string -> Option<Point>, query: string): (r: Option<Point>)
    ensures query == "" ==> r.None?
    ensures query != "" && tryYandex(query).Some? ==> r == tryYandex(query)
    ensures r.Some? ==> exists q :: q in GeocodeQueries(query) && r == tryYandex(q)
  {
    if query == "" then None
    else
      var qs := GeocodeQueries(query);
      var r := FirstSuccess(qs, tryYandex);
      assert r.Some? ==> exists i :: 0 <= i < |qs| && r == tryYandex(qs[i]);
      r
  }

  /**
   * The loop of `GeocodeAsync` after `k` rewrites: it has sent the original query and the
   * differing rewrites among the first `k`, as a prefix of the whole chain.
   */
  ghost predicate Pending(query: string, alternatives: seq<string>, tryYandex: string -> Option<Point>, k: nat,
                          tried: seq<string>, result: Option<Point>)
  {
    k <= |alternatives| && tried == [query] + Rewrites(query, alternatives[..k])
    && InTurn([query] + Rewrites(query, alternatives), tryYandex, tried, result)
  }

  /** Where the loop stands after `k + 1` rewrites, in terms of where it stood after `k`. */
  lemma RewritesStep(query: string, alternatives: seq<string>, k: nat)
    requires k < |alternatives|
    ensures Rewrites(query, alternatives[..k + 1]) ==
      Rewrites(query, alternatives[..k]) + if alternatives[k] != query then [alternatives[k]] else []
  {
    assert alternatives[..k + 1] == alternatives[..k] + [alternatives[k]];
    RewritesAppend(query, alternatives[..k], [alternatives[k]]);
  }

  /** The rewrites of the whole list: those before `k`, the `k`-th when it differs, those after. */
  lemma RewritesAround(query: string, alternatives: seq<string>, k: nat)
    requires k < |alternatives|
    ensures Rewrites(query, alternatives) == Rewrites(query, alternatives[..k + 1]) + Rewrites(query, alternatives[k + 1..])
  {
    assert alternatives == alternatives[..k + 1] + alternatives[k + 1..];
    RewritesAppend(query, alternatives[..k + 1], alternatives[k + 1..]);
  }

  /** A rewrite equal to the query is skipped. */
  lemma PendingSkip(query: string, alternatives: seq<string>, tryYandex: string -> Option<Point>, k: nat,
                    tried: seq<string>, result: Option<Point>)
    requires Pending(query, alternatives, tryYandex, k, tried, result) && k < |alternatives|
    requires alternatives[k] == query
    ensures Pending(query, alternatives, tryYandex, k + 1, tried, result)
  {
    RewritesStep(query, alternatives, k);
  }

  /** A rewrite that differs from the query is the next query of the chain. */
  lemma PendingSend(query: string, alternatives: seq<string>, tryYandex: string -> Option<Point>, k: nat,
                    tried: seq<string>, result: Option<Point>)
    requires Pending(query, alternatives, tryYandex, k, tried, result) && result.None? && k < |alternatives|
    requires alternatives[k] != query
    ensures Pending(query, alternatives, tryYandex, k + 1, tried + [alternatives[k]], tryYandex(alternatives[k]))
  {
    var qs := [query] + Rewrites(query, alternatives);
    var next := alternatives[k];
    SentRewrite(query, alternatives, k);
    InTurnAppend(qs, tryYandex, tried, result, next, Rewrites(query, alternatives[k + 1..]));
  }

  /** Around a rewrite that differs from the query, the chain is what was sent, the rewrite, and the rest. */
  lemma SentRewrite(query: string, alternatives: seq<string>, k: nat)
    requires k < |alternatives| && alternatives[k] != query
    ensures [query] + Rewrites(query, alternatives[..k + 1]) == [query] + Rewrites(query, alternatives[..k]) + [alternatives[k]]
    ensures [query] + Rewrites(query, alternatives) ==
      [query] + Rewrites(query, alternatives[..k]) + [alternatives[k]] + Rewrites(query, alternatives[k + 1..])
  {
    RewritesStep(query, alternatives, k);
    RewritesAround(query, alternatives, k);
    ConsAround(query, Rewrites(query, alternatives[..k]), alternatives[k], Rewrites(query, alternatives[k + 1..]),
               Rewrites(query, alternatives[..k + 1]), Rewrites(query, alternatives));
  }

  /** Putting `x` in front of a list that is `before`, `next` and `after` keeps that shape. */
  lemma ConsAround<T>(x: T, before: seq<T>, next: T, after: seq<T>, upto: seq<T>, all: seq<T>)
    requires upto == before + [next] && all == upto + after
    ensures [x] + upto == [x] + before + [next] && [x] + all == [x] + before + [next] + after
  {
  }

  /**
   * `GeocodeAsync(query)`: the original query, then each rewrite that differs from it, until
   * one resolves. `tried` is the queries sent.
   */
  method GeocodeAsync(tryYandex: string -> Option<Point>, query: string)
    returns (result: Option<Point>, tried: seq<string>)
    ensures result == Geocode(tryYandex, query)
    ensures query == "" ==> tried == []
    ensures query != "" ==> tried == Attempts(GeocodeQueries(query), tryYandex)
  {
    if query == "" {
      return None, [];
    }
    var alternatives := Alternatives(query);
    ghost var qs := [query] + Rewrites(query, alternatives);
    InTurnNext(qs, tryYandex, [], None);
    result := tryYandex(query);
    tried := [query];
    if result.Some? {
      InTurnDone(qs, tryYandex, tried, result);
      return;
    }
    var k := 0;
    while k < |alternatives|
      invariant Pending(query, alternatives, tryYandex, k, tried, result) && result.None?
    {
      var alternative := alternatives[k];
      if alternative == query {
        PendingSkip(query, alternatives, tryYandex, k, tried, result);
      } else {
        PendingSend(query, alternatives, tryYandex, k, tried, result);
        result := tryYandex(alternative);
        tried := tried + [alternative];
        if result.Some? {
          InTurnDone(qs, tryYandex, tried, result);
          return;
        }
      }
      k := k + 1;
    }
    assert alternatives[..k] == alternatives;
    InTurnDone(qs, tryYandex, tried, result);
  }

  /** The geocode chain as the oracle of the station search's outer retry chain. */
  function Chain(tryYandex: string -> Option<Point>): string -> Option<Point>
  {
    q => Geocode(tryYandex, q)
  }

  /** The queries the legacy station search geocodes, in order. */
  function LegacySearchQueries(query: string): seq<string>
  {
    [query, "Москва " + query, "станция " + query, "остановка " + query]
  }

  /** The radius of the legacy nearby search. */
  const LegacySearchRadius := 10000

  /**
   * What the legacy `SearchStationsAsync` returns: nothing for a blank query or when every
   * geocode fails; otherwise the stations within 10000 m of the first geocoded point.
   */
  function LegacySearchResult(tryYandex: string -> Option<Point>, nearby: (real, real, int) -> Yandex.NearbyResponse,
                              query: string): (r: seq<ExternalStation>)
    ensures IsBlank(query) ==> r == []
    ensures !IsBlank(query) && Geocode(tryYandex, query).Some? ==>
      var g := Geocode(tryYandex, query).value;
      r == Yandex.GetNearbyStations(nearby, g.latitude, g.longitude, LegacySearchRadius)
    ensures (forall j :: 0 <= j < |LegacySearchQueries(query)| ==> Geocode(tryYandex, LegacySearchQueries(query)[j]).None?)
      ==> r == []
  {
    if IsBlank(query) then []
    else
      var qs := LegacySearchQueries(query);
      assert qs[0] == query;
      match FirstSuccess(qs, Chain(tryYandex))
      case None => []
      case Some(g) => Yandex.GetNearbyStations(nearby, g.latitude, g.longitude, LegacySearchRadius)
  }

  /**
   * The first of the four queries whose geocode chain resolves decides the search: its point
   * is the centre of the nearby lookup, whatever the later queries would give.
   */
  lemma LegacySearchFallback(tryYandex: string -> Option<Point>, nearby: (real, real, int) -> Yandex.NearbyResponse,
                             query: string, k: nat)
    requires !IsBlank(query) && k < |LegacySearchQueries(query)|
    requires Geocode(tryYandex, LegacySearchQueries(query)[k]).Some?
    requires forall j :: 0 <= j < k ==> Geocode(tryYandex, LegacySearchQueries(query)[j]).None?
    ensures var g := Geocode(tryYandex, LegacySearchQueries(query)[k]).value;
      LegacySearchResult(tryYandex, nearby, query) == Yandex.GetNearbyStations(nearby, g.latitude, g.longitude, LegacySearchRadius)
  {
    FirstSuccessAt(LegacySearchQueries(query), Chain(tryYandex), k);
  }

  /**
   * The legacy `SearchStationsAsync`: the query, "Москва q", "станция q" and "остановка q" are
   * geocoded in turn (each through the whole `GeocodeAsync` chain) until one resolves.
   * `tried` is the queries handed to `GeocodeAsync`; a blank query hands none.
   */
  method SearchStations(tryYandex: string -> Option<Point>, nearby: (real, real, int) -> Yandex.NearbyResponse,
                        query: string)
    returns (stations: seq<ExternalStation>, tried: seq<string>)
    ensures stations == LegacySearchResult(tryYandex, nearby, query)
    ensures IsBlank(query) ==> tried == []
    ensures !IsBlank(query) ==> tried == Attempts(LegacySearchQueries(query), Chain(tryYandex))
  {
    if IsBlank(query) {
      return [], [];
    }
    var geo;
    geo, tried := GeocodeInTurn(tryYandex, LegacySearchQueries(query));
    if geo.Some? {
      stations := Yandex.GetNearbyStations(nearby, geo.value.latitude, geo.value.longitude, LegacySearchRadius);
    } else {
      stations := [];
    }
  }

  /**
   * The guarded `GeocodeAsync` calls of the station search: each query is geocoded only while
   * every earlier one failed.
   */
  method GeocodeInTurn(tryYandex: string -> Option<Point>, queries: seq<string>)
    returns (geo: Option<Point>, tried: seq<string>)
    ensures geo == FirstSuccess(queries, Chain(tryYandex))
    ensures tried == Attempts(queries, Chain(tryYandex))
  {
    ghost var chain := Chain(tryYandex);
    geo := None;
    tried := [];
    while geo.None? && |tried| < |queries|
      invariant InTurn(queries, chain, tried, geo)
      decreases |queries| - |tried|
    {
      var next := queries[|tried|];
      InTurnNext(queries, chain, tried, geo);
      var sent;
      geo, sent := GeocodeAsync(tryYandex, next);
      tried := tried + [next];
    }
    InTurnDone(queries, chain, tried, geo);
  }
}
