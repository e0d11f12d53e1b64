/**
 * The live schedule provider: board lookups with a three-variant fallback, the ETA of one
 * route, the route-activity test and the nearby-station mapping.
 *
 * The HTTP client is the oracle `fetch(stationCode, query)`; it stands for the whole
 * request, status check, body read and deserialisation of one query.
 */
module Yandex {
  import opened Options
  import opened Arrivals

  /** The board queries of the list and ETA paths, in the order they are tried. */
  const Variants: seq<BoardQuery> := [SuburbanDepartures, Departures, AllEvents]

  /** The responses the three variants would give for one station. */
  function Responses(fetch: (string, BoardQuery) -> BoardResponse, stationCode: string): (rs: seq<BoardResponse>)
    ensures |rs| == |Variants|
    ensures forall i :: 0 <= i < |Variants| ==> rs[i] == fetch(stationCode, Variants[i])
  {
    [fetch(stationCode, Variants[0]), fetch(stationCode, Variants[1]), fetch(stationCode, Variants[2])]
  }

  // ---------------------------------------------------------------------------------------
  // The list path

  /** The list path moves on to the next variant after this response. */
  predicate Skips(r: BoardResponse)
  {
    r.StatusFailed? || r.Undecodable? || (r.Decoded? && !HasBoard(r))
  }

  /**
   * What the list path returns for a sequence of variant responses: the selection from the
   * first non-empty board; nothing when an exception escapes the loop or every variant fails.
   */
  function ArrivalsFrom(rs: seq<BoardResponse>, now: Instant): (r: seq<TransportArrival>)
    ensures |r| <= MaxArrivals
    ensures forall i :: 0 <= i < |r| ==>
      r[i].estimatedArrival > now && r[i].minutesUntilArrival >= 1
    ensures forall i, j :: 0 <= i < j < |r| ==> r[i].estimatedArrival <= r[j].estimatedArrival
  {
    if rs == [] || rs[0].Threw? then []
    else if HasBoard(rs[0]) then SelectArrivals(rs[0].schedule.value, now)
    else ArrivalsFrom(rs[1..], now)
  }

  /**
   * The first non-empty board decides the list, even when none of its departures is upcoming:
   * later variants are not consulted.
   */
  lemma {:induction false} ArrivalsFromFirstBoard(rs: seq<BoardResponse>, now: Instant, k: nat)
    requires k < |rs| && HasBoard(rs[k])
    requires forall j :: 0 <= j < k ==> Skips(rs[j])
    ensures ArrivalsFrom(rs, now) == SelectArrivals(rs[k].schedule.value, now)
    decreases k
  {
    if k > 0 {
      var rest := rs[1..];
      assert Skips(rs[0]) && rest[k - 1] == rs[k];
      assert forall j :: 0 <= j < k - 1 ==> rest[j] == rs[j + 1];
      ArrivalsFromFirstBoard(rest, now, k - 1);
      assert ArrivalsFrom(rs, now) == ArrivalsFrom(rest, now);
    }
  }

  /** The list path from variant `i` on looks at variant `i` first. */
  lemma ArrivalsFromAt(rs: seq<BoardResponse>, now: Instant, i: nat)
    requires i < |rs|
    ensures ArrivalsFrom(rs[i..], now)
      == if rs[i].Threw? then []
         else if HasBoard(rs[i]) then SelectArrivals(rs[i].schedule.value, now)
         else ArrivalsFrom(rs[i + 1..], now)
  {
    assert rs[i..][0] == rs[i] && rs[i..][1..] == rs[i + 1..];
  }

  /** An exception before any board is found ends the list path with no arrivals. */
  lemma {:induction false} ArrivalsFromAbort(rs: seq<BoardResponse>, now: Instant, k: nat)
    requires k < |rs| && rs[k].Threw?
    requires forall j :: 0 <= j < k ==> Skips(rs[j])
    ensures ArrivalsFrom(rs, now) == []
    decreases k
  {
    if k > 0 {
      assert Skips(rs[0]);
      ArrivalsFromAbort(rs[1..], now, k - 1);
    }
  }

  /** When every variant is skipped the list is empty. */
  lemma {:induction false} ArrivalsFromExhausted(rs: seq<BoardResponse>, now: Instant)
    requires forall j :: 0 <= j < |rs| ==> Skips(rs[j])
    ensures ArrivalsFrom(rs, now) == []
    decreases |rs|
  {
    if rs != [] {
      assert Skips(rs[0]);
      ArrivalsFromExhausted(rs[1..], now);
    }
  }

  /**
   * `GetArrivalsAsync(stationCode)`: tries the variants in order and returns the selection of
   * the first non-empty board. `tried` lists the queries issued: a prefix of `Variants` that
   * stops at the first variant not skipped.
   */
  method GetArrivals(fetch: (string, BoardQuery) -> BoardResponse, stationCode: string, now: Instant)
    returns (arrivals: seq<TransportArrival>, tried: seq<BoardQuery>)
    ensures arrivals == ArrivalsFrom(Responses(fetch, stationCode), now)
    ensures 1 <= |tried| <= |Variants| && tried == Variants[..|tried|]
    ensures forall i :: 0 <= i < |tried| - 1 ==> Skips(fetch(stationCode, tried[i]))
    ensures |tried| < |Variants| ==> !Skips(fetch(stationCode, tried[|tried| - 1]))
  {
    ghost var rs := Responses(fetch, stationCode);
    tried := [];
    var i := 0;
    while i < |Variants|
      invariant 0 <= i <= |Variants| && tried == Variants[..i]
      invariant forall j :: 0 <= j < i ==> Skips(fetch(stationCode, tried[j]))
      invariant ArrivalsFrom(rs[i..], now) == ArrivalsFrom(rs, now)
    {
      var response := fetch(stationCode, Variants[i]);
      tried := tried + [Variants[i]];
      ArrivalsFromAt(rs, now, i);
      if response.Threw? {
        return [], tried;
      }
      if HasBoard(response) {
        arrivals := SelectArrivals(response.schedule.value, now);
        return;
      }
      i := i + 1;
    }
    arrivals := [];
  }

  // ---------------------------------------------------------------------------------------
  // The ETA path

  /** How the ETA loop over the variants ended. */
  datatype Scan = Found(minutes: int) | Exhausted | Aborted

  /** The minutes a response gives for the route: only a non-empty board can give any. */
  function ResponseEta(r: BoardResponse, route: string, now: Instant): (m: Option<int>)
    ensures m.Some? ==> HasBoard(r) && m == BoardEta(r.schedule.value, route, now)
    ensures HasBoard(r) ==> m == BoardEta(r.schedule.value, route, now)
  {
    if HasBoard(r) then BoardEta(r.schedule.value, route, now) else None
  }

  /** The ETA path moves on to the next variant after this response. */
  predicate Misses(r: BoardResponse, route: string, now: Instant)
  {
    !r.Threw? && ResponseEta(r, route, now).None?
  }

  /**
   * The ETA loop over a sequence of variant responses: the minutes to the earliest upcoming
   * departure of `route` on the first board that has one.
   */
  function EtaScan(rs: seq<BoardResponse>, route: string, now: Instant): (s: Scan)
    ensures s.Found? ==> s.minutes >= 1
  {
    if rs == [] then Exhausted
    else if rs[0].Threw? then Aborted
    else
      var m := ResponseEta(rs[0], route, now);
      if m.Some? then Found(m.value) else EtaScan(rs[1..], route, now)
  }

  /** The scan from variant `i` on looks at variant `i` first. */
  lemma EtaScanAt(rs: seq<BoardResponse>, route: string, now: Instant, i: nat)
    requires i < |rs|
    ensures EtaScan(rs[i..], route, now)
      == if rs[i].Threw? then Aborted
         else if ResponseEta(rs[i], route, now).Some? then Found(ResponseEta(rs[i], route, now).value)
         else EtaScan(rs[i + 1..], route, now)
  {
    assert rs[i..][0] == rs[i] && rs[i..][1..] == rs[i + 1..];
  }

  /** When every variant misses, the scan is exhausted. */
  lemma {:induction false} EtaScanExhausted(rs: seq<BoardResponse>, route: string, now: Instant)
    requires forall j :: 0 <= j < |rs| ==> Misses(rs[j], route, now)
    ensures EtaScan(rs, route, now) == Exhausted
    decreases |rs|
  {
    if rs != [] {
      assert Misses(rs[0], route, now);
      EtaScanExhausted(rs[1..], route, now);
    }
  }

  /** `-1` when the scan finds nothing, otherwise the minutes it found. */
  function ScanMinutes(s: Scan): int
  {
    if s.Found? then s.minutes else -1
  }

  /**
   * The ETA the loop returns is `-1` exactly when no board before an exception gives the
   * route a departure, and at least one minute otherwise.
   */
  lemma EtaMinutesSentinel(rs: seq<BoardResponse>, route: string, now: Instant)
    ensures ScanMinutes(EtaScan(rs, route, now)) == -1 <==> !EtaScan(rs, route, now).Found?
    ensures EtaScan(rs, route, now).Found? ==> ScanMinutes(EtaScan(rs, route, now)) >= 1
  {
  }

  /** The first board with an upcoming departure of the route decides the ETA. */
  lemma {:induction false} EtaScanFirstMatch(rs: seq<BoardResponse>, route: string, now: Instant, k: nat)
    requires k < |rs| && !rs[k].Threw? && ResponseEta(rs[k], route, now).Some?
    requires forall j :: 0 <= j < k ==> Misses(rs[j], route, now)
    ensures EtaScan(rs, route, now) == Found(ResponseEta(rs[k], route, now).value)
    decreases k
  {
    var eta := ResponseEta(rs[k], route, now);
    if k > 0 {
      var tail := rs[1..];
      assert Misses(rs[0], route, now);
      assert EtaScan(rs, route, now) == EtaScan(tail, route, now);
      forall j | 0 <= j < k - 1
        ensures Misses(tail[j], route, now)
      {
        assert tail[j] == rs[j + 1];
      }
      assert tail[k - 1] == rs[k];
      EtaScanFirstMatch(tail, route, now, k - 1);
    } else {
      assert EtaScan(rs, route, now) == Found(eta.value);
    }
  }

  /** An exception before a match aborts the ETA loop. */
  lemma {:induction false} EtaScanAbort(rs: seq<BoardResponse>, route: string, now: Instant, k: nat)
    requires k < |rs| && rs[k].Threw?
    requires forall j :: 0 <= j < k ==> Misses(rs[j], route, now)
    ensures EtaScan(rs, route, now) == Aborted
    decreases k
  {
    if k > 0 {
      assert Misses(rs[0], route, now);
      EtaScanAbort(rs[1..], route, now, k - 1);
    }
  }

  /**
   * The variant loop of `GetMinutesUntilArrivalAsync(routeNumber, stationCode)`: how it ends,
   * and the queries it issues, a prefix of `Variants` that stops at the first variant that
   * does not miss.
   */
  method ScanVariants(fetch: (string, BoardQuery) -> BoardResponse, routeNumber: string,
                      stationCode: string, now: Instant)
    returns (scan: Scan, tried: seq<BoardQuery>)
    ensures scan == EtaScan(Responses(fetch, stationCode), routeNumber, now)
    ensures 1 <= |tried| <= |Variants| && tried == Variants[..|tried|]
    ensures forall i :: 0 <= i < |tried| - 1 ==> Misses(fetch(stationCode, tried[i]), routeNumber, now)
    ensures |tried| < |Variants| ==> !Misses(fetch(stationCode, tried[|tried| - 1]), routeNumber, now)
  {
    ghost var rs := Responses(fetch, stationCode);
    tried := [];
    var i := 0;
    while i < |Variants|
      invariant 0 <= i <= |Variants| && tried == Variants[..i]
      invariant forall j :: 0 <= j < i ==> Misses(fetch(stationCode, tried[j]), routeNumber, now)
      invariant EtaScan(rs[i..], routeNumber, now) == EtaScan(rs, routeNumber, now)
    {
      var response := fetch(stationCode, Variants[i]);
      tried := tried + [Variants[i]];
      EtaScanAt(rs, routeNumber, now, i);
      if response.Threw? {
        return Aborted, tried;
      }
      var next := ResponseEta(response, routeNumber, now);
      if next.Some? {
        return Found(next.value), tried;
      }
      i := i + 1;
    }
    scan := Exhausted;
  }

  /**
   * `GetMinutesUntilArrivalAsync(routeNumber, stationCode)`: `-1` or the minutes (at least
   * one) to the route's next departure on the first variant that lists one.
   */
  method GetMinutesUntilArrival(fetch: (string, BoardQuery) -> BoardResponse, routeNumber: string,
                                stationCode: string, now: Instant)
    returns (minutes: int)
    ensures minutes == ScanMinutes(EtaScan(Responses(fetch, stationCode), routeNumber, now))
    ensures minutes == -1 || minutes >= 1
  {
    var scan, tried := ScanVariants(fetch, routeNumber, stationCode, now);
    minutes := if scan.Found? then scan.minutes else -1;
  }

  /**
   * The list and ETA paths agree: a route that appears among the listed arrivals has an ETA,
   * and that ETA is no later than the listed arrival.
   */
  lemma {:induction false} ListedRouteHasEta(rs: seq<BoardResponse>, route: string, now: Instant, i: nat)
    requires i < |ArrivalsFrom(rs, now)| && ArrivalsFrom(rs, now)[i].routeNumber == Some(route)
    ensures EtaScan(rs, route, now).Found?
    ensures EtaScan(rs, route, now).minutes <= ArrivalsFrom(rs, now)[i].minutesUntilArrival
    decreases |rs|
  {
    assert !rs[0].Threw?;
    if HasBoard(rs[0]) {
      var board := rs[0].schedule.value;
      assert ArrivalsFrom(rs, now) == SelectArrivals(board, now);
      SelectedRouteHasEta(board, route, now, i);
      assert ResponseEta(rs[0], route, now) == BoardEta(board, route, now);
    } else {
      assert ArrivalsFrom(rs, now) == ArrivalsFrom(rs[1..], now);
      assert ResponseEta(rs[0], route, now).None?;
      ListedRouteHasEta(rs[1..], route, now, i);
    }
  }

  /** `IsRouteActiveAsync`: some listed arrival carries exactly this route number. */
  method IsRouteActive(fetch: (string, BoardQuery) -> BoardResponse, routeNumber: string,
                       stationCode: string, now: Instant)
    returns (active: bool)
    ensures active <==> exists a :: (a in ArrivalsFrom(Responses(fetch, stationCode), now)
      && a.routeNumber == Some(routeNumber))
    ensures active ==> EtaScan(Responses(fetch, stationCode), routeNumber, now).Found?
  {
    var arrivals, _ := GetArrivals(fetch, stationCode, now);
    active := exists a | a in arrivals :: a.routeNumber == Some(routeNumber);
    if active {
      var a :| a in arrivals && a.routeNumber == Some(routeNumber);
      var i :| 0 <= i < |arrivals| && arrivals[i] == a;
      ListedRouteHasEta(Responses(fetch, stationCode), routeNumber, now, i);
    }
  }

  // ---------------------------------------------------------------------------------------
  // Nearby stations

  /** One element of the `stations` array of the nearest-stations response. */
  datatype YandexStation = YandexStation(
    code: Option<string>,
    title: Option<string>,
    stationType: Option<string>,
    transportType: Option<string>,
    latitude: real,
    longitude: real,
    distance: real)

  /**
   * The nearest-stations response: `NearbyFailed` is a failure status or an exception (from
   * the request or from deserialisation), which all end in the empty list.
   */
  datatype NearbyResponse = NearbyFailed | NearbyDecoded(stations: Option<seq<YandexStation>>)

  /** The radius sent with the nearby query: `Math.Max(distanceMeters, 2000)`. */
  function NearbyRadius(distanceMeters: int): (r: int)
    ensures r >= 2000 && r >= distanceMeters
    ensures r == 2000 || r == distanceMeters
  {
    if distanceMeters < 2000 then 2000 else distanceMeters
  }

  /** The mapping of one decoded station: missing code and title become empty strings. */
  function ToExternalStation(s: YandexStation): (e: ExternalStation)
    ensures s.code.Some? ==> e.code == s.code.value
    ensures s.code.None? ==> e.code == ""
    ensures s.title.Some? ==> e.title == s.title.value
    ensures s.title.None? ==> e.title == ""
    ensures e.transportType == s.transportType
    ensures (e.latitude, e.longitude, e.distance) == (s.latitude, s.longitude, s.distance)
  {
    ExternalStation(s.code.GetOr(""), s.title.GetOr(""), s.transportType, s.latitude, s.longitude, s.distance)
  }

  /** The stations of a nearby response, one per decoded element, in response order. */
  function NearbyStations(response: NearbyResponse): (r: seq<ExternalStation>)
    ensures response.NearbyFailed? || response.stations.None? ==> r == []
    ensures response.NearbyDecoded? && response.stations.Some? ==>
      |r| == |response.stations.value|
      && forall i :: 0 <= i < |r| ==> r[i] == ToExternalStation(response.stations.value[i])
  {
    if response.NearbyFailed? || response.stations.None? then
      []
    else
      seq(|response.stations.value|, i requires 0 <= i < |response.stations.value| =>
        ToExternalStation(response.stations.value[i]))
  }

  /** `GetNearbyStationsAsync`: the nearby oracle is asked with the raised radius. */
  function GetNearbyStations(nearby: (real, real, int) -> NearbyResponse, latitude: real, longitude: real,
                             distanceMeters: int): (r: seq<ExternalStation>)
    ensures distanceMeters >= 2000 ==> r == NearbyStations(nearby(latitude, longitude, distanceMeters))
    ensures distanceMeters < 2000 ==> r == NearbyStations(nearby(latitude, longitude, 2000))
  {
    NearbyStations(nearby(latitude, longitude, NearbyRadius(distanceMeters)))
  }

  /** Any requested radius up to 2000 metres gives the same stations as 2000. */
  lemma NearbyRadiusFloor(nearby: (real, real, int) -> NearbyResponse, latitude: real, longitude: real,
                          distanceMeters: int)
    requires distanceMeters <= 2000
    ensures GetNearbyStations(nearby, latitude, longitude, distanceMeters)
         == GetNearbyStations(nearby, latitude, longitude, 2000)
  {
  }
}
