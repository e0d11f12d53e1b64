/**
 * The transport service the bot uses: integer-id overloads that forward to the live
 * provider, the two-step station search over the geocoding service, and the geocode mapping.
 * The string overloads and the nearby lookup forward their arguments unchanged, so they are
 * the `Yandex` members themselves.
 */
module Refactored {
  import opened Options
  import opened Text
  import opened Arrivals
  import opened Geocoding
  import Yandex

  /** `GetMinutesUntilArrivalAsync(int routeId, int stopId)`: the ids become route number and station code. */
  method GetMinutesUntilArrivalById(fetch: (string, BoardQuery) -> BoardResponse, routeId: int, stopId: int,
                                    now: Instant)
    returns (minutes: int)
    ensures minutes == Yandex.ScanMinutes(
      Yandex.EtaScan(Yandex.Responses(fetch, IntToString(stopId)), IntToString(routeId), now))
    ensures minutes == -1 || minutes >= 1
  {
    minutes := Yandex.GetMinutesUntilArrival(fetch, IntToString(routeId), IntToString(stopId), now);
  }

  /** `GetArrivalsAsync(int stopId)`: the arrivals of the station whose code is the decimal id. */
  method GetArrivalsById(fetch: (string, BoardQuery) -> BoardResponse, stopId: int, now: Instant)
    returns (arrivals: seq<TransportArrival>)
    ensures arrivals == Yandex.ArrivalsFrom(Yandex.Responses(fetch, IntToString(stopId)), now)
  {
    var tried;
    arrivals, tried := Yandex.GetArrivals(fetch, IntToString(stopId), now);
  }

  /** The station code `IsRouteActiveAsync(int routeId)` always asks about. */
  const DefaultStation := "default"

  /** `IsRouteActiveAsync(int routeId)`: whether the route is listed at station "default". */
  method IsRouteActiveById(fetch: (string, BoardQuery) -> BoardResponse, routeId: int, now: Instant)
    returns (active: bool)
    ensures active <==> exists a :: (a in Yandex.ArrivalsFrom(Yandex.Responses(fetch, DefaultStation), now)
      && a.routeNumber == Some(IntToString(routeId)))
  {
    active := Yandex.IsRouteActive(fetch, IntToString(routeId), DefaultStation, now);
  }

  /** Distinct ids address distinct station codes and route numbers. */
  lemma IdsStayDistinct(a: int, b: int)
    requires InInt32(a) && InInt32(b) && a != b
    ensures IntToString(a) != IntToString(b)
  {
    ParseIntToString(a);
    ParseIntToString(b);
  }

  /** What the geocoding service returns for a query it resolves. */
  datatype GeocodeResult = GeocodeResult(latitude: real, longitude: real, displayName: string)

  /** `GeocodeAsync`: the service's result reduced to its coordinates. */
  function Geocode(geocoder: string -> Option<GeocodeResult>, query: string): (r: Option<Point>)
    ensures r.Some? <==> geocoder(query).Some?
    ensures r.Some? ==>
      r.value.latitude == geocoder(query).value.latitude && r.value.longitude == geocoder(query).value.longitude
  {
    match geocoder(query)
    case None => None
    case Some(g) => Some(Point(g.latitude, g.longitude))
  }

  /** The queries of the two-step search, in order. */
  function SearchQueries(query: string): seq<string>
  {
    [query, "Москва " + query]
  }

  /** The radius of the nearby search that follows a successful geocode. */
  const SearchRadius := 5000

  /**
   * The stations `SearchStationsAsync` returns: none for a blank query or when both geocodes
   * fail, otherwise the stations near the first geocoded point.
   */
  function SearchResult(geocoder: string -> Option<GeocodeResult>, nearby: (real, real, int) -> Yandex.NearbyResponse,
                        query: string): (r: seq<ExternalStation>)
    ensures IsBlank(query) ==> r == []
    ensures FirstSuccess(SearchQueries(query), geocoder).None? ==> r == []
    ensures !IsBlank(query) && geocoder(query).Some? ==>
      r == Yandex.GetNearbyStations(nearby, geocoder(query).value.latitude, geocoder(query).value.longitude, SearchRadius)
    ensures !IsBlank(query) && geocoder(query).None? && geocoder("Москва " + query).Some? ==>
      var g := geocoder("Москва " + query).value;
      r == Yandex.GetNearbyStations(nearby, g.latitude, g.longitude, SearchRadius)
  {
    if IsBlank(query) then []
    else
      var queries := SearchQueries(query);
      assert queries[0] == query && queries[1] == "Москва " + query;
      match FirstSuccess(queries, geocoder)
      case None => []
      case Some(g) => Yandex.GetNearbyStations(nearby, g.latitude, g.longitude, SearchRadius)
  }

  /**
   * `SearchStationsAsync`: geocode the query, then "Москва {query}" only if that fails, then
   * list the stations within 5000 m. `tried` is the queries sent to the geocoder; a blank
   * query sends none.
   */
  method SearchStations(geocoder: string -> Option<GeocodeResult>, nearby: (real, real, int) -> Yandex.NearbyResponse,
                        query: string)
    returns (stations: seq<ExternalStation>, tried: seq<string>)
    ensures stations == SearchResult(geocoder, nearby, query)
    ensures IsBlank(query) ==> tried == []
    ensures !IsBlank(query) ==> tried == Attempts(SearchQueries(query), geocoder)
  {
    if IsBlank(query) {
      return [], [];
    }
    var result := geocoder(query);
    tried := [query];
    if result.None? {
      result := geocoder("Москва " + query);
      tried := tried + ["Москва " + query];
    }
    assert result == FirstSuccess(SearchQueries(query), geocoder);
    if result.Some? {
      var found := Yandex.GetNearbyStations(nearby, result.value.latitude, result.value.longitude, SearchRadius);
      if found != [] {
        return found, tried;
      }
    }
    stations := [];
  }
}
