/**
 * Schedule boards and the arrivals derived from them: the board selection both providers
 * share (keep the departures strictly after `now`, order them by departure, take the first
 * ten or the first one of a route) and the minute arithmetic.
 *
 * Instants are whole seconds on one clock; `DateTime.MinValue` is instant 0. Every call
 * receives the current instant once, as `now`.
 */
module Arrivals {
  import opened Options
  import opened Text
  import opened Sequences

  type Instant = int

  /** `(int)Math.Ceiling(TimeSpan.FromSeconds(seconds).TotalMinutes)`. */
  function CeilMinutes(seconds: int): (m: int)
    ensures 60 * (m - 1) < seconds <= 60 * m
  {
    (seconds + 59) / 60
  }

  /** `Math.Max(0, CeilMinutes(departure - now))`: the minutes shown to the user. */
  function MinutesUntil(departure: Instant, now: Instant): (m: int)
    ensures m >= 0
    ensures departure > now ==> m >= 1 && 60 * (m - 1) < departure - now <= 60 * m
    ensures departure <= now ==> m == 0
  {
    var c := CeilMinutes(departure - now);
    if c < 0 then 0 else c
  }

  /** The `thread` object of a board entry. */
  datatype Thread = Thread(
    uid: Option<string>,
    number: Option<string>,
    title: Option<string>,
    transportType: Option<string>)

  /** One entry of a schedule board; `departure` is already parsed into an instant. */
  datatype BoardItem = BoardItem(departure: Option<Instant>, thread: Option<Thread>)

  /** The arrival record handed to callers. */
  datatype TransportArrival = TransportArrival(
    routeName: string,
    routeType: string,
    routeNumber: Option<string>,
    minutesUntilArrival: int,
    estimatedArrival: Instant)

  /** A station as returned by the nearby and search operations; coordinates pass through. */
  datatype ExternalStation = ExternalStation(
    code: string,
    title: string,
    transportType: Option<string>,
    latitude: real,
    longitude: real,
    distance: real)

  /**
   * The board queries the services issue for a station: the three fallback variants of the
   * board lookups, the metro departures of the legacy id-based ETA and the surface departures
   * of the legacy arrival text.
   */
  datatype BoardQuery = SuburbanDepartures | Departures | AllEvents | MetroDepartures | SurfaceDepartures

  /**
   * What one board request yields: a failure status, an exception from the request itself
   * (sending it or reading its body), an exception from deserialisation, or a decoded
   * response whose `schedule` may be missing.
   */
  datatype BoardResponse =
    | StatusFailed
    | Threw
    | Undecodable
    | Decoded(schedule: Option<seq<BoardItem>>)

  /** `scheduleData?.Schedule?.Any() == true`. */
  predicate HasBoard(r: BoardResponse)
  {
    r.Decoded? && r.schedule.Some? && r.schedule.value != []
  }

  /** `s.Thread?.Number`. */
  function Number(e: BoardItem): Option<string>
  {
    if e.thread.Some? then e.thread.value.number else None
  }

  /** `s.Departure.HasValue && s.Departure.Value > now`. */
  predicate IsUpcoming(e: BoardItem, now: Instant)
  {
    e.departure.Some? && e.departure.value > now
  }

  /** The sort key of `OrderBy(s => s.Departure)`; only upcoming entries are ever sorted. */
  function DepartureKey(e: BoardItem): int
  {
    e.departure.GetOr(0)
  }

  /** `GetTransportTypeName`: the Russian name of a transport type, ignoring case. */
  function TransportTypeName(transportType: Option<string>): (name: string)
    ensures name in ["Автобус", "Троллейбус", "Трамвай", "Электричка", "Метро", "Транспорт"]
    ensures transportType.None? ==> name == "Транспорт"
  {
    if transportType.None? then "Транспорт"
    else
      var t := ToLower(transportType.value);
      if t == "bus" then "Автобус"
      else if t == "trolleybus" then "Троллейбус"
      else if t == "tram" then "Трамвай"
      else if t == "suburban" then "Электричка"
      else if t == "metro" then "Метро"
      else "Транспорт"
  }

  /** The type name does not depend on the letter case of the transport type. */
  lemma TransportTypeNameIgnoresCase(a: string, b: string)
    requires EqualsIgnoreCase(a, b)
    ensures TransportTypeName(Some(a)) == TransportTypeName(Some(b))
  {
  }

  /** The five known transport types, in any letter case, and the fallback for the rest. */
  lemma TransportTypeNames(t: string)
    ensures TransportTypeName(None) == "Транспорт"
    ensures ToLower(t) == "bus" ==> TransportTypeName(Some(t)) == "Автобус"
    ensures ToLower(t) == "trolleybus" ==> TransportTypeName(Some(t)) == "Троллейбус"
    ensures ToLower(t) == "tram" ==> TransportTypeName(Some(t)) == "Трамвай"
    ensures ToLower(t) == "suburban" ==> TransportTypeName(Some(t)) == "Электричка"
    ensures ToLower(t) == "metro" ==> TransportTypeName(Some(t)) == "Метро"
    ensures ToLower(t) !in ["bus", "trolleybus", "tram", "suburban", "metro"] ==>
      TransportTypeName(Some(t)) == "Транспорт"
  {
  }

  /** `s.Thread?.Title ?? s.Thread?.Number ?? "Маршрут"`. */
  function RouteName(thread: Option<Thread>): (name: string)
    ensures thread.Some? && thread.value.title.Some? ==> name == thread.value.title.value
    ensures thread.Some? && thread.value.title.None? && thread.value.number.Some? ==>
      name == thread.value.number.value
    ensures (thread.None? || (thread.value.title.None? && thread.value.number.None?)) ==> name == "Маршрут"
  {
    if thread.None? then "Маршрут"
    else if thread.value.title.Some? then thread.value.title.value
    else thread.value.number.GetOr("Маршрут")
  }

  /** The `Select` of `GetArrivalsAsync`: one board entry as an arrival. */
  function ToArrival(e: BoardItem, now: Instant): (a: TransportArrival)
    ensures IsUpcoming(e, now) ==>
      a.estimatedArrival == e.departure.value && a.estimatedArrival > now && a.minutesUntilArrival >= 1
    ensures a.routeName == RouteName(e.thread)
  {
    var dep := DepartureKey(e);
    TransportArrival(
      RouteName(e.thread),
      TransportTypeName(if e.thread.Some? then e.thread.value.transportType else None),
      Number(e),
      CeilMinutes(dep - now),
      dep)
  }

  /** The filter of the list path: the entry departs after `now`. */
  function UpcomingAt(now: Instant): BoardItem -> bool
  {
    e => IsUpcoming(e, now)
  }

  /** The upcoming entries of a board in ascending order of departure. */
  function Upcoming(schedule: seq<BoardItem>, now: Instant): (r: seq<BoardItem>)
    ensures SortedBy(r, DepartureKey)
    ensures forall i :: 0 <= i < |r| ==> IsUpcoming(r[i], now) && r[i] in schedule
    ensures forall i :: 0 <= i < |schedule| && IsUpcoming(schedule[i], now) ==> schedule[i] in r
  {
    var kept := Where(schedule, UpcomingAt(now));
    SortByMembers(kept, DepartureKey);
    assert forall x :: x in kept ==> IsUpcoming(x, now) && x in schedule;
    SortBy(kept, DepartureKey)
  }

  /**
   * The sorted list is a reordering of the filtered board: each upcoming entry is listed as
   * often as it is on the board, and nothing else is.
   */
  lemma UpcomingCount(schedule: seq<BoardItem>, now: Instant, e: BoardItem)
    ensures multiset(Upcoming(schedule, now)) == multiset(Where(schedule, UpcomingAt(now)))
    ensures multiset(Upcoming(schedule, now))[e] == if IsUpcoming(e, now) then multiset(schedule)[e] else 0
  {
    WhereMultiset(schedule, UpcomingAt(now), e);
  }

  /** Entries departing at the same instant stay in board order, as `OrderBy` keeps them. */
  lemma UpcomingStable(schedule: seq<BoardItem>, now: Instant, k: int)
    ensures WithKey(Upcoming(schedule, now), DepartureKey, k) == WithKey(Where(schedule, UpcomingAt(now)), DepartureKey, k)
  {
    SortByStable(Where(schedule, UpcomingAt(now)), DepartureKey, k);
  }

  /** How many arrivals `GetArrivalsAsync` lists at most. */
  const MaxArrivals := 10

  /**
   * The board selection of `GetArrivalsAsync`: the (at most ten) earliest upcoming departures
   * in ascending order, each at least one minute away.
   */
  function SelectArrivals(schedule: seq<BoardItem>, now: Instant): (r: seq<TransportArrival>)
    ensures |r| <= MaxArrivals
    ensures forall i :: 0 <= i < |r| ==>
      r[i].estimatedArrival > now && r[i].minutesUntilArrival >= 1
    ensures forall i, j :: 0 <= i < j < |r| ==> r[i].estimatedArrival <= r[j].estimatedArrival
  {
    Select(Take(Upcoming(schedule, now), MaxArrivals), e => ToArrival(e, now))
  }

  /** Every listed arrival is an upcoming entry of the board. */
  lemma SelectArrivalsFromBoard(schedule: seq<BoardItem>, now: Instant, i: int)
    requires 0 <= i < |SelectArrivals(schedule, now)|
    ensures exists e :: e in schedule && IsUpcoming(e, now) && SelectArrivals(schedule, now)[i] == ToArrival(e, now)
  {
    var u := Upcoming(schedule, now);
    assert SelectArrivals(schedule, now)[i] == ToArrival(u[i], now);
  }

  /**
   * No upcoming entry is left out unless ten arrivals are listed and the last of them departs
   * no later than it.
   */
  lemma SelectArrivalsEarliest(schedule: seq<BoardItem>, now: Instant, e: BoardItem)
    requires e in schedule && IsUpcoming(e, now)
    ensures var r := SelectArrivals(schedule, now);
      (exists i :: 0 <= i < |r| && r[i] == ToArrival(e, now))
      || (|r| == MaxArrivals && r[MaxArrivals - 1].estimatedArrival <= e.departure.value)
  {
    var r := SelectArrivals(schedule, now);
    var u := Upcoming(schedule, now);
    var k :| 0 <= k < |schedule| && schedule[k] == e;
    assert e in u;
    var j :| 0 <= j < |u| && u[j] == e;
    if j >= MaxArrivals {
      assert DepartureKey(u[MaxArrivals - 1]) <= DepartureKey(u[j]);
      assert r[MaxArrivals - 1] == ToArrival(u[MaxArrivals - 1], now);
    } else {
      assert r[j] == ToArrival(e, now);
    }
  }

  /** Entry `e` is an upcoming departure of route `route`. */
  predicate Serves(e: BoardItem, route: string, now: Instant)
  {
    Number(e) == Some(route) && IsUpcoming(e, now)
  }

  /** The filter of the ETA path: an upcoming departure of `route`. */
  function ServesAt(route: string, now: Instant): BoardItem -> bool
  {
    e => Serves(e, route, now)
  }

  /** The upcoming entries of route `route` in ascending order of departure. */
  function RouteDepartures(schedule: seq<BoardItem>, route: string, now: Instant): (r: seq<BoardItem>)
    ensures SortedBy(r, DepartureKey)
    ensures forall i :: 0 <= i < |r| ==> Serves(r[i], route, now) && r[i] in schedule
    ensures forall i :: 0 <= i < |schedule| && Serves(schedule[i], route, now) ==> schedule[i] in r
  {
    var kept := Where(schedule, ServesAt(route, now));
    SortByMembers(kept, DepartureKey);
    assert forall x :: x in kept ==> Serves(x, route, now) && x in schedule;
    SortBy(kept, DepartureKey)
  }

  /**
   * The sorted list is a reordering of the filtered board: each upcoming departure of the
   * route is kept as often as it is on the board, and nothing else is.
   */
  lemma RouteDeparturesCount(schedule: seq<BoardItem>, route: string, now: Instant, e: BoardItem)
    ensures multiset(RouteDepartures(schedule, route, now)) == multiset(Where(schedule, ServesAt(route, now)))
    ensures multiset(RouteDepartures(schedule, route, now))[e]
      == if Serves(e, route, now) then multiset(schedule)[e] else 0
  {
    WhereMultiset(schedule, ServesAt(route, now), e);
  }

  /** Departures of the route at the same instant stay in board order. */
  lemma RouteDeparturesStable(schedule: seq<BoardItem>, route: string, now: Instant, k: int)
    ensures WithKey(RouteDepartures(schedule, route, now), DepartureKey, k)
      == WithKey(Where(schedule, ServesAt(route, now)), DepartureKey, k)
  {
    SortByStable(Where(schedule, ServesAt(route, now)), DepartureKey, k);
  }

  /**
   * The `FirstOrDefault` of the ETA path: the earliest upcoming entry whose thread number is
   * exactly `route` (ordinal, case-sensitive), if there is one.
   */
  function NextDeparture(schedule: seq<BoardItem>, route: string, now: Instant): (r: Option<BoardItem>)
    ensures r.Some? <==> exists e :: e in schedule && Serves(e, route, now)
    ensures r.Some? ==> r.value in schedule && Serves(r.value, route, now)
    ensures r.Some? ==> forall e :: e in schedule && Serves(e, route, now) ==>
      r.value.departure.value <= e.departure.value
  {
    var sorted := RouteDepartures(schedule, route, now);
    forall e | e in schedule && Serves(e, route, now) ensures e in sorted {
      var k :| 0 <= k < |schedule| && schedule[k] == e;
    }
    if sorted == [] then None
    else
      forall e | e in schedule && Serves(e, route, now)
        ensures sorted[0].departure.value <= e.departure.value
      {
        var j :| 0 <= j < |sorted| && sorted[j] == e;
        assert DepartureKey(sorted[0]) <= DepartureKey(sorted[j]);
      }
      Some(sorted[0])
  }

  /** The minutes the ETA path reports for a board: `Math.Max(0, minutes)` of `NextDeparture`. */
  function BoardEta(schedule: seq<BoardItem>, route: string, now: Instant): (m: Option<int>)
    ensures m.Some? <==> exists e :: e in schedule && Serves(e, route, now)
    ensures m.Some? ==> m.value >= 1 && exists e :: (e in schedule && Serves(e, route, now)
      && m.value == MinutesUntil(e.departure.value, now))
    ensures m.Some? ==> forall e :: e in schedule && Serves(e, route, now) ==>
      m.value <= MinutesUntil(e.departure.value, now)
  {
    var next := NextDeparture(schedule, route, now);
    if next.None? then None
    else
      var m := MinutesUntil(next.value.departure.value, now);
      forall e | e in schedule && Serves(e, route, now)
        ensures m <= MinutesUntil(e.departure.value, now)
      {
        MinutesMonotonic(next.value.departure.value, e.departure.value, now);
      }
      Some(m)
  }

  /** A route listed among a board's arrivals has an estimate, no later than the listed one. */
  lemma SelectedRouteHasEta(schedule: seq<BoardItem>, route: string, now: Instant, i: nat)
    requires i < |SelectArrivals(schedule, now)| && SelectArrivals(schedule, now)[i].routeNumber == Some(route)
    ensures BoardEta(schedule, route, now).Some?
    ensures BoardEta(schedule, route, now).value <= SelectArrivals(schedule, now)[i].minutesUntilArrival
  {
    SelectArrivalsFromBoard(schedule, now, i);
    var e :| e in schedule && IsUpcoming(e, now) && SelectArrivals(schedule, now)[i] == ToArrival(e, now);
    assert Serves(e, route, now);
    assert ToArrival(e, now).minutesUntilArrival == MinutesUntil(e.departure.value, now);
  }

  /** A later departure is never fewer minutes away. */
  lemma MinutesMonotonic(a: Instant, b: Instant, now: Instant)
    requires a <= b
    ensures MinutesUntil(a, now) <= MinutesUntil(b, now)
  {
  }
}
