/**
 * The secondary provider of the legacy resolver: stop arrivals read from the `routes` array
 * of a stop document (earliest time per route, clamped at zero minutes, sorted by minutes),
 * the two stop endpoints, and the nearby-stop mapping.
 *
 * A JSON document is given by the shape the parser sees: which properties are present, of
 * which kind, and what `DateTime.TryParse` makes of each time string. An element of the wrong
 * kind makes `TryGetProperty`, `GetString` or `GetDouble` throw; the parsers catch that once,
 * around the whole walk, and keep what they had collected.
 */
module Mosgorpass {
  import opened Options
  import opened Text
  import opened Sequences
  import opened Arrivals

  /** The result of a step that may throw. */
  datatype Outcome<T> = Done(value: T) | Failed

  /** A property read with `GetString()`: missing, JSON null, a string, or another kind (throws). */
  datatype JsonText = Missing | JsonNull | Text(s: string) | NotText

  /** The `time` property of an object in an `arrivals` array; a string carries its parse result. */
  datatype TimeField = NoTime | TimeNull | TimeText(parsed: Option<Instant>) | TimeNotText

  /** One element of an `arrivals` or `times` array. */
  datatype TimeItem =
    | TimeString(parsed: Option<Instant>)   // a string element and its `DateTime.TryParse` result
    | TimeObject(time: TimeField)           // an object element
    | TimeOther                             // a number, null, array or boolean element

  /**
   * One element of the `routes` array. `arrivals` and `times` are present only when the
   * property exists and is an array.
   */
  datatype RouteElem =
    | RouteObject(number: JsonText, arrivals: Option<seq<TimeItem>>, times: Option<seq<TimeItem>>)
    | RouteNotObject

  /**
   * A stop document: `StopMalformed` when it does not parse or its root is not an object
   * (both throw); otherwise its `routes` property when that is an array.
   */
  datatype StopDocument = StopMalformed | StopObject(routes: Option<seq<RouteElem>>)

  // ---------------------------------------------------------------------------------------
  // Earliest time per route

  /** `nearest = dt` when there is no nearest time yet or `dt` is earlier. */
  function Earlier(nearest: Option<Instant>, t: Instant): (r: Option<Instant>)
    ensures r.Some? && r.value <= t
    ensures nearest.Some? ==> r.value <= nearest.value
    ensures r == Some(t) || r == nearest
  {
    if nearest.None? || t < nearest.value then Some(t) else nearest
  }

  /**
   * What an element of an `arrivals` array contributes: a parsed string, or an object whose
   * `time` string parses. A string that does not parse falls through to `TryGetProperty`,
   * which throws on a non-object, as does a `time` that is not a string.
   */
  function ArrivalItemTime(a: TimeItem): (r: Outcome<Option<Instant>>)
    ensures a.TimeOther? ==> r.Failed?
    ensures a.TimeString? && a.parsed.Some? ==> r == Done(a.parsed)
    ensures r.Done? && r.value.Some? ==> a.TimeString? || (a.TimeObject? && a.time.TimeText?)
  {
    match a
    case TimeString(parsed) => if parsed.Some? then Done(parsed) else Failed
    case TimeObject(time) =>
      (match time
       case TimeText(parsed) => Done(parsed)
       case TimeNotText => Failed
       case _ => Done(None))
    case TimeOther => Failed
  }

  /** What an element of a `times` array contributes: only parsed strings count. */
  function TimesItemTime(t: TimeItem): Option<Instant>
  {
    if t.TimeString? then t.parsed else None
  }

  /** The loop over an `arrivals` array: the earliest time so far, or the exception that stopped it. */
  function EarliestArrival(items: seq<TimeItem>): (r: Outcome<Option<Instant>>)
    ensures r.Failed? <==> exists i :: 0 <= i < |items| && ArrivalItemTime(items[i]).Failed?
    ensures r.Done? ==> forall i :: 0 <= i < |items| && ArrivalItemTime(items[i]).Done? ==>
      (ArrivalItemTime(items[i]).value.Some? ==> r.value.Some? && r.value.value <= ArrivalItemTime(items[i]).value.value)
    ensures r.Done? && r.value.Some? ==> exists i :: 0 <= i < |items| && ArrivalItemTime(items[i]) == r
    decreases |items|
  {
    if items == [] then Done(None)
    else
      var init := items[..|items| - 1];
      var prev := EarliestArrival(init);
      assert forall i :: 0 <= i < |init| ==> init[i] == items[i];
      if prev.Failed? then Failed
      else
        match ArrivalItemTime(items[|items| - 1])
        case Failed => Failed
        case Done(t) => if t.None? then prev else Done(Earlier(prev.value, t.value))
  }

  /** The loop over a `times` array: the earliest parsed string, if any. */
  function EarliestTime(items: seq<TimeItem>): (r: Option<Instant>)
    ensures forall i :: 0 <= i < |items| && TimesItemTime(items[i]).Some? ==>
      r.Some? && r.value <= TimesItemTime(items[i]).value
    ensures r.Some? ==> exists i :: 0 <= i < |items| && TimesItemTime(items[i]) == r
    decreases |items|
  {
    if items == [] then None
    else
      var init := items[..|items| - 1];
      var prev := EarliestTime(init);
      assert forall i :: 0 <= i < |init| ==> init[i] == items[i];
      var t := TimesItemTime(items[|items| - 1]);
      if t.None? then prev else Earlier(prev, t.value)
  }

  /** The number of a route element: null when missing or JSON null; a throw when not a string. */
  function RouteNumber(r: RouteElem): Outcome<Option<string>>
  {
    match r
    case RouteNotObject => Failed
    case RouteObject(number, _, _) =>
      (match number
       case Text(s) => Done(Some(s))
       case NotText => Failed
       case _ => Done(None))
  }

  /** The nearest time of a route object: its `arrivals` array when present, else its `times` array. */
  function RouteNearest(r: RouteElem): (n: Outcome<Option<Instant>>)
    requires r.RouteObject?
    ensures n.Failed? ==> r.arrivals.Some?
    ensures n.Done? && n.value.Some? ==> r.arrivals.Some? || r.times.Some?
    ensures r.arrivals.None? && r.times.Some? ==>
      n.Done? && forall i :: 0 <= i < |r.times.value| && TimesItemTime(r.times.value[i]).Some? ==>
        n.value.Some? && n.value.value <= TimesItemTime(r.times.value[i]).value
  {
    if r.arrivals.Some? then EarliestArrival(r.arrivals.value)
    else if r.times.Some? then Done(EarliestTime(r.times.value))
    else Done(None)
  }

  /** The arrival a route with number `number` and nearest time `t` yields. */
  function MgsArrival(number: string, t: Instant, now: Instant): (a: TransportArrival)
    ensures a.routeName == "Автобус №" + number && a.routeType == "bus" && a.routeNumber == Some(number)
    ensures a.minutesUntilArrival >= 0 && (a.minutesUntilArrival == 0 <==> t <= now)
    ensures a.estimatedArrival == now + 60 * a.minutesUntilArrival
    ensures a.estimatedArrival >= t && (t > now ==> a.estimatedArrival - t < 60)
  {
    var m := MinutesUntil(t, now);
    TransportArrival("Автобус №" + number, "bus", Some(number), m, now + 60 * m)
  }

  /** One iteration of the loop over `routes`: no arrival, one arrival, or an exception. */
  function RouteStep(r: RouteElem, now: Instant): (o: Outcome<Option<TransportArrival>>)
    ensures o.Failed? <==>
      r.RouteNotObject? || r.number.NotText? || (r.number.Text? && !IsBlank(r.number.s) && RouteNearest(r).Failed?)
    ensures o.Done? && o.value.Some? ==>
      r.RouteObject? && r.number.Text? && !IsBlank(r.number.s)
      && RouteNearest(r).Done? && RouteNearest(r).value.Some?
      && o.value.value == MgsArrival(r.number.s, RouteNearest(r).value.value, now)
    ensures (r.RouteObject? && r.number.Text? && !IsBlank(r.number.s)
             && RouteNearest(r).Done? && RouteNearest(r).value.Some?) ==>
      o == Done(Some(MgsArrival(r.number.s, RouteNearest(r).value.value, now)))
  {
    match RouteNumber(r)
    case Failed => Failed
    case Done(number) =>
      if number.None? || IsBlank(number.value) then Done(None)
      else
        match RouteNearest(r)
        case Failed => Failed
        case Done(nearest) =>
          if nearest.None? then Done(None) else Done(Some(MgsArrival(number.value, nearest.value, now)))
  }

  /**
   * The shape of every arrival the parser emits: a non-blank bus route number, minutes not
   * below zero and the estimate that many minutes after `now`.
   */
  predicate Normalised(a: TransportArrival, now: Instant)
  {
    && a.routeType == "bus" && a.routeNumber.Some? && !IsBlank(a.routeNumber.value)
    && a.routeName == "Автобус №" + a.routeNumber.value
    && a.minutesUntilArrival >= 0 && a.estimatedArrival == now + 60 * a.minutesUntilArrival
  }

  /** The state of the loop over `routes`: the arrivals collected and whether an exception ended it. */
  datatype Collected = Collected(list: seq<TransportArrival>, stopped: bool)

  /** The loop over `routes`, as far as `routes` goes. */
  function CollectRoutes(routes: seq<RouteElem>, now: Instant): (c: Collected)
    ensures |c.list| <= |routes|
    ensures forall i :: 0 <= i < |c.list| ==> Normalised(c.list[i], now)
    decreases |routes|
  {
    if routes == [] then Collected([], false)
    else
      var init := routes[..|routes| - 1];
      var prev := CollectRoutes(init, now);
      if prev.stopped then prev
      else
        match RouteStep(routes[|routes| - 1], now)
        case Failed => Collected(prev.list, true)
        case Done(a) => if a.None? then prev else Collected(prev.list + [a.value], false)
  }

  /** The arrival a route yields when nothing throws: one for a route that has one, else none. */
  function YieldOf(r: RouteElem, now: Instant): seq<TransportArrival>
  {
    var o := RouteStep(r, now);
    if o.Done? && o.value.Some? then [o.value.value] else []
  }

  /** The arrivals of the routes in their order, one for each route that yields one. */
  function Yields(routes: seq<RouteElem>, now: Instant): seq<TransportArrival>
    decreases |routes|
  {
    if routes == [] then [] else YieldOf(routes[0], now) + Yields(routes[1..], now)
  }

  lemma {:induction false} YieldsSnoc(routes: seq<RouteElem>, r: RouteElem, now: Instant)
    ensures Yields(routes + [r], now) == Yields(routes, now) + YieldOf(r, now)
    decreases |routes|
  {
    if routes == [] {
      assert [r][1..] == [];
      assert Yields([r], now) == YieldOf(r, now) + Yields([], now);
    } else {
      assert (routes + [r])[0] == routes[0] && (routes + [r])[1..] == routes[1..] + [r];
      YieldsSnoc(routes[1..], r, now);
      AppendRegroup(Yields(routes + [r], now), YieldOf(routes[0], now), Yields(routes[1..] + [r], now),
        Yields(routes[1..], now), YieldOf(r, now));
    }
  }

  /** With no route throwing, the loop runs to the end and collects what the routes yield. */
  lemma {:induction false} CollectRoutesNoFault(routes: seq<RouteElem>, now: Instant)
    requires forall i :: 0 <= i < |routes| ==> !RouteStep(routes[i], now).Failed?
    ensures CollectRoutes(routes, now) == Collected(Yields(routes, now), false)
    decreases |routes|
  {
    if routes != [] {
      var init, last := routes[..|routes| - 1], routes[|routes| - 1];
      assert forall i :: 0 <= i < |init| ==> init[i] == routes[i];
      CollectRoutesNoFault(init, now);
      assert routes == init + [last];
      CollectRoutesStep(init, last, now);
      YieldsSnoc(init, last, now);
    }
  }

  /** A route that does not throw adds what it yields to a loop that is still running. */
  lemma CollectRoutesStep(init: seq<RouteElem>, last: RouteElem, now: Instant)
    requires !CollectRoutes(init, now).stopped && !RouteStep(last, now).Failed?
    ensures CollectRoutes(init + [last], now) == Collected(CollectRoutes(init, now).list + YieldOf(last, now), false)
  {
    var routes := init + [last];
    assert routes[..|routes| - 1] == init && routes[|routes| - 1] == last;
  }

  /** Once an exception has ended the loop, later routes change nothing. */
  lemma {:induction false} CollectAfterStop(routes: seq<RouteElem>, rest: seq<RouteElem>, now: Instant)
    requires CollectRoutes(routes, now).stopped
    ensures CollectRoutes(routes + rest, now) == CollectRoutes(routes, now)
    decreases |rest|
  {
    if rest != [] {
      var all := routes + rest;
      assert all[..|all| - 1] == routes + rest[..|rest| - 1];
      CollectAfterStop(routes, rest[..|rest| - 1], now);
      assert CollectRoutes(all[..|all| - 1], now).stopped;
    } else {
      assert routes + rest == routes;
    }
  }

  /** The sort key of `OrderBy(a => a.MinutesUntilArrival)`. */
  function MinutesKey(a: TransportArrival): int
  {
    a.minutesUntilArrival
  }

  /**
   * `ParseMosgorpassArrivals`: the collected arrivals, partial when an exception ended the
   * walk, sorted by minutes.
   */
  function ArrivalsOfStop(doc: StopDocument, now: Instant): (r: seq<TransportArrival>)
    ensures SortedBy(r, MinutesKey)
    ensures forall i :: 0 <= i < |r| ==> Normalised(r[i], now)
    ensures doc.StopMalformed? || doc.routes.None? ==> r == []
    ensures doc.StopObject? && doc.routes.Some? ==>
      multiset(r) == multiset(CollectRoutes(doc.routes.value, now).list)
  {
    if doc.StopMalformed? || doc.routes.None? then []
    else
      var collected := CollectRoutes(doc.routes.value, now).list;
      var r := SortBy(collected, MinutesKey);
      assert forall i :: 0 <= i < |r| ==> r[i] in multiset(collected);
      r
  }

  /** A route whose only time has passed still yields an arrival, due in zero minutes. */
  lemma PastTimeKept(number: string, t: Instant, now: Instant)
    requires !IsBlank(number) && t <= now
    ensures ArrivalsOfStop(StopObject(Some([RouteObject(Text(number), Some([TimeString(Some(t))]), None)])), now)
         == [TransportArrival("Автобус №" + number, "bus", Some(number), 0, now)]
  {
    var items := [TimeString(Some(t))];
    assert items[..0] == [];
    assert EarliestArrival(items) == Done(Some(t));
    var route := RouteObject(Text(number), Some(items), None);
    var a := MgsArrival(number, t, now);
    assert a == TransportArrival("Автобус №" + number, "bus", Some(number), 0, now);
    assert RouteStep(route, now) == Done(Some(a));
    var routes := [route];
    assert routes[..0] == [];
    assert CollectRoutes(routes, now) == Collected([a], false);
    assert SortBy([a], MinutesKey) == [a];
  }

  /**
   * An exception in route `k` keeps the arrivals of the routes before it and ignores the
   * routes after it.
   */
  lemma FaultKeepsEarlierRoutes(routes: seq<RouteElem>, k: nat, now: Instant)
    requires k < |routes| && !CollectRoutes(routes[..k], now).stopped
    requires RouteStep(routes[k], now).Failed?
    ensures CollectRoutes(routes, now).list == CollectRoutes(routes[..k], now).list
    ensures CollectRoutes(routes, now).stopped
  {
    var upto := routes[..k + 1];
    assert upto[..k] == routes[..k];
    assert CollectRoutes(upto, now).stopped;
    assert routes == upto + routes[k + 1..];
    CollectAfterStop(upto, routes[k + 1..], now);
  }

  /**
   * The loop over `routes` collects, in route order, what the routes before the first one
   * that throws yield, and reports whether one threw.
   */
  lemma CollectRoutesUntilFault(routes: seq<RouteElem>, now: Instant, k: nat)
    requires k <= |routes|
    requires forall i :: 0 <= i < k ==> !RouteStep(routes[i], now).Failed?
    requires k < |routes| ==> RouteStep(routes[k], now).Failed?
    ensures CollectRoutes(routes, now) == Collected(Yields(routes[..k], now), k < |routes|)
  {
    assert forall i :: 0 <= i < k ==> routes[..k][i] == routes[i];
    CollectRoutesNoFault(routes[..k], now);
    if k == |routes| {
      assert routes[..k] == routes;
    } else {
      FaultKeepsEarlierRoutes(routes, k, now);
    }
  }

  /**
   * The parser returns, reordered by minutes, exactly what the routes before the first one
   * that throws yield.
   */
  lemma ArrivalsOfStopYields(routes: seq<RouteElem>, now: Instant, k: nat)
    requires k <= |routes|
    requires forall i :: 0 <= i < k ==> !RouteStep(routes[i], now).Failed?
    requires k < |routes| ==> RouteStep(routes[k], now).Failed?
    ensures multiset(ArrivalsOfStop(StopObject(Some(routes)), now)) == multiset(Yields(routes[..k], now))
  {
    CollectRoutesUntilFault(routes, now, k);
  }

  /** The inner loop over an `arrivals` array; `faulted` reports the exception that ends it. */
  method NearestOfArrivals(items: seq<TimeItem>) returns (nearest: Option<Instant>, faulted: bool)
    ensures faulted <==> EarliestArrival(items).Failed?
    ensures !faulted ==> EarliestArrival(items) == Done(nearest)
  {
    nearest := None;
    var j := 0;
    while j < |items|
      invariant 0 <= j <= |items|
      invariant EarliestArrival(items[..j]) == Done(nearest)
    {
      assert items[..j + 1][..j] == items[..j] && items[..j + 1][j] == items[j];
      var a := items[j];
      if a.TimeString? && a.parsed.Some? {
        nearest := Earlier(nearest, a.parsed.value);
      } else if a.TimeObject? && !a.time.NoTime? && !a.time.TimeNull? {
        if a.time.TimeNotText? {
          assert EarliestArrival(items[..j + 1]).Failed?;
          return nearest, true;
        }
        if a.time.parsed.Some? {
          nearest := Earlier(nearest, a.time.parsed.value);
        }
      } else if !a.TimeObject? {
        assert EarliestArrival(items[..j + 1]).Failed?;
        return nearest, true;
      }
      j := j + 1;
    }
    assert items[..|items|] == items;
    faulted := false;
  }

  /** The inner loop over a `times` array. */
  method NearestOfTimes(items: seq<TimeItem>) returns (nearest: Option<Instant>)
    ensures nearest == EarliestTime(items)
  {
    nearest := None;
    var j := 0;
    while j < |items|
      invariant 0 <= j <= |items|
      invariant EarliestTime(items[..j]) == nearest
    {
      assert items[..j + 1][..j] == items[..j] && items[..j + 1][j] == items[j];
      if items[j].TimeString? && items[j].parsed.Some? {
        nearest := Earlier(nearest, items[j].parsed.value);
      }
      j := j + 1;
    }
    assert items[..|items|] == items;
  }

  /** The body of the loop over `routes` for one route element. */
  method ParseRoute(r: RouteElem, now: Instant) returns (step: Outcome<Option<TransportArrival>>)
    ensures step == RouteStep(r, now)
  {
    var number := RouteNumber(r);
    if number.Failed? {
      return Failed;
    }
    if number.value.None? || IsBlank(number.value.value) {
      return Done(None);
    }
    var nearest: Option<Instant> := None;
    var faulted := false;
    if r.arrivals.Some? {
      nearest, faulted := NearestOfArrivals(r.arrivals.value);
    } else if r.times.Some? {
      nearest := NearestOfTimes(r.times.value);
    }
    if faulted {
      return Failed;
    }
    if nearest.Some? {
      return Done(Some(MgsArrival(number.value.value, nearest.value, now)));
    }
    return Done(None);
  }

  /**
   * The parser as the source writes it: nested loops that keep the earliest time per route and
   * add one arrival per route, stopping at the first exception.
   */
  method ParseMosgorpassArrivals(doc: StopDocument, now: Instant) returns (arrivals: seq<TransportArrival>)
    ensures arrivals == ArrivalsOfStop(doc, now)
  {
    if doc.StopMalformed? || doc.routes.None? {
      return [];
    }
    var routes := doc.routes.value;
    var list: seq<TransportArrival> := [];
    var i := 0;
    while i < |routes|
      invariant 0 <= i <= |routes|
      invariant CollectRoutes(routes[..i], now) == Collected(list, false)
    {
      assert routes[..i + 1][..i] == routes[..i] && routes[..i + 1][i] == routes[i];
      var step := ParseRoute(routes[i], now);
      if step.Failed? {
        break;
      }
      if step.value.Some? {
        list := list + [step.value.value];
      }
      i := i + 1;
    }
    if i < |routes| {
      FaultKeepsEarlierRoutes(routes, i, now);
    } else {
      assert routes[..i] == routes;
    }
    arrivals := SortBy(list, MinutesKey);
  }

  // ---------------------------------------------------------------------------------------
  // Stop endpoints

  /** The two stop endpoints, in the order they are tried. */
  datatype Endpoint = V82 | Widgets

  const Endpoints: seq<Endpoint> := [V82, Widgets]

  /** One stop request: a failure status or an exception from the request, or a body. */
  datatype StopResponse = StopFailed | StopBody(doc: StopDocument)

  /** The namespace prefix of secondary-provider station codes. */
  const MgsPrefix := "mgs:"

  /** The stop id of a `mgs:` station code: the code without its four-character prefix. */
  function StopId(stationCode: string): (id: string)
    requires StartsWith(stationCode, MgsPrefix)
    ensures MgsPrefix + id == stationCode
  {
    stationCode[4..]
  }

  /** The arrivals an endpoint response yields. */
  function EndpointArrivals(r: StopResponse, now: Instant): seq<TransportArrival>
  {
    if r.StopFailed? then [] else ArrivalsOfStop(r.doc, now)
  }

  /** One attempt of the endpoint loop: a failed request gives nothing, a body is parsed. */
  method TryEndpoint(response: StopResponse, now: Instant) returns (list: seq<TransportArrival>)
    ensures list == EndpointArrivals(response, now)
  {
    list := [];
    if response.StopBody? {
      list := ParseMosgorpassArrivals(response.doc, now);
    }
  }

  /**
   * `TryGetMosgorpassArrivalsAsync`: nothing for a code outside the `mgs:` namespace;
   * otherwise the first non-empty parse of the two endpoints.
   */
  function MgsArrivals(stop: (Endpoint, string) -> StopResponse, stationCode: string, now: Instant)
    : (r: seq<TransportArrival>)
    ensures !StartsWith(stationCode, MgsPrefix) ==> r == []
    ensures StartsWith(stationCode, MgsPrefix) ==>
      var first := EndpointArrivals(stop(V82, StopId(stationCode)), now);
      r == if first != [] then first else EndpointArrivals(stop(Widgets, StopId(stationCode)), now)
  {
    if !StartsWith(stationCode, MgsPrefix) then []
    else
      var first := EndpointArrivals(stop(V82, StopId(stationCode)), now);
      if first != [] then first else EndpointArrivals(stop(Widgets, StopId(stationCode)), now)
  }

  /** The fetched list satisfies what the parser promises: sorted by minutes, none negative. */
  lemma MgsArrivalsSorted(stop: (Endpoint, string) -> StopResponse, stationCode: string, now: Instant)
    ensures SortedBy(MgsArrivals(stop, stationCode, now), MinutesKey)
    ensures forall a :: a in MgsArrivals(stop, stationCode, now) ==> a.minutesUntilArrival >= 0
  {
  }

  /**
   * The endpoint loop as the source writes it. `tried` lists the endpoints asked: none for a
   * code outside the namespace, and the second only when the first gave nothing.
   */
  method TryGetMosgorpassArrivals(stop: (Endpoint, string) -> StopResponse, stationCode: string, now: Instant)
    returns (arrivals: seq<TransportArrival>, tried: seq<Endpoint>)
    ensures arrivals == MgsArrivals(stop, stationCode, now)
    ensures !StartsWith(stationCode, MgsPrefix) ==> tried == []
    ensures StartsWith(stationCode, MgsPrefix) ==>
      1 <= |tried| <= 2 && tried == Endpoints[..|tried|]
      && (|tried| == 2 <==> EndpointArrivals(stop(V82, StopId(stationCode)), now) == [])
  {
    tried := [];
    if !StartsWith(stationCode, MgsPrefix) {
      return [], tried;
    }
    var id := stationCode[4..];
    assert id == StopId(stationCode);
    assert Endpoints[0] == V82 && Endpoints[1] == Widgets;
    var k := 0;
    while k < |Endpoints|
      invariant 0 <= k <= |Endpoints| && tried == Endpoints[..k]
      invariant forall j :: 0 <= j < k ==> EndpointArrivals(stop(Endpoints[j], id), now) == []
    {
      tried := tried + [Endpoints[k]];
      var list := TryEndpoint(stop(Endpoints[k], id), now);
      if list != [] {
        return list, tried;
      }
      k := k + 1;
    }
    arrivals := [];
  }

  // ---------------------------------------------------------------------------------------
  // Nearby stops

  /** A coordinate read with `GetDouble()`: missing, a number, or another kind (throws). */
  datatype JsonNumber = NoNumber | Number(value: real) | NotNumber

  /**
   * One element of the nearby array (the root array, or the root's `stops` array); `id` is
   * the raw text of the id property with its quotes trimmed.
   */
  datatype NearbyElem =
    | NearbyObject(id: Option<string>, name: JsonText, latitude: JsonNumber, longitude: JsonNumber)
    | NearbyNotObject

  /** A nearby document: the elements of its stop array, or none (malformed or no such array). */
  datatype NearbyDocument = NearbyElements(elements: seq<NearbyElem>) | NoElements

  /** An element carries a non-blank id and name and both coordinates. */
  predicate Complete(e: NearbyElem)
  {
    && e.NearbyObject?
    && !IsNullOrWhiteSpace(e.id)
    && e.name.Text? && !IsBlank(e.name.s)
    && e.latitude.Number? && e.longitude.Number?
  }

  /** Reading the four properties throws for an element of the wrong kind. */
  predicate Throws(e: NearbyElem)
  {
    e.NearbyNotObject? || e.name.NotText? || e.latitude.NotNumber? || e.longitude.NotNumber?
  }

  /** The station a complete element maps to. */
  function StationOf(e: NearbyElem): (s: ExternalStation)
    requires Complete(e)
    ensures s.code == MgsPrefix + e.id.value && s.title == e.name.s
    ensures s.transportType == Some("bus") && s.distance == 0.0
  {
    ExternalStation(MgsPrefix + e.id.value, e.name.s, Some("bus"), e.latitude.value, e.longitude.value, 0.0)
  }

  /** What one element adds to the list. */
  function StationsOf(e: NearbyElem): (r: seq<ExternalStation>)
    ensures |r| <= 1
  {
    if Complete(e) then [StationOf(e)] else []
  }

  /** The complete elements mapped in input order: a reference definition, front to back. */
  function CompleteStations(es: seq<NearbyElem>): (r: seq<ExternalStation>)
    ensures |r| <= |es|
  {
    if es == [] then [] else StationsOf(es[0]) + CompleteStations(es[1..])
  }

  lemma {:induction false} CompleteStationsAppend(es: seq<NearbyElem>, e: NearbyElem)
    ensures CompleteStations(es + [e]) == CompleteStations(es) + StationsOf(e)
    decreases |es|
  {
    if es != [] {
      assert (es + [e])[1..] == es[1..] + [e];
      CompleteStationsAppend(es[1..], e);
    }
  }

  /** The state of the nearby loop: the stations collected and whether an exception ended it. */
  datatype NearbyState = NearbyState(list: seq<ExternalStation>, stopped: bool)

  /** The nearby loop over a prefix of the elements. */
  function CollectNearby(es: seq<NearbyElem>): (s: NearbyState)
    ensures |s.list| <= |es|
    decreases |es|
  {
    if es == [] then NearbyState([], false)
    else
      var init := es[..|es| - 1];
      var last := es[|es| - 1];
      var prev := CollectNearby(init);
      if prev.stopped then prev
      else if Throws(last) then NearbyState(prev.list, true)
      else NearbyState(prev.list + StationsOf(last), false)
  }

  /**
   * The loop runs to the end exactly when no element throws, and then it has collected the
   * complete elements in input order.
   */
  lemma {:induction false} CollectNearbyComplete(es: seq<NearbyElem>)
    ensures !CollectNearby(es).stopped <==> forall i :: 0 <= i < |es| ==> !Throws(es[i])
    ensures !CollectNearby(es).stopped ==> CollectNearby(es).list == CompleteStations(es)
    decreases |es|
  {
    if es != [] {
      var init := es[..|es| - 1];
      var last := es[|es| - 1];
      CollectNearbyComplete(init);
      assert es == init + [last];
      assert forall i :: 0 <= i < |init| ==> init[i] == es[i];
      CompleteStationsAppend(init, last);
    }
  }

  /** One more element: a stopped walk stays stopped, a throwing element stops it, any other adds its station. */
  lemma CollectNearbyStep(es: seq<NearbyElem>, e: NearbyElem)
    ensures CollectNearby(es + [e]) ==
      if CollectNearby(es).stopped then CollectNearby(es)
      else if Throws(e) then NearbyState(CollectNearby(es).list, true)
      else NearbyState(CollectNearby(es).list + StationsOf(e), false)
  {
    var all := es + [e];
    assert all[..|all| - 1] == es && all[|all| - 1] == e;
  }

  /** `ParseMosgorpassNearby`: the stations collected before any exception. */
  function NearbyOfDocument(doc: NearbyDocument): seq<ExternalStation>
  {
    if doc.NoElements? then [] else CollectNearby(doc.elements).list
  }

  /**
   * Without a faulty element, the nearby stations are exactly the complete elements, in input
   * order, each coded `mgs:` + id, of type "bus", at distance 0.
   */
  lemma NearbyWithoutFaults(es: seq<NearbyElem>)
    requires forall i :: 0 <= i < |es| ==> !Throws(es[i])
    ensures NearbyOfDocument(NearbyElements(es)) == CompleteStations(es)
  {
    CollectNearbyComplete(es);
  }

  /**
   * The parser as the source writes it: all four properties are read before the completeness
   * check, so an element of the wrong kind stops the walk even when it would be skipped.
   */
  method ParseMosgorpassNearby(doc: NearbyDocument) returns (stations: seq<ExternalStation>)
    ensures stations == NearbyOfDocument(doc)
  {
    if doc.NoElements? {
      return [];
    }
    var es := doc.elements;
    var list: seq<ExternalStation> := [];
    var i := 0;
    while i < |es|
      invariant 0 <= i <= |es|
      invariant CollectNearby(es[..i]) == NearbyState(list, false)
    {
      var e := es[i];
      assert es[..i + 1] == es[..i] + [e];
      CollectNearbyStep(es[..i], e);
      if Throws(e) {
        break;
      }
      if Complete(e) {
        list := list + [StationOf(e)];
      }
      i := i + 1;
    }
    if i < |es| {
      var upto := es[..i + 1];
      assert upto == es[..i] + [es[i]];
      CollectNearbyStep(es[..i], es[i]);
      NearbyAfterStop(upto, es[i + 1..]);
      assert upto + es[i + 1..] == es;
    } else {
      assert es[..i] == es;
    }
    stations := list;
  }

  /** Once an exception has ended the nearby loop, later elements change nothing. */
  lemma {:induction false} NearbyAfterStop(es: seq<NearbyElem>, rest: seq<NearbyElem>)
    requires CollectNearby(es).stopped
    ensures CollectNearby(es + rest) == CollectNearby(es)
    decreases |rest|
  {
    if rest != [] {
      var all := es + rest;
      assert all[..|all| - 1] == es + rest[..|rest| - 1];
      NearbyAfterStop(es, rest[..|rest| - 1]);
      assert CollectNearby(all[..|all| - 1]).stopped;
    } else {
      assert es + rest == es;
    }
  }
}
