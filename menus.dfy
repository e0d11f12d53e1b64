/**
 * The inline keyboards the bot sends, as the callback data of their buttons (one inner
 * sequence per keyboard row), and the loops that build them. Each keyboard is truncated to
 * a fixed number of rows, and every button reads back, through the callback parser, as the
 * request it was built for.
 */
module Menus {
  import opened Options
  import opened Text
  import opened Sequences
  import opened Arrivals
  import opened Subscriptions
  import opened Tokens
  import opened Commands

  /** Station lists (nearby, search results) show at most ten stations. */
  const MaxStations: nat := 10

  /** Departure lists and the routes of a stop show at most eight entries. */
  const MaxDepartures: nat := 8

  /** The subscription list offers toggle and delete buttons for its first five entries. */
  const MaxSubscriptionRows: nat := 5

  /** A null route number interpolates as the empty string. */
  function RouteNumberText(a: TransportArrival): string
  {
    a.routeNumber.GetOr("")
  }

  /** One `yst_` button per station, in the order given. */
  function StationMenu(stations: seq<ExternalStation>): (m: seq<seq<string>>)
    ensures |m| == if |stations| < MaxStations then |stations| else MaxStations
    ensures forall i :: 0 <= i < |m| ==> |m[i]| == 1 && StartsWith(m[i][0], "yst_")
  {
    var list := Take(stations, MaxStations);
    seq(|list|, i requires 0 <= i < |list| => [StationToken(list[i].code)])
  }

  /** One `yrt_` button per departure of the station, in the order given. */
  function DepartureMenu(code: string, arrivals: seq<TransportArrival>): (m: seq<seq<string>>)
    ensures |m| == if |arrivals| < MaxDepartures then |arrivals| else MaxDepartures
    ensures forall i :: 0 <= i < |m| ==> |m[i]| == 1 && StartsWith(m[i][0], "yrt_")
  {
    var list := Take(arrivals, MaxDepartures);
    seq(|list|, i requires 0 <= i < |list| => [RouteToken(code, RouteNumberText(list[i]))])
  }

  /** One `route_` button per route serving the stop, in the order given. */
  function RouteChoiceMenu(stopId: int, routes: seq<int>): (m: seq<seq<string>>)
    ensures |m| == if |routes| < MaxDepartures then |routes| else MaxDepartures
    ensures forall i :: 0 <= i < |m| ==> |m[i]| == 1 && StartsWith(m[i][0], "route_")
  {
    var list := Take(routes, MaxDepartures);
    seq(|list|, i requires 0 <= i < |list| => [RouteChoiceToken(stopId, list[i])])
  }

  /** The row of one listed subscription: its toggle button, then its delete button. */
  function SubscriptionRow(s: Subscription): seq<string>
  {
    [IdToken("toggle_", s.id), IdToken("delete_", s.id)]
  }

  /** A `new_location` row, then a toggle and a delete button per listed subscription. */
  function SubscriptionMenu(subs: seq<Subscription>): (m: seq<seq<string>>)
    ensures |m| == 1 + if |subs| < MaxSubscriptionRows then |subs| else MaxSubscriptionRows
    ensures m[0] == ["new_location"]
    ensures forall i :: 1 <= i < |m| ==>
      |m[i]| == 2 && StartsWith(m[i][0], "toggle_") && StartsWith(m[i][1], "delete_")
  {
    var list := Take(subs, MaxSubscriptionRows);
    [["new_location"]] + seq(|list|, i requires 0 <= i < |list| => SubscriptionRow(list[i]))
  }

  /** The nearby and search loops: a button per station of the first ten. */
  method BuildStationMenu(stations: seq<ExternalStation>) returns (menu: seq<seq<string>>)
    ensures menu == StationMenu(stations)
  {
    var list := Take(stations, MaxStations);
    menu := [];
    var i := 0;
    while i < |list|
      invariant 0 <= i <= |list| && |menu| == i
      invariant forall j :: 0 <= j < i ==> menu[j] == [StationToken(list[j].code)]
    {
      menu := menu + [[StationToken(list[i].code)]];
      i := i + 1;
    }
  }

  /** The departures loop: a button per arrival of the first eight. */
  method BuildDepartureMenu(code: string, arrivals: seq<TransportArrival>) returns (menu: seq<seq<string>>)
    ensures menu == DepartureMenu(code, arrivals)
  {
    var list := Take(arrivals, MaxDepartures);
    menu := [];
    var i := 0;
    while i < |list|
      invariant 0 <= i <= |list| && |menu| == i
      invariant forall j :: 0 <= j < i ==> menu[j] == [RouteToken(code, RouteNumberText(list[j]))]
    {
      menu := menu + [[RouteToken(code, RouteNumberText(list[i]))]];
      i := i + 1;
    }
  }

  /** The routes-of-a-stop loop: a button per route of the first eight. */
  method BuildRouteChoiceMenu(stopId: int, routes: seq<int>) returns (menu: seq<seq<string>>)
    ensures menu == RouteChoiceMenu(stopId, routes)
  {
    var list := Take(routes, MaxDepartures);
    menu := [];
    var i := 0;
    while i < |list|
      invariant 0 <= i <= |list| && |menu| == i
      invariant forall j :: 0 <= j < i ==> menu[j] == [RouteChoiceToken(stopId, list[j])]
    {
      menu := menu + [[RouteChoiceToken(stopId, list[i])]];
      i := i + 1;
    }
  }

  /** The subscription list loop: the `new_location` row, then a row per subscription of the first five. */
  method BuildSubscriptionMenu(subs: seq<Subscription>) returns (menu: seq<seq<string>>)
    ensures menu == SubscriptionMenu(subs)
  {
    var list := Take(subs, MaxSubscriptionRows);
    menu := [["new_location"]];
    var i := 0;
    while i < |list|
      invariant 0 <= i <= |list| && |menu| == i + 1 && menu[0] == ["new_location"]
      invariant forall j :: 0 <= j < i ==> menu[j + 1] == SubscriptionRow(list[j])
    {
      menu := menu + [SubscriptionRow(list[i])];
      i := i + 1;
    }
  }

  /** The smaller of a list's length and a keyboard's row limit. */
  function Shown(n: nat, limit: nat): nat
  {
    if n < limit then n else limit
  }

  /** A station keyboard lists the first ten stations, each button asking for its station. */
  lemma StationMenuDispatch(stations: seq<ExternalStation>)
    ensures |StationMenu(stations)| == Shown(|stations|, MaxStations)
    ensures forall i :: 0 <= i < |StationMenu(stations)| ==>
      |StationMenu(stations)[i]| == 1 && ParseCallback(StationMenu(stations)[i][0]) == ShowStation(stations[i].code)
  {
    var menu := StationMenu(stations);
    forall i | 0 <= i < |menu|
      ensures |menu[i]| == 1 && ParseCallback(menu[i][0]) == ShowStation(stations[i].code)
    {
      StationTokenDispatch(stations[i].code);
    }
  }

  /**
   * A departure keyboard lists the first eight arrivals, each button asking for its route at
   * the station, when the station code has no underscore.
   */
  lemma DepartureMenuDispatch(code: string, arrivals: seq<TransportArrival>)
    requires '_' !in code
    ensures |DepartureMenu(code, arrivals)| == Shown(|arrivals|, MaxDepartures)
    ensures forall i :: 0 <= i < |DepartureMenu(code, arrivals)| ==>
      |DepartureMenu(code, arrivals)[i]| == 1
      && ParseCallback(DepartureMenu(code, arrivals)[i][0]) == ShowRoute(code, RouteNumberText(arrivals[i]))
  {
    var menu := DepartureMenu(code, arrivals);
    forall i | 0 <= i < |menu|
      ensures |menu[i]| == 1 && ParseCallback(menu[i][0]) == ShowRoute(code, RouteNumberText(arrivals[i]))
    {
      RouteTokenDispatch(code, RouteNumberText(arrivals[i]));
    }
  }

  /** A route keyboard lists the first eight routes, each button choosing its route at the stop. */
  lemma RouteChoiceMenuDispatch(stopId: int, routes: seq<int>)
    requires InInt32(stopId) && forall i :: 0 <= i < |routes| ==> InInt32(routes[i])
    ensures |RouteChoiceMenu(stopId, routes)| == Shown(|routes|, MaxDepartures)
    ensures forall i :: 0 <= i < |RouteChoiceMenu(stopId, routes)| ==>
      |RouteChoiceMenu(stopId, routes)[i]| == 1
      && ParseCallback(RouteChoiceMenu(stopId, routes)[i][0]) == ChooseRoute(stopId, routes[i])
  {
    var menu := RouteChoiceMenu(stopId, routes);
    forall i | 0 <= i < |menu|
      ensures |menu[i]| == 1 && ParseCallback(menu[i][0]) == ChooseRoute(stopId, routes[i])
    {
      RouteChoiceTokenDispatch(stopId, routes[i]);
    }
  }

  /**
   * The subscription keyboard starts with the new-location button, then pairs a toggle and a
   * delete button for each of the first five subscriptions.
   */
  lemma SubscriptionMenuDispatch(subs: seq<Subscription>)
    requires forall i :: 0 <= i < |subs| ==> InInt32(subs[i].id)
    ensures |SubscriptionMenu(subs)| == 1 + Shown(|subs|, MaxSubscriptionRows)
    ensures SubscriptionMenu(subs)[0] == ["new_location"] && ParseCallback("new_location") == NewLocation
    ensures forall i :: 1 <= i < |SubscriptionMenu(subs)| ==>
      |SubscriptionMenu(subs)[i]| == 2
      && ParseCallback(SubscriptionMenu(subs)[i][0]) == ToggleSubscription(subs[i - 1].id)
      && ParseCallback(SubscriptionMenu(subs)[i][1]) == DeleteSubscription(subs[i - 1].id)
  {
    var menu := SubscriptionMenu(subs);
    NewLocationDispatch();
    forall i | 1 <= i < |menu|
      ensures |menu[i]| == 2
      ensures ParseCallback(menu[i][0]) == ToggleSubscription(subs[i - 1].id)
      ensures ParseCallback(menu[i][1]) == DeleteSubscription(subs[i - 1].id)
    {
      SubscriptionRowDispatch(subs, i);
    }
  }

  /** Row `i` of the subscription keyboard toggles and deletes subscription `i - 1`. */
  lemma SubscriptionRowDispatch(subs: seq<Subscription>, i: nat)
    requires 1 <= i < |SubscriptionMenu(subs)| && InInt32(subs[i - 1].id)
    ensures |SubscriptionMenu(subs)[i]| == 2
    ensures ParseCallback(SubscriptionMenu(subs)[i][0]) == ToggleSubscription(subs[i - 1].id)
    ensures ParseCallback(SubscriptionMenu(subs)[i][1]) == DeleteSubscription(subs[i - 1].id)
  {
    assert SubscriptionMenu(subs)[i] == SubscriptionRow(subs[i - 1]);
    SubscriptionTokenDispatch(subs[i - 1].id);
  }

  lemma NewLocationDispatch()
    ensures ParseCallback("new_location") == NewLocation
  {
    var data := "new_location";
    assert data[0] == 'n' && data[1] == 'e';
    assert data != "moscow_stops" && data != "all_stops" && data != "my_subscriptions";
    assert !StartsWith(data, "yst_") && !StartsWith(data, "yrt_") && !StartsWith(data, "ynotify_");
    assert !StartsWith(data, "stop_") && !StartsWith(data, "route_") && !StartsWith(data, "notify_");
  }

  /** Each external lead-time button subscribes with its own lead time. */
  lemma ExternalLeadMenuDispatch(code: string, route: string)
    requires '_' !in code && '_' !in route
    ensures forall k :: 0 <= k < |LeadTimes| ==>
      ParseCallback(ExternalLeadButtons(code, route)[k]) == SubscribeExternal(code, route, LeadTimes[k])
  {
    forall k | 0 <= k < |LeadTimes|
      ensures ParseCallback(ExternalLeadButtons(code, route)[k]) == SubscribeExternal(code, route, LeadTimes[k])
    {
      NotifyTokenDispatch(code, route, LeadTimes[k]);
    }
  }

  /** Each internal lead-time button subscribes to the route at the stop with its own lead time. */
  lemma InternalLeadMenuDispatch(stopId: int, routeId: int)
    requires InInt32(stopId) && InInt32(routeId)
    ensures forall k :: 0 <= k < |LeadTimes| ==>
      ParseCallback(InternalLeadButtons(stopId, routeId)[k]) == SubscribeInternal(stopId, routeId, LeadTimes[k])
  {
    forall k | 0 <= k < |LeadTimes|
      ensures ParseCallback(InternalLeadButtons(stopId, routeId)[k]) == SubscribeInternal(stopId, routeId, LeadTimes[k])
    {
      InternalNotifyTokenDispatch(stopId, routeId, LeadTimes[k]);
    }
  }
}
