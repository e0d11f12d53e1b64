/**
 * The bot's update handlers: each incoming update becomes a list of outgoing replies and,
 * for some callbacks and commands, a change to the user or subscription store. Reply
 * wording is not modelled; a reply names what it says and carries the data it shows, and a
 * keyboard carries the callback data of its buttons.
 */
module Bot {
  import opened Options
  import opened Text
  import opened Sequences
  import opened Arrivals
  import opened Tables
  import opened Users
  import opened Subscriptions
  import opened Tokens
  import opened Commands
  import opened Menus

  /** What a reply says. */
  datatype Note =
    | Welcome
    | HelpText
    | ShareLocationHint
    | NewLocationPrompt
    | Unrecognised
    | GenericError
    | SearchUsage
    | Searching(query: string)
    | StationsFound(query: string)
    | NoStationsFound(query: string)
    | DiagUsage
    | Diagnosing(code: string)
    | DiagnosticSample(count: nat, sample: seq<TransportArrival>)
    | BoardEmpty
    | StationUsage
    | StationLoading(code: string)
    | DepartureList
    | NoDepartures
    | LocationUsage
    | LocationUpdated(latitude: real, longitude: real)
    | LocationReceived(latitude: real, longitude: real)
    | SearchingNearby
    | NearbyStations
    | NoStationsNearby
    | LocationNotSet
    | ArrivalIn(route: string, code: string, minutes: int)
    | NoArrivalData(route: string)
    | LeadQuestion
    | ExternalCreated(code: string, route: string, minutes: int)
    | StopChosen(stopId: int)
    | RoutePrompt
    | NoRoutes
    | RouteChosen(stopId: int, routeId: int)
    | InternalCreated(stopId: int, routeId: int, minutes: int)
    | SubscriptionList(subscriptions: seq<Subscription>)
    | NoSubscriptions
    | RegisterFirst
    | SubscriptionDeleted
    | DeleteFailed
    | SubscriptionToggled(active: bool)
    | ToggleFailed

  /** An outgoing message to a chat: plain, with an inline keyboard, or asking for a location. */
  datatype Reply =
    | Say(chat: int, note: Note)
    | Keyboard(chat: int, note: Note, buttons: seq<seq<string>>)
    | AskLocation(chat: int, note: Note)

  /**
   * The collaborators the handlers call, as functions of their arguments: the transport
   * provider (arrivals of a station, minutes until a route reaches a station, stations near
   * a point within a distance, stations matching a name), the stop and route catalogue (is
   * there a stop or route with that id, the routes serving a stop) and the invariant-culture
   * `double.TryParse`.
   */
  datatype Services = Services(
    arrivals: string -> seq<TransportArrival>,
    minutesUntil: (string, string) -> int,
    nearby: (real, real, int) -> seq<ExternalStation>,
    search: string -> seq<ExternalStation>,
    stopExists: int -> bool,
    routeExists: int -> bool,
    routesAtStop: int -> seq<int>,
    parseReal: string -> Option<real>)

  /** The distance, in metres, of the nearby-station lookups. */
  const NearbyDistance := 1200

  // ---------------------------------------------------------------------------------------
  // Callback branches

  /**
   * The replies to a chosen station (`yst_` or `/station`): a loading note, then the
   * departure keyboard for the first eight arrivals, or a note that there are none.
   */
  predicate DeparturesShown(svc: Services, chat: int, code: string, replies: seq<Reply>)
  {
    && |replies| == 2 && replies[0] == Say(chat, StationLoading(code))
    && (svc.arrivals(code) == [] ==> replies[1] == Say(chat, NoDepartures))
    && (svc.arrivals(code) != [] ==>
          replies[1] == Keyboard(chat, DepartureList, DepartureMenu(code, svc.arrivals(code))))
  }

  /** A station was chosen: its departures are shown. */
  method ShowDepartures(svc: Services, chat: int, code: string) returns (replies: seq<Reply>)
    ensures DeparturesShown(svc, chat, code, replies)
  {
    replies := [Say(chat, StationLoading(code))];
    var list := Take(svc.arrivals(code), MaxDepartures);
    if list != [] {
      var menu := BuildDepartureMenu(code, svc.arrivals(code));
      replies := replies + [Keyboard(chat, DepartureList, menu)];
    } else {
      replies := replies + [Say(chat, NoDepartures)];
    }
  }

  /**
   * The replies to a chosen departure (`yrt_`): the estimate when one is known (not
   * negative), a no-data note otherwise, and in both cases the lead-time keyboard for that
   * station and route.
   */
  predicate RouteEtaShown(svc: Services, chat: int, code: string, route: string, replies: seq<Reply>)
  {
    && |replies| == 2 && replies[1] == Keyboard(chat, LeadQuestion, ExternalLeadMenu(code, route))
    && (svc.minutesUntil(route, code) >= 0 ==>
          replies[0] == Say(chat, ArrivalIn(route, code, svc.minutesUntil(route, code))))
    && (svc.minutesUntil(route, code) < 0 ==> replies[0] == Say(chat, NoArrivalData(route)))
  }

  /** A departure was chosen: its estimate and the lead-time keyboard are shown. */
  method ShowRouteEta(svc: Services, chat: int, code: string, route: string) returns (replies: seq<Reply>)
    ensures RouteEtaShown(svc, chat, code, route, replies)
  {
    var minutes := svc.minutesUntil(route, code);
    if minutes >= 0 {
      replies := [Say(chat, ArrivalIn(route, code, minutes))];
    } else {
      replies := [Say(chat, NoArrivalData(route))];
    }
    replies := replies + [Keyboard(chat, LeadQuestion, ExternalLeadMenu(code, route))];
  }

  /**
   * A lead time was chosen for a live-provider route (`ynotify_`): the user is looked up by
   * the chat id; when there is one, an active subscription to that station and route with
   * that lead time, no internal ids and no notification yet is stored and confirmed;
   * otherwise nothing happens.
   */
  predicate ExternalSubscribed(user: Option<User>, rows0: seq<Subscription>, nextId0: int, rows1: seq<Subscription>,
                               chat: int, code: string, route: string, minutes: int, now: Instant, replies: seq<Reply>)
  {
    && (user.None? ==> replies == [] && rows1 == rows0)
    && (user.Some? ==>
          var s := Subscription(nextId0, user.value.id, None, None, Some(code), Some(route), minutes, true,
                                NeverNotified, now);
          rows1 == rows0 + [s] && Find(rows1, SubscriptionId, s.id) == Some(s)
          && replies == [Say(chat, ExternalCreated(code, route, minutes))])
  }

  /** A lead time was chosen for a live-provider route: the subscription is stored for the chat's user. */
  method CreateExternalSubscription(users: UserStore, subs: SubscriptionStore, chat: int, code: string, route: string,
                           minutes: int, now: Instant)
    returns (replies: seq<Reply>)
    requires users.Valid() && subs.Valid()
    modifies subs
    ensures subs.Valid()
    ensures ExternalSubscribed(users.GetUserByTelegramId(chat), old(subs.rows), old(subs.nextId), subs.rows,
                               chat, code, route, minutes, now, replies)
  {
    var user := users.GetUserByTelegramId(chat);
    if user.None? {
      return [];
    }
    var created := subs.CreateSubscription(
      Subscription(0, user.value.id, None, None, Some(code), Some(route), minutes, true, NeverNotified, now));
    replies := [Say(chat, ExternalCreated(code, route, minutes))];
  }

  /**
   * The replies to a chosen catalogue stop (`stop_`): nothing for an unknown stop; otherwise
   * a note and the keyboard of the first eight routes serving it, or a note that there are
   * none.
   */
  predicate StopRoutesShown(svc: Services, chat: int, stopId: int, replies: seq<Reply>)
  {
    && (!svc.stopExists(stopId) ==> replies == [])
    && (svc.stopExists(stopId) ==>
          && |replies| == 2 && replies[0] == Say(chat, StopChosen(stopId))
          && replies[1] == if svc.routesAtStop(stopId) == [] then Say(chat, NoRoutes)
                           else Keyboard(chat, RoutePrompt, RouteChoiceMenu(stopId, svc.routesAtStop(stopId))))
  }

  /** A catalogue stop was chosen: its routes are shown. */
  method ShowStopRoutes(svc: Services, chat: int, stopId: int) returns (replies: seq<Reply>)
    ensures StopRoutesShown(svc, chat, stopId, replies)
  {
    if !svc.stopExists(stopId) {
      return [];
    }
    replies := [Say(chat, StopChosen(stopId))];
    var routes := svc.routesAtStop(stopId);
    if routes != [] {
      var menu := BuildRouteChoiceMenu(stopId, routes);
      replies := replies + [Keyboard(chat, RoutePrompt, menu)];
    } else {
      replies := replies + [Say(chat, NoRoutes)];
    }
  }

  /**
   * The replies to a catalogue route chosen at a stop (`route_`): when both exist, a note and
   * the lead-time keyboard for that stop and route; otherwise nothing.
   */
  predicate RouteChoiceShown(svc: Services, chat: int, stopId: int, routeId: int, replies: seq<Reply>)
  {
    && (!(svc.stopExists(stopId) && svc.routeExists(routeId)) ==> replies == [])
    && (svc.stopExists(stopId) && svc.routeExists(routeId) ==>
          replies == [Say(chat, RouteChosen(stopId, routeId)), Keyboard(chat, LeadQuestion, InternalLeadMenu(stopId, routeId))])
  }

  /** A catalogue route was chosen at a stop: the lead-time keyboard is shown. */
  method ChooseRouteAtStop(svc: Services, chat: int, stopId: int, routeId: int) returns (replies: seq<Reply>)
    ensures RouteChoiceShown(svc, chat, stopId, routeId, replies)
  {
    if svc.stopExists(stopId) && svc.routeExists(routeId) {
      replies := [Say(chat, RouteChosen(stopId, routeId)), Keyboard(chat, LeadQuestion, InternalLeadMenu(stopId, routeId))];
    } else {
      replies := [];
    }
  }

  /**
   * A lead time was chosen for a catalogue route (`notify_`): the user is looked up by the
   * chat id; when there is one, an active subscription to that stop and route with that lead
   * time, no live-provider fields and no notification yet is stored and confirmed; otherwise
   * nothing happens.
   */
  predicate InternalSubscribed(user: Option<User>, rows0: seq<Subscription>, nextId0: int, rows1: seq<Subscription>,
                               chat: int, stopId: int, routeId: int, minutes: int, now: Instant, replies: seq<Reply>)
  {
    && (user.None? ==> replies == [] && rows1 == rows0)
    && (user.Some? ==>
          var s := Subscription(nextId0, user.value.id, Some(stopId), Some(routeId), None, None, minutes, true,
                                NeverNotified, now);
          rows1 == rows0 + [s] && Find(rows1, SubscriptionId, s.id) == Some(s)
          && replies == [Say(chat, InternalCreated(stopId, routeId, minutes))])
  }

  /** A lead time was chosen for a catalogue route: the subscription is stored for the chat's user. */
  method CreateInternalSubscription(users: UserStore, subs: SubscriptionStore, chat: int, stopId: int, routeId: int,
                           minutes: int, now: Instant)
    returns (replies: seq<Reply>)
    requires users.Valid() && subs.Valid()
    modifies subs
    ensures subs.Valid()
    ensures InternalSubscribed(users.GetUserByTelegramId(chat), old(subs.rows), old(subs.nextId), subs.rows,
                               chat, stopId, routeId, minutes, now, replies)
  {
    var user := users.GetUserByTelegramId(chat);
    if user.None? {
      return [];
    }
    var created := subs.CreateSubscription(
      Subscription(0, user.value.id, Some(stopId), Some(routeId), None, None, minutes, true, NeverNotified, now));
    replies := [Say(chat, InternalCreated(stopId, routeId, minutes))];
  }

  /**
   * The subscription list asked for from a button (`my_subscriptions`), on the users table
   * before (`users0`, next id `nextId0`) and after (`users1`): the sender is registered if
   * new, with no user name, then their subscriptions are listed, without a keyboard.
   */
  predicate SubscriptionsListed(users0: seq<User>, nextId0: int, users1: seq<User>, subs: seq<Subscription>,
                                chat: int, userId: int, now: Instant, replies: seq<Reply>)
  {
    var user := Find(users1, TelegramId, userId);
    && user.Some?
    && (Find(users0, TelegramId, userId).Some? ==> users1 == users0)
    && (Find(users0, TelegramId, userId).None? ==> users1 == users0 + [User(nextId0, userId, None, now, None, None)])
    && var list := OfUser(subs, user.value.id);
       replies == [Say(chat, if list == [] then NoSubscriptions else SubscriptionList(list))]
  }

  /** The subscription list was asked for from a button: the sender's subscriptions are listed. */
  method ListSubscriptions(users: UserStore, subs: SubscriptionStore, chat: int, userId: int, now: Instant)
    returns (replies: seq<Reply>)
    requires users.Valid()
    modifies users
    ensures users.Valid()
    ensures SubscriptionsListed(old(users.rows), old(users.nextId), users.rows, subs.rows, chat, userId, now, replies)
  {
    var user := users.Register(userId, None, now);
    var list := subs.UserSubscriptions(user.id);
    if list != [] {
      replies := [Say(chat, SubscriptionList(list))];
    } else {
      replies := [Say(chat, NoSubscriptions)];
    }
  }

  /**
   * A delete button (`delete_`) on the table before (`rows0`) and after (`rows1`): no record
   * has the id afterwards; a missing one changes nothing and the reply says it could not be
   * deleted, a present one is removed and the reply says so.
   */
  predicate DeletedById(rows0: seq<Subscription>, rows1: seq<Subscription>, chat: int, id: int, replies: seq<Reply>)
  {
    && Find(rows1, SubscriptionId, id).None?
    && (Find(rows0, SubscriptionId, id).None? ==> rows1 == rows0 && replies == [Say(chat, DeleteFailed)])
    && (Find(rows0, SubscriptionId, id).Some? ==>
          rows1 == Without(rows0, SubscriptionId, id) && replies == [Say(chat, SubscriptionDeleted)])
  }

  /** A delete button: the subscription is removed, and the reply says whether it was. */
  method DeleteById(subs: SubscriptionStore, chat: int, id: int) returns (replies: seq<Reply>)
    requires subs.Valid()
    modifies subs
    ensures subs.Valid()
    ensures DeletedById(old(subs.rows), subs.rows, chat, id, replies)
  {
    var deleted := subs.DeleteSubscription(id);
    replies := [Say(chat, if deleted then SubscriptionDeleted else DeleteFailed)];
  }

  /**
   * A toggle button (`toggle_`) on the table before (`rows0`) and after (`rows1`): nothing for
   * a missing subscription; otherwise its `IsActive` flag becomes the negation of the stored
   * one, nothing else changes, and the reply names the new state.
   */
  predicate ToggledById(rows0: seq<Subscription>, rows1: seq<Subscription>, chat: int, id: int, replies: seq<Reply>)
  {
    var found := Find(rows0, SubscriptionId, id);
    && (found.None? ==> rows1 == rows0 && replies == [])
    && (found.Some? ==>
          var s := found.value;
          rows1 == Toggled(rows0, id, !s.isActive)
          && Find(rows1, SubscriptionId, id) == Some(s.(isActive := !s.isActive))
          && replies == [Say(chat, SubscriptionToggled(!s.isActive))])
  }

  /** A toggle button: the subscription's flag is flipped. */
  method ToggleById(subs: SubscriptionStore, chat: int, id: int) returns (replies: seq<Reply>)
    requires subs.Valid()
    modifies subs
    ensures subs.Valid()
    ensures ToggledById(old(subs.rows), subs.rows, chat, id, replies)
  {
    var found := subs.GetSubscription(id);
    if found.None? {
      return [];
    }
    var s := found.value;
    var ok := subs.ToggleSubscription(id, !s.isActive);
    ReplaceFind(old(subs.rows), SubscriptionId, s.(isActive := !s.isActive), id);
    replies := [Say(chat, if ok then SubscriptionToggled(!s.isActive) else ToggleFailed)];
  }

  /** Whether a callback can change a store. */
  predicate ChangesSubscriptions(cb: Callback)
  {
    cb.SubscribeExternal? || cb.SubscribeInternal? || cb.DeleteSubscription? || cb.ToggleSubscription?
  }

  /**
   * What a button press does, on the tables before (`users0`, `subs0`, with their next ids)
   * and after (`users1`, `subs1`): each recognised button gives its handler's replies and
   * store changes; ignored, malformed and unknown data send nothing.
   */
  predicate CallbackDone(svc: Services, chat: int, userId: int, cb: Callback, now: Instant,
                         users0: seq<User>, nextUser0: int, subs0: seq<Subscription>, nextSub0: int,
                         users1: seq<User>, subs1: seq<Subscription>, replies: seq<Reply>)
  {
    match cb
    case MoscowStops => replies == [Say(chat, ShareLocationHint)]
    case AllStops => replies == [Say(chat, ShareLocationHint)]
    case ShowStation(code) => DeparturesShown(svc, chat, code, replies)
    case ShowRoute(code, route) => RouteEtaShown(svc, chat, code, route, replies)
    case SubscribeExternal(code, route, minutes) =>
      ExternalSubscribed(Find(users0, TelegramId, chat), subs0, nextSub0, subs1, chat, code, route, minutes, now, replies)
    case ShowStop(stopId) => StopRoutesShown(svc, chat, stopId, replies)
    case ChooseRoute(stopId, routeId) => RouteChoiceShown(svc, chat, stopId, routeId, replies)
    case SubscribeInternal(stopId, routeId, minutes) =>
      InternalSubscribed(Find(users0, TelegramId, chat), subs0, nextSub0, subs1, chat, stopId, routeId, minutes, now,
                         replies)
    case MySubscriptions => SubscriptionsListed(users0, nextUser0, users1, subs0, chat, userId, now, replies)
    case NewLocation => replies == [AskLocation(chat, NewLocationPrompt)]
    case DeleteSubscription(id) => DeletedById(subs0, subs1, chat, id, replies)
    case ToggleSubscription(id) => ToggledById(subs0, subs1, chat, id, replies)
    case Ignored => replies == []
    case Malformed => replies == []
    case Unknown => replies == []
  }

  /**
   * `HandleCallbackQueryAsync` after the chat is known: the data is read by the first
   * matching test and the matching branch runs. Unrecognised data and short live-provider
   * tokens produce no reply and change nothing; a malformed number or a missing part throws
   * before anything is sent or stored. Only subscribing, deleting and toggling change the
   * subscriptions, and only the subscription list registers a user.
   */
  method HandleCallback(users: UserStore, subs: SubscriptionStore, svc: Services, chat: int, userId: int,
                        data: string, now: Instant)
    returns (replies: seq<Reply>, threw: bool)
    requires users.Valid() && subs.Valid()
    modifies users, subs
    ensures users.Valid() && subs.Valid()
    ensures threw <==> ParseCallback(data).Malformed?
    ensures ParseCallback(data).Unknown? || ParseCallback(data).Ignored? || threw ==> replies == []
    ensures !ChangesSubscriptions(ParseCallback(data)) ==> subs.rows == old(subs.rows)
    ensures !ParseCallback(data).MySubscriptions? ==> users.rows == old(users.rows)
    ensures CallbackDone(svc, chat, userId, ParseCallback(data), now, old(users.rows), old(users.nextId),
                         old(subs.rows), old(subs.nextId), users.rows, subs.rows, replies)
  {
    threw := false;
    replies := [];
    match ParseCallback(data)
    case MoscowStops =>
      replies := [Say(chat, ShareLocationHint)];
    case AllStops =>
      replies := [Say(chat, ShareLocationHint)];
    case ShowStation(code) =>
      replies := ShowDepartures(svc, chat, code);
    case ShowRoute(code, route) =>
      replies := ShowRouteEta(svc, chat, code, route);
    case SubscribeExternal(code, route, minutes) =>
      replies := CreateExternalSubscription(users, subs, chat, code, route, minutes, now);
    case ShowStop(stopId) =>
      replies := ShowStopRoutes(svc, chat, stopId);
    case ChooseRoute(stopId, routeId) =>
      replies := ChooseRouteAtStop(svc, chat, stopId, routeId);
    case SubscribeInternal(stopId, routeId, minutes) =>
      replies := CreateInternalSubscription(users, subs, chat, stopId, routeId, minutes, now);
    case MySubscriptions =>
      replies := ListSubscriptions(users, subs, chat, userId, now);
    case NewLocation =>
      replies := [AskLocation(chat, NewLocationPrompt)];
    case DeleteSubscription(id) =>
      replies := DeleteById(subs, chat, id);
    case ToggleSubscription(id) =>
      replies := ToggleById(subs, chat, id);
    case Ignored =>
    case Malformed =>
      threw := true;
    case Unknown =>
  }

  // ---------------------------------------------------------------------------------------
  // Text commands and locations

  /**
   * The replies to `/search`: a usage note for a blank query; otherwise a searching note,
   * then the keyboard of the first ten stations found, or a note that none were.
   */
  predicate SearchShown(svc: Services, chat: int, query: string, replies: seq<Reply>)
  {
    && (IsBlank(query) ==> replies == [Say(chat, SearchUsage)])
    && (!IsBlank(query) ==>
          && |replies| == 2 && replies[0] == Say(chat, Searching(query))
          && replies[1] == if svc.search(query) == [] then Say(chat, NoStationsFound(query))
                           else Keyboard(chat, StationsFound(query), StationMenu(svc.search(query))))
  }

  /** `/search`: the stations found are shown. */
  method SearchStops(svc: Services, chat: int, query: string) returns (replies: seq<Reply>)
    ensures SearchShown(svc, chat, query, replies)
  {
    if IsBlank(query) {
      return [Say(chat, SearchUsage)];
    }
    replies := [Say(chat, Searching(query))];
    var list := Take(svc.search(query), MaxStations);
    if list != [] {
      var menu := BuildStationMenu(svc.search(query));
      replies := replies + [Keyboard(chat, StationsFound(query), menu)];
    } else {
      replies := replies + [Say(chat, NoStationsFound(query))];
    }
  }

  /**
   * The replies to `/diag_station`: a usage note for a blank code; otherwise a note, then the
   * number of arrivals with the first three of them, or a note that the board is empty.
   */
  predicate DiagnosisShown(svc: Services, chat: int, code: string, replies: seq<Reply>)
  {
    var list := svc.arrivals(code);
    && (IsBlank(code) ==> replies == [Say(chat, DiagUsage)])
    && (!IsBlank(code) ==>
          && |replies| == 2 && replies[0] == Say(chat, Diagnosing(code))
          && replies[1] == if list == [] then Say(chat, BoardEmpty)
                           else Say(chat, DiagnosticSample(|list|, if |list| <= 3 then list else list[..3])))
  }

  /** `/diag_station`: a sample of the station's board is shown. */
  method Diagnose(svc: Services, chat: int, code: string) returns (replies: seq<Reply>)
    ensures DiagnosisShown(svc, chat, code, replies)
  {
    if IsBlank(code) {
      return [Say(chat, DiagUsage)];
    }
    replies := [Say(chat, Diagnosing(code))];
    var list := svc.arrivals(code);
    if list != [] {
      replies := replies + [Say(chat, DiagnosticSample(|list|, Take(list, 3)))];
    } else {
      replies := replies + [Say(chat, BoardEmpty)];
    }
  }

  /** The replies to `/station`: a usage note for a blank code; otherwise the station's departures. */
  predicate StationShown(svc: Services, chat: int, code: string, replies: seq<Reply>)
  {
    && (IsBlank(code) ==> replies == [Say(chat, StationUsage)])
    && (!IsBlank(code) ==> DeparturesShown(svc, chat, code, replies))
  }

  /** `/station`: the station's departures are shown. */
  method StationCommand(svc: Services, chat: int, code: string) returns (replies: seq<Reply>)
    ensures StationShown(svc, chat, code, replies)
  {
    if IsBlank(code) {
      return [Say(chat, StationUsage)];
    }
    replies := ShowDepartures(svc, chat, code);
  }

  /** The reply listing stations found near a point: their keyboard, or a note that there are none. */
  function NearbyReply(chat: int, found: seq<ExternalStation>): Reply
  {
    if found == [] then Say(chat, NoStationsNearby) else Keyboard(chat, NearbyStations, StationMenu(found))
  }

  /**
   * The replies showing the stations near the location stored for user `u`: a note when the
   * user or either coordinate is missing; otherwise the stations within the distance.
   */
  predicate NearbyShown(u: Option<User>, svc: Services, chat: int, distance: int, replies: seq<Reply>)
  {
    if u.Some? && u.value.latitude.Some? && u.value.longitude.Some? then
      replies == [NearbyReply(chat, svc.nearby(u.value.latitude.value, u.value.longitude.value, distance))]
    else replies == [Say(chat, LocationNotSet)]
  }

  /** The stations near the location stored for the chat's user. */
  method ShowNearby(users: UserStore, svc: Services, chat: int, distance: int) returns (replies: seq<Reply>)
    ensures NearbyShown(users.GetUserByTelegramId(chat), svc, chat, distance, replies)
  {
    var user := users.GetUserByTelegramId(chat);
    if user.None? || user.value.latitude.None? || user.value.longitude.None? {
      return [Say(chat, LocationNotSet)];
    }
    var found := svc.nearby(user.value.latitude.value, user.value.longitude.value, distance);
    var list := Take(found, MaxStations);
    if list != [] {
      var menu := BuildStationMenu(found);
      replies := [Keyboard(chat, NearbyStations, menu)];
    } else {
      replies := [Say(chat, NoStationsNearby)];
    }
  }

  /**
   * Storing a location for account `telegramId` took the users table from `rows0` and
   * `nextId0` to `rows1` and `nextId1`: a known account's user gets the coordinates and keeps
   * its name, the other users unchanged; a new account is appended under the next id, with no
   * name and the coordinates.
   */
  predicate LocationStored(rows0: seq<User>, nextId0: int, rows1: seq<User>, nextId1: int, telegramId: int,
                           lat: real, lon: real, now: Instant)
  {
    match Find(rows0, TelegramId, telegramId)
    case Some(u) => rows1 == Replace(rows0, UserId, Merge(u, None, Some(lat), Some(lon))) && nextId1 == nextId0
    case None =>
      rows1 == rows0 + [User(nextId0, telegramId, None, now, Some(lat), Some(lon))] && nextId1 == nextId0 + 1
  }

  /**
   * On a valid users table, storing a location leaves the user of every other account as it
   * was, and the account's own user then has the coordinates.
   */
  lemma {:induction false} LocationStoredKeepsOthers(rows0: seq<User>, nextId0: int, rows1: seq<User>, nextId1: int,
                                                     telegramId: int, lat: real, lon: real, now: Instant, other: int)
    requires UniqueKeys(rows0, UserId) && UniqueKeys(rows0, TelegramId)
    requires forall i :: 0 <= i < |rows0| ==> rows0[i].id < nextId0
    requires LocationStored(rows0, nextId0, rows1, nextId1, telegramId, lat, lon, now)
    ensures other != telegramId ==> Find(rows1, TelegramId, other) == Find(rows0, TelegramId, other)
    ensures var u := Find(rows1, TelegramId, telegramId);
      u.Some? && u.value.latitude == Some(lat) && u.value.longitude == Some(lon)
  {
    match Find(rows0, TelegramId, telegramId)
    case None =>
      var x := User(nextId0, telegramId, None, now, Some(lat), Some(lon));
      FindAppend(rows0, TelegramId, x, other);
      FindAppend(rows0, TelegramId, x, telegramId);
    case Some(u) =>
      var x := Merge(u, None, Some(lat), Some(lon));
      var k :| 0 <= k < |rows0| && rows0[k] == u;
      forall i | 0 <= i < |rows0| && rows0[i].id == x.id
        ensures rows0[i].telegramId == x.telegramId
      {
        FindUnique(rows0, UserId, i);
        FindUnique(rows0, UserId, k);
      }
      FindReplace(rows0, UserId, TelegramId, x, other);
      FindReplace(rows0, UserId, TelegramId, x, telegramId);
  }

  /**
   * The outcome of `/setlocation` on users table `rows0` (next id `nextId0`): with valid
   * arguments the sender's location is stored, a confirmation follows, then the stations near
   * the location stored for the chat's user; with other arguments the table is unchanged and
   * a usage note is the reply.
   */
  predicate LocationSet(users: UserStore, svc: Services, chat: int, userId: int, args: seq<string>,
                        rows0: seq<User>, nextId0: int, now: Instant, replies: seq<Reply>)
    reads users
  {
    if |args| == 3 && svc.parseReal(args[1]).Some? && svc.parseReal(args[2]).Some? then
      var u := users.GetUserByTelegramId(userId);
      && LocationStored(rows0, nextId0, users.rows, users.nextId, userId, svc.parseReal(args[1]).value,
                        svc.parseReal(args[2]).value, now)
      && u.Some? && u.value.latitude == svc.parseReal(args[1]) && u.value.longitude == svc.parseReal(args[2])
      && |replies| == 2
      && replies[0] == Say(chat, LocationUpdated(svc.parseReal(args[1]).value, svc.parseReal(args[2]).value))
      && NearbyShown(users.GetUserByTelegramId(chat), svc, chat, NearbyDistance, replies[1..])
    else replies == [Say(chat, LocationUsage)] && users.rows == rows0 && users.nextId == nextId0
  }

  /**
   * `/setlocation <lat> <lon>`: with exactly three words whose last two parse as numbers,
   * the sender is registered if new, their coordinates are stored (the name kept), and the
   * stations near the location stored for the chat's user follow; otherwise a usage note.
   */
  method SetLocationCommand(users: UserStore, svc: Services, chat: int, userId: int, args: seq<string>, now: Instant)
    returns (replies: seq<Reply>)
    requires users.Valid()
    modifies users
    ensures users.Valid()
    ensures !(|args| == 3 && svc.parseReal(args[1]).Some? && svc.parseReal(args[2]).Some?) ==>
      replies == [Say(chat, LocationUsage)] && users.rows == old(users.rows)
    ensures LocationSet(users, svc, chat, userId, args, old(users.rows), old(users.nextId), now, replies)
    ensures |args| == 3 && svc.parseReal(args[1]).Some? && svc.parseReal(args[2]).Some? && chat == userId ==>
      replies[1] == NearbyReply(chat, svc.nearby(svc.parseReal(args[1]).value, svc.parseReal(args[2]).value, NearbyDistance))
  {
    if !(|args| == 3 && svc.parseReal(args[1]).Some? && svc.parseReal(args[2]).Some?) {
      return [Say(chat, LocationUsage)];
    }
    var lat, lon := svc.parseReal(args[1]).value, svc.parseReal(args[2]).value;
    var updated := StoreLocation(users, userId, lat, lon, now);
    replies := [Say(chat, LocationUpdated(lat, lon))];
    var nearby := ShowNearby(users, svc, chat, NearbyDistance);
    replies := replies + nearby;
    assert replies[1..] == nearby;
  }

  /**
   * `RegisterAsync(userId, null)` then `UpdateAsync(user.Id, null, lat, lon)`: the account's
   * user, registered if new, gets the coordinates and keeps its name.
   */
  method StoreLocation(users: UserStore, userId: int, lat: real, lon: real, now: Instant) returns (user: User)
    requires users.Valid()
    modifies users
    ensures users.Valid()
    ensures users.GetUserByTelegramId(userId) == Some(user)
    ensures user.telegramId == userId && user.latitude == Some(lat) && user.longitude == Some(lon)
    ensures old(users.GetUserByTelegramId(userId)).Some? ==>
      user == Merge(old(users.GetUserByTelegramId(userId)).value, None, Some(lat), Some(lon))
    ensures LocationStored(old(users.rows), old(users.nextId), users.rows, users.nextId, userId, lat, lon, now)
  {
    RegisterThenLocate(users.rows, users.nextId, userId, lat, lon, now);
    var registered := users.Register(userId, None, now);
    var updated := users.Update(registered.id, None, Some(lat), Some(lon));
    user := updated.value;
  }

  /**
   * `RegisterAsync(telegramId, null)` followed by `UpdateAsync` of the coordinates on the user
   * it returns: that user is the one its id finds, and the update leaves the table as
   * `LocationStored` says, with the account then finding the updated user.
   */
  lemma RegisterThenLocate(before: seq<User>, nextBefore: int, telegramId: int, lat: real, lon: real, now: Instant)
    requires ValidTable(before, nextBefore)
    ensures var registered := AfterRegister(before, nextBefore, telegramId, None, now);
      var u := Find(registered.0, TelegramId, telegramId).value;
      var x := Merge(u, None, Some(lat), Some(lon));
      && Find(registered.0, UserId, u.id) == Some(u)
      && LocationStored(before, nextBefore, Replace(registered.0, UserId, x), registered.1, telegramId, lat, lon, now)
      && Find(Replace(registered.0, UserId, x), TelegramId, telegramId) == Some(x)
  {
    match Find(before, TelegramId, telegramId)
    case Some(u) =>
      var x := Merge(u, None, Some(lat), Some(lon));
      var k :| 0 <= k < |before| && before[k] == u;
      FindUnique(before, UserId, k);
      forall i | 0 <= i < |before| && before[i].id == x.id
        ensures before[i].telegramId == x.telegramId
      {
        FindUnique(before, UserId, i);
      }
      FindReplace(before, UserId, TelegramId, x, telegramId);
    case None =>
      var u := User(nextBefore, telegramId, None, now, None, None);
      var x := Merge(u, None, Some(lat), Some(lon));
      FindAppend(before, TelegramId, u, telegramId);
      assert Find(before, UserId, nextBefore).None?;
      FindAppend(before, UserId, u, nextBefore);
      ReplaceLast(before, UserId, u, x);
      FindAppend(before, TelegramId, x, telegramId);
  }

  /**
   * The replies to `/subscriptions` for user `u`: a note when the user is unknown; otherwise
   * the list with the subscription keyboard, or a note that there are none.
   */
  predicate SubscriptionsShown(subs: SubscriptionStore, u: Option<User>, chat: int, replies: seq<Reply>)
    reads subs
  {
    if u.None? then replies == [Say(chat, RegisterFirst)]
    else
      var list := subs.UserSubscriptions(u.value.id);
      replies == [if list == [] then Say(chat, NoSubscriptions) else Keyboard(chat, SubscriptionList(list), SubscriptionMenu(list))]
  }

  /** The subscription list asked for by command, for the chat's user. */
  method ShowUserSubscriptions(users: UserStore, subs: SubscriptionStore, chat: int) returns (replies: seq<Reply>)
    ensures SubscriptionsShown(subs, users.GetUserByTelegramId(chat), chat, replies)
  {
    var user := users.GetUserByTelegramId(chat);
    if user.None? {
      return [Say(chat, RegisterFirst)];
    }
    var list := subs.UserSubscriptions(user.value.id);
    if list != [] {
      var menu := BuildSubscriptionMenu(list);
      replies := [Keyboard(chat, SubscriptionList(list), menu)];
    } else {
      replies := [Say(chat, NoSubscriptions)];
    }
  }

  /**
   * The replies to a text command, in the state the command leaves, and that state: only
   * `/setlocation` changes the users table `users0` (next id `nextUser0`).
   */
  predicate CommandReplied(users: UserStore, subs: SubscriptionStore, svc: Services, chat: int, userId: int,
                           cmd: Command, users0: seq<User>, nextUser0: int, now: Instant, replies: seq<Reply>)
    reads users, subs
  {
    && (!cmd.SetLocation? ==> users.rows == users0 && users.nextId == nextUser0)
    && match cmd
    case Search(query) => SearchShown(svc, chat, query, replies)
    case DiagStation(code) => DiagnosisShown(svc, chat, code, replies)
    case Station(code) => StationShown(svc, chat, code, replies)
    case SetLocation(args) => LocationSet(users, svc, chat, userId, args, users0, nextUser0, now, replies)
    case Nearby => NearbyShown(users.GetUserByTelegramId(chat), svc, chat, NearbyDistance, replies)
    case Start => replies == [AskLocation(chat, Welcome)]
    case Help => replies == [Say(chat, HelpText)]
    case Subscriptions => SubscriptionsShown(subs, users.GetUserByTelegramId(chat), chat, replies)
    case Stops => replies == [Say(chat, ShareLocationHint)]
    case Moscow => replies == [Say(chat, ShareLocationHint)]
    case NotUnderstood => replies == [Say(chat, Unrecognised)]
  }

  /**
   * `HandleTextMessageAsync`: the command the text names runs. `/search` and `/station` act
   * on the trimmed rest of the text; only `/setlocation` changes a store.
   */
  method HandleText(users: UserStore, subs: SubscriptionStore, svc: Services, chat: int, userId: int, text: string,
                    now: Instant)
    returns (replies: seq<Reply>)
    requires users.Valid()
    modifies users
    ensures users.Valid()
    ensures !ParseCommand(text).SetLocation? ==> users.rows == old(users.rows)
    ensures old(users.GetUserByTelegramId(userId)).Some? ==> users.GetUserByTelegramId(userId).Some?
    ensures CommandReplied(users, subs, svc, chat, userId, ParseCommand(text), old(users.rows), old(users.nextId), now,
                           replies)
  {
    match ParseCommand(text)
    case Search(query) =>
      replies := SearchStops(svc, chat, query);
    case DiagStation(code) =>
      replies := Diagnose(svc, chat, code);
    case Station(code) =>
      replies := StationCommand(svc, chat, code);
    case SetLocation(args) =>
      replies := SetLocationCommand(users, svc, chat, userId, args, now);
    case Nearby =>
      replies := ShowNearby(users, svc, chat, NearbyDistance);
    case Start =>
      replies := [AskLocation(chat, Welcome)];
    case Help =>
      replies := [Say(chat, HelpText)];
    case Subscriptions =>
      replies := ShowUserSubscriptions(users, subs, chat);
    case Stops =>
      replies := [Say(chat, ShareLocationHint)];
    case Moscow =>
      replies := [Say(chat, ShareLocationHint)];
    case NotUnderstood =>
      replies := [Say(chat, Unrecognised)];
  }

  /** The replies to a shared location: two notes, then the stations within 1200 m of it. */
  function LocationReplies(svc: Services, chat: int, lat: real, lon: real): (r: seq<Reply>)
    ensures |r| == 3 && r[2] == NearbyReply(chat, svc.nearby(lat, lon, NearbyDistance))
  {
    [Say(chat, LocationReceived(lat, lon)), Say(chat, SearchingNearby), NearbyReply(chat, svc.nearby(lat, lon, NearbyDistance))]
  }

  /**
   * `HandleLocationAsync`: the sender's user, registered if new, gets the coordinates; two
   * notes follow, then the keyboard of the first ten stations within 1200 m of the shared
   * point, or a note that there are none.
   */
  method HandleLocation(users: UserStore, svc: Services, chat: int, userId: int, lat: real, lon: real, now: Instant)
    returns (replies: seq<Reply>)
    requires users.Valid()
    modifies users
    ensures users.Valid()
    ensures var u := users.GetUserByTelegramId(userId);
      u.Some? && u.value.latitude == Some(lat) && u.value.longitude == Some(lon)
    ensures LocationStored(old(users.rows), old(users.nextId), users.rows, users.nextId, userId, lat, lon, now)
    ensures replies == LocationReplies(svc, chat, lat, lon)
  {
    var user := StoreLocation(users, userId, lat, lon, now);
    replies := [Say(chat, LocationReceived(lat, lon)), Say(chat, SearchingNearby)];
    var found := svc.nearby(lat, lon, NearbyDistance);
    var list := Take(found, MaxStations);
    if list != [] {
      var menu := BuildStationMenu(found);
      replies := replies + [Keyboard(chat, NearbyStations, menu)];
    } else {
      replies := replies + [Say(chat, NoStationsNearby)];
    }
  }

  // ---------------------------------------------------------------------------------------
  // Updates

  /** The sender of a message: the Telegram user id and user name. */
  datatype Sender = Sender(id: int, userName: Option<string>)

  /** What a message carries. */
  datatype Content = TextContent(text: string) | LocationContent(latitude: real, longitude: real) | OtherContent

  /**
   * An update from Telegram: a message in a chat, a button press (with the chat of the
   * message the button belongs to, when that message is known) or anything else.
   */
  datatype Update =
    | MessageUpdate(chat: int, from: Option<Sender>, content: Content)
    | CallbackUpdate(messageChat: Option<int>, userId: int, data: string)
    | OtherUpdate

  /** `message.From?.Id ?? 0`. */
  function SenderId(from: Option<Sender>): int
  {
    if from.Some? then from.value.id else 0
  }

  /** `message.From?.Username`. */
  function SenderName(from: Option<Sender>): Option<string>
  {
    if from.Some? then from.value.userName else None
  }

  /**
   * The replies to a message and the users table it leaves, from table `users0` (next id
   * `nextUser0`): the sender is registered first, then a text runs its command, a location is
   * stored for the sender and answered with the stations around it, and anything else gets
   * no reply and changes nothing more.
   */
  predicate MessageReplied(users: UserStore, subs: SubscriptionStore, svc: Services, chat: int, from: Option<Sender>,
                           content: Content, users0: seq<User>, nextUser0: int, now: Instant, replies: seq<Reply>)
    reads users, subs
  {
    var registered := AfterRegister(users0, nextUser0, SenderId(from), SenderName(from), now);
    match content
    case TextContent(text) =>
      CommandReplied(users, subs, svc, chat, SenderId(from), ParseCommand(text), registered.0, registered.1, now, replies)
    case LocationContent(lat, lon) =>
      var u := users.GetUserByTelegramId(SenderId(from));
      && LocationStored(registered.0, registered.1, users.rows, users.nextId, SenderId(from), lat, lon, now)
      && u.Some? && u.value.latitude == Some(lat) && u.value.longitude == Some(lon)
      && replies == LocationReplies(svc, chat, lat, lon)
    case OtherContent => users.rows == registered.0 && users.nextId == registered.1 && replies == []
  }

  /**
   * `HandleMessageAsync`: the sender is registered first (with their user name when new),
   * then a text or a location is handled; other messages get no reply.
   */
  method HandleMessage(users: UserStore, subs: SubscriptionStore, svc: Services, chat: int, from: Option<Sender>,
                       content: Content, now: Instant)
    returns (replies: seq<Reply>)
    requires users.Valid()
    modifies users
    ensures users.Valid()
    ensures users.GetUserByTelegramId(SenderId(from)).Some?
    ensures content.OtherContent? && old(users.GetUserByTelegramId(SenderId(from))).None? ==>
      users.GetUserByTelegramId(SenderId(from))
      == Some(User(old(users.nextId), SenderId(from), SenderName(from), now, None, None))
    ensures MessageReplied(users, subs, svc, chat, from, content, old(users.rows), old(users.nextId), now, replies)
  {
    var userId := SenderId(from);
    var user := users.Register(userId, SenderName(from), now);
    match content
    case TextContent(text) =>
      replies := HandleText(users, subs, svc, chat, userId, text, now);
    case LocationContent(lat, lon) =>
      replies := HandleLocation(users, svc, chat, userId, lat, lon, now);
    case OtherContent =>
      replies := [];
  }

  /**
   * `HandleUpdateAsync`: the update is handled, and an exception is caught and answered with
   * a generic error in the originating chat when that chat is known. A button press whose
   * message is missing fails before anything happens and, with no chat to answer, gets no
   * reply; a malformed button fails before anything is sent or stored and gets only the
   * generic error.
   */
  method HandleUpdate(users: UserStore, subs: SubscriptionStore, svc: Services, update: Update, now: Instant)
    returns (replies: seq<Reply>)
    requires users.Valid() && subs.Valid()
    modifies users, subs
    ensures users.Valid() && subs.Valid()
    ensures update.OtherUpdate? || (update.CallbackUpdate? && update.messageChat.None?) ==>
      replies == [] && users.rows == old(users.rows) && subs.rows == old(subs.rows)
    ensures update.CallbackUpdate? && update.messageChat.Some? && ParseCallback(update.data).Malformed? ==>
      replies == [Say(update.messageChat.value, GenericError)]
      && users.rows == old(users.rows) && subs.rows == old(subs.rows)
    ensures update.CallbackUpdate? && update.messageChat.Some? && ParseCallback(update.data).Unknown? ==>
      replies == [] && users.rows == old(users.rows) && subs.rows == old(subs.rows)
    ensures update.MessageUpdate? ==> users.GetUserByTelegramId(SenderId(update.from)).Some?
    ensures update.MessageUpdate? ==> subs.rows == old(subs.rows)
    ensures update.MessageUpdate? ==>
      MessageReplied(users, subs, svc, update.chat, update.from, update.content, old(users.rows), old(users.nextId), now,
                     replies)
    ensures update.CallbackUpdate? && update.messageChat.Some? && !ChangesSubscriptions(ParseCallback(update.data)) ==>
      subs.rows == old(subs.rows)
    ensures update.CallbackUpdate? && update.messageChat.Some? && !ParseCallback(update.data).MySubscriptions? ==>
      users.rows == old(users.rows)
    ensures update.CallbackUpdate? && update.messageChat.Some? && !ParseCallback(update.data).Malformed? ==>
      CallbackDone(svc, update.messageChat.value, update.userId, ParseCallback(update.data), now,
                   old(users.rows), old(users.nextId), old(subs.rows), old(subs.nextId), users.rows, subs.rows, replies)
  {
    match update
    case OtherUpdate =>
      replies := [];
    case MessageUpdate(chat, from, content) =>
      replies := HandleMessage(users, subs, svc, chat, from, content, now);
    case CallbackUpdate(messageChat, userId, data) =>
      if messageChat.None? {
        return [];
      }
      var handled, threw := HandleCallback(users, subs, svc, messageChat.value, userId, data, now);
      replies := if threw then handled + [Say(messageChat.value, GenericError)] else handled;
  }
}
