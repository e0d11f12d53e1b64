/**
 * How the bot reads what a user sends: the data of a pressed inline button (a callback) and
 * the text of a message (a command). Both are read by a chain of tests taken in a fixed
 * order, the first that matches deciding.
 */
module Commands {
  import opened Options
  import opened Text
  import opened Tokens
  import opened Sequences

  /** What a callback asks for. */
  datatype Callback =
    | MoscowStops
    | AllStops
    | ShowStation(code: string)
    | ShowRoute(code: string, route: string)
    | SubscribeExternal(code: string, route: string, minutes: int)
    | ShowStop(stopId: int)
    | ChooseRoute(stopId: int, routeId: int)
    | SubscribeInternal(stopId: int, routeId: int, minutes: int)
    | MySubscriptions
    | NewLocation
    | DeleteSubscription(id: int)
    | ToggleSubscription(id: int)
    /** A `yrt_` or `ynotify_` token with too few parts: nothing happens. */
    | Ignored
    /** A token whose number does not parse or whose part is missing: the handler throws. */
    | Malformed
    /** Data no test recognises: nothing happens. */
    | Unknown

  /** The callback data compared for equality. */
  predicate IsCallbackWord(data: string)
  {
    data == "moscow_stops" || data == "all_stops" || data == "my_subscriptions" || data == "new_location"
  }

  /** The callback prefixes the handler compares against, in its order. */
  predicate HasCallbackPrefix(data: string)
  {
    StartsWith(data, "yst_") || StartsWith(data, "yrt_") || StartsWith(data, "ynotify_")
    || StartsWith(data, "stop_") || StartsWith(data, "route_") || StartsWith(data, "notify_")
    || StartsWith(data, "delete_") || StartsWith(data, "toggle_")
  }

  /** The actions an id token names. */
  datatype IdAction = StopAction | DeleteAction | ToggleAction

  /** The action on the number read from an id token, or `Malformed` when `int.Parse` throws. */
  function IdCallback(n: Option<int>, action: IdAction): (cb: Callback)
    ensures !cb.Unknown?
  {
    match n
    case None => Malformed
    case Some(id) =>
      match action
      case StopAction => ShowStop(id)
      case DeleteAction => DeleteSubscription(id)
      case ToggleAction => ToggleSubscription(id)
  }

  /** A `yrt_` token with fewer than three parts is ignored. */
  function RouteCallback(p: Option<(string, string)>): (cb: Callback)
    ensures !cb.Unknown?
  {
    match p
    case None => Ignored
    case Some((code, route)) => ShowRoute(code, route)
  }

  /** A `ynotify_` token with too few parts is ignored; one whose minutes do not parse throws. */
  function NotifyCallback(p: NotifyParse): (cb: Callback)
    ensures !cb.Unknown?
  {
    match p
    case TooFewParts => Ignored
    case BadNumber => Malformed
    case Parsed(code, route, minutes) => SubscribeExternal(code, route, minutes)
  }

  /** A `route_` token whose ids are missing or do not parse throws. */
  function ChoiceCallback(p: IdsParse): (cb: Callback)
    ensures !cb.Unknown?
  {
    match p
    case Ids(stopId, routeId, _) => ChooseRoute(stopId, routeId)
    case _ => Malformed
  }

  /** A `notify_` token whose numbers are missing or do not parse throws. */
  function InternalNotifyCallback(p: IdsParse): (cb: Callback)
    ensures !cb.Unknown?
  {
    match p
    case Ids(stopId, routeId, minutes) => SubscribeInternal(stopId, routeId, minutes)
    case _ => Malformed
  }

  /**
   * `HandleCallbackQueryAsync`'s chain of tests. Data that is none of the exact words and
   * starts with none of the prefixes is unknown.
   */
  function ParseCallback(data: string): (cb: Callback)
    ensures cb.Unknown? <==> !IsCallbackWord(data) && !HasCallbackPrefix(data)
  {
    if data == "moscow_stops" then MoscowStops
    else if data == "all_stops" then AllStops
    else if StartsWith(data, "yst_") then ShowStation(StationOf(data))
    else if StartsWith(data, "yrt_") then RouteCallback(ParseRouteToken(data))
    else if StartsWith(data, "ynotify_") then NotifyCallback(ParseNotifyTokenAsWritten(data))
    else if StartsWith(data, "stop_") then IdCallback(ParseIdToken(data, "stop_"), StopAction)
    else if StartsWith(data, "route_") then ChoiceCallback(ParseRouteChoiceToken(data))
    else if StartsWith(data, "notify_") then InternalNotifyCallback(ParseInternalNotifyToken(data))
    else if data == "my_subscriptions" then MySubscriptions
    else if data == "new_location" then NewLocation
    else if StartsWith(data, "delete_") then IdCallback(ParseIdToken(data, "delete_"), DeleteAction)
    else if StartsWith(data, "toggle_") then IdCallback(ParseIdToken(data, "toggle_"), ToggleAction)
    else Unknown
  }

  // The branch a token's prefix selects, for any data with that prefix.

  lemma StationBranch(data: string)
    requires StartsWith(data, "yst_")
    ensures ParseCallback(data) == ShowStation(StationOf(data))
  {
    assert data[0] == 'y' && data[1] == 's';
  }

  lemma RouteBranch(data: string)
    requires StartsWith(data, "yrt_")
    ensures ParseCallback(data) == RouteCallback(ParseRouteToken(data))
  {
    assert data[0] == 'y' && data[1] == 'r';
  }

  lemma NotifyBranch(data: string)
    requires StartsWith(data, "ynotify_")
    ensures ParseCallback(data) == NotifyCallback(ParseNotifyTokenAsWritten(data))
  {
    assert data[0] == 'y' && data[1] == 'n';
    assert data != "moscow_stops" && data != "all_stops";
    assert !StartsWith(data, "yst_") && !StartsWith(data, "yrt_");
  }

  lemma StopBranch(data: string)
    requires StartsWith(data, "stop_")
    ensures ParseCallback(data) == IdCallback(ParseIdToken(data, "stop_"), StopAction)
  {
    assert data[0] == 's';
    assert data != "moscow_stops" && data != "all_stops";
    assert !StartsWith(data, "yst_") && !StartsWith(data, "yrt_") && !StartsWith(data, "ynotify_");
  }

  lemma ChoiceBranch(data: string)
    requires StartsWith(data, "route_")
    ensures ParseCallback(data) == ChoiceCallback(ParseRouteChoiceToken(data))
  {
    assert data[0] == 'r';
    assert data != "moscow_stops" && data != "all_stops";
    assert !StartsWith(data, "yst_") && !StartsWith(data, "yrt_") && !StartsWith(data, "ynotify_") && !StartsWith(data, "stop_");
  }

  lemma InternalNotifyBranch(data: string)
    requires StartsWith(data, "notify_")
    ensures ParseCallback(data) == InternalNotifyCallback(ParseInternalNotifyToken(data))
  {
    assert data[0] == 'n';
    assert data != "moscow_stops" && data != "all_stops";
    assert !StartsWith(data, "yst_") && !StartsWith(data, "yrt_") && !StartsWith(data, "ynotify_") && !StartsWith(data, "stop_") && !StartsWith(data, "route_");
  }

  lemma DeleteBranch(data: string)
    requires StartsWith(data, "delete_")
    ensures ParseCallback(data) == IdCallback(ParseIdToken(data, "delete_"), DeleteAction)
  {
    assert data[0] == 'd';
    assert data != "moscow_stops" && data != "all_stops" && data != "my_subscriptions" && data != "new_location";
    assert !StartsWith(data, "yst_") && !StartsWith(data, "yrt_") && !StartsWith(data, "ynotify_") && !StartsWith(data, "stop_") && !StartsWith(data, "route_") && !StartsWith(data, "notify_");
  }

  lemma ToggleBranch(data: string)
    requires StartsWith(data, "toggle_")
    ensures ParseCallback(data) == IdCallback(ParseIdToken(data, "toggle_"), ToggleAction)
  {
    assert data[0] == 't';
    assert data != "moscow_stops" && data != "all_stops" && data != "my_subscriptions" && data != "new_location";
    assert !StartsWith(data, "yst_") && !StartsWith(data, "yrt_") && !StartsWith(data, "ynotify_") && !StartsWith(data, "stop_") && !StartsWith(data, "route_") && !StartsWith(data, "notify_");
    assert !StartsWith(data, "delete_");
  }

  /** A station button asks for that station's departures, whatever its code. */
  lemma StationTokenDispatch(code: string)
    ensures ParseCallback(StationToken(code)) == ShowStation(code)
  {
    StationTokenRoundTrip(code);
    StationBranch(StationToken(code));
  }

  /** A departure button asks for that route at that station when the code has no underscore. */
  lemma RouteTokenDispatch(code: string, route: string)
    requires '_' !in code
    ensures ParseCallback(RouteToken(code, route)) == ShowRoute(code, route)
  {
    RouteTokenRoundTrip(code, route);
    RouteBranch(RouteToken(code, route));
  }

  /**
   * A lead-time button subscribes to that route at that station with that lead, when neither
   * the code nor the route has an underscore.
   */
  lemma NotifyTokenDispatch(code: string, route: string, minutes: int)
    requires '_' !in code && '_' !in route && InInt32(minutes)
    ensures ParseCallback(NotifyToken(code, route, minutes)) == SubscribeExternal(code, route, minutes)
  {
    assert NotifyToken(code, route, minutes)[..8] == "ynotify_";
    NotifyTokenAsWrittenRoundTrip(code, route, minutes);
    NotifyBranch(NotifyToken(code, route, minutes));
  }

  /**
   * A lead-time button for a route with an underscore subscribes to another route with
   * another lead: route "A_5" at 10 minutes becomes route "A" at 5 minutes.
   */
  lemma NotifyTokenDispatchSplitsRoute()
    ensures ParseCallback(NotifyToken("s1", "A_5", 10)) == SubscribeExternal("s1", "A", 5)
  {
    NotifyTokenAsWrittenSplitsRoute();
    NotifyTokenRoundTrip("s1", "A_5", 10);
    NotifyBranch(NotifyToken("s1", "A_5", 10));
  }

  /** A stop button asks for that stop. */
  lemma StopTokenDispatch(stopId: int)
    requires InInt32(stopId)
    ensures ParseCallback(IdToken("stop_", stopId)) == ShowStop(stopId)
  {
    IdTokenRoundTrip("stop_", stopId);
    StopBranch(IdToken("stop_", stopId));
  }

  /** A route button at a stop asks for that route at that stop. */
  lemma RouteChoiceTokenDispatch(stopId: int, routeId: int)
    requires InInt32(stopId) && InInt32(routeId)
    ensures ParseCallback(RouteChoiceToken(stopId, routeId)) == ChooseRoute(stopId, routeId)
  {
    RouteChoiceTokenRoundTrip(stopId, routeId);
    ChoiceBranch(RouteChoiceToken(stopId, routeId));
  }

  /** An internal lead-time button subscribes to that route at that stop with that lead. */
  lemma InternalNotifyTokenDispatch(stopId: int, routeId: int, minutes: int)
    requires InInt32(stopId) && InInt32(routeId) && InInt32(minutes)
    ensures ParseCallback(InternalNotifyToken(stopId, routeId, minutes)) == SubscribeInternal(stopId, routeId, minutes)
  {
    InternalNotifyTokenRoundTrip(stopId, routeId, minutes);
    InternalNotifyBranch(InternalNotifyToken(stopId, routeId, minutes));
  }

  /** Delete and toggle buttons act on that subscription. */
  lemma SubscriptionTokenDispatch(id: int)
    requires InInt32(id)
    ensures ParseCallback(IdToken("delete_", id)) == DeleteSubscription(id)
    ensures ParseCallback(IdToken("toggle_", id)) == ToggleSubscription(id)
  {
    var delete, toggle := IdToken("delete_", id), IdToken("toggle_", id);
    IdTokenRoundTrip("delete_", id);
    DeleteBranch(delete);
    assert ParseCallback(delete) == IdCallback(Some(id), DeleteAction);
    IdTokenRoundTrip("toggle_", id);
    ToggleBranch(toggle);
    assert ParseCallback(toggle) == IdCallback(Some(id), ToggleAction);
  }

  // ---------------------------------------------------------------------------------------
  // Text commands

  /** What a text message asks for. */
  datatype Command =
    | Search(query: string)
    | DiagStation(code: string)
    | Station(code: string)
    | SetLocation(args: seq<string>)
    | Nearby
    | Start
    | Help
    | Subscriptions
    | Stops
    | Moscow
    | NotUnderstood

  /** `text.Length > n ? text.Substring(n).Trim() : string.Empty`: the argument after a command. */
  function Argument(text: string, n: nat): (arg: string)
  {
    if |text| > n then Trim(text[n..]) else ""
  }

  /** One piece as `TrimEntries` and `RemoveEmptyEntries` leave it: its trim, or nothing when blank. */
  function WordOf(p: string): (w: seq<string>)
    ensures |w| <= 1
    ensures w == [] <==> Trim(p) == []
    ensures forall i :: 0 <= i < |w| ==> w[i] == Trim(p) && w[i] != [] && Trimmed(w[i])
  {
    var t := Trim(p);
    if t == [] then [] else [t]
  }

  /** `Split(' ', RemoveEmptyEntries | TrimEntries)`: the non-empty trimmed pieces between spaces. */
  function Words(parts: seq<string>): (words: seq<string>)
    ensures forall i :: 0 <= i < |words| ==> words[i] != [] && Trimmed(words[i])
    decreases |parts|
  {
    if parts == [] then [] else WordOf(parts[0]) + Words(parts[1..])
  }

  lemma WordsOfOne(p: string)
    ensures Words([p]) == WordOf(p)
  {
    assert [p][1..] == [];
    assert Words([p]) == WordOf(p) + Words([]);
  }

  /** One more piece adds its trim to the words, unless it is blank. */
  lemma {:induction false} WordsSnoc(parts: seq<string>, p: string)
    ensures Words(parts + [p]) == Words(parts) + WordOf(p)
    decreases |parts|
  {
    if parts == [] {
      WordsOfOne(p);
    } else {
      assert (parts + [p])[0] == parts[0] && (parts + [p])[1..] == parts[1..] + [p];
      WordsSnoc(parts[1..], p);
      AppendRegroup(Words(parts + [p]), WordOf(parts[0]), Words(parts[1..] + [p]), Words(parts[1..]), WordOf(p));
    }
  }

  /**
   * `HandleTextMessageAsync`'s chain of tests: four prefix tests ignoring case, an equality
   * ignoring case, then a switch on the lower-cased text.
   */
  function ParseCommand(text: string): (cmd: Command)
    ensures cmd.Search? ==> StartsWithIgnoreCase(text, "/search") && Trimmed(cmd.query)
    ensures cmd.DiagStation? ==> StartsWithIgnoreCase(text, "/diag_station") && Trimmed(cmd.code)
    ensures cmd.Station? ==> StartsWithIgnoreCase(text, "/station") && Trimmed(cmd.code)
    ensures cmd.SetLocation? ==>
      && StartsWithIgnoreCase(text, "/setlocation")
      && forall i :: 0 <= i < |cmd.args| ==> cmd.args[i] != [] && Trimmed(cmd.args[i])
    ensures cmd.NotUnderstood? <==>
      && !StartsWithIgnoreCase(text, "/search") && !StartsWithIgnoreCase(text, "/diag_station")
      && !StartsWithIgnoreCase(text, "/station") && !StartsWithIgnoreCase(text, "/setlocation")
      && !EqualsIgnoreCase(text, "/nearby")
      && ToLower(text) !in ["/start", "/help", "/subscriptions", "/stops", "/moscow"]
  {
    if StartsWithIgnoreCase(text, "/search") then Search(Argument(text, 7))
    else if StartsWithIgnoreCase(text, "/diag_station") then DiagStation(Argument(text, 13))
    else if StartsWithIgnoreCase(text, "/station") then Station(Argument(text, 8))
    else if StartsWithIgnoreCase(text, "/setlocation") then SetLocation(Words(Split(text, ' ')))
    else if EqualsIgnoreCase(text, "/nearby") then Nearby
    else
      var lower := ToLower(text);
      if lower == "/start" then Start
      else if lower == "/help" then Help
      else if lower == "/subscriptions" then Subscriptions
      else if lower == "/stops" then Stops
      else if lower == "/moscow" then Moscow
      else NotUnderstood
  }

  /** `/search` followed by anything searches for the trimmed rest. */
  lemma SearchArgument(rest: string)
    ensures ParseCommand("/search" + rest) == Search(Trim(rest))
  {
    var text := "/search" + rest;
    assert text[..7] == "/search" && text[7..] == rest;
    if rest == [] {
      assert Trim(rest) == [];
    }
  }

  /** `/station` followed by anything asks for the departures of the trimmed rest. */
  lemma StationArgument(rest: string)
    ensures ParseCommand("/station" + rest) == Station(Trim(rest))
  {
    StationPrefix(rest);
    var text := "/station" + rest;
    assert text[8..] == rest;
    if rest == [] {
      assert Trim(rest) == [];
    }
  }

  /** Text starting with `/station` starts with neither earlier prefix command. */
  lemma StationPrefix(rest: string)
    ensures var text := "/station" + rest;
      !StartsWithIgnoreCase(text, "/search") && !StartsWithIgnoreCase(text, "/diag_station")
      && StartsWithIgnoreCase(text, "/station")
  {
    var text := "/station" + rest;
    assert text[..8] == "/station";
    assert text[1] == 's' && text[2] == 't';
    assert ToLower(text)[1] == 's' && ToLower(text)[2] == 't';
    NotPrefixIgnoringCase(text, "/search", 2);
    NotPrefixIgnoringCase(text, "/diag_station", 1);
  }

  /** Text whose lower-cased letter at `i` differs from the prefix's does not start with it. */
  lemma NotPrefixIgnoringCase(text: string, p: string, i: nat)
    requires i < |p| && i < |text| && ToLower(text)[i] != FoldChar(p[i])
    ensures !StartsWithIgnoreCase(text, p)
  {
    if |p| <= |text| {
      assert ToLower(text[..|p|])[i] == ToLower(text)[i];
    }
  }

  /**
   * The switch on the lower-cased text: each menu command is recognised in any letter case,
   * since none of them starts with a prefix command or equals "/nearby".
   */
  lemma SwitchCommand(text: string)
    requires ToLower(text) in ["/start", "/help", "/subscriptions", "/stops", "/moscow"]
    ensures ToLower(text) == "/start" ==> ParseCommand(text) == Start
    ensures ToLower(text) == "/help" ==> ParseCommand(text) == Help
    ensures ToLower(text) == "/subscriptions" ==> ParseCommand(text) == Subscriptions
    ensures ToLower(text) == "/stops" ==> ParseCommand(text) == Stops
    ensures ToLower(text) == "/moscow" ==> ParseCommand(text) == Moscow
  {
    var lower := ToLower(text);
    NotPrefixIgnoringCase(text, "/search", if lower[1] == 's' then 2 else 1);
    if |text| >= 8 {
      NotPrefixIgnoringCase(text, "/station", 2);
    }
    if |text| >= 12 {
      NotPrefixIgnoringCase(text, "/diag_station", 1);
      NotPrefixIgnoringCase(text, "/setlocation", 2);
    }
    assert ToLower("/nearby")[1] == 'n';
  }

  /** `/diag_station` followed by anything asks for a diagnosis of the trimmed rest. */
  lemma DiagArgument(rest: string)
    ensures ParseCommand("/diag_station" + rest) == DiagStation(Trim(rest))
  {
    DiagPrefix(rest);
    var text := "/diag_station" + rest;
    assert text[13..] == rest;
    if rest == [] {
      assert Trim(rest) == [];
    }
  }

  /** Text starting with `/diag_station` does not start with `/search`. */
  lemma DiagPrefix(rest: string)
    ensures var text := "/diag_station" + rest;
      !StartsWithIgnoreCase(text, "/search") && StartsWithIgnoreCase(text, "/diag_station")
  {
    var text := "/diag_station" + rest;
    assert text[..13] == "/diag_station";
    assert text[1] == 'd' && ToLower(text)[1] == 'd';
    NotPrefixIgnoringCase(text, "/search", 1);
  }

  /** `/nearby` in any letter case asks for the stations near the stored location. */
  lemma NearbyCommand(text: string)
    requires EqualsIgnoreCase(text, "/nearby")
    ensures ParseCommand(text) == Nearby
  {
    assert ToLower(text)[1] == 'n';
    NotPrefixIgnoringCase(text, "/search", 1);
  }
}
