/**
 * The callback tokens the bot puts behind inline buttons, and how it reads them back. Tokens
 * are a prefix followed by fields separated by '_': station and route tokens for the live
 * provider carry strings, the others decimal ids and minutes.
 */
module Tokens {
  import opened Options
  import opened Text

  // ---------------------------------------------------------------------------------------
  // Splitting helpers

  /** Splitting `b + [d] + a`, where `a` has no delimiter, yields the parts of `b` and then `a`. */
  lemma {:induction false} SplitBeforeField(b: string, d: char, a: string)
    requires d !in a
    ensures Split(b + [d] + a, d) == Split(b, d) + [a]
    decreases |b|
  {
    if b == [] {
      assert b + [d] + a == [d] + a && ([d] + a)[1..] == a;
      SplitWithoutDelimiter(a, d);
    } else {
      assert (b + [d] + a)[0] == b[0] && (b + [d] + a)[1..] == b[1..] + [d] + a;
      SplitBeforeField(b[1..], d, a);
    }
  }

  /** A decimal number holds no underscore and no letter. */
  lemma NumberHasNoLetter(n: int, c: char)
    requires c != '-' && !IsDigit(c)
    ensures c !in IntToString(n)
  {
    IntToStringChars(n);
  }

  /** Removing a word that starts with a letter from `word + n.ToString()` leaves the number. */
  lemma RemoveWordBeforeNumber(word: string, n: int)
    requires word != [] && word[0] != '-' && !IsDigit(word[0])
    ensures RemoveAll(word + IntToString(n), word) == IntToString(n)
  {
    NumberHasNoLetter(n, word[0]);
    var digits := IntToString(n);
    forall i ensures !OccursAt(digits, word, i) {
      if 0 <= i && i + |word| <= |digits| {
        assert digits[i..i + |word|][0] == digits[i] != word[0];
      }
    }
    RemovePrefixOnly(word, IntToString(n));
  }

  // ---------------------------------------------------------------------------------------
  // Live-provider tokens

  /** `yst_{code}`: show the departures of a station. */
  function StationToken(code: string): (t: string)
    ensures StartsWith(t, "yst_") && |t| == |code| + 4
  {
    "yst_" + code
  }

  /** `data.Substring(4)` on a `yst_` token: the station code. */
  function StationOf(data: string): string
    requires |data| >= 4
  {
    data[4..]
  }

  /** A station token carries its prefix and gives back any code exactly. */
  lemma StationTokenRoundTrip(code: string)
    ensures StartsWith(StationToken(code), "yst_")
    ensures StationOf(StationToken(code)) == code
  {
    assert StationToken(code)[..4] == "yst_";
  }

  /** `yrt_{code}_{route}`: show a route's estimate at a station and the lead-time menu. */
  function RouteToken(code: string, route: string): (t: string)
    ensures StartsWith(t, "yrt_") && |t| == |code| + |route| + 5
  {
    "yrt_" + code + "_" + route
  }

  /**
   * A `yrt_` token split on '_': with at least three parts, the code is the second part and
   * the route the remaining parts joined again; with fewer, nothing.
   */
  function ParseRouteToken(data: string): (r: Option<(string, string)>)
    ensures r.None? <==> |Split(data, '_')| < 3
    ensures r.Some? ==> '_' !in r.value.0
  {
    var parts := Split(data, '_');
    if |parts| >= 3 then Some((parts[1], Join('_', parts[2..]))) else None
  }

  /** A route token gives back its code and route when the code has no underscore. */
  lemma RouteTokenRoundTrip(code: string, route: string)
    requires '_' !in code
    ensures StartsWith(RouteToken(code, route), "yrt_")
    ensures ParseRouteToken(RouteToken(code, route)) == Some((code, route))
  {
    var t := RouteToken(code, route);
    assert t == "yrt" + "_" + (code + "_" + route);
    assert t[..4] == "yrt_";
    SplitAfterField("yrt", '_', code + "_" + route);
    SplitAfterField(code, '_', route);
    var parts := Split(t, '_');
    assert parts == ["yrt", code] + Split(route, '_');
    assert parts[2..] == Split(route, '_');
    JoinSplit(route, '_');
  }

  /** What reading a `ynotify_` token gives. */
  datatype NotifyParse =
    | TooFewParts
    | BadNumber
    | Parsed(code: string, route: string, minutes: int)

  /** `ynotify_{code}_{route}_{minutes}`: subscribe to a route at a station. */
  function NotifyToken(code: string, route: string, minutes: int): (t: string)
    ensures StartsWith(t, "ynotify_")
  {
    "ynotify_" + code + "_" + route + "_" + IntToString(minutes)
  }

  /**
   * The `ynotify_` parse as the handler writes it: at least four parts, the code is part 1,
   * the route part 2 and the minutes `int.Parse` of part 3 (a failed parse throws).
   */
  function ParseNotifyTokenAsWritten(data: string): (r: NotifyParse)
    ensures r.TooFewParts? <==> |Split(data, '_')| < 4
    ensures r.Parsed? ==> '_' !in r.code && '_' !in r.route && InInt32(r.minutes)
  {
    var parts := Split(data, '_');
    if |parts| < 4 then TooFewParts
    else
      match ParseInt32(parts[3])
      case None => BadNumber
      case Some(m) => Parsed(parts[1], parts[2], m)
  }

  /** The parse as written gives the token back when neither the code nor the route has an underscore. */
  lemma NotifyTokenAsWrittenRoundTrip(code: string, route: string, minutes: int)
    requires '_' !in code && '_' !in route && InInt32(minutes)
    ensures ParseNotifyTokenAsWritten(NotifyToken(code, route, minutes)) == Parsed(code, route, minutes)
  {
    NotifyTokenParts(code, route, minutes);
    SplitWithoutDelimiter(route, '_');
    var parts := Split(NotifyToken(code, route, minutes), '_');
    assert parts == ["ynotify", code, route, IntToString(minutes)];
    ParseIntToString(minutes);
    assert ParseInt32(parts[3]) == Some(minutes);
  }

  /**
   * The parse as written loses a route number with an underscore: the token for route "A_5"
   * with a lead of 10 minutes reads back as route "A" with a lead of 5 minutes.
   */
  lemma NotifyTokenAsWrittenSplitsRoute()
    ensures ParseNotifyTokenAsWritten(NotifyToken("s1", "A_5", 10)) == Parsed("s1", "A", 5)
  {
    var t := NotifyToken("s1", "A_5", 10);
    NotifyTokenParts("s1", "A_5", 10);
    SplitOfA5();
    ParseFive();
    var parts := Split(t, '_');
    assert parts == ["ynotify", "s1"] + ["A", "5"] + [IntToString(10)];
    assert |parts| == 5 && parts[1] == "s1" && parts[2] == "A" && parts[3] == "5";
  }

  lemma SplitOfA5()
    ensures Split("A_5", '_') == ["A", "5"]
  {
    assert "A_5" == "A" + "_" + "5";
    SplitAfterField("A", '_', "5");
    SplitWithoutDelimiter("5", '_');
  }

  lemma ParseFive()
    ensures ParseInt32("5") == Some(5)
  {
    ParseIntToString(5);
    assert IntToString(5) == "5";
  }

  /**
   * The `ynotify_` parse as intended, matching the `yrt_` parse: the code is part 1, the
   * minutes the last part and the route the parts in between joined again.
   */
  function ParseNotifyToken(data: string): (r: NotifyParse)
    ensures r.TooFewParts? <==> |Split(data, '_')| < 4
    ensures r.Parsed? ==> '_' !in r.code && InInt32(r.minutes)
  {
    var parts := Split(data, '_');
    if |parts| < 4 then TooFewParts
    else
      match ParseInt32(parts[|parts| - 1])
      case None => BadNumber
      case Some(m) => Parsed(parts[1], Join('_', parts[2..|parts| - 1]), m)
  }

  /** The parts of a `ynotify_` token whose code has no underscore. */
  lemma NotifyTokenParts(code: string, route: string, minutes: int)
    requires '_' !in code
    ensures Split(NotifyToken(code, route, minutes), '_')
      == ["ynotify", code] + Split(route, '_') + [IntToString(minutes)]
  {
    var m := IntToString(minutes);
    NumberHasNoLetter(minutes, '_');
    assert NotifyToken(code, route, minutes) == "ynotify" + "_" + (code + "_" + (route + "_" + m));
    SplitAfterField("ynotify", '_', code + "_" + (route + "_" + m));
    SplitAfterField(code, '_', route + "_" + m);
    SplitBeforeField(route, '_', m);
  }

  /** The intended parse gives back every token whose code has no underscore, whatever the route. */
  lemma NotifyTokenRoundTrip(code: string, route: string, minutes: int)
    requires '_' !in code && InInt32(minutes)
    ensures StartsWith(NotifyToken(code, route, minutes), "ynotify_")
    ensures ParseNotifyToken(NotifyToken(code, route, minutes)) == Parsed(code, route, minutes)
  {
    assert NotifyToken(code, route, minutes)[..8] == "ynotify_";
    NotifyTokenParts(code, route, minutes);
    var parts := Split(NotifyToken(code, route, minutes), '_');
    assert parts[2..|parts| - 1] == Split(route, '_');
    JoinSplit(route, '_');
    ParseIntToString(minutes);
  }

  /** The lead times, in minutes, both subscription menus offer. */
  const LeadTimes: seq<int> := [5, 10, 15, 20]

  /** A menu of four buttons laid out as two rows of two. */
  function TwoRows(buttons: seq<string>): (menu: seq<seq<string>>)
    requires |buttons| == 4
  {
    [buttons[..2], buttons[2..]]
  }

  /** The `ynotify_` buttons offered after a `yrt_` token, one per lead time. */
  function ExternalLeadButtons(code: string, route: string): (buttons: seq<string>)
    ensures |buttons| == |LeadTimes|
  {
    seq(|LeadTimes|, k requires 0 <= k < |LeadTimes| => NotifyToken(code, route, LeadTimes[k]))
  }

  /** The menu after a `yrt_` token: two rows of two `ynotify_` buttons. */
  function ExternalLeadMenu(code: string, route: string): seq<seq<string>>
  {
    TwoRows(ExternalLeadButtons(code, route))
  }

  /**
   * The external buttons offer exactly the lead times, each for the chosen station and route,
   * when neither the code nor the route has an underscore.
   */
  lemma ExternalLeadButtonsOfferLeadTimes(code: string, route: string)
    requires '_' !in code && '_' !in route
    ensures forall k :: 0 <= k < |LeadTimes| ==>
      ParseNotifyTokenAsWritten(ExternalLeadButtons(code, route)[k]) == Parsed(code, route, LeadTimes[k])
  {
    forall k | 0 <= k < |LeadTimes|
      ensures ParseNotifyTokenAsWritten(ExternalLeadButtons(code, route)[k]) == Parsed(code, route, LeadTimes[k])
    {
      NotifyTokenAsWrittenRoundTrip(code, route, LeadTimes[k]);
    }
  }

  // ---------------------------------------------------------------------------------------
  // Internal-id tokens

  /** `stop_{id}`, `toggle_{id}` and `delete_{id}`: a word and a decimal id. */
  function IdToken(word: string, id: int): (t: string)
    ensures StartsWith(t, word) && |t| > |word|
  {
    word + IntToString(id)
  }

  /** `int.Parse(data.Replace(word, ""))`: every occurrence of the word removed, the rest parsed. */
  function ParseIdToken(data: string, word: string): (r: Option<int>)
    requires word != []
    ensures r.Some? ==> InInt32(r.value)
  {
    ParseInt32(RemoveAll(data, word))
  }

  /** An id token gives back its id for every C# `int`. */
  lemma IdTokenRoundTrip(word: string, id: int)
    requires word != [] && word[0] != '-' && !IsDigit(word[0]) && InInt32(id)
    ensures StartsWith(IdToken(word, id), word)
    ensures ParseIdToken(IdToken(word, id), word) == Some(id)
  {
    assert IdToken(word, id)[..|word|] == word;
    RemoveWordBeforeNumber(word, id);
    ParseIntToString(id);
  }

  /** What reading a `route_` or `notify_` token gives. */
  datatype IdsParse =
    | MissingPart
    | BadId
    | Ids(stopId: int, routeId: int, minutes: int)

  /** `route_{stopId}_{routeId}`: choose a route at a stop. */
  function RouteChoiceToken(stopId: int, routeId: int): (t: string)
    ensures StartsWith(t, "route_") && |t| >= 8
  {
    "route_" + IntToString(stopId) + "_" + IntToString(routeId)
  }

  /** `notify_{stopId}_{routeId}_{minutes}`: subscribe to a route at a stop. */
  function InternalNotifyToken(stopId: int, routeId: int, minutes: int): (t: string)
    ensures StartsWith(t, "notify_") && |t| >= 12
  {
    "notify_" + IntToString(stopId) + "_" + IntToString(routeId) + "_" + IntToString(minutes)
  }

  /**
   * A `route_` token split on '_': parts 1 and 2 parsed as ids. A missing part is an index
   * out of range and a failed parse a format error; both throw. The minutes are unused.
   */
  function ParseRouteChoiceToken(data: string): (r: IdsParse)
    ensures r.MissingPart? <==> |Split(data, '_')| < 3
    ensures r.Ids? ==> InInt32(r.stopId) && InInt32(r.routeId) && r.minutes == 0
  {
    RouteChoiceOfParts(Split(data, '_'))
  }

  function RouteChoiceOfParts(parts: seq<string>): IdsParse
  {
    if |parts| < 3 then MissingPart
    else
      match (ParseInt32(parts[1]), ParseInt32(parts[2]))
      case (Some(s), Some(r)) => Ids(s, r, 0)
      case _ => BadId
  }

  /** A `notify_` token split on '_': parts 1, 2 and 3 parsed as stop, route and minutes. */
  function ParseInternalNotifyToken(data: string): (r: IdsParse)
    ensures r.MissingPart? <==> |Split(data, '_')| < 4
    ensures r.Ids? ==> InInt32(r.stopId) && InInt32(r.routeId) && InInt32(r.minutes)
  {
    InternalNotifyOfParts(Split(data, '_'))
  }

  function InternalNotifyOfParts(parts: seq<string>): IdsParse
  {
    if |parts| < 4 then MissingPart
    else
      match (ParseInt32(parts[1]), ParseInt32(parts[2]), ParseInt32(parts[3]))
      case (Some(s), Some(r), Some(m)) => Ids(s, r, m)
      case _ => BadId
  }

  /** Rendered C# `int`s in the id positions read back as themselves. */
  lemma RouteChoiceOfNumbers(word: string, stopId: int, routeId: int)
    requires InInt32(stopId) && InInt32(routeId)
    ensures RouteChoiceOfParts([word, IntToString(stopId), IntToString(routeId)]) == Ids(stopId, routeId, 0)
  {
    var parts := [word, IntToString(stopId), IntToString(routeId)];
    ParsePart(parts, 1, stopId);
    ParsePart(parts, 2, routeId);
  }

  lemma InternalNotifyOfNumbers(word: string, stopId: int, routeId: int, minutes: int)
    requires InInt32(stopId) && InInt32(routeId) && InInt32(minutes)
    ensures InternalNotifyOfParts([word, IntToString(stopId), IntToString(routeId), IntToString(minutes)])
      == Ids(stopId, routeId, minutes)
  {
    var parts := [word, IntToString(stopId), IntToString(routeId), IntToString(minutes)];
    ParsePart(parts, 1, stopId);
    ParsePart(parts, 2, routeId);
    ParsePart(parts, 3, minutes);
    InternalNotifyOfParsed(parts, stopId, routeId, minutes);
  }

  /** A part that is a rendered C# `int` parses back as it. */
  lemma ParsePart(parts: seq<string>, i: nat, n: int)
    requires i < |parts| && parts[i] == IntToString(n) && InInt32(n)
    ensures ParseInt32(parts[i]) == Some(n)
  {
    ParseIntToString(n);
  }

  /** Four parts whose last three parse give those three values. */
  lemma InternalNotifyOfParsed(parts: seq<string>, stopId: int, routeId: int, minutes: int)
    requires |parts| == 4
    requires ParseInt32(parts[1]) == Some(stopId) && ParseInt32(parts[2]) == Some(routeId)
    requires ParseInt32(parts[3]) == Some(minutes)
    ensures InternalNotifyOfParts(parts) == Ids(stopId, routeId, minutes)
  {
  }

  /** A `route_` token gives back its ids for all C# `int` ids. */
  lemma RouteChoiceTokenRoundTrip(stopId: int, routeId: int)
    requires InInt32(stopId) && InInt32(routeId)
    ensures StartsWith(RouteChoiceToken(stopId, routeId), "route_")
    ensures ParseRouteChoiceToken(RouteChoiceToken(stopId, routeId)) == Ids(stopId, routeId, 0)
  {
    assert RouteChoiceToken(stopId, routeId)[..6] == "route_";
    RouteChoiceTokenParts(stopId, routeId);
    RouteChoiceOfNumbers("route", stopId, routeId);
  }

  /** The parts of a `route_` token. */
  lemma RouteChoiceTokenParts(stopId: int, routeId: int)
    ensures Split(RouteChoiceToken(stopId, routeId), '_') == ["route", IntToString(stopId), IntToString(routeId)]
  {
    var s, r := IntToString(stopId), IntToString(routeId);
    assert RouteChoiceToken(stopId, routeId) == "route" + "_" + (s + "_" + r);
    NumberHasNoLetter(stopId, '_');
    NumberHasNoLetter(routeId, '_');
    SplitAfterField("route", '_', s + "_" + r);
    SplitAfterField(s, '_', r);
    SplitWithoutDelimiter(r, '_');
  }

  /** A `notify_` token gives back its ids and minutes for all C# `int` values. */
  lemma InternalNotifyTokenRoundTrip(stopId: int, routeId: int, minutes: int)
    requires InInt32(stopId) && InInt32(routeId) && InInt32(minutes)
    ensures StartsWith(InternalNotifyToken(stopId, routeId, minutes), "notify_")
    ensures ParseInternalNotifyToken(InternalNotifyToken(stopId, routeId, minutes)) == Ids(stopId, routeId, minutes)
  {
    assert InternalNotifyToken(stopId, routeId, minutes)[..7] == "notify_";
    InternalNotifyTokenParts(stopId, routeId, minutes);
    InternalNotifyOfNumbers("notify", stopId, routeId, minutes);
  }

  /** The parts of a `notify_` token. */
  lemma InternalNotifyTokenParts(stopId: int, routeId: int, minutes: int)
    ensures Split(InternalNotifyToken(stopId, routeId, minutes), '_')
      == ["notify", IntToString(stopId), IntToString(routeId), IntToString(minutes)]
  {
    var s, r, m := IntToString(stopId), IntToString(routeId), IntToString(minutes);
    var last := r + "_" + m;
    var fields := s + "_" + last;
    assert InternalNotifyToken(stopId, routeId, minutes) == "notify" + "_" + fields;
    NumberHasNoLetter(stopId, '_');
    NumberHasNoLetter(routeId, '_');
    NumberHasNoLetter(minutes, '_');
    SplitAfterField(r, '_', m);
    SplitWithoutDelimiter(m, '_');
    assert Split(last, '_') == [r, m];
    SplitAfterField(s, '_', last);
    assert Split(fields, '_') == [s, r, m];
    SplitAfterField("notify", '_', fields);
  }

  /** The `notify_` buttons offered after a `route_` token, one per lead time. */
  function InternalLeadButtons(stopId: int, routeId: int): (buttons: seq<string>)
    ensures |buttons| == |LeadTimes|
  {
    seq(|LeadTimes|, k requires 0 <= k < |LeadTimes| => InternalNotifyToken(stopId, routeId, LeadTimes[k]))
  }

  /** The menu after a `route_` token: two rows of two `notify_` buttons. */
  function InternalLeadMenu(stopId: int, routeId: int): seq<seq<string>>
  {
    TwoRows(InternalLeadButtons(stopId, routeId))
  }

  /** The internal buttons offer exactly the lead times, each for the chosen stop and route. */
  lemma InternalLeadButtonsOfferLeadTimes(stopId: int, routeId: int)
    requires InInt32(stopId) && InInt32(routeId)
    ensures forall k :: 0 <= k < |LeadTimes| ==>
      ParseInternalNotifyToken(InternalLeadButtons(stopId, routeId)[k]) == Ids(stopId, routeId, LeadTimes[k])
  {
    forall k | 0 <= k < |LeadTimes|
      ensures ParseInternalNotifyToken(InternalLeadButtons(stopId, routeId)[k]) == Ids(stopId, routeId, LeadTimes[k])
    {
      InternalNotifyTokenRoundTrip(stopId, routeId, LeadTimes[k]);
    }
  }
}
