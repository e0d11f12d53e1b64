/**
 * The notification cycle: every active subscription that was not notified within the last
 * minute has its arrival estimate looked up, and a subscription whose estimate equals its
 * lead time is notified and stamped. The estimate lookup, the failure of a save and the
 * clock are parameters; the send is recorded as a notice, since its failure is swallowed.
 */
module Notifications {
  import opened Options
  import opened Text
  import opened Tables
  import opened Arrivals
  import opened Subscriptions
  import Yandex

  /** Where a subscription's estimate comes from. */
  datatype Target =
    | External(routeNumber: string, stopCode: string)
    | Internal(routeId: int, stopId: int)
    | NoTarget

  /**
   * The external pair when both its fields are non-blank, else the internal ids when both
   * are set, else no target at all.
   */
  function TargetOf(s: Subscription): (t: Target)
    ensures t.External? <==> !IsNullOrWhiteSpace(s.externalRouteNumber) && !IsNullOrWhiteSpace(s.externalStopCode)
    ensures t.External? ==> t == External(s.externalRouteNumber.value, s.externalStopCode.value)
    ensures t.Internal? <==> !t.External? && s.routeId.Some? && s.stopId.Some?
    ensures t.Internal? ==> t == Internal(s.routeId.value, s.stopId.value)
  {
    if !IsNullOrWhiteSpace(s.externalRouteNumber) && !IsNullOrWhiteSpace(s.externalStopCode) then
      External(s.externalRouteNumber.value, s.externalStopCode.value)
    else if s.routeId.Some? && s.stopId.Some? then Internal(s.routeId.value, s.stopId.value)
    else NoTarget
  }

  /** Seconds that must pass after a notification before the subscription is looked at again. */
  const DebounceSeconds := 60

  /** Notified less than a minute ago: skipped without a lookup. */
  predicate Debounced(s: Subscription, now: Instant): (skipped: bool)
    ensures s.lastNotifiedAt == now ==> skipped
    ensures s.lastNotifiedAt == NeverNotified && now >= DebounceSeconds ==> !skipped
  {
    now - s.lastNotifiedAt < DebounceSeconds
  }

  /** The estimate the cycle compares: looked up for a target, -1 without one. */
  function Eta(s: Subscription, lookup: Target -> int): (eta: int)
    ensures TargetOf(s).NoTarget? ==> eta == -1
    ensures !TargetOf(s).NoTarget? ==> eta == lookup(TargetOf(s))
  {
    match TargetOf(s)
    case NoTarget => -1
    case _ => lookup(TargetOf(s))
  }

  /** A subscription fires when it is not debounced and its estimate is exactly its lead time. */
  predicate Fires(s: Subscription, lookup: Target -> int, now: Instant): (fires: bool)
    ensures fires ==> !Debounced(s, now)
    ensures fires && TargetOf(s).NoTarget? ==> s.notifyBeforeMinutes == -1
  {
    !Debounced(s, now) && Eta(s, lookup) == s.notifyBeforeMinutes
  }

  /** A message to the subscription's owner announcing the arrival in `minutes`. */
  datatype Notice = Notice(subscriptionId: int, userId: int, minutes: int)

  /**
   * The state of a cycle: the table, the notices sent, the ids of the subscriptions whose
   * estimate was looked up, and whether an exception has ended the cycle.
   */
  datatype Cycle = Cycle(rows: seq<Subscription>, sent: seq<Notice>, looked: seq<int>, stopped: bool)

  /** The subscription `s` stamped as notified at `now`. */
  function Stamped(s: Subscription, now: Instant): Subscription
  {
    s.(lastNotifiedAt := now)
  }

  /** One turn of the loop over the snapshot. */
  function Visit(c: Cycle, s: Subscription, lookup: Target -> int, saveFails: int -> bool, now: Instant): (v: Cycle)
    ensures c.stopped ==> v == c
    ensures |v.rows| == |c.rows|
    ensures v.sent == c.sent || (Fires(s, lookup, now) && v.sent == c.sent + [Notice(s.id, s.userId, s.notifyBeforeMinutes)])
    ensures v.looked == c.looked || v.looked == c.looked + [s.id]
    ensures v.stopped && !c.stopped ==> Fires(s, lookup, now) && (saveFails(s.id) || Find(c.rows, SubscriptionId, s.id).None?)
  {
    if c.stopped || Debounced(s, now) then c
    else
      var looked := if TargetOf(s).NoTarget? then c.looked else c.looked + [s.id];
      if Eta(s, lookup) != s.notifyBeforeMinutes then c.(looked := looked)
      else
        var sent := c.sent + [Notice(s.id, s.userId, s.notifyBeforeMinutes)];
        if saveFails(s.id) || Find(c.rows, SubscriptionId, s.id).None? then Cycle(c.rows, sent, looked, true)
        else Cycle(Replace(c.rows, SubscriptionId, Stamped(s, now)), sent, looked, false)
  }

  /** The cycle over `snapshot`, starting from the table `rows`. */
  function Run(rows: seq<Subscription>, snapshot: seq<Subscription>, lookup: Target -> int, saveFails: int -> bool,
               now: Instant): (c: Cycle)
    ensures |c.rows| == |rows| && |c.sent| <= |snapshot| && |c.looked| <= |snapshot|
    decreases |snapshot|
  {
    if snapshot == [] then Cycle(rows, [], [], false)
    else Visit(Run(rows, snapshot[..|snapshot| - 1], lookup, saveFails, now), snapshot[|snapshot| - 1],
               lookup, saveFails, now)
  }

  /** One more subscription of the snapshot is one more visit. */
  lemma RunStep(rows: seq<Subscription>, snapshot: seq<Subscription>, lookup: Target -> int,
                saveFails: int -> bool, now: Instant, i: nat)
    requires i < |snapshot|
    ensures Run(rows, snapshot[..i + 1], lookup, saveFails, now)
      == Visit(Run(rows, snapshot[..i], lookup, saveFails, now), snapshot[i], lookup, saveFails, now)
  {
    assert snapshot[..i + 1][..i] == snapshot[..i];
  }

  /**
   * Once an exception has ended the cycle, the rest of the snapshot is not looked at: the
   * cycle that stopped after `k` subscriptions is the whole cycle.
   */
  lemma {:induction false} StoppedStaysStopped(rows: seq<Subscription>, snapshot: seq<Subscription>,
                                                lookup: Target -> int, saveFails: int -> bool, now: Instant, k: nat)
    requires k <= |snapshot| && (k == |snapshot| || Run(rows, snapshot[..k], lookup, saveFails, now).stopped)
    ensures Run(rows, snapshot, lookup, saveFails, now) == Run(rows, snapshot[..k], lookup, saveFails, now)
    decreases |snapshot|
  {
    if k < |snapshot| {
      var init := snapshot[..|snapshot| - 1];
      assert init[..k] == snapshot[..k];
      StoppedStaysStopped(rows, init, lookup, saveFails, now, k);
    } else {
      assert snapshot[..k] == snapshot;
    }
  }

  /**
   * Only the snapshot is examined: every estimate looked up belongs to a snapshot
   * subscription that is not debounced and has a target, and every notice to one that fires.
   */
  lemma {:induction false} RunExaminesSnapshot(rows: seq<Subscription>, snapshot: seq<Subscription>,
                                                lookup: Target -> int, saveFails: int -> bool, now: Instant)
    ensures forall id :: id in Run(rows, snapshot, lookup, saveFails, now).looked ==>
      exists s :: s in snapshot && s.id == id && !Debounced(s, now) && !TargetOf(s).NoTarget?
    ensures forall n :: n in Run(rows, snapshot, lookup, saveFails, now).sent ==>
      exists s :: s in snapshot && n == Notice(s.id, s.userId, s.notifyBeforeMinutes) && Fires(s, lookup, now)
    decreases |snapshot|
  {
    if snapshot != [] {
      var init := snapshot[..|snapshot| - 1];
      RunExaminesSnapshot(rows, init, lookup, saveFails, now);
      assert forall s :: s in init ==> s in snapshot;
      assert snapshot[|snapshot| - 1] in snapshot;
    }
  }

  /** The notices of a cycle in which no save fails: one per firing subscription, in order. */
  function FiredNotices(snapshot: seq<Subscription>, lookup: Target -> int, now: Instant): seq<Notice>
    decreases |snapshot|
  {
    if snapshot == [] then []
    else
      var s := snapshot[|snapshot| - 1];
      FiredNotices(snapshot[..|snapshot| - 1], lookup, now)
        + if Fires(s, lookup, now) then [Notice(s.id, s.userId, s.notifyBeforeMinutes)] else []
  }

  /**
   * The table `cur` is `rows` with exactly the records in `snapshot` that fire stamped.
   */
  ghost predicate StampedFiring(rows: seq<Subscription>, cur: seq<Subscription>, snapshot: seq<Subscription>,
                                lookup: Target -> int, now: Instant)
  {
    |cur| == |rows| && forall i :: 0 <= i < |rows| ==>
      (cur[i] == if rows[i] in snapshot && Fires(rows[i], lookup, now) then Stamped(rows[i], now) else rows[i])
  }

  /** Visiting one more record of the table keeps the stamped records exactly the firing ones. */
  lemma StampStep(rows: seq<Subscription>, cur: seq<Subscription>, init: seq<Subscription>, s: Subscription,
                  lookup: Target -> int, now: Instant)
    requires UniqueKeys(rows, SubscriptionId) && s in rows && StampedFiring(rows, cur, init, lookup, now)
    ensures Fires(s, lookup, now) ==> Find(cur, SubscriptionId, s.id).Some?
    ensures StampedFiring(rows, if Fires(s, lookup, now) then Replace(cur, SubscriptionId, Stamped(s, now)) else cur,
                          init + [s], lookup, now)
  {
    var m :| 0 <= m < |rows| && rows[m] == s;
    assert cur[m].id == s.id;
    forall i | 0 <= i < |rows|
      ensures rows[i].id == s.id <==> rows[i] == s
      ensures rows[i] in init + [s] <==> rows[i] in init || rows[i] == s
    {
      if i != m {
        assert rows[i].id != rows[m].id;
      }
    }
  }

  /**
   * A cycle over records of a table with unique ids, in which no save fails, runs to the end:
   * it sends exactly the notices of the firing subscriptions, and stamps exactly the records
   * that are in the snapshot and fire, leaving every other record unchanged.
   */
  lemma {:induction false} RunWithoutFailures(rows: seq<Subscription>, snapshot: seq<Subscription>,
                                              lookup: Target -> int, saveFails: int -> bool, now: Instant)
    requires UniqueKeys(rows, SubscriptionId)
    requires forall i :: 0 <= i < |snapshot| ==> snapshot[i] in rows && !saveFails(snapshot[i].id)
    ensures !Run(rows, snapshot, lookup, saveFails, now).stopped
    ensures Run(rows, snapshot, lookup, saveFails, now).sent == FiredNotices(snapshot, lookup, now)
    ensures StampedFiring(rows, Run(rows, snapshot, lookup, saveFails, now).rows, snapshot, lookup, now)
    decreases |snapshot|
  {
    if snapshot != [] {
      var init := snapshot[..|snapshot| - 1];
      var s := snapshot[|snapshot| - 1];
      assert forall i :: 0 <= i < |init| ==> init[i] == snapshot[i];
      RunWithoutFailures(rows, init, lookup, saveFails, now);
      assert snapshot == init + [s];
      var c := Run(rows, init, lookup, saveFails, now);
      StampStep(rows, c.rows, init, s, lookup, now);
      VisitWithoutFailure(c, s, lookup, saveFails, now);
    }
  }

  /** A visit that does not fail sends the notice exactly when the subscription fires, and stamps it. */
  lemma VisitWithoutFailure(c: Cycle, s: Subscription, lookup: Target -> int, saveFails: int -> bool, now: Instant)
    requires !c.stopped && !saveFails(s.id)
    requires Fires(s, lookup, now) ==> Find(c.rows, SubscriptionId, s.id).Some?
    ensures var v := Visit(c, s, lookup, saveFails, now);
      && !v.stopped
      && v.sent == c.sent + (if Fires(s, lookup, now) then [Notice(s.id, s.userId, s.notifyBeforeMinutes)] else [])
      && v.rows == (if Fires(s, lookup, now) then Replace(c.rows, SubscriptionId, Stamped(s, now)) else c.rows)
  {
  }

  /**
   * On the store's own active records with no failing save, a cycle stamps exactly the active
   * records that fire and notifies their owners.
   */
  lemma CycleOverActive(rows: seq<Subscription>, lookup: Target -> int, saveFails: int -> bool, now: Instant)
    requires UniqueKeys(rows, SubscriptionId)
    requires forall i :: 0 <= i < |rows| ==> !saveFails(rows[i].id)
    ensures var c := Run(rows, Active(rows), lookup, saveFails, now);
      !c.stopped && c.sent == FiredNotices(Active(rows), lookup, now) && |c.rows| == |rows|
      && forall i :: 0 <= i < |rows| ==>
        (c.rows[i] == if rows[i].isActive && Fires(rows[i], lookup, now) then Stamped(rows[i], now) else rows[i])
  {
    var snapshot := Active(rows);
    forall i | 0 <= i < |snapshot|
      ensures snapshot[i] in rows && !saveFails(snapshot[i].id)
    {
      var m :| 0 <= m < |rows| && rows[m] == snapshot[i];
    }
    RunWithoutFailures(rows, snapshot, lookup, saveFails, now);
    forall i | 0 <= i < |rows|
      ensures rows[i] in snapshot <==> rows[i].isActive
    {
      if rows[i] in snapshot {
        var k :| 0 <= k < |snapshot| && snapshot[k] == rows[i];
      }
    }
  }

  /** The estimate the live provider gives for a target, through either overload. */
  function LiveEta(fetch: (string, BoardQuery) -> BoardResponse, now: Instant, t: Target): int
  {
    match t
    case External(route, code) => Yandex.ScanMinutes(Yandex.EtaScan(Yandex.Responses(fetch, code), route, now))
    case Internal(routeId, stopId) =>
      Yandex.ScanMinutes(Yandex.EtaScan(Yandex.Responses(fetch, IntToString(stopId)), IntToString(routeId), now))
    case NoTarget => -1
  }

  /** The live provider as a lookup. */
  function LiveLookup(fetch: (string, BoardQuery) -> BoardResponse, now: Instant): Target -> int
  {
    t => LiveEta(fetch, now, t)
  }

  /**
   * With the live provider an estimate is never zero or below -1, so a subscription whose
   * lead time is zero or below -1 never fires, and one with a lead time of -1 fires exactly
   * when no estimate is known.
   */
  lemma LiveFiring(fetch: (string, BoardQuery) -> BoardResponse, now: Instant, s: Subscription)
    ensures s.notifyBeforeMinutes == 0 || s.notifyBeforeMinutes < -1 ==> !Fires(s, LiveLookup(fetch, now), now)
    ensures s.notifyBeforeMinutes == -1 && !Debounced(s, now) && TargetOf(s).NoTarget? ==>
      Fires(s, LiveLookup(fetch, now), now)
  {
    var e := Eta(s, LiveLookup(fetch, now));
    assert e == -1 || e >= 1;
  }

  /**
   * One subscription of the cycle: skipped when debounced; otherwise its estimate is looked
   * up (when it has a target) and, when the estimate equals the lead time, the owner is
   * notified and the record stamped and saved. A save that throws ends the cycle.
   */
  method VisitSubscription(store: SubscriptionStore, s: Subscription, lookup: Target -> int, saveFails: int -> bool,
                           now: Instant, sent0: seq<Notice>, looked0: seq<int>)
    returns (sent: seq<Notice>, looked: seq<int>, stopped: bool)
    requires store.Valid()
    modifies store
    ensures store.Valid()
    ensures Visit(Cycle(old(store.rows), sent0, looked0, false), s, lookup, saveFails, now)
      == Cycle(store.rows, sent, looked, stopped)
  {
    sent, looked, stopped := sent0, looked0, false;
    if now - s.lastNotifiedAt < DebounceSeconds {
      return;
    }
    var eta := -1;
    if !IsNullOrWhiteSpace(s.externalRouteNumber) && !IsNullOrWhiteSpace(s.externalStopCode) {
      eta := lookup(External(s.externalRouteNumber.value, s.externalStopCode.value));
      looked := looked + [s.id];
    } else if s.routeId.Some? && s.stopId.Some? {
      eta := lookup(Internal(s.routeId.value, s.stopId.value));
      looked := looked + [s.id];
    }
    assert eta == Eta(s, lookup);
    if eta == s.notifyBeforeMinutes {
      sent := sent + [Notice(s.id, s.userId, s.notifyBeforeMinutes)];
      if saveFails(s.id) {
        stopped := true;
      } else {
        var ok := store.UpdateSubscription(Stamped(s, now));
        stopped := !ok;
      }
    }
  }

  /**
   * `CheckAndSendNotificationsAsync`: the cycle over the store's active records. `lookup`
   * stands for the transport service's two estimate overloads and `saveFails` for a save that
   * throws; the notices are the sends, whose failures do not stop the cycle.
   */
  method CheckAndSendNotifications(store: SubscriptionStore, lookup: Target -> int, saveFails: int -> bool,
                                   now: Instant)
    returns (sent: seq<Notice>, looked: seq<int>)
    requires store.Valid()
    modifies store
    ensures store.Valid()
    ensures var c := Run(old(store.rows), Active(old(store.rows)), lookup, saveFails, now);
      store.rows == c.rows && sent == c.sent && looked == c.looked
  {
    var rows0 := store.rows;
    var snapshot := store.ActiveSubscriptions();
    sent, looked := [], [];
    var stopped := false;
    var i := 0;
    while i < |snapshot| && !stopped
      invariant 0 <= i <= |snapshot| && store.Valid()
      invariant Run(rows0, snapshot[..i], lookup, saveFails, now) == Cycle(store.rows, sent, looked, stopped)
    {
      RunStep(rows0, snapshot, lookup, saveFails, now, i);
      sent, looked, stopped := VisitSubscription(store, snapshot[i], lookup, saveFails, now, sent, looked);
      i := i + 1;
    }
    StoppedStaysStopped(rows0, snapshot, lookup, saveFails, now, i);
  }
}
