/**
 * The subscription store: the subscription service over its repository. A subscription asks
 * for a notification when a route is a given number of minutes away from a stop, named
 * either by the bot's internal ids or by the live provider's station code and route number.
 */
module Subscriptions {
  import opened Options
  import opened Sequences
  import opened Tables
  import opened Arrivals

  /** `DateTime.MinValue`: the last-notified stamp of a subscription never notified. */
  const NeverNotified: Instant := 0

  datatype Subscription = Subscription(
    id: int,
    userId: int,
    stopId: Option<int>,
    routeId: Option<int>,
    externalStopCode: Option<string>,
    externalRouteNumber: Option<string>,
    notifyBeforeMinutes: int,
    isActive: bool,
    lastNotifiedAt: Instant,
    createdAt: Instant)

  /** The primary key. */
  function SubscriptionId(s: Subscription): int
  {
    s.id
  }

  /**
   * The table after `ToggleSubscriptionAsync(id, active)`: the stored record with `id`, if
   * any, written back with `IsActive` set.
   */
  function Toggled(rows: seq<Subscription>, id: int, active: bool): (r: seq<Subscription>)
    ensures |r| == |rows|
    ensures forall i :: 0 <= i < |rows| ==> r[i].id == rows[i].id
    ensures Find(rows, SubscriptionId, id).None? ==> r == rows
  {
    match Find(rows, SubscriptionId, id)
    case None => rows
    case Some(s) => Replace(rows, SubscriptionId, s.(isActive := active))
  }

  /** A toggle changes the `IsActive` flag of the record with that id and nothing else. */
  lemma ToggledChangesOnlyActive(rows: seq<Subscription>, id: int, active: bool)
    requires UniqueKeys(rows, SubscriptionId)
    ensures |Toggled(rows, id, active)| == |rows|
    ensures forall i :: 0 <= i < |rows| ==>
      Toggled(rows, id, active)[i] == if rows[i].id == id then rows[i].(isActive := active) else rows[i]
  {
    forall i | 0 <= i < |rows| && rows[i].id == id
      ensures Toggled(rows, id, active)[i] == rows[i].(isActive := active)
    {
      FindUnique(rows, SubscriptionId, i);
    }
  }

  /** Toggling twice to the same value is the same as toggling once. */
  lemma ToggledIdempotent(rows: seq<Subscription>, id: int, active: bool)
    ensures Toggled(Toggled(rows, id, active), id, active) == Toggled(rows, id, active)
  {
    match Find(rows, SubscriptionId, id)
    case None =>
    case Some(s) =>
      var once := Replace(rows, SubscriptionId, s.(isActive := active));
      ReplaceFind(rows, SubscriptionId, s.(isActive := active), id);
      assert Replace(once, SubscriptionId, s.(isActive := active)) == once;
  }

  /** The filter of `GetActiveSubscriptionsAsync`. */
  predicate IsActive(s: Subscription)
  {
    s.isActive
  }

  /** `GetActiveSubscriptionsAsync`: the active records, in table order. */
  function Active(rows: seq<Subscription>): (r: seq<Subscription>)
    ensures forall i :: 0 <= i < |r| ==> r[i] in rows && r[i].isActive
    ensures forall i :: 0 <= i < |rows| && rows[i].isActive ==> rows[i] in r
  {
    Where(rows, IsActive)
  }

  /** Each active record is listed as often as it is stored, and no inactive one is. */
  lemma ActiveCount(rows: seq<Subscription>, s: Subscription)
    ensures multiset(Active(rows))[s] == if s.isActive then multiset(rows)[s] else 0
  {
    WhereMultiset(rows, IsActive, s);
  }

  /** The active records keep table order: a record stored last is listed last, when active. */
  lemma ActiveSnoc(rows: seq<Subscription>, s: Subscription)
    ensures Active(rows + [s]) == Active(rows) + (if s.isActive then [s] else [])
  {
    WhereSnoc(rows, s, IsActive);
  }

  /** The filter of `GetUserSubscriptionsAsync`. */
  function OwnedBy(userId: int): Subscription -> bool
  {
    (s: Subscription) => s.userId == userId
  }

  /** The records of one user, in table order. */
  function OfUser(rows: seq<Subscription>, userId: int): (r: seq<Subscription>)
    ensures forall i :: 0 <= i < |r| ==> r[i] in rows && r[i].userId == userId
    ensures forall i :: 0 <= i < |rows| && rows[i].userId == userId ==> rows[i] in r
  {
    Where(rows, OwnedBy(userId))
  }

  /** Each record of the user is listed as often as it is stored, and no other user's is. */
  lemma OfUserCount(rows: seq<Subscription>, userId: int, s: Subscription)
    ensures multiset(OfUser(rows, userId))[s] == if s.userId == userId then multiset(rows)[s] else 0
  {
    WhereMultiset(rows, OwnedBy(userId), s);
  }

  /** A user's records keep table order: a record stored last is listed last, when it is theirs. */
  lemma OfUserSnoc(rows: seq<Subscription>, userId: int, s: Subscription)
    ensures OfUser(rows + [s], userId) == OfUser(rows, userId) + (if s.userId == userId then [s] else [])
  {
    WhereSnoc(rows, s, OwnedBy(userId));
  }

  /** The subscriptions table; ids are assigned by the store, as an identity column does. */
  class SubscriptionStore {
    var rows: seq<Subscription>
    var nextId: int

    ghost predicate Valid()
      reads this
    {
      nextId >= 1 && UniqueKeys(rows, SubscriptionId)
      && forall i :: 0 <= i < |rows| ==> 1 <= rows[i].id < nextId
    }

    constructor ()
      ensures Valid() && rows == [] && nextId == 1
    {
      rows := [];
      nextId := 1;
    }

    /** `GetSubscriptionAsync` / `GetByIdAsync`: the record with that id, if any. */
    function GetSubscription(id: int): (r: Option<Subscription>)
      reads this
      ensures r.Some? <==> exists i :: 0 <= i < |rows| && rows[i].id == id
      ensures r.Some? ==> r.value in rows && r.value.id == id
    {
      Find(rows, SubscriptionId, id)
    }

    /** `AddAsync`: the record is stored unchanged except for the id the table assigns it. */
    method Add(s: Subscription) returns (stored: Subscription)
      requires Valid()
      modifies this
      ensures Valid()
      ensures stored == s.(id := old(nextId))
      ensures rows == old(rows) + [stored] && nextId == old(nextId) + 1
    {
      stored := s.(id := nextId);
      rows := rows + [stored];
      nextId := nextId + 1;
    }

    /** `CreateSubscriptionAsync(subscription)`: stores the record as given, without validation. */
    method CreateSubscription(s: Subscription) returns (created: Subscription)
      requires Valid()
      modifies this
      ensures Valid()
      ensures created == s.(id := old(nextId)) && rows == old(rows) + [created]
      ensures GetSubscription(created.id) == Some(created)
    {
      created := Add(s);
      FindUnique(rows, SubscriptionId, |rows| - 1);
    }

    /**
     * `CreateSubscriptionAsync(userId, stopId, routeId, notifyBeforeMinutes)`: a new active
     * subscription on internal ids that has never been notified.
     */
    method CreateSubscriptionById(userId: int, stopId: int, routeId: int, notifyBeforeMinutes: int, now: Instant)
      returns (created: Subscription)
      requires Valid()
      modifies this
      ensures Valid()
      ensures created == Subscription(old(nextId), userId, Some(stopId), Some(routeId), None, None,
                                      notifyBeforeMinutes, true, NeverNotified, now)
      ensures rows == old(rows) + [created]
      ensures GetSubscription(created.id) == Some(created)
    {
      created := Add(Subscription(0, userId, Some(stopId), Some(routeId), None, None,
                                  notifyBeforeMinutes, true, NeverNotified, now));
      FindUnique(rows, SubscriptionId, |rows| - 1);
    }

    /**
     * `DeleteSubscriptionAsync`: false, with the table unchanged, when no record has the id;
     * otherwise exactly that record is removed.
     */
    method DeleteSubscription(id: int) returns (deleted: bool)
      requires Valid()
      modifies this
      ensures Valid()
      ensures deleted <==> old(GetSubscription(id)).Some?
      ensures !deleted ==> rows == old(rows)
      ensures deleted ==> rows == Without(old(rows), SubscriptionId, id) && |rows| == |old(rows)| - 1
      ensures GetSubscription(id).None? && nextId == old(nextId)
    {
      var found := GetSubscription(id);
      if found.None? {
        return false;
      }
      WithoutPresent(rows, SubscriptionId, id);
      WithoutUnique(rows, SubscriptionId, id);
      rows := Without(rows, SubscriptionId, id);
      deleted := true;
    }

    /**
     * `UpdateAsync`: the record with the same id is overwritten. Updating an id the table
     * does not hold fails (the save affects no row) and changes nothing.
     */
    method UpdateSubscription(s: Subscription) returns (ok: bool)
      requires Valid()
      modifies this
      ensures Valid()
      ensures ok <==> old(GetSubscription(s.id)).Some?
      ensures rows == if ok then Replace(old(rows), SubscriptionId, s) else old(rows)
      ensures ok ==> GetSubscription(s.id) == Some(s)
      ensures nextId == old(nextId)
    {
      var found := GetSubscription(s.id);
      if found.None? {
        return false;
      }
      ReplaceFind(rows, SubscriptionId, s, s.id);
      rows := Replace(rows, SubscriptionId, s);
      ok := true;
    }

    /**
     * `ToggleSubscriptionAsync`: false when no record has the id; otherwise the stored
     * record is written back with `IsActive` set to the argument.
     */
    method ToggleSubscription(id: int, active: bool) returns (ok: bool)
      requires Valid()
      modifies this
      ensures Valid()
      ensures ok <==> old(GetSubscription(id)).Some?
      ensures rows == Toggled(old(rows), id, active) && nextId == old(nextId)
    {
      var found := GetSubscription(id);
      if found.None? {
        return false;
      }
      ok := UpdateSubscription(found.value.(isActive := active));
    }

    /** `GetUserSubscriptionsAsync`: the records of that user, in table order. */
    function UserSubscriptions(userId: int): (r: seq<Subscription>)
      reads this
      ensures forall i :: 0 <= i < |r| ==> r[i] in rows && r[i].userId == userId
      ensures forall i :: 0 <= i < |rows| && rows[i].userId == userId ==> rows[i] in r
    {
      OfUser(rows, userId)
    }

    /** `GetActiveSubscriptionsAsync` on this table. */
    function ActiveSubscriptions(): seq<Subscription>
      reads this
    {
      Active(rows)
    }
  }
}
