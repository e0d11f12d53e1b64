/**
 * The user store: the user service over its repository. A user is registered once per
 * Telegram account and may record a name and a location.
 */
module Users {
  import opened Options
  import opened Tables
  import opened Arrivals

  /** A user; the coordinates are passed through without arithmetic. */
  datatype User = User(
    id: int,
    telegramId: int,
    userName: Option<string>,
    createdAt: Instant,
    latitude: Option<real>,
    longitude: Option<real>)

  /** The primary key. */
  function UserId(u: User): int
  {
    u.id
  }

  /** The Telegram account id, unique in the table as its unique index demands. */
  function TelegramId(u: User): int
  {
    u.telegramId
  }

  /**
   * The user after `UpdateAsync(id, userName, lat, lng)`: each of name, latitude and
   * longitude is replaced when the argument is given and kept otherwise.
   */
  function Merge(u: User, userName: Option<string>, lat: Option<real>, lng: Option<real>): (r: User)
    ensures r.id == u.id && r.telegramId == u.telegramId && r.createdAt == u.createdAt
    ensures r.userName == (if userName.Some? then userName else u.userName)
    ensures r.latitude == (if lat.Some? then lat else u.latitude)
    ensures r.longitude == (if lng.Some? then lng else u.longitude)
  {
    u.(userName := if userName.None? then u.userName else userName,
       latitude := if lat.None? then u.latitude else lat,
       longitude := if lng.None? then u.longitude else lng)
  }

  /**
   * The users table and the next id after `RegisterAsync(telegramId, userName)` on `rows`: an
   * account already registered leaves both as they are; a new one is appended, without a
   * location, under the next id.
   */
  function AfterRegister(rows: seq<User>, nextId: int, telegramId: int, userName: Option<string>, now: Instant)
    : (r: (seq<User>, int))
    ensures |rows| <= |r.0| && r.0[..|rows|] == rows
    ensures Find(r.0, TelegramId, telegramId).Some?
    ensures Find(rows, TelegramId, telegramId).Some? ==> Find(r.0, TelegramId, telegramId) == Find(rows, TelegramId, telegramId)
  {
    if Find(rows, TelegramId, telegramId).Some? then (rows, nextId)
    else
      var u := User(nextId, telegramId, userName, now, None, None);
      FindAppend(rows, TelegramId, u, telegramId);
      (rows + [u], nextId + 1)
  }

  /**
   * A well-formed users table: ids unique and below the next id to assign, Telegram ids
   * unique as their index demands.
   */
  predicate ValidTable(rows: seq<User>, nextId: int)
  {
    nextId >= 1 && UniqueKeys(rows, UserId) && UniqueKeys(rows, TelegramId)
    && forall i :: 0 <= i < |rows| ==> 1 <= rows[i].id < nextId
  }

  /** Appending a new account's user under the next id keeps the table well formed. */
  lemma AppendValid(rows: seq<User>, nextId: int, u: User)
    requires ValidTable(rows, nextId) && u.id == nextId
    requires Find(rows, TelegramId, u.telegramId).None?
    ensures ValidTable(rows + [u], nextId + 1)
  {
    AppendUnique(rows, TelegramId, u);
    assert Find(rows, UserId, u.id).None?;
    AppendUnique(rows, UserId, u);
    var grown := rows + [u];
    assert forall i :: 0 <= i < |grown| ==> 1 <= grown[i].id < nextId + 1;
  }

  /**
   * The users table; ids are assigned by the store, as an identity column does, and the
   * Telegram id carries a unique index.
   */
  class UserStore {
    var rows: seq<User>
    var nextId: int

    ghost predicate Valid()
      reads this
    {
      ValidTable(rows, nextId)
    }

    constructor ()
      ensures Valid() && rows == [] && nextId == 1
    {
      rows := [];
      nextId := 1;
    }

    /** `GetAsync` / `FindAsync`: the user with that id, if any. */
    function GetUser(id: int): (r: Option<User>)
      reads this
      ensures r.Some? <==> exists i :: 0 <= i < |rows| && rows[i].id == id
      ensures r.Some? ==> r.value in rows && r.value.id == id
    {
      Find(rows, UserId, id)
    }

    /** `GetUserByTelegramIdAsync`: the user with that Telegram id, if any. */
    function GetUserByTelegramId(telegramId: int): (r: Option<User>)
      reads this
      ensures r.Some? <==> exists i :: 0 <= i < |rows| && rows[i].telegramId == telegramId
      ensures r.Some? ==> r.value in rows && r.value.telegramId == telegramId
    {
      Find(rows, TelegramId, telegramId)
    }

    /**
     * `RegisterAsync`: an account already registered gets its user back and nothing is
     * added; a new account gets exactly one new user with that name. Either way the account
     * is registered afterwards with the returned user, so registering again changes nothing.
     */
    method Register(telegramId: int, userName: Option<string>, now: Instant) returns (user: User)
      requires Valid()
      modifies this
      ensures Valid()
      ensures old(GetUserByTelegramId(telegramId)).Some? ==>
        user == old(GetUserByTelegramId(telegramId)).value && rows == old(rows) && nextId == old(nextId)
      ensures old(GetUserByTelegramId(telegramId)).None? ==>
        user == User(old(nextId), telegramId, userName, now, None, None) && rows == old(rows) + [user]
      ensures GetUserByTelegramId(telegramId) == Some(user)
      ensures (rows, nextId) == AfterRegister(old(rows), old(nextId), telegramId, userName, now)
    {
      var existing := GetUserByTelegramId(telegramId);
      if existing.Some? {
        assert AfterRegister(rows, nextId, telegramId, userName, now) == (rows, nextId);
        return existing.value;
      }
      user := User(nextId, telegramId, userName, now, None, None);
      FindAppend(rows, TelegramId, user, telegramId);
      AppendValid(rows, nextId, user);
      assert AfterRegister(rows, nextId, telegramId, userName, now) == (rows + [user], nextId + 1);
      rows := rows + [user];
      nextId := nextId + 1;
    }

    /**
     * `UpdateAsync`: a missing id fails ("User not found") and changes nothing; otherwise the
     * stored user is merged with the arguments and written back.
     */
    method Update(id: int, userName: Option<string>, lat: Option<real>, lng: Option<real>)
      returns (updated: Option<User>)
      requires Valid()
      modifies this
      ensures Valid() && nextId == old(nextId)
      ensures updated.None? <==> old(GetUser(id)).None?
      ensures updated.None? ==> rows == old(rows)
      ensures updated.Some? ==>
        updated.value == Merge(old(GetUser(id)).value, userName, lat, lng)
        && rows == Replace(old(rows), UserId, updated.value)
        && GetUser(id) == updated
    {
      var found := GetUser(id);
      if found.None? {
        return None;
      }
      var merged := Merge(found.value, userName, lat, lng);
      forall i | 0 <= i < |rows| && rows[i].id == merged.id
        ensures rows[i].telegramId == merged.telegramId
      {
        FindUnique(rows, UserId, i);
      }
      ReplaceUniqueOn(rows, UserId, TelegramId, merged);
      ReplaceFind(rows, UserId, merged, id);
      rows := Replace(rows, UserId, merged);
      updated := Some(merged);
    }

    /** `DeleteAsync`: removes the user with that id; a missing id is a no-op. */
    method Delete(id: int)
      requires Valid()
      modifies this
      ensures Valid() && nextId == old(nextId)
      ensures old(GetUser(id)).None? ==> rows == old(rows)
      ensures old(GetUser(id)).Some? ==> rows == Without(old(rows), UserId, id) && |rows| == |old(rows)| - 1
      ensures GetUser(id).None?
    {
      var found := GetUser(id);
      if found.Some? {
        WithoutPresent(rows, UserId, id);
        WithoutUnique(rows, UserId, id);
        WithoutUniqueOn(rows, UserId, TelegramId, id);
        rows := Without(rows, UserId, id);
      }
    }
  }
}
