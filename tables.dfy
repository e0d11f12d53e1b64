/**
 * A database table as the services see it: a sequence of records in insertion order, each
 * with an integer key. `Find` is `FirstOrDefault` on a key, `Without` a removal by key and
 * `Replace` an update of the record that carries the new record's key.
 */
module Tables {
  import opened Options

  /** No two records share a key: the primary-key constraint. */
  predicate UniqueKeys<T>(rows: seq<T>, key: T -> int)
  {
    forall i, j :: 0 <= i < j < |rows| ==> key(rows[i]) != key(rows[j])
  }

  /** `FirstOrDefault(r => key(r) == k)`: the first record with key `k`, if any. */
  function Find<T>(rows: seq<T>, key: T -> int, k: int): (r: Option<T>)
    ensures r.Some? <==> exists i :: 0 <= i < |rows| && key(rows[i]) == k
    ensures r.Some? ==> r.value in rows && key(r.value) == k
    decreases |rows|
  {
    if rows == [] then None
    else if key(rows[0]) == k then Some(rows[0])
    else
      var r := Find(rows[1..], key, k);
      assert forall i :: 1 <= i < |rows| ==> rows[i] == rows[1..][i - 1];
      r
  }

  /** Under unique keys a record is what a lookup of its own key finds. */
  lemma {:induction false} FindUnique<T>(rows: seq<T>, key: T -> int, i: int)
    requires UniqueKeys(rows, key) && 0 <= i < |rows|
    ensures Find(rows, key, key(rows[i])) == Some(rows[i])
    decreases i
  {
    if i > 0 {
      assert key(rows[0]) != key(rows[i]);
      assert rows[1..][i - 1] == rows[i];
      FindUnique(rows[1..], key, i - 1);
    }
  }

  /** A record appended after the others is found only when no earlier record has its key. */
  lemma {:induction false} FindAppend<T>(rows: seq<T>, key: T -> int, x: T, k: int)
    ensures Find(rows + [x], key, k) ==
      if Find(rows, key, k).Some? then Find(rows, key, k) else if key(x) == k then Some(x) else None
    decreases |rows|
  {
    if rows == [] {
      assert rows + [x] == [x];
    } else {
      assert (rows + [x])[0] == rows[0] && (rows + [x])[1..] == rows[1..] + [x];
      FindAppend(rows[1..], key, x, k);
    }
  }

  /** The records whose key is not `k`, in their original order. */
  function Without<T>(rows: seq<T>, key: T -> int, k: int): (r: seq<T>)
    ensures |r| <= |rows|
    ensures forall i :: 0 <= i < |r| ==> r[i] in rows && key(r[i]) != k
    ensures forall i :: 0 <= i < |rows| && key(rows[i]) != k ==> rows[i] in r
    decreases |rows|
  {
    if rows == [] then []
    else
      var rest := Without(rows[1..], key, k);
      assert forall i :: 1 <= i < |rows| ==> rows[i] == rows[1..][i - 1];
      if key(rows[0]) == k then rest else [rows[0]] + rest
  }

  /** Removing a key that no record has changes nothing. */
  lemma {:induction false} WithoutAbsent<T>(rows: seq<T>, key: T -> int, k: int)
    requires Find(rows, key, k).None?
    ensures Without(rows, key, k) == rows
    decreases |rows|
  {
    if rows != [] {
      assert key(rows[0]) != k;
      WithoutAbsent(rows[1..], key, k);
      assert rows == [rows[0]] + rows[1..];
    }
  }

  /** The records after the first carry keys other than the first's. */
  lemma HeadKeyFresh<T>(rows: seq<T>, key: T -> int)
    requires UniqueKeys(rows, key) && rows != []
    ensures forall x :: x in rows[1..] ==> key(x) != key(rows[0])
  {
    forall x | x in rows[1..]
      ensures key(x) != key(rows[0])
    {
      var m :| 0 <= m < |rows[1..]| && rows[1..][m] == x;
      assert rows[m + 1] == x;
    }
  }

  /** Removing a key keeps the keys unique. */
  lemma WithoutUnique<T>(rows: seq<T>, key: T -> int, k: int)
    requires UniqueKeys(rows, key)
    ensures UniqueKeys(Without(rows, key, k), key)
  {
    WithoutUniqueOn(rows, key, key, k);
  }

  /** Removing the records with one key keeps any other key unique too, as a unique index does. */
  lemma {:induction false} WithoutUniqueOn<T>(rows: seq<T>, key: T -> int, key2: T -> int, k: int)
    requires UniqueKeys(rows, key2)
    ensures UniqueKeys(Without(rows, key, k), key2)
    decreases |rows|
  {
    if rows != [] {
      assert UniqueKeys(rows[1..], key2);
      WithoutUniqueOn(rows[1..], key, key2, k);
      if key(rows[0]) != k {
        HeadKeyFresh(rows, key2);
        var rest := Without(rows[1..], key, k);
        var r := [rows[0]] + rest;
        forall i, j | 0 <= i < j < |r|
          ensures key2(r[i]) != key2(r[j])
        {
          if i == 0 {
            assert r[j] == rest[j - 1];
          } else {
            assert r[i] == rest[i - 1] && r[j] == rest[j - 1];
          }
        }
      }
    }
  }

  /** Appending a record whose key no record has keeps the keys unique. */
  lemma AppendUnique<T>(rows: seq<T>, key: T -> int, x: T)
    requires UniqueKeys(rows, key) && Find(rows, key, key(x)).None?
    ensures UniqueKeys(rows + [x], key)
  {
    var r := rows + [x];
    forall i, j | 0 <= i < j < |r|
      ensures key(r[i]) != key(r[j])
    {
      if j == |rows| {
        assert r[i] == rows[i];
      } else {
        assert r[i] == rows[i] && r[j] == rows[j];
      }
    }
  }

  /** Removing a present key under unique keys drops exactly one record. */
  lemma {:induction false} WithoutPresent<T>(rows: seq<T>, key: T -> int, k: int)
    requires UniqueKeys(rows, key) && Find(rows, key, k).Some?
    ensures |Without(rows, key, k)| == |rows| - 1
    decreases |rows|
  {
    assert UniqueKeys(rows[1..], key);
    if key(rows[0]) == k {
      HeadKeyFresh(rows, key);
      assert Find(rows[1..], key, k).None?;
      WithoutAbsent(rows[1..], key, k);
    } else {
      WithoutPresent(rows[1..], key, k);
    }
  }

  /** Every record whose key is `key(x)` replaced by `x`; the others stay where they are. */
  function Replace<T>(rows: seq<T>, key: T -> int, x: T): (r: seq<T>)
    ensures |r| == |rows|
    ensures forall i :: 0 <= i < |rows| ==> key(r[i]) == key(rows[i])
    ensures forall i :: 0 <= i < |rows| && key(rows[i]) != key(x) ==> r[i] == rows[i]
  {
    seq(|rows|, i requires 0 <= i < |rows| => if key(rows[i]) == key(x) then x else rows[i])
  }

  /** A replacement keeps the keys unique, and a lookup of its key then finds the new record. */
  lemma ReplaceFind<T>(rows: seq<T>, key: T -> int, x: T, k: int)
    ensures UniqueKeys(rows, key) ==> UniqueKeys(Replace(rows, key, x), key)
    ensures Find(Replace(rows, key, x), key, k) ==
      if k == key(x) && Find(rows, key, k).Some? then Some(x) else Find(rows, key, k)
  {
    ReplaceFindRec(rows, key, x, k);
  }

  /**
   * A replacement that keeps a second key of the record it replaces keeps that key unique.
   */
  lemma ReplaceUniqueOn<T>(rows: seq<T>, key: T -> int, key2: T -> int, x: T)
    requires UniqueKeys(rows, key2)
    requires forall i :: 0 <= i < |rows| && key(rows[i]) == key(x) ==> key2(rows[i]) == key2(x)
    ensures UniqueKeys(Replace(rows, key, x), key2)
  {
    var r := Replace(rows, key, x);
    assert forall i :: 0 <= i < |rows| ==> key2(r[i]) == key2(rows[i]);
  }

  /** Replacing the last record, when no earlier one carries its key, replaces just that one. */
  lemma ReplaceLast<T>(rows: seq<T>, key: T -> int, x: T, y: T)
    requires key(x) == key(y)
    requires forall i :: 0 <= i < |rows| ==> key(rows[i]) != key(y)
    ensures Replace(rows + [x], key, y) == rows + [y]
  {
    var r := Replace(rows + [x], key, y);
    assert forall i :: 0 <= i < |rows| ==> r[i] == rows[i];
  }

  lemma {:induction false} ReplaceFindRec<T>(rows: seq<T>, key: T -> int, x: T, k: int)
    ensures Find(Replace(rows, key, x), key, k) ==
      if k == key(x) && Find(rows, key, k).Some? then Some(x) else Find(rows, key, k)
    decreases |rows|
  {
    if rows != [] {
      var r := Replace(rows, key, x);
      assert r[1..] == Replace(rows[1..], key, x);
      ReplaceFindRec(rows[1..], key, x, k);
    }
  }

  /**
   * A lookup on a second key after a replacement that keeps that key finds the same record
   * as before, or its replacement.
   */
  lemma {:induction false} FindReplace<T>(rows: seq<T>, key: T -> int, key2: T -> int, x: T, k: int)
    requires forall i :: 0 <= i < |rows| && key(rows[i]) == key(x) ==> key2(rows[i]) == key2(x)
    ensures Find(Replace(rows, key, x), key2, k) ==
      match Find(rows, key2, k)
      case None => None
      case Some(r) => if key(r) == key(x) then Some(x) else Some(r)
    decreases |rows|
  {
    if rows != [] {
      var r := Replace(rows, key, x);
      assert r[1..] == Replace(rows[1..], key, x);
      assert r[0] == if key(rows[0]) == key(x) then x else rows[0];
      FindReplace(rows[1..], key, key2, x, k);
    }
  }
}
