/**
 * Geocode retry chains: an ordered list of query rewrites is tried against a geocoder and
 * the first query it resolves wins. The geocoder is an oracle from a query to an optional
 * result; a failure and a swallowed exception both read as `None`.
 */
module Geocoding {
  import opened Options

  /** A pair of coordinates, passed through without arithmetic. */
  datatype Point = Point(latitude: real, longitude: real)

  /** The result of the first query in `queries` that `geocode` resolves. */
  function FirstSuccess<T>(queries: seq<string>, geocode: string -> Option<T>): (r: Option<T>)
    ensures r.Some? <==> exists i :: 0 <= i < |queries| && geocode(queries[i]).Some?
    ensures r.Some? ==> exists i :: (0 <= i < |queries| && r == geocode(queries[i])
      && forall j :: 0 <= j < i ==> geocode(queries[j]).None?)
    decreases |queries|
  {
    if queries == [] then None
    else if geocode(queries[0]).Some? then geocode(queries[0])
    else
      var r := FirstSuccess(queries[1..], geocode);
      assert forall i :: 1 <= i < |queries| ==> queries[i] == queries[1..][i - 1];
      r
  }

  /**
   * The queries a retry chain sends: a prefix of `queries` that ends at the first resolved
   * query, or all of them when none resolves.
   */
  function Attempts<T>(queries: seq<string>, geocode: string -> Option<T>): (tried: seq<string>)
    ensures tried <= queries
    ensures forall j :: 0 <= j < |tried| - 1 ==> geocode(tried[j]).None?
    ensures |tried| < |queries| ==> tried != [] && geocode(tried[|tried| - 1]).Some?
    ensures FirstSuccess(queries, geocode).Some? <==> tried != [] && geocode(tried[|tried| - 1]).Some?
    ensures FirstSuccess(queries, geocode).Some? ==> FirstSuccess(queries, geocode) == geocode(tried[|tried| - 1])
    decreases |queries|
  {
    if queries == [] then []
    else if geocode(queries[0]).Some? then [queries[0]]
    else [queries[0]] + Attempts(queries[1..], geocode)
  }

  /** When query `n` is the first one resolved, the chain returns its result after `n + 1` attempts. */
  lemma {:induction false} FirstSuccessAt<T>(queries: seq<string>, geocode: string -> Option<T>, n: nat)
    requires n < |queries| && geocode(queries[n]).Some?
    requires forall j :: 0 <= j < n ==> geocode(queries[j]).None?
    ensures FirstSuccess(queries, geocode) == geocode(queries[n])
    ensures Attempts(queries, geocode) == queries[..n + 1]
    decreases n
  {
    if n > 0 {
      assert geocode(queries[0]).None?;
      FirstSuccessAt(queries[1..], geocode, n - 1);
      assert queries[..n + 1] == [queries[0]] + queries[1..][..n];
    }
  }

  /** When no query is resolved, the chain fails after trying them all. */
  lemma {:induction false} FirstSuccessNone<T>(queries: seq<string>, geocode: string -> Option<T>)
    requires forall j :: 0 <= j < |queries| ==> geocode(queries[j]).None?
    ensures FirstSuccess(queries, geocode).None?
    ensures Attempts(queries, geocode) == queries
    decreases |queries|
  {
    if queries != [] {
      assert geocode(queries[0]).None?;
      FirstSuccessNone(queries[1..], geocode);
      assert queries == [queries[0]] + queries[1..];
    }
  }

  /** A chain whose queries so far all failed goes on to the next query. */
  lemma {:induction false} FirstSuccessExtend<T>(queries: seq<string>, next: string, geocode: string -> Option<T>)
    requires FirstSuccess(queries, geocode).None?
    ensures FirstSuccess(queries + [next], geocode) == geocode(next)
    ensures Attempts(queries + [next], geocode) == Attempts(queries, geocode) + [next]
    decreases |queries|
  {
    if queries == [] {
      assert queries + [next] == [next];
    } else {
      var all := queries + [next];
      assert all[0] == queries[0] && geocode(queries[0]).None?;
      assert all[1..] == queries[1..] + [next];
      FirstSuccessExtend(queries[1..], next, geocode);
      assert FirstSuccess(all, geocode) == FirstSuccess(all[1..], geocode);
      assert Attempts(all, geocode) == [queries[0]] + Attempts(all[1..], geocode);
    }
  }

  /** Once a query has resolved, the queries after it are never sent. */
  lemma {:induction false} FirstSuccessDecided<T>(queries: seq<string>, rest: seq<string>, geocode: string -> Option<T>)
    requires FirstSuccess(queries, geocode).Some?
    ensures FirstSuccess(queries + rest, geocode) == FirstSuccess(queries, geocode)
    ensures Attempts(queries + rest, geocode) == Attempts(queries, geocode)
    decreases |queries|
  {
    assert (queries + rest)[0] == queries[0];
    if geocode(queries[0]).None? {
      assert (queries + rest)[1..] == queries[1..] + rest;
      FirstSuccessDecided(queries[1..], rest, geocode);
    }
  }

  /**
   * A retry chain part-way through `queries`: it has sent the prefix `tried`, and `r` is what
   * the chain returns over that prefix.
   */
  ghost predicate InTurn<T>(queries: seq<string>, geocode: string -> Option<T>, tried: seq<string>, r: Option<T>)
  {
    |tried| <= |queries| && tried == queries[..|tried|]
    && r == FirstSuccess(tried, geocode) && tried == Attempts(tried, geocode)
  }

  /** After a failure the chain sends the next query. */
  lemma InTurnNext<T>(queries: seq<string>, geocode: string -> Option<T>, tried: seq<string>, r: Option<T>)
    requires InTurn(queries, geocode, tried, r) && r.None? && |tried| < |queries|
    ensures InTurn(queries, geocode, tried + [queries[|tried|]], geocode(queries[|tried|]))
  {
    assert queries[..|tried| + 1] == tried + [queries[|tried|]];
    FirstSuccessExtend(tried, queries[|tried|], geocode);
  }

  /** `InTurnNext`, with the chain given as what was sent, the next query and the rest. */
  lemma InTurnAppend<T>(queries: seq<string>, geocode: string -> Option<T>, tried: seq<string>, r: Option<T>,
                        next: string, rest: seq<string>)
    requires InTurn(queries, geocode, tried, r) && r.None? && queries == tried + [next] + rest
    ensures InTurn(queries, geocode, tried + [next], geocode(next))
  {
    assert queries[|tried|] == next;
    InTurnNext(queries, geocode, tried, r);
  }

  /** A chain that stopped at a success or ran out of queries returned the chain's result. */
  lemma InTurnDone<T>(queries: seq<string>, geocode: string -> Option<T>, tried: seq<string>, r: Option<T>)
    requires InTurn(queries, geocode, tried, r) && (r.Some? || |tried| == |queries|)
    ensures r == FirstSuccess(queries, geocode) && tried == Attempts(queries, geocode)
  {
    assert queries == tried + queries[|tried|..];
    if r.Some? {
      FirstSuccessDecided(tried, queries[|tried|..], geocode);
    }
  }
}
