/** The query of a URL and an `application/x-www-form-urlencoded` body, as
    a `URLSearchParams` list holds them: name/value pairs in order. Only
    `set` and `get` are used by the session code. Percent-encoding on
    serialisation is not part of this model. */
module SearchParams {
  import opened Js

  type Params = seq<(string, string)>

  /** `params.get(k)`: the value of the first pair named `k`. */
  function Get(ps: Params, k: string): Option<string>
  {
    if ps == [] then None
    else if ps[0].0 == k then Some(ps[0].1)
    else Get(ps[1..], k)
  }

  /** How many pairs are named `k`. */
  function Count(ps: Params, k: string): nat
  {
    if ps == [] then 0
    else (if ps[0].0 == k then 1 else 0) + Count(ps[1..], k)
  }

  /** The pairs not named `k`, in their order. */
  function Without(ps: Params, k: string): (r: Params)
    ensures Count(r, k) == 0 && Get(r, k) == None
    ensures forall j | j != k :: Get(r, j) == Get(ps, j)
    ensures forall j | j != k :: Count(r, j) == Count(ps, j)
  {
    if ps == [] then []
    else if ps[0].0 == k then Without(ps[1..], k)
    else [ps[0]] + Without(ps[1..], k)
  }

  /** Gives the first pair named `k` the value `v` and drops the later pairs named `k`. */
  function ReplaceFirst(ps: Params, k: string, v: string): (r: Params)
    requires Get(ps, k).Some?
    ensures Get(r, k) == Some(v) && Count(r, k) == 1
    ensures forall j | j != k :: Get(r, j) == Get(ps, j)
    ensures forall j | j != k :: Count(r, j) == Count(ps, j)
  {
    if ps[0].0 == k then [(k, v)] + Without(ps[1..], k)
    else [ps[0]] + ReplaceFirst(ps[1..], k, v)
  }

  /** `params.set(k, v)`: if a pair named `k` exists, the first one takes
      the value `v` and the others are removed; otherwise `(k, v)` is
      appended. Afterwards `k` occurs exactly once, with value `v`. */
  function Set(ps: Params, k: string, v: string): (r: Params)
    ensures Get(r, k) == Some(v) && Count(r, k) == 1
    ensures Get(ps, k) == None ==> r == ps + [(k, v)]
  {
    if Get(ps, k).Some? then ReplaceFirst(ps, k, v)
    else
      AppendAbsent(ps, k, v);
      ps + [(k, v)]
  }

  /** `set` leaves the first value and the count of every other name alone. */
  lemma SetLeavesOthers(ps: Params, k: string, v: string, j: string)
    requires j != k
    ensures Get(Set(ps, k, v), j) == Get(ps, j)
    ensures Count(Set(ps, k, v), j) == Count(ps, j)
  {
    if Get(ps, k) == None {
      AppendAbsent(ps, k, v);
    }
  }

  /** Appending a pair whose name is absent makes it the one pair of that
      name and leaves every other name's first value and count alone. */
  lemma {:induction false} AppendAbsent(ps: Params, k: string, v: string)
    requires Get(ps, k) == None
    ensures Get(ps + [(k, v)], k) == Some(v) && Count(ps + [(k, v)], k) == 1
    ensures forall j | j != k :: Get(ps + [(k, v)], j) == Get(ps, j)
    ensures forall j | j != k :: Count(ps + [(k, v)], j) == Count(ps, j)
  {
    if ps != [] {
      AppendAbsent(ps[1..], k, v);
      assert (ps + [(k, v)])[1..] == ps[1..] + [(k, v)];
    }
  }

  /** The names of a list of pairs, in order. */
  function Names(ps: Params): (r: seq<string>)
    ensures |r| == |ps| && forall i :: 0 <= i < |ps| ==> r[i] == ps[i].0
  {
    seq(|ps|, i requires 0 <= i < |ps| => ps[i].0)
  }

  /** A name that does not occur has no value. */
  lemma {:induction false} GetMissing(ps: Params, k: string)
    requires k !in Names(ps)
    ensures Get(ps, k) == None && Count(ps, k) == 0
  {
    if ps != [] {
      assert Names(ps[1..]) == Names(ps)[1..];
      GetMissing(ps[1..], k);
    }
  }

  /** No name occurs twice. */
  predicate DistinctNames(ps: Params)
  {
    forall a, b :: 0 <= a < b < |ps| ==> ps[a].0 != ps[b].0
  }

  /** In a list whose names are all different, each name has its own value
      and occurs once. */
  lemma {:induction false} GetDistinct(ps: Params, i: nat)
    requires i < |ps|
    requires DistinctNames(ps)
    ensures Get(ps, ps[i].0) == Some(ps[i].1) && Count(ps, ps[i].0) == 1
  {
    if i == 0 {
      assert ps[0].0 !in Names(ps[1..]);
      GetMissing(ps[1..], ps[0].0);
    } else {
      GetDistinct(ps[1..], i - 1);
    }
  }

  /** Setting a name that does not occur appends the pair. */
  lemma SetFresh(ps: Params, k: string, v: string)
    requires k !in Names(ps)
    ensures Set(ps, k, v) == ps + [(k, v)]
  {
    GetMissing(ps, k);
  }
}
