/** Reading an autoincrement table, listed in increasing id order, and
    looking a row up by a non-key column. Every id such a table hands out
    lies in [1, nextId). The handlers' `findMany()` / `findAll()` name no
    order, so id order is a choice this model makes. */
module Keys {
  import opened Base

  predicate StrictlyIncreasing(s: seq<int>)
  {
    forall i, j :: 0 <= i < j < |s| ==> s[i] < s[j]
  }

  /** The ids of `m` below `n`, smallest first, each once. */
  function IdsBelow<V>(m: map<int, V>, n: int): (r: seq<int>)
    ensures forall x :: x in r <==> x in m && 0 <= x < n
    ensures StrictlyIncreasing(r)
    ensures forall i :: 0 <= i < |r| ==> 0 <= r[i] < n
    decreases n
  {
    if n <= 0 then []
    else
      var rest := IdsBelow(m, n - 1);
      if n - 1 in m then rest + [n - 1] else rest
  }

  /** The smallest id below `n` whose row satisfies `p`, as a lookup by a
      non-key column. */
  function Find<V>(m: map<int, V>, n: int, p: V -> bool): (r: Option<int>)
    ensures r.Some? ==> r.value in m && 0 <= r.value < n && p(m[r.value])
    ensures r.None? ==> forall k :: k in m && 0 <= k < n ==> !p(m[k])
  {
    FindIn(m, IdsBelow(m, n), p)
  }

  function FindIn<V>(m: map<int, V>, ks: seq<int>, p: V -> bool): (r: Option<int>)
    requires forall i :: 0 <= i < |ks| ==> ks[i] in m
    ensures r.Some? ==> r.value in ks && r.value in m && p(m[r.value])
    ensures r.None? ==> forall i :: 0 <= i < |ks| ==> !p(m[ks[i]])
  {
    if ks == [] then None
    else if p(m[ks[0]]) then Some(ks[0])
    else FindIn(m, ks[1..], p)
  }

  /** `rows` lists every row of `m` below `n` once, in increasing id order. */
  predicate Lists<V(==)>(rows: seq<V>, m: map<int, V>, n: int)
  {
    var ids := IdsBelow(m, n);
    |rows| == |ids| && forall i :: 0 <= i < |ids| ==> rows[i] == m[ids[i]]
  }

  /** The rows stored under `ids`, in that order. */
  function RowsOf<V>(m: map<int, V>, ids: seq<int>): (rows: seq<V>)
    requires forall i :: 0 <= i < |ids| ==> ids[i] in m
    ensures |rows| == |ids| && forall i :: 0 <= i < |ids| ==> rows[i] == m[ids[i]]
  {
    if ids == [] then [] else [m[ids[0]]] + RowsOf(m, ids[1..])
  }
}
