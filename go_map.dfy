/**
 Go's `map[string]int` as the snippets use it: reading a missing key yields
 the zero value, and `m[k] += d` (or `m[k]++`) stores the key whether or not
 it was present before.
 */
module GoMap {

  /** `m[k]` in Go: the stored value, or 0 when `k` is absent. */
  function Lookup(m: map<string, int>, k: string): int
  {
    if k in m then m[k] else 0
  }

  /** `m[k] += d` in Go: only key `k` changes, and it becomes present. */
  function Add(m: map<string, int>, k: string, d: int): (r: map<string, int>)
    ensures r.Keys == m.Keys + {k}
    ensures forall j :: Lookup(r, j) == Lookup(m, j) + (if j == k then d else 0)
  {
    m[k := Lookup(m, k) + d]
  }

  /** The sum of all stored values (independent of any iteration order). */
  ghost function Sum(m: map<string, int>): int
    decreases |m.Keys|
  {
    if m.Keys == {} then 0
    else
      var k :| k in m;
      assert (m - {k}).Keys == m.Keys - {k};
      m[k] + Sum(m - {k})
  }

  /** Sum does not depend on which key is taken out first. */
  lemma {:induction false} SumRemove(m: map<string, int>, k: string)
    requires k in m
    ensures Sum(m) == m[k] + Sum(m - {k})
    decreases |m.Keys|
  {
    var j :| j in m && Sum(m) == m[j] + Sum(m - {j});
    if j != k {
      assert (m - {j}).Keys == m.Keys - {j};
      assert (m - {k}).Keys == m.Keys - {k};
      SumRemove(m - {j}, k);
      SumRemove(m - {k}, j);
      assert m - {j} - {k} == m - {k} - {j};
    }
  }

  /** `m[k] += d` raises the sum of the map by exactly `d`. */
  lemma SumAdd(m: map<string, int>, k: string, d: int)
    ensures Sum(Add(m, k, d)) == Sum(m) + d
  {
    var r := Add(m, k, d);
    SumRemove(r, k);
    if k in m {
      SumRemove(m, k);
      assert r - {k} == m - {k};
    } else {
      assert r - {k} == m;
    }
  }
}
