/** A URL query string as `URLSearchParams` holds it: an ordered list of name/value pairs
    in which a name may repeat. Used for the catalog URLs the filter panel, the sort menu
    and the header search build. */
module QueryParams {
  import opened Wrappers

  datatype Param = Param(key: string, value: string)

  type Params = seq<Param>

  /** `params.get(k)`: the value of the first pair named `k`, or null. */
  function Get(ps: Params, k: string): Option<string> {
    if ps == [] then None
    else if ps[0].key == k then Some(ps[0].value)
    else Get(ps[1..], k)
  }

  /** `params.has(k)`. */
  predicate Has(ps: Params, k: string) {
    Get(ps, k).Some?
  }

  /** How many pairs are named `k`. */
  function Count(ps: Params, k: string): nat {
    if ps == [] then 0 else (if ps[0].key == k then 1 else 0) + Count(ps[1..], k)
  }

  /** The pairs not named `k`, in their original order. */
  function Without(ps: Params, k: string): Params {
    if ps == [] then []
    else if ps[0].key == k then Without(ps[1..], k)
    else [ps[0]] + Without(ps[1..], k)
  }

  /** Dropping the pairs named `k` leaves every other name's pairs as they were. */
  lemma {:induction false} WithoutKeepsOthers(ps: Params, k: string)
    ensures Get(Without(ps, k), k) == None
    ensures Count(Without(ps, k), k) == 0
    ensures Without(Without(ps, k), k) == Without(ps, k)
    ensures forall j :: j != k ==> Get(Without(ps, k), j) == Get(ps, j)
    ensures forall j :: j != k ==> Count(Without(ps, k), j) == Count(ps, j)
  {
    if ps != [] {
      WithoutKeepsOthers(ps[1..], k);
      if ps[0].key != k {
        var w := Without(ps, k);
        assert w[0] == ps[0] && w[1..] == Without(ps[1..], k);
      }
    }
  }

  /** `params.set(k, v)` as the URL Standard defines it: the first pair named `k` takes the
      value `v` and the later pairs named `k` are removed; without such a pair, `(k, v)` is
      appended. Afterwards `k` occurs once, with value `v`, and the pairs of every other
      name are unchanged and in the same order. */
  function Set(ps: Params, k: string, v: string): (r: Params)
    ensures Get(r, k) == Some(v)
    ensures Count(r, k) == 1
    ensures Without(r, k) == Without(ps, k)
    ensures forall j :: j != k ==> Get(r, j) == Get(ps, j)
    ensures forall j :: j != k ==> Count(r, j) == Count(ps, j)
  {
    if ps == [] then
      [Param(k, v)]
    else if ps[0].key == k then
      WithoutKeepsOthers(ps[1..], k);
      [Param(k, v)] + Without(ps[1..], k)
    else
      var r := [ps[0]] + Set(ps[1..], k, v);
      assert r[0] == ps[0] && r[1..] == Set(ps[1..], k, v);
      r
  }

  /** Setting a name again overrides the earlier setting: only the last value counts. */
  lemma {:induction false} SetOverrides(ps: Params, k: string, v: string, w: string)
    ensures Set(Set(ps, k, v), k, w) == Set(ps, k, w)
  {
    if ps != [] {
      if ps[0].key == k {
        WithoutKeepsOthers(ps[1..], k);
      } else {
        SetOverrides(ps[1..], k, v, w);
        var r := Set(ps, k, v);
        assert r[0] == ps[0] && r[1..] == Set(ps[1..], k, v);
      }
    }
  }
}
