/**
 * Python dictionaries of request parameters: insertion-ordered entries with
 * distinct keys, string keys and string or integer values, with the two
 * operations the client uses, `d[k] = v` and `d.update(e)`.
 */
module Dicts {
  import opened Wrappers

  datatype Scalar = Str(s: string) | Int(i: int)

  predicate DistinctKeys(d: seq<(string, Scalar)>) {
    forall i, j :: 0 <= i < j < |d| ==> d[i].0 != d[j].0
  }

  /** A dictionary: its entries in insertion order. */
  type Dict = d: seq<(string, Scalar)> | DistinctKeys(d)

  function Keys(d: seq<(string, Scalar)>): set<string> {
    set i | 0 <= i < |d| :: d[i].0
  }

  lemma KeysCons(x: (string, Scalar), d: seq<(string, Scalar)>)
    ensures Keys([x] + d) == {x.0} + Keys(d)
    ensures x.0 !in Keys(d) && DistinctKeys(d) ==> DistinctKeys([x] + d)
    ensures DistinctKeys([x] + d) ==> x.0 !in Keys(d)
  {
    var s := [x] + d;
    forall k | k in Keys(d) ensures k in Keys(s) {
      var i :| 0 <= i < |d| && d[i].0 == k;
      assert s[i + 1] == d[i];
    }
    forall k | k in Keys(s) ensures k in {x.0} + Keys(d) {
      var i :| 0 <= i < |s| && s[i].0 == k;
      if i > 0 {
        assert s[i] == d[i - 1];
      }
    }
    assert s[0] == x;
    assert x.0 in Keys(s);
    if DistinctKeys(s) {
      forall i | 0 <= i < |d| ensures d[i].0 != x.0 {
        assert s[i + 1] == d[i];
      }
    }

    if x.0 !in Keys(d) && DistinctKeys(d) {
      forall i, j | 0 <= i < j < |s| ensures s[i].0 != s[j].0 {
        assert s[j] == d[j - 1];
        if i > 0 {
          assert s[i] == d[i - 1];
        }
      }
    }
  }

  /** `d.get(k)`. */
  function Get(d: Dict, k: string): (r: Option<Scalar>)
    ensures r.Some? <==> k in Keys(d)
    ensures r.Some? ==> (k, r.value) in d
  {
    if d == [] then None
    else if d[0].0 == k then Some(d[0].1)
    else
      var r := Get(d[1..], k);
      assert forall i :: 0 < i < |d| ==> d[i] == d[1..][i - 1];
      r
  }

  /** Keys are distinct, so an entry is what `get` finds under its key. */
  lemma {:induction false} GetFindsEntry(d: Dict, k: string, v: Scalar)
    requires (k, v) in d
    ensures Get(d, k) == Some(v)
  {
    var i :| 0 <= i < |d| && d[i] == (k, v);
    if i > 0 {
      assert d[1..][i - 1] == (k, v);
      GetFindsEntry(d[1..], k, v);
    }
  }

  /** `d[k] = v`: an existing key keeps its position, a new key goes last. */
  function Put(d: Dict, k: string, v: Scalar): (r: Dict)
    ensures Keys(r) == Keys(d) + {k}
    ensures forall k' :: Get(r, k') == if k' == k then Some(v) else Get(d, k')
    ensures k in Keys(d) ==> |r| == |d| && forall i :: 0 <= i < |d| ==> r[i] == if d[i].0 == k then (k, v) else d[i]
    ensures k !in Keys(d) ==> r == d + [(k, v)]
  {
    if d == [] then
      KeysCons((k, v), d);
      [(k, v)]
    else if d[0].0 == k then
      KeysCons(d[0], d[1..]);
      KeysCons((k, v), d[1..]);
      assert d == [d[0]] + d[1..];
      var r := [(k, v)] + d[1..];
      assert forall i :: 0 < i < |d| ==> r[i] == d[i];
      r
    else
      var rest := Put(d[1..], k, v);
      KeysCons(d[0], d[1..]);
      KeysCons(d[0], rest);
      assert d == [d[0]] + d[1..];
      var r := [d[0]] + rest;
      assert forall i :: 0 < i < |r| ==> r[i] == rest[i - 1];
      r
  }

  /** `d.update(e)`: every entry of `e` is put into `d`, in `e`'s order. */
  function Update(d: Dict, e: Dict): (r: Dict)
    ensures Keys(r) == Keys(d) + Keys(e)
    decreases |e|
  {
    if e == [] then d
    else
      assert e == [e[0]] + e[1..];
      KeysCons(e[0], e[1..]);
      Update(Put(d, e[0].0, e[0].1), e[1..])
  }

  /** After `d.update(e)`, a key of `e` maps to its value in `e`; any other key keeps its value in `d`. */
  lemma {:induction false} UpdateGet(d: Dict, e: Dict, k: string)
    ensures Get(Update(d, e), k) == if k in Keys(e) then Get(e, k) else Get(d, k)
    decreases |e|
  {
    if e != [] {
      assert e == [e[0]] + e[1..];
      KeysCons(e[0], e[1..]);
      UpdateGet(Put(d, e[0].0, e[0].1), e[1..], k);
    }
  }

  /** The dictionary as a mapping, forgetting insertion order. */
  function ToMap(d: Dict): (m: map<string, Scalar>)
    ensures forall k, v :: (k, v) in d <==> k in m && m[k] == v
  {
    var m := map k | k in Keys(d) :: Get(d, k).value;
    forall k, v ensures (k, v) in d <==> k in m && m[k] == v {
      if (k, v) in d {
        GetFindsEntry(d, k, v);
      }
    }
    m
  }

  /**
   * Two dictionaries give the same mapping exactly when they hold the same
   * entries, whatever order those entries were inserted in.
   */
  lemma SameMapIffSameEntries(d1: Dict, d2: Dict)
    ensures ToMap(d1) == ToMap(d2) <==> forall p :: p in d1 <==> p in d2
  {
    if forall p :: p in d1 <==> p in d2 {
      forall k | k in Keys(d1) ensures k in Keys(d2) && Get(d1, k) == Get(d2, k) {
        var v := Get(d1, k).value;
        assert (k, v) in d2;
        GetFindsEntry(d2, k, v);
      }
      forall k | k in Keys(d2) ensures k in Keys(d1) {
        var v := Get(d2, k).value;
        assert (k, v) in d1;
      }
      assert ToMap(d1) == ToMap(d2);
    }
    if ToMap(d1) == ToMap(d2) {
      forall p | p in d1 ensures p in d2 {
        GetFindsEntry(d1, p.0, p.1);
        assert p.0 in ToMap(d2);
      }
      forall p | p in d2 ensures p in d1 {
        GetFindsEntry(d2, p.0, p.1);
        assert p.0 in ToMap(d1);
      }
    }
  }
}
