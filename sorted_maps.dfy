/**
 * `BTreeMap<String, V>` as the sequence of its entries in ascending key
 * order (Rust's `Ord` on `String`, lexicographic by code point): iteration,
 * `into_values` and `into_iter` visit the entries in sequence order.
 */
module SortedMaps {

  import opened Base
  import opened Strings

  /** Keys strictly ascending, so each key occurs once. */
  predicate Sorted<V>(m: seq<(string, V)>)
  {
    forall i, j :: 0 <= i < j < |m| ==> Less(m[i].0, m[j].0)
  }

  /** Every key of `m` is above `b`. */
  predicate Above<V>(b: string, m: seq<(string, V)>)
  {
    forall i :: 0 <= i < |m| ==> Less(b, m[i].0)
  }

  /** Every key of `m` is below `b`. */
  predicate Below<V>(m: seq<(string, V)>, b: string)
  {
    forall i :: 0 <= i < |m| ==> Less(m[i].0, b)
  }

  /** `BTreeMap::get`. */
  function Get<V>(m: seq<(string, V)>, k: string): (r: Option<V>)
    ensures r.None? <==> forall i :: 0 <= i < |m| ==> m[i].0 != k
    ensures r.Some? ==> exists i :: 0 <= i < |m| && m[i] == (k, r.value)
  {
    if m == [] then None
    else if m[0].0 == k then Some(m[0].1)
    else
      var r := Get(m[1..], k);
      assert forall i :: 1 <= i < |m| ==> m[i] == m[1..][i - 1];
      r
  }

  /** In a sorted map the entry with key `k` is the only one. */
  lemma GetSorted<V>(m: seq<(string, V)>, i: nat)
    requires Sorted(m) && i < |m|
    ensures Get(m, m[i].0) == Some(m[i].1)
  {
    var r := Get(m, m[i].0);
    var j :| 0 <= j < |m| && m[j] == (m[i].0, r.value);
    if j != i {
      if j < i { LessIrreflexive(m[j].0); } else { LessIrreflexive(m[i].0); }
    }
  }

  lemma LessAsymmetric(a: string, b: string)
    requires Less(a, b)
    ensures !Less(b, a) && a != b
  {
    LessIrreflexive(a);
    if Less(b, a) {
      LessTransitive(a, b, a);
    }
  }

  /** `BTreeMap::insert`: the entry for `k` is `v`, the others stay, order is kept. */
  function Put<V>(m: seq<(string, V)>, k: string, v: V): (r: seq<(string, V)>)
    requires Sorted(m)
    ensures Sorted(r)
    ensures forall b :: Less(b, k) && Above(b, m) ==> Above(b, r)
    ensures forall k' :: Get(r, k') == if k' == k then Some(v) else Get(m, k')
  {
    if m == [] then [(k, v)]
    else if m[0].0 == k then
      assert forall i :: 1 <= i < |m| ==> m[i] == m[1..][i - 1];
      [(k, v)] + m[1..]
    else if Less(k, m[0].0) then
      assert forall i :: 0 < i < |m| ==> Less(k, m[i].0) by {
        forall i | 0 < i < |m| ensures Less(k, m[i].0) { LessTransitive(k, m[0].0, m[i].0); }
      }
      [(k, v)] + m
    else
      var rest := Put(m[1..], k, v);
      LessTotal(k, m[0].0);
      assert Above(m[0].0, m[1..]);
      assert Above(m[0].0, rest);
      var r := [m[0]] + rest;
      assert forall i :: 1 <= i < |r| ==> r[i] == rest[i - 1];
      assert forall b :: Less(b, k) && Above(b, m) ==> Above(b, r) by {
        forall b | Less(b, k) && Above(b, m) ensures Above(b, r) {
          assert Above(b, m[1..]);
        }
      }
      assert forall k' :: Get(r, k') == if k' == k then Some(v) else Get(m, k') by {
        forall k' ensures Get(r, k') == if k' == k then Some(v) else Get(m, k') {
          assert Get(r, k') == if m[0].0 == k' then Some(m[0].1) else Get(rest, k');
          assert Get(m, k') == if m[0].0 == k' then Some(m[0].1) else Get(m[1..], k');
        }
      }
      r
  }

  /** A key above every key goes at the end. */
  lemma {:induction false} PutBeyond<V>(m: seq<(string, V)>, k: string, v: V)
    requires Sorted(m) && Below(m, k)
    ensures Put(m, k, v) == m + [(k, v)]
  {
    if m != [] {
      LessAsymmetric(m[0].0, k);
      assert Below(m[1..], k);
      PutBeyond(m[1..], k, v);
      assert m == [m[0]] + m[1..];
    }
  }

  /** Inserting the last key again replaces its value. */
  lemma {:induction false} PutAfterLast<V>(m: seq<(string, V)>, k: string, v: V, v': V)
    requires Sorted(m) && Below(m, k) && Sorted(m + [(k, v)])
    ensures Put(m + [(k, v)], k, v') == m + [(k, v')]
  {
    var n := m + [(k, v)];
    if m == [] {
      assert n == [(k, v)] && n[1..] == [];
    } else {
      LessAsymmetric(m[0].0, k);
      assert n[0] == m[0] && n[1..] == m[1..] + [(k, v)];
      assert Below(m[1..], k);
      PutAfterLast(m[1..], k, v, v');
      assert m == [m[0]] + m[1..];
    }
  }

  /** The value of `k` in `rows`, the last one when several rows share it. */
  function LastValue<V>(rows: seq<(string, V)>, k: string): (r: Option<V>)
    ensures r.None? <==> forall i :: 0 <= i < |rows| ==> rows[i].0 != k
    ensures r.Some? ==> exists i :: 0 <= i < |rows| && rows[i] == (k, r.value)
                                    && forall j :: i < j < |rows| ==> rows[j].0 != k
  {
    if rows == [] then None
    else if rows[|rows| - 1].0 == k then Some(rows[|rows| - 1].1)
    else LastValue(rows[..|rows| - 1], k)
  }

  /** `into_iter().collect::<BTreeMap<_, _>>()`: each row inserted in turn. */
  function Collect<V>(rows: seq<(string, V)>): (r: seq<(string, V)>)
    ensures Sorted(r)
  {
    if rows == [] then [] else Put(Collect(rows[..|rows| - 1]), rows[|rows| - 1].0, rows[|rows| - 1].1)
  }

  /** Collecting keeps every key, with the value of its last row. */
  lemma {:induction false} CollectGet<V>(rows: seq<(string, V)>, k: string)
    ensures Get(Collect(rows), k) == LastValue(rows, k)
  {
    if rows != [] {
      CollectGet(rows[..|rows| - 1], k);
    }
  }

  /** The values in key order: `into_values`. */
  function Values<V>(m: seq<(string, V)>): (r: seq<V>)
    ensures |r| == |m| && forall i :: 0 <= i < |m| ==> r[i] == m[i].1
  {
    seq(|m|, i requires 0 <= i < |m| => m[i].1)
  }
}
