/**
 * The iterator adaptors the program leans on, as functions on sequences:
 * `filter`, the stable `sorted_by_key`, and itertools' consecutive
 * `group_by`.
 */
module Sequences {

  /** `filter`: the elements satisfying `p`, in their original order. */
  function Filter<T>(s: seq<T>, p: T -> bool): (r: seq<T>)
    ensures |r| <= |s|
  {
    if s == [] then []
    else (if p(s[0]) then [s[0]] else []) + Filter(s[1..], p)
  }

  /** `filter` keeps exactly the elements satisfying `p`. */
  lemma {:induction false} FilterMembers<T>(s: seq<T>, p: T -> bool)
    ensures forall i :: 0 <= i < |Filter(s, p)| ==> Filter(s, p)[i] in s && p(Filter(s, p)[i])
    ensures forall i :: 0 <= i < |s| && p(s[i]) ==> s[i] in Filter(s, p)
    decreases |s|
  {
    if s != [] {
      FilterMembers(s[1..], p);
      var head := if p(s[0]) then [s[0]] else [];
      assert Filter(s, p) == head + Filter(s[1..], p);
      forall i | 0 <= i < |s| && p(s[i])
        ensures s[i] in Filter(s, p)
      {
        if i > 0 {
          assert s[i] == s[1..][i - 1];
        }
      }
    }
  }

  lemma {:induction false} FilterConcat<T>(a: seq<T>, b: seq<T>, p: T -> bool)
    ensures Filter(a + b, p) == Filter(a, p) + Filter(b, p)
    decreases |a|
  {
    if a == [] {
      assert a + b == b;
    } else {
      var head := if p(a[0]) then [a[0]] else [];
      assert (a + b)[0] == a[0];
      assert (a + b)[1..] == a[1..] + b;
      FilterConcat(a[1..], b, p);
      calc {
        Filter(a + b, p);
        head + Filter(a[1..] + b, p);
        head + (Filter(a[1..], p) + Filter(b, p));
        (head + Filter(a[1..], p)) + Filter(b, p);
        Filter(a, p) + Filter(b, p);
      }
    }
  }

  /** `le` orders every pair, transitively: a key comparison. */
  ghost predicate TotalPreorder<T(!new)>(le: (T, T) -> bool)
  {
    (forall a, b :: le(a, b) || le(b, a))
    && (forall a, b, c :: le(a, b) && le(b, c) ==> le(a, c))
  }

  ghost predicate SortedBy<T>(s: seq<T>, le: (T, T) -> bool)
  {
    forall i, j :: 0 <= i < j < |s| ==> le(s[i], s[j])
  }

  /** Where `x` goes in a sorted `s`: before the first element strictly above it. */
  function InsertionPoint<T>(x: T, s: seq<T>, le: (T, T) -> bool): (k: nat)
    ensures k <= |s|
    ensures forall i :: 0 <= i < k ==> le(s[i], x)
    ensures k < |s| ==> !le(s[k], x)
  {
    if s == [] || !le(s[0], x) then 0
    else 1 + InsertionPoint(x, s[1..], le)
  }

  function Insert<T>(x: T, s: seq<T>, le: (T, T) -> bool): (r: seq<T>)
    ensures multiset(r) == multiset(s) + multiset{x}
  {
    var k := InsertionPoint(x, s, le);
    assert s == s[..k] + s[k..];
    s[..k] + [x] + s[k..]
  }

  /**
   * `sorted_by_key`: a stable sort, here an insertion sort that places each
   * element after every earlier one it is not strictly below.
   */
  function SortBy<T>(s: seq<T>, le: (T, T) -> bool): (r: seq<T>)
    ensures multiset(r) == multiset(s)
    ensures |r| == |s|
    decreases |s|
  {
    if s == [] then []
    else
      assert s == s[..|s| - 1] + [s[|s| - 1]];
      Insert(s[|s| - 1], SortBy(s[..|s| - 1], le), le)
  }

  /** In a sorted sequence, everything from the insertion point on is strictly above `x`. */
  lemma AboveInsertionPoint<T(!new)>(x: T, s: seq<T>, le: (T, T) -> bool)
    requires TotalPreorder(le) && SortedBy(s, le)
    ensures forall j :: InsertionPoint(x, s, le) <= j < |s| ==> !le(s[j], x)
  {
    var k := InsertionPoint(x, s, le);
    forall j | k <= j < |s|
      ensures !le(s[j], x)
    {
      if j > k {
        assert le(s[k], s[j]);
      }
    }
  }

  lemma InsertSorted<T(!new)>(x: T, s: seq<T>, le: (T, T) -> bool)
    requires TotalPreorder(le) && SortedBy(s, le)
    ensures SortedBy(Insert(x, s, le), le)
  {
    var k := InsertionPoint(x, s, le);
    var r := Insert(x, s, le);
    AboveInsertionPoint(x, s, le);
    assert r == s[..k] + [x] + s[k..];
    forall i, j | 0 <= i < j < |r|
      ensures le(r[i], r[j])
    {
      if j < k || i > k {
        // both come from `s`, in order
      } else if i == k {
        assert !le(r[j], x);
      } else if j == k {
        assert r[j] == x;
      } else {
        assert r[i] == s[i] && r[j] == s[j - 1];
      }
    }
  }

  /** `sorted_by_key` orders its output by the key. */
  lemma {:induction false} SortBySorted<T(!new)>(s: seq<T>, le: (T, T) -> bool)
    requires TotalPreorder(le)
    ensures SortedBy(SortBy(s, le), le)
    decreases |s|
  {
    if s != [] {
      SortBySorted(s[..|s| - 1], le);
      InsertSorted(s[|s| - 1], SortBy(s[..|s| - 1], le), le);
    }
  }

  /** `a` and `b` carry the same key. */
  predicate Equivalent<T>(le: (T, T) -> bool, a: T, b: T)
  {
    le(a, b) && le(b, a)
  }

  /** The test "carries `y`'s key", for `Filter`. */
  function SameKey<T>(le: (T, T) -> bool, y: T): T -> bool
  {
    e => Equivalent(le, e, y)
  }

  lemma {:induction false} NoneMatch<T>(s: seq<T>, p: T -> bool)
    requires forall i :: 0 <= i < |s| ==> !p(s[i])
    ensures Filter(s, p) == []
  {
    if s != [] {
      NoneMatch(s[1..], p);
    }
  }

  /** Past the insertion point of `x` nothing shares `x`'s key. */
  lemma AboveHasOtherKey<T(!new)>(x: T, s: seq<T>, le: (T, T) -> bool, y: T)
    requires TotalPreorder(le) && SortedBy(s, le) && Equivalent(le, x, y)
    ensures forall j :: InsertionPoint(x, s, le) <= j < |s| ==> !Equivalent(le, s[j], y)
  {
    AboveInsertionPoint(x, s, le);
    forall j | InsertionPoint(x, s, le) <= j < |s|
      ensures !Equivalent(le, s[j], y)
    {
      assert !le(s[j], x) && le(y, x);
    }
  }

  /**
   * Splicing `x` into `s` adds it to the filtered sequence at the end,
   * provided nothing after the splice point passes the filter when `x` does.
   */
  lemma Splice<T>(s: seq<T>, lo: seq<T>, x: T, hi: seq<T>, u: seq<T>, p: T -> bool)
    requires s == lo + hi && u == lo + [x] + hi
    requires p(x) ==> forall j :: 0 <= j < |hi| ==> !p(hi[j])
    ensures Filter(u, p) == Filter(s, p) + Filter([x], p)
  {
    FilterConcat(lo, hi, p);
    FilterConcat(lo + [x], hi, p);
    FilterConcat(lo, [x], p);
    var fl, fx, fh := Filter(lo, p), Filter([x], p), Filter(hi, p);
    assert Filter(u, p) == fl + fx + fh;
    assert Filter(s, p) == fl + fh;
    if p(x) {
      NoneMatch(hi, p);
      assert fh == [];
      assert fl + fx + fh == fl + fx && fl + fh == fl;
    } else {
      NoneMatch([x], p);
      assert fx == [];
      assert fl + fx + fh == fl + fh == (fl + fh) + fx;
    }
  }

  lemma InsertStable<T>(x: T, s: seq<T>, le: (T, T) -> bool, y: T)
    requires Equivalent(le, x, y) ==>
      forall j :: InsertionPoint(x, s, le) <= j < |s| ==> !Equivalent(le, s[j], y)
    ensures Filter(Insert(x, s, le), SameKey(le, y))
         == Filter(s, SameKey(le, y)) + Filter([x], SameKey(le, y))
  {
    var p := SameKey(le, y);
    var k := InsertionPoint(x, s, le);
    var hi := s[k..];
    SplitAt(s, k);
    if p(x) {
      forall j | 0 <= j < |hi|
        ensures !p(hi[j])
      {
        assert hi[j] == s[k + j];
      }
    }
    Splice(s, s[..k], x, hi, Insert(x, s, le), p);
  }

  lemma SplitLast<T>(s: seq<T>)
    requires s != []
    ensures s == s[..|s| - 1] + [s[|s| - 1]]
  {
  }

  lemma SplitAt<T>(s: seq<T>, k: nat)
    requires k <= |s|
    ensures s == s[..k] + s[k..]
  {
  }

  lemma StableStep<T>(s: seq<T>, init: seq<T>, x: T, t: seq<T>, u: seq<T>, p: T -> bool)
    requires s == init + [x]
    requires Filter(t, p) == Filter(init, p)
    requires Filter(u, p) == Filter(t, p) + Filter([x], p)
    ensures Filter(u, p) == Filter(s, p)
  {
    FilterConcat(init, [x], p);
  }

  /**
   * `sorted_by_key` is stable: the elements carrying any one key keep the
   * order they had in the input.
   */
  lemma {:induction false} SortByStable<T(!new)>(s: seq<T>, le: (T, T) -> bool, y: T)
    requires TotalPreorder(le)
    ensures Filter(SortBy(s, le), SameKey(le, y)) == Filter(s, SameKey(le, y))
    decreases |s|
  {
    if s != [] {
      var init, x := s[..|s| - 1], s[|s| - 1];
      var t := SortBy(init, le);
      assert SortBy(s, le) == Insert(x, t, le);
      SortByStable(init, le, y);
      SortBySorted(init, le);
      if Equivalent(le, x, y) {
        AboveHasOtherKey(x, t, le, y);
      }
      InsertStable(x, t, le, y);
      SplitLast(s);
      StableStep(s, init, x, t, Insert(x, t, le), SameKey(le, y));
    }
  }

  /** The runs, concatenated. */
  function Flatten<T>(runs: seq<seq<T>>): (r: seq<T>)
  {
    if runs == [] then [] else runs[0] + Flatten(runs[1..])
  }

  /**
   * itertools' `group_by`: the maximal runs of consecutive elements sharing
   * a key.
   */
  function Runs<T, K(==)>(s: seq<T>, key: T -> K): (r: seq<seq<T>>)
    ensures forall i :: 0 <= i < |r| ==> r[i] != []
    ensures s == [] <==> r == []
    ensures r != [] ==> r[0][0] == s[0]
    decreases |s|
  {
    if s == [] then []
    else
      var rest := Runs(s[1..], key);
      if rest != [] && key(rest[0][0]) == key(s[0]) then [[s[0]] + rest[0]] + rest[1..]
      else [[s[0]]] + rest
  }

  /** Together the runs are the input. */
  lemma {:induction false} RunsFlatten<T, K>(s: seq<T>, key: T -> K)
    ensures Flatten(Runs(s, key)) == s
    decreases |s|
  {
    if s != [] {
      var rest := Runs(s[1..], key);
      RunsFlatten(s[1..], key);
      if rest != [] && key(rest[0][0]) == key(s[0]) {
        var r := [[s[0]] + rest[0]] + rest[1..];
        assert r[1..] == rest[1..];
        calc {
          Flatten(r);
          ([s[0]] + rest[0]) + Flatten(rest[1..]);
          [s[0]] + (rest[0] + Flatten(rest[1..]));
          [s[0]] + Flatten(rest);
          s;
        }
      } else {
        var r := [[s[0]]] + rest;
        assert r[1..] == rest;
        assert Flatten(r) == [s[0]] + Flatten(rest);
      }
    }
  }

  /** Within a run every element has the run's key. */
  lemma {:induction false} RunsUniform<T, K>(s: seq<T>, key: T -> K)
    ensures forall i, j :: 0 <= i < |Runs(s, key)| && 0 <= j < |Runs(s, key)[i]| ==>
      key(Runs(s, key)[i][j]) == key(Runs(s, key)[i][0])
    decreases |s|
  {
    if s != [] {
      var rest := Runs(s[1..], key);
      RunsUniform(s[1..], key);
      var r := Runs(s, key);
      forall i, j | 0 <= i < |r| && 0 <= j < |r[i]|
        ensures key(r[i][j]) == key(r[i][0])
      {
        if rest != [] && key(rest[0][0]) == key(s[0]) {
          if i == 0 && j > 0 {
            assert r[0][j] == rest[0][j - 1];
          } else if i > 0 {
            assert r[i] == rest[i];
          }
        } else if i > 0 {
          assert r[i] == rest[i - 1];
        }
      }
    }
  }

  /** Neighbouring runs have different keys: the runs are maximal. */
  lemma {:induction false} RunsApart<T, K>(s: seq<T>, key: T -> K)
    ensures forall i :: 0 < i < |Runs(s, key)| ==> key(Runs(s, key)[i - 1][0]) != key(Runs(s, key)[i][0])
    decreases |s|
  {
    if s != [] {
      var rest := Runs(s[1..], key);
      RunsApart(s[1..], key);
      var r := Runs(s, key);
      forall i | 0 < i < |r|
        ensures key(r[i - 1][0]) != key(r[i][0])
      {
        if rest != [] && key(rest[0][0]) == key(s[0]) {
          assert r[i] == rest[i];
          if i > 1 {
            assert r[i - 1] == rest[i - 1];
          }
        } else {
          assert r[i] == rest[i - 1];
          if i > 1 {
            assert r[i - 1] == rest[i - 2];
          }
        }
      }
    }
  }
}
