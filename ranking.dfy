/** Python's `list.sort(key=score, reverse=True)` and `sorted(...)`: a stable
    sort on a numeric key. The servers sort candidates by a score, highest
    first, and equal scores keep the order in which they were produced
    (Python's sort is stable, also with `reverse=True`). An ascending sort is
    the same sort on the negated key. */
module Ranking {

  /** Non-increasing by `score`. */
  predicate Descending<T>(s: seq<T>, score: T -> real)
  {
    forall i, j :: 0 <= i < j < |s| ==> score(s[i]) >= score(s[j])
  }

  /** The elements whose score is exactly `v`, in their order in `s`. */
  function WithScore<T>(s: seq<T>, score: T -> real, v: real): seq<T>
  {
    if s == [] then []
    else (if score(s[0]) == v then [s[0]] else []) + WithScore(s[1..], score, v)
  }

  /** Puts `x` in front of the first element that does not score higher. */
  function Insert<T(==)>(x: T, s: seq<T>, score: T -> real): (r: seq<T>)
    ensures |r| == |s| + 1
    ensures multiset(r) == multiset(s) + multiset{x}
  {
    if s == [] || score(x) >= score(s[0]) then
      [x] + s
    else
      assert s == [s[0]] + s[1..];
      [s[0]] + Insert(x, s[1..], score)
  }

  /** Inserting into a sorted list keeps it sorted. */
  lemma {:induction false} InsertSorted<T>(x: T, s: seq<T>, score: T -> real)
    requires Descending(s, score)
    ensures Descending(Insert(x, s, score), score)
  {
    if s != [] && score(x) < score(s[0]) {
      var t := Insert(x, s[1..], score);
      InsertSorted(x, s[1..], score);
      forall k | 0 <= k < |t| ensures score(s[0]) >= score(t[k]) {
        assert t[k] in multiset(t);
        if t[k] != x {
          assert t[k] in multiset(s[1..]);
          var m :| 0 <= m < |s[1..]| && s[1..][m] == t[k];
          assert s[m + 1] == t[k];
        }
      }
    }
  }

  /** `sorted(s, key=score, reverse=True)`: highest score first, and a
      permutation of `s`. */
  function SortDesc<T(==)>(s: seq<T>, score: T -> real): (r: seq<T>)
    ensures |r| == |s|
    ensures multiset(r) == multiset(s)
    ensures Descending(r, score)
  {
    if s == [] then []
    else
      assert s == [s[0]] + s[1..];
      var t := SortDesc(s[1..], score);
      InsertSorted(s[0], t, score);
      Insert(s[0], t, score)
  }

  lemma {:induction false} InsertStable<T>(x: T, s: seq<T>, score: T -> real, v: real)
    requires Descending(s, score)
    ensures WithScore(Insert(x, s, score), score, v)
         == (if score(x) == v then [x] else []) + WithScore(s, score, v)
  {
    if s == [] || score(x) >= score(s[0]) {
      assert ([x] + s)[1..] == s;
    } else {
      var t := Insert(x, s[1..], score);
      InsertStable(x, s[1..], score, v);
      assert ([s[0]] + t)[1..] == t;
    }
  }

  /** Stability: among elements of equal score, the sorted list keeps the
      order of the input. */
  lemma {:induction false} SortDescStable<T>(s: seq<T>, score: T -> real, v: real)
    ensures WithScore(SortDesc(s, score), score, v) == WithScore(s, score, v)
  {
    if s != [] {
      SortDescStable(s[1..], score, v);
      InsertStable(s[0], SortDesc(s[1..], score), score, v);
    }
  }

  /** Sorting a list that is already in order changes nothing. */
  lemma {:induction false} SortDescOfSorted<T>(s: seq<T>, score: T -> real)
    requires Descending(s, score)
    ensures SortDesc(s, score) == s
  {
    if s != [] {
      SortDescOfSorted(s[1..], score);
      assert s == [s[0]] + s[1..];
    }
  }

  /** Sorting twice gives what sorting once gives. */
  lemma SortDescIdempotent<T>(s: seq<T>, score: T -> real)
    ensures SortDesc(SortDesc(s, score), score) == SortDesc(s, score)
  {
    SortDescOfSorted(SortDesc(s, score), score);
  }

  /** The first element of a non-empty sorted list has the highest score. */
  lemma HeadIsBest<T>(s: seq<T>, score: T -> real)
    requires |s| > 0
    ensures forall y :: y in s ==> score(y) <= score(SortDesc(s, score)[0])
  {
    var r := SortDesc(s, score);
    forall y | y in s ensures score(y) <= score(r[0]) {
      assert y in multiset(r);
      var k :| 0 <= k < |r| && r[k] == y;
    }
  }
  /** Of two items, the one with the strictly higher key comes first. */
  lemma HeadOfTwo<T>(a: T, b: T, score: T -> real)
    requires score(a) < score(b)
    ensures SortDesc([a, b], score)[0] == b
  {
    HeadIsBest([a, b], score);
    assert b in [a, b];
    assert SortDesc([a, b], score)[0] in multiset([a, b]);
  }

}
