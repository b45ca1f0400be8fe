/** Shared vocabulary: an optional value, and lookup in an insertion-ordered
    list of (key, value) pairs, which is how the servers' dictionaries are
    modelled (Python dictionaries keep insertion order, and the servers'
    searches return the first hit in that order). */
module Common {
  datatype Option<+T> = None | Some(value: T)

  /** The position of the first pair whose key is `k`. */
  function KeyIndex<V>(s: seq<(string, V)>, k: string): (r: Option<nat>)
    ensures r.Some? ==> r.value < |s| && s[r.value].0 == k
    ensures r.Some? ==> forall j :: 0 <= j < r.value ==> s[j].0 != k
    ensures r.None? <==> forall j :: 0 <= j < |s| ==> s[j].0 != k
  {
    if s == [] then None
    else if s[0].0 == k then Some(0)
    else match KeyIndex(s[1..], k)
      case None => None
      case Some(i) => Some(i + 1)
  }

  /** The first pair with key `k` sits at `i`. */
  lemma KeyIndexAt<V>(s: seq<(string, V)>, k: string, i: nat)
    requires i < |s| && s[i].0 == k
    requires forall j :: 0 <= j < i ==> s[j].0 != k
    ensures KeyIndex(s, k) == Some(i)
  {
  }

  /** Concatenation regroups freely; stated apart so that proofs about
      filters need not rediscover it element by element. */
  lemma ConcatAssoc<T>(x: seq<T>, y: seq<T>, z: seq<T>)
    ensures x + y + z == x + (y + z)
  {
  }

  /** Growing a prefix by one element. */
  lemma TakeSnoc<T>(s: seq<T>, i: nat)
    requires i < |s|
    ensures s[..i + 1] == s[..i] + [s[i]]
  {
  }

  /** The prefix one longer ends in the next element. */
  lemma TakePrefix<T>(s: seq<T>, i: nat)
    requires i < |s|
    ensures s[..i + 1][..i] == s[..i] && s[..i + 1][i] == s[i] && |s[..i + 1]| == i + 1
  {
  }

  /** Dropping the last element of a list grown by one. */
  lemma SnocTake<T>(s: seq<T>, x: T)
    ensures (s + [x])[..|s|] == s && (s + [x])[|s|] == x && |s + [x]| == |s| + 1
  {
  }

  /** The elements of `s` that `keep` accepts, in order: what a list
      comprehension with a condition builds. */
  function Filter<T>(s: seq<T>, keep: T -> bool): seq<T>
  {
    if s == [] then [] else (if keep(s[0]) then [s[0]] else []) + Filter(s[1..], keep)
  }

  /** Filtering keeps order: the filter of a concatenation is the
      concatenation of the filters. */
  lemma {:induction false} FilterAppend<T>(a: seq<T>, b: seq<T>, keep: T -> bool)
    ensures Filter(a + b, keep) == Filter(a, keep) + Filter(b, keep)
  {
    if a == [] {
      assert a + b == b;
    } else {
      var head := if keep(a[0]) then [a[0]] else [];
      assert (a + b)[0] == a[0];
      assert (a + b)[1..] == a[1..] + b;
      FilterAppend(a[1..], b, keep);
      ConcatAssoc(head, Filter(a[1..], keep), Filter(b, keep));
    }
  }

  /** Position `k` of a filtered list comes from some position `d` of the
      original, and filtering the part before `d` gives the first `k`. */
  lemma {:induction false} FilterIndex<T>(s: seq<T>, keep: T -> bool, k: nat)
    requires k < |Filter(s, keep)|
    ensures exists d :: 0 <= d < |s| && s[d] == Filter(s, keep)[k] &&
                        Filter(s[..d], keep) == Filter(s, keep)[..k]
  {
    var x := s[0];
    var rest := s[1..];
    var head := if keep(x) then [x] else [];
    var q := Filter(rest, keep);
    assert Filter(s, keep) == head + q;
    if keep(x) && k == 0 {
      assert s[..0] == [];
    } else {
      var k' := k - |head|;
      FilterIndex(rest, keep, k');
      var d' :| 0 <= d' < |rest| && rest[d'] == q[k'] && Filter(rest[..d'], keep) == q[..k'];
      var d := d' + 1;
      assert s[..d][0] == x && s[..d][1..] == rest[..d'];
      assert Filter(s[..d], keep) == head + q[..k'];
      assert s[d] == rest[d'];
      assert (head + q)[k] == q[k'];
      assert (head + q)[..k] == head + q[..k'];
    }
  }

  /** Every accepted element appears in the filtered list. */
  lemma {:induction false} FilterComplete<T>(s: seq<T>, keep: T -> bool, j: nat)
    requires j < |s| && keep(s[j])
    ensures exists m :: 0 <= m < |Filter(s, keep)| && Filter(s, keep)[m] == s[j]
  {
    var head := if keep(s[0]) then [s[0]] else [];
    var q := Filter(s[1..], keep);
    assert Filter(s, keep) == head + q;
    if j == 0 {
      assert (head + q)[0] == s[0];
    } else {
      FilterComplete(s[1..], keep, j - 1);
      var m :| 0 <= m < |q| && q[m] == s[1..][j - 1];
      assert (head + q)[m + |head|] == s[j];
    }
  }

  /** `d.get(k, default)` */
  function Get<V>(s: seq<(string, V)>, k: string, default: V): (v: V)
    ensures KeyIndex(s, k).None? ==> v == default
    ensures KeyIndex(s, k).Some? ==> v == s[KeyIndex(s, k).value].1
  {
    match KeyIndex(s, k)
    case None => default
    case Some(i) => s[i].1
  }

  /** The keys, in order. */
  function Keys<V>(s: seq<(string, V)>): (ks: seq<string>)
    ensures |ks| == |s| && forall i :: 0 <= i < |s| ==> ks[i] == s[i].0
  {
    seq(|s|, i requires 0 <= i < |s| => s[i].0)
  }
}
