/** Generic helpers over sequences of table rows: filtering and key uniqueness. */
module Rows {

  /** The rows of `s` that satisfy `keep`, in their original order (a SQL `WHERE`). */
  function Filter<T(!new)>(s: seq<T>, keep: T -> bool): (r: seq<T>)
    ensures |r| <= |s|
    ensures forall x :: x in r <==> x in s && keep(x)
  {
    if s == [] then []
    else (if keep(s[0]) then [s[0]] else []) + Filter(s[1..], keep)
  }

  /** No two rows of `s` agree on `key`: the key is a primary key of the table. */
  ghost predicate UniqueBy<T, K>(s: seq<T>, key: T -> K)
  {
    forall i, j :: 0 <= i < j < |s| ==> key(s[i]) != key(s[j])
  }

  /** Some row of `s` has key `k`. */
  predicate KeyTaken<T, K(==)>(s: seq<T>, key: T -> K, k: K)
  {
    exists i :: 0 <= i < |s| && key(s[i]) == k
  }

  /** Appending a row whose key is not yet taken keeps the key unique. */
  lemma AppendPreservesUniqueBy<T, K>(s: seq<T>, key: T -> K, x: T)
    requires UniqueBy(s, key)
    requires !KeyTaken(s, key, key(x))
    ensures UniqueBy(s + [x], key)
  {
    var t := s + [x];
    forall i, j | 0 <= i < j < |t| ensures key(t[i]) != key(t[j]) {
      if j == |s| {
        assert key(s[i]) == key(t[i]);
      }
    }
  }

  /** Deleting rows (keeping a subsequence) never breaks the uniqueness of a key. */
  lemma {:induction false} FilterPreservesUniqueBy<T(!new), K>(s: seq<T>, keep: T -> bool, key: T -> K)
    requires UniqueBy(s, key)
    ensures UniqueBy(Filter(s, keep), key)
  {
    if s != [] {
      var tail := s[1..];
      assert UniqueBy(tail, key) by {
        forall i, j | 0 <= i < j < |tail| ensures key(tail[i]) != key(tail[j]) {
          assert key(s[i + 1]) != key(s[j + 1]);
        }
      }
      FilterPreservesUniqueBy(tail, keep, key);
      var ft := Filter(tail, keep);
      if keep(s[0]) {
        var r := [s[0]] + ft;
        assert Filter(s, keep) == r;
        forall i, j | 0 <= i < j < |r| ensures key(r[i]) != key(r[j]) {
          if i == 0 {
            assert r[j] in tail;
            var m :| 0 <= m < |tail| && tail[m] == r[j];
            assert key(s[0]) != key(s[m + 1]);
          } else {
            assert r[i] == ft[i - 1] && r[j] == ft[j - 1];
          }
        }
      } else {
        assert Filter(s, keep) == ft;
      }
    }
  }
}
