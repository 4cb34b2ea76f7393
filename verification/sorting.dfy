/** A stable sort in descending order of a real-valued key.

    Both sorts of the modelled code go through `Array.prototype.sort` with a
    comparator of the shape `(a, b) => key(b) - key(a)`: the video list by
    publish time and the weight list by absolute value. The language
    guarantees that this sort is stable, so elements with equal keys keep
    their relative order. The model is an insertion sort on sequences. */
module Sorting {

  /** `s` is ordered by `key`, largest first. */
  ghost predicate SortedDesc<T>(s: seq<T>, key: T -> real) {
    forall i, j :: 0 <= i < j < |s| ==> key(s[i]) >= key(s[j])
  }

  /** The elements of `s` whose key is exactly `k`, in their order in `s`. */
  function WithKey<T>(s: seq<T>, key: T -> real, k: real): seq<T> {
    if |s| == 0 then []
    else if key(s[0]) == k then [s[0]] + WithKey(s[1..], key, k)
    else WithKey(s[1..], key, k)
  }

  /** Putting an element no smaller than the head in front of a sorted
      sequence keeps it sorted. */
  lemma SortedCons<T>(h: T, t: seq<T>, key: T -> real)
    ensures SortedDesc(t, key) && (|t| > 0 ==> key(h) >= key(t[0])) ==> SortedDesc([h] + t, key)
  {
    if SortedDesc(t, key) && (|t| > 0 ==> key(h) >= key(t[0])) {
      var r := [h] + t;
      forall i, j | 0 <= i < j < |r| ensures key(r[i]) >= key(r[j]) {
        assert r[j] == t[j - 1];
        if i == 0 {
          if j > 1 {
            assert key(t[0]) >= key(t[j - 1]);
          }
        } else {
          assert r[i] == t[i - 1];
        }
      }
    }
  }

  /** Inserts `x` into `s` in front of the first element whose key is not
      larger than `x`'s, so `x` goes before the elements it ties with. */
  function Insert<T>(x: T, s: seq<T>, key: T -> real): (r: seq<T>)
    ensures |r| == |s| + 1
    ensures multiset(r) == multiset(s) + multiset{x}
    ensures r[0] == x || (|s| > 0 && r[0] == s[0])
    ensures SortedDesc(s, key) ==> SortedDesc(r, key)
  {
    if |s| == 0 then [x]
    else if key(s[0]) <= key(x) then
      SortedCons(x, s, key);
      [x] + s
    else
      assert s == [s[0]] + s[1..];
      var tail := Insert(x, s[1..], key);
      assert SortedDesc(s, key) && |s| > 1 ==> key(s[0]) >= key(s[1]);
      SortedCons(s[0], tail, key);
      [s[0]] + tail
  }

  /** Sorts `s` by `key`, largest first, keeping ties in their input order. */
  function SortDesc<T>(s: seq<T>, key: T -> real): (r: seq<T>)
    ensures |r| == |s|
    ensures multiset(r) == multiset(s)
    ensures SortedDesc(r, key)
  {
    if |s| == 0 then []
    else
      assert s == [s[0]] + s[1..];
      Insert(s[0], SortDesc(s[1..], key), key)
  }

  /** Inserting `x` puts it in front of every element it ties with. */
  lemma {:induction false} WithKeyInsert<T>(x: T, s: seq<T>, key: T -> real, k: real)
    ensures WithKey(Insert(x, s, key), key, k)
         == (if key(x) == k then [x] + WithKey(s, key, k) else WithKey(s, key, k))
  {
    if |s| == 0 {
    } else if key(s[0]) <= key(x) {
      assert Insert(x, s, key)[1..] == s;
    } else {
      var r := Insert(x, s, key);
      assert r[0] == s[0] && r[1..] == Insert(x, s[1..], key);
      WithKeyInsert(x, s[1..], key, k);
    }
  }

  /** Stability: for every key value, the elements carrying it appear in the
      sorted output in the same order as in the input. */
  lemma {:induction false} SortDescStable<T>(s: seq<T>, key: T -> real, k: real)
    ensures WithKey(SortDesc(s, key), key, k) == WithKey(s, key, k)
  {
    if |s| != 0 {
      SortDescStable(s[1..], key, k);
      WithKeyInsert(s[0], SortDesc(s[1..], key), key, k);
    }
  }

  /** Every element of the input is in the output and vice versa. */
  lemma SortDescSameElements<T>(s: seq<T>, key: T -> real, x: T)
    ensures x in SortDesc(s, key) <==> x in s
  {
    var r := SortDesc(s, key);
    assert x in r <==> x in multiset(r);
    assert x in s <==> x in multiset(s);
  }

  /** Cutting a sorted sequence anywhere leaves no element behind the cut
      larger than an element in front of it. */
  lemma SortedFrontDominates<T>(s: seq<T>, key: T -> real, k: nat)
    requires SortedDesc(s, key) && k <= |s|
    ensures forall x, y :: x in s[..k] && y in s[k..] ==> key(x) >= key(y)
  {
    forall x, y | x in s[..k] && y in s[k..] ensures key(x) >= key(y) {
      var i :| 0 <= i < k && s[..k][i] == x;
      var j :| 0 <= j < |s| - k && s[k..][j] == y;
      assert s[i] == x && s[k + j] == y;
    }
  }

  /** Filtering a prefix by key gives a prefix of the filtered whole. */
  lemma {:induction false} WithKeyPrefix<T>(s: seq<T>, key: T -> real, m: real, k: nat)
    requires k <= |s|
    ensures var w := WithKey(s[..k], key, m);
      |w| <= |WithKey(s, key, m)| && w == WithKey(s, key, m)[..|w|]
  {
    if k > 0 {
      assert s[..k][0] == s[0] && s[..k][1..] == s[1..][..k - 1];
      WithKeyPrefix(s[1..], key, m, k - 1);
    }
  }
}
