/** The three JavaScript array queries the scheduling store is built from
    (`Array.prototype.filter`, `some` and `find`), as total functions over
    sequences, together with the order and pairwise facts the store's
    invariants are stated in.
 */
module Seqs {

  datatype Option<T> = None | Some(value: T)

  /** `r` can be obtained from `s` by deleting elements: its elements occur
      in `s` in the same relative order. */
  ghost predicate IsSubsequence<T>(r: seq<T>, s: seq<T>)
    decreases |s|
  {
    if r == [] then true
    else if s == [] then false
    else (r[0] == s[0] && IsSubsequence(r[1..], s[1..])) || IsSubsequence(r, s[1..])
  }

  /** Every two elements of `s`, taken in order, are related by `rel`. */
  ghost predicate Pairwise<T>(s: seq<T>, rel: (T, T) -> bool) {
    forall j, k :: 0 <= j < k < |s| ==> rel(s[j], s[k])
  }

  /** `s.some(p)`: true exactly when some element satisfies `p`. */
  function Any<T>(s: seq<T>, p: T -> bool): (r: bool)
    ensures r <==> exists k :: 0 <= k < |s| && p(s[k])
  {
    if s == [] then false
    else
      var rest := Any(s[1..], p);
      assert rest ==> exists k :: 0 <= k < |s| && p(s[k]) by {
        if rest {
          var k :| 0 <= k < |s[1..]| && p(s[1..][k]);
          assert s[k + 1] == s[1..][k];
        }
      }
      assert (exists k :: 0 <= k < |s| && p(s[k])) ==> p(s[0]) || rest by {
        if exists k :: 0 <= k < |s| && p(s[k]) {
          var k :| 0 <= k < |s| && p(s[k]);
          if k > 0 { assert s[1..][k - 1] == s[k]; }
        }
      }
      p(s[0]) || rest
  }

  /** `s.filter(p)`: the elements satisfying `p`, each as often as in `s`,
      in their original order. */
  function Filter<T(!new)>(s: seq<T>, p: T -> bool): (r: seq<T>)
    ensures |r| <= |s|
    ensures forall x :: x in r <==> x in s && p(x)
    ensures forall x :: multiset(r)[x] == if p(x) then multiset(s)[x] else 0
    ensures IsSubsequence(r, s)
  {
    if s == [] then []
    else
      var rest := Filter(s[1..], p);
      assert s == [s[0]] + s[1..];
      if p(s[0]) then
        var r := [s[0]] + rest;
        assert r[1..] == rest;
        r
      else rest
  }

  /** `s.find(p)`: the first element satisfying `p`, or `None` (JavaScript's
      `undefined`) when there is none. */
  function Find<T>(s: seq<T>, p: T -> bool): (r: Option<T>)
    ensures r.None? <==> forall k :: 0 <= k < |s| ==> !p(s[k])
    ensures r.Some? ==> exists k :: 0 <= k < |s| && s[k] == r.value && p(s[k]) &&
                                    forall j :: 0 <= j < k ==> !p(s[j])
  {
    if s == [] then None
    else if p(s[0]) then Some(s[0])
    else
      var rest := Find(s[1..], p);
      assert forall k :: 1 <= k < |s| ==> s[k] == s[1..][k - 1];
      assert rest.Some? ==> exists k :: 0 <= k < |s| && s[k] == rest.value && p(s[k]) &&
                                        forall j :: 0 <= j < k ==> !p(s[j]) by {
        if rest.Some? {
          var k :| 0 <= k < |s[1..]| && s[1..][k] == rest.value && p(s[1..][k]) &&
                   forall j :: 0 <= j < k ==> !p(s[1..][j]);
          assert s[k + 1] == rest.value && p(s[k + 1]);
          assert forall j :: 0 <= j < k + 1 ==> !p(s[j]);
        }
      }
      rest
  }

  /** Filtering with a test every element passes changes nothing. */
  lemma {:induction false} FilterKeepsAll<T(!new)>(s: seq<T>, p: T -> bool)
    requires forall k :: 0 <= k < |s| ==> p(s[k])
    ensures Filter(s, p) == s
  {
    if s != [] {
      FilterKeepsAll(s[1..], p);
      assert s == [s[0]] + s[1..];
    }
  }

  /** Filtering distributes over concatenation. */
  lemma {:induction false} FilterAppend<T(!new)>(a: seq<T>, b: seq<T>, p: T -> bool)
    ensures Filter(a + b, p) == Filter(a, p) + Filter(b, p)
  {
    if a == [] {
      assert a + b == b;
    } else {
      assert (a + b)[0] == a[0];
      assert (a + b)[1..] == a[1..] + b;
      FilterAppend(a[1..], b, p);
    }
  }

  lemma PairwiseCons<T>(a: T, t: seq<T>, rel: (T, T) -> bool)
    requires Pairwise(t, rel)
    requires forall x :: x in t ==> rel(a, x)
    ensures Pairwise([a] + t, rel)
  {
    var s := [a] + t;
    forall j, k | 0 <= j < k < |s| ensures rel(s[j], s[k]) {
      assert s[k] == t[k - 1];
      if j > 0 { assert s[j] == t[j - 1]; }
    }
  }

  lemma PairwiseSnoc<T>(t: seq<T>, a: T, rel: (T, T) -> bool)
    requires Pairwise(t, rel)
    requires forall x :: x in t ==> rel(x, a)
    ensures Pairwise(t + [a], rel)
  {
    var s := t + [a];
    forall j, k | 0 <= j < k < |s| ensures rel(s[j], s[k]) {
      assert s[j] == t[j];
      if k < |t| { assert s[k] == t[k]; }
    }
  }

  /** Removing elements keeps every pair related: whatever holds between
      any two elements of `s` holds between any two that `filter` keeps. */
  lemma {:induction false} FilterPreservesPairwise<T(!new)>(s: seq<T>, p: T -> bool, rel: (T, T) -> bool)
    requires Pairwise(s, rel)
    ensures Pairwise(Filter(s, p), rel)
  {
    if s != [] {
      var tail := s[1..];
      assert Pairwise(tail, rel) by {
        forall j, k | 0 <= j < k < |tail| ensures rel(tail[j], tail[k]) {
          assert tail[j] == s[j + 1] && tail[k] == s[k + 1];
        }
      }
      FilterPreservesPairwise(tail, p, rel);
      if p(s[0]) {
        forall x | x in Filter(tail, p) ensures rel(s[0], x) {
          var k :| 0 <= k < |tail| && tail[k] == x;
          assert s[k + 1] == x;
        }
        PairwiseCons(s[0], Filter(tail, p), rel);
      }
    }
  }
}
