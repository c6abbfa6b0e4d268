/**
 * Sorting by an optional key with the menubar view-model's `comparison`:
 * present keys compare with `<`, a present key sorts before an absent one,
 * and two absent keys are "not less" either way.
 */
module Sorting {
  import opened Wrappers

  /** `comparison(obj1:obj2:keyPath:)` applied to the two keys. */
  predicate Comparison(a: Option<int>, b: Option<int>)
  {
    match (a, b)
    case (Some(x), Some(y)) => x < y
    case (None, None) => false
    case (None, Some(_)) => false
    case (Some(_), None) => true
  }

  /** `Comparison` is a strict weak order: irreflexive, asymmetric, and its complement is transitive. */
  lemma ComparisonIsStrictWeakOrder(a: Option<int>, b: Option<int>, c: Option<int>)
    ensures !Comparison(a, a)
    ensures Comparison(a, b) ==> !Comparison(b, a)
    ensures !Comparison(b, a) && !Comparison(c, b) ==> !Comparison(c, a)
  {
  }

  /** No element is strictly less than one before it. */
  predicate Sorted<T>(s: seq<T>, rank: T -> Option<int>)
  {
    forall i, j :: 0 <= i < j < |s| ==> !Comparison(rank(s[j]), rank(s[i]))
  }

  /** No element of `s` is strictly less than the key `k`. */
  predicate AtLeast<T>(s: seq<T>, rank: T -> Option<int>, k: Option<int>)
  {
    forall i :: 0 <= i < |s| ==> !Comparison(rank(s[i]), k)
  }

  lemma SortedCons<T>(a: T, s: seq<T>, rank: T -> Option<int>)
    ensures Sorted([a] + s, rank) <==> Sorted(s, rank) && AtLeast(s, rank, rank(a))
  {
    var r := [a] + s;
    if Sorted(s, rank) && AtLeast(s, rank, rank(a)) {
      forall i, j | 0 <= i < j < |r| ensures !Comparison(rank(r[j]), rank(r[i])) {
        if i > 0 { assert r[i] == s[i - 1] && r[j] == s[j - 1]; }
      }
    }
    if Sorted(r, rank) {
      forall i | 0 <= i < |s| ensures !Comparison(rank(s[i]), rank(a)) {
        assert r[0] == a && r[i + 1] == s[i];
      }
      forall i, j | 0 <= i < j < |s| ensures !Comparison(rank(s[j]), rank(s[i])) {
        assert r[i + 1] == s[i] && r[j + 1] == s[j];
      }
    }
  }

  /** Places `x` before the first element that is not less than it. */
  function Insert<T(==)>(x: T, s: seq<T>, rank: T -> Option<int>): (r: seq<T>)
    requires Sorted(s, rank)
    ensures Sorted(r, rank)
    ensures multiset(r) == multiset(s) + multiset{x}
    ensures forall k :: AtLeast(s, rank, k) && !Comparison(rank(x), k) ==> AtLeast(r, rank, k)
    decreases |s|
  {
    if s == [] then [x]
    else
      SortedCons(s[0], s[1..], rank);
      assert s == [s[0]] + s[1..];
      if !Comparison(rank(s[0]), rank(x)) then
        assert AtLeast(s, rank, rank(x)) by {
          forall j | 1 <= j < |s| ensures !Comparison(rank(s[j]), rank(x)) {
            ComparisonIsStrictWeakOrder(rank(x), rank(s[0]), rank(s[j]));
          }
        }
        SortedCons(x, s, rank);
        [x] + s
      else
        var rest := Insert(x, s[1..], rank);
        ComparisonIsStrictWeakOrder(rank(s[0]), rank(x), rank(x));
        SortedCons(s[0], rest, rank);
        [s[0]] + rest
  }

  /**
   * `tasks.sort { comparison(...) }`. Insertion sort; it is stable, which
   * Swift's `sort` does not promise, so only sortedness and the permutation
   * are properties of the source.
   */
  function SortBy<T(==)>(s: seq<T>, rank: T -> Option<int>): (r: seq<T>)
    ensures Sorted(r, rank)
    ensures multiset(r) == multiset(s)
    decreases |s|
  {
    if s == [] then []
    else
      assert s == [s[0]] + s[1..];
      Insert(s[0], SortBy(s[1..], rank), rank)
  }

  /** In a sorted list every element with a key precedes every element without one. */
  lemma PresentKeysFirst<T>(s: seq<T>, rank: T -> Option<int>, i: int, j: int)
    requires Sorted(s, rank)
    requires 0 <= i < j < |s| && rank(s[j]).Some?
    ensures rank(s[i]).Some?
  {
  }
}
