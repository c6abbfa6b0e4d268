/**
 * Lists of records identified by a key (a task and its id). These are the
 * lookups both view-models use: Swift's `firstIndex(where: { $0.id == x })`,
 * `first(where:)`, the keyed replacement `allTasks[index] = task`, the
 * dictionary built with `uniquingKeysWith: { _, last in last }`, and the
 * dirty-wins merge of a refresh.
 */
module Keyed {
  import opened Wrappers

  /** The set of keys occurring in `s`. */
  function KeysOf<T, K>(s: seq<T>, key: T -> K): set<K>
  {
    set i | 0 <= i < |s| :: key(s[i])
  }

  /** No key occurs twice in `s`. */
  predicate UniqueKeys<T, K(==)>(s: seq<T>, key: T -> K)
  {
    forall i, j :: 0 <= i < j < |s| ==> key(s[i]) != key(s[j])
  }

  /** With distinct keys, there are as many keys as elements. */
  lemma {:induction false} UniqueKeysCount<T, K>(s: seq<T>, key: T -> K)
    requires UniqueKeys(s, key)
    ensures |KeysOf(s, key)| == |s|
    decreases |s|
  {
    if s == [] {
      assert KeysOf(s, key) == {};
    } else {
      var rest := s[1..];
      assert UniqueKeys(rest, key) by {
        forall i, j | 0 <= i < j < |rest| ensures key(rest[i]) != key(rest[j]) {
          assert rest[i] == s[i + 1] && rest[j] == s[j + 1];
        }
      }
      UniqueKeysCount(rest, key);
      assert KeysOf(s, key) == {key(s[0])} + KeysOf(rest, key) by {
        forall y | y in KeysOf(s, key) ensures y in {key(s[0])} + KeysOf(rest, key) {
          var j :| 0 <= j < |s| && key(s[j]) == y;
          if j > 0 { assert key(rest[j - 1]) == y; }
        }
        forall y | y in KeysOf(rest, key) ensures y in KeysOf(s, key) {
          var j :| 0 <= j < |rest| && key(rest[j]) == y;
          assert key(s[j + 1]) == y;
        }
      }
      assert key(s[0]) !in KeysOf(rest, key) by {
        forall j | 0 <= j < |rest| ensures key(rest[j]) != key(s[0]) {
          assert rest[j] == s[j + 1];
        }
      }
    }
  }

  /** Index of the first element with key `k`, if any (`firstIndex(where:)`). */
  function FirstIndex<T, K(==)>(s: seq<T>, key: T -> K, k: K): (r: Option<nat>)
    ensures r.Some? ==> r.value < |s| && key(s[r.value]) == k
    ensures r.Some? ==> forall j :: 0 <= j < r.value ==> key(s[j]) != k
    ensures r.None? <==> k !in KeysOf(s, key)
    decreases |s|
  {
    if s == [] then None
    else if key(s[0]) == k then Some(0)
    else
      var r := FirstIndex(s[1..], key, k);
      assert KeysOf(s, key) == {key(s[0])} + KeysOf(s[1..], key) by {
        forall x | x in KeysOf(s, key) ensures x in {key(s[0])} + KeysOf(s[1..], key) {
          var i :| 0 <= i < |s| && key(s[i]) == x;
          if i > 0 { assert key(s[1..][i - 1]) == x; }
        }
        forall x | x in KeysOf(s[1..], key) ensures x in KeysOf(s, key) {
          var i :| 0 <= i < |s[1..]| && key(s[1..][i]) == x;
          assert key(s[i + 1]) == x;
        }
      }
      match r
      case None => None
      case Some(i) => Some(i + 1)
  }

  /** The first element with key `k`, if any (`first(where:)`). */
  function FindFirst<T, K(==)>(s: seq<T>, key: T -> K, k: K): (r: Option<T>)
    ensures r.Some? <==> k in KeysOf(s, key)
    ensures r.Some? ==> r.value in s && key(r.value) == k
  {
    match FirstIndex(s, key, k)
    case None => None
    case Some(i) => Some(s[i])
  }

  /**
   * `if let index = s.firstIndex(where: { $0.id == x.id }) { s[index] = x }`:
   * the first element with `x`'s key is replaced by `x`; nothing is inserted.
   */
  function ReplaceFirst<T, K(==)>(s: seq<T>, key: T -> K, x: T): (r: seq<T>)
    ensures |r| == |s|
    ensures KeysOf(r, key) == KeysOf(s, key)
  {
    match FirstIndex(s, key, key(x))
    case None => s
    case Some(i) =>
      var r := s[i := x];
      assert KeysOf(r, key) == KeysOf(s, key) by {
        forall y | y in KeysOf(s, key) ensures y in KeysOf(r, key) {
          var j :| 0 <= j < |s| && key(s[j]) == y;
          assert key(r[j]) == y;
        }
      }
      r
  }

  /**
   * A keyed replacement changes only the first element with `x`'s key, which
   * afterwards is `x`; every position keeps its key, so distinct keys stay
   * distinct.
   */
  lemma ReplaceFirstSpec<T, K>(s: seq<T>, key: T -> K, x: T)
    ensures forall i :: 0 <= i < |s| ==> key(ReplaceFirst(s, key, x)[i]) == key(s[i])
    ensures forall i :: 0 <= i < |s| && FirstIndex(s, key, key(x)) != Some(i) ==> ReplaceFirst(s, key, x)[i] == s[i]
    ensures key(x) in KeysOf(s, key) ==> FindFirst(ReplaceFirst(s, key, x), key, key(x)) == Some(x)
    ensures key(x) !in KeysOf(s, key) ==> ReplaceFirst(s, key, x) == s
    ensures UniqueKeys(s, key) ==> UniqueKeys(ReplaceFirst(s, key, x), key)
  {
    var r := ReplaceFirst(s, key, x);
    match FirstIndex(s, key, key(x))
    case None =>
    case Some(i) =>
      assert forall j :: 0 <= j < i ==> r[j] == s[j];
      FirstIndexAt(r, key, key(x), i);
  }

  /** The last element of `s` with key `k`, if any. */
  function LastWithKey<T, K(==)>(s: seq<T>, key: T -> K, k: K): Option<T>
    decreases |s|
  {
    if s == [] then None
    else if key(s[|s| - 1]) == k then Some(s[|s| - 1])
    else LastWithKey(s[..|s| - 1], key, k)
  }

  lemma {:induction false} LastWithKeyPresent<T, K>(s: seq<T>, key: T -> K, k: K)
    ensures LastWithKey(s, key, k).Some? <==> k in KeysOf(s, key)
    ensures LastWithKey(s, key, k).Some? ==> key(LastWithKey(s, key, k).value) == k
    decreases |s|
  {
    if s != [] {
      var init := s[..|s| - 1];
      LastWithKeyPresent(init, key, k);
      assert KeysOf(s, key) == KeysOf(init, key) + {key(s[|s| - 1])} by {
        forall y | y in KeysOf(s, key) ensures y in KeysOf(init, key) + {key(s[|s| - 1])} {
          var j :| 0 <= j < |s| && key(s[j]) == y;
          if j < |s| - 1 { assert key(init[j]) == y; }
        }
        forall y | y in KeysOf(init, key) ensures y in KeysOf(s, key) {
          var j :| 0 <= j < |init| && key(init[j]) == y;
          assert key(s[j]) == y;
        }
      }
    }
  }

  /**
   * The de-duplication done before a flush:
   * `Dictionary(s.map { ($0.id, $0) }, uniquingKeysWith: { _, last in last }).values`.
   * One element per key, the last one given for that key. Swift leaves the
   * order of `.values` unspecified; this model lists keys in order of first
   * appearance.
   */
  function Coalesce<T, K(==)>(s: seq<T>, key: T -> K): (r: seq<T>)
    ensures UniqueKeys(r, key)
    ensures KeysOf(r, key) == KeysOf(s, key)
    ensures forall i :: 0 <= i < |r| ==> LastWithKey(s, key, key(r[i])) == Some(r[i])
    decreases |s|
  {
    if s == [] then []
    else
      var init := s[..|s| - 1];
      var x := s[|s| - 1];
      var rest := Coalesce(init, key);
      assert KeysOf(s, key) == KeysOf(init, key) + {key(x)} by {
        forall y | y in KeysOf(s, key) ensures y in KeysOf(init, key) + {key(x)} {
          var j :| 0 <= j < |s| && key(s[j]) == y;
          if j < |s| - 1 { assert key(init[j]) == y; }
        }
        forall y | y in KeysOf(init, key) ensures y in KeysOf(s, key) {
          var j :| 0 <= j < |init| && key(init[j]) == y;
          assert key(s[j]) == y;
        }
      }
      match FirstIndex(rest, key, key(x))
      case Some(i) =>
        var r := rest[i := x];
        assert KeysOf(r, key) == KeysOf(rest, key) by {
          forall y | y in KeysOf(rest, key) ensures y in KeysOf(r, key) {
            var j :| 0 <= j < |rest| && key(rest[j]) == y;
            assert key(r[j]) == y;
          }
        }
        r
      case None =>
        var r := rest + [x];
        assert KeysOf(r, key) == KeysOf(rest, key) + {key(x)} by {
          forall y | y in KeysOf(r, key) ensures y in KeysOf(rest, key) + {key(x)} {
            var j :| 0 <= j < |r| && key(r[j]) == y;
            if j < |rest| { assert key(rest[j]) == y; }
          }
          forall y | y in KeysOf(rest, key) ensures y in KeysOf(r, key) {
            var j :| 0 <= j < |rest| && key(rest[j]) == y;
            assert key(r[j]) == y;
          }
          assert key(r[|rest|]) == key(x);
        }
        r
  }

  /** The cache after `updateTask` was called with each of `edits` in turn. */
  function ApplyEdits<T, K(==)>(cache: seq<T>, key: T -> K, edits: seq<T>): seq<T>
    decreases |edits|
  {
    if edits == [] then cache
    else ReplaceFirst(ApplyEdits(cache, key, edits[..|edits| - 1]), key, edits[|edits| - 1])
  }

  /**
   * After a run of keyed replacements, the first element with a key that was
   * already cached is the last edit given for it; keys never cached stay absent.
   */
  lemma {:induction false} ApplyEditsLookup<T, K>(cache: seq<T>, key: T -> K, edits: seq<T>, k: K)
    ensures KeysOf(ApplyEdits(cache, key, edits), key) == KeysOf(cache, key)
    ensures FindFirst(ApplyEdits(cache, key, edits), key, k) ==
      if k in KeysOf(cache, key) && LastWithKey(edits, key, k).Some? then LastWithKey(edits, key, k)
      else FindFirst(cache, key, k)
    decreases |edits|
  {
    if edits != [] {
      var init := edits[..|edits| - 1];
      var x := edits[|edits| - 1];
      var before := ApplyEdits(cache, key, init);
      ApplyEditsLookup(cache, key, init, k);
      var after := ReplaceFirst(before, key, x);
      assert after == ApplyEdits(cache, key, edits);
      match FirstIndex(before, key, key(x))
      case None =>
      case Some(i) =>
        if key(x) == k {
          assert FirstIndex(after, key, k) == Some(i) by {
            assert key(after[i]) == k;
            assert forall j :: 0 <= j < i ==> after[j] == before[j];
            FirstIndexAt(after, key, k, i);
          }
        } else {
          assert FirstIndex(after, key, k) == FirstIndex(before, key, k) by {
            FirstIndexUnaffected(before, key, k, i, x);
          }
        }
    }
  }

  lemma {:induction false} FirstIndexAt<T, K>(s: seq<T>, key: T -> K, k: K, i: nat)
    requires i < |s| && key(s[i]) == k
    requires forall j :: 0 <= j < i ==> key(s[j]) != k
    ensures FirstIndex(s, key, k) == Some(i)
    decreases i
  {
    if i > 0 {
      FirstIndexAt(s[1..], key, k, i - 1);
    }
  }

  lemma {:induction false} FirstIndexUnaffected<T, K>(s: seq<T>, key: T -> K, k: K, i: nat, x: T)
    requires i < |s| && key(s[i]) == key(x) && key(x) != k
    ensures FirstIndex(s[i := x], key, k) == FirstIndex(s, key, k)
    decreases |s|
  {
    if s != [] && key(s[0]) != k && i > 0 {
      assert s[i := x][1..] == s[1..][i - 1 := x];
      FirstIndexUnaffected(s[1..], key, k, i - 1, x);
    }
  }

  /**
   * Precondition of `Dictionary(uniqueKeysWithValues:)` on the dirty cached
   * elements: it traps when two of them share a key.
   */
  predicate DirtyKeysUnique<T, K(==)>(cache: seq<T>, key: T -> K, dirty: set<K>)
  {
    forall i, j :: 0 <= i < j < |cache| && key(cache[i]) in dirty ==> key(cache[i]) != key(cache[j])
  }

  /**
   * The refresh merge: `serverTasks.map { dirtyTasksByID[$0.id] ?? $0 }`
   * where `dirtyTasksByID` holds the cached elements whose key is dirty.
   */
  function Merge<T, K(==)>(server: seq<T>, cache: seq<T>, key: T -> K, dirty: set<K>): (r: seq<T>)
    requires DirtyKeysUnique(cache, key, dirty)
    ensures |r| == |server|
    ensures forall i :: 0 <= i < |r| ==> key(r[i]) == key(server[i])
  {
    seq(|server|, i requires 0 <= i < |server| =>
      if key(server[i]) in dirty then FindFirst(cache, key, key(server[i])).GetOr(server[i]) else server[i])
  }

  /**
   * The merged list has the server's elements in the server's order, except
   * that an element whose key is dirty and cached is the cached copy.
   */
  lemma DirtyWins<T, K>(server: seq<T>, cache: seq<T>, key: T -> K, dirty: set<K>)
    requires DirtyKeysUnique(cache, key, dirty)
    ensures forall i :: 0 <= i < |server| ==> key(Merge(server, cache, key, dirty)[i]) == key(server[i])
    ensures forall i, j ::
              0 <= i < |server| && 0 <= j < |cache| && key(cache[j]) in dirty && key(cache[j]) == key(server[i]) ==>
                Merge(server, cache, key, dirty)[i] == cache[j]
    ensures forall i ::
              0 <= i < |server| && (key(server[i]) !in dirty || key(server[i]) !in KeysOf(cache, key)) ==>
                Merge(server, cache, key, dirty)[i] == server[i]
  {
    var r := Merge(server, cache, key, dirty);
    forall i, j | 0 <= i < |server| && 0 <= j < |cache| && key(cache[j]) in dirty && key(cache[j]) == key(server[i])
      ensures r[i] == cache[j]
    {
      var k := key(server[i]);
      assert k in KeysOf(cache, key);
      var f :| FirstIndex(cache, key, k) == Some(f);
      assert key(cache[f]) == k && k in dirty;
      assert f == j;
    }
  }
}
