/**
 * The debounced write-back of the menubar client: the edits buffered during
 * one quiet window are de-duplicated by id (last edit wins), one diff per
 * task is computed, empty diffs are dropped and what remains goes out as one
 * batch (`setupDebouncer` and `sendUpdate(tasks:)`).
 *
 * `FlushAsWritten` diffs against the cache as it is at flush time, as the
 * source does. Because every buffered edit was already written into that
 * cache by `updateTask`, such a flush never sends anything
 * (`DebouncedEditsNeverSent`). `FlushIntended` diffs against the values the
 * cache held before the window's first edit to each task, recorded by
 * `WindowOriginals`; with it the last edit to each task is sent exactly once
 * (`FlushIntendedSendsLastEdit`).
 */
module WriteBack {
  import opened Wrappers
  import opened Tasks
  import opened Keyed
  import opened TaskDiff

  /** The body, if any, `sendUpdate` computes for one task against `cache` (the `compactMap` step). */
  function Emit(t: TodoTask, cache: seq<TodoTask>): seq<Patch>
  {
    match FindFirst(cache, TaskId, t.id)
    case None => []
    case Some(o) =>
      var d := CreateDiff(o, t);
      if |d| > 1 then [d] else []
  }

  function Patches(tasks: seq<TodoTask>, cache: seq<TodoTask>): (r: seq<Patch>)
    ensures |r| <= |tasks|
    decreases |tasks|
  {
    if tasks == [] then [] else Emit(tasks[0], cache) + Patches(tasks[1..], cache)
  }

  /** `tasks.map { $0.id }`. */
  function Ids(tasks: seq<TodoTask>): (r: seq<string>)
    ensures |r| == |tasks|
    ensures forall i :: 0 <= i < |r| ==> r[i] == tasks[i].id
  {
    seq(|tasks|, i requires 0 <= i < |tasks| => tasks[i].id)
  }

  /** One batched call of `updateTasks`, and the ids whose dirty marks its success clears. */
  datatype UpdateRequest = UpdateRequest(patches: seq<Patch>, ids: seq<string>)

  /** `sendUpdate(tasks:)`: nothing for an empty batch or when every diff is empty. */
  function SendUpdate(tasks: seq<TodoTask>, cache: seq<TodoTask>): (r: Option<UpdateRequest>)
    ensures r.Some? ==> r.value.patches == Patches(tasks, cache) != [] && r.value.ids == Ids(tasks)
    ensures r.None? ==> Patches(tasks, cache) == []
  {
    if tasks == [] then None
    else
      var diffs := Patches(tasks, cache);
      if diffs == [] then None else Some(UpdateRequest(diffs, Ids(tasks)))
  }

  /** The bodies in `ps` addressed to the task with id `k`. */
  function PatchesFor(ps: seq<Patch>, k: string): seq<Patch>
    decreases |ps|
  {
    if ps == [] then []
    else (if "id" in ps[0] && ps[0]["id"] == PString(k) then [ps[0]] else []) + PatchesFor(ps[1..], k)
  }

  lemma {:induction false} PatchesForAppend(a: seq<Patch>, b: seq<Patch>, k: string)
    ensures PatchesFor(a + b, k) == PatchesFor(a, k) + PatchesFor(b, k)
    decreases |a|
  {
    if a != [] {
      assert (a + b)[1..] == a[1..] + b;
      PatchesForAppend(a[1..], b, k);
    } else {
      assert a + b == b;
    }
  }

  /**
   * For a batch with distinct ids, the bodies addressed to `k` are one diff
   * from `k`'s entry in `cache` to `k`'s entry in the batch, when both exist
   * and differ in a compared field, and none otherwise.
   */
  lemma {:induction false} PatchesPerId(tasks: seq<TodoTask>, cache: seq<TodoTask>, k: string)
    requires UniqueKeys(tasks, TaskId)
    ensures PatchesFor(Patches(tasks, cache), k) ==
      var t := FindFirst(tasks, TaskId, k);
      var o := FindFirst(cache, TaskId, k);
      if t.Some? && o.Some? && !SameAsSeenByDiff(o.value, t.value) then [CreateDiff(o.value, t.value)] else []
    decreases |tasks|
  {
    if tasks != [] {
      var t0, rest := tasks[0], tasks[1..];
      assert UniqueKeys(rest, TaskId) by {
        forall i, j | 0 <= i < j < |rest| ensures rest[i].id != rest[j].id {
          assert rest[i] == tasks[i + 1] && rest[j] == tasks[j + 1];
        }
      }
      PatchesPerId(rest, cache, k);
      PatchesForAppend(Emit(t0, cache), Patches(rest, cache), k);
      var o := FindFirst(cache, TaskId, t0.id);
      if o.Some? {
        NoChangeDetected(o.value, t0);
      }
    }
  }

  /** Every task of the batch produces an empty diff against `cache`. */
  lemma {:induction false} NothingToSend(tasks: seq<TodoTask>, cache: seq<TodoTask>)
    requires forall i :: 0 <= i < |tasks| ==> Emit(tasks[i], cache) == []
    ensures Patches(tasks, cache) == []
    decreases |tasks|
  {
    if tasks != [] {
      assert forall i :: 0 <= i < |tasks| - 1 ==> tasks[1..][i] == tasks[i + 1];
      NothingToSend(tasks[1..], cache);
    }
  }

  /** The debounced sink as written: coalesce the window's edits, then `sendUpdate` against the current cache. */
  function FlushAsWritten(buffer: seq<TodoTask>, cacheAtFlush: seq<TodoTask>): Option<UpdateRequest>
  {
    SendUpdate(Coalesce(buffer, TaskId), cacheAtFlush)
  }

  /**
   * The discrepancy: when the cache at flush time is the cache after the
   * window's `updateTask` calls, every coalesced task equals its cached copy,
   * so no diff survives and no request is sent, whatever was edited.
   */
  lemma DebouncedEditsNeverSent(cache: seq<TodoTask>, buffer: seq<TodoTask>)
    ensures FlushAsWritten(buffer, ApplyEdits(cache, TaskId, buffer)) == None
  {
    var after := ApplyEdits(cache, TaskId, buffer);
    var tasks := Coalesce(buffer, TaskId);
    forall i | 0 <= i < |tasks| ensures Emit(tasks[i], after) == [] {
      var t := tasks[i];
      ApplyEditsLookup(cache, TaskId, buffer, t.id);
      var o := FindFirst(after, TaskId, t.id);
      if o.Some? {
        assert LastWithKey(buffer, TaskId, t.id) == Some(t);
        assert o.value == t;
        NoChangeDetected(t, t);
      }
    }
    NothingToSend(tasks, after);
  }

  /** A concrete instance: one edit of a title, to a task the cache holds, is never sent. */
  lemma TitleEditNotSent()
    ensures var t := TodoTask("a", "old", None, None, None, None, None, None, [], []);
      var e := t.(title := "new");
      FlushAsWritten([e], ApplyEdits([t], TaskId, [e])) == None
  {
    var t := TodoTask("a", "old", None, None, None, None, None, None, [], []);
    var e := t.(title := "new");
    DebouncedEditsNeverSent([t], [e]);
  }

  lemma {:induction false} KeysOfSnoc(s: seq<TodoTask>, x: TodoTask)
    ensures KeysOf(s + [x], TaskId) == KeysOf(s, TaskId) + {x.id}
  {
    var r := s + [x];
    forall y | y in KeysOf(r, TaskId) ensures y in KeysOf(s, TaskId) + {x.id} {
      var j :| 0 <= j < |r| && r[j].id == y;
      if j < |s| { assert s[j].id == y; }
    }
    forall y | y in KeysOf(s, TaskId) ensures y in KeysOf(r, TaskId) {
      var j :| 0 <= j < |s| && s[j].id == y;
      assert r[j].id == y;
    }
    assert r[|s|].id == x.id;
  }

  lemma {:induction false} FindFirstSnoc(s: seq<TodoTask>, x: TodoTask, k: string)
    ensures FindFirst(s + [x], TaskId, k) ==
      if k in KeysOf(s, TaskId) then FindFirst(s, TaskId, k) else if x.id == k then Some(x) else None
  {
    KeysOfSnoc(s, x);
    match FirstIndex(s, TaskId, k)
    case Some(i) =>
      assert forall j :: 0 <= j <= i ==> (s + [x])[j] == s[j];
      FirstIndexAt(s + [x], TaskId, k, i);
    case None =>
      if x.id == k {
        assert forall j :: 0 <= j < |s| ==> (s + [x])[j].id == s[j].id && s[j].id != k;
        FirstIndexAt(s + [x], TaskId, k, |s|);
      }
  }

  /**
   * The pre-edit values a corrected `updateTask` would record: on the first
   * edit of a cached task in the window, its cached value before the edit.
   */
  function WindowOriginals(cache: seq<TodoTask>, edits: seq<TodoTask>): seq<TodoTask>
    decreases |edits|
  {
    if edits == [] then []
    else
      var init, e := edits[..|edits| - 1], edits[|edits| - 1];
      var originals := WindowOriginals(cache, init);
      if e.id in KeysOf(originals, TaskId) then originals
      else match FindFirst(ApplyEdits(cache, TaskId, init), TaskId, e.id)
        case None => originals
        case Some(o) => originals + [o]
  }

  /** The recorded original of every edited task is its value at the start of the window. */
  lemma {:induction false} WindowOriginalsLookup(cache: seq<TodoTask>, edits: seq<TodoTask>, k: string)
    ensures FindFirst(WindowOriginals(cache, edits), TaskId, k) ==
      if k in KeysOf(edits, TaskId) then FindFirst(cache, TaskId, k) else None
    decreases |edits|
  {
    if edits == [] {
      assert KeysOf(edits, TaskId) == {};
    } else {
      var init, e := edits[..|edits| - 1], edits[|edits| - 1];
      assert edits == init + [e];
      KeysOfSnoc(init, e);
      var originals := WindowOriginals(cache, init);
      WindowOriginalsLookup(cache, init, k);
      WindowOriginalsLookup(cache, init, e.id);
      if e.id !in KeysOf(originals, TaskId) {
        ApplyEditsLookup(cache, TaskId, init, e.id);
        LastWithKeyPresent(init, TaskId, e.id);
        var current := FindFirst(ApplyEdits(cache, TaskId, init), TaskId, e.id);
        assert current == FindFirst(cache, TaskId, e.id);
        if current.Some? {
          FindFirstSnoc(originals, current.value, k);
        }
      }
    }
  }

  /** The corrected flush: each coalesced task is diffed against its recorded original. */
  function FlushIntended(buffer: seq<TodoTask>, originals: seq<TodoTask>): Option<UpdateRequest>
  {
    SendUpdate(Coalesce(buffer, TaskId), originals)
  }

  /**
   * With the originals recorded during the window, the batch holds, for
   * every task the window edited and the cache held, exactly one body: the
   * diff from its value at the start of the window to its last edit, unless
   * that edit changed no compared field. No other task is addressed.
   */
  lemma FlushIntendedSendsLastEdit(cache: seq<TodoTask>, buffer: seq<TodoTask>, k: string)
    ensures var r := FlushIntended(buffer, WindowOriginals(cache, buffer));
      var o := FindFirst(cache, TaskId, k);
      var last := LastWithKey(buffer, TaskId, k);
      var expected := if o.Some? && last.Some? && !SameAsSeenByDiff(o.value, last.value)
        then [CreateDiff(o.value, last.value)] else [];
      (r.Some? ==> PatchesFor(r.value.patches, k) == expected) && (r.None? ==> expected == [])
  {
    var originals := WindowOriginals(cache, buffer);
    var tasks := Coalesce(buffer, TaskId);
    PatchesPerId(tasks, originals, k);
    WindowOriginalsLookup(cache, buffer, k);
    LastWithKeyPresent(buffer, TaskId, k);
    var t := FindFirst(tasks, TaskId, k);
    if t.Some? {
      var i :| FirstIndex(tasks, TaskId, k) == Some(i);
      assert LastWithKey(buffer, TaskId, tasks[i].id) == Some(tasks[i]);
    }
  }

  /**
   * Two edits of one cached task in a window produce exactly one body, the
   * diff from the task's value before the window to the later edit.
   */
  lemma DebounceCoalescing(o: TodoTask, e1: TodoTask, e2: TodoTask)
    requires e1.id == o.id && e2.id == o.id
    requires !SameAsSeenByDiff(o, e2)
    ensures FlushIntended([e1, e2], WindowOriginals([o], [e1, e2])) ==
      Some(UpdateRequest([CreateDiff(o, e2)], [o.id]))
  {
    var buffer := [e1, e2];
    var tasks := Coalesce(buffer, TaskId);
    assert KeysOf(buffer, TaskId) == {o.id};
    UniqueKeysCount(tasks, TaskId);
    assert LastWithKey(buffer, TaskId, tasks[0].id) == Some(tasks[0]);
    assert tasks[0] == e2;
    var originals := WindowOriginals([o], buffer);
    WindowOriginalsLookup([o], buffer, o.id);
    assert FindFirst(originals, TaskId, o.id) == Some(o);
    NoChangeDetected(o, e2);
    assert tasks == [e2];
    assert Emit(e2, originals) == [CreateDiff(o, e2)];
    assert Patches(tasks, originals) == [CreateDiff(o, e2)];
    assert Ids(tasks) == [o.id];
  }
}
