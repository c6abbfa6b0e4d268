/**
 * The older client's view-model (Tasker's `TaskListViewModel`): the same
 * cache, dirty ids and debounce buffer as the menubar one, but its flush
 * sends the de-duplicated tasks whole instead of diffs.
 */
module LegacyStore {
  import opened Wrappers
  import opened Tasks
  import opened Keyed
  import opened LegacyTasks

  datatype ErrorMessage = FetchFailed | UpdateFailed

  datatype FetchOutcome = Fetched(tasks: seq<LegacyTask>, projects: seq<LegacyProject>, labels: seq<Label>) | FetchError

  function LegacySubtaskId(s: LegacySubtask): string
  {
    s.id
  }

  /** The parent with the subtask at index `j` flipped. */
  function ToggledSubtask(t: LegacyTask, j: nat): (r: LegacyTask)
    requires j < |t.subtasks|
    ensures |r.subtasks| == |t.subtasks|
    ensures r.subtasks[j].completed == !t.subtasks[j].completed
    ensures r.subtasks[j].(completed := t.subtasks[j].completed) == t.subtasks[j]
    ensures forall i :: 0 <= i < |t.subtasks| && i != j ==> r.subtasks[i] == t.subtasks[i]
    ensures r.(subtasks := t.subtasks) == t
  {
    var s := t.subtasks[j];
    t.(subtasks := t.subtasks[j := s.(completed := !s.completed)])
  }

  /** The parent `toggleSubtaskCompletion` writes back, if the parent and the subtask are found. */
  function SubtaskToggle(tasks: seq<LegacyTask>, parentId: string, subtaskId: string): Option<LegacyTask>
  {
    match FindFirst(tasks, LegacyId, parentId)
    case None => None
    case Some(p) =>
      match FirstIndex(p.subtasks, LegacySubtaskId, subtaskId)
      case None => None
      case Some(j) => Some(ToggledSubtask(p, j))
  }

  class LegacyTaskListViewModel {
    var allTasks: seq<LegacyTask>
    var allProjects: seq<LegacyProject>
    var allLabels: seq<Label>
    var isLoading: bool
    var errorMessage: Option<ErrorMessage>
    var selectedProjectID: Option<string>
    var selectedLabelIDs: set<string>
    var sortOption: SortOption
    var dirtyTaskIDs: set<string>
    /** The edits sent to the debounce subject since the last flush. */
    var pending: seq<LegacyTask>

    constructor()
      ensures allTasks == [] && allProjects == [] && allLabels == []
      ensures !isLoading && errorMessage == None
      ensures selectedProjectID == None && selectedLabelIDs == {} && sortOption == DefaultOrder
      ensures dirtyTaskIDs == {} && pending == []
    {
      allTasks := [];
      allProjects := [];
      allLabels := [];
      isLoading := false;
      errorMessage := None;
      selectedProjectID := None;
      selectedLabelIDs := {};
      sortOption := DefaultOrder;
      dirtyTaskIDs := {};
      pending := [];
    }

    function Filtered(today: int): seq<LegacyTask>
      reads this
    {
      FilteredTasks(allTasks, selectedProjectID, selectedLabelIDs, sortOption, today)
    }

    /** The synchronous half of `fetchData()`: a no-op while loading. */
    method BeginFetch() returns (started: bool)
      modifies this`isLoading, this`errorMessage
      ensures started == !old(isLoading)
      ensures isLoading
      ensures errorMessage == if started then None else old(errorMessage)
    {
      if isLoading {
        return false;
      }
      isLoading := true;
      errorMessage := None;
      return true;
    }

    /** The completion of `fetchData()`: the dirty-wins merge on success, the error otherwise. */
    method CompleteFetch(outcome: FetchOutcome)
      requires outcome.Fetched? ==> DirtyKeysUnique(allTasks, LegacyId, dirtyTaskIDs)
      modifies this`allTasks, this`allProjects, this`allLabels, this`errorMessage, this`isLoading
      ensures !isLoading
      ensures outcome.Fetched? ==>
        && allTasks == Merge(outcome.tasks, old(allTasks), LegacyId, dirtyTaskIDs)
        && allProjects == outcome.projects && allLabels == outcome.labels
        && errorMessage == old(errorMessage)
      ensures outcome.FetchError? ==>
        && allTasks == old(allTasks) && allProjects == old(allProjects) && allLabels == old(allLabels)
        && errorMessage == Some(FetchFailed)
    {
      match outcome {
        case Fetched(tasks, projects, labels) =>
          allTasks := Merge(tasks, allTasks, LegacyId, dirtyTaskIDs);
          allProjects := projects;
          allLabels := labels;
        case FetchError =>
          errorMessage := Some(FetchFailed);
      }
      isLoading := false;
    }

    /** `updateTask(_:)`: replace the first cached task with the id, mark it dirty, buffer the edit. */
    method UpdateTask(task: LegacyTask)
      modifies this`allTasks, this`dirtyTaskIDs, this`pending
      ensures allTasks == ReplaceFirst(old(allTasks), LegacyId, task)
      ensures dirtyTaskIDs == if task.id in KeysOf(old(allTasks), LegacyId) then old(dirtyTaskIDs) + {task.id} else old(dirtyTaskIDs)
      ensures pending == old(pending) + [task]
    {
      match FirstIndex(allTasks, LegacyId, task.id) {
        case Some(index) =>
          allTasks := allTasks[index := task];
          dirtyTaskIDs := dirtyTaskIDs + {task.id};
        case None =>
      }
      pending := pending + [task];
    }

    method ToggleTaskCompletion(task: LegacyTask)
      modifies this`allTasks, this`dirtyTaskIDs, this`pending
      ensures allTasks == ReplaceFirst(old(allTasks), LegacyId, task.(completed := !task.completed))
      ensures dirtyTaskIDs == if task.id in KeysOf(old(allTasks), LegacyId) then old(dirtyTaskIDs) + {task.id} else old(dirtyTaskIDs)
      ensures pending == old(pending) + [task.(completed := !task.completed)]
    {
      UpdateTask(task.(completed := !task.completed));
    }

    /** `toggleSubtaskCompletion(for:in:)`: a no-op when the parent or the subtask is not found. */
    method ToggleSubtaskCompletion(subtaskId: string, parentId: string)
      modifies this`allTasks, this`dirtyTaskIDs, this`pending
      ensures SubtaskToggle(old(allTasks), parentId, subtaskId).None? ==>
        allTasks == old(allTasks) && dirtyTaskIDs == old(dirtyTaskIDs) && pending == old(pending)
      ensures SubtaskToggle(old(allTasks), parentId, subtaskId).Some? ==>
        var u := SubtaskToggle(old(allTasks), parentId, subtaskId).value;
        && allTasks == ReplaceFirst(old(allTasks), LegacyId, u)
        && dirtyTaskIDs == old(dirtyTaskIDs) + {parentId}
        && pending == old(pending) + [u]
    {
      var parentIndex := FirstIndex(allTasks, LegacyId, parentId);
      if parentIndex.None? {
        return;
      }
      var pi := parentIndex.value;
      var subtaskIndex := FirstIndex(allTasks[pi].subtasks, LegacySubtaskId, subtaskId);
      if subtaskIndex.None? {
        return;
      }
      var updated := ToggledSubtask(allTasks[pi], subtaskIndex.value);
      allTasks := allTasks[pi := updated];
      assert FirstIndex(allTasks, LegacyId, parentId) == Some(pi) by {
        assert forall j :: 0 <= j < pi ==> allTasks[j] == old(allTasks)[j];
        FirstIndexAt(allTasks, LegacyId, parentId, pi);
      }
      UpdateTask(updated);
    }

    /**
     * The debounced sink with `sendUpdate(tasks:)`: nothing for an empty
     * buffer; otherwise the buffer de-duplicated by id is sent whole, one
     * task per edited id, each the last edit of that id.
     */
    method Flush() returns (batch: Option<seq<LegacyTask>>)
      modifies this`pending
      ensures pending == []
      ensures old(pending) == [] <==> batch.None?
      ensures batch.Some? ==>
        && UniqueKeys(batch.value, LegacyId)
        && KeysOf(batch.value, LegacyId) == KeysOf(old(pending), LegacyId)
        && forall i :: 0 <= i < |batch.value| ==> LastWithKey(old(pending), LegacyId, batch.value[i].id) == Some(batch.value[i])
    {
      if pending == [] {
        return None;
      }
      var unique := Coalesce(pending, LegacyId);
      assert pending[0].id in KeysOf(pending, LegacyId);
      pending := [];
      return Some(unique);
    }

    /** The completion of a flush: on success the batch's ids are no longer dirty; on failure the error is set. */
    method CompleteUpdate(ids: seq<string>, succeeded: bool)
      modifies this`dirtyTaskIDs, this`errorMessage
      ensures succeeded ==> dirtyTaskIDs == old(dirtyTaskIDs) - set id | id in ids && errorMessage == old(errorMessage)
      ensures !succeeded ==> dirtyTaskIDs == old(dirtyTaskIDs) && errorMessage == Some(UpdateFailed)
    {
      if !succeeded {
        errorMessage := Some(UpdateFailed);
        return;
      }
      for i := 0 to |ids|
        invariant dirtyTaskIDs == old(dirtyTaskIDs) - set id | id in ids[..i]
        invariant errorMessage == old(errorMessage)
      {
        assert ids[..i + 1] == ids[..i] + [ids[i]];
        dirtyTaskIDs := dirtyTaskIDs - {ids[i]};
      }
      assert ids[..|ids|] == ids;
    }

    method DismissError()
      modifies this`errorMessage
      ensures errorMessage == None
    {
      errorMessage := None;
    }
  }

  /**
   * Unlike the menubar flush, the legacy flush does send an edit made
   * through `updateTask`: the batch is exactly that edit. `Flush` stands
   * for the windowed collect of the debounced pipeline.
   */
  method EditThenFlush(vm: LegacyTaskListViewModel, task: LegacyTask) returns (batch: Option<seq<LegacyTask>>)
    requires vm.pending == []
    modifies vm
    ensures batch == Some([task])
  {
    vm.UpdateTask(task);
    assert vm.pending == [task];
    batch := vm.Flush();
    assert KeysOf([task], LegacyId) == {task.id} by {
      assert [task][0] == task;
    }
    UniqueKeysCount(batch.value, LegacyId);
    assert LastWithKey([task], LegacyId, batch.value[0].id) == Some(batch.value[0]);
    assert batch.value == [batch.value[0]];
  }
}
