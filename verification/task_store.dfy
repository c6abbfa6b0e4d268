/**
 * The menubar view-model (`TaskListViewModel`): the task cache, the dirty
 * ids, the pagination cursor and the selections, changed in place by its
 * methods. The asynchronous halves of `fetchData`, `updateTaskImmediately`
 * and `sendUpdate` are separate methods that take the network outcome as a
 * parameter, and the debounce subject is the `pending` buffer that `Flush`
 * empties.
 */
module TaskStore {
  import opened Wrappers
  import opened Tasks
  import opened Keyed
  import opened TaskDiff
  import TaskView
  import opened WriteBack
  import Settings

  datatype ErrorMessage = FetchFailed | UpdateFailed

  /** The result of `fetchTasks()`. */
  datatype FetchOutcome = Fetched(tasks: seq<TodoTask>, projects: seq<Project>, labels: seq<Label>) | FetchError

  function SubtaskId(s: Subtask): string
  {
    s.id
  }

  /** `completed.toggle()` on a task, reading an absent flag as false. */
  function ToggledTask(t: TodoTask): (r: TodoTask)
    ensures IsCompleted(r) == !IsCompleted(t)
    ensures r.completed.Some?
    ensures r.(completed := t.completed) == t
  {
    t.(completed := Some(!IsCompleted(t)))
  }

  /** The parent task with the subtask at index `j` toggled. */
  function ToggledSubtask(t: TodoTask, j: nat): (r: TodoTask)
    requires j < |t.subtasks|
    ensures |r.subtasks| == |t.subtasks|
    ensures SubtaskDone(r.subtasks[j]) == !SubtaskDone(t.subtasks[j])
    ensures r.subtasks[j].(completed := t.subtasks[j].completed) == t.subtasks[j]
    ensures forall i :: 0 <= i < |t.subtasks| && i != j ==> r.subtasks[i] == t.subtasks[i]
    ensures r.(subtasks := t.subtasks) == t
  {
    var s := t.subtasks[j];
    t.(subtasks := t.subtasks[j := s.(completed := Some(!SubtaskDone(s)))])
  }

  /** The parent `toggleSubtaskCompletion` writes back, if both the parent and the subtask are found. */
  function SubtaskToggle(tasks: seq<TodoTask>, parentId: string, subtaskId: string): Option<TodoTask>
  {
    match FindFirst(tasks, TaskId, parentId)
    case None => None
    case Some(p) =>
      match FirstIndex(p.subtasks, SubtaskId, subtaskId)
      case None => None
      case Some(j) => Some(ToggledSubtask(p, j))
  }

  /** Toggling a subtask flips exactly that subtask of the cached parent and nothing else. */
  lemma SubtaskToggleSpec(tasks: seq<TodoTask>, parentId: string, subtaskId: string)
    ensures SubtaskToggle(tasks, parentId, subtaskId).None? <==>
      parentId !in KeysOf(tasks, TaskId) || subtaskId !in KeysOf(FindFirst(tasks, TaskId, parentId).value.subtasks, SubtaskId)
    ensures SubtaskToggle(tasks, parentId, subtaskId).Some? ==>
      var p := FindFirst(tasks, TaskId, parentId).value;
      var u := SubtaskToggle(tasks, parentId, subtaskId).value;
      && u.id == parentId
      && u.(subtasks := p.subtasks) == p
      && |u.subtasks| == |p.subtasks|
      && (forall i :: 0 <= i < |p.subtasks| ==>
            if p.subtasks[i].id == subtaskId && (forall h :: 0 <= h < i ==> p.subtasks[h].id != subtaskId)
            then SubtaskDone(u.subtasks[i]) == !SubtaskDone(p.subtasks[i])
            else u.subtasks[i] == p.subtasks[i])
  {
    match FindFirst(tasks, TaskId, parentId)
    case None =>
    case Some(p) =>
      match FirstIndex(p.subtasks, SubtaskId, subtaskId)
      case None =>
      case Some(j) =>
        var u := ToggledSubtask(p, j);
        forall i | 0 <= i < |p.subtasks| && p.subtasks[i].id == subtaskId && (forall h :: 0 <= h < i ==> p.subtasks[h].id != subtaskId)
          ensures i == j
        {
        }
  }

  class TaskListViewModel {
    var allTasks: seq<TodoTask>
    var allProjects: seq<Project>
    var allLabels: seq<Label>
    var isLoading: bool
    var errorMessage: Option<ErrorMessage>
    var selectedProjectIDs: set<string>
    var selectedLabelIDs: set<string>
    var sortOption: SortOption
    var filterCategory: FilterCategory
    var currentPage: nat
    var dirtyTaskIDs: set<string>
    /** The edits sent to the debounce subject since the last flush. */
    var pending: seq<TodoTask>

    /**
     * `init` with `loadSettings()`: the sort option and category come from
     * the settings store, the selections are given.
     */
    constructor(settings: Settings.SettingsService, projectIDs: set<string>, labelIDs: set<string>)
      ensures allTasks == [] && allProjects == [] && allLabels == []
      ensures !isLoading && errorMessage == None
      ensures sortOption == settings.SortOption() && filterCategory == settings.FilterCategory()
      ensures selectedProjectIDs == projectIDs && selectedLabelIDs == labelIDs
      ensures currentPage == 0 && dirtyTaskIDs == {} && pending == []
    {
      allTasks := [];
      allProjects := [];
      allLabels := [];
      isLoading := false;
      errorMessage := None;
      sortOption := settings.SortOption();
      filterCategory := settings.FilterCategory();
      selectedProjectIDs := projectIDs;
      selectedLabelIDs := labelIDs;
      currentPage := 0;
      dirtyTaskIDs := {};
      pending := [];
    }

    /** `filteredTasks` on the current state. */
    function Filtered(today: int): seq<TodoTask>
      reads this
    {
      TaskView.FilteredTasks(allTasks, filterCategory, selectedProjectIDs, selectedLabelIDs, sortOption, today)
    }

    function TotalPages(today: int): nat
      reads this
    {
      TaskView.TotalPages(|Filtered(today)|)
    }

    function PaginatedTasks(today: int): seq<TodoTask>
      reads this
    {
      TaskView.PaginatedTasks(Filtered(today), currentPage)
    }

    function LabelsFor(t: TodoTask): seq<Label>
      reads this
    {
      TaskView.LabelsFor(allLabels, t)
    }

    /** The synchronous half of `fetchData()`: a no-op while loading, otherwise it starts loading and clears the error. */
    method BeginFetch() returns (started: bool)
      modifies this`isLoading, this`errorMessage
      ensures started == !old(isLoading)
      ensures isLoading
      ensures errorMessage == if started then None else old(errorMessage)
    {
      if isLoading {
        return false;
      }
      isLoading := true;
      errorMessage := None;
      return true;
    }

    /**
     * The completion of `fetchData()`. On success the cache becomes the
     * server's tasks in the server's order, dirty ones replaced by their
     * cached copies, and projects and labels are replaced; on failure only
     * the error is set. Loading ends either way; dirty ids are kept.
     */
    method CompleteFetch(outcome: FetchOutcome)
      requires outcome.Fetched? ==> DirtyKeysUnique(allTasks, TaskId, dirtyTaskIDs)
      modifies this`allTasks, this`allProjects, this`allLabels, this`errorMessage, this`isLoading
      ensures !isLoading
      ensures outcome.Fetched? ==>
        && allTasks == Merge(outcome.tasks, old(allTasks), TaskId, dirtyTaskIDs)
        && allProjects == outcome.projects && allLabels == outcome.labels
        && errorMessage == old(errorMessage)
      ensures outcome.FetchError? ==>
        && allTasks == old(allTasks) && allProjects == old(allProjects) && allLabels == old(allLabels)
        && errorMessage == Some(FetchFailed)
    {
      match outcome {
        case Fetched(tasks, projects, labels) =>
          allTasks := Merge(tasks, allTasks, TaskId, dirtyTaskIDs);
          allProjects := projects;
          allLabels := labels;
        case FetchError =>
          errorMessage := Some(FetchFailed);
      }
      isLoading := false;
    }

    /**
     * `updateTask(_:)`: the first cached task with the id is replaced and
     * marked dirty (nothing happens to the cache for an unknown id), and the
     * task goes to the debounce buffer either way.
     */
    method UpdateTask(task: TodoTask)
      modifies this`allTasks, this`dirtyTaskIDs, this`pending
      ensures allTasks == ReplaceFirst(old(allTasks), TaskId, task)
      ensures dirtyTaskIDs == if task.id in KeysOf(old(allTasks), TaskId) then old(dirtyTaskIDs) + {task.id} else old(dirtyTaskIDs)
      ensures pending == old(pending) + [task]
    {
      match FirstIndex(allTasks, TaskId, task.id) {
        case Some(index) =>
          allTasks := allTasks[index := task];
          dirtyTaskIDs := dirtyTaskIDs + {task.id};
        case None =>
      }
      pending := pending + [task];
    }

    /**
     * The synchronous half of `updateTaskImmediately(_:)`: for a cached task,
     * stores the new value and returns the diff to send, or nothing when the
     * diff holds only the id. An unknown id changes nothing. Dirty marks and
     * the debounce buffer are not touched.
     */
    method UpdateTaskImmediately(modified: TodoTask) returns (request: Option<Patch>)
      modifies this`allTasks
      ensures FindFirst(old(allTasks), TaskId, modified.id).None? ==> request.None? && allTasks == old(allTasks)
      ensures FindFirst(old(allTasks), TaskId, modified.id).Some? ==>
        var original := FindFirst(old(allTasks), TaskId, modified.id).value;
        && allTasks == ReplaceFirst(old(allTasks), TaskId, modified)
        && request == if SameAsSeenByDiff(original, modified) then None else Some(CreateDiff(original, modified))
    {
      match FindFirst(allTasks, TaskId, modified.id)
      case None =>
        return None;
      case Some(original) =>
        var diff := CreateDiff(original, modified);
        NoChangeDetected(original, modified);
        allTasks := ReplaceFirst(allTasks, TaskId, modified);
        if |diff| > 1 {
          return Some(diff);
        }
        return None;
    }

    /**
     * The completion of a batched or immediate update: on success every id
     * of the batch is no longer dirty, on failure the error is set and the
     * dirty ids stay.
     */
    method CompleteUpdate(ids: seq<string>, succeeded: bool)
      modifies this`dirtyTaskIDs, this`errorMessage
      ensures succeeded ==> dirtyTaskIDs == old(dirtyTaskIDs) - set id | id in ids && errorMessage == old(errorMessage)
      ensures !succeeded ==> dirtyTaskIDs == old(dirtyTaskIDs) && errorMessage == Some(UpdateFailed)
    {
      if !succeeded {
        errorMessage := Some(UpdateFailed);
        return;
      }
      var i := 0;
      while i < |ids|
        invariant 0 <= i <= |ids|
        invariant dirtyTaskIDs == old(dirtyTaskIDs) - set id | id in ids[..i]
        invariant errorMessage == old(errorMessage)
      {
        assert ids[..i + 1] == ids[..i] + [ids[i]];
        dirtyTaskIDs := dirtyTaskIDs - {ids[i]};
        i := i + 1;
      }
      assert ids[..i] == ids;
    }

    /** `nextPage()`: one page on, only while a later page exists. */
    method NextPage(today: int)
      modifies this`currentPage
      ensures currentPage == if old(currentPage) < TotalPages(today) - 1 then old(currentPage) + 1 else old(currentPage)
      ensures old(currentPage) < TotalPages(today) ==> currentPage < TotalPages(today)
    {
      if currentPage < TotalPages(today) - 1 {
        currentPage := currentPage + 1;
      }
    }

    /** `previousPage()`: one page back, never below page 0. */
    method PreviousPage()
      modifies this`currentPage
      ensures currentPage == if old(currentPage) > 0 then old(currentPage) - 1 else 0
    {
      if currentPage > 0 {
        currentPage := currentPage - 1;
      }
    }

    method ResetPagination()
      modifies this`currentPage
      ensures currentPage == 0
    {
      currentPage := 0;
    }

    /** `toggleTaskCompletion(for:)`: `updateTask` with the completion flag flipped. */
    method ToggleTaskCompletion(task: TodoTask)
      modifies this`allTasks, this`dirtyTaskIDs, this`pending
      ensures allTasks == ReplaceFirst(old(allTasks), TaskId, ToggledTask(task))
      ensures dirtyTaskIDs == if task.id in KeysOf(old(allTasks), TaskId) then old(dirtyTaskIDs) + {task.id} else old(dirtyTaskIDs)
      ensures pending == old(pending) + [ToggledTask(task)]
    {
      UpdateTask(ToggledTask(task));
    }

    /**
     * `toggleSubtaskCompletion(for:in:)`: flips the subtask inside the cached
     * parent and passes the parent to `updateTask`; a no-op when the parent
     * or the subtask is not found.
     */
    method ToggleSubtaskCompletion(subtaskId: string, parentId: string)
      modifies this`allTasks, this`dirtyTaskIDs, this`pending
      ensures SubtaskToggle(old(allTasks), parentId, subtaskId).None? ==>
        allTasks == old(allTasks) && dirtyTaskIDs == old(dirtyTaskIDs) && pending == old(pending)
      ensures SubtaskToggle(old(allTasks), parentId, subtaskId).Some? ==>
        var u := SubtaskToggle(old(allTasks), parentId, subtaskId).value;
        && allTasks == ReplaceFirst(old(allTasks), TaskId, u)
        && dirtyTaskIDs == old(dirtyTaskIDs) + {parentId}
        && pending == old(pending) + [u]
    {
      var parentIndex := FirstIndex(allTasks, TaskId, parentId);
      if parentIndex.None? {
        return;
      }
      var pi := parentIndex.value;
      var subtaskIndex := FirstIndex(allTasks[pi].subtasks, SubtaskId, subtaskId);
      if subtaskIndex.None? {
        return;
      }
      var updated := ToggledSubtask(allTasks[pi], subtaskIndex.value);
      allTasks := allTasks[pi := updated];
      ReplaceFirstSpec(old(allTasks), TaskId, updated);
      assert FirstIndex(allTasks, TaskId, parentId) == Some(pi) by {
        assert forall j :: 0 <= j < pi ==> allTasks[j] == old(allTasks)[j];
        FirstIndexAt(allTasks, TaskId, parentId, pi);
      }
      UpdateTask(updated);
    }

    /**
     * The debounced sink: the buffer is emptied and handed, de-duplicated by
     * id, to `sendUpdate`, which diffs against the current cache.
     */
    method Flush() returns (request: Option<UpdateRequest>)
      modifies this`pending
      ensures pending == []
      ensures request == FlushAsWritten(old(pending), allTasks)
    {
      request := FlushAsWritten(pending, allTasks);
      pending := [];
    }

    /** The `selectedProjectIDs` sink: a new selection resets the page. */
    method SetSelectedProjectIDs(ids: set<string>)
      modifies this`selectedProjectIDs, this`currentPage
      ensures selectedProjectIDs == ids && currentPage == 0
    {
      selectedProjectIDs := ids;
      ResetPagination();
    }

    method SetSelectedLabelIDs(ids: set<string>)
      modifies this`selectedLabelIDs, this`currentPage
      ensures selectedLabelIDs == ids && currentPage == 0
    {
      selectedLabelIDs := ids;
      ResetPagination();
    }

    /** The `sortOption` sink: persists the option and resets the page. */
    method SetSortOption(option: SortOption, settings: Settings.SettingsService)
      modifies this`sortOption, this`currentPage, settings
      ensures sortOption == option && currentPage == 0
      ensures settings.SortOption() == option
      ensures settings.store == old(settings.store)[Settings.SortOptionKey := Settings.Str(SortOptionRaw(option))]
    {
      sortOption := option;
      settings.SetSortOption(option);
      ResetPagination();
    }

    method SetFilterCategory(category: FilterCategory, settings: Settings.SettingsService)
      modifies this`filterCategory, this`currentPage, settings
      ensures filterCategory == category && currentPage == 0
      ensures settings.FilterCategory() == category
      ensures settings.store == old(settings.store)[Settings.FilterCategoryKey := Settings.Str(FilterCategoryRaw(category))]
    {
      filterCategory := category;
      settings.SetFilterCategory(category);
      ResetPagination();
    }

    /** Dismissing the error banner. */
    method DismissError()
      modifies this`errorMessage
      ensures errorMessage == None
    {
      errorMessage := None;
    }
  }

  /**
   * Edits made through `updateTask` and flushed before anything else touches
   * the cache produce no request, which is the write-back discrepancy seen
   * on the class: `Flush` after `UpdateTask` of each buffered edit.
   */
  method EditThenFlush(vm: TaskListViewModel, task: TodoTask) returns (request: Option<UpdateRequest>)
    requires vm.pending == []
    modifies vm
    ensures request == None
  {
    ghost var cache := vm.allTasks;
    vm.UpdateTask(task);
    assert vm.allTasks == ApplyEdits(cache, TaskId, [task]);
    request := vm.Flush();
    DebouncedEditsNeverSent(cache, [task]);
  }
}
