/**
 * The menubar task row (`TaskRowView`): the overdue colouring of the due
 * date, the subtask count badge, the priority badge and the inline title
 * editor, whose commit goes through the view-model's `updateTask`.
 */
module TaskRow {
  import opened Wrappers
  import opened Tasks
  import opened Keyed
  import TaskView
  import opened TaskStore

  /** `isOverdue`: the due day lies strictly before today. */
  predicate IsOverdue(due: int, today: int)
  {
    due < today
  }

  /** Whether the row paints its due date red. */
  predicate ShowsOverdue(t: TodoTask, today: int)
  {
    t.dueDate.Some? && IsOverdue(t.dueDate.value, today)
  }

  /**
   * An open task shown as overdue is listed under Today and never under
   * Upcoming; a task due today is in Today but not overdue.
   */
  lemma OverdueIsToday(t: TodoTask, today: int)
    ensures ShowsOverdue(t, today) && !IsCompleted(t) ==>
              TaskView.InCategory(t, Today, today) && !TaskView.InCategory(t, Upcoming, today)
    ensures t.dueDate == Some(today) ==> !ShowsOverdue(t, today)
    ensures TaskView.InCategory(t, Upcoming, today) ==> !ShowsOverdue(t, today)
  {
  }

  /** `subtasks.filter { $0.completed ?? false }.count`. */
  function DoneCount(subtasks: seq<Subtask>): (n: nat)
    ensures n <= |subtasks|
  {
    if subtasks == [] then 0
    else DoneCount(subtasks[..|subtasks| - 1]) + (if SubtaskDone(subtasks[|subtasks| - 1]) then 1 else 0)
  }

  datatype Badge = Badge(done: nat, total: nat)

  /** The "done/total" badge, shown only when the task has subtasks. */
  function SubtaskBadge(t: TodoTask): (r: Option<Badge>)
    ensures r.Some? <==> |t.subtasks| > 0
    ensures r.Some? ==> r.value.total == |t.subtasks| && r.value.done <= r.value.total
    ensures r.Some? && (forall i :: 0 <= i < |t.subtasks| ==> SubtaskDone(t.subtasks[i])) ==> r.value.done == r.value.total
    ensures r.Some? && (forall i :: 0 <= i < |t.subtasks| ==> !SubtaskDone(t.subtasks[i])) ==> r.value.done == 0
  {
    if t.subtasks == [] then None
    else
      AllDone(t.subtasks);
      Some(Badge(DoneCount(t.subtasks), |t.subtasks|))
  }

  lemma {:induction false} AllDone(subtasks: seq<Subtask>)
    ensures (forall i :: 0 <= i < |subtasks| ==> SubtaskDone(subtasks[i])) ==> DoneCount(subtasks) == |subtasks|
    ensures (forall i :: 0 <= i < |subtasks| ==> !SubtaskDone(subtasks[i])) ==> DoneCount(subtasks) == 0
  {
    if subtasks != [] {
      AllDone(subtasks[..|subtasks| - 1]);
    }
  }

  /** Changing one subtask moves the done count by the change in that subtask alone. */
  lemma {:induction false} DoneCountUpdate(subtasks: seq<Subtask>, j: nat, x: Subtask)
    requires j < |subtasks|
    ensures DoneCount(subtasks[j := x]) + (if SubtaskDone(subtasks[j]) then 1 else 0)
         == DoneCount(subtasks) + (if SubtaskDone(x) then 1 else 0)
    decreases |subtasks|
  {
    var n := |subtasks|;
    var u := subtasks[j := x];
    if j < n - 1 {
      assert u[..n - 1] == subtasks[..n - 1][j := x];
      DoneCountUpdate(subtasks[..n - 1], j, x);
    } else {
      assert u[..n - 1] == subtasks[..n - 1];
    }
  }

  /** Toggling a subtask moves the badge's done count by exactly one, up or down. */
  lemma ToggleMovesBadge(t: TodoTask, j: nat)
    requires j < |t.subtasks|
    ensures SubtaskBadge(ToggledSubtask(t, j)).Some?
    ensures SubtaskBadge(ToggledSubtask(t, j)).value.total == SubtaskBadge(t).value.total
    ensures SubtaskBadge(ToggledSubtask(t, j)).value.done ==
              if SubtaskDone(t.subtasks[j]) then SubtaskBadge(t).value.done - 1 else SubtaskBadge(t).value.done + 1
  {
    var r := ToggledSubtask(t, j);
    assert r.subtasks == t.subtasks[j := r.subtasks[j]];
    DoneCountUpdate(t.subtasks, j, r.subtasks[j]);
  }

  /** The container of the priority badge is shown for a non-nil priority other than 4. */
  predicate ShowsPriority(t: TodoTask)
  {
    t.priority.Some? && t.priority.value != 4
  }

  /** `priorityView(for:)`: a flag for 1, 2 and 3, nothing for any other value. */
  function PriorityFlag(p: int): Option<string>
  {
    if p == 1 then Some("P1") else if p == 2 then Some("P2") else if p == 3 then Some("P3") else None
  }

  /** The priority badge of a row. */
  function PriorityBadge(t: TodoTask): (r: Option<string>)
    ensures r.Some? <==> t.priority.Some? && 1 <= t.priority.value <= 3
    ensures r.Some? ==> ShowsPriority(t) && r.value == ['P', ('0' as int + t.priority.value) as char]
  {
    if ShowsPriority(t) then PriorityFlag(t.priority.GetOr(4)) else None
  }

  /** The inline title editor of one row. */
  class TaskRowEditor {
    const task: TodoTask
    var isEditing: bool
    var editingTitle: string

    constructor(task: TodoTask)
      ensures this.task == task && !isEditing && editingTitle == ""
    {
      this.task := task;
      isEditing := false;
      editingTitle := "";
    }

    /** `startEditing`: the field starts from the current title. */
    method StartEditing()
      modifies this
      ensures isEditing && editingTitle == task.title
    {
      editingTitle := task.title;
      isEditing := true;
    }

    /** Whether committing sends an update: the title is non-empty and new. */
    predicate WillUpdate()
      reads this
    {
      editingTitle != "" && editingTitle != task.title
    }

    /**
     * `commitEdit`: for a non-empty, changed title, the task with that title
     * goes through `updateTask`; the view-model is otherwise untouched.
     * Editing always ends.
     */
    method CommitEdit(vm: TaskListViewModel)
      modifies this`isEditing, vm`allTasks, vm`dirtyTaskIDs, vm`pending
      ensures !isEditing && editingTitle == old(editingTitle)
      ensures old(WillUpdate()) ==>
        && vm.allTasks == ReplaceFirst(old(vm.allTasks), TaskId, task.(title := editingTitle))
        && vm.pending == old(vm.pending) + [task.(title := editingTitle)]
        && vm.dirtyTaskIDs == if task.id in KeysOf(old(vm.allTasks), TaskId) then old(vm.dirtyTaskIDs) + {task.id} else old(vm.dirtyTaskIDs)
      ensures !old(WillUpdate()) ==>
        vm.allTasks == old(vm.allTasks) && vm.pending == old(vm.pending) && vm.dirtyTaskIDs == old(vm.dirtyTaskIDs)
    {
      if editingTitle != "" && editingTitle != task.title {
        var mutated := task.(title := editingTitle);
        vm.UpdateTask(mutated);
      }
      isEditing := false;
    }
  }

  /** Opening the editor and committing without typing sends nothing. */
  method EditUnchanged(editor: TaskRowEditor, vm: TaskListViewModel)
    modifies editor, vm`allTasks, vm`dirtyTaskIDs, vm`pending
    ensures !editor.isEditing
    ensures vm.allTasks == old(vm.allTasks) && vm.pending == old(vm.pending) && vm.dirtyTaskIDs == old(vm.dirtyTaskIDs)
  {
    editor.StartEditing();
    editor.CommitEdit(vm);
  }
}
