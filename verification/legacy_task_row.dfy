/**
 * The task row of the older client: the overdue colouring of the due date
 * and the inline title editor, which commits through that client's
 * `updateTask`.
 */
module LegacyTaskRow {
  import opened Keyed
  import opened Seqs
  import opened LegacyTasks
  import opened LegacyStore

  /** `isOverdue`: the due day lies strictly before today. */
  predicate IsOverdue(t: LegacyTask, today: int)
  {
    t.dueDate < today
  }

  /**
   * Every overdue task of a list survives the due-date filter, which also
   * keeps the tasks due today; no task the filter drops is overdue.
   */
  lemma OverdueKept(tasks: seq<LegacyTask>, today: int)
    ensures forall t :: t in tasks && IsOverdue(t, today) ==> t in FilterTasksByDueDate(tasks, today)
    ensures forall t :: t in tasks && t.dueDate == today ==> t in FilterTasksByDueDate(tasks, today) && !IsOverdue(t, today)
    ensures forall t :: t in FilterTasksByDueDate(tasks, today) ==> t.dueDate <= today
  {
    var kept := FilterTasksByDueDate(tasks, today);
    assert forall t :: t in tasks ==> multiset(tasks)[t] > 0;
    assert forall t :: multiset(kept)[t] > 0 ==> t in kept;
    assert forall t :: t in kept ==> multiset(kept)[t] > 0;
  }

  /** The inline title editor of one row. */
  class LegacyTaskRowEditor {
    const task: LegacyTask
    var isEditing: bool
    var editingTitle: string

    constructor(task: LegacyTask)
      ensures this.task == task && !isEditing && editingTitle == ""
    {
      this.task := task;
      isEditing := false;
      editingTitle := "";
    }

    /** `startEditing`: the field starts from the current title. */
    method StartEditing()
      modifies this
      ensures isEditing && editingTitle == task.title
    {
      editingTitle := task.title;
      isEditing := true;
    }

    predicate WillUpdate()
      reads this
    {
      editingTitle != "" && editingTitle != task.title
    }

    /** `commitEdit`: updates only for a non-empty, changed title; editing always ends. */
    method CommitEdit(vm: LegacyTaskListViewModel)
      modifies this`isEditing, vm`allTasks, vm`dirtyTaskIDs, vm`pending
      ensures !isEditing && editingTitle == old(editingTitle)
      ensures old(WillUpdate()) ==>
        && vm.allTasks == ReplaceFirst(old(vm.allTasks), LegacyId, task.(title := editingTitle))
        && vm.pending == old(vm.pending) + [task.(title := editingTitle)]
        && vm.dirtyTaskIDs == if task.id in KeysOf(old(vm.allTasks), LegacyId) then old(vm.dirtyTaskIDs) + {task.id} else old(vm.dirtyTaskIDs)
      ensures !old(WillUpdate()) ==>
        vm.allTasks == old(vm.allTasks) && vm.pending == old(vm.pending) && vm.dirtyTaskIDs == old(vm.dirtyTaskIDs)
    {
      if editingTitle != "" && editingTitle != task.title {
        var mutated := task.(title := editingTitle);
        vm.UpdateTask(mutated);
      }
      isEditing := false;
    }
  }
}
