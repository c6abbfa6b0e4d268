/**
 * The older client's task model and derived list (Tasker's `Task` and
 * `filteredTasks`): every field is present, tasks due after today are
 * hidden, one optional project and a label set filter the rest, and the
 * sort is ascending by due date or descending by priority.
 */
module LegacyTasks {
  import opened Wrappers
  import opened Tasks
  import opened Seqs
  import opened Sorting

  datatype LegacySubtask = LegacySubtask(id: string, title: string, completed: bool, order: int)

  datatype LegacyTask = LegacyTask(
    id: string,
    title: string,
    description: string,
    completed: bool,
    priority: int,
    dueDate: int,
    projectId: string,
    sectionId: string,
    labels: seq<string>,
    subtasks: seq<LegacySubtask>)

  datatype LegacyProject = LegacyProject(
    id: string,
    name: string,
    slug: string,
    color: string,
    shared: bool,
    sections: seq<Section>,
    taskOrder: seq<string>)

  function LegacyId(t: LegacyTask): string
  {
    t.id
  }

  /** `filterTasksByDueDate`: tasks due today or earlier. */
  function FilterTasksByDueDate(tasks: seq<LegacyTask>, today: int): seq<LegacyTask>
  {
    Filter(tasks, (t: LegacyTask) => t.dueDate <= today)
  }

  /** `filterTasksByProject`: no filtering without a selected project. */
  function FilterTasksByProject(tasks: seq<LegacyTask>, selected: Option<string>): seq<LegacyTask>
  {
    if selected.None? then tasks else Filter(tasks, (t: LegacyTask) => t.projectId == selected.value)
  }

  predicate LabelMatches(t: LegacyTask, selected: set<string>)
  {
    exists l :: l in t.labels && l in selected
  }

  /** `filterTasksByLabels`: no filtering for an empty selection, otherwise any overlap. */
  function FilterTasksByLabels(tasks: seq<LegacyTask>, selected: set<string>): seq<LegacyTask>
  {
    if selected == {} then tasks else Filter(tasks, t => LabelMatches(t, selected))
  }

  /** Sort key for `$0.dueDate < $1.dueDate`. */
  function DueRank(t: LegacyTask): Option<int>
  {
    Some(t.dueDate)
  }

  /** Sort key for `$0.priority > $1.priority`: a larger priority sorts first. */
  function PriorityRank(t: LegacyTask): Option<int>
  {
    Some(-t.priority)
  }

  function SortTasks(tasks: seq<LegacyTask>, option: SortOption): seq<LegacyTask>
  {
    match option
    case DefaultOrder => tasks
    case DueDate => SortBy(tasks, DueRank)
    case Priority => SortBy(tasks, PriorityRank)
  }

  function Unsorted(all: seq<LegacyTask>, project: Option<string>, labels: set<string>, today: int): seq<LegacyTask>
  {
    FilterTasksByLabels(FilterTasksByProject(FilterTasksByDueDate(all, today), project), labels)
  }

  /** Tasker's `filteredTasks`. */
  function FilteredTasks(all: seq<LegacyTask>, project: Option<string>, labels: set<string>, sort: SortOption, today: int): seq<LegacyTask>
  {
    SortTasks(Unsorted(all, project, labels, today), sort)
  }

  predicate Selected(t: LegacyTask, project: Option<string>, labels: set<string>, today: int)
  {
    && t.dueDate <= today
    && (project.None? || t.projectId == project.value)
    && (labels == {} || LabelMatches(t, labels))
  }

  lemma UnsortedSpec(all: seq<LegacyTask>, project: Option<string>, labels: set<string>, today: int)
    ensures forall x :: multiset(Unsorted(all, project, labels, today))[x] ==
                          if Selected(x, project, labels, today) then multiset(all)[x] else 0
    ensures IsSubseq(Unsorted(all, project, labels, today), all)
  {
    var t1 := FilterTasksByDueDate(all, today);
    var t2 := FilterTasksByProject(t1, project);
    var t3 := FilterTasksByLabels(t2, labels);
    IsSubseqReflexive(t1);
    IsSubseqReflexive(t2);
    forall x
      ensures multiset(t3)[x] == if Selected(x, project, labels, today) then multiset(all)[x] else 0
    {
      var m1 := multiset(t1)[x];
      var m2 := multiset(t2)[x];
      assert m1 == if x.dueDate <= today then multiset(all)[x] else 0;
      assert m2 == if project.None? || x.projectId == project.value then m1 else 0;
      assert multiset(t3)[x] == if labels == {} || LabelMatches(x, labels) then m2 else 0;
    }
    IsSubseqTransitive(t2, t1, all);
    IsSubseqTransitive(t3, t2, all);
  }

  /**
   * Tasker's sort: a permutation; the default order keeps the list, the
   * due-date order is ascending and the priority order descending.
   */
  lemma SortTasksSpec(tasks: seq<LegacyTask>, sort: SortOption)
    ensures multiset(SortTasks(tasks, sort)) == multiset(tasks)
    ensures sort == DefaultOrder ==> SortTasks(tasks, sort) == tasks
    ensures sort == DueDate ==> forall i, j :: 0 <= i < j < |SortTasks(tasks, sort)| ==>
              SortTasks(tasks, sort)[i].dueDate <= SortTasks(tasks, sort)[j].dueDate
    ensures sort == Priority ==> forall i, j :: 0 <= i < j < |SortTasks(tasks, sort)| ==>
              SortTasks(tasks, sort)[i].priority >= SortTasks(tasks, sort)[j].priority
  {
    var r := SortTasks(tasks, sort);
    if sort == DueDate {
      assert Sorted(r, DueRank);
      forall i, j | 0 <= i < j < |r| ensures r[i].dueDate <= r[j].dueDate {
        assert !Comparison(DueRank(r[j]), DueRank(r[i]));
      }
    } else if sort == Priority {
      assert Sorted(r, PriorityRank);
      forall i, j | 0 <= i < j < |r| ensures r[i].priority >= r[j].priority {
        assert !Comparison(PriorityRank(r[j]), PriorityRank(r[i]));
      }
    }
  }

  /**
   * Tasker's `filteredTasks` holds exactly the cached tasks that are due by
   * today, in the selected project and sharing a selected label, each as
   * often as cached; the default order keeps the cache's order, the due-date
   * order is ascending and the priority order descending.
   */
  lemma FilteredTasksSpec(all: seq<LegacyTask>, project: Option<string>, labels: set<string>, sort: SortOption, today: int)
    ensures forall x :: multiset(FilteredTasks(all, project, labels, sort, today))[x] ==
                          if Selected(x, project, labels, today) then multiset(all)[x] else 0
    ensures sort == DefaultOrder ==> IsSubseq(FilteredTasks(all, project, labels, sort, today), all)
    ensures sort == DueDate ==> forall i, j :: 0 <= i < j < |FilteredTasks(all, project, labels, sort, today)| ==>
              FilteredTasks(all, project, labels, sort, today)[i].dueDate <= FilteredTasks(all, project, labels, sort, today)[j].dueDate
    ensures sort == Priority ==> forall i, j :: 0 <= i < j < |FilteredTasks(all, project, labels, sort, today)| ==>
              FilteredTasks(all, project, labels, sort, today)[i].priority >= FilteredTasks(all, project, labels, sort, today)[j].priority
  {
    var u := Unsorted(all, project, labels, today);
    UnsortedSpec(all, project, labels, today);
    SortTasksSpec(u, sort);
    assert FilteredTasks(all, project, labels, sort, today) == SortTasks(u, sort);
  }

  /** A selected project that no cached task belongs to empties the list. */
  lemma UnknownProjectEmpties(all: seq<LegacyTask>, p: string, labels: set<string>, sort: SortOption, today: int)
    requires forall i :: 0 <= i < |all| ==> all[i].projectId != p
    ensures FilteredTasks(all, Some(p), labels, sort, today) == []
  {
    var r := FilteredTasks(all, Some(p), labels, sort, today);
    FilteredTasksSpec(all, Some(p), labels, sort, today);
    assert forall x :: x in r ==> multiset(r)[x] > 0;
  }

  /** `labels(for:)`. */
  function LabelsFor(allLabels: seq<Label>, t: LegacyTask): (r: seq<Label>)
    ensures forall l :: l in r <==> l in allLabels && l.id in t.labels
    ensures forall l :: multiset(r)[l] == if l.id in t.labels then multiset(allLabels)[l] else 0
    ensures IsSubseq(r, allLabels)
  {
    var r := Filter(allLabels, (l: Label) => l.id in t.labels);
    assert forall l :: l in r <==> multiset(r)[l] > 0;
    assert forall l :: l in allLabels <==> multiset(allLabels)[l] > 0;
    r
  }
}
