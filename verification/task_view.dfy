/**
 * The menubar view-model's derived list (`filteredTasks`, `totalPages`,
 * `paginatedTasks`, `labels(for:)`): a category filter, optional project
 * and label filters, a sort, and pages of five. Everything here is a pure
 * function of the cache and the selections; "today" is a parameter.
 */
module TaskView {
  import opened Wrappers
  import opened Tasks
  import opened Seqs
  import opened Sorting

  /** `itemsPerPage`. */
  const ItemsPerPage: nat := 5

  /** The primary filter of `filteredTasks` for one category. */
  predicate InCategory(t: TodoTask, c: FilterCategory, today: int)
  {
    match c
    case All => !IsCompleted(t)
    case Inbox => t.projectId.None? && !IsCompleted(t)
    case Today => t.dueDate.Some? && t.dueDate.value <= today && !IsCompleted(t)
    case Upcoming => t.dueDate.Some? && t.dueDate.value > today && !IsCompleted(t)
    case Completed => IsCompleted(t)
  }

  /**
   * How the categories relate: Today and Upcoming split the open tasks that
   * have a due date, Inbox is part of All, and Completed is the rest.
   */
  lemma CategoriesRelate(t: TodoTask, today: int)
    ensures InCategory(t, All, today) <==> !InCategory(t, Completed, today)
    ensures InCategory(t, Inbox, today) ==> InCategory(t, All, today)
    ensures InCategory(t, All, today) && t.dueDate.Some? <==> InCategory(t, Today, today) || InCategory(t, Upcoming, today)
    ensures !(InCategory(t, Today, today) && InCategory(t, Upcoming, today))
    ensures t.dueDate.None? ==> !InCategory(t, Today, today) && !InCategory(t, Upcoming, today)
  {
  }

  predicate ProjectMatches(t: TodoTask, selected: set<string>)
  {
    t.projectId.Some? && t.projectId.value in selected
  }

  /** `filterTasksByProject`: no filtering for an empty selection. */
  function FilterTasksByProject(tasks: seq<TodoTask>, selected: set<string>): seq<TodoTask>
  {
    if selected == {} then tasks else Filter(tasks, t => ProjectMatches(t, selected))
  }

  /** The task shares at least one label with the selection. */
  predicate LabelMatches(t: TodoTask, selected: set<string>)
  {
    exists l :: l in t.labels && l in selected
  }

  /** `filterTasksByLabels`: no filtering for an empty selection, otherwise any overlap. */
  function FilterTasksByLabels(tasks: seq<TodoTask>, selected: set<string>): seq<TodoTask>
  {
    if selected == {} then tasks else Filter(tasks, t => LabelMatches(t, selected))
  }

  function DueKey(t: TodoTask): Option<int>
  {
    t.dueDate
  }

  function PriorityKey(t: TodoTask): Option<int>
  {
    t.priority
  }

  function SortTasks(tasks: seq<TodoTask>, option: SortOption): seq<TodoTask>
  {
    match option
    case DefaultOrder => tasks
    case DueDate => SortBy(tasks, DueKey)
    case Priority => SortBy(tasks, PriorityKey)
  }

  /** Step 2a: the project filter, skipped for Inbox. */
  function ProjectStep(tasks: seq<TodoTask>, category: FilterCategory, projects: set<string>): seq<TodoTask>
  {
    if category != Inbox then FilterTasksByProject(tasks, projects) else tasks
  }

  /** Step 2b: the label filter, skipped for Completed. */
  function LabelStep(tasks: seq<TodoTask>, category: FilterCategory, labels: set<string>): seq<TodoTask>
  {
    if category != Completed then FilterTasksByLabels(tasks, labels) else tasks
  }

  /** Steps 1 and 2 of `filteredTasks`. */
  function Unsorted(all: seq<TodoTask>, category: FilterCategory, projects: set<string>, labels: set<string>, today: int): seq<TodoTask>
  {
    LabelStep(ProjectStep(Filter(all, t => InCategory(t, category, today)), category, projects), category, labels)
  }

  /** `filteredTasks`. */
  function FilteredTasks(all: seq<TodoTask>, category: FilterCategory, projects: set<string>, labels: set<string>,
                         sort: SortOption, today: int): seq<TodoTask>
  {
    SortTasks(Unsorted(all, category, projects, labels, today), sort)
  }

  /** Whether `filteredTasks` keeps a task, stated in one place. */
  predicate Selected(t: TodoTask, category: FilterCategory, projects: set<string>, labels: set<string>, today: int)
  {
    && InCategory(t, category, today)
    && (category == Inbox || projects == {} || ProjectMatches(t, projects))
    && (category == Completed || labels == {} || LabelMatches(t, labels))
  }

  lemma ProjectStepSpec(tasks: seq<TodoTask>, category: FilterCategory, projects: set<string>)
    ensures forall x :: multiset(ProjectStep(tasks, category, projects))[x] ==
                          if category == Inbox || projects == {} || ProjectMatches(x, projects) then multiset(tasks)[x] else 0
    ensures IsSubseq(ProjectStep(tasks, category, projects), tasks)
  {
    IsSubseqReflexive(tasks);
  }

  lemma LabelStepSpec(tasks: seq<TodoTask>, category: FilterCategory, labels: set<string>)
    ensures forall x :: multiset(LabelStep(tasks, category, labels))[x] ==
                          if category == Completed || labels == {} || LabelMatches(x, labels) then multiset(tasks)[x] else 0
    ensures IsSubseq(LabelStep(tasks, category, labels), tasks)
  {
    IsSubseqReflexive(tasks);
  }

  /** The filtering steps keep exactly the `Selected` tasks, in the cache's order. */
  lemma UnsortedSpec(all: seq<TodoTask>, category: FilterCategory, projects: set<string>, labels: set<string>, today: int)
    ensures forall x :: multiset(Unsorted(all, category, projects, labels, today))[x] ==
                          if Selected(x, category, projects, labels, today) then multiset(all)[x] else 0
    ensures IsSubseq(Unsorted(all, category, projects, labels, today), all)
  {
    var t1 := Filter(all, t => InCategory(t, category, today));
    var t2 := ProjectStep(t1, category, projects);
    var t3 := LabelStep(t2, category, labels);
    ProjectStepSpec(t1, category, projects);
    LabelStepSpec(t2, category, labels);
    forall x
      ensures multiset(t3)[x] == if Selected(x, category, projects, labels, today) then multiset(all)[x] else 0
    {
      var m1 := multiset(t1)[x];
      var m2 := multiset(t2)[x];
      assert m1 == if InCategory(x, category, today) then multiset(all)[x] else 0;
      assert m2 == if category == Inbox || projects == {} || ProjectMatches(x, projects) then m1 else 0;
      assert multiset(t3)[x] == if category == Completed || labels == {} || LabelMatches(x, labels) then m2 else 0;
    }
    IsSubseqTransitive(t2, t1, all);
    IsSubseqTransitive(t3, t2, all);
  }

  /** Sorting permutes; the default order leaves the list alone. */
  lemma SortTasksSpec(tasks: seq<TodoTask>, sort: SortOption)
    ensures multiset(SortTasks(tasks, sort)) == multiset(tasks)
    ensures sort == DefaultOrder ==> SortTasks(tasks, sort) == tasks
    ensures sort == DueDate ==> Sorted(SortTasks(tasks, sort), DueKey)
    ensures sort == Priority ==> Sorted(SortTasks(tasks, sort), PriorityKey)
  {
  }

  /**
   * `filteredTasks` holds exactly the cached tasks that are `Selected`, each
   * as often as in the cache; with the default order it keeps the cache's
   * order, and otherwise it is sorted by the chosen key with tasks lacking
   * the key last.
   */
  lemma FilteredTasksSpec(all: seq<TodoTask>, category: FilterCategory, projects: set<string>, labels: set<string>,
                          sort: SortOption, today: int)
    ensures forall x :: multiset(FilteredTasks(all, category, projects, labels, sort, today))[x] ==
                          if Selected(x, category, projects, labels, today) then multiset(all)[x] else 0
    ensures sort == DefaultOrder ==> IsSubseq(FilteredTasks(all, category, projects, labels, sort, today), all)
    ensures sort == DueDate ==> Sorted(FilteredTasks(all, category, projects, labels, sort, today), DueKey)
    ensures sort == Priority ==> Sorted(FilteredTasks(all, category, projects, labels, sort, today), PriorityKey)
  {
    var u := Unsorted(all, category, projects, labels, today);
    UnsortedSpec(all, category, projects, labels, today);
    SortTasksSpec(u, sort);
  }

  /** `totalPages`: the number of pages of five needed for `n` tasks, and at least one. */
  function TotalPages(n: nat): (p: nat)
    ensures p >= 1
    ensures n <= p * ItemsPerPage
    ensures n > 0 ==> (p - 1) * ItemsPerPage < n
    ensures n == 0 ==> p == 1
  {
    var pages := (n + ItemsPerPage - 1) / ItemsPerPage;
    if pages > 1 then pages else 1
  }

  function Min(a: int, b: int): int
  {
    if a < b then a else b
  }

  /** `paginatedTasks`: the tasks of page `page` (counted from 0). */
  function PaginatedTasks(filtered: seq<TodoTask>, page: nat): (r: seq<TodoTask>)
    ensures |r| <= ItemsPerPage
    ensures page * ItemsPerPage >= |filtered| <==> r == []
    ensures |r| == Min(ItemsPerPage, |filtered| - page * ItemsPerPage) || r == []
    ensures forall j :: 0 <= j < |r| ==> r[j] == filtered[page * ItemsPerPage + j]
  {
    var start := page * ItemsPerPage;
    var end := Min(start + ItemsPerPage, |filtered|);
    if start < end then filtered[start..end] else []
  }

  /** Pages 0 .. k-1 one after another. */
  function PagesBefore(filtered: seq<TodoTask>, k: nat): seq<TodoTask>
  {
    if k == 0 then [] else PagesBefore(filtered, k - 1) + PaginatedTasks(filtered, k - 1)
  }

  lemma {:induction false} PagesBeforeIsPrefix(filtered: seq<TodoTask>, k: nat)
    ensures PagesBefore(filtered, k) == filtered[..Min(k * ItemsPerPage, |filtered|)]
  {
    if k > 0 {
      PagesBeforeIsPrefix(filtered, k - 1);
      var lo := Min((k - 1) * ItemsPerPage, |filtered|);
      var hi := Min(k * ItemsPerPage, |filtered|);
      if (k - 1) * ItemsPerPage < |filtered| {
        assert PaginatedTasks(filtered, k - 1) == filtered[lo..hi];
        assert filtered[..lo] + filtered[lo..hi] == filtered[..hi];
      } else {
        assert lo == hi;
      }
    }
  }

  /** Reading every page from 0 to `totalPages - 1` yields the filtered list, each task once. */
  lemma PagesCoverFiltered(filtered: seq<TodoTask>)
    ensures PagesBefore(filtered, TotalPages(|filtered|)) == filtered
  {
    PagesBeforeIsPrefix(filtered, TotalPages(|filtered|));
    assert filtered[..|filtered|] == filtered;
  }

  /** `labels(for:)`: the known labels that the task references, in the order of `allLabels`. */
  function LabelsFor(allLabels: seq<Label>, t: TodoTask): (r: seq<Label>)
    ensures forall l :: l in r <==> l in allLabels && l.id in t.labels
    ensures forall l :: multiset(r)[l] == if l.id in t.labels then multiset(allLabels)[l] else 0
    ensures IsSubseq(r, allLabels)
  {
    var r := Filter(allLabels, (l: Label) => l.id in LabelSet(t));
    assert forall l :: l in r <==> multiset(r)[l] > 0;
    assert forall l :: l in allLabels <==> multiset(allLabels)[l] > 0;
    r
  }
}
