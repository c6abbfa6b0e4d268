/**
 * The data model of the menubar client: tasks with their subtasks, projects
 * with their sections, labels, and the two enumerations the view-model
 * exposes (sort option and filter category) with their raw string values.
 *
 * Ids are strings. A due date is a day number (days since some epoch), so
 * that "the start of the day" comparisons of the source become integer
 * comparisons. A missing `completed` flag means "not completed".
 */
module Tasks {
  import opened Wrappers

  datatype Subtask = Subtask(id: string, title: string, completed: Option<bool>, order: Option<int>)

  datatype TodoTask = TodoTask(
    id: string,
    title: string,
    description: Option<string>,
    completed: Option<bool>,
    priority: Option<int>,
    dueDate: Option<int>,
    projectId: Option<string>,
    sectionId: Option<string>,
    labels: seq<string>,
    subtasks: seq<Subtask>)

  datatype Section = Section(id: string, name: string, color: string)

  datatype Project = Project(
    id: string,
    name: string,
    slug: string,
    color: string,
    shared: Option<bool>,
    sections: Option<seq<Section>>,
    taskOrder: Option<seq<string>>)

  datatype Label = Label(id: string, name: string, slug: string, color: string)

  function TaskId(t: TodoTask): string
  {
    t.id
  }

  function LabelId(l: Label): string
  {
    l.id
  }

  /** `completed ?? false`. */
  predicate IsCompleted(t: TodoTask)
  {
    t.completed == Some(true)
  }

  predicate SubtaskDone(s: Subtask)
  {
    s.completed == Some(true)
  }

  /** The set of a task's label ids (`Set(task.labels)`). */
  function LabelSet(t: TodoTask): set<string>
  {
    set l | l in t.labels
  }

  datatype SortOption = DefaultOrder | DueDate | Priority

  datatype FilterCategory = All | Inbox | Today | Upcoming | Completed

  function SortOptionRaw(o: SortOption): string
  {
    match o
    case DefaultOrder => "Default"
    case DueDate => "Due Date"
    case Priority => "Priority"
  }

  /** `SortOption(rawValue:)`. */
  function ParseSortOption(raw: string): (r: Option<SortOption>)
    ensures r.Some? ==> SortOptionRaw(r.value) == raw
  {
    if raw == "Default" then Some(DefaultOrder)
    else if raw == "Due Date" then Some(DueDate)
    else if raw == "Priority" then Some(Priority)
    else None
  }

  function FilterCategoryRaw(c: FilterCategory): string
  {
    match c
    case All => "All"
    case Inbox => "Inbox"
    case Today => "Today"
    case Upcoming => "Upcoming"
    case Completed => "Completed"
  }

  /** `FilterCategory(rawValue:)`. */
  function ParseFilterCategory(raw: string): (r: Option<FilterCategory>)
    ensures r.Some? ==> FilterCategoryRaw(r.value) == raw
  {
    if raw == "All" then Some(All)
    else if raw == "Inbox" then Some(Inbox)
    else if raw == "Today" then Some(Today)
    else if raw == "Upcoming" then Some(Upcoming)
    else if raw == "Completed" then Some(Completed)
    else None
  }

  /** Every option's raw value parses back to it, so raw values are distinct. */
  lemma RawValuesRoundTrip(o: SortOption, c: FilterCategory)
    ensures ParseSortOption(SortOptionRaw(o)) == Some(o)
    ensures ParseFilterCategory(FilterCategoryRaw(c)) == Some(c)
  {
  }
}
