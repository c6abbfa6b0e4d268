/**
 * The partial-update body the menubar client sends for one task
 * (`createDiff`): the task's id plus one entry per field whose value
 * changed, and `null` where the new value is absent, except for `completed`,
 * whose absent new value removes the key instead. `ApplyPatch` reads
 * such a body back the way the server applies it, which gives the diff its
 * round trip.
 */
module TaskDiff {
  import opened Wrappers
  import opened Tasks

  /** One value of the JSON body; a due date travels as its day (the `yyyy-MM-dd` text is not modelled). */
  datatype PatchValue =
    | PString(s: string)
    | PNull
    | PBool(b: bool)
    | PInt(i: int)
    | PDay(day: int)
    | PLabels(labels: seq<string>)
    | PSubtasks(subtasks: seq<Subtask>)

  type Patch = map<string, PatchValue>

  function StringOrNull(o: Option<string>): PatchValue
  {
    if o.Some? then PString(o.value) else PNull
  }

  function IntOrNull(o: Option<int>): PatchValue
  {
    if o.Some? then PInt(o.value) else PNull
  }

  function DayOrNull(o: Option<int>): PatchValue
  {
    if o.Some? then PDay(o.value) else PNull
  }

  /** The keys a diff may hold. */
  const DiffKeys: set<string> :=
    {"id", "title", "description", "completed", "priority", "dueDate", "projectId", "labels", "subtasks"}

  /**
   * The entry `createDiff` writes under key `k`, if any: the id always, and
   * each other field only when it differs between the two versions (labels
   * compared as sets). A `completed` that became absent writes no entry:
   * assigning a nil `Bool?` into the dictionary removes the key.
   */
  function DiffEntry(original: TodoTask, modified: TodoTask, k: string): Option<PatchValue>
  {
    if k == "id" then Some(PString(modified.id))
    else if k == "title" then
      if original.title != modified.title then Some(PString(modified.title)) else None
    else if k == "description" then
      if original.description != modified.description then Some(StringOrNull(modified.description)) else None
    else if k == "completed" then
      if original.completed != modified.completed && modified.completed.Some? then Some(PBool(modified.completed.value)) else None
    else if k == "priority" then
      if original.priority != modified.priority then Some(IntOrNull(modified.priority)) else None
    else if k == "dueDate" then
      if original.dueDate != modified.dueDate then Some(DayOrNull(modified.dueDate)) else None
    else if k == "projectId" then
      if original.projectId != modified.projectId then Some(StringOrNull(modified.projectId)) else None
    else if k == "labels" then
      if LabelSet(original) != LabelSet(modified) then Some(PLabels(modified.labels)) else None
    else if k == "subtasks" then
      if original.subtasks != modified.subtasks then Some(PSubtasks(modified.subtasks)) else None
    else None
  }

  /** `createDiff(original:modified:)`. */
  function CreateDiff(original: TodoTask, modified: TodoTask): (d: Patch)
    ensures d.Keys <= DiffKeys
    ensures "id" in d && d["id"] == PString(modified.id)
  {
    map k | k in DiffKeys && DiffEntry(original, modified, k).Some? :: DiffEntry(original, modified, k).value
  }

  /** Reads an optional string field back from a body entry. */
  function ReadString(d: Patch, k: string, current: Option<string>): Option<string>
  {
    if k !in d then current
    else match d[k]
      case PString(s) => Some(s)
      case PNull => None
      case _ => current
  }

  function ReadInt(d: Patch, k: string, current: Option<int>): Option<int>
  {
    if k !in d then current
    else match d[k]
      case PInt(i) => Some(i)
      case PDay(i) => Some(i)
      case PNull => None
      case _ => current
  }

  function ReadBool(d: Patch, k: string, current: Option<bool>): Option<bool>
  {
    if k !in d then current
    else match d[k]
      case PBool(b) => Some(b)
      case PNull => None
      case _ => current
  }

  /** How a server applies a partial-update body to the stored task; the id selects the task and is not changed. */
  function ApplyPatch(t: TodoTask, d: Patch): TodoTask
  {
    t.(
      title := if "title" in d && d["title"].PString? then d["title"].s else t.title,
      description := ReadString(d, "description", t.description),
      completed := ReadBool(d, "completed", t.completed),
      priority := ReadInt(d, "priority", t.priority),
      dueDate := ReadInt(d, "dueDate", t.dueDate),
      projectId := ReadString(d, "projectId", t.projectId),
      labels := if "labels" in d && d["labels"].PLabels? then d["labels"].labels else t.labels,
      subtasks := if "subtasks" in d && d["subtasks"].PSubtasks? then d["subtasks"].subtasks else t.subtasks)
  }

  /**
   * The newer version `b` shows no change from `a` in anything `createDiff`
   * writes: the id and the section are not compared, labels are compared
   * as sets, and `completed` only counts when `b` has a value.
   */
  predicate SameAsSeenByDiff(a: TodoTask, b: TodoTask)
  {
    && a.title == b.title
    && a.description == b.description
    && (b.completed.Some? ==> a.completed == b.completed)
    && a.priority == b.priority
    && a.dueDate == b.dueDate
    && a.projectId == b.projectId
    && LabelSet(a) == LabelSet(b)
    && a.subtasks == b.subtasks
  }

  /** The `diff.count > 1` test: a diff holds more than the id exactly when the task changed in a compared field. */
  lemma NoChangeDetected(original: TodoTask, modified: TodoTask)
    ensures |CreateDiff(original, modified)| == 1 <==> SameAsSeenByDiff(original, modified)
  {
    var d := CreateDiff(original, modified);
    if SameAsSeenByDiff(original, modified) {
      assert d.Keys == {"id"};
    } else {
      var k := if original.title != modified.title then "title"
        else if original.description != modified.description then "description"
        else if modified.completed.Some? && original.completed != modified.completed then "completed"
        else if original.priority != modified.priority then "priority"
        else if original.dueDate != modified.dueDate then "dueDate"
        else if original.projectId != modified.projectId then "projectId"
        else if LabelSet(original) != LabelSet(modified) then "labels"
        else "subtasks";
      assert k in d;
      assert {"id", k} <= d.Keys;
      CardinalityOfSubset({"id", k}, d.Keys);
    }
  }

  lemma CardinalityOfSubset<K>(a: set<K>, b: set<K>)
    requires a <= b
    ensures |a| <= |b|
  {
    assert b == a + (b - a);
  }

  /**
   * Round trip: applying the diff to the original yields the modified task
   * in every compared field, while the id and section stay the original's
   * (and so does `completed` when the modified task has none).
   */
  lemma DiffRoundTrip(original: TodoTask, modified: TodoTask)
    ensures var r := ApplyPatch(original, CreateDiff(original, modified));
      && SameAsSeenByDiff(r, modified)
      && r.completed == (if modified.completed.Some? then modified.completed else original.completed)
      && r.id == original.id
      && r.sectionId == original.sectionId
  {
  }

  /** A diff only names fields that changed: every entry but the id carries the modified value of a differing field. */
  lemma DiffOnlyChanged(original: TodoTask, modified: TodoTask)
    ensures var d := CreateDiff(original, modified);
      && ("title" in d <==> original.title != modified.title)
      && ("description" in d <==> original.description != modified.description)
      && ("completed" in d <==> original.completed != modified.completed && modified.completed.Some?)
      && ("priority" in d <==> original.priority != modified.priority)
      && ("dueDate" in d <==> original.dueDate != modified.dueDate)
      && ("projectId" in d <==> original.projectId != modified.projectId)
      && ("labels" in d <==> LabelSet(original) != LabelSet(modified))
      && ("subtasks" in d <==> original.subtasks != modified.subtasks)
  {
  }
}
