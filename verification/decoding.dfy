/**
 * The tolerant fallback decoders of `fetchProjects` and `fetchLabels`: each
 * dictionary of an array becomes a project or label when it has a string
 * id, with defaults for the other fields, and the array is looked for at
 * the top level, under a list of wrapper keys, and finally under any key.
 */
module Decoding {
  import opened Wrappers
  import opened Tasks
  import opened Payload

  type Dict = map<string, Json>

  /** `dict[k] as? String`. */
  function StringField(d: Dict, k: string): Option<string>
  {
    if k in d && d[k].Str? then Some(d[k].s) else None
  }

  /** `dict[k] as? Bool`. */
  function BoolField(d: Dict, k: string): Option<bool>
  {
    if k in d && d[k].Bool? then Some(d[k].b) else None
  }

  /** `a ?? b` on optionals. */
  function OrElse<T>(a: Option<T>, b: Option<T>): (r: Option<T>)
    ensures r == if a.Some? then a else b
  {
    if a.Some? then a else b
  }

  /** `dict["id"] as? String ?? dict["_id"] as? String`. */
  function IdOf(d: Dict): Option<string>
  {
    OrElse(StringField(d, "id"), StringField(d, "_id"))
  }

  /** `value as? [String]`. */
  function StringArray(v: Json): (r: Option<seq<string>>)
    ensures r.Some? ==> v.Array? && |r.value| == |v.items|
  {
    if v.Array? && forall i :: 0 <= i < |v.items| ==> v.items[i].Str? then
      Some(seq(|v.items|, i requires 0 <= i < |v.items| && v.items[i].Str? => v.items[i].s))
    else None
  }

  /** `value as? [[String: Any]]`. */
  function ObjectArray(v: Json): (r: Option<seq<Dict>>)
    ensures r.Some? ==> v.Array? && |r.value| == |v.items|
  {
    if v.Array? && forall i :: 0 <= i < |v.items| ==> v.items[i].Object? then
      Some(seq(|v.items|, i requires 0 <= i < |v.items| && v.items[i].Object? => v.items[i].fields))
    else None
  }

  function StringArrayField(d: Dict, k: string): Option<seq<string>>
  {
    if k in d then StringArray(d[k]) else None
  }

  /** One entry of `sections`: kept only with a string id and a string name. */
  function SectionOf(s: Dict): Option<Section>
  {
    if IdOf(s).Some? && StringField(s, "name").Some? then
      Some(Section(IdOf(s).value, StringField(s, "name").value, StringField(s, "color").GetOr("#000000")))
    else None
  }

  /** The kept sections of a list, in order. */
  function SectionsOf(raw: seq<Dict>): seq<Section>
  {
    if raw == [] then []
    else (if SectionOf(raw[0]).Some? then [SectionOf(raw[0]).value] else []) + SectionsOf(raw[1..])
  }

  /** The project one dictionary yields in `projectsFromArray`, if it has an id. */
  function ProjectOf(d: Dict): Option<Project>
  {
    match IdOf(d)
    case None => None
    case Some(id) =>
      var name := OrElse(StringField(d, "name"), StringField(d, "title")).GetOr("Unnamed Project");
      var slug := StringField(d, "slug").GetOr("");
      var color := StringField(d, "color").GetOr("#000000");
      var shared := BoolField(d, "shared").GetOr(false);
      var sections := if "sections" in d && ObjectArray(d["sections"]).Some? then SectionsOf(ObjectArray(d["sections"]).value) else [];
      var taskOrder := OrElse(StringArrayField(d, "taskOrder"), StringArrayField(d, "task_order"));
      Some(Project(id, name, slug, color, Some(shared), Some(sections), taskOrder))
  }

  /** The label one dictionary yields in `labelsFromArray`, if it has an id. */
  function LabelOf(d: Dict): Option<Label>
  {
    match IdOf(d)
    case None => None
    case Some(id) =>
      var name := OrElse(StringField(d, "name"), StringField(d, "title")).GetOr("Unnamed Label");
      Some(Label(id, name, StringField(d, "slug").GetOr(""), StringField(d, "color").GetOr("#000000")))
  }

  /** The projects of the first `n` dictionaries, in order. */
  function ProjectsOf(arr: seq<Dict>): (r: seq<Project>)
    ensures |r| <= |arr|
  {
    if arr == [] then []
    else
      var init, d := arr[..|arr| - 1], arr[|arr| - 1];
      ProjectsOf(init) + (if ProjectOf(d).Some? then [ProjectOf(d).value] else [])
  }

  function LabelsOf(arr: seq<Dict>): (r: seq<Label>)
    ensures |r| <= |arr|
  {
    if arr == [] then []
    else
      var init, d := arr[..|arr| - 1], arr[|arr| - 1];
      LabelsOf(init) + (if LabelOf(d).Some? then [LabelOf(d).value] else [])
  }

  /** Entries without an id are skipped; every other entry contributes one project, in order. */
  lemma {:induction false} ProjectsOfSkipsIdless(arr: seq<Dict>, d: Dict)
    ensures IdOf(d).None? ==> ProjectsOf(arr + [d]) == ProjectsOf(arr)
    ensures IdOf(d).Some? ==> ProjectsOf(arr + [d]) == ProjectsOf(arr) + [ProjectOf(d).value]
    ensures IdOf(d).Some? ==> ProjectOf(d).value.id == IdOf(d).value
  {
    assert (arr + [d])[..|arr|] == arr;
  }

  /** When every entry has an id, each entry gives the project at its own position. */
  lemma {:induction false} ProjectsOfAllIds(arr: seq<Dict>)
    requires forall i :: 0 <= i < |arr| ==> IdOf(arr[i]).Some?
    ensures |ProjectsOf(arr)| == |arr|
    ensures forall i :: 0 <= i < |arr| ==> ProjectsOf(arr)[i] == ProjectOf(arr[i]).value
  {
    if arr != [] {
      var init, d := arr[..|arr| - 1], arr[|arr| - 1];
      ProjectsOfAllIds(init);
      ProjectsOfSkipsIdless(init, d);
      assert init + [d] == arr;
    }
  }

  /** When every entry has an id, each entry gives the label at its own position. */
  lemma {:induction false} LabelsOfAllIds(arr: seq<Dict>)
    requires forall i :: 0 <= i < |arr| ==> IdOf(arr[i]).Some?
    ensures |LabelsOf(arr)| == |arr|
    ensures forall i :: 0 <= i < |arr| ==> LabelsOf(arr)[i] == LabelOf(arr[i]).value
  {
    if arr != [] {
      var init, d := arr[..|arr| - 1], arr[|arr| - 1];
      LabelsOfAllIds(init);
      assert LabelsOf(arr) == LabelsOf(init) + [LabelOf(d).value];
    }
  }

  /** `projectsFromArray`: a loop that skips (`continue`) the entries without an id. */
  method ProjectsFromArray(arr: seq<Dict>) returns (results: seq<Project>)
    ensures results == ProjectsOf(arr)
  {
    results := [];
    for i := 0 to |arr|
      invariant results == ProjectsOf(arr[..i])
    {
      assert arr[..i + 1] == arr[..i] + [arr[i]];
      ProjectsOfSkipsIdless(arr[..i], arr[i]);
      var project := ProjectOf(arr[i]);
      if project.None? {
        continue;
      }
      results := results + [project.value];
    }
    assert arr[..|arr|] == arr;
  }

  /** `labelsFromArray`. */
  method LabelsFromArray(arr: seq<Dict>) returns (results: seq<Label>)
    ensures results == LabelsOf(arr)
  {
    results := [];
    for i := 0 to |arr|
      invariant results == LabelsOf(arr[..i])
    {
      assert arr[..i + 1] == arr[..i] + [arr[i]];
      assert (arr[..i] + [arr[i]])[..i] == arr[..i];
      var decoded := LabelOf(arr[i]);
      if decoded.None? {
        continue;
      }
      results := results + [decoded.value];
    }
    assert arr[..|arr|] == arr;
  }

  /** A dictionary with only an id decodes to a project with every default. */
  lemma ProjectDefaults(id: string)
    ensures ProjectOf(map["id" := Str(id)]) == Some(Project(id, "Unnamed Project", "", "#000000", Some(false), Some([]), None))
    ensures ProjectOf(map["_id" := Str(id)]) == Some(Project(id, "Unnamed Project", "", "#000000", Some(false), Some([]), None))
    ensures LabelOf(map["id" := Str(id)]) == Some(Label(id, "Unnamed Label", "", "#000000"))
  {
  }

  /** `id` wins over `_id`, and `name` over `title`. */
  lemma PreferredKeys(d: Dict)
    ensures StringField(d, "id").Some? ==> ProjectOf(d).Some? && ProjectOf(d).value.id == StringField(d, "id").value
    ensures IdOf(d).Some? && StringField(d, "name").Some? ==> ProjectOf(d).value.name == StringField(d, "name").value
    ensures IdOf(d).Some? && StringField(d, "name").None? && StringField(d, "title").Some? ==>
              ProjectOf(d).value.name == StringField(d, "title").value
    ensures IdOf(d).Some? && StringArrayField(d, "taskOrder").Some? ==> ProjectOf(d).value.taskOrder == StringArrayField(d, "taskOrder")
    ensures IdOf(d).Some? && StringArrayField(d, "taskOrder").None? ==> ProjectOf(d).value.taskOrder == StringArrayField(d, "task_order")
  {
  }

  function SectionJson(s: Section): Json
  {
    Object(map["id" := Str(s.id), "name" := Str(s.name), "color" := Str(s.color)])
  }

  function StringsJson(xs: seq<string>): Json
  {
    Array(seq(|xs|, i requires 0 <= i < |xs| => Str(xs[i])))
  }

  function SectionsJson(ss: seq<Section>): Json
  {
    Array(seq(|ss|, i requires 0 <= i < |ss| => SectionJson(ss[i])))
  }

  /** The dictionary a server would send for a project that has every field. */
  function ProjectJson(p: Project): Dict
    requires p.shared.Some? && p.sections.Some?
  {
    var d := map[
      "id" := Str(p.id), "name" := Str(p.name), "slug" := Str(p.slug), "color" := Str(p.color),
      "shared" := Bool(p.shared.value), "sections" := SectionsJson(p.sections.value)];
    if p.taskOrder.Some? then d["taskOrder" := StringsJson(p.taskOrder.value)] else d
  }

  lemma StringsRoundTrip(xs: seq<string>)
    ensures StringArray(StringsJson(xs)) == Some(xs)
  {
    var xj := StringsJson(xs);
    assert forall i :: 0 <= i < |xj.items| ==> xj.items[i] == Str(xs[i]);
    assert StringArray(xj).value == xs;
  }

  lemma SectionRoundTrip(sec: Section)
    ensures SectionOf(SectionJson(sec).fields) == Some(sec)
  {
    var d := SectionJson(sec).fields;
    assert StringField(d, "id") == Some(sec.id);
    assert StringField(d, "name") == Some(sec.name);
    assert StringField(d, "color") == Some(sec.color);
  }

  function SectionDicts(ss: seq<Section>): (r: seq<Dict>)
    ensures |r| == |ss| && forall i :: 0 <= i < |ss| ==> r[i] == SectionJson(ss[i]).fields
  {
    seq(|ss|, i requires 0 <= i < |ss| => SectionJson(ss[i]).fields)
  }

  lemma {:induction false} SectionDictsRoundTrip(ss: seq<Section>)
    ensures SectionsOf(SectionDicts(ss)) == ss
  {
    if ss != [] {
      var raw := SectionDicts(ss);
      SectionDictsRoundTrip(ss[1..]);
      assert raw[1..] == SectionDicts(ss[1..]);
      SectionRoundTrip(ss[0]);
      assert ss == [ss[0]] + ss[1..];
    }
  }

  lemma SectionsRoundTrip(ss: seq<Section>)
    ensures ObjectArray(SectionsJson(ss)) == Some(SectionDicts(ss))
    ensures SectionsOf(SectionDicts(ss)) == ss
  {
    var sj := SectionsJson(ss);
    assert forall i :: 0 <= i < |sj.items| ==> sj.items[i] == SectionJson(ss[i]);
    assert ObjectArray(sj).value == SectionDicts(ss);
    SectionDictsRoundTrip(ss);
  }

  /** Decoding the dictionary of a complete project gives the project back. */
  lemma ProjectRoundTrip(p: Project)
    requires p.shared.Some? && p.sections.Some?
    ensures ProjectOf(ProjectJson(p)) == Some(p)
  {
    var d := ProjectJson(p);
    SectionsRoundTrip(p.sections.value);
    assert d["sections"] == SectionsJson(p.sections.value);
    assert StringField(d, "id") == Some(p.id);
    assert StringField(d, "name") == Some(p.name);
    assert StringField(d, "slug") == Some(p.slug);
    assert StringField(d, "color") == Some(p.color);
    assert BoolField(d, "shared") == p.shared;
    if p.taskOrder.Some? {
      StringsRoundTrip(p.taskOrder.value);
      assert StringArrayField(d, "taskOrder") == p.taskOrder;
    } else {
      assert "taskOrder" !in d && "task_order" !in d;
    }
  }

  /** The first candidate key holding an array of dictionaries. */
  function FirstCandidate(d: Dict, candidates: seq<string>): (r: Option<seq<Dict>>)
    ensures r.Some? ==> exists k :: k in candidates && k in d && ObjectArray(d[k]) == r
    ensures r.None? <==> forall k :: k in candidates && k in d ==> ObjectArray(d[k]).None?
  {
    if candidates == [] then None
    else if candidates[0] in d && ObjectArray(d[candidates[0]]).Some? then ObjectArray(d[candidates[0]])
    else FirstCandidate(d, candidates[1..])
  }

  const ProjectCandidates: seq<string> := ["projects", "data", "items", "results"]
  const LabelCandidates: seq<string> := ["labels", "data", "items", "results"]

  /**
   * The array search: a top-level array of dictionaries is used directly;
   * in a dictionary, the first candidate key holding one; failing that, the
   * array under some other key (Swift's dictionary order decides which);
   * failing that, none.
   */
  method FindArray(root: Json, candidates: seq<string>) returns (found: Option<seq<Dict>>)
    ensures ObjectArray(root).Some? ==> found == ObjectArray(root)
    ensures !root.Array? && !root.Object? ==> found.None?
    ensures root.Array? && ObjectArray(root).None? ==> found.None?
    ensures root.Object? && FirstCandidate(root.fields, candidates).Some? ==> found == FirstCandidate(root.fields, candidates)
    ensures root.Object? && FirstCandidate(root.fields, candidates).None? ==>
      && (found.Some? <==> exists k :: k in root.fields && ObjectArray(root.fields[k]).Some?)
      && (found.Some? ==> exists k :: k in root.fields && ObjectArray(root.fields[k]) == found)
  {
    if ObjectArray(root).Some? {
      return ObjectArray(root);
    }
    if !root.Object? {
      return None;
    }
    var dict := root.fields;
    for i := 0 to |candidates|
      invariant FirstCandidate(dict, candidates) == FirstCandidate(dict, candidates[i..])
    {
      var key := candidates[i];
      if key in dict && ObjectArray(dict[key]).Some? {
        return ObjectArray(dict[key]);
      }
      assert candidates[i..][1..] == candidates[i + 1..];
    }
    assert candidates[|candidates|..] == [];
    if k :| k in dict && ObjectArray(dict[k]).Some? {
      return ObjectArray(dict[k]);
    }
    return None;
  }

  /** The tolerant half of `fetchProjects`: no array found means no projects. */
  method DecodeProjects(root: Json) returns (projects: seq<Project>)
    ensures ObjectArray(root).Some? ==> projects == ProjectsOf(ObjectArray(root).value)
    ensures root.Object? && FirstCandidate(root.fields, ProjectCandidates).Some? ==>
              projects == ProjectsOf(FirstCandidate(root.fields, ProjectCandidates).value)
    ensures ObjectArray(root).None? && !root.Object? ==> projects == []
    ensures root.Object? && FirstCandidate(root.fields, ProjectCandidates).None? ==>
              if exists k :: k in root.fields && ObjectArray(root.fields[k]).Some?
              then exists k :: k in root.fields && ObjectArray(root.fields[k]).Some? && projects == ProjectsOf(ObjectArray(root.fields[k]).value)
              else projects == []
  {
    var found := FindArray(root, ProjectCandidates);
    if found.None? {
      return [];
    }
    projects := ProjectsFromArray(found.value);
    if root.Object? && FirstCandidate(root.fields, ProjectCandidates).None? {
      var k :| k in root.fields && ObjectArray(root.fields[k]) == found;
      assert ObjectArray(root.fields[k]).Some? && projects == ProjectsOf(ObjectArray(root.fields[k]).value);
    }
  }

  /** The tolerant half of `fetchLabels`. */
  method DecodeLabels(root: Json) returns (labels: seq<Label>)
    ensures ObjectArray(root).Some? ==> labels == LabelsOf(ObjectArray(root).value)
    ensures root.Object? && FirstCandidate(root.fields, LabelCandidates).Some? ==>
              labels == LabelsOf(FirstCandidate(root.fields, LabelCandidates).value)
    ensures ObjectArray(root).None? && !root.Object? ==> labels == []
    ensures root.Object? && FirstCandidate(root.fields, LabelCandidates).None? ==>
              if exists k :: k in root.fields && ObjectArray(root.fields[k]).Some?
              then exists k :: k in root.fields && ObjectArray(root.fields[k]).Some? && labels == LabelsOf(ObjectArray(root.fields[k]).value)
              else labels == []
  {
    var found := FindArray(root, LabelCandidates);
    if found.None? {
      return [];
    }
    labels := LabelsFromArray(found.value);
    if root.Object? && FirstCandidate(root.fields, LabelCandidates).None? {
      var k :| k in root.fields && ObjectArray(root.fields[k]) == found;
      assert ObjectArray(root.fields[k]).Some? && labels == LabelsOf(ObjectArray(root.fields[k]).value);
    }
  }
}
