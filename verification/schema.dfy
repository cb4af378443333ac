/** The server's four tables (projects, tags, tasks and the task–tag association),
    their column defaults, the insert records that omit generated columns, and the
    PATCH record of a task update. Timestamps are abstract instants (`int`). */
module Schema {
  import opened Wrappers
  import opened Validation

  /** The default of the `color` column of projects and tags. */
  const DefaultColor: string := "#000000"
  /** The defaults of the `priority`, `status` and `position` columns of tasks. */
  const DefaultPriority: string := "medium"
  const DefaultStatus: string := "todo"
  const DefaultPosition: int := 0

  /** A row of `projects`; `slug` is unique across the table. */
  datatype Project = Project(id: int, name: string, slug: string, color: string)

  /** A row of `tags`; `name` is unique across the table. */
  datatype Tag = Tag(id: int, name: string, color: string)

  /** A row of `tasks`. `priority` and `status` are free text: the database
      constrains neither. `projectId` refers to a project; `parentId` refers to
      nothing the database checks. */
  datatype Task = Task(
    id: int,
    title: string,
    description: Option<string>,
    priority: string,
    status: string,
    dueDate: Option<int>,
    projectId: Option<int>,
    position: Option<int>,
    parentId: Option<int>,
    createdAt: int)

  /** A row of `task_tags`: nothing prevents two rows with the same pair. */
  datatype TaskTag = TaskTag(id: int, taskId: int, tagId: int)

  /** The value a column takes on insert: the supplied value, or the default. */
  function ValueOr<T>(f: Field<T>, default: T): T {
    if f.Present? then f.value else default
  }

  /** The insert record of a project: everything but `id`. */
  datatype InsertProject = InsertProject(name: string, slug: string, color: Field<string>)

  /** The insert record of a tag: everything but `id`. */
  datatype InsertTag = InsertTag(name: string, color: Field<string>)

  /** The insert record of a task: everything but `id` and `createdAt`. A nullable
      column takes `Present(None)` for an explicit `null`. */
  datatype InsertTask = InsertTask(
    title: string,
    description: Field<Option<string>>,
    priority: Field<string>,
    status: Field<string>,
    dueDate: Field<Option<int>>,
    projectId: Field<Option<int>>,
    position: Field<Option<int>>,
    parentId: Field<Option<int>>)

  /** An insert of a task that supplies only its title. */
  function TitleOnly(title: string): InsertTask {
    InsertTask(title, Absent, Absent, Absent, Absent, Absent, Absent, Absent)
  }

  /** The row stored for a project insert with serial `id`. */
  function NewProjectRow(id: int, ins: InsertProject): (p: Project)
    ensures p.id == id && p.name == ins.name && p.slug == ins.slug
    ensures ins.color.Absent? ==> p.color == DefaultColor
    ensures ins.color.Present? ==> p.color == ins.color.value
  {
    Project(id, ins.name, ins.slug, ValueOr(ins.color, DefaultColor))
  }

  /** The row stored for a tag insert with serial `id`. */
  function NewTagRow(id: int, ins: InsertTag): (t: Tag)
    ensures t.id == id && t.name == ins.name
    ensures ins.color.Absent? ==> t.color == DefaultColor
    ensures ins.color.Present? ==> t.color == ins.color.value
  {
    Tag(id, ins.name, ValueOr(ins.color, DefaultColor))
  }

  /** The row stored for a task insert with serial `id` at instant `now`: supplied
      columns are kept, left-out ones take their defaults (`null` where none is
      declared), and `createdAt` is the insert time. */
  function NewTaskRow(id: int, ins: InsertTask, now: int): (t: Task)
    ensures t.id == id && t.title == ins.title && t.createdAt == now
    ensures ins.priority.Present? ==> t.priority == ins.priority.value
    ensures ins.status.Present? ==> t.status == ins.status.value
    ensures ins.position.Present? ==> t.position == ins.position.value
    ensures ins.description.Present? ==> t.description == ins.description.value
    ensures ins.dueDate.Present? ==> t.dueDate == ins.dueDate.value
    ensures ins.projectId.Present? ==> t.projectId == ins.projectId.value
    ensures ins.parentId.Present? ==> t.parentId == ins.parentId.value
  {
    Task(id, ins.title,
         ValueOr(ins.description, None),
         ValueOr(ins.priority, DefaultPriority),
         ValueOr(ins.status, DefaultStatus),
         ValueOr(ins.dueDate, None),
         ValueOr(ins.projectId, None),
         ValueOr(ins.position, Some(DefaultPosition)),
         ValueOr(ins.parentId, None),
         now)
  }

  /** A task inserted with only a title is a medium-priority "todo" at position 0
      with no description, due date, project or parent. */
  lemma TaskDefaults(id: int, title: string, now: int)
    ensures NewTaskRow(id, TitleOnly(title), now)
      == Task(id, title, None, "medium", "todo", None, None, Some(0), None, now)
  {
  }

  /** The PATCH record of a task update: every insert column may be left out. */
  datatype TaskPatch = TaskPatch(
    title: Field<string>,
    description: Field<Option<string>>,
    priority: Field<string>,
    status: Field<string>,
    dueDate: Field<Option<int>>,
    projectId: Field<Option<int>>,
    position: Field<Option<int>>,
    parentId: Field<Option<int>>)

  const EmptyPatch: TaskPatch := TaskPatch(Absent, Absent, Absent, Absent, Absent, Absent, Absent, Absent)

  /** The patch that sets only `status`, as the task card's toggle sends it. */
  function StatusPatch(status: string): TaskPatch {
    EmptyPatch.(status := Present(status))
  }

  /** Column `after` is `before` updated by `f`: a supplied value replaces it, a
      left-out one leaves it. */
  predicate Patched<T(==)>(f: Field<T>, before: T, after: T) {
    (f.Present? ==> after == f.value) && (f.Absent? ==> after == before)
  }

  /** `UPDATE tasks SET <supplied columns>`. */
  function ApplyPatch(t: Task, p: TaskPatch): (r: Task)
    ensures r.id == t.id && r.createdAt == t.createdAt
    ensures Patched(p.title, t.title, r.title)
    ensures Patched(p.description, t.description, r.description)
    ensures Patched(p.priority, t.priority, r.priority)
    ensures Patched(p.status, t.status, r.status)
    ensures Patched(p.dueDate, t.dueDate, r.dueDate)
    ensures Patched(p.projectId, t.projectId, r.projectId)
    ensures Patched(p.position, t.position, r.position)
    ensures Patched(p.parentId, t.parentId, r.parentId)
  {
    Task(t.id,
         ValueOr(p.title, t.title),
         ValueOr(p.description, t.description),
         ValueOr(p.priority, t.priority),
         ValueOr(p.status, t.status),
         ValueOr(p.dueDate, t.dueDate),
         ValueOr(p.projectId, t.projectId),
         ValueOr(p.position, t.position),
         ValueOr(p.parentId, t.parentId),
         t.createdAt)
  }

  /** A patch that supplies nothing changes nothing. */
  lemma EmptyPatchIdentity(t: Task)
    ensures ApplyPatch(t, EmptyPatch) == t
  {
  }

  /** Applying the same patch twice is the same as applying it once. */
  lemma PatchIdempotent(t: Task, p: TaskPatch)
    ensures ApplyPatch(ApplyPatch(t, p), p) == ApplyPatch(t, p)
  {
  }

  /** A status-only patch changes the status and nothing else. */
  lemma StatusPatchOnlyStatus(t: Task, status: string)
    ensures ApplyPatch(t, StatusPatch(status)) == t.(status := status)
  {
  }

  /** The filter of the task list query; `None` is a key left out. */
  datatype TaskFilter = TaskFilter(projectId: Option<int>, status: Option<string>, search: Option<string>)

  const NoFilter: TaskFilter := TaskFilter(None, None, None)

  /** A filter value is applied only when JavaScript counts it as true: a project id
      of 0 and an empty status or search impose nothing. */
  predicate ProjectSelected(f: TaskFilter) {
    f.projectId.Some? && f.projectId.value != 0
  }

  predicate StatusSelected(f: TaskFilter) {
    f.status.Some? && f.status.value != ""
  }

  predicate SearchSelected(f: TaskFilter) {
    f.search.Some? && f.search.value != ""
  }

  // ---------------------------------------------------------------------------
  // Insert schemas: one rule per column a client may supply, in column order.
  // A column with a default may be left out; a column without NOT NULL may be null.

  const ProjectInsertShape: seq<Rule> := [
    Rule("name", StringKind, false, false),
    Rule("slug", StringKind, false, false),
    Rule("color", StringKind, true, false)]

  const TagInsertShape: seq<Rule> := [
    Rule("name", StringKind, false, false),
    Rule("color", StringKind, true, false)]

  /** The task columns' rules, given the rule for the `timestamp` column. */
  function TaskShape(dates: Kind): seq<Rule> {
    [Rule("title", StringKind, false, false),
     Rule("description", StringKind, true, true),
     Rule("priority", StringKind, true, false),
     Rule("status", StringKind, true, false),
     Rule("dueDate", dates, true, true),
     Rule("projectId", NumberKind, true, true),
     Rule("position", NumberKind, true, true),
     Rule("parentId", NumberKind, true, true)]
  }

  /** The task insert schema generated from the table: its date rule wants a date
      value, and does not coerce the text a JSON body carries. */
  const TaskInsertShape: seq<Rule> := TaskShape(DateKind)

  /** The same schema with a coercing date rule (`z.coerce.date()`). */
  const CoercedTaskInsertShape: seq<Rule> := TaskShape(CoercedDateKind)

  /** The refusal of a due date sent as text by the generated schema. */
  const DueDateRefusal: Issue := Issue("Expected date, received string", [Key("dueDate")])

  /** The insert record read from an object that passed `ProjectInsertShape`. */
  function DecodeProject(obj: map<string, Json>): InsertProject {
    InsertProject(StringAt(obj, "name"), StringAt(obj, "slug"), OptionalString(obj, "color"))
  }

  function DecodeTag(obj: map<string, Json>): InsertTag {
    InsertTag(StringAt(obj, "name"), OptionalString(obj, "color"))
  }

  function DecodeTask(obj: map<string, Json>): InsertTask {
    InsertTask(
      StringAt(obj, "title"),
      NullableString(obj, "description"),
      OptionalString(obj, "priority"),
      OptionalString(obj, "status"),
      NullableDate(obj, "dueDate"),
      NullableNumber(obj, "projectId"),
      NullableNumber(obj, "position"),
      NullableNumber(obj, "parentId"))
  }

  /** The patch read from an object that passed `Partial(TaskInsertShape)`. */
  function DecodePatch(obj: map<string, Json>): TaskPatch {
    TaskPatch(
      OptionalString(obj, "title"),
      NullableString(obj, "description"),
      OptionalString(obj, "priority"),
      OptionalString(obj, "status"),
      NullableDate(obj, "dueDate"),
      NullableNumber(obj, "projectId"),
      NullableNumber(obj, "position"),
      NullableNumber(obj, "parentId"))
  }

  /** The body a client sends for an insert record: a key for every supplied column. */
  function EncodeProject(ins: InsertProject): map<string, Json> {
    PutString(map["name" := JString(ins.name), "slug" := JString(ins.slug)], "color", ins.color)
  }

  function EncodeTag(ins: InsertTag): map<string, Json> {
    PutString(map["name" := JString(ins.name)], "color", ins.color)
  }

  const TaskKeys: set<string> :=
    {"title", "description", "priority", "status", "dueDate", "projectId", "position", "parentId"}

  /** The value a patch sends under key `k`, if any. */
  function PatchEntry(p: TaskPatch, k: string): Option<Json> {
    if k == "title" then StringEntry(p.title)
    else if k == "description" then NullableStringEntry(p.description)
    else if k == "priority" then StringEntry(p.priority)
    else if k == "status" then StringEntry(p.status)
    else if k == "dueDate" then NullableDateEntry(p.dueDate)
    else if k == "projectId" then NullableNumberEntry(p.projectId)
    else if k == "position" then NullableNumberEntry(p.position)
    else if k == "parentId" then NullableNumberEntry(p.parentId)
    else None
  }

  function EncodePatch(p: TaskPatch): map<string, Json> {
    map k | k in TaskKeys && PatchEntry(p, k).Some? :: PatchEntry(p, k).value
  }

  /** The patch that sets every column an insert record supplies. */
  function InsertAsPatch(ins: InsertTask): TaskPatch {
    TaskPatch(Present(ins.title), ins.description, ins.priority, ins.status,
              ins.dueDate, ins.projectId, ins.position, ins.parentId)
  }

  function EncodeTask(ins: InsertTask): map<string, Json> {
    EncodePatch(InsertAsPatch(ins))
  }

  /** Every project insert record survives being sent and validated. */
  lemma ProjectRoundTrip(ins: InsertProject)
    ensures ShapeIssues(ProjectInsertShape, EncodeProject(ins)) == []
    ensures DecodeProject(EncodeProject(ins)) == ins
  {
    var obj := EncodeProject(ins);
    assert RuleIssues(ProjectInsertShape[0], obj) == [];
    assert RuleIssues(ProjectInsertShape[1], obj) == [];
    assert RuleIssues(ProjectInsertShape[2], obj) == [];
    NoIssuesIffValid(ProjectInsertShape, obj);
  }

  lemma TagRoundTrip(ins: InsertTag)
    ensures ShapeIssues(TagInsertShape, EncodeTag(ins)) == []
    ensures DecodeTag(EncodeTag(ins)) == ins
  {
    var obj := EncodeTag(ins);
    assert RuleIssues(TagInsertShape[0], obj) == [];
    assert RuleIssues(TagInsertShape[1], obj) == [];
    NoIssuesIffValid(TagInsertShape, obj);
  }

  /** Each column of a patch is sent under its own key. */
  lemma PatchEntries(p: TaskPatch)
    ensures var obj := EncodePatch(p);
      && HasEntry(obj, "title", StringEntry(p.title))
      && HasEntry(obj, "description", NullableStringEntry(p.description))
      && HasEntry(obj, "priority", StringEntry(p.priority))
      && HasEntry(obj, "status", StringEntry(p.status))
      && HasEntry(obj, "dueDate", NullableDateEntry(p.dueDate))
      && HasEntry(obj, "projectId", NullableNumberEntry(p.projectId))
      && HasEntry(obj, "position", NullableNumberEntry(p.position))
      && HasEntry(obj, "parentId", NullableNumberEntry(p.parentId))
  {
  }

  /** A patch reads back from the body it is sent as. */
  lemma PatchDecodes(p: TaskPatch)
    ensures DecodePatch(EncodePatch(p)) == p
  {
    var obj := EncodePatch(p);
    PatchEntries(p);
    ReadString(obj, "title", p.title, true);
    ReadNullableString(obj, "description", p.description, true);
    ReadString(obj, "priority", p.priority, true);
    ReadString(obj, "status", p.status, true);
    ReadNullableDate(obj, "dueDate", p.dueDate, true);
    ReadNullableNumber(obj, "projectId", p.projectId, true);
    ReadNullableNumber(obj, "position", p.position, true);
    ReadNullableNumber(obj, "parentId", p.parentId, true);
  }

  /** Every rule of the all-optional task schema passes the body a patch is sent as,
      when dates are coerced or the patch sends no date. */
  lemma PatchRulesPass(p: TaskPatch, dates: Kind)
    requires dates == CoercedDateKind || (dates == DateKind && !SendsDate(p.dueDate))
    ensures ShapeValid(Partial(TaskShape(dates)), EncodePatch(p))
  {
    var obj := EncodePatch(p);
    var shape := Partial(TaskShape(dates));
    PatchEntries(p);
    forall j | 0 <= j < |shape| ensures RuleIssues(shape[j], obj) == [] {
      var r := TaskShape(dates)[j].(optional := true);
      assert shape[j] == r;
      if j == 0 { ReadString(obj, "title", p.title, true); }
      else if j == 1 { ReadNullableString(obj, "description", p.description, true); }
      else if j == 2 { ReadString(obj, "priority", p.priority, true); }
      else if j == 3 { ReadString(obj, "status", p.status, true); }
      else if j == 4 { ReadNullableDate(obj, "dueDate", p.dueDate, true); }
      else if j == 5 { ReadNullableNumber(obj, "projectId", p.projectId, true); }
      else if j == 6 { ReadNullableNumber(obj, "position", p.position, true); }
      else { ReadNullableNumber(obj, "parentId", p.parentId, true); }
    }
  }

  /** The strict date rule at index 4 refuses a date sent as text, and when every
      rule before it passes, that refusal is the first issue. */
  lemma DueDateRefused(shape: seq<Rule>, obj: map<string, Json>)
    requires |shape| > 4 && shape[4] == Rule("dueDate", DateKind, shape[4].optional, true)
    requires ShapeValid(shape[..4], obj)
    requires "dueDate" in obj && obj["dueDate"].JString?
    ensures ShapeIssues(shape, obj) != [] && ShapeIssues(shape, obj)[0] == DueDateRefusal
  {
    TextForDateMessage(obj["dueDate"]);
    FirstIssueAt(shape, obj, 4);
  }

  /** The rules before the date rule do not depend on it. */
  lemma TaskShapesAgreeBeforeDates(a: Kind, b: Kind)
    ensures TaskShape(a)[..4] == TaskShape(b)[..4]
    ensures Partial(TaskShape(a))[..4] == Partial(TaskShape(b))[..4]
  {
  }

  /** Every patch survives being sent and validated against the all-optional schema
      that coerces dates. The generated schema accepts the body exactly when the
      patch sends no date, and otherwise refuses it first for the due date. */
  lemma PatchRoundTrip(p: TaskPatch)
    ensures ShapeIssues(Partial(CoercedTaskInsertShape), EncodePatch(p)) == []
    ensures ShapeIssues(Partial(TaskInsertShape), EncodePatch(p)) == [] <==> !SendsDate(p.dueDate)
    ensures SendsDate(p.dueDate) ==> ShapeIssues(Partial(TaskInsertShape), EncodePatch(p))[0] == DueDateRefusal
    ensures DecodePatch(EncodePatch(p)) == p
  {
    var obj := EncodePatch(p);
    PatchDecodes(p);
    PatchRulesPass(p, CoercedDateKind);
    NoIssuesIffValid(Partial(CoercedTaskInsertShape), obj);
    if SendsDate(p.dueDate) {
      PatchEntries(p);
      TaskShapesAgreeBeforeDates(DateKind, CoercedDateKind);
      ValidPrefix(Partial(CoercedTaskInsertShape), obj, 4);
      DueDateRefused(Partial(TaskInsertShape), obj);
    } else {
      PatchRulesPass(p, DateKind);
      NoIssuesIffValid(Partial(TaskInsertShape), obj);
    }
  }

  /** Every rule of the task schema passes the body an insert record is sent as,
      when dates are coerced or the record sends no date. */
  lemma TaskRulesPass(ins: InsertTask, dates: Kind)
    requires dates == CoercedDateKind || (dates == DateKind && !SendsDate(ins.dueDate))
    ensures ShapeValid(TaskShape(dates), EncodeTask(ins))
  {
    var p := InsertAsPatch(ins);
    var obj := EncodePatch(p);
    PatchEntries(p);
    ReadString(obj, "title", p.title, false);
    ReadNullableString(obj, "description", p.description, true);
    ReadString(obj, "priority", p.priority, true);
    ReadString(obj, "status", p.status, true);
    ReadNullableDate(obj, "dueDate", p.dueDate, true);
    ReadNullableNumber(obj, "projectId", p.projectId, true);
    ReadNullableNumber(obj, "position", p.position, true);
    ReadNullableNumber(obj, "parentId", p.parentId, true);
    var shape := TaskShape(dates);
    forall j | 0 <= j < |shape| ensures RuleIssues(shape[j], obj) == [] {
    }
  }

  /** Every task insert record survives being sent and validated against the schema
      that coerces dates. The generated schema accepts the body exactly when the
      record sends no date, and otherwise refuses it first for the due date. */
  lemma TaskRoundTrip(ins: InsertTask)
    ensures ShapeIssues(CoercedTaskInsertShape, EncodeTask(ins)) == []
    ensures ShapeIssues(TaskInsertShape, EncodeTask(ins)) == [] <==> !SendsDate(ins.dueDate)
    ensures SendsDate(ins.dueDate) ==> ShapeIssues(TaskInsertShape, EncodeTask(ins))[0] == DueDateRefusal
    ensures DecodeTask(EncodeTask(ins)) == ins
  {
    var obj := EncodeTask(ins);
    PatchDecodes(InsertAsPatch(ins));
    TaskRulesPass(ins, CoercedDateKind);
    NoIssuesIffValid(CoercedTaskInsertShape, obj);
    if SendsDate(ins.dueDate) {
      PatchEntries(InsertAsPatch(ins));
      TaskShapesAgreeBeforeDates(DateKind, CoercedDateKind);
      ValidPrefix(CoercedTaskInsertShape, obj, 4);
      DueDateRefused(TaskInsertShape, obj);
    } else {
      TaskRulesPass(ins, DateKind);
      NoIssuesIffValid(TaskInsertShape, obj);
    }
  }

  /** A body without a title is refused, and the refusal names the title. */
  lemma TaskTitleRequired(obj: map<string, Json>)
    requires "title" !in obj
    ensures ShapeIssues(TaskInsertShape, obj) != []
    ensures ShapeIssues(TaskInsertShape, obj)[0] == Issue("Required", [Key("title")])
  {
    assert ShapeIssues(TaskInsertShape, obj)
      == RuleIssues(TaskInsertShape[0], obj) + ShapeIssues(TaskInsertShape[1..], obj);
  }
}
