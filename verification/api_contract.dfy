/** The typed contract between client and server: the paths, the inputs each route
    validates against, the error bodies, and the URL builder. */
module ApiContract {
  import opened Wrappers
  import opened Strings
  import opened Validation
  import opened Schema

  // ---------------------------------------------------------------------------
  // Paths

  const TasksPath: string := "/api/tasks"
  const TaskPath: string := "/api/tasks/:id"
  const ProjectsPath: string := "/api/projects"
  const ProjectPath: string := "/api/projects/:id"
  const TagsPath: string := "/api/tags"

  // ---------------------------------------------------------------------------
  // Error bodies

  /** The three error body shapes: a validation error may name the offending field. */
  datatype ErrorBody =
    | ValidationError(message: string, field: Option<string>)
    | NotFoundError(message: string)
    | InternalError(message: string)

  // ---------------------------------------------------------------------------
  // Task list input

  /** `projectId` is coerced with `Number`; `status` and `search` are optional strings. */
  function ParseListInput(query: map<string, string>): (r: Result<TaskFilter, Issue>)
  {
    var projectId := if "projectId" in query then JsNumber(query["projectId"]) else Some(0);
    if "projectId" in query && projectId.None? then
      Err(Issue("Expected number, received nan", [Key("projectId")]))
    else
      Ok(TaskFilter(
        if "projectId" in query then projectId else None,
        if "status" in query then Some(query["status"]) else None,
        if "search" in query then Some(query["search"]) else None))
  }

  /** A numeral is coerced to its value, a blank value to 0; a value `Number` cannot
      read is refused at `projectId`. */
  lemma ListInputCoercion(query: map<string, string>)
    ensures "projectId" !in query ==> ParseListInput(query).Ok? && ParseListInput(query).value.projectId == None
    ensures "projectId" in query && JsNumber(query["projectId"]).Some? ==>
      ParseListInput(query).Ok? && ParseListInput(query).value.projectId == JsNumber(query["projectId"])
    ensures "projectId" in query && JsNumber(query["projectId"]).None? ==>
      ParseListInput(query) == Err(Issue("Expected number, received nan", [Key("projectId")]))
    ensures ParseListInput(query).Ok? ==>
      && ("status" in query <==> ParseListInput(query).value.status.Some?)
      && ("status" in query ==> ParseListInput(query).value.status.value == query["status"])
      && ("search" in query <==> ParseListInput(query).value.search.Some?)
      && ("search" in query ==> ParseListInput(query).value.search.value == query["search"])
  {
  }

  /** A printed integer is read back as that integer. */
  lemma ListInputReadsPrinted(query: map<string, string>, n: int)
    requires "projectId" in query && query["projectId"] == IntToString(n)
    ensures ParseListInput(query).Ok? && ParseListInput(query).value.projectId == Some(n)
  {
    JsNumberReadsPrinted(n);
  }

  // ---------------------------------------------------------------------------
  // Task create and update inputs

  /** The optional list of tag ids that create and update accept besides the task columns. */
  const TagIdsRule: Rule := Rule("tagIds", NumberArrayKind, true, false)

  /** The create and update schemas, given the rule for dates. */
  function CreateShape(dates: Kind): seq<Rule> {
    TaskShape(dates) + [TagIdsRule]
  }

  function UpdateShape(dates: Kind): seq<Rule> {
    Partial(TaskShape(dates)) + [TagIdsRule]
  }

  const TaskCreateShape: seq<Rule> := CreateShape(DateKind)
  const TaskUpdateShape: seq<Rule> := UpdateShape(DateKind)

  datatype TaskCreateInput = TaskCreateInput(task: InsertTask, tagIds: Field<seq<int>>)
  datatype TaskUpdateInput = TaskUpdateInput(patch: TaskPatch, tagIds: Field<seq<int>>)

  function ParseTaskCreateWith(dates: Kind, body: Json): Result<TaskCreateInput, Issue> {
    match Validate(CreateShape(dates), body)
    case Err(e) => Err(e)
    case Ok(obj) => Ok(TaskCreateInput(DecodeTask(obj), OptionalNumbers(obj, "tagIds")))
  }

  function ParseTaskUpdateWith(dates: Kind, body: Json): Result<TaskUpdateInput, Issue> {
    match Validate(UpdateShape(dates), body)
    case Err(e) => Err(e)
    case Ok(obj) => Ok(TaskUpdateInput(DecodePatch(obj), OptionalNumbers(obj, "tagIds")))
  }

  /** The generated date rule lets no date through: an accepted body has no due
      date or a null one. */
  lemma NoDateAccepted(shape: seq<Rule>, body: Json)
    requires |shape| > 4 && shape[4].key == "dueDate" && shape[4].kind == DateKind
    ensures Validate(shape, body).Ok? ==> !SendsDate(NullableDate(Validate(shape, body).value, "dueDate"))
  {
    ValidateAccepts(shape, body);
    if Validate(shape, body).Ok? {
      assert RuleIssues(shape[4], body.fields) == [];
      assert shape[4].key in Keys(shape);
    }
  }

  /** The create and update inputs as the server parses them, with the generated
      date rule: an accepted input never sets a due date. */
  function ParseTaskCreate(body: Json): (r: Result<TaskCreateInput, Issue>)
    ensures r.Ok? ==> !SendsDate(r.value.task.dueDate)
  {
    NoDateAccepted(TaskCreateShape, body);
    ParseTaskCreateWith(DateKind, body)
  }

  function ParseTaskUpdate(body: Json): (r: Result<TaskUpdateInput, Issue>)
    ensures r.Ok? ==> !SendsDate(r.value.patch.dueDate)
  {
    NoDateAccepted(TaskUpdateShape, body);
    ParseTaskUpdateWith(DateKind, body)
  }

  /** The same inputs with dates coerced from their text. */
  function ParseTaskCreateCoerced(body: Json): Result<TaskCreateInput, Issue> {
    ParseTaskCreateWith(CoercedDateKind, body)
  }

  function ParseTaskUpdateCoerced(body: Json): Result<TaskUpdateInput, Issue> {
    ParseTaskUpdateWith(CoercedDateKind, body)
  }

  function ParseProject(body: Json): Result<InsertProject, Issue> {
    match Validate(ProjectInsertShape, body)
    case Err(e) => Err(e)
    case Ok(obj) => Ok(DecodeProject(obj))
  }

  function ParseTag(body: Json): Result<InsertTag, Issue> {
    match Validate(TagInsertShape, body)
    case Err(e) => Err(e)
    case Ok(obj) => Ok(DecodeTag(obj))
  }

  /** A body with the tag ids added, when there are any. */
  function WithTagIds(obj: map<string, Json>, tagIds: Field<seq<int>>): map<string, Json> {
    if tagIds.Present? then obj["tagIds" := JArray(NumberValues(tagIds.value))] else obj
  }

  /** The body a client sends to create a task. */
  function EncodeTaskCreate(x: TaskCreateInput): map<string, Json> {
    WithTagIds(EncodeTask(x.task), x.tagIds)
  }

  /** The body a client sends to update a task. */
  function EncodeTaskUpdate(x: TaskUpdateInput): map<string, Json> {
    WithTagIds(EncodePatch(x.patch), x.tagIds)
  }

  lemma TaskInsertKeys(dates: Kind)
    ensures Keys(TaskShape(dates)) == TaskKeys
  {
    var S := TaskShape(dates);
    assert S[0].key == "title" && S[1].key == "description" && S[2].key == "priority";
    assert S[3].key == "status" && S[4].key == "dueDate" && S[5].key == "projectId";
    assert S[6].key == "position" && S[7].key == "parentId";
  }

  lemma KeysConcat(a: seq<Rule>, b: seq<Rule>)
    ensures Keys(a + b) == Keys(a) + Keys(b)
  {
    forall k | k in Keys(a) ensures k in Keys(a + b) {
      var j :| 0 <= j < |a| && a[j].key == k;
      assert (a + b)[j] == a[j];
    }
    forall k | k in Keys(b) ensures k in Keys(a + b) {
      var j :| 0 <= j < |b| && b[j].key == k;
      assert (a + b)[|a| + j] == b[j];
    }
  }

  /** Create and update accept the task columns and `tagIds`, and no other key. */
  lemma TaskInputKeys(dates: Kind)
    ensures Keys(CreateShape(dates)) == TaskKeys + {"tagIds"}
    ensures Keys(UpdateShape(dates)) == TaskKeys + {"tagIds"}
  {
    TaskInsertKeys(dates);
    PartialKeys(TaskShape(dates));
    KeysConcat(TaskShape(dates), [TagIdsRule]);
    KeysConcat(Partial(TaskShape(dates)), [TagIdsRule]);
    assert Keys([TagIdsRule]) == {"tagIds"} by {
      assert [TagIdsRule][0].key == "tagIds";
    }
  }

  /** Adding the tag ids keeps a valid body valid under the extended schema. */
  lemma AddTagIds(shape: seq<Rule>, obj: map<string, Json>, tagIds: Field<seq<int>>)
    requires "tagIds" !in Keys(shape) && "tagIds" !in obj
    requires ShapeIssues(shape, obj) == []
    ensures ShapeIssues(shape + [TagIdsRule], WithTagIds(obj, tagIds)) == []
    ensures OptionalNumbers(WithTagIds(obj, tagIds), "tagIds") == tagIds
  {
    var full := WithTagIds(obj, tagIds);
    ShapeIssuesConcat(shape, [TagIdsRule], full);
    if tagIds.Present? {
      forall j | 0 <= j < |shape| ensures shape[j].key != "tagIds" {
        assert shape[j].key in Keys(shape);
      }
      ShapeIssuesIgnoreOtherKeys(shape, obj, "tagIds", JArray(NumberValues(tagIds.value)));
    }
    ReadNumbers(full, "tagIds", tagIds, true);
    assert ShapeIssues([TagIdsRule], full) == RuleIssues(TagIdsRule, full) + ShapeIssues([], full);
  }

  /** The tag ids sit under a key of their own: the columns read the same without them. */
  lemma DecodeIgnoresTagIds(obj: map<string, Json>, tagIds: Field<seq<int>>)
    ensures DecodeTask(WithTagIds(obj, tagIds)) == DecodeTask(obj)
    ensures DecodePatch(WithTagIds(obj, tagIds)) == DecodePatch(obj)
  {
  }

  /** A body built from the task columns and the tag ids names no other key. */
  lemma EncodedKeys(obj: map<string, Json>, tagIds: Field<seq<int>>)
    requires forall k :: k in obj ==> k in TaskKeys
    ensures forall k :: k in WithTagIds(obj, tagIds) ==> k in TaskKeys + {"tagIds"}
  {
  }

  lemma EncodeTaskKeys(p: TaskPatch)
    ensures forall k :: k in EncodePatch(p) ==> k in TaskKeys
  {
  }

  /** `tagIds` is not a task column. */
  lemma TagIdsNotInserted(dates: Kind)
    ensures "tagIds" !in TaskKeys && "tagIds" !in Keys(TaskShape(dates))
  {
    TaskInsertKeys(dates);
  }

  lemma TagIdsNotPatched(dates: Kind)
    ensures "tagIds" !in TaskKeys && "tagIds" !in Keys(Partial(TaskShape(dates)))
  {
    TagIdsNotInserted(dates);
    PartialKeys(TaskShape(dates));
  }

  /** A create body whose columns pass is parsed back into the input it was built from. */
  lemma CreateAccepted(x: TaskCreateInput, dates: Kind)
    requires ShapeIssues(TaskShape(dates), EncodeTask(x.task)) == []
    requires DecodeTask(EncodeTask(x.task)) == x.task
    ensures ParseTaskCreateWith(dates, JObject(EncodeTaskCreate(x))) == Ok(x)
  {
    var m := EncodeTask(x.task);
    var obj := EncodeTaskCreate(x);
    TagIdsNotInserted(dates);
    EncodeTaskKeys(InsertAsPatch(x.task));
    AddTagIds(TaskShape(dates), m, x.tagIds);
    TaskInputKeys(dates);
    EncodedKeys(m, x.tagIds);
    StripKeepsNamedKeys(CreateShape(dates), obj);
    DecodeIgnoresTagIds(m, x.tagIds);
    assert Validate(CreateShape(dates), JObject(obj)) == Ok(obj);
  }

  lemma UpdateAccepted(x: TaskUpdateInput, dates: Kind)
    requires ShapeIssues(Partial(TaskShape(dates)), EncodePatch(x.patch)) == []
    requires DecodePatch(EncodePatch(x.patch)) == x.patch
    ensures ParseTaskUpdateWith(dates, JObject(EncodeTaskUpdate(x))) == Ok(x)
  {
    var m := EncodePatch(x.patch);
    var obj := EncodeTaskUpdate(x);
    TagIdsNotPatched(dates);
    EncodeTaskKeys(x.patch);
    AddTagIds(Partial(TaskShape(dates)), m, x.tagIds);
    TaskInputKeys(dates);
    EncodedKeys(m, x.tagIds);
    StripKeepsNamedKeys(UpdateShape(dates), obj);
    DecodeIgnoresTagIds(m, x.tagIds);
    assert Validate(UpdateShape(dates), JObject(obj)) == Ok(obj);
  }

  /** The first issue of the columns is the first issue of the body: the tag ids
      come after them and under a key of their own. */
  lemma ColumnsRefusedFirst(shape: seq<Rule>, m: map<string, Json>, tagIds: Field<seq<int>>)
    requires "tagIds" !in Keys(shape)
    requires ShapeIssues(shape, m) != []
    ensures Validate(shape + [TagIdsRule], JObject(WithTagIds(m, tagIds))) == Err(ShapeIssues(shape, m)[0])
  {
    var obj := WithTagIds(m, tagIds);
    ShapeIssuesConcat(shape, [TagIdsRule], obj);
    if tagIds.Present? {
      forall j | 0 <= j < |shape| ensures shape[j].key != "tagIds" {
        assert shape[j].key in Keys(shape);
      }
      ShapeIssuesIgnoreOtherKeys(shape, m, "tagIds", JArray(NumberValues(tagIds.value)));
    }
  }

  /** Every create input survives being sent and validated when dates are coerced.
      As the server is written, an input that sends a due date is refused for it
      ("Expected date, received string" at `dueDate`), and every other input
      survives. */
  lemma CreateRoundTrip(x: TaskCreateInput)
    ensures ParseTaskCreateCoerced(JObject(EncodeTaskCreate(x))) == Ok(x)
    ensures ParseTaskCreate(JObject(EncodeTaskCreate(x)))
      == if SendsDate(x.task.dueDate) then Err(DueDateRefusal) else Ok(x)
  {
    TaskRoundTrip(x.task);
    CreateAccepted(x, CoercedDateKind);
    if SendsDate(x.task.dueDate) {
      TagIdsNotInserted(DateKind);
      ColumnsRefusedFirst(TaskInsertShape, EncodeTask(x.task), x.tagIds);
    } else {
      CreateAccepted(x, DateKind);
    }
  }

  /** Every update input survives being sent and validated when dates are coerced.
      As the server is written, an input that sends a due date is refused for it,
      and every other input survives. */
  lemma UpdateRoundTrip(x: TaskUpdateInput)
    ensures ParseTaskUpdateCoerced(JObject(EncodeTaskUpdate(x))) == Ok(x)
    ensures ParseTaskUpdate(JObject(EncodeTaskUpdate(x)))
      == if SendsDate(x.patch.dueDate) then Err(DueDateRefusal) else Ok(x)
  {
    PatchRoundTrip(x.patch);
    UpdateAccepted(x, CoercedDateKind);
    if SendsDate(x.patch.dueDate) {
      TagIdsNotPatched(DateKind);
      ColumnsRefusedFirst(Partial(TaskInsertShape), EncodePatch(x.patch), x.tagIds);
    } else {
      UpdateAccepted(x, DateKind);
    }
  }

  /** A new task "Write report" due at instant `d`, as a client sends it: the
      generated schema refuses it at `dueDate`, the coercing one accepts it. */
  lemma DatedTaskRefused(d: int)
    ensures var x := TaskCreateInput(
        InsertTask("Write report", Absent, Absent, Absent, Present(Some(d)), Absent, Absent, Absent), Absent);
      && ParseTaskCreate(JObject(EncodeTaskCreate(x))) == Err(DueDateRefusal)
      && ParseTaskCreateCoerced(JObject(EncodeTaskCreate(x))) == Ok(x)
  {
    CreateRoundTrip(TaskCreateInput(
      InsertTask("Write report", Absent, Absent, Absent, Present(Some(d)), Absent, Absent, Absent), Absent));
  }

  /** A create body without a title is refused for the title, before anything else. */
  lemma CreateNeedsTitle(obj: map<string, Json>)
    requires "title" !in obj
    ensures ParseTaskCreate(JObject(obj)) == Err(Issue("Required", [Key("title")]))
  {
    ShapeIssuesConcat(TaskInsertShape, [TagIdsRule], obj);
    TaskTitleRequired(obj);
  }

  /** An empty update body passes validation as a patch that supplies no column. */
  lemma UpdateAcceptsEmpty()
    ensures ParseTaskUpdate(JObject(map[])) == Ok(TaskUpdateInput(EmptyPatch, Absent))
  {
    var empty: map<string, Json> := map[];
    PartialAcceptsEmpty(TaskInsertShape);
    ShapeIssuesConcat(Partial(TaskInsertShape), [TagIdsRule], empty);
    assert ShapeIssues([TagIdsRule], empty) == RuleIssues(TagIdsRule, empty) + ShapeIssues([], empty);
  }

  /** Keys other than the task columns and `tagIds` (an `id` or `createdAt`, say) are
      dropped: they change neither the outcome nor the input. */
  lemma InputsIgnoreOtherKeys(obj: map<string, Json>, k: string, v: Json)
    requires k !in TaskKeys && k != "tagIds"
    ensures ParseTaskCreate(JObject(obj[k := v])) == ParseTaskCreate(JObject(obj))
    ensures ParseTaskUpdate(JObject(obj[k := v])) == ParseTaskUpdate(JObject(obj))
  {
    TaskInputKeys(DateKind);
    ValidateIgnoresOtherKeys(TaskCreateShape, obj, k, v);
    ValidateIgnoresOtherKeys(TaskUpdateShape, obj, k, v);
  }

  /** `tagIds` may be left out but not `null`. */
  lemma TagIdsNotNullable(obj: map<string, Json>)
    requires "tagIds" in obj && obj["tagIds"] == JNull
    ensures RuleIssues(TagIdsRule, obj) == [Issue("Expected array, received null", [Key("tagIds")])]
  {
    assert TypeMessage("array", JNull) == "Expected array, received null";
  }

  /** A tag id that is not a number is reported at its index, "tagIds.1" for the second. */
  lemma TagIdElementReported(obj: map<string, Json>, s: string)
    requires "tagIds" in obj && obj["tagIds"] == JArray([JNumber(1), JString(s)])
    ensures RuleIssues(TagIdsRule, obj) == [Issue("Expected number, received string", [Key("tagIds"), Index(1)])]
    ensures JoinPath(RuleIssues(TagIdsRule, obj)[0].path) == "tagIds.1"
  {
    var items := [JNumber(1), JString(s)];
    assert items[1..] == [JString(s)];
    assert items[1..][1..] == [];
    assert ElementIssues(items, 0, [Key("tagIds")])
      == ElementIssues([JString(s)], 1, [Key("tagIds")]);
    assert [Key("tagIds")] + [Index(1)] == [Key("tagIds"), Index(1)];
    assert TypeMessage("number", JString(s)) == "Expected number, received string";
    JoinPathOfElement("tagIds", 1);
    assert NatToString(1) == "1";
  }

  // ---------------------------------------------------------------------------
  // URL building

  /** A path parameter value: a string, or a number printed in decimal. */
  datatype ParamValue = PStr(s: string) | PNum(n: int)

  function ParamText(v: ParamValue): string {
    match v
    case PStr(s) => s
    case PNum(n) => IntToString(n)
  }

  /** One parameter: the first `:key` in the URL is replaced by the value, if there is one. */
  function Substitute(url: string, key: string, v: ParamValue): string {
    if Contains(url, ":" + key) then ReplaceFirst(url, ":" + key, ParamText(v)) else url
  }

  /** The parameters substituted one after another, in the order given. */
  function SubstituteAll(path: string, ps: seq<(string, ParamValue)>): string
    decreases |ps|
  {
    if ps == [] then path
    else Substitute(SubstituteAll(path, ps[..|ps| - 1]), ps[|ps| - 1].0, ps[|ps| - 1].1)
  }

  /** `buildUrl`. */
  method BuildUrl(path: string, params: Option<seq<(string, ParamValue)>>) returns (url: string)
    ensures params.None? ==> url == path
    ensures params.Some? ==> url == SubstituteAll(path, params.value)
  {
    url := path;
    if params.Some? {
      var ps := params.value;
      for i := 0 to |ps|
        invariant url == SubstituteAll(path, ps[..i])
      {
        var (key, value) := ps[i];
        assert ps[..i + 1][..i] == ps[..i];
        if Contains(url, ":" + key) {
          url := ReplaceFirst(url, ":" + key, ParamText(value));
        }
      }
      assert ps[..|ps|] == ps;
    }
  }

  /** A parameter whose placeholder is absent leaves the URL alone; otherwise exactly
      its first placeholder is replaced and the rest of the URL is kept. */
  lemma SubstituteSpec(url: string, key: string, v: ParamValue)
    ensures !Occurs(url, ":" + key) ==> Substitute(url, key, v) == url
    ensures Occurs(url, ":" + key) ==>
      exists i :: (IsFirstOccurrence(url, ":" + key, i)
        && Substitute(url, key, v) == url[..i] + ParamText(v) + url[i + |key| + 1..])
  {
    ContainsOccurs(url, ":" + key);
    ReplaceFirstSpec(url, ":" + key, ParamText(v));
  }

  /** Without parameters the path is returned as it is. */
  lemma NoParamsKeepPath(path: string)
    ensures SubstituteAll(path, []) == path
  {
  }

  /** The placeholder of a task path sits right after "/api/tasks/". */
  lemma TaskPathPlaceholder()
    ensures IndexOf(TaskPath, ":id") == Some(11)
    ensures TaskPath[..11] == "/api/tasks/" && TaskPath[14..] == ""
  {
    assert TaskPath == "/api/tasks/" + ":id" + "";
    IndexOfAfterPrefix("/api/tasks/", ":id", "");
  }

  /** The URL of one task. */
  lemma TaskUrl(id: int)
    ensures SubstituteAll(TaskPath, [("id", PNum(id))]) == "/api/tasks/" + IntToString(id)
  {
    var ps := [("id", PNum(id))];
    assert ps[..0] == [];
    assert SubstituteAll(TaskPath, ps) == Substitute(TaskPath, "id", PNum(id));
    TaskPathPlaceholder();
    assert ":" + "id" == ":id";
    assert ReplaceFirst(TaskPath, ":id", IntToString(id)) == "/api/tasks/" + IntToString(id) + "";
  }
}
