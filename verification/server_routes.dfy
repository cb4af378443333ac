/** The HTTP handlers for tasks, projects and tags, and the start-up seeding. Each
    handler parses its input, calls the store, and maps the outcome to a status code
    and a body. */
module ServerRoutes {
  import opened Wrappers
  import opened Strings
  import opened Validation
  import opened Schema
  import opened ApiContract
  import opened Storage
  import Seqs

  /** What a response carries: a row, a list of rows, an error body, or nothing. */
  datatype Body =
    | NoBody
    | TaskJson(task: Task)
    | TaskListJson(tasks: seq<Task>)
    | ProjectJson(project: Project)
    | ProjectListJson(projects: seq<Project>)
    | TagJson(tag: Tag)
    | TagListJson(tags: seq<Tag>)
    | ErrorJson(error: ErrorBody)

  datatype Response = Response(status: int, body: Body)

  /** A handler either answers, or lets a store error escape it (`throw err`); what
      the framework then sends is not part of this model. */
  datatype Outcome = Answered(response: Response) | Escaped(error: DbError)

  const TaskNotFound: Response := Response(404, ErrorJson(NotFoundError("Task not found")))

  /** The 400 answer for a failed parse: the first issue's message and its path
      joined with ".". */
  function ValidationReply(issue: Issue): (r: Response)
    ensures r.status == 400 && r.body.ErrorJson? && r.body.error.ValidationError?
    ensures r.body.error.message == issue.message && r.body.error.field == Some(JoinPath(issue.path))
  {
    Response(400, ErrorJson(ValidationError(issue.message, Some(JoinPath(issue.path)))))
  }

  // ---------------------------------------------------------------------------
  // GET /api/tasks

  /** The list filter read from the query string: `projectId` goes through `Number`
      only when it is non-empty (a `NaN` imposes nothing, like an absent key);
      `status` and `search` pass through as given. */
  function ListQuery(query: map<string, string>): TaskFilter {
    TaskFilter(
      if "projectId" in query && query["projectId"] != "" then JsNumber(query["projectId"]) else None,
      if "status" in query then Some(query["status"]) else None,
      if "search" in query then Some(query["search"]) else None)
  }

  /** An empty query string lists everything; a printed id filters by that id;
      `status` and `search` are taken verbatim. */
  lemma ListQuerySpec(query: map<string, string>, n: int)
    ensures ListQuery(map[]) == NoFilter
    ensures "projectId" in query && query["projectId"] == IntToString(n) ==> ListQuery(query).projectId == Some(n)
    ensures ("projectId" !in query || query["projectId"] == "") ==> ListQuery(query).projectId == None
    ensures "status" in query ==> ListQuery(query).status == Some(query["status"])
    ensures "search" in query ==> ListQuery(query).search == Some(query["search"])
  {
    JsNumberReadsPrinted(n);
    NatToStringValue(0);
    assert IntToString(n) != "";
  }

  /** The list handler; `failed` stands for a store error, answered with 500. */
  function ListTasks(store: DatabaseStorage, query: map<string, string>, failed: bool): (r: Response)
    reads store
    ensures failed ==> r == Response(500, ErrorJson(InternalError("Failed to fetch tasks")))
    ensures !failed ==> r.status == 200 && r.body.TaskListJson? && NewestFirst(r.body.tasks)
    ensures !failed ==> forall t :: t in r.body.tasks <==> t in store.tasks && MatchesFilter(t, ListQuery(query))
    ensures !failed ==> multiset(r.body.tasks) == multiset(Seqs.Filter(store.tasks, (t: Task) => MatchesFilter(t, ListQuery(query))))
  {
    if failed then Response(500, ErrorJson(InternalError("Failed to fetch tasks")))
    else Response(200, TaskListJson(store.GetTasks(ListQuery(query))))
  }

  // ---------------------------------------------------------------------------
  // GET /api/tasks/:id

  /** The row with that id, or 404 "Task not found". */
  function GetTask(store: DatabaseStorage, id: int): (r: Response)
    reads store
    ensures id !in TaskIds(store.tasks) <==> r == TaskNotFound
    ensures id in TaskIds(store.tasks) ==>
      r.status == 200 && r.body.TaskJson? && r.body.task in store.tasks && r.body.task.id == id
  {
    match store.GetTask(id)
    case None => TaskNotFound
    case Some(t) => Response(200, TaskJson(t))
  }

  // ---------------------------------------------------------------------------
  // POST /api/tasks

  /** Parses the body, splits off `tagIds`, and answers 201 with the inserted row. */
  method CreateTask(store: DatabaseStorage, body: Json, now: int) returns (r: Response)
    requires store.Valid()
    requires ParseTaskCreate(body).Ok? ==> TagsExist(store.tags, ParseTaskCreate(body).value.tagIds)
    modifies store
    ensures store.Valid()
    ensures ParseTaskCreate(body).Err? ==>
      r == ValidationReply(ParseTaskCreate(body).error) && unchanged(store)
    ensures ParseTaskCreate(body).Ok? ==>
      var input := ParseTaskCreate(body).value;
      && r == Response(201, TaskJson(NewTaskRow(old(store.nextTaskId), input.task, now)))
      && store.tasks == old(store.tasks) + [r.body.task]
      && store.taskTags == old(store.taskTags) + LinkRows(old(store.nextTaskTagId), r.body.task.id, TagList(input.tagIds))
      && LinkedTagIds(store.taskTags, r.body.task.id) == TagList(input.tagIds)
      && store.projects == old(store.projects) && store.tags == old(store.tags)
  {
    match ParseTaskCreate(body)
    case Err(issue) =>
      return ValidationReply(issue);
    case Ok(input) =>
      var task := store.CreateTask(input.task, input.tagIds, now);
      return Response(201, TaskJson(task));
  }

  // ---------------------------------------------------------------------------
  // PATCH /api/tasks/:id

  /** The answer to the store's outcome as the handler is written: a store error is
      404, and whatever the store returned is sent with 200, even when nothing was
      updated. */
  function UpdateReplyAsWritten(outcome: Result<Option<Task>, DbError>): (r: Response)
    ensures outcome.Err? ==> r == TaskNotFound
    ensures outcome.Ok? ==> r.status == 200
  {
    match outcome
    case Err(_) => TaskNotFound
    case Ok(Some(t)) => Response(200, TaskJson(t))
    case Ok(None) => Response(200, NoBody)
  }

  /** The answer the route contract promises: 404 whenever no task was updated. */
  function UpdateReply(outcome: Result<Option<Task>, DbError>): (r: Response)
    ensures r.status == 200 <==> outcome.Ok? && outcome.value.Some?
    ensures r.status == 200 ==> r.body == TaskJson(outcome.value.value)
    ensures r.status != 200 ==> r == TaskNotFound
  {
    match outcome
    case Ok(Some(t)) => Response(200, TaskJson(t))
    case _ => TaskNotFound
  }

  /** The two replies differ exactly when the store updated nothing and raised
      nothing. */
  lemma UpdateRepliesDiffer(outcome: Result<Option<Task>, DbError>)
    ensures UpdateReply(outcome) != UpdateReplyAsWritten(outcome) <==> outcome == Ok(None)
    ensures UpdateReplyAsWritten(Ok(None)) == Response(200, NoBody)
  {
  }

  /** PATCH as written: a body that supplies no column (`{}`, or only `tagIds`) is
      refused by the store and answered 404 with nothing changed; for a missing id
      without tag ids the answer is 200 with no body. */
  method UpdateTaskAsWritten(store: DatabaseStorage, id: int, body: Json) returns (r: Response)
    requires store.Valid()
    requires ParseTaskUpdate(body).Ok? ==> TagsExist(store.tags, ParseTaskUpdate(body).value.tagIds)
    modifies store
    ensures store.Valid()
    ensures ParseTaskUpdate(body).Err? ==> r == ValidationReply(ParseTaskUpdate(body).error) && unchanged(store)
    ensures ParseTaskUpdate(body).Ok? && ParseTaskUpdate(body).value.patch == EmptyPatch ==>
      r == TaskNotFound && unchanged(store)
    ensures (ParseTaskUpdate(body).Ok? && ParseTaskUpdate(body).value.patch != EmptyPatch
      && id !in old(TaskIds(store.tasks))) ==>
      && r == (if |TagList(ParseTaskUpdate(body).value.tagIds)| > 0 then TaskNotFound else Response(200, NoBody))
      && store.tasks == old(store.tasks) && store.taskTags == old(store.taskTags)
    ensures (ParseTaskUpdate(body).Ok? && ParseTaskUpdate(body).value.patch != EmptyPatch
      && id in old(TaskIds(store.tasks))) ==>
      var input := ParseTaskUpdate(body).value;
      && r == Response(200, TaskJson(ApplyPatch(old(FindTask(store.tasks, id)).value, input.patch)))
      && store.tasks == PatchRows(old(store.tasks), id, input.patch)
      && (input.tagIds.Present? ==> LinkedTagIds(store.taskTags, id) == input.tagIds.value)
      && (input.tagIds.Absent? ==> store.taskTags == old(store.taskTags))
    ensures store.projects == old(store.projects) && store.tags == old(store.tags)
    ensures forall other :: other != id ==>
      LinkedTagIds(store.taskTags, other) == LinkedTagIds(old(store.taskTags), other)
  {
    match ParseTaskUpdate(body)
    case Err(issue) =>
      return ValidationReply(issue);
    case Ok(input) =>
      var outcome := store.UpdateTask(id, input.patch, input.tagIds);
      return UpdateReplyAsWritten(outcome);
  }

  /** PATCH: 400 on a failed parse; 404 "Task not found" when there is no task with
      that id or the body supplies no column; otherwise the updated row with 200. */
  method UpdateTask(store: DatabaseStorage, id: int, body: Json) returns (r: Response)
    requires store.Valid()
    requires ParseTaskUpdate(body).Ok? ==> TagsExist(store.tags, ParseTaskUpdate(body).value.tagIds)
    modifies store
    ensures store.Valid()
    ensures ParseTaskUpdate(body).Err? ==> r == ValidationReply(ParseTaskUpdate(body).error) && unchanged(store)
    ensures ParseTaskUpdate(body).Ok? && ParseTaskUpdate(body).value.patch == EmptyPatch ==>
      r == TaskNotFound && unchanged(store)
    ensures ParseTaskUpdate(body).Ok? && id !in old(TaskIds(store.tasks)) ==>
      r == TaskNotFound && store.tasks == old(store.tasks) && store.taskTags == old(store.taskTags)
    ensures (ParseTaskUpdate(body).Ok? && ParseTaskUpdate(body).value.patch != EmptyPatch
      && id in old(TaskIds(store.tasks))) ==>
      var input := ParseTaskUpdate(body).value;
      && r == Response(200, TaskJson(ApplyPatch(old(FindTask(store.tasks, id)).value, input.patch)))
      && store.tasks == PatchRows(old(store.tasks), id, input.patch)
      && (input.tagIds.Present? ==> LinkedTagIds(store.taskTags, id) == input.tagIds.value)
      && (input.tagIds.Absent? ==> store.taskTags == old(store.taskTags))
    ensures store.projects == old(store.projects) && store.tags == old(store.tags)
    ensures forall other :: other != id ==>
      LinkedTagIds(store.taskTags, other) == LinkedTagIds(old(store.taskTags), other)
  {
    match ParseTaskUpdate(body)
    case Err(issue) =>
      return ValidationReply(issue);
    case Ok(input) =>
      var outcome := store.UpdateTask(id, input.patch, input.tagIds);
      return UpdateReply(outcome);
  }

  /** PATCH /api/tasks/1 with `{"status": "completed"}` against an empty store: as
      written the answer is 200 with no body, while the route contract says 404. */
  method PatchMissingTask() returns (asWritten: Response, intended: Response)
    ensures asWritten == Response(200, NoBody)
    ensures intended == TaskNotFound
  {
    var input := TaskUpdateInput(StatusPatch("completed"), Absent);
    var body := JObject(EncodeTaskUpdate(input));
    UpdateRoundTrip(input);
    var store := new DatabaseStorage();
    asWritten := UpdateTaskAsWritten(store, 1, body);
    var other := new DatabaseStorage();
    intended := UpdateTask(other, 1, body);
  }

  // ---------------------------------------------------------------------------
  // DELETE /api/tasks/:id

  /** Always 204, whether or not the id existed. */
  method DeleteTask(store: DatabaseStorage, id: int) returns (r: Response)
    requires store.Valid()
    modifies store
    ensures store.Valid()
    ensures r == Response(204, NoBody)
    ensures store.tasks == WithoutTaskRow(old(store.tasks), id)
    ensures store.taskTags == WithoutLinksOf(old(store.taskTags), id)
    ensures store.projects == old(store.projects) && store.tags == old(store.tags)
    ensures store.GetTask(id) == None
  {
    store.DeleteTask(id);
    r := Response(204, NoBody);
  }

  // ---------------------------------------------------------------------------
  // Projects

  /** Every project, with unique slugs. */
  function ListProjects(store: DatabaseStorage): (r: Response)
    requires store.Valid()
    reads store
    ensures r.status == 200 && r.body.ProjectListJson?
    ensures Seqs.DistinctBy(r.body.projects, ProjectSlug)
    ensures forall p :: p in r.body.projects <==> p in store.projects
  {
    Response(200, ProjectListJson(store.GetProjects()))
  }

  /** 400 on a failed parse, 201 with the new row, or the unique-slug error escapes. */
  method CreateProject(store: DatabaseStorage, body: Json) returns (out: Outcome)
    requires store.Valid()
    modifies store
    ensures store.Valid()
    ensures ParseProject(body).Err? ==> out == Answered(ValidationReply(ParseProject(body).error)) && unchanged(store)
    ensures ParseProject(body).Ok? && SlugTaken(old(store.projects), ParseProject(body).value.slug) ==>
      out == Escaped(UniqueViolation) && store.projects == old(store.projects)
    ensures ParseProject(body).Ok? && !SlugTaken(old(store.projects), ParseProject(body).value.slug) ==>
      && out == Answered(Response(201, ProjectJson(NewProjectRow(old(store.nextProjectId), ParseProject(body).value))))
      && store.projects == old(store.projects) + [out.response.body.project]
    ensures store.tags == old(store.tags) && store.tasks == old(store.tasks) && store.taskTags == old(store.taskTags)
  {
    match ParseProject(body)
    case Err(issue) =>
      return Answered(ValidationReply(issue));
    case Ok(input) =>
      var created := store.CreateProject(input);
      match created
      case Err(e) =>
        return Escaped(e);
      case Ok(p) =>
        return Answered(Response(201, ProjectJson(p)));
  }

  /** Always 204; tasks that named the project keep their reference. */
  method DeleteProject(store: DatabaseStorage, id: int) returns (r: Response)
    requires store.Valid()
    modifies store
    ensures store.Valid()
    ensures r == Response(204, NoBody)
    ensures store.projects == WithoutProjectRow(old(store.projects), id)
    ensures store.tasks == old(store.tasks) && store.tags == old(store.tags) && store.taskTags == old(store.taskTags)
  {
    store.DeleteProject(id);
    r := Response(204, NoBody);
  }

  // ---------------------------------------------------------------------------
  // Tags

  /** Every tag, with unique names. */
  function ListTags(store: DatabaseStorage): (r: Response)
    requires store.Valid()
    reads store
    ensures r.status == 200 && r.body.TagListJson?
    ensures Seqs.DistinctBy(r.body.tags, TagName)
    ensures forall t :: t in r.body.tags <==> t in store.tags
  {
    Response(200, TagListJson(store.GetTags()))
  }

  /** 400 on a failed parse, 201 with the new row, or the unique-name error escapes. */
  method CreateTag(store: DatabaseStorage, body: Json) returns (out: Outcome)
    requires store.Valid()
    modifies store
    ensures store.Valid()
    ensures ParseTag(body).Err? ==> out == Answered(ValidationReply(ParseTag(body).error)) && unchanged(store)
    ensures ParseTag(body).Ok? && NameTaken(old(store.tags), ParseTag(body).value.name) ==>
      out == Escaped(UniqueViolation) && store.tags == old(store.tags)
    ensures ParseTag(body).Ok? && !NameTaken(old(store.tags), ParseTag(body).value.name) ==>
      && out == Answered(Response(201, TagJson(NewTagRow(old(store.nextTagId), ParseTag(body).value))))
      && store.tags == old(store.tags) + [out.response.body.tag]
    ensures store.projects == old(store.projects) && store.tasks == old(store.tasks) && store.taskTags == old(store.taskTags)
  {
    match ParseTag(body)
    case Err(issue) =>
      return Answered(ValidationReply(issue));
    case Ok(input) =>
      var created := store.CreateTag(input);
      match created
      case Err(e) =>
        return Escaped(e);
      case Ok(t) =>
        return Answered(Response(201, TagJson(t)));
  }

  // ---------------------------------------------------------------------------
  // Start-up seeding

  const WorkProject: InsertProject := InsertProject("Work", "work", Present("#3b82f6"))
  const PersonalProject: InsertProject := InsertProject("Personal", "personal", Present("#10b981"))
  const UrgentTag: InsertTag := InsertTag("Urgent", Present("#ef4444"))
  const LearningTag: InsertTag := InsertTag("Learning", Present("#8b5cf6"))

  /** The three seeded tasks, given the id of the project each belongs to. */
  function ProposalTask(workId: int): InsertTask {
    InsertTask("Complete project proposal", Present(Some("Draft the initial requirements and timeline")),
      Present("high"), Present("todo"), Absent, Present(Some(workId)), Absent, Absent)
  }

  function GroceriesTask(personalId: int): InsertTask {
    InsertTask("Buy groceries", Present(Some("Milk, eggs, bread")),
      Present("medium"), Present("todo"), Absent, Present(Some(personalId)), Absent, Absent)
  }

  function GenericsTask(personalId: int): InsertTask {
    InsertTask("Learn TypeScript Generics", Present(Some("Read documentation and practice")),
      Present("low"), Present("in_progress"), Absent, Present(Some(personalId)), Absent, Absent)
  }

  /** A seed row would break a unique constraint of the current tables. */
  predicate SeedCollides(projects: seq<Project>, tags: seq<Tag>) {
    SeedProjectsCollide(projects) || SeedTagsCollide(tags)
  }

  predicate SeedProjectsCollide(projects: seq<Project>) {
    SlugTaken(projects, "work") || SlugTaken(projects, "personal")
  }

  predicate SeedTagsCollide(tags: seq<Tag>) {
    NameTaken(tags, "Urgent") || NameTaken(tags, "Learning")
  }

  lemma SlugTakenAppend(projects: seq<Project>, p: Project, slug: string)
    requires p.slug != slug
    ensures SlugTaken(projects + [p], slug) == SlugTaken(projects, slug)
  {
    if SlugTaken(projects + [p], slug) {
      var i :| 0 <= i < |projects + [p]| && (projects + [p])[i].slug == slug;
      assert projects[i].slug == slug;
    }
    if SlugTaken(projects, slug) {
      var i :| 0 <= i < |projects| && projects[i].slug == slug;
      assert (projects + [p])[i].slug == slug;
    }
  }

  lemma NameTakenAppend(tags: seq<Tag>, t: Tag, name: string)
    requires t.name != name
    ensures NameTaken(tags + [t], name) == NameTaken(tags, name)
  {
    if NameTaken(tags + [t], name) {
      var i :| 0 <= i < |tags + [t]| && (tags + [t])[i].name == name;
      assert tags[i].name == name;
    }
    if NameTaken(tags, name) {
      var i :| 0 <= i < |tags| && tags[i].name == name;
      assert (tags + [t])[i].name == name;
    }
  }

  /** The rows the seed inserts, given the serial values in force before it. */
  function SeedProjectRows(p: int): seq<Project> {
    [NewProjectRow(p, WorkProject), NewProjectRow(p + 1, PersonalProject)]
  }

  function SeedTagRows(g: int): seq<Tag> {
    [NewTagRow(g, UrgentTag), NewTagRow(g + 1, LearningTag)]
  }

  function SeedTaskRows(n: int, p: int, t1: int, t2: int, t3: int): seq<Task> {
    [NewTaskRow(n, ProposalTask(p), t1), NewTaskRow(n + 1, GroceriesTask(p + 1), t2),
     NewTaskRow(n + 2, GenericsTask(p + 1), t3)]
  }

  function SeedLinkRows(k: int, n: int, g: int): seq<TaskTag> {
    [TaskTag(k, n, g), TaskTag(k + 1, n + 2, g + 1)]
  }

  /** The rows the seed leaves behind when its projects clash: each insert is
      awaited on its own, so the Work row stays when only "personal" is taken. */
  function WorkRowIfFree(projects: seq<Project>, p: int): seq<Project> {
    if SlugTaken(projects, "work") then [] else [NewProjectRow(p, WorkProject)]
  }

  /** Likewise for the tags: the Urgent row stays when only "Learning" is taken. */
  function UrgentRowIfFree(tags: seq<Tag>, g: int): seq<Tag> {
    if NameTaken(tags, "Urgent") then [] else [NewTagRow(g, UrgentTag)]
  }

  /** `seedDatabase`: only when there are no tasks, creates the two projects, the
      two tags and the three tasks, in that order, stopping at the first store error.
      `Ok(false)` means there was nothing to do. */
  method SeedDatabase(store: DatabaseStorage, t1: int, t2: int, t3: int) returns (r: Result<bool, DbError>)
    requires store.Valid()
    modifies store
    ensures store.Valid()
    ensures old(store.tasks) != [] ==> r == Ok(false) && unchanged(store)
    ensures old(store.tasks) == [] && SeedCollides(old(store.projects), old(store.tags)) ==>
      r == Err(UniqueViolation) && store.tasks == [] && store.taskTags == old(store.taskTags)
    ensures (old(store.tasks) == [] && SeedProjectsCollide(old(store.projects))) ==>
      && store.projects == old(store.projects) + WorkRowIfFree(old(store.projects), old(store.nextProjectId))
      && store.tags == old(store.tags)
    ensures (old(store.tasks) == [] && !SeedProjectsCollide(old(store.projects))
             && SeedTagsCollide(old(store.tags))) ==>
      && store.projects == old(store.projects) + SeedProjectRows(old(store.nextProjectId))
      && store.tags == old(store.tags) + UrgentRowIfFree(old(store.tags), old(store.nextTagId))
    ensures old(store.tasks) == [] && !SeedCollides(old(store.projects), old(store.tags)) ==>
      var p, g, n := old(store.nextProjectId), old(store.nextTagId), old(store.nextTaskId);
      && r == Ok(true)
      && store.projects == old(store.projects) + SeedProjectRows(p)
      && store.tags == old(store.tags) + SeedTagRows(g)
      && store.tasks == SeedTaskRows(n, p, t1, t2, t3)
      && store.taskTags == SeedLinkRows(old(store.nextTaskTagId), n, g)
  {
    NoFilterListsAll(store.tasks);
    if |store.GetTasks(NoFilter)| != 0 {
      return Ok(false);
    }
    var p, g, n := store.nextProjectId, store.nextTagId, store.nextTaskId;
    var projectsOk := SeedProjects(store);
    if !projectsOk {
      return Err(UniqueViolation);
    }
    var tagsOk := SeedTags(store);
    if !tagsOk {
      return Err(UniqueViolation);
    }
    SeedTasks(store, p, g, t1, t2, t3);
    r := Ok(true);
  }

  /** The two project inserts of the seed; false when one of them fails. */
  method SeedProjects(store: DatabaseStorage) returns (ok: bool)
    requires store.Valid()
    modifies store
    ensures store.Valid()
    ensures !ok <==> SlugTaken(old(store.projects), "work") || SlugTaken(old(store.projects), "personal")
    ensures ok ==> store.projects == old(store.projects) + SeedProjectRows(old(store.nextProjectId))
    ensures !ok ==> store.projects == old(store.projects) + WorkRowIfFree(old(store.projects), old(store.nextProjectId))
    ensures store.tags == old(store.tags) && store.tasks == old(store.tasks) && store.taskTags == old(store.taskTags)
    ensures store.nextTagId == old(store.nextTagId) && store.nextTaskId == old(store.nextTaskId)
    ensures store.nextTaskTagId == old(store.nextTaskTagId)
  {
    var work := store.CreateProject(WorkProject);
    if work.Err? {
      return false;
    }
    SlugTakenAppend(old(store.projects), work.value, "personal");
    var personal := store.CreateProject(PersonalProject);
    ok := personal.Ok?;
  }

  /** The two tag inserts of the seed; false when one of them fails. */
  method SeedTags(store: DatabaseStorage) returns (ok: bool)
    requires store.Valid()
    modifies store
    ensures store.Valid()
    ensures !ok <==> NameTaken(old(store.tags), "Urgent") || NameTaken(old(store.tags), "Learning")
    ensures ok ==> var g := old(store.nextTagId);
      && store.tags == old(store.tags) + SeedTagRows(g)
      && g in TagIds(store.tags) && g + 1 in TagIds(store.tags)
    ensures !ok ==> store.tags == old(store.tags) + UrgentRowIfFree(old(store.tags), old(store.nextTagId))
    ensures store.projects == old(store.projects) && store.tasks == old(store.tasks)
    ensures store.taskTags == old(store.taskTags)
    ensures store.nextProjectId == old(store.nextProjectId) && store.nextTaskId == old(store.nextTaskId)
    ensures store.nextTaskTagId == old(store.nextTaskTagId)
  {
    var urgent := store.CreateTag(UrgentTag);
    if urgent.Err? {
      return false;
    }
    NameTakenAppend(old(store.tags), urgent.value, "Learning");
    var learning := store.CreateTag(LearningTag);
    if learning.Err? {
      return false;
    }
    TagIdsGrow(old(store.tags) + [urgent.value], learning.value);
    ok := true;
  }

  /** The three task inserts of the seed, into a store without tasks: the first
      task is linked to tag `g`, the third to tag `g + 1`. */
  method SeedTasks(store: DatabaseStorage, p: int, g: int, t1: int, t2: int, t3: int)
    requires store.Valid() && store.tasks == []
    requires g in TagIds(store.tags) && g + 1 in TagIds(store.tags)
    modifies store
    ensures store.Valid()
    ensures store.tasks == SeedTaskRows(old(store.nextTaskId), p, t1, t2, t3)
    ensures store.taskTags == SeedLinkRows(old(store.nextTaskTagId), old(store.nextTaskId), g)
    ensures store.projects == old(store.projects) && store.tags == old(store.tags)
  {
    NoTasksNoLinks(store.taskTags, TagIds(store.tags));
    var n, k := store.nextTaskId, store.nextTaskTagId;
    var first := SeedTask(store, ProposalTask(p), [g], t1);
    assert store.taskTags == [TaskTag(k, n, g)];
    SeedLaterTasks(store, p, g, t2, t3);
    assert store.taskTags == [TaskTag(k, n, g)] + [TaskTag(k + 1, n + 2, g + 1)];
    SeedRowsSplit(n, k, p, g, t1, t2, t3);
  }

  /** The second and third task inserts of the seed. */
  method SeedLaterTasks(store: DatabaseStorage, p: int, g: int, t2: int, t3: int)
    requires store.Valid() && g + 1 in TagIds(store.tags)
    modifies store
    ensures store.Valid()
    ensures var n := old(store.nextTaskId);
      store.tasks == old(store.tasks) + [NewTaskRow(n, GroceriesTask(p + 1), t2), NewTaskRow(n + 1, GenericsTask(p + 1), t3)]
    ensures store.taskTags == old(store.taskTags) + [TaskTag(old(store.nextTaskTagId), old(store.nextTaskId) + 1, g + 1)]
    ensures store.projects == old(store.projects) && store.tags == old(store.tags)
  {
    var second := SeedTask(store, GroceriesTask(p + 1), [], t2);
    var third := SeedTask(store, GenericsTask(p + 1), [g + 1], t3);
    assert store.tasks == old(store.tasks) + [second] + [third];
  }

  /** One `createTask` of the seed; an empty list stands for an omitted `tagIds`,
      which inserts no association row either. */
  method SeedTask(store: DatabaseStorage, ins: InsertTask, tagIds: seq<int>, now: int) returns (task: Task)
    requires store.Valid() && |tagIds| <= 1
    requires forall k :: 0 <= k < |tagIds| ==> tagIds[k] in TagIds(store.tags)
    modifies store
    ensures store.Valid()
    ensures task == NewTaskRow(old(store.nextTaskId), ins, now)
    ensures store.tasks == old(store.tasks) + [task] && store.nextTaskId == old(store.nextTaskId) + 1
    ensures tagIds == [] ==> store.taskTags == old(store.taskTags) && store.nextTaskTagId == old(store.nextTaskTagId)
    ensures tagIds != [] ==>
      && store.taskTags == old(store.taskTags) + [TaskTag(old(store.nextTaskTagId), task.id, tagIds[0])]
      && store.nextTaskTagId == old(store.nextTaskTagId) + 1
    ensures store.projects == old(store.projects) && store.tags == old(store.tags)
  {
    var field := if tagIds == [] then Absent else Present(tagIds);
    assert TagList(field) == tagIds;
    task := store.CreateTask(ins, field, now);
    assert LinkRows(old(store.nextTaskTagId), task.id, tagIds) == if tagIds == [] then []
      else [TaskTag(old(store.nextTaskTagId), task.id, tagIds[0])];
  }

  lemma SeedRowsSplit(n: int, k: int, p: int, g: int, t1: int, t2: int, t3: int)
    ensures SeedTaskRows(n, p, t1, t2, t3) ==
      [NewTaskRow(n, ProposalTask(p), t1)] + [NewTaskRow(n + 1, GroceriesTask(p + 1), t2), NewTaskRow(n + 2, GenericsTask(p + 1), t3)]
    ensures SeedLinkRows(k, n, g) == [TaskTag(k, n, g)] + [TaskTag(k + 1, n + 2, g + 1)]
  {
  }

  /** The seeded association rows give the first task one tag, the second none and
      the third one. */
  lemma SeedLinksJoin(k: int, n: int, g: int)
    ensures LinkedTagIds(SeedLinkRows(k, n, g), n) == [g]
    ensures LinkedTagIds(SeedLinkRows(k, n, g), n + 1) == []
    ensures LinkedTagIds(SeedLinkRows(k, n, g), n + 2) == [g + 1]
  {
    var links := SeedLinkRows(k, n, g);
    var last := [TaskTag(k + 1, n + 2, g + 1)];
    assert links[0] == TaskTag(k, n, g) && links[1..] == last;
    assert last[0] == TaskTag(k + 1, n + 2, g + 1) && last[1..] == [];
    forall x ensures LinkedTagIds(links, x) == (if x == n then [g] else []) + (if x == n + 2 then [g + 1] else []) {
      assert LinkedTagIds(last, x) == (if x == n + 2 then [g + 1] else []) + LinkedTagIds([], x);
    }
  }
}
