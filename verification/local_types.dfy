/** The client's local data model: priority and status enumerations, subtasks,
    tasks, projects and the whole application state kept in the browser. */
module LocalTypes {
  import opened Wrappers

  datatype Priority = Low | Medium | High

  /** The local status names are hyphenated ("in-progress"), unlike the server's "in_progress". */
  datatype Status = Todo | InProgress | Completed | Archived

  function PriorityName(p: Priority): string {
    match p
    case Low => "low"
    case Medium => "medium"
    case High => "high"
  }

  function StatusName(s: Status): string {
    match s
    case Todo => "todo"
    case InProgress => "in-progress"
    case Completed => "completed"
    case Archived => "archived"
  }

  /** The enumeration check `Priority.parse`: exactly the three names are accepted. */
  function ParsePriority(s: string): (r: Option<Priority>)
    ensures r.Some? <==> s in ["low", "medium", "high"]
    ensures r.Some? ==> PriorityName(r.value) == s
  {
    if s == "low" then Some(Low)
    else if s == "medium" then Some(Medium)
    else if s == "high" then Some(High)
    else None
  }

  /** The enumeration check `Status.parse`: exactly the four names are accepted. */
  function ParseStatus(s: string): (r: Option<Status>)
    ensures r.Some? <==> s in ["todo", "in-progress", "completed", "archived"]
    ensures r.Some? ==> StatusName(r.value) == s
  {
    if s == "todo" then Some(Todo)
    else if s == "in-progress" then Some(InProgress)
    else if s == "completed" then Some(Completed)
    else if s == "archived" then Some(Archived)
    else None
  }

  lemma PriorityRoundTrip(p: Priority)
    ensures ParsePriority(PriorityName(p)) == Some(p)
  {
  }

  lemma StatusRoundTrip(s: Status)
    ensures ParseStatus(StatusName(s)) == Some(s)
  {
  }

  /** The server spells the in-progress state "in_progress", which the local enumeration refuses. */
  lemma ServerInProgressRefused()
    ensures ParseStatus("in_progress") == None
  {
  }

  datatype Subtask = Subtask(id: string, title: string, completed: bool)

  /** A locally stored task; `dueDate` and `createdAt` are abstract instants. */
  datatype Task = Task(
    id: string,
    title: string,
    description: string,
    priority: Priority,
    status: Status,
    dueDate: Option<int>,
    tags: seq<string>,
    subtasks: seq<Subtask>,
    projectId: Option<string>,
    createdAt: int)

  datatype Project = Project(id: string, name: string, color: string)

  datatype AppState = AppState(tasks: seq<Task>, projects: seq<Project>, tags: seq<string>, focusMode: bool)
}
