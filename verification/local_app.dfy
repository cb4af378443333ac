/** The offline single-page app: a task list held in component state, with quick add,
    status toggle, delete, focus mode and a four-way filter. The list transforms are
    functions; the component is a class whose methods assign the new state. */
module LocalApp {
  import opened Wrappers
  import opened Strings
  import Seqs
  import opened LocalTypes
  import TaskParser

  /** JavaScript truthiness of a selection: `null` and "" both mean "nothing selected". */
  predicate Selected(sel: Option<string>) {
    sel.Some? && sel.value != ""
  }

  /** The status tab: "all", or one status. */
  datatype Tab = AllTab | StatusTab(status: Status)

  /** The task built by `addTask` from the parsed input. */
  function NewTask(id: string, input: string, now: int, activeTag: Option<string>, activeProject: Option<string>): Task {
    var parsed := TaskParser.Parse(input, now);
    Task(id, parsed.title, "", Medium, Todo, parsed.dueDate,
         if Selected(activeTag) then [activeTag.value] else [],
         [], activeProject, now)
  }

  /** The task list after `addTask`. */
  function WithTaskAdded(tasks: seq<Task>, id: string, input: string, now: int,
                         activeTag: Option<string>, activeProject: Option<string>): seq<Task>
  {
    if AllSpace(input) then tasks
    else [NewTask(id, input, now, activeTag, activeProject)] + tasks
  }

  /** Blank input changes nothing; otherwise exactly one task goes in front of the
      unchanged old list, built from the parsed input and the current selections. */
  lemma AddTaskPrepends(tasks: seq<Task>, id: string, input: string, now: int,
                        activeTag: Option<string>, activeProject: Option<string>)
    ensures var r := WithTaskAdded(tasks, id, input, now, activeTag, activeProject);
      && (Trim(input) == "" ==> r == tasks)
      && (Trim(input) != "" ==> |r| == |tasks| + 1 && r[1..] == tasks)
      && (Trim(input) != "" ==>
        && r[0].id == id
        && r[0].title == TaskParser.Parse(input, now).title
        && r[0].dueDate == TaskParser.Parse(input, now).dueDate
        && r[0].priority == Medium && r[0].status == Todo
        && r[0].description == "" && r[0].subtasks == []
        && r[0].tags == (if Selected(activeTag) then [activeTag.value] else [])
        && r[0].projectId == activeProject
        && r[0].createdAt == now)
  {
    TrimEmptyIffAllSpace(input);
  }

  /** The status a toggle moves to: completed goes back to todo, anything else to completed. */
  function Toggled(s: Status): Status {
    if s == Completed then Todo else Completed
  }

  /** `toggleTaskStatus`: the tasks with that id get the toggled status; nothing else changes. */
  function ToggleStatusIn(tasks: seq<Task>, id: string): (r: seq<Task>)
    ensures |r| == |tasks|
    ensures forall i :: 0 <= i < |tasks| && tasks[i].id != id ==> r[i] == tasks[i]
    ensures forall i :: 0 <= i < |tasks| && tasks[i].id == id ==>
      r[i] == tasks[i].(status := Toggled(tasks[i].status))
  {
    if tasks == [] then []
    else
      var t := tasks[0];
      [if t.id == id then t.(status := Toggled(t.status)) else t] + ToggleStatusIn(tasks[1..], id)
  }

  /** Toggling twice restores a todo or completed task ... */
  lemma ToggleTwiceRestores(tasks: seq<Task>, id: string)
    requires forall i :: 0 <= i < |tasks| && tasks[i].id == id ==> tasks[i].status in {Todo, Completed}
    ensures ToggleStatusIn(ToggleStatusIn(tasks, id), id) == tasks
  {
    var r := ToggleStatusIn(ToggleStatusIn(tasks, id), id);
    assert forall i :: 0 <= i < |tasks| ==> r[i] == tasks[i];
  }

  /** ... but not an in-progress or archived one, which ends at todo. */
  lemma ToggleTwiceFromOtherStatus(t: Task)
    requires t.status in {InProgress, Archived}
    ensures ToggleStatusIn(ToggleStatusIn([t], t.id), t.id) == [t.(status := Todo)]
  {
  }

  /** `deleteTask`: every task with that id is removed; the rest keep their order. */
  function WithoutTask(tasks: seq<Task>, id: string): (r: seq<Task>)
    ensures forall t :: t in r <==> t in tasks && t.id != id
    ensures forall t :: multiset(r)[t] == if t.id != id then multiset(tasks)[t] else 0
    ensures Seqs.IsSubsequence(r, tasks)
  {
    Seqs.FilterCounts(tasks, (t: Task) => t.id != id);
    Seqs.FilterMembers(tasks, (t: Task) => t.id != id);
    Seqs.FilterIsSubsequence(tasks, (t: Task) => t.id != id);
    Seqs.Filter(tasks, (t: Task) => t.id != id)
  }

  /** The four tests of `filteredTasks`. */
  predicate Matches(t: Task, query: string, tab: Tab, project: Option<string>, tag: Option<string>) {
    && (Contains(Lower(t.title), Lower(query)) || Contains(Lower(t.description), Lower(query)))
    && (tab.AllTab? || t.status == tab.status)
    && (!Selected(project) || t.projectId == project)
    && (!Selected(tag) || tag.value in t.tags)
  }

  /** `filteredTasks`: the tasks passing all four tests, in list order. */
  function FilterTasks(tasks: seq<Task>, query: string, tab: Tab, project: Option<string>, tag: Option<string>): (r: seq<Task>)
    ensures forall t :: t in r <==> t in tasks && Matches(t, query, tab, project, tag)
    ensures forall t :: multiset(r)[t] == if Matches(t, query, tab, project, tag) then multiset(tasks)[t] else 0
    ensures Seqs.IsSubsequence(r, tasks)
  {
    Seqs.FilterCounts(tasks, (t: Task) => Matches(t, query, tab, project, tag));
    Seqs.FilterMembers(tasks, (t: Task) => Matches(t, query, tab, project, tag));
    Seqs.FilterIsSubsequence(tasks, (t: Task) => Matches(t, query, tab, project, tag));
    Seqs.Filter(tasks, (t: Task) => Matches(t, query, tab, project, tag))
  }

  /** With an empty search and nothing selected, every task is shown. */
  lemma NoFilterShowsAll(tasks: seq<Task>)
    ensures FilterTasks(tasks, "", AllTab, None, None) == tasks
  {
    forall t: Task
      ensures Matches(t, "", AllTab, None, None)
    {
      ContainsEmpty(Lower(t.title));
    }
    Seqs.FilterKeepsAll(tasks, (t: Task) => Matches(t, "", AllTab, None, None));
  }

  /** The `App` component's state. */
  class App {
    var state: AppState
    var searchQuery: string
    var activeTab: Tab
    var activeProject: Option<string>
    var activeTag: Option<string>
    var inputTask: string

    constructor (initial: AppState)
      ensures state == initial && searchQuery == "" && activeTab == AllTab
      ensures activeProject == None && activeTag == None && inputTask == ""
    {
      state := initial;
      searchQuery := "";
      activeTab := AllTab;
      activeProject := None;
      activeTag := None;
      inputTask := "";
    }

    /** The list on screen. */
    function Visible(): seq<Task>
      reads this
    {
      FilterTasks(state.tasks, searchQuery, activeTab, activeProject, activeTag)
    }

    /** `addTask`, with `id` from the random-id source and `now` from the clock:
        blank input is ignored; otherwise the task list grows and the input box clears. */
    method AddTask(id: string, now: int)
      modifies this`state, this`inputTask
      ensures inputTask == (if AllSpace(old(inputTask)) then old(inputTask) else "")
      ensures state == old(state).(tasks := WithTaskAdded(old(state.tasks), id, old(inputTask), now, activeTag, activeProject))
    {
      var input := inputTask;
      state := state.(tasks := WithTaskAdded(state.tasks, id, input, now, activeTag, activeProject));
      if !AllSpace(input) {
        inputTask := "";
      }
    }

    method ToggleTaskStatus(id: string)
      modifies this`state
      ensures state == old(state).(tasks := ToggleStatusIn(old(state.tasks), id))
    {
      state := state.(tasks := ToggleStatusIn(state.tasks, id));
    }

    method DeleteTask(id: string)
      modifies this`state
      ensures state == old(state).(tasks := WithoutTask(old(state.tasks), id))
    {
      state := state.(tasks := WithoutTask(state.tasks, id));
    }

    /** The focus-mode button flips `focusMode` and nothing else. */
    method ToggleFocusMode()
      modifies this`state
      ensures state == old(state).(focusMode := !old(state.focusMode))
    {
      state := state.(focusMode := !state.focusMode);
    }
  }
}
