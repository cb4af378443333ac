/** The task hooks of the web client: the list URL built from the filters, the
    single-task fetch that reads a 404 as "no task", and the optimistic update of
    the cached task list with its rollback. */
module UseTasks {
  import opened Wrappers
  import opened Strings
  import Seqs
  import opened Schema
  import opened ApiContract
  import opened Storage
  import ServerRoutes

  // ---------------------------------------------------------------------------
  // useTasks: the list URL

  /** One query parameter, `key=value`. */
  type Param = (string, string)

  /** The parameters a filter puts in the query string: `projectId`, `status` and
      `search`, in that order, each only when JavaScript counts its value as true. */
  function FilterParams(f: TaskFilter): seq<Param> {
    (if ProjectSelected(f) then [("projectId", IntToString(f.projectId.value))] else [])
    + (if StatusSelected(f) then [("status", f.status.value)] else [])
    + (if SearchSelected(f) then [("search", f.search.value)] else [])
  }

  /** The successive `append` calls on a fresh `URLSearchParams`. */
  method AppendFilterParams(f: TaskFilter) returns (params: seq<Param>)
    ensures params == FilterParams(f)
  {
    params := [];
    if ProjectSelected(f) {
      params := params + [("projectId", IntToString(f.projectId.value))];
    }
    if StatusSelected(f) {
      params := params + [("status", f.status.value)];
    }
    if SearchSelected(f) {
      params := params + [("search", f.search.value)];
    }
  }

  /** Where a key stands in the query string. */
  function KeyRank(key: string): int {
    if key == "projectId" then 0 else if key == "status" then 1 else 2
  }

  /** The query string holds exactly the truthy filter values, keys in the order
      projectId, status, search, and no key twice. */
  lemma FilterParamsSpec(f: TaskFilter)
    ensures var ps := FilterParams(f);
      && (forall p :: p in ps <==>
            || (ProjectSelected(f) && p == ("projectId", IntToString(f.projectId.value)))
            || (StatusSelected(f) && p == ("status", f.status.value))
            || (SearchSelected(f) && p == ("search", f.search.value)))
      && (forall i, j :: 0 <= i < j < |ps| ==> KeyRank(ps[i].0) < KeyRank(ps[j].0))
      && (ps == [] <==> !ProjectSelected(f) && !StatusSelected(f) && !SearchSelected(f))
  {
  }

  /** `URLSearchParams.toString()`: the pairs as `key=value`, joined with "&". */
  function QueryString(params: seq<Param>): string {
    if params == [] then ""
    else params[0].0 + "=" + params[0].1 + (if |params| == 1 then "" else "&" + QueryString(params[1..]))
  }

  /** The URL `useTasks` fetches: the bare list path when the query string is
      empty, otherwise the path, "?" and the query string. */
  method ListUrl(f: TaskFilter) returns (url: string)
    ensures !ProjectSelected(f) && !StatusSelected(f) && !SearchSelected(f) ==> url == TasksPath
    ensures ProjectSelected(f) || StatusSelected(f) || SearchSelected(f) ==>
      url == TasksPath + "?" + QueryString(FilterParams(f))
  {
    var params := AppendFilterParams(f);
    FilterParamsSpec(f);
    var query := QueryString(params);
    if params != [] {
      assert |query| > 0 by {
        assert |params[0].0| > 0;
      }
    }
    url := if query != "" then TasksPath + "?" + query else TasksPath;
  }

  /** The query the server reads back: each key with its value (the first one,
      should a key repeat). */
  function QueryMap(params: seq<Param>): map<string, string> {
    if params == [] then map[] else QueryMap(params[1..])[params[0].0 := params[0].1]
  }

  lemma QueryMapPrefix(head: seq<Param>, rest: seq<Param>)
    requires |head| <= 1
    ensures QueryMap(head + rest) == if head == [] then QueryMap(rest) else QueryMap(rest)[head[0].0 := head[0].1]
  {
    if head == [] {
      assert head + rest == rest;
    } else {
      assert (head + rest)[1..] == rest;
    }
  }

  /** The filter as the server sees it: the falsy values are gone. */
  function Normalized(f: TaskFilter): TaskFilter {
    TaskFilter(
      if ProjectSelected(f) then f.projectId else None,
      if StatusSelected(f) then f.status else None,
      if SearchSelected(f) then f.search else None)
  }

  /** The server parses the client's query back into the filter the client holds,
      minus its falsy values, ... */
  lemma ServerReadsFilter(f: TaskFilter)
    ensures ServerRoutes.ListQuery(QueryMap(FilterParams(f))) == Normalized(f)
  {
    FilterQueryMap(f);
    if ProjectSelected(f) {
      JsNumberReadsPrinted(f.projectId.value);
      NatToStringValue(0);
      assert IntToString(f.projectId.value) != "";
    }
  }

  /** The keys of the query are the truthy filter values. */
  lemma FilterQueryMap(f: TaskFilter)
    ensures var m := QueryMap(FilterParams(f));
      && ("projectId" in m <==> ProjectSelected(f)) && (ProjectSelected(f) ==> m["projectId"] == IntToString(f.projectId.value))
      && ("status" in m <==> StatusSelected(f)) && (StatusSelected(f) ==> m["status"] == f.status.value)
      && ("search" in m <==> SearchSelected(f)) && (SearchSelected(f) ==> m["search"] == f.search.value)
  {
    var p := if ProjectSelected(f) then [("projectId", IntToString(f.projectId.value))] else [];
    var s := if StatusSelected(f) then [("status", f.status.value)] else [];
    var q := if SearchSelected(f) then [("search", f.search.value)] else [];
    assert FilterParams(f) == p + (s + q);
    QueryMapPrefix(p, s + q);
    QueryMapPrefix(s, q);
    QueryMapPrefix(q, []);
    assert q + [] == q;
  }

  /** ... so the list it answers with is the one the filter asks for. */
  lemma ListedAsFiltered(tasks: seq<Task>, f: TaskFilter)
    ensures SelectTasks(tasks, Normalized(f)) == SelectTasks(tasks, f)
  {
    forall i | 0 <= i < |tasks|
      ensures MatchesFilter(tasks[i], Normalized(f)) == MatchesFilter(tasks[i], f)
    {
    }
    Seqs.FilterSame(tasks, (t: Task) => MatchesFilter(t, Normalized(f)), (t: Task) => MatchesFilter(t, f));
  }

  // ---------------------------------------------------------------------------
  // useTask: one task

  /** Why a fetch failed: a non-2xx status other than 404, or a body that is not a task. */
  datatype FetchError = StatusError(status: int) | BodyError

  /** The answer to `GET /api/tasks/:id` as `useTask` reads it: 404 is no task. */
  function ReadTask(r: ServerRoutes.Response): (res: Result<Option<Task>, FetchError>)
    ensures r.status == 404 <==> res == Ok(None)
    ensures res.Ok? && res.value.Some? ==> 200 <= r.status < 300 && r.body == ServerRoutes.TaskJson(res.value.value)
    ensures r.status != 404 && !(200 <= r.status < 300) ==> res == Err(StatusError(r.status))
  {
    if r.status == 404 then Ok(None)
    else if !(200 <= r.status < 300) then Err(StatusError(r.status))
    else if r.body.TaskJson? then Ok(Some(r.body.task))
    else Err(BodyError)
  }

  /** `useTask(id)`: disabled for id 0; otherwise the server's row with that id, or
      none when the server has none. */
  function UseTask(store: DatabaseStorage, id: int): (r: Option<Result<Option<Task>, FetchError>>)
    reads store
    ensures id == 0 <==> r.None?
    ensures id != 0 ==> r == Some(Ok(store.GetTask(id)))
  {
    if id == 0 then None else Some(ReadTask(ServerRoutes.GetTask(store, id)))
  }

  // ---------------------------------------------------------------------------
  // useUpdateTask: the optimistic write of the cached list

  /** The cached task list under the list path; `None` when nothing is cached. */
  class TaskListCache {
    var list: Option<seq<Task>>

    constructor (initial: Option<seq<Task>>)
      ensures list == initial
    {
      list := initial;
    }

    /** `onMutate`: takes a snapshot, then, if a list is cached, merges the supplied
        fields into the tasks with that id. */
    method OnMutate(id: int, patch: TaskPatch) returns (snapshot: Option<seq<Task>>)
      modifies this
      ensures snapshot == old(list)
      ensures old(list).None? ==> list == None
      ensures old(list).Some? ==> list == Some(PatchRows(old(list).value, id, patch))
    {
      snapshot := list;
      if list.Some? {
        list := Some(PatchRows(list.value, id, patch));
      }
    }

    /** `onError`: puts the snapshot back, if one was taken of a cached list. */
    method OnError(snapshot: Option<seq<Task>>)
      modifies this
      ensures list == if snapshot.Some? then snapshot else old(list)
    {
      if snapshot.Some? {
        list := snapshot;
      }
    }

    /** A failed update leaves the cache as it was before the optimistic write. */
    method FailedUpdate(id: int, patch: TaskPatch)
      modifies this
      ensures list == old(list)
    {
      var snapshot := OnMutate(id, patch);
      OnError(snapshot);
    }
  }

  /** The optimistic write keeps the list's length, rewrites only the tasks with
      that id, and agrees with what the server's update does to the same rows. */
  lemma OptimisticWrite(tasks: seq<Task>, id: int, patch: TaskPatch)
    ensures |PatchRows(tasks, id, patch)| == |tasks|
    ensures forall i :: 0 <= i < |tasks| && tasks[i].id != id ==> PatchRows(tasks, id, patch)[i] == tasks[i]
    ensures forall i :: 0 <= i < |tasks| && tasks[i].id == id ==>
      PatchRows(tasks, id, patch)[i] == ApplyPatch(tasks[i], patch)
  {
  }
}
