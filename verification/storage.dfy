/** The server's task store over the four tables: queries are functions of the
    tables, inserts, updates and deletes are methods of `DatabaseStorage` that
    assign new tables. Serial columns are counters holding the next value. */
module Storage {
  import opened Wrappers
  import opened Strings
  import Seqs
  import opened Schema

  // ---------------------------------------------------------------------------
  // Task list query

  /** One row against the list filter: each selected condition must hold. The
      project condition is SQL equality, so a task without a project never matches
      it; the search is a case-insensitive substring test on the title. */
  predicate MatchesFilter(t: Task, f: TaskFilter) {
    && (ProjectSelected(f) ==> t.projectId == f.projectId)
    && (StatusSelected(f) ==> t.status == f.status.value)
    && (SearchSelected(f) ==> Contains(Lower(t.title), Lower(f.search.value)))
  }

  /** Ordered by creation time, newest first. */
  predicate NewestFirst(ts: seq<Task>) {
    forall i, j :: 0 <= i < j < |ts| ==> ts[i].createdAt >= ts[j].createdAt
  }

  /** `t` placed before the first row that is not newer than it. */
  function InsertNewest(t: Task, ts: seq<Task>): seq<Task> {
    if ts == [] || t.createdAt >= ts[0].createdAt then [t] + ts
    else [ts[0]] + InsertNewest(t, ts[1..])
  }

  /** `ORDER BY created_at DESC`. Rows created at the same instant keep their table
      order here; the database leaves that order open. */
  function SortNewestFirst(ts: seq<Task>): seq<Task> {
    if ts == [] then [] else InsertNewest(ts[0], SortNewestFirst(ts[1..]))
  }

  lemma {:induction false} InsertNewestCount(t: Task, ts: seq<Task>)
    ensures multiset(InsertNewest(t, ts)) == multiset(ts) + multiset{t}
    ensures |InsertNewest(t, ts)| == |ts| + 1
  {
    if ts != [] && t.createdAt < ts[0].createdAt {
      InsertNewestCount(t, ts[1..]);
      assert ts == [ts[0]] + ts[1..];
    }
  }

  /** No row is newer than `b`. */
  predicate NotNewerThan(ts: seq<Task>, b: int) {
    forall i :: 0 <= i < |ts| ==> ts[i].createdAt <= b
  }

  lemma {:induction false} InsertNotNewer(t: Task, ts: seq<Task>, b: int)
    requires NotNewerThan(ts, b) && t.createdAt <= b
    ensures NotNewerThan(InsertNewest(t, ts), b)
  {
    if ts != [] && t.createdAt < ts[0].createdAt {
      InsertNotNewer(t, ts[1..], b);
    }
  }

  lemma {:induction false} InsertNewestOrdered(t: Task, ts: seq<Task>)
    requires NewestFirst(ts)
    ensures NewestFirst(InsertNewest(t, ts))
  {
    if ts == [] || t.createdAt >= ts[0].createdAt {
      var r := [t] + ts;
      forall i, j | 0 <= i < j < |r| ensures r[i].createdAt >= r[j].createdAt {
        assert r[j] == ts[j - 1];
        if i > 0 {
          assert r[i] == ts[i - 1];
        }
      }
    } else {
      var rest := ts[1..];
      InsertNewestOrdered(t, rest);
      InsertNotNewer(t, rest, ts[0].createdAt);
      var tail := InsertNewest(t, rest);
      var r := [ts[0]] + tail;
      forall i, j | 0 <= i < j < |r| ensures r[i].createdAt >= r[j].createdAt {
        assert r[j] == tail[j - 1];
        if i > 0 {
          assert r[i] == tail[i - 1];
        }
      }
    }
  }

  /** The sort orders newest first and keeps every row exactly as often as before. */
  lemma {:induction false} SortNewestFirstSpec(ts: seq<Task>)
    ensures NewestFirst(SortNewestFirst(ts))
    ensures multiset(SortNewestFirst(ts)) == multiset(ts)
  {
    if ts != [] {
      SortNewestFirstSpec(ts[1..]);
      InsertNewestCount(ts[0], SortNewestFirst(ts[1..]));
      InsertNewestOrdered(ts[0], SortNewestFirst(ts[1..]));
      assert ts == [ts[0]] + ts[1..];
    }
  }

  /** `getTasks(params)`: the matching rows, newest first. */
  function SelectTasks(tasks: seq<Task>, f: TaskFilter): seq<Task> {
    SortNewestFirst(Seqs.Filter(tasks, (t: Task) => MatchesFilter(t, f)))
  }

  /** The list holds exactly the matching rows, each as often as the table does,
      newest first. */
  lemma SelectTasksSpec(tasks: seq<Task>, f: TaskFilter)
    ensures NewestFirst(SelectTasks(tasks, f))
    ensures forall t :: t in SelectTasks(tasks, f) <==> t in tasks && MatchesFilter(t, f)
    ensures multiset(SelectTasks(tasks, f)) == multiset(Seqs.Filter(tasks, (t: Task) => MatchesFilter(t, f)))
  {
    var kept := Seqs.Filter(tasks, (t: Task) => MatchesFilter(t, f));
    Seqs.FilterMembers(tasks, (t: Task) => MatchesFilter(t, f));
    SortNewestFirstSpec(kept);
    forall t ensures t in SelectTasks(tasks, f) <==> t in kept {
      assert t in SelectTasks(tasks, f) <==> t in multiset(SelectTasks(tasks, f));
      assert t in kept <==> t in multiset(kept);
    }
  }

  /** With no filter every row is listed, each exactly once, newest first. */
  lemma NoFilterListsAll(tasks: seq<Task>)
    ensures multiset(SelectTasks(tasks, NoFilter)) == multiset(tasks)
    ensures NewestFirst(SelectTasks(tasks, NoFilter))
  {
    Seqs.FilterKeepsAll(tasks, (t: Task) => MatchesFilter(t, NoFilter));
    SelectTasksSpec(tasks, NoFilter);
  }

  /** A project id of 0, an empty status and an empty search impose nothing. */
  lemma FalsyFiltersIgnored(tasks: seq<Task>)
    ensures SelectTasks(tasks, TaskFilter(Some(0), Some(""), Some(""))) == SelectTasks(tasks, NoFilter)
  {
    var f := TaskFilter(Some(0), Some(""), Some(""));
    Seqs.FilterKeepsAll(tasks, (t: Task) => MatchesFilter(t, f));
    Seqs.FilterKeepsAll(tasks, (t: Task) => MatchesFilter(t, NoFilter));
  }

  /** The search looks at the title only, ignoring letter case. */
  lemma SearchMatchesTitle(tasks: seq<Task>, q: string, t: Task)
    requires q != ""
    ensures t in SelectTasks(tasks, TaskFilter(None, None, Some(q)))
      <==> t in tasks && Occurs(Lower(t.title), Lower(q))
  {
    SelectTasksSpec(tasks, TaskFilter(None, None, Some(q)));
    ContainsOccurs(Lower(t.title), Lower(q));
  }

  // ---------------------------------------------------------------------------
  // Single-row lookups

  /** The first row with that id, if any. */
  function FindTask(tasks: seq<Task>, id: int): (r: Option<Task>)
    ensures r.Some? ==> r.value in tasks && r.value.id == id
    ensures r.None? ==> forall t :: t in tasks ==> t.id != id
  {
    if tasks == [] then None
    else if tasks[0].id == id then Some(tasks[0])
    else FindTask(tasks[1..], id)
  }

  function FindProject(projects: seq<Project>, id: int): (r: Option<Project>)
    ensures r.Some? ==> r.value in projects && r.value.id == id
    ensures r.None? ==> forall p :: p in projects ==> p.id != id
  {
    if projects == [] then None
    else if projects[0].id == id then Some(projects[0])
    else FindProject(projects[1..], id)
  }

  // ---------------------------------------------------------------------------
  // Task–tag association rows

  /** The association rows inserted for `tagIds`, one per listed id in list order,
      with serial ids from `firstId` on. */
  function LinkRows(firstId: int, taskId: int, tagIds: seq<int>): (r: seq<TaskTag>)
    ensures |r| == |tagIds|
    ensures forall i :: 0 <= i < |r| ==> r[i] == TaskTag(firstId + i, taskId, tagIds[i])
  {
    seq(|tagIds|, i requires 0 <= i < |tagIds| => TaskTag(firstId + i, taskId, tagIds[i]))
  }

  /** The tag ids linked to a task, in table order, one per association row. */
  function LinkedTagIds(links: seq<TaskTag>, taskId: int): seq<int> {
    if links == [] then []
    else (if links[0].taskId == taskId then [links[0].tagId] else []) + LinkedTagIds(links[1..], taskId)
  }

  lemma {:induction false} LinkedTagIdsConcat(a: seq<TaskTag>, b: seq<TaskTag>, taskId: int)
    ensures LinkedTagIds(a + b, taskId) == LinkedTagIds(a, taskId) + LinkedTagIds(b, taskId)
  {
    if a == [] {
      assert a + b == b;
    } else {
      var head := if a[0].taskId == taskId then [a[0].tagId] else [];
      assert (a + b)[0] == a[0];
      assert (a + b)[1..] == a[1..] + b;
      assert LinkedTagIds(a + b, taskId) == head + LinkedTagIds(a[1..] + b, taskId);
      LinkedTagIdsConcat(a[1..], b, taskId);
    }
  }

  /** A task without association rows has no linked tags. */
  lemma {:induction false} LinkedTagIdsNone(links: seq<TaskTag>, taskId: int)
    requires forall i :: 0 <= i < |links| ==> links[i].taskId != taskId
    ensures LinkedTagIds(links, taskId) == []
  {
    if links != [] {
      var rest := links[1..];
      assert forall i :: 0 <= i < |rest| ==> rest[i] == links[i + 1];
      LinkedTagIdsNone(rest, taskId);
    }
  }

  /** The rows inserted for a task link exactly the listed ids, duplicates included. */
  lemma {:induction false} LinkRowsLinked(firstId: int, taskId: int, tagIds: seq<int>)
    ensures LinkedTagIds(LinkRows(firstId, taskId, tagIds), taskId) == tagIds
    decreases |tagIds|
  {
    if tagIds != [] {
      var r := LinkRows(firstId, taskId, tagIds);
      LinkRowsLinked(firstId + 1, taskId, tagIds[1..]);
      assert r[1..] == LinkRows(firstId + 1, taskId, tagIds[1..]);
    }
  }

  /** The rows inserted for one task link nothing to any other task. */
  lemma LinkRowsOtherTask(firstId: int, taskId: int, tagIds: seq<int>, other: int)
    requires other != taskId
    ensures LinkedTagIds(LinkRows(firstId, taskId, tagIds), other) == []
  {
    LinkedTagIdsNone(LinkRows(firstId, taskId, tagIds), other);
  }

  /** The association rows of every task but `taskId`, in table order. */
  function WithoutLinksOf(links: seq<TaskTag>, taskId: int): seq<TaskTag> {
    Seqs.Filter(links, (l: TaskTag) => l.taskId != taskId)
  }

  /** Removing a task's rows unlinks it and leaves every other task's tags as they were. */
  lemma {:induction false} WithoutLinksOfSpec(links: seq<TaskTag>, taskId: int, other: int)
    ensures LinkedTagIds(WithoutLinksOf(links, taskId), taskId) == []
    ensures other != taskId ==> LinkedTagIds(WithoutLinksOf(links, taskId), other) == LinkedTagIds(links, other)
  {
    if links != [] {
      WithoutLinksOfSpec(links[1..], taskId, other);
      var p := (l: TaskTag) => l.taskId != taskId;
      assert Seqs.Filter(links, p) == (if p(links[0]) then [links[0]] else []) + Seqs.Filter(links[1..], p);
      LinkedTagIdsConcat(if p(links[0]) then [links[0]] else [], Seqs.Filter(links[1..], p), taskId);
      LinkedTagIdsConcat(if p(links[0]) then [links[0]] else [], Seqs.Filter(links[1..], p), other);
    }
  }

  /** `getTaskTags(taskId)`: an inner join of the task's association rows with the
      tags, one output row per matching pair, in association-row order. */
  function JoinTags(links: seq<TaskTag>, tags: seq<Tag>, taskId: int): seq<Tag> {
    if links == [] then []
    else
      (if links[0].taskId == taskId then TagsWithId(tags, links[0].tagId) else [])
      + JoinTags(links[1..], tags, taskId)
  }

  /** The ids of a list of tags, in order. */
  function TagIdList(ts: seq<Tag>): seq<int> {
    if ts == [] then [] else [ts[0].id] + TagIdList(ts[1..])
  }

  lemma {:induction false} TagIdListConcat(a: seq<Tag>, b: seq<Tag>)
    ensures TagIdList(a + b) == TagIdList(a) + TagIdList(b)
  {
    if a == [] {
      assert a + b == b;
    } else {
      assert (a + b)[0] == a[0];
      assert (a + b)[1..] == a[1..] + b;
      assert TagIdList(a + b) == [a[0].id] + TagIdList(a[1..] + b);
      TagIdListConcat(a[1..], b);
    }
  }

  /** The tag rows with that id. */
  function TagsWithId(tags: seq<Tag>, id: int): seq<Tag> {
    Seqs.Filter(tags, (t: Tag) => t.id == id)
  }

  // ---------------------------------------------------------------------------
  // Keys and serial columns

  function ProjectId(p: Project): int { p.id }
  function ProjectSlug(p: Project): string { p.slug }
  function TagId(t: Tag): int { t.id }
  function TagName(t: Tag): string { t.name }
  function TaskId(t: Task): int { t.id }
  function LinkId(l: TaskTag): int { l.id }

  /** The ids present in a table. */
  function TaskIds(ts: seq<Task>): set<int> { set t | t in ts :: t.id }
  function TagIds(ts: seq<Tag>): set<int> { set t | t in ts :: t.id }

  /** A table keyed by a serial column whose next value is `next`: every id was
      drawn from the serial (values start at 1), and no two rows share one. */
  predicate Keyed<T>(s: seq<T>, id: T -> int, next: int) {
    && 1 <= next
    && (forall i :: 0 <= i < |s| ==> 1 <= id(s[i]) < next)
    && Seqs.DistinctBy(s, id)
  }

  lemma KeyedAppend<T>(s: seq<T>, x: T, id: T -> int, next: int)
    requires Keyed(s, id, next) && id(x) == next
    ensures Keyed(s + [x], id, next + 1)
  {
    forall i, j | 0 <= i < |s| && 0 <= j < |[x]| ensures id(s[i]) != id([x][j]) {
      assert id(s[i]) < next;
    }
    Seqs.DistinctByConcat(s, [x], id);
    var r := s + [x];
    forall i | 0 <= i < |r| ensures 1 <= id(r[i]) < next + 1 {
      if i < |s| {
        assert r[i] == s[i];
      } else {
        assert r[i] == x;
      }
    }
  }

  lemma KeyedFilter<T>(s: seq<T>, p: T -> bool, id: T -> int, next: int)
    requires Keyed(s, id, next)
    ensures Keyed(Seqs.Filter(s, p), id, next)
  {
    Seqs.FilterDistinctBy(s, p, id);
    var inRange := x => 1 <= id(x) < next;
    assert forall i :: 0 <= i < |s| ==> inRange(s[i]);
    Seqs.FilterAll(s, p, inRange);
  }

  lemma KeyedLinkRows(links: seq<TaskTag>, next: int, taskId: int, tagIds: seq<int>)
    requires Keyed(links, LinkId, next)
    ensures Keyed(links + LinkRows(next, taskId, tagIds), LinkId, next + |tagIds|)
  {
    var rows := LinkRows(next, taskId, tagIds);
    assert Seqs.DistinctBy(rows, LinkId) by {
      forall i, j | 0 <= i < j < |rows| ensures LinkId(rows[i]) != LinkId(rows[j]) {
        assert rows[i].id == next + i && rows[j].id == next + j;
      }
    }
    forall i, j | 0 <= i < |links| && 0 <= j < |rows| ensures LinkId(links[i]) != LinkId(rows[j]) {
      assert rows[j].id == next + j;
    }
    Seqs.DistinctByConcat(links, rows, LinkId);
    var r := links + rows;
    forall i | 0 <= i < |r| ensures 1 <= LinkId(r[i]) < next + |tagIds| {
      if i >= |links| {
        assert r[i] == rows[i - |links|];
        assert rows[i - |links|].id == next + (i - |links|);
      } else {
        assert r[i] == links[i];
      }
    }
  }

  /** A row whose id is the serial's next value is not yet in the table. */
  lemma NextTaskIdFresh(ts: seq<Task>, next: int)
    requires Keyed(ts, TaskId, next)
    ensures next !in TaskIds(ts)
  {
    forall t | t in ts ensures t.id != next {
      var i :| 0 <= i < |ts| && ts[i] == t;
      assert TaskId(ts[i]) < next;
    }
  }

  // ---------------------------------------------------------------------------
  // Join of association rows with tags

  /** With unique tag ids, an existing id selects exactly one tag. */
  lemma {:induction false} SelectOneTag(tags: seq<Tag>, id: int)
    requires Seqs.DistinctBy(tags, TagId)
    requires id in TagIds(tags)
    ensures TagIdList(TagsWithId(tags, id)) == [id]
  {
    var p := (t: Tag) => t.id == id;
    var rest := tags[1..];
    assert TagsWithId(tags, id) == (if p(tags[0]) then [tags[0]] else []) + TagsWithId(rest, id);
    TagIdListConcat(if p(tags[0]) then [tags[0]] else [], TagsWithId(rest, id));
    assert Seqs.DistinctBy(rest, TagId) by {
      forall i, j | 0 <= i < j < |rest| ensures TagId(rest[i]) != TagId(rest[j]) {
        assert rest[i] == tags[i + 1] && rest[j] == tags[j + 1];
      }
    }
    if tags[0].id == id {
      forall i | 0 <= i < |rest| ensures rest[i].id != id {
        assert rest[i] == tags[i + 1] && TagId(tags[0]) != TagId(tags[i + 1]);
      }
      Seqs.FilterKeepsNone(rest, p);
    } else {
      var t :| t in tags && t.id == id;
      var i :| 0 <= i < |tags| && tags[i] == t;
      assert rest[i - 1] == t;
      SelectOneTag(rest, id);
    }
  }

  /** Every association row of the task points at an existing tag. */
  predicate LinksResolve(links: seq<TaskTag>, tags: seq<Tag>, taskId: int) {
    forall i :: 0 <= i < |links| && links[i].taskId == taskId ==> links[i].tagId in TagIds(tags)
  }

  /** Every row of the join is a row of the tag table. */
  lemma {:induction false} JoinTagsFromTable(links: seq<TaskTag>, tags: seq<Tag>, taskId: int)
    ensures forall i :: 0 <= i < |JoinTags(links, tags, taskId)| ==> JoinTags(links, tags, taskId)[i] in tags
  {
    if links != [] {
      JoinTagsFromTable(links[1..], tags, taskId);
      Seqs.FilterMembers(tags, (t: Tag) => t.id == links[0].tagId);
    }
  }

  /** When tag ids are unique and every association row resolves, the join gives one
      tag per association row: the linked tag, in row order. */
  lemma {:induction false} JoinTagsSpec(links: seq<TaskTag>, tags: seq<Tag>, taskId: int)
    requires Seqs.DistinctBy(tags, TagId) && LinksResolve(links, tags, taskId)
    ensures TagIdList(JoinTags(links, tags, taskId)) == LinkedTagIds(links, taskId)
    ensures forall i :: 0 <= i < |JoinTags(links, tags, taskId)| ==> JoinTags(links, tags, taskId)[i] in tags
  {
    JoinTagsFromTable(links, tags, taskId);
    if links != [] {
      var l := links[0];
      var rest := links[1..];
      assert LinksResolve(rest, tags, taskId) by {
        forall i | 0 <= i < |rest| && rest[i].taskId == taskId ensures rest[i].tagId in TagIds(tags) {
          assert rest[i] == links[i + 1];
        }
      }
      JoinTagsSpec(rest, tags, taskId);
      var head := if l.taskId == taskId then TagsWithId(tags, l.tagId) else [];
      TagIdListConcat(head, JoinTags(rest, tags, taskId));
      if l.taskId == taskId {
        SelectOneTag(tags, l.tagId);
      }
    }
  }

  // ---------------------------------------------------------------------------
  // Row-level effects of the mutations

  /** `UPDATE tasks SET ... WHERE id = id`: the patch applied to every row with that id. */
  function PatchRows(tasks: seq<Task>, id: int, p: TaskPatch): (r: seq<Task>)
    ensures |r| == |tasks|
    ensures forall i :: 0 <= i < |r| ==> r[i] == if tasks[i].id == id then ApplyPatch(tasks[i], p) else tasks[i]
  {
    seq(|tasks|, i requires 0 <= i < |tasks| => if tasks[i].id == id then ApplyPatch(tasks[i], p) else tasks[i])
  }

  /** `DELETE FROM tasks WHERE id = id`. */
  function WithoutTaskRow(tasks: seq<Task>, id: int): seq<Task> {
    Seqs.Filter(tasks, (t: Task) => t.id != id)
  }

  /** `DELETE FROM projects WHERE id = id`. */
  function WithoutProjectRow(projects: seq<Project>, id: int): seq<Project> {
    Seqs.Filter(projects, (p: Project) => p.id != id)
  }

  /** The unique constraint on `projects.slug` would be violated by `slug`. */
  predicate SlugTaken(projects: seq<Project>, slug: string) {
    exists i :: 0 <= i < |projects| && projects[i].slug == slug
  }

  /** The unique constraint on `tags.name` would be violated by `name`. */
  predicate NameTaken(tags: seq<Tag>, name: string) {
    exists i :: 0 <= i < |tags| && tags[i].name == name
  }

  /** The tag ids of an optional list: an omitted list links nothing. */
  function TagList(tagIds: Field<seq<int>>): seq<int> {
    if tagIds.Present? then tagIds.value else []
  }

  /** Every listed tag id names an existing tag. */
  predicate TagsExist(tags: seq<Tag>, tagIds: Field<seq<int>>) {
    forall k :: 0 <= k < |TagList(tagIds)| ==> TagList(tagIds)[k] in TagIds(tags)
  }

  /** Every association row points at an existing task and an existing tag; the
      cascade on `task_tags.task_id` keeps the first, the model's preconditions the
      second. */
  predicate LinksValid(links: seq<TaskTag>, taskIds: set<int>, tagIds: set<int>) {
    forall i :: 0 <= i < |links| ==> links[i].taskId in taskIds && links[i].tagId in tagIds
  }

  lemma TaskIdsAppend(ts: seq<Task>, t: Task)
    ensures TaskIds(ts + [t]) == TaskIds(ts) + {t.id}
  {
    forall x | x in TaskIds(ts) ensures x in TaskIds(ts + [t]) {
      var u :| u in ts && u.id == x;
      assert u in ts + [t];
    }
    assert t in ts + [t];
  }

  lemma TaskIdsWithout(ts: seq<Task>, id: int)
    ensures TaskIds(WithoutTaskRow(ts, id)) == TaskIds(ts) - {id}
  {
    Seqs.FilterMembers(ts, (t: Task) => t.id != id);
    forall x | x in TaskIds(ts) - {id} ensures x in TaskIds(WithoutTaskRow(ts, id)) {
      var u :| u in ts && u.id == x;
      assert u in WithoutTaskRow(ts, id);
    }
  }

  /** A patch keeps every row's id, so the ids and their serial discipline stay. */
  lemma PatchRowsKeyed(ts: seq<Task>, id: int, p: TaskPatch, next: int)
    requires Keyed(ts, TaskId, next)
    ensures Keyed(PatchRows(ts, id, p), TaskId, next)
    ensures TaskIds(PatchRows(ts, id, p)) == TaskIds(ts)
  {
    var r := PatchRows(ts, id, p);
    assert forall i :: 0 <= i < |r| ==> r[i].id == ts[i].id;
    assert Seqs.DistinctBy(r, TaskId) by {
      forall i, j | 0 <= i < j < |r| ensures TaskId(r[i]) != TaskId(r[j]) {
        assert TaskId(ts[i]) != TaskId(ts[j]);
      }
    }
    forall x | x in TaskIds(ts) ensures x in TaskIds(r) {
      var u :| u in ts && u.id == x;
      var i :| 0 <= i < |ts| && ts[i] == u;
      assert r[i] in r;
    }
    forall x | x in TaskIds(r) ensures x in TaskIds(ts) {
      var u :| u in r && u.id == x;
      var i :| 0 <= i < |r| && r[i] == u;
      assert ts[i] in ts;
    }
  }

  /** Updating a missing id touches no row. */
  lemma PatchMissingId(ts: seq<Task>, id: int, p: TaskPatch)
    requires id !in TaskIds(ts)
    ensures PatchRows(ts, id, p) == ts
  {
    forall i | 0 <= i < |ts| ensures ts[i].id != id {
      assert ts[i] in ts;
    }
  }

  /** The inserted row is found by its id; other lookups are as before. */
  lemma {:induction false} FindAfterInsert(ts: seq<Task>, t: Task, x: int)
    requires t.id !in TaskIds(ts)
    ensures FindTask(ts + [t], t.id) == Some(t)
    ensures x != t.id ==> FindTask(ts + [t], x) == FindTask(ts, x)
  {
    if ts == [] {
      assert ts + [t] == [t];
    } else {
      assert ts[0] in ts;
      assert (ts + [t])[1..] == ts[1..] + [t];
      assert TaskIds(ts[1..]) <= TaskIds(ts) by {
        forall y | y in TaskIds(ts[1..]) ensures y in TaskIds(ts) {
          var u :| u in ts[1..] && u.id == y;
          assert u in ts;
        }
      }
      FindAfterInsert(ts[1..], t, x);
    }
  }

  /** After an update the row with that id is the patched row; other lookups are as
      before. */
  lemma {:induction false} FindAfterPatch(ts: seq<Task>, id: int, p: TaskPatch, x: int)
    ensures FindTask(PatchRows(ts, id, p), id)
      == (if FindTask(ts, id).Some? then Some(ApplyPatch(FindTask(ts, id).value, p)) else None)
    ensures x != id ==> FindTask(PatchRows(ts, id, p), x) == FindTask(ts, x)
  {
    if ts != [] {
      assert PatchRows(ts, id, p)[1..] == PatchRows(ts[1..], id, p);
      FindAfterPatch(ts[1..], id, p, x);
    }
  }

  /** After a delete the id is gone; other lookups are as before. */
  lemma {:induction false} FindAfterDelete(ts: seq<Task>, id: int, x: int)
    ensures FindTask(WithoutTaskRow(ts, id), id) == None
    ensures x != id ==> FindTask(WithoutTaskRow(ts, id), x) == FindTask(ts, x)
  {
    if ts != [] {
      var p := (t: Task) => t.id != id;
      var rest := WithoutTaskRow(ts[1..], id);
      assert WithoutTaskRow(ts, id) == (if p(ts[0]) then [ts[0]] else []) + rest;
      FindAfterDelete(ts[1..], id, x);
      if p(ts[0]) {
        var r := [ts[0]] + rest;
        assert r != [] && r[0] == ts[0] && r[1..] == rest;
      } else {
        assert WithoutTaskRow(ts, id) == rest;
      }
    }
  }

  /** Rows for a task that exists, pointing at existing tags, keep the links valid. */
  lemma LinksAppend(links: seq<TaskTag>, taskIds: set<int>, tagIds: set<int>, next: int, taskId: int, listed: seq<int>)
    requires LinksValid(links, taskIds, tagIds) && taskId in taskIds
    requires forall k :: 0 <= k < |listed| ==> listed[k] in tagIds
    ensures LinksValid(links + LinkRows(next, taskId, listed), taskIds, tagIds)
  {
    var rows := LinkRows(next, taskId, listed);
    var r := links + rows;
    forall i | 0 <= i < |r| ensures r[i].taskId in taskIds && r[i].tagId in tagIds {
      if i >= |links| {
        assert r[i] == rows[i - |links|];
      }
    }
  }

  /** Links stay valid when the task set grows. */
  lemma LinksGrow(links: seq<TaskTag>, taskIds: set<int>, more: set<int>, tagIds: set<int>)
    requires LinksValid(links, taskIds, tagIds) && taskIds <= more
    ensures LinksValid(links, more, tagIds)
  {
  }

  /** Dropping a task's rows leaves links valid without that task. */
  lemma LinksWithout(links: seq<TaskTag>, taskIds: set<int>, tagIds: set<int>, id: int)
    requires LinksValid(links, taskIds, tagIds)
    ensures LinksValid(WithoutLinksOf(links, id), taskIds - {id}, tagIds)
  {
    var q := (l: TaskTag) => l.taskId in taskIds && l.tagId in tagIds;
    assert forall i :: 0 <= i < |links| ==> q(links[i]);
    Seqs.FilterAll(links, (l: TaskTag) => l.taskId != id, q);
  }

  /** A task that does not exist has no association rows. */
  lemma LinksOfMissingTask(links: seq<TaskTag>, taskIds: set<int>, tagIds: set<int>, id: int)
    requires LinksValid(links, taskIds, tagIds) && id !in taskIds
    ensures WithoutLinksOf(links, id) == links
    ensures LinkedTagIds(links, id) == []
  {
    Seqs.FilterKeepsAll(links, (l: TaskTag) => l.taskId != id);
    LinkedTagIdsNone(links, id);
  }

  /** Without tasks there is no association row. */
  lemma NoTasksNoLinks(links: seq<TaskTag>, tagIds: set<int>)
    requires LinksValid(links, TaskIds([]), tagIds)
    ensures links == []
  {
    var none: set<int> := {};
    assert TaskIds([]) == none;
    var linked := (l: TaskTag) => l.taskId in none;
    Seqs.FilterKeepsAll(links, linked);
    Seqs.FilterKeepsNone(links, linked);
  }

  /** Replacing a task's rows links it to exactly the new list and leaves every
      other task's tags as they were. */
  lemma ReplaceLinks(links: seq<TaskTag>, id: int, next: int, listed: seq<int>, other: int)
    ensures LinkedTagIds(WithoutLinksOf(links, id) + LinkRows(next, id, listed), id) == listed
    ensures other != id ==>
      LinkedTagIds(WithoutLinksOf(links, id) + LinkRows(next, id, listed), other) == LinkedTagIds(links, other)
  {
    LinkedTagIdsConcat(WithoutLinksOf(links, id), LinkRows(next, id, listed), id);
    LinkedTagIdsConcat(WithoutLinksOf(links, id), LinkRows(next, id, listed), other);
    WithoutLinksOfSpec(links, id, other);
    LinkRowsLinked(next, id, listed);
    if other != id {
      LinkRowsOtherTask(next, id, listed, other);
    }
  }

  /** Rows added for a new task link it to exactly the list and leave every other
      task's tags as they were. */
  lemma NewTaskLinks(links: seq<TaskTag>, id: int, next: int, listed: seq<int>, other: int)
    requires forall i :: 0 <= i < |links| ==> links[i].taskId != id
    ensures LinkedTagIds(links + LinkRows(next, id, listed), id) == listed
    ensures other != id ==> LinkedTagIds(links + LinkRows(next, id, listed), other) == LinkedTagIds(links, other)
  {
    LinkedTagIdsConcat(links, LinkRows(next, id, listed), id);
    LinkedTagIdsConcat(links, LinkRows(next, id, listed), other);
    LinkedTagIdsNone(links, id);
    LinkRowsLinked(next, id, listed);
    if other != id {
      LinkRowsOtherTask(next, id, listed, other);
    }
  }

  // ---------------------------------------------------------------------------
  // The store

  /** Why a statement failed: the database refused it for a unique or a foreign key,
      or the query builder refused an UPDATE that sets no column. */
  datatype DbError = UniqueViolation | ForeignKeyViolation | NoValuesToSet

  /** `DatabaseStorage` over the four tables and their serial counters. */
  class DatabaseStorage {
    var projects: seq<Project>
    var tags: seq<Tag>
    var tasks: seq<Task>
    var taskTags: seq<TaskTag>
    var nextProjectId: int
    var nextTagId: int
    var nextTaskId: int
    var nextTaskTagId: int

    /** The constraints the tables keep: serial primary keys, unique project slugs
        and tag names, and association rows that point at existing rows. A task's
        project is not among them: deleting a project leaves its tasks' references
        dangling. */
    predicate Valid()
      reads this
    {
      && Keyed(projects, ProjectId, nextProjectId) && Seqs.DistinctBy(projects, ProjectSlug)
      && Keyed(tags, TagId, nextTagId) && Seqs.DistinctBy(tags, TagName)
      && Keyed(tasks, TaskId, nextTaskId)
      && Keyed(taskTags, LinkId, nextTaskTagId)
      && LinksValid(taskTags, TaskIds(tasks), TagIds(tags))
    }

    /** Empty tables; every serial starts at 1. */
    constructor()
      ensures Valid()
      ensures projects == [] && tags == [] && tasks == [] && taskTags == []
      ensures nextProjectId == 1 && nextTagId == 1 && nextTaskId == 1 && nextTaskTagId == 1
    {
      projects, tags, tasks, taskTags := [], [], [], [];
      nextProjectId, nextTagId, nextTaskId, nextTaskTagId := 1, 1, 1, 1;
    }

    /** `getTasks(params)`: exactly the rows matching the filter, newest first. */
    function GetTasks(f: TaskFilter): (r: seq<Task>)
      reads this
      ensures NewestFirst(r)
      ensures forall t :: t in r <==> t in tasks && MatchesFilter(t, f)
      ensures multiset(r) == multiset(Seqs.Filter(tasks, (t: Task) => MatchesFilter(t, f)))
    {
      SelectTasksSpec(tasks, f);
      SelectTasks(tasks, f)
    }

    /** `getTask(id)`: the row with that id, or absent when there is none. */
    function GetTask(id: int): (r: Option<Task>)
      reads this
      ensures r.Some? ==> r.value in tasks && r.value.id == id
      ensures r.None? <==> id !in TaskIds(tasks)
    {
      FindTask(tasks, id)
    }

    /** `getProjects()`: every project; slugs and ids are unique in the list. */
    function GetProjects(): (r: seq<Project>)
      requires Valid()
      reads this
      ensures Seqs.DistinctBy(r, ProjectSlug) && Seqs.DistinctBy(r, ProjectId)
      ensures forall p :: p in r <==> p in projects
    {
      projects
    }

    /** `getProject(id)`: the project with that id, or absent. */
    function GetProject(id: int): (r: Option<Project>)
      reads this
      ensures r.Some? ==> r.value in projects && r.value.id == id
      ensures r.None? ==> forall p :: p in projects ==> p.id != id
    {
      FindProject(projects, id)
    }

    /** `getTags()`: every tag; names and ids are unique in the list. */
    function GetTags(): (r: seq<Tag>)
      requires Valid()
      reads this
      ensures Seqs.DistinctBy(r, TagName) && Seqs.DistinctBy(r, TagId)
      ensures forall t :: t in r <==> t in tags
    {
      tags
    }

    /** `getTaskTags(taskId)`: one tag per association row of the task, each being
        the tag the row points at. The query has no ORDER BY; the model fixes
        association-row order. */
    function GetTaskTags(taskId: int): (r: seq<Tag>)
      requires Valid()
      reads this
      ensures TagIdList(r) == LinkedTagIds(taskTags, taskId)
      ensures forall i :: 0 <= i < |r| ==> r[i] in tags
    {
      JoinTagsSpec(taskTags, tags, taskId);
      JoinTags(taskTags, tags, taskId)
    }

    /** `createTask(task, tagIds)`: inserts one row with the next serial id, then,
        when the list is non-empty, one association row per listed id. */
    method CreateTask(ins: InsertTask, tagIds: Field<seq<int>>, now: int) returns (task: Task)
      requires Valid() && TagsExist(tags, tagIds)
      modifies this
      ensures Valid()
      ensures task == NewTaskRow(old(nextTaskId), ins, now)
      ensures tasks == old(tasks) + [task] && nextTaskId == old(nextTaskId) + 1
      ensures taskTags == old(taskTags) + LinkRows(old(nextTaskTagId), task.id, TagList(tagIds))
      ensures nextTaskTagId == old(nextTaskTagId) + |TagList(tagIds)|
      ensures projects == old(projects) && tags == old(tags)
      ensures nextProjectId == old(nextProjectId) && nextTagId == old(nextTagId)
      ensures GetTask(task.id) == Some(task) && LinkedTagIds(taskTags, task.id) == TagList(tagIds)
    {
      task := NewTaskRow(nextTaskId, ins, now);
      FindAfterInsert(tasks, task, task.id);
      forall i | 0 <= i < |taskTags| ensures taskTags[i].taskId != task.id {
      }
      NewTaskLinks(taskTags, task.id, nextTaskTagId, TagList(tagIds), task.id);
      NextTaskIdFresh(tasks, nextTaskId);
      KeyedAppend(tasks, task, TaskId, nextTaskId);
      TaskIdsAppend(tasks, task);
      LinksGrow(taskTags, TaskIds(tasks), TaskIds(tasks + [task]), TagIds(tags));
      tasks := tasks + [task];
      nextTaskId := nextTaskId + 1;
      var listed := TagList(tagIds);
      if |listed| > 0 {
        InsertLinks(task.id, listed);
      } else {
        assert LinkRows(nextTaskTagId, task.id, listed) == [];
        assert taskTags + [] == taskTags;
      }
    }

    /** The association-row insert of `createTask` and `updateTask`: one row per
        listed id, in list order, for a task that exists. */
    method InsertLinks(taskId: int, listed: seq<int>)
      requires Valid() && taskId in TaskIds(tasks)
      requires forall k :: 0 <= k < |listed| ==> listed[k] in TagIds(tags)
      modifies this
      ensures Valid()
      ensures taskTags == old(taskTags) + LinkRows(old(nextTaskTagId), taskId, listed)
      ensures nextTaskTagId == old(nextTaskTagId) + |listed|
      ensures projects == old(projects) && tags == old(tags) && tasks == old(tasks)
      ensures nextProjectId == old(nextProjectId) && nextTagId == old(nextTagId) && nextTaskId == old(nextTaskId)
    {
      KeyedLinkRows(taskTags, nextTaskTagId, taskId, listed);
      LinksAppend(taskTags, TaskIds(tasks), TagIds(tags), nextTaskTagId, taskId, listed);
      taskTags := taskTags + LinkRows(nextTaskTagId, taskId, listed);
      nextTaskTagId := nextTaskTagId + |listed|;
    }

    /** `updateTask(id, updates, tagIds)`: a patch that supplies no column is refused
        by the query builder before any statement is sent (`.set({})` has no value to
        set), so the tag ids are not reached either. Otherwise the UPDATE patches the
        row with that id (none when it is missing); then, when `tagIds` is supplied,
        even empty, the task's association rows are deleted and one row per listed id
        inserted. For a missing id with a non-empty list the insert breaks the foreign
        key on `task_tags.task_id` and the call fails; the serial values it drew stay
        used. */
    method UpdateTask(id: int, patch: TaskPatch, tagIds: Field<seq<int>>)
      returns (r: Result<Option<Task>, DbError>)
      requires Valid() && TagsExist(tags, tagIds)
      modifies this
      ensures Valid()
      ensures patch == EmptyPatch ==> r == Err(NoValuesToSet) && unchanged(this)
      ensures patch != EmptyPatch ==>
        && tasks == PatchRows(old(tasks), id, patch)
        && nextTaskTagId == old(nextTaskTagId) + |TagList(tagIds)|
      ensures projects == old(projects) && tags == old(tags)
      ensures nextProjectId == old(nextProjectId) && nextTagId == old(nextTagId) && nextTaskId == old(nextTaskId)
      ensures patch != EmptyPatch && id in old(TaskIds(tasks)) ==>
        && r == Ok(Some(ApplyPatch(old(FindTask(tasks, id)).value, patch)))
        && taskTags == if tagIds.Present?
                       then WithoutLinksOf(old(taskTags), id) + LinkRows(old(nextTaskTagId), id, tagIds.value)
                       else old(taskTags)
      ensures patch != EmptyPatch && id !in old(TaskIds(tasks)) ==>
        && tasks == old(tasks) && taskTags == old(taskTags)
        && r == if |TagList(tagIds)| > 0 then Err(ForeignKeyViolation) else Ok(None)
      ensures r.Ok? && tagIds.Present? ==> LinkedTagIds(taskTags, id) == tagIds.value
      ensures forall other :: other != id ==> LinkedTagIds(taskTags, other) == LinkedTagIds(old(taskTags), other)
      ensures r.Ok? ==> GetTask(id) == r.value
      ensures r == Err(ForeignKeyViolation) ==> GetTask(id) == None
    {
      if patch == EmptyPatch {
        return Err(NoValuesToSet);
      }
      FindAfterPatch(tasks, id, patch, id);
      ReplaceLinks(taskTags, id, nextTaskTagId, TagList(tagIds), id);
      forall other | other != id
        ensures LinkedTagIds(WithoutLinksOf(taskTags, id) + LinkRows(nextTaskTagId, id, TagList(tagIds)), other)
          == LinkedTagIds(taskTags, other)
      {
        ReplaceLinks(taskTags, id, nextTaskTagId, TagList(tagIds), other);
      }
      if id !in TaskIds(tasks) {
        LinksOfMissingTask(taskTags, TaskIds(tasks), TagIds(tags), id);
      }
      var updated := PatchTaskRow(id, patch);
      if tagIds.Present? {
        assert TagList(tagIds) == tagIds.value;
        var linked := ReplaceTaskTags(id, tagIds.value);
        if !linked {
          return Err(ForeignKeyViolation);
        }
      }
      r := Ok(updated);
    }

    /** The UPDATE statement of `updateTask`: patches the row with that id and
        returns it, or absent when there is none. */
    method PatchTaskRow(id: int, patch: TaskPatch) returns (updated: Option<Task>)
      requires Valid()
      modifies this
      ensures Valid()
      ensures tasks == PatchRows(old(tasks), id, patch) && TaskIds(tasks) == old(TaskIds(tasks))
      ensures id in old(TaskIds(tasks)) ==> updated == Some(ApplyPatch(old(FindTask(tasks, id)).value, patch))
      ensures id !in old(TaskIds(tasks)) ==> updated == None && tasks == old(tasks)
      ensures projects == old(projects) && tags == old(tags) && taskTags == old(taskTags)
      ensures nextProjectId == old(nextProjectId) && nextTagId == old(nextTagId)
      ensures nextTaskId == old(nextTaskId) && nextTaskTagId == old(nextTaskTagId)
    {
      var found := FindTask(tasks, id);
      PatchRowsKeyed(tasks, id, patch, nextTaskId);
      if found.None? {
        PatchMissingId(tasks, id, patch);
      }
      tasks := PatchRows(tasks, id, patch);
      updated := if found.Some? then Some(ApplyPatch(found.value, patch)) else None;
    }

    /** The tag replacement of `updateTask`: deletes the task's association rows,
        then inserts one per listed id. The insert fails on the foreign key when the
        task does not exist, after drawing its serial values. */
    method ReplaceTaskTags(id: int, listed: seq<int>) returns (linked: bool)
      requires Valid() && forall k :: 0 <= k < |listed| ==> listed[k] in TagIds(tags)
      modifies this
      ensures Valid()
      ensures nextTaskTagId == old(nextTaskTagId) + |listed|
      ensures id in TaskIds(tasks) ==>
        linked && taskTags == WithoutLinksOf(old(taskTags), id) + LinkRows(old(nextTaskTagId), id, listed)
      ensures id !in TaskIds(tasks) ==> taskTags == old(taskTags) && linked == (|listed| == 0)
      ensures projects == old(projects) && tags == old(tags) && tasks == old(tasks)
      ensures nextProjectId == old(nextProjectId) && nextTagId == old(nextTagId) && nextTaskId == old(nextTaskId)
    {
      LinksWithout(taskTags, TaskIds(tasks), TagIds(tags), id);
      KeyedFilter(taskTags, (l: TaskTag) => l.taskId != id, LinkId, nextTaskTagId);
      if id !in TaskIds(tasks) {
        LinksOfMissingTask(taskTags, TaskIds(tasks), TagIds(tags), id);
      }
      taskTags := WithoutLinksOf(taskTags, id);
      LinksGrow(taskTags, TaskIds(tasks) - {id}, TaskIds(tasks), TagIds(tags));
      if |listed| == 0 {
        assert LinkRows(nextTaskTagId, id, listed) == [];
        assert taskTags + [] == taskTags;
        return true;
      }
      if id !in TaskIds(tasks) {
        nextTaskTagId := nextTaskTagId + |listed|;
        return false;
      }
      InsertLinks(id, listed);
      linked := true;
    }

    /** `deleteTask(id)`: removes the row with that id and, by the cascade on
        `task_tags.task_id`, its association rows. */
    method DeleteTask(id: int)
      requires Valid()
      modifies this
      ensures Valid()
      ensures tasks == WithoutTaskRow(old(tasks), id)
      ensures taskTags == WithoutLinksOf(old(taskTags), id)
      ensures projects == old(projects) && tags == old(tags)
      ensures nextProjectId == old(nextProjectId) && nextTagId == old(nextTagId)
      ensures nextTaskId == old(nextTaskId) && nextTaskTagId == old(nextTaskTagId)
      ensures GetTask(id) == None && LinkedTagIds(taskTags, id) == []
    {
      FindAfterDelete(tasks, id, id);
      WithoutLinksOfSpec(taskTags, id, id);
      KeyedFilter(tasks, (t: Task) => t.id != id, TaskId, nextTaskId);
      KeyedFilter(taskTags, (l: TaskTag) => l.taskId != id, LinkId, nextTaskTagId);
      TaskIdsWithout(tasks, id);
      LinksWithout(taskTags, TaskIds(tasks), TagIds(tags), id);
      tasks := WithoutTaskRow(tasks, id);
      taskTags := WithoutLinksOf(taskTags, id);
    }

    /** `createProject(project)`: inserts a row with the next serial id, or fails on
        the unique slug; the serial value is drawn either way. */
    method CreateProject(ins: InsertProject) returns (r: Result<Project, DbError>)
      requires Valid()
      modifies this
      ensures Valid()
      ensures nextProjectId == old(nextProjectId) + 1
      ensures SlugTaken(old(projects), ins.slug) ==> r == Err(UniqueViolation) && projects == old(projects)
      ensures !SlugTaken(old(projects), ins.slug) ==>
        r == Ok(NewProjectRow(old(nextProjectId), ins)) && projects == old(projects) + [r.value]
      ensures tags == old(tags) && tasks == old(tasks) && taskTags == old(taskTags)
      ensures nextTagId == old(nextTagId) && nextTaskId == old(nextTaskId) && nextTaskTagId == old(nextTaskTagId)
    {
      var row := NewProjectRow(nextProjectId, ins);
      if SlugTaken(projects, ins.slug) {
        r := Err(UniqueViolation);
        nextProjectId := nextProjectId + 1;
        return;
      }
      KeyedAppend(projects, row, ProjectId, nextProjectId);
      forall i, j | 0 <= i < |projects| && 0 <= j < |[row]| ensures ProjectSlug(projects[i]) != ProjectSlug([row][j]) {
      }
      Seqs.DistinctByConcat(projects, [row], ProjectSlug);
      projects := projects + [row];
      nextProjectId := nextProjectId + 1;
      r := Ok(row);
    }

    /** `deleteProject(id)`: removes the row with that id. Tasks that named it keep
        their `projectId`. */
    method DeleteProject(id: int)
      requires Valid()
      modifies this
      ensures Valid()
      ensures projects == WithoutProjectRow(old(projects), id)
      ensures tags == old(tags) && tasks == old(tasks) && taskTags == old(taskTags)
      ensures nextProjectId == old(nextProjectId) && nextTagId == old(nextTagId)
      ensures nextTaskId == old(nextTaskId) && nextTaskTagId == old(nextTaskTagId)
    {
      KeyedFilter(projects, (p: Project) => p.id != id, ProjectId, nextProjectId);
      Seqs.FilterDistinctBy(projects, (p: Project) => p.id != id, ProjectSlug);
      projects := WithoutProjectRow(projects, id);
    }

    /** `createTag(tag)`: inserts a row with the next serial id, or fails on the
        unique name; the serial value is drawn either way. */
    method CreateTag(ins: InsertTag) returns (r: Result<Tag, DbError>)
      requires Valid()
      modifies this
      ensures Valid()
      ensures nextTagId == old(nextTagId) + 1
      ensures NameTaken(old(tags), ins.name) ==> r == Err(UniqueViolation) && tags == old(tags)
      ensures !NameTaken(old(tags), ins.name) ==>
        r == Ok(NewTagRow(old(nextTagId), ins)) && tags == old(tags) + [r.value]
      ensures projects == old(projects) && tasks == old(tasks) && taskTags == old(taskTags)
      ensures nextProjectId == old(nextProjectId) && nextTaskId == old(nextTaskId) && nextTaskTagId == old(nextTaskTagId)
    {
      var row := NewTagRow(nextTagId, ins);
      if NameTaken(tags, ins.name) {
        r := Err(UniqueViolation);
        nextTagId := nextTagId + 1;
        return;
      }
      KeyedAppend(tags, row, TagId, nextTagId);
      forall i, j | 0 <= i < |tags| && 0 <= j < |[row]| ensures TagName(tags[i]) != TagName([row][j]) {
      }
      Seqs.DistinctByConcat(tags, [row], TagName);
      TagIdsGrow(tags, row);
      tags := tags + [row];
      nextTagId := nextTagId + 1;
      r := Ok(row);
    }
  }

  lemma TagIdsGrow(ts: seq<Tag>, t: Tag)
    ensures TagIds(ts) <= TagIds(ts + [t])
  {
    forall x | x in TagIds(ts) ensures x in TagIds(ts + [t]) {
      var u :| u in ts && u.id == x;
      assert u in ts + [t];
    }
  }
}
