# Task-Management, modelled in Dafny

This project models a small task manager that keeps its data in two places.

- **Server store.** A Postgres store holds four tables: projects, tags, tasks and the task–tag association. An Express API serves it under `/api/tasks`, `/api/projects` and `/api/tags`.
- **Offline app.** An older client keeps its whole state, a task list, in the browser.

Around the two stores sit the pieces of logic that decide what is stored or sent:

- the typed API contract, with its request validation and URL templating;
- the quick-add text parser;
- the small rules inside the web client's hooks and components: building the query string, the optimistic cache write and its rollback, mapping the dialog form to a payload, deriving a project's slug, routing quick-add input to the AI or to a direct create, the toggle payload, and the dashboard's split into pending and completed tasks.

## Modules

| module | models |
|---|---|
| `Schema` | the four table rows, the column defaults, the insert and patch records, and the client-side encoding of each |
| `Validation` | object-schema validation of a request body: the first issue is the first failing key, reported with its path |
| `ApiContract` | route paths, the create/update/list inputs, and `buildUrl` |
| `Storage` | class `DatabaseStorage`: each table is a `seq`, each serial counter an `int`. Queries are functions of the tables; inserts, updates and deletes are methods |
| `ServerRoutes` | the task, project and tag handlers as (request, store) → response, plus `seedDatabase` |
| `TaskParser` | `taskParser.parse` |
| `LocalTypes` | the local app's types and enumerations |
| `LocalApp` | the offline `App` component as class `App`, whose methods replace `state` |
| `UseTasks` | the list URL, the `useTask` 404 rule, and the optimistic update cache |
| `TaskDialog`, `Sidebar`, `QuickAdd`, `TaskCard`, `Dashboard` | the component rules named in their doc comments |
| `Strings`, `Seqs`, `Wrappers` | JavaScript string operations, order-preserving filtering, and the Option/Result/Field types the other modules use |

Conventions used throughout:

- **Time.** Time is an abstract integer. The store's `now` and the parser's day are parameters.
- **Random ids.** Random ids come in as parameters.
- **Omitted vs null.** `Field<T>` distinguishes a key left out (`Absent`) from a key sent, where a nullable column is sent as `Present(None)`.

## Model

| member | source | states |
|---|---|---|
| Schema.NewProjectRow | shared/schema.ts:8-13 | an inserted project keeps name and slug and gets colour "#000000" unless one is supplied |
| Schema.NewTagRow | shared/schema.ts:15-19 | an inserted tag keeps its name and gets colour "#000000" unless one is supplied |
| Schema.NewTaskRow | shared/schema.ts:21-32 | an inserted task row takes every supplied column, the serial id and the insert instant as `createdAt` |
| Schema.TaskDefaults | shared/schema.ts:25-31 | a task inserted with only a title is priority "medium", status "todo", position 0, with the other nullable columns null |
| Schema.ApplyPatch | server/storage.ts:61-64 | `UPDATE ... SET`: every supplied column is replaced, every omitted column is kept, and id and createdAt never change |
| Schema.EmptyPatchIdentity | server/storage.ts:61-64 | a patch that supplies nothing leaves the row as it was |
| Schema.PatchIdempotent | server/storage.ts:61-64 | applying the same patch twice gives the same row as applying it once |
| Schema.StatusPatchOnlyStatus | client/src/components/TaskCard.tsx:38-41 | a status-only patch changes the status and no other column |
| Schema.ProjectRoundTrip | shared/schema.ts:79 | every project insert record a client encodes passes the insert schema and decodes to itself |
| Schema.TagRoundTrip | shared/schema.ts:80 | every tag insert record a client encodes passes the insert schema and decodes to itself |
| Schema.TaskRulesPass | shared/schema.ts:81 | every rule of the task schema passes the body an insert record is sent as, when dates are coerced or the record sends no date |
| Schema.DueDateRefused | shared/schema.ts:27 | the generated date rule refuses a date sent as text with "Expected date, received string" at `dueDate`, and that is the first issue when the rules before it pass |
| Schema.TaskRoundTrip | shared/schema.ts:81 | every task insert record passes the task schema with coerced dates and decodes to itself; the generated schema accepts the body iff the record sends no due date, and otherwise refuses it first at `dueDate` |
| Schema.PatchEntries | shared/routes.ts:60 | each supplied patch column is sent under its own key, and an omitted one under no key |
| Schema.PatchDecodes | shared/routes.ts:60 | a sent patch, a due date sent as text included, is read back as the same patch by the coercing reader; whether the generated schema lets it reach the reader is PatchRoundTrip's statement |
| Schema.PatchRulesPass | shared/routes.ts:60 | every rule of the all-optional schema passes a sent patch when dates are coerced, or when the patch sends no date |
| Schema.PatchRoundTrip | shared/routes.ts:60 | a sent patch passes the all-optional schema with coerced dates and decodes to itself; the generated schema accepts it iff it sends no due date, and otherwise refuses it first at `dueDate` |
| Schema.TaskTitleRequired | shared/schema.ts:23 | a task body without `title` is refused, and the first issue is "Required" at path `title` |
| Validation.NoIssuesIffValid | server/routes.ts:45 | an object has no issues exactly when every rule of the schema passes |
| Validation.FirstIssueAt | server/routes.ts:50-54 | when every rule before a failing rule passes, the reply reports that rule's first issue |
| Validation.FirstIssueIsFirstFailingKey | server/routes.ts:50-54 | the first issue, the one the 400 reply reports, is the first issue of the first failing key in schema order |
| Validation.ShapeIssuesConcat | shared/routes.ts:48-51 | a schema extended by more keys reports the base schema's issues first, then the new keys' issues |
| Validation.ShapeIssuesIgnoreOtherKeys | shared/routes.ts:48-51 | a key the schema does not name changes no issue |
| Validation.ValidateAccepts | server/routes.ts:45 | a body passes iff it is an object whose every key passes; what passes is stripped to the named keys |
| Validation.ValidateRefuses | server/routes.ts:50-54 | a refused object is refused with the first issue of its first failing key |
| Validation.ValidateIgnoresOtherKeys | server/routes.ts:45 | adding a key the schema does not name changes neither acceptance nor the result |
| Validation.StripKeepsNamedKeys | server/routes.ts:45 | an object whose keys the schema all names is handed on whole |
| Validation.Partial | shared/routes.ts:60 | `.partial()`: the same rules in the same order, each one optional |
| Validation.PartialKeys | shared/routes.ts:60 | `.partial()` names the same keys |
| Validation.PartialAcceptsEmpty | shared/routes.ts:60 | under the all-optional schema, an empty object has no issues |
| Validation.JoinPathOfElement | server/routes.ts:53 | the issue path of an array element is joined with "." as `key.index` |
| Validation.NumbersRoundTrip | shared/routes.ts:50 | a list of numbers sent as a JSON array reads back as the same list |
| Validation.NumberElementsPass | shared/routes.ts:50 | an array holding only numbers has no element issues |
| Validation.ReadString | shared/schema.ts:23 | a string column reads back as sent and passes its rule whenever it is sent or optional |
| Validation.ReadNullableString | shared/schema.ts:24 | a nullable string column, null included, reads back as sent and passes its rule |
| Validation.ReadNullableNumber | shared/schema.ts:28-30 | a nullable integer column reads back as sent and passes its rule |
| Validation.DateTextRoundTrip | client/src/components/TaskDialog.tsx:74 | the text sent for a date reads back as the same instant |
| Validation.ReadNullableDate | shared/schema.ts:27 | a nullable timestamp column, sent as text or null, reads back as sent and passes the coercing rule; the generated rule passes it iff no date is sent, and otherwise refuses it with "Expected date, received string" |
| Validation.ReadNumbers | shared/routes.ts:50 | an optional array of numbers reads back as sent and passes its rule |
| ApiContract.ListInputCoercion | shared/routes.ts:28-32 | list input: an absent `projectId` stays absent, a numeral is coerced to its value, and a value `Number` cannot read is refused |
| ApiContract.ListInputReadsPrinted | shared/routes.ts:29 | a printed integer `projectId` is read back as that integer |
| ApiContract.TaskInputKeys | shared/routes.ts:48-51 | create and update accept exactly the task columns plus `tagIds` |
| ApiContract.AddTagIds | shared/routes.ts:48-51 | adding `tagIds` to a valid body keeps it valid under the extended schema and reads back as sent |
| ApiContract.DecodeIgnoresTagIds | server/routes.ts:46 | `tagIds` is split off: the task columns read the same with or without it |
| ApiContract.EncodedKeys | shared/routes.ts:48-51 | a body built from task columns and tag ids names no other key |
| ApiContract.EncodeTaskKeys | shared/routes.ts:60 | a sent patch names only task columns |
| ApiContract.TagIdsNotInserted | shared/routes.ts:48-51 | `tagIds` is not a column of the insert schema |
| ApiContract.TagIdsNotPatched | shared/routes.ts:60-62 | `tagIds` is not a column of the partial schema |
| ApiContract.NoDateAccepted | shared/schema.ts:27 | a body the generated date rule accepts holds no due date or a null one |
| ApiContract.ParseTaskCreate | shared/routes.ts:48-51 | the create input as the server parses it never sets a due date |
| ApiContract.ParseTaskUpdate | shared/routes.ts:60-62 | the update input as the server parses it never sets a due date |
| ApiContract.CreateAccepted | shared/routes.ts:48-51 | a create body whose columns pass parses back into the input it was built from, tag ids included |
| ApiContract.UpdateAccepted | shared/routes.ts:60-62 | an update body whose columns pass parses back into the input it was built from, tag ids included |
| ApiContract.ColumnsRefusedFirst | shared/routes.ts:48-51 | a body whose columns fail is refused with the columns' first issue, whatever its tag ids |
| ApiContract.CreateRoundTrip | shared/routes.ts:48-51 | with coerced dates every create input parses back to itself; as written, an input with a due date is refused at `dueDate` and every other input parses back to itself |
| ApiContract.UpdateRoundTrip | shared/routes.ts:60-62 | with coerced dates every update input parses back to itself; as written, an input with a due date is refused at `dueDate` and every other input parses back to itself |
| ApiContract.DatedTaskRefused | shared/routes.ts:48-51 | a new task with a due date, sent as a client sends it, is refused at `dueDate` as written and accepted with coerced dates |
| ApiContract.CreateNeedsTitle | shared/routes.ts:48 | a create body without a title is refused for the title, before any other key |
| ApiContract.UpdateAcceptsEmpty | shared/routes.ts:60 | an empty update body passes validation as the patch that supplies no column, with no `tagIds` (the store then refuses it) |
| ApiContract.InputsIgnoreOtherKeys | shared/routes.ts:48-62 | keys other than the task columns and `tagIds` (an `id` or `createdAt`, say) do not change the parse |
| ApiContract.TagIdsNotNullable | shared/routes.ts:50 | `tagIds: null` is refused with "Expected array, received null" |
| ApiContract.TagIdElementReported | server/routes.ts:51-53 | a non-number tag id is reported at its index, giving the field "tagIds.1" |
| ApiContract.BuildUrl | shared/routes.ts:154-164 | with no parameters the path is returned; otherwise each parameter in turn replaces the first `:key` in the URL |
| ApiContract.SubstituteSpec | shared/routes.ts:158-159 | a parameter whose `:key` is absent changes nothing; otherwise only the first occurrence is replaced by the value's string form |
| ApiContract.NoParamsKeepPath | shared/routes.ts:155-156 | an empty parameter list leaves the path as it is |
| ApiContract.TaskPathPlaceholder | shared/routes.ts:39 | the `:id` placeholder of the task path sits right after "/api/tasks/" |
| ApiContract.TaskUrl | shared/routes.ts:39 | building the task URL for id n gives "/api/tasks/" followed by n in decimal |
| Storage.InsertNewestCount | server/storage.ts:40 | one insertion step of the sort adds exactly that row |
| Storage.InsertNewestOrdered | server/storage.ts:40 | one insertion step keeps the list newest first |
| Storage.SortNewestFirstSpec | server/storage.ts:40 | `ORDER BY created_at DESC` yields a newest-first permutation of its input |
| Storage.SelectTasksSpec | server/storage.ts:31-41 | the list is newest first and holds exactly the rows that match every selected filter, each as often as the table does |
| Storage.NoFilterListsAll | server/storage.ts:31-41 | with no filter every row is listed exactly once, newest first |
| Storage.FalsyFiltersIgnored | server/storage.ts:33-35 | projectId 0, an empty status and an empty search impose nothing |
| Storage.SearchMatchesTitle | server/storage.ts:35 | a row is found by search iff its lower-cased title contains the lower-cased search text |
| Storage.FindTask | server/storage.ts:43-46 | the lookup is a row with that id, or absent exactly when no row has it |
| Storage.FindProject | server/storage.ts:88-91 | the project lookup is a row with that id, or absent exactly when no row has it |
| Storage.LinkRows | server/storage.ts:52-54 | one association row per listed tag id, in list order, with consecutive serial ids |
| Storage.LinkedTagIdsConcat | server/storage.ts:112-123 | the tags linked through two runs of rows are those of the first run, then the second |
| Storage.LinkRowsLinked | server/storage.ts:51-54 | the inserted rows link the task to exactly the listed ids, duplicates included |
| Storage.LinkRowsOtherTask | server/storage.ts:51-54 | the rows inserted for one task link nothing to another task |
| Storage.WithoutLinksOfSpec | server/storage.ts:68 | deleting a task's rows unlinks it and leaves every other task's tags unchanged |
| Storage.NextTaskIdFresh | shared/schema.ts:22 | the serial's next value is not the id of any existing row |
| Storage.SelectOneTag | shared/schema.ts:16 | with unique tag ids, an existing id joins to exactly one tag |
| Storage.JoinTagsFromTable | server/storage.ts:112-123 | every row of the join is a row of the tag table |
| Storage.JoinTagsSpec | server/storage.ts:112-123 | the inner join gives one tag per association row of the task, the tag that row points at, each a row of the tag table |
| Storage.PatchRows | server/storage.ts:61-64 | the UPDATE patches every row with that id and keeps every other row |
| Storage.PatchRowsKeyed | server/storage.ts:61-64 | an update keeps every row's id, so the id set and the serial discipline are kept |
| Storage.PatchMissingId | server/storage.ts:61-64 | an update of a missing id touches no row |
| Storage.FindAfterInsert | server/storage.ts:48-49 | after an insert the new row is found by its id; other lookups are unchanged |
| Storage.FindAfterPatch | server/storage.ts:60-64 | after an update the id finds the patched row; other lookups are unchanged |
| Storage.FindAfterDelete | server/storage.ts:79-81 | after a delete the id is gone; other lookups are unchanged |
| Storage.LinksAppend | shared/schema.ts:36-37 | rows for an existing task that point at existing tags keep every association row's references valid |
| Storage.LinksWithout | shared/schema.ts:36 | the cascade delete keeps the association rows valid without the deleted task |
| Storage.LinksOfMissingTask | shared/schema.ts:36 | a task that does not exist has no association rows |
| Storage.NoTasksNoLinks | shared/schema.ts:36 | with no tasks there is no association row |
| Storage.ReplaceLinks | server/storage.ts:66-74 | delete-then-insert links the task to exactly the new list and leaves every other task's tags as they were |
| Storage.NewTaskLinks | server/storage.ts:51-55 | rows added for a new task link it to exactly the list and leave other tasks unchanged |
| Storage.DatabaseStorage.constructor | shared/schema.ts:8-38 | empty tables, every serial starting at 1 |
| Storage.DatabaseStorage.GetTasks | server/storage.ts:31-41 | `getTasks`: newest first, holding exactly the rows that match the filter, each as often as the table holds it (equal multisets) |
| Storage.DatabaseStorage.GetTask | server/storage.ts:43-46 | `getTask`: the row with that id; absent iff no row has that id |
| Storage.DatabaseStorage.GetProjects | server/storage.ts:84-86 | `getProjects`: every project, with unique slugs and ids |
| Storage.DatabaseStorage.GetProject | server/storage.ts:88-91 | `getProject`: the project with that id, or absent |
| Storage.DatabaseStorage.GetTags | server/storage.ts:103-105 | `getTags`: every tag, with unique names and ids |
| Storage.DatabaseStorage.GetTaskTags | server/storage.ts:112-123 | `getTaskTags`: one tag per association row of the task, the tag that row points at, each a row of the tag table |
| Storage.DatabaseStorage.CreateTask | server/storage.ts:48-58 | one row appended with the next serial id, and one association row per listed tag id (none for an absent or empty list); the task is then found by id and linked to exactly the listed tags |
| Storage.DatabaseStorage.InsertLinks | server/storage.ts:52-54 | one association row per listed id is appended; no other table changes |
| Storage.DatabaseStorage.UpdateTask | server/storage.ts:60-77 | a patch that supplies no column is refused with nothing changed. Otherwise the row with that id is patched and returned, or absent for a missing id; a present `tagIds` (even `[]`) replaces the task's links with exactly that list, an absent one leaves them untouched, and no other task's links change |
| Storage.DatabaseStorage.PatchTaskRow | server/storage.ts:61-64 | the UPDATE statement: the patched row, or absent with the tables unchanged for a missing id |
| Storage.DatabaseStorage.ReplaceTaskTags | server/storage.ts:66-74 | the task's rows are deleted and the listed ones inserted; for a missing task a non-empty list is refused by the task_tags.task_id foreign key |
| Storage.DatabaseStorage.DeleteTask | server/storage.ts:79-81 | the row and, by cascade, its association rows are removed; the id is then absent and a missing id changes nothing |
| Storage.DatabaseStorage.CreateProject | server/storage.ts:93-96 | a duplicate slug is refused by the unique constraint, while the serial still advances; otherwise the new row is appended and returned |
| Storage.DatabaseStorage.DeleteProject | server/storage.ts:98-100 | the project row is removed; tasks that named it keep their reference |
| Storage.DatabaseStorage.CreateTag | server/storage.ts:107-110 | a duplicate name is refused by the unique constraint; otherwise the new row is appended and returned |
| ServerRoutes.ValidationReply | server/routes.ts:50-54 | 400 with the first issue's message and its path joined by "." as `field` |
| ServerRoutes.ListQuerySpec | server/routes.ts:22-26 | an empty query filters nothing; a printed id filters by that id; an empty or missing `projectId` is absent; status and search pass through |
| ServerRoutes.ListTasks | server/routes.ts:19-33 | a store failure gives 500 "Failed to fetch tasks"; otherwise 200 with exactly the matching rows, newest first, each as often as the table holds it (equal multisets) |
| ServerRoutes.GetTask | server/routes.ts:35-41 | 404 "Task not found" iff no row has the id; otherwise 200 with that row |
| ServerRoutes.CreateTask | server/routes.ts:43-58 | 400 with the first issue and no change on a bad body; otherwise `tagIds` is split off, the row inserted and linked to exactly those tags, and 201 returned with the row |
| ServerRoutes.UpdateReplyAsWritten | server/routes.ts:65-73 | as written: any store error becomes 404, and any store result, an absent one included, is answered with 200 |
| ServerRoutes.UpdateReply | shared/routes.ts:63-67 | 200 with the row iff a row was updated, otherwise 404 "Task not found" |
| ServerRoutes.UpdateRepliesDiffer | server/routes.ts:64-65 | the two replies differ exactly when the store updated nothing and raised nothing, where the code answers 200 with no body |
| ServerRoutes.UpdateTaskAsWritten | server/routes.ts:60-75 | as written: 400 with no change on a bad body; 404 with nothing changed for a body with no column; for a missing id 200 with no body, or 404 when non-empty `tagIds` trip the foreign key; for an existing id 200 with the patched row and links replaced iff `tagIds` was sent; projects, tags and other tasks' links never change |
| ServerRoutes.UpdateTask | server/routes.ts:60-75 | 400 with no change on a bad body; 404 with nothing changed for a body with no column or a missing id; otherwise 200 with the patched row, and links replaced iff `tagIds` was sent; projects, tags and other tasks' links never change |
| ServerRoutes.PatchMissingTask | server/routes.ts:60-75 | PATCH of task 1 with a status against an empty store: 200 with no body as written, 404 as intended |
| ServerRoutes.DeleteTask | server/routes.ts:77-80 | always 204; the row and its association rows are gone, and projects and tags are unchanged |
| ServerRoutes.ListProjects | server/routes.ts:83-86 | 200 with every project, with unique slugs |
| ServerRoutes.CreateProject | server/routes.ts:88-102 | 400 and no change on a bad body; a duplicate slug escapes the handler; otherwise 201 with the appended row; tags, tasks and links are unchanged |
| ServerRoutes.DeleteProject | server/routes.ts:104-107 | always 204; the project is removed, tasks keep their reference, and tags and links are unchanged |
| ServerRoutes.ListTags | server/routes.ts:110-113 | 200 with every tag, with unique names |
| ServerRoutes.CreateTag | server/routes.ts:115-129 | 400 and no change on a bad body; a duplicate name escapes the handler; otherwise 201 with the appended row; projects, tasks and links are unchanged |
| ServerRoutes.SeedDatabase | server/routes.ts:197-233 | with tasks present nothing changes. Otherwise: Work and Personal, then Urgent and Learning, then three tasks, with Urgent on the first and Learning on the third. A unique-constraint clash stops it before any task is created and leaves the rows inserted before the clash: on a project clash, the Work row if "work" was free and no tag; on a tag clash, both projects and the Urgent row if "Urgent" was free |
| ServerRoutes.SeedProjects | server/routes.ts:201-202 | the two project inserts fail iff either slug is taken, and otherwise append the two rows; on failure the Work row stays exactly when "work" was free, since each insert is awaited and committed on its own |
| ServerRoutes.SeedTags | server/routes.ts:205-206 | the two tag inserts fail iff either name is taken, and otherwise append the two rows; on failure the Urgent row stays exactly when "Urgent" was free |
| ServerRoutes.SeedTasks | server/routes.ts:209-231 | the three tasks are inserted into an empty task table with one association row each for the first and third |
| ServerRoutes.SeedLaterTasks | server/routes.ts:217-231 | the second and third seed tasks are appended, with one link, to the third task's tag |
| ServerRoutes.SeedTask | server/routes.ts:209-215 | one seed `createTask`: the row appended, and a link for the given tag if there is one |
| ServerRoutes.SeedLinksJoin | server/routes.ts:215-231 | after seeding, the first task has tag Urgent, the second none, the third Learning |
| TaskParser.ParseDueDate | client/src/lib/taskParser.ts:19-28 | a due date is set exactly when "tomorrow" or "today" occurs in any letter case |
| TaskParser.ParseTitleNoDoubleSpace | client/src/lib/taskParser.ts:32 | the title never holds two whitespace characters in a row |
| TaskParser.ParseTomorrow | client/src/lib/taskParser.ts:20-23 | "tomorrow" gives now + 1 and wins over "today"; the first occurrence, in any case, is cut and the rest trimmed |
| TaskParser.ParseToday | client/src/lib/taskParser.ts:25-28 | "today" without "tomorrow" gives now; the first "today" is cut and the rest trimmed |
| TaskParser.ParseNoKeyword | client/src/lib/taskParser.ts:15-16 | without a keyword there is no due date and only whitespace runs collapse |
| TaskParser.TitleTrimmedWithKeyword | client/src/lib/taskParser.ts:22-27 | after a keyword cut the title neither starts nor ends with whitespace |
| TaskParser.LeadingSpaceKeptWithoutKeyword | client/src/lib/taskParser.ts:15-32 | without a keyword leading whitespace survives as one space |
| TaskParser.SubstringNotWord | client/src/lib/taskParser.ts:25-27 | matching is by substring: "todays" becomes title "s", due today |
| LocalTypes.ParsePriority | client/src/lib/types.ts:4 | exactly "low", "medium" and "high" are accepted, each as its own value |
| LocalTypes.ParseStatus | client/src/lib/types.ts:8 | exactly "todo", "in-progress", "completed" and "archived" are accepted |
| LocalTypes.PriorityRoundTrip | client/src/lib/types.ts:4 | every priority's name parses back to it |
| LocalTypes.StatusRoundTrip | client/src/lib/types.ts:8 | every status's name parses back to it |
| LocalTypes.ServerInProgressRefused | client/src/lib/types.ts:8 | the server's "in_progress" is not a local status |
| LocalApp.AddTaskPrepends | client/src/App.tsx:43-66 | blank input changes nothing. Otherwise exactly one task goes in front of the unchanged list, built from the parsed title and due date as medium, todo, with the active project and tag |
| LocalApp.ToggleStatusIn | client/src/App.tsx:68-77 | tasks with the id go to "todo" from completed and to "completed" otherwise; nothing else changes |
| LocalApp.ToggleTwiceRestores | client/src/App.tsx:68-77 | toggling twice restores todo and completed tasks |
| LocalApp.ToggleTwiceFromOtherStatus | client/src/App.tsx:73 | an in-progress or archived task toggled twice ends at todo |
| LocalApp.WithoutTask | client/src/App.tsx:79-84 | every task with the id is removed; every other task keeps its number of copies and its order |
| LocalApp.FilterTasks | client/src/App.tsx:86-96 | a task is shown iff all four tests hold, as many times as it is listed; the result keeps list order |
| LocalApp.NoFilterShowsAll | client/src/App.tsx:86-96 | with an empty search and nothing selected every task is shown |
| LocalApp.App.constructor | client/src/App.tsx:21-27 | initial state as loaded, empty search, the "all" tab, nothing selected |
| LocalApp.App.AddTask | client/src/App.tsx:43-66 | the state's tasks become the list with the task added; the input clears unless it was blank |
| LocalApp.App.ToggleTaskStatus | client/src/App.tsx:68-77 | only the tasks field changes, to the toggled list |
| LocalApp.App.DeleteTask | client/src/App.tsx:79-84 | only the tasks field changes, to the list without the id |
| LocalApp.App.ToggleFocusMode | client/src/App.tsx:214 | `focusMode` flips and nothing else changes |
| UseTasks.AppendFilterParams | client/src/hooks/use-tasks.ts:7-10 | the successive appends build exactly the filter's parameters |
| UseTasks.FilterParamsSpec | client/src/hooks/use-tasks.ts:7-10 | the query holds exactly the truthy filter values, keys in the order projectId, status, search; it is empty iff nothing is selected |
| UseTasks.ListUrl | client/src/hooks/use-tasks.ts:12-13 | the bare list path when no filter is set, otherwise path + "?" + query string |
| UseTasks.ServerReadsFilter | server/routes.ts:22-26 | the server reads the client's query back as the client's filter with its falsy values dropped |
| UseTasks.FilterQueryMap | client/src/hooks/use-tasks.ts:7-10 | the query's keys are exactly the truthy filter values, each with its printed value |
| UseTasks.ListedAsFiltered | server/storage.ts:32-35 | the list the server answers is the one the client's filter asks for |
| UseTasks.ReadTask | client/src/hooks/use-tasks.ts:30-33 | 404 is read as no task, any other non-2xx as an error, and a 2xx as the task it carries |
| UseTasks.UseTask | client/src/hooks/use-tasks.ts:25-36 | disabled for id 0; otherwise the server's row with that id, or null when there is none |
| UseTasks.TaskListCache.constructor | client/src/hooks/use-tasks.ts:89 | the cache starts with the given list |
| UseTasks.TaskListCache.OnMutate | client/src/hooks/use-tasks.ts:86-97 | the snapshot is the cached list; a cached list gets the supplied fields merged into the matching tasks; no list means no write |
| UseTasks.TaskListCache.OnError | client/src/hooks/use-tasks.ts:98-101 | a taken snapshot is put back |
| UseTasks.TaskListCache.FailedUpdate | client/src/hooks/use-tasks.ts:86-101 | an optimistic write followed by a failure leaves the cache as it was |
| UseTasks.OptimisticWrite | client/src/hooks/use-tasks.ts:92-94 | the write keeps the list's length, rewrites only tasks with the id and keeps the rest |
| TaskDialog.ProjectFieldRoundTrip | client/src/components/TaskDialog.tsx:51 | a project's selector value is read back as that project, never "none"; no project round-trips through "none" |
| TaskDialog.UnchangedSubmitKeepsTask | client/src/components/TaskDialog.tsx:47-81 | opening a task with a non-empty or null description and saving it unchanged sends a body that, with coerced dates, parses to a patch writing the task back as it was; as written, the body is refused at `dueDate` iff the task has a due date |
| TaskDialog.EmptyDescriptionBecomesNull | client/src/components/TaskDialog.tsx:49 | an empty description comes back as null |
| TaskDialog.TaskDialogForm.constructor | client/src/components/TaskDialog.tsx:40-44 | the form starts blank: medium priority, no project |
| TaskDialog.TaskDialogForm.Sync | client/src/components/TaskDialog.tsx:46-64 | with a task the form is loaded from it; without one it is reset |
| TaskDialog.TaskDialogForm.Submit | client/src/components/TaskDialog.tsx:66-87 | an update of the task's id with the payload, or a create; the dialog closes iff the mutation succeeded |
| Sidebar.SlugHasNoSpace | client/src/components/Sidebar.tsx:36 | a slug holds no whitespace |
| Sidebar.SlugKeepsCharacters | client/src/components/Sidebar.tsx:36 | the lower-cased name's characters other than whitespace and "-" appear in the slug in order |
| Sidebar.SlugNotTrimmed | client/src/components/Sidebar.tsx:36 | whitespace at either end of the name becomes "-" at that end; otherwise the end letter survives lower-cased |
| Sidebar.NewProjectRowSpec | client/src/components/Sidebar.tsx:34-38 | the stored project keeps the typed name and the slug, with colour "#000000" |
| Sidebar.ProjectForm.constructor | client/src/components/Sidebar.tsx:32-44 | the dialog starts closed with an empty name |
| Sidebar.ProjectForm.CreateProject | client/src/components/Sidebar.tsx:32-44 | sends the project for the typed name; only on success does the dialog close and the name clear |
| QuickAdd.RouteSpec | client/src/components/QuickAdd.tsx:14-35 | whitespace-only input sends nothing; input longer than 20 or mentioning "plan"/"schedule" in any case goes whole to the AI; the rest creates a task titled with the raw value |
| QuickAdd.DirectTaskRow | client/src/components/QuickAdd.tsx:27-31 | the direct task is stored with the raw title as medium and todo, at position 0 |
| QuickAdd.QuickAddBox.constructor | client/src/components/QuickAdd.tsx:10 | the box starts empty |
| QuickAdd.QuickAddBox.Submit | client/src/components/QuickAdd.tsx:14-35 | sends the routed submission; the box clears only after something was sent and succeeded |
| TaskCard.RequestsNameTheTask | client/src/components/TaskCard.tsx:37-50 | states the three payloads by definition: each button names the card's own task, and the toggle sends only the status, "todo" when completed, else "completed"; what the toggle means for the row is `TaskCard.ToggleFlipsCompleted` |
| TaskCard.ToggleFlipsCompleted | client/src/components/TaskCard.tsx:35-42 | applied to the task, the toggle flips whether it is completed and changes only the status |
| TaskCard.ToggleTwice | client/src/components/TaskCard.tsx:40 | from "in_progress" or "archived", two toggles end at "todo" |
| Dashboard.Partition | client/src/pages/Dashboard.tsx:32-33 | pending and completed split the loaded list, each task in exactly one list by its status, each list in original order |
| Dashboard.NothingLoaded | client/src/pages/Dashboard.tsx:32-33 | with nothing loaded both lists are empty |
| Dashboard.PendingCount | client/src/pages/Dashboard.tsx:44 | the pending count plus the completed count is the number of loaded tasks |
| Dashboard.DashboardState.constructor | client/src/pages/Dashboard.tsx:16-17 | nothing is being edited and the dialog is closed |
| Dashboard.DashboardState.HandleEdit | client/src/pages/Dashboard.tsx:19-22 | the task becomes the one being edited and the dialog opens |
| Dashboard.DashboardState.HandleOpenChange | client/src/pages/Dashboard.tsx:24-27 | the dialog follows `open`; closing also forgets the task |
| Strings.Lower | client/src/App.tsx:88-89 | `toLowerCase` keeps the length and lower-cases each ASCII letter |
| Strings.ReplaceFirstSpec | shared/routes.ts:159 | `replace` with a string pattern replaces only the first occurrence, and changes nothing without one |
| Strings.NatToString | shared/routes.ts:159 | `String(n)` for a non-negative integer: decimal digits with no leading zero |
| Strings.ParseInteger | client/src/components/TaskDialog.tsx:73 | a decimal numeral with an optional `+` or `-` sign is read as an integer of that sign, and anything else is refused |
| Strings.TrimSpec | client/src/lib/taskParser.ts:22 | `trim` removes exactly the leading and trailing whitespace runs |
| Strings.TrimEmptyIffAllSpace | client/src/components/QuickAdd.tsx:16 | a trimmed string is empty iff the string is whitespace only |
| Strings.ReplaceFirstIgnoreCaseSpec | client/src/lib/taskParser.ts:22 | `replace(/p/i, r)` replaces only the first case-insensitive occurrence, and changes nothing without one |
| Strings.CollapseSpacesShape | client/src/lib/taskParser.ts:32 | `replace(/\s+/g, c)` leaves no two whitespace characters in a row |
| Strings.CollapseSpacesKeeps | client/src/lib/taskParser.ts:32 | collapsing keeps every other character in order |
| Strings.IndexOfFirst | shared/routes.ts:158 | `indexOf` finds an occurrence exactly when there is one, and then the first |
| Strings.ContainsOccurs | shared/routes.ts:158 | `includes` holds exactly when the pattern occurs |
| Strings.IntToStringRoundTrip | client/src/components/TaskDialog.tsx:51-73 | `parseInt(String(n))` is n |
| Strings.JsNumberReadsPrinted | server/routes.ts:23 | `Number(String(n))` is n |

## Left out

- AI endpoints (`/api/ai/process`, `/api/ai/breakdown`) and their hooks are out. They call a language model and parse its reply. The quick-add and task-card rules model only the request each sends: `QuickAdd.Submission.AiProcess` and `TaskCard.CardRequest.Breakdown`.
- Database I/O, transactions and concurrency are out. Each request runs atomically and alone against in-memory tables. `updateTask` has no transaction around its delete and insert, which the model does not capture.
- Foreign-key rejections on `tasks.project_id` and on `task_tags.tag_id` are not modelled. For tags, `TagsExist` is instead a precondition of the create and update paths. For projects, `deleteProject` removes the row and leaves referring tasks pointing at it. The one rejection that is modelled is the `task_tags.task_id` foreign key in `updateTask`, because it decides the reply.
- The search filter treats the text as a literal substring. `%` and `_` act as LIKE wildcards inside it in the source, and the model does not capture that.
- Letter case is folded for ASCII only: no Unicode case folding.
- `Number` and `parseInt` are modelled on decimal numerals only. Hexadecimal, exponent, fractional and partially numeric strings are out.
- Dates are abstract integers. The ISO 8601 text `toISOString` writes is modelled by the decimal numeral of the instant (`Validation.DateText`), and `new Date(text)` by reading it back (`Validation.DateFromText`); the ISO format itself is out.
- Under the coercing date rule (`Validation.CoerceDate`), booleans, `null` where it is not allowed, arrays and objects give an invalid date, while `new Date` accepts some of them.
- URL percent-encoding of query values is not modelled. `UseTasks.QueryString` joins raw `key=value` pairs.
- The query builder's refusal of an update with no column is modelled as the error value `Storage.DbError.NoValuesToSet`, not as a thrown exception; the handler's catch turns it into 404 either way.
- JoinTagsSpec: the join has no `ORDER BY`, so the database may return the tags in any order; the model, and `Storage.DatabaseStorage.GetTaskTags`, fix association-row order.
- RouteSpec (`QuickAdd.RouteSpec`, `QuickAdd.IsComplex`): the length test counts characters, while `value.length` counts UTF-16 code units, so a text with characters outside the Basic Multilingual Plane can reach the AI in the source with fewer than 21 characters here.
- BuildUrl (`ApiContract.BuildUrl`): `replace` interprets `$&`, `$1` and similar patterns in the replacement string; the model inserts the parameter text literally. Numbers and ids never contain `$`.
- ParseInteger (`Strings.ParseInteger`): it stands for both `Number` and `parseInt` on numerals; where they differ (`parseInt("12abc")` is 12, `Number("12abc")` is NaN) the model refuses.
- JSON numbers (`Validation.Json.JNumber`) are integers only. A JSON body can also carry a fraction such as `{"position": 1.5}` or an integer outside 32 bits such as `{"projectId": 3000000000}`. The generated `z.number()` rule accepts both, and Postgres then refuses the value for an `integer` column. On create that store error is rethrown from the handler; on update the catch answers 404 "Task not found". The model has no such values, so neither path is captured.
- Non-numeric path ids (`Number("abc")` is NaN) are out: handlers take the id as an integer.
- Express's handling of a thrown error is out. A unique-constraint error that escapes a create handler is the value `ServerRoutes.Outcome.Escaped`, not an HTTP response.
- `ServerRoutes.SeedDatabase`: the source throws on a store error; the model returns it as `Err`.
- `Storage.SortNewestFirst`: rows created at the same instant are left in table order, while Postgres leaves their order unspecified.
- React Query plumbing is out: fetching, cache invalidation, `isPending`, toasts and `cancelQueries`.
- `UseTasks.TaskListCache.OnMutate`: the spread also copies `tagIds` into the cached task as an extra key, which the model does not capture.
- Rendering, styling, dark mode, routing and the due-date labels are out.
- Browser storage (`localStorage`) is not part of this model.
- The random id and the clock of `addTask` are parameters.
- The parser's doc comment mentions "in X days", but the code does not implement it, so neither does the model.

## Findings

| source | as written | input that shows it | evidently intended | confidence | as-written member | corrected member |
|---|---|---|---|---|---|---|
| server/routes.ts:60-75 with server/storage.ts:60-77 | `updateTask` returns no row for an id that does not exist. The handler then answers 200 with an empty body; only a thrown error reaches the 404 branch: a body with no column to set (refused by the query builder) or non-empty `tagIds` (refused by the task_tags foreign key) | `PATCH /api/tasks/1` with body `{"status":"completed"}` against a store with no task 1 | 404 "Task not found", as the update route's contract lists (shared/routes.ts:63-67) | not executed | ServerRoutes.UpdateTaskAsWritten, ServerRoutes.PatchMissingTask | ServerRoutes.UpdateTask |
| shared/schema.ts:27 with shared/schema.ts:81 and shared/routes.ts:48-62 | the generated insert schema turns the `timestamp` column into a rule that wants a date value and does not coerce; a JSON body carries a due date as the text `toISOString` writes, so any create or update that sets a due date is refused with 400 "Expected date, received string" at `dueDate` | `POST /api/tasks` with body `{"title":"Write report","dueDate":"2026-10-12T00:00:00.000Z"}` | the date is accepted and stored, as the task dialog (client/src/components/TaskDialog.tsx:74) and the quick-add parser expect; a coercing rule (`z.coerce.date()`) does that | not executed | ApiContract.ParseTaskCreate, ApiContract.DatedTaskRefused | ApiContract.ParseTaskCreateCoerced, ApiContract.CreateRoundTrip |
