/** The task dialog of the web client: the form it shows, filled from the task
    being edited or blank for a new one, and the request it sends on submit. */
module TaskDialog {
  import opened Wrappers
  import opened Strings
  import opened Schema
  import Validation
  import ApiContract

  /** The project selector's value for "no project". */
  const NoProject: string := "none"

  /** The form's fields; the project selector holds a string, the date picker a
      date or nothing. */
  datatype Form = Form(title: string, description: string, priority: string, projectId: string, dueDate: Option<int>)

  /** `resetForm`: the form for a new task. */
  const BlankForm: Form := Form("", "", "medium", NoProject, None)

  /** The selector's value for a task's project: "none" for none, else its decimal form. */
  function ProjectField(projectId: Option<int>): string {
    if projectId.Some? then IntToString(projectId.value) else NoProject
  }

  /** The form filled from the task being edited; a missing description shows as "". */
  function LoadForm(t: Task): Form {
    Form(t.title, if t.description.Some? then t.description.value else "", t.priority,
         ProjectField(t.projectId), t.dueDate)
  }

  /** The project id sent for the selector's value: null for "none", otherwise
      `parseInt` of it (a `NaN` is sent as null too). */
  function ProjectChoice(field: string): Option<int> {
    if field == NoProject then None else ParseInteger(field)
  }

  /** The selector's value for a project is read back as that project, and "none"
      as no project: no decimal numeral is "none". */
  lemma ProjectFieldRoundTrip(projectId: Option<int>)
    ensures ProjectChoice(ProjectField(projectId)) == projectId
    ensures projectId.Some? ==> ProjectField(projectId) != NoProject
  {
    if projectId.Some? {
      var n := projectId.value;
      IntToStringRoundTrip(n);
      assert ParseInteger(IntToString(n)).Some?;
      assert ParseInteger(NoProject).None? by {
        assert !IsDigit(NoProject[0]) && NoProject[0] != '-';
      }
    }
  }

  /** `taskData`: title and priority as typed, an empty description as null, the
      chosen project, and the date or null. Status, position and parent are not sent. */
  function Payload(f: Form): InsertTask {
    InsertTask(f.title, Present(if f.description == "" then None else Some(f.description)),
      Present(f.priority), Absent, Present(f.dueDate), Present(ProjectChoice(f.projectId)), Absent, Absent)
  }

  /** Opening a task and saving it unchanged sends an update that writes the task
      back as it was, once the body is read with dates coerced. As the server is
      written, the body is refused for the due date when the task has one ... */
  lemma UnchangedSubmitKeepsTask(t: Task)
    requires t.description != Some("")
    ensures var x := ApiContract.TaskUpdateInput(InsertAsPatch(Payload(LoadForm(t))), Absent);
      var body := Validation.JObject(ApiContract.EncodeTaskUpdate(x));
      && ApiContract.ParseTaskUpdateCoerced(body) == Ok(x)
      && ApiContract.ParseTaskUpdate(body) == (if t.dueDate.Some? then Err(DueDateRefusal) else Ok(x))
      && ApplyPatch(t, x.patch) == t
  {
    ProjectFieldRoundTrip(t.projectId);
    ApiContract.UpdateRoundTrip(ApiContract.TaskUpdateInput(InsertAsPatch(Payload(LoadForm(t))), Absent));
  }

  /** ... and an empty description comes back as null. */
  lemma EmptyDescriptionBecomesNull(t: Task)
    requires t.description == Some("")
    ensures ApplyPatch(t, InsertAsPatch(Payload(LoadForm(t)))) == t.(description := None)
  {
    ProjectFieldRoundTrip(t.projectId);
  }

  /** What a submit sends: an update of the edited task, or a create. */
  datatype Request = CreateRequest(task: InsertTask) | UpdateRequest(id: int, patch: TaskPatch)

  /** The dialog's form state. */
  class TaskDialogForm {
    var form: Form

    constructor ()
      ensures form == BlankForm
    {
      form := BlankForm;
    }

    /** The effect run when the task or the open flag changes: fill the form from
        the task, or reset it. */
    method Sync(task: Option<Task>)
      modifies this
      ensures task.Some? ==> form == LoadForm(task.value)
      ensures task.None? ==> form == BlankForm
    {
      if task.Some? {
        form := LoadForm(task.value);
      } else {
        form := BlankForm;
      }
    }

    /** `handleSubmit`: with a task, an update of that task's id with the payload's
        fields; without one, a create of the payload. `succeeded` is the mutation's
        outcome; only a success asks the dialog to close. The form is left as it is. */
    method Submit(task: Option<Task>, succeeded: bool) returns (request: Request, close: bool)
      ensures task.Some? ==> request == UpdateRequest(task.value.id, InsertAsPatch(Payload(form)))
      ensures task.None? ==> request == CreateRequest(Payload(form))
      ensures close == succeeded
    {
      var data := Payload(form);
      if task.Some? {
        request := UpdateRequest(task.value.id, InsertAsPatch(data));
      } else {
        request := CreateRequest(data);
      }
      close := succeeded;
    }
  }
}
