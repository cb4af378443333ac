/** The quick-add box of the web client: blank input is ignored, input that looks
    complicated goes to the AI endpoint, anything else becomes a task as typed. */
module QuickAdd {
  import opened Wrappers
  import opened Strings
  import opened Schema

  /** The routing rule: longer than 20 characters, or mentioning "plan" or
      "schedule" in any letter case. */
  predicate IsComplex(value: string) {
    |value| > 20 || Contains(Lower(value), "plan") || Contains(Lower(value), "schedule")
  }

  /** What a submit sends. */
  datatype Submission = Nothing | AiProcess(text: string) | CreateTask(task: InsertTask)

  /** The task created directly: the raw input as title, medium priority, todo. */
  function DirectTask(value: string): InsertTask {
    InsertTask(value, Absent, Present("medium"), Present("todo"), Absent, Absent, Absent, Absent)
  }

  /** `handleSubmit`'s choice for the current input. */
  function Route(value: string): Submission {
    if Trim(value) == "" then Nothing
    else if IsComplex(value) then AiProcess(value)
    else CreateTask(DirectTask(value))
  }

  /** Whitespace-only input sends nothing; complex input goes whole to the AI and
      creates nothing; any other input creates a task titled with the untrimmed input. */
  lemma RouteSpec(value: string)
    ensures Route(value) == Nothing <==> AllSpace(value)
    ensures Route(value).AiProcess? <==>
      !AllSpace(value) && (|value| > 20 || Occurs(Lower(value), "plan") || Occurs(Lower(value), "schedule"))
    ensures Route(value).AiProcess? ==> Route(value).text == value
    ensures Route(value).CreateTask? ==> Route(value).task.title == value
  {
    TrimEmptyIffAllSpace(value);
    ContainsOccurs(Lower(value), "plan");
    ContainsOccurs(Lower(value), "schedule");
  }

  /** The row stored for a direct task: the raw input, medium, todo, position 0, no
      description, date, project or parent. */
  lemma DirectTaskRow(id: int, value: string, now: int)
    ensures NewTaskRow(id, DirectTask(value), now) == Task(id, value, None, "medium", "todo", None, None, Some(0), None, now)
  {
  }

  /** The quick-add input box. */
  class QuickAddBox {
    var value: string

    constructor ()
      ensures value == ""
    {
      value := "";
    }

    /** `handleSubmit`; `succeeded` is the outcome of whichever mutation was sent.
        The box is cleared only when something was sent and it succeeded. */
    method Submit(succeeded: bool) returns (sent: Submission)
      modifies this
      ensures sent == Route(old(value))
      ensures value == if sent != Nothing && succeeded then "" else old(value)
    {
      sent := Route(value);
      if sent != Nothing && succeeded {
        value := "";
      }
    }
  }
}
