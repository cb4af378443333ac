/** The task card of the web client: whether it shows as done, and the requests its
    buttons send. */
module TaskCard {
  import opened Schema

  predicate IsCompleted(t: Task) {
    t.status == "completed"
  }

  /** What a card button sends: a status update, a delete, or an AI breakdown, each
      naming the card's task. */
  datatype CardRequest = UpdateStatus(id: int, patch: TaskPatch) | Delete(id: int) | Breakdown(id: int)

  /** `handleToggleStatus`: the id and a status only, "todo" for a completed task and
      "completed" otherwise. */
  function ToggleRequest(t: Task): CardRequest {
    UpdateStatus(t.id, StatusPatch(if IsCompleted(t) then "todo" else "completed"))
  }

  function DeleteRequest(t: Task): CardRequest {
    Delete(t.id)
  }

  function BreakdownRequest(t: Task): CardRequest {
    Breakdown(t.id)
  }

  /** Every button names the card's own task. */
  lemma RequestsNameTheTask(t: Task)
    ensures ToggleRequest(t).id == t.id && DeleteRequest(t).id == t.id && BreakdownRequest(t).id == t.id
    ensures ToggleRequest(t).patch == StatusPatch(if IsCompleted(t) then "todo" else "completed")
  {
  }

  /** Applied to the task, the toggle flips whether it is completed and changes
      nothing but the status. */
  lemma ToggleFlipsCompleted(t: Task)
    ensures var u := ApplyPatch(t, ToggleRequest(t).patch);
      && (IsCompleted(u) <==> !IsCompleted(t))
      && u == t.(status := u.status)
  {
    StatusPatchOnlyStatus(t, if IsCompleted(t) then "todo" else "completed");
  }

  /** The toggle is not an involution: an in-progress or archived task toggled
      twice ends at "todo". */
  lemma ToggleTwice(t: Task)
    requires t.status == "in_progress" || t.status == "archived"
    ensures var once := ApplyPatch(t, ToggleRequest(t).patch);
      ApplyPatch(once, ToggleRequest(once).patch) == t.(status := "todo")
  {
    StatusPatchOnlyStatus(t, "completed");
    StatusPatchOnlyStatus(t.(status := "completed"), "todo");
  }
}
