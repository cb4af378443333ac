/** The dashboard page: the loaded tasks split into pending and completed, the
    pending count, and the edit dialog's state. */
module Dashboard {
  import opened Wrappers
  import Seqs
  import opened Schema
  import TaskCard

  /** The loaded list; nothing while loading. */
  function Loaded(data: Option<seq<Task>>): seq<Task> {
    if data.Some? then data.value else []
  }

  function TodoTasks(data: Option<seq<Task>>): seq<Task> {
    Seqs.Filter(Loaded(data), (t: Task) => !TaskCard.IsCompleted(t))
  }

  function CompletedTasks(data: Option<seq<Task>>): seq<Task> {
    Seqs.Filter(Loaded(data), (t: Task) => TaskCard.IsCompleted(t))
  }

  /** The two lists split the loaded list: each task lands in exactly one, by its
      status, as often as it was loaded, and each list keeps the loaded order. */
  lemma Partition(data: Option<seq<Task>>)
    ensures multiset(TodoTasks(data)) + multiset(CompletedTasks(data)) == multiset(Loaded(data))
    ensures forall t :: t in TodoTasks(data) <==> t in Loaded(data) && t.status != "completed"
    ensures forall t :: t in CompletedTasks(data) <==> t in Loaded(data) && t.status == "completed"
    ensures Seqs.IsSubsequence(TodoTasks(data), Loaded(data))
    ensures Seqs.IsSubsequence(CompletedTasks(data), Loaded(data))
  {
    var pending := (t: Task) => !TaskCard.IsCompleted(t);
    var done := (t: Task) => TaskCard.IsCompleted(t);
    Seqs.FilterPartition(Loaded(data), pending, done);
    Seqs.FilterMembers(Loaded(data), pending);
    Seqs.FilterMembers(Loaded(data), done);
    Seqs.FilterIsSubsequence(Loaded(data), pending);
    Seqs.FilterIsSubsequence(Loaded(data), done);
  }

  /** With nothing loaded both lists are empty. */
  lemma NothingLoaded()
    ensures TodoTasks(None) == [] && CompletedTasks(None) == []
  {
  }

  /** The pending count in the header is the length of the pending list: every
      loaded task that is not completed. */
  function PendingCount(data: Option<seq<Task>>): (n: nat)
    ensures n + |CompletedTasks(data)| == |Loaded(data)|
  {
    Partition(data);
    assert |multiset(TodoTasks(data))| + |multiset(CompletedTasks(data))| == |multiset(Loaded(data))|;
    |TodoTasks(data)|
  }

  /** The dashboard's dialog state. */
  class DashboardState {
    var editingTask: Option<Task>
    var isDialogOpen: bool

    constructor ()
      ensures editingTask == None && !isDialogOpen
    {
      editingTask := None;
      isDialogOpen := false;
    }

    /** `handleEdit`: the task becomes the one being edited and the dialog opens. */
    method HandleEdit(t: Task)
      modifies this
      ensures editingTask == Some(t) && isDialogOpen
    {
      editingTask := Some(t);
      isDialogOpen := true;
    }

    /** `handleOpenChange`: the dialog follows `open`; closing also forgets the task. */
    method HandleOpenChange(open: bool)
      modifies this
      ensures isDialogOpen == open
      ensures editingTask == if open then old(editingTask) else None
    {
      isDialogOpen := open;
      if !open {
        editingTask := None;
      }
    }
  }
}
