/** The task form of `TasksModal`: its fields are filled from the task
    being edited or from defaults, a blank title blocks submission, and a
    submit either updates that task or creates a new one. */
module TasksModal {
  import opened Kanban
  import opened Text

  const DefaultPriority := "low"

  /** What a submit sends: nothing when the title is blank after trimming;
      `updateTask` with the four form fields when a task is being edited;
      `createTask` with the four fields and the project id otherwise. The
      title goes out as typed: only the guard trims it. */
  function SubmitRequest(projectId: string, task: Option<Task>, title: string, description: string,
                         priority: string, status: string): (r: Option<Request>)
    ensures r.None? <==> Blank(title)
    ensures r.Some? && task.Some? ==>
      r.value == UpdateTask(projectId, task.value.id, TaskPatch(Some(title), Some(description), Some(priority), Some(status)))
    ensures r.Some? && task.None? ==>
      r.value == CreateTask(title, description, priority, status, projectId)
  {
    TrimEmptyIffBlank(title);
    if Trim(title) == "" then None
    else if task.Some? then
      Some(UpdateTask(projectId, task.value.id, TaskPatch(Some(title), Some(description), Some(priority), Some(status))))
    else
      Some(CreateTask(title, description, priority, status, projectId))
  }

  /** A title that passes the guard is sent as typed, so a title that starts
      with white space goes out with that white space. */
  lemma UntrimmedTitleIsSent(projectId: string, task: Option<Task>, title: string, description: string,
                             priority: string, status: string)
    requires |title| > 0 && IsSpace(title[0]) && !Blank(title)
    ensures var r := SubmitRequest(projectId, task, title, description, priority, status);
      && r.Some?
      && (task.None? ==> r.value.title == title)
      && (task.Some? ==> r.value.patch.title == Some(title))
      && title != Trim(title)
  {
    TrimEmptyIffBlank(title);
    TrimEnds(title);
  }

  /** The form's state. */
  class TaskForm {
    var title: string
    var description: string
    var priority: string
    var status: string
    var loading: bool

    constructor ()
      ensures title == "" && description == "" && priority == DefaultPriority && status == YetToStart
      ensures !loading
    {
      title := "";
      description := "";
      priority := DefaultPriority;
      status := YetToStart;
      loading := false;
    }

    /** The effect on `task`: copy the task's fields, or reset to the defaults. */
    method InitFromTask(task: Option<Task>)
      modifies this
      ensures task.Some? ==> title == task.value.title && description == task.value.description
                             && priority == task.value.priority && status == task.value.status
      ensures task.None? ==> title == "" && description == "" && priority == DefaultPriority && status == YetToStart
      ensures loading == old(loading)
    {
      if task.Some? {
        title := task.value.title;
        description := task.value.description;
        priority := task.value.priority;
        status := task.value.status;
      } else {
        title := "";
        description := "";
        priority := DefaultPriority;
        status := YetToStart;
      }
    }

    /** `handleSubmit`. A blank title changes nothing and sends nothing.
        Otherwise the one request of `SubmitRequest` is sent and `onClose`
        runs whatever its envelope says (the wrappers never throw); after a
        create the fields go back to the defaults, after an edit they stay;
        `loading` ends false. */
    method Submit(projectId: string, task: Option<Task>, reply: Envelope) returns (calls: seq<Request>, closed: bool)
      modifies this
      ensures Blank(old(title)) ==>
        && calls == [] && !closed
        && title == old(title) && description == old(description) && priority == old(priority)
        && status == old(status) && loading == old(loading)
      ensures !Blank(old(title)) ==>
        && calls == [SubmitRequest(projectId, task, old(title), old(description), old(priority), old(status)).value]
        && closed && !loading
        && (task.None? ==> title == "" && description == "" && priority == DefaultPriority && status == YetToStart)
        && (task.Some? ==> title == old(title) && description == old(description)
                           && priority == old(priority) && status == old(status))
    {
      calls, closed := [], false;
      var request := SubmitRequest(projectId, task, title, description, priority, status);
      if request.None? {
        return;
      }
      loading := true;
      calls := [request.value];
      closed := true;
      if task.None? {
        title := "";
        description := "";
        priority := DefaultPriority;
        status := YetToStart;
      }
      loading := false;
    }
  }
}
