/** The data the Kanban client's components share: tasks and projects as the
    REST API returns them, the three status strings the board is keyed by,
    the replies of the API wrappers and the requests the components send. */
module Kanban {
  import opened Seqs

  datatype Option<+T> = None | Some(value: T)

  /** JavaScript truthiness of an optional string: `null`, `undefined` and `""` are falsy. */
  predicate Truthy(o: Option<string>)
  {
    o.Some? && o.value != ""
  }

  const YetToStart: string := "Yet To Start"
  const InProgress: string := "In Progress"
  const Completed: string := "Completed"

  /** One of the three status strings the board has a column for. */
  predicate Known(status: string)
  {
    status == YetToStart || status == InProgress || status == Completed
  }

  /** A task as the API returns it (`_id` is `id` here). Status and priority
      are plain strings: nothing in the client checks them against the
      unions the TypeScript types declare. */
  datatype Task = Task(id: string, title: string, description: string, priority: string, status: string)

  /** A project as the project list holds it (`_id` is `id` here). */
  datatype Project = Project(id: string, name: string, description: Option<string>)

  /** The body `getAllTasks` resolves to: the server's `response.data`
      unchanged. `NullBody` is a JSON `null`; otherwise it is an object whose
      `projectTasks` is an array of tasks or missing, as in the wrapper's own
      `{success:false}` when the request failed. */
  datatype TasksBody = NullBody | Body(projectTasks: Option<seq<Task>>)

  /** `res?.projectTasks`: absent on a null body. */
  function ProjectTasks(reply: TasksBody): Option<seq<Task>>
  {
    if reply.NullBody? then None else reply.projectTasks
  }

  /** The `{success, response?}` envelope of the create, update and delete
      wrappers. They catch every error, so a call always yields one of these. */
  datatype Envelope = Envelope(success: bool)

  /** `UpdateTaskData`: every field optional. */
  datatype TaskPatch = TaskPatch(title: Option<string>, description: Option<string>,
                                 priority: Option<string>, status: Option<string>)

  /** `UpdateProjectData`: every field optional. */
  datatype ProjectPatch = ProjectPatch(name: Option<string>, invitedUsers: Option<string>)

  /** A call into the API wrappers, with the arguments it carries. */
  datatype Request =
    | GetAllTasks(projectId: string)
    | CreateTask(title: string, description: string, priority: string, status: string, projectId: string)
    | UpdateTask(projectId: string, taskId: string, patch: TaskPatch)
    | DeleteTask(projectId: string, taskId: string)
    | CreateProject(name: string, invitedUsers: string)
    | UpdateProject(projectId: string, data: ProjectPatch)

  function HasStatus(status: string): Task -> bool
  {
    (t: Task) => t.status == status
  }

  function IsUnrecognised(): Task -> bool
  {
    (t: Task) => !Known(t.status)
  }

  /** The tasks whose status is exactly `status`, in their order: one column
      of `fetchAllTasks`, and the list `countTasks` measures. */
  function WithStatus(ts: seq<Task>, status: string): (r: seq<Task>)
    ensures forall t :: t in r <==> t in ts && t.status == status
  {
    Filter(ts, HasStatus(status))
  }

  /** The tasks whose status is none of the three column keys. */
  function Unrecognised(ts: seq<Task>): (r: seq<Task>)
    ensures forall t :: t in r <==> t in ts && !Known(t.status)
  {
    Filter(ts, IsUnrecognised())
  }

  /** Every task has exactly one status: the three status filters and the
      unrecognised ones split the list without overlap or loss. */
  lemma {:induction false} StatusCountsSum(ts: seq<Task>)
    ensures |WithStatus(ts, YetToStart)| + |WithStatus(ts, InProgress)| + |WithStatus(ts, Completed)|
            + |Unrecognised(ts)| == |ts|
  {
    if ts != [] {
      StatusCountsSum(ts[1..]);
    }
  }
}
