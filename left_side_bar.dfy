/** The task board of `LeftSideBar`: three status columns rebuilt from the
    server's task list, an optimistic drag-and-drop move between columns,
    and delete. The pure state updates are functions; the handlers that set
    `tasks`, `draggedTask` and `loading` in sequence are methods of `Board`. */
module LeftSideBar {
  import opened Seqs
  import opened Kanban

  /** `TaskState`: one bucket per status column. */
  datatype TaskState = TaskState(yetToStart: seq<Task>, inProgress: seq<Task>, completed: seq<Task>)

  /** `initialState`: three empty buckets. */
  const Empty := TaskState([], [], [])

  /** The bucket keyed by `status`; an unrecognised status has none. */
  function Bucket(b: TaskState, status: string): seq<Task>
  {
    if status == YetToStart then b.yetToStart
    else if status == InProgress then b.inProgress
    else if status == Completed then b.completed
    else []
  }

  /** `b` with the bucket keyed by `status` replaced; an unrecognised status changes nothing. */
  function WithBucket(b: TaskState, status: string, list: seq<Task>): TaskState
  {
    if status == YetToStart then b.(yetToStart := list)
    else if status == InProgress then b.(inProgress := list)
    else if status == Completed then b.(completed := list)
    else b
  }

  function Size(b: TaskState): nat
  {
    |b.yetToStart| + |b.inProgress| + |b.completed|
  }

  /** The partition invariant: every task sits in the bucket its status names. */
  predicate Partitioned(b: TaskState)
  {
    && (forall t :: t in b.yetToStart ==> t.status == YetToStart)
    && (forall t :: t in b.inProgress ==> t.status == InProgress)
    && (forall t :: t in b.completed ==> t.status == Completed)
  }

  /** The grouping in `fetchAllTasks`: each bucket filters the list by its exact status string. */
  function Partition(ts: seq<Task>): TaskState
  {
    TaskState(WithStatus(ts, YetToStart), WithStatus(ts, InProgress), WithStatus(ts, Completed))
  }

  /** What `fetchAllTasks` stores for a reply: the partition when the body has
      `projectTasks`, the empty board otherwise (a null body included). */
  function Loaded(reply: TasksBody): TaskState
  {
    match ProjectTasks(reply)
    case Some(ts) => Partition(ts)
    case None => Empty
  }

  /** The project the board works on: the URL's `projectId` parameter when
      it is non-empty, else the `selectedProjectId` prop when that is
      non-empty, else none. */
  function ResolveProjectId(urlParam: Option<string>, selectedProjectId: Option<string>): (r: Option<string>)
    ensures r.None? || Truthy(r)
    ensures Truthy(urlParam) ==> r == urlParam
    ensures !Truthy(urlParam) && Truthy(selectedProjectId) ==> r == selectedProjectId
    ensures r.None? <==> !Truthy(urlParam) && !Truthy(selectedProjectId)
  {
    if Truthy(urlParam) then urlParam
    else if Truthy(selectedProjectId) then selectedProjectId
    else None
  }

  function OtherId(taskId: string): Task -> bool
  {
    (t: Task) => t.id != taskId
  }

  function SameId(taskId: string): Task -> bool
  {
    (t: Task) => t.id == taskId
  }

  /** `removeFromList`: the entries whose id is not `taskId`, in their order. */
  function RemoveById(list: seq<Task>, taskId: string): seq<Task>
  {
    Filter(list, OtherId(taskId))
  }

  /** How many entries of `list` carry `taskId`. */
  function CountId(list: seq<Task>, taskId: string): nat
  {
    |Filter(list, SameId(taskId))|
  }

  function BoardCountId(b: TaskState, taskId: string): nat
  {
    CountId(b.yetToStart, taskId) + CountId(b.inProgress, taskId) + CountId(b.completed, taskId)
  }

  /** `removeFromList`: exactly the entries without `taskId` remain, in their
      order, and the list shrinks by the number of entries that had it. */
  lemma RemoveByIdSpec(list: seq<Task>, taskId: string)
    ensures var r := RemoveById(list, taskId);
      && (forall t :: t in r <==> t in list && t.id != taskId)
      && SubseqOf(r, list)
      && |r| == |list| - CountId(list, taskId)
  {
    FilterSubseq(list, OtherId(taskId));
    FilterComplement(list, SameId(taskId), OtherId(taskId));
  }

  /** Removing an id that is not there leaves the list as it was. */
  lemma RemoveAbsent(list: seq<Task>, taskId: string)
    requires CountId(list, taskId) == 0
    ensures RemoveById(list, taskId) == list
  {
    forall t | t in list ensures t.id != taskId {
      assert SameId(taskId)(t) ==> t in Filter(list, SameId(taskId));
    }
    FilterKeepsAll(list, OtherId(taskId));
  }

  /** `updateTasks` in `handleDrop`: drop every entry with the dragged task's
      id from the bucket of its old status, then append a copy carrying the
      new status to the bucket of the new one. */
  function UpdateTasks(prev: TaskState, dragged: Task, newStatus: string): TaskState
  {
    var updatedTask := dragged.(status := newStatus);
    var removed := WithBucket(prev, dragged.status, RemoveById(Bucket(prev, dragged.status), dragged.id));
    WithBucket(removed, newStatus, Bucket(removed, newStatus) + [updatedTask])
  }

  /** The optimistic move: the old bucket loses exactly the entries with the
      dragged id and keeps the order of the rest; the copy with the new status
      goes to the end of the target bucket; the third bucket is untouched. */
  lemma MoveSpec(prev: TaskState, dragged: Task, newStatus: string)
    requires Known(dragged.status) && Known(newStatus) && dragged.status != newStatus
    ensures var r := UpdateTasks(prev, dragged, newStatus);
      && Bucket(r, dragged.status) == RemoveById(Bucket(prev, dragged.status), dragged.id)
      && (forall t :: t in Bucket(r, dragged.status) <==> t in Bucket(prev, dragged.status) && t.id != dragged.id)
      && SubseqOf(Bucket(r, dragged.status), Bucket(prev, dragged.status))
      && Bucket(r, newStatus) == Bucket(prev, newStatus) + [dragged.(status := newStatus)]
      && (forall s :: Known(s) && s != dragged.status && s != newStatus ==> Bucket(r, s) == Bucket(prev, s))
  {
    RemoveByIdSpec(Bucket(prev, dragged.status), dragged.id);
  }

  /** Whatever the statuses, the move keeps every task in the bucket its status names. */
  lemma MovePreservesPartition(prev: TaskState, dragged: Task, newStatus: string)
    requires Partitioned(prev)
    ensures Partitioned(UpdateTasks(prev, dragged, newStatus))
  {
    var removed := WithBucket(prev, dragged.status, RemoveById(Bucket(prev, dragged.status), dragged.id));
    assert Partitioned(removed);
  }

  /** The status that is neither `a` nor `b`. */
  function Third(a: string, b: string): (c: string)
    requires Known(a) && Known(b) && a != b
    ensures Known(c) && c != a && c != b
  {
    if a != YetToStart && b != YetToStart then YetToStart
    else if a != InProgress && b != InProgress then InProgress
    else Completed
  }

  /** Size and id count summed bucket by bucket, in any order of the statuses. */
  lemma SumByBuckets(b: TaskState, s1: string, s2: string, taskId: string)
    requires Known(s1) && Known(s2) && s1 != s2
    ensures var s3 := Third(s1, s2);
      && Size(b) == |Bucket(b, s1)| + |Bucket(b, s2)| + |Bucket(b, s3)|
      && BoardCountId(b, taskId) == CountId(Bucket(b, s1), taskId) + CountId(Bucket(b, s2), taskId)
                                    + CountId(Bucket(b, s3), taskId)
  {
  }

  /** When the dragged id sits exactly once in its old bucket, the move
      neither loses nor duplicates a task: the board's size and the number of
      entries with that id stay the same, and the id moves from the old
      bucket to the target bucket. */
  lemma MovePreservesCount(prev: TaskState, dragged: Task, newStatus: string)
    requires Known(dragged.status) && Known(newStatus) && dragged.status != newStatus
    requires CountId(Bucket(prev, dragged.status), dragged.id) == 1
    ensures var r := UpdateTasks(prev, dragged, newStatus);
      && Size(r) == Size(prev)
      && BoardCountId(r, dragged.id) == BoardCountId(prev, dragged.id)
      && CountId(Bucket(r, dragged.status), dragged.id) == 0
      && CountId(Bucket(r, newStatus), dragged.id) == CountId(Bucket(prev, newStatus), dragged.id) + 1
  {
    var r := UpdateTasks(prev, dragged, newStatus);
    var oldBucket := Bucket(prev, dragged.status);
    var target := Bucket(prev, newStatus);
    var copy := dragged.(status := newStatus);
    MoveSpec(prev, dragged, newStatus);
    RemoveByIdSpec(oldBucket, dragged.id);
    NoIdLeft(Bucket(r, dragged.status), dragged.id);
    FilterAppend(target, [copy], SameId(dragged.id));
    assert Filter([copy], SameId(dragged.id)) == [copy];
    SumByBuckets(prev, dragged.status, newStatus, dragged.id);
    SumByBuckets(r, dragged.status, newStatus, dragged.id);
  }

  /** The grouping of `fetchAllTasks`: each bucket holds exactly the fetched
      tasks with its status, in fetch order; the buckets are pairwise
      disjoint; tasks with any other status appear nowhere, and they are the
      only ones lost. */
  lemma PartitionSpec(ts: seq<Task>)
    ensures var p := Partition(ts);
      && Partitioned(p)
      && (forall s, t :: Known(s) ==> (t in Bucket(p, s) <==> t in ts && t.status == s))
      && SubseqOf(p.yetToStart, ts) && SubseqOf(p.inProgress, ts) && SubseqOf(p.completed, ts)
      && (forall t :: !(t in p.yetToStart && t in p.inProgress))
      && (forall t :: !(t in p.yetToStart && t in p.completed))
      && (forall t :: !(t in p.inProgress && t in p.completed))
      && (forall t :: t in ts && !Known(t.status) ==> t !in p.yetToStart && t !in p.inProgress && t !in p.completed)
      && Size(p) + |Unrecognised(ts)| == |ts|
      && (Size(p) == |ts| <==> forall t :: t in ts ==> Known(t.status))
  {
    FilterSubseq(ts, HasStatus(YetToStart));
    FilterSubseq(ts, HasStatus(InProgress));
    FilterSubseq(ts, HasStatus(Completed));
    StatusCountsSum(ts);
    if Size(Partition(ts)) == |ts| {
      assert Unrecognised(ts) == [];
    } else {
      assert Unrecognised(ts) != [];
      assert Unrecognised(ts)[0] in Unrecognised(ts);
    }
  }

  /** `handleDelete`'s state update: `taskId` is filtered out of all three buckets. */
  function DeleteFromBoard(b: TaskState, taskId: string): TaskState
  {
    TaskState(RemoveById(b.yetToStart, taskId), RemoveById(b.inProgress, taskId), RemoveById(b.completed, taskId))
  }

  /** Delete removes the id from every bucket and leaves every other task
      where it was and in its order; the board shrinks by the entries that had the id. */
  lemma DeleteSpec(b: TaskState, taskId: string)
    ensures var r := DeleteFromBoard(b, taskId);
      && (forall s, t :: Known(s) ==> (t in Bucket(r, s) <==> t in Bucket(b, s) && t.id != taskId))
      && SubseqOf(r.yetToStart, b.yetToStart) && SubseqOf(r.inProgress, b.inProgress)
      && SubseqOf(r.completed, b.completed)
      && BoardCountId(r, taskId) == 0
      && Size(r) == Size(b) - BoardCountId(b, taskId)
      && (Partitioned(b) ==> Partitioned(r))
  {
    RemoveByIdSpec(b.yetToStart, taskId);
    RemoveByIdSpec(b.inProgress, taskId);
    RemoveByIdSpec(b.completed, taskId);
    var r := DeleteFromBoard(b, taskId);
    NoIdLeft(r.yetToStart, taskId);
    NoIdLeft(r.inProgress, taskId);
    NoIdLeft(r.completed, taskId);
  }

  lemma NoIdLeft(list: seq<Task>, taskId: string)
    requires forall t :: t in list ==> t.id != taskId
    ensures CountId(list, taskId) == 0
  {
    if Filter(list, SameId(taskId)) != [] {
      assert Filter(list, SameId(taskId))[0] in list;
    }
  }

  /** Deleting the same id a second time changes nothing. */
  lemma DeleteIdempotent(b: TaskState, taskId: string)
    ensures DeleteFromBoard(DeleteFromBoard(b, taskId), taskId) == DeleteFromBoard(b, taskId)
  {
    FilterIdempotent(b.yetToStart, OtherId(taskId));
    FilterIdempotent(b.inProgress, OtherId(taskId));
    FilterIdempotent(b.completed, OtherId(taskId));
  }

  /** Deleting an id the board does not hold changes nothing. */
  lemma DeleteAbsent(b: TaskState, taskId: string)
    requires BoardCountId(b, taskId) == 0
    ensures DeleteFromBoard(b, taskId) == b
  {
    RemoveAbsent(b.yetToStart, taskId);
    RemoveAbsent(b.inProgress, taskId);
    RemoveAbsent(b.completed, taskId);
  }

  const Red := "bg-red-500 text-white"
  const Yellow := "bg-yellow-500 text-white"
  const Green := "bg-green-500 text-white"
  const Gray := "bg-gray-400 text-white"

  /** `getPriorityColor`: the badge style of a priority. Every string gets one;
      the three known priorities get three different ones. */
  function PriorityColor(priority: string): (r: string)
    ensures r in {Red, Yellow, Green, Gray}
    ensures priority == "high" <==> r == Red
    ensures priority == "medium" <==> r == Yellow
    ensures priority == "low" <==> r == Green
    ensures r == Gray <==> priority !in {"high", "medium", "low"}
  {
    match priority
    case "high" => Red
    case "medium" => Yellow
    case "low" => Green
    case _ => Gray
  }

  /** The guard at the head of `handleDrop`: nothing dragged, no project, or
      a drop on the column the task already belongs to. */
  predicate DropIgnored(draggedTask: Option<Task>, projectId: Option<string>, newStatus: string)
  {
    draggedTask.None? || !Truthy(projectId) || draggedTask.value.status == newStatus
  }

  /** The `status`-only patch that `handleDrop` sends. */
  function StatusPatch(newStatus: string): TaskPatch
  {
    TaskPatch(None, None, None, Some(newStatus))
  }

  /** The state of one mounted `LeftSidebar`. `projectId` is derived on every
      render (see `ResolveProjectId`); the handlers receive it as a parameter,
      and they receive every network reply as a parameter too. */
  class Board {
    var tasks: TaskState
    var draggedTask: Option<Task>
    var loading: bool

    /** The board's invariant: every task sits in the column its status names. */
    predicate Valid()
      reads this
    {
      Partitioned(tasks)
    }

    constructor ()
      ensures tasks == Empty && draggedTask == None && loading
      ensures Valid()
    {
      tasks := Empty;
      draggedTask := None;
      loading := true;
    }

    /** `fetchAllTasks`: without a project, the empty board and no request;
        otherwise one `getAllTasks` call whose reply replaces the whole board.
        `loading` is false afterwards in every case. */
    method FetchAllTasks(projectId: Option<string>, reply: TasksBody) returns (calls: seq<Request>)
      modifies this
      ensures !Truthy(projectId) ==> calls == [] && tasks == Empty
      ensures Truthy(projectId) ==> calls == [GetAllTasks(projectId.value)] && tasks == Loaded(reply)
      ensures !loading && draggedTask == old(draggedTask)
      ensures Valid()
    {
      LoadedSpec(reply);
      if !Truthy(projectId) {
        tasks := Empty;
        loading := false;
        return [];
      }
      loading := true;
      calls := [GetAllTasks(projectId.value)];
      match ProjectTasks(reply) {
        case Some(ts) => tasks := Partition(ts);
        case None => tasks := Empty;
      }
      loading := false;
    }

    /** `handleDragStart`. */
    method DragStart(task: Task)
      requires Valid()
      modifies this
      ensures draggedTask == Some(task)
      ensures tasks == old(tasks) && loading == old(loading)
      ensures Valid()
    {
      draggedTask := Some(task);
    }

    /** `handleDrop`. When the guard fires nothing changes, `draggedTask`
        included, and no request is made. Otherwise `shown` is the board the
        optimistic apply renders before any reply arrives; then the status
        update is sent, the board is refetched and replaced, the parent's
        `onTaskUpdate` runs whatever the update's envelope says (the
        wrapper never throws), and the drag is cleared. */
    method Drop(projectId: Option<string>, newStatus: string, updateReply: Envelope,
                refetchReply: TasksBody, hasOnTaskUpdate: bool)
      returns (calls: seq<Request>, shown: TaskState, notified: bool)
      requires Valid()
      modifies this
      ensures DropIgnored(old(draggedTask), projectId, newStatus) ==>
        && tasks == old(tasks) && draggedTask == old(draggedTask) && loading == old(loading)
        && calls == [] && shown == old(tasks) && !notified
      ensures !DropIgnored(old(draggedTask), projectId, newStatus) ==>
        && shown == UpdateTasks(old(tasks), old(draggedTask).value, newStatus)
        && calls == [UpdateTask(projectId.value, old(draggedTask).value.id, StatusPatch(newStatus)),
                     GetAllTasks(projectId.value)]
        && tasks == Loaded(refetchReply)
        && draggedTask == None && !loading
        && notified == hasOnTaskUpdate
      ensures Partitioned(shown) && Valid()
    {
      shown := tasks;
      notified := false;
      if DropIgnored(draggedTask, projectId, newStatus) {
        return [], shown, notified;
      }
      var dragged := draggedTask.value;
      MovePreservesPartition(tasks, dragged, newStatus);
      tasks := UpdateTasks(tasks, dragged, newStatus);
      shown := tasks;
      calls := [UpdateTask(projectId.value, dragged.id, StatusPatch(newStatus))];
      var refetch := FetchAllTasks(projectId, refetchReply);
      calls := calls + refetch;
      notified := hasOnTaskUpdate;
      draggedTask := None;
    }

    /** `handleDelete`: without a project nothing happens; otherwise one
        `deleteTask` call, and only a success envelope removes the id from the
        board and notifies the parent. */
    method Delete(projectId: Option<string>, task: Task, reply: Envelope, hasOnTaskUpdate: bool)
      returns (calls: seq<Request>, notified: bool)
      requires Valid()
      modifies this
      ensures !Truthy(projectId) ==> calls == [] && tasks == old(tasks) && !notified
      ensures Truthy(projectId) ==>
        && calls == [DeleteTask(projectId.value, task.id)]
        && tasks == (if reply.success then DeleteFromBoard(old(tasks), task.id) else old(tasks))
        && notified == (reply.success && hasOnTaskUpdate)
      ensures draggedTask == old(draggedTask) && loading == old(loading)
      ensures Valid()
    {
      DeleteSpec(tasks, task.id);
      notified := false;
      if !Truthy(projectId) {
        return [], notified;
      }
      calls := [DeleteTask(projectId.value, task.id)];
      if reply.success {
        tasks := DeleteFromBoard(tasks, task.id);
        notified := hasOnTaskUpdate;
      }
    }
  }

  /** What a load stores is the board of the reply: each task in its own
      column, exactly the reply's tasks with that status; the empty board
      when the reply has no `projectTasks`. `Drop` ends with such a load, so
      an optimistic move that the server did not take is not left behind. */
  lemma LoadedSpec(reply: TasksBody)
    ensures Partitioned(Loaded(reply))
    ensures ProjectTasks(reply).Some? ==>
      forall s, t :: Known(s) ==> (t in Bucket(Loaded(reply), s) <==> t in ProjectTasks(reply).value && t.status == s)
    ensures ProjectTasks(reply).None? ==> Size(Loaded(reply)) == 0
  {
    if ProjectTasks(reply).Some? {
      PartitionSpec(ProjectTasks(reply).value);
    }
  }
}
