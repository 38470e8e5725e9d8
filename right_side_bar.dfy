/** The project panel of `RightSideBar`: which project is active, the task
    counts per status and the percentage complete, and the local rename after
    an edit. The handlers that assign `selectedProject`, `projects`, `tasks`,
    `loading` and `saving` in sequence are methods of `ProjectPanel`. */
module RightSideBar {
  import opened Kanban
  import LeftSideBar

  /** The first project in the list whose id is `id`, as `find` returns it. */
  function Find(projects: seq<Project>, id: string): (r: Option<Project>)
    ensures r.None? <==> forall j :: 0 <= j < |projects| ==> projects[j].id != id
    ensures r.Some? ==> exists k :: 0 <= k < |projects| && projects[k] == r.value && projects[k].id == id
                                     && forall j :: 0 <= j < k ==> projects[j].id != id
  {
    if projects == [] then None
    else if projects[0].id == id then Some(projects[0])
    else
      var r := Find(projects[1..], id);
      assert r.Some? ==> exists k :: 1 <= k < |projects| && projects[k] == r.value && projects[k].id == id
                                     && forall j :: 0 <= j < k ==> projects[j].id != id;
      r
  }

  /** The selection effect: with a non-empty list, the project whose id is the
      URL's `projectId`, or the first project when there is no such parameter
      or nothing matches; with an empty list, no choice at all. */
  function ChooseProject(projects: seq<Project>, urlProjectId: Option<string>): (r: Option<Project>)
    ensures r.None? <==> |projects| == 0
    ensures Truthy(urlProjectId) && Find(projects, urlProjectId.value).Some? ==>
      r == Find(projects, urlProjectId.value) && r.value.id == urlProjectId.value
    ensures |projects| > 0 && (!Truthy(urlProjectId) || Find(projects, urlProjectId.value).None?) ==>
      r == Some(projects[0])
  {
    if |projects| == 0 then None
    else
      var found := if Truthy(urlProjectId) then Find(projects, urlProjectId.value) else None;
      if found.Some? then found else Some(projects[0])
  }

  /** `countTasks(status)`: how many tasks have exactly that status. */
  function CountTasks(tasks: seq<Task>, status: string): (n: nat)
    ensures n <= |tasks|
    ensures n == 0 <==> forall t :: t in tasks ==> t.status != status
    ensures n == |tasks| <==> forall t :: t in tasks ==> t.status == status
  {
    var r := WithStatus(tasks, status);
    Seqs.FilterComplement(tasks, HasStatus(status), OtherStatus(status));
    var others := Seqs.Filter(tasks, OtherStatus(status));
    assert r != [] ==> r[0] in r;
    assert others != [] ==> others[0] in others;
    |r|
  }

  function OtherStatus(status: string): Task -> bool
  {
    (t: Task) => t.status != status
  }

  /** The three column counts never add up to more than the tasks there are,
      and add up to exactly that when every status is one of the three. */
  lemma CountsBound(tasks: seq<Task>)
    ensures var sum := CountTasks(tasks, YetToStart) + CountTasks(tasks, InProgress) + CountTasks(tasks, Completed);
      && sum <= |tasks|
      && (sum == |tasks| <==> forall t :: t in tasks ==> Known(t.status))
  {
    StatusCountsSum(tasks);
    var u := Unrecognised(tasks);
    assert u != [] ==> u[0] in u;
  }

  /** The panel's counts and the board's column sizes agree when both load the same list. */
  lemma CountsMatchBoard(tasks: seq<Task>, status: string)
    requires Known(status)
    ensures CountTasks(tasks, status) == |LeftSideBar.Bucket(LeftSideBar.Partition(tasks), status)|
  {
  }

  /** `Math.round(x / n)` for non-negative `x`, as round-half-up on integers:
      the integer nearest to x/n, halves going up. */
  function RoundHalfUp(x: nat, n: nat): (r: nat)
    requires n > 0
    ensures 2 * n * r <= 2 * x + n < 2 * n * (r + 1)
  {
    (2 * x + n) / (2 * n)
  }

  /** `calculateProgress`: 0 for no tasks, otherwise the rounded percentage
      of completed tasks. */
  function Progress(tasks: seq<Task>): nat
  {
    if |tasks| == 0 then 0 else RoundHalfUp(100 * CountTasks(tasks, Completed), |tasks|)
  }

  /** Rounding a share `c` of `n` to a percentage stays in 0..100 and is
      exact at both ends. */
  lemma PercentBounds(c: nat, n: nat)
    requires 0 < n && c <= n
    ensures RoundHalfUp(100 * c, n) <= 100
    ensures c == n ==> RoundHalfUp(100 * c, n) == 100
    ensures c == 0 ==> RoundHalfUp(100 * c, n) == 0
  {
    var r := RoundHalfUp(100 * c, n);
    assert 2 * n * r < 2 * n * 101 by {
      assert 2 * (100 * c) + n <= 201 * n;
    }
    MulLess(r, 101, 2 * n);
    if c == n {
      assert 2 * n * 100 < 2 * n * (r + 1);
      MulLess(100, r + 1, 2 * n);
    }
    if c == 0 {
      assert 2 * n * r < 2 * n * 1;
      MulLess(r, 1, 2 * n);
    }
  }

  lemma MulLess(a: nat, b: nat, k: nat)
    requires k > 0 && k * a < k * b
    ensures a < b
  {
  }

  /** The percentage lies in 0..100; it is 100 when every task is completed
      and 0 when none is. */
  lemma ProgressBounds(tasks: seq<Task>)
    ensures 0 <= Progress(tasks) <= 100
    ensures |tasks| > 0 && (forall t :: t in tasks ==> t.status == Completed) ==> Progress(tasks) == 100
    ensures (forall t :: t in tasks ==> t.status != Completed) ==> Progress(tasks) == 0
  {
    if |tasks| > 0 {
      PercentBounds(CountTasks(tasks, Completed), |tasks|);
    }
  }

  /** The `projects.map` in `handleSave`: the project with `id` gets the new
      name, every other project is left as it was. */
  function Rename(projects: seq<Project>, id: string, name: string): (r: seq<Project>)
    ensures |r| == |projects|
    ensures forall i :: 0 <= i < |r| ==> r[i].id == projects[i].id && r[i].description == projects[i].description
    ensures forall i :: 0 <= i < |r| && projects[i].id == id ==> r[i].name == name
    ensures forall i :: 0 <= i < |r| && projects[i].id != id ==> r[i] == projects[i]
  {
    if projects == [] then []
    else [if projects[0].id == id then projects[0].(name := name) else projects[0]]
         + Rename(projects[1..], id, name)
  }

  /** After a rename, selecting the renamed id finds it under the new name,
      and ids not renamed are found as before. */
  lemma RenameThenFind(projects: seq<Project>, id: string, name: string, other: string)
    requires other != id
    ensures Find(projects, id).Some? ==> Find(Rename(projects, id, name), id) == Some(Find(projects, id).value.(name := name))
    ensures Find(Rename(projects, id, name), other) == Find(projects, other)
  {
    if projects != [] {
      RenameThenFind(projects[1..], id, name, other);
      assert Rename(projects, id, name)[1..] == Rename(projects[1..], id, name);
    }
  }

  /** The state of one mounted `RightSidebar`. Network replies and the
      presence of the optional `setSelectedProjectId` callback are parameters;
      a callback's argument is returned. */
  class ProjectPanel {
    var projects: seq<Project>
    var selectedProject: Option<Project>
    var tasks: seq<Task>
    var loading: bool
    var openEdit: bool
    var name: string
    var description: string
    var saving: bool

    constructor (initialProjects: seq<Project>)
      ensures projects == initialProjects && selectedProject == None && tasks == []
      ensures loading && !openEdit && name == "" && description == "" && !saving
    {
      projects := initialProjects;
      selectedProject := None;
      tasks := [];
      loading := true;
      openEdit := false;
      name := "";
      description := "";
      saving := false;
    }

    /** The selection effect. An empty list changes nothing; otherwise the
        list is taken over, `ChooseProject` picks the selection and its id
        goes to the callback when there is one. */
    method SelectionEffect(initialProjects: seq<Project>, urlProjectId: Option<string>, hasCallback: bool)
      returns (callbackArg: Option<string>)
      modifies this
      ensures |initialProjects| == 0 ==>
        projects == old(projects) && selectedProject == old(selectedProject) && callbackArg == None
      ensures |initialProjects| > 0 ==>
        && projects == initialProjects
        && selectedProject == ChooseProject(initialProjects, urlProjectId)
        && callbackArg == (if hasCallback then Some(selectedProject.value.id) else None)
      ensures tasks == old(tasks) && loading == old(loading) && openEdit == old(openEdit)
      ensures name == old(name) && description == old(description) && saving == old(saving)
    {
      callbackArg := None;
      if |initialProjects| > 0 {
        projects := initialProjects;
        var projectToSelect: Option<Project> := None;
        if Truthy(urlProjectId) {
          projectToSelect := Find(initialProjects, urlProjectId.value);
        }
        if projectToSelect.None? {
          projectToSelect := Some(initialProjects[0]);
        }
        selectedProject := projectToSelect;
        if hasCallback {
          callbackArg := Some(projectToSelect.value.id);
        }
      }
    }

    /** The task-fetch effect on a selection: one `getAllTasks` call; a body
        without `projectTasks` leaves the empty list, and the edit form is
        filled from the selection, `description || ""` included. A null body
        makes reading `projectTasks` throw: the catch leaves the list and the
        form as they were, and `loading` still ends false. */
    method FetchTasks(reply: TasksBody) returns (calls: seq<Request>)
      modifies this
      ensures old(selectedProject).None? ==>
        calls == [] && tasks == old(tasks) && loading == old(loading)
        && name == old(name) && description == old(description)
      ensures old(selectedProject).Some? ==>
        calls == [GetAllTasks(old(selectedProject).value.id)] && !loading
      ensures old(selectedProject).Some? && reply.NullBody? ==>
        tasks == old(tasks) && name == old(name) && description == old(description)
      ensures old(selectedProject).Some? && reply.Body? ==>
        && tasks == (if reply.projectTasks.Some? then reply.projectTasks.value else [])
        && name == old(selectedProject).value.name
        && description == (if old(selectedProject).value.description.Some?
                           then old(selectedProject).value.description.value else "")
      ensures projects == old(projects) && selectedProject == old(selectedProject)
      ensures openEdit == old(openEdit) && saving == old(saving)
    {
      calls := [];
      if selectedProject.None? {
        return;
      }
      var sel := selectedProject.value;
      loading := true;
      calls := [GetAllTasks(sel.id)];
      if reply.NullBody? {
        loading := false;
        return;
      }
      tasks := if reply.projectTasks.Some? then reply.projectTasks.value else [];
      name := sel.name;
      description := if sel.description.Some? then sel.description.value else "";
      loading := false;
    }

    /** `handleProjectSelect`: an id not in the list changes nothing; a
        known id selects its project and exactly that id reaches the callback. */
    method ProjectSelect(projectId: string, hasCallback: bool) returns (callbackArg: Option<string>)
      modifies this
      ensures Find(old(projects), projectId).None? ==>
        selectedProject == old(selectedProject) && callbackArg == None
      ensures Find(old(projects), projectId).Some? ==>
        && selectedProject == Find(old(projects), projectId)
        && selectedProject.value.id == projectId
        && callbackArg == (if hasCallback then Some(projectId) else None)
      ensures projects == old(projects) && tasks == old(tasks) && loading == old(loading)
      ensures openEdit == old(openEdit) && name == old(name) && description == old(description)
      ensures saving == old(saving)
    {
      callbackArg := None;
      var selectedProj := Find(projects, projectId);
      if selectedProj.Some? {
        selectedProject := selectedProj;
        if hasCallback {
          callbackArg := Some(projectId);
        }
      }
    }

    /** `handleSave`: with no selection nothing happens. Otherwise one
        `updateProject` call carrying only the name, and, whatever its
        envelope says, the selected project and its entry in the list take
        the new name, the dialog closes and `saving` ends false. */
    method Save(reply: Envelope) returns (calls: seq<Request>)
      modifies this
      ensures old(selectedProject).None? ==>
        calls == [] && projects == old(projects) && selectedProject == None
        && openEdit == old(openEdit) && saving == old(saving)
      ensures old(selectedProject).Some? ==>
        && calls == [UpdateProject(old(selectedProject).value.id, ProjectPatch(Some(old(name)), None))]
        && selectedProject == Some(old(selectedProject).value.(name := old(name)))
        && projects == Rename(old(projects), old(selectedProject).value.id, old(name))
        && !openEdit && !saving
      ensures tasks == old(tasks) && loading == old(loading)
      ensures name == old(name) && description == old(description)
    {
      calls := [];
      if selectedProject.None? {
        return;
      }
      var sel := selectedProject.value;
      saving := true;
      calls := [UpdateProject(sel.id, ProjectPatch(Some(name), None))];
      selectedProject := Some(sel.(name := name));
      projects := Rename(projects, sel.id, name);
      openEdit := false;
      saving := false;
    }
  }
}
