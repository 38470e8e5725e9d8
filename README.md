# Kanban client: board, project panel, navigation bar and task form

A Dafny model of the state rules inside the React components of a small
Next.js Kanban client. A project's tasks sit in three status columns
("Yet To Start", "In Progress", "Completed"). They can be dragged between
columns, deleted, created and edited. A side panel picks the active project,
counts tasks per status, shows the percentage complete and renames the
project. The navigation bar shows the user's initials and creates projects.

Each component's handlers run as one atomic sequence. Every network reply is
an input parameter, and every request a handler sends is returned in
`calls`. The create, update and delete wrappers catch every error and return
an envelope (`{success:false}` on failure), so the `catch` branches around
them never run. `getAllTasks` returns the server's body as it is. A `null`
body is modelled: the project panel's read of `projectTasks` then throws,
and its `catch` keeps the old list. Optional parent callbacks appear as a `has…` flag; the handler
returns whether the callback ran, or the argument it got.

Effects that React re-runs on a state change are separate methods, and the
caller runs them again after the handlers that trigger them. The panel's
`[selectedProject]` effect is `ProjectPanel.FetchTasks`. It runs after
`SelectionEffect`, `ProjectSelect` and `Save`: another `getAllTasks` call, with
`name` and `description` reset from the new selection. The task form's `[task]`
effect is `TaskForm.InitFromTask`. It runs whenever the modal's `task` changes.

Files:

- `seqs.dfy` (`Seqs`): `Array.prototype.filter` and facts about it (order
  kept, distributes over `+`, idempotent, complementary filters).
- `kanban.dfy` (`Kanban`): tasks, projects, the status strings, the reply
  envelopes, the requests, and the filter by exact status.
- `text.dfy` (`Text`): JavaScript's `trim`, using ECMAScript's set of white
  space and line terminators.
- `left_side_bar.dfy` (`LeftSideBar`): partition, optimistic move, delete,
  priority colour, and the `Board` class with `fetchAllTasks`,
  `handleDragStart`, `handleDrop` and `handleDelete`.
- `right_side_bar.dfy` (`RightSideBar`): project selection, counts,
  progress, rename, and the `ProjectPanel` class.
- `navbar.dfy` (`Navbar`): initials and the `NavbarForm` class (`handleAddProject`).
- `tasks_modal.dfy` (`TasksModal`): the `TaskForm` class (initialisation
  effect, `handleSubmit`).

In these places the code does something a reader might not expect, and the model follows the code:

- A task whose status is none of the three column keys is silently dropped
  by the partition. It does not fail fast.
- `fetchAllTasks` has no staleness check, so there is no "last requested
  project wins" rule.
- A drop on the task's own column returns early and leaves `draggedTask` set.
- `updateTask` never throws, so a drop always refetches and always runs
  `onTaskUpdate`, whatever the update's envelope says. The revert branch
  is dead code.
- The task form sends all four fields on an edit, not only the changed ones.
  Nothing refetches the board after the form closes.

## Model

| member | source | states |
|---|---|---|
| `Seqs.Filter` | src/app/components/LeftSideBar.tsx:65-67 | `filter`: never longer than its input, and an element is kept iff it is in the input and satisfies the predicate (order: `Seqs.FilterSubseq`) |
| `Kanban.WithStatus` | src/app/components/LeftSideBar.tsx:65-67 | a task is in the filtered list iff it is in the input and its status is exactly the given string |
| `Kanban.ProjectTasks` | src/app/components/LeftSideBar.tsx:62 | `res?.projectTasks`: absent on a null body; specified through `LeftSideBar.LoadedSpec` and `LeftSideBar.Board.FetchAllTasks` |
| `Kanban.StatusCountsSum` | src/app/components/LeftSideBar.tsx:62-68 | the three status filters plus the unrecognised tasks account for every task exactly once |
| `Text.LeadingSpaces` | src/app/components/Navbar.tsx:62 | the count covers a run of white space at the start of the string, and the next character, if any, is not white space, so `trim` drops exactly the maximal leading run |
| `Text.TrailingSpaces` | src/app/components/Navbar.tsx:62 | the count covers a run of white space at the end of the string, and the character before it, if any, is not white space, so `trim` drops exactly the maximal trailing run |
| `Text.Trim` | src/app/components/Navbar.tsx:62 | `trim`: drops the maximal leading and trailing white-space runs (`Text.LeadingSpaces`, `Text.TrailingSpaces`); its properties are stated by the four lemmas below |
| `Text.TrimEmptyIffBlank` | src/app/components/projects/TasksModal.tsx:68 | `trim()` gives "" exactly when the string is all white space, so `!x.trim()` is a blank check |
| `Text.TrimEnds` | src/app/components/Navbar.tsx:75 | the trimmed string neither starts nor ends with white space |
| `Text.TrimShape` | src/app/components/Navbar.tsx:75 | the trimmed string is a contiguous part of the input, and only white space lies outside it |
| `Text.TrimIdempotent` | src/app/components/Navbar.tsx:75 | trimming twice is trimming once |
| `LeftSideBar.Empty` | src/app/components/LeftSideBar.tsx:21-25 | `initialState`, three empty buckets; stated by `LeftSideBar.Board.constructor` and by `LeftSideBar.LoadedSpec` for a reply without tasks |
| `LeftSideBar.ResolveProjectId` | src/app/components/LeftSideBar.tsx:37 | the project id is the URL parameter if non-empty, else the prop if non-empty, else null; it is never "" |
| `LeftSideBar.Partition` | src/app/components/LeftSideBar.tsx:64-68 | the grouping by status, specified by `LeftSideBar.PartitionSpec` |
| `LeftSideBar.Loaded` | src/app/components/LeftSideBar.tsx:62-71 | what a load stores: the partition of `projectTasks`, or the empty board when it is missing or the body is null. Specified by `LeftSideBar.LoadedSpec` |
| `LeftSideBar.PartitionSpec` | src/app/components/LeftSideBar.tsx:62-68 | each bucket holds exactly the fetched tasks with its status, in fetch order. The buckets are pairwise disjoint and every task in them has the bucket's status. Tasks with other statuses appear nowhere. The buckets hold every task iff all statuses are recognised |
| `LeftSideBar.RemoveById` | src/app/components/LeftSideBar.tsx:107 | `removeFromList`, specified by `LeftSideBar.RemoveByIdSpec` and `LeftSideBar.RemoveAbsent` |
| `LeftSideBar.RemoveByIdSpec` | src/app/components/LeftSideBar.tsx:107 | `removeFromList` keeps exactly the entries with other ids, in their order, and shrinks by the number of entries with the id |
| `LeftSideBar.RemoveAbsent` | src/app/components/LeftSideBar.tsx:107 | removing an id that is absent returns the list unchanged |
| `LeftSideBar.UpdateTasks` | src/app/components/LeftSideBar.tsx:105-134 | `updateTasks`, the optimistic move, specified by `LeftSideBar.MoveSpec`, `LeftSideBar.MovePreservesPartition` and `LeftSideBar.MovePreservesCount` |
| `LeftSideBar.MoveSpec` | src/app/components/LeftSideBar.tsx:105-134 | the old-status bucket loses exactly the entries with the dragged id and keeps its order. A copy with the new status is appended to the target bucket. The third bucket is unchanged |
| `LeftSideBar.MovePreservesPartition` | src/app/components/LeftSideBar.tsx:105-134 | for any statuses, the optimistic move keeps every task in the bucket its status names |
| `LeftSideBar.MovePreservesCount` | src/app/components/LeftSideBar.tsx:105-134 | if the id occurs exactly once in its old bucket, the board's size and the id's count are preserved, and the id moves from the old bucket to the target bucket |
| `LeftSideBar.DeleteFromBoard` | src/app/components/LeftSideBar.tsx:185-190 | the state update of `handleDelete`, specified by `LeftSideBar.DeleteSpec`, `LeftSideBar.DeleteIdempotent` and `LeftSideBar.DeleteAbsent` |
| `LeftSideBar.DeleteSpec` | src/app/components/LeftSideBar.tsx:185-190 | delete removes the id from all three buckets. Every other task stays in its bucket and order. The board shrinks by the removed entries, and the partition invariant is kept |
| `LeftSideBar.DeleteIdempotent` | src/app/components/LeftSideBar.tsx:185-190 | deleting the same id twice is the same as deleting it once |
| `LeftSideBar.DeleteAbsent` | src/app/components/LeftSideBar.tsx:185-190 | deleting an id the board does not hold leaves the board unchanged |
| `LeftSideBar.PriorityColor` | src/app/components/LeftSideBar.tsx:158-169 | total: high is red, medium yellow, low green, each iff that priority; gray iff the priority is any other string |
| `LeftSideBar.DropIgnored` | src/app/components/LeftSideBar.tsx:96 | the guard of `handleDrop`: nothing dragged, no project id, or a drop on the task's own column; `LeftSideBar.Board.Drop` states what it guards |
| `LeftSideBar.StatusPatch` | src/app/components/LeftSideBar.tsx:141 | the patch `handleDrop` sends carries only the new status; it appears in `LeftSideBar.Board.Drop`'s contract |
| `LeftSideBar.LoadedSpec` | src/app/components/LeftSideBar.tsx:62-74 | a loaded board is partitioned. It holds exactly the reply's tasks whose status is one of the three, each in its status's column. Without `projectTasks` it is empty. `Drop` ends with a load, so no unconfirmed optimistic placement survives |
| `LeftSideBar.Board.constructor` | src/app/components/LeftSideBar.tsx:21-31 | initial state: three empty buckets, no dragged task, `loading` true; the partition invariant `Valid()` holds |
| `LeftSideBar.Board.FetchAllTasks` | src/app/components/LeftSideBar.tsx:49-78 | without a project id: empty board, no request. Otherwise one `getAllTasks` call and the board becomes the partition, or empty when `projectTasks` is missing or the body is null. `loading` ends false and `Valid()` holds |
| `LeftSideBar.Board.DragStart` | src/app/components/LeftSideBar.tsx:93 | records the dragged task; nothing else changes |
| `LeftSideBar.Board.Drop` | src/app/components/LeftSideBar.tsx:95-155 | if the guard fires, nothing changes, `draggedTask` included, and no request is made. Otherwise the optimistic board is rendered, then a status-only update and a refetch are sent. The board becomes the refetched partition, `onTaskUpdate` runs whatever the envelope says, and the drag is cleared. The rendered optimistic board is partitioned, and `Valid()` is kept |
| `LeftSideBar.Board.Delete` | src/app/components/LeftSideBar.tsx:178-198 | without a project id nothing happens. Otherwise one `deleteTask` call. A success envelope removes the id and notifies the parent; a failure leaves the board unchanged. `Valid()` is kept |
| `RightSideBar.Find` | src/app/components/RightSideBar.tsx:103 | `find` returns the first project with the id, or none iff no project has it |
| `RightSideBar.ChooseProject` | src/app/components/RightSideBar.tsx:49-73 | with a non-empty list: the project matching the URL `projectId`, else the first project. With an empty list: none |
| `RightSideBar.CountTasks` | src/app/components/RightSideBar.tsx:121-122 | the count is at most the number of tasks. It is 0 iff no task has the status, and all of them iff every task has it |
| `RightSideBar.CountsBound` | src/app/components/RightSideBar.tsx:121-122 | the three counts sum to at most `tasks.length`, with equality iff every status is one of the three |
| `RightSideBar.CountsMatchBoard` | src/app/components/RightSideBar.tsx:121-122 | a panel count equals the size of the board column for the same list |
| `RightSideBar.RoundHalfUp` | src/app/components/RightSideBar.tsx:127 | the result is the integer nearest to x/n, with halves rounded up |
| `RightSideBar.PercentBounds` | src/app/components/RightSideBar.tsx:125-128 | a rounded share of c out of n tasks lies in 0..100, is 100 when c = n and 0 when c = 0 |
| `RightSideBar.ProgressBounds` | src/app/components/RightSideBar.tsx:125-128 | progress is in 0..100. It is 100 when every task is completed and 0 when none is, the empty list included |
| `RightSideBar.Progress` | src/app/components/RightSideBar.tsx:125-128 | `calculateProgress`: 0 for no tasks, else the rounded percentage of completed tasks; bounds stated by `RightSideBar.ProgressBounds` |
| `RightSideBar.Rename` | src/app/components/RightSideBar.tsx:142-144 | same length and ids. Projects with the id get the new name; every other project is unchanged |
| `RightSideBar.RenameThenFind` | src/app/components/RightSideBar.tsx:141-144 | after a rename, finding the renamed id gives that project with the new name; other ids are found as before |
| `RightSideBar.ProjectPanel.constructor` | src/app/components/RightSideBar.tsx:35-42 | initial panel state from the `projects` prop |
| `RightSideBar.ProjectPanel.SelectionEffect` | src/app/components/RightSideBar.tsx:49-73 | an empty list changes nothing. Otherwise the list is taken over, the selection is `ChooseProject`, and its id goes to the callback when there is one |
| `RightSideBar.ProjectPanel.FetchTasks` | src/app/components/RightSideBar.tsx:76-99 | without a selection nothing happens. Otherwise one `getAllTasks` call and `loading` ends false. On a null body the catch leaves `tasks`, `name` and `description` as they were. Otherwise `tasks` is the reply's `projectTasks` (or [] when missing), and the name and description fields are filled |
| `RightSideBar.ProjectPanel.ProjectSelect` | src/app/components/RightSideBar.tsx:102-118 | an unknown id is a no-op. A known id selects its project and passes exactly that id to the callback |
| `RightSideBar.ProjectPanel.Save` | src/app/components/RightSideBar.tsx:131-151 | without a selection nothing happens. Otherwise it sends only `{name}`, then renames the selected project in `selectedProject` and in `projects`, even on a failure envelope. The dialog closes and `saving` ends false |
| `Navbar.DefaultUser` | src/app/components/Navbar.tsx:37 | the default `user` prop, with an empty `userId`; its consequences are `Navbar.NoUserNoProject` and `Navbar.InitialsSpec` |
| `Navbar.EffectiveUser` | src/app/components/Navbar.tsx:37 | the `user` prop or, when absent, the default; used by `Navbar.InitialsSpec` and `Navbar.AddProjectRequest` |
| `Navbar.Split` | src/app/components/Navbar.tsx:44 | `split(" ")` yields at least one piece, and no piece contains a space |
| `Navbar.JoinWithSpace` | src/app/components/Navbar.tsx:44 | the inverse of `Navbar.Split`, as `Navbar.SplitJoin` states |
| `Navbar.SplitJoin` | src/app/components/Navbar.tsx:44 | joining the pieces with " " gives back the name |
| `Navbar.Heads` | src/app/components/Navbar.tsx:45-46 | the first character of each piece, concatenated, related to `Navbar.WordStarts` by `Navbar.HeadsOfSplit` |
| `Navbar.HeadsOfSplit` | src/app/components/Navbar.tsx:44-46 | the first characters of the non-empty pieces are exactly the word starts of the name: each non-space character that is first or follows a space |
| `Navbar.NoWordStarts` | src/app/components/Navbar.tsx:42-48 | a name has no word starts iff it is empty or all spaces |
| `Navbar.Upper` | src/app/components/Navbar.tsx:48 | upper-cases a–z position by position and keeps the length |
| `Navbar.Take2` | src/app/components/Navbar.tsx:47 | `slice(0, 2)`, used in `Navbar.InitialsSpec` |
| `Navbar.Initials` | src/app/components/Navbar.tsx:42-48 | `initials`, specified by `Navbar.InitialsSpec` |
| `Navbar.InitialsSpec` | src/app/components/Navbar.tsx:42-48 | the initials are the first two word starts, upper-cased, and always 1–2 characters long in this model. A missing, empty or all-space name gives "U" |
| `Navbar.AddProjectRequest` | src/app/components/Navbar.tsx:62-77 | no request iff the name is blank after trimming or the user id is missing. Otherwise `createProject` gets the trimmed, non-empty name and `invitedUsers` = user id |
| `Navbar.NoUserNoProject` | src/app/components/Navbar.tsx:37 | with no `user` prop the default user's id is "", so no project is created |
| `Navbar.NavbarForm.constructor` | src/app/components/Navbar.tsx:56-58 | the dialog starts closed, with an empty name and not loading |
| `Navbar.NavbarForm.SubmitDisabled` | src/app/components/Navbar.tsx:153 | the submit button is disabled iff the name is blank or a request is loading |
| `Navbar.NavbarForm.AddProject` | src/app/components/Navbar.tsx:60-101 | the guard changes nothing. Otherwise one `createProject` call. On success the name is cleared, the dialog is closed and `onAddProject` runs once if present. On failure both are kept and an alert is raised. `isLoading` ends false |
| `TasksModal.SubmitRequest` | src/app/components/projects/TasksModal.tsx:68-76 | no request iff the title is blank after trimming. With a task: `updateTask(projectId, task._id, {title, description, priority, status})`. Without one: `createTask` with those four fields and `projectId`, title untrimmed |
| `TasksModal.UntrimmedTitleIsSent` | src/app/components/projects/TasksModal.tsx:68-75 | a title that starts with white space and is not blank passes the guard and is sent with that white space, on create and on edit, so it differs from its trimmed form (that every title is sent as typed is `TasksModal.SubmitRequest`'s ensures) |
| `TasksModal.TaskForm.constructor` | src/app/components/projects/TasksModal.tsx:44-50 | the fields start as "", "", "low", "Yet To Start", with `loading` false |
| `TasksModal.TaskForm.InitFromTask` | src/app/components/projects/TasksModal.tsx:52-64 | with a task the fields copy its title, description, priority and status; without one they take the defaults |
| `TasksModal.TaskForm.Submit` | src/app/components/projects/TasksModal.tsx:66-89 | a blank title changes nothing and sends nothing. Otherwise the single `SubmitRequest` is sent and `onClose` runs, even on a failure envelope. After a create the fields reset; after an edit they stay. `loading` ends false |

## Left out

- The API wrappers in `src/app/services/*/api.ts` are not modelled as code. Their results are handler inputs: a `TasksBody` for `getAllTasks` and an `Envelope` for the mutating calls, which never throw.
- A `getAllTasks` body is assumed to be `null` or an object whose `projectTasks` is missing or an array of tasks. A truthy `projectTasks` that is not an array is not modelled. In `fetchAllTasks` it makes `filter` throw, and that `catch` (LeftSideBar.tsx:72-74, which empties the board) is not modelled. In the panel's fetch the value would be stored in `tasks` and fail at render. The only path into that fetch's `catch` (RightSideBar.tsx:91-95) that is modelled is the null body.
- Login, logout and session handling (`src/lib/auth.ts`, `Auth.tsx`, the NextAuth route, the protected layout): these are wrappers over the authentication library plus form plumbing.
- Rendering, styling, dialogs, the edit/add buttons' open-state setters, alert texts and console logging.
- URL and history writes: `LeftSideBar.tsx:40-46`, `RightSideBar.tsx:87-90` and `111-116`.
- Async interleaving between handlers. Each handler runs as one atomic sequence, and the code has no rule for stale replies.
- `onTaskSaved` passed to `TasksModal` at `LeftSideBar.tsx:337-341`. The modal never accepts or calls it, so nothing refetches after the modal closes.
- The edit dialog's description field in `RightSideBar`: it is shown but never sent or saved.
- Task fields other than id, title, description, priority and status (such as `projectName`): no modelled code reads them.
- RightSideBar.RoundHalfUp: rounds exact rationals, not the floating-point `c / n * 100`. Where that product lands just below a half, the source may round down. Only the bounds and the 0 and 100 endpoints are claimed for the source.
- Navbar.Upper: upper-cases only a–z. Unicode case mapping is not modelled, including characters that upper-case to two ("ß" to "SS").
- Navbar.Initials and Navbar.InitialsSpec: the "1–2 characters" bound holds only for the model. In the source, `toUpperCase` can lengthen the result: a name "ßa ßb" gives "SSSS". Also, the model works on characters, not UTF-16 code units. Any word starting with a character outside the Basic Multilingual Plane (for example "ann 😀b") gives a lone surrogate from the source's `s?.[0]` and counts as two units for `slice`.
