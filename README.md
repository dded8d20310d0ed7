# Collaborative project and task board: a verified model

This project models the core of a MERN project-management application.
Users own projects, add members to them, and create, update, comment on and
delete the tasks of those projects. Real-time updates reach every open page
of a project through Socket.IO rooms. The model covers these parts:

- **Records** (`TaskModel`, `ProjectModel`): the Mongoose schemas of a task
  and a project. This covers required fields, enums and their defaults, the
  `trim` setter, defaults for description and dates, and the pre-save hook
  that refreshes `updatedDate`. `Errors` lists the validation messages
  `save()` reports, and `New` builds the saved document.
- **Store** (`Store`): a `Database` class holding two maps from id to
  record, one for projects and one for tasks. Its invariant says:
  - every record is stored under its own id and passes its schema;
  - the owner of a project is one of its members;
  - `members` has no duplicates.

  A separate predicate, `Linked`, says that every task's project exists.
  Every handler preserves `Linked`, but it is not part of the invariant.
  This keeps the source's "project is gone" branch (`project.ownerId` read
  on `null`) reachable.
- **REST handlers** (`TaskRoutes`, `ProjectRoutes`): one method per route.
  Each checks its guards in the source's order: 404, then 403, then 400,
  except that the two create routes check the body first (creating a
  project has only that 400) and adding a comment has no 403. It then assigns
  fields, pushes to or pulls from the lists, and saves. The result is an
  `Outcome`: `Ok`, `NotFound`, `Forbidden`, `BadRequest`, or `Thrown` for an
  error passed to `next(error)`.
  - Failed calls leave both maps unchanged.
  - Id generation is a parameter (`newId`, `commentId`). A clash is the
    duplicate-key error a Mongo insert raises.
- **Error middleware** (`ErrorHandler`): maps any thrown error to a status
  code and a JSON body. The stack is included only when `NODE_ENV` is
  `development`.
- **Socket rooms** (`SocketServer`): a `Server` class with two fields:
  - room membership: a map from room name to a set of sessions;
  - for each session, the events it has been sent.

  `joinProject` adds the session to `project-<id>`. The `taskUpdated` and
  `taskCreated` relays send the client's payload unchanged to the current
  members of the payload's room, the sender included. Nothing is checked.
- **Client cache** (`AppContext`): an `AppState` class with these fields:
  `currentUser`, `isAuthenticated`, `projects`, `tasks`, whether a socket
  exists, and the events the client has emitted. The server's answer to
  each API call is a parameter. The cache operations are `map`/`filter`
  helpers proved element by element.
- **Project page** (`ProjectView`):
  - the status filter;
  - the three-way sort selector: a stable sort by due date, priority rank
    or newest creation, with any other value keeping the order;
  - the Kanban columns, which partition the tasks;
  - the create-form guard;
  - the refetch rule for relayed events;
  - drag-and-drop between Kanban columns.
- **Walk-throughs** (`Scenario`): a project's life through the handlers,
  and one relayed update reaching two open pages.

Timestamps and due dates are integers. `Date.now()` is the `now` parameter.

Three facts about the source shape the model:

- The server does not fan out changes by itself. It relays whatever a
  client emits: `AppState.CreateTask` and `AppState.UpdateTask` emit after
  a successful call, and `Server.OnTaskUpdated` and `Server.OnTaskCreated`
  forward the event. The relay uses `io.to`, so the sender receives its
  own event as well.
- A project delete runs `deleteMany` on the project's tasks and then
  deletes the project; it does not pull the task ids from the project
  first (`ProjectRoutes.DeleteProject`).
- Task update is allowed only to the project owner or the current
  assignee. A member who is neither gets 403 (`Scenario.StartFixBug`).

## Model

| member | source | states |
|---|---|---|
| Text.TrimStart | backend/models/Task.js:13 | the result is a suffix of the input, it does not start with whitespace, and everything cut is whitespace |
| Text.TrimEnd | backend/models/Task.js:13 | the result is a prefix of the input, it does not end with whitespace, and everything cut is whitespace |
| Text.Trim | backend/models/Task.js:10-14 | the `trim` setter: never longer than the input, and trimmed at both ends |
| Text.TrimShape | backend/models/Project.js:5-9 | the trimmed value is a contiguous slice of the input with only whitespace cut before and after it |
| Text.TrimEmptyIff | backend/models/Task.js:10-14 | trimming yields '' exactly when the input is all whitespace, so a blank title fails `required` |
| Text.TrimmedIsFixed | backend/models/Project.js:5-9 | a value already trimmed at both ends is stored unchanged |
| Seqs.FilterMembers | frontend/src/context/AppContext.jsx:171 | `filter` (modelled by `Seqs.Filter`) keeps exactly the elements that pass and never lengthens the list |
| Seqs.FilterCount | frontend/src/context/AppContext.jsx:171 | `filter` keeps each passing element exactly as many times as it occurs, and no other element |
| Seqs.FilterAppend | frontend/src/pages/ProjectView.jsx:85 | filtering distributes over concatenation |
| Seqs.FilterAllPass | frontend/src/pages/ProjectView.jsx:83-86 | a filter that every element passes returns the list itself |
| Seqs.FilterExt | frontend/src/pages/ProjectView.jsx:85 | two predicates that agree on every element filter alike |
| Seqs.FilterSubsequence | frontend/src/pages/ProjectView.jsx:85 | `filter` keeps the relative order of what it keeps |
| Seqs.SubsequenceRefl | frontend/src/pages/ProjectView.jsx:83 | a list is an order-preserving selection of itself (the `'ALL'` view) |
| Sorting.InsertPermutes | backend/routes/tasks.js:16 | inserting into a sorted list (`Sorting.Insert`) adds exactly one element |
| Sorting.InsertSorted | backend/routes/tasks.js:16 | inserting into a list that is sorted by the key keeps it sorted |
| Sorting.SortPermutes | frontend/src/pages/ProjectView.jsx:89 | the sorted copy (`Sorting.Sort`, an insertion sort) is a permutation of the input |
| Sorting.SortSorted | frontend/src/pages/ProjectView.jsx:89-99 | the sorted copy is ordered by the key |
| Sorting.InsertWithKey | frontend/src/pages/ProjectView.jsx:89 | inserting an element adds it in front of the others with its key and leaves every other key's elements as they were |
| Sorting.SortStable | frontend/src/pages/ProjectView.jsx:89-99 | elements with equal keys keep their relative order (the comparator returns 0) |
| Sorting.SortConstantKey | frontend/src/pages/ProjectView.jsx:98 | when every key is equal, sorting leaves the list unchanged |
| ErrorHandler.StatusOf | backend/middleware/errorHandler.js:5 | `err.status` when truthy, else 500; never 0 |
| ErrorHandler.MessageOf | backend/middleware/errorHandler.js:6 | `err.message` when truthy, else 'Server error'; never empty |
| ErrorHandler.Handle | backend/middleware/errorHandler.js:8-12 | the HTTP status and the body's `status` are both the computed status, the body's `error` is the computed message, and the stack appears only (and then exactly) in development |
| ErrorHandler.Untyped | backend/middleware/errorHandler.js:5 | an error without a `status` answers 500 |
| Outcomes.StatusCode | backend/middleware/errorHandler.js:5-9 | an error passed to `next` answers with the middleware's status, which is 500 when the error has no status |
| TaskModel.ParseStatus | backend/models/Task.js:19-23 | exactly the three enum names are accepted, each naming the status it came from |
| TaskModel.ParsePriority | backend/models/Task.js:24-28 | exactly LOW, MEDIUM and HIGH are accepted, each naming its priority |
| TaskModel.StatusRoundTrip | backend/models/Task.js:19-23 | every status name parses back to the same status |
| TaskModel.PriorityRoundTrip | backend/models/Task.js:24-28 | every priority name parses back to the same priority |
| TaskModel.TitleErrors | backend/models/Task.js:10-14 | no title error exactly when a title is present and not blank after trimming |
| TaskModel.StatusErrors | backend/models/Task.js:19-23 | no status error exactly when the status is absent or in the enum |
| TaskModel.PriorityErrors | backend/models/Task.js:24-28 | no priority error exactly when the priority is absent or in the enum |
| TaskModel.Errors | backend/models/Task.js:5-57 | a task init validates exactly when projectId, a non-blank title, assignedTo, dueDate and createdBy are present and the enums are valid; each missing required field, a blank title and each value outside its enum contributes its message |
| TaskModel.New | backend/models/Task.js:4-72 | the saved task meets the schema. It has a trimmed title, description '' and status TODO and priority MEDIUM when absent, no comments, and both dates at `now` |
| TaskModel.Touch | backend/models/Task.js:69-72 | the pre-save hook sets `updatedDate` to `now`, changes no other field and keeps the schema valid |
| TaskModel.CastComment | backend/routes/tasks.js:169 | the copy `push` stores gets the fresh `_id`; apart from the id it is the pushed object |
| ProjectModel.NameErrors | backend/models/Project.js:5-9 | no name error exactly when a name is present and not blank after trimming |
| ProjectModel.Errors | backend/models/Project.js:5-18 | a project init validates exactly when a non-blank name and an owner are present |
| ProjectModel.New | backend/models/Project.js:4-41 | the saved project meets the schema. It has the trimmed name, description '' when absent, the given owner and members, no tasks, and both dates at `now` |
| ProjectModel.Touch | backend/models/Project.js:37-41 | the pre-save hook sets `updatedDate` to `now`, changes no other field and keeps the schema valid |
| Store.PutTask | backend/models/Task.js:69-72 | saving a schema-valid task keeps the task map valid, and keeps it linked when its project exists |
| Store.PutProject | backend/models/Project.js:37-41 | saving a valid project whose owner is a member and whose members are distinct keeps both invariants and the linkage |
| Store.DropTask | backend/routes/tasks.js:141 | deleting a task keeps the task map valid and linked |
| Store.DeleteTasksOf | backend/routes/projects.js:112 | `deleteMany({projectId})` keeps exactly the tasks of other projects, unchanged |
| Store.DropProject | backend/routes/projects.js:111-115 | after the cascade the remaining tasks are valid and every one of them still has its project |
| Store.ValidationFailed | backend/models/Task.js:10-14 | a failed `save()` validation answers 500 |
| Store.DuplicateKey | backend/routes/tasks.js:74 | a duplicate `_id` insert answers 500 |
| Store.NullRead | backend/routes/tasks.js:99 | reading `ownerId` of a missing project answers 500 |
| Store.Pull | backend/routes/tasks.js:137 | `pull(id)` removes every occurrence of the id and keeps every other id as often as it occurred and in its order |
| TaskRoutes.PatchErrors | backend/routes/tasks.js:106-114 | an update passes validation exactly when each truthy title is non-blank and each truthy status and priority is in its enum |
| TaskRoutes.TasksOfStep | backend/routes/tasks.js:12 | scanning one more stored task adds it to the matching set exactly when its project matches |
| TaskRoutes.ListByProject | backend/routes/tasks.js:10-18 | the result holds exactly the stored tasks of the project, each stored task once (as a multiset), sorted ascending by due date, with no membership check |
| TaskRoutes.GetTask | backend/routes/tasks.js:25-36 | the stored task, or 404 'Task not found' |
| TaskRoutes.Created | backend/routes/tasks.js:64-72 | the task `new Task({...})` builds from the body (`TaskRoutes.InitOf`) meets the schema. Its projectId comes from the path and createdBy is the actor; its title is trimmed; description is '' and priority MEDIUM unless given; status TODO, no comments, and both dates at `now` |
| TaskRoutes.SaveCreated | backend/routes/tasks.js:74-80 | the task is stored under its id, then its id is appended to its project's `tasks` and the project saved; the invariant and the linkage are kept |
| TaskRoutes.CreateTask | backend/routes/tasks.js:43-82 | 400 when title, dueDate or assignedTo is missing (`TaskRoutes.MissingField`), before any lookup; then 404 for an unknown project and 403 for a non-member. A body that fails the schema is a thrown `ValidationError` and a taken id a thrown E11000 error, both 500. It succeeds exactly when all pass, the task validates and its id is new. The stored task is `Created` from the path, the actor and the body, and its id is appended to the project's `tasks`. Failures change nothing |
| TaskRoutes.AssignFields | backend/routes/tasks.js:106-112 | a truthy title (trimmed), status, priority or dueDate is assigned, and so is a description that is present (even ''); every other field is unchanged |
| TaskRoutes.UpdateTask | backend/routes/tasks.js:89-115 | 404 for an unknown task, a 500 throw when its project is gone, and 403 exactly when the actor is neither owner nor assignee. An authorized patch that fails validation is a thrown `ValidationError` (500). It succeeds exactly when authorized and valid. assignedTo, createdBy, projectId, comments and createdDate never change, and updatedDate becomes `now` |
| TaskRoutes.DeleteTask | backend/routes/tasks.js:122-143 | 404, then the null-project throw, then owner-only (403). On success the id is pulled from the project's `tasks`, the project is saved, and only that task record is removed |
| TaskRoutes.AddComment | backend/routes/tasks.js:150-172 | 404 before the empty-text 400, with no membership check; on success the answer is the plain `{userId, text, timestamp}` object with no `_id`, and a cast copy of it with the fresh `_id` is appended after the existing comments, which are unchanged |
| ProjectRoutes.VisibleToStep | backend/routes/projects.js:12-14 | scanning one more stored project adds it to the visible set exactly when the actor owns it or is a member |
| ProjectRoutes.ListProjects | backend/routes/projects.js:10-19 | exactly the projects the actor owns or belongs to (`ProjectRoutes.CanView`), each once, most recently updated first |
| ProjectRoutes.GetProject | backend/routes/projects.js:26-41 | the intended guard: 404 for an unknown id, 403 unless the actor is the owner or a member (`ProjectRoutes.CanView`, the rule `GET /` lists by), else the project |
| ProjectRoutes.ListedProjectOpens | backend/routes/projects.js:10-41 | a project is listed for the actor exactly when the intended `GET /:id` opens it, and a member's project is always listed |
| ProjectRoutes.PopulateMembers | backend/routes/projects.js:30 | `populate('members')` replaces every member id, in place and in order, by that user's document |
| ProjectRoutes.GetProjectAsWritten | backend/routes/projects.js:26-41 | as written: 404 for an unknown id, else 403 unless the owner matches or `includes` finds the actor's id string among the populated member documents (`ProjectRoutes.CanViewAsWritten`) |
| ProjectRoutes.MemberForbiddenAsWritten | backend/routes/projects.js:37 | a member who is not the owner may view the project under the intended rule but is refused by the guard as written |
| ProjectRoutes.CreateProject | backend/routes/projects.js:48-66 | 400 without a name. A blank name is a thrown `ValidationError` and a taken id a thrown E11000 error, both 500. It succeeds exactly when the name is not blank and the id is new (the init is `ProjectRoutes.InitOf`): ownerId is the actor, members is [actor] (so the owner is a member), the name is trimmed, description '' by default, no tasks. Failures change nothing |
| ProjectRoutes.UpdateProject | backend/routes/projects.js:73-91 | 404, then 403 for a non-owner; a truthy name that trims to '' is a thrown `ValidationError` (500). Only a truthy name (trimmed) and a present description change; owner, members and tasks are untouched and updatedDate becomes `now` |
| ProjectRoutes.DeleteProject | backend/routes/projects.js:98-117 | 404, then owner-only (403). On success the project is gone, no task with its projectId remains, and every other task is untouched |
| ProjectRoutes.AddMember | backend/routes/projects.js:124-145 | 404, then 403 for a non-owner, then 400 'User is already a member', in that order; on success userId is appended at the end of `members` |
| SocketServer.RoomNameInjective | backend/server.js:52 | distinct projects have distinct `project-<id>` rooms (`SocketServer.RoomName`) |
| SocketServer.Deliver | backend/server.js:58 | every recipient gets the event last in its inbox, and nobody else gets anything |
| SocketServer.DeliverInOrder | backend/server.js:58 | two relays reach a common recipient in the order they were sent |
| SocketServer.Server.JoinProject | backend/server.js:51-54 | the session joins the project's room and no other room changes, with no membership check |
| SocketServer.Server.Relay | backend/server.js:57-64 | the event goes, with its name and payload unchanged, to the current members of the payload's room and to no one else; the rooms do not change |
| SocketServer.Server.OnTaskUpdated | backend/server.js:57-59 | `taskUpdated` is relayed to the payload's room, which includes the sender when the sender joined it; who receives it does not depend on the sender |
| SocketServer.Server.OnTaskCreated | backend/server.js:62-64 | `taskCreated` is relayed the same way to the same room |
| SocketServer.JoinThenRelay | backend/server.js:51-64 | after joining, a session receives the next relay for that project even if the sender never joined; a session in no room receives nothing |
| AppContext.FailureMessage | frontend/src/context/AppContext.jsx:119-121 | the server's error when it is truthy, else the fixed default; never empty |
| AppContext.ReplaceTask | frontend/src/context/AppContext.jsx:129 | the same length; exactly the entries with that id are replaced, and all others are unchanged |
| AppContext.AppendComment | frontend/src/context/AppContext.jsx:144-148 | the same length; only the matching tasks get the comment appended to their comments |
| AppContext.ReplaceProject | frontend/src/context/AppContext.jsx:160-162 | the same length; exactly the projects with that id are replaced |
| AppContext.ReplaceTaskIdempotent | frontend/src/context/AppContext.jsx:129 | applying the same server record twice is applying it once |
| AppContext.AppState.constructor | frontend/src/context/AppContext.jsx:8-14 | empty lists, nothing emitted, authenticated exactly when a user is present |
| AppContext.AppState.ProjectTasks | frontend/src/context/AppContext.jsx:170-172 | exactly the cached tasks of the project, each as many times as it is cached, in cache order |
| AppContext.AppState.Logout | frontend/src/context/AppContext.jsx:67-75 | both lists empty, no user, not authenticated |
| AppContext.AppState.LoadProjects | frontend/src/context/AppContext.jsx:78-85 | the server's list replaces `projects`; on failure nothing changes |
| AppContext.AppState.LoadProjectTasks | frontend/src/context/AppContext.jsx:88-95 | the server's list replaces `tasks`; on failure nothing changes |
| AppContext.AppState.CreateProject | frontend/src/context/AppContext.jsx:98-107 | success appends the new project; failure reports the server's error or 'Failed to create project' and changes nothing |
| AppContext.AppState.CreateTask | frontend/src/context/AppContext.jsx:110-122 | success appends the task and, with a socket, emits `taskCreated` with the path's projectId (`AppContext.Created`); failure changes nothing |
| AppContext.AppState.UpdateTask | frontend/src/context/AppContext.jsx:125-137 | success replaces the tasks with that id and, with a socket, emits `taskUpdated` with the record's projectId (`AppContext.Updated`); failure changes nothing |
| AppContext.AppState.AddTaskComment | frontend/src/context/AppContext.jsx:140-153 | success appends the server's comment object, which has no `_id`, to the matching task only; failure changes nothing |
| AppContext.AppState.AddProjectMember | frontend/src/context/AppContext.jsx:156-167 | success replaces only the matching project; failure changes nothing |
| ProjectView.Visible | frontend/src/pages/ProjectView.jsx:83-86 | 'ALL' keeps every task; any other value keeps exactly the tasks with that status, each as often as it is cached, in order |
| ProjectView.SortView | frontend/src/pages/ProjectView.jsx:89-99 | a permutation of the filtered list, ordered by the selected key (`ProjectView.KeyOf`) and stable among equal keys; an unknown `sortBy` keeps the order |
| ProjectView.Displayed | frontend/src/pages/ProjectView.jsx:83-100 | the list shown for a chosen status holds exactly the tasks with that status (every task under 'ALL', as a multiset), ordered by the selected key |
| ProjectView.SortStableAll | frontend/src/pages/ProjectView.jsx:89 | stability holds for every key value at once |
| ProjectView.PriorityOrder | frontend/src/pages/ProjectView.jsx:92-94 | sorted by priority, HIGH comes before MEDIUM and MEDIUM before LOW |
| ProjectView.DateOrders | frontend/src/pages/ProjectView.jsx:90-97 | due dates ascend; with `'created'`, creation dates descend |
| ProjectView.Column | frontend/src/pages/ProjectView.jsx:102-104 | a column holds exactly the tasks of its status, each as often as it is cached, in order |
| ProjectView.KanbanPartition | frontend/src/pages/ProjectView.jsx:140-152 | the three columns are pairwise disjoint and their sizes add up to the number of tasks |
| ProjectView.ColumnStep | frontend/src/pages/ProjectView.jsx:102-104 | one more task adds one to its own column only |
| ProjectView.ColumnIsFilter | frontend/src/pages/ProjectView.jsx:84-86 | the list filtered to a status is exactly that status's Kanban column |
| ProjectView.StatusNameInjective | backend/models/Task.js:21 | distinct statuses have distinct names |
| ProjectView.SubmittedFormIsValid | frontend/src/pages/ProjectView.jsx:108-116 | a form the guard lets through (`ProjectView.CanSubmit`) passes the server's 400 check and the task schema |
| ProjectView.BlankTitleStopped | frontend/src/pages/ProjectView.jsx:108 | a blank-but-nonempty title is stopped by the guard although the server's 400 check would let it through |
| ProjectView.OnTaskEvent | frontend/src/pages/ProjectView.jsx:37-47 | a relayed event refetches the viewed project's tasks exactly when its projectId is the viewed one (`ProjectView.ShouldRefetch`); only the task cache can change |
| ProjectView.PatchOf | frontend/src/pages/ProjectView.jsx:179-181 | a drop's `{ status }` body names the column's status and passes the update validation |
| ProjectView.KanbanColumn.constructor | frontend/src/pages/ProjectView.jsx:289 | a column starts with no dragged card |
| ProjectView.KanbanColumn.DragStart | frontend/src/pages/ProjectView.jsx:318 | dragging one of the column's cards records it in that column |
| ProjectView.KanbanColumn.DragEnd | frontend/src/pages/ProjectView.jsx:319 | the end of a drag clears that column's record |
| ProjectView.KanbanColumn.Drop | frontend/src/pages/ProjectView.jsx:300-307 | a drop requests the column's status for the card this column recorded, if any, and clears it |
| ProjectView.CrossColumnDropAsWritten | frontend/src/pages/ProjectView.jsx:289-319 | as written, dropping a To Do card on Done requests nothing |
| ProjectView.KanbanBoard.constructor | frontend/src/pages/ProjectView.jsx:289 | the shared board starts with no dragged card |
| ProjectView.KanbanBoard.DragStart | frontend/src/pages/ProjectView.jsx:318 | dragging any card records it for the whole board |
| ProjectView.KanbanBoard.DragEnd | frontend/src/pages/ProjectView.jsx:319 | the end of a drag clears it |
| ProjectView.KanbanBoard.Drop | frontend/src/pages/ProjectView.jsx:300-307 | a drop on any column requests that column's status for the dragged card |
| ProjectView.CrossColumnDrop | frontend/src/pages/ProjectView.jsx:179-181 | with the shared state, dropping a To Do card on Done requests `{ status: 'DONE' }` for it |
| Scenario.SetUp | backend/routes/projects.js:47-66 | u1 creates a project as its sole member and owner, then adds u2 |
| Scenario.CreateFixBug | backend/routes/tasks.js:43-82 | a member creates a task assigned to the owner; it starts in TODO |
| Scenario.StartFixBug | backend/routes/tasks.js:97-104 | the owner may update the task; a member who is neither owner nor assignee gets 403 |
| Scenario.Sprint9 | backend/routes/projects.js:111-115 | after the owner deletes the project, its task is no longer found |
| Scenario.TwoSessions | backend/server.js:57-59 | the relayed update is exactly the one event in each of the two sessions' inboxes, the sender's included, and both pages then cache the server's list |

## Left out

- Mongoose persistence and the query engine. The store is two maps and
  `find().sort()` is a loop with a stated order. `populate()` is modelled
  only for the members check of `GET /projects/:id` (see "## Findings");
  everywhere else records hold ids, and the populated user fields in the
  answers are not modelled.
- Malformed ids (Mongoose `CastError`) are not modelled. Ids are plain strings.
- ProjectModel.Errors, TaskModel.Errors: the exact text and order of the
  Mongoose `ValidationError` message is not modelled. The model says which
  paths fail, not how Mongoose formats or orders them.
- Concurrency: interleaved handlers, the lost update between concurrent
  writers, the window between the two saves of a handler, and stale React
  closures over `tasks`/`projects`. Every operation runs atomically.
- Socket.IO transport: connection, disconnect and socket closing. A closed
  socket's handling of `emit` is not modelled either. The relays deliver
  straight into per-session inboxes.
- The `joinProject` emission and listener registration of the page's mount
  effect are not modelled. The join itself is modelled by
  `Server.JoinProject`, and the listener by `ProjectView.OnTaskEvent`.
- Logins, registrations, `localStorage` and the auth middleware. The actor
  id is a verified input.
- `loadProject` on the page, the modal and the loading flags are UI state,
  and so is the form's reset after a successful create.
- Date strings are not parsed. Due dates are integers, and the form's date
  string arrives already parsed as the `due` parameter.
- An add-member request without `userId` is not modelled: `userId` is
  always given.
- The context's `getUserById` and `updateTaskStatus` are used by the task
  modal but never defined, and the modal is not part of this model.
- Console logging in the handlers and the middleware.

## Findings

| source | as written | input that shows it | evidently intended | confidence | as-written member | corrected member |
|---|---|---|---|---|---|---|
| frontend/src/pages/ProjectView.jsx:289-319 | each Kanban column keeps its own `draggedTask`. Only a drag of one of its own cards sets it, and only a drop on that same column reads it | drag a card out of To Do and drop it on Done: Done's `draggedTask` is still `null`, so no `updateTask` is sent | the drop requests `updateTask(id, { status: 'DONE' })` | not executed; high | ProjectView.CrossColumnDropAsWritten | ProjectView.CrossColumnDrop |
| backend/routes/projects.js:28-39 | `members` is populated before the guard, so `members.includes(req.user.id)` compares an id string with user documents, which never match | a member u2 who is not the owner asks for a project that `GET /projects` lists for u2: the answer is 403 'Not authorized' | owners and members may open every project they are listed for | not executed; medium (it rests on how the Mongoose array compares a string with a populated document) | ProjectRoutes.MemberForbiddenAsWritten | ProjectRoutes.GetProject |
