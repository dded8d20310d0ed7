/**
 * The task routes: list by project, get, create, update, delete and add a
 * comment. Each handler fetches, then answers 404, then 403, then 400 (create
 * validates first), then changes the fetched copy and saves it.
 */
module TaskRoutes {
  import opened Wrappers
  import opened Outcomes
  import Text
  import Sorting
  import opened TaskModel
  import ProjectModel
  import opened Store

  const TaskNotFound := "Task not found"
  const ProjectNotFound := "Project not found"
  const FieldsRequired := "Title, dueDate, and assignedTo are required"
  const CommentTextRequired := "Comment text is required"

  /** The body of `POST /project/:projectId`. */
  datatype NewTaskBody = NewTaskBody(
    title: Option<string>,
    description: Option<string>,
    priority: Option<string>,
    dueDate: Option<int>,
    assignedTo: Option<Id>)

  /** The body of `PUT /:id`. */
  datatype TaskPatch = TaskPatch(
    title: Option<string>,
    description: Option<string>,
    status: Option<string>,
    priority: Option<string>,
    dueDate: Option<int>)

  /** `!title || !dueDate || !assignedTo` */
  predicate MissingField(b: NewTaskBody) {
    !Text.Truthy(b.title) || b.dueDate.None? || !Text.Truthy(b.assignedTo)
  }

  /** What the create handler passes to `new Task({...})`. */
  function InitOf(projectId: Id, actor: Id, b: NewTaskBody): TaskInit {
    TaskInit(
      Some(projectId), b.title,
      Some(if Text.Truthy(b.description) then b.description.value else ""),
      None,
      Some(if Text.Truthy(b.priority) then b.priority.value else PriorityName(MEDIUM)),
      b.assignedTo, b.dueDate, Some(actor))
  }

  /** The validation messages `save()` reports after the update handler's assignments. */
  function PatchErrors(p: TaskPatch): (e: seq<string>)
    ensures e == [] <==>
      && (Text.Truthy(p.title) ==> Text.Trim(p.title.value) != "")
      && (Text.Truthy(p.status) ==> ParseStatus(p.status.value).Some?)
      && (Text.Truthy(p.priority) ==> ParsePriority(p.priority.value).Some?)
  {
    (if Text.Truthy(p.title) then TitleErrors(p.title) else [])
    + (if Text.Truthy(p.status) then StatusErrors(p.status) else [])
    + (if Text.Truthy(p.priority) then PriorityErrors(p.priority) else [])
  }

  /** The tasks of one project, each exactly once. */
  ghost function TasksOf(tasks: map<Id, Task>, keys: set<Id>, projectId: Id): set<Task> {
    set k | k in keys && k in tasks && tasks[k].projectId == projectId :: tasks[k]
  }

  /** Scanning one more key adds its task exactly when it belongs to the project, and adds it anew. */
  lemma TasksOfStep(tasks: map<Id, Task>, done: set<Id>, k: Id, projectId: Id)
    requires TasksValid(tasks) && k in tasks && k !in done
    ensures var t := tasks[k];
      && (t.projectId == projectId ==>
            multiset(TasksOf(tasks, done + {k}, projectId)) == multiset(TasksOf(tasks, done, projectId)) + multiset{t})
      && (t.projectId != projectId ==> TasksOf(tasks, done + {k}, projectId) == TasksOf(tasks, done, projectId))
  {
    var t := tasks[k];
    if t.projectId == projectId {
      assert TasksOf(tasks, done + {k}, projectId) == TasksOf(tasks, done, projectId) + {t};
      assert t !in TasksOf(tasks, done, projectId);
    } else {
      assert TasksOf(tasks, done + {k}, projectId) == TasksOf(tasks, done, projectId);
    }
  }

  /**
   * `GET /project/:projectId`: every stored task of the project, once each,
   * in ascending `dueDate` order. Nothing checks that the caller is a member.
   */
  method ListByProject(db: Database, projectId: Id) returns (ts: seq<Task>)
    requires db.Valid()
    ensures multiset(ts) == multiset(TasksOf(db.tasks, db.tasks.Keys, projectId))
    ensures forall t :: t in ts <==> t.id in db.tasks && db.tasks[t.id] == t && t.projectId == projectId
    ensures Sorting.SortedBy(ts, DueKey)
  {
    ts := [];
    var pending := db.tasks.Keys;
    while pending != {}
      invariant pending <= db.tasks.Keys
      invariant multiset(ts) == multiset(TasksOf(db.tasks, db.tasks.Keys - pending, projectId))
      invariant Sorting.SortedBy(ts, DueKey)
      decreases pending
    {
      var k :| k in pending;
      var t := db.tasks[k];
      TasksOfStep(db.tasks, db.tasks.Keys - pending, k, projectId);
      assert db.tasks.Keys - pending + {k} == db.tasks.Keys - (pending - {k});
      pending := pending - {k};
      if t.projectId == projectId {
        Sorting.InsertPermutes(t, ts, DueKey);
        Sorting.InsertSorted(t, ts, DueKey);
        ts := Sorting.Insert(t, ts, DueKey);
      }
    }
    assert db.tasks.Keys - pending == db.tasks.Keys;
    forall t ensures t in ts <==> t.id in db.tasks && db.tasks[t.id] == t && t.projectId == projectId {
      assert t in ts <==> t in multiset(ts);
    }
  }

  /** `GET /:id`: the stored task, or 404. */
  method GetTask(db: Database, id: Id) returns (r: Outcome<Task>)
    ensures id in db.tasks ==> r == Ok(db.tasks[id])
    ensures id !in db.tasks ==> r == NotFound(TaskNotFound)
  {
    if id !in db.tasks {
      return NotFound(TaskNotFound);
    }
    r := Ok(db.tasks[id]);
  }

  /**
   * The task `new Task({...})` saves for a valid body: projectId from the
   * path, createdBy the actor, description '' and priority MEDIUM unless
   * given, status TODO, no comments, both dates at `now`.
   */
  function Created(projectId: Id, actor: Id, body: NewTaskBody, newId: Id, now: int): (t: Task)
    requires Errors(InitOf(projectId, actor, body)) == []
    ensures SchemaValid(t)
    ensures t.id == newId && t.projectId == projectId && t.createdBy == actor
    ensures t.title == Text.Trim(body.title.value)
    ensures t.description == body.description.GetOr("")
    ensures Text.Truthy(body.priority) ==> PriorityName(t.priority) == body.priority.value
    ensures !Text.Truthy(body.priority) ==> t.priority == MEDIUM
    ensures t.status == TODO
    ensures t.assignedTo == body.assignedTo.value && t.dueDate == body.dueDate.value
    ensures t.comments == [] && t.createdDate == now && t.updatedDate == now
  {
    PriorityRoundTrip(MEDIUM);
    New(InitOf(projectId, actor, body), newId, now)
  }

  /** The two saves of a successful create: the task, then its id pushed onto the project's `tasks`. */
  method SaveCreated(db: Database, task: Task, now: int)
    requires db.Valid() && SchemaValid(task) && task.projectId in db.projects
    modifies db
    ensures db.Valid()
    ensures old(db.Linked()) ==> db.Linked()
    ensures db.tasks == old(db.tasks)[task.id := task]
    ensures var p := old(db.projects[task.projectId]);
      db.projects == old(db.projects)[task.projectId := p.(tasks := p.tasks + [task.id], updatedDate := now)]
  {
    PutTask(db.tasks, db.projects, task);
    db.tasks := db.tasks[task.id := task];
    var project := db.projects[task.projectId];
    project := ProjectModel.Touch(project.(tasks := project.tasks + [task.id]), now);
    PutProject(db.tasks, db.projects, project);
    db.projects := db.projects[task.projectId := project];
  }

  /**
   * `POST /project/:projectId`: 400 for a missing field before the project
   * is looked up, 404 for an unknown project, 403 for a non-member; then the
   * new task is saved and its id appended to the project's `tasks`.
   */
  method CreateTask(db: Database, actor: Id, projectId: Id, body: NewTaskBody, newId: Id, now: int)
    returns (r: Outcome<Task>)
    requires db.Valid()
    modifies db
    ensures db.Valid()
    ensures old(db.Linked()) ==> db.Linked()
    ensures MissingField(body) ==> r == BadRequest(FieldsRequired)
    ensures !MissingField(body) && projectId !in old(db.projects) ==> r == NotFound(ProjectNotFound)
    ensures !MissingField(body) && projectId in old(db.projects) && actor !in old(db.projects[projectId].members)
            ==> r == Forbidden
    ensures r.Ok? <==>
      && !MissingField(body) && projectId in old(db.projects) && actor in old(db.projects[projectId].members)
      && Errors(InitOf(projectId, actor, body)) == [] && newId !in old(db.tasks)
    ensures !MissingField(body) && projectId in old(db.projects) && actor in old(db.projects[projectId].members)
            && Errors(InitOf(projectId, actor, body)) != []
            ==> r == Thrown(ValidationFailed("Task", Errors(InitOf(projectId, actor, body))))
    ensures !MissingField(body) && projectId in old(db.projects) && actor in old(db.projects[projectId].members)
            && Errors(InitOf(projectId, actor, body)) == [] && newId in old(db.tasks)
            ==> r == Thrown(DuplicateKey("tasks"))
    ensures r.Ok? ==> Errors(InitOf(projectId, actor, body)) == [] && r.value == Created(projectId, actor, body, newId, now)
    ensures r.Ok? ==> db.tasks == old(db.tasks)[newId := r.value]
    ensures r.Ok? ==>
      var p := old(db.projects[projectId]);
      db.projects == old(db.projects)[projectId := p.(tasks := p.tasks + [newId], updatedDate := now)]
    ensures !r.Ok? ==> db.tasks == old(db.tasks) && db.projects == old(db.projects)
  {
    if MissingField(body) {
      return BadRequest(FieldsRequired);
    }
    if projectId !in db.projects {
      return NotFound(ProjectNotFound);
    }
    if actor !in db.projects[projectId].members {
      return Forbidden;
    }
    var errors := Errors(InitOf(projectId, actor, body));
    if errors != [] {
      return Thrown(ValidationFailed("Task", errors));
    }
    if newId in db.tasks {
      return Thrown(DuplicateKey("tasks"));
    }
    var task := Created(projectId, actor, body, newId, now);
    SaveCreated(db, task, now);
    r := Ok(task);
  }

  /**
   * The update handler's assignments: each truthy field among title, status,
   * priority and due date (and the description whenever it is present, even
   * '') replaces the stored value; the title through the `trim` setter.
   */
  method AssignFields(t: Task, patch: TaskPatch) returns (task: Task)
    requires PatchErrors(patch) == []
    ensures task.title == (if Text.Truthy(patch.title) then Text.Trim(patch.title.value) else t.title)
    ensures task.description == patch.description.GetOr(t.description)
    ensures Text.Truthy(patch.status) ==> StatusName(task.status) == patch.status.value
    ensures !Text.Truthy(patch.status) ==> task.status == t.status
    ensures Text.Truthy(patch.priority) ==> PriorityName(task.priority) == patch.priority.value
    ensures !Text.Truthy(patch.priority) ==> task.priority == t.priority
    ensures task.dueDate == patch.dueDate.GetOr(t.dueDate)
    ensures task == t.(title := task.title, description := task.description, status := task.status,
                       priority := task.priority, dueDate := task.dueDate)
  {
    task := t;
    if Text.Truthy(patch.title) {
      task := task.(title := Text.Trim(patch.title.value));
    }
    if patch.description.Some? {
      task := task.(description := patch.description.value);
    }
    if Text.Truthy(patch.status) {
      task := task.(status := ParseStatus(patch.status.value).value);
    }
    if Text.Truthy(patch.priority) {
      task := task.(priority := ParsePriority(patch.priority.value).value);
    }
    if patch.dueDate.Some? {
      task := task.(dueDate := patch.dueDate.value);
    }
  }

  /**
   * `PUT /:id`: 404 for an unknown task; a task whose project is gone makes
   * `project.ownerId` throw; 403 unless the actor owns the project or is the
   * task's assignee. Then each supplied field among title, description,
   * status, priority and due date is assigned and the task saved.
   */
  method UpdateTask(db: Database, actor: Id, id: Id, patch: TaskPatch, now: int) returns (r: Outcome<Task>)
    requires db.Valid()
    modifies db
    ensures db.Valid()
    ensures old(db.Linked()) ==> db.Linked()
    ensures id !in old(db.tasks) ==> r == NotFound(TaskNotFound)
    ensures id in old(db.tasks) && old(db.tasks[id].projectId) !in old(db.projects) ==> r == Thrown(NullRead("ownerId"))
    ensures id in old(db.tasks) && old(db.tasks[id].projectId) in old(db.projects) ==>
      var t := old(db.tasks[id]);
      var owner := old(db.projects[t.projectId].ownerId);
      (r == Forbidden <==> actor != owner && actor != t.assignedTo)
      && (r.Ok? <==> (actor == owner || actor == t.assignedTo) && PatchErrors(patch) == [])
    ensures id in old(db.tasks) && old(db.tasks[id].projectId) in old(db.projects)
            && (actor == old(db.projects[db.tasks[id].projectId].ownerId) || actor == old(db.tasks[id].assignedTo))
            && PatchErrors(patch) != []
            ==> r == Thrown(ValidationFailed("Task", PatchErrors(patch)))
    ensures r.Ok? ==>
      var t := old(db.tasks[id]);
      && r.value.title == (if Text.Truthy(patch.title) then Text.Trim(patch.title.value) else t.title)
      && r.value.description == patch.description.GetOr(t.description)
      && (Text.Truthy(patch.status) ==> StatusName(r.value.status) == patch.status.value)
      && (!Text.Truthy(patch.status) ==> r.value.status == t.status)
      && (Text.Truthy(patch.priority) ==> PriorityName(r.value.priority) == patch.priority.value)
      && (!Text.Truthy(patch.priority) ==> r.value.priority == t.priority)
      && r.value.dueDate == patch.dueDate.GetOr(t.dueDate)
      && r.value.id == t.id && r.value.projectId == t.projectId && r.value.assignedTo == t.assignedTo
      && r.value.createdBy == t.createdBy && r.value.comments == t.comments
      && r.value.createdDate == t.createdDate && r.value.updatedDate == now
    ensures r.Ok? ==> db.tasks == old(db.tasks)[id := r.value] && db.projects == old(db.projects)
    ensures !r.Ok? ==> db.tasks == old(db.tasks) && db.projects == old(db.projects)
  {
    if id !in db.tasks {
      return NotFound(TaskNotFound);
    }
    var task := db.tasks[id];
    if task.projectId !in db.projects {
      return Thrown(NullRead("ownerId"));
    }
    var project := db.projects[task.projectId];
    var isOwner := project.ownerId == actor;
    var isAssigned := task.assignedTo == actor;
    if !isOwner && !isAssigned {
      return Forbidden;
    }
    var errors := PatchErrors(patch);
    if errors != [] {
      return Thrown(ValidationFailed("Task", errors));
    }
    task := AssignFields(task, patch);
    task := Touch(task, now);
    PutTask(db.tasks, db.projects, task);
    db.tasks := db.tasks[id := task];
    r := Ok(task);
  }

  /**
   * `DELETE /:id`: 404, then the null-project throw, then 403 unless the
   * actor owns the project. The id is pulled from the project's `tasks`
   * (and the project saved) before the task document is removed.
   */
  method DeleteTask(db: Database, actor: Id, id: Id, now: int) returns (r: Outcome<()>)
    requires db.Valid()
    modifies db
    ensures db.Valid()
    ensures old(db.Linked()) ==> db.Linked()
    ensures id !in old(db.tasks) ==> r == NotFound(TaskNotFound)
    ensures id in old(db.tasks) && old(db.tasks[id].projectId) !in old(db.projects) ==> r == Thrown(NullRead("ownerId"))
    ensures id in old(db.tasks) && old(db.tasks[id].projectId) in old(db.projects) ==>
      (r.Ok? <==> actor == old(db.projects[db.tasks[id].projectId].ownerId))
      && (!r.Ok? ==> r == Forbidden)
    ensures r.Ok? ==>
      var pid := old(db.tasks[id].projectId);
      var p := old(db.projects[pid]);
      && db.tasks == old(db.tasks) - {id}
      && db.projects == old(db.projects)[pid := p.(tasks := Pull(p.tasks, id), updatedDate := now)]
      && id !in db.projects[pid].tasks
    ensures !r.Ok? ==> db.tasks == old(db.tasks) && db.projects == old(db.projects)
  {
    if id !in db.tasks {
      return NotFound(TaskNotFound);
    }
    var task := db.tasks[id];
    if task.projectId !in db.projects {
      return Thrown(NullRead("ownerId"));
    }
    var project := db.projects[task.projectId];
    if project.ownerId != actor {
      return Forbidden;
    }
    project := ProjectModel.Touch(project.(tasks := Pull(project.tasks, id)), now);
    PutProject(db.tasks, db.projects, project);
    db.projects := db.projects[task.projectId := project];
    DropTask(db.tasks, db.projects, id);
    db.tasks := db.tasks - {id};
    r := Ok(());
  }

  /**
   * `POST /:id/comments`: 404 for an unknown task, then 400 for an empty
   * text; no membership check. A cast copy of the comment, with its own
   * `_id`, is appended after the existing ones; the answer is the plain
   * object, which has no `_id`.
   */
  method AddComment(db: Database, actor: Id, id: Id, text: Option<string>, commentId: Id, now: int)
    returns (r: Outcome<Comment>)
    requires db.Valid()
    modifies db
    ensures db.Valid()
    ensures old(db.Linked()) ==> db.Linked()
    ensures id !in old(db.tasks) ==> r == NotFound(TaskNotFound)
    ensures id in old(db.tasks) && !Text.Truthy(text) ==> r == BadRequest(CommentTextRequired)
    ensures r.Ok? <==> id in old(db.tasks) && Text.Truthy(text)
    ensures r.Ok? ==>
      var t := old(db.tasks[id]);
      && r.value == Comment(None, actor, text.value, now)
      && db.tasks == old(db.tasks)[id := t.(comments := t.comments + [CastComment(r.value, commentId)], updatedDate := now)]
      && db.projects == old(db.projects)
    ensures !r.Ok? ==> db.tasks == old(db.tasks) && db.projects == old(db.projects)
  {
    if id !in db.tasks {
      return NotFound(TaskNotFound);
    }
    if !Text.Truthy(text) {
      return BadRequest(CommentTextRequired);
    }
    var task := db.tasks[id];
    var comment := Comment(None, actor, text.value, now);
    task := Touch(task.(comments := task.comments + [CastComment(comment, commentId)]), now);
    PutTask(db.tasks, db.projects, task);
    db.tasks := db.tasks[id := task];
    r := Ok(comment);
  }
}
