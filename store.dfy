/**
 * The document store the route handlers work on: one collection of
 * projects and one of tasks, each keyed by `_id`. A handler reads a copy of
 * a document, changes fields on the copy, and `save()` writes the copy back.
 */
module Store {
  import Seqs
  import Text
  import ErrorHandler
  import TaskModel
  import ProjectModel

  type Id = string

  /** Membership rules the project handlers keep: the owner is a member, and no one is a member twice. */
  ghost predicate MembershipInvariant(p: ProjectModel.Project) {
    p.ownerId in p.members && Seqs.NoDuplicates(p.members)
  }

  /** Every project is stored under its own `_id`, passes its schema and keeps the membership rules. */
  ghost predicate ProjectsValid(ps: map<Id, ProjectModel.Project>) {
    forall k :: k in ps ==> ps[k].id == k && ProjectModel.SchemaValid(ps[k]) && MembershipInvariant(ps[k])
  }

  /** Every task is stored under its own `_id` and passes its schema. */
  ghost predicate TasksValid(ts: map<Id, TaskModel.Task>) {
    forall k :: k in ts ==> ts[k].id == k && TaskModel.SchemaValid(ts[k])
  }

  /** Every task's `projectId` names a stored project. */
  ghost predicate TasksLinked(ts: map<Id, TaskModel.Task>, ps: map<Id, ProjectModel.Project>) {
    forall k :: k in ts ==> ts[k].projectId in ps
  }

  class Database {
    var projects: map<Id, ProjectModel.Project>
    var tasks: map<Id, TaskModel.Task>

    ghost predicate Valid()
      reads this
    {
      ProjectsValid(projects) && TasksValid(tasks)
    }

    /**
     * Referential integrity. The handlers keep it, but it is not part of
     * `Valid`: the non-atomic two-step writes of concurrent requests can
     * break it, and the task handlers must then cope with a missing project.
     */
    ghost predicate Linked()
      reads this
    {
      TasksLinked(tasks, projects)
    }

    constructor ()
      ensures Valid() && Linked()
      ensures projects == map[] && tasks == map[]
    {
      projects := map[];
      tasks := map[];
    }
  }

  /** Saving a valid task keeps the collection valid, and keeps it linked when its project exists. */
  lemma PutTask(ts: map<Id, TaskModel.Task>, ps: map<Id, ProjectModel.Project>, t: TaskModel.Task)
    requires TasksValid(ts) && TaskModel.SchemaValid(t)
    ensures TasksValid(ts[t.id := t])
    ensures TasksLinked(ts, ps) && t.projectId in ps ==> TasksLinked(ts[t.id := t], ps)
  {
  }

  /** Saving a valid project keeps the collection valid and every link intact. */
  lemma PutProject(ts: map<Id, TaskModel.Task>, ps: map<Id, ProjectModel.Project>, p: ProjectModel.Project)
    requires ProjectsValid(ps) && ProjectModel.SchemaValid(p) && MembershipInvariant(p)
    ensures ProjectsValid(ps[p.id := p])
    ensures TasksLinked(ts, ps) ==> TasksLinked(ts, ps[p.id := p])
  {
  }

  /** Removing a task keeps the task collection valid and linked. */
  lemma DropTask(ts: map<Id, TaskModel.Task>, ps: map<Id, ProjectModel.Project>, id: Id)
    requires TasksValid(ts)
    ensures TasksValid(ts - {id})
    ensures TasksLinked(ts, ps) ==> TasksLinked(ts - {id}, ps)
  {
  }

  /** `Task.deleteMany({ projectId })`: the tasks of every other project, untouched. */
  function DeleteTasksOf(ts: map<Id, TaskModel.Task>, projectId: Id): (r: map<Id, TaskModel.Task>)
    ensures forall k :: k in r <==> k in ts && ts[k].projectId != projectId
    ensures forall k :: k in r ==> r[k] == ts[k]
  {
    map k | k in ts && ts[k].projectId != projectId :: ts[k]
  }

  /** The cascade delete keeps both collections valid and every remaining task linked. */
  lemma DropProject(ts: map<Id, TaskModel.Task>, ps: map<Id, ProjectModel.Project>, id: Id)
    requires TasksValid(ts) && ProjectsValid(ps)
    ensures TasksValid(DeleteTasksOf(ts, id)) && ProjectsValid(ps - {id})
    ensures TasksLinked(ts, ps) ==> TasksLinked(DeleteTasksOf(ts, id), ps - {id})
  {
  }

  /** A Mongoose `ValidationError`: `"<Model> validation failed: "` and the path messages. */
  function ValidationFailed(model: string, errors: seq<string>): (e: ErrorHandler.JsError)
    ensures ErrorHandler.StatusOf(e) == 500
  {
    ErrorHandler.Untyped("ValidationError", model + " validation failed: " + Text.Join(errors, ", "))
  }

  /** Inserting a document whose `_id` is taken fails on the unique `_id` index. */
  function DuplicateKey(collection: string): (e: ErrorHandler.JsError)
    ensures ErrorHandler.StatusOf(e) == 500
  {
    ErrorHandler.Untyped("MongoServerError", "E11000 duplicate key error collection: " + collection + " index: _id_")
  }

  /** Reading a property of `null`, as `project.ownerId` does when the project is gone. */
  function NullRead(property: string): (e: ErrorHandler.JsError)
    ensures ErrorHandler.StatusOf(e) == 500
  {
    ErrorHandler.Untyped("TypeError", "Cannot read properties of null (reading '" + property + "')")
  }

  /** `array.pull(x)`: every occurrence of `x` removed, all else kept in order. */
  function Pull(s: seq<Id>, x: Id): (r: seq<Id>)
    ensures |r| <= |s|
    ensures forall y :: y in r <==> y in s && y != x
    ensures forall y :: multiset(r)[y] == if y == x then 0 else multiset(s)[y]
    ensures Seqs.IsSubsequence(r, s)
  {
    var other := (y: Id) => y != x;
    Seqs.FilterMembers(s, other);
    Seqs.FilterCount(s, other);
    Seqs.FilterSubsequence(s, other);
    Seqs.Filter(s, other)
  }
}
