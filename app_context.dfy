/**
 * The client-side cache (`AppProvider`): the `projects` and `tasks` lists,
 * the signed-in user, and what the client emits on its socket. Each request
 * goes to the server; the server's answer is the `reply` parameter.
 */
module AppContext {
  import opened Wrappers
  import Text
  import Seqs
  import opened TaskModel
  import ProjectModel
  import SocketServer

  /** What the API call produced: the decoded response, or the `error.response?.data?.error` of a rejection. */
  datatype ApiReply<T> = Answered(value: T) | Failed(error: Option<string>)

  /** `{ success: true, ... }` or `{ success: false, error }` */
  datatype CallResult<T> = Success(value: T) | Failure(error: string)

  const CreateProjectFailed := "Failed to create project"
  const CreateTaskFailed := "Failed to create task"
  const UpdateTaskFailed := "Failed to update task"
  const AddCommentFailed := "Failed to add comment"
  const AddMemberFailed := "Failed to add member"

  /** `error.response?.data?.error || fallback` */
  function FailureMessage(serverError: Option<string>, fallback: string): (m: string)
    requires fallback != ""
    ensures m != ""
    ensures Text.Truthy(serverError) ==> m == serverError.value
    ensures !Text.Truthy(serverError) ==> m == fallback
  {
    if Text.Truthy(serverError) then serverError.value else fallback
  }

  /** `tasks.map(task => task._id === id ? updated : task)` */
  function ReplaceTask(tasks: seq<Task>, id: Id, updated: Task): (r: seq<Task>)
    ensures |r| == |tasks|
    ensures forall i :: 0 <= i < |r| && tasks[i].id == id ==> r[i] == updated
    ensures forall i :: 0 <= i < |r| && tasks[i].id != id ==> r[i] == tasks[i]
  {
    if tasks == [] then []
    else [if tasks[0].id == id then updated else tasks[0]] + ReplaceTask(tasks[1..], id, updated)
  }

  /** `tasks.map(task => task._id === id ? { ...task, comments: [...task.comments, c] } : task)` */
  function AppendComment(tasks: seq<Task>, id: Id, c: Comment): (r: seq<Task>)
    ensures |r| == |tasks|
    ensures forall i :: 0 <= i < |r| && tasks[i].id == id ==>
      r[i] == tasks[i].(comments := tasks[i].comments + [c])
    ensures forall i :: 0 <= i < |r| && tasks[i].id != id ==> r[i] == tasks[i]
  {
    if tasks == [] then []
    else [if tasks[0].id == id then tasks[0].(comments := tasks[0].comments + [c]) else tasks[0]]
         + AppendComment(tasks[1..], id, c)
  }

  /** `projects.map(project => project._id === id ? updated : project)` */
  function ReplaceProject(projects: seq<ProjectModel.Project>, id: Id, updated: ProjectModel.Project)
    : (r: seq<ProjectModel.Project>)
    ensures |r| == |projects|
    ensures forall i :: 0 <= i < |r| && projects[i].id == id ==> r[i] == updated
    ensures forall i :: 0 <= i < |r| && projects[i].id != id ==> r[i] == projects[i]
  {
    if projects == [] then []
    else [if projects[0].id == id then updated else projects[0]] + ReplaceProject(projects[1..], id, updated)
  }

  /** Replacing by the id the replacement carries, twice, is replacing once. */
  lemma ReplaceTaskIdempotent(tasks: seq<Task>, updated: Task)
    ensures ReplaceTask(ReplaceTask(tasks, updated.id, updated), updated.id, updated)
         == ReplaceTask(tasks, updated.id, updated)
  {
    var once := ReplaceTask(tasks, updated.id, updated);
    var twice := ReplaceTask(once, updated.id, updated);
    forall i | 0 <= i < |twice| ensures twice[i] == once[i] {
    }
  }

  /** `socket.emit('taskCreated', { projectId, task })`: the project id is the one the caller passed. */
  function Created(projectId: Id, t: Task): SocketServer.Emitted {
    SocketServer.Emitted(SocketServer.TaskCreated, SocketServer.EventData(projectId, t))
  }

  /** `socket.emit('taskUpdated', { projectId: t.projectId, task: t })` */
  function Updated(t: Task): SocketServer.Emitted {
    SocketServer.Emitted(SocketServer.TaskUpdated, SocketServer.EventData(t.projectId, t))
  }

  class AppState {
    var currentUser: Option<Id>
    var isAuthenticated: bool
    var projects: seq<ProjectModel.Project>
    var tasks: seq<Task>
    /** Whether the connection effect has created a socket (`if (socket)`). */
    var hasSocket: bool
    /** The events this client has emitted on its socket, oldest first. */
    var emitted: seq<SocketServer.Emitted>

    constructor (user: Option<Id>, socket: bool)
      ensures currentUser == user && isAuthenticated == user.Some?
      ensures projects == [] && tasks == [] && hasSocket == socket && emitted == []
    {
      currentUser := user;
      isAuthenticated := user.Some?;
      projects := [];
      tasks := [];
      hasSocket := socket;
      emitted := [];
    }

    /** `getProjectTasks(p)`: exactly the cached tasks of project `p`, in cache order. */
    function ProjectTasks(projectId: Id): (r: seq<Task>)
      reads this
      ensures forall t :: t in r <==> t in tasks && t.projectId == projectId
      ensures forall t :: multiset(r)[t] == if t.projectId == projectId then multiset(tasks)[t] else 0
      ensures Seqs.IsSubsequence(r, tasks)
    {
      var ofProject := (t: Task) => t.projectId == projectId;
      Seqs.FilterMembers(tasks, ofProject);
      Seqs.FilterCount(tasks, ofProject);
      Seqs.FilterSubsequence(tasks, ofProject);
      Seqs.Filter(tasks, ofProject)
    }

    /** `logout`: both lists emptied, no user, not authenticated. */
    method Logout()
      modifies this
      ensures currentUser == None && !isAuthenticated && projects == [] && tasks == []
      ensures hasSocket == old(hasSocket) && emitted == old(emitted)
    {
      currentUser := None;
      isAuthenticated := false;
      projects := [];
      tasks := [];
    }

    /** `loadProjects`: the server's list replaces `projects`; a failure is only logged. */
    method LoadProjects(reply: ApiReply<seq<ProjectModel.Project>>)
      modifies this
      ensures projects == (if reply.Answered? then reply.value else old(projects))
      ensures tasks == old(tasks) && emitted == old(emitted)
      ensures currentUser == old(currentUser) && isAuthenticated == old(isAuthenticated) && hasSocket == old(hasSocket)
    {
      if reply.Answered? {
        projects := reply.value;
      }
    }

    /** `loadProjectTasks(p)`: the server's list replaces `tasks` wholesale; a failure is only logged. */
    method LoadProjectTasks(projectId: Id, reply: ApiReply<seq<Task>>)
      modifies this
      ensures tasks == (if reply.Answered? then reply.value else old(tasks))
      ensures projects == old(projects) && emitted == old(emitted)
      ensures currentUser == old(currentUser) && isAuthenticated == old(isAuthenticated) && hasSocket == old(hasSocket)
    {
      if reply.Answered? {
        tasks := reply.value;
      }
    }

    /** `createProject`: the new project is appended to `projects`. */
    method CreateProject(reply: ApiReply<ProjectModel.Project>) returns (r: CallResult<ProjectModel.Project>)
      modifies this
      ensures reply.Answered? ==> r == Success(reply.value) && projects == old(projects) + [reply.value]
      ensures reply.Failed? ==> r == Failure(FailureMessage(reply.error, CreateProjectFailed)) && projects == old(projects)
      ensures tasks == old(tasks) && emitted == old(emitted)
      ensures currentUser == old(currentUser) && isAuthenticated == old(isAuthenticated) && hasSocket == old(hasSocket)
    {
      match reply {
        case Answered(p) =>
          projects := projects + [p];
          r := Success(p);
        case Failed(e) =>
          r := Failure(FailureMessage(e, CreateProjectFailed));
      }
    }

    /**
     * `createTask(projectId, ...)`: the new task is appended to `tasks`, then,
     * when a socket exists, `taskCreated` is emitted with the path's project id.
     */
    method CreateTask(projectId: Id, reply: ApiReply<Task>) returns (r: CallResult<Task>)
      modifies this
      ensures reply.Answered? ==> r == Success(reply.value) && tasks == old(tasks) + [reply.value]
      ensures reply.Answered? ==> emitted == old(emitted) + (if hasSocket then [Created(projectId, reply.value)] else [])
      ensures reply.Failed? ==>
        r == Failure(FailureMessage(reply.error, CreateTaskFailed)) && tasks == old(tasks) && emitted == old(emitted)
      ensures projects == old(projects)
      ensures currentUser == old(currentUser) && isAuthenticated == old(isAuthenticated) && hasSocket == old(hasSocket)
    {
      match reply {
        case Answered(t) =>
          tasks := tasks + [t];
          if hasSocket {
            emitted := emitted + [Created(projectId, t)];
          }
          r := Success(t);
        case Failed(e) =>
          r := Failure(FailureMessage(e, CreateTaskFailed));
      }
    }

    /**
     * `updateTask(taskId, ...)`: every cached task with that id is replaced by
     * the server's record, then `taskUpdated` is emitted with the record's project id.
     */
    method UpdateTask(taskId: Id, reply: ApiReply<Task>) returns (r: CallResult<Task>)
      modifies this
      ensures reply.Answered? ==> r == Success(reply.value) && tasks == ReplaceTask(old(tasks), taskId, reply.value)
      ensures reply.Answered? ==> emitted == old(emitted) + (if hasSocket then [Updated(reply.value)] else [])
      ensures reply.Failed? ==>
        r == Failure(FailureMessage(reply.error, UpdateTaskFailed)) && tasks == old(tasks) && emitted == old(emitted)
      ensures projects == old(projects)
      ensures currentUser == old(currentUser) && isAuthenticated == old(isAuthenticated) && hasSocket == old(hasSocket)
    {
      match reply {
        case Answered(t) =>
          tasks := ReplaceTask(tasks, taskId, t);
          if hasSocket {
            emitted := emitted + [Updated(t)];
          }
          r := Success(t);
        case Failed(e) =>
          r := Failure(FailureMessage(e, UpdateTaskFailed));
      }
    }

    /** `addTaskComment(taskId, text)`: the server's comment object (which has no `_id`) is appended to the matching task only. */
    method AddTaskComment(taskId: Id, reply: ApiReply<Comment>) returns (r: CallResult<Comment>)
      modifies this
      ensures reply.Answered? ==> r == Success(reply.value) && tasks == AppendComment(old(tasks), taskId, reply.value)
      ensures reply.Failed? ==> r == Failure(FailureMessage(reply.error, AddCommentFailed)) && tasks == old(tasks)
      ensures projects == old(projects) && emitted == old(emitted)
      ensures currentUser == old(currentUser) && isAuthenticated == old(isAuthenticated) && hasSocket == old(hasSocket)
    {
      match reply {
        case Answered(c) =>
          tasks := AppendComment(tasks, taskId, c);
          r := Success(c);
        case Failed(e) =>
          r := Failure(FailureMessage(e, AddCommentFailed));
      }
    }

    /** `addProjectMember(projectId, userId)`: the matching project is replaced by the server's record. */
    method AddProjectMember(projectId: Id, reply: ApiReply<ProjectModel.Project>)
      returns (r: CallResult<ProjectModel.Project>)
      modifies this
      ensures reply.Answered? ==>
        r == Success(reply.value) && projects == ReplaceProject(old(projects), projectId, reply.value)
      ensures reply.Failed? ==> r == Failure(FailureMessage(reply.error, AddMemberFailed)) && projects == old(projects)
      ensures tasks == old(tasks) && emitted == old(emitted)
      ensures currentUser == old(currentUser) && isAuthenticated == old(isAuthenticated) && hasSocket == old(hasSocket)
    {
      match reply {
        case Answered(p) =>
          projects := ReplaceProject(projects, projectId, p);
          r := Success(p);
        case Failed(e) =>
          r := Failure(FailureMessage(e, AddMemberFailed));
      }
    }
  }
}
