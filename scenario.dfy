/**
 * Two walk-throughs of the system: the life of one project through the REST
 * handlers, and one live update travelling through the socket relay to two
 * open pages.
 */
module Scenario {
  import opened Wrappers
  import Text
  import opened Outcomes
  import TaskModel
  import ProjectModel
  import Store
  import TaskRoutes
  import ProjectRoutes
  import SocketServer
  import AppContext
  import ProjectView

  /** u1 creates "Sprint 9", becoming its owner and only member, then adds u2. */
  method SetUp() returns (db: Store.Database, created: Outcome<ProjectModel.Project>,
                          added: Outcome<ProjectModel.Project>)
    ensures fresh(db) && db.Valid() && db.Linked() && db.tasks == map[]
    ensures created.Ok? && created.value.members == ["u1"]
    ensures added.Ok? && added.value.members == ["u1", "u2"]
    ensures db.projects.Keys == {"p1"} && db.projects["p1"] == added.value && added.value.ownerId == "u1"
  {
    db := new Store.Database();
    Text.TrimmedIsFixed("Sprint 9");
    created := ProjectRoutes.CreateProject(db, "u1", ProjectRoutes.NewProjectBody(Some("Sprint 9"), None), "p1", 1);
    added := ProjectRoutes.AddMember(db, "u1", "p1", "u2", 2);
  }

  /** u2, a member, creates "Fix bug" assigned to u1. */
  method CreateFixBug(db: Store.Database) returns (task: Outcome<TaskModel.Task>)
    requires db.Valid() && db.Linked() && db.tasks == map[]
    requires "p1" in db.projects && db.projects["p1"].ownerId == "u1" && db.projects["p1"].members == ["u1", "u2"]
    modifies db
    ensures db.Valid() && db.Linked()
    ensures "p1" in db.projects && db.projects["p1"].ownerId == "u1"
    ensures task.Ok? && task.value.status == TaskModel.TODO && task.value.createdBy == "u2"
    ensures db.tasks == map["t1" := task.value] && task.value.projectId == "p1" && task.value.assignedTo == "u1"
  {
    var body := TaskRoutes.NewTaskBody(Some("Fix bug"), None, None, Some(100), Some("u1"));
    Text.TrimmedIsFixed("Fix bug");
    assert !TaskRoutes.MissingField(body);
    assert TaskModel.Errors(TaskRoutes.InitOf("p1", "u2", body)) == [];
    task := TaskRoutes.CreateTask(db, "u2", "p1", body, "t1", 3);
  }

  /** u1 (the owner) may move "Fix bug" to IN_PROGRESS; u2 (neither owner nor assignee) may not. */
  method StartFixBug(db: Store.Database) returns (byOwner: Outcome<TaskModel.Task>, byMember: Outcome<TaskModel.Task>)
    requires db.Valid() && db.Linked()
    requires "p1" in db.projects && db.projects["p1"].ownerId == "u1"
    requires "t1" in db.tasks && db.tasks["t1"].projectId == "p1" && db.tasks["t1"].assignedTo == "u1"
    modifies db
    ensures db.Valid() && db.Linked()
    ensures "p1" in db.projects && db.projects["p1"].ownerId == "u1"
    ensures "t1" in db.tasks && db.tasks["t1"].projectId == "p1"
    ensures byOwner.Ok? && byOwner.value.status == TaskModel.IN_PROGRESS
    ensures byMember == Forbidden
  {
    var start := TaskRoutes.TaskPatch(None, None, Some("IN_PROGRESS"), None, None);
    byOwner := TaskRoutes.UpdateTask(db, "u1", "t1", start, 4);
    byMember := TaskRoutes.UpdateTask(db, "u2", "t1", start, 5);
  }

  /** The whole walk-through: after u1 deletes "Sprint 9" the task is gone too. */
  method Sprint9() returns (byOwner: Outcome<TaskModel.Task>, byMember: Outcome<TaskModel.Task>,
                            deleted: Outcome<()>, after: Outcome<TaskModel.Task>)
    ensures byOwner.Ok? && byOwner.value.status == TaskModel.IN_PROGRESS
    ensures byMember == Forbidden
    ensures deleted.Ok?
    ensures after == NotFound(TaskRoutes.TaskNotFound)
  {
    var db, _, _ := SetUp();
    var _ := CreateFixBug(db);
    byOwner, byMember := StartFixBug(db);
    deleted := ProjectRoutes.DeleteProject(db, "u1", "p1");
    after := TaskRoutes.GetTask(db, "t1");
  }

  /**
   * Sessions a and b both view project 42. a's client updates a task and
   * emits `taskUpdated`; the relay puts exactly that event into both
   * sessions' inboxes, sender included, and both pages refetch and cache the
   * server's list.
   */
  method TwoSessions(task: TaskModel.Task, listed: seq<TaskModel.Task>)
    returns (delivered: set<SocketServer.SessionId>, inboxA: seq<SocketServer.Emitted>,
             inboxB: seq<SocketServer.Emitted>, cacheA: seq<TaskModel.Task>, cacheB: seq<TaskModel.Task>)
    requires task.projectId == "42"
    ensures delivered == {"a", "b"}
    ensures inboxA == inboxB == [SocketServer.Emitted(SocketServer.TaskUpdated, SocketServer.EventData("42", task))]
    ensures cacheA == listed && cacheB == listed
  {
    var server := new SocketServer.Server();
    server.JoinProject("a", "42");
    server.JoinProject("b", "42");
    var clientA := new AppContext.AppState(Some("ua"), true);
    var clientB := new AppContext.AppState(Some("ub"), true);
    var _ := clientA.UpdateTask(task.id, AppContext.Answered(task));
    var ev := clientA.emitted[0];
    delivered := server.OnTaskUpdated("a", ev.data);
    ProjectView.OnTaskEvent(clientA, "42", ev, AppContext.Answered(listed));
    ProjectView.OnTaskEvent(clientB, "42", ev, AppContext.Answered(listed));
    inboxA := SocketServer.Inbox(server.inboxes, "a");
    inboxB := SocketServer.Inbox(server.inboxes, "b");
    cacheA := clientA.tasks;
    cacheB := clientB.tasks;
  }
}
