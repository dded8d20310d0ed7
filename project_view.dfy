/**
 * The project page: the status filter, the sort selector, the three Kanban
 * columns, the create-form guard, the reaction to relayed task events and
 * drag-and-drop between columns.
 */
module ProjectView {
  import opened Wrappers
  import Text
  import Seqs
  import Sorting
  import opened TaskModel
  import TaskRoutes
  import SocketServer
  import AppContext

  const AllFilter := "ALL"

  /** `filter === 'ALL' ? allTasks : allTasks.filter(task => task.status === filter)` */
  function Visible(all: seq<Task>, filter: string): (r: seq<Task>)
    ensures filter == AllFilter ==> r == all
    ensures filter != AllFilter ==> forall t :: t in r <==> t in all && StatusName(t.status) == filter
    ensures filter != AllFilter ==>
      forall t :: multiset(r)[t] == if StatusName(t.status) == filter then multiset(all)[t] else 0
    ensures Seqs.IsSubsequence(r, all)
  {
    if filter == AllFilter then
      Seqs.SubsequenceRefl(all);
      all
    else
      var hasStatus := (t: Task) => StatusName(t.status) == filter;
      Seqs.FilterMembers(all, hasStatus);
      Seqs.FilterCount(all, hasStatus);
      Seqs.FilterSubsequence(all, hasStatus);
      Seqs.Filter(all, hasStatus)
  }

  /** `{ HIGH: 1, MEDIUM: 2, LOW: 3 }` */
  function PriorityRank(p: Priority): int {
    match p
    case HIGH => 1
    case MEDIUM => 2
    case LOW => 3
  }

  /** Sort keys of the three comparators: priority rank, and newest created first. */
  function PriorityKey(t: Task): int { PriorityRank(t.priority) }
  function NewestKey(t: Task): int { -t.createdDate }
  /** The comparator of any other `sortBy`, which always answers 0. */
  function NoKey(t: Task): int { 0 }

  /** The `sortBy` values the comparator knows. */
  predicate KnownSort(sortBy: string) {
    sortBy == "dueDate" || sortBy == "priority" || sortBy == "created"
  }

  /** The ordering key the comparator for `sortBy` compares by. */
  function KeyOf(sortBy: string): Task -> int {
    if sortBy == "dueDate" then DueKey
    else if sortBy == "priority" then PriorityKey
    else if sortBy == "created" then NewestKey
    else NoKey
  }

  /**
   * `[...filtered].sort(comparator)`: a stable sort of a copy. The result is
   * a permutation ordered by the selected key, tasks with equal keys keep
   * their order, and an unknown `sortBy` leaves the list as it was.
   */
  function SortView(ts: seq<Task>, sortBy: string): (r: seq<Task>)
    ensures multiset(r) == multiset(ts)
    ensures Sorting.SortedBy(r, KeyOf(sortBy))
    ensures forall v :: Sorting.WithKey(r, KeyOf(sortBy), v) == Sorting.WithKey(ts, KeyOf(sortBy), v)
    ensures !KnownSort(sortBy) ==> r == ts
  {
    var key := KeyOf(sortBy);
    Sorting.SortPermutes(ts, key);
    Sorting.SortSorted(ts, key);
    SortStableAll(ts, key);
    if !KnownSort(sortBy) then
      Sorting.SortConstantKey(ts, NoKey, 0);
      Sorting.Sort(ts, key)
    else
      Sorting.Sort(ts, key)
  }

  lemma SortStableAll(ts: seq<Task>, key: Task -> int)
    ensures forall v :: Sorting.WithKey(Sorting.Sort(ts, key), key, v) == Sorting.WithKey(ts, key, v)
  {
    forall v ensures Sorting.WithKey(Sorting.Sort(ts, key), key, v) == Sorting.WithKey(ts, key, v) {
      Sorting.SortStable(ts, key, v);
    }
  }

  /**
   * `filteredTasks`, the list shown in place of the columns when a status is
   * chosen: exactly the tasks with that status (all tasks under "ALL"), each
   * as often as in the cache, ordered by the selected key.
   */
  function Displayed(all: seq<Task>, filter: string, sortBy: string): (r: seq<Task>)
    ensures forall t :: t in r <==> t in all && (filter == AllFilter || StatusName(t.status) == filter)
    ensures filter == AllFilter ==> multiset(r) == multiset(all)
    ensures Sorting.SortedBy(r, KeyOf(sortBy))
  {
    var shown := Visible(all, filter);
    var r := SortView(shown, sortBy);
    assert forall t :: t in r <==> t in multiset(shown);
    r
  }

  /** Sorting by priority puts every HIGH task before every MEDIUM one, and every MEDIUM before every LOW. */
  lemma PriorityOrder(ts: seq<Task>)
    ensures var r := SortView(ts, "priority");
      forall i, j :: 0 <= i < j < |r| ==>
        (r[i].priority == MEDIUM ==> r[j].priority != HIGH) &&
        (r[i].priority == LOW ==> r[j].priority == LOW)
  {
    var r := SortView(ts, "priority");
    assert KeyOf("priority") == PriorityKey;
    forall i, j | 0 <= i < j < |r|
      ensures (r[i].priority == MEDIUM ==> r[j].priority != HIGH) && (r[i].priority == LOW ==> r[j].priority == LOW)
    {
      assert PriorityKey(r[i]) <= PriorityKey(r[j]);
    }
  }

  /** Sorting by due date is ascending; by `'created'`, newest first. */
  lemma DateOrders(ts: seq<Task>)
    ensures var r := SortView(ts, "dueDate");
      forall i, j :: 0 <= i < j < |r| ==> r[i].dueDate <= r[j].dueDate
    ensures var r := SortView(ts, "created");
      forall i, j :: 0 <= i < j < |r| ==> r[i].createdDate >= r[j].createdDate
  {
    var d := SortView(ts, "dueDate");
    assert KeyOf("dueDate") == DueKey;
    forall i, j | 0 <= i < j < |d| ensures d[i].dueDate <= d[j].dueDate {
      assert DueKey(d[i]) <= DueKey(d[j]);
    }
    var c := SortView(ts, "created");
    assert KeyOf("created") == NewestKey;
    forall i, j | 0 <= i < j < |c| ensures c[i].createdDate >= c[j].createdDate {
      assert NewestKey(c[i]) <= NewestKey(c[j]);
    }
  }

  /** `allTasks.filter(t => t.status === st)`: one Kanban column. */
  function Column(all: seq<Task>, st: Status): (r: seq<Task>)
    ensures forall t :: t in r <==> t in all && t.status == st
    ensures forall t :: multiset(r)[t] == if t.status == st then multiset(all)[t] else 0
    ensures Seqs.IsSubsequence(r, all)
  {
    var hasStatus := (t: Task) => t.status == st;
    Seqs.FilterMembers(all, hasStatus);
    Seqs.FilterCount(all, hasStatus);
    Seqs.FilterSubsequence(all, hasStatus);
    Seqs.Filter(all, hasStatus)
  }

  /**
   * The three columns partition the tasks: they are pairwise disjoint and
   * their sizes add up to the number of tasks, since every status is one of the three.
   */
  lemma {:induction false} KanbanPartition(all: seq<Task>)
    ensures |Column(all, TODO)| + |Column(all, IN_PROGRESS)| + |Column(all, DONE)| == |all|
    ensures forall t :: !(t in Column(all, TODO) && t in Column(all, IN_PROGRESS))
    ensures forall t :: !(t in Column(all, TODO) && t in Column(all, DONE))
    ensures forall t :: !(t in Column(all, IN_PROGRESS) && t in Column(all, DONE))
  {
    if all != [] {
      KanbanPartition(all[1..]);
      ColumnStep(all, TODO);
      ColumnStep(all, IN_PROGRESS);
      ColumnStep(all, DONE);
    }
  }

  lemma ColumnStep(all: seq<Task>, st: Status)
    requires all != []
    ensures |Column(all, st)| == |Column(all[1..], st)| + (if all[0].status == st then 1 else 0)
  {
  }

  /** Filtering the list view to one status shows exactly that status's Kanban column. */
  lemma ColumnIsFilter(all: seq<Task>, st: Status)
    ensures Column(all, st) == Visible(all, StatusName(st))
  {
    assert StatusName(st) != AllFilter;
    forall i | 0 <= i < |all|
      ensures ((t: Task) => t.status == st)(all[i]) == ((t: Task) => StatusName(t.status) == StatusName(st))(all[i])
    {
      StatusNameInjective(all[i].status, st);
    }
    Seqs.FilterExt(all, (t: Task) => t.status == st, (t: Task) => StatusName(t.status) == StatusName(st));
  }

  lemma StatusNameInjective(a: Status, b: Status)
    ensures StatusName(a) == StatusName(b) ==> a == b
  {
  }

  /** The create-task form; every field is the string an input holds. */
  datatype TaskForm = TaskForm(title: string, description: string, priority: string, dueDate: string, assignedTo: string)

  /** `title.trim() && dueDate && assignedTo`: otherwise submitting does nothing. */
  predicate CanSubmit(form: TaskForm) {
    Text.Trim(form.title) != "" && form.dueDate != "" && form.assignedTo != ""
  }

  /** The body `createTask` sends; `due` is the form's date string as the server parses it. */
  function RequestOf(form: TaskForm, due: int): TaskRoutes.NewTaskBody {
    TaskRoutes.NewTaskBody(Some(form.title), Some(form.description), Some(form.priority), Some(due), Some(form.assignedTo))
  }

  /**
   * A form the guard lets through, with a priority the selector offers,
   * passes the server's 400 check and the task schema's validation: only
   * the 404/403 checks and the store can still refuse it.
   */
  lemma SubmittedFormIsValid(form: TaskForm, due: int, projectId: Id, actor: Id)
    requires CanSubmit(form)
    requires ParsePriority(form.priority).Some?
    ensures !TaskRoutes.MissingField(RequestOf(form, due))
    ensures Errors(TaskRoutes.InitOf(projectId, actor, RequestOf(form, due))) == []
  {
    var body := RequestOf(form, due);
    assert Text.Truthy(body.title) by {
      Text.TrimOfEmpty();
    }
    assert Text.Truthy(body.priority);
    var init := TaskRoutes.InitOf(projectId, actor, body);
    assert init.title == Some(form.title) && init.priority == Some(form.priority) && init.status.None?;
    assert init.projectId.Some? && init.assignedTo.Some? && init.dueDate.Some? && init.createdBy.Some?;
  }

  /** A guard stricter than the server's: a blank title is stopped here; the server would let it reach validation. */
  lemma BlankTitleStopped(form: TaskForm, due: int)
    requires form.title != "" && Text.AllWhitespace(form.title)
    ensures !CanSubmit(form)
    ensures Text.Truthy(RequestOf(form, due).title)
  {
    Text.TrimEmptyIff(form.title);
  }

  /** The page's `taskCreated` / `taskUpdated` listener: refetch only for the viewed project. */
  predicate ShouldRefetch(viewed: Id, data: SocketServer.EventData) {
    data.projectId == viewed
  }

  /** Handling one relayed event on the page viewing `viewed`; `reply` answers the refetch. */
  method OnTaskEvent(ctx: AppContext.AppState, viewed: Id, ev: SocketServer.Emitted, reply: AppContext.ApiReply<seq<Task>>)
    modifies ctx
    ensures ShouldRefetch(viewed, ev.data) && reply.Answered? ==> ctx.tasks == reply.value
    ensures !(ShouldRefetch(viewed, ev.data) && reply.Answered?) ==> ctx.tasks == old(ctx.tasks)
    ensures ctx.projects == old(ctx.projects) && ctx.emitted == old(ctx.emitted)
    ensures ctx.currentUser == old(ctx.currentUser) && ctx.isAuthenticated == old(ctx.isAuthenticated)
    ensures ctx.hasSocket == old(ctx.hasSocket)
  {
    if ev.data.projectId == viewed {
      ctx.LoadProjectTasks(viewed, reply);
    }
  }

  /** `updateTask(taskId, { status })`, the request a drop makes. */
  datatype StatusRequest = StatusRequest(taskId: Id, status: Status)

  /** The update body of a status request, which the server's enum check accepts. */
  function PatchOf(req: StatusRequest): (p: TaskRoutes.TaskPatch)
    ensures TaskRoutes.PatchErrors(p) == []
    ensures p.status == Some(StatusName(req.status))
  {
    TaskRoutes.TaskPatch(None, None, Some(StatusName(req.status)), None, None)
  }

  /**
   * A `KanbanColumn` as written: each column keeps its own `draggedTask`,
   * set by dragging one of its own cards and read by a drop on itself.
   */
  class KanbanColumn {
    const status: Status
    var draggedTask: Option<Id>

    constructor (status: Status)
      ensures this.status == status && draggedTask == None
    {
      this.status := status;
      draggedTask := None;
    }

    /** `onDragStart` on one of this column's cards. */
    method DragStart(id: Id)
      modifies this
      ensures draggedTask == Some(id)
    {
      draggedTask := Some(id);
    }

    /** `onDragEnd` on one of this column's cards. */
    method DragEnd()
      modifies this
      ensures draggedTask == None
    {
      draggedTask := None;
    }

    /** `handleDrop`: a request for this column's status, if this column has a dragged card. */
    method Drop() returns (request: Option<StatusRequest>)
      modifies this
      ensures request == (if old(draggedTask).Some? then Some(StatusRequest(old(draggedTask).value, status)) else None)
      ensures draggedTask == None
    {
      request := None;
      if draggedTask.Some? {
        request := Some(StatusRequest(draggedTask.value, status));
        draggedTask := None;
      }
    }
  }

  /**
   * The columns as written: a card dragged out of To Do and dropped on Done
   * requests nothing, because Done's own `draggedTask` was never set.
   */
  method CrossColumnDropAsWritten(id: Id) returns (request: Option<StatusRequest>)
    ensures request == None
  {
    var todo := new KanbanColumn(TODO);
    var done := new KanbanColumn(DONE);
    todo.DragStart(id);
    request := done.Drop();
    todo.DragEnd();
  }

  /** The board with the dragged card held once for all three columns, as drag-and-drop needs. */
  class KanbanBoard {
    var draggedTask: Option<Id>

    constructor ()
      ensures draggedTask == None
    {
      draggedTask := None;
    }

    method DragStart(id: Id)
      modifies this
      ensures draggedTask == Some(id)
    {
      draggedTask := Some(id);
    }

    method DragEnd()
      modifies this
      ensures draggedTask == None
    {
      draggedTask := None;
    }

    /** A drop on the column of `status` requests that status for the dragged card. */
    method Drop(status: Status) returns (request: Option<StatusRequest>)
      modifies this
      ensures request == (if old(draggedTask).Some? then Some(StatusRequest(old(draggedTask).value, status)) else None)
      ensures draggedTask == None
    {
      request := None;
      if draggedTask.Some? {
        request := Some(StatusRequest(draggedTask.value, status));
        draggedTask := None;
      }
    }
  }

  /** With the shared state, the same gesture requests `{ status: 'DONE' }` for the dragged card. */
  method CrossColumnDrop(id: Id) returns (request: Option<StatusRequest>)
    ensures request == Some(StatusRequest(id, DONE))
  {
    var board := new KanbanBoard();
    board.DragStart(id);
    request := board.Drop(DONE);
    board.DragEnd();
  }
}
