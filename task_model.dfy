/**
 * The Task schema: field enums, defaults, required fields, the comment
 * sub-record and the pre-save hook.
 */
module TaskModel {
  import opened Wrappers
  import Text

  type Id = string

  datatype Status = TODO | IN_PROGRESS | DONE
  datatype Priority = LOW | MEDIUM | HIGH

  function StatusName(s: Status): string {
    match s
    case TODO => "TODO"
    case IN_PROGRESS => "IN_PROGRESS"
    case DONE => "DONE"
  }

  function PriorityName(p: Priority): string {
    match p
    case LOW => "LOW"
    case MEDIUM => "MEDIUM"
    case HIGH => "HIGH"
  }

  /** The enum validator on `status`: exactly the three names are accepted, each as its own value. */
  function ParseStatus(n: string): (r: Option<Status>)
    ensures r.Some? <==> n == "TODO" || n == "IN_PROGRESS" || n == "DONE"
    ensures r.Some? ==> StatusName(r.value) == n
  {
    if n == "TODO" then Some(TODO)
    else if n == "IN_PROGRESS" then Some(IN_PROGRESS)
    else if n == "DONE" then Some(DONE)
    else None
  }

  /** The enum validator on `priority`. */
  function ParsePriority(n: string): (r: Option<Priority>)
    ensures r.Some? <==> n == "LOW" || n == "MEDIUM" || n == "HIGH"
    ensures r.Some? ==> PriorityName(r.value) == n
  {
    if n == "LOW" then Some(LOW)
    else if n == "MEDIUM" then Some(MEDIUM)
    else if n == "HIGH" then Some(HIGH)
    else None
  }

  /** Every status name parses back to its status. */
  lemma StatusRoundTrip(st: Status)
    ensures ParseStatus(StatusName(st)) == Some(st)
  {
    match st
    case TODO =>
    case IN_PROGRESS => assert StatusName(st) != "TODO";
    case DONE => assert StatusName(st) != "TODO" && StatusName(st) != "IN_PROGRESS";
  }

  /** Every priority name parses back to its priority. */
  lemma PriorityRoundTrip(p: Priority)
    ensures ParsePriority(PriorityName(p)) == Some(p)
  {
    match p
    case LOW =>
    case MEDIUM => assert PriorityName(p) != "LOW";
    case HIGH => assert PriorityName(p) != "LOW" && PriorityName(p) != "MEDIUM";
  }

  /**
   * A comment. An element of `comments` carries a generated `_id`; the plain
   * object a handler builds before pushing it carries none.
   */
  datatype Comment = Comment(id: Option<Id>, userId: Id, text: string, timestamp: int)

  /** A stored task document. Dates are integer timestamps. */
  datatype Task = Task(
    id: Id,
    projectId: Id,
    title: string,
    description: string,
    status: Status,
    priority: Priority,
    assignedTo: Id,
    dueDate: int,
    comments: seq<Comment>,
    createdBy: Id,
    createdDate: int,
    updatedDate: int)

  /** A stored task passes the schema: its title is present, non-blank and stored trimmed. */
  ghost predicate SchemaValid(t: Task) {
    t.title != "" && Text.IsTrimmed(t.title)
  }

  /** The fields given to `new Task({...})`; `None` is an absent (undefined) field. */
  datatype TaskInit = TaskInit(
    projectId: Option<Id>,
    title: Option<string>,
    description: Option<string>,
    status: Option<string>,
    priority: Option<string>,
    assignedTo: Option<Id>,
    dueDate: Option<int>,
    createdBy: Option<Id>)

  const ProjectIdRequired := "projectId: Project ID is required"
  const TitleRequired := "title: Task title is required"
  const AssignedToRequired := "assignedTo: Task must be assigned to someone"
  const DueDateRequired := "dueDate: Due date is required"
  const CreatedByRequired := "createdBy: Creator is required"

  function EnumError(path: string, value: string): string {
    path + ": `" + value + "` is not a valid enum value for path `" + path + "`."
  }

  /** The title validator after the `trim` setter has run. */
  function TitleErrors(title: Option<string>): (e: seq<string>)
    ensures e == [] <==> title.Some? && Text.Trim(title.value) != ""
  {
    if title.None? || Text.Trim(title.value) == "" then [TitleRequired] else []
  }

  function StatusErrors(status: Option<string>): (e: seq<string>)
    ensures e == [] <==> status.None? || ParseStatus(status.value).Some?
  {
    if status.Some? && ParseStatus(status.value).None? then [EnumError("status", status.value)] else []
  }

  function PriorityErrors(priority: Option<string>): (e: seq<string>)
    ensures e == [] <==> priority.None? || ParsePriority(priority.value).Some?
  {
    if priority.Some? && ParsePriority(priority.value).None? then [EnumError("priority", priority.value)] else []
  }

  /**
   * The validation messages of a new document, in schema path order. The
   * document saves exactly when every required field is present, the trimmed
   * title is non-empty and the enums hold.
   */
  function Errors(init: TaskInit): (e: seq<string>)
    ensures e == [] <==>
      && init.projectId.Some? && init.assignedTo.Some? && init.dueDate.Some? && init.createdBy.Some?
      && init.title.Some? && Text.Trim(init.title.value) != ""
      && (init.status.None? || ParseStatus(init.status.value).Some?)
      && (init.priority.None? || ParsePriority(init.priority.value).Some?)
    ensures init.projectId.None? ==> ProjectIdRequired in e
    ensures init.title.None? || Text.Trim(init.title.value) == "" ==> TitleRequired in e
    ensures init.status.Some? && ParseStatus(init.status.value).None? ==> EnumError("status", init.status.value) in e
    ensures init.priority.Some? && ParsePriority(init.priority.value).None? ==> EnumError("priority", init.priority.value) in e
    ensures init.assignedTo.None? ==> AssignedToRequired in e
    ensures init.dueDate.None? ==> DueDateRequired in e
    ensures init.createdBy.None? ==> CreatedByRequired in e
  {
    (if init.projectId.None? then [ProjectIdRequired] else [])
    + TitleErrors(init.title)
    + StatusErrors(init.status)
    + PriorityErrors(init.priority)
    + (if init.assignedTo.None? then [AssignedToRequired] else [])
    + (if init.dueDate.None? then [DueDateRequired] else [])
    + (if init.createdBy.None? then [CreatedByRequired] else [])
  }

  /**
   * The saved document: the given fields, the title trimmed, the schema
   * defaults (description '', status TODO, priority MEDIUM, no comments) and
   * both dates at `now` (the `createdDate` default and the pre-save hook).
   */
  function New(init: TaskInit, id: Id, now: int): (t: Task)
    requires Errors(init) == []
    ensures SchemaValid(t)
    ensures t.id == id && t.projectId == init.projectId.value
    ensures t.title == Text.Trim(init.title.value)
    ensures t.description == init.description.GetOr("")
    ensures init.status.None? ==> t.status == TODO
    ensures init.status.Some? ==> t.status == ParseStatus(init.status.value).value
    ensures init.status.Some? ==> StatusName(t.status) == init.status.value
    ensures init.priority.None? ==> t.priority == MEDIUM
    ensures init.priority.Some? ==> t.priority == ParsePriority(init.priority.value).value
    ensures init.priority.Some? ==> PriorityName(t.priority) == init.priority.value
    ensures t.assignedTo == init.assignedTo.value && t.dueDate == init.dueDate.value
    ensures t.createdBy == init.createdBy.value && t.comments == []
    ensures t.createdDate == now && t.updatedDate == now
  {
    Task(id, init.projectId.value, Text.Trim(init.title.value), init.description.GetOr(""),
         if init.status.Some? then ParseStatus(init.status.value).value else TODO,
         if init.priority.Some? then ParsePriority(init.priority.value).value else MEDIUM,
         init.assignedTo.value, init.dueDate.value, [], init.createdBy.value, now, now)
  }

  /** The ordering key of `sort({ dueDate: 1 })`. */
  function DueKey(t: Task): int { t.dueDate }

  /** The pre-save hook: `this.updatedDate = Date.now()`; no other field changes. */
  function Touch(t: Task, now: int): (r: Task)
    ensures r.updatedDate == now && r.(updatedDate := t.updatedDate) == t
    ensures SchemaValid(t) ==> SchemaValid(r)
  {
    t.(updatedDate := now)
  }

  /**
   * `comments.push(obj)` stores a cast copy of `obj` with a fresh `_id`;
   * `obj` itself is left without one, and nothing else differs.
   */
  function CastComment(obj: Comment, id: Id): (c: Comment)
    ensures c.id == Some(id)
    ensures c.(id := obj.id) == obj
  {
    obj.(id := Some(id))
  }
}
