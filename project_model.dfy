/** The Project schema: required fields, defaults, the `members`/`tasks` lists and the pre-save hook. */
module ProjectModel {
  import opened Wrappers
  import Text

  type Id = string

  /** A stored project document. `members` and `tasks` are ordered id lists. */
  datatype Project = Project(
    id: Id,
    projectName: string,
    description: string,
    ownerId: Id,
    members: seq<Id>,
    tasks: seq<Id>,
    createdDate: int,
    updatedDate: int)

  /** A stored project passes the schema: its name is present, non-blank and stored trimmed. */
  ghost predicate SchemaValid(p: Project) {
    p.projectName != "" && Text.IsTrimmed(p.projectName)
  }

  /** The fields given to `new Project({...})`; `None` is an absent field. */
  datatype ProjectInit = ProjectInit(
    projectName: Option<string>,
    description: Option<string>,
    ownerId: Option<Id>,
    members: seq<Id>)

  const ProjectNameRequired := "projectName: Project name is required"
  const OwnerRequired := "ownerId: Project owner is required"

  /** The name validator after the `trim` setter has run. */
  function NameErrors(name: Option<string>): (e: seq<string>)
    ensures e == [] <==> name.Some? && Text.Trim(name.value) != ""
  {
    if name.None? || Text.Trim(name.value) == "" then [ProjectNameRequired] else []
  }

  /** Validation messages in schema order: the document saves iff the trimmed name is non-empty and an owner is given. */
  function Errors(init: ProjectInit): (e: seq<string>)
    ensures e == [] <==> init.projectName.Some? && Text.Trim(init.projectName.value) != "" && init.ownerId.Some?
    ensures init.ownerId.None? ==> OwnerRequired in e
  {
    NameErrors(init.projectName) + (if init.ownerId.None? then [OwnerRequired] else [])
  }

  /**
   * The saved document: the trimmed name, `description` defaulting to '',
   * the given owner and members, no tasks, both dates at `now`.
   */
  function New(init: ProjectInit, id: Id, now: int): (p: Project)
    requires Errors(init) == []
    ensures SchemaValid(p)
    ensures p.id == id && p.projectName == Text.Trim(init.projectName.value)
    ensures p.description == init.description.GetOr("")
    ensures p.ownerId == init.ownerId.value && p.members == init.members && p.tasks == []
    ensures p.createdDate == now && p.updatedDate == now
  {
    Project(id, Text.Trim(init.projectName.value), init.description.GetOr(""),
            init.ownerId.value, init.members, [], now, now)
  }

  /** The pre-save hook: `this.updatedDate = Date.now()`; no other field changes. */
  function Touch(p: Project, now: int): (r: Project)
    ensures r.updatedDate == now && r.(updatedDate := p.updatedDate) == p
    ensures SchemaValid(p) ==> SchemaValid(r)
  {
    p.(updatedDate := now)
  }
}
