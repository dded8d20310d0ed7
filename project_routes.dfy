/**
 * The project routes: list, get, create, update, delete (with its tasks)
 * and add a member. Guards answer 404, then 403, then 400.
 */
module ProjectRoutes {
  import opened Wrappers
  import opened Outcomes
  import Text
  import Sorting
  import opened ProjectModel
  import opened Store

  const ProjectNotFound := "Project not found"
  const NameRequired := "Project name is required"
  const AlreadyMember := "User is already a member"

  /** The body of `POST /`. */
  datatype NewProjectBody = NewProjectBody(projectName: Option<string>, description: Option<string>)

  /** The body of `PUT /:id`. */
  datatype ProjectPatch = ProjectPatch(projectName: Option<string>, description: Option<string>)

  /** What the create handler passes to `new Project({...})`. */
  function InitOf(actor: Id, b: NewProjectBody): ProjectInit {
    ProjectInit(b.projectName, Some(if Text.Truthy(b.description) then b.description.value else ""),
                Some(actor), [actor])
  }

  /** `project.ownerId === actor || project.members.includes(actor)` */
  predicate CanView(actor: Id, p: Project) {
    p.ownerId == actor || actor in p.members
  }

  /**
   * An array element as `includes` sees it: a plain id string, or the user
   * document `populate` put in the id's place. A document is never equal to
   * a string.
   */
  datatype MemberRef = IdString(s: Id) | UserDocument(id: Id)

  /** `populate('members', ...)`: each stored member id replaced by its user document. */
  function PopulateMembers(members: seq<Id>): (r: seq<MemberRef>)
    ensures |r| == |members|
    ensures forall i :: 0 <= i < |r| ==> r[i] == UserDocument(members[i])
  {
    if members == [] then [] else [UserDocument(members[0])] + PopulateMembers(members[1..])
  }

  /**
   * The guard of `GET /:id` as written: the owner comparison reads the
   * populated owner's `_id`, but `members.includes(actor)` searches the
   * populated documents for a string.
   */
  predicate CanViewAsWritten(actor: Id, p: Project) {
    p.ownerId == actor || IdString(actor) in PopulateMembers(p.members)
  }

  /** A member who is not the owner passes the intended guard and fails the guard as written. */
  lemma MemberForbiddenAsWritten(actor: Id, p: Project)
    requires actor in p.members && actor != p.ownerId
    ensures CanView(actor, p)
    ensures !CanViewAsWritten(actor, p)
  {
  }

  /** Sorting by `{ updatedDate: -1 }`: most recently saved first. */
  function RecentFirst(p: Project): int { -p.updatedDate }

  /** The projects `actor` owns or belongs to, each exactly once. */
  ghost function VisibleTo(projects: map<Id, Project>, keys: set<Id>, actor: Id): set<Project> {
    set k | k in keys && k in projects && CanView(actor, projects[k]) :: projects[k]
  }

  lemma VisibleToStep(projects: map<Id, Project>, done: set<Id>, k: Id, actor: Id)
    requires ProjectsValid(projects) && k in projects && k !in done
    ensures var p := projects[k];
      && (CanView(actor, p) ==>
            multiset(VisibleTo(projects, done + {k}, actor)) == multiset(VisibleTo(projects, done, actor)) + multiset{p})
      && (!CanView(actor, p) ==> VisibleTo(projects, done + {k}, actor) == VisibleTo(projects, done, actor))
  {
    var p := projects[k];
    if CanView(actor, p) {
      assert VisibleTo(projects, done + {k}, actor) == VisibleTo(projects, done, actor) + {p};
      assert p !in VisibleTo(projects, done, actor);
    } else {
      assert VisibleTo(projects, done + {k}, actor) == VisibleTo(projects, done, actor);
    }
  }

  /** `GET /`: every project the actor owns or belongs to, once each, most recently updated first. */
  method ListProjects(db: Database, actor: Id) returns (ps: seq<Project>)
    requires db.Valid()
    ensures multiset(ps) == multiset(VisibleTo(db.projects, db.projects.Keys, actor))
    ensures forall p :: p in ps <==> p.id in db.projects && db.projects[p.id] == p && CanView(actor, p)
    ensures Sorting.SortedBy(ps, RecentFirst)
  {
    ps := [];
    var pending := db.projects.Keys;
    while pending != {}
      invariant pending <= db.projects.Keys
      invariant multiset(ps) == multiset(VisibleTo(db.projects, db.projects.Keys - pending, actor))
      invariant Sorting.SortedBy(ps, RecentFirst)
      decreases pending
    {
      var k :| k in pending;
      var p := db.projects[k];
      VisibleToStep(db.projects, db.projects.Keys - pending, k, actor);
      assert db.projects.Keys - pending + {k} == db.projects.Keys - (pending - {k});
      pending := pending - {k};
      if CanView(actor, p) {
        Sorting.InsertPermutes(p, ps, RecentFirst);
        Sorting.InsertSorted(p, ps, RecentFirst);
        ps := Sorting.Insert(p, ps, RecentFirst);
      }
    }
    assert db.projects.Keys - pending == db.projects.Keys;
    forall p ensures p in ps <==> p.id in db.projects && db.projects[p.id] == p && CanView(actor, p) {
      assert p in ps <==> p in multiset(ps);
    }
  }

  /**
   * `GET /:id` as intended: 404 for an unknown id, 403 unless the actor owns
   * or belongs to the project. This is the guard `GET /` applies, so every
   * listed project can be opened.
   */
  method GetProject(db: Database, actor: Id, id: Id) returns (r: Outcome<Project>)
    ensures id !in db.projects ==> r == NotFound(ProjectNotFound)
    ensures id in db.projects && CanView(actor, db.projects[id]) ==> r == Ok(db.projects[id])
    ensures id in db.projects && !CanView(actor, db.projects[id]) ==> r == Forbidden
  {
    if id !in db.projects {
      return NotFound(ProjectNotFound);
    }
    var project := db.projects[id];
    if project.ownerId != actor && actor !in project.members {
      return Forbidden;
    }
    r := Ok(project);
  }

  /**
   * `GET /:id` as written, on populated members: 404, then 403 for everyone
   * but the owner.
   */
  method GetProjectAsWritten(db: Database, actor: Id, id: Id) returns (r: Outcome<Project>)
    ensures id !in db.projects ==> r == NotFound(ProjectNotFound)
    ensures id in db.projects && CanViewAsWritten(actor, db.projects[id]) ==> r == Ok(db.projects[id])
    ensures id in db.projects && !CanViewAsWritten(actor, db.projects[id]) ==> r == Forbidden
  {
    if id !in db.projects {
      return NotFound(ProjectNotFound);
    }
    var project := db.projects[id];
    if project.ownerId != actor && IdString(actor) !in PopulateMembers(project.members) {
      return Forbidden;
    }
    r := Ok(project);
  }

  /**
   * Every project `GET /` lists for the actor opens under `GET /:id`, and a
   * member's project is always listed; under the guard as written a listed
   * project can still answer 403.
   */
  method ListedProjectOpens(db: Database, actor: Id, id: Id) returns (listed: bool, r: Outcome<Project>)
    requires db.Valid()
    ensures listed <==> id in db.projects && CanView(actor, db.projects[id])
    ensures listed ==> r == Ok(db.projects[id])
    ensures id in db.projects && actor in db.projects[id].members ==> listed
  {
    var ps := ListProjects(db, actor);
    listed := id in db.projects && db.projects[id] in ps;
    r := GetProject(db, actor, id);
  }

  /**
   * `POST /`: 400 without a name; otherwise the actor becomes the owner and
   * the only member, and the description defaults to ''.
   */
  method CreateProject(db: Database, actor: Id, body: NewProjectBody, newId: Id, now: int)
    returns (r: Outcome<Project>)
    requires db.Valid()
    modifies db
    ensures db.Valid()
    ensures old(db.Linked()) ==> db.Linked()
    ensures !Text.Truthy(body.projectName) ==> r == BadRequest(NameRequired)
    ensures Text.Truthy(body.projectName) && Errors(InitOf(actor, body)) != []
            ==> r == Thrown(ValidationFailed("Project", Errors(InitOf(actor, body))))
    ensures Text.Truthy(body.projectName) && Errors(InitOf(actor, body)) == [] && newId in old(db.projects)
            ==> r == Thrown(DuplicateKey("projects"))
    ensures r.Ok? <==>
      Text.Truthy(body.projectName) && Text.Trim(body.projectName.value) != "" && newId !in old(db.projects)
    ensures r.Ok? ==>
      && r.value.id == newId && r.value.ownerId == actor && r.value.members == [actor]
      && r.value.ownerId in r.value.members
      && r.value.projectName == Text.Trim(body.projectName.value)
      && r.value.description == body.description.GetOr("")
      && r.value.tasks == [] && r.value.createdDate == now && r.value.updatedDate == now
    ensures r.Ok? ==> db.projects == old(db.projects)[newId := r.value] && db.tasks == old(db.tasks)
    ensures !r.Ok? ==> db.projects == old(db.projects) && db.tasks == old(db.tasks)
  {
    if !Text.Truthy(body.projectName) {
      return BadRequest(NameRequired);
    }
    var init := InitOf(actor, body);
    var errors := Errors(init);
    if errors != [] {
      return Thrown(ValidationFailed("Project", errors));
    }
    if newId in db.projects {
      return Thrown(DuplicateKey("projects"));
    }
    var project := New(init, newId, now);
    PutProject(db.tasks, db.projects, project);
    db.projects := db.projects[newId := project];
    r := Ok(project);
  }

  /**
   * `PUT /:id`: 404, then 403 for a non-owner. A truthy name (trimmed) and a
   * present description are assigned; owner, members and tasks stay.
   */
  method UpdateProject(db: Database, actor: Id, id: Id, patch: ProjectPatch, now: int)
    returns (r: Outcome<Project>)
    requires db.Valid()
    modifies db
    ensures db.Valid()
    ensures old(db.Linked()) ==> db.Linked()
    ensures id !in old(db.projects) ==> r == NotFound(ProjectNotFound)
    ensures id in old(db.projects) && actor != old(db.projects[id].ownerId) ==> r == Forbidden
    ensures id in old(db.projects) && actor == old(db.projects[id].ownerId)
            && Text.Truthy(patch.projectName) && Text.Trim(patch.projectName.value) == ""
            ==> r == Thrown(ValidationFailed("Project", [ProjectNameRequired]))
    ensures r.Ok? <==>
      && id in old(db.projects) && actor == old(db.projects[id].ownerId)
      && (Text.Truthy(patch.projectName) ==> Text.Trim(patch.projectName.value) != "")
    ensures r.Ok? ==>
      var p := old(db.projects[id]);
      && r.value.projectName == (if Text.Truthy(patch.projectName) then Text.Trim(patch.projectName.value) else p.projectName)
      && r.value.description == patch.description.GetOr(p.description)
      && r.value.id == p.id && r.value.ownerId == p.ownerId && r.value.members == p.members
      && r.value.tasks == p.tasks && r.value.createdDate == p.createdDate && r.value.updatedDate == now
    ensures r.Ok? ==> db.projects == old(db.projects)[id := r.value] && db.tasks == old(db.tasks)
    ensures !r.Ok? ==> db.projects == old(db.projects) && db.tasks == old(db.tasks)
  {
    if id !in db.projects {
      return NotFound(ProjectNotFound);
    }
    var project := db.projects[id];
    if project.ownerId != actor {
      return Forbidden;
    }
    if Text.Truthy(patch.projectName) {
      project := project.(projectName := Text.Trim(patch.projectName.value));
    }
    if patch.description.Some? {
      project := project.(description := patch.description.value);
    }
    if Text.Truthy(patch.projectName) && Text.Trim(patch.projectName.value) == "" {
      return Thrown(ValidationFailed("Project", [ProjectNameRequired]));
    }
    project := Touch(project, now);
    PutProject(db.tasks, db.projects, project);
    db.projects := db.projects[id := project];
    r := Ok(project);
  }

  /**
   * `DELETE /:id`: 404, then 403 for a non-owner; then every task of the
   * project is deleted and the project itself.
   */
  method DeleteProject(db: Database, actor: Id, id: Id) returns (r: Outcome<()>)
    requires db.Valid()
    modifies db
    ensures db.Valid()
    ensures old(db.Linked()) ==> db.Linked()
    ensures id !in old(db.projects) ==> r == NotFound(ProjectNotFound)
    ensures id in old(db.projects) ==> (r.Ok? <==> actor == old(db.projects[id].ownerId)) && (!r.Ok? ==> r == Forbidden)
    ensures r.Ok? ==> db.projects == old(db.projects) - {id} && db.tasks == DeleteTasksOf(old(db.tasks), id)
    ensures r.Ok? ==> id !in db.projects && forall k :: k in db.tasks ==> db.tasks[k].projectId != id
    ensures !r.Ok? ==> db.projects == old(db.projects) && db.tasks == old(db.tasks)
  {
    if id !in db.projects {
      return NotFound(ProjectNotFound);
    }
    var project := db.projects[id];
    if project.ownerId != actor {
      return Forbidden;
    }
    DropProject(db.tasks, db.projects, id);
    db.tasks := DeleteTasksOf(db.tasks, id);
    db.projects := db.projects - {id};
    r := Ok(());
  }

  /**
   * `POST /:id/members`: 404, then 403 for a non-owner, then 400 when the
   * user is already a member; otherwise the user is appended to `members`.
   */
  method AddMember(db: Database, actor: Id, id: Id, userId: Id, now: int) returns (r: Outcome<Project>)
    requires db.Valid()
    modifies db
    ensures db.Valid()
    ensures old(db.Linked()) ==> db.Linked()
    ensures id !in old(db.projects) ==> r == NotFound(ProjectNotFound)
    ensures id in old(db.projects) && actor != old(db.projects[id].ownerId) ==> r == Forbidden
    ensures id in old(db.projects) && actor == old(db.projects[id].ownerId) && userId in old(db.projects[id].members)
            ==> r == BadRequest(AlreadyMember)
    ensures r.Ok? <==>
      id in old(db.projects) && actor == old(db.projects[id].ownerId) && userId !in old(db.projects[id].members)
    ensures r.Ok? ==>
      var p := old(db.projects[id]);
      && r.value == p.(members := p.members + [userId], updatedDate := now)
      && db.projects == old(db.projects)[id := r.value] && db.tasks == old(db.tasks)
    ensures !r.Ok? ==> db.projects == old(db.projects) && db.tasks == old(db.tasks)
  {
    if id !in db.projects {
      return NotFound(ProjectNotFound);
    }
    var project := db.projects[id];
    if project.ownerId != actor {
      return Forbidden;
    }
    if userId in project.members {
      return BadRequest(AlreadyMember);
    }
    project := Touch(project.(members := project.members + [userId]), now);
    PutProject(db.tasks, db.projects, project);
    db.projects := db.projects[id := project];
    r := Ok(project);
  }
}
