/** What each operation of core/rbac/custom_role.go does when it runs alone, in one instant: one change
    to the tables, or one error and no change. */
module CustomRoleSpec {
  import opened Permissions
  import opened SystemRoles
  import opened CustomRoleTables
  import opened CustomRoleProtocol

  datatype CoreError =
    | Validation | Missing | Exists | Mismatch | Denied | Managed | WrongScope
    | Internal   // an error the code has no name for; it calls the case impossible

  datatype Outcome = Success | Failure(error: CoreError)

  // unicode.IsSpace, which strings.TrimSpace goes by.
  predicate IsSpace(c: char) {
    || c in "\t\n\U{0B}\U{0C}\r \U{85}\U{A0}\U{1680}\U{2028}\U{2029}\U{202F}\U{205F}\U{3000}"
    || '\U{2000}' <= c <= '\U{200A}'
  }

  predicate ValidName(name: string) {
    name != "" && !IsSpace(name[0]) && !IsSpace(name[|name| - 1])
  }

  /** The Validate methods. An ETag of 0 is the nil UUID. */
  predicate ValidRequest(req: Request) {
    && Validated(req)
    && match req
       case Create(_, _, name, _) => ValidName(name)
       case Update(_, _, _, etag, newName, _) => etag != 0 && (newName.Some? ==> ValidName(newName.value))
       case Rename(_, _, etag, newName) => etag != 0 && (newName.Some? ==> ValidName(newName.value))
       case Modify(_, _, _, etag, _, _) => etag != 0
       case _ => true
  }

  /** Seeded and referenced rows: what foreign keys and migrations guarantee about the database. */
  ghost predicate Consistent(w: World, t: Tables) {
    && w.env.Valid() && w.env.registry <= ToSet(AllPermissions())
    && (forall p :: p in w.projects ==> w.projects[p] in w.orgs)
    && (forall x :: x in t.rolePerms ==> x.0 in t.roles && x.1 in w.env.registry)
  }

  /** What the actor holds where the operation checks: in the project for a project assignment, in the
      organization for everything else. */
  function Held(w: World, t: Tables, sys: Assignments, req: Request): set<Permission>
    requires !req.Rename? && req.project in w.projects
  {
    if req.AssignToProject? || req.UnassignFromProject? then ProjectPermissions(w, t, sys, req.actor, req.project)
    else OrgPermissions(w, t, sys, req.actor, w.projects[req.project])
  }

  function Removed(t: Tables, r: RoleId): Tables {
    Tables(t.roles - {r},
           set x | x in t.rolePerms && x.0 != r,
           set a | a in t.projectAssignments && a.role != r,
           set a | a in t.orgAssignments && a.role != r)
  }

  /** The permissions an edit asks for. */
  function Wanted(req: Request, current: set<Permission>): set<Permission> {
    if req.Update? then req.perms
    else if req.Modify? then (current + req.add) - req.remove
    else current
  }

  function EditedRow(t: Tables, req: Request, newETag: ETag): Role
    requires (req.Update? || req.Modify? || req.Rename?) && req.role in t.roles
  {
    var row, current := t.roles[req.role], RolePermissions(t, req.role);
    row.(name := if !req.Modify? && req.newName.Some? then req.newName.value else row.name,
         etag := if req.Modify? && Wanted(req, current) == current then row.etag else newETag)
  }

  /** The permission edits and the rename. The rename is not authorised by permissions at all. */
  function EditVerdict(w: World, t: Tables, held: set<Permission>, org: OrgId, req: Request): Outcome
    requires req.Update? || req.Modify? || req.Rename?
  {
    if !Owns(t, org, req.role) then Failure(Missing)
    else
      var row, current := t.roles[req.role], RolePermissions(t, req.role);
      var wanted := Wanted(req, current);
      if !req.Rename? && row.managed then Failure(Managed)
      else if !req.Rename? && !(Changed(current, wanted) <= held) then Failure(Denied)
      else if !req.Rename? && !ProjectScoped(wanted) && HasProjectAssignments(t, req.role) then Failure(WrongScope)
      // An unknown permission to remove passes every check but is not resolved by the statement.
      else if req.Modify? && !(req.remove <= w.env.registry) then Failure(Internal)
      else if row.etag != req.etag then Failure(Mismatch)
      else if !req.Modify? && req.newName.Some? && NameTaken(t, org, req.newName.value, req.role) then Failure(Exists)
      else Success
  }

  predicate Assigned(t: Tables, org: OrgId, req: Request)
    requires req.AssignToProject? || req.AssignToOrg? || req.UnassignFromProject? || req.UnassignFromOrg?
  {
    if req.AssignToProject? || req.UnassignFromProject? then
      ProjectAssignment(req.target, req.project, req.role) in t.projectAssignments
    else OrgAssignment(req.target, org, req.role) in t.orgAssignments
  }

  function AssignmentVerdict(w: World, t: Tables, held: set<Permission>, org: OrgId, req: Request): Outcome
    requires req.AssignToProject? || req.AssignToOrg? || req.UnassignFromProject? || req.UnassignFromOrg?
  {
    if !Owns(t, org, req.role) then Failure(Missing)
    else if req.AssignToProject? && !ProjectScoped(RolePermissions(t, req.role)) then Failure(WrongScope)
    else if !(RolePermissions(t, req.role) <= held) then Failure(Denied)
    else if req.target !in w.env.users || (req.target, org) !in w.members then Failure(Missing)
    else if req.AssignToProject? || req.AssignToOrg? then if Assigned(t, org, req) then Failure(Exists) else Success
    else if Assigned(t, org, req) then Success else Failure(Missing)
  }

  /** The checks of the operation, in order; the first that fails decides the error. */
  function Verdict(w: World, t: Tables, sys: Assignments, req: Request): Outcome {
    if !ValidRequest(req) then Failure(Validation)
    else if req.Rename? then EditVerdict(w, t, {}, req.org, req)
    else if req.actor !in w.env.users || req.project !in w.projects then Failure(Missing)
    else
      var org, held := w.projects[req.project], Held(w, t, sys, req);
      match req
      case Create(_, _, name, perms) =>
        if !(perms <= held) then Failure(Denied)
        else if exists r :: r in t.roles && t.roles[r].org == org && Lower(t.roles[r].name) == Lower(name) then
          Failure(Exists)
        else Success
      case Delete(_, _, r) =>
        if !Owns(t, org, r) then Failure(Missing)
        else if t.roles[r].managed then Failure(Managed)
        else if !(RolePermissions(t, r) <= held) then Failure(Denied)
        else Success
      case Update(_, _, _, _, _, _) => EditVerdict(w, t, held, org, req)
      case Modify(_, _, _, _, _, _) => EditVerdict(w, t, held, org, req)
      case AssignToProject(_, _, _, _) => AssignmentVerdict(w, t, held, org, req)
      case UnassignFromProject(_, _, _, _) => AssignmentVerdict(w, t, held, org, req)
      case AssignToOrg(_, _, _, _) => AssignmentVerdict(w, t, held, org, req)
      case UnassignFromOrg(_, _, _, _) => AssignmentVerdict(w, t, held, org, req)
  }

  /** What a successful operation makes of the tables. */
  function Effect(w: World, t: Tables, req: Request, newRole: RoleId, newETag: ETag): Tables
    requires req.Create? ==> req.project in w.projects
    requires req.AssignToOrg? || req.UnassignFromOrg? ==> req.project in w.projects
    requires req.Update? || req.Modify? || req.Rename? ==> req.role in t.roles
  {
    match req
    case Create(_, project, name, perms) =>
      t.(roles := t.roles[newRole := Role(w.projects[project], name, false, newETag)],
         rolePerms := t.rolePerms + RowsOf(newRole, perms))
    case Delete(_, _, r) => Removed(t, r)
    case AssignToProject(_, project, target, r) =>
      t.(projectAssignments := t.projectAssignments + {ProjectAssignment(target, project, r)})
    case UnassignFromProject(_, project, target, r) =>
      t.(projectAssignments := t.projectAssignments - {ProjectAssignment(target, project, r)})
    case AssignToOrg(_, project, target, r) =>
      t.(orgAssignments := t.orgAssignments + {OrgAssignment(target, w.projects[project], r)})
    case UnassignFromOrg(_, project, target, r) =>
      t.(orgAssignments := t.orgAssignments - {OrgAssignment(target, w.projects[project], r)})
    case _ => Replaced(t, req.role, EditedRow(t, req, newETag), Wanted(req, RolePermissions(t, req.role)))
  }

  function Expected(w: World, t: Tables, sys: Assignments, req: Request, newRole: RoleId, newETag: ETag): (Tables,
                    Outcome) {
    var verdict := Verdict(w, t, sys, req);
    if verdict == Success then (Effect(w, t, req, newRole, newETag), Success) else (t, verdict)
  }

  /** The error switch at the end of each operation. */
  function CoreErrorOf(req: Request, e: DbError): CoreError {
    match e
    case NoRows => if req.Create? || req.Update? || req.Modify? || req.Delete? then Internal else Missing
    case ETagMismatch => if req.Update? || req.Modify? || req.Rename? then Mismatch else Internal
    case UniqueViolation =>
      if req.Create? || req.Update? || req.Rename? || req.AssignToProject? || req.AssignToOrg? then Exists else Internal
    case ForeignKeyViolation => Internal
    case CheckViolation => if req.Create? || req.Update? || req.Rename? then Validation else Internal
  }
}
