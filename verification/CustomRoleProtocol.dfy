/** Any number of concurrent custom-role calls (core/rbac/custom_role.go) under read-committed
    isolation, one statement per step. System-role changes happen in between as atomic steps, which is
    what every interleaving of those calls amounts to (SystemRoleProtocol). */
module CustomRoleProtocol {
  import opened Permissions
  import opened SystemRoles
  import opened CustomRoleTables

  datatype Request =
    | Create(actor: UUID, project: ProjectId, name: string, perms: set<Permission>)
    | Update(actor: UUID, project: ProjectId, role: RoleId, etag: ETag, newName: Option<string>, perms: set<Permission>)
    | Rename(org: OrgId, role: RoleId, etag: ETag, newName: Option<string>)   // UpdateCustomRole without permissions
    | Modify(actor: UUID, project: ProjectId, role: RoleId, etag: ETag, add: set<Permission>, remove: set<Permission>)
    | Delete(actor: UUID, project: ProjectId, role: RoleId)
    | AssignToProject(actor: UUID, project: ProjectId, target: UUID, role: RoleId)
    | UnassignFromProject(actor: UUID, project: ProjectId, target: UUID, role: RoleId)
    | AssignToOrg(actor: UUID, project: ProjectId, target: UUID, role: RoleId)
    | UnassignFromOrg(actor: UUID, project: ProjectId, target: UUID, role: RoleId)

  /** The Validate methods, as far as they concern permissions. */
  predicate Validated(req: Request) {
    match req
    case Create(_, _, _, perms) => ValidCustomRolePermissions(perms)
    case Update(_, _, _, _, _, perms) => ValidCustomRolePermissions(perms)
    case Modify(_, _, _, _, add, remove) => add !! remove && ValidCustomRolePermissions(add + remove)
    case _ => true
  }

  predicate LocksRole(req: Request) { req.Update? || req.Modify? || req.Delete? || req.AssignToProject? }

  predicate Assigns(req: Request) { req.AssignToProject? || req.AssignToOrg? }

  predicate Unassigns(req: Request) { req.UnassignFromProject? || req.UnassignFromOrg? }

  datatype Error =
    | NotFound
    | ManagedRole
    | PermissionDenied
    | InvalidAssignmentScope
    | Database(error: DbError)
    | Cancelled

  datatype Phase =
    | ReadActor                                        // OrgPermissionsByProjectID or ProjectPermissions
    | LockRole                                         // LockCustomRole
    | ReadRole                                         // CustomRoleByExternalID and the tests on its result
    | CheckScope                                       // validateCustomRoleAssignmentScope
    | UpdateSnapshot | UpdateRole | DeletePermissions | InsertPermissions   // the batch of UpdateCustomRole
    | ModifyRows | TouchRole                           // the modify statement, up to and from its wait for the role row
    | DeleteProjectAssignments | DeleteOrgAssignments  // the batch of DeleteCustomRole
    | DeleteRolePermissions | DeleteRole
    | IndexName                                        // the entry of a written row in the index of names
    | Insert                                           // the one statement of create, assign and unassign
    | CompleteInsert                                   // assign: the row, after its wait for the keys it needs
    | Commit
    | RollingBack(error: Error)
    | Done(outcome: Option<Error>)

  datatype Txn = Txn(
    req: Request, phase: Phase,
    locked: bool,               // holds the advisory lock of req.role
    rowLocked: bool,            // has written the row of req.role and not yet ended
    shared: bool,               // has inserted a row that refers to req.role and not yet ended
    named: bool,                // has entered its new name in the index of names and not yet ended
    org: OrgId,
    held: set<Permission>,      // the actor's permissions, as read
    seen: set<Permission>,      // the role's permissions, as read
    snapshot: Tables,           // where the guarded update, the insert or the delete of assignments began
    failed: Option<Error>,      // a result row that the caller will reject once the batch has run
    minted: Option<RoleId>,     // the new role's generated id
    pending: Delta)             // own writes, visible to others at the commit

  datatype Content = Content(role: RoleId, name: string, perms: set<Permission>)

  datatype State = State(
    t: Tables, sys: Assignments, txns: map<nat, Txn>,
    roleLock: map<RoleId, nat>, rowLock: map<RoleId, nat>,
    knownRoles: set<RoleId>, knownETags: set<ETag>,   // identifiers mentioned or generated so far
    content: map<ETag, Content>)                      // what each committed ETag stood for

  datatype Action =
    | Begin(tid: nat, req: Request)
    | Step(tid: nat, newRole: RoleId, newETag: ETag)
    | Cancel(tid: nat)                                 // the call fails for a reason of its own
    | System(call: Call)
    | CreateOrganization(org: OrgId, creator: UUID, newRole: RoleId, newETag: ETag)   // an organization is created

  // ---- Steps of one transaction -----------------------------------------------------------------

  /** The role that a transaction writes. */
  function Subject(x: Txn): RoleId {
    if x.req.Create? then (if x.minted.Some? then x.minted.value else 0) else x.req.role
  }

  function Fail(x: Txn, e: Error): Txn { x.(phase := RollingBack(e)) }

  function Changed(current: set<Permission>, next: set<Permission>): set<Permission> {
    (current - next) + (next - current)
  }

  /** nextPerms of the two permission edits. */
  function NextPerms(x: Txn): set<Permission> {
    if x.req.Update? then x.req.perms
    else if x.req.Modify? then (x.seen + x.req.add) - x.req.remove
    else x.seen
  }

  function Started(w: World, t: Tables, req: Request): Txn {
    Txn(req, if req.Rename? then UpdateSnapshot else ReadActor, false, false, false, false,
        if req.Rename? then req.org else 0, {}, {}, t, None, None, NO_CHANGE)
  }

  function ActorStep(w: World, t: Tables, sys: Assignments, x: Txn): Txn {
    if x.req.Rename? then x
    else if x.req.actor !in w.env.users || x.req.project !in w.projects then Fail(x, Error.NotFound)
    else
      var org := w.projects[x.req.project];
      var held := if x.req.AssignToProject? || x.req.UnassignFromProject?
                  then ProjectPermissions(w, t, sys, x.req.actor, x.req.project)
                  else OrgPermissions(w, t, sys, x.req.actor, org);
      var x' := x.(org := org, held := held);
      if x.req.Create? then
        if x.req.perms <= held then x'.(phase := Insert) else Fail(x', Error.PermissionDenied)
      else x'.(phase := if LocksRole(x.req) then LockRole else ReadRole)
  }

  function RoleStep(t: Tables, x: Txn): Txn {
    if x.req.Create? || !Owns(t, x.org, x.req.role) then Fail(x, Error.NotFound)
    else
      var x' := x.(seen := RolePermissions(t, x.req.role));
      if (x.req.Update? || x.req.Modify? || x.req.Delete?) && t.roles[x.req.role].managed then Fail(x', ManagedRole)
      else if x.req.Update? || x.req.Modify? then
        if Changed(x'.seen, NextPerms(x')) <= x.held then x'.(phase := CheckScope) else Fail(x', Error.PermissionDenied)
      else if x.req.AssignToProject? && !ProjectScoped(x'.seen) then Fail(x', InvalidAssignmentScope)
      else if !(x'.seen <= x.held) then Fail(x', Error.PermissionDenied)
      else x'.(phase := if x.req.Delete? then DeleteProjectAssignments else Insert)
  }

  function ScopeStep(t: Tables, x: Txn): Txn
    requires !x.req.Create?
  {
    if !ProjectScoped(NextPerms(x)) && HasProjectAssignments(t, x.req.role) then Fail(x, InvalidAssignmentScope)
    else x.(phase := if x.req.Update? then UpdateSnapshot else ModifyRows)
  }

  /** The call gives a role a name. */
  predicate NamesRole(req: Request) { req.Create? || ((req.Update? || req.Rename?) && req.newName.Some?) }

  function WantedName(req: Request): string
    requires NamesRole(req)
  {
    if req.Create? then req.name else req.newName.value
  }

  /** The guarded update of the row. A violated CHECK aborts the batch; a missing or stale row only shows in
      the result, so the statements queued behind it still run before the caller rolls back. */
  function UpdateRoleStep(w: World, t: Tables, x: Txn, newETag: ETag): Txn
    requires x.req.Update? || x.req.Rename?
  {
    var stmt := UpdateRowStatement(w, x.snapshot, t, x.org, x.req.role, x.req.etag, x.req.newName,
                                   if x.req.Update? then Some(x.req.perms) else None, newETag);
    if stmt.error == Some(CheckViolation) then Fail(x, Database(CheckViolation))
    else
      var x' := x.(rowLocked := stmt.error.None?, pending := stmt.delta,
                   failed := if stmt.error.None? then None else Some(Database(stmt.error.value)));
      if stmt.error.None? && NamesRole(x.req) then x'.(phase := IndexName) else AfterRow(x')
  }

  /** What follows the guarded update in its batch. */
  function AfterRow(x: Txn): Txn
    requires x.req.Update? || x.req.Rename?
  {
    if x.req.Update? then x.(phase := DeletePermissions) else EndOfBatch(x)
  }

  /** The second half of a statement that names a role: the row has been written, and its name goes into the
      unique index, which compares it with the committed rows once no other call has a say in the matter. */
  function IndexStep(t: Tables, x: Txn): Txn
    requires NamesRole(x.req)
  {
    if NameTaken(t, x.org, WantedName(x.req), Subject(x)) then Fail(x, Database(UniqueViolation))
    else if x.req.Create? then x.(named := true, phase := Commit)
    else AfterRow(x.(named := true))
  }

  function EndOfBatch(x: Txn): Txn {
    if x.failed.Some? then Fail(x, x.failed.value) else x.(phase := Commit)
  }

  function PermissionRowsStep(w: World, t: Tables, x: Txn): Txn
    requires x.req.Update?
  {
    var view := Apply(t, x.pending);
    if x.phase.DeletePermissions? then
      x.(phase := InsertPermissions,
         pending := x.pending.(permDel := DeletePermissionsStatement(view, x.org, x.req.role).delta.permDel))
    else
      var stmt := InsertPermissionsStatement(w, view, x.req.role, x.req.perms);
      if stmt.error.Some? then Fail(x, if x.failed.Some? then x.failed.value else Database(stmt.error.value))
      else EndOfBatch(x.(pending := x.pending.(permIns := stmt.delta.permIns)))
  }

  /** The modify statement up to its own update of the role row, which may have to wait. */
  function ModifyStep(w: World, t: Tables, x: Txn, newETag: ETag): Txn
    requires x.req.Modify?
  {
    if x.phase.ModifyRows? then
      var stmt := ModifyStatement(w, t, x.org, x.req.role, x.req.etag, x.req.add, x.req.remove, newETag);
      if stmt.error.Some? then Fail(x, Database(stmt.error.value))
      else x.(pending := stmt.delta.(rows := map[]), phase := if stmt.delta.rows == map[] then Commit else TouchRole)
    else
      x.(rowLocked := true, pending := x.pending.(rows := map[x.req.role := UpdateRow(None, newETag)]), phase := Commit)
  }

  function DeleteStep(t: Tables, x: Txn): Txn
    requires x.req.Delete?
  {
    var org, r := x.org, x.req.role;
    match x.phase
    case DeleteProjectAssignments =>
      x.(phase := DeleteOrgAssignments,
         pending := x.pending.(projectDel := DeleteProjectAssignmentsStatement(t, org, r).delta.projectDel))
    case DeleteOrgAssignments =>
      x.(phase := DeleteRolePermissions, snapshot := t,
         pending := x.pending.(orgDel := DeleteOrgAssignmentsStatement(t, org, r).delta.orgDel))
    case DeleteRolePermissions =>
      x.(phase := DeleteRole, pending := x.pending.(permDel := DeletePermissionsStatement(t, org, r).delta.permDel))
    case _ =>
      var stmt := DeleteRoleStatement(Apply(t, x.pending), org, r);
      if stmt.error.Some? then Fail(x, Database(stmt.error.value))
      else x.(rowLocked := true, pending := x.pending.(rows := stmt.delta.rows), phase := Commit)
  }

  /** The statement of an assignment, begun on `snapshot` and completed on `t`. */
  function AssignStatement(w: World, snapshot: Tables, t: Tables, x: Txn): Statement
    requires x.req.AssignToProject? || x.req.AssignToOrg?
  {
    if x.req.AssignToProject? then AssignToProjectStatement(w, snapshot, t, x.req.target, x.req.role, x.req.project)
    else AssignToOrgStatement(w, snapshot, t, x.req.target, x.req.role, x.org)
  }

  /** The statement of an unassignment. */
  function UnassignStatement(w: World, t: Tables, x: Txn): Statement
    requires x.req.UnassignFromProject? || x.req.UnassignFromOrg?
  {
    if x.req.UnassignFromProject? then UnassignFromProjectStatement(w, t, x.req.target, x.req.role, x.req.project)
    else UnassignFromOrgStatement(w, t, x.req.target, x.req.role, x.org)
  }

  function InsertStep(w: World, t: Tables, x: Txn, newRole: RoleId, newETag: ETag): Txn
    requires x.req.Create? || x.req.UnassignFromProject? || x.req.UnassignFromOrg?
  {
    var stmt :=
      if x.req.Create? then CreateRowStatement(w, x.org, x.req.name, false, x.req.perms, newRole, newETag)
      else UnassignStatement(w, t, x);
    if stmt.error.Some? then Fail(x, Database(stmt.error.value))
    else if x.req.Create? then x.(phase := IndexName, pending := stmt.delta, minted := Some(newRole))
    else x.(phase := Commit, pending := stmt.delta)
  }

  /** An assignment in two steps: what its SELECT finds, and the row it inserts. The new row refers to the
      role, so the role's row stays locked against writers until the transaction ends. */
  function AssignStep(w: World, t: Tables, x: Txn): Txn
    requires x.req.AssignToProject? || x.req.AssignToOrg?
  {
    if x.phase.Insert? then
      if AssignStatement(w, t, t, x).error == Some(NoRows) then Fail(x, Database(NoRows))
      else x.(phase := CompleteInsert, snapshot := t)
    else
      var stmt := AssignStatement(w, x.snapshot, t, x);
      if stmt.error.Some? then Fail(x, Database(stmt.error.value))
      else x.(phase := Commit, pending := stmt.delta, shared := true)
  }

  predicate Reading(x: Txn) {
    x.phase.ReadActor? || x.phase.LockRole? || x.phase.ReadRole? || x.phase.CheckScope?
  }

  function ReadStep(w: World, t: Tables, sys: Assignments, x: Txn): Txn
    requires PhaseFits(x)
  {
    match x.phase
    case ReadActor => ActorStep(w, t, sys, x)
    case LockRole => x.(phase := ReadRole, locked := x.req.role in t.roles)
    case ReadRole => RoleStep(t, x)
    case CheckScope => ScopeStep(t, x)
    case _ => x
  }

  function WriteStep(w: World, t: Tables, x: Txn, newRole: RoleId, newETag: ETag): Txn
    requires PhaseFits(x)
  {
    match x.phase
    case UpdateSnapshot => x.(phase := UpdateRole, snapshot := t)
    case UpdateRole => UpdateRoleStep(w, t, x, newETag)
    case IndexName => IndexStep(t, x)
    case DeletePermissions => PermissionRowsStep(w, t, x)
    case InsertPermissions => PermissionRowsStep(w, t, x)
    case ModifyRows => ModifyStep(w, t, x, newETag)
    case TouchRole => ModifyStep(w, t, x, newETag)
    case DeleteProjectAssignments => DeleteStep(t, x)
    case DeleteOrgAssignments => DeleteStep(t, x)
    case DeleteRolePermissions => DeleteStep(t, x)
    case DeleteRole => DeleteStep(t, x)
    case Insert => if Assigns(x.req) then AssignStep(w, t, x) else InsertStep(w, t, x, newRole, newETag)
    case CompleteInsert => AssignStep(w, t, x)
    case _ => x
  }

  /** One round trip of a transaction that ends neither in a commit nor in a rollback. */
  function Advance(w: World, t: Tables, sys: Assignments, x: Txn, newRole: RoleId, newETag: ETag): Txn
    requires PhaseFits(x)
  {
    if Reading(x) then ReadStep(w, t, sys, x) else WriteStep(w, t, x, newRole, newETag)
  }

  predicate PhaseFits(x: Txn) {
    match x.phase
    case ReadActor => !x.req.Rename?
    case LockRole => LocksRole(x.req)
    case ReadRole => !x.req.Create? && !x.req.Rename?
    case CheckScope => x.req.Update? || x.req.Modify?
    case UpdateSnapshot => x.req.Update? || x.req.Rename?
    case UpdateRole => x.req.Update? || x.req.Rename?
    case IndexName => NamesRole(x.req)
    case DeletePermissions => x.req.Update?
    case InsertPermissions => x.req.Update?
    case ModifyRows => x.req.Modify?
    case TouchRole => x.req.Modify?
    case DeleteProjectAssignments => x.req.Delete?
    case DeleteOrgAssignments => x.req.Delete?
    case DeleteRolePermissions => x.req.Delete?
    case DeleteRole => x.req.Delete?
    case CompleteInsert => Assigns(x.req)
    case Insert => x.req.Create? || Assigns(x.req) || Unassigns(x.req)
    case _ => true
  }

  // ---- The system -------------------------------------------------------------------------------

  /** The step has to write the role row, so it waits while another transaction has it written or has
      inserted a row that refers to it. (Every such write renews the ETag, which is a key of the row.) */
  predicate WritesRoleRow(x: Txn) {
    || (x.phase.UpdateRole? && (x.req.Update? || x.req.Rename?)
        && Owns(x.snapshot, x.org, x.req.role) && x.snapshot.roles[x.req.role].etag == x.req.etag)
    || x.phase.TouchRole?
    || x.phase.DeleteRole?
  }

  /** The step has to make sure that the role row stays, so it waits while another transaction has it
      written. */
  predicate SharesRoleRow(w: World, t: Tables, x: Txn) {
    x.phase.CompleteInsert? && Assigns(x.req) && AssignStatement(w, x.snapshot, t, x).error.None?
  }

  /** The assignment rows that have to be locked before the next step: the row of an insert or unassignment, or
      those that the delete before it has found. */
  function WantedRows(w: World, t: Tables, x: Txn): Delta {
    if x.phase.CompleteInsert? && Assigns(x.req) then
      if x.req.AssignToProject? then
        NO_CHANGE.(projectIns := {ProjectAssignment(x.req.target, x.req.project, x.req.role)})
      else NO_CHANGE.(orgIns := {OrgAssignment(x.req.target, x.org, x.req.role)})
    else if x.phase.Insert? && Unassigns(x.req) then UnassignStatement(w, t, x).delta
    else if x.phase.DeleteOrgAssignments? || x.phase.DeleteRolePermissions? then
      NO_CHANGE.(projectDel := x.pending.projectDel, orgDel := x.pending.orgDel)
    else NO_CHANGE
  }

  /** Assignment rows that `y` has inserted or deleted stay locked until it ends. */
  predicate RowsFree(wanted: Delta, y: Txn) {
    y.phase.Done? ||
      (&& (wanted.projectIns + wanted.projectDel) !! (y.pending.projectIns + y.pending.projectDel)
       && (wanted.orgIns + wanted.orgDel) !! (y.pending.orgIns + y.pending.orgDel))
  }

  /** While `y` is unfinished nobody else can tell whether the organization has a role of this name: `y` has
      written the role that has the name, or has entered the name for another. */
  predicate HoldsName(t: Tables, y: Txn, org: OrgId, name: string) {
    && !y.phase.Done?
    && ((y.named && NamesRole(y.req) && y.org == org && Lower(WantedName(y.req)) == Lower(name))
        || (y.rowLocked && !y.req.Create? && Owns(t, org, y.req.role)
            && Lower(t.roles[y.req.role].name) == Lower(name)))
  }

  /** No other transaction holds a row that the next step of `tid` has to lock. */
  predicate Unblocked(w: World, s: State, tid: nat)
    requires tid in s.txns
  {
    var x := s.txns[tid];
    && (x.phase.LockRole? && !x.req.Create? ==> x.req.role !in s.t.roles || x.req.role !in s.roleLock)
    && (WritesRoleRow(x) && !x.req.Create? ==>
          && x.req.role !in s.rowLock
          && forall j :: j in s.txns && s.txns[j].shared && !s.txns[j].req.Create? ==> s.txns[j].req.role != x.req.role)
    && (SharesRoleRow(w, s.t, x) ==> x.req.role !in s.rowLock)
    && (forall j :: j in s.txns && j != tid ==> RowsFree(WantedRows(w, s.t, x), s.txns[j]))
    && (x.phase.IndexName? && NamesRole(x.req) ==>
          forall j :: j in s.txns && j != tid ==> !HoldsName(s.t, s.txns[j], x.org, WantedName(x.req)))
  }

  predicate Enabled(w: World, s: State, a: Action) {
    match a
    case Begin(tid, req) =>
      && tid !in s.txns && Validated(req)
      // A generated id is known to nobody before its role is committed.
      && (req.Create? || forall i :: i in s.txns && s.txns[i].minted == Some(req.role) ==> s.txns[i].phase.Done?)
    case Step(tid, newRole, newETag) =>
      && tid in s.txns && !s.txns[tid].phase.Done? && PhaseFits(s.txns[tid])
      && newRole !in s.knownRoles && newETag !in s.knownETags
      && Unblocked(w, s, tid)
    case Cancel(tid) => tid in s.txns && !s.txns[tid].phase.Done? && !s.txns[tid].phase.RollingBack?
    case System(call) => !call.Bootstrap?
    case CreateOrganization(org, creator, newRole, newETag) =>
      && newRole !in s.knownRoles && newETag !in s.knownETags
      && creator in w.env.users && (creator, org) in w.members
      && CreateStatement(w, s.t, org, ADMINISTRATOR_NAME, true, ToSet(OrganizationAdminPermissions()), newRole,
                         newETag).error.None?
      && (forall j :: j in s.txns ==> !HoldsName(s.t, s.txns[j], org, ADMINISTRATOR_NAME))
  }

  function Without(locks: map<RoleId, nat>, tid: nat): map<RoleId, nat> {
    map r | r in locks && locks[r] != tid :: locks[r]
  }

  function Finish(s: State, tid: nat, error: Option<Error>): State
    requires tid in s.txns
  {
    var x := s.txns[tid];
    var ended := x.(phase := Done(error), locked := false, rowLocked := false, shared := false, named := false);
    s.(txns := s.txns[tid := ended],
       roleLock := Without(s.roleLock, tid), rowLock := Without(s.rowLock, tid))
  }

  /** What the ETag that a commit writes stands for from now on. */
  function NewContent(t: Tables, d: Delta, r: RoleId): map<ETag, Content> {
    var t' := Apply(t, d);
    if r in d.rows && r in t'.roles then map[t'.roles[r].etag := Content(r, t'.roles[r].name, RolePermissions(t', r))]
    else map[]
  }

  function AdvanceTxn(w: World, s: State, tid: nat, newRole: RoleId, newETag: ETag): State
    requires tid in s.txns && PhaseFits(s.txns[tid])
  {
    var x := s.txns[tid];
    var x' := Advance(w, s.t, s.sys, x, newRole, newETag);
    s.(txns := s.txns[tid := x'],
       roleLock := if x'.locked && !x.locked && !x.req.Create? then s.roleLock[x.req.role := tid] else s.roleLock,
       rowLock := if x'.rowLocked && !x.rowLocked && !x.req.Create? then s.rowLock[x.req.role := tid] else s.rowLock)
  }

  ghost function Next(w: World, s: State, a: Action): State
    requires Enabled(w, s, a)
  {
    match a
    case Begin(tid, req) =>
      s.(txns := s.txns[tid := Started(w, s.t, req)],
         knownRoles := s.knownRoles + if req.Create? then {} else {req.role})
    case System(call) => s.(sys := Atomic(w.env, s.sys, call).0)
    case Cancel(tid) => s.(txns := s.txns[tid := Fail(s.txns[tid], Cancelled)])
    case CreateOrganization(org, creator, newRole, newETag) =>
      var d := BootstrapRows(org, creator, newRole, newETag);
      s.(t := Apply(s.t, d), content := s.content + NewContent(s.t, d, newRole),
         knownRoles := s.knownRoles + {newRole}, knownETags := s.knownETags + {newETag})
    case Step(tid, newRole, newETag) =>
      var x := s.txns[tid];
      var s' :=
        match x.phase
        case Commit =>
          Finish(s, tid, None).(t := Apply(s.t, x.pending),
                                content := s.content + NewContent(s.t, x.pending, Subject(x)))
        case RollingBack(e) => Finish(s, tid, Some(e))
        case _ => AdvanceTxn(w, s, tid, newRole, newETag);
      s'.(knownRoles := s.knownRoles + {newRole}, knownETags := s.knownETags + {newETag})
  }

  ghost function Run(w: World, s: State, actions: seq<Action>): State
    decreases |actions|
  {
    if actions == [] then s
    else Run(w, if Enabled(w, s, actions[0]) then Next(w, s, actions[0]) else s, actions[1..])
  }
}
