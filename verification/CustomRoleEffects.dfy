/** What the end of a call does to the committed tables, row by row, whatever runs beside it. */
module CustomRoleEffects {
  import opened Permissions
  import opened SystemRoles
  import opened CustomRoleTables
  import opened CustomRoleProtocol
  import opened CustomRoleInvariants
  import CustomRoleAuthority
  import CustomRoleForeignKeys

  /** The row of the role is another one: with the new name, if there is one, and an ETag. */
  ghost predicate Renewed(t: Tables, t': Tables, r: RoleId, name: Option<string>) {
    && r in t.roles && r in t'.roles && t'.roles == t.roles[r := t'.roles[r]]
    && t'.roles[r] ==
       t.roles[r].(name := if name.Some? then name.value else t.roles[r].name, etag := t'.roles[r].etag)
  }

  /** The role has the permission and it is to be removed, or has not and it is to be added. */
  ghost predicate Turns(t: Tables, req: Request, p: Permission)
    requires req.Modify?
  {
    (p in req.add && (req.role, p) !in t.rolePerms) || (p in req.remove && (req.role, p) in t.rolePerms)
  }

  ghost predicate Edits(t: Tables, req: Request)
    requires req.Modify?
  {
    exists p :: Turns(t, req, p)
  }

  /** The roles: one more with the requested name, one with a new name or ETag, one less, or the same. */
  ghost predicate RolesMove(t: Tables, t': Tables, x: Txn) {
    match x.req
    case Create(_, _, name, _) =>
      && x.minted.Some? && x.minted.value !in t.roles && x.minted.value in t'.roles
      && t'.roles == t.roles[x.minted.value := Role(x.org, name, false, t'.roles[x.minted.value].etag)]
    case Update(_, _, r, _, name, _) => Renewed(t, t', r, name)
    case Rename(_, r, _, name) => Renewed(t, t', r, name)
    case Modify(_, _, r, _, _, _) => if Edits(t, x.req) then Renewed(t, t', r, None) else t'.roles == t.roles
    case Delete(_, _, r) => r in t.roles && t'.roles == t.roles - {r}
    case _ => t'.roles == t.roles
  }

  /** The role has the permission after the call. */
  ghost predicate HasNext(t: Tables, x: Txn, r: RoleId, p: Permission) {
    match x.req
    case Create(_, _, _, perms) => (r, p) in t.rolePerms || (x.minted == Some(r) && p in perms)
    case Update(_, _, role, _, _, perms) => if r == role then p in perms else (r, p) in t.rolePerms
    case Modify(_, _, role, _, add, remove) =>
      ((r, p) in t.rolePerms || (r == role && p in add)) && !(r == role && p in remove)
    case Delete(_, _, role) => (r, p) in t.rolePerms && r != role
    case _ => (r, p) in t.rolePerms
  }

  /** The permissions of roles. */
  ghost predicate PermissionsMove(t: Tables, t': Tables, x: Txn) {
    forall r: RoleId, p :: (r, p) in t'.rolePerms <==> HasNext(t, x, r, p)
  }

  /** Exactly the assignments of the role are gone. */
  ghost predicate NoneLeft(t: Tables, t': Tables, r: RoleId) {
    && (forall a :: a in t'.projectAssignments <==> a in t.projectAssignments && a.role != r)
    && (forall a :: a in t'.orgAssignments <==> a in t.orgAssignments && a.role != r)
  }

  /** The assignments. */
  ghost predicate AssignmentsMove(w: World, t: Tables, t': Tables, x: Txn) {
    match x.req
    case AssignToProject(_, project, target, r) =>
      && t'.projectAssignments == t.projectAssignments + {ProjectAssignment(target, project, r)}
      && t'.orgAssignments == t.orgAssignments
    case UnassignFromProject(_, project, target, r) =>
      && t'.projectAssignments == t.projectAssignments - {ProjectAssignment(target, project, r)}
      && t'.orgAssignments == t.orgAssignments
    case AssignToOrg(_, project, target, r) =>
      && t'.projectAssignments == t.projectAssignments && project in w.projects
      && t'.orgAssignments == t.orgAssignments + {OrgAssignment(target, w.projects[project], r)}
    case UnassignFromOrg(_, project, target, r) =>
      && t'.projectAssignments == t.projectAssignments && project in w.projects
      && t'.orgAssignments == t.orgAssignments - {OrgAssignment(target, w.projects[project], r)}
    case Delete(_, _, r) => NoneLeft(t, t', r)
    case _ => t'.projectAssignments == t.projectAssignments && t'.orgAssignments == t.orgAssignments
  }

  lemma CommitMovesRoles(w: World, t: Tables, x: Txn)
    requires TxnInv(w, t, x) && x.phase.Commit?
    requires x.req.Create? ==> Subject(x) !in t.roles
    ensures RolesMove(t, Apply(t, x.pending), x)
  {
    var t' := Apply(t, x.pending);
    match x.req
    case Create(_, _, name, _) =>
      var role := x.pending.rows[x.minted.value].role;
      assert t'.roles == t.roles[x.minted.value := Role(x.org, name, false, role.etag)];
    case Update(_, _, r, _, _, _) => RowMoves(t, x.pending, r);
    case Rename(_, r, _, _) => RowMoves(t, x.pending, r);
    case Modify(_, _, r, _, _, _) =>
      ModifyMoves(t, x);
      if r in x.pending.rows { RowMoves(t, x.pending, r); }
    case _ =>
  }

  lemma RowMoves(t: Tables, d: Delta, r: RoleId)
    requires r in t.roles && d.rows.Keys == {r} && d.rows[r].UpdateRow?
    ensures Renewed(t, Apply(t, d), r, d.rows[r].name)
  {
    var write := d.rows[r];
    assert Apply(t, d).roles ==
      t.roles[r := t.roles[r].(name := if write.name.Some? then write.name.value else t.roles[r].name,
                               etag := write.etag)];
  }

  /** Under the role lock, what a modification read is what the role still has. */
  lemma ModifyMoves(t: Tables, x: Txn)
    requires x.req.Modify? && x.req.add !! x.req.remove && RolePermissions(t, x.req.role) == x.seen
    ensures NextPerms(x) != x.seen <==> Edits(t, x.req)
  {
    var r := x.req.role;
    forall p ensures p in x.seen <==> (r, p) in t.rolePerms {
      if (r, p) in t.rolePerms { assert (r, p).0 == r && (r, p).1 == p; }
    }
    if p :| Turns(t, x.req, p) { assert (p in NextPerms(x)) != (p in x.seen); }
    if NextPerms(x) != x.seen {
      var p :| (p in NextPerms(x)) != (p in x.seen);
      assert Turns(t, x.req, p);
    }
  }

  lemma CommitMovesPermissions(w: World, t: Tables, x: Txn)
    requires TxnInv(w, t, x) && x.phase.Commit?
    ensures PermissionsMove(t, Apply(t, x.pending), x)
  {
    if LocksRole(x.req) {
      forall p ensures p in x.seen <==> (x.req.role, p) in t.rolePerms {
        if (x.req.role, p) in t.rolePerms { assert (x.req.role, p).0 == x.req.role && (x.req.role, p).1 == p; }
      }
    }
  }

  lemma CommitMovesAssignments(w: World, t: Tables, x: Txn)
    requires TxnInv(w, t, x) && x.phase.Commit?
    requires !x.req.Create? ==> CustomRoleForeignKeys.TxnKeys(t, x)
    ensures AssignmentsMove(w, t, Apply(t, x.pending), x)
  {
  }

  /** Call `tid` takes a step: its commit writes the rows that were asked for and no others, and it ends in
      success; the end of a failed call writes nothing and reports its error; other steps write nothing. */
  ghost predicate Settles(w: World, s: State, s': State, tid: nat) {
    && tid in s.txns && tid in s'.txns
    && var x, x' := s.txns[tid], s'.txns[tid];
       if x.phase.Commit? then
         && x'.phase == Done(None)
         && RolesMove(s.t, s'.t, x) && PermissionsMove(s.t, s'.t, x) && AssignmentsMove(w, s.t, s'.t, x)
       else s'.t == s.t && (x.phase.RollingBack? ==> x'.phase == Done(Some(x.phase.error)))
  }

  /** So does every step in every reachable state. */
  lemma CallsTakeEffect(w: World, s: State, actions: seq<Action>, a: Action)
    requires CustomRoleAuthority.Initial(w, s) && a.Step? && Enabled(w, Run(w, s, actions), a)
    ensures Settles(w, Run(w, s, actions), Next(w, Run(w, s, actions), a), a.tid)
  {
    CustomRoleForeignKeys.RunKeepsKeys(w, s, actions);
    StepSettles(w, Run(w, s, actions), a);
  }

  lemma StepSettles(w: World, s: State, a: Action)
    requires Inv(w, s) && CustomRoleForeignKeys.KeysInv(w, s) && a.Step? && Enabled(w, s, a)
    ensures Settles(w, s, Next(w, s, a), a.tid)
  {
    var x := s.txns[a.tid];
    StepWrites(w, s, a);
    if x.phase.Commit? {
      InvReady(w, s, a.tid);
      CommitMovesRoles(w, s.t, x);
      CommitMovesPermissions(w, s.t, x);
      CommitMovesAssignments(w, s.t, x);
    }
  }

  lemma StepWrites(w: World, s: State, a: Action)
    requires a.Step? && Enabled(w, s, a)
    ensures var s', x := Next(w, s, a), s.txns[a.tid];
      && a.tid in s'.txns
      && s'.t == (if x.phase.Commit? then Apply(s.t, x.pending) else s.t)
      && (x.phase.Commit? ==> s'.txns[a.tid].phase == Done(None))
      && (x.phase.RollingBack? ==> s'.txns[a.tid].phase == Done(Some(x.phase.error)))
  {
  }
}
