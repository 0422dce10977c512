/** A call that no other call disturbs: the protocol's step program does exactly what CustomRoleSpec says
    and the code's methods (CustomRoleOperations) do, and every call takes a bounded number of steps. */
module CustomRoleAlone {
  import opened Permissions
  import opened SystemRoles
  import opened CustomRoleTables
  import opened CustomRoleProtocol
  import opened CustomRoleInvariants
  import opened CustomRoleSpec

  predicate Settled(x: Txn) { x.phase.Commit? || x.phase.RollingBack? || x.phase.Done? }

  function StepsLeft(phase: Phase): nat {
    match phase
    case ReadActor => 9
    case LockRole => 8
    case ReadRole => 7
    case CheckScope => 6
    case UpdateSnapshot => 5
    case UpdateRole => 4
    case IndexName => 3
    case DeletePermissions => 2
    case InsertPermissions => 1
    case ModifyRows => 2
    case TouchRole => 1
    case DeleteProjectAssignments => 4
    case DeleteOrgAssignments => 3
    case DeleteRolePermissions => 2
    case DeleteRole => 1
    case Insert => 4
    case CompleteInsert => 1
    case _ => 0
  }

  lemma ActorDescends(w: World, t: Tables, sys: Assignments, x: Txn)
    requires !x.req.Rename?
    ensures var phase := ActorStep(w, t, sys, x).phase;
      phase.RollingBack? || phase.Insert? || phase.LockRole? || phase.ReadRole?
  {
  }

  lemma RoleDescends(t: Tables, x: Txn)
    ensures var phase := RoleStep(t, x).phase;
      phase.RollingBack? || phase.CheckScope? || phase.DeleteProjectAssignments? || phase.Insert?
  {
  }

  lemma ReadDescends(w: World, t: Tables, sys: Assignments, x: Txn)
    requires PhaseFits(x) && Reading(x)
    ensures StepsLeft(ReadStep(w, t, sys, x).phase) < StepsLeft(x.phase) && !ReadStep(w, t, sys, x).phase.Done?
  {
    if x.phase.ReadActor? {
      ActorDescends(w, t, sys, x);
    } else if x.phase.ReadRole? {
      RoleDescends(t, x);
    }
  }

  lemma InsertDescends(w: World, t: Tables, x: Txn, newRole: RoleId, newETag: ETag)
    requires PhaseFits(x)
    ensures x.phase.Insert? && !Assigns(x.req) ==>
      var phase := InsertStep(w, t, x, newRole, newETag).phase;
      phase.RollingBack? || phase.Commit? || phase.IndexName?
    ensures Assigns(x.req) ==>
      var phase := AssignStep(w, t, x).phase;
      phase.RollingBack? || (if x.phase.Insert? then phase.CompleteInsert? else phase.Commit?)
  {
  }

  lemma UpdateDescends(w: World, t: Tables, x: Txn, newETag: ETag)
    requires PhaseFits(x)
    ensures x.phase.UpdateRole? ==>
      var phase := UpdateRoleStep(w, t, x, newETag).phase;
      phase.RollingBack? || phase.IndexName? || phase.DeletePermissions? || phase.Commit?
    ensures x.phase.IndexName? ==>
      var phase := IndexStep(t, x).phase;
      phase.RollingBack? || phase.DeletePermissions? || phase.Commit?
    ensures x.phase.ModifyRows? || x.phase.TouchRole? ==>
      var phase := ModifyStep(w, t, x, newETag).phase;
      phase.RollingBack? || phase.Commit? || (x.phase.ModifyRows? && phase.TouchRole?)
    ensures x.phase.DeletePermissions? ==> PermissionRowsStep(w, t, x).phase.InsertPermissions?
    ensures x.phase.InsertPermissions? ==>
      var phase := PermissionRowsStep(w, t, x).phase;
      phase.RollingBack? || phase.Commit?
  {
  }

  lemma DeleteDescends(t: Tables, x: Txn)
    requires x.req.Delete?
    ensures var phase := DeleteStep(t, x).phase;
      match x.phase
      case DeleteProjectAssignments => phase.DeleteOrgAssignments?
      case DeleteOrgAssignments => phase.DeleteRolePermissions?
      case DeleteRolePermissions => phase.DeleteRole?
      case _ => phase.RollingBack? || phase.Commit?
  {
  }

  lemma WriteDescends(w: World, t: Tables, x: Txn, newRole: RoleId, newETag: ETag)
    requires PhaseFits(x) && !Reading(x) && !Settled(x)
    ensures StepsLeft(WriteStep(w, t, x, newRole, newETag).phase) < StepsLeft(x.phase)
    ensures !WriteStep(w, t, x, newRole, newETag).phase.Done?
  {
    if x.phase.Insert? || x.phase.CompleteInsert? {
      InsertDescends(w, t, x, newRole, newETag);
    } else if x.req.Delete? {
      DeleteDescends(t, x);
    } else {
      UpdateDescends(w, t, x, newETag);
    }
  }

  /** Whatever the tables hold at each step, a call settles after at most nine steps of its own. */
  lemma AdvanceDescends(w: World, t: Tables, sys: Assignments, x: Txn, newRole: RoleId, newETag: ETag)
    requires PhaseFits(x) && !Settled(x)
    ensures StepsLeft(Advance(w, t, sys, x, newRole, newETag).phase) < StepsLeft(x.phase)
    ensures !Advance(w, t, sys, x, newRole, newETag).phase.Done?
  {
    if Reading(x) {
      ReadDescends(w, t, sys, x);
    } else {
      WriteDescends(w, t, x, newRole, newETag);
    }
  }

  ghost function Alone(w: World, t: Tables, sys: Assignments, x: Txn, newRole: RoleId, newETag: ETag): Txn
    requires TxnInv(w, t, x)
    decreases StepsLeft(x.phase)
  {
    if Settled(x) then x
    else
      AdvanceInv(w, t, sys, x, newRole, newETag);
      AdvanceDescends(w, t, sys, x, newRole, newETag);
      Alone(w, t, sys, Advance(w, t, sys, x, newRole, newETag), newRole, newETag)
  }

  function ErrorOf(req: Request, e: CustomRoleProtocol.Error): CoreError {
    match e
    case NotFound => CoreError.Missing
    case ManagedRole => CoreError.Managed
    case PermissionDenied => CoreError.Denied
    case InvalidAssignmentScope => CoreError.WrongScope
    case Database(error) => CoreErrorOf(req, error)
    case Cancelled => CoreError.Internal
  }

  ghost predicate Failing(w: World, t: Tables, sys: Assignments, x: Txn, e: CustomRoleProtocol.Error) {
    Verdict(w, t, sys, x.req) == Failure(ErrorOf(x.req, e))
  }

  /** The actor has been read. */
  ghost predicate ActorKnown(w: World, t: Tables, sys: Assignments, x: Txn) {
    && !x.req.Rename? && x.req.actor in w.env.users && x.req.project in w.projects
    && x.org == w.projects[x.req.project] && x.held == Held(w, t, sys, x.req)
  }

  /** The role has been read, and the tests on it have passed. */
  ghost predicate RoleChecked(w: World, t: Tables, sys: Assignments, x: Txn) {
    && ActorKnown(w, t, sys, x) && !x.req.Create?
    && Owns(t, x.org, x.req.role) && x.seen == RolePermissions(t, x.req.role)
    && (x.req.Update? || x.req.Modify? || x.req.Delete? ==> !t.roles[x.req.role].managed)
    && (x.req.AssignToProject? ==> ProjectScoped(x.seen))
    && (if x.req.Update? || x.req.Modify? then Changed(x.seen, NextPerms(x)) <= x.held else x.seen <= x.held)
  }

  ghost predicate EditChecked(w: World, t: Tables, sys: Assignments, x: Txn) {
    x.req.Rename? || (RoleChecked(w, t, sys, x)
                      && (ProjectScoped(NextPerms(x)) || !HasProjectAssignments(t, x.req.role)))
  }

  /** Only the name is left to decide. */
  ghost predicate Indexing(w: World, t: Tables, sys: Assignments, x: Txn) {
    && NamesRole(x.req)
    && (x.req.Create? ==> ActorKnown(w, t, sys, x) && x.req.perms <= x.held && x.minted.Some? && Subject(x) !in t.roles)
    && (!x.req.Create? ==>
          && EditChecked(w, t, sys, x) && Owns(t, x.org, x.req.role) && t.roles[x.req.role].etag == x.req.etag)
  }

  /** How far the verdict is settled, phase by phase. */
  ghost predicate OnTrack(w: World, t: Tables, sys: Assignments, x: Txn) {
    && ValidRequest(x.req) && (x.req.Rename? ==> x.org == x.req.org)
    && match x.phase
       case ReadActor => true
       case LockRole => ActorKnown(w, t, sys, x)
       case ReadRole => ActorKnown(w, t, sys, x)
       case CheckScope => RoleChecked(w, t, sys, x)
       case UpdateSnapshot => EditChecked(w, t, sys, x)
       case UpdateRole => EditChecked(w, t, sys, x) && x.snapshot == t
       case IndexName => Indexing(w, t, sys, x)
       case DeletePermissions =>
         if x.failed.Some? then Failing(w, t, sys, x, x.failed.value) else Verdict(w, t, sys, x.req) == Success
       case InsertPermissions =>
         if x.failed.Some? then Failing(w, t, sys, x, x.failed.value) else Verdict(w, t, sys, x.req) == Success
       case ModifyRows => EditChecked(w, t, sys, x)
       case CompleteInsert => RoleChecked(w, t, sys, x) && x.snapshot == t
       case Insert =>
         if x.req.Create? then ActorKnown(w, t, sys, x) && x.req.perms <= x.held else RoleChecked(w, t, sys, x)
       case RollingBack(e) => Failing(w, t, sys, x, e)
       case _ => Verdict(w, t, sys, x.req) == Success
  }

  lemma ActorStaysOnTrack(w: World, t: Tables, sys: Assignments, x: Txn)
    requires TxnInv(w, t, x) && OnTrack(w, t, sys, x) && x.phase.ReadActor?
    ensures OnTrack(w, t, sys, ActorStep(w, t, sys, x))
  {
  }

  /** With the actor known, the verdict is that of the role, read with what the actor holds. */
  lemma VerdictSoFar(w: World, t: Tables, sys: Assignments, x: Txn)
    requires ValidRequest(x.req) && ActorKnown(w, t, sys, x)
    ensures x.req.Update? || x.req.Modify? ==> Verdict(w, t, sys, x.req) == EditVerdict(w, t, x.held, x.org, x.req)
    ensures Assigns(x.req) || Unassigns(x.req) ==>
      Verdict(w, t, sys, x.req) == AssignmentVerdict(w, t, x.held, x.org, x.req)
  {
  }

  lemma RoleStepKeepsActor(w: World, t: Tables, sys: Assignments, x: Txn)
    requires ActorKnown(w, t, sys, x)
    ensures var x' := RoleStep(t, x);
      x'.req == x.req && x'.org == x.org && x'.held == x.held && ActorKnown(w, t, sys, x')
  {
  }

  lemma EditedRoleFails(w: World, t: Tables, x: Txn)
    requires (x.req.Update? || x.req.Modify?) && RoleStep(t, x).phase.RollingBack?
    ensures EditVerdict(w, t, x.held, x.org, x.req) == Failure(ErrorOf(x.req, RoleStep(t, x).phase.error))
  {
  }

  lemma EditedRoleStaysOnTrack(w: World, t: Tables, sys: Assignments, x: Txn)
    requires PhaseFits(x) && OnTrack(w, t, sys, x) && x.phase.ReadRole? && (x.req.Update? || x.req.Modify?)
    ensures OnTrack(w, t, sys, RoleStep(t, x))
  {
    VerdictSoFar(w, t, sys, x);
    RoleStepKeepsActor(w, t, sys, x);
    if RoleStep(t, x).phase.RollingBack? { EditedRoleFails(w, t, x); }
  }

  lemma DeletedRoleFails(w: World, t: Tables, sys: Assignments, x: Txn)
    requires ValidRequest(x.req) && ActorKnown(w, t, sys, x) && x.req.Delete? && RoleStep(t, x).phase.RollingBack?
    ensures Failing(w, t, sys, x, RoleStep(t, x).phase.error)
  {
  }

  lemma DeletedRoleStaysOnTrack(w: World, t: Tables, sys: Assignments, x: Txn)
    requires PhaseFits(x) && OnTrack(w, t, sys, x) && x.phase.ReadRole? && x.req.Delete?
    ensures OnTrack(w, t, sys, RoleStep(t, x))
  {
    RoleStepKeepsActor(w, t, sys, x);
    if RoleStep(t, x).phase.RollingBack? {
      DeletedRoleFails(w, t, sys, x);
    } else {
      DeletedRoleSucceeds(w, t, sys, x);
    }
  }

  lemma DeletedRoleSucceeds(w: World, t: Tables, sys: Assignments, x: Txn)
    requires ValidRequest(x.req) && ActorKnown(w, t, sys, x) && x.req.Delete? && !RoleStep(t, x).phase.RollingBack?
    ensures Verdict(w, t, sys, x.req) == Success
  {
  }

  lemma AssignedRoleFails(w: World, t: Tables, x: Txn)
    requires (Assigns(x.req) || Unassigns(x.req)) && RoleStep(t, x).phase.RollingBack?
    ensures AssignmentVerdict(w, t, x.held, x.org, x.req) == Failure(ErrorOf(x.req, RoleStep(t, x).phase.error))
  {
  }

  lemma AssignedRolePasses(w: World, t: Tables, sys: Assignments, x: Txn)
    requires ActorKnown(w, t, sys, x) && (Assigns(x.req) || Unassigns(x.req)) && !RoleStep(t, x).phase.RollingBack?
    ensures RoleStep(t, x).phase.Insert? && RoleChecked(w, t, sys, RoleStep(t, x))
  {
    RoleStepKeepsActor(w, t, sys, x);
  }

  lemma AssignedRoleStaysOnTrack(w: World, t: Tables, sys: Assignments, x: Txn)
    requires PhaseFits(x) && OnTrack(w, t, sys, x) && x.phase.ReadRole? && (Assigns(x.req) || Unassigns(x.req))
    ensures OnTrack(w, t, sys, RoleStep(t, x))
  {
    VerdictSoFar(w, t, sys, x);
    RoleStepKeepsActor(w, t, sys, x);
    if RoleStep(t, x).phase.RollingBack? {
      AssignedRoleFails(w, t, x);
    } else {
      AssignedRolePasses(w, t, sys, x);
    }
  }

  lemma EditRegistered(w: World, t: Tables, sys: Assignments, x: Txn)
    requires Consistent(w, t) && RoleChecked(w, t, sys, x) && (x.req.Update? || x.req.Modify?)
    ensures NextPerms(x) <= w.env.registry
  {
    forall p | p in NextPerms(x) ensures p in w.env.registry {
      if p !in x.seen { assert p in Changed(x.seen, NextPerms(x)); }
    }
  }

  lemma UpdateStaysOnTrack(w: World, t: Tables, sys: Assignments, x: Txn, newETag: ETag)
    requires Consistent(w, t) && TxnInv(w, t, x) && OnTrack(w, t, sys, x) && x.phase.UpdateRole?
    ensures OnTrack(w, t, sys, UpdateRoleStep(w, t, x, newETag))
  {
    if x.req.Update? { EditRegistered(w, t, sys, x); }
  }

  lemma IndexStaysOnTrack(w: World, t: Tables, sys: Assignments, x: Txn)
    requires TxnInv(w, t, x) && OnTrack(w, t, sys, x) && x.phase.IndexName?
    ensures OnTrack(w, t, sys, IndexStep(t, x))
  {
  }

  lemma ModifyStaysOnTrack(w: World, t: Tables, sys: Assignments, x: Txn, newETag: ETag)
    requires Consistent(w, t) && TxnInv(w, t, x) && OnTrack(w, t, sys, x) && (x.phase.ModifyRows? || x.phase.TouchRole?)
    ensures OnTrack(w, t, sys, ModifyStep(w, t, x, newETag))
  {
    if x.phase.ModifyRows? {
      EditRegistered(w, t, sys, x);
      assert forall p :: p in x.req.add ==> p in NextPerms(x);
    }
  }

  lemma InsertStaysOnTrack(w: World, t: Tables, sys: Assignments, x: Txn, newRole: RoleId, newETag: ETag)
    requires Consistent(w, t) && TxnInv(w, t, x) && OnTrack(w, t, sys, x) && x.phase.Insert? && newRole !in t.roles
    requires !Assigns(x.req)
    ensures OnTrack(w, t, sys, InsertStep(w, t, x, newRole, newETag))
  {
  }

  lemma AssignStaysOnTrack(w: World, t: Tables, sys: Assignments, x: Txn)
    requires TxnInv(w, t, x) && OnTrack(w, t, sys, x) && Assigns(x.req) && (x.phase.Insert? || x.phase.CompleteInsert?)
    ensures OnTrack(w, t, sys, AssignStep(w, t, x))
  {
  }

  lemma DeletedRowsStayOnTrack(w: World, t: Tables, sys: Assignments, x: Txn)
    requires TxnInv(w, t, x) && OnTrack(w, t, sys, x) && x.phase.DeletePermissions?
    ensures OnTrack(w, t, sys, PermissionRowsStep(w, t, x))
  {
  }

  lemma InsertedRowsStayOnTrack(w: World, t: Tables, sys: Assignments, x: Txn)
    requires TxnInv(w, t, x) && OnTrack(w, t, sys, x) && x.phase.InsertPermissions?
    ensures OnTrack(w, t, sys, PermissionRowsStep(w, t, x))
  {
    if x.failed.None? {
      PermissionsAfter(t, x.pending, x.req.role);
      assert RolePermissions(Apply(t, x.pending), x.req.role) == {};
    }
  }

  /** Generated ids come from the step that writes them, and a delete has collected every assignment. */
  ghost predicate Exact(t: Tables, x: Txn, newRole: RoleId, newETag: ETag) {
    && (x.minted.Some? ==> x.minted == Some(newRole))
    && (forall r :: r in x.pending.rows ==>
          match x.pending.rows[r]
          case InsertRow(role) => role.etag == newETag
          case UpdateRow(_, etag) => etag == newETag
          case DeleteRow => true)
    && (x.req.Delete? && AfterRead(x) && !x.phase.DeleteProjectAssignments? ==>
          && x.pending.projectDel == (set a | a in t.projectAssignments && a.role == x.req.role)
          && (!x.phase.DeleteOrgAssignments? ==>
              x.pending.orgDel == set a | a in t.orgAssignments && a.role == x.req.role))
  }

  /** A delete that has collected every row that refers to the role. */
  lemma CollectedIsUnreferenced(w: World, t: Tables, x: Txn, newRole: RoleId, newETag: ETag)
    requires TxnInv(w, t, x) && x.phase.DeleteRole? && Exact(t, x, newRole, newETag)
    ensures Owns(Apply(t, x.pending), x.org, x.req.role) && !Referenced(Apply(t, x.pending), x.req.role)
  {
    var view, r := Apply(t, x.pending), x.req.role;
    PermissionsAfter(t, x.pending, r);
    assert RolePermissions(view, r) == {};
    assert forall y :: y in view.rolePerms && y.0 == r ==> y.1 in RolePermissions(view, r);
  }

  lemma DeleteStaysOnTrack(w: World, t: Tables, sys: Assignments, x: Txn, newRole: RoleId, newETag: ETag)
    requires TxnInv(w, t, x) && OnTrack(w, t, sys, x) && Exact(t, x, newRole, newETag)
    requires x.req.Delete? && AfterRead(x) && !x.phase.Commit?
    ensures OnTrack(w, t, sys, DeleteStep(t, x))
  {
    if x.phase.DeleteRole? { CollectedIsUnreferenced(w, t, x, newRole, newETag); }
  }

  lemma ReadStaysOnTrack(w: World, t: Tables, sys: Assignments, x: Txn)
    requires Consistent(w, t) && TxnInv(w, t, x) && OnTrack(w, t, sys, x) && Reading(x)
    ensures OnTrack(w, t, sys, ReadStep(w, t, sys, x))
  {
    if x.phase.ReadActor? {
      ActorStaysOnTrack(w, t, sys, x);
    } else if x.phase.ReadRole? {
      if x.req.Update? || x.req.Modify? {
        EditedRoleStaysOnTrack(w, t, sys, x);
      } else if x.req.Delete? {
        DeletedRoleStaysOnTrack(w, t, sys, x);
      } else {
        AssignedRoleStaysOnTrack(w, t, sys, x);
      }
    }
  }

  lemma BatchStaysOnTrack(w: World, t: Tables, sys: Assignments, x: Txn, newRole: RoleId, newETag: ETag)
    requires Consistent(w, t) && TxnInv(w, t, x) && OnTrack(w, t, sys, x)
    requires x.phase.UpdateSnapshot? || x.phase.UpdateRole? || x.phase.DeletePermissions? || x.phase.InsertPermissions?
    ensures OnTrack(w, t, sys, WriteStep(w, t, x, newRole, newETag))
  {
    if x.phase.UpdateRole? {
      UpdateStaysOnTrack(w, t, sys, x, newETag);
    } else if x.phase.DeletePermissions? {
      DeletedRowsStayOnTrack(w, t, sys, x);
    } else if x.phase.InsertPermissions? {
      InsertedRowsStayOnTrack(w, t, sys, x);
    }
  }

  lemma WriteStaysOnTrack(w: World, t: Tables, sys: Assignments, x: Txn, newRole: RoleId, newETag: ETag)
    requires Consistent(w, t) && TxnInv(w, t, x) && OnTrack(w, t, sys, x) && newRole !in t.roles
    requires !Reading(x) && !Settled(x) && Exact(t, x, newRole, newETag)
    ensures OnTrack(w, t, sys, WriteStep(w, t, x, newRole, newETag))
  {
    if x.phase.IndexName? {
      IndexStaysOnTrack(w, t, sys, x);
    } else if x.phase.Insert? && !Assigns(x.req) {
      InsertStaysOnTrack(w, t, sys, x, newRole, newETag);
    } else if x.phase.Insert? || x.phase.CompleteInsert? {
      AssignStaysOnTrack(w, t, sys, x);
    } else if x.req.Modify? {
      ModifyStaysOnTrack(w, t, sys, x, newETag);
    } else if x.req.Delete? {
      DeleteStaysOnTrack(w, t, sys, x, newRole, newETag);
    } else {
      BatchStaysOnTrack(w, t, sys, x, newRole, newETag);
    }
  }

  lemma AdvanceStaysOnTrack(w: World, t: Tables, sys: Assignments, x: Txn, newRole: RoleId, newETag: ETag)
    requires Consistent(w, t) && TxnInv(w, t, x) && OnTrack(w, t, sys, x) && !Settled(x) && newRole !in t.roles
    requires Exact(t, x, newRole, newETag)
    ensures OnTrack(w, t, sys, Advance(w, t, sys, x, newRole, newETag))
  {
    if Reading(x) { ReadStaysOnTrack(w, t, sys, x); } else { WriteStaysOnTrack(w, t, sys, x, newRole, newETag); }
  }

  /** Nothing has been written, and no assignment has been collected. */
  predicate WroteNothing(x: Txn, x': Txn) {
    && x'.req == x.req && x'.pending == x.pending && x'.minted == x.minted
    && (x.req.Delete? && AfterRead(x') ==> x'.phase.DeleteProjectAssignments?)
  }

  lemma ActorWritesNothing(w: World, t: Tables, sys: Assignments, x: Txn)
    requires !x.req.Rename?
    ensures WroteNothing(x, ActorStep(w, t, sys, x))
  {
  }

  lemma RoleWritesNothing(t: Tables, x: Txn)
    ensures WroteNothing(x, RoleStep(t, x))
  {
  }

  lemma WroteNothingExact(t: Tables, x: Txn, x': Txn, newRole: RoleId, newETag: ETag)
    requires Exact(t, x, newRole, newETag) && WroteNothing(x, x')
    ensures Exact(t, x', newRole, newETag)
  {
  }

  lemma ReadStaysExact(w: World, t: Tables, sys: Assignments, x: Txn, newRole: RoleId, newETag: ETag)
    requires PhaseFits(x) && Exact(t, x, newRole, newETag) && Reading(x)
    ensures Exact(t, ReadStep(w, t, sys, x), newRole, newETag)
  {
    if x.phase.ReadActor? {
      ActorWritesNothing(w, t, sys, x);
    } else if x.phase.ReadRole? {
      RoleWritesNothing(t, x);
    }
    WroteNothingExact(t, x, ReadStep(w, t, sys, x), newRole, newETag);
  }

  lemma WriteStaysExact(w: World, t: Tables, x: Txn, newRole: RoleId, newETag: ETag)
    requires TxnInv(w, t, x) && Exact(t, x, newRole, newETag) && !Reading(x) && !Settled(x)
    ensures Exact(t, WriteStep(w, t, x, newRole, newETag), newRole, newETag)
  {
  }

  lemma AdvanceStaysExact(w: World, t: Tables, sys: Assignments, x: Txn, newRole: RoleId, newETag: ETag)
    requires TxnInv(w, t, x) && Exact(t, x, newRole, newETag) && !Settled(x)
    ensures Exact(t, Advance(w, t, sys, x, newRole, newETag), newRole, newETag)
  {
    if Reading(x) {
      ReadStaysExact(w, t, sys, x, newRole, newETag);
    } else {
      WriteStaysExact(w, t, x, newRole, newETag);
    }
  }

  lemma {:induction false} AloneStaysOnTrack(w: World, t: Tables, sys: Assignments, x: Txn, newRole: RoleId,
                                             newETag: ETag)
    requires Consistent(w, t) && TxnInv(w, t, x) && OnTrack(w, t, sys, x) && newRole !in t.roles && !x.phase.Done?
    requires Exact(t, x, newRole, newETag)
    ensures var x' := Alone(w, t, sys, x, newRole, newETag);
      && (x'.phase.Commit? || x'.phase.RollingBack?) && x'.req == x.req
      && TxnInv(w, t, x') && OnTrack(w, t, sys, x') && Exact(t, x', newRole, newETag)
    decreases StepsLeft(x.phase)
  {
    if !Settled(x) {
      AdvanceInv(w, t, sys, x, newRole, newETag);
      AdvanceDescends(w, t, sys, x, newRole, newETag);
      AdvanceStaysOnTrack(w, t, sys, x, newRole, newETag);
      AdvanceStaysExact(w, t, sys, x, newRole, newETag);
      AdvanceTakes(w, t, sys, x, newRole, newETag);
      AloneStaysOnTrack(w, t, sys, Advance(w, t, sys, x, newRole, newETag), newRole, newETag);
    }
  }

  lemma EditIsEffect(w: World, t: Tables, x: Txn, newRole: RoleId, newETag: ETag)
    requires TxnInv(w, t, x) && x.phase.Commit? && Exact(t, x, newRole, newETag)
    requires (x.req.Update? || x.req.Modify? || x.req.Rename?) && x.req.role in t.roles
    ensures Apply(t, x.pending) == Effect(w, t, x.req, newRole, newETag)
  {
    var r := x.req.role;
    if x.req.Rename? {
      ReplacedRows(t, x.pending, r, RolePermissions(t, r));
    } else {
      EditCommitsReplacement(w, t, x);
    }
    assert Apply(t, x.pending).roles == t.roles[r := EditedRow(t, x.req, newETag)];
  }

  lemma DeleteIsEffect(w: World, t: Tables, x: Txn, newRole: RoleId, newETag: ETag)
    requires TxnInv(w, t, x) && x.phase.Commit? && x.req.Delete? && Exact(t, x, newRole, newETag)
    ensures Apply(t, x.pending) == Removed(t, x.req.role)
  {
    ReplacedRows(t, x.pending, x.req.role, {});
  }

  lemma AssignmentIsEffect(w: World, t: Tables, x: Txn, newRole: RoleId, newETag: ETag)
    requires TxnInv(w, t, x) && x.phase.Commit?
    requires x.req.AssignToProject? || x.req.AssignToOrg? || x.req.UnassignFromProject? || x.req.UnassignFromOrg?
    ensures Apply(t, x.pending) == Effect(w, t, x.req, newRole, newETag)
  {
    assert Apply(t, x.pending).roles == t.roles;
  }

  lemma CreateIsEffect(w: World, t: Tables, x: Txn, newRole: RoleId, newETag: ETag)
    requires TxnInv(w, t, x) && x.phase.Commit? && x.req.Create? && Exact(t, x, newRole, newETag)
    ensures Apply(t, x.pending) == Effect(w, t, x.req, newRole, newETag)
  {
    assert x.pending.rows[newRole].role == Role(x.org, x.req.name, false, newETag);
    assert Apply(t, x.pending).roles == t.roles[newRole := x.pending.rows[newRole].role];
  }

  /** With nothing in between, the step program of a call commits exactly the specified change, or rolls
      back with exactly the specified error. */
  lemma AloneIsExpected(w: World, t: Tables, sys: Assignments, req: Request, newRole: RoleId, newETag: ETag)
    requires Consistent(w, t) && ValidRequest(req) && newRole !in t.roles
    ensures TxnInv(w, t, Started(w, t, req))
    ensures var x := Alone(w, t, sys, Started(w, t, req), newRole, newETag);
      var expected := Expected(w, t, sys, req, newRole, newETag);
      || (x.phase.Commit? && expected == (Apply(t, x.pending), Success))
      || (x.phase.RollingBack? && expected == (t, Failure(ErrorOf(req, x.phase.error))))
  {
    StartedInv(w, t, req);
    AloneStaysOnTrack(w, t, sys, Started(w, t, req), newRole, newETag);
    var x := Alone(w, t, sys, Started(w, t, req), newRole, newETag);
    if x.phase.Commit? { CommitIsExpected(w, t, sys, x, newRole, newETag); }
  }

  lemma CommitIsExpected(w: World, t: Tables, sys: Assignments, x: Txn, newRole: RoleId, newETag: ETag)
    requires TxnInv(w, t, x) && OnTrack(w, t, sys, x) && Exact(t, x, newRole, newETag) && x.phase.Commit?
    ensures Expected(w, t, sys, x.req, newRole, newETag) == (Apply(t, x.pending), Success)
  {
    match x.req
    case Create(_, _, _, _) => CreateIsEffect(w, t, x, newRole, newETag);
    case Delete(_, _, _) => DeleteIsEffect(w, t, x, newRole, newETag);
    case Update(_, _, _, _, _, _) => EditIsEffect(w, t, x, newRole, newETag);
    case Modify(_, _, _, _, _, _) => EditIsEffect(w, t, x, newRole, newETag);
    case Rename(_, _, _, _) => EditIsEffect(w, t, x, newRole, newETag);
    case _ => AssignmentIsEffect(w, t, x, newRole, newETag);
  }
}
