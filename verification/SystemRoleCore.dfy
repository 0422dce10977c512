/** core/rbac/system_role.go, one call at a time: the code's own steps, proved equal to the atomic
    specification that every interleaving refines. */
module SystemRoleCore {
  import opened Permissions
  import opened SystemRoles
  import opened SystemRoleProtocol
  import opened Sets

  class Core {
    const env: Env
    var assignments: Assignments
    // Advisory locks the transaction has taken, in order.
    var locks: seq<Lock>

    ghost predicate Valid() reads this {
      env.Valid() && ValidAssignments(env, assignments)
    }

    constructor (env: Env)
      requires env.Valid()
      ensures Valid() && this.env == env && assignments == {}
    {
      this.env := env;
      assignments, locks := {}, [];
    }

    method LockSystemRoleUser(user: UUID)
      modifies this`locks
      ensures locks == old(locks) + if user in env.users then [User(user)] else []
    {
      if user in env.users { locks := locks + [User(user)]; }
    }

    method LockSystemRoleUsers(actor: UUID, target: UUID)
      modifies this`locks
      ensures locks == old(locks) + UserLocks(env, actor, target)
    {
      var firstUser, secondUser := actor, target;
      if firstUser > secondUser {
        firstUser, secondUser := secondUser, firstUser;
      }
      LockSystemRoleUser(firstUser);
      if firstUser != secondUser {
        LockSystemRoleUser(secondUser);
      }
    }

    /** systemPermissionNamesQuery: the permission names joined to the user's assignments. */
    method SystemPermissionNames(user: UUID) returns (names: Option<seq<Permission>>)
      requires Valid()
      ensures names.Some? <==> user in env.users
      ensures names.Some? ==> forall p ::
        p in names.value <==> exists x :: x in assignments && x.0 == user && p in env.roles[x.1]
    {
      if user !in env.users { return None; }
      var collected := [];
      var rest := assignments;
      while rest != {}
        invariant rest <= assignments
        invariant forall p :: p in collected <==>
          exists x :: x in assignments - rest && x.0 == user && p in env.roles[x.1]
      {
        var x :| x in rest;
        ghost var was := collected;
        if x.0 == user {
          var names := PermissionNames(env.roles[x.1]);
          collected := collected + names;
        }
        forall p ensures p in collected <==> p in was || (x.0 == user && p in env.roles[x.1]) {}
        rest := rest - {x};
      }
      return Some(collected);
    }

    /** Passes exactly when there is such a role, the actor exists, and every permission of the role is one
        that some assignment gives the actor. A missing role or actor is reported before a missing
        permission. */
    method AuthorizeSystemRoleChange(actor: UUID, role: string) returns (r: Result)
      requires Valid()
      ensures r == Ok <==>
        && role in env.roles && actor in env.users
        && forall p :: p in env.roles[role] ==> Grants(assignments, actor, p)
      ensures r == Err(NotFound) <==> role !in env.roles || actor !in env.users
      ensures r == Ok || r == Err(NotFound) || r == Err(PermissionDenied)
    {
      if role !in env.roles { return Err(NotFound); }
      var required := PermissionNames(env.roles[role]);
      var held := SystemPermissionNames(actor);
      if held.None? { return Err(NotFound); }
      var ok := IsPermissionSuperset(held.value, required);
      assert forall p :: p in held.value <==> Grants(assignments, actor, p);
      assert forall p :: p in env.roles[role] <==> p in ToSet(required);
      assert forall p :: p in held.value <==> p in ToSet(held.value);
      if !ok { return Err(PermissionDenied); }
      return Ok;
    }

    /** Some assignment of the user carries the permission. */
    ghost predicate Grants(a: Assignments, user: UUID, p: Permission)
      requires ValidAssignments(env, a)
    {
      exists x :: x in a && x.0 == user && p in env.roles[x.1]
    }

    /** assignSystemRoleQuery: INSERT ... SELECT, so without the user or the role nothing is inserted. */
    method InsertAssignmentRow(target: UUID, role: string) returns (r: Result)
      requires Valid()
      modifies this`assignments
      ensures Valid()
      ensures r == Ok <==> target in env.users && role in env.roles && (target, role) !in old(assignments)
      ensures r == Err(AlreadyExists) <==> (target, role) in old(assignments)
      ensures r == Ok || r == Err(AlreadyExists) || r == Err(NotFound)
      ensures assignments == if r == Ok then old(assignments) + {(target, role)} else old(assignments)
    {
      if target !in env.users || role !in env.roles { return Err(NotFound); }
      if (target, role) in assignments { return Err(AlreadyExists); }
      assignments := assignments + {(target, role)};
      return Ok;
    }

    /** Passes exactly when the assignment exists and, with it gone, somebody holds the registry. */
    method EnsureFullyPrivilegedSystemUserRemains(target: UUID, role: string) returns (r: Result)
      requires Valid()
      ensures r == if (target, role) !in assignments then Err(NotFound)
                   else if env.registry == {} || !HasFullyPrivilegedUser(env, assignments - {(target, role)}) then
                     Err(LastFullyPrivilegedSystemAdmin)
                   else Ok
    {
      CardinalityTestIsSupersetTest(env, assignments, (target, role));
      var remains := FullyPrivilegedUserRemainsAfterUnassign(env, assignments, target, role);
      if remains.None? { return Err(NotFound); }
      if !remains.value { return Err(LastFullyPrivilegedSystemAdmin); }
      return Ok;
    }

    /** The row is added exactly when it was missing, target, role and actor exist, and the actor already
        holds every permission of the role; the first condition that fails decides the error. */
    method AssignSystemRole(actor: UUID, target: UUID, role: string) returns (r: Result)
      requires Valid()
      modifies this
      ensures Valid() && locks == LockPlan(env, Assign(actor, target, role))
      ensures r == Ok <==>
        && actor in env.users && target in env.users && role in env.roles && (target, role) !in old(assignments)
        && forall p :: p in env.roles[role] ==> Grants(old(assignments), actor, p)
      ensures assignments == if r == Ok then old(assignments) + {(target, role)} else old(assignments)
      ensures r == Err(NotFound) ==> actor !in env.users || target !in env.users || role !in env.roles
      ensures r == Err(PermissionDenied) <==>
        && actor in env.users && role in env.roles
        && exists p :: p in env.roles[role] && !Grants(old(assignments), actor, p)
      ensures r == Err(AlreadyExists) ==> (target, role) in old(assignments)
      ensures (assignments, r) == Atomic(env, old(assignments), Assign(actor, target, role))
    {
      locks := [];
      LockSystemRoleUsers(actor, target);
      AuthorizeIsGrants(assignments, actor, role);
      r := AuthorizeSystemRoleChange(actor, role);
      if r.Err? { return; }
      r := InsertAssignmentRow(target, role);
    }

    lemma AuthorizeIsGrants(a: Assignments, actor: UUID, role: string)
      requires ValidAssignments(env, a)
      ensures Authorize(env, a, actor, role) == Ok <==>
        role in env.roles && actor in env.users && forall p :: p in env.roles[role] ==> Grants(a, actor, p)
    {
      forall p ensures p in SystemPermissions(env, a, actor) <==> Grants(a, actor, p) {}
    }

    lemma FullyPrivilegedIsGrants(a: Assignments)
      requires ValidAssignments(env, a)
      ensures HasFullyPrivilegedUser(env, a) <==>
        exists u :: u in env.users && forall p :: p in env.registry ==> Grants(a, u, p)
    {
      forall u, p ensures p in SystemPermissions(env, a, u) <==> Grants(a, u, p) {}
      forall u ensures FullyPrivileged(env, a, u) <==>
        u in env.users && forall p :: p in env.registry ==> Grants(a, u, p) {}
    }

    /** The row is taken out exactly when it is there, role and actor exist, the actor holds every permission of
        the role, and without the row somebody still holds every registered permission, of which there is one;
        the first condition that fails decides the error. */
    method UnassignSystemRole(actor: UUID, target: UUID, role: string) returns (r: Result)
      requires Valid()
      modifies this
      ensures Valid() && locks == LockPlan(env, Unassign(actor, target, role))
      ensures var found := role in env.roles && actor in env.users;
        var allowed := found && forall p :: p in env.roles[role] ==> Grants(old(assignments), actor, p);
        var there := allowed && (target, role) in old(assignments);
        var remains := env.registry != {} && exists u ::
          u in env.users && forall p :: p in env.registry ==> Grants(old(assignments) - {(target, role)}, u, p);
        && (r == Ok <==> there && remains)
        && (r == Err(LastFullyPrivilegedSystemAdmin) <==> there && !remains)
        && (r == Err(PermissionDenied) <==> found && !allowed)
        && (r == Err(NotFound) <==> !found || (allowed && !there))
      ensures assignments == if r == Ok then old(assignments) - {(target, role)} else old(assignments)
      ensures (assignments, r) == Atomic(env, old(assignments), Unassign(actor, target, role))
    {
      locks := [Management];
      LockSystemRoleUsers(actor, target);
      AuthorizeIsGrants(assignments, actor, role);
      FullyPrivilegedIsGrants(assignments - {(target, role)});
      r := AuthorizeSystemRoleChange(actor, role);
      if r.Err? { return; }
      r := EnsureFullyPrivilegedSystemUserRemains(target, role);
      if r.Err? { return; }
      assignments := assignments - {(target, role)};
    }

    /** The row is added exactly when it was missing and target and role exist; nobody's permissions are
        asked for, and nobody else's assignments move. */
    method BootstrapAssignSystemRole(target: UUID, role: string) returns (r: Result)
      requires Valid()
      modifies this
      ensures Valid() && locks == if target in env.users then [User(target)] else []
      ensures r == Ok <==> target in env.users && role in env.roles && (target, role) !in old(assignments)
      ensures assignments == if r == Ok then old(assignments) + {(target, role)} else old(assignments)
      ensures r == Err(AlreadyExists) <==> (target, role) in old(assignments)
      ensures r == Ok ==> forall p :: p in env.roles[role] ==> Grants(assignments, target, p)
      ensures (assignments, r) == Atomic(env, old(assignments), Bootstrap(target, role))
    {
      locks := [];
      LockSystemRoleUser(target);
      r := InsertAssignmentRow(target, role);
      assert r == Ok ==> (target, role) in assignments;
    }
  }
}
