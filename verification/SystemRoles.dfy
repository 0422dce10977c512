/** System roles as relations: the queries of pgrbac/query_system_role.go and, for each operation of
    core/rbac/system_role.go, what it does when it runs alone. */
module SystemRoles {
  import opened Permissions

  // The 16 bytes of a UUID read as one big-endian number, so that `<` is bytes.Compare.
  type UUID = nat

  /** Seed data and the user table, fixed while assignments change. */
  datatype Env = Env(users: set<UUID>, registry: set<Permission>, roles: map<string, set<Permission>>) {
    // system_role_permissions references permissions.
    ghost predicate Valid() {
      forall r :: r in roles ==> roles[r] <= registry
    }
  }

  // rbac.system_role_assignments, a set of (user, role) rows.
  type Assignments = set<(UUID, string)>

  // system_role_assignments references users and system_roles.
  ghost predicate ValidAssignments(env: Env, a: Assignments) {
    forall x :: x in a ==> x.0 in env.users && x.1 in env.roles
  }

  /** rbac.system_permission_ids: the union of the permissions of the user's system roles. */
  function SystemPermissions(env: Env, a: Assignments, u: UUID): set<Permission> {
    set x, p | x in a && x.0 == u && x.1 in env.roles && p in env.roles[x.1] :: p
  }

  ghost predicate FullyPrivileged(env: Env, a: Assignments, u: UUID) {
    u in env.users && env.registry <= SystemPermissions(env, a, u)
  }

  ghost predicate HasFullyPrivilegedUser(env: Env, a: Assignments) {
    exists u :: FullyPrivileged(env, a, u)
  }

  datatype Error = NotFound | PermissionDenied | AlreadyExists | LastFullyPrivilegedSystemAdmin
  datatype Result = Ok | Err(error: Error)

  // ---- fullyPrivilegedUserRemainsAfterSystemRoleUnassignQuery -------------------------------

  /** The rows of the join of assignments and role permissions, without the excluded assignment,
      as (user_id, permission_id). */
  function RemainingRows(env: Env, a: Assignments, excluded: (UUID, string)): set<(UUID, Permission)> {
    set x, p | x in a && x != excluded && x.1 in env.roles && p in env.roles[x.1] :: (x.0, p)
  }

  /** One GROUP BY sra.user_id group: its distinct permissions. */
  function GroupPermissions(rows: set<(UUID, Permission)>, u: UUID): set<Permission> {
    set row | row in rows && row.0 == u :: row.1
  }

  /** EXISTS (... GROUP BY user_id HAVING COUNT(DISTINCT permission_id) = (SELECT COUNT(*) ...)).
      A group exists only for a user with at least one row. */
  predicate SomeGroupCountsWholeRegistry(env: Env, a: Assignments, excluded: (UUID, string)) {
    var rows := RemainingRows(env, a, excluded);
    exists row :: row in rows && |GroupPermissions(rows, row.0)| == |env.registry|
  }

  /** None is sql.ErrNoRows: the query is anchored on the excluded assignment. */
  function FullyPrivilegedUserRemainsAfterUnassign(env: Env, a: Assignments, target: UUID, role: string): Option<bool> {
    if (target, role) !in a then None
    else Some(SomeGroupCountsWholeRegistry(env, a, (target, role)))
  }

  lemma SubsetOfSameSizeIsEqual<T>(small: set<T>, big: set<T>)
    requires small <= big && |small| == |big|
    ensures small == big
  {
    if x :| x in big && x !in small {
      assert small + {x} <= big;
      SubsetIsSmaller(small + {x}, big);
    }
  }

  lemma {:induction false} SubsetIsSmaller<T>(small: set<T>, big: set<T>)
    requires small <= big
    ensures |small| <= |big|
  {
    if small != {} {
      var x :| x in small;
      SubsetIsSmaller(small - {x}, big - {x});
    }
  }

  lemma GroupIsRemainingUnion(env: Env, a: Assignments, excluded: (UUID, string), u: UUID)
    ensures GroupPermissions(RemainingRows(env, a, excluded), u) == SystemPermissions(env, a - {excluded}, u)
  {
    var rows := RemainingRows(env, a, excluded);
    forall p | p in SystemPermissions(env, a - {excluded}, u) ensures p in GroupPermissions(rows, u) {
      assert (u, p) in rows;
    }
  }

  /** The cardinality test is the superset test it stands for, provided there is any permission
      at all: over an empty registry it is false although every user holds all of it. */
  lemma CardinalityTestIsSupersetTest(env: Env, a: Assignments, excluded: (UUID, string))
    requires env.Valid() && ValidAssignments(env, a)
    ensures SomeGroupCountsWholeRegistry(env, a, excluded) <==>
            env.registry != {} && HasFullyPrivilegedUser(env, a - {excluded})
  {
    var rows := RemainingRows(env, a, excluded);
    if SomeGroupCountsWholeRegistry(env, a, excluded) {
      var row :| row in rows && |GroupPermissions(rows, row.0)| == |env.registry|;
      GroupIsRemainingUnion(env, a, excluded, row.0);
      SubsetOfSameSizeIsEqual(GroupPermissions(rows, row.0), env.registry);
      assert row.1 in GroupPermissions(rows, row.0);
      assert FullyPrivileged(env, a - {excluded}, row.0);
    }
    if env.registry != {} && HasFullyPrivilegedUser(env, a - {excluded}) {
      var u :| FullyPrivileged(env, a - {excluded}, u);
      GroupIsRemainingUnion(env, a, excluded, u);
      var p :| p in env.registry;
      assert p in GroupPermissions(rows, u);
      var row :| row in rows && row.0 == u && row.1 == p;
      assert GroupPermissions(rows, row.0) == env.registry;
    }
  }

  // ---- One call at a time ---------------------------------------------------------------------

  datatype Call =
    | Assign(actor: UUID, target: UUID, role: string)
    | Unassign(actor: UUID, target: UUID, role: string)
    | Bootstrap(target: UUID, role: string)

  /** assignSystemRoleQuery. */
  function InsertAssignment(env: Env, a: Assignments, target: UUID, role: string): (Assignments, Result) {
    if target !in env.users || role !in env.roles then (a, Err(NotFound))
    else if (target, role) in a then (a, Err(AlreadyExists))
    else (a + {(target, role)}, Ok)
  }

  /** authorizeSystemRoleChange. */
  function Authorize(env: Env, a: Assignments, actor: UUID, role: string): Result {
    if role !in env.roles || actor !in env.users then Err(NotFound)
    else if !(env.roles[role] <= SystemPermissions(env, a, actor)) then Err(PermissionDenied)
    else Ok
  }

  /** What a call does when it runs alone, in one instant. The last-admin guard is stated by what it
      is for: somebody holds the whole registry afterwards. */
  ghost function Atomic(env: Env, a: Assignments, call: Call): (Assignments, Result) {
    match call
    case Bootstrap(target, role) => InsertAssignment(env, a, target, role)
    case Assign(actor, target, role) =>
      var auth := Authorize(env, a, actor, role);
      if auth.Err? then (a, auth) else InsertAssignment(env, a, target, role)
    case Unassign(actor, target, role) =>
      var auth := Authorize(env, a, actor, role);
      if auth.Err? then (a, auth)
      else if (target, role) !in a then (a, Err(NotFound))
      else if env.registry == {} || !HasFullyPrivilegedUser(env, a - {(target, role)}) then
        (a, Err(LastFullyPrivilegedSystemAdmin))
      else (a - {(target, role)}, Ok)
  }

  lemma PermissionsGrowWithAssignments(env: Env, a: Assignments, b: Assignments, u: UUID)
    requires a <= b
    ensures SystemPermissions(env, a, u) <= SystemPermissions(env, b, u)
  {
  }

  lemma PermissionsDependOnOwnRows(env: Env, a: Assignments, b: Assignments, u: UUID)
    requires forall x: (UUID, string) :: x.0 == u ==> (x in a <==> x in b)
    ensures SystemPermissions(env, a, u) == SystemPermissions(env, b, u)
  {
  }

  /** A fully privileged user stays fully privileged when rows are added. */
  lemma MoreRowsKeepFullyPrivileged(env: Env, a: Assignments, b: Assignments)
    requires a <= b && HasFullyPrivilegedUser(env, a)
    ensures HasFullyPrivilegedUser(env, b)
  {
    var u :| FullyPrivileged(env, a, u);
    PermissionsGrowWithAssignments(env, a, b, u);
    assert FullyPrivileged(env, b, u);
  }

  /** One call keeps the recovery invariant, the foreign keys, and everybody else's rows. */
  lemma AtomicKeepsFullyPrivilegedUser(env: Env, a: Assignments, call: Call)
    requires ValidAssignments(env, a)
    ensures ValidAssignments(env, Atomic(env, a, call).0)
    ensures HasFullyPrivilegedUser(env, a) ==> HasFullyPrivilegedUser(env, Atomic(env, a, call).0)
    ensures forall x: (UUID, string) :: x.0 != call.target ==> (x in a <==> x in Atomic(env, a, call).0)
  {
    var after := Atomic(env, a, call).0;
    if HasFullyPrivilegedUser(env, a) && a <= after {
      MoreRowsKeepFullyPrivileged(env, a, after);
    }
  }

  /** Without the bootstrap, nobody ever holds a permission that nobody held before. */
  lemma AtomicGrantsNothingNew(env: Env, a: Assignments, call: Call, u: UUID, p: Permission)
    requires !call.Bootstrap? && p in SystemPermissions(env, Atomic(env, a, call).0, u)
    ensures exists v :: p in SystemPermissions(env, a, v)
  {
    var after := Atomic(env, a, call).0;
    var x :| x in after && x.0 == u && x.1 in env.roles && p in env.roles[x.1];
    if x in a {
      assert p in SystemPermissions(env, a, u);
    } else {
      assert p in SystemPermissions(env, a, call.actor);
    }
  }
}
