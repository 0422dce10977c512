# Roles, tokens and transactions: a verified model

A Dafny model of the authorisation and authentication core of the backend: role management as concurrent
database transactions, the SQL statements it issues as changes of relations, the life of magic links and
refresh tokens, and the transaction helpers and set library under them. `dafny verify dfyconfig.toml` checks
the whole project.

## How it is organised

| files | what they hold |
|---|---|
| `Permissions`, `Sets` | permission registry and scopes; the map-backed set and what the permission code computes with it |
| `SystemRoles`, `SystemRoleProtocol`, `SystemRoleCore` | system roles: relations and the atomic specification; all interleavings; the code, one call at a time |
| `CustomRoleTables`, `CustomRoleRights`, `CustomRoleSpec`, `CustomRoleAnswers`, `CustomRoleCore`, `CustomRoleOperations` | custom roles: tables and statements; what effective permissions depend on; what each operation does alone, as sets and row by row; batches with rollback; the operations |
| `CustomRoleProtocol`, `CustomRoleInvariants` | every interleaving of custom-role calls, cancelled calls and new organizations, statement by statement, and what the locks keep true |
| `CustomRoleEffects`, `CustomRoleAuthority`, `CustomRoleScope`, `CustomRoleGrants`, `CustomRoleMembers`, `CustomRoleETags`, `CustomRoleNames`, `CustomRoleForeignKeys`, `CustomRoleErrors`, `CustomRoleProgress`, `CustomRoleDeadlock`, `CustomRoleAlone` | the theorems about those interleavings |
| `Graphs` | cycles in the relation of who waits for whom |
| `CustomRoleRaces` | short runs in which nobody makes a mistake and a call fails, waits for ever, or grants more than its actor holds |
| `AuthTables`, `AuthCore`, `AuthProtocol`, `AuthInvariants`, `AuthHistory`, `AuthDeadlock` | token tables and atomic calls; the code; all interleavings; their invariants, what their history says, and who waits for whom |
| `AuthTime`, `AuthRaces` | rate limit and session lifetime for atomic calls; runs that issue links close together, and revocations that wait for each other |
| `Tx` | nested `RunTx` and `RunBatchTx` |
| `Idempotency`, `Paging` | the bytes hashed into a workflow id; the page walk of `ListUsers` |

Operations appear twice. A protocol module runs any number of calls as step programs under read-committed
isolation: each statement sees the latest committed tables and the transaction's own writes. Advisory locks, rows
that were written or are referred to, and names entered in the unique index stay locked until the transaction ends; a
call may fail at any point; a commit makes the writes visible and releases the locks in one step. A class runs one call
at a time with the statements in the order of the code. Both are tied to the same specification:
`SystemRoles.Atomic`, `CustomRoleSpec.Expected`, `AuthTables.AtomicCall`. What that specification answers is in turn
spelled out on the rows of the tables in the contract of each operation: when it succeeds, when it fails with which
error, which rows it writes.

Clocks, generated ids, ETags and token digests are parameters. Generated values are new (never used or asked for
before), and a token is identified with its digest. Application and database share one clock.

## What the proofs found

- The count that stands in for a superset test in the last-administrator check is right exactly when the permission
  registry is not empty. Over an empty registry it refuses every unassignment, although every user then holds
  everything (`CardinalityTestIsSupersetTest`).
- A modify statement with overlapping lists would leave something other than what the Go code authorised; the two
  agree exactly when every permission named on both sides is one the role has. Validation rejects overlaps
  (`ModifyAgreesWithNextPerms`).
- The doc comment of `Store.UpdateCustomRole` promises `ErrETagMismatch` for a role changed since it was read. An update
  that is waiting for the row when the change commits is told `sql.ErrNoRows` instead, because the fallback branch of
  the statement still sees its own snapshot. In every reachable state this happens exactly when the ETag was renewed
  between snapshot and write (`WriteErrorsAreExact`). Of two members who rename a role at the same time the second is
  told that there is no such role (`LosingRenameIsToldNotFound`).
- For the same reason the comment in `Core.UpdateCustomRole` that a missing row is impossible under the role lock is
  wrong: a rename takes no lock and can overtake the edit, which then fails with an internal error
  (`OvertakenEditFails`).
- A delete can fail although it has resolved and locked its role. `AssignCustomRoleToOrg` takes no role lock, so it can
  assign the role after the delete has removed the assignments it saw; the foreign key then refuses the delete, and no
  code translates that error. It happens exactly when such an assignment was committed in between
  (`WriteErrorsAreExact`, `OvertakenDeleteFails`); the converse race ends in the same error for the assignment. The
  foreign keys themselves hold in every reachable state (`ForeignKeysAlwaysHold`).
- Two members who swap the names of two roles can deadlock. An update writes its row before the name goes into the
  unique index, and at the index it waits for a call that is giving the name up. With both rows written each waits for
  the other for ever (`SwappedNamesDeadlock`, `CyclesStayUntilCancelled`); the database ends one of them with an error
  that `translatePgErr` does not know, so the member is told of an internal error. These are the only deadlocks of
  custom-role calls: in every reachable state there is one exactly when calls that have written their rows ask each
  other in a cycle for the names they are giving up (`DeadlocksAreNameCycles`). None arises while each organization
  has one rename in flight, or while nobody asks for the present name of a role that is being renamed
  (`SomebodyMoves`).
- The check that the actor holds all of a role is made when the role is read. An assignment in a project takes the role
  lock, so what it commits is still covered (`ProjectGrantsAreHeld`). The other three take no lock: the role they commit
  stays covered exactly as long as nobody commits an edit that adds a permission the actor was not found to hold
  (`HeldSinceTheRead`, `AssignmentGrantsMoreThanHeld`). The union over all users still never grows
  (`AuthorityNeverGrows`).
- Token calls deadlock exactly when revocations of all sessions wait in a cycle for each other's rows, because their
  statement locks rows in the order of its scan (`DeadlocksAreRevocations`, `OppositeScansDeadlock`). One revocation
  in flight per user, or a common order of the scans, rules that out (`OneRevocationMoves`, `CommonOrderMoves`).
- The doc comment of `RunTx` says that only the owner commits or rolls back. A `RunBatchTx` that joins a transaction
  ends it, whatever its result. The outer call is then all or nothing exactly under the condition of
  `NothingMayFollowBatchTx`: after a batch that committed, the rest sends nothing and returns nil; after one that
  failed, its handler returns an error. Otherwise rows stay committed under an error (`JoinedBatchTxOutlivesError`) or
  are lost under nil (`SwallowedBatchErrorLosesRows`). The four custom-role operations are on the safe side
  (`CustomRoleCallersAreAtomic`).
- `created_at` of a link is fixed before the wait for the user lock, while the rate limit is checked after it. Links of
  one user can therefore be closer than the limit by the time of that wait, and by no more (`IssuancesKeepDistance`,
  `WaitingShortensDistance`). Links stay a gap g apart in all runs exactly when no call waits longer than the limit less
  g (`AllowedWait`).

## Model

| member | source | states |
|---|---|---|
| Permissions.PanicsExactlyOutsideRegistry | backend/internal/core/mdl/permission.go:169-195 | the panic of the scope switch is reached exactly by permissions outside the registry, and system scope is given exactly to the system-only list |
| Permissions.RegistryPartition | backend/internal/core/mdl/permission.go:88-146 | the registry is the disjoint union of the system-only permissions and those open to custom roles |
| Permissions.MinimumAssignmentScope | backend/internal/core/mdl/permission.go:209-215 | the loop returns the broadest of the members' scopes, or panics exactly if some member is unregistered |
| Permissions.ScopeAboveProject | backend/internal/core/mdl/permission.go:205-215 | the comparison with project scope is a statement about every member of the set |
| Permissions.OrganizationAdminIsOrgScoped | backend/internal/core/mdl/permission.go:150-166 | the managed administrator's permissions may be held by a custom role but not assigned in a project |
| Permissions.RoleScopeIsPermissionScope | backend/internal/core/mdl/role.go:45-57 | the scope fixed for the managed role kind is the minimum its permissions have |
| Permissions.ValidAndRegistered | backend/internal/core/mdl/role.go:135-142 | validated and registered together mean open to custom roles |
| Sets.FromSlice | backend/pkg/set/set.go:13-19 | a new set with exactly the listed values |
| Sets.Set.Clone | backend/pkg/set/set.go:67-74 | a new set with the same elements |
| Sets.Set.Add | backend/pkg/set/set.go:22-27 | adds exactly the listed elements, in place, and returns the same set |
| Sets.Set.Remove | backend/pkg/set/set.go:30-35 | removes exactly the listed elements, in place, and returns the same set |
| Sets.Set.IsSuperset | backend/pkg/set/set.go:49-56 | the scan answers true exactly for a superset |
| Sets.Set.Values | backend/pkg/set/set.go:59-65 | lists every element exactly once, in whatever order the map is scanned |
| Sets.Set.Union | backend/pkg/set/set.go:77-83 | a new set with exactly the elements of either; operands unchanged |
| Sets.Set.Difference | backend/pkg/set/set.go:87-97 | a new set with exactly the elements of the first that are not in the second |
| Sets.Set.SymmetricDifference | backend/pkg/set/set.go:101-103 | a new set with exactly the elements of one operand but not both |
| Sets.Set.Intersection | backend/pkg/set/set.go:107-122 | a new set with exactly the common elements, whichever operand is scanned |
| Sets.PermissionNames | backend/internal/core/pgstores/pgrbac/query_custom_role.go:394-418 | the aggregated names of a set of permissions are exactly that set |
| Sets.IsPermissionSuperset | backend/internal/core/mdl/permission.go:218-220 | true exactly when every required permission is held |
| Sets.ChangedPerms | backend/internal/core/rbac/custom_role.go:600-605 | lists, once each, exactly the permissions that one list has and the other has not |
| Sets.NextPermissions | backend/internal/core/rbac/custom_role.go:279-281 | the permissions after the change are (current + add) - remove |
| Sets.Overlaps | backend/internal/core/mdl/role.go:126-128 | the test rejects exactly the requests that add and remove a common permission |
| SystemRoles.CardinalityTestIsSupersetTest | backend/internal/core/pgstores/pgrbac/query_system_role.go:135-180 | the grouped count with one assignment excluded is true exactly when, with that assignment deleted, somebody holds the whole (non-empty) registry |
| SystemRoles.GroupIsRemainingUnion | backend/internal/core/pgstores/pgrbac/query_system_role.go:135-180 | a user's group in the query holds exactly the user's permissions without the excluded assignment |
| SystemRoles.AtomicKeepsFullyPrivilegedUser | backend/internal/core/rbac/system_role.go:88-131 | one call keeps a fully privileged user, the foreign keys and everybody else's assignments |
| SystemRoles.AtomicGrantsNothingNew | backend/internal/core/rbac/system_role.go:162-183 | without bootstrap nobody gains a permission that nobody held |
| SystemRoleProtocol.PlanAscends | backend/internal/core/rbac/system_role.go:203-219 | management lock first, then users in ascending order: every call takes its locks in strictly ascending rank |
| SystemRoleProtocol.SettlesLikeAtomic | backend/internal/core/rbac/system_role.go:45-158 | at its commit or failing read each call has the outcome and effect of one atomic execution on the tables committed there |
| SystemRoleProtocol.InterleavingsRefineAtomic | backend/internal/core/rbac/system_role.go:45-219 | every interleaving of assigns, unassigns, bootstrap assigns and cancellations refines the atomic specification, call by call and result by result; a cancelled call leaves no trace |
| SystemRoleProtocol.CommitsWriteTheirRow | backend/internal/core/rbac/system_role.go:45-158 | in every reachable state the commit of an unassignment takes out exactly its row, which was there, and that of an assignment adds exactly its row, which was missing; the call ends in success |
| SystemRoleProtocol.RowsFollowTheHistory | backend/internal/core/rbac/system_role.go:45-158 | over every interleaving a row is there exactly when the last successful call about it was not an unassignment, or, without one, when it was there at the start |
| SystemRoleProtocol.FullyPrivilegedUserAlwaysRemains | backend/internal/core/rbac/system_role.go:88-131 | once somebody holds every registered permission, somebody does in every reachable committed state |
| SystemRoleProtocol.SystemAuthorityNeverGrows | backend/internal/core/rbac/system_role.go:162-183 | no interleaving of non-bootstrap calls gives anybody a system permission that nobody held |
| SystemRoleProtocol.FindsOneThatCanMove | backend/internal/core/pgstores/pgrbac/store_system_role.go:13-34 | from any unfinished call the waits-for walk reaches a call that can take a step |
| SystemRoleProtocol.EveryCallFinishes | backend/internal/core/rbac/system_role.go:94-101 | no reachable state is a deadlock, and every turn, cancellations included, lowers a bound on the steps left |
| SystemRoleCore.Core.LockSystemRoleUsers | backend/internal/core/rbac/system_role.go:203-219 | the swap takes the locks in the planned order, each user once, missing users not at all |
| SystemRoleCore.Core.SystemPermissionNames | backend/internal/core/pgstores/pgrbac/query_system_role.go:114-133 | lists exactly the permissions that some assignment of the user carries, or reports a missing user |
| SystemRoleCore.Core.AuthorizeSystemRoleChange | backend/internal/core/rbac/system_role.go:162-183 | the set operations of the code pass exactly when role and actor exist and each permission of the role comes with some assignment of the actor; a missing role or actor wins over a missing permission |
| SystemRoleCore.Core.EnsureFullyPrivilegedSystemUserRemains | backend/internal/core/rbac/system_role.go:188-199 | passes exactly when the assignment exists and somebody stays fully privileged without it |
| SystemRoleCore.Core.InsertAssignmentRow | backend/internal/core/pgstores/pgrbac/query_system_role.go:182-208 | the row is added exactly when user and role exist and it was missing |
| SystemRoleCore.Core.AssignSystemRole | backend/internal/core/rbac/system_role.go:45-80 | the row, and nothing else, is added exactly when it was missing, actor, target and role exist and the actor holds all of the role; otherwise nothing changes, the actor is told of missing permissions exactly when one is missing, and other errors name a condition that failed; the locks are the planned ones |
| SystemRoleCore.Core.UnassignSystemRole | backend/internal/core/rbac/system_role.go:88-131 | the row, and nothing else, is taken out exactly when role and actor exist, the actor holds all of the role, the row is there, and without it somebody still holds the whole (non-empty) registry; each error exactly when the first of these fails that it stands for; the locks are the planned ones |
| SystemRoleCore.Core.BootstrapAssignSystemRole | backend/internal/core/rbac/system_role.go:135-158 | the row, and nothing else, is added exactly when it was missing and target and role exist, after which the target holds all of the role; only the target is locked |
| CustomRoleTables.ModifyAgreesWithNextPerms | backend/internal/core/pgstores/pgrbac/query_custom_role.go:171-276 | the CTEs on one snapshot leave (current + add) - remove exactly when the overlap of the lists is already held |
| CustomRoleTables.ModifyIsReplacement | backend/internal/core/pgstores/pgrbac/query_custom_role.go:171-276 | a disjoint modify replaces the role's permissions by that set, renews the ETag exactly when the set changed, and touches nothing else |
| CustomRoleTables.LowerIgnoresCase | backend/internal/data/pgschema/migrations/20260713150002_create_roles_table.sql:25-26 | two names fall together in the index exactly if they differ at most in the case of ASCII letters |
| CustomRoleTables.OrgPermissionsAre | backend/internal/data/pgschema/migrations/20260729000000_create_rbac_access_functions.sql:17-36 | a user holds a permission in an organization exactly when an assignment there is of a role that has it, or a system role has it |
| CustomRoleTables.ProjectPermissionsAre | backend/internal/data/pgschema/migrations/20260729000000_create_rbac_access_functions.sql:38-57 | a user holds a permission in a project exactly when an assignment in this very project is of a role that has it, or the user holds it in the project's organization |
| CustomRoleRights.ProjectPermissionsAreLocal | backend/internal/data/pgschema/migrations/20260729000000_create_rbac_access_functions.sql:38-57 | tables that agree on a user's assignments in a project and in its organization, on what those roles carry, and on the user's system roles give the same permissions in the project, whatever happens in any other project |
| CustomRoleRights.OrgPermissionsAreLocal | backend/internal/data/pgschema/migrations/20260729000000_create_rbac_access_functions.sql:17-36 | the same for an organization: no assignment in a project matters there |
| CustomRoleRights.ProjectAssignmentGives | backend/internal/data/pgschema/migrations/20260729000000_create_rbac_access_functions.sql:38-57 | an assignment in a project gives its user exactly the role's permissions in that project, and nobody anything anywhere else |
| CustomRoleRights.OrgAssignmentGives | backend/internal/data/pgschema/migrations/20260729000000_create_rbac_access_functions.sql:17-57 | an assignment in an organization gives its user exactly the role's permissions there and in all its projects, and nobody anything anywhere else |
| CustomRoleCore.ReplacementIsUnguarded | backend/internal/core/pgstores/pgrbac/store_custom_role.go:78-89 | the queued delete and insert replace the permissions of an owned role whatever its ETag |
| CustomRoleCore.Store.UpdateCustomRole | backend/internal/core/pgstores/pgrbac/store_custom_role.go:64-101 | a failed batch leaves every table as it was, a successful one replaces name, ETag and permissions together; the error is the guarded update's |
| CustomRoleCore.Store.ModifyCustomRolePermissions | backend/internal/core/pgstores/pgrbac/store_custom_role.go:108-128 | a missing role or unregistered permission, then a stale ETag is reported and changes nothing; otherwise the permissions become (current + add) - remove, with the ETag renewed exactly on change |
| CustomRoleCore.DeletesRemove | backend/internal/core/pgstores/pgrbac/store_custom_role.go:134-169 | the four deletes take the role out of every table and nothing else |
| CustomRoleCore.Store.DeleteCustomRole | backend/internal/core/pgstores/pgrbac/store_custom_role.go:134-169 | deletes the role with its assignments and permissions, or reports no row and changes nothing |
| CustomRoleCore.Store.AssignCustomRoleToProject | backend/internal/core/pgstores/pgrbac/store_custom_role.go:256-271 | one row is added exactly when it was missing and user, role and project meet in one organization of which the user is a member |
| CustomRoleCore.Store.UnassignCustomRoleFromProject | backend/internal/core/pgstores/pgrbac/store_custom_role.go:277-292 | that row is removed exactly when it is there, under the same condition |
| CustomRoleCore.Store.AssignCustomRoleToOrg | backend/internal/core/pgstores/pgrbac/store_custom_role.go:299-314 | one row is added exactly when it was missing, the organization has the role and the user is a member |
| CustomRoleCore.Store.UnassignCustomRoleFromOrg | backend/internal/core/pgstores/pgrbac/store_custom_role.go:320-335 | that row is removed exactly when it is there, under the same condition |
| CustomRoleOperations.ValidNamePassesCheck | backend/internal/core/mdl/role.go:63-75 | a name that Validate accepts, with Unicode white space trimmed, satisfies the CHECK constraint of the table |
| CustomRoleOperations.Core.OrgPermissionsByProjectID | backend/internal/core/pgstores/pgrbac/query.go:37-60 | no row without user or project; the names are exactly those that some assignment of the user in the project's organization or some system role brings |
| CustomRoleOperations.Core.ProjectPermissionNames | backend/internal/core/pgstores/pgrbac/query.go:13-35 | the same with the assignments in this very project |
| CustomRoleOperations.ValidateCustomRolePerms | backend/internal/core/mdl/role.go:135-142 | the loop accepts exactly the lists without a system-only permission |
| CustomRoleOperations.Core.ValidateCustomRoleAssignmentScope | backend/internal/core/rbac/custom_role.go:584-598 | passes exactly when the set is project-scoped or the role has no project assignment, and never panics on registered permissions |
| CustomRoleOperations.Core.CheckEdit | backend/internal/core/rbac/custom_role.go:188-200 | the checks between read and write, in order; what passes them is registered |
| CustomRoleOperations.Core.CreateCustomRole | backend/internal/core/rbac/custom_role.go:106-153 | succeeds exactly when the request is valid, actor and project exist, each permission asked for comes to the actor by an assignment in the organization or a system role, and no role of the organization has the name; each error exactly when its test is the first to fail; one role with exactly those permissions is added |
| CustomRoleOperations.Core.UpdateCustomRole | backend/internal/core/rbac/custom_role.go:164-223 | (with permissions) succeeds exactly when the request is valid, the organization has the role, it is unmanaged, each permission that changes comes to the actor by some row, the scope fits its project assignments, the ETag is current and the name is free; each error exactly when its test is the first to fail; the role ends with exactly the permissions asked for, the new name and a new ETag |
| CustomRoleOperations.Core.RenameCustomRole | backend/internal/core/rbac/custom_role.go:225-241 | (name-only branch) succeeds exactly when the request is valid, the organization has the role under this ETag and the name is free; each error exactly when its test is the first to fail; only name and ETag change |
| CustomRoleOperations.Core.ModifyCustomRolePermissions | backend/internal/core/rbac/custom_role.go:253-308 | succeeds exactly when the request is valid, the organization has the role, it is unmanaged, each permission that is really added or removed comes to the actor by some row, the scope fits, what is removed is registered and the ETag is current; each error exactly when its test is the first to fail; the ETag is renewed exactly when a permission moves |
| CustomRoleOperations.Core.DeleteCustomRole | backend/internal/core/rbac/custom_role.go:314-352 | succeeds exactly when the organization has the role, it is unmanaged and each of its permissions comes to the actor by some assignment in the organization or a system role; refused exactly when one does not; then the role, its permissions and its assignments are gone and nothing else |
| CustomRoleOperations.Core.AssignCustomRoleToProject | backend/internal/core/rbac/custom_role.go:359-412 | succeeds exactly when the organization has the role, all its permissions are of project scope, each comes to the actor by an assignment in this very project or its organization or a system role, the target is a member and has not got the role there; each error exactly when its test is the first to fail; one row is added |
| CustomRoleOperations.Core.UnassignCustomRoleFromProject | backend/internal/core/rbac/custom_role.go:418-461 | succeeds exactly when the organization has the role, each of its permissions comes to the actor in this project, the target is a member and has the role there; each error exactly when its test is the first to fail; exactly that row is removed |
| CustomRoleOperations.Core.AssignCustomRoleToOrg | backend/internal/core/rbac/custom_role.go:468-515 | succeeds exactly when the organization has the role, each of its permissions comes to the actor in the organization, the target is a member and has not got the role; each error exactly when its test is the first to fail; one row is added |
| CustomRoleOperations.Core.UnassignCustomRoleFromOrg | backend/internal/core/rbac/custom_role.go:521-564 | succeeds exactly when the organization has the role, each of its permissions comes to the actor in the organization, the target is a member and has the role; each error exactly when its test is the first to fail; exactly that row is removed |
| CustomRoleAnswers.CreateIsAnswered | backend/internal/core/rbac/custom_role.go:106-153 | the specification of a creation, which the code and an undisturbed run of the protocol meet, succeeds, fails and writes rows exactly as stated for that operation above |
| CustomRoleAnswers.UpdateIsAnswered | backend/internal/core/rbac/custom_role.go:164-223 | the specification of an update with permissions, which the code and an undisturbed run of the protocol meet, succeeds, fails and writes rows exactly as stated for that operation above |
| CustomRoleAnswers.RenameIsAnswered | backend/internal/core/rbac/custom_role.go:225-241 | the specification of a name-only update, which the code and an undisturbed run of the protocol meet, succeeds, fails and writes rows exactly as stated for that operation above |
| CustomRoleAnswers.ModifyIsAnswered | backend/internal/core/rbac/custom_role.go:253-308 | the specification of a modification, which the code and an undisturbed run of the protocol meet, succeeds, fails and writes rows exactly as stated for that operation above |
| CustomRoleAnswers.DeleteIsAnswered | backend/internal/core/rbac/custom_role.go:314-352 | the specification of a delete, which the code and an undisturbed run of the protocol meet, succeeds, fails and writes rows exactly as stated for that operation above |
| CustomRoleAnswers.AssignToProjectIsAnswered | backend/internal/core/rbac/custom_role.go:359-412 | the specification of an assignment in a project, which the code and an undisturbed run of the protocol meet, succeeds, fails and writes rows exactly as stated for that operation above |
| CustomRoleAnswers.UnassignFromProjectIsAnswered | backend/internal/core/rbac/custom_role.go:418-461 | the specification of an unassignment in a project, which the code and an undisturbed run of the protocol meet, succeeds, fails and writes rows exactly as stated for that operation above |
| CustomRoleAnswers.AssignToOrgIsAnswered | backend/internal/core/rbac/custom_role.go:468-515 | the specification of an assignment in the organization, which the code and an undisturbed run of the protocol meet, succeeds, fails and writes rows exactly as stated for that operation above |
| CustomRoleAnswers.UnassignFromOrgIsAnswered | backend/internal/core/rbac/custom_role.go:521-564 | the specification of an unassignment in the organization, which the code and an undisturbed run of the protocol meet, succeeds, fails and writes rows exactly as stated for that operation above |
| CustomRoleInvariants.CommitKeepsOther | backend/internal/core/pgstores/pgrbac/store_custom_role.go:240-250 | what a transaction has read under the role lock, and the row version it has written over, survive every other transaction's commit |
| CustomRoleInvariants.EditCommitsReplacement | backend/internal/core/rbac/custom_role.go:279-300 | an edit commits exactly the permissions computed from what it read, and no other permission or assignment row |
| CustomRoleInvariants.MoveKeepsInv | backend/internal/core/rbac/custom_role.go:566-582 | every action of every interleaving keeps locks, guards and pending writes consistent |
| CustomRoleEffects.CallsTakeEffect | backend/internal/core/rbac/custom_role.go:106-582 | in every reachable state the commit of a call writes exactly the rows its request names - the role, its permissions and its assignments, each spelled out - and ends in success, whatever runs beside it; the end of a failed call writes nothing and reports its error |
| CustomRoleMembers.OnlyMembersAreAssigned | backend/internal/core/pgstores/pgrbac/query_custom_role.go:538-552 | in every reachable state everybody who has a role in an organization or its projects is a member of it, and every assignment and unassignment about to commit names a member |
| CustomRoleAuthority.AuthorityNeverGrows | backend/internal/core/rbac/custom_role.go:106-582 | over every interleaving, what anyone holds in an organization that existed at the start, or in its projects, is bounded by what someone held there at the start |
| CustomRoleAuthority.HeldWasHeld | backend/internal/data/pgschema/migrations/20260729000000_create_rbac_access_functions.sql:17-57 | the effective permissions of the SQL functions stay within the start under the invariant |
| CustomRoleScope.RoleRulesAlwaysHold | backend/internal/core/rbac/custom_role.go:368-407 | in every reachable committed state, with organizations created while calls are in flight, no role with a project assignment exceeds project scope, no custom role holds a system-only permission, and managed roles keep their canonical permissions, are never deleted and never assigned in a project |
| CustomRoleScope.FoundedTables | backend/internal/core/org/org.go:157-180 | creating an organization beside any calls in flight adds a managed role with its rules and disturbs no other role |
| CustomRoleScope.BootstrapStatements | backend/internal/core/org/org.go:157-180 | the two statements of the bootstrap write exactly those rows and leave the creator holding every administrator permission |
| CustomRoleETags.ETagsIdentifyContent | backend/internal/core/pgstores/pgrbac/query_custom_role.go:68-147 | in any two committed states of a run, equal ETags mean the same role with the same name and permissions |
| CustomRoleETags.EditsAreNeverLost | backend/internal/core/pgstores/pgrbac/query_custom_role.go:231-241 | every edit that commits was applied to exactly the permissions its client's ETag stood for, changed only permissions its actor held, and renewed the ETag exactly when something was written |
| CustomRoleForeignKeys.ForeignKeysAlwaysHold | backend/internal/data/pgschema/migrations/20260716180931_create_project_org_role_assignments_tables.sql:3-41 | in every reachable committed state no permission row and no assignment refers to a missing role, so runs compose |
| CustomRoleErrors.WriteErrorsAreExact | backend/internal/core/rbac/custom_role.go:201-345 | in every reachable state, for every call about to write: a missing row is reported for a role that exists exactly when its ETag was renewed between snapshot and write; a delete fails exactly when the role was assigned in the organization after its assignments were deleted; a modify that removes registered permissions fails exactly for its ETag; an assignment is a duplicate exactly when the row is in the tables it goes into, and in the organization fails on the foreign key exactly when its role is gone |
| CustomRoleRaces.LosingRenameIsToldNotFound | backend/internal/core/rbac/custom_role.go:225-241 | a run of two renames whose second is told that the role does not exist |
| CustomRoleRaces.OvertakenEditFails | backend/internal/core/rbac/custom_role.go:201-216 | a run in which a rename overtakes a permission edit, which ends in the error called impossible |
| CustomRoleRaces.OvertakenDeleteFails | backend/internal/core/rbac/custom_role.go:323-349 | a run in which an assignment makes a delete fail on the foreign key |
| CustomRoleRaces.SwappedNamesDeadlock | backend/internal/data/pgschema/migrations/20260713150002_create_roles_table.sql:25-26 | a run of two renames that swap the names of two roles, after which neither can take another step |
| CustomRoleRaces.AssignmentGrantsMoreThanHeld | backend/internal/core/rbac/custom_role.go:479-500 | a run in which somebody who holds nothing assigns a role that has gained a permission since it was read |
| CustomRoleNames.NamesStayUnique | backend/internal/data/pgschema/migrations/20260713150002_create_roles_table.sql:25-26 | in every reachable committed state no organization has two roles whose names differ only in case, though names are only compared with committed rows |
| CustomRoleNames.KeepingItsNameIsFree | backend/internal/data/pgschema/migrations/20260713150002_create_roles_table.sql:25-26 | in every reachable state a call that has written a role's row would neither wait nor fail at the index for the name the role already has |
| CustomRoleGrants.ProjectGrantsAreHeld | backend/internal/core/rbac/custom_role.go:359-407 | in every reachable state an assignment in a project about to commit gives away a role all of whose permissions its actor was found to hold |
| CustomRoleGrants.HeldSinceTheRead | backend/internal/core/rbac/custom_role.go:418-564 | over any run that follows the read of a role by an assignment or unassignment, the actor holds all of the role, as found then, if and only if no edit of the role commits that adds a permission beyond that |
| CustomRoleGrants.DeletesAreHeld | backend/internal/core/rbac/custom_role.go:314-349 | in every reachable state a delete about to commit takes away a role all of whose permissions, as it then is, its actor was found to hold |
| CustomRoleGrants.HeldWasFound | backend/internal/data/pgschema/migrations/20260729000000_create_rbac_access_functions.sql:17-57 | over every run what a call goes by is exactly what the rows of one state since it began gave its actor: in the project for assignments and unassignments there, in the organization otherwise |
| CustomRoleDeadlock.StepsUnlessWaiting | backend/internal/data/pgschema/migrations/20260713150002_create_roles_table.sql:25-26 | a call can take its next step if and only if it waits for no other call: for the role lock, an assignment row, the role's row or a name |
| CustomRoleDeadlock.DeadlocksAreNameCycles | backend/internal/data/pgschema/migrations/20260713150002_create_roles_table.sql:25-26 | in every reachable state some calls all wait for each other if and only if calls that have written a role's row ask in a cycle for the names they are giving up |
| CustomRoleDeadlock.NobodyMovesExactlyWhen | backend/internal/core/pgstores/pgrbac/store_custom_role.go:240-250 | in every reachable state no unfinished call can take a step if and only if the waits of each lead to such a cycle; without one, while a call is unfinished, some call can |
| CustomRoleDeadlock.CyclesStayUntilCancelled | backend/internal/data/pgdb/errors.go:24-35 | whatever happens, such a cycle stays until one of its calls is cancelled |
| CustomRoleDeadlock.SomebodyMoves | backend/internal/core/rbac/custom_role.go:164-241 | two conditions a caller can see to: with one rename in flight per organization, or if nobody asks for the present name of a role that somebody is renaming, some call can take a step |
| CustomRoleProgress.CallsAreShort | backend/internal/core/rbac/custom_role.go:106-582 | in every reachable state a step lowers its call's remaining steps, at most ten, and leaves every other call alone |
| CustomRoleAlone.AdvanceDescends | backend/internal/core/rbac/custom_role.go:106-582 | whatever others do, each step of a call leaves it fewer steps of its own |
| CustomRoleAlone.AloneIsExpected | backend/internal/core/rbac/custom_role.go:106-582 | an undisturbed step program commits exactly the specified change or rolls back with exactly the specified error |
| AuthCore.Core.LatestMagicLinkTokenCreatedAt | backend/internal/core/pgstores/pgauth/query.go:91-109 | the newest creation time among the user's links, if there is one |
| AuthCore.Core.MagicLinkToken | backend/internal/core/auth/auth.go:138-195 | not found exactly without the user; refused exactly when the limit is positive and a link of that very user is younger than it; served otherwise: then one new link, that user's live links used up, everybody else's untouched |
| AuthCore.Core.VerifyMagicLink | backend/internal/core/auth/auth.go:200-243 | succeeds exactly for an unused, unexpired link, which is used up, with its owner's address verified and one session stored for the owner; otherwise nothing changes; the user can never be missing |
| AuthCore.Core.RefreshAccessToken | backend/internal/core/auth/auth.go:249-277 | succeeds exactly for an unrevoked, unexpired token, which is revoked, with one of full lifetime stored for its owner; otherwise nothing changes |
| AuthCore.Core.RevokeRefreshToken | backend/internal/core/auth/auth.go:282-297 | succeeds exactly for an unrevoked, unexpired token, and changes only its mark |
| AuthCore.Core.RevokeAllUserRefreshTokens | backend/internal/core/auth/auth.go:300-305 | every session of the user is marked as revoked, and nothing else changes |
| AuthCore.Core.InvalidateUserMagicLinkTokens | backend/internal/core/pgstores/pgauth/query.go:111-130 | marks exactly the user's live links as used |
| AuthCore.Core.ConsumeMagicLinkToken | backend/internal/core/pgstores/pgauth/query.go:132-152 | the guarded update uses up the link exactly when it is unused and unexpired |
| AuthCore.Core.ConsumeRefreshToken | backend/internal/core/pgstores/pgauth/query.go:181-203 | the guarded update revokes the token exactly when it is unrevoked and unexpired |
| AuthInvariants.AtMostOneLiveLink | backend/internal/core/auth/auth.go:155-187 | in every reachable state a user has at most one unused unexpired link, with NOW() fixed before the wait for the user lock |
| AuthInvariants.EverythingIsUsedOnce | backend/internal/core/pgstores/pgauth/query.go:132-203 | over a run a link yields at most one pair and a session is rotated or revoked at most once |
| AuthInvariants.SessionsAreConserved | backend/internal/core/auth/auth.go:200-305 | each chain has at most one unrevoked token; stored tokens count the pairs handed out; live sessions count redemptions less revocations |
| AuthInvariants.OnlyCommitsChangeTables | backend/internal/core/auth/auth.go:200-297 | a call that fails or has not committed has changed nothing |
| AuthInvariants.CommitKeepsOneLink | backend/internal/core/pgstores/pgauth/query.go:111-130 | the commit of any call keeps at most one live link per user |
| AuthInvariants.AloneIsAtomic | backend/internal/core/auth/auth.go:138-305 | an undisturbed step program settles on the writes and the outcome of the atomic call, in whatever order a revocation of all sessions finds its rows |
| AuthHistory.IssuancesKeepDistance | backend/internal/core/auth/auth.go:155-187 | over every interleaving the creation times of two links of a user differ by the rate limit less the later call's wait between its start and its check |
| AuthHistory.RateLimitBoundsWindows | backend/internal/core/auth/auth.go:160-180 | over every interleaving with waits of at most D, any window of length W holds at most W / (L - D) + 1 issuances to a user |
| AuthHistory.RefusedExactlyForOwnLinks | backend/internal/core/auth/auth.go:160-169 | in every reachable state the rate check refuses a call exactly when the limit is positive and a link of that very user is younger; otherwise the call goes on to issue |
| AuthHistory.OthersNeverCauseRefusal | backend/internal/core/pgstores/pgauth/query.go:91-109 | over every run a call that was refused is an issuance to a user who has a link; links of others never cause a refusal |
| AuthRaces.WaitingShortensDistance | backend/internal/core/auth/auth.go:156-180 | for every rate limit L and every wait D up to L, a run whose two links are created exactly L - D apart |
| AuthRaces.AllowedWait | backend/internal/core/auth/auth.go:156-187 | links to one user are at least g > 0 apart in all runs with waits of at most D if and only if D <= L - g |
| AuthRaces.OppositeScansDeadlock | backend/internal/core/pgstores/pgauth/query.go:205-228 | a run of two revocations of all sessions of a user, after which neither can take another step |
| AuthDeadlock.StepsUnlessWaiting | backend/internal/core/pgstores/pgauth/store.go:168-179 | a call can take its next step if and only if it waits for no other call: for the user lock, a row of a link or session, or the user's row |
| AuthDeadlock.DeadlocksAreRevocations | backend/internal/core/pgstores/pgauth/query.go:205-228 | in every reachable state some calls all wait for each other if and only if revocations of all sessions wait in a cycle for rows that the next one has |
| AuthDeadlock.NobodyMovesExactlyWhen | backend/internal/core/auth/auth.go:138-305 | in every reachable state no unfinished call can take a step if and only if the waits of each lead to such a cycle; without one, while a call is unfinished, some call can |
| AuthDeadlock.CommonOrderMoves | backend/internal/core/pgstores/pgauth/query.go:205-228 | if all scans find sessions in a common order, some unfinished call can always take a step |
| AuthDeadlock.OneRevocationMoves | backend/internal/core/auth/auth.go:299-305 | the same if each user has at most one revocation of all sessions in flight |
| AuthDeadlock.CallsFinish | backend/internal/core/auth/auth.go:138-305 | every step brings its call to a later stage, or takes one session off those it has to revoke, and leaves every other call alone |
| AuthTime.RateLimitBoundsWindows | backend/internal/core/auth/auth.go:160-180 | without waits, any window of length W holds at most W / L + 1 issuances to a user, over runs of any length |
| AuthHistory.VerifiedMeansRedeemed | backend/internal/core/auth/auth.go:225-229 | in every reachable state an address is verified exactly if it was at the start or one of the user's links was redeemed |
| AuthTime.PromptSessionsLive | backend/internal/core/auth/auth.go:249-277 | without revocation all rotations of a chain succeed if and only if every gap is strictly less than the refresh lifetime |
| AuthTime.ExpiredSessionsEnd | backend/internal/core/pgstores/pgauth/query.go:181-203 | after expiry no call with that token ever succeeds |
| AuthTime.FirstGapEndsChain | backend/internal/core/auth/auth.go:249-277 | all rotations succeed as long as every gap is below the lifetime; after the first gap of at least the lifetime no token that ever belonged to the chain is live again and none is added, whatever is called |
| AuthHistory.RevokeAllReachesWhatItSaw | backend/internal/core/pgstores/pgauth/query.go:205-228 | over every interleaving the commit of a revocation of all sessions leaves exactly the user's sessions that were committed after its statement began |
| AuthTime.RevokedUserStaysSignedOut | backend/internal/core/pgstores/pgauth/query.go:205-228 | after a revocation that nothing runs beside, the user has no session until a link is redeemed |
| Tx.Session.RunTxCall | backend/internal/data/pgdb/tx.go:51-81 | a joining call does what its closure does; the owner returns nil exactly when the closure does and the commit is accepted, which commits everything pending, unless the closure has ended the transaction itself |
| Tx.Session.RunBatchTxCall | backend/internal/data/pgdb/batch.go:52-86 | joined or not, the call returns nil exactly when all is sent on an open transaction and the commit is accepted, commits what was pending together with its rows, and ends the transaction either way |
| Tx.Session.BeginPoolTx | backend/internal/data/pgdb/tx.go:86-105 | opens a transaction exactly when the context has none |
| Tx.NestedRunTxIsAtomic | backend/internal/data/pgdb/tx.go:42-81 | any nesting of RunTx with any error handling commits every row sent (nil) or none (error) |
| Tx.SuccessCommits | backend/internal/data/pgdb/tx.go:69-81 | the outermost RunTx returns nil if and only if its closure did, no statement had failed on the way and the commit was accepted; the committed rows are then the earlier ones followed by every row sent, and otherwise the earlier ones |
| Tx.StatementsCommitTogether | backend/internal/data/pgdb/tx.go:42-81 | statements that return their first error commit all together, in order, and return nil, if and only if each of them and the commit succeed |
| Tx.OutermostRunTxIsAtomic | backend/internal/data/pgdb/batch.go:52-86 | the same with joining batches that come last and whose error is returned |
| Tx.CustomRoleCallersAreAtomic | backend/internal/core/rbac/custom_role.go:179-221 | the custom-role operations have that shape |
| Tx.NothingMayFollowBatchTx | backend/internal/data/pgdb/batch.go:60-83 | for any batch result, any code after it and any handler of its error: all or nothing holds exactly when, after a commit, the rest returns nil and sends nothing, or after a failure the handler returns an error; with the exact provisos for a call that sent nothing |
| Tx.JoinedBatchTxOutlivesError | backend/internal/data/pgdb/batch.go:81-83 | a row that stays committed although the outermost call returns an error |
| Tx.SwallowedBatchErrorLosesRows | backend/internal/data/pgdb/batch.go:60-66 | a row that is lost although the outermost call returns nil |
| Idempotency.WriteScoped | backend/internal/api/grpc/unary_interceptors.go:75-82 | the pieces written to the hash are the preimage |
| Idempotency.SplitRecoversParts | backend/internal/api/grpc/unary_interceptors.go:65-84 | the first two zero bytes and the last one give back user, method, payload and key, for any payload |
| Idempotency.PreimageIsInjective | backend/internal/api/grpc/unary_interceptors.go:65-84 | equal preimages come from equal requests of the same caller |
| Paging.ListUsers | backend/internal/api/grpc/user.go:116-147 | page, next offset and whether there is one |
| Paging.Walk | backend/internal/api/grpc/user.go:116-147 | following the tokens with any requested sizes ends, every page but the last is full, and the pages are the list, once each, in order |

## Left out

- A delete locks all the assignment rows that it has found in one step, where the database locks them one after the
  other; so an unassignment may wait for it a little earlier than it would.
- The role row has one identifier where the database has an internal and an external one; the project context has
  one organization.
- Users, memberships, projects and system roles stay as they are during a run of role calls. An organization that is
  created during a run is in the model's list of organizations from the start, without roles.
- System-role changes are single steps between the statements of custom-role calls; that is what
  `SystemRoleProtocol.InterleavingsRefineAtomic` allows.
- The creation of an organization is one step between those statements: nobody else sees its rows before it commits.
- Which call the database picks to end a deadlock, and when: any call may fail at any time. Calls of different kinds
  (system roles, custom roles, tokens) lock nothing in common and are run apart.
- `lower` in the unique index on role names is modelled for ASCII letters.
- Name validation in the interleavings, which admit any name that the table constraints accept.
- AuthTime.RateLimitBoundsWindows: states calls as instants; AuthHistory.RateLimitBoundsWindows states them with waits.
- AuthTime.RevokedUserStaysSignedOut: states the revocation as one instant, because it takes no user lock;
  AuthHistory.RevokeAllReachesWhatItSaw says what it reaches beside other calls.
- The access token, and timestamps other than those of links and sessions.
- Tx.OutermostRunTxIsAtomic: a failure to begin a transaction or to set its local settings happens before any
  statement and is not modelled; closures are scripts of statements, nested calls and error branches on one context.
- Paging.Walk: the user list does not change during the walk, and filters and orders are those of the first call.
- Listing and lookup calls, conversions between layers, error-to-status mapping, gRPC, telemetry, email, workflow
  durability and cryptography: no protocol state of their own.
