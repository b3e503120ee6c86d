/**
 The data-only permission revisions: grants of a role are copied (e7f8), revoked (f6a7, b9d2, c1e4),
 and put back on the way down (b9d2, c1e4).
*/
module PermissionRevisions {
  import opened Wrappers

  datatype Grant = Permit | Deny

  datatype Permission = Read | All | Create | Execute | Named(name: string)

  /** A row of `permission_assignment`. */
  datatype Assignment = Assignment(principal: int, target: int, grant: Grant, permission: Permission)

  datatype Target = Target(command: Option<string>, resourceType: Option<string>, resourceId: Option<string>)

  datatype Group = Group(identifier: string, authorizationKey: Option<string>)

  datatype Auth = Auth(
    targets: map<int, Target>,
    groups: map<int, Group>,
    principals: map<int, Option<int>>,
    tenants: set<string>,
    seeds: map<string, int>,
    assignments: set<Assignment>)

  /** The unique constraint on (principal, target, permission). */
  ghost predicate Unique(rows: set<Assignment>) {
    forall a, b | a in rows && b in rows && SameSlot(a, b) :: a == b
  }

  predicate SameSlot(a: Assignment, b: Assignment) {
    a.principal == b.principal && a.target == b.target && a.permission == b.permission
  }

  function Denies(rows: set<Assignment>): set<Assignment> { set a | a in rows && a.grant == Deny }

  predicate Taken(rows: set<Assignment>, principal: int, target: int, permission: Permission) {
    exists a | a in rows :: a.principal == principal && a.target == target && a.permission == permission
  }

  // ------------------------------------------------------------------ whose grants

  function Qualified(tenant: string, role: string): string { tenant + ":" + role }

  /** Tenant-qualified groups of a real tenant and, on request, the legacy global groups. */
  predicate OfRole(identifier: string, tenants: set<string>, roles: set<string>, legacyGlobal: bool) {
    || (exists t, r | t in tenants && r in roles :: identifier == Qualified(t, r))
    || (legacyGlobal && identifier in roles)
  }

  function RolePrincipals(auth: Auth, roles: set<string>, legacyGlobal: bool): set<int> {
    set p | p in auth.principals && auth.principals[p].Some? && auth.principals[p].value in auth.groups
            && OfRole(auth.groups[auth.principals[p].value].identifier, auth.tenants, roles, legacyGlobal)
  }

  predicate Plain(role: string) { ':' !in role }

  lemma NoColonAfter(t: string, r: string, i: nat)
    requires Plain(r) && |t| < i < |Qualified(t, r)|
    ensures Qualified(t, r)[i] != ':'
  {
    assert Qualified(t, r)[i] == r[i - |t| - 1];
  }

  /** A qualified identifier names one tenant and one role, whatever colons the tenant id has. */
  lemma QualifiedIsInjective(t: string, r: string, u: string, s: string)
    requires Plain(r) && Plain(s)
    ensures Qualified(t, r) == Qualified(u, s) <==> t == u && r == s
  {
    if Qualified(t, r) == Qualified(u, s) {
      var id := Qualified(t, r);
      assert id[|t|] == ':' && id[|u|] == ':';
      assert |u| <= |t| by { forall i | |t| < i < |id| ensures id[i] != ':' { NoColonAfter(t, r, i); } }
      assert |t| <= |u| by { forall i | |u| < i < |id| ensures id[i] != ':' { NoColonAfter(u, s, i); } }
      assert id[..|t|] == t && id[..|u|] == u;
      assert id[|t| + 1..] == r && id[|u| + 1..] == s;
    }
  }

  /** So a revision over some roles never reaches a tenant's group of another one. */
  lemma OtherRolesAreUntouched(tenant: string, role: string, tenants: set<string>, roles: set<string>,
      legacyGlobal: bool)
    requires Plain(role) && role !in roles && forall r | r in roles :: Plain(r)
    ensures !OfRole(Qualified(tenant, role), tenants, roles, legacyGlobal)
  {
    forall t, r | t in tenants && r in roles ensures Qualified(tenant, role) != Qualified(t, r) {
      QualifiedIsInjective(tenant, role, t, r);
    }
    assert Qualified(tenant, role)[|tenant|] == ':';
    assert !Plain(Qualified(tenant, role));
  }

  // ------------------------------------------------------------------ e7f8

  const LIFECYCLE: set<string> := {"process.suspend", "process.resume", "process.retry", "process.terminate"}

  predicate IsLegacy(auth: Auth, a: Assignment) {
    && a.permission == Create && a.target in auth.targets
    && auth.targets[a.target].command.Some? && auth.targets[a.target].command.value in LIFECYCLE
  }

  /** Legacy `create` rows on lifecycle targets that have no `execute` row beside them. */
  function WithoutExecute(auth: Auth): set<Assignment> {
    set a | a in auth.assignments && IsLegacy(auth, a) && !Taken(auth.assignments, a.principal, a.target, Execute)
  }

  function AsExecute(a: Assignment): Assignment { a.(permission := Execute) }

  function BackfillExecute(auth: Auth): Auth {
    auth.(assignments := auth.assignments + set a | a in WithoutExecute(auth) :: AsExecute(a))
  }

  /** The "backfill is incomplete" error cannot be raised. */
  lemma BackfillIsComplete(auth: Auth)
    ensures WithoutExecute(BackfillExecute(auth)) == {}
  {
    var after := BackfillExecute(auth).assignments;
    forall a | a in after && IsLegacy(auth, a) ensures Taken(after, a.principal, a.target, Execute) {
      assert a in auth.assignments;
      if a in WithoutExecute(auth) {
        assert AsExecute(a) in after;
      } else {
        var b :| b in auth.assignments && b.principal == a.principal && b.target == a.target && b.permission == Execute;
        assert b in after;
      }
    }
  }

  /** The insert meets no row in its slots, copies each grant type, and leaves every row there was. */
  lemma BackfillOnlyFillsFreeSlots(auth: Auth)
    requires Unique(auth.assignments)
    ensures Unique(BackfillExecute(auth).assignments) && auth.assignments <= BackfillExecute(auth).assignments
    ensures forall b | b in BackfillExecute(auth).assignments && b !in auth.assignments ::
              b.permission == Execute && b.(permission := Create) in auth.assignments
  {
    var after := BackfillExecute(auth).assignments;
    forall b | b in after && b !in auth.assignments
      ensures b.permission == Execute && b.(permission := Create) in WithoutExecute(auth)
    {
      var a :| a in WithoutExecute(auth) && AsExecute(a) == b;
      assert b.(permission := Create) == a;
    }
  }

  // ------------------------------------------------------------------ the revokes

  function Revoke(auth: Auth, principals: set<int>, targets: set<int>, permissions: set<Permission>): Auth {
    auth.(assignments := set a | a in auth.assignments && !Revoked(a, principals, targets, permissions))
  }

  predicate Revoked(a: Assignment, principals: set<int>, targets: set<int>, permissions: set<Permission>) {
    a.principal in principals && a.target in targets && a.permission in permissions && a.grant == Permit
  }

  function TargetsOf(auth: Auth, resources: set<string>): set<int> {
    set id | id in auth.targets && auth.targets[id].resourceType == Some("tenant")
             && auth.targets[id].resourceId.Some? && auth.targets[id].resourceId.value in resources
  }

  function CommandTargets(auth: Auth, resource: string, command: string): set<int> {
    set id | id in auth.targets && auth.targets[id].resourceType == Some("tenant")
             && auth.targets[id].resourceId == Some(resource) && auth.targets[id].command == Some(command)
  }

  const INSTANCES: string := "/process-instances"
  const ONE_INSTANCE: string := "/process-instances/%"
  const HOME_COUNT: string := "/m8flow/home-task-count"

  function InstanceTargets(auth: Auth): set<int> { TargetsOf(auth, {INSTANCES, ONE_INSTANCE}) }

  function RestoredTargets(auth: Auth): set<int> {
    CommandTargets(auth, INSTANCES, "process_instance.list")
      + CommandTargets(auth, ONE_INSTANCE, "process_instance.read")
  }

  /** f6a7. */
  function RevokeHomeCount(auth: Auth): Auth {
    Revoke(auth, RolePrincipals(auth, {"editor"}, true), CommandTargets(auth, HOME_COUNT, "read"), {Read})
  }

  /** The upgrade of b9d2 (submitters) and of c1e4 (editors and viewers). */
  function RevokeInstances(auth: Auth, roles: set<string>): Auth {
    Revoke(auth, RolePrincipals(auth, roles, true), InstanceTargets(auth), {Read, All})
  }

  function Missing(rows: set<Assignment>, principals: set<int>, targets: set<int>): set<Assignment> {
    set p, t | p in principals && t in targets && !Taken(rows, p, t, Read) :: Assignment(p, t, Permit, Read)
  }

  /** Their downgrade; c1e4 leaves the legacy global groups out, b9d2 does not. */
  function RestoreInstances(auth: Auth, roles: set<string>, legacyGlobal: bool): Auth {
    auth.(assignments := auth.assignments
      + Missing(auth.assignments, RolePrincipals(auth, roles, legacyGlobal), RestoredTargets(auth)))
  }

  const SUBMITTER: set<string> := {"submitter"}
  const READERS: set<string> := {"editor", "viewer"}

  lemma RevokeKeepsDenies(auth: Auth, principals: set<int>, targets: set<int>, permissions: set<Permission>)
    ensures Denies(Revoke(auth, principals, targets, permissions).assignments) == Denies(auth.assignments)
    ensures Unique(auth.assignments) ==> Unique(Revoke(auth, principals, targets, permissions).assignments)
  {
  }

  lemma RestoreKeepsDenies(auth: Auth, roles: set<string>, legacyGlobal: bool)
    requires Unique(auth.assignments)
    ensures Denies(RestoreInstances(auth, roles, legacyGlobal).assignments) == Denies(auth.assignments)
    ensures Unique(RestoreInstances(auth, roles, legacyGlobal).assignments)
    ensures auth.assignments <= RestoreInstances(auth, roles, legacyGlobal).assignments
  {
    hide RolePrincipals, RestoredTargets;
  }

  /** What is restored is what a second revoke takes away again. */
  lemma RestoredIsRevocable(auth: Auth, roles: set<string>, legacyGlobal: bool, a: Assignment)
    requires a in Missing(auth.assignments, RolePrincipals(auth, roles, legacyGlobal), RestoredTargets(auth))
    ensures Revoked(a, RolePrincipals(auth, roles, true), InstanceTargets(auth), {Read, All})
  {
    hide OfRole;
    LegacyOnlyAdds(auth, roles);
  }

  lemma LegacyOnlyAdds(auth: Auth, roles: set<string>)
    ensures RolePrincipals(auth, roles, false) <= RolePrincipals(auth, roles, true)
  {
    forall p | p in RolePrincipals(auth, roles, false) ensures p in RolePrincipals(auth, roles, true) {
      var id := auth.groups[auth.principals[p].value].identifier;
      var t, r :| t in auth.tenants && r in roles && id == Qualified(t, r);
    }
  }

  /** Up, down and up again is up. */
  lemma UpDownUpIsUp(auth: Auth, roles: set<string>, legacyGlobal: bool)
    ensures var up := RevokeInstances(auth, roles);
            RevokeInstances(RestoreInstances(up, roles, legacyGlobal), roles) == up
  {
    var up := RevokeInstances(auth, roles);
    var principals, targets := RolePrincipals(auth, roles, true), InstanceTargets(auth);
    assert RolePrincipals(up, roles, true) == principals && InstanceTargets(up) == targets;
    var down := RestoreInstances(up, roles, legacyGlobal);
    assert RolePrincipals(down, roles, true) == principals && InstanceTargets(down) == targets;
    forall a ensures a in RevokeInstances(down, roles).assignments <==> a in up.assignments {
      hide RolePrincipals, InstanceTargets, RestoredTargets;
      if a in Missing(up.assignments, RolePrincipals(up, roles, legacyGlobal), RestoredTargets(up)) {
        RestoredIsRevocable(up, roles, legacyGlobal, a);
      }
    }
  }

  predicate RevokedFrom(auth: Auth, roles: set<string>, a: Assignment) {
    Revoked(a, RolePrincipals(auth, roles, true), InstanceTargets(auth), {Read, All})
  }

  /** No principal of these roles holds a tenant-wide read, by any permission that implies it. */
  ghost predicate NoTenantWideRead(auth: Auth, roles: set<string>) {
    forall a | a in auth.assignments :: !RevokedFrom(auth, roles, a)
  }

  lemma OfEitherRole(identifier: string, tenants: set<string>, some: set<string>, others: set<string>)
    ensures OfRole(identifier, tenants, some + others, true) <==>
            OfRole(identifier, tenants, some, true) || OfRole(identifier, tenants, others, true)
  {
  }

  lemma PrincipalsOfBoth(auth: Auth, some: set<string>, others: set<string>)
    ensures RolePrincipals(auth, some + others, true) ==
            RolePrincipals(auth, some, true) + RolePrincipals(auth, others, true)
  {
    hide OfRole;
    forall p | p in auth.principals && auth.principals[p].Some? && auth.principals[p].value in auth.groups
      ensures p in RolePrincipals(auth, some + others, true) <==>
              p in RolePrincipals(auth, some, true) || p in RolePrincipals(auth, others, true)
    {
      OfEitherRole(auth.groups[auth.principals[p].value].identifier, auth.tenants, some, others);
    }
  }

  /** Revoking from some roles and then from others, in either order, is revoking from all of them at once. */
  lemma RevokesAddUp(auth: Auth, some: set<string>, others: set<string>)
    ensures RevokeInstances(RevokeInstances(auth, some), others) == RevokeInstances(auth, some + others)
    ensures NoTenantWideRead(RevokeInstances(auth, some + others), some + others)
  {
    hide OfRole;
    var mid := RevokeInstances(auth, some);
    var all := RevokeInstances(auth, some + others);
    assert RolePrincipals(mid, others, true) == RolePrincipals(auth, others, true);
    assert RolePrincipals(all, some + others, true) == RolePrincipals(auth, some + others, true);
    assert InstanceTargets(mid) == InstanceTargets(all) == InstanceTargets(auth);
    PrincipalsOfBoth(auth, some, others);
    hide RolePrincipals, InstanceTargets;
  }

  /** The two revisions, from whatever state: no submitter, editor or viewer is left with such a permit. */
  lemma AfterBothRevokes(auth: Auth)
    ensures var after := RevokeInstances(RevokeInstances(auth, SUBMITTER), READERS);
            after == RevokeInstances(auth, SUBMITTER + READERS) && NoTenantWideRead(after, SUBMITTER + READERS)
  {
    RevokesAddUp(auth, SUBMITTER, READERS);
  }

  /** The rows a downgrade of c1e4 can put back: a seeded read of a tenant-qualified group. */
  predicate Seeded(auth: Auth, roles: set<string>, legacyGlobal: bool, a: Assignment) {
    && a.permission == Read && a.grant == Permit
    && a.principal in RolePrincipals(auth, roles, legacyGlobal) && a.target in RestoredTargets(auth)
  }

  lemma UndoesExactlyWhen(rows: set<Assignment>, up: set<Assignment>, principals: set<int>, targets: set<int>)
    requires up <= rows && Unique(rows) && forall a | a in rows && a !in up :: a.grant == Permit
    ensures up + Missing(up, principals, targets) == rows <==>
            && (forall a | a in rows && a !in up ::
                   a.permission == Read && a.principal in principals && a.target in targets)
            && Missing(rows, principals, targets) == {}
  {
    var back := up + Missing(up, principals, targets);
    if back == rows {
      forall p, t | p in principals && t in targets ensures Taken(rows, p, t, Read) {
        var a := Assignment(p, t, Permit, Read);
        if !Taken(up, p, t, Read) { assert a in back; }
      }
      forall a | a in rows && a !in up
        ensures a.permission == Read && a.principal in principals && a.target in targets
      {
        assert a in Missing(up, principals, targets);
      }
    }
    if (forall a | a in rows && a !in up :: a.permission == Read && a.principal in principals && a.target in targets)
       && Missing(rows, principals, targets) == {} {
      forall a | a in rows && a !in up ensures a in Missing(up, principals, targets) {
        assert a == Assignment(a.principal, a.target, Permit, Read);
        assert !Taken(up, a.principal, a.target, Read);
      }
      forall a | a in Missing(up, principals, targets) ensures a in rows {
        assert a !in Missing(rows, principals, targets);
        assert Taken(rows, a.principal, a.target, Read);
      }
    }
  }

  /**
   The downgrade gives back the state before the upgrade exactly when only seeded rows were revoked and none
   was missing.
  */
  lemma DowngradeUndoesExactlyWhen(auth: Auth, roles: set<string>, legacyGlobal: bool)
    requires Unique(auth.assignments)
    ensures RestoreInstances(RevokeInstances(auth, roles), roles, legacyGlobal) == auth <==>
            && (forall a | a in auth.assignments && RevokedFrom(auth, roles, a) :: Seeded(auth, roles, legacyGlobal, a))
            && Missing(auth.assignments, RolePrincipals(auth, roles, legacyGlobal), RestoredTargets(auth)) == {}
  {
    hide OfRole;
    var up := RevokeInstances(auth, roles);
    var principals, targets := RolePrincipals(auth, roles, legacyGlobal), RestoredTargets(auth);
    assert RolePrincipals(up, roles, legacyGlobal) == principals && RestoredTargets(up) == targets;
    assert up.assignments <= auth.assignments;
    assert up.(assignments := auth.assignments) == auth;
    hide RolePrincipals, InstanceTargets, RestoredTargets, Missing;
    UndoesExactlyWhen(auth.assignments, up.assignments, principals, targets);
  }
}
