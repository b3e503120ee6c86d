/**
 The permission revisions row by row: which assignments each of them removes or adds, by the group's
 identifier, the target's resource and command, and the permission.
*/
module PermissionRows {
  import opened Wrappers
  import opened PermissionRevisions
  import opened PermissionMigration

  /** The principal's group is a tenant's group of this role or, if those count, the global one. */
  predicate HasRole(auth: Auth, p: int, role: string, global: bool) {
    && p in auth.principals && auth.principals[p].Some? && auth.principals[p].value in auth.groups
    && var identifier := auth.groups[auth.principals[p].value].identifier;
       (exists t | t in auth.tenants :: identifier == t + ":" + role) || (global && identifier == role)
  }

  predicate OnResource(auth: Auth, target: int, resource: string) {
    && target in auth.targets && auth.targets[target].resourceType == Some("tenant")
    && auth.targets[target].resourceId == Some(resource)
  }

  predicate OnCommand(auth: Auth, target: int, resource: string, command: string) {
    OnResource(auth, target, resource) && auth.targets[target].command == Some(command)
  }

  /** A permit that lets its holder read the instances of a whole tenant. */
  predicate ReadsInstances(auth: Auth, a: Assignment) {
    && a.grant == Permit && (a.permission == Read || a.permission == All)
    && (OnResource(auth, a.target, "/process-instances") || OnResource(auth, a.target, "/process-instances/%"))
  }

  /** A row that grants read on a target of the old seed, where nobody has a row in its slot. */
  predicate SeededRead(auth: Auth, a: Assignment) {
    && a.grant == Permit && a.permission == Read
    && (OnCommand(auth, a.target, "/process-instances", "process_instance.list")
        || OnCommand(auth, a.target, "/process-instances/%", "process_instance.read"))
    && forall b | b in auth.assignments ::
         !(b.principal == a.principal && b.target == a.target && b.permission == Read)
  }

  lemma RolesOf(auth: Auth, p: int, roles: set<string>, global: bool)
    ensures p in RolePrincipals(auth, roles, global) <==> exists r | r in roles :: HasRole(auth, p, r, global)
  {
    if p in RolePrincipals(auth, roles, global) {
      var identifier := auth.groups[auth.principals[p].value].identifier;
      if global && identifier in roles {
        assert HasRole(auth, p, identifier, global);
      } else {
        var t, r :| t in auth.tenants && r in roles && identifier == Qualified(t, r);
        assert HasRole(auth, p, r, global);
      }
    }
    if r :| r in roles && HasRole(auth, p, r, global) {
      var identifier := auth.groups[auth.principals[p].value].identifier;
      if t :| t in auth.tenants && identifier == t + ":" + r {
        assert identifier == Qualified(t, r);
      }
    }
  }

  // ------------------------------------------------------------------ up

  /** b9d2: exactly the submitters' rows go, nothing comes, and no other table changes. */
  lemma SubmittersLose(auth: Auth, a: Assignment)
    ensures RevokeInstances(auth, {"submitter"}).(assignments := auth.assignments) == auth
    ensures a in RevokeInstances(auth, {"submitter"}).assignments <==>
            a in auth.assignments && !(ReadsInstances(auth, a) && HasRole(auth, a.principal, "submitter", true))
  {
    hide RolePrincipals, HasRole;
    RolesOf(auth, a.principal, {"submitter"}, true);
  }

  /** c1e4: the editors' and the viewers'. */
  lemma ReadersLose(auth: Auth, a: Assignment)
    ensures RevokeInstances(auth, {"editor", "viewer"}).(assignments := auth.assignments) == auth
    ensures a in RevokeInstances(auth, {"editor", "viewer"}).assignments <==>
            && a in auth.assignments
            && !(ReadsInstances(auth, a)
                 && (HasRole(auth, a.principal, "editor", true) || HasRole(auth, a.principal, "viewer", true)))
  {
    hide RolePrincipals, HasRole;
    RolesOf(auth, a.principal, {"editor", "viewer"}, true);
    assert "editor" in {"editor", "viewer"} && "viewer" in {"editor", "viewer"};
  }

  /** f6a7: the editors' read of the home page's task count. */
  lemma EditorsLoseTheCount(auth: Auth, a: Assignment)
    ensures RevokeHomeCount(auth).(assignments := auth.assignments) == auth
    ensures a in RevokeHomeCount(auth).assignments <==>
            && a in auth.assignments
            && !(a.grant == Permit && a.permission == Read
                 && OnCommand(auth, a.target, "/m8flow/home-task-count", "read")
                 && HasRole(auth, a.principal, "editor", true))
  {
    hide RolePrincipals, HasRole;
    RolesOf(auth, a.principal, {"editor"}, true);
  }

  /** So no submitter, editor or viewer of any tenant is left with such a permit. */
  lemma NobodyReadsTenantWide(auth: Auth, a: Assignment)
    ensures var after := RevokeInstances(RevokeInstances(auth, {"submitter"}), {"editor", "viewer"});
            a in after.assignments <==>
            && a in auth.assignments
            && !(ReadsInstances(auth, a)
                 && (HasRole(auth, a.principal, "submitter", true) || HasRole(auth, a.principal, "editor", true)
                     || HasRole(auth, a.principal, "viewer", true)))
  {
    hide HasRole, ReadsInstances, RevokeInstances;
    var mid := RevokeInstances(auth, {"submitter"});
    SubmittersLose(auth, a);
    ReadersLose(mid, a);
    SameTables(auth, mid, a);
  }

  lemma SameTables(auth: Auth, mid: Auth, a: Assignment)
    requires mid.(assignments := auth.assignments) == auth
    ensures ReadsInstances(mid, a) == ReadsInstances(auth, a)
    ensures forall p, role :: HasRole(mid, p, role, true) == HasRole(auth, p, role, true)
  {
  }

  // ------------------------------------------------------------------ down

  /** b9d2 gives submitters, the global ones too, the seeded reads they have no row for. */
  lemma SubmittersRegain(auth: Auth, a: Assignment)
    ensures RestoreInstances(auth, {"submitter"}, true).(assignments := auth.assignments) == auth
    ensures a in RestoreInstances(auth, {"submitter"}, true).assignments <==>
            a in auth.assignments || (SeededRead(auth, a) && HasRole(auth, a.principal, "submitter", true))
  {
    hide RolePrincipals, HasRole;
    RolesOf(auth, a.principal, {"submitter"}, true);
    SlotIsFree(auth, a);
  }

  /** c1e4 leaves the global groups out. */
  lemma ReadersRegain(auth: Auth, a: Assignment)
    ensures RestoreInstances(auth, {"editor", "viewer"}, false).(assignments := auth.assignments) == auth
    ensures a in RestoreInstances(auth, {"editor", "viewer"}, false).assignments <==>
            || a in auth.assignments
            || (SeededRead(auth, a)
                && (HasRole(auth, a.principal, "editor", false) || HasRole(auth, a.principal, "viewer", false)))
  {
    hide RolePrincipals, HasRole;
    RolesOf(auth, a.principal, {"editor", "viewer"}, false);
    assert "editor" in {"editor", "viewer"} && "viewer" in {"editor", "viewer"};
    SlotIsFree(auth, a);
  }

  lemma SlotIsFree(auth: Auth, a: Assignment)
    ensures SeededRead(auth, a) <==>
            && a == Assignment(a.principal, a.target, Permit, Read) && a.target in RestoredTargets(auth)
            && !Taken(auth.assignments, a.principal, a.target, Read)
  {
  }

  // ------------------------------------------------------------------ lifecycle grants

  /**
   e7f8 adds beside each `create` row on a lifecycle command an `execute` row of the same grant type, where there
   is none.
  */
  lemma LifecycleGains(auth: Auth, a: Assignment)
    ensures BackfillExecute(auth).(assignments := auth.assignments) == auth
    ensures a in BackfillExecute(auth).assignments <==>
            || a in auth.assignments
            || (&& a.permission == Execute && Assignment(a.principal, a.target, a.grant, Create) in auth.assignments
                && a.target in auth.targets
                && (var command := auth.targets[a.target].command;
                    command == Some("process.suspend") || command == Some("process.resume")
                    || command == Some("process.retry") || command == Some("process.terminate"))
                && forall b | b in auth.assignments ::
                     !(b.principal == a.principal && b.target == a.target && b.permission == Execute))
  {
    var source := Assignment(a.principal, a.target, a.grant, Create);
    if a.permission == Execute {
      assert AsExecute(source) == a;
      assert forall b | AsExecute(b) == a && b.permission == Create :: b == source;
    }
    if source in WithoutExecute(auth) && a.permission == Execute { assert a in BackfillExecute(auth).assignments; }
  }

  // ------------------------------------------------------------------ seed grants

  /** A principal of the tenant's group of this role, found by identifier and authorization key. */
  predicate Plays(auth: Auth, p: int, tenant: string, role: string) {
    && p in auth.principals && auth.principals[p].Some? && auth.principals[p].value in auth.groups
    && auth.groups[auth.principals[p].value] ==
       Group(tenant + ":" + role, Some("authorization:" + tenant + ":" + role))
  }

  /** The permission that b8c9 seeds on a target. */
  predicate Seeds(target: Target, permission: Permission) {
    || (target == Target(Some("read"), Some("tenant"), Some("/m8flow/task-review-access")) && permission == Read)
    || (target == Target(Some("read"), Some("tenant"), Some("/m8flow/task-review-access/%")) && permission == Read)
    || (target == Target(Some("create"), Some("tenant"), Some("/m8flow/task-review-access/%/submit"))
        && permission == Create)
    || (target == Target(Some("read"), Some("tenant"), Some("/m8flow/home-task-count")) && permission == Read)
  }

  lemma PlaysIsRolePrincipal(auth: Auth, p: int, tenant: string, role: string)
    ensures IsRolePrincipal(auth, p, tenant, role) <==> Plays(auth, p, tenant, role)
  {
    assert "authorization:" + Qualified(tenant, role) == "authorization:" + tenant + ":" + role;
  }

  /** Once a tenant is covered, its admins, reviewers and submitters have a row on every seeded target. */
  lemma CoveredTenantsHaveRows(auth: Auth, tenant: string, role: string, target: Target, permission: Permission)
    requires TenantCovered(auth, tenant) && role in {"tenant-admin", "reviewer", "submitter"}
    requires Seeds(target, permission)
    ensures exists a | a in auth.assignments ::
              Plays(auth, a.principal, tenant, role) && a.target in auth.targets && auth.targets[a.target] == target
              && a.permission == permission
  {
    var j := if role == "tenant-admin" then 0 else if role == "reviewer" then 1 else 2;
    var k := if target.command == Some("create") then 2
             else if target.resourceId == Some("/m8flow/task-review-access") then 0
             else if target.resourceId == Some("/m8flow/task-review-access/%") then 1 else 3;
    assert Covered(auth, tenant, ROLES[j], SEEDED[k]);
    var p, id :| IsRolePrincipal(auth, p, tenant, ROLES[j]) && IsTargetId(auth, id, SEEDED[k])
      && Taken(auth.assignments, p, id, SEEDED[k].permission);
    PlaysIsRolePrincipal(auth, p, tenant, role);
    var a :| a in auth.assignments && a.principal == p && a.target == id && a.permission == SEEDED[k].permission;
  }

  /** And every row that the backfill adds is such a permit, for a tenant without a current marker. */
  lemma SeededRowsAre(before: Auth, auth: Auth, a: Assignment)
    requires ForStale(Stale(before), auth, a)
    ensures a.grant == Permit && a.target in auth.targets && Seeds(auth.targets[a.target], a.permission)
    ensures exists t, role | t in before.tenants && role in {"tenant-admin", "reviewer", "submitter"} ::
              (t !in before.seeds || before.seeds[t] < 3) && Plays(auth, a.principal, t, role)
  {
    var t :| t in Stale(before) && TenantRow(auth, a, t);
    var j :| 0 <= j < |ROLES| && RoleRow(auth, a, t, ROLES[j]);
    PlaysIsRolePrincipal(auth, a.principal, t, ROLES[j]);
  }
}
