/**
 The permission revisions as they run on one database, the seed backfill (b8c9) with its nested loops
 among them, and any walk up and down over all of them.
*/
module PermissionMigration {
  import opened Wrappers
  import opened PermissionRevisions

  const SEED_VERSION: int := 3

  const ROLES: seq<string> := ["tenant-admin", "reviewer", "submitter"]

  datatype SeedTarget = SeedTarget(command: string, resource: string, permission: Permission)

  const SEEDED: seq<SeedTarget> := [
    SeedTarget("read", "/m8flow/task-review-access", Read),
    SeedTarget("read", "/m8flow/task-review-access/%", Read),
    SeedTarget("create", "/m8flow/task-review-access/%/submit", Create),
    SeedTarget("read", "/m8flow/home-task-count", Read)
  ]

  datatype Step = UpLifecycle | UpHomeCount | UpSeed | UpSubmitter | DownSubmitter | UpReaders | DownReaders

  /** Rows are only added, no deny among them, and the unique constraint holds on. */
  ghost predicate Grows(a: Auth, b: Auth) {
    && (forall id | id in a.targets :: id in b.targets && b.targets[id] == a.targets[id])
    && (forall id | id in a.groups :: id in b.groups && b.groups[id] == a.groups[id])
    && (forall p | p in a.principals :: p in b.principals && b.principals[p] == a.principals[p])
    && a.tenants == b.tenants && a.assignments <= b.assignments && Denies(a.assignments) == Denies(b.assignments)
    && (Unique(a.assignments) ==> Unique(b.assignments))
  }

  lemma GrowsOn(a: Auth, b: Auth, c: Auth)
    requires Grows(a, b) && Grows(b, c)
    ensures Grows(a, c)
  {
  }

  predicate IsSeedTarget(t: Target, seed: SeedTarget) {
    t == Target(Some(seed.command), Some("tenant"), Some(seed.resource))
  }

  predicate IsRoleGroup(g: Group, tenant: string, role: string) {
    g.identifier == Qualified(tenant, role) && g.authorizationKey == Some("authorization:" + Qualified(tenant, role))
  }

  ghost predicate IsRolePrincipal(auth: Auth, p: int, tenant: string, role: string) {
    p in auth.principals && auth.principals[p].Some? && auth.principals[p].value in auth.groups
    && IsRoleGroup(auth.groups[auth.principals[p].value], tenant, role)
  }

  ghost predicate IsGroupId(auth: Auth, id: int, tenant: string, role: string) {
    id in auth.groups && IsRoleGroup(auth.groups[id], tenant, role)
  }

  ghost predicate IsTargetId(auth: Auth, id: int, seed: SeedTarget) {
    id in auth.targets && IsSeedTarget(auth.targets[id], seed)
  }

  /** Some principal of the tenant's role group has a row, permit or deny, in the seed's slot. */
  ghost predicate Covered(auth: Auth, tenant: string, role: string, seed: SeedTarget) {
    exists p, id :: IsRolePrincipal(auth, p, tenant, role) && IsTargetId(auth, id, seed)
      && Taken(auth.assignments, p, id, seed.permission)
  }

  /** A permit in one of the seed's slots for a principal of the tenant's role group. */
  ghost predicate RoleRow(auth: Auth, a: Assignment, tenant: string, role: string) {
    && a.grant == Permit && IsRolePrincipal(auth, a.principal, tenant, role)
    && exists k :: 0 <= k < |SEEDED| && IsTargetId(auth, a.target, SEEDED[k]) && a.permission == SEEDED[k].permission
  }

  ghost predicate TenantRow(auth: Auth, a: Assignment, tenant: string) {
    exists j :: 0 <= j < |ROLES| && RoleRow(auth, a, tenant, ROLES[j])
  }

  lemma TenantRowLater(a: Auth, b: Auth, row: Assignment, tenant: string)
    requires Grows(a, b)
    ensures TenantRow(a, row, tenant) ==> TenantRow(b, row, tenant)
    ensures forall role | RoleRow(a, row, tenant, role) :: RoleRow(b, row, tenant, role)
  {
    forall role | RoleRow(a, row, tenant, role) ensures RoleRow(b, row, tenant, role) {
      RolePrincipalLater(a, b, row.principal, tenant, role);
      var k :| 0 <= k < |SEEDED| && IsTargetId(a, row.target, SEEDED[k]) && row.permission == SEEDED[k].permission;
      assert IsTargetId(b, row.target, SEEDED[k]);
    }
  }

  lemma RolePrincipalLater(a: Auth, b: Auth, p: int, tenant: string, role: string)
    requires Grows(a, b) && IsRolePrincipal(a, p, tenant, role)
    ensures IsRolePrincipal(b, p, tenant, role)
  {
    var g := a.principals[p].value;
    assert b.principals[p] == a.principals[p] && b.groups[g] == a.groups[g];
  }

  lemma CoveredLater(a: Auth, b: Auth, tenant: string, role: string, seed: SeedTarget)
    requires Grows(a, b) && Covered(a, tenant, role, seed)
    ensures Covered(b, tenant, role, seed)
  {
    var p, id :| IsRolePrincipal(a, p, tenant, role) && IsTargetId(a, id, seed)
      && Taken(a.assignments, p, id, seed.permission);
    RolePrincipalLater(a, b, p, tenant, role);
    assert IsTargetId(b, id, seed);
    assert Taken(b.assignments, p, id, seed.permission);
  }

  /** The tenants without a marker, or with an older one. */
  function Stale(auth: Auth): set<string> {
    set t | t in auth.tenants && (t !in auth.seeds || auth.seeds[t] < SEED_VERSION)
  }

  lemma HasMember(s: set<int>)
    ensures s != {} ==> exists i :: i in s
  {
    if forall i :: i !in s { assert s == {}; }
  }

  method FreshId(ids: set<int>) returns (id: int)
    ensures id !in ids
  {
    id := 1;
    var todo := ids;
    while todo != {}
      invariant todo <= ids
      invariant forall i | i in ids && i !in todo :: i < id
      decreases |todo|
    {
      HasMember(todo);
      var i: int :| i in todo;
      todo := todo - {i};
      if id <= i { id := i + 1; }
    }
  }

  class Authorization {
    var auth: Auth

    // ---------------------------------------------------------------- e7f8 and f6a7

    /** The check behind the insert finds nothing. */
    method UpgradeLifecycle() returns (r: Result<()>)
      modifies this
      ensures r.Ok? && auth == BackfillExecute(old(auth))
    {
      auth := BackfillExecute(auth);
      BackfillIsComplete(old(auth));
      if WithoutExecute(auth) != {} { return Raised("Lifecycle execute grant backfill is incomplete"); }
      return Ok(());
    }

    method UpgradeHomeCount()
      modifies this
      ensures auth == RevokeHomeCount(old(auth))
    {
      auth := RevokeHomeCount(auth);
    }

    // ---------------------------------------------------------------- b9d2 and c1e4

    method UpgradeInstances(roles: set<string>)
      modifies this
      ensures auth == RevokeInstances(old(auth), roles)
    {
      auth := RevokeInstances(auth, roles);
    }

    /** One insert for every target id, resource by resource. */
    method DowngradeInstances(roles: set<string>, legacyGlobal: bool)
      modifies this
      ensures auth == RestoreInstances(old(auth), roles, legacyGlobal)
    {
      var principals := RolePrincipals(auth, roles, legacyGlobal);
      var list, read := CommandTargets(auth, INSTANCES, "process_instance.list"),
        CommandTargets(auth, ONE_INSTANCE, "process_instance.read");
      RestoreEach(principals, list);
      ghost var mid := auth;
      RestoreEach(principals, read);
      MissingInTwoSteps(old(auth).assignments, principals, list, read);
    }

    method RestoreEach(principals: set<int>, targets: set<int>)
      modifies this
      ensures auth == old(auth).(assignments := old(auth).assignments
              + Missing(old(auth).assignments, principals, targets))
    {
      var todo := targets;
      assert auth.assignments == auth.assignments + Missing(auth.assignments, principals, {});
      assert targets - todo == {};
      while todo != {}
        invariant todo <= targets
        invariant auth == old(auth).(assignments := old(auth).assignments
                  + Missing(old(auth).assignments, principals, targets - todo))
        decreases |todo|
      {
        HasMember(todo);
        var target: int :| target in todo;
        ghost var done := targets - todo;
        MissingInTwoSteps(old(auth).assignments, principals, done, {target});
        auth := auth.(assignments := auth.assignments
          + set p | p in principals && !Taken(auth.assignments, p, target, Read) ::
            Assignment(p, target, Permit, Read));
        todo := todo - {target};
        assert targets - todo == done + {target};
      }
      assert targets - todo == targets;
    }

    // ---------------------------------------------------------------- b8c9

    /** `scalar_one_or_none` raises on a second row. */
    method TargetId(seed: SeedTarget) returns (r: Result<int>)
      modifies this
      ensures r.Raised? <==> exists i, j :: i != j && IsTargetId(old(auth), i, seed) && IsTargetId(old(auth), j, seed)
      ensures Grows(old(auth), auth) && auth.seeds == old(auth).seeds && auth.assignments == old(auth).assignments
      ensures r.Ok? ==> IsTargetId(auth, r.value, seed)
    {
      var found := set id | id in auth.targets && IsSeedTarget(auth.targets[id], seed);
      HasMember(found);
      if found == {} {
        var id := FreshId(auth.targets.Keys);
        auth := auth.(targets := auth.targets[id := Target(Some(seed.command), Some("tenant"), Some(seed.resource))]);
        assert forall i :: !IsTargetId(old(auth), i, seed) by {
          forall i | i in old(auth).targets ensures !IsTargetId(old(auth), i, seed) { assert i !in found; }
        }
        return Ok(id);
      }
      var id: int :| id in found;
      if exists other | other in found :: other != id {
        var other :| other in found && other != id;
        assert IsTargetId(auth, id, seed) && IsTargetId(auth, other, seed);
        return Raised("MultipleResultsFound");
      }
      assert forall i | IsTargetId(auth, i, seed) :: i in found;
      return Ok(id);
    }

    method EnsureGroup(tenant: string, role: string) returns (r: Result<int>)
      modifies this
      ensures r.Raised? <==> exists i, j ::
                i != j && IsGroupId(old(auth), i, tenant, role) && IsGroupId(old(auth), j, tenant, role)
      ensures Grows(old(auth), auth) && auth.seeds == old(auth).seeds && auth.assignments == old(auth).assignments
      ensures r.Ok? ==> r.value in auth.groups && IsRoleGroup(auth.groups[r.value], tenant, role)
    {
      var found := set id | id in auth.groups && IsRoleGroup(auth.groups[id], tenant, role);
      HasMember(found);
      if found == {} {
        var id := FreshId(auth.groups.Keys);
        var identifier := Qualified(tenant, role);
        auth := auth.(groups := auth.groups[id := Group(identifier, Some("authorization:" + identifier))]);
        assert forall i :: !IsGroupId(old(auth), i, tenant, role) by {
          forall i | i in old(auth).groups ensures !IsGroupId(old(auth), i, tenant, role) { assert i !in found; }
        }
        return Ok(id);
      }
      var id: int :| id in found;
      if exists other | other in found :: other != id {
        var other :| other in found && other != id;
        assert IsGroupId(auth, id, tenant, role) && IsGroupId(auth, other, tenant, role);
        return Raised("MultipleResultsFound");
      }
      assert forall i | IsGroupId(auth, i, tenant, role) :: i in found;
      return Ok(id);
    }

    method EnsureGroupPrincipal(tenant: string, role: string) returns (r: Result<int>)
      modifies this
      ensures r.Raised? <==> exists i, j ::
                i != j && IsGroupId(old(auth), i, tenant, role) && IsGroupId(old(auth), j, tenant, role)
      ensures Grows(old(auth), auth) && auth.seeds == old(auth).seeds && auth.assignments == old(auth).assignments
      ensures r.Ok? ==> IsRolePrincipal(auth, r.value, tenant, role)
    {
      r := EnsureGroup(tenant, role);
      if r.Raised? { return; }
      var group := r.value;
      var found := set p | p in auth.principals && auth.principals[p] == Some(group);
      HasMember(found);
      if found == {} {
        var p := FreshId(auth.principals.Keys);
        auth := auth.(principals := auth.principals[p := Some(group)]);
        return Ok(p);
      }
      var p: int :| p in found;
      return Ok(p);
    }

    /** A row of any grant type keeps its slot. */
    method EnsureAssignment(principal: int, target: int, permission: Permission) returns (added: bool)
      modifies this
      ensures added <==> !Taken(old(auth).assignments, principal, target, permission)
      ensures auth == old(auth).(assignments := old(auth).assignments
              + if added then {Assignment(principal, target, Permit, permission)} else {})
      ensures Grows(old(auth), auth) && Taken(auth.assignments, principal, target, permission)
    {
      if Taken(auth.assignments, principal, target, permission) { return false; }
      var row := Assignment(principal, target, Permit, permission);
      auth := auth.(assignments := auth.assignments + {row});
      assert row in auth.assignments;
      return true;
    }

    method SeedTargets() returns (r: Result<seq<int>>)
      modifies this
      ensures Grows(old(auth), auth) && auth.seeds == old(auth).seeds && auth.assignments == old(auth).assignments
      ensures r.Ok? ==> |r.value| == |SEEDED| && forall k | 0 <= k < |SEEDED| :: IsTargetId(auth, r.value[k], SEEDED[k])
    {
      var ids: seq<int> := [];
      for i := 0 to |SEEDED|
        invariant Grows(old(auth), auth) && auth.seeds == old(auth).seeds && auth.assignments == old(auth).assignments
        invariant |ids| == i && forall k | 0 <= k < i :: IsTargetId(auth, ids[k], SEEDED[k])
      {
        ghost var before := auth;
        var id := TargetId(SEEDED[i]);
        GrowsOn(old(auth), before, auth);
        if id.Raised? { return Raised(id.reason); }
        ids := ids + [id.value];
      }
      return Ok(ids);
    }

    method SeedRole(tenant: string, role: string, ids: seq<int>) returns (r: Result<()>)
      requires |ids| == |SEEDED| && forall k | 0 <= k < |SEEDED| :: IsTargetId(auth, ids[k], SEEDED[k])
      modifies this
      ensures Grows(old(auth), auth) && auth.seeds == old(auth).seeds
      ensures r.Ok? ==> forall k | 0 <= k < |SEEDED| :: Covered(auth, tenant, role, SEEDED[k])
      ensures forall a | a in auth.assignments && a !in old(auth).assignments :: RoleRow(auth, a, tenant, role)
    {
      var principal := EnsureGroupPrincipal(tenant, role);
      if principal.Raised? { return Raised(principal.reason); }
      ghost var start := auth;
      for k := 0 to |SEEDED|
        invariant Grows(old(auth), start) && Grows(start, auth) && auth.seeds == old(auth).seeds
        invariant forall j | 0 <= j < k :: Covered(auth, tenant, role, SEEDED[j])
        invariant forall a | a in auth.assignments && a !in old(auth).assignments :: RoleRow(auth, a, tenant, role)
      {
        ghost var before := auth;
        var added := EnsureAssignment(principal.value, ids[k], SEEDED[k].permission);
        GrowsOn(start, before, auth);
        forall j | 0 <= j < k ensures Covered(auth, tenant, role, SEEDED[j]) {
          CoveredLater(before, auth, tenant, role, SEEDED[j]);
        }
        RolePrincipalLater(start, auth, principal.value, tenant, role);
        assert IsTargetId(auth, ids[k], SEEDED[k]);
        forall a | a in auth.assignments && a !in old(auth).assignments ensures RoleRow(auth, a, tenant, role) {
          TenantRowLater(before, auth, a, tenant);
        }
      }
      GrowsOn(old(auth), start, auth);
      return Ok(());
    }

    method SeedTenant(tenant: string, ids: seq<int>) returns (r: Result<()>)
      requires |ids| == |SEEDED| && forall k | 0 <= k < |SEEDED| :: IsTargetId(auth, ids[k], SEEDED[k])
      modifies this
      ensures Grows(old(auth), auth) && auth.seeds == old(auth).seeds
      ensures r.Ok? ==> TenantCovered(auth, tenant)
      ensures forall a | a in auth.assignments && a !in old(auth).assignments :: TenantRow(auth, a, tenant)
    {
      for i := 0 to |ROLES|
        invariant Grows(old(auth), auth) && auth.seeds == old(auth).seeds
        invariant forall j, k | 0 <= j < i && 0 <= k < |SEEDED| :: Covered(auth, tenant, ROLES[j], SEEDED[k])
        invariant forall a | a in auth.assignments && a !in old(auth).assignments :: TenantRow(auth, a, tenant)
      {
        ghost var before := auth;
        r := SeedRole(tenant, ROLES[i], ids);
        GrowsOn(old(auth), before, auth);
        forall a | a in auth.assignments && a !in old(auth).assignments ensures TenantRow(auth, a, tenant) {
          TenantRowLater(before, auth, a, tenant);
        }
        if r.Raised? { return; }
        forall j, k | 0 <= j < i && 0 <= k < |SEEDED| ensures Covered(auth, tenant, ROLES[j], SEEDED[k]) {
          CoveredLater(before, auth, tenant, ROLES[j], SEEDED[k]);
        }
      }
      return Ok(());
    }

    /**
     Every tenant without a current marker gets every seed grant of every role, unless its slot is taken, and
     no other row is added; markers that were there become current, and no tenant gets its first marker.
    */
    method UpgradeSeed() returns (r: Result<()>)
      modifies this
      ensures Grows(old(auth), auth)
      ensures r.Ok? ==>
                forall t | t in old(auth).tenants && (t !in old(auth).seeds || old(auth).seeds[t] < 3) ::
                  TenantCovered(auth, t)
      ensures forall a | a in auth.assignments && a !in old(auth).assignments :: ForStale(Stale(old(auth)), auth, a)
      ensures r.Ok? ==>
                auth.seeds == map t | t in old(auth).seeds ::
                  if old(auth).seeds[t] < 3 then 3 else old(auth).seeds[t]
    {
      var ids := SeedTargets();
      if ids.Raised? { return Raised(ids.reason); }
      var todo := Stale(auth);
      ghost var stale := todo;
      while todo != {}
        invariant todo <= stale && Grows(old(auth), auth) && auth.seeds == old(auth).seeds
        invariant forall k | 0 <= k < |SEEDED| :: IsTargetId(auth, ids.value[k], SEEDED[k])
        invariant forall t | t in stale && t !in todo :: TenantCovered(auth, t)
        invariant forall a | a in auth.assignments && a !in old(auth).assignments :: ForStale(stale, auth, a)
        decreases |todo|
      {
        var tenant :| tenant in todo;
        ghost var before := auth;
        r := SeedTenant(tenant, ids.value);
        GrowsOn(old(auth), before, auth);
        forall a | a in auth.assignments && a !in old(auth).assignments ensures ForStale(stale, auth, a) {
          if a in before.assignments { ForStaleLater(stale, before, auth, a); }
        }
        if r.Raised? { return; }
        forall t | t in stale && t !in todo ensures TenantCovered(auth, t) { TenantCoveredLater(before, auth, t); }
        todo := todo - {tenant};
      }
      auth := auth.(seeds := map t | t in auth.seeds ::
        if auth.seeds[t] < SEED_VERSION then SEED_VERSION else auth.seeds[t]);
      forall t | t in old(auth).tenants && (t !in old(auth).seeds || old(auth).seeds[t] < 3)
        ensures TenantCovered(auth, t)
      {
        assert t in stale;
      }
      return Ok(());
    }

    // ---------------------------------------------------------------- any walk

    method Take(step: Step) returns (r: Result<()>)
      requires Unique(auth.assignments)
      modifies this
      ensures Unique(auth.assignments) && Denies(old(auth).assignments) <= Denies(auth.assignments)
      ensures match step
              case UpLifecycle => r.Ok? && auth == BackfillExecute(old(auth))
              case UpHomeCount => r.Ok? && auth == RevokeHomeCount(old(auth))
              case UpSeed => Grows(old(auth), auth)
              case UpSubmitter => r.Ok? && auth == RevokeInstances(old(auth), {"submitter"})
              case DownSubmitter => r.Ok? && auth == RestoreInstances(old(auth), {"submitter"}, true)
              case UpReaders => r.Ok? && auth == RevokeInstances(old(auth), {"editor", "viewer"})
              case DownReaders => r.Ok? && auth == RestoreInstances(old(auth), {"editor", "viewer"}, false)
    {
      r := Ok(());
      match step {
        case UpLifecycle =>
          BackfillOnlyFillsFreeSlots(auth);
          r := UpgradeLifecycle();
        case UpHomeCount =>
          RevokeKeepsDenies(auth, RolePrincipals(auth, {"editor"}, true), CommandTargets(auth, HOME_COUNT, "read"),
            {Read});
          UpgradeHomeCount();
        case UpSeed =>
          r := UpgradeSeed();
        case UpSubmitter =>
          RevokeKeepsDenies(auth, RolePrincipals(auth, SUBMITTER, true), InstanceTargets(auth), {Read, All});
          UpgradeInstances(SUBMITTER);
        case DownSubmitter =>
          RestoreKeepsDenies(auth, SUBMITTER, true);
          DowngradeInstances(SUBMITTER, true);
        case UpReaders =>
          RevokeKeepsDenies(auth, RolePrincipals(auth, READERS, true), InstanceTargets(auth), {Read, All});
          UpgradeInstances(READERS);
        case DownReaders =>
          RestoreKeepsDenies(auth, READERS, false);
          DowngradeInstances(READERS, false);
      }
    }

    /** Over any walk the slots stay unique, and a deny is never removed, nor, its slot being its own, replaced. */
    method Walk(steps: seq<Step>) returns (r: Result<()>)
      requires Unique(auth.assignments)
      modifies this
      ensures Unique(auth.assignments) && Denies(old(auth).assignments) <= Denies(auth.assignments)
      ensures forall d, a | d in Denies(old(auth).assignments) && a in auth.assignments && SameSlot(d, a) :: a == d
    {
      for i := 0 to |steps|
        invariant Unique(auth.assignments) && Denies(old(auth).assignments) <= Denies(auth.assignments)
      {
        r := Take(steps[i]);
        if r.Raised? { return; }
      }
      return Ok(());
    }
  }

  ghost predicate TenantCovered(auth: Auth, tenant: string) {
    forall j, k | 0 <= j < |ROLES| && 0 <= k < |SEEDED| :: Covered(auth, tenant, ROLES[j], SEEDED[k])
  }

  ghost predicate ForStale(stale: set<string>, auth: Auth, a: Assignment) {
    exists t :: t in stale && TenantRow(auth, a, t)
  }

  lemma ForStaleLater(stale: set<string>, a: Auth, b: Auth, row: Assignment)
    requires Grows(a, b) && ForStale(stale, a, row)
    ensures ForStale(stale, b, row)
  {
    var t :| t in stale && TenantRow(a, row, t);
    TenantRowLater(a, b, row, t);
  }

  lemma TenantCoveredLater(a: Auth, b: Auth, tenant: string)
    requires Grows(a, b) && TenantCovered(a, tenant)
    ensures TenantCovered(b, tenant)
  {
    forall j, k | 0 <= j < |ROLES| && 0 <= k < |SEEDED| ensures Covered(b, tenant, ROLES[j], SEEDED[k]) {
      CoveredLater(a, b, tenant, ROLES[j], SEEDED[k]);
    }
  }

  lemma MissingInTwoSteps(rows: set<Assignment>, principals: set<int>, s: set<int>, t: set<int>)
    ensures var mid := rows + Missing(rows, principals, s);
            mid + Missing(mid, principals, t) == rows + Missing(rows, principals, s + t)
  {
    var mid := rows + Missing(rows, principals, s);
    forall a ensures a in mid + Missing(mid, principals, t) <==> a in rows + Missing(rows, principals, s + t) {
    }
  }
}
