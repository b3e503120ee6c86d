/**
 The core 0.2.1 handoff (c4d5), permission targets and process digests: free-form keys become explicit
 unique ones.
*/
module PermissionTargets {
  import opened Wrappers

  /** A column that the table does not have reads as null. */
  datatype Target = Target(uri: Option<string>, resourceType: Option<string>, resourceId: Option<string>,
    command: Option<string>)

  datatype TargetTable = TargetTable(hasUri: bool, rows: map<int, Target>)

  predicate Blank(uri: Option<string>) {
    uri.None? || forall i | 0 <= i < |uri.value| :: uri.value[i] == ' '
  }

  predicate Complete(t: Target) { t.resourceType.Some? && t.resourceId.Some? }

  /** The update that turns a route into a pair, for rows without one. */
  function Paired(t: Target): Target {
    if Complete(t) then t else t.(resourceType := Some("tenant"), resourceId := t.uri)
  }

  function Key(t: Target): (Option<string>, Option<string>, string) {
    (t.resourceType, t.resourceId, if t.command.Some? then t.command.value else "")
  }

  function Mapped(rows: map<int, Target>): map<int, Target> { map id | id in rows :: Paired(rows[id]) }

  /** `GROUP BY` the key, `HAVING COUNT(*) > 1`. */
  function Collisions(rows: map<int, Target>): set<(Option<string>, Option<string>, string)> {
    set i, j | i in rows && j in rows && i != j && Key(rows[i]) == Key(rows[j]) :: Key(rows[i])
  }

  predicate KeysAreUnique(rows: map<int, Target>) {
    forall i, j | i in rows && j in rows && Key(rows[i]) == Key(rows[j]) :: i == j
  }

  lemma CollisionsAreExact(rows: map<int, Target>)
    ensures Collisions(rows) == {} <==> KeysAreUnique(rows)
  {
    forall i, j | i in rows && j in rows && i != j && Key(rows[i]) == Key(rows[j])
      ensures Key(rows[i]) in Collisions(rows)
    {
    }
  }

  /** The pair and command that the row has, or gets from its route. */
  predicate Means(table: TargetTable, id: int, resourceType: string, resourceId: string, command: string)
    requires id in table.rows
  {
    var t := table.rows[id];
    && (t.command == Some(command) || (t.command == None && command == ""))
    && if t.resourceType != None && t.resourceId != None
       then t.resourceType == Some(resourceType) && t.resourceId == Some(resourceId)
       else table.hasUri && resourceType == "tenant" && t.uri == Some(resourceId)
  }

  /** Every route is a usable one, or there are none and every pair is complete; and no two rows mean the same. */
  ghost predicate Migratable(table: TargetTable) {
    && (forall id | id in table.rows ::
          var t := table.rows[id];
          if table.hasUri then t.uri.Some? && exists i | 0 <= i < |t.uri.value| :: t.uri.value[i] != ' '
          else t.resourceType.Some? && t.resourceId.Some?)
    && forall i, j | i in table.rows && j in table.rows && i != j :: !MeanTheSame(table, i, j)
  }

  ghost predicate MeanTheSame(table: TargetTable, i: int, j: int)
    requires i in table.rows && j in table.rows
  {
    exists resourceType, resourceId, command ::
      Means(table, i, resourceType, resourceId, command) && Means(table, j, resourceType, resourceId, command)
  }

  lemma KeysAreMeanings(table: TargetTable, i: int, j: int)
    requires i in table.rows && j in table.rows
    requires forall id | id in table.rows :: if table.hasUri then table.rows[id].uri.Some? else Complete(table.rows[id])
    ensures var rows := if table.hasUri then Mapped(table.rows) else table.rows;
            MeanTheSame(table, i, j) <==> Key(rows[i]) == Key(rows[j])
  {
    var rows := if table.hasUri then Mapped(table.rows) else table.rows;
    var key := Key(rows[i]);
    assert Means(table, i, key.0.value, key.1.value, key.2);
    if Key(rows[j]) == key { assert Means(table, j, key.0.value, key.1.value, key.2); }
  }

  lemma UniqueExactlyWhen(table: TargetTable)
    requires forall id | id in table.rows :: if table.hasUri then table.rows[id].uri.Some? else Complete(table.rows[id])
    ensures KeysAreUnique(if table.hasUri then Mapped(table.rows) else table.rows) <==>
            forall i, j | i in table.rows && j in table.rows && i != j :: !MeanTheSame(table, i, j)
  {
    hide MeanTheSame, Key;
    forall i, j | i in table.rows && j in table.rows
      ensures var rows := if table.hasUri then Mapped(table.rows) else table.rows;
              MeanTheSame(table, i, j) <==> Key(rows[i]) == Key(rows[j])
    {
      KeysAreMeanings(table, i, j);
    }
  }

  function WithoutUri(rows: map<int, Target>): map<int, Target> { map id | id in rows :: rows[id].(uri := None) }

  /** The same ids with full, distinct pairs: complete ones unchanged, the others a tenant's route; commands kept. */
  ghost predicate MadeExplicit(before: TargetTable, after: TargetTable) {
    && !after.hasUri && after.rows.Keys == before.rows.Keys
    && (forall i, j | i in after.rows && j in after.rows && i != j :: !MeanTheSame(after, i, j))
    && forall id | id in before.rows ::
         var t := before.rows[id];
         if t.resourceType != None && t.resourceId != None
         then after.rows[id] == Target(None, t.resourceType, t.resourceId, t.command)
         else before.hasUri && t.uri != None && after.rows[id] == Target(None, Some("tenant"), t.uri, t.command)
  }

  lemma MappedAreComplete(table: TargetTable)
    requires forall id | id in table.rows :: !Blank(table.rows[id].uri)
    ensures forall id | id in Mapped(table.rows) :: Complete(Mapped(table.rows)[id])
  {
  }

  lemma WithoutUriIsExplicit(table: TargetTable, rows: map<int, Target>)
    requires rows == if table.hasUri then Mapped(table.rows) else table.rows
    requires KeysAreUnique(rows) && forall id | id in rows :: Complete(rows[id])
    ensures MadeExplicit(table, TargetTable(false, WithoutUri(rows)))
  {
    hide KeysAreUnique, Key, MeanTheSame;
    DroppingUriKeepsKeys(rows);
    var after := TargetTable(false, WithoutUri(rows));
    UniqueExactlyWhen(after);
    assert KeysAreUnique(after.rows);
    forall id | id in table.rows ensures Complete(rows[id]) && id in after.rows {}
  }

  lemma DroppingUriKeepsKeys(rows: map<int, Target>)
    requires KeysAreUnique(rows)
    ensures KeysAreUnique(WithoutUri(rows))
  {
    forall i, j | i in rows && j in rows && Key(WithoutUri(rows)[i]) == Key(WithoutUri(rows)[j]) ensures i == j {
      assert Key(rows[i]) == Key(rows[j]);
    }
  }

  /** Completes on exactly the migratable tables; all ids, complete pairs and commands stay as they were. */
  method MigratePermissionTargets(table: TargetTable) returns (r: Result<TargetTable>)
    ensures r.Ok? <==> Migratable(table)
    ensures r.Ok? ==> MadeExplicit(table, r.value)
  {
    hide Mapped, Collisions, KeysAreUnique, MadeExplicit, WithoutUri, MeanTheSame;
    var rows := table.rows;
    if table.hasUri {
      if exists id | id in rows :: Blank(rows[id].uri) {
        return Raised("Permission targets cannot be mapped to resource pairs");
      }
      MappedAreComplete(table);
      rows := Mapped(rows);
    }
    if exists id | id in rows :: !Complete(rows[id]) {
      return Raised("Permission targets have no explicit resource pair");
    }
    CollisionsAreExact(rows);
    UniqueExactlyWhen(table);
    if Collisions(rows) != {} { return Raised("Permission resource-pair collisions"); }
    WithoutUriIsExplicit(table, rows);
    return Ok(TargetTable(false, WithoutUri(rows)));
  }

  // ------------------------------------------------------------------ process digests

  datatype Definition = Definition(tenant: Option<string>, full: Option<string>, single: Option<string>,
    digest: Option<string>)

  datatype DefinitionTable = DefinitionTable(hasFull: bool, hasSingle: bool, hasDigest: bool,
    rows: map<int, Definition>)

  /** `COALESCE(full, single)`; with one column it is that column. */
  function Canonical(t: DefinitionTable, id: int): Option<string>
    requires id in t.rows
  {
    if t.hasFull && t.rows[id].full.Some? then t.rows[id].full
    else if t.hasSingle then t.rows[id].single
    else None
  }

  function DigestCollisions(t: DefinitionTable): set<(Option<string>, Option<string>)> {
    set i, j | i in t.rows && j in t.rows && i != j && Canonical(t, i).Some?
            && t.rows[i].tenant == t.rows[j].tenant && Canonical(t, i) == Canonical(t, j) ::
              (t.rows[i].tenant, Canonical(t, i))
  }

  /** The full model's hash or, in a table or a row without one, the single process's. */
  predicate IsCanonical(t: DefinitionTable, id: int, hash: string)
    requires id in t.rows
  {
    || (t.hasFull && t.rows[id].full == Some(hash))
    || (t.hasSingle && t.rows[id].single == Some(hash) && (!t.hasFull || t.rows[id].full == None))
  }

  /** No tenant has two definitions with one canonical hash. */
  ghost predicate CanonicalIsUnique(t: DefinitionTable) {
    forall i, j, hash | i in t.rows && j in t.rows && IsCanonical(t, i, hash) && IsCanonical(t, j, hash) ::
      t.rows[i].tenant == t.rows[j].tenant ==> i == j
  }

  lemma CanonicalIs(t: DefinitionTable, id: int)
    requires id in t.rows
    ensures forall hash :: IsCanonical(t, id, hash) <==> Canonical(t, id) == Some(hash)
  {
  }

  lemma UniqueByCanonical(t: DefinitionTable)
    ensures CanonicalIsUnique(t) <==> DigestCollisions(t) == {}
  {
    hide IsCanonical;
    forall i | i in t.rows ensures forall hash :: IsCanonical(t, i, hash) <==> Canonical(t, i) == Some(hash) {
      CanonicalIs(t, i);
    }
    forall i, j | i in t.rows && j in t.rows && i != j && Canonical(t, i).Some?
                  && t.rows[i].tenant == t.rows[j].tenant && Canonical(t, i) == Canonical(t, j)
      ensures (t.rows[i].tenant, Canonical(t, i)) in DigestCollisions(t)
    {
      assert IsCanonical(t, i, Canonical(t, i).value) && IsCanonical(t, j, Canonical(t, i).value);
    }
  }

  method ValidateProcessDigests(t: DefinitionTable) returns (r: Result<()>)
    ensures r.Ok? <==> t.hasDigest || ((t.hasFull || t.hasSingle) && CanonicalIsUnique(t))
  {
    if t.hasDigest { return Ok(()); }
    if !t.hasFull && !t.hasSingle { return Raised("bpmn_process_definition has no legacy digest to migrate"); }
    UniqueByCanonical(t);
    if DigestCollisions(t) != {} { return Raised("Canonical process digest collisions"); }
    return Ok(());
  }

  function Digested(t: DefinitionTable): DefinitionTable {
    if !t.hasFull && !t.hasSingle then t.(hasDigest := true)
    else DefinitionTable(false, false, true, map id | id in t.rows ::
      Definition(t.rows[id].tenant, None, None, if DigestOf(t, id).None? then Canonical(t, id) else DigestOf(t, id)))
  }

  /** A digest column that is not there yet is added as null. */
  function DigestOf(t: DefinitionTable, id: int): Option<string>
    requires id in t.rows
  {
    if t.hasDigest then t.rows[id].digest else None
  }

  method MigrateProcessDigests(t: DefinitionTable) returns (r: Result<DefinitionTable>)
    ensures r.Ok? <==> (t.hasDigest || t.hasFull || t.hasSingle)
                       && forall id | id in t.rows ::
                            || (t.hasDigest && t.rows[id].digest.Some?) || (t.hasFull && t.rows[id].full.Some?)
                            || (t.hasSingle && t.rows[id].single.Some?)
    ensures r.Ok? ==> r.value.hasDigest && !r.value.hasFull && !r.value.hasSingle && r.value.rows.Keys == t.rows.Keys
    ensures r.Ok? ==> forall id | id in t.rows ::
              && r.value.rows[id].tenant == t.rows[id].tenant
              && r.value.rows[id].digest.Some?
              && if t.hasDigest && t.rows[id].digest.Some? then r.value.rows[id].digest == t.rows[id].digest
                 else IsCanonical(t, id, r.value.rows[id].digest.value)
  {
    if !t.hasFull && !t.hasSingle && !t.hasDigest {
      return Raised("Cannot backfill process_xml_digest: legacy digest is absent");
    }
    var after := Digested(t);
    if exists id | id in after.rows :: after.rows[id].digest.None? {
      return Raised("Process definitions are missing canonical digests");
    }
    forall id | id in t.rows
      ensures id in after.rows
              && after.rows[id].digest == if DigestOf(t, id).Some? then DigestOf(t, id) else Canonical(t, id)
    {
    }
    return Ok(after);
  }

  predicate DigestsIdentify(t: DefinitionTable) {
    && t.hasDigest
    && (forall id | id in t.rows :: t.rows[id].digest.Some?)
    && forall i, j | i in t.rows && j in t.rows && t.rows[i].tenant == t.rows[j].tenant
      && t.rows[i].digest == t.rows[j].digest :: i == j
  }

  /**
   Checked, then migrated: without a digest column to begin with, every digest is canonical and one of a kind
   in its tenant.
  */
  method ValidateAndMigrateDigests(t: DefinitionTable) returns (r: Result<DefinitionTable>)
    requires !t.hasDigest
    ensures r.Ok? <==> (t.hasFull || t.hasSingle) && CanonicalIsUnique(t)
                       && forall id | id in t.rows ::
                            (t.hasFull && t.rows[id].full.Some?) || (t.hasSingle && t.rows[id].single.Some?)
    ensures r.Ok? ==> DigestsIdentify(r.value) && r.value.rows.Keys == t.rows.Keys
    ensures r.Ok? ==> forall id | id in t.rows :: IsCanonical(t, id, r.value.rows[id].digest.value)
  {
    var valid := ValidateProcessDigests(t);
    if valid.Raised? { return Raised(valid.reason); }
    r := MigrateProcessDigests(t);
  }
}
