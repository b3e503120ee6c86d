/**
 The core 0.2.1 upgrade (c4d5) as it runs on one database, step by step with its checks in between, up
 to the point where the legacy tables are dropped.
*/
module CoreHandoff {
  import opened Wrappers
  import opened Relational
  import opened WorkItems
  import PermissionTargets

  /** `human_task_user`, and whether it has the three columns the copy cannot do without. */
  datatype Legacy = Legacy(mappable: bool, rows: seq<Variant>)

  /** Required columns are set, and no two tasks share a guid: otherwise the insert is rejected. */
  predicate Insertable(human: Relation) {
    && HasColumns(human)
    && (forall id | id in human.rows ::
          && Read(human, id, ProcessInstanceId) != Null && Read(human, id, TaskStatus) != Null
          && Read(human, id, Completed) != Null && Read(human, id, TenantId) != Null)
    && (forall i, j | i in human.rows && j in human.rows
      && Read(human, i, TaskGuid) == Read(human, j, TaskGuid) != Null :: i == j)
  }

  function Columns(): set<Column> { {Id} + set k | 0 <= k < |MIGRATED| :: MIGRATED[k] }

  function Copied(human: Relation): Relation {
    Relation(Columns(), map id | id in human.rows :: map c | c in Columns() :: Read(human, id, c))
  }

  lemma CopiedIsFaithful(human: Relation)
    ensures Faithful(human, Copied(human)) && HasColumns(Copied(human))
  {
    hide MIGRATED, HasColumns, SameTask, Read;
    HasColumnsByIndex(Copied(human));
    forall id | id in human.rows ensures id in Copied(human).rows && SameTask(human, Copied(human), id) {
      SameTaskByIndex(human, Copied(human), id);
      forall k | 0 <= k < |MIGRATED| ensures Read(human, id, MIGRATED[k]) == Read(Copied(human), id, MIGRATED[k]) {
        CopiedReads(human, id, k);
      }
    }
  }

  lemma CopiedReads(human: Relation, id: int, k: nat)
    requires id in human.rows && k < |MIGRATED|
    ensures Read(human, id, MIGRATED[k]) == Read(Copied(human), id, MIGRATED[k])
  {
    hide MIGRATED;
    assert MIGRATED[k] in Columns();
  }

  function Dropped(rel: Relation, n: nat): Relation
    requires n <= |LEGACY|
  {
    if n == 0 then rel else DropColumn(Dropped(rel, n - 1), LEGACY[n - 1])
  }

  lemma {:induction false} DroppedReads(rel: Relation, n: nat, id: int, c: Column)
    requires n <= |LEGACY| && c !in LEGACY
    ensures Dropped(rel, n).rows.Keys == rel.rows.Keys && Read(Dropped(rel, n), id, c) == Read(rel, id, c)
    ensures c in Dropped(rel, n).columns <==> c in rel.columns
  {
    if n > 0 {
      DroppedReads(rel, n - 1, id, c);
      DroppingClearsOne(Dropped(rel, n - 1), LEGACY[n - 1], id, c);
    }
  }

  /** The same rows and cells but for three columns, which are gone. */
  ghost predicate SameBut(before: Relation, after: Relation) {
    && after.rows.Keys == before.rows.Keys
    && after.columns == before.columns - {TaskId, UpdatedAtInSeconds, CreatedAtInSeconds}
    && forall id, c | c !in {TaskId, UpdatedAtInSeconds, CreatedAtInSeconds} ::
         Read(after, id, c) == Read(before, id, c)
  }

  lemma DroppingKeepsFaith(human: Option<Relation>, work: Relation)
    ensures SameBut(work, Dropped(work, |LEGACY|))
    ensures human.Some? && Faithful(human.value, work) ==> Faithful(human.value, Dropped(work, |LEGACY|))
  {
    hide Dropped, Read;
    DroppedColumns(work);
    forall id, c | c !in LEGACY
      ensures Dropped(work, |LEGACY|).rows.Keys == work.rows.Keys
      ensures Read(Dropped(work, |LEGACY|), id, c) == Read(work, id, c)
    {
      DroppedReads(work, |LEGACY|, id, c);
    }
    DroppedReads(work, |LEGACY|, 0, Id);
  }

  lemma DroppedColumns(rel: Relation)
    ensures Dropped(rel, |LEGACY|).columns == rel.columns - {TaskId, UpdatedAtInSeconds, CreatedAtInSeconds}
  {
    assert Dropped(rel, 1).columns == rel.columns - {TaskId};
    assert Dropped(rel, 2).columns == Dropped(rel, 1).columns - {UpdatedAtInSeconds};
    assert Dropped(rel, 3).columns == Dropped(rel, 2).columns - {CreatedAtInSeconds};
  }

  class Handoff {
    var group: bool
    var m8fGroup: bool
    var humanTask: Option<Relation>
    var workItem: Option<Relation>
    var humanTaskUser: Option<Legacy>
    var workItemUser: Option<set<Assignment>>
    var targets: Option<PermissionTargets.TargetTable>
    var definitions: Option<PermissionTargets.DefinitionTable>

    method RenameGroupTable() returns (r: Result<()>)
      modifies `group, `m8fGroup
      ensures r.Ok? <==> !(old(group) && old(m8fGroup))
      ensures r.Ok? ==> !group && m8fGroup == (old(group) || old(m8fGroup))
    {
      if group && m8fGroup { return Raised("both group and m8f_group exist"); }
      if group { group, m8fGroup := false, true; }
      return Ok(());
    }

    /** A table that is not there is created from the legacy one; one that is there must already agree with it. */
    method MigrateWorkItems() returns (r: Result<()>)
      modifies `group, `m8fGroup, `workItem
      ensures r.Ok? && old(humanTask).Some? ==> workItem.Some? && Faithful(old(humanTask).value, workItem.value)
      ensures r.Ok? && old(workItem).Some? ==> workItem.Some? && SameBut(old(workItem).value, workItem.value)
      ensures r.Ok? && workItem.Some? ==> TaskGuid in workItem.value.columns
      ensures r.Ok? <==> ItemsReady(old(humanTask), old(workItem), old(group), old(m8fGroup))
      ensures old(workItem).None? && old(humanTask).None? ==> workItem.None?
      ensures r.Ok? && workItem.Some? ==> workItem.value.rows.Keys == ItemIds(old(humanTask), old(workItem))
      ensures r.Ok? ==> (group <==> old(group) && (old(workItem).Some? || old(humanTask).None?))
      ensures r.Ok? ==> (m8fGroup <==> old(m8fGroup) || (old(group) && !group))
    {
      if workItem.None? && humanTask.None? { return Ok(()); }
      if workItem.None? {
        r := RenameGroupTable();
        if r.Raised? { return; }
        if !m8fGroup { return Raised("Cannot create work_item: neither m8f_group nor group exists"); }
        if !Insertable(humanTask.value) { return Raised("work_item insert rejected"); }
        CopiedIsFaithful(humanTask.value);
        workItem := Some(Copied(humanTask.value));
      }
      r := ValidateWorkItemBackfill(humanTask, workItem.value);
      if r.Raised? { return; }
      var columns := workItem.value.columns;
      ghost var before, groups := workItem.value, (group, m8fGroup);
      for i := 0 to |LEGACY|
        invariant workItem == Some(Dropped(before, i)) && (group, m8fGroup) == groups
      {
        workItem := Some(DropColumn(workItem.value, LEGACY[i]));
      }
      DroppingKeepsFaith(humanTask, before);
      DroppedReads(before, |LEGACY|, 0, TaskGuid);
      if TaskGuid !in columns { return Raised("work_item is missing task_guid"); }
    }

    method MigrateAssignments() returns (r: Result<()>)
      requires workItemUser.Some? ==> KeyIsUnique(workItemUser.value)
      modifies `workItemUser
      ensures old(humanTaskUser).None? ==> r.Ok? && workItemUser == old(workItemUser)
      ensures old(humanTaskUser).Some? ==>
                (r.Ok? <==> old(humanTaskUser).value.mappable && workItem.Some?
                            && Transferable(old(humanTaskUser).value.rows, workItem.value.rows.Keys,
                              Rows(old(workItemUser))))
      ensures r.Ok? && old(humanTaskUser).Some? ==>
                workItemUser.Some?
                  && AllCarriedOver(old(humanTaskUser).value.rows, Rows(old(workItemUser)), workItemUser.value)
    {
      if humanTaskUser.None? { return Ok(()); }
      if workItem.None? { return Raised("work_item does not exist"); }
      if workItemUser.None? { workItemUser := Some({}); }
      var legacy, items, rows := humanTaskUser.value, workItem.value.rows.Keys, workItemUser.value;
      if !legacy.mappable { return Raised("human-task assignments cannot be mapped to work-item assignments"); }
      if Orphans(legacy.rows, items) != {} { return Raised("Human-task assignments without a work item"); }
      var variants := Variants(legacy.rows, items);
      ConflictsAreExact(legacy.rows, items, variants);
      if Conflicts(variants) != {} { return Raised("Conflicting human-task assignment metadata"); }
      var added := Insertions(variants, rows);
      NoOrphans(legacy.rows, items);
      AcceptedExactlyWhen(legacy.rows, items, rows);
      if exists v | v in added :: !Complete(v) { return Raised("work_item_user insert rejected"); }
      InsertKeepsKeyUnique(legacy.rows, items, rows);
      forall v | v in legacy.rows ensures CarriedOver(v, rows, Inserted(rows, added)) {
        EveryRowIsCarriedOver(legacy.rows, items, rows, v);
      }
      workItemUser := Some(Inserted(rows, added));
      return Ok(());
    }

    /** The group table's name, and whether the digests can be told apart. */
    method Prepare(coreHead: bool) returns (r: Result<()>)
      modifies `group, `m8fGroup
      ensures r.Ok? <==>
              && !(old(group) && old(m8fGroup)) && (coreHead || old(group) || old(m8fGroup))
              && (definitions.Some? ==> DigestsAllow(definitions.value))
      ensures r.Ok? ==> !group && m8fGroup == (old(group) || old(m8fGroup))
    {
      r := RenameGroupTable();
      if r.Raised? { return; }
      if !coreHead && !m8fGroup { return Raised("neither group nor m8f_group exists"); }
      if definitions.Some? { r := PermissionTargets.ValidateProcessDigests(definitions.value); }
    }

    method MigrateTargets() returns (r: Result<()>)
      modifies `targets
      ensures r.Ok? <==> (old(targets).Some? ==> PermissionTargets.Migratable(old(targets).value))
      ensures r.Ok? && old(targets).Some? ==>
                targets.Some? && PermissionTargets.MadeExplicit(old(targets).value, targets.value)
      ensures r.Ok? && old(targets).None? ==> targets.None?
    {
      if targets.None? { return Ok(()); }
      var migrated := PermissionTargets.MigratePermissionTargets(targets.value);
      if migrated.Raised? { return Raised(migrated.reason); }
      targets := Some(migrated.value);
      return Ok(());
    }

    /**
     The legacy tables are gone only if everything they held is in the new ones; work items, assignments
     and targets that were there before are still there, and every target has its full pair.
    */
    method Upgrade(coreHead: bool) returns (r: Result<()>)
      requires workItemUser.Some? ==> KeyIsUnique(workItemUser.value)
      modifies this
      ensures r.Ok? <==>
              && !(old(group) && old(m8fGroup)) && (coreHead || old(group) || old(m8fGroup))
              && (definitions.Some? ==> DigestsAllow(definitions.value))
              && ItemsReady(old(humanTask), old(workItem), old(group), old(m8fGroup))
              && (old(humanTaskUser).Some? ==>
                    old(humanTaskUser).value.mappable && (old(workItem).Some? || old(humanTask).Some?)
                    && Transferable(old(humanTaskUser).value.rows, ItemIds(old(humanTask), old(workItem)),
                                    Rows(old(workItemUser))))
              && (old(targets).Some? ==> PermissionTargets.Migratable(old(targets).value))
      ensures r.Ok? ==> humanTask.None? && humanTaskUser.None?
      ensures r.Ok? && old(humanTask).Some? ==> workItem.Some? && Faithful(old(humanTask).value, workItem.value)
      ensures r.Ok? && old(workItem).Some? ==> workItem.Some? && SameBut(old(workItem).value, workItem.value)
      ensures r.Ok? && old(humanTaskUser).Some? ==>
                workItemUser.Some?
                  && AllCarriedOver(old(humanTaskUser).value.rows, Rows(old(workItemUser)), workItemUser.value)
      ensures r.Ok? && old(humanTaskUser).None? ==> workItemUser == old(workItemUser)
      ensures r.Ok? && old(targets).Some? ==>
                targets.Some? && PermissionTargets.MadeExplicit(old(targets).value, targets.value)
      ensures r.Ok? && old(targets).None? ==> targets.None?
      ensures definitions == old(definitions)
    {
      hide Faithful, SameBut, AllCarriedOver, Transferable, KeyIsUnique, HasColumns, Rows, ItemsReady, ItemIds;
      hide PermissionTargets.MadeExplicit, PermissionTargets.CanonicalIsUnique, PermissionTargets.Migratable;
      r := Prepare(coreHead);
      if r.Raised? { return; }
      RenamedIsReady(humanTask, workItem, old(group), old(m8fGroup));
      r := MigrateWorkItems();
      if r.Raised? { return; }
      r := MigrateAssignments();
      if r.Raised? { return; }
      r := MigrateTargets();
      if r.Raised? { return; }
      humanTaskUser := None;
      humanTask := None;
    }
  }

  /**
   Without a `work_item` table the human tasks must fit the new one, and exactly one group table be there; with one,
   it must agree with them, or have guids if there are none.
  */
  predicate ItemsReady(human: Option<Relation>, work: Option<Relation>, group: bool, m8fGroup: bool) {
    match (human, work)
    case (None, None) => true
    case (Some(h), None) => group != m8fGroup && Insertable(h)
    case (None, Some(w)) => TaskGuid in w.columns
    case (Some(h), Some(w)) => HasColumns(h) && HasColumns(w) && Faithful(h, w)
  }

  lemma RenamedIsReady(human: Option<Relation>, work: Option<Relation>, group: bool, m8fGroup: bool)
    requires !(group && m8fGroup)
    ensures ItemsReady(human, work, false, group || m8fGroup) <==> ItemsReady(human, work, group, m8fGroup)
  {
  }

  ghost predicate DigestsAllow(t: PermissionTargets.DefinitionTable) {
    t.hasDigest || ((t.hasFull || t.hasSingle) && PermissionTargets.CanonicalIsUnique(t))
  }

  /** The ids of the work items there are or will be. */
  function ItemIds(human: Option<Relation>, work: Option<Relation>): set<int> {
    if work.Some? then work.value.rows.Keys else if human.Some? then human.value.rows.Keys else {}
  }

  /** Every legacy assignment is carried over, nothing else is added, no old row changes, and keys stay unique. */
  predicate AllCarriedOver(legacy: seq<Variant>, before: set<Assignment>, after: set<Assignment>) {
    && before <= after && KeyIsUnique(after) && OnlyFromLegacy(legacy, before, after)
    && forall v | v in legacy :: CarriedOver(v, before, after)
  }

  function Rows(t: Option<set<Assignment>>): set<Assignment> { if t.Some? then t.value else {} }

  lemma NoOrphans(legacy: seq<Variant>, items: set<int>)
    ensures Orphans(legacy, items) == {} <==> forall v | v in legacy :: v.task.Some? && v.task.value in items
    ensures Orphans(legacy, items) == {} ==> forall v | v in legacy :: v in Variants(legacy, items)
  {
    forall v | v in legacy && (v.task.None? || v.task.value !in items) ensures v in Orphans(legacy, items) {
    }
  }
}
