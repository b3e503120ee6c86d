/**
 The core 0.2.1 handoff (c4d5), work items and assignments: the legacy tables are dropped at the end,
 so what they held must be in the new ones before.
*/
module WorkItems {
  import opened Wrappers
  import opened Relational

  // ------------------------------------------------------------------ the backfill check

  const MIGRATED: seq<Column> := [
    ProcessInstanceId, TaskGuid, LaneAssignmentId, CompletedByUserId, ActualOwnerId, TaskStatus, Completed,
    UpdatedAt, CreatedAt, TenantId
  ]

  const LEGACY: seq<Column> := [TaskId, UpdatedAtInSeconds, CreatedAtInSeconds]

  /** The comparison of one column, as the query writes it out. */
  function Differs(h: Value, w: Value): Truth {
    Either(Unequal(h, w), Either(Both(IsNull(h), Not(IsNull(w))), Both(Not(IsNull(h)), IsNull(w))))
  }

  /** The disjunction over the first `n` columns. */
  function AnyDiffers(human: Relation, work: Relation, id: int, n: nat): Truth
    requires n <= |MIGRATED|
  {
    if n == 0 then Fails
    else
      Either(AnyDiffers(human, work, id, n - 1),
        Differs(Read(human, id, MIGRATED[n - 1]), Read(work, id, MIGRATED[n - 1])))
  }

  function MissingIds(human: Relation, work: Relation): set<int> {
    set id | id in human.rows && id !in work.rows
  }

  /** A WHERE clause keeps the rows whose condition holds, not those where it is unknown. */
  function MismatchedIds(human: Relation, work: Relation): set<int> {
    set id | id in human.rows && AnyDiffers(human, work, id, |MIGRATED|) == Holds
  }

  /** The two rows agree in all ten columns; null is matched by null only. */
  predicate SameTask(human: Relation, work: Relation, id: int) {
    && Read(human, id, ProcessInstanceId) == Read(work, id, ProcessInstanceId)
    && Read(human, id, TaskGuid) == Read(work, id, TaskGuid)
    && Read(human, id, LaneAssignmentId) == Read(work, id, LaneAssignmentId)
    && Read(human, id, CompletedByUserId) == Read(work, id, CompletedByUserId)
    && Read(human, id, ActualOwnerId) == Read(work, id, ActualOwnerId)
    && Read(human, id, TaskStatus) == Read(work, id, TaskStatus)
    && Read(human, id, Completed) == Read(work, id, Completed)
    && Read(human, id, UpdatedAt) == Read(work, id, UpdatedAt)
    && Read(human, id, CreatedAt) == Read(work, id, CreatedAt)
    && Read(human, id, TenantId) == Read(work, id, TenantId)
  }

  /** Every legacy row has its work item. */
  predicate Faithful(human: Relation, work: Relation) {
    forall id | id in human.rows :: id in work.rows && SameTask(human, work, id)
  }

  lemma SameTaskByIndex(human: Relation, work: Relation, id: int)
    ensures SameTask(human, work, id) <==>
            forall k | 0 <= k < |MIGRATED| :: Read(human, id, MIGRATED[k]) == Read(work, id, MIGRATED[k])
  {
    hide Read;
    if forall k | 0 <= k < |MIGRATED| :: Read(human, id, MIGRATED[k]) == Read(work, id, MIGRATED[k]) {
      assert MIGRATED[0] == ProcessInstanceId && MIGRATED[1] == TaskGuid && MIGRATED[2] == LaneAssignmentId;
      assert MIGRATED[3] == CompletedByUserId && MIGRATED[4] == ActualOwnerId && MIGRATED[5] == TaskStatus;
      assert MIGRATED[6] == Completed && MIGRATED[7] == UpdatedAt && MIGRATED[8] == CreatedAt;
      assert MIGRATED[9] == TenantId;
    }
  }

  lemma DiffersExactlyWhenUnequal(h: Value, w: Value)
    ensures Differs(h, w) == Holds <==> h != w
  {
  }

  lemma {:induction false} AnyDiffersExactlyWhen(human: Relation, work: Relation, id: int, n: nat)
    requires n <= |MIGRATED|
    ensures AnyDiffers(human, work, id, n) == Holds <==>
            exists k :: 0 <= k < n && Read(human, id, MIGRATED[k]) != Read(work, id, MIGRATED[k])
  {
    hide Read, Differs, MIGRATED;
    if n > 0 {
      AnyDiffersExactlyWhen(human, work, id, n - 1);
      DiffersExactlyWhenUnequal(Read(human, id, MIGRATED[n - 1]), Read(work, id, MIGRATED[n - 1]));
    }
  }

  /** The two queries find nothing exactly when the work items are faithful. */
  lemma QueriesAreExact(human: Relation, work: Relation)
    ensures MissingIds(human, work) == {} && MismatchedIds(human, work) == {} <==> Faithful(human, work)
  {
    hide Read, MIGRATED, AnyDiffers, SameTask;
    var missing, mismatched := MissingIds(human, work), MismatchedIds(human, work);
    forall id | id in human.rows
      ensures id in missing <==> id !in work.rows
      ensures id in mismatched <==> !SameTask(human, work, id)
    {
      SameTaskByIndex(human, work, id);
      AnyDiffersExactlyWhen(human, work, id, |MIGRATED|);
    }
    if Faithful(human, work) {
      forall id ensures id !in missing && id !in mismatched { assert id in human.rows ==> SameTask(human, work, id); }
    }
  }

  predicate HasColumns(rel: Relation) {
    && Id in rel.columns && ProcessInstanceId in rel.columns && TaskGuid in rel.columns
    && LaneAssignmentId in rel.columns && CompletedByUserId in rel.columns && ActualOwnerId in rel.columns
    && TaskStatus in rel.columns && Completed in rel.columns && UpdatedAt in rel.columns && CreatedAt in rel.columns
    && TenantId in rel.columns
  }

  predicate LacksColumn(rel: Relation) {
    Id !in rel.columns || exists k | 0 <= k < |MIGRATED| :: MIGRATED[k] !in rel.columns
  }

  lemma HasColumnsByIndex(rel: Relation)
    ensures HasColumns(rel) <==> !LacksColumn(rel)
  {
    if forall k | 0 <= k < |MIGRATED| :: MIGRATED[k] in rel.columns {
      assert MIGRATED[0] == ProcessInstanceId && MIGRATED[1] == TaskGuid && MIGRATED[2] == LaneAssignmentId;
      assert MIGRATED[3] == CompletedByUserId && MIGRATED[4] == ActualOwnerId && MIGRATED[5] == TaskStatus;
      assert MIGRATED[6] == Completed && MIGRATED[7] == UpdatedAt && MIGRATED[8] == CreatedAt;
      assert MIGRATED[9] == TenantId;
    }
  }

  /** The handoff goes on exactly when no column is missing and every human task has its work item. */
  method ValidateWorkItemBackfill(human: Option<Relation>, work: Relation) returns (r: Result<()>)
    ensures r.Ok? <==> (human.Some? ==> HasColumns(human.value) && HasColumns(work) && Faithful(human.value, work))
  {
    hide MIGRATED, HasColumns, LacksColumn, Faithful, MissingIds, MismatchedIds;
    if human.None? { return Ok(()); }
    HasColumnsByIndex(human.value);
    HasColumnsByIndex(work);
    if LacksColumn(human.value) || LacksColumn(work) {
      return Raised("Cannot validate human_task to work_item migration; missing columns");
    }
    QueriesAreExact(human.value, work);
    if MissingIds(human.value, work) != {} { return Raised("Human tasks without exactly one work item"); }
    if MismatchedIds(human.value, work) != {} {
      return Raised("Human task and work item rows differ for approval-chain fields");
    }
    return Ok(());
  }

  // ------------------------------------------------------------------ assignments

  /** A row of `human_task_user`; every cell may be null. */
  datatype Variant = Variant(task: Option<int>, user: Option<int>, addedBy: Option<string>, tenant: Option<string>)

  /** A row of `work_item_user`. */
  datatype Assignment = Assignment(item: int, user: int, addedBy: Option<string>, tenant: string)

  predicate SameKey(a: Assignment, b: Assignment) { a.item == b.item && a.user == b.user }

  predicate KeyIsUnique(rows: set<Assignment>) {
    forall a, b | a in rows && b in rows && SameKey(a, b) :: a == b
  }

  function Orphans(legacy: seq<Variant>, items: set<int>): set<Variant> {
    set v | v in legacy && (v.task.None? || v.task.value !in items)
  }

  /** `SELECT DISTINCT` over the join with `work_item`. */
  function Variants(legacy: seq<Variant>, items: set<int>): set<Variant> {
    set v | v in legacy && v.task.Some? && v.task.value in items
  }

  /** The groups of (work item, user) with more than one variant; nulls group together. */
  function Conflicts(variants: set<Variant>): set<(Option<int>, Option<int>)> {
    set v, u | v in variants && u in variants && v != u && v.task == u.task && v.user == u.user :: (v.task, v.user)
  }

  /** `NOT EXISTS` a row with the same key; a null user equals none. */
  predicate NotThere(v: Variant, rows: set<Assignment>) {
    !exists a | a in rows :: v.task == Some(a.item) && v.user == Some(a.user)
  }

  function Insertions(variants: set<Variant>, rows: set<Assignment>): set<Variant> {
    set v | v in variants && NotThere(v, rows)
  }

  /** The insert is rejected when a column that may not be null would be. */
  predicate Complete(v: Variant) { v.task.Some? && v.user.Some? && v.tenant.Some? }

  function AsAssignment(v: Variant): Assignment
    requires Complete(v)
  {
    Assignment(v.task.value, v.user.value, v.addedBy, v.tenant.value)
  }

  function Inserted(rows: set<Assignment>, added: set<Variant>): set<Assignment>
    requires forall v | v in added :: Complete(v)
  {
    rows + set v | v in added :: AsAssignment(v)
  }

  /** The legacy rows can all be carried over: no orphan, one version per key, and no null where a key is new. */
  predicate Transferable(legacy: seq<Variant>, items: set<int>, rows: set<Assignment>) {
    && (forall v | v in legacy :: v.task.Some? && v.task.value in items)
    && (forall v, u | v in legacy && u in legacy && v.task == u.task && v.user == u.user :: v == u)
    && (forall v | v in legacy && (forall a | a in rows :: !(v.task == Some(a.item) && v.user == Some(a.user))) ::
          v.user.Some? && v.tenant.Some?)
  }

  /** Once the checks before it pass, the insert is accepted exactly when that is so. */
  lemma AcceptedExactlyWhen(legacy: seq<Variant>, items: set<int>, rows: set<Assignment>)
    requires forall v | v in legacy :: v.task.Some? && v.task.value in items
    requires forall v, u | v in legacy && u in legacy && v.task == u.task && v.user == u.user :: v == u
    ensures Transferable(legacy, items, rows) <==>
            forall v | v in Insertions(Variants(legacy, items), rows) :: Complete(v)
  {
    forall v | v in legacy
      ensures v in Insertions(Variants(legacy, items), rows) <==>
              forall a | a in rows :: !(v.task == Some(a.item) && v.user == Some(a.user))
    {
    }
  }

  lemma ConflictsAreExact(legacy: seq<Variant>, items: set<int>, variants: set<Variant>)
    requires variants == Variants(legacy, items) && Orphans(legacy, items) == {}
    ensures Conflicts(variants) == {} <==>
            forall v, u | v in legacy && u in legacy && v.task == u.task && v.user == u.user :: v == u
  {
    forall v | v in legacy ensures v in variants {
      assert v !in Orphans(legacy, items);
    }
    forall v, u | v in variants && u in variants && v != u && v.task == u.task && v.user == u.user
      ensures (v.task, v.user) in Conflicts(variants)
    {
    }
  }

  /** No two inserted rows share a key, and none has the key of an old row: the primary key accepts the insert. */
  lemma InsertKeepsKeyUnique(legacy: seq<Variant>, items: set<int>, rows: set<Assignment>)
    requires KeyIsUnique(rows) && Transferable(legacy, items, rows)
    requires forall v | v in Insertions(Variants(legacy, items), rows) :: Complete(v)
    ensures KeyIsUnique(Inserted(rows, Insertions(Variants(legacy, items), rows)))
  {
    var added := Insertions(Variants(legacy, items), rows);
    var all := Inserted(rows, added);
    forall a, b | a in all && b in all && SameKey(a, b) ensures a == b {
      if a !in rows {
        var v :| v in added && AsAssignment(v) == a;
        assert NotThere(v, rows);
      }
      if b !in rows {
        var v :| v in added && AsAssignment(v) == b;
        assert NotThere(v, rows);
      }
    }
  }

  /** The legacy row's key is there, with its own metadata unless that key was there before. */
  predicate CarriedOver(v: Variant, before: set<Assignment>, after: set<Assignment>) {
    if exists a | a in before :: v.task == Some(a.item) && v.user == Some(a.user)
    then exists a | a in after && a in before :: v.task == Some(a.item) && v.user == Some(a.user)
    else
      && v.task.Some? && v.user.Some? && v.tenant.Some?
      && Assignment(v.task.value, v.user.value, v.addedBy, v.tenant.value) in after
  }

  lemma EveryRowIsCarriedOver(legacy: seq<Variant>, items: set<int>, rows: set<Assignment>, v: Variant)
    requires Transferable(legacy, items, rows) && v in legacy
    requires forall u | u in Insertions(Variants(legacy, items), rows) :: Complete(u)
    ensures CarriedOver(v, rows, Inserted(rows, Insertions(Variants(legacy, items), rows)))
  {
    var added := Insertions(Variants(legacy, items), rows);
    if NotThere(v, rows) {
      assert v in added;
    } else {
      var a :| a in rows && v.task == Some(a.item) && v.user == Some(a.user);
      assert a in Inserted(rows, added);
    }
  }

  /** Nothing else is added. */
  predicate OnlyFromLegacy(legacy: seq<Variant>, before: set<Assignment>, after: set<Assignment>) {
    forall a | a in after && a !in before ::
      && (forall b | b in before :: !SameKey(a, b))
      && exists v | v in legacy ::
           v == Variant(Some(a.item), Some(a.user), a.addedBy, Some(a.tenant))
  }
}
