/**
 The timestamp chain cell by cell: for every table and column by name, what b2c3, c3d4 and d4e5 leave.
*/
module TimestampCells {
  import opened Wrappers
  import opened Relational
  import opened TimestampRevisions
  import opened TimestampChain

  /**
   The native cell ends as it was, or if it was null as the instant of the epoch cell, or if that was null too
   as null.
  */
  predicate Becomes(before: Relation, after: Relation, id: int, legacy: Column, native: Column) {
    Read(after, id, native) ==
    if Read(before, id, native) != Null then Read(before, id, native)
    else if Read(before, id, legacy).Epoch? then Instant(Read(before, id, legacy).seconds)
    else Null
  }

  /** The column is gone. */
  predicate Gone(after: Relation, c: Column) { c !in after.columns }

  lemma PairBecomes(db: Database, t: Table, id: int, k: nat)
    requires Chain(db).Ok? && t in db && t != WorkItem && id in db[t].rows && k < |Pairs(t)|
    ensures t in Chain(db).value
    ensures Becomes(db[t], Chain(db).value[t], id, Pairs(t)[k].legacy, Pairs(t)[k].native)
  {
    hide Chain, Pairs;
    StampedTablesKeepEverything(db, t);
    var p := Pairs(t)[k];
    assert Read(Chain(db).value[t], id, p.native) == Kept(db[t], id, p);
  }

  lemma LegacyGoes(db: Database, t: Table, c: Column)
    requires Chain(db).Ok? && t in db && (c in HostLegacy(t) || c in CoreLegacy(t))
    ensures t in Chain(db).value && Gone(Chain(db).value[t], c)
  {
    hide Chain, HostLegacy, CoreLegacy, Through;
    ChainByTable(db, t);
    ThroughShape(db[t], t, c);
  }

  // ------------------------------------------------------------------ table by table

  lemma StartsAndEnds(db: Database, t: Table, id: int)
    requires Chain(db).Ok? && t in {Process, Task, ProcessInstance} && t in db && id in db[t].rows
    ensures t in Chain(db).value
    ensures Becomes(db[t], Chain(db).value[t], id, StartInSeconds, StartedAt)
    ensures Becomes(db[t], Chain(db).value[t], id, EndInSeconds, EndedAt)
    ensures Gone(Chain(db).value[t], StartInSeconds) && Gone(Chain(db).value[t], EndInSeconds)
  {
    hide Chain, Becomes, Gone;
    PairBecomes(db, t, id, 0);
    PairBecomes(db, t, id, 1);
    LegacyGoes(db, t, StartInSeconds);
    LegacyGoes(db, t, EndInSeconds);
  }

  /** Tables with a creation and an update time. NATS keys keep their epoch columns, which a later revision renames. */
  lemma CreatedAndUpdated(db: Database, t: Table, id: int)
    requires Chain(db).Ok? && t in db && id in db[t].rows
    requires t in {User, Tenant, ProcessDefinition, TaskDefinition, ProcessInstance, HumanTask, ProcessInstanceMetadata,
                   SchedulerJob, Secret, RefreshToken, TaskDraftData, Templates, ProcessModelTemplate, NatsApiKey,
                   ConnectorConfiguration, TenantInvitation, ExternalFormRequests}
    ensures t in Chain(db).value
    ensures Becomes(db[t], Chain(db).value[t], id, CreatedAtInSeconds, CreatedAt)
    ensures Becomes(db[t], Chain(db).value[t], id, UpdatedAtInSeconds, UpdatedAt)
    ensures t != NatsApiKey ==>
              Gone(Chain(db).value[t], CreatedAtInSeconds) && Gone(Chain(db).value[t], UpdatedAtInSeconds)
  {
    hide Chain, Becomes, Gone;
    var k: nat := if t == ProcessInstance then 3 else if t == SchedulerJob then 2 else 0;
    PairBecomes(db, t, id, k);
    PairBecomes(db, t, id, k + 1);
    if t != NatsApiKey {
      LegacyGoes(db, t, CreatedAtInSeconds);
      LegacyGoes(db, t, UpdatedAtInSeconds);
    }
  }

  lemma CreatedOnly(db: Database, t: Table, id: int)
    requires Chain(db).Ok? && t in db && id in db[t].rows
    requires t in {BpmnVersion, PkceCodeVerifier, ServiceAccount, TaskInstructions, ApiLog, InstanceFileData}
    ensures t in Chain(db).value && Becomes(db[t], Chain(db).value[t], id, CreatedAtInSeconds, CreatedAt)
    ensures Gone(Chain(db).value[t], CreatedAtInSeconds)
  {
    hide Chain, Becomes, Gone;
    PairBecomes(db, t, id, 0);
    LegacyGoes(db, t, CreatedAtInSeconds);
  }

  /** And when a task of an instance was last updated. */
  lemma InstanceMoments(db: Database, id: int)
    requires Chain(db).Ok? && ProcessInstance in db && id in db[ProcessInstance].rows
    ensures ProcessInstance in Chain(db).value
    ensures Becomes(db[ProcessInstance], Chain(db).value[ProcessInstance], id, TaskUpdatedAtInSeconds, TaskUpdatedAt)
    ensures Gone(Chain(db).value[ProcessInstance], TaskUpdatedAtInSeconds)
  {
    hide Chain, Becomes, Gone;
    PairBecomes(db, ProcessInstance, id, 2);
    LegacyGoes(db, ProcessInstance, TaskUpdatedAtInSeconds);
  }

  /** An event's `timestamp` becomes `occurred_at`. */
  lemma EventMoments(db: Database, id: int)
    requires Chain(db).Ok? && ProcessInstanceEvent in db && id in db[ProcessInstanceEvent].rows
    ensures ProcessInstanceEvent in Chain(db).value
    ensures Becomes(db[ProcessInstanceEvent], Chain(db).value[ProcessInstanceEvent], id, Timestamp, OccurredAt)
    ensures Gone(Chain(db).value[ProcessInstanceEvent], Timestamp)
  {
    hide Chain, Becomes, Gone;
    PairBecomes(db, ProcessInstanceEvent, id, 0);
    LegacyGoes(db, ProcessInstanceEvent, Timestamp);
  }

  /** Future tasks. */
  lemma FutureMoments(db: Database, id: int)
    requires Chain(db).Ok? && FutureTask in db && id in db[FutureTask].rows
    ensures FutureTask in Chain(db).value
    ensures Becomes(db[FutureTask], Chain(db).value[FutureTask], id, RunAtInSeconds, RunAt)
    ensures Gone(Chain(db).value[FutureTask], RunAtInSeconds)
    ensures Becomes(db[FutureTask], Chain(db).value[FutureTask], id, QueuedToRunAtInSeconds, QueuedToRunAt)
    ensures Gone(Chain(db).value[FutureTask], QueuedToRunAtInSeconds)
    ensures Becomes(db[FutureTask], Chain(db).value[FutureTask], id, UpdatedAtInSeconds, UpdatedAt)
    ensures Gone(Chain(db).value[FutureTask], UpdatedAtInSeconds)
  {
    hide Chain, Becomes, Gone;
    PairBecomes(db, FutureTask, id, 0);
    LegacyGoes(db, FutureTask, RunAtInSeconds);
    PairBecomes(db, FutureTask, id, 1);
    LegacyGoes(db, FutureTask, QueuedToRunAtInSeconds);
    PairBecomes(db, FutureTask, id, 2);
    LegacyGoes(db, FutureTask, UpdatedAtInSeconds);
  }

  /** Scheduler jobs. */
  lemma JobMoments(db: Database, id: int)
    requires Chain(db).Ok? && SchedulerJob in db && id in db[SchedulerJob].rows
    ensures SchedulerJob in Chain(db).value
    ensures Becomes(db[SchedulerJob], Chain(db).value[SchedulerJob], id, LockedAtInSeconds, LockedAt)
    ensures Gone(Chain(db).value[SchedulerJob], LockedAtInSeconds)
    ensures Becomes(db[SchedulerJob], Chain(db).value[SchedulerJob], id, RunAtInSeconds, RunAt)
    ensures Gone(Chain(db).value[SchedulerJob], RunAtInSeconds)
  {
    hide Chain, Becomes, Gone;
    PairBecomes(db, SchedulerJob, id, 0);
    LegacyGoes(db, SchedulerJob, LockedAtInSeconds);
    PairBecomes(db, SchedulerJob, id, 1);
    LegacyGoes(db, SchedulerJob, RunAtInSeconds);
  }

  const MOMENTS: set<Column> := {
    CreatedAtInSeconds, CreatedAt, UpdatedAtInSeconds, UpdatedAt, StartInSeconds, StartedAt, EndInSeconds, EndedAt,
    TaskUpdatedAtInSeconds, TaskUpdatedAt, RunAtInSeconds, RunAt, QueuedToRunAtInSeconds, QueuedToRunAt,
    LockedAtInSeconds, LockedAt, Timestamp, OccurredAt
  }

  /** No row appears or goes, and no cell changes but moments; in tables of other names nothing at all does. */
  lemma NothingElseChanges(db: Database, t: Table, id: int, c: Column)
    requires Chain(db).Ok? && t in db && (c !in MOMENTS || t.Other?)
    ensures t in Chain(db).value && Chain(db).value[t].rows.Keys == db[t].rows.Keys
    ensures Read(Chain(db).value[t], id, c) == Read(db[t], id, c)
  {
    hide Chain, Read, Through;
    ChainByTable(db, t);
    ThroughShape(db[t], t, Id);
    NoMomentNoPair(t, c);
    OnlyLegacyColumnsGo(db, t, id, c);
  }

  lemma NoMomentNoPair(t: Table, c: Column)
    requires c !in MOMENTS || t.Other?
    ensures c !in HostLegacy(t) && c !in CoreLegacy(t) && forall k | 0 <= k < |Pairs(t)| :: Pairs(t)[k].native != c
  {
  }

  // ------------------------------------------------------------------ work items

  /** An older `work_item` table loses its epoch columns, whatever is in them. */
  lemma OldWorkItems(db: Database, id: int)
    requires Chain(db).Ok? && WorkItem in db
    ensures WorkItem in Chain(db).value
    ensures Read(Chain(db).value[WorkItem], id, CreatedAt) == Read(db[WorkItem], id, CreatedAt)
    ensures Read(Chain(db).value[WorkItem], id, UpdatedAt) == Read(db[WorkItem], id, UpdatedAt)
    ensures Gone(Chain(db).value[WorkItem], CreatedAtInSeconds) && Gone(Chain(db).value[WorkItem], UpdatedAtInSeconds)
  {
    hide Chain, Read, Gone;
    OldWorkItemsAreNotBackfilled(db, id, 0);
    OldWorkItemsAreNotBackfilled(db, id, 1);
    LegacyGoes(db, WorkItem, CreatedAtInSeconds);
    LegacyGoes(db, WorkItem, UpdatedAtInSeconds);
  }

  /** A created one has every human task, column by column. */
  lemma NewWorkItems(db: Database, id: int, c: Column)
    requires Chain(db).Ok? && HumanTask in db && WorkItem !in db && id in db[HumanTask].rows
    requires c in {Id, ProcessInstanceId, TaskGuid, TaskId, LaneAssignmentId, CompletedByUserId, ActualOwnerId,
                   TaskStatus, Completed, TenantId}
    ensures WorkItem in Chain(db).value && Chain(db).value[WorkItem].rows.Keys == db[HumanTask].rows.Keys
    ensures Read(Chain(db).value[WorkItem], id, c) == Read(db[HumanTask], id, c)
    ensures Becomes(db[HumanTask], Chain(db).value[WorkItem], id, CreatedAtInSeconds, CreatedAt)
    ensures Becomes(db[HumanTask], Chain(db).value[WorkItem], id, UpdatedAtInSeconds, UpdatedAt)
  {
    hide Chain, Read;
    NewWorkItemsAreTheHumanTasks(db, id, c);
    NewWorkItemsAreTheHumanTasks(db, id, CreatedAt);
    NewWorkItemsAreTheHumanTasks(db, id, UpdatedAt);
    NothingElseChanges(db, HumanTask, id, c);
    CreatedAndUpdated(db, HumanTask, id);
  }

  /**
   The chain completes exactly unless `work_item` has to be created from human tasks that lack a copied column or a
   value that must not be null. Both timestamps are there by then.
  */
  lemma CompletesExactlyWhen(db: Database)
    ensures Chain(db).Ok? <==>
            (HumanTask in db && WorkItem !in db ==>
               && {Id, ProcessInstanceId, TaskGuid, TaskId, LaneAssignmentId, CompletedByUserId, ActualOwnerId,
                   TaskStatus, Completed, UpdatedAtInSeconds, CreatedAtInSeconds, TenantId} <= db[HumanTask].columns
               && forall id | id in db[HumanTask].rows ::
                    && Read(db[HumanTask], id, ProcessInstanceId) != Null && Read(db[HumanTask], id, TaskStatus) != Null
                    && Read(db[HumanTask], id, Completed) != Null && Read(db[HumanTask], id, TenantId) != Null)
  {
    hide Stamp, Read, Discarded, Retired, CopyOf;
    if HumanTask in db && WorkItem !in db {
      var human := db[HumanTask];
      assert Pairs(HumanTask) == [CREATED, UPDATED];
      StampShape(human, Pairs(HumanTask));
      var natives := set k | 0 <= k < 2 :: Pairs(HumanTask)[k].native;
      assert Pairs(HumanTask)[0].native in natives && Pairs(HumanTask)[1].native in natives;
      assert natives == {CreatedAt, UpdatedAt};
      forall id, c | c in REQUIRED
        ensures Read(Stamp(human, Pairs(HumanTask)), id, c) == Read(human, id, c)
      {
        StampLeaves(human, Pairs(HumanTask), id, c);
      }
    }
  }

  // ------------------------------------------------------------------ c3d4 alone

  /** c3d4 on a table that it finds: both pairs are backfilled if a native column was missing, else neither is. */
  lemma RetireAlone(rel: Relation, t: Table, id: int)
    requires t in {Secret, RefreshToken, TaskDraftData, Templates, ProcessModelTemplate, ExternalFormRequests,
                   TenantInvitation, ConnectorConfiguration}
    requires id in rel.rows && CreatedAtInSeconds in rel.columns && UpdatedAtInSeconds in rel.columns
    ensures var after := Retire(rel, HostLegacy(t));
            if CreatedAt in rel.columns && UpdatedAt in rel.columns
            then Read(after, id, CreatedAt) == Read(rel, id, CreatedAt)
                 && Read(after, id, UpdatedAt) == Read(rel, id, UpdatedAt)
            else Becomes(rel, after, id, CreatedAtInSeconds, CreatedAt)
                 && Becomes(rel, after, id, UpdatedAtInSeconds, UpdatedAt)
  {
    hide Retire, Read;
    var cs := HostLegacy(t);
    BothPresent(rel.columns);
    assert Present(cs, rel.columns) == cs;
    HostColumnsArePaired(t, rel.columns);
    RetireReads(rel, cs, id, 0);
    RetireReads(rel, cs, id, 1);
    assert NativeMissing(rel, cs) <==> RemoveSuffix(cs[0]) !in rel.columns || RemoveSuffix(cs[1]) !in rel.columns;
  }

  lemma BothPresent(columns: set<Column>)
    requires CreatedAtInSeconds in columns && UpdatedAtInSeconds in columns
    ensures Present([CreatedAtInSeconds, UpdatedAtInSeconds], columns) == [CreatedAtInSeconds, UpdatedAtInSeconds]
  {
    var cs := [CreatedAtInSeconds, UpdatedAtInSeconds];
    assert cs[1..] == [UpdatedAtInSeconds] && cs[1..][1..] == [];
    assert Present(cs[1..], columns) == [UpdatedAtInSeconds];
  }
}
