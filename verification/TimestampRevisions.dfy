/**
 Three revisions that replace epoch columns by native timestamps: b2c3 adds and backfills the
 native columns and copies `human_task` to `work_item`, c3d4 drops the epoch columns of the host's
 tables, d4e5 those of the core's tables.
*/
module TimestampRevisions {
  import opened Relational

  datatype Table =
    | User | Tenant | ProcessDefinition | Process | TaskDefinition | Task | ProcessInstance | HumanTask | FutureTask
    | ProcessInstanceEvent | ProcessInstanceMetadata | BpmnVersion | SchedulerJob
    | Secret | PkceCodeVerifier | RefreshToken | ServiceAccount | TaskDraftData | TaskInstructions | ApiLog
    | InstanceFileData | Templates | ProcessModelTemplate | NatsApiKey | ConnectorConfiguration | TenantInvitation
    | ExternalFormRequests | WorkItem | Other(name: string)

  type Database = map<Table, Relation>

  datatype Pair = Pair(legacy: Column, native: Column)

  const CREATED := Pair(CreatedAtInSeconds, CreatedAt)
  const UPDATED := Pair(UpdatedAtInSeconds, UpdatedAt)
  const STARTED := Pair(StartInSeconds, StartedAt)
  const ENDED := Pair(EndInSeconds, EndedAt)

  /** `TIMESTAMP_COLUMNS`; empty for a table that is not in it. */
  function Pairs(t: Table): seq<Pair> {
    match t
    case Process | Task => [STARTED, ENDED]
    case ProcessInstance => [STARTED, ENDED, Pair(TaskUpdatedAtInSeconds, TaskUpdatedAt), CREATED, UPDATED]
    case FutureTask => [Pair(RunAtInSeconds, RunAt), Pair(QueuedToRunAtInSeconds, QueuedToRunAt), UPDATED]
    case ProcessInstanceEvent => [Pair(Timestamp, OccurredAt)]
    case SchedulerJob => [Pair(LockedAtInSeconds, LockedAt), Pair(RunAtInSeconds, RunAt), CREATED, UPDATED]
    case BpmnVersion | PkceCodeVerifier | ServiceAccount | TaskInstructions | ApiLog | InstanceFileData => [CREATED]
    case WorkItem => []
    case Other(_) => []
    case _ => [CREATED, UPDATED]
  }

  const STAMPED: set<Table> := {
    User, Tenant, ProcessDefinition, Process, TaskDefinition, Task, ProcessInstance, HumanTask, FutureTask,
    ProcessInstanceEvent, ProcessInstanceMetadata, BpmnVersion, SchedulerJob,
    Secret, PkceCodeVerifier, RefreshToken, ServiceAccount, TaskDraftData, TaskInstructions, ApiLog,
    InstanceFileData, Templates, ProcessModelTemplate, NatsApiKey, ConnectorConfiguration, TenantInvitation,
    ExternalFormRequests
  }

  /** `HOST_LEGACY_TIMESTAMP_COLUMNS` of c3d4. */
  function HostLegacy(t: Table): seq<Column> {
    match t
    case PkceCodeVerifier | ServiceAccount | TaskInstructions | ApiLog | InstanceFileData => [CreatedAtInSeconds]
    case Secret | RefreshToken | TaskDraftData | Templates | ProcessModelTemplate | ExternalFormRequests
       | TenantInvitation | ConnectorConfiguration => [CreatedAtInSeconds, UpdatedAtInSeconds]
    case _ => []
  }

  const HOST: set<Table> := {
    Secret, PkceCodeVerifier, RefreshToken, ServiceAccount, TaskDraftData, TaskInstructions, ApiLog, InstanceFileData,
    Templates, ProcessModelTemplate, ExternalFormRequests, TenantInvitation, ConnectorConfiguration
  }

  /** `CORE_LEGACY_COLUMNS` of d4e5. */
  function CoreLegacy(t: Table): seq<Column> {
    match t
    case User | Tenant | ProcessDefinition | TaskDefinition | HumanTask | WorkItem | ProcessInstanceMetadata =>
      [CreatedAtInSeconds, UpdatedAtInSeconds]
    case Process | Task => [StartInSeconds, EndInSeconds]
    case ProcessInstance =>
      [StartInSeconds, EndInSeconds, TaskUpdatedAtInSeconds, CreatedAtInSeconds, UpdatedAtInSeconds]
    case FutureTask => [RunAtInSeconds, QueuedToRunAtInSeconds, UpdatedAtInSeconds]
    case ProcessInstanceEvent => [Timestamp]
    case BpmnVersion => [CreatedAtInSeconds]
    case SchedulerJob => [LockedAtInSeconds, RunAtInSeconds, CreatedAtInSeconds, UpdatedAtInSeconds]
    case _ => []
  }

  const CORE: set<Table> := {
    User, Tenant, ProcessDefinition, Process, TaskDefinition, Task, ProcessInstance, HumanTask, WorkItem, FutureTask,
    ProcessInstanceMetadata, ProcessInstanceEvent, BpmnVersion, SchedulerJob
  }

  /** `removesuffix("_in_seconds")`, by which c3d4 finds a native column. */
  function RemoveSuffix(c: Column): Column {
    match c
    case CreatedAtInSeconds => CreatedAt
    case UpdatedAtInSeconds => UpdatedAt
    case StartInSeconds => Named("start")
    case EndInSeconds => Named("end")
    case TaskUpdatedAtInSeconds => TaskUpdatedAt
    case RunAtInSeconds => RunAt
    case QueuedToRunAtInSeconds => QueuedToRunAt
    case LockedAtInSeconds => LockedAt
    case _ => c
  }

  // ------------------------------------------------------------------ what one table goes through

  function AddNatives(rel: Relation, ps: seq<Pair>, n: nat): Relation
    requires n <= |ps|
  {
    if n == 0 then rel else AddColumn(AddNatives(rel, ps, n - 1), ps[n - 1].native)
  }

  function BackfillPair(rel: Relation, p: Pair): Relation {
    if p.legacy !in rel.columns || p.native !in rel.columns then rel else Backfill(rel, p.legacy, p.native)
  }

  function BackfillAll(rel: Relation, ps: seq<Pair>, n: nat): Relation
    requires n <= |ps|
  {
    if n == 0 then rel else BackfillPair(BackfillAll(rel, ps, n - 1), ps[n - 1])
  }

  function Stamp(rel: Relation, ps: seq<Pair>): Relation {
    BackfillAll(AddNatives(rel, ps, |ps|), ps, |ps|)
  }

  function DropAll(rel: Relation, cs: seq<Column>, n: nat): Relation
    requires n <= |cs|
  {
    if n == 0 then rel else DropColumn(DropAll(rel, cs, n - 1), cs[n - 1])
  }

  function Present(cs: seq<Column>, columns: set<Column>): seq<Column> {
    if cs == [] then [] else (if cs[0] in columns then [cs[0]] else []) + Present(cs[1..], columns)
  }

  function Suffixless(cs: seq<Column>): seq<Pair> {
    seq(|cs|, i requires 0 <= i < |cs| => Pair(cs[i], RemoveSuffix(cs[i])))
  }

  predicate NativeMissing(rel: Relation, cs: seq<Column>) {
    exists i | 0 <= i < |cs| :: RemoveSuffix(cs[i]) !in rel.columns
  }

  /** c3d4 on one table: backfills once more, but only where some native column had to be added. */
  function Retire(rel: Relation, cs: seq<Column>): Relation {
    var existing := Present(cs, rel.columns);
    var ps := Suffixless(existing);
    DropAll(if NativeMissing(rel, existing) then Stamp(rel, ps) else rel, existing, |existing|)
  }

  /** d4e5 on one table. */
  function Discard(rel: Relation, cs: seq<Column>): Relation {
    var existing := Present(cs, rel.columns);
    DropAll(rel, existing, |existing|)
  }

  // ------------------------------------------------------------------ every cell afterwards

  /** No native column is a legacy one, and no column serves two pairs. */
  predicate Apart(ps: seq<Pair>) {
    forall i, j | 0 <= i < |ps| && 0 <= j < |ps| ::
      ps[i].native != ps[j].legacy && (i != j ==> ps[i].native != ps[j].native && ps[i].legacy != ps[j].legacy)
  }

  lemma PairsAreApart(t: Table)
    ensures Apart(Pairs(t))
  {
  }

  lemma {:induction false} AddNativesReads(rel: Relation, ps: seq<Pair>, n: nat)
    requires n <= |ps|
    ensures SameCells(AddNatives(rel, ps, n), rel)
    ensures AddNatives(rel, ps, n).columns == rel.columns + set k | 0 <= k < n :: ps[k].native
  {
    if n > 0 {
      AddNativesReads(rel, ps, n - 1);
      AddingReadsTheSame(AddNatives(rel, ps, n - 1), ps[n - 1].native);
    }
  }

  lemma {:induction false} BackfillAllShape(rel: Relation, ps: seq<Pair>, n: nat)
    requires n <= |ps|
    ensures BackfillAll(rel, ps, n).columns == rel.columns && BackfillAll(rel, ps, n).rows.Keys == rel.rows.Keys
  {
    if n > 0 { BackfillAllShape(rel, ps, n - 1); }
  }

  lemma {:induction false} BackfillAllLeaves(rel: Relation, ps: seq<Pair>, n: nat, id: int, c: Column)
    requires n <= |ps| && forall k | 0 <= k < n :: ps[k].native in rel.columns && ps[k].native != c
    ensures Read(BackfillAll(rel, ps, n), id, c) == Read(rel, id, c)
  {
    hide Read;
    if n > 0 {
      var p, before := ps[n - 1], BackfillAll(rel, ps, n - 1);
      BackfillAllShape(rel, ps, n - 1);
      BackfillAllLeaves(rel, ps, n - 1, id, c);
      BackfillFills(before, p.legacy, p.native, id, c);
    }
  }

  lemma AbsentReadsNull(rel: Relation, id: int, c: Column)
    requires c !in rel.columns
    ensures Read(rel, id, c) == Null && ToTimestamp(Read(rel, id, c)) == Null
  {
  }

  lemma {:induction false} BackfillAllFills(rel: Relation, ps: seq<Pair>, n: nat, id: int, k: nat)
    requires k < n <= |ps| && Apart(ps) && forall i | 0 <= i < |ps| :: ps[i].native in rel.columns
    ensures Read(BackfillAll(rel, ps, n), id, ps[k].native) ==
            Coalesce(Read(rel, id, ps[k].native), ToTimestamp(Read(rel, id, ps[k].legacy)))
  {
    hide Read, ToTimestamp;
    var p, before := ps[n - 1], BackfillAll(rel, ps, n - 1);
    BackfillAllShape(rel, ps, n - 1);
    BackfillFills(before, p.legacy, p.native, id, ps[k].native);
    if k < n - 1 {
      BackfillAllFills(rel, ps, n - 1, id, k);
    } else {
      BackfillAllLeaves(rel, ps, k, id, p.native);
      BackfillAllLeaves(rel, ps, k, id, p.legacy);
      if p.legacy !in rel.columns { AbsentReadsNull(rel, id, p.legacy); }
    }
  }

  /** The value a pair's native column should end with. */
  function Kept(rel: Relation, id: int, p: Pair): Value {
    Coalesce(Read(rel, id, p.native), ToTimestamp(Read(rel, id, p.legacy)))
  }

  lemma StampShape(rel: Relation, ps: seq<Pair>)
    ensures Stamp(rel, ps).rows.Keys == rel.rows.Keys
    ensures Stamp(rel, ps).columns == rel.columns + set k | 0 <= k < |ps| :: ps[k].native
  {
    AddNativesReads(rel, ps, |ps|);
    BackfillAllShape(AddNatives(rel, ps, |ps|), ps, |ps|);
  }

  lemma StampKeeps(rel: Relation, ps: seq<Pair>, id: int, k: nat)
    requires Apart(ps) && k < |ps|
    ensures Read(Stamp(rel, ps), id, ps[k].native) == Kept(rel, id, ps[k])
  {
    hide Read;
    AddNativesReads(rel, ps, |ps|);
    BackfillAllFills(AddNatives(rel, ps, |ps|), ps, |ps|, id, k);
  }

  lemma StampLeaves(rel: Relation, ps: seq<Pair>, id: int, c: Column)
    requires forall k | 0 <= k < |ps| :: ps[k].native != c
    ensures Read(Stamp(rel, ps), id, c) == Read(rel, id, c)
  {
    hide Read;
    AddNativesReads(rel, ps, |ps|);
    BackfillAllLeaves(AddNatives(rel, ps, |ps|), ps, |ps|, id, c);
  }

  lemma {:induction false} DropAllReads(rel: Relation, cs: seq<Column>, n: nat, id: int, c: Column)
    requires n <= |cs|
    ensures DropAll(rel, cs, n).rows.Keys == rel.rows.Keys
    ensures DropAll(rel, cs, n).columns == rel.columns - set k | 0 <= k < n :: cs[k]
    ensures Read(DropAll(rel, cs, n), id, c) == if c in cs[..n] then Null else Read(rel, id, c)
  {
    if n > 0 {
      DropAllReads(rel, cs, n - 1, id, c);
      DroppingClearsOne(DropAll(rel, cs, n - 1), cs[n - 1], id, c);
      assert cs[..n] == cs[..n - 1] + [cs[n - 1]];
    }
  }

  lemma {:induction false} PresentIsThere(cs: seq<Column>, columns: set<Column>, c: Column)
    ensures c in Present(cs, columns) <==> c in cs && c in columns
  {
    if cs != [] { PresentIsThere(cs[1..], columns, c); }
  }

  lemma DiscardReads(rel: Relation, cs: seq<Column>, id: int, c: Column)
    ensures Discard(rel, cs).rows.Keys == rel.rows.Keys
    ensures c in Discard(rel, cs).columns <==> c in rel.columns && c !in cs
    ensures Read(Discard(rel, cs), id, c) == if c in cs then Null else Read(rel, id, c)
  {
    var existing := Present(cs, rel.columns);
    DropAllReads(rel, existing, |existing|, id, c);
    PresentIsThere(cs, rel.columns, c);
    assert existing[..|existing|] == existing;
  }

  lemma PresentOfTwo(c: Column, d: Column, columns: set<Column>)
    requires c != d && RemoveSuffix(c) != RemoveSuffix(d) && RemoveSuffix(c) !in {c, d} && RemoveSuffix(d) !in {c, d}
    ensures Apart(Suffixless(Present([c, d], columns))) && Apart(Suffixless(Present([c], columns)))
  {
    assert [c, d][1..] == [d] && [d][1..] == [] && [c][1..] == [];
    assert Present([d], columns) == if d in columns then [d] else [];
    assert Present([c, d], columns) == (if c in columns then [c] else []) + Present([d], columns);
  }

  lemma PresentOfNone(columns: set<Column>)
    ensures Apart(Suffixless(Present([], columns)))
  {
  }

  lemma HostColumnsArePaired(t: Table, columns: set<Column>)
    ensures Apart(Suffixless(Present(HostLegacy(t), columns)))
  {
    hide Apart, Suffixless, Present;
    PresentOfNone(columns);
    PresentOfTwo(CreatedAtInSeconds, UpdatedAtInSeconds, columns);
  }

  lemma RetireShape(rel: Relation, cs: seq<Column>)
    ensures Retire(rel, cs).rows.Keys == rel.rows.Keys
  {
    hide Stamp, DropAll, Present, NativeMissing;
    var existing := Present(cs, rel.columns);
    var ps := Suffixless(existing);
    StampShape(rel, ps);
    DropAllReads(if NativeMissing(rel, existing) then Stamp(rel, ps) else rel, existing, |existing|, 0, Id);
  }

  /** What c3d4 leaves in the native column of a legacy column it drops. */
  lemma RetireReads(rel: Relation, cs: seq<Column>, id: int, k: nat)
    requires Apart(Suffixless(Present(cs, rel.columns))) && k < |Present(cs, rel.columns)|
    ensures var existing := Present(cs, rel.columns);
            var p := Suffixless(existing)[k];
            Read(Retire(rel, cs), id, p.native) ==
              if NativeMissing(rel, existing) then Kept(rel, id, p) else Read(rel, id, p.native)
  {
    hide Stamp, DropAll, Present, Kept, Read, NativeMissing;
    var existing := Present(cs, rel.columns);
    var ps := Suffixless(existing);
    var mid := if NativeMissing(rel, existing) then Stamp(rel, ps) else rel;
    StampShape(rel, ps);
    StampKeeps(rel, ps, id, k);
    DropAllReads(mid, existing, |existing|, id, ps[k].native);
    assert existing[..|existing|] == existing;
    assert forall j | 0 <= j < |existing| :: ps[j].legacy == existing[j] && ps[k].native != ps[j].legacy;
  }
}
