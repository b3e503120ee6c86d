/**
 The chain b2c3, c3d4, d4e5 over a whole database: what survives the dropped epoch columns, and
 exactly when nothing is lost.
*/
module TimestampChain {
  import opened Wrappers
  import opened Relational
  import opened TimestampRevisions

  /** The columns of the `work_item` table that b2c3 creates. */
  const WORK_ITEM_COLUMNS: set<Column> := {
    Id, ProcessInstanceId, TaskGuid, TaskId, LaneAssignmentId, CompletedByUserId, ActualOwnerId, TaskStatus, Completed,
    UpdatedAtInSeconds, CreatedAtInSeconds, UpdatedAt, CreatedAt, TenantId
  }

  const REQUIRED: set<Column> := { ProcessInstanceId, TaskStatus, Completed, TenantId }

  /** Otherwise the database rejects the `INSERT ... SELECT`. */
  predicate Copyable(humanTask: Relation) {
    && WORK_ITEM_COLUMNS <= humanTask.columns
    && forall id, c | id in humanTask.rows && c in REQUIRED :: Read(humanTask, id, c) != Null
  }

  function CopyOf(humanTask: Relation): Relation {
    Relation(WORK_ITEM_COLUMNS, map id | id in humanTask.rows :: map c | c in WORK_ITEM_COLUMNS ::
      Read(humanTask, id, c))
  }

  function Stamped(db: Database): Database {
    map t | t in db :: Stamp(db[t], Pairs(t))
  }

  function WithWorkItem(db: Database): Result<Database> {
    if HumanTask !in db || WorkItem in db then Ok(db)
    else if Copyable(db[HumanTask]) then Ok(db[WorkItem := CopyOf(db[HumanTask])])
    else Raised("work_item insert rejected")
  }

  function Retired(db: Database): Database {
    map t | t in db :: Retire(db[t], HostLegacy(t))
  }

  function Discarded(db: Database): Database {
    map t | t in db :: Discard(db[t], CoreLegacy(t))
  }

  function Chain(db: Database): Result<Database> {
    var r := WithWorkItem(Stamped(db));
    if r.Raised? then r else Ok(Discarded(Retired(r.value)))
  }

  /** Every pair the chain is about: those of `TIMESTAMP_COLUMNS`, and the two of `work_item`. */
  function AllPairs(t: Table): seq<Pair> { if t == WorkItem then [CREATED, UPDATED] else Pairs(t) }

  /** The same rows, and each native column holds its old value, else the converted legacy value, else null. */
  ghost predicate Keeps(before: Relation, after: Relation, ps: seq<Pair>) {
    && after.rows.Keys == before.rows.Keys
    && forall id, k | id in before.rows && 0 <= k < |ps| :: Read(after, id, ps[k].native) == Kept(before, id, ps[k])
  }

  ghost predicate Lossless(before: Database, after: Database) {
    forall t | t in before :: t in after && Keeps(before[t], after[t], AllPairs(t))
  }

  /** No row has a convertible legacy value without a native one. */
  predicate InStep(rel: Relation, ps: seq<Pair>) {
    forall id, k | id in rel.rows && 0 <= k < |ps| ::
      Read(rel, id, ps[k].native) != Null || ToTimestamp(Read(rel, id, ps[k].legacy)) == Null
  }

  // ------------------------------------------------------------------ one table through the chain

  /** Every column that is dropped has its backfilled pair, and c3d4 names the same native column. */
  lemma EveryDroppedColumnIsPaired(t: Table, c: Column)
    requires c in HostLegacy(t) || c in CoreLegacy(t)
    ensures exists k :: 0 <= k < |AllPairs(t)| && AllPairs(t)[k].legacy == c
    ensures c in HostLegacy(t) ==> Pair(c, RemoveSuffix(c)) in Pairs(t)
  {
    var ps := AllPairs(t);
    assert |ps| > 0 && (c == ps[0].legacy || (|ps| > 1 && c == ps[1].legacy) || (|ps| > 2 && c == ps[2].legacy)
                        || (|ps| > 3 && c == ps[3].legacy) || (|ps| > 4 && c == ps[4].legacy));
  }

  /** After b2c3 no native column is missing, so c3d4 only drops. */
  lemma NothingToRepair(rel: Relation, t: Table)
    requires forall k | 0 <= k < |Pairs(t)| :: Pairs(t)[k].native in rel.columns
    ensures !NativeMissing(rel, Present(HostLegacy(t), rel.columns))
    ensures Retire(rel, HostLegacy(t)) == Discard(rel, HostLegacy(t))
  {
    var existing := Present(HostLegacy(t), rel.columns);
    forall i | 0 <= i < |existing| ensures RemoveSuffix(existing[i]) in rel.columns {
      PresentIsThere(HostLegacy(t), rel.columns, existing[i]);
      EveryDroppedColumnIsPaired(t, existing[i]);
    }
  }

  function Through(rel: Relation, t: Table): Relation {
    Discard(Discard(Stamp(rel, Pairs(t)), HostLegacy(t)), CoreLegacy(t))
  }

  lemma NativesAreKept(t: Table, k: nat)
    requires k < |AllPairs(t)|
    ensures AllPairs(t)[k].native !in HostLegacy(t) && AllPairs(t)[k].native !in CoreLegacy(t)
  {
  }

  lemma ThroughShape(rel: Relation, t: Table, c: Column)
    ensures Through(rel, t).rows.Keys == rel.rows.Keys
    ensures c in HostLegacy(t) || c in CoreLegacy(t) ==> c !in Through(rel, t).columns
  {
    hide Read, Stamp, Discard, Pairs, HostLegacy, CoreLegacy;
    var stamped := Stamp(rel, Pairs(t));
    StampShape(rel, Pairs(t));
    DiscardReads(stamped, HostLegacy(t), 0, c);
    DiscardReads(Discard(stamped, HostLegacy(t)), CoreLegacy(t), 0, c);
  }

  lemma DroppedTwice(rel: Relation, t: Table, id: int, c: Column)
    requires c !in HostLegacy(t) && c !in CoreLegacy(t)
    ensures Read(Discard(Discard(rel, HostLegacy(t)), CoreLegacy(t)), id, c) == Read(rel, id, c)
  {
    hide Read, Discard, HostLegacy, CoreLegacy;
    DiscardReads(rel, HostLegacy(t), id, c);
    DiscardReads(Discard(rel, HostLegacy(t)), CoreLegacy(t), id, c);
  }

  lemma ThroughKeeps(rel: Relation, t: Table, id: int, k: nat)
    requires k < |Pairs(t)|
    ensures Read(Through(rel, t), id, Pairs(t)[k].native) == Kept(rel, id, Pairs(t)[k])
  {
    hide Read, Kept, Stamp, Discard;
    PairsAreApart(t);
    StampKeeps(rel, Pairs(t), id, k);
    assert t != WorkItem;
    NativesAreKept(t, k);
    DroppedTwice(Stamp(rel, Pairs(t)), t, id, Pairs(t)[k].native);
  }

  lemma ThroughLeaves(rel: Relation, t: Table, id: int, c: Column)
    requires c !in HostLegacy(t) && c !in CoreLegacy(t) && forall k | 0 <= k < |Pairs(t)| :: Pairs(t)[k].native != c
    ensures Read(Through(rel, t), id, c) == Read(rel, id, c)
  {
    hide Read, Stamp, Discard, Pairs, HostLegacy, CoreLegacy;
    StampLeaves(rel, Pairs(t), id, c);
    DroppedTwice(Stamp(rel, Pairs(t)), t, id, c);
  }

  lemma RetiredAfterStamp(rel: Relation, t: Table)
    ensures Retire(Stamp(rel, Pairs(t)), HostLegacy(t)) == Discard(Stamp(rel, Pairs(t)), HostLegacy(t))
  {
    hide Stamp, Retire, Discard, Pairs, HostLegacy;
    StampShape(rel, Pairs(t));
    NothingToRepair(Stamp(rel, Pairs(t)), t);
  }

  lemma WorkItemOnlyAdds(db: Database, t: Table)
    requires WithWorkItem(db).Ok? && t in db
    ensures t in WithWorkItem(db).value && WithWorkItem(db).value[t] == db[t]
  {
    hide CopyOf, Copyable;
  }

  lemma DropsByTable(db: Database, t: Table)
    requires t in db
    ensures t in Discarded(Retired(db))
    ensures Discarded(Retired(db))[t] == Discard(Retire(db[t], HostLegacy(t)), CoreLegacy(t))
  {
    hide Retire, Discard, HostLegacy, CoreLegacy;
  }

  /** Each table that was there goes through on its own. */
  lemma ChainByTable(db: Database, t: Table)
    requires Chain(db).Ok? && t in db
    ensures t in Chain(db).value && Chain(db).value[t] == Through(db[t], t)
  {
    hide Stamp, Retire, Discard, WithWorkItem, Discarded, Retired, Pairs, HostLegacy, CoreLegacy;
    assert t in Stamped(db) && Stamped(db)[t] == Stamp(db[t], Pairs(t));
    WorkItemOnlyAdds(Stamped(db), t);
    DropsByTable(WithWorkItem(Stamped(db)).value, t);
    RetiredAfterStamp(db[t], t);
  }

  // ------------------------------------------------------------------ the chain over a database

  /**
   No timestamp is lost in a table of `TIMESTAMP_COLUMNS`: the rows stay, and every native cell ends
   with its old value, else the converted legacy value, else null.
  */
  lemma StampedTablesKeepEverything(db: Database, t: Table)
    requires Chain(db).Ok? && t in db && t != WorkItem
    ensures t in Chain(db).value && Keeps(db[t], Chain(db).value[t], Pairs(t))
  {
    hide Chain, Through, Read, Kept, Pairs, HostLegacy, CoreLegacy;
    ChainByTable(db, t);
    ThroughShape(db[t], t, Id);
    forall id, k | id in db[t].rows && 0 <= k < |Pairs(t)|
      ensures Read(Through(db[t], t), id, Pairs(t)[k].native) == Kept(db[t], id, Pairs(t)[k])
    {
      ThroughKeeps(db[t], t, id, k);
    }
  }

  /** Of every other column, the listed legacy ones are gone and the rest keep their cells. */
  lemma OnlyLegacyColumnsGo(db: Database, t: Table, id: int, c: Column)
    requires Chain(db).Ok? && t in db
    requires forall k | 0 <= k < |Pairs(t)| :: Pairs(t)[k].native != c
    ensures t in Chain(db).value
    ensures c in HostLegacy(t) || c in CoreLegacy(t) ==> c !in Chain(db).value[t].columns
    ensures c !in HostLegacy(t) && c !in CoreLegacy(t) ==> Read(Chain(db).value[t], id, c) == Read(db[t], id, c)
  {
    hide Chain, Through, Read, Pairs, HostLegacy, CoreLegacy;
    ChainByTable(db, t);
    ThroughShape(db[t], t, c);
    if c !in HostLegacy(t) && c !in CoreLegacy(t) { ThroughLeaves(db[t], t, id, c); }
  }

  /** A `work_item` table that was there keeps its native cells as they were: nothing backfills them. */
  lemma OldWorkItemsAreNotBackfilled(db: Database, id: int, k: nat)
    requires Chain(db).Ok? && WorkItem in db && k < 2
    ensures WorkItem in Chain(db).value && Chain(db).value[WorkItem].rows.Keys == db[WorkItem].rows.Keys
    ensures var native := AllPairs(WorkItem)[k].native;
            Read(Chain(db).value[WorkItem], id, native) == Read(db[WorkItem], id, native)
  {
    hide Chain, Through, Read;
    ChainByTable(db, WorkItem);
    NativesAreKept(WorkItem, k);
    ThroughShape(db[WorkItem], WorkItem, Id);
    ThroughLeaves(db[WorkItem], WorkItem, id, AllPairs(WorkItem)[k].native);
  }

  lemma InStepMeansKept(rel: Relation, id: int, p: Pair)
    ensures Read(rel, id, p.native) == Kept(rel, id, p) <==>
            (Read(rel, id, p.native) != Null || ToTimestamp(Read(rel, id, p.legacy)) == Null)
  {
  }

  lemma WorkItemKeepsExactlyWhen(db: Database)
    requires Chain(db).Ok? && WorkItem in db
    ensures WorkItem in Chain(db).value
    ensures Keeps(db[WorkItem], Chain(db).value[WorkItem], AllPairs(WorkItem)) <==>
            InStep(db[WorkItem], AllPairs(WorkItem))
  {
    hide Chain, Read, Kept, ToTimestamp;
    var before, after := db[WorkItem], Chain(db).value;
    OldWorkItemsAreNotBackfilled(db, 0, 0);
    forall id, k | id in before.rows && 0 <= k < 2
      ensures Read(after[WorkItem], id, AllPairs(WorkItem)[k].native) == Kept(before, id, AllPairs(WorkItem)[k]) <==>
              (Read(before, id, AllPairs(WorkItem)[k].native) != Null ||
               ToTimestamp(Read(before, id, AllPairs(WorkItem)[k].legacy)) == Null)
    {
      OldWorkItemsAreNotBackfilled(db, id, k);
      InStepMeansKept(before, id, AllPairs(WorkItem)[k]);
    }
  }

  /**
   The whole chain loses nothing exactly when a `work_item` table that was already there has no row with
   an epoch value and no native one: b2c3 backfills every table whose epoch columns are dropped but that one.
  */
  lemma LosslessExactlyWhen(db: Database)
    requires Chain(db).Ok?
    ensures Lossless(db, Chain(db).value) <==> (WorkItem in db ==> InStep(db[WorkItem], AllPairs(WorkItem)))
  {
    hide Chain, Keeps, InStep;
    if WorkItem in db { WorkItemKeepsExactlyWhen(db); }
    forall t | t in db && t != WorkItem ensures t in Chain(db).value && Keeps(db[t], Chain(db).value[t], AllPairs(t)) {
      StampedTablesKeepEverything(db, t);
    }
  }

  /** A row that both tables accept, its creation known as an epoch value only. */
  const EPOCH_ONLY: Row := map[
    ProcessInstanceId := Number(1), TaskStatus := Text("READY"), Completed := Flag(false), TenantId := Text("t"),
    CreatedAtInSeconds := Epoch(1700000000.0)]

  const OLD_TASKS := Relation(WORK_ITEM_COLUMNS, map[7 := EPOCH_ONLY])

  lemma OldTasksAreOutOfStep()
    ensures !InStep(OLD_TASKS, AllPairs(WorkItem))
    ensures forall c | c in REQUIRED :: Read(OLD_TASKS, 7, c) != Null
  {
    assert Read(OLD_TASKS, 7, AllPairs(WorkItem)[0].native) == Null;
    assert ToTimestamp(Read(OLD_TASKS, 7, AllPairs(WorkItem)[0].legacy)) == Instant(1700000000.0);
  }

  /** A database on which it does lose one: both tables hold the row, and only the human task's is backfilled. */
  lemma OldWorkItemCanLoseItsTimestamp()
    ensures forall c | c in REQUIRED :: Read(OLD_TASKS, 7, c) != Null
    ensures var db: Database := map[HumanTask := OLD_TASKS, WorkItem := OLD_TASKS];
            Chain(db).Ok? && !Lossless(db, Chain(db).value)
  {
    hide Stamp, Retire, Discard, InStep, Keeps, Read, CopyOf, Copyable, Pairs;
    var db: Database := map[HumanTask := OLD_TASKS, WorkItem := OLD_TASKS];
    OldTasksAreOutOfStep();
    assert Chain(db).Ok?;
    hide Chain;
    LosslessExactlyWhen(db);
  }

  lemma CopyReads(humanTask: Relation, id: int, c: Column)
    ensures CopyOf(humanTask).rows.Keys == humanTask.rows.Keys
    ensures c in WORK_ITEM_COLUMNS ==> Read(CopyOf(humanTask), id, c) == Read(humanTask, id, c)
  {
  }

  lemma DroppedAlike(humanTask: Relation, workItem: Relation, id: int, c: Column)
    ensures var h := Discard(Retire(humanTask, HostLegacy(HumanTask)), CoreLegacy(HumanTask));
            var w := Discard(Retire(workItem, HostLegacy(WorkItem)), CoreLegacy(WorkItem));
            && h.rows.Keys == humanTask.rows.Keys && w.rows.Keys == workItem.rows.Keys
            && (Read(humanTask, id, c) == Read(workItem, id, c) ==> Read(h, id, c) == Read(w, id, c))
  {
    hide Discard, Read;
    DiscardReads(humanTask, CoreLegacy(HumanTask), id, c);
    DiscardReads(workItem, CoreLegacy(WorkItem), id, c);
  }

  /** A `work_item` table that b2c3 creates ends as the final `human_task`, row by row and cell by cell. */
  lemma NewWorkItemsAreTheHumanTasks(db: Database, id: int, c: Column)
    requires Chain(db).Ok? && HumanTask in db && WorkItem !in db && c in WORK_ITEM_COLUMNS
    ensures var after := Chain(db).value;
            && WorkItem in after && HumanTask in after && after[WorkItem].rows.Keys == after[HumanTask].rows.Keys
            && Read(after[WorkItem], id, c) == Read(after[HumanTask], id, c)
  {
    hide Stamp, Retire, Discard, Copyable, CopyOf, Discarded, Retired, Read;
    var source := Stamped(db)[HumanTask];
    var mid := WithWorkItem(Stamped(db)).value;
    assert mid[WorkItem] == CopyOf(source) && mid[HumanTask] == source;
    DropsByTable(mid, WorkItem);
    DropsByTable(mid, HumanTask);
    DroppedAlike(source, CopyOf(source), id, c);
    CopyReads(source, id, c);
  }

  lemma DropsKeepColumn(rel: Relation, t: Table, c: Column)
    requires HostLegacy(t) == [] && c in rel.columns && c !in CoreLegacy(t)
    ensures c in Discard(Retire(rel, HostLegacy(t)), CoreLegacy(t)).columns
  {
    hide Discard, CoreLegacy;
    DiscardReads(Retire(rel, HostLegacy(t)), CoreLegacy(t), 0, c);
  }

  /** Both tables have every copied column that is not a legacy one. */
  lemma NewWorkItemsHaveTheirColumns(db: Database, c: Column)
    requires Chain(db).Ok? && HumanTask in db && WorkItem !in db
    requires c in WORK_ITEM_COLUMNS && c !in CoreLegacy(HumanTask) && c !in CoreLegacy(WorkItem)
    ensures var after := Chain(db).value;
            WorkItem in after && HumanTask in after && c in after[WorkItem].columns && c in after[HumanTask].columns
  {
    hide Stamp, Retire, Discard, Discarded, Retired, Read, CoreLegacy;
    var source := Stamped(db)[HumanTask];
    var mid := WithWorkItem(Stamped(db)).value;
    assert mid[WorkItem] == CopyOf(source) && mid[HumanTask] == source && Copyable(source);
    DropsByTable(mid, WorkItem);
    DropsByTable(mid, HumanTask);
    DropsKeepColumn(CopyOf(source), WorkItem, c);
    DropsKeepColumn(source, HumanTask, c);
  }

  // ------------------------------------------------------------------ the two dropping revisions alone

  /**
   c3d4 on a table it finds: no timestamp is lost exactly when some native column is missing (then it
   backfills all of them) or every row already has its native value.
  */
  lemma RetireKeepsExactlyWhen(rel: Relation, t: Table)
    ensures var existing := Present(HostLegacy(t), rel.columns);
            Keeps(rel, Retire(rel, HostLegacy(t)), Suffixless(existing)) <==>
            NativeMissing(rel, existing) || InStep(rel, Suffixless(existing))
  {
    hide Retire, Read, Kept, ToTimestamp, Present, HostLegacy, NativeMissing;
    var cs := HostLegacy(t);
    var existing := Present(cs, rel.columns);
    var ps := Suffixless(existing);
    HostColumnsArePaired(t, rel.columns);
    RetireShape(rel, cs);
    forall id, k | id in rel.rows && 0 <= k < |ps|
      ensures Read(Retire(rel, cs), id, ps[k].native) ==
              if NativeMissing(rel, existing) then Kept(rel, id, ps[k]) else Read(rel, id, ps[k].native)
      ensures Read(rel, id, ps[k].native) == Kept(rel, id, ps[k]) <==>
              (Read(rel, id, ps[k].native) != Null || ToTimestamp(Read(rel, id, ps[k].legacy)) == Null)
    {
      RetireReads(rel, cs, id, k);
      InStepMeansKept(rel, id, ps[k]);
    }
  }

  /** d4e5 never backfills: on a table of the core it loses nothing exactly when every row has its native value. */
  lemma DiscardKeepsExactlyWhen(rel: Relation, t: Table)
    requires t in CORE
    ensures Keeps(rel, Discard(rel, CoreLegacy(t)), AllPairs(t)) <==> InStep(rel, AllPairs(t))
  {
    hide Discard, Read, Kept, ToTimestamp, CoreLegacy, HostLegacy;
    var ps := AllPairs(t);
    DiscardReads(rel, CoreLegacy(t), 0, Id);
    forall id, k | id in rel.rows && 0 <= k < |ps|
      ensures Read(Discard(rel, CoreLegacy(t)), id, ps[k].native) == Read(rel, id, ps[k].native)
      ensures Read(rel, id, ps[k].native) == Kept(rel, id, ps[k]) <==>
              (Read(rel, id, ps[k].native) != Null || ToTimestamp(Read(rel, id, ps[k].legacy)) == Null)
    {
      NativesAreKept(t, k);
      DiscardReads(rel, CoreLegacy(t), id, ps[k].native);
      InStepMeansKept(rel, id, ps[k]);
    }
  }
}
