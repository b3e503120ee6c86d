/**
 Across revisions: what the timestamp chain leaves behind meets the checks of the core 0.2.1 handoff.
*/
module UpgradePath {
  import opened Wrappers
  import opened Relational
  import T = TimestampRevisions
  import opened TimestampChain
  import W = WorkItems

  /** A `work_item` table that b2c3 created passes the handoff's check after the epoch columns are gone. */
  lemma CreatedWorkItemsPassTheCheck(db: T.Database)
    requires Chain(db).Ok? && T.HumanTask in db && T.WorkItem !in db
    ensures T.HumanTask in Chain(db).value && T.WorkItem in Chain(db).value
    ensures W.HasColumns(Chain(db).value[T.HumanTask]) && W.HasColumns(Chain(db).value[T.WorkItem])
    ensures W.Faithful(Chain(db).value[T.HumanTask], Chain(db).value[T.WorkItem])
  {
    hide Chain, Read, W.HasColumns, W.SameTask;
    NewWorkItemsAreTheHumanTasks(db, 0, Id);
    NewWorkItemsHaveTheirColumns(db, Id);
    var after := Chain(db).value;
    forall k | 0 <= k < |W.MIGRATED|
      ensures W.MIGRATED[k] in after[T.HumanTask].columns && W.MIGRATED[k] in after[T.WorkItem].columns
    {
      NewWorkItemsHaveTheirColumns(db, W.MIGRATED[k]);
    }
    W.HasColumnsByIndex(after[T.HumanTask]);
    W.HasColumnsByIndex(after[T.WorkItem]);
    forall id | id in after[T.HumanTask].rows
      ensures id in after[T.WorkItem].rows && W.SameTask(after[T.HumanTask], after[T.WorkItem], id)
    {
      forall k | 0 <= k < |W.MIGRATED|
        ensures Read(after[T.HumanTask], id, W.MIGRATED[k]) == Read(after[T.WorkItem], id, W.MIGRATED[k])
      {
        NewWorkItemsAreTheHumanTasks(db, id, W.MIGRATED[k]);
      }
      W.SameTaskByIndex(after[T.HumanTask], after[T.WorkItem], id);
    }
  }

  /**
   If an older `work_item` table has no native value where its human task had a timestamp in either form,
   the handoff refuses: the loss cannot go unnoticed, though d4e5 has dropped the epoch value by then.
  */
  lemma MissingTimestampStopsTheHandoff(db: T.Database, id: int, k: nat)
    requires Chain(db).Ok? && T.HumanTask in db && T.WorkItem in db && id in db[T.HumanTask].rows && k < 2
    requires T.Kept(db[T.HumanTask], id, T.Pairs(T.HumanTask)[k]) != Null
    requires Read(db[T.WorkItem], id, T.Pairs(T.HumanTask)[k].native) == Null
    ensures T.HumanTask in Chain(db).value && T.WorkItem in Chain(db).value
    ensures !W.Faithful(Chain(db).value[T.HumanTask], Chain(db).value[T.WorkItem])
  {
    hide Chain, Read, T.Kept;
    var after, native := Chain(db).value, T.Pairs(T.HumanTask)[k].native;
    StampedTablesKeepEverything(db, T.HumanTask);
    OldWorkItemsAreNotBackfilled(db, id, k);
    assert native == if k == 0 then CreatedAt else UpdatedAt;
    assert Read(after[T.HumanTask], id, native) != Read(after[T.WorkItem], id, native);
  }
}
