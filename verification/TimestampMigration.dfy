/**
 The three revisions as they run: statement by statement on one database, table by table in whatever
 order the dictionaries list them.
*/
module TimestampMigration {
  import opened Wrappers
  import opened Relational
  import opened TimestampRevisions
  import opened TimestampChain

  /** The tables of `done` went through `f`, the others not yet. */
  ghost predicate Progress(before: Database, after: Database, done: set<Table>, f: (Table, Relation) -> Relation) {
    after.Keys == before.Keys && forall t | t in before :: after[t] == if t in done then f(t, before[t]) else before[t]
  }

  lemma ProgressOne(before: Database, mid: Database, after: Database, done: set<Table>, t: Table,
      f: (Table, Relation) -> Relation)
    requires Progress(before, mid, done, f) && t !in done
    requires after == if t in mid then mid[t := f(t, mid[t])] else mid
    ensures Progress(before, after, done + {t}, f)
  {
  }

  ghost function Everywhere(db: Database, f: (Table, Relation) -> Relation): Database {
    map t | t in db :: f(t, db[t])
  }

  lemma ProgressDone(before: Database, after: Database, done: set<Table>, f: (Table, Relation) -> Relation)
    requires Progress(before, after, done, f) && forall t, rel | t !in done :: f(t, rel) == rel
    ensures after == Everywhere(before, f)
  {
  }

  ghost function AddStep(): (Table, Relation) -> Relation { (t, rel) => AddNatives(rel, Pairs(t), |Pairs(t)|) }

  ghost function FillStep(): (Table, Relation) -> Relation { (t, rel) => BackfillAll(rel, Pairs(t), |Pairs(t)|) }

  ghost function RetireStep(): (Table, Relation) -> Relation { (t, rel) => Retire(rel, HostLegacy(t)) }

  ghost function DiscardStep(): (Table, Relation) -> Relation { (t, rel) => Discard(rel, CoreLegacy(t)) }

  lemma OtherTablesStay(t: Table, rel: Relation)
    ensures t !in STAMPED ==> AddStep()(t, rel) == rel && FillStep()(t, rel) == rel
    ensures t !in HOST ==> RetireStep()(t, rel) == rel
    ensures t !in CORE ==> DiscardStep()(t, rel) == rel
  {
    assert t !in STAMPED ==> Pairs(t) == [];
    assert t !in HOST ==> HostLegacy(t) == [];
    assert t !in CORE ==> CoreLegacy(t) == [];
  }

  lemma StampedIsBoth(db: Database)
    ensures Everywhere(Everywhere(db, AddStep()), FillStep()) == Stamped(db)
  {
  }

  /** A native column is missing after `i` additions exactly if it was missing before: no two pairs share one. */
  lemma MissingStays(rel: Relation, existing: seq<Column>, i: nat)
    requires Apart(Suffixless(existing)) && i < |existing|
    ensures RemoveSuffix(existing[i]) in AddNatives(rel, Suffixless(existing), i).columns <==>
            RemoveSuffix(existing[i]) in rel.columns
  {
    var ps := Suffixless(existing);
    AddNativesReads(rel, ps, i);
    assert forall k | 0 <= k < i :: ps[k].native != ps[i].native;
  }

  lemma AlreadyThere(rel: Relation, c: Column)
    requires c in rel.columns
    ensures AddColumn(rel, c) == rel
  {
  }

  lemma ReadyToBackfill(rel: Relation, existing: seq<Column>, c: Column)
    requires c in existing && c in rel.columns
    ensures c in AddNatives(rel, Suffixless(existing), |existing|).columns
    ensures RemoveSuffix(c) in AddNatives(rel, Suffixless(existing), |existing|).columns
  {
    var ps := Suffixless(existing);
    AddNativesReads(rel, ps, |existing|);
    var k :| 0 <= k < |existing| && existing[k] == c;
    assert ps[k].native == RemoveSuffix(c);
  }

  class Migrator {
    var db: Database

    constructor (db: Database)
      ensures this.db == db
    {
      this.db := db;
    }

    // ---------------------------------------------------------------- b2c3

    method AddColumnIfMissing(t: Table, c: Column)
      modifies this
      ensures t in old(db) ==> db == old(db)[t := AddColumn(old(db)[t], c)]
      ensures t !in old(db) ==> db == old(db)
    {
      if t in db && c !in db[t].columns { db := db[t := AddColumn(db[t], c)]; }
      assert t in old(db) ==> old(db)[t := old(db)[t]] == old(db);
    }

    method AddNativeColumns(t: Table)
      modifies this
      ensures t in old(db) ==> db == old(db)[t := AddNatives(old(db)[t], Pairs(t), |Pairs(t)|)]
      ensures t !in old(db) ==> db == old(db)
    {
      var ps := Pairs(t);
      assert t in db ==> db == db[t := AddNatives(db[t], ps, 0)];
      for i := 0 to |ps|
        invariant t in old(db) ==> db == old(db)[t := AddNatives(old(db)[t], ps, i)]
        invariant t !in old(db) ==> db == old(db)
      {
        AddColumnIfMissing(t, ps[i].native);
      }
    }

    method BackfillTable(t: Table)
      modifies this
      ensures t in old(db) ==> db == old(db)[t := BackfillAll(old(db)[t], Pairs(t), |Pairs(t)|)]
      ensures t !in old(db) ==> db == old(db)
    {
      if t !in db { return; }
      var ps := Pairs(t);
      assert db == db[t := BackfillAll(db[t], ps, 0)];
      for i := 0 to |ps|
        invariant t in db && db == old(db)[t := BackfillAll(old(db)[t], ps, i)]
      {
        var rel, p := db[t], ps[i];
        if p.legacy in rel.columns && p.native in rel.columns {
          db := db[t := Backfill(rel, p.legacy, p.native)];
        }
        assert db == old(db)[t := BackfillPair(rel, p)];
      }
    }

    method AddAllNativeColumns()
      modifies this
      ensures db == Everywhere(old(db), AddStep())
    {
      var todo := STAMPED;
      while todo != {}
        invariant todo <= STAMPED && Progress(old(db), db, STAMPED - todo, AddStep())
        decreases |todo|
      {
        ghost var mid, done := db, STAMPED - todo;
        var t :| t in todo;
        AddNativeColumns(t);
        ProgressOne(old(db), mid, db, done, t, AddStep());
        todo := todo - {t};
        assert STAMPED - todo == done + {t};
      }
      forall t, rel | t !in STAMPED ensures AddStep()(t, rel) == rel { OtherTablesStay(t, rel); }
      ProgressDone(old(db), db, STAMPED, AddStep());
    }

    method BackfillTimestamps()
      modifies this
      ensures db == Everywhere(old(db), FillStep())
    {
      var todo := STAMPED;
      while todo != {}
        invariant todo <= STAMPED && Progress(old(db), db, STAMPED - todo, FillStep())
        decreases |todo|
      {
        ghost var mid, done := db, STAMPED - todo;
        var t :| t in todo;
        BackfillTable(t);
        ProgressOne(old(db), mid, db, done, t, FillStep());
        todo := todo - {t};
        assert STAMPED - todo == done + {t};
      }
      forall t, rel | t !in STAMPED ensures FillStep()(t, rel) == rel { OtherTablesStay(t, rel); }
      ProgressDone(old(db), db, STAMPED, FillStep());
    }

    method AddTimestampColumns()
      modifies this
      ensures db == Stamped(old(db))
    {
      AddAllNativeColumns();
      BackfillTimestamps();
      StampedIsBoth(old(db));
    }

    method CreateWorkItem() returns (r: Result<()>)
      modifies this
      ensures r.Ok? <==> WithWorkItem(old(db)).Ok?
      ensures r.Ok? ==> db == WithWorkItem(old(db)).value
    {
      if HumanTask !in db || WorkItem in db { return Ok(()); }
      if !Copyable(db[HumanTask]) { return Raised("work_item insert rejected"); }
      db := db[WorkItem := CopyOf(db[HumanTask])];
      return Ok(());
    }

    // ---------------------------------------------------------------- c3d4 and d4e5

    method DropColumns(t: Table, existing: seq<Column>)
      requires t in db
      modifies this
      ensures db == old(db)[t := DropAll(old(db)[t], existing, |existing|)]
    {
      assert db == db[t := DropAll(db[t], existing, 0)];
      for i := 0 to |existing|
        invariant t in db && db == old(db)[t := DropAll(old(db)[t], existing, i)]
      {
        db := db[t := DropColumn(db[t], existing[i])];
      }
    }

    method RetireColumns(t: Table)
      modifies this
      ensures t in old(db) ==> db == old(db)[t := Retire(old(db)[t], HostLegacy(t))]
      ensures t !in old(db) ==> db == old(db)
    {
      if t !in db { return; }
      var columns := db[t].columns;
      var existing := Present(HostLegacy(t), columns);
      if NativeMissing(db[t], existing) {
        HostColumnsArePaired(t, columns);
        AddMissing(t, existing);
        forall c | c in existing ensures c in db[t].columns && RemoveSuffix(c) in db[t].columns {
          PresentIsThere(HostLegacy(t), columns, c);
          ReadyToBackfill(old(db)[t], existing, c);
        }
        BackfillSuffixless(t, existing);
      }
      DropColumns(t, existing);
    }

    /** `op.add_column`, which fails on a column that is there. */
    method AddMissingColumn(t: Table, c: Column)
      requires t in db && c !in db[t].columns
      modifies this
      ensures db == old(db)[t := AddColumn(old(db)[t], c)]
    {
      db := db[t := AddColumn(db[t], c)];
    }

    method AddMissing(t: Table, existing: seq<Column>)
      requires t in db && Apart(Suffixless(existing))
      modifies this
      ensures db == old(db)[t := AddNatives(old(db)[t], Suffixless(existing), |existing|)]
    {
      ghost var ps, rel := Suffixless(existing), db[t];
      hide HostLegacy, Present, Apart, AddColumn, RemoveSuffix;
      var columns := db[t].columns;
      assert db == db[t := AddNatives(rel, ps, 0)];
      for i := 0 to |existing|
        invariant t in db && db == old(db)[t := AddNatives(rel, ps, i)]
      {
        var native := RemoveSuffix(existing[i]);
        MissingStays(rel, existing, i);
        if native !in columns { AddMissingColumn(t, native); } else { AlreadyThere(db[t], native); }
        assert db == old(db)[t := AddColumn(AddNatives(rel, ps, i), native)];
      }
    }

    method BackfillSuffixless(t: Table, existing: seq<Column>)
      requires t in db && forall c | c in existing :: c in db[t].columns && RemoveSuffix(c) in db[t].columns
      modifies this
      ensures db == old(db)[t := BackfillAll(old(db)[t], Suffixless(existing), |existing|)]
    {
      ghost var ps, rel := Suffixless(existing), db[t];
      assert db == db[t := BackfillAll(rel, ps, 0)];
      for i := 0 to |existing|
        invariant t in db && db == old(db)[t := BackfillAll(rel, ps, i)]
      {
        BackfillAllShape(rel, ps, i);
        assert ps[i] == Pair(existing[i], RemoveSuffix(existing[i])) && existing[i] in existing;
        db := db[t := Backfill(db[t], existing[i], RemoveSuffix(existing[i]))];
      }
    }

    method DiscardColumns(t: Table)
      modifies this
      ensures t in old(db) ==> db == old(db)[t := Discard(old(db)[t], CoreLegacy(t))]
      ensures t !in old(db) ==> db == old(db)
    {
      if t !in db { return; }
      DropColumns(t, Present(CoreLegacy(t), db[t].columns));
    }

    method RemoveHostColumns()
      modifies this
      ensures db == Everywhere(old(db), RetireStep())
    {
      var todo := HOST;
      while todo != {}
        invariant todo <= HOST && Progress(old(db), db, HOST - todo, RetireStep())
        decreases |todo|
      {
        ghost var mid, done := db, HOST - todo;
        var t :| t in todo;
        RetireColumns(t);
        ProgressOne(old(db), mid, db, done, t, RetireStep());
        todo := todo - {t};
        assert HOST - todo == done + {t};
      }
      forall t, rel | t !in HOST ensures RetireStep()(t, rel) == rel { OtherTablesStay(t, rel); }
      ProgressDone(old(db), db, HOST, RetireStep());
    }

    method RemoveCoreColumns()
      modifies this
      ensures db == Everywhere(old(db), DiscardStep())
    {
      var todo := CORE;
      while todo != {}
        invariant todo <= CORE && Progress(old(db), db, CORE - todo, DiscardStep())
        decreases |todo|
      {
        ghost var mid, done := db, CORE - todo;
        var t :| t in todo;
        DiscardColumns(t);
        ProgressOne(old(db), mid, db, done, t, DiscardStep());
        todo := todo - {t};
        assert CORE - todo == done + {t};
      }
      forall t, rel | t !in CORE ensures DiscardStep()(t, rel) == rel { OtherTablesStay(t, rel); }
      ProgressDone(old(db), db, CORE, DiscardStep());
    }

    /** The three upgrades in order; what they keep and lose is proved of `Chain`. */
    method Upgrade() returns (r: Result<()>)
      modifies this
      ensures r.Ok? <==> Chain(old(db)).Ok?
      ensures r.Ok? ==> db == Chain(old(db)).value
      ensures r.Ok? ==>
              (Lossless(old(db), db) <==> (WorkItem in old(db) ==> InStep(old(db)[WorkItem], AllPairs(WorkItem))))
    {
      AddTimestampColumns();
      r := CreateWorkItem();
      if r.Raised? { return; }
      ghost var added := db;
      RemoveHostColumns();
      assert db == Retired(added);
      ghost var retired := db;
      RemoveCoreColumns();
      assert db == Discarded(retired);
      LosslessExactlyWhen(old(db));
    }
  }
}
