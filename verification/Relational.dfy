/**
 Tables of nullable cells and the few statements the data migrations run on them.
*/
module Relational {

  datatype Value =
    | Null
    | Epoch(seconds: real)
    | Instant(moment: real)
    | Number(n: int)
    | Text(text: string)
    | Flag(on: bool)

  datatype Column =
    | Id | ProcessInstanceId | TaskGuid | TaskId | LaneAssignmentId | CompletedByUserId | ActualOwnerId
    | TaskStatus | Completed | TenantId
    | CreatedAtInSeconds | CreatedAt | UpdatedAtInSeconds | UpdatedAt
    | StartInSeconds | StartedAt | EndInSeconds | EndedAt | TaskUpdatedAtInSeconds | TaskUpdatedAt
    | RunAtInSeconds | RunAt | QueuedToRunAtInSeconds | QueuedToRunAt | LockedAtInSeconds | LockedAt
    | Timestamp | OccurredAt
    | Named(name: string)

  type Row = map<Column, Value>

  /** Rows are kept by primary key. */
  datatype Relation = Relation(columns: set<Column>, rows: map<int, Row>)

  /** A column that is not there reads as null, like one that was just added. */
  function Read(rel: Relation, id: int, c: Column): Value {
    if id in rel.rows && c in rel.columns && c in rel.rows[id] then rel.rows[id][c] else Null
  }

  function Coalesce(a: Value, b: Value): Value { if a == Null then b else a }

  /** `to_timestamp`. */
  function ToTimestamp(v: Value): Value { if v.Epoch? then Instant(v.seconds) else Null }

  function AddColumn(rel: Relation, c: Column): Relation {
    if c in rel.columns then rel
    else Relation(rel.columns + {c}, map id | id in rel.rows :: rel.rows[id][c := Null])
  }

  function DropColumn(rel: Relation, c: Column): Relation {
    Relation(rel.columns - {c}, map id | id in rel.rows :: rel.rows[id] - {c})
  }

  /** `UPDATE ... SET native = to_timestamp(legacy) WHERE native IS NULL AND legacy IS NOT NULL`. */
  function Backfill(rel: Relation, legacy: Column, native: Column): Relation {
    rel.(rows := map id | id in rel.rows ::
      if Read(rel, id, native) == Null && Read(rel, id, legacy) != Null
      then rel.rows[id][native := ToTimestamp(Read(rel, id, legacy))]
      else rel.rows[id])
  }

  /** The same rows with the same readable cells, whatever columns are declared. */
  ghost predicate SameCells(a: Relation, b: Relation) {
    a.rows.Keys == b.rows.Keys && forall id, c :: Read(a, id, c) == Read(b, id, c)
  }

  lemma AddingReadsTheSame(rel: Relation, c: Column)
    ensures SameCells(AddColumn(rel, c), rel)
  {
  }

  lemma DroppingClearsOne(rel: Relation, c: Column, id: int, x: Column)
    ensures Read(DropColumn(rel, c), id, x) == if x == c then Null else Read(rel, id, x)
    ensures DropColumn(rel, c).rows.Keys == rel.rows.Keys
  {
  }

  lemma BackfillFills(rel: Relation, legacy: Column, native: Column, id: int, x: Column)
    requires native in rel.columns
    ensures Read(Backfill(rel, legacy, native), id, x) ==
            if x == native then Coalesce(Read(rel, id, native), ToTimestamp(Read(rel, id, legacy)))
              else Read(rel, id, x)
    ensures Backfill(rel, legacy, native).rows.Keys == rel.rows.Keys
  {
  }

  // ------------------------------------------------------------------ three-valued conditions

  datatype Truth = Holds | Fails | Unknown

  function Either(p: Truth, q: Truth): Truth {
    if p == Holds || q == Holds then Holds else if p == Fails && q == Fails then Fails else Unknown
  }

  function Both(p: Truth, q: Truth): Truth {
    if p == Fails || q == Fails then Fails else if p == Holds && q == Holds then Holds else Unknown
  }

  function Not(p: Truth): Truth {
    match p case Holds => Fails case Fails => Holds case Unknown => Unknown
  }

  /** `<>`, which knows nothing of nulls. */
  function Unequal(a: Value, b: Value): Truth {
    if a == Null || b == Null then Unknown else if a != b then Holds else Fails
  }

  function IsNull(a: Value): Truth { if a == Null then Holds else Fails }
}
