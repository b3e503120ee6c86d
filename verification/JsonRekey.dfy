/**
 b2c3's re-keying of `json_data` from a bare hash to (tenant, hash): either every reference resolves to
 the payload it had, or the table is left alone.
*/
module JsonRekey {
  import opened Wrappers

  type Payload = string

  // ------------------------------------------------------------------ str.strip

  /** What `str.strip()` removes, within ASCII. */
  predicate IsSpace(c: char) {
    c == ' ' || '\t' <= c <= '\r' || '\U{1C}' <= c <= '\U{1F}'
  }

  function StripLeft(s: string): (r: string)
    ensures r == [] || !IsSpace(r[0])
    ensures |r| <= |s|
  {
    if s == [] || !IsSpace(s[0]) then s else StripLeft(s[1..])
  }

  function StripRight(s: string): (r: string)
    ensures r == [] || !IsSpace(r[|r| - 1])
    ensures r <= s
  {
    if s == [] || !IsSpace(s[|s| - 1]) then s else StripRight(s[..|s| - 1])
  }

  function Strip(s: string): (r: string)
    ensures Bare(r)
  {
    StripRight(StripLeft(s))
  }

  /** Neither end is a space. */
  predicate Bare(s: string) { s == [] || (!IsSpace(s[0]) && !IsSpace(s[|s| - 1])) }

  lemma SpacesAre(c: char)
    ensures IsSpace(c) <==> c in [' ', '\t', '\n', '\U{0B}', '\U{0C}', '\r', '\U{1C}', '\U{1D}', '\U{1E}', '\U{1F}']
  {
  }

  lemma StripKeepsExactlyTheBare(s: string)
    ensures Strip(s) == s <==> Bare(s)
  {
  }

  lemma {:induction false} StripLeftDrops(s: string) returns (n: nat)
    ensures n <= |s| && StripLeft(s) == s[n..] && forall k | 0 <= k < n :: IsSpace(s[k])
  {
    n := 0;
    if s != [] && IsSpace(s[0]) {
      var rest := StripLeftDrops(s[1..]);
      n := rest + 1;
      assert s[1..][rest..] == s[n..];
      assert forall k | 1 <= k < n :: s[k] == s[1..][k - 1];
    }
  }

  lemma {:induction false} StripRightKeeps(s: string) returns (n: nat)
    ensures n <= |s| && StripRight(s) == s[..n] && forall k | n <= k < |s| :: IsSpace(s[k])
  {
    n := |s|;
    if s != [] && IsSpace(s[|s| - 1]) {
      n := StripRightKeeps(s[..|s| - 1]);
      assert forall k | n <= k < |s| - 1 :: s[k] == s[..|s| - 1][k];
    }
  }

  /** What is left is the middle of the text, between nothing but spaces. */
  lemma StripIsTheMiddle(s: string) returns (i: nat, j: nat)
    ensures i <= j <= |s| && Strip(s) == s[i..j] && Bare(Strip(s))
    ensures forall k | 0 <= k < |s| && !(i <= k < j) :: IsSpace(s[k])
  {
    i := StripLeftDrops(s);
    var n := StripRightKeeps(s[i..]);
    j := i + n;
    assert s[i..][..n] == s[i..j];
    assert forall k | j <= k < |s| :: s[k] == s[i..][k - i];
  }

  // ------------------------------------------------------------------ the tables

  datatype JsonRow = JsonRow(hash: string, data: Payload)

  /** Cells of the referencing tables; every one may be null. */
  datatype ProcessRow = ProcessRow(tenant: Option<string>, json: Option<string>)
  datatype TaskRow = TaskRow(tenant: Option<string>, json: Option<string>, env: Option<string>)

  datatype Reference = Reference(tenant: Option<string>, hash: Option<string>)

  /** The three sources of the union, nulls of the hash filtered out, and DISTINCT. */
  function References(processes: seq<ProcessRow>, tasks: seq<TaskRow>): set<Reference> {
    (set p | p in processes && p.json.Some? :: Reference(p.tenant, p.json))
    + (set t | t in tasks && t.json.Some? :: Reference(t.tenant, t.json))
    + (set t | t in tasks && t.env.Some? :: Reference(t.tenant, t.env))
  }

  datatype JsonTable = Absent | ByHash(bare: seq<JsonRow>) | ByTenant(scoped: map<(string, string), Payload>)

  /** The dictionary of stripped hashes; of two hashes equal after stripping the later row wins. */
  function JsonRows(rows: seq<JsonRow>): map<string, Payload> {
    if rows == [] then map[]
    else JsonRows(rows[..|rows| - 1])[Strip(rows[|rows| - 1].hash) := rows[|rows| - 1].data]
  }

  /** `tenants[h]` are the tenants that the references in `done` name with `h`. */
  ghost predicate Groups(done: set<Reference>, tenants: map<string, set<string>>) {
    && (forall r | r in done && r.tenant.Some? && r.hash.Some? ::
          Strip(r.hash.value) in tenants && Strip(r.tenant.value) in tenants[Strip(r.hash.value)])
    && (forall h | h in tenants :: tenants[h] != {})
    && forall h, t | h in tenants && t in tenants[h] ::
          exists r | r in done :: r.tenant.Some? && r.hash.Some? && Strip(r.hash.value) == h
            && Strip(r.tenant.value) == t
  }

  /** Every reference is complete, its payload is there, and its tenant is a row of `m8flow_tenant`. */
  predicate Resolvable(r: Reference, payloads: map<string, Payload>, tenants: set<string>) {
    r.tenant.Some? && r.hash.Some? && Strip(r.hash.value) in payloads && Strip(r.tenant.value) in tenants
  }

  predicate Scopable(rows: seq<JsonRow>, references: set<Reference>, tenants: set<string>) {
    forall r | r in references :: Resolvable(r, JsonRows(rows), tenants)
  }

  /** The new table: exactly the referenced pairs, each with the payload of its hash. */
  ghost predicate Rekeyed(rows: seq<JsonRow>, references: set<Reference>, scoped: map<(string, string), Payload>) {
    && (forall r | r in references ::
           r.tenant.Some? && r.hash.Some? && (Strip(r.tenant.value), Strip(r.hash.value)) in scoped)
    && forall k | k in scoped ::
         && (exists r | r in references ::
                r.tenant.Some? && r.hash.Some? && (Strip(r.tenant.value), Strip(r.hash.value)) == k)
         && k.1 in JsonRows(rows) && scoped[k] == JsonRows(rows)[k.1]
  }

  function Stripped(ids: set<string>): set<string> { set id | id in ids :: Strip(id) }

  // ------------------------------------------------------------------ cell by cell

  /** The last row whose hash this is, spaces at either end apart. */
  predicate LastOf(rows: seq<JsonRow>, i: nat, hash: string) {
    && i < |rows| && Strip(rows[i].hash) == Strip(hash)
    && forall j | i < j < |rows| :: Strip(rows[j].hash) != Strip(hash)
  }

  /** A cell that named `hash` resolves under its own tenant to the payload that the bare hash had. */
  ghost predicate Carried(rows: seq<JsonRow>, scoped: map<(string, string), Payload>, tenant: Option<string>,
      hash: Option<string>)
  {
    && tenant.Some? && hash.Some? && (Strip(tenant.value), Strip(hash.value)) in scoped
    && exists i: nat :: LastOf(rows, i, hash.value) && scoped[(Strip(tenant.value), Strip(hash.value))] == rows[i].data
  }

  /** The cell cannot be carried over: nobody's, or of an unknown tenant, or without a payload. */
  predicate Dangling(rows: seq<JsonRow>, ids: set<string>, tenant: Option<string>, hash: Option<string>) {
    && hash.Some?
    && (tenant.None? || Strip(tenant.value) !in ids
        || forall row | row in rows :: Strip(row.hash) != Strip(hash.value))
  }

  /** No process's hash dangles, and neither of a task's two. */
  predicate NothingDangles(rows: seq<JsonRow>, processes: seq<ProcessRow>, tasks: seq<TaskRow>, ids: set<string>) {
    && (forall p | p in processes :: !Dangling(rows, ids, p.tenant, p.json))
    && (forall t | t in tasks :: !Dangling(rows, ids, t.tenant, t.json))
    && (forall t | t in tasks :: !Dangling(rows, ids, t.tenant, t.env))
  }

  /** Every hash of a process and both of a task resolve in the new table, and there is nothing else in it. */
  ghost predicate CarriedOver(rows: seq<JsonRow>, processes: seq<ProcessRow>, tasks: seq<TaskRow>,
      scoped: map<(string, string), Payload>)
  {
    && (forall p | p in processes && p.json.Some? :: Carried(rows, scoped, p.tenant, p.json))
    && (forall t | t in tasks && t.json.Some? :: Carried(rows, scoped, t.tenant, t.json))
    && (forall t | t in tasks && t.env.Some? :: Carried(rows, scoped, t.tenant, t.env))
    && (forall k | k in scoped ::
          || (exists p | p in processes ::
                p.json.Some? && p.tenant.Some? && (Strip(p.tenant.value), Strip(p.json.value)) == k)
          || (exists t | t in tasks ::
                t.json.Some? && t.tenant.Some? && (Strip(t.tenant.value), Strip(t.json.value)) == k)
          || (exists t | t in tasks ::
                t.env.Some? && t.tenant.Some? && (Strip(t.tenant.value), Strip(t.env.value)) == k))
  }

  lemma {:induction false} JsonRowsHasLast(rows: seq<JsonRow>, hash: string)
    ensures Strip(hash) in JsonRows(rows) <==> exists row | row in rows :: Strip(row.hash) == Strip(hash)
    ensures Strip(hash) in JsonRows(rows) ==>
              exists i: nat :: LastOf(rows, i, hash) && JsonRows(rows)[Strip(hash)] == rows[i].data
  {
    hide Strip;
    if rows != [] {
      var n := |rows| - 1;
      JsonRowsHasLast(rows[..n], hash);
      assert rows == rows[..n] + [rows[n]];
      if Strip(rows[n].hash) == Strip(hash) {
        assert LastOf(rows, n, hash);
      } else if Strip(hash) in JsonRows(rows) {
        var i: nat :| LastOf(rows[..n], i, hash) && JsonRows(rows[..n])[Strip(hash)] == rows[..n][i].data;
        assert LastOf(rows, i, hash);
      }
    }
  }

  /** The three kinds of cells, each resolved or dangling on its own. */
  lemma CellsDecide(rows: seq<JsonRow>, processes: seq<ProcessRow>, tasks: seq<TaskRow>, ids: set<string>)
    ensures Scopable(rows, References(processes, tasks), ids) <==>
            NothingDangles(rows, processes, tasks, ids)
  {
    hide Strip, JsonRows;
    var references := References(processes, tasks);
    forall r: Reference | r.hash.Some?
      ensures Resolvable(r, JsonRows(rows), ids) <==> !Dangling(rows, ids, r.tenant, r.hash)
    {
      JsonRowsHasLast(rows, r.hash.value);
    }
    forall p | p in processes && p.json.Some? ensures Reference(p.tenant, p.json) in references {}
    forall t | t in tasks && t.json.Some? ensures Reference(t.tenant, t.json) in references {}
    forall t | t in tasks && t.env.Some? ensures Reference(t.tenant, t.env) in references {}
  }

  lemma CellsAreCarried(rows: seq<JsonRow>, processes: seq<ProcessRow>, tasks: seq<TaskRow>,
      scoped: map<(string, string), Payload>)
    requires Rekeyed(rows, References(processes, tasks), scoped)
    ensures CarriedOver(rows, processes, tasks, scoped)
  {
    hide Strip, JsonRows;
    var references := References(processes, tasks);
    forall r | r in references
      ensures Carried(rows, scoped, r.tenant, r.hash)
    {
      JsonRowsHasLast(rows, r.hash.value);
    }
    forall p | p in processes && p.json.Some? ensures Carried(rows, scoped, p.tenant, p.json) {
      assert Reference(p.tenant, p.json) in references;
    }
    forall t | t in tasks && t.json.Some? ensures Carried(rows, scoped, t.tenant, t.json) {
      assert Reference(t.tenant, t.json) in references;
    }
    forall t | t in tasks && t.env.Some? ensures Carried(rows, scoped, t.tenant, t.env) {
      assert Reference(t.tenant, t.env) in references;
    }
  }

  // ------------------------------------------------------------------ the migration

  class JsonData {
    var table: JsonTable
    var processes: seq<ProcessRow>
    var tasks: seq<TaskRow>
    var tenantIds: set<string>

    method ReadRows(rows: seq<JsonRow>) returns (payloads: map<string, Payload>)
      ensures payloads == JsonRows(rows)
    {
      payloads := map[];
      for i := 0 to |rows|
        invariant payloads == JsonRows(rows[..i])
      {
        assert rows[..i + 1][..i] == rows[..i];
        payloads := payloads[Strip(rows[i].hash) := rows[i].data];
      }
      assert rows[..|rows|] == rows;
    }

    method GroupReferences(references: set<Reference>) returns (tenants: map<string, set<string>>, invalid: bool)
      ensures Groups(references, tenants)
      ensures invalid <==> exists r | r in references :: r.tenant.None? || r.hash.None?
    {
      tenants, invalid := map[], false;
      var todo := references;
      while todo != {}
        invariant todo <= references && Groups(references - todo, tenants)
        invariant invalid <==> exists r | r in references - todo :: r.tenant.None? || r.hash.None?
        decreases |todo|
      {
        var r :| r in todo;
        ghost var done := references - todo;
        todo := todo - {r};
        assert references - todo == done + {r};
        if r.tenant.None? || r.hash.None? {
          invalid := true;
        } else {
          var h, t := Strip(r.hash.value), Strip(r.tenant.value);
          GroupOneMore(done, tenants, r);
          tenants := tenants[h := (if h in tenants then tenants[h] else {}) + {t}];
        }
      }
      assert references - todo == references;
    }

    /** The stage table, row by row. */
    method Stage(payloads: map<string, Payload>, tenants: map<string, set<string>>)
        returns (stage: map<(string, string), Payload>)
      requires tenants.Keys <= payloads.Keys
      ensures forall h, t :: (t, h) in stage <==> h in tenants && t in tenants[h]
      ensures forall h, t | (t, h) in stage :: stage[(t, h)] == payloads[h]
    {
      stage := map[];
      var hashes := tenants.Keys;
      while hashes != {}
        invariant hashes <= tenants.Keys
        invariant forall h, t :: (t, h) in stage <==> h in tenants && h !in hashes && t in tenants[h]
        invariant forall h, t | (t, h) in stage :: stage[(t, h)] == payloads[h]
        decreases |hashes|
      {
        var hash :| hash in hashes;
        hashes := hashes - {hash};
        var todo := tenants[hash];
        while todo != {}
          invariant todo <= tenants[hash]
          invariant forall h, t :: (t, h) in stage <==>
                      h in tenants && h !in hashes && t in tenants[h] && (h != hash || t !in todo)
          invariant forall h, t | (t, h) in stage :: stage[(t, h)] == payloads[h]
          decreases |todo|
        {
          var tenant :| tenant in todo;
          todo := todo - {tenant};
          stage := stage[(tenant, hash) := payloads[hash]];
        }
      }
    }

    /**
     Re-keys the table when no cell of a process or a task dangles, and otherwise leaves it; a re-keyed one is left
     too. In the new table every such cell resolves, and there is nothing else in it.
    */
    method TenantScopeJsonData() returns (r: Result<()>)
      modifies `table
      ensures !old(table).ByHash? ==> r.Ok? && table == old(table)
      ensures r.Raised? ==> table == old(table)
      ensures old(table).ByHash? ==>
                (r.Ok? <==> NothingDangles(old(table).bare, processes, tasks, tenantIds))
      ensures old(table).ByHash? && r.Ok? ==>
                && table.ByTenant? && Rekeyed(old(table).bare, References(processes, tasks), table.scoped)
                && CarriedOver(old(table).bare, processes, tasks, table.scoped)
    {
      hide Strip, JsonRows, References, Groups, Scopable, Rekeyed, CarriedOver, NothingDangles;
      if !table.ByHash? { return Ok(()); }
      CellsDecide(table.bare, processes, tasks, tenantIds);
      var rows, references := table.bare, References(processes, tasks);
      var payloads := ReadRows(rows);
      var tenants, invalid := GroupReferences(references);
      var known := Stripped(tenantIds);
      GroupsDecide(rows, references, tenants, tenantIds);
      if invalid || !(tenants.Keys <= payloads.Keys) || exists h | h in tenants :: !(tenants[h] <= known) {
        return Raised("Cannot safely tenant-scope json_data; no payload rows were re-keyed.");
      }
      // The foreign key compares the tenant as it is stored.
      if exists h | h in tenants :: !(tenants[h] <= tenantIds) { return Raised("m8f_json_data_tenant_fk"); }
      var stage := Stage(payloads, tenants);
      StageIsRekeyed(rows, references, tenants, stage);
      CellsAreCarried(rows, processes, tasks, stage);
      table := ByTenant(stage);
      return Ok(());
    }
  }

  lemma GroupOneMore(done: set<Reference>, tenants: map<string, set<string>>, r: Reference)
    requires Groups(done, tenants) && r.tenant.Some? && r.hash.Some?
    ensures var h := Strip(r.hash.value);
            Groups(done + {r}, tenants[h := (if h in tenants then tenants[h] else {}) + {Strip(r.tenant.value)}])
  {
    hide Strip;
    var h, t := Strip(r.hash.value), Strip(r.tenant.value);
    var after := tenants[h := (if h in tenants then tenants[h] else {}) + {t}];
    forall g, u | g in after && u in after[g]
      ensures exists q | q in done + {r} ::
                q.tenant.Some? && q.hash.Some? && Strip(q.hash.value) == g && Strip(q.tenant.value) == u
    {
      if g == h && u == t {
        assert r in done + {r};
      } else {
        assert g in tenants && u in tenants[g];
        var q :| q in done && q.tenant.Some? && q.hash.Some? && Strip(q.hash.value) == g && Strip(q.tenant.value) == u;
        assert q in done + {r};
      }
    }
  }

  /** The checks pass exactly when every reference resolves. */
  lemma GroupsDecide(rows: seq<JsonRow>, references: set<Reference>, tenants: map<string, set<string>>,
      ids: set<string>)
    requires Groups(references, tenants)
    ensures Scopable(rows, references, ids) <==>
              (forall r | r in references :: r.tenant.Some? && r.hash.Some?)
              && tenants.Keys <= JsonRows(rows).Keys && forall h | h in tenants :: tenants[h] <= ids
    ensures Scopable(rows, references, ids) ==> forall h, t | h in tenants && t in tenants[h] :: t in Stripped(ids)
  {
    hide Strip, JsonRows, Bare;
    var payloads := JsonRows(rows);
    if Scopable(rows, references, ids) {
      forall h, t | h in tenants && t in tenants[h] ensures h in payloads && t in ids && t in Stripped(ids) {
        var r :| r in references && r.tenant.Some? && r.hash.Some? && Strip(r.hash.value) == h
          && Strip(r.tenant.value) == t;
        assert Resolvable(r, payloads, ids);
        StripKeepsExactlyTheBare(t);
      }
      forall h | h in tenants ensures h in payloads {
        var t :| t in tenants[h];
      }
    }
  }

  lemma StageIsRekeyed(rows: seq<JsonRow>, references: set<Reference>, tenants: map<string, set<string>>,
      stage: map<(string, string), Payload>)
    requires Groups(references, tenants) && tenants.Keys <= JsonRows(rows).Keys
    requires forall r | r in references :: r.tenant.Some? && r.hash.Some?
    requires forall h, t :: (t, h) in stage <==> h in tenants && t in tenants[h]
    requires forall h, t | (t, h) in stage :: stage[(t, h)] == JsonRows(rows)[h]
    ensures Rekeyed(rows, references, stage)
  {
    hide Strip, JsonRows;
    forall k | k in stage
      ensures exists r | r in references ::
                r.tenant.Some? && r.hash.Some? && (Strip(r.tenant.value), Strip(r.hash.value)) == k
      ensures k.1 in JsonRows(rows) && stage[k] == JsonRows(rows)[k.1]
    {
      assert (k.0, k.1) == k;
    }
  }

  // ------------------------------------------------------------------ lookups before and after

  predicate DistinctHashes(rows: seq<JsonRow>) {
    forall i, j | 0 <= i < |rows| && 0 <= j < |rows| && Strip(rows[i].hash) == Strip(rows[j].hash) :: i == j
  }

  /** One of the cells that name a payload: a process's, or either of a task's. */
  predicate NamedIn(processes: seq<ProcessRow>, tasks: seq<TaskRow>, r: Reference) {
    || (exists p | p in processes :: r == Reference(p.tenant, p.json))
    || (exists t | t in tasks :: r == Reference(t.tenant, t.json) || r == Reference(t.tenant, t.env))
  }

  /**
   Re-keying preserves lookups: a hash that a process or a task names resolves, under that row's own tenant and
   stripped, to the payload the bare hash had.
  */
  lemma LookupsArePreserved(rows: seq<JsonRow>, processes: seq<ProcessRow>, tasks: seq<TaskRow>,
      scoped: map<(string, string), Payload>, r: Reference, i: nat)
    requires Rekeyed(rows, References(processes, tasks), scoped) && DistinctHashes(rows)
    requires NamedIn(processes, tasks, r) && r.hash.Some? && i < |rows| && Strip(rows[i].hash) == Strip(r.hash.value)
    ensures r.tenant.Some? && (Strip(r.tenant.value), Strip(r.hash.value)) in scoped
    ensures scoped[(Strip(r.tenant.value), Strip(r.hash.value))] == rows[i].data
  {
    hide Strip, JsonRows, Rekeyed;
    CellsAreCarried(rows, processes, tasks, scoped);
  }

  /** A lookup with the reference's cells as they are stored finds a row exactly when neither is padded. */
  lemma StoredReferencesResolveExactlyWhen(rows: seq<JsonRow>, references: set<Reference>,
      scoped: map<(string, string), Payload>, r: Reference)
    requires Rekeyed(rows, references, scoped) && r in references && r.tenant.Some? && r.hash.Some?
    ensures (r.tenant.value, r.hash.value) in scoped <==> Bare(r.tenant.value) && Bare(r.hash.value)
  {
    hide JsonRows, StripLeft, StripRight;
    StripKeepsExactlyTheBare(r.tenant.value);
    StripKeepsExactlyTheBare(r.hash.value);
  }

  /** No tenant can reach a payload that none of its own rows refers to. */
  lemma NoPayloadCrossesTenants(rows: seq<JsonRow>, references: set<Reference>,
      scoped: map<(string, string), Payload>, tenant: string, hash: string)
    requires Rekeyed(rows, references, scoped) && (tenant, hash) in scoped
    ensures exists r | r in references ::
              r.tenant.Some? && r.hash.Some? && Strip(r.tenant.value) == tenant && Strip(r.hash.value) == hash
  {
    hide Strip, JsonRows;
    var k := (tenant, hash);
    var r :| r in references && r.tenant.Some? && r.hash.Some? && (Strip(r.tenant.value), Strip(r.hash.value)) == k;
  }
}
