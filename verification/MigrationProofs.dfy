/** Why migrations keep the invariant, and why any batching has the one-shot result. */
module MigrationProofs {
  import opened Wrappers
  import opened Errors
  import opened Ordering
  import opened Schemas
  import opened Tables
  import opened Lifecycle
  import opened LifecycleProofs
  import opened Migrations

  // ---------------------------------------------------------------- initialization

  lemma InitializeSchemas(t: Tables, u: Tables, plan: Plan)
    requires SchemasOk(t) && ValidPlan(plan)
    requires plan.source.name in t.schemas && plan.source.version == Latest(t, plan.source.name)
    requires u.schemas == t.schemas[plan.source.name := t.schemas[plan.source.name] + [plan.target]]
    ensures SchemasOk(u)
    ensures forall n {:trigger KeptSchema(t, u, n)} | n in t.schemas :: KeptSchema(t, u, n)
  {
    forall n | n in u.schemas ensures SchemaOk(u, n) { assert SchemaOk(t, n); }
  }

  /** Declaring the next version makes every blob of the schema, all of them at the old version, await the new job. */
  lemma InitializeJobs(t: Tables, u: Tables, plan: Plan, job: Migration)
    requires SchemasOk(t) && MigrationsOk(t) && ValidPlan(plan)
    requires Declared(t, plan.source.name, plan.source.version) && plan.source.version == Latest(t, plan.source.name)
    requires plan.name !in t.migrations && !Running(t, plan.source.name)
    requires job == Migration(plan.source.name, plan.source.version, plan.target.version, plan.transformId, false,
      |AtVersion(t, plan.source.name, plan.source.version)|, 0, None)
    requires u == t.(schemas := t.schemas[plan.source.name := t.schemas[plan.source.name] + [plan.target]],
                     payload := u.payload, migrations := t.migrations[plan.name := job])
    ensures MigrationsOk(u)
  {
    var name := plan.source.name;
    forall m | m in u.migrations ensures MigrationOk(u, m) {
      if m != plan.name {
        assert MigrationOk(t, m);
        var j := t.migrations[m];
        assert AtVersion(u, j.schemaName, j.source) == AtVersion(t, j.schemaName, j.source);
      } else {
        assert AtVersion(u, name, job.source) == AtVersion(t, name, job.source);
      }
    }
    forall m, n | SameTarget(u, m, n) ensures m == n {
      if m != plan.name && n != plan.name {
        assert SameTarget(t, m, n);
      } else {
        assert m in t.migrations ==> MigrationOk(t, m);
        assert n in t.migrations ==> MigrationOk(t, n);
      }
    }
    forall id | id in u.blobs ensures Scheduled(u, id) {
      assert Scheduled(t, id);
      if t.blobs[id].schemaName == name {
        assert t.blobs[id].schemaVersion == Latest(t, name);
        assert Awaits(u, plan.name, id);
      } else if u.blobs[id].schemaVersion != Latest(u, u.blobs[id].schemaName) {
        var m :| Awaits(t, m, id);
        assert Awaits(u, m, id);
      }
    }
  }

  /** The new version is enrolled with its declaration. */
  lemma InitializeEnrolment(s: Tables, u: Tables, plan: Plan)
    requires EnrolmentOk(s) && ValidPlan(plan) && Adopted(s, plan.source.name)
    requires plan.source.name in s.schemas && |s.schemas[plan.source.name]| == plan.source.version
    requires u == s.(schemas := s.schemas[plan.source.name := s.schemas[plan.source.name] + [plan.target]],
                     payload := s.payload + {(plan.source.name, plan.target.version)}, migrations := u.migrations)
    ensures EnrolmentOk(u)
  {
    forall n | n in u.schemas ensures AdoptionOk(u, n) { assert AdoptionOk(s, n); }
    forall id | id in u.blobs ensures BlobAdopted(u, id) { assert BlobAdopted(s, id); }
    forall n, v ensures Enrolled(u, n, v) { assert Enrolled(s, n, v); }
  }

  lemma InitializeFresh(s: Tables, u: Tables, plan: Plan, job: Migration)
    requires Inv(s) && ValidPlan(plan) && Adopted(s, plan.source.name)
    requires Declared(s, plan.source.name, plan.source.version) && plan.source.version == Latest(s, plan.source.name)
    requires plan.name !in s.migrations && !Running(s, plan.source.name)
    requires job == Migration(plan.source.name, plan.source.version, plan.target.version, plan.transformId, false,
      |AtVersion(s, plan.source.name, plan.source.version)|, 0, None)
    requires u == s.(schemas := s.schemas[plan.source.name := s.schemas[plan.source.name] + [plan.target]],
                     payload := s.payload + {(plan.source.name, plan.target.version)},
                     migrations := s.migrations[plan.name := job])
    ensures Keeps(s, u)
  {
    InitializeSchemas(s, u, plan);
    InitializeEnrolment(s, u, plan);
    JournalFrame(s, u);
    BlobsFrame(s, u);
    LedgerFrame(s, u);
    InitializeJobs(s, u, plan, job);
  }

  /** Installing and adopting the source keeps everything, and adoption never refuses. */
  lemma PrepareKeeps(t: Tables, plan: Plan)
    requires Inv(t) && plan.source.version >= 1 && Install(t, plan.source).Success?
    ensures var s := Install(t, plan.source).value.tables;
      Adopt(s, plan.source).Success? && Keeps(t, Adopt(s, plan.source).value)
      && Installed(Adopt(s, plan.source).value, plan.source) && Adopted(Adopt(s, plan.source).value, plan.source.name)
  {
    var s := Install(t, plan.source).value.tables;
    InstallKeeps(t, plan.source);
    InstalledAfter(t, plan.source);
    AdoptKeeps(s, plan.source);
    ExtendsTransitive(t, s, Adopt(s, plan.source).value);
  }

  lemma ContinueKeeps(s: Tables, plan: Plan)
    requires Inv(s) && ValidPlan(plan) && Installed(s, plan.source) && Adopted(s, plan.source.name)
    requires Continue(s, plan).Success?
    ensures Keeps(s, Continue(s, plan).value.tables)
  {
    if plan.name in s.migrations {
      ExtendsReflexive(s);
    } else {
      var c := Continue(s, plan).value;
      InitializeFresh(s, c.tables, plan, c.value);
    }
  }

  lemma InitializeKeeps(t: Tables, plan: Plan)
    requires Inv(t) && ValidPlan(plan) && plan.source.version >= 1 && Initialize(t, plan).Success?
    ensures Keeps(t, Initialize(t, plan).value.tables)
  {
    PrepareKeeps(t, plan);
    var s := Adopt(Install(t, plan.source).value.tables, plan.source).value;
    ContinueKeeps(s, plan);
    ExtendsTransitive(t, s, Continue(s, plan).value.tables);
  }

  lemma FreshReady(s: Tables, u: Tables, plan: Plan, job: Migration)
    requires ValidPlan(plan) && Installed(s, plan.source) && plan.source.version == Latest(s, plan.source.name)
    requires u.schemas == s.schemas[plan.source.name := s.schemas[plan.source.name] + [plan.target]]
    requires u.migrations == s.migrations[plan.name := job] && Identifies(plan, job)
    ensures Initialized(u, plan)
  {
  }

  lemma ContinueReady(s: Tables, plan: Plan)
    requires ValidPlan(plan) && Installed(s, plan.source) && Continue(s, plan).Success?
    ensures var c := Continue(s, plan).value;
      Initialized(c.tables, plan) && plan.name in c.tables.migrations && c.tables.migrations[plan.name] == c.value
  {
    if plan.name !in s.migrations {
      FreshReady(s, Continue(s, plan).value.tables, plan, Continue(s, plan).value.value);
    }
  }

  lemma InitializeReady(t: Tables, plan: Plan)
    requires ValidPlan(plan) && Initialize(t, plan).Success?
    ensures var c := Initialize(t, plan).value;
      Initialized(c.tables, plan) && plan.name in c.tables.migrations && c.tables.migrations[plan.name] == c.value
  {
    ContinueReady(Adopt(Install(t, plan.source).value.tables, plan.source).value, plan);
  }

  lemma InstallTables(t: Tables, schema: BlobSchema)
    requires Install(t, schema).Success?
    ensures Install(t, schema).value.tables == t.(schemas := Install(t, schema).value.tables.schemas)
  {
  }

  lemma AdoptFrame(t: Tables, schema: BlobSchema)
    requires Adopt(t, schema).Success?
    ensures Adopt(t, schema).value == t.(payload := Adopt(t, schema).value.payload)
  {
  }

  lemma ContinueTables(s: Tables, plan: Plan)
    requires ValidPlan(plan) && Installed(s, plan.source) && Continue(s, plan).Success?
    ensures var c := Continue(s, plan).value;
      && c.tables == s.(schemas := c.tables.schemas, payload := c.tables.payload, migrations := c.tables.migrations)
      && (c.tables.migrations == s.migrations
          || (plan.name !in s.migrations && c.tables.migrations == s.migrations[plan.name := c.value]))
  {
  }

  /** Initialization adds its declarations, their enrolment and its job. */
  lemma InitializeTables(t: Tables, plan: Plan)
    requires ValidPlan(plan) && Initialize(t, plan).Success?
    ensures var c := Initialize(t, plan).value;
      && c.tables == t.(schemas := c.tables.schemas, payload := c.tables.payload, migrations := c.tables.migrations)
      && (c.tables.migrations == t.migrations
          || (plan.name !in t.migrations && c.tables.migrations == t.migrations[plan.name := c.value]))
  {
    InstallTables(t, plan.source);
    var d := Install(t, plan.source).value.tables;
    AdoptFrame(d, plan.source);
    ContinueTables(Adopt(d, plan.source).value, plan);
    PreparedTables(t, d, Adopt(d, plan.source).value, plan);
  }

  lemma PreparedTables(t: Tables, d: Tables, s: Tables, plan: Plan)
    requires Install(t, plan.source).Success? && d == Install(t, plan.source).value.tables
    requires Adopt(d, plan.source) == Success(s) && ValidPlan(plan) && Installed(s, plan.source)
    ensures Initialize(t, plan) == Continue(s, plan)
  {
  }

  // ---------------------------------------------------------------- batches

  ghost predicate RowAfter(t: Tables, u: Tables, plan: Plan, moved: set<Id>, id: Id)
    requires id in t.blobs && id in t.metadata
  {
    && id in u.blobs && id in u.metadata
    && if id in moved then
         && u.blobs[id] == t.blobs[id].(schemaVersion := plan.target.version)
         && Transform(plan, t.metadata[id].values).Success?
         && u.metadata[id] == Moved(plan, t.metadata[id])
       else u.blobs[id] == t.blobs[id] && u.metadata[id] == t.metadata[id]
  }

  /** Exactly the rows of one set are transformed, each once. */
  ghost predicate Moves(t: Tables, u: Tables, plan: Plan, moved: set<Id>) {
    && t.metadata.Keys == t.blobs.Keys && u.metadata.Keys == u.blobs.Keys == t.blobs.Keys
    && u.schemas == t.schemas && u.payload == t.payload && u.lifecycle == t.lifecycle
    && u.prepared == t.prepared && u.objects == t.objects
    && u.retired == t.retired && u.gc == t.gc && u.steps == t.steps
    && moved <= AtVersion(t, plan.source.name, plan.source.version)
    && (forall id {:trigger RowAfter(t, u, plan, moved, id)} | id in t.blobs :: RowAfter(t, u, plan, moved, id))
  }

  /** The checkpoint and count advance over the transformed rows. */
  ghost predicate Counts(t: Tables, u: Tables, plan: Plan, ids: seq<Id>, moved: set<Id>) {
    && plan.name in t.migrations && !t.migrations[plan.name].complete
    && |moved| == |ids|
    && var job := t.migrations[plan.name];
    u.migrations == t.migrations[plan.name := job.(
      migrated := job.migrated + |ids|,
      lastId := if ids == [] then job.lastId else Some(ids[|ids| - 1]),
      complete := AtVersion(t, plan.source.name, plan.source.version) - moved == {})]
  }

  /** A source row of a migration awaits that migration and no other. */
  lemma SourceRowAwaits(t: Tables, plan: Plan, id: Id)
    requires MigrationsOk(t) && Initialized(t, plan) && id in AtVersion(t, plan.source.name, plan.source.version)
    ensures Awaits(t, plan.name, id)
  {
    assert Scheduled(t, id);
    var m :| Awaits(t, m, id);
    assert MigrationOk(t, m);
    assert SameTarget(t, m, plan.name);
  }

  /** Under the invariant every source row is ahead of the checkpoint. */
  lemma BacklogIsAll(t: Tables, plan: Plan)
    requires MigrationsOk(t) && Initialized(t, plan)
    ensures Backlog(t, plan, t.migrations[plan.name].lastId) == AtVersion(t, plan.source.name, plan.source.version)
  {
    forall id | id in AtVersion(t, plan.source.name, plan.source.version)
      ensures AfterMark(t.migrations[plan.name].lastId, id)
    {
      SourceRowAwaits(t, plan, id);
    }
  }

  /** What a batch selects: distinct source rows, all of them before every other source row. */
  lemma SelectionIsFirst(t: Tables, plan: Plan, size: nat)
    requires MigrationsOk(t) && Initialized(t, plan) && !t.migrations[plan.name].complete
    ensures var ids := Selection(t, plan, t.migrations[plan.name].lastId, size);
      var source := AtVersion(t, plan.source.name, plan.source.version);
      && Elements(ids) <= source && |Elements(ids)| == |ids| == (if size < |source| then size else |source|)
      && (forall x, y | x in ids && y in source - Elements(ids) :: TextLess(x, y))
      && (size > 0 && ids == [] ==> source == {})
  {
    BacklogIsAll(t, plan);
    var source := AtVersion(t, plan.source.name, plan.source.version);
    TextLessStrictTotal(source);
    FirstSelects(TextLess, source, size);
  }

  /** The "behind the checkpoint" error is unreachable. */
  lemma NeverBehindCheckpoint(t: Tables, plan: Plan, size: nat)
    requires Inv(t) && Initialized(t, plan) && size > 0
    ensures Batch(t, plan, size) != Failure(BehindCheckpoint)
  {
    if !t.migrations[plan.name].complete {
      SelectionIsFirst(t, plan, size);
    }
  }

  lemma BatchMoves(t: Tables, plan: Plan, size: nat)
    requires BlobsOk(t) && MigrationsOk(t) && Initialized(t, plan) && !t.migrations[plan.name].complete
    requires Batch(t, plan, size).Success?
    ensures var ids := Selection(t, plan, t.migrations[plan.name].lastId, size);
      var c := Batch(t, plan, size).value;
      && Moves(t, c.tables, plan, Elements(ids)) && Counts(t, c.tables, plan, ids, Elements(ids))
      && c.value == c.tables.migrations[plan.name]
  {
    var ids := Selection(t, plan, t.migrations[plan.name].lastId, size);
    SelectionIsFirst(t, plan, size);
    RowsMove(t, Batch(t, plan, size).value.tables, plan, Elements(ids));
  }

  lemma RowsMove(t: Tables, u: Tables, plan: Plan, moved: set<Id>)
    requires t.metadata.Keys == t.blobs.Keys
    requires moved <= AtVersion(t, plan.source.name, plan.source.version) && Transforms(t, plan, moved)
    requires u == t.(metadata := MoveMetadata(t, plan, moved), blobs := MoveBlobs(t, plan, moved), migrations := u.migrations)
    ensures Moves(t, u, plan, moved)
  {
  }

  lemma BatchBlobs(t: Tables, u: Tables, plan: Plan, moved: set<Id>)
    requires BlobsOk(t) && ValidPlan(plan) && Installed(t, plan.target) && Moves(t, u, plan, moved)
    ensures BlobsOk(u) && KeepsBlobs(t, u)
  {
    forall id | id in u.blobs ensures BlobOk(u, id) && Advances(t, u, id) && Edits(t, u, id) {
      assert BlobOk(t, id) && RowAfter(t, u, plan, moved, id);
    }
    forall i, j | SameToken(u, i, j) ensures i == j { assert SameToken(t, i, j); }
  }

  lemma BatchBacklog(t: Tables, u: Tables, plan: Plan, moved: set<Id>)
    requires ValidPlan(plan) && Moves(t, u, plan, moved)
    ensures AtVersion(u, plan.source.name, plan.source.version)
      == AtVersion(t, plan.source.name, plan.source.version) - moved
    ensures |AtVersion(u, plan.source.name, plan.source.version)|
      == |AtVersion(t, plan.source.name, plan.source.version)| - |moved|
  {
    var source := AtVersion(t, plan.source.name, plan.source.version);
    forall id | id in t.blobs
      ensures id in AtVersion(u, plan.source.name, plan.source.version) <==> id in source - moved
    {
      assert RowAfter(t, u, plan, moved, id);
    }
    assert AtVersion(u, plan.source.name, plan.source.version) == source - moved;
    assert source == (source - moved) + moved;
  }

  lemma BatchElsewhere(t: Tables, u: Tables, plan: Plan, moved: set<Id>, name: string, version: nat)
    requires ValidPlan(plan) && Moves(t, u, plan, moved) && name != plan.source.name
    ensures AtVersion(u, name, version) == AtVersion(t, name, version)
  {
    forall id | id in t.blobs ensures id in AtVersion(u, name, version) <==> id in AtVersion(t, name, version) {
      assert RowAfter(t, u, plan, moved, id);
    }
  }

  lemma BatchJobs(t: Tables, u: Tables, plan: Plan, ids: seq<Id>, moved: set<Id>)
    requires MigrationsOk(t) && Initialized(t, plan) && Moves(t, u, plan, moved) && Counts(t, u, plan, ids, moved)
    ensures forall m {:trigger MigrationOk(u, m)} | m in u.migrations :: MigrationOk(u, m)
    ensures forall m, n | SameTarget(u, m, n) :: m == n
  {
    BatchBacklog(t, u, plan, moved);
    assert MigrationOk(t, plan.name);
    forall m | m in u.migrations ensures MigrationOk(u, m) {
      assert MigrationOk(t, m);
      assert m != plan.name ==> !SameTarget(t, m, plan.name);
      var j := t.migrations[m];
      if j.schemaName != plan.source.name { BatchElsewhere(t, u, plan, moved, j.schemaName, j.source); }
    }
    forall m, n | SameTarget(u, m, n) ensures m == n { assert SameTarget(t, m, n); }
  }

  lemma BatchSchedule(t: Tables, u: Tables, plan: Plan, ids: seq<Id>, moved: set<Id>, id: Id)
    requires MigrationsOk(t) && Initialized(t, plan) && Moves(t, u, plan, moved) && Counts(t, u, plan, ids, moved)
    requires forall x | x in ids :: x in moved
    requires forall x, y | x in ids && y in AtVersion(t, plan.source.name, plan.source.version) - moved :: TextLess(x, y)
    requires id in u.blobs
    ensures Scheduled(u, id)
  {
    assert Scheduled(t, id) && RowAfter(t, u, plan, moved, id);
    assert MigrationOk(t, plan.name);
    if id !in moved && t.blobs[id].schemaVersion != Latest(t, t.blobs[id].schemaName) {
      var m :| Awaits(t, m, id);
      if m == plan.name {
        assert id in AtVersion(t, plan.source.name, plan.source.version) - moved;
        assert ids != [] ==> TextLess(ids[|ids| - 1], id);
      }
      assert Awaits(u, m, id);
    }
  }

  lemma BatchKeeps(t: Tables, plan: Plan, size: nat)
    requires Inv(t) && Initialized(t, plan) && Batch(t, plan, size).Success?
    ensures Keeps(t, Batch(t, plan, size).value.tables)
  {
    if t.migrations[plan.name].complete {
      ExtendsReflexive(t);
    } else {
      var ids := Selection(t, plan, t.migrations[plan.name].lastId, size);
      BatchMoves(t, plan, size);
      SelectionIsFirst(t, plan, size);
      MovesKeeps(t, Batch(t, plan, size).value.tables, plan, ids, Elements(ids));
    }
  }

  lemma MovesKeeps(t: Tables, u: Tables, plan: Plan, ids: seq<Id>, moved: set<Id>)
    requires Inv(t) && Initialized(t, plan) && Moves(t, u, plan, moved) && Counts(t, u, plan, ids, moved)
    requires forall x | x in ids :: x in moved
    requires forall x, y | x in ids && y in AtVersion(t, plan.source.name, plan.source.version) - moved :: TextLess(x, y)
    ensures Keeps(t, u)
  {
    BatchBlobs(t, u, plan, moved);
    BatchJobs(t, u, plan, ids, moved);
    forall id | id in u.blobs ensures Scheduled(u, id) {
      BatchSchedule(t, u, plan, ids, moved, id);
    }
    JournalFrame(t, u);
    LedgerFrame(t, u);
    SameSchemas(t, u);
    MovesEnrolment(t, u, plan, moved);
  }

  lemma MovesEnrolment(t: Tables, u: Tables, plan: Plan, moved: set<Id>)
    requires EnrolmentOk(t) && Moves(t, u, plan, moved)
    ensures EnrolmentOk(u)
  {
    forall id | id in u.blobs ensures id in t.blobs && u.blobs[id].schemaName == t.blobs[id].schemaName {
      assert RowAfter(t, u, plan, moved, id);
    }
    EnrolmentFrame(t, u);
  }

  lemma BatchStaysReady(t: Tables, plan: Plan, size: nat)
    requires Initialized(t, plan) && Batch(t, plan, size).Success?
    ensures Initialized(Batch(t, plan, size).value.tables, plan)
  {
  }

  /** A batch shrinks the backlog by its size, and completes exactly when nothing remains, with every row counted. */
  lemma BatchProgress(t: Tables, plan: Plan, size: nat)
    requires Inv(t) && Initialized(t, plan) && !t.migrations[plan.name].complete && size > 0
    requires Batch(t, plan, size).Success?
    ensures var before := |AtVersion(t, plan.source.name, plan.source.version)|;
      var c := Batch(t, plan, size).value;
      var after := |AtVersion(c.tables, plan.source.name, plan.source.version)|;
      && after == (if size < before then before - size else 0)
      && (c.value.complete <==> after == 0)
      && (c.value.complete ==> c.value.migrated == c.value.total == t.migrations[plan.name].total)
  {
    var u := Batch(t, plan, size).value.tables;
    var ids := Selection(t, plan, t.migrations[plan.name].lastId, size);
    BatchMoves(t, plan, size);
    SelectionIsFirst(t, plan, size);
    BatchBacklog(t, u, plan, Elements(ids));
    BatchJobs(t, u, plan, ids, Elements(ids));
    assert MigrationOk(u, plan.name);
  }

  /** How many successful batches a migration still needs at most: one per remaining row, and one to find that none is left. */
  function Left(t: Tables, plan: Plan): nat
    requires plan.name in t.migrations
  {
    var n := |AtVersion(t, plan.source.name, plan.source.version)|;
    if t.migrations[plan.name].complete then 0 else if n == 0 then 1 else n
  }

  lemma BatchLeft(t: Tables, plan: Plan, size: nat)
    requires Inv(t) && Initialized(t, plan) && !t.migrations[plan.name].complete && size > 0 && Batch(t, plan, size).Success?
    ensures var u := Batch(t, plan, size).value.tables;
      && plan.name in u.migrations && u.migrations[plan.name] == Batch(t, plan, size).value.value
      && Left(u, plan) < Left(t, plan)
  {
    BatchProgress(t, plan, size);
    BatchMoves(t, plan, size);
  }

  /** With every blob published and a total transform, no batch is refused. */
  lemma BatchSucceeds(t: Tables, plan: Plan, size: nat)
    requires Inv(t) && Initialized(t, plan) && size > 0 && !Unpublished(t, plan.source.name)
    requires forall values | Conforms(plan.source, values) :: Transformable(plan, values)
    ensures Batch(t, plan, size).Success?
  {
    if !t.migrations[plan.name].complete {
      SelectionIsFirst(t, plan, size);
      var ids := Selection(t, plan, t.migrations[plan.name].lastId, size);
      forall id | id in Elements(ids) ensures id in t.metadata && Transform(plan, t.metadata[id].values).Success? {
        assert BlobOk(t, id);
        TransformMeans(plan, t.metadata[id].values, t.metadata[id].values);
      }
    }
  }

  // ---------------------------------------------------------------- what a batch comes to, row by row

  lemma SelectionIsChosen(t: Tables, plan: Plan, size: nat)
    requires MigrationsOk(t) && Initialized(t, plan) && !t.migrations[plan.name].complete
    ensures Chosen(t, plan, size, Selection(t, plan, t.migrations[plan.name].lastId, size))
  {
    var ids := Selection(t, plan, t.migrations[plan.name].lastId, size);
    var source := AtVersion(t, plan.source.name, plan.source.version);
    SelectionIsFirst(t, plan, size);
    BacklogIsAll(t, plan);
    TextLessStrictTotal(source);
    FirstSelects(TextLess, source, size);
    forall id | SourceRow(t, plan, id) ensures id in source {}
    forall id | id in ids ensures id in Elements(ids) {}
    if |ids| < size {
      SubsetIsAll(Elements(ids), source);
    }
  }

  lemma SubsetIsAll<T>(a: set<T>, b: set<T>)
    requires a <= b && |a| == |b|
    ensures a == b
  {
    assert b == a + (b - a);
  }

  lemma MovesMean(t: Tables, u: Tables, plan: Plan, ids: seq<Id>)
    requires Transforms(t, plan, Elements(ids)) && t.metadata.Keys == t.blobs.Keys
    requires u.metadata == MoveMetadata(t, plan, Elements(ids)) && u.blobs == MoveBlobs(t, plan, Elements(ids))
    ensures RowsRewritten(t, u, plan, ids)
  {
    forall id | id in t.metadata && id in ids ensures Transformed(plan, t.metadata[id], u.metadata[id]) {
      MovedMeans(plan, t.metadata[id], u.metadata[id]);
    }
  }

  lemma NothingLeft(t: Tables, plan: Plan, ids: seq<Id>)
    ensures AtVersion(t, plan.source.name, plan.source.version) - Elements(ids) == {}
      <==> forall id | SourceRow(t, plan, id) :: id in ids
  {
    var source := AtVersion(t, plan.source.name, plan.source.version);
    forall id ensures SourceRow(t, plan, id) <==> id in source {}
    forall id ensures id in Elements(ids) <==> id in ids {}
    if source - Elements(ids) != {} {
      var id :| id in source - Elements(ids);
      assert SourceRow(t, plan, id) && id !in ids;
    } else {
      forall id | SourceRow(t, plan, id) ensures id in ids { assert id !in source - Elements(ids); }
    }
  }

  lemma TransformsMeans(t: Tables, plan: Plan, ids: seq<Id>)
    requires forall id | id in ids :: id in t.metadata
    ensures Transforms(t, plan, Elements(ids)) <==> forall id | id in ids && id in t.metadata :: Transformable(plan, t.metadata[id].values)
  {
    forall id | id in ids
      ensures Transform(plan, t.metadata[id].values).Success? <==> Transformable(plan, t.metadata[id].values)
    {
      MovedMeans(plan, t.metadata[id], t.metadata[id]);
    }
    forall id ensures id in Elements(ids) <==> id in ids {}
  }

  /** A batch that no unpublished blob stops. */
  lemma BatchAnswer(t: Tables, plan: Plan, size: nat, ids: seq<Id>)
    requires plan.name in t.migrations && !t.migrations[plan.name].complete && !Unpublished(t, plan.source.name)
    requires ids == Selection(t, plan, t.migrations[plan.name].lastId, size)
    requires ids == [] ==> AtVersion(t, plan.source.name, plan.source.version) == {}
    requires t.metadata.Keys == t.blobs.Keys
    ensures Batch(t, plan, size) == Failure(BadValue) || Batch(t, plan, size).Success?
    ensures Batch(t, plan, size).Success? <==> Transforms(t, plan, Elements(ids))
    ensures Batch(t, plan, size).Success? ==>
      var u := Batch(t, plan, size).value.tables;
      && RowsRewritten(t, u, plan, ids) && JobAdvanced(t, u, plan, ids)
      && u == t.(metadata := u.metadata, blobs := u.blobs, migrations := u.migrations)
      && Batch(t, plan, size).value.value == u.migrations[plan.name]
  {
    if Transforms(t, plan, Elements(ids)) {
      NothingLeft(t, plan, ids);
      MovesMean(t, Batch(t, plan, size).value.tables, plan, ids);
    }
  }

  /** The tables a batch commits and what it answers, in terms of the rows and the transform alone. */
  lemma BatchMeans(t: Tables, plan: Plan, size: nat)
    requires Inv(t) && Initialized(t, plan) && size > 0
    ensures var r := Batch(t, plan, size);
      if r.Success? then Batched(t, plan, size, r.value.tables, Success(r.value.value))
      else Batched(t, plan, size, t, Failure(r.error))
  {
    if !t.migrations[plan.name].complete && !Unpublished(t, plan.source.name) {
      var ids := Selection(t, plan, t.migrations[plan.name].lastId, size);
      SelectionIsFirst(t, plan, size);
      SelectionIsChosen(t, plan, size);
      forall id | id in ids ensures id in t.metadata { assert id in Elements(ids); }
      TransformsMeans(t, plan, ids);
      BatchAnswer(t, plan, size, ids);
    }
  }
}
