/** Metadata migration in place: initialization, batches row by row, and runs. */
module Migrators {
  import opened Wrappers
  import opened Errors
  import opened Ordering
  import opened Schemas
  import opened Tables
  import opened Lifecycle
  import opened LifecycleProofs
  import opened Migrations
  import opened MigrationProofs
  import opened Databases
  import Batching
  import Layout
  import Stores

  lemma VersionsDiffer(t: Tables, plan: Plan)
    requires SchemasOk(t) && ValidPlan(plan) && plan.source.name in t.schemas
    requires plan.source.version == Latest(t, plan.source.name)
    ensures Layout.DistinctVersions(t.schemas[plan.source.name] + [plan.target])
  {
    assert SchemaOk(t, plan.source.name);
  }

  /** The statements of _initialize after the checks: declare the target, rebuild the table, record the job. */
  method Declare(db: Database, plan: Plan) returns (job: Migration)
    requires ValidPlan(plan) && plan.source.name in db.schemas && |db.schemas[plan.source.name]| == plan.source.version
    requires plan.source.version >= 1 && plan.name !in db.migrations && !Running(db.T(), plan.source.name)
    requires forall m | m in db.migrations :: MigrationOk(db.T(), m)
    requires EnrolmentOk(db.T())
    modifies db
    ensures job == Migration(
      plan.source.name, plan.source.version, plan.target.version, plan.transformId, false,
      |AtVersion(old(db.T()), plan.source.name, plan.source.version)|, 0, None)
    ensures db.T() == old(db.T()).(
      schemas := old(db.schemas)[plan.source.name := old(db.schemas)[plan.source.name] + [plan.target]],
      payload := old(db.payload) + {(plan.source.name, plan.target.version)},
      migrations := old(db.migrations)[plan.name := job])
  {
    ghost var t := db.T();
    forall m | m in db.migrations && db.migrations[m].schemaName == plan.source.name
      ensures db.migrations[m].target != plan.target.version
    {
      assert MigrationOk(t, m);
    }
    assert Enrolled(t, plan.source.name, plan.target.version);
    var ok := db.InsertSchema(plan.target);
    assert ok;
    ok := db.InsertPayloadSchema(plan.source.name, plan.target.version);
    assert ok;
    job := Migration(
      plan.source.name, plan.source.version, plan.target.version, plan.transformId, false,
      |AtVersion(db.T(), plan.source.name, plan.source.version)|, 0, None);
    assert AtVersion(db.T(), plan.source.name, plan.source.version) == AtVersion(t, plan.source.name, plan.source.version);
    ok := db.InsertMigration(plan.name, job);
    assert ok;
  }

  /** _initialize, in its own transaction. */
  method Initialize(db: Database, plan: Plan) returns (r: Result<Migration, Error>)
    requires Inv(db.T()) && ValidPlan(plan) && plan.source.version >= 1
    modifies db
    ensures Stores.Agrees(Migrations.Initialize(old(db.T()), plan), db.T(), r)
    ensures r.Failure? ==> db.T() == old(db.T())
  {
    var saved := db.T();
    var installed := Stores.DeclareSchema(db, plan.source);
    if installed.Failure? {
      db.Rollback(saved);
      return Failure(installed.error);
    }
    InstallKeeps(saved, plan.source);
    InstalledAfter(saved, plan.source);
    PrepareKeeps(saved, plan);
    var adopted := Stores.AdoptSchema(db, plan.source);
    assert adopted.Success?;
    r := InitializeInstalled(db, plan);
    if r.Failure? { db.Rollback(saved); }
  }

  method InitializeInstalled(db: Database, plan: Plan) returns (r: Result<Migration, Error>)
    requires SchemasOk(db.T()) && EnrolmentOk(db.T()) && MigrationsOk(db.T()) && ValidPlan(plan) && plan.source.version >= 1
    requires Installed(db.T(), plan.source)
    modifies db
    ensures Stores.Agrees(Migrations.Continue(old(db.T()), plan), db.T(), r)
  {
    if plan.name in db.migrations {
      if !Identifies(plan, db.migrations[plan.name]) {
        return Failure(SchemaConflict);
      }
      if !Installed(db.T(), plan.target) {
        return Failure(UndeclaredSchema);
      }
      return Success(db.migrations[plan.name]);
    }
    if plan.source.version != Latest(db.T(), plan.source.name) {
      return Failure(ReadOnlySchema);
    }
    if Running(db.T(), plan.source.name) {
      return Failure(MigrationRunning);
    }
    if Unpublished(db.T(), plan.source.name) {
      return Failure(UnpublishedBlobs);
    }
    VersionsDiffer(db.T(), plan);
    var table := Layout.Build(db.schemas[plan.source.name] + [plan.target]);
    if table.Failure? {
      return Failure(SchemaConflict);
    }
    var job := Declare(db, plan);
    return Success(job);
  }

  // ---------------------------------------------------------------- batches

  /** One row: record the step, rewrite the row, advance the blob, drop the step. */
  method MoveRow(db: Database, plan: Plan, id: Id) returns (ok: bool)
    requires Initialized(db.T(), plan) && !db.migrations[plan.name].complete && db.steps == map[]
    requires id in db.blobs && id in db.metadata
    requires db.blobs[id].schemaName == plan.source.name && db.metadata[id].schemaVersion == plan.source.version
    modifies db
    ensures ok <==> Transformable(plan, old(db.metadata)[id].values)
    ensures ok ==> id in db.metadata && Transformed(plan, old(db.metadata)[id], db.metadata[id])
    ensures ok ==> Transform(plan, old(db.metadata)[id].values).Success? && db.T() == old(db.T()).(
      metadata := old(db.metadata)[id := Moved(plan, old(db.metadata)[id])],
      blobs := old(db.blobs)[id := old(db.blobs)[id].(schemaVersion := plan.target.version)])
  {
    var values := Transform(plan, db.metadata[id].values);
    TransformMeans(plan, db.metadata[id].values, if values.Success? then values.value else map[]);
    if values.Failure? {
      return false;
    }
    ok := db.InsertStep(id, MigrationStep(plan.name, db.metadata[id].version));
    assert ok;
    ok := db.MoveMetadata(id, plan.target, values.value);
    assert ok;
    ok := db.SetBlobVersion(id, plan.target.version);
    assert ok;
    db.DeleteStep(id);
    assert db.steps == map[];
  }

  lemma MovesNext(t: Tables, plan: Plan, ids: seq<Id>, i: nat)
    requires i < |ids| && Transforms(t, plan, Elements(ids[..i])) && ids[i] !in ids[..i]
    requires ids[i] in t.metadata && ids[i] in t.blobs
    ensures ids[i] in MoveMetadata(t, plan, Elements(ids[..i])) && ids[i] in MoveBlobs(t, plan, Elements(ids[..i]))
    ensures MoveMetadata(t, plan, Elements(ids[..i]))[ids[i]] == t.metadata[ids[i]]
    ensures MoveBlobs(t, plan, Elements(ids[..i]))[ids[i]] == t.blobs[ids[i]]
    ensures Transform(plan, t.metadata[ids[i]].values).Success? ==>
      && Transforms(t, plan, Elements(ids[..i + 1]))
      && MoveMetadata(t, plan, Elements(ids[..i + 1]))
           == MoveMetadata(t, plan, Elements(ids[..i]))[ids[i] := Moved(plan, t.metadata[ids[i]])]
      && MoveBlobs(t, plan, Elements(ids[..i + 1]))
           == MoveBlobs(t, plan, Elements(ids[..i]))[ids[i] := t.blobs[ids[i]].(schemaVersion := plan.target.version)]
  {
    assert ids[..i + 1] == ids[..i] + [ids[i]];
    assert Elements(ids[..i + 1]) == Elements(ids[..i]) + {ids[i]};
  }

  /** Every selected row, each through its one step. */
  method MoveRows(db: Database, plan: Plan, ids: seq<Id>) returns (ok: bool)
    requires Initialized(db.T(), plan) && !db.migrations[plan.name].complete && db.steps == map[]
    requires db.blobs.Keys == db.metadata.Keys && forall i, j | 0 <= i < j < |ids| :: ids[i] != ids[j]
    requires forall i | 0 <= i < |ids| ::
      ids[i] in db.blobs && ids[i] in db.metadata
      && db.blobs[ids[i]].schemaName == plan.source.name && db.metadata[ids[i]].schemaVersion == plan.source.version
    modifies db
    ensures ok <==> forall i | 0 <= i < |ids| :: Transformable(plan, old(db.metadata)[ids[i]].values)
    ensures ok ==> RowsRewritten(old(db.T()), db.T(), plan, ids)
    ensures ok <==> Transforms(old(db.T()), plan, Elements(ids))
    ensures ok ==> db.T() == old(db.T()).(
      metadata := MoveMetadata(old(db.T()), plan, Elements(ids)), blobs := MoveBlobs(old(db.T()), plan, Elements(ids)))
  {
    ghost var t := db.T();
    assert MoveMetadata(t, plan, Elements(ids[..0])) == t.metadata && MoveBlobs(t, plan, Elements(ids[..0])) == t.blobs;
    for i := 0 to |ids|
      invariant Transforms(t, plan, Elements(ids[..i]))
      invariant db.T() == t.(
        metadata := MoveMetadata(t, plan, Elements(ids[..i])), blobs := MoveBlobs(t, plan, Elements(ids[..i])))
    {
      MovesNext(t, plan, ids, i);
      ok := MoveRow(db, plan, ids[i]);
      if !ok {
        assert ids[i] in Elements(ids);
        MovedMeans(plan, t.metadata[ids[i]], t.metadata[ids[i]]);
        return;
      }
    }
    assert ids[..|ids|] == ids;
    ok := true;
    forall i | 0 <= i < |ids| ensures Transformable(plan, t.metadata[ids[i]].values) {
      assert ids[i] in Elements(ids);
      MovedMeans(plan, t.metadata[ids[i]], t.metadata[ids[i]]);
    }
    MovesMean(t, db.T(), plan, ids);
  }

  lemma SelectedRows(t: Tables, plan: Plan, size: nat)
    requires Inv(t) && Initialized(t, plan)
    ensures var ids := Selection(t, plan, t.migrations[plan.name].lastId, size);
      && (forall i, j | 0 <= i < j < |ids| :: ids[i] != ids[j])
      && (forall i | 0 <= i < |ids| ::
            ids[i] in t.blobs && ids[i] in t.metadata
            && t.blobs[ids[i]].schemaName == plan.source.name && t.metadata[ids[i]].schemaVersion == plan.source.version)
  {
    var ids := Selection(t, plan, t.migrations[plan.name].lastId, size);
    var rows := Backlog(t, plan, t.migrations[plan.name].lastId);
    TextLessStrictTotal(rows);
    FirstSelects(TextLess, rows, size);
    forall i, j | 0 <= i < j < |ids| ensures ids[i] != ids[j] {
      TextLessIrreflexive(ids[i]);
      assert TextLess(ids[i], ids[j]);
    }
    forall i | 0 <= i < |ids| ensures ids[i] in rows && BlobOk(t, ids[i]) {
      assert ids[i] in Elements(ids);
    }
  }

  /** The rows that a batch selects, and their rewriting. */
  method MoveSelected(db: Database, plan: Plan, size: nat) returns (ok: bool, ids: seq<Id>)
    requires Inv(db.T()) && Initialized(db.T(), plan) && !db.migrations[plan.name].complete
    modifies db
    ensures ids == Selection(old(db.T()), plan, old(db.migrations)[plan.name].lastId, size)
    ensures ok <==> Transforms(old(db.T()), plan, Elements(ids))
    ensures ok ==> db.T() == old(db.T()).(
      metadata := MoveMetadata(old(db.T()), plan, Elements(ids)), blobs := MoveBlobs(old(db.T()), plan, Elements(ids)))
  {
    ids := Selection(db.T(), plan, db.migrations[plan.name].lastId, size);
    SelectedRows(db.T(), plan, size);
    ok := MoveRows(db, plan, ids);
  }

  /** The statements of _batch. */
  method SendBatch(db: Database, plan: Plan, size: nat) returns (r: Result<Migration, Error>)
    requires Inv(db.T()) && Initialized(db.T(), plan)
    modifies db
    ensures Stores.Agrees(Migrations.Batch(old(db.T()), plan, size), db.T(), r)
  {
    ghost var t := db.T();
    var job := db.migrations[plan.name];
    if job.complete {
      return Success(job);
    }
    if Unpublished(db.T(), plan.source.name) {
      return Failure(UnpublishedBlobs);
    }
    var ok, ids := MoveSelected(db, plan, size);
    if !ok {
      return Failure(BadValue);
    }
    Batching.MovedRowsLeave(t, plan, Elements(ids), db.T());
    var remaining := AtVersion(db.T(), plan.source.name, plan.source.version);
    if remaining != {} && ids == [] {
      return Failure(BehindCheckpoint);
    }
    var last := if ids == [] then job.lastId else Some(ids[|ids| - 1]);
    db.UpdateMigration(plan.name, |ids|, last, remaining == {});
    return Success(db.migrations[plan.name]);
  }

  /** _batch, in its own transaction: the chosen rows are all rewritten by the transform, or nothing changes. */
  method Batch(db: Database, plan: Plan, size: nat) returns (r: Result<Migration, Error>)
    requires Inv(db.T()) && Initialized(db.T(), plan)
    modifies db
    ensures Stores.Agrees(Migrations.Batch(old(db.T()), plan, size), db.T(), r)
    ensures r.Failure? ==> db.T() == old(db.T())
    ensures size > 0 ==> Batched(old(db.T()), plan, size, db.T(), r)
  {
    var saved := db.T();
    r := SendBatch(db, plan, size);
    if r.Failure? { db.Rollback(saved); }
    if size > 0 { BatchMeans(saved, plan, size); }
  }

  // ---------------------------------------------------------------- runs

  /** The state between batches of an uninterrupted run: some first rows moved, complete only when all are. */
  ghost predicate Between(s: Tables, plan: Plan, t: Tables) {
    exists k: nat, complete: bool :: Batching.IsPartial(s, plan, Batching.SourceRows(s, plan), t, k, complete)
  }

  lemma BetweenBatches(s: Tables, plan: Plan, t: Tables, size: nat)
    requires Batching.JustInitialized(s, plan) && Between(s, plan, t)
    requires size > 0 && Migrations.Batch(t, plan, size).Success?
    ensures Between(s, plan, Migrations.Batch(t, plan, size).value.tables)
  {
    Batching.SourceRowsAreListed(s, plan);
    var k: nat, complete: bool :| Batching.IsPartial(s, plan, Batching.SourceRows(s, plan), t, k, complete);
    var next, c := Batching.TryStaysPartial(s, plan, Batching.SourceRows(s, plan), t, k, complete, Batching.Attempt(size, true));
  }

  lemma BetweenComplete(s: Tables, plan: Plan, t: Tables)
    requires Batching.JustInitialized(s, plan) && Between(s, plan, t)
    requires plan.name in t.migrations && t.migrations[plan.name].complete
    ensures var ids := Batching.SourceRows(s, plan);
      Transforms(s, plan, Elements(ids)) && t == Batching.OneShot(s, plan, ids)
  {
    var ids := Batching.SourceRows(s, plan);
    var k: nat, complete: bool :| Batching.IsPartial(s, plan, ids, t, k, complete);
    assert ids[..|ids|] == ids;
  }

  lemma StartsBetween(s: Tables, plan: Plan)
    requires Batching.JustInitialized(s, plan)
    ensures Between(s, plan, s)
  {
    Batching.StartIsPartial(s, plan, Batching.SourceRows(s, plan));
  }

  /** Nothing a batch checks can refuse: every blob is published and the transform is total on conforming rows. */
  ghost predicate Unhindered(t: Tables, plan: Plan) {
    && !Unpublished(t, plan.source.name)
    && forall values | Conforms(plan.source, values) :: Transformable(plan, values)
  }

  lemma StaysUnhindered(t: Tables, plan: Plan, size: nat)
    requires Inv(t) && Initialized(t, plan) && Unhindered(t, plan) && Migrations.Batch(t, plan, size).Success?
    ensures Unhindered(Migrations.Batch(t, plan, size).value.tables, plan)
  {
    if !t.migrations[plan.name].complete {
      var u := Migrations.Batch(t, plan, size).value.tables;
      var moved := Elements(Selection(t, plan, t.migrations[plan.name].lastId, size));
      BatchMoves(t, plan, size);
      forall id | id in u.blobs && u.blobs[id].schemaName == plan.source.name ensures u.blobs[id].state.Ready? {
        assert RowAfter(t, u, plan, moved, id);
      }
    }
  }

  /** What holds of the tables between the batches of a run that began at s. */
  ghost predicate Underway(s: Tables, t: Tables, plan: Plan) {
    && Inv(s) && Inv(t) && Initialized(t, plan) && Extends(s, t)
    && (Unhindered(s, plan) ==> Unhindered(t, plan))
    && (Batching.JustInitialized(s, plan) ==> Between(s, plan, t))
  }

  lemma BatchProceeds(s: Tables, t: Tables, plan: Plan, size: nat)
    requires Underway(s, t, plan) && size > 0 && !t.migrations[plan.name].complete
    requires Migrations.Batch(t, plan, size).Success?
    ensures Underway(s, Migrations.Batch(t, plan, size).value.tables, plan)
  {
    var u := Migrations.Batch(t, plan, size).value.tables;
    BatchKeeps(t, plan, size);
    BatchStaysReady(t, plan, size);
    ExtendsTransitive(s, t, u);
    if Unhindered(t, plan) { StaysUnhindered(t, plan, size); }
    if Batching.JustInitialized(s, plan) { BetweenBatches(s, plan, t, size); }
  }

  /** What a run comes to from a given state: the job when it is complete or the allowance used up, or the first refusal. */
  ghost function Finish(t: Tables, plan: Plan, size: nat, allowance: Option<nat>): Result<Committed<Migration>, Error>
    requires Inv(t) && Initialized(t, plan) && size > 0
    decreases Left(t, plan)
  {
    if t.migrations[plan.name].complete || allowance == Some(0) then Success(Committed(t, t.migrations[plan.name]))
    else
      var batch := Migrations.Batch(t, plan, size);
      if batch.Failure? then Failure(batch.error)
      else
        BatchKeeps(t, plan, size);
        BatchStaysReady(t, plan, size);
        BatchLeft(t, plan, size);
        Finish(batch.value.tables, plan, size, if allowance.None? then None else Some(allowance.value - 1))
  }

  ghost function RunResult(t: Tables, plan: Plan, size: nat, allowance: Option<nat>): Result<Committed<Migration>, Error>
    requires Inv(t) && ValidPlan(plan) && plan.source.version >= 1 && size > 0
  {
    var begun := Migrations.Initialize(t, plan);
    if begun.Failure? then Failure(begun.error)
    else
      InitializeKeeps(t, plan);
      InitializeReady(t, plan);
      Finish(begun.value.tables, plan, size, allowance)
  }

  lemma BatchGoesOn(t: Tables, plan: Plan, size: nat)
    requires Inv(t) && Initialized(t, plan) && size > 0 && !t.migrations[plan.name].complete
    requires Migrations.Batch(t, plan, size).Success?
    ensures var u := Migrations.Batch(t, plan, size).value.tables;
      Inv(u) && Initialized(u, plan) && Left(u, plan) < Left(t, plan)
  {
    BatchKeeps(t, plan, size);
    BatchStaysReady(t, plan, size);
    BatchLeft(t, plan, size);
  }

  lemma FinishStep(t: Tables, u: Tables, plan: Plan, size: nat, allowance: Option<nat>)
    requires Inv(t) && Initialized(t, plan) && size > 0 && !t.migrations[plan.name].complete && allowance != Some(0)
    requires Migrations.Batch(t, plan, size).Success? && Migrations.Batch(t, plan, size).value.tables == u
    requires Inv(u) && Initialized(u, plan)
    ensures Finish(t, plan, size, allowance)
      == Finish(u, plan, size, if allowance.None? then None else Some(allowance.value - 1))
  {
  }

  lemma FinishEnds(t: Tables, plan: Plan, size: nat, allowance: Option<nat>)
    requires Inv(t) && Initialized(t, plan) && size > 0 && (t.migrations[plan.name].complete || allowance == Some(0))
    ensures Finish(t, plan, size, allowance) == Success(Committed(t, t.migrations[plan.name]))
  {
  }

  lemma FinishStops(t: Tables, plan: Plan, size: nat, allowance: Option<nat>)
    requires Inv(t) && Initialized(t, plan) && size > 0 && !t.migrations[plan.name].complete && allowance != Some(0)
    requires Migrations.Batch(t, plan, size).Failure?
    ensures Finish(t, plan, size, allowance) == Failure(Migrations.Batch(t, plan, size).error)
  {
  }

  /** One successful batch of a job that was not complete. */
  ghost predicate Advances(t: Tables, u: Tables, plan: Plan, size: nat) {
    && plan.name in t.migrations && !t.migrations[plan.name].complete
    && Migrations.Batch(t, plan, size).Success? && Migrations.Batch(t, plan, size).value.tables == u
  }

  /** The tables before the first batch of a run and after each. */
  ghost predicate Trace(trace: seq<Tables>, plan: Plan, size: nat) {
    trace != [] && forall i | 0 <= i < |trace| - 1 :: Advances(trace[i], trace[i + 1], plan, size)
  }

  lemma TraceGrows(trace: seq<Tables>, u: Tables, plan: Plan, size: nat)
    requires Trace(trace, plan, size) && Advances(trace[|trace| - 1], u, plan, size)
    ensures Trace(trace + [u], plan, size)
  {
    forall i | 0 <= i < |trace| ensures Advances((trace + [u])[i], (trace + [u])[i + 1], plan, size) {
      assert i < |trace| - 1 ==> Advances(trace[i], trace[i + 1], plan, size);
    }
  }

  /** Why a run stopped where it did: complete, as many batches as allowed, or refused. */
  ghost predicate Stops(t: Tables, plan: Plan, size: nat, batches: nat, allowance: Option<nat>, r: Result<Migration, Error>) {
    && plan.name in t.migrations
    && if r.Success? then r.value == t.migrations[plan.name] && (r.value.complete || allowance == Some(batches))
       else !t.migrations[plan.name].complete && allowance != Some(batches) && Migrations.Batch(t, plan, size) == Failure(r.error)
  }

  lemma {:induction false} TraceFinishes(
    trace: seq<Tables>, plan: Plan, size: nat, allowance: Option<nat>, r: Result<Migration, Error>)
    requires Trace(trace, plan, size) && size > 0 && Inv(trace[0]) && Initialized(trace[0], plan)
    requires allowance.Some? ==> |trace| - 1 <= allowance.value
    requires Stops(trace[|trace| - 1], plan, size, |trace| - 1, allowance, r)
    ensures Stores.Agrees(Finish(trace[0], plan, size, allowance), trace[|trace| - 1], r)
    decreases |trace|
  {
    if |trace| == 1 {
      if r.Success? { FinishEnds(trace[0], plan, size, allowance); } else { FinishStops(trace[0], plan, size, allowance); }
    } else {
      assert Advances(trace[0], trace[1], plan, size);
      BatchGoesOn(trace[0], plan, size);
      FinishStep(trace[0], trace[1], plan, size, allowance);
      forall i | 0 <= i < |trace[1..]| - 1 ensures Advances(trace[1..][i], trace[1..][i + 1], plan, size) {
        assert Advances(trace[i + 1], trace[i + 2], plan, size);
      }
      TraceFinishes(trace[1..], plan, size, if allowance.None? then None else Some(allowance.value - 1), r);
    }
  }

  /** One round of the loop. */
  method RunBatch(db: Database, plan: Plan, size: nat, ghost s: Tables) returns (r: Result<Migration, Error>)
    requires Underway(s, db.T(), plan) && 1 <= size && !db.migrations[plan.name].complete
    modifies db
    ensures Underway(s, db.T(), plan)
    ensures r.Success? ==>
      && r.value == db.migrations[plan.name] && Left(db.T(), plan) < Left(old(db.T()), plan)
      && Advances(old(db.T()), db.T(), plan, size)
    ensures r.Failure? ==> db.T() == old(db.T()) && Migrations.Batch(db.T(), plan, size) == Failure(r.error)
  {
    ghost var t := db.T();
    r := Batch(db, plan, size);
    if r.Success? {
      BatchProceeds(s, t, plan, size);
      BatchGoesOn(t, plan, size);
    }
  }

  /** The loop of run: batches until the job is complete, a batch is refused, or the allowance is used up. */
  method RunBatches(db: Database, plan: Plan, size: nat, allowance: Option<nat>, ghost s: Tables)
    returns (r: Result<Migration, Error>, ghost trace: seq<Tables>)
    requires Underway(s, db.T(), plan) && 1 <= size
    modifies db
    ensures Underway(s, db.T(), plan)
    ensures Trace(trace, plan, size) && trace[0] == old(db.T()) && trace[|trace| - 1] == db.T()
    ensures allowance.Some? ==> |trace| - 1 <= allowance.value
    ensures Stops(db.T(), plan, size, |trace| - 1, allowance, r)
  {
    var job := db.migrations[plan.name];
    var batches := 0;
    trace := [db.T()];
    while !job.complete && (allowance.None? || batches < allowance.value)
      invariant Underway(s, db.T(), plan) && job == db.migrations[plan.name]
      invariant |trace| == batches + 1 && trace[0] == old(db.T()) && trace[batches] == db.T() && Trace(trace, plan, size)
      invariant allowance.Some? ==> batches <= allowance.value
      decreases Left(db.T(), plan)
    {
      r := RunBatch(db, plan, size, s);
      if r.Failure? {
        return;
      }
      job, batches := r.value, batches + 1;
      TraceGrows(trace, db.T(), plan, size);
      trace := trace + [db.T()];
    }
    r := Success(job);
  }

  /**
   * run: initialize, then batches in transactions of their own. With no allowance a successful run is complete, and when
   * this run declared the target itself, the catalog is the one-shot migration of it.
   */
  method Run(db: Database, plan: Plan, size: int, allowance: Option<nat>) returns (r: Result<Migration, Error>)
    requires Inv(db.T()) && ValidPlan(plan) && plan.source.version >= 1
    modifies db
    ensures Inv(db.T()) && Extends(old(db.T()), db.T())
    ensures !(1 <= size <= 1000) ==> r == Failure(BadArgument) && db.T() == old(db.T())
    ensures r.Success? ==> Migrations.Initialize(old(db.T()), plan).Success?
    ensures r.Success? && allowance.None? ==> r.value.complete && r.value.migrated == r.value.total
    ensures r.Success? && allowance.None? && plan.name !in old(db.migrations) ==>
      var s := Migrations.Initialize(old(db.T()), plan).value.tables;
      && plan.name in s.migrations && Transforms(s, plan, Elements(Batching.SourceRows(s, plan)))
      && db.T() == Batching.OneShot(s, plan, Batching.SourceRows(s, plan))
    ensures r.Success? && allowance.None? && plan.name !in old(db.migrations) ==>
      Batching.AllRewritten(old(db.T()), db.T(), plan)
    ensures 1 <= size <= 1000 && Startable(old(db.T()), plan) ==> r.Success?
    ensures 1 <= size <= 1000 ==> Stores.Agrees(RunResult(old(db.T()), plan, size, allowance), db.T(), r)
  {
    ghost var start := db.T();
    ExtendsReflexive(start);
    if !(1 <= size <= 1000) {
      return Failure(BadArgument);
    }
    r := Initialize(db, plan);
    if r.Failure? {
      return;
    }
    ghost var s := db.T();
    RunBegins(start, s, plan);
    ghost var trace;
    r, trace := RunBatches(db, plan, size, allowance, s);
    TraceFinishes(trace, plan, size, allowance, r);
    ExtendsTransitive(start, s, db.T());
    RunEnds(start, s, db.T(), plan);
    if Unhindered(s, plan) && r.Failure? { BatchSucceeds(db.T(), plan, size); }
  }

  lemma RunBegins(start: Tables, s: Tables, plan: Plan)
    requires Inv(start) && ValidPlan(plan) && plan.source.version >= 1
    requires Migrations.Initialize(start, plan).Success? && Migrations.Initialize(start, plan).value.tables == s
    ensures Extends(start, s) && Underway(s, s, plan)
  {
    InitializeKeeps(start, plan);
    InitializeReady(start, plan);
    ExtendsReflexive(s);
    if Batching.JustInitialized(s, plan) { StartsBetween(s, plan); }
  }

  lemma RunEnds(start: Tables, s: Tables, t: Tables, plan: Plan)
    requires Inv(start) && ValidPlan(plan) && plan.source.version >= 1 && Underway(s, t, plan)
    requires Migrations.Initialize(start, plan).Success? && Migrations.Initialize(start, plan).value.tables == s
    ensures t.migrations[plan.name].complete ==> t.migrations[plan.name].migrated == t.migrations[plan.name].total
    ensures t.migrations[plan.name].complete && plan.name !in start.migrations ==>
      && plan.name in s.migrations && Transforms(s, plan, Elements(Batching.SourceRows(s, plan)))
      && t == Batching.OneShot(s, plan, Batching.SourceRows(s, plan))
      && Batching.AllRewritten(start, t, plan)
  {
    assert MigrationOk(t, plan.name);
    if plan.name !in start.migrations && t.migrations[plan.name].complete {
      FreshJob(start, plan);
      InitializeTables(start, plan);
      BetweenComplete(s, plan, t);
      Batching.SourceRowsAreListed(s, plan);
      Batching.OneShotRewrites(s, plan, Batching.SourceRows(s, plan));
    }
  }

  ghost predicate Startable(t: Tables, plan: Plan)
    requires ValidPlan(plan)
  {
    && Migrations.Initialize(t, plan).Success?
    && Unhindered(Migrations.Initialize(t, plan).value.tables, plan)
  }

  lemma FreshJob(t: Tables, plan: Plan)
    requires ValidPlan(plan) && plan.source.version >= 1 && Migrations.Initialize(t, plan).Success? && plan.name !in t.migrations
    ensures Batching.JustInitialized(Migrations.Initialize(t, plan).value.tables, plan)
  {
    var d := Install(t, plan.source).value.tables;
    InitializeReady(t, plan);
    InstallTables(t, plan.source);
    AdoptFrame(d, plan.source);
    FreshContinue(Adopt(d, plan.source).value, plan);
    PreparedTables(t, d, Adopt(d, plan.source).value, plan);
  }

  lemma FreshContinue(s: Tables, plan: Plan)
    requires ValidPlan(plan) && Installed(s, plan.source) && Continue(s, plan).Success? && plan.name !in s.migrations
    ensures var job := Continue(s, plan).value.value;
      && job.migrated == 0 && job.lastId == None && !job.complete
      && plan.name in Continue(s, plan).value.tables.migrations && Continue(s, plan).value.tables.migrations[plan.name] == job
  {
  }

  /** A dry run does the whole migration in one transaction and rolls it back; it reports what a real run would commit. */
  method DryRun(db: Database, plan: Plan, size: int) returns (r: Result<Migration, Error>)
    requires Inv(db.T()) && ValidPlan(plan) && plan.source.version >= 1
    modifies db
    ensures db.T() == old(db.T())
    ensures r.Success? ==> r.value.complete && r.value.migrated == r.value.total
    ensures 1 <= size <= 1000 ==>
      var expected := RunResult(old(db.T()), plan, size, None);
      if r.Success? then expected.Success? && expected.value.value == r.value else expected == Failure(r.error)
  {
    var saved := db.T();
    r := Run(db, plan, size, None);
    db.Rollback(saved);
  }
}
