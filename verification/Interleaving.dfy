/** A migration with other writers between its batches: each source row is frozen until its one transformation. */
module Interleaving {
  import opened Wrappers
  import opened Errors
  import opened Ordering
  import opened Schemas
  import opened Tables
  import opened Lifecycle
  import opened LifecycleProofs
  import opened Migrations
  import opened MigrationProofs
  import opened Operations

  // ---------------------------------------------------------------- what one call does to one row

  ghost predicate RowKept(t: Tables, u: Tables, id: Id)
    requires id in t.blobs && id in t.metadata
  {
    && id in u.blobs && id in u.metadata && u.metadata[id] == t.metadata[id]
    && u.blobs[id].schemaName == t.blobs[id].schemaName && u.blobs[id].schemaVersion == t.blobs[id].schemaVersion
  }

  /** An edit raises the concurrency version by one, and only at the newest schema version. */
  ghost predicate RowEdited(t: Tables, u: Tables, id: Id)
    requires id in t.blobs && id in t.metadata
  {
    && id in u.blobs && id in u.metadata && u.blobs[id] == t.blobs[id]
    && t.blobs[id].schemaVersion == Latest(t, t.blobs[id].schemaName)
    && u.metadata[id].schemaVersion == t.metadata[id].schemaVersion
    && u.metadata[id].version == t.metadata[id].version + 1
  }

  ghost predicate RowRetired(t: Tables, u: Tables, id: Id)
    requires id in t.blobs
  {
    id in u.retired && !Running(t, t.blobs[id].schemaName)
  }

  ghost predicate RowMoved(t: Tables, u: Tables, plan: Plan, id: Id)
    requires id in t.blobs && id in t.metadata
  {
    && Initialized(t, plan) && !t.migrations[plan.name].complete
    && t.blobs[id].schemaName == plan.source.name && t.blobs[id].schemaVersion == plan.source.version
    && id in u.blobs && id in u.metadata && u.blobs[id].schemaName == plan.source.name
    && u.blobs[id].schemaVersion == plan.target.version
    && Transformed(plan, t.metadata[id], u.metadata[id])
  }

  /** Every row a call leaves behind is kept, edited, retired or transformed; only the named calls do the last three. */
  ghost predicate RowStep(t: Tables, op: Op, u: Tables, id: Id)
    requires id in t.blobs && id in t.metadata
  {
    || RowKept(t, u, id)
    || (op.DoUpdate? && op.id == id && RowEdited(t, u, id))
    || (op.DoDelete? && op.id == id && RowRetired(t, u, id))
    || (op.DoBatch? && RowMoved(t, u, op.plan, id))
  }

  lemma ApplyRow(t: Tables, op: Op, id: Id)
    requires Inv(t) && Apply(t, op).Some? && id in t.blobs && id in t.metadata
    ensures RowStep(t, op, Apply(t, op).value, id)
  {
    match op {
      case DoUpdate(other, schema, changes, expected) => UpdateRow(t, other, schema, changes, expected, id);
      case DoDelete(root, other, expected) => DeleteRow(t, root, other, expected, id);
      case DoBatch(plan, size) => BatchRow(t, plan, size, id);
      case DoImport(root, file, schema, metadata, other) => ImportRow(t, root, file, schema, metadata, other, id);
      case DoFinalize(root, file, schema, metadata, other) => FinalizeRow(t, root, file, schema, metadata, other, id);
      case DoPublish(root, other) => PublishRow(t, root, other, id);
      case _ => ApplyFrame(t, op);
    }
  }

  lemma UpdateRow(t: Tables, other: Id, schema: BlobSchema, changes: PyMapping, expected: int, id: Id)
    requires Inv(t) && UpdateMetadata(t, other, schema, changes, expected).Success? && id in t.blobs && id in t.metadata
    ensures var u := UpdateMetadata(t, other, schema, changes, expected).value.tables;
      if id == other then RowEdited(t, u, id) else RowKept(t, u, id)
  {
  }

  lemma PublishRow(t: Tables, root: string, other: Id, id: Id)
    requires Publish(t, root, other).Success? && id in t.blobs && id in t.metadata
    ensures RowKept(t, Publish(t, root, other).value.tables, id)
  {
  }

  lemma FinalizeRow(t: Tables, root: string, p: PreparedFile, schema: BlobSchema, metadata: PyMapping, other: Id, id: Id)
    requires Finalize(t, root, p, schema, metadata, other).Success? && id in t.blobs && id in t.metadata
    ensures RowKept(t, Finalize(t, root, p, schema, metadata, other).value.tables, id)
  {
  }

  lemma DeleteRow(t: Tables, root: string, other: Id, expected: int, id: Id)
    requires Inv(t) && Delete(t, root, other, expected).Success? && id in t.blobs && id in t.metadata
    ensures RowStep(t, DoDelete(root, other, expected), Delete(t, root, other, expected).value.tables, id)
  {
    var u := Delete(t, root, other, expected).value.tables;
    if other == id {
      assert id in t.retired ==> RetirementOk(t, id);
    } else {
      assert RowKept(t, u, id);
    }
  }

  lemma ImportRow(t: Tables, root: string, p: PreparedFile, schema: BlobSchema, metadata: PyMapping, other: Id, id: Id)
    requires Import(t, root, p, schema, metadata, other).Success? && id in t.blobs && id in t.metadata
    ensures RowKept(t, Import(t, root, p, schema, metadata, other).value.tables, id)
  {
    var values := NormalizeMetadata(schema, metadata).value;
    var existing := Retry(t, root, other, schema, values, p.size, p.digest, p.encoding);
    if existing.value.None? {
      FinalizeRow(t, root, p, schema, metadata, other, id);
      PublishRow(Finalize(t, root, p, schema, metadata, other).value.tables, root, other, id);
    }
  }

  lemma BatchRow(t: Tables, plan: Plan, size: nat, id: Id)
    requires Inv(t) && Initialized(t, plan) && Batch(t, plan, size).Success? && id in t.blobs && id in t.metadata
    ensures var u := Batch(t, plan, size).value.tables;
      RowKept(t, u, id) || RowMoved(t, u, plan, id)
  {
    if !t.migrations[plan.name].complete {
      var u := Batch(t, plan, size).value.tables;
      var moved := Elements(Selection(t, plan, t.migrations[plan.name].lastId, size));
      BatchMoves(t, plan, size);
      assert RowAfter(t, u, plan, moved, id);
      MovedMeans(plan, t.metadata[id], u.metadata[id]);
    }
  }

  // ---------------------------------------------------------------- jobs

  ghost predicate JobAdvances(t: Tables, u: Tables, m: string)
    requires m in t.migrations
  {
    && m in u.migrations
    && var a, b := t.migrations[m], u.migrations[m];
    && a.schemaName == b.schemaName && a.source == b.source && a.target == b.target && a.transformId == b.transformId
    && a.total == b.total && a.migrated <= b.migrated && (a.complete ==> b == a)
  }

  /** Migration records are never dropped or repurposed, and a completed one never changes. */
  ghost predicate JobsAdvance(t: Tables, u: Tables) {
    forall m {:trigger JobAdvances(t, u, m)} | m in t.migrations :: JobAdvances(t, u, m)
  }

  lemma ApplyJobs(t: Tables, op: Op)
    requires Inv(t) && Apply(t, op).Some?
    ensures JobsAdvance(t, Apply(t, op).value)
  {
    match op {
      case DoInitialize(plan) => InitializeTables(t, plan);
      case DoBatch(plan, size) => BatchJobsAdvance(t, plan, size);
      case _ => ApplyFrame(t, op);
    }
  }

  lemma BatchJobsAdvance(t: Tables, plan: Plan, size: nat)
    requires Inv(t) && Initialized(t, plan) && Batch(t, plan, size).Success?
    ensures JobsAdvance(t, Batch(t, plan, size).value.tables)
  {
    var u := Batch(t, plan, size).value.tables;
    if !t.migrations[plan.name].complete {
      BatchMoves(t, plan, size);
      forall m | m in t.migrations ensures JobAdvances(t, u, m) {
      }
    }
  }

  /** Once a plan is initialized every later batch of it still finds its job and both declarations. */
  lemma InitializedStays(t: Tables, u: Tables, plan: Plan)
    requires Initialized(t, plan) && KeepsRecords(t, u) && JobsAdvance(t, u)
    ensures Initialized(u, plan)
  {
    assert KeptSchema(t, u, plan.source.name);
    assert JobAdvances(t, u, plan.name);
  }

  /** A completed migration leaves no source row, and none appears again. */
  lemma CompleteMeansNone(t: Tables, plan: Plan)
    requires MigrationsOk(t) && Initialized(t, plan) && t.migrations[plan.name].complete
    ensures AtVersion(t, plan.source.name, plan.source.version) == {}
  {
    forall id | id in AtVersion(t, plan.source.name, plan.source.version) ensures false {
      SourceRowAwaits(t, plan, id);
    }
  }

  // ---------------------------------------------------------------- one transformation per row

  /** A source row as initialization left it. */
  ghost predicate Waits(s: Tables, t: Tables, plan: Plan, id: Id)
    requires id in s.metadata
  {
    && id in t.blobs && id in t.metadata && t.metadata[id] == s.metadata[id]
    && t.blobs[id].schemaName == plan.source.name && t.blobs[id].schemaVersion == plan.source.version
  }

  ghost predicate MovesRow(t: Tables, u: Tables, plan: Plan, id: Id) {
    id in t.blobs && id in t.metadata && RowMoved(t, u, plan, id)
  }

  /** A row the migration can no longer select. */
  ghost predicate Past(t: Tables, plan: Plan, id: Id) {
    id in t.retired || (id in t.blobs && t.blobs[id].schemaVersion >= plan.target.version)
  }

  /** Calls that name this migration carry this plan: transform_id identifies the transformation. */
  ghost predicate Honest(op: Op, plan: Plan) {
    op.DoBatch? && op.plan.name == plan.name ==> op.plan == plan
  }

  /**
   * The i-th call of a history is a batch of this plan and transforms the row as it was at s; no call before it touched
   * the row, and no call after it moves the row under this plan again.
   */
  ghost predicate TransformedAt(s: Tables, t: Tables, ops: seq<Op>, i: nat, plan: Plan, id: Id)
    requires id in s.metadata && Perform(t, ops).Some?
  {
    && i < |ops| && ops[i].DoBatch? && ops[i].plan == plan
    && (forall j {:trigger StateAt(t, ops, j)} | 0 <= j <= i :: Waits(s, StateAt(t, ops, j), plan, id))
    && MovesRow(StateAt(t, ops, i), StateAt(t, ops, i + 1), plan, id)
    && (forall j {:trigger StateAt(t, ops, j)} | i < j < |ops| ::
          !MovesRow(StateAt(t, ops, j), StateAt(t, ops, j + 1), plan, id))
  }

  /** A batch that moves a source row of a running migration belongs to that migration. */
  lemma OneMover(t: Tables, plan: Plan, other: Plan)
    requires MigrationsOk(t) && Initialized(t, plan) && Initialized(t, other)
    requires other.source.name == plan.source.name && other.source.version == plan.source.version
    ensures other.name == plan.name
  {
    assert SameTarget(t, other.name, plan.name);
  }

  lemma SourceRowsAreOld(t: Tables, plan: Plan)
    requires Initialized(t, plan)
    ensures plan.source.version < Latest(t, plan.source.name)
  {
  }

  /** The first thing that changes a waiting row is its transformation. */
  lemma FirstChange(s: Tables, t: Tables, u: Tables, op: Op, plan: Plan, id: Id)
    requires MigrationsOk(t) && Initialized(t, plan) && id in s.metadata && Waits(s, t, plan, id) && Honest(op, plan)
    requires RowStep(t, op, u, id) && !Waits(s, u, plan, id)
    ensures op.DoBatch? && op.plan == plan && MovesRow(t, u, plan, id)
  {
    SourceRowsAreOld(t, plan);
    SourceRowAwaits(t, plan, id);
    if op.DoBatch? && RowMoved(t, u, op.plan, id) { OneMover(t, plan, op.plan); }
  }

  lemma PastStays(t: Tables, u: Tables, op: Op, plan: Plan, id: Id)
    requires RetiredOk(t) && ValidPlan(plan) && Past(t, plan, id) && KeepsRecords(t, u)
    requires id in t.blobs && id in t.metadata ==> RowStep(t, op, u, id)
    requires t.metadata.Keys == t.blobs.Keys
    ensures Past(u, plan, id) && !MovesRow(t, u, plan, id)
  {
    if id in t.retired { assert RetirementOk(t, id) && KeptRetirement(t, u, id); }
  }

  lemma PastStep(t: Tables, op: Op, plan: Plan, id: Id)
    requires Inv(t) && ValidPlan(plan) && Past(t, plan, id) && Apply(t, op).Some?
    ensures var u := Apply(t, op).value;
      Inv(u) && Past(u, plan, id) && !MovesRow(t, u, plan, id)
  {
    ApplyKeeps(t, op);
    if id in t.blobs && id in t.metadata { ApplyRow(t, op, id); }
    PastStays(t, Apply(t, op).value, op, plan, id);
  }

  /** One call leaves a waiting row waiting, or transforms it. */
  lemma WaitingStep(s: Tables, t: Tables, op: Op, plan: Plan, id: Id)
    requires Inv(t) && Initialized(t, plan) && id in s.metadata && Waits(s, t, plan, id)
    requires Apply(t, op).Some? && Honest(op, plan)
    ensures var u := Apply(t, op).value;
      && Inv(u) && Initialized(u, plan)
      && (Waits(s, u, plan, id) || (op.DoBatch? && op.plan == plan && MovesRow(t, u, plan, id) && Past(u, plan, id)))
  {
    var u := Apply(t, op).value;
    ApplyKeeps(t, op);
    ApplyJobs(t, op);
    ApplyRow(t, op, id);
    InitializedStays(t, u, plan);
    if !Waits(s, u, plan, id) { FirstChange(s, t, u, op, plan, id); }
  }

  /** A row that waits at first and no longer at the end was transformed at exactly one call between. */
  lemma {:induction false} FindMove(s: Tables, t: Tables, ops: seq<Op>, plan: Plan, id: Id) returns (i: nat)
    requires Inv(t) && Initialized(t, plan) && id in s.metadata && Waits(s, t, plan, id)
    requires Perform(t, ops).Some? && forall op | op in ops :: Honest(op, plan)
    requires !Waits(s, Perform(t, ops).value, plan, id)
    ensures TransformedAt(s, t, ops, i, plan, id)
    decreases |ops|
  {
    var u := Apply(t, ops[0]).value;
    WaitingStep(s, t, ops[0], plan, id);
    if Waits(s, u, plan, id) {
      var k := FindMove(s, u, ops[1..], plan, id);
      i := k + 1;
      MoveShifts(s, t, u, ops, k, plan, id);
    } else {
      i := 0;
      PastIsUnmoved(u, ops[1..], plan, id);
      MoveFirst(s, t, u, ops, plan, id);
    }
  }

  /** No call of a history moves the row. */
  ghost predicate Unmoved(t: Tables, ops: seq<Op>, plan: Plan, id: Id)
    requires Perform(t, ops).Some?
  {
    forall j {:trigger StateAt(t, ops, j)} | 0 <= j < |ops| :: !MovesRow(StateAt(t, ops, j), StateAt(t, ops, j + 1), plan, id)
  }

  lemma {:induction false} PastIsUnmoved(t: Tables, ops: seq<Op>, plan: Plan, id: Id)
    requires Inv(t) && ValidPlan(plan) && Past(t, plan, id) && Perform(t, ops).Some?
    ensures Unmoved(t, ops, plan, id)
    decreases |ops|
  {
    if |ops| > 0 {
      var u := Apply(t, ops[0]).value;
      PastStep(t, ops[0], plan, id);
      PastIsUnmoved(u, ops[1..], plan, id);
      UnmovedShifts(t, u, ops, plan, id);
    }
  }

  lemma UnmovedShifts(t: Tables, u: Tables, ops: seq<Op>, plan: Plan, id: Id)
    requires |ops| > 0 && Perform(t, ops).Some? && Apply(t, ops[0]) == Some(u)
    requires !MovesRow(t, u, plan, id) && Unmoved(u, ops[1..], plan, id)
    ensures Unmoved(t, ops, plan, id)
  {
    forall j | 0 < j <= |ops| ensures StateAt(t, ops, j) == StateAt(u, ops[1..], j - 1) {}
    assert StateAt(u, ops[1..], 0) == u;
  }

  lemma MoveFirst(s: Tables, t: Tables, u: Tables, ops: seq<Op>, plan: Plan, id: Id)
    requires id in s.metadata && Waits(s, t, plan, id) && |ops| > 0 && Perform(t, ops).Some?
    requires ops[0].DoBatch? && ops[0].plan == plan && Apply(t, ops[0]) == Some(u)
    requires MovesRow(t, u, plan, id) && Unmoved(u, ops[1..], plan, id)
    ensures TransformedAt(s, t, ops, 0, plan, id)
  {
    forall j | 0 < j <= |ops| ensures StateAt(t, ops, j) == StateAt(u, ops[1..], j - 1) {}
  }

  lemma MoveShifts(s: Tables, t: Tables, u: Tables, ops: seq<Op>, k: nat, plan: Plan, id: Id)
    requires id in s.metadata && |ops| > 0 && Perform(t, ops).Some? && Waits(s, t, plan, id)
    requires Apply(t, ops[0]) == Some(u) && TransformedAt(s, u, ops[1..], k, plan, id)
    ensures TransformedAt(s, t, ops, k + 1, plan, id)
  {
    forall j | 0 < j <= |ops| ensures StateAt(t, ops, j) == StateAt(u, ops[1..], j - 1) {}
  }

  ghost predicate HonestHistory(txs: seq<Transaction>, plan: Plan) {
    forall tx, op | tx in txs && op in tx.ops :: Honest(op, plan)
  }

  /**
   * Whatever other transactions run between its batches, when the migration is complete each row that was at the source
   * version at initialization was transformed at exactly one call of the history, before anything else changed it; what
   * that call left is what the plan's transform makes of the row; and every row is counted.
   */
  lemma CompleteMigration(s: Tables, txs: seq<Transaction>, plan: Plan, id: Id) returns (i: nat)
    requires Inv(s) && Initialized(s, plan) && id in AtVersion(s, plan.source.name, plan.source.version)
    requires HonestHistory(txs, plan)
    requires var t := Replay(s, txs); plan.name in t.migrations && t.migrations[plan.name].complete
    ensures id in s.metadata && Perform(s, Applied(s, txs)) == Some(Replay(s, txs))
    ensures TransformedAt(s, s, Applied(s, txs), i, plan, id)
    ensures var next := StateAt(s, Applied(s, txs), i + 1);
      && Apply(StateAt(s, Applied(s, txs), i), Applied(s, txs)[i]) == Some(next)
      && id in next.metadata && Transformed(plan, s.metadata[id], next.metadata[id])
    ensures var t := Replay(s, txs);
      && AtVersion(t, plan.source.name, plan.source.version) == {}
      && t.migrations[plan.name].migrated == t.migrations[plan.name].total == s.migrations[plan.name].total
  {
    var t := Replay(s, txs);
    assert BlobOk(s, id);
    AppliedIsReplay(s, txs);
    forall op | op in Applied(s, txs) ensures Honest(op, plan) { AppliedIsFrom(s, txs, op); }
    ReplayKeeps(s, txs);
    PerformJobs(s, Applied(s, txs));
    InitializedStays(s, t, plan);
    CompleteMeansNone(t, plan);
    assert id !in AtVersion(t, plan.source.name, plan.source.version);
    i := FindMove(s, s, Applied(s, txs), plan, id);
    StateFollows(s, Applied(s, txs), i);
    assert Waits(s, StateAt(s, Applied(s, txs), i), plan, id);
    assert JobAdvances(s, t, plan.name) && MigrationOk(t, plan.name);
  }

  // ---------------------------------------------------------------- progress with other writers

  /** A new blob is at the newest version. */
  lemma NewIsLatest(t: Tables, op: Op, id: Id)
    requires Inv(t) && Apply(t, op).Some? && id in Apply(t, op).value.blobs && id !in t.blobs
    ensures var b := Apply(t, op).value.blobs[id];
      b.schemaVersion == Latest(t, b.schemaName)
  {
    match op {
      case DoFinalize(root, file, schema, metadata, other) => FinalizeIsLatest(t, root, file, schema, metadata, other, id);
      case DoImport(root, file, schema, metadata, other) => ImportIsLatest(t, root, file, schema, metadata, other, id);
      case DoPublish(_, _) => NoNewBlob(t, op, id);
      case DoUpdate(_, _, _, _) => NoNewBlob(t, op, id);
      case DoDelete(_, _, _) => NoNewBlob(t, op, id);
      case DoBatch(_, _) => NoNewBlob(t, op, id);
      case _ => ApplyFrame(t, op);
    }
  }

  lemma NoNewBlob(t: Tables, op: Op, id: Id)
    requires Apply(t, op).Some? && (op.DoPublish? || op.DoUpdate? || op.DoDelete? || op.DoBatch?) && id !in t.blobs
    ensures id !in Apply(t, op).value.blobs
  {
  }

  lemma FinalizeIsLatest(t: Tables, root: string, p: PreparedFile, schema: BlobSchema, metadata: PyMapping, other: Id, id: Id)
    requires Finalize(t, root, p, schema, metadata, other).Success? && id !in t.blobs
    requires id in Finalize(t, root, p, schema, metadata, other).value.tables.blobs
    ensures var b := Finalize(t, root, p, schema, metadata, other).value.tables.blobs[id];
      b.schemaVersion == Latest(t, b.schemaName)
  {
  }

  lemma ImportIsLatest(t: Tables, root: string, p: PreparedFile, schema: BlobSchema, metadata: PyMapping, other: Id, id: Id)
    requires Import(t, root, p, schema, metadata, other).Success? && id !in t.blobs
    requires id in Import(t, root, p, schema, metadata, other).value.tables.blobs
    ensures var b := Import(t, root, p, schema, metadata, other).value.tables.blobs[id];
      b.schemaVersion == Latest(t, b.schemaName)
  {
    var values := NormalizeMetadata(schema, metadata).value;
    var existing := Retry(t, root, other, schema, values, p.size, p.digest, p.encoding);
    if existing.value.None? {
      var f := Finalize(t, root, p, schema, metadata, other).value.tables;
      PublishRows(f, root, other);
      FinalizeIsLatest(t, root, p, schema, metadata, other, id);
    }
  }

  lemma PublishRows(t: Tables, root: string, id: Id)
    requires Publish(t, root, id).Success?
    ensures var u := Publish(t, root, id).value.tables;
      u.blobs.Keys == t.blobs.Keys && forall i | i in t.blobs ::
        u.blobs[i].schemaName == t.blobs[i].schemaName && u.blobs[i].schemaVersion == t.blobs[i].schemaVersion
  {
  }

  /** No row is older than the source of the newest migration. */
  lemma NothingOlder(t: Tables, plan: Plan, id: Id)
    requires MigrationsOk(t) && Initialized(t, plan) && id in t.blobs && t.blobs[id].schemaName == plan.source.name
    requires t.blobs[id].schemaVersion <= plan.source.version
    ensures t.blobs[id].schemaVersion == plan.source.version
  {
    assert Scheduled(t, id);
    if t.blobs[id].schemaVersion != Latest(t, plan.source.name) {
      var m :| Awaits(t, m, id);
      assert MigrationOk(t, m);
    }
  }

  /** No call adds to the backlog of a migration. */
  lemma BacklogShrinks(t: Tables, op: Op, plan: Plan)
    requires Inv(t) && Initialized(t, plan) && Apply(t, op).Some?
    ensures AtVersion(Apply(t, op).value, plan.source.name, plan.source.version)
      <= AtVersion(t, plan.source.name, plan.source.version)
  {
    var u := Apply(t, op).value;
    ApplyKeeps(t, op);
    forall id | id in AtVersion(u, plan.source.name, plan.source.version)
      ensures id in AtVersion(t, plan.source.name, plan.source.version)
    {
      if id in t.blobs {
        assert Advances(t, u, id);
        NothingOlder(t, plan, id);
      } else {
        NewIsLatest(t, op, id);
        SourceRowsAreOld(t, plan);
      }
    }
  }

  ghost predicate Advancing(op: Op, plan: Plan) {
    op.DoBatch? && op.plan == plan && op.size > 0
  }

  lemma SubsetCount<T>(a: set<T>, b: set<T>)
    requires a <= b
    ensures |a| <= |b|
  {
    assert b == a + (b - a);
  }

  lemma ApplyLeft(t: Tables, op: Op, plan: Plan)
    requires Inv(t) && Initialized(t, plan) && Apply(t, op).Some? && Initialized(Apply(t, op).value, plan)
    requires JobsAdvance(t, Apply(t, op).value)
    ensures Left(Apply(t, op).value, plan) <= Left(t, plan)
    ensures Advancing(op, plan) && Left(t, plan) > 0 ==> Left(Apply(t, op).value, plan) < Left(t, plan)
  {
    var u := Apply(t, op).value;
    BacklogShrinks(t, op, plan);
    SubsetCount(
      AtVersion(u, plan.source.name, plan.source.version), AtVersion(t, plan.source.name, plan.source.version));
    assert JobAdvances(t, u, plan.name);
    if Advancing(op, plan) && Left(t, plan) > 0 { BatchLeft(t, plan, op.size); }
  }

  /** The successful batches of a plan in a history. */
  ghost function Batches(ops: seq<Op>, plan: Plan): nat
    decreases |ops|
  {
    if |ops| == 0 then 0 else (if Advancing(ops[0], plan) then 1 else 0) + Batches(ops[1..], plan)
  }

  lemma {:induction false} PerformLeft(t: Tables, ops: seq<Op>, plan: Plan)
    requires Inv(t) && Initialized(t, plan) && Perform(t, ops).Some?
    ensures Initialized(Perform(t, ops).value, plan)
    ensures Left(Perform(t, ops).value, plan) <= Left(t, plan)
    ensures Batches(ops, plan) <= Left(t, plan) ==> Left(Perform(t, ops).value, plan) <= Left(t, plan) - Batches(ops, plan)
    ensures Batches(ops, plan) >= Left(t, plan) ==> Left(Perform(t, ops).value, plan) == 0
    decreases |ops|
  {
    if |ops| > 0 {
      var u := Apply(t, ops[0]).value;
      ApplyKeeps(t, ops[0]);
      ApplyJobs(t, ops[0]);
      InitializedStays(t, u, plan);
      ApplyLeft(t, ops[0], plan);
      PerformLeft(u, ops[1..], plan);
    }
  }

  /**
   * With any other transactions in between, a migration that gets as many successful batches as it has rows (one if it
   * has none) is complete, and migrated_rows is total_rows.
   */
  lemma EnoughBatches(s: Tables, txs: seq<Transaction>, plan: Plan)
    requires Inv(s) && Initialized(s, plan) && Batches(Applied(s, txs), plan) >= Left(s, plan)
    ensures var t := Replay(s, txs);
      && plan.name in t.migrations && t.migrations[plan.name].complete
      && t.migrations[plan.name].migrated == t.migrations[plan.name].total == s.migrations[plan.name].total
  {
    var t := Replay(s, txs);
    AppliedIsReplay(s, txs);
    PerformLeft(s, Applied(s, txs), plan);
    ReplayKeeps(s, txs);
    PerformJobs(s, Applied(s, txs));
    assert JobAdvances(s, t, plan.name) && MigrationOk(t, plan.name);
  }

  // ---------------------------------------------------------------- job records along a history

  lemma {:induction false} PerformJobs(t: Tables, ops: seq<Op>)
    requires Inv(t) && Perform(t, ops).Some?
    ensures JobsAdvance(t, Perform(t, ops).value)
    decreases |ops|
  {
    if |ops| > 0 {
      var u := Apply(t, ops[0]).value;
      ApplyKeeps(t, ops[0]);
      ApplyJobs(t, ops[0]);
      PerformJobs(u, ops[1..]);
      JobsCompose(t, u, Perform(t, ops).value);
    }
  }

  lemma JobsCompose(t: Tables, u: Tables, v: Tables)
    requires JobsAdvance(t, u) && JobsAdvance(u, v)
    ensures JobsAdvance(t, v)
  {
    forall m | m in t.migrations ensures JobAdvances(t, v, m) {
      assert JobAdvances(t, u, m) && JobAdvances(u, v, m);
    }
  }

  /** The report of a running migration is exact at every moment: rows migrated plus rows remaining make the total. */
  lemma RunningCounts(s: Tables, txs: seq<Transaction>, plan: Plan)
    requires Inv(s) && Initialized(s, plan)
    ensures var t := Replay(s, txs);
      && Initialized(t, plan)
      && var job := t.migrations[plan.name];
      && job.total == s.migrations[plan.name].total
      && job.migrated + |AtVersion(t, plan.source.name, plan.source.version)| == job.total
      && forall id | id in AtVersion(t, plan.source.name, plan.source.version) :: AfterMark(job.lastId, id)
  {
    var t := Replay(s, txs);
    ReplayKeeps(s, txs);
    AppliedIsReplay(s, txs);
    PerformJobs(s, Applied(s, txs));
    InitializedStays(s, t, plan);
    assert JobAdvances(s, t, plan.name) && MigrationOk(t, plan.name);
    BacklogIsAll(t, plan);
    if t.migrations[plan.name].complete { CompleteMeansNone(t, plan); }
  }
}
