/** Every committed transaction as a value, and what any history of transactions keeps. */
module Operations {
  import opened Wrappers
  import opened Errors
  import opened Schemas
  import opened Tables
  import opened Lifecycle
  import opened LifecycleProofs
  import opened Migrations
  import opened MigrationProofs

  /** One library call inside a transaction. */
  datatype Op =
    | DoDeclare(schema: BlobSchema)   // Catalog.install_schema
    | DoInstall(schema: BlobSchema)   // Store.install_schema
    | DoEnrol                         // Store.install_lifecycle
    | DoJournal(schema: BlobSchema, file: PreparedFile)
    | DoFinalize(root: string, file: PreparedFile, schema: BlobSchema, metadata: PyMapping, id: Id)
    | DoPublish(root: string, id: Id)
    | DoImport(root: string, file: PreparedFile, schema: BlobSchema, metadata: PyMapping, id: Id)
    | DoUpdate(id: Id, schema: BlobSchema, changes: PyMapping, expected: int)
    | DoDelete(root: string, id: Id, expected: int)
    | DoDiscard(root: string, file: PreparedFile)
    | DoQueue(root: string, names: seq<Name>)
    | DoCleanup(key: ObjectKey, error: Option<string>)
    | DoInitialize(plan: Plan)
    | DoBatch(plan: Plan, size: nat)

  function TablesOf<R>(r: Result<Committed<R>, Error>): Option<Tables> {
    if r.Success? then Some(r.value.tables) else None
  }

  /** _prepare_snapshot names the journaled object and schema itself. */
  predicate Named(file: PreparedFile, schema: BlobSchema) {
    file.key.name.Object? && file.schemaName == schema.name && file.schemaVersion == schema.version
  }

  /** The tables after one call, or None where it raises; a plan reaches a batch only through initialization. */
  function Apply(t: Tables, op: Op): Option<Tables> {
    match op
    case DoDeclare(schema) => if schema.version >= 1 then TablesOf(Install(t, schema)) else None
    case DoInstall(schema) => if schema.version >= 1 then TablesOf(InstallSchema(t, schema)) else None
    case DoEnrol => Some(InstallLifecycle(t))
    case DoJournal(schema, file) => if Named(file, schema) then TablesOf(Journal(t, schema, file)) else None
    case DoFinalize(root, file, schema, metadata, id) => TablesOf(Finalize(t, root, file, schema, metadata, id))
    case DoPublish(root, id) => TablesOf(Publish(t, root, id))
    case DoImport(root, file, schema, metadata, id) => TablesOf(Import(t, root, file, schema, metadata, id))
    case DoUpdate(id, schema, changes, expected) => TablesOf(UpdateMetadata(t, id, schema, changes, expected))
    case DoDelete(root, id, expected) => TablesOf(Delete(t, root, id, expected))
    case DoDiscard(root, file) => TablesOf(Discard(t, root, file))
    case DoQueue(root, names) => TablesOf(QueueOrphans(t, root, names))
    case DoCleanup(key, error) => Some(RecordCleanup(t, key, error))
    case DoInitialize(plan) => if ValidPlan(plan) && plan.source.version >= 1 then TablesOf(Initialize(t, plan)) else None
    case DoBatch(plan, size) => if Initialized(t, plan) then TablesOf(Batch(t, plan, size)) else None
  }

  lemma ApplyKeeps(t: Tables, op: Op)
    requires Inv(t) && Apply(t, op).Some?
    ensures Keeps(t, Apply(t, op).value)
  {
    match op {
      case DoDeclare(schema) => InstallKeeps(t, schema);
      case DoInstall(schema) => InstallSchemaKeeps(t, schema);
      case DoEnrol => InstallLifecycleKeeps(t);
      case DoJournal(schema, file) => JournalKeeps(t, schema, file);
      case DoFinalize(root, file, schema, metadata, id) => FinalizeKeeps(t, root, file, schema, metadata, id);
      case DoPublish(root, id) => PublishKeeps(t, root, id);
      case DoImport(root, file, schema, metadata, id) => ImportKeeps(t, root, file, schema, metadata, id);
      case DoUpdate(id, schema, changes, expected) => UpdateKeeps(t, id, schema, changes, expected);
      case DoDelete(root, id, expected) => DeleteKeeps(t, root, id, expected);
      case DoDiscard(root, file) => DiscardKeeps(t, root, file);
      case DoQueue(root, names) => QueueOrphansKeeps(t, root, names);
      case DoCleanup(key, error) => RecordCleanupKeeps(t, key, error);
      case DoInitialize(plan) => InitializeKeeps(t, plan);
      case DoBatch(plan, size) => BatchKeeps(t, plan, size);
    }
  }

  // ---------------------------------------------------------------- which tables a call writes

  lemma FinalizeFrame(t: Tables, root: string, p: PreparedFile, schema: BlobSchema, metadata: PyMapping, id: Id)
    requires Finalize(t, root, p, schema, metadata, id).Success?
    ensures var u := Finalize(t, root, p, schema, metadata, id).value.tables;
      u == t.(blobs := u.blobs, metadata := u.metadata, objects := u.objects)
  {
  }

  lemma PublishFrame(t: Tables, root: string, id: Id)
    requires Publish(t, root, id).Success?
    ensures var u := Publish(t, root, id).value.tables;
      u == t.(blobs := u.blobs)
  {
  }

  lemma ImportFrame(t: Tables, root: string, p: PreparedFile, schema: BlobSchema, metadata: PyMapping, id: Id)
    requires Import(t, root, p, schema, metadata, id).Success?
    ensures var u := Import(t, root, p, schema, metadata, id).value.tables;
      u == t.(blobs := u.blobs, metadata := u.metadata, objects := u.objects)
  {
    var f := Finalize(t, root, p, schema, metadata, id);
    if f.Success? {
      FinalizeFrame(t, root, p, schema, metadata, id);
      if Publish(f.value.tables, root, id).Success? { PublishFrame(f.value.tables, root, id); }
    }
  }

  lemma UpdateFrame(t: Tables, id: Id, schema: BlobSchema, changes: PyMapping, expected: int)
    requires UpdateMetadata(t, id, schema, changes, expected).Success?
    ensures var u := UpdateMetadata(t, id, schema, changes, expected).value.tables;
      u == t.(metadata := u.metadata)
  {
  }

  lemma DeleteFrame(t: Tables, root: string, id: Id, expected: int)
    requires Delete(t, root, id, expected).Success?
    ensures var u := Delete(t, root, id, expected).value.tables;
      u == t.(blobs := u.blobs, metadata := u.metadata, objects := u.objects, retired := u.retired, gc := u.gc)
  {
  }

  lemma BatchFrame(t: Tables, plan: Plan, size: nat)
    requires Batch(t, plan, size).Success?
    ensures var u := Batch(t, plan, size).value.tables;
      u == t.(blobs := u.blobs, metadata := u.metadata, migrations := u.migrations)
  {
  }

  lemma InstallSchemaFrame(t: Tables, schema: BlobSchema)
    requires InstallSchema(t, schema).Success?
    ensures var u := InstallSchema(t, schema).value.tables;
      u == t.(schemas := u.schemas, payload := u.payload, lifecycle := u.lifecycle)
  {
    InstallTables(t, schema);
    AdoptFrame(Install(t, schema).value.tables, schema);
  }

  predicate OnQueue(op: Op) {
    op.DoJournal? || op.DoDiscard? || op.DoQueue? || op.DoCleanup?
  }

  lemma QueueFrame(t: Tables, op: Op)
    requires Apply(t, op).Some? && OnQueue(op)
    ensures var u := Apply(t, op).value;
      && u == t.(prepared := u.prepared, gc := u.gc)
      && u.prepared == (if op.DoJournal? then t.prepared[op.file.token := op.file] else t.prepared)
      && (op.DoJournal? ==> u.gc == t.gc)
  {
  }

  predicate OnLedger(op: Op) {
    op.DoDeclare? || op.DoInstall? || op.DoEnrol? || OnQueue(op)
  }

  /** Only journalling writes the journal, only four calls write the queue, only migrations jobs, only four enrolments. */
  ghost predicate Framed(t: Tables, op: Op, u: Tables) {
    && u.prepared == (if op.DoJournal? then t.prepared[op.file.token := op.file] else t.prepared)
    && (op.DoDelete? || op.DoDiscard? || op.DoQueue? || op.DoCleanup? || u.gc == t.gc)
    && (op.DoInitialize? || op.DoBatch? || u.migrations == t.migrations)
    && (op.DoDeclare? || op.DoInstall? || op.DoEnrol? || op.DoInitialize?
        || (u.schemas == t.schemas && u.payload == t.payload && u.lifecycle == t.lifecycle))
    && (OnLedger(op) || op.DoInitialize? ==> u.blobs == t.blobs && u.metadata == t.metadata)
  }

  lemma ApplyFrame(t: Tables, op: Op)
    requires Apply(t, op).Some?
    ensures Framed(t, op, Apply(t, op).value)
  {
    if op.DoDeclare? || op.DoInstall? || op.DoEnrol? {
      InstallCalls(t, op);
    } else if OnQueue(op) {
      QueueFrame(t, op);
    } else if op.DoInitialize? {
      InitializeTables(t, op.plan);
    } else if op.DoUpdate? || op.DoDelete? || op.DoBatch? {
      RowCalls(t, op);
    } else {
      RecordCalls(t, op);
    }
  }

  lemma InstallCalls(t: Tables, op: Op)
    requires Apply(t, op).Some? && (op.DoDeclare? || op.DoInstall? || op.DoEnrol?)
    ensures Framed(t, op, Apply(t, op).value)
  {
    match op {
      case DoDeclare(schema) => InstallTables(t, schema);
      case DoInstall(schema) => InstallSchemaFrame(t, schema);
      case DoEnrol =>
    }
  }

  lemma RecordCalls(t: Tables, op: Op)
    requires Apply(t, op).Some? && (op.DoFinalize? || op.DoPublish? || op.DoImport?)
    ensures Framed(t, op, Apply(t, op).value)
  {
    match op {
      case DoFinalize(root, file, schema, metadata, id) => FinalizeFrame(t, root, file, schema, metadata, id);
      case DoPublish(root, id) => PublishFrame(t, root, id);
      case DoImport(root, file, schema, metadata, id) => ImportFrame(t, root, file, schema, metadata, id);
    }
  }

  lemma RowCalls(t: Tables, op: Op)
    requires Apply(t, op).Some? && (op.DoUpdate? || op.DoDelete? || op.DoBatch?)
    ensures Framed(t, op, Apply(t, op).value)
  {
    match op {
      case DoUpdate(id, schema, changes, expected) => UpdateFrame(t, id, schema, changes, expected);
      case DoDelete(root, id, expected) => DeleteFrame(t, root, id, expected);
      case DoBatch(plan, size) => BatchFrame(t, plan, size);
    }
  }

  // ---------------------------------------------------------------- transactions

  /** The calls of one transaction, all or nothing: a call that raises dooms the whole. */
  function Perform(t: Tables, ops: seq<Op>): Option<Tables>
    decreases |ops|
  {
    if |ops| == 0 then Some(t)
    else
      var u := Apply(t, ops[0]);
      if u.None? then None else Perform(u.value, ops[1..])
  }

  lemma OneCall(t: Tables, op: Op)
    ensures Perform(t, [op]) == Apply(t, op)
  {
    assert [op][1..] == [];
  }

  lemma TwoCalls(t: Tables, a: Op, u: Tables, b: Op)
    requires Apply(t, a) == Some(u)
    ensures Perform(t, [a, b]) == Apply(u, b)
  {
    assert [a, b][1..] == [b];
    OneCall(u, b);
  }

  lemma ThreeCalls(t: Tables, a: Op, u: Tables, b: Op, v: Tables, c: Op)
    requires Apply(t, a) == Some(u) && Apply(u, b) == Some(v)
    ensures Perform(t, [a, b, c]) == Apply(v, c)
  {
    assert [a, b, c][1..] == [b, c];
    TwoCalls(u, b, v, c);
  }

  /** A transaction as the database sees it: committed, or rolled back for any reason. */
  datatype Transaction = Transaction(ops: seq<Op>, commits: bool)

  function Execute(t: Tables, tx: Transaction): Tables {
    var u := Perform(t, tx.ops);
    if tx.commits && u.Some? then u.value else t
  }

  function Replay(t: Tables, txs: seq<Transaction>): Tables
    decreases |txs|
  {
    if |txs| == 0 then t else Replay(Execute(t, txs[0]), txs[1..])
  }

  lemma {:induction false} PerformKeeps(t: Tables, ops: seq<Op>)
    requires Inv(t) && Perform(t, ops).Some?
    ensures Keeps(t, Perform(t, ops).value)
    decreases |ops|
  {
    if |ops| == 0 {
      ExtendsReflexive(t);
    } else {
      var u := Apply(t, ops[0]).value;
      ApplyKeeps(t, ops[0]);
      PerformKeeps(u, ops[1..]);
      ExtendsTransitive(t, u, Perform(t, ops).value);
    }
  }

  lemma ExecuteKeeps(t: Tables, tx: Transaction)
    requires Inv(t)
    ensures Keeps(t, Execute(t, tx))
  {
    if tx.commits && Perform(t, tx.ops).Some? {
      PerformKeeps(t, tx.ops);
    } else {
      ExtendsReflexive(t);
    }
  }

  /** After any history of committed, failed and rolled-back transactions the invariant holds and nothing was undone. */
  lemma {:induction false} ReplayKeeps(t: Tables, txs: seq<Transaction>)
    requires Inv(t)
    ensures Keeps(t, Replay(t, txs))
    decreases |txs|
  {
    if |txs| == 0 {
      ExtendsReflexive(t);
    } else {
      var u := Execute(t, txs[0]);
      ExecuteKeeps(t, txs[0]);
      ReplayKeeps(u, txs[1..]);
      ExtendsTransitive(t, u, Replay(t, txs));
    }
  }

  // ---------------------------------------------------------------- a history as one sequence of calls

  /** The calls that took effect, in order. */
  function Applied(t: Tables, txs: seq<Transaction>): seq<Op>
    decreases |txs|
  {
    if |txs| == 0 then []
    else
      (if txs[0].commits && Perform(t, txs[0].ops).Some? then txs[0].ops else []) + Applied(Execute(t, txs[0]), txs[1..])
  }

  lemma {:induction false} AppliedIsFrom(t: Tables, txs: seq<Transaction>, op: Op)
    requires op in Applied(t, txs)
    ensures exists tx :: tx in txs && op in tx.ops
    decreases |txs|
  {
    if op !in txs[0].ops {
      AppliedIsFrom(Execute(t, txs[0]), txs[1..], op);
      var tx :| tx in txs[1..] && op in tx.ops;
      assert tx in txs;
    } else {
      assert txs[0] in txs;
    }
  }

  lemma {:induction false} PerformsCompose(t: Tables, a: seq<Op>, b: seq<Op>)
    requires Perform(t, a).Some?
    ensures Perform(t, a + b) == Perform(Perform(t, a).value, b)
    decreases |a|
  {
    if |a| == 0 {
      assert a + b == b;
    } else {
      assert (a + b)[1..] == a[1..] + b;
      PerformsCompose(Apply(t, a[0]).value, a[1..], b);
    }
  }

  lemma {:induction false} AppliedIsReplay(t: Tables, txs: seq<Transaction>)
    ensures Perform(t, Applied(t, txs)) == Some(Replay(t, txs))
    decreases |txs|
  {
    if |txs| > 0 {
      var u := Execute(t, txs[0]);
      AppliedIsReplay(u, txs[1..]);
      var first := if txs[0].commits && Perform(t, txs[0].ops).Some? then txs[0].ops else [];
      assert Perform(t, first) == Some(u);
      PerformsCompose(t, first, Applied(u, txs[1..]));
    }
  }

  /** The tables after the first j calls. */
  function StateAt(t: Tables, ops: seq<Op>, j: nat): Tables
    requires Perform(t, ops).Some? && j <= |ops|
    decreases j
  {
    if j == 0 then t else StateAt(Apply(t, ops[0]).value, ops[1..], j - 1)
  }

  /** Those states are the history: each follows from the one before by its call. */
  lemma {:induction false} StateFollows(t: Tables, ops: seq<Op>, j: nat)
    requires Perform(t, ops).Some? && j < |ops|
    ensures Apply(StateAt(t, ops, j), ops[j]) == Some(StateAt(t, ops, j + 1))
    ensures StateAt(t, ops, |ops|) == Perform(t, ops).value
    decreases |ops|
  {
    var u := Apply(t, ops[0]).value;
    if |ops| > 1 {
      StateFollows(u, ops[1..], if j == 0 then 0 else j - 1);
    }
  }
}
