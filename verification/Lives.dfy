/** That the calls can be made: one payload from its upload to its retirement, through every outcome of resolve. */
module Lives {
  import opened Wrappers
  import opened Errors
  import opened Schemas
  import opened Tables
  import opened Lifecycle
  import opened LifecycleProofs
  import opened Operations
  import opened Protocol
  import opened ProtocolProofs
  import opened Runs
  import opened Answers
  import opened Migrations
  import opened MigrationProofs
  import Migrators

  /** A request with a declaration in force, metadata it accepts, and an id and a token nobody has used. */
  ghost predicate Fresh(t: Tables, root: string, id: Id, p: PreparedFile, schema: BlobSchema, metadata: PyMapping) {
    && CheckSchema(t, schema, true).Success? && NormalizeMetadata(schema, metadata).Success?
    && Named(p, schema) && p.key.root == root
    && p.token !in t.prepared && p.key !in t.gc && (forall tok | tok in t.prepared :: t.prepared[tok].key != p.key)
    && id !in t.blobs && id !in t.retired
  }

  lemma FreshIsFree(t: Tables, root: string, id: Id, p: PreparedFile, schema: BlobSchema, metadata: PyMapping)
    requires Inv(t) && Fresh(t, root, id, p, schema, metadata)
    ensures !IsQueued(t, p.token) && !IsBound(t, p.token) && CheckSchema(t, schema, false).Success?
    ensures forall other | other in t.retired :: t.retired[other].token != p.token
  {
    forall k | k in t.gc ensures t.gc[k].token != Some(p.token) { assert JobOk(t, k); }
    forall other | other in t.objects ensures t.objects[other] != p.token { assert BlobOk(t, other); }
    forall other | other in t.retired ensures t.retired[other].token != p.token { assert RetirementOk(t, other); }
  }

  /** Before anything is journaled, and with the journal row alone. */
  lemma JournalOutcome(t: Tables, root: string, id: Id, p: PreparedFile, schema: BlobSchema, metadata: PyMapping)
    requires Fresh(t, root, id, p, schema, metadata) && !IsQueued(t, p.token) && !IsBound(t, p.token)
    ensures Resolve(t, root, id, p, schema, metadata) == Success(Lifecycle.Unknown)
    ensures var u := t.(prepared := t.prepared[p.token := p]);
      && Apply(t, DoJournal(schema, p)) == Some(u)
      && Resolve(u, root, id, p, schema, metadata) == Success(Prepared)
  {
  }

  /** A journaled token of the newest version, bound to nothing and queued nowhere. */
  ghost predicate Ripe(t: Tables, root: string, id: Id, p: PreparedFile, schema: BlobSchema, metadata: PyMapping) {
    && CheckSchema(t, schema, true).Success? && NormalizeMetadata(schema, metadata).Success?
    && Named(p, schema) && p.key.root == root
    && p.token in t.prepared && t.prepared[p.token] == p && p.key !in t.gc
    && !IsQueued(t, p.token) && !IsBound(t, p.token)
    && id !in t.blobs && id !in t.retired
    && forall other | other in t.retired :: t.retired[other].token != p.token
  }

  lemma FreshRipens(t: Tables, root: string, id: Id, p: PreparedFile, schema: BlobSchema, metadata: PyMapping)
    requires Inv(t) && Fresh(t, root, id, p, schema, metadata)
    ensures Ripe(t.(prepared := t.prepared[p.token := p]), root, id, p, schema, metadata)
  {
    FreshIsFree(t, root, id, p, schema, metadata);
  }

  /** Discarding a ripe token. */
  lemma DiscardOutcome(t: Tables, root: string, id: Id, p: PreparedFile, schema: BlobSchema, metadata: PyMapping)
    requires Ripe(t, root, id, p, schema, metadata)
    ensures var u := Apply(t, DoDiscard(root, p));
      u.Some? && Resolve(u.value, root, id, p, schema, metadata) == Success(Revoked)
  {
    var u := Discard(t, root, p).value.tables;
    assert u.gc[p.key].token == Some(p.token);
  }

  /** The catalog with the bound blob in some state. */
  function Published(t: Tables, id: Id, p: PreparedFile, schema: BlobSchema, metadata: PyMapping, state: State): Tables
    requires NormalizeMetadata(schema, metadata).Success?
  {
    WithBlob(t, id, p, schema, NormalizeMetadata(schema, metadata).value, state)
  }

  function RowOf(id: Id, p: PreparedFile, schema: BlobSchema, metadata: PyMapping, state: State): Record
    requires NormalizeMetadata(schema, metadata).Success?
  {
    Record(id, schema.name, schema.version, state, p, 1, NormalizeMetadata(schema, metadata).value)
  }

  lemma PublishedReadsBack(
    t: Tables, root: string, id: Id, p: PreparedFile, schema: BlobSchema, metadata: PyMapping, state: State, readyOnly: bool)
    requires Ripe(t, root, id, p, schema, metadata) && (readyOnly ==> state == Ready)
    ensures RecordOf(Published(t, id, p, schema, metadata, state), id, readyOnly) == Success(RowOf(id, p, schema, metadata, state))
  {
  }

  ghost predicate StandsAt(t: Tables, root: string, id: Id, p: PreparedFile, schema: BlobSchema, metadata: PyMapping, state: State) {
    var r := Resolve(t, root, id, p, schema, metadata);
    r.Success? && r.value.Live? && r.value.record.state == state && r.value.record.file == p
  }

  /** A bound blob answers with its state. */
  lemma LiveOutcome(t: Tables, root: string, id: Id, p: PreparedFile, schema: BlobSchema, metadata: PyMapping, state: State)
    requires Ripe(t, root, id, p, schema, metadata)
    ensures StandsAt(Published(t, id, p, schema, metadata, state), root, id, p, schema, metadata, state)
  {
    PublishedReadsBack(t, root, id, p, schema, metadata, state, false);
  }

  lemma FinalizeOutcome(t: Tables, root: string, id: Id, p: PreparedFile, schema: BlobSchema, metadata: PyMapping)
    requires Ripe(t, root, id, p, schema, metadata)
    ensures Finalize(t, root, p, schema, metadata, id)
      == Success(Committed(Published(t, id, p, schema, metadata, Publishing), RowOf(id, p, schema, metadata, Publishing)))
  {
  }

  lemma PublishOutcome(t: Tables, root: string, id: Id, p: PreparedFile, schema: BlobSchema, metadata: PyMapping)
    requires Ripe(t, root, id, p, schema, metadata)
    ensures Publish(Published(t, id, p, schema, metadata, Publishing), root, id)
      == Success(Committed(Published(t, id, p, schema, metadata, Ready), RowOf(id, p, schema, metadata, Ready)))
  {
    var f := Published(t, id, p, schema, metadata, Publishing);
    PublishedReadsBack(t, root, id, p, schema, metadata, Publishing, false);
    assert f.blobs[id := f.blobs[id].(state := Ready)] == Published(t, id, p, schema, metadata, Ready).blobs;
  }

  lemma ImportOutcome(t: Tables, root: string, id: Id, p: PreparedFile, schema: BlobSchema, metadata: PyMapping)
    requires Ripe(t, root, id, p, schema, metadata)
    ensures Import(t, root, p, schema, metadata, id)
      == Success(Committed(Published(t, id, p, schema, metadata, Ready), RowOf(id, p, schema, metadata, Ready)))
  {
    FinalizeOutcome(t, root, id, p, schema, metadata);
    PublishOutcome(t, root, id, p, schema, metadata);
  }

  /** Editing the published blob. */
  lemma UpdateOutcome(
    t: Tables, root: string, id: Id, p: PreparedFile, schema: BlobSchema, metadata: PyMapping, changes: PyMapping)
    requires Ripe(t, root, id, p, schema, metadata) && NormalizeChanges(schema, changes).Success?
    ensures UpdateMetadata(Published(t, id, p, schema, metadata, Ready), id, schema, changes, 1).Success?
  {
    PublishedReadsBack(t, root, id, p, schema, metadata, Ready, true);
  }

  ghost predicate IsGone(t: Tables, root: string, id: Id, p: PreparedFile, schema: BlobSchema, metadata: PyMapping) {
    var r := Resolve(t, root, id, p, schema, metadata);
    r.Success? && r.value.Gone? && r.value.status.retirement.token == p.token && r.value.status.key == p.key
  }

  lemma DeleteOutcome(t: Tables, root: string, id: Id, p: PreparedFile, schema: BlobSchema, metadata: PyMapping)
    requires Ripe(t, root, id, p, schema, metadata) && !Running(t, schema.name)
    ensures var d := Delete(Published(t, id, p, schema, metadata, Ready), root, id, 1);
      d.Success? && IsGone(d.value.tables, root, id, p, schema, metadata)
  {
    PublishedReadsBack(t, root, id, p, schema, metadata, Ready, false);
  }

  /** The catalog with the journal row alone. */
  function Prepare(t: Tables, p: PreparedFile): Tables {
    t.(prepared := t.prepared[p.token := p])
  }

  ghost predicate Says(t: Tables, root: string, id: Id, p: PreparedFile, schema: BlobSchema, metadata: PyMapping, o: Outcome) {
    Resolve(t, root, id, p, schema, metadata) == Success(o)
  }

  lemma CallsOnToken(t: Tables, root: string, id: Id, p: PreparedFile, schema: BlobSchema, metadata: PyMapping)
    requires Inv(t) && Fresh(t, root, id, p, schema, metadata)
    ensures Ripe(Prepare(t, p), root, id, p, schema, metadata)
    ensures Says(t, root, id, p, schema, metadata, Lifecycle.Unknown)
    ensures Apply(t, DoJournal(schema, p)) == Some(Prepare(t, p))
    ensures Says(Prepare(t, p), root, id, p, schema, metadata, Prepared)
    ensures var u := Apply(Prepare(t, p), DoDiscard(root, p));
      u.Some? && Says(u.value, root, id, p, schema, metadata, Revoked)
  {
    FreshIsFree(t, root, id, p, schema, metadata);
    JournalOutcome(t, root, id, p, schema, metadata);
    DiscardOutcome(Prepare(t, p), root, id, p, schema, metadata);
  }

  lemma CallsOnBlob(t: Tables, root: string, id: Id, p: PreparedFile, schema: BlobSchema, metadata: PyMapping)
    requires Ripe(t, root, id, p, schema, metadata)
    ensures var f, c := Published(t, id, p, schema, metadata, Publishing), Published(t, id, p, schema, metadata, Ready);
      && Apply(t, DoFinalize(root, p, schema, metadata, id)) == Some(f)
      && Apply(f, DoPublish(root, id)) == Some(c)
      && Apply(t, DoImport(root, p, schema, metadata, id)) == Some(c)
      && StandsAt(f, root, id, p, schema, metadata, Publishing) && StandsAt(c, root, id, p, schema, metadata, Ready)
  {
    LiveOutcome(t, root, id, p, schema, metadata, Publishing);
    LiveOutcome(t, root, id, p, schema, metadata, Ready);
    FinalizeOutcome(t, root, id, p, schema, metadata);
    PublishOutcome(t, root, id, p, schema, metadata);
    ImportOutcome(t, root, id, p, schema, metadata);
  }

  lemma EditCall(t: Tables, root: string, id: Id, p: PreparedFile, schema: BlobSchema, metadata: PyMapping, changes: PyMapping)
    requires Ripe(t, root, id, p, schema, metadata) && NormalizeChanges(schema, changes).Success?
    ensures Apply(Published(t, id, p, schema, metadata, Ready), DoUpdate(id, schema, changes, 1)).Some?
  {
    UpdateOutcome(t, root, id, p, schema, metadata, changes);
  }

  lemma DeleteCall(t: Tables, root: string, id: Id, p: PreparedFile, schema: BlobSchema, metadata: PyMapping)
    requires Ripe(t, root, id, p, schema, metadata) && !Running(t, schema.name)
    ensures var d := Apply(Published(t, id, p, schema, metadata, Ready), DoDelete(root, id, 1));
      d.Some? && IsGone(d.value, root, id, p, schema, metadata)
  {
    DeleteOutcome(t, root, id, p, schema, metadata);
  }

  /** From any catalog a fresh request may be prepared and then discarded, and resolve says so. */
  lemma TokenOutcomes(t: Tables, root: string, id: Id, p: PreparedFile, schema: BlobSchema, metadata: PyMapping)
    requires Inv(t) && Fresh(t, root, id, p, schema, metadata)
    ensures Says(t, root, id, p, schema, metadata, Lifecycle.Unknown)
    ensures var calls := [DoJournal(schema, p)];
      Perform(t, calls).Some? && Says(Perform(t, calls).value, root, id, p, schema, metadata, Prepared)
    ensures var calls := [DoJournal(schema, p), DoDiscard(root, p)];
      Perform(t, calls).Some? && Says(Perform(t, calls).value, root, id, p, schema, metadata, Revoked)
  {
    CallsOnToken(t, root, id, p, schema, metadata);
    OneCall(t, DoJournal(schema, p));
    TwoCalls(t, DoJournal(schema, p), Prepare(t, p), DoDiscard(root, p));
  }

  /** Or it may be finalized, published, edited and retired, or imported at once; resolve says publishing, ready and retired. */
  lemma BlobOutcomes(
    t: Tables, root: string, id: Id, p: PreparedFile, schema: BlobSchema, metadata: PyMapping, changes: PyMapping)
    requires Inv(t) && Fresh(t, root, id, p, schema, metadata)
    requires !Running(t, schema.name) && NormalizeChanges(schema, changes).Success?
    ensures var calls := [DoJournal(schema, p), DoFinalize(root, p, schema, metadata, id)];
      Perform(t, calls).Some? && StandsAt(Perform(t, calls).value, root, id, p, schema, metadata, Publishing)
    ensures var calls := [DoJournal(schema, p), DoFinalize(root, p, schema, metadata, id), DoPublish(root, id)];
      Perform(t, calls).Some? && StandsAt(Perform(t, calls).value, root, id, p, schema, metadata, Ready)
    ensures Perform(t, [DoJournal(schema, p), DoImport(root, p, schema, metadata, id), DoUpdate(id, schema, changes, 1)]).Some?
    ensures var calls := [DoJournal(schema, p), DoImport(root, p, schema, metadata, id), DoDelete(root, id, 1)];
      Perform(t, calls).Some? && IsGone(Perform(t, calls).value, root, id, p, schema, metadata)
  {
    var u := Prepare(t, p);
    CallsOnToken(t, root, id, p, schema, metadata);
    CallsOnBlob(u, root, id, p, schema, metadata);
    EditCall(u, root, id, p, schema, metadata, changes);
    DeleteCall(u, root, id, p, schema, metadata);
    var f, c := Published(u, id, p, schema, metadata, Publishing), Published(u, id, p, schema, metadata, Ready);
    TwoCalls(t, DoJournal(schema, p), u, DoFinalize(root, p, schema, metadata, id));
    ThreeCalls(t, DoJournal(schema, p), u, DoFinalize(root, p, schema, metadata, id), f, DoPublish(root, id));
    ThreeCalls(t, DoJournal(schema, p), u, DoImport(root, p, schema, metadata, id), c, DoUpdate(id, schema, changes, 1));
    ThreeCalls(t, DoJournal(schema, p), u, DoImport(root, p, schema, metadata, id), c, DoDelete(root, id, 1));
  }

  /**
   * In the protocol: once an upload is finished, its process may journal it and import it, and the blob then reads back
   * ready, with exactly the uploaded bytes.
   */
  lemma UploadIsImported(
    w: World, hash: Digest, root: string, id: Id, p: PreparedFile, schema: BlobSchema, metadata: PyMapping)
    requires Safe(w, hash) && Fresh(w.tables, root, id, p, schema, metadata)
    requires p.key in w.uploads && w.uploads[p.key].uploaded
    requires p.size == |w.uploads[p.key].bytes| && p.digest == hash(w.uploads[p.key].bytes)
    ensures var steps := ImportSteps(root, id, p, schema, metadata);
      var v := Run(w, hash, steps);
      && Safe(v, hash) && v.store == w.store
      && RecordOf(v.tables, id, true).Success? && RecordOf(v.tables, id, true).value.file == p
      && Materialize(v.store, hash, p.key, p.size, p.digest) == Success(w.uploads[p.key].bytes)
  {
    var u := Prepare(w.tables, p);
    var c := Published(u, id, p, schema, metadata, Ready);
    CallsOnToken(w.tables, root, id, p, schema, metadata);
    CallsOnBlob(u, root, id, p, schema, metadata);
    ImportRuns(w, hash, root, id, p, schema, metadata, u, c);
    RunIsSafe(w, hash, ImportSteps(root, id, p, schema, metadata));
    PublishedReadsBack(u, root, id, p, schema, metadata, Ready, true);
    UploadIsIntact(Run(w, hash, ImportSteps(root, id, p, schema, metadata)), hash, p);
  }

  lemma UploadIsIntact(w: World, hash: Digest, p: PreparedFile)
    requires StorageOk(w) && UploadedAs(w, hash, p) && p.key !in w.tables.gc
    ensures Materialize(w.store, hash, p.key, p.size, p.digest) == Success(w.uploads[p.key].bytes)
  {
    assert UploadOk(w, p.key);
  }

  lemma ImportRuns(
    w: World, hash: Digest, root: string, id: Id, p: PreparedFile, schema: BlobSchema, metadata: PyMapping, u: Tables, c: Tables)
    requires UploadedAs(w, hash, p)
    requires Apply(w.tables, DoJournal(schema, p)) == Some(u) && Apply(u, DoImport(root, p, schema, metadata, id)) == Some(c)
    ensures Run(w, hash, ImportSteps(root, id, p, schema, metadata)) == World(c, w.store, w.uploads)
  {
    var a, b := Commit(Transaction([DoJournal(schema, p)], true)), Commit(Transaction([DoImport(root, p, schema, metadata, id)], true));
    OneCall(w.tables, DoJournal(schema, p));
    OneCall(u, DoImport(root, p, schema, metadata, id));
    var v := Next(w, hash, a);
    assert ImportSteps(root, id, p, schema, metadata)[1..] == [b] && [b][1..] == [];
    assert Run(v, hash, [b]) == Next(v, hash, b);
  }

  function ImportSteps(root: string, id: Id, p: PreparedFile, schema: BlobSchema, metadata: PyMapping): seq<Step> {
    [Commit(Transaction([DoJournal(schema, p)], true)), Commit(Transaction([DoImport(root, p, schema, metadata, id)], true))]
  }

  // ---------------------------------------------------------------- declarations

  /** A new name is declared by either call, but only Store.install_schema makes its schema usable for payloads. */
  lemma DeclarationsAreMade(t: Tables, schema: BlobSchema)
    requires Inv(t) && schema.name !in t.schemas && schema.version == 1
    ensures var u := Apply(t, DoInstall(schema));
      u.Some? && CheckSchema(u.value, schema, true) == Success(())
    ensures var u := Apply(t, DoDeclare(schema));
      u.Some? && CheckSchema(u.value, schema, true) == Failure(NotEnrolled)
  {
    InstallAnswer(t, schema);
    InstallSchemaKeeps(t, schema);
    SchemaAnswer(InstallSchema(t, schema).value.tables, schema, true);
    InstallKeeps(t, schema);
    SchemaAnswer(Install(t, schema).value.tables, schema, true);
    assert Enrolled(t, schema.name, 1);
  }

  // ---------------------------------------------------------------- migrations

  function Batches(plan: Plan, size: nat, n: nat): seq<Op> {
    if n == 0 then [] else [DoBatch(plan, size)] + Batches(plan, size, n - 1)
  }

  /** With every blob published and a total transform, batch after batch is accepted, and enough of them complete the migration. */
  lemma {:induction false} BatchesRun(t: Tables, plan: Plan, size: nat, n: nat)
    requires Inv(t) && Initialized(t, plan) && Migrators.Unhindered(t, plan) && size > 0
    ensures Perform(t, Batches(plan, size, n)).Some?
    ensures var u := Perform(t, Batches(plan, size, n)).value;
      && plan.name in u.migrations
      && (n >= Left(t, plan) ==> u.migrations[plan.name].complete)
    decreases n
  {
    if n > 0 {
      NextBatch(t, plan, size);
      BatchesRun(Batch(t, plan, size).value.tables, plan, size, n - 1);
      assert Batches(plan, size, n)[1..] == Batches(plan, size, n - 1);
    }
  }

  lemma NextBatch(t: Tables, plan: Plan, size: nat)
    requires Inv(t) && Initialized(t, plan) && Migrators.Unhindered(t, plan) && size > 0
    ensures Batch(t, plan, size).Success?
    ensures var u := Batch(t, plan, size).value.tables;
      && Apply(t, DoBatch(plan, size)) == Some(u) && Inv(u) && Initialized(u, plan) && Migrators.Unhindered(u, plan)
      && (if t.migrations[plan.name].complete then u == t else Left(u, plan) < Left(t, plan))
  {
    BatchSucceeds(t, plan, size);
    BatchKeeps(t, plan, size);
    BatchStaysReady(t, plan, size);
    Migrators.StaysUnhindered(t, plan, size);
    if !t.migrations[plan.name].complete { BatchLeft(t, plan, size); }
  }

  /** A migration that can start and that nothing hinders is begun and completed by one transaction per batch. */
  lemma MigrationRuns(t: Tables, plan: Plan, size: nat)
    requires Inv(t) && ValidPlan(plan) && plan.source.version >= 1 && Migrators.Startable(t, plan) && size > 0
    ensures var s := Initialize(t, plan).value.tables;
      && plan.name in s.migrations
      && var calls := [DoInitialize(plan)] + Batches(plan, size, Left(s, plan));
      && Perform(t, calls).Some?
      && plan.name in Perform(t, calls).value.migrations && Perform(t, calls).value.migrations[plan.name].complete
  {
    var s := Initialize(t, plan).value.tables;
    InitializeKeeps(t, plan);
    InitializeReady(t, plan);
    BatchesRun(s, plan, size, Left(s, plan));
    assert Apply(t, DoInitialize(plan)) == Some(s);
    assert ([DoInitialize(plan)] + Batches(plan, size, Left(s, plan)))[1..] == Batches(plan, size, Left(s, plan));
  }
}
