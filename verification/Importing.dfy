/** import_file from end to end: the checks, the upload, the journal row and the final transaction of one call. */
module Importing {
  import opened Wrappers
  import opened Errors
  import opened Schemas
  import opened Tables
  import opened Lifecycle
  import opened LifecycleProofs
  import opened Operations
  import opened Protocol
  import opened ProtocolProofs
  import opened Runs
  import opened Answers
  import Exclusion
  import Results
  import Stores
  import Storages

  /** The names one call generates are new, and lie in the store's own root. */
  ghost predicate NewNames(w: World, root: string, token: Token, key: ObjectKey, stage: ObjectKey) {
    && key.name.Object? && stage.name.Staging? && key.root == stage.root == root
    && NewKey(w, key) && NewKey(w, stage) && token !in w.tables.prepared
    && forall tok | tok in w.tables.prepared :: w.tables.prepared[tok].key != key
  }

  /** The token of an upload of these bytes. */
  function FileOf(schema: BlobSchema, bytes: Bytes, hash: Digest, token: Token, key: ObjectKey): PreparedFile {
    PreparedFile(token, key, |bytes|, hash(bytes), None, schema.name, schema.version)
  }

  /** Whether the id is free for this request, or already holds exactly it. */
  ghost predicate Free(t: Tables, root: string, id: Id, schema: BlobSchema, values: Values, size: nat, digest: string) {
    id !in t.retired && (id in t.blobs ==> Requested(t, root, id, schema, values, size, digest, None))
  }

  lemma OneStep(w: World, hash: Digest, step: Step)
    requires Enabled(w, hash, step)
    ensures Run(w, hash, [step]) == Next(w, hash, step)
  {
    assert [step][1..] == [];
  }

  lemma RunJoins(w: World, hash: Digest, a: seq<Step>, b: seq<Step>)
    ensures Run(w, hash, a + b) == Run(Run(w, hash, a), hash, b)
  {
    Exclusion.RunsCompose(w, hash, a, b);
  }

  /** One transaction of one call, as a step. */
  lemma OneCommit(w: World, hash: Digest, op: Op, u: Tables)
    requires Apply(w.tables, op) == Some(u) && (op.DoJournal? ==> UploadedAs(w, hash, op.file))
    ensures Run(w, hash, [Commit(Transaction([op], true))]) == World(u, w.store, w.uploads)
  {
    OneCall(w.tables, op);
    OneStep(w, hash, Commit(Transaction([op], true)));
  }

  /** _prepare_snapshot: upload, then journal; a refused upload leaves the catalog alone. */
  method PrepareSnapshot(
    store: Stores.Store, storage: Storages.LocalStorage, schema: BlobSchema, bytes: Bytes, hash: Digest,
    token: Token, key: ObjectKey, stage: ObjectKey, ghost w: World)
    returns (r: Result<PreparedFile, Error>, ghost steps: seq<Step>)
    requires Safe(w, hash) && w.tables == store.db.T() && w.store == storage.objects
    requires NewNames(w, store.root, token, key, stage) && CheckSchema(w.tables, schema, true).Success?
    modifies store.db, storage
    ensures var v := Run(w, hash, steps);
      Safe(v, hash) && v.tables == store.db.T() && v.store == storage.objects
    ensures r.Success? <==> storage.script(old(storage.calls)).Works? && storage.script(old(storage.calls) + 1).Works?
    ensures r.Success? ==>
      && r.value == FileOf(schema, bytes, hash, token, key)
      && key in Run(w, hash, steps).uploads && Run(w, hash, steps).uploads[key].bytes == bytes
      && store.db.T() == old(store.db.T()).(prepared := old(store.db.T()).prepared[token := r.value])
    ensures r.Failure? ==> store.db.T() == old(store.db.T())
  {
    var p := FileOf(schema, bytes, hash, token, key);
    var ok;
    ok, steps := UploadNew(storage, bytes, hash, key, stage, w);
    if !ok {
      return Failure(StorageFailure), steps;
    }
    ghost var b := Run(w, hash, steps);
    JournalAnswer(b.tables, schema, p);
    StillNew(w, b, p);
    r := store.Journal(schema, p);
    ghost var commit := Commit(Transaction([DoJournal(schema, p)], true));
    OneCommit(b, hash, DoJournal(schema, p), store.db.T());
    RunJoins(w, hash, steps, [commit]);
    RunIsSafe(b, hash, [commit]);
    steps := steps + [commit];
  }

  /** A new upload of the payload, under names of its own. */
  method UploadNew(storage: Storages.LocalStorage, bytes: Bytes, hash: Digest, key: ObjectKey, stage: ObjectKey, ghost w: World)
    returns (ok: bool, ghost steps: seq<Step>)
    requires Safe(w, hash) && w.store == storage.objects && NewKey(w, key) && NewKey(w, stage)
    requires key.name.Object? && stage.name.Staging? && key.root == stage.root
    modifies storage
    ensures var v := Run(w, hash, steps);
      && Safe(v, hash) && v.tables == w.tables && v.store == storage.objects
      && key in v.uploads && v.uploads[key].bytes == bytes && v.uploads[key].uploaded == ok
    ensures ok <==> storage.script(old(storage.calls)).Works? && storage.script(old(storage.calls) + 1).Works?
  {
    ghost var begin := Begin(key, stage, bytes);
    ghost var a := Next(w, hash, begin);
    OneStep(w, hash, begin);
    ghost var sent;
    ok, sent := storage.Upload(key, stage, bytes, a, hash);
    steps := [begin] + sent;
    RunJoins(w, hash, [begin], sent);
    RunIsSafe(w, hash, steps);
    BytesStay(a, hash, sent, key);
  }

  /** No step changes the bytes an upload was begun with. */
  lemma {:induction false} BytesStay(w: World, hash: Digest, steps: seq<Step>, key: ObjectKey)
    requires key in w.uploads
    ensures key in Run(w, hash, steps).uploads && Run(w, hash, steps).uploads[key].bytes == w.uploads[key].bytes
    decreases |steps|
  {
    if |steps| > 0 {
      var v := if Enabled(w, hash, steps[0]) then Next(w, hash, steps[0]) else w;
      assert key in v.uploads && v.uploads[key].bytes == w.uploads[key].bytes;
      BytesStay(v, hash, steps[1..], key);
    }
  }

  lemma StillNew(w: World, b: World, p: PreparedFile)
    requires b.tables == w.tables && p.token !in w.tables.prepared && p.key !in w.tables.gc
    requires forall tok | tok in w.tables.prepared :: w.tables.prepared[tok].key != p.key
    ensures !(exists tok | tok in b.tables.prepared :: b.tables.prepared[tok].key == p.key)
  {
  }

  /** The checks before anything is uploaded, and the blob of an earlier call with the same request. */
  method FindExisting(store: Stores.Store, schema: BlobSchema, metadata: PyMapping, id: Id, size: nat, digest: string)
    returns (r: Result<Option<Record>, Error>)
    requires Inv(store.db.T())
    ensures r.Success? <==>
      && CheckSchema(store.db.T(), schema, true).Success? && NormalizeMetadata(schema, metadata).Success?
      && Free(store.db.T(), store.root, id, schema, NormalizeMetadata(schema, metadata).value, size, digest)
    ensures r.Success? ==> (r.value.Some? <==> id in store.db.blobs)
    ensures r.Success? && r.value.Some? ==>
      && RecordOf(store.db.T(), id, true) == Success(r.value.value) && RecordOf(store.db.T(), id, false) == Success(r.value.value)
      && r.value.value.file.size == size && r.value.value.file.digest == digest && r.value.value.file.key.root == store.root
  {
    var check := CheckSchema(store.db.T(), schema, true);
    if check.Failure? {
      return Failure(check.error);
    }
    var values := NormalizeMetadata(schema, metadata);
    if values.Failure? {
      return Failure(values.error);
    }
    r := Retry(store.db.T(), store.root, id, schema, values.value, size, digest, None);
    RetryAnswer(store.db.T(), store.root, id, schema, values.value, size, digest, None);
    if id in store.db.blobs { RecordSucceeds(store.db.T(), id); }
  }

  /**
   * import_file. However it ends it is a run of the protocol. It succeeds exactly when the declaration is in force, the
   * metadata is valid, the id is free or already holds this very request, and the upload, if one is needed, goes through;
   * then the id holds a ready blob whose object has the given bytes' size and digest. A failure leaves the catalog as it was.
   */
  method ImportFile(
    store: Stores.Store, storage: Storages.LocalStorage, schema: BlobSchema, metadata: PyMapping, id: Id,
    bytes: Bytes, hash: Digest, token: Token, key: ObjectKey, stage: ObjectKey, ghost w: World)
    returns (r: Result<Record, Error>, ghost steps: seq<Step>)
    requires Safe(w, hash) && w.tables == store.db.T() && w.store == storage.objects
    requires NewNames(w, store.root, token, key, stage)
    modifies store.db, storage
    ensures var v := Run(w, hash, steps);
      Safe(v, hash) && v.tables == store.db.T() && v.store == storage.objects
    ensures var t := old(store.db.T());
      r.Success? <==>
        && CheckSchema(t, schema, true).Success? && NormalizeMetadata(schema, metadata).Success?
        && Free(t, store.root, id, schema, NormalizeMetadata(schema, metadata).value, |bytes|, hash(bytes))
        && (id in t.blobs
            || (storage.script(old(storage.calls)).Works? && storage.script(old(storage.calls) + 1).Works?))
    ensures r.Success? ==>
      && RecordOf(store.db.T(), id, true) == Success(r.value)
      && r.value.file.size == |bytes| && r.value.file.digest == hash(bytes) && r.value.file.key.root == store.root
      && r.value.file.key in storage.objects
      && |storage.objects[r.value.file.key]| == |bytes| && hash(storage.objects[r.value.file.key]) == hash(bytes)
      && (id !in old(store.db.blobs) ==> storage.objects[r.value.file.key] == bytes)
      && (id in old(store.db.blobs) ==> store.db.T() == old(store.db.T()) && storage.objects == old(storage.objects))
    ensures r.Failure? ==> store.db.T() == old(store.db.T())
  {
    steps := [];
    ghost var t := store.db.T();
    var existing := FindExisting(store, schema, metadata, id, |bytes|, hash(bytes));
    if existing.Failure? {
      return Failure(existing.error), steps;
    }
    if existing.value.Some? {
      LiveObject(w, hash, id);
      return Success(existing.value.value), steps;
    }
    r, steps := ImportNew(store, storage, schema, metadata, id, bytes, hash, token, key, stage, w);
  }

  /** The upload, its journal row and the final transaction, for a valid request with a free id. */
  method ImportNew(
    store: Stores.Store, storage: Storages.LocalStorage, schema: BlobSchema, metadata: PyMapping, id: Id,
    bytes: Bytes, hash: Digest, token: Token, key: ObjectKey, stage: ObjectKey, ghost w: World)
    returns (r: Result<Record, Error>, ghost steps: seq<Step>)
    requires Safe(w, hash) && w.tables == store.db.T() && w.store == storage.objects
    requires NewNames(w, store.root, token, key, stage)
    requires CheckSchema(w.tables, schema, true).Success? && NormalizeMetadata(schema, metadata).Success?
    requires id !in w.tables.blobs && id !in w.tables.retired
    modifies store.db, storage
    ensures var v := Run(w, hash, steps);
      Safe(v, hash) && v.tables == store.db.T() && v.store == storage.objects
    ensures r.Success? <==> storage.script(old(storage.calls)).Works? && storage.script(old(storage.calls) + 1).Works?
    ensures r.Success? ==>
      && RecordOf(store.db.T(), id, true) == Success(r.value)
      && r.value.file == FileOf(schema, bytes, hash, token, key) && key in storage.objects && storage.objects[key] == bytes
    ensures r.Failure? ==> store.db.T() == old(store.db.T())
  {
    ghost var t := store.db.T();
    var prepared;
    prepared, steps := PrepareSnapshot(store, storage, schema, bytes, hash, token, key, stage, w);
    if prepared.Failure? {
      return Failure(prepared.error), steps;
    }
    ghost var v, first := Run(w, hash, steps), steps;
    r, steps := ImportPrepared(store, storage, prepared.value, schema, metadata, id, hash, v, t);
    RunJoins(w, hash, first, steps);
    steps := first + steps;
  }

  /** The final transaction as a step of the protocol. */
  lemma ImportedRun(
    w: World, hash: Digest, root: string, p: PreparedFile, schema: BlobSchema, metadata: PyMapping, id: Id, c: Committed<Record>)
    requires Safe(w, hash) && Import(w.tables, root, p, schema, metadata, id) == Success(c) && id !in w.tables.blobs
    ensures var v := World(c.tables, w.store, w.uploads);
      && Run(w, hash, [Commit(Transaction([DoImport(root, p, schema, metadata, id)], true))]) == v && Safe(v, hash)
    ensures RecordOf(c.tables, id, true) == Success(c.value) && c.value.file == p && p.key.root == root
    ensures p.key in w.uploads && p.key in w.store && w.store[p.key] == w.uploads[p.key].bytes
  {
    ImportKeeps(w.tables, root, p, schema, metadata, id);
    OneCommit(w, hash, DoImport(root, p, schema, metadata, id), c.tables);
    RunIsSafe(w, hash, [Commit(Transaction([DoImport(root, p, schema, metadata, id)], true))]);
    Results.ImportMeans(w.tables, root, p, schema, metadata, id);
    LiveObject(World(c.tables, w.store, w.uploads), hash, id);
  }

  /** The final transaction, once this call has journaled its upload. */
  method ImportPrepared(
    store: Stores.Store, storage: Storages.LocalStorage, p: PreparedFile, schema: BlobSchema, metadata: PyMapping, id: Id,
    hash: Digest, ghost w: World, ghost t: Tables)
    returns (r: Result<Record, Error>, ghost steps: seq<Step>)
    requires Safe(w, hash) && w.tables == store.db.T() && w.store == storage.objects
    requires Inv(t) && p.token !in t.prepared && store.db.T() == t.(prepared := t.prepared[p.token := p])
    requires CheckSchema(t, schema, true).Success? && NormalizeMetadata(schema, metadata).Success?
    requires p.key.root == store.root && p.schemaName == schema.name && p.schemaVersion == schema.version
    requires id !in t.blobs && id !in t.retired
    modifies store.db
    ensures var v := Run(w, hash, steps);
      Safe(v, hash) && v.tables == store.db.T() && v.store == storage.objects
    ensures r.Success? && RecordOf(store.db.T(), id, true) == Success(r.value) && r.value.file == p
    ensures p.key.root == store.root && p.key in w.uploads && p.key in storage.objects
    ensures storage.objects[p.key] == w.uploads[p.key].bytes
  {
    ImportGoesThrough(t, store.db.T(), store.root, p, schema, metadata, id);
    ImportedRun(
      w, hash, store.root, p, schema, metadata, id, Import(w.tables, store.root, p, schema, metadata, id).value);
    r := store.Import(p, schema, metadata, id);
    steps := [Commit(Transaction([DoImport(store.root, p, schema, metadata, id)], true))];
  }

  /** The object of a blob is in the store, as uploaded. */
  lemma LiveObject(w: World, hash: Digest, id: Id)
    requires Safe(w, hash) && id in w.tables.blobs
    ensures RecordOf(w.tables, id, false).Success?
    ensures var p := RecordOf(w.tables, id, false).value.file;
      && p.key in w.store && |w.store[p.key]| == p.size && hash(w.store[p.key]) == p.digest
      && p.key in w.uploads && w.store[p.key] == w.uploads[p.key].bytes
  {
    BlobsMaterialize(w, hash, id);
  }

  /** With its own journal row committed, the final transaction for a free id is not refused. */
  lemma ImportGoesThrough(t: Tables, u: Tables, root: string, p: PreparedFile, schema: BlobSchema, metadata: PyMapping, id: Id)
    requires Inv(t) && Inv(u) && p.token !in t.prepared && u == t.(prepared := t.prepared[p.token := p])
    requires CheckSchema(t, schema, true).Success? && NormalizeMetadata(schema, metadata).Success?
    requires p.key.root == root && p.schemaName == schema.name && p.schemaVersion == schema.version
    requires id !in t.blobs && id !in t.retired
    ensures Import(u, root, p, schema, metadata, id).Success?
  {
    ImportAnswer(u, root, p, schema, metadata, id);
    forall k | k in t.gc ensures t.gc[k].token != Some(p.token) { assert JobOk(t, k); }
    forall other | other in t.objects ensures t.objects[other] != p.token { assert BlobOk(t, other); }
  }
}
