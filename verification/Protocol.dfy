/**
 * Storage and catalog together: uploads, transactions, cleanup and crashes in any interleaving.
 * The digest is a parameter; object promotion is create-only; generated keys are never repeated.
 */
module Protocol {
  import opened Wrappers
  import opened Errors
  import opened Schemas
  import opened Tables
  import opened Lifecycle
  import opened Operations

  type Bytes = seq<bv8>
  type Digest = Bytes -> string

  /** One upload of bytes to a generated object key, through its own generated staging key. */
  datatype Upload = Upload(stage: ObjectKey, bytes: Bytes, staged: bool, uploaded: bool, live: bool)

  datatype World = World(tables: Tables, store: map<ObjectKey, Bytes>, uploads: map<ObjectKey, Upload>)

  /**
   * One step of some process. Every storage call may fail or lose its response, having taken effect or not; a process may
   * stop between any two steps, and a request it sent may still take effect after that.
   */
  datatype Step =
    | Begin(key: ObjectKey, stage: ObjectKey, bytes: Bytes)
    | PutStage(key: ObjectKey, content: Option<Bytes>, ok: bool)
    | Promote(key: ObjectKey, took: bool, keepsStage: bool, ok: bool)  // rename, or copy and then delete the stage
    | PutEmpty(key: ObjectKey, took: bool, ok: bool)                   // S3 creates an empty object directly
    | Stop(key: ObjectKey)
    | Commit(tx: Transaction)
    | Remove(key: ObjectKey, took: bool)

  predicate NewKey(w: World, key: ObjectKey) {
    key !in w.store && key !in w.tables.gc && key !in w.uploads && forall k | k in w.uploads :: w.uploads[k].stage != key
  }

  /** A transaction journals only what its own process has finished uploading. */
  predicate JournalsUploads(w: World, hash: Digest, ops: seq<Op>) {
    forall i | 0 <= i < |ops| && ops[i].DoJournal? :: UploadedAs(w, hash, ops[i].file)
  }

  predicate UploadedAs(w: World, hash: Digest, p: PreparedFile) {
    && p.key in w.uploads && w.uploads[p.key].uploaded
    && p.size == |w.uploads[p.key].bytes| && p.digest == hash(w.uploads[p.key].bytes)
  }

  predicate Enabled(w: World, hash: Digest, step: Step) {
    match step
    case Begin(key, stage, _) =>
      key.name.Object? && stage.name.Staging? && stage.root == key.root && NewKey(w, key) && NewKey(w, stage)
    case PutStage(key, content, ok) =>
      && key in w.uploads && !w.uploads[key].staged && !w.uploads[key].uploaded
      && (ok ==> w.uploads[key].live && content == Some(w.uploads[key].bytes))
    case Promote(key, took, _, ok) =>
      && key in w.uploads && w.uploads[key].staged && !w.uploads[key].uploaded
      && (took ==> w.uploads[key].stage in w.store && key !in w.store)
      && (ok ==> w.uploads[key].live && took)
    case PutEmpty(key, took, ok) =>
      && key in w.uploads && !w.uploads[key].uploaded && w.uploads[key].bytes == []
      && (took ==> key !in w.store) && (ok ==> w.uploads[key].live && took)
    case Stop(key) => key in w.uploads
    case Commit(tx) => JournalsUploads(w, hash, tx.ops)
    case Remove(key, _) => key in w.tables.gc
  }

  function Next(w: World, hash: Digest, step: Step): World
    requires Enabled(w, hash, step)
  {
    match step
    case Begin(key, stage, bytes) => w.(uploads := w.uploads[key := Upload(stage, bytes, false, false, true)])
    case PutStage(key, content, ok) =>
      var u := w.uploads[key];
      World(w.tables,
            if content.Some? then w.store[u.stage := content.value] else w.store,
            w.uploads[key := u.(staged := ok, live := ok)])
    case Promote(key, took, keepsStage, ok) =>
      var u := w.uploads[key];
      var rest := if keepsStage then w.store else w.store - {u.stage};
      World(w.tables,
            if took then rest[key := w.store[u.stage]] else w.store,
            w.uploads[key := u.(uploaded := ok, live := ok)])
    case PutEmpty(key, took, ok) =>
      World(w.tables,
            if took then w.store[key := []] else w.store,
            w.uploads[key := w.uploads[key].(uploaded := ok, live := ok)])
    case Stop(key) => w.(uploads := w.uploads[key := w.uploads[key].(live := false)])
    case Commit(tx) => w.(tables := Execute(w.tables, tx))
    case Remove(key, took) => if took then w.(store := w.store - {key}) else w
  }

  // ---------------------------------------------------------------- the invariant

  ghost predicate UploadOk(w: World, key: ObjectKey)
    requires key in w.uploads
  {
    var u := w.uploads[key];
    && key.name.Object? && u.stage.name.Staging? && u.stage.root == key.root
    && (u.staged && u.stage in w.store ==> w.store[u.stage] == u.bytes)
    && (key in w.store ==> w.store[key] == u.bytes)
    && (u.uploaded && key !in w.tables.gc ==> key in w.store)
  }

  ghost predicate SameStage(w: World, j: ObjectKey, k: ObjectKey) {
    j in w.uploads && k in w.uploads && w.uploads[j].stage == w.uploads[k].stage
  }

  ghost predicate Backed(w: World, hash: Digest, tok: Token)
    requires tok in w.tables.prepared
  {
    UploadedAs(w, hash, w.tables.prepared[tok])
  }

  ghost predicate StorageOk(w: World) {
    && (forall key {:trigger UploadOk(w, key)} | key in w.uploads :: UploadOk(w, key))
    && (forall j, k | SameStage(w, j, k) :: j == k)
  }

  ghost predicate JournalBacked(w: World, hash: Digest) {
    forall tok {:trigger Backed(w, hash, tok)} | tok in w.tables.prepared :: Backed(w, hash, tok)
  }

  ghost predicate Safe(w: World, hash: Digest) {
    Inv(w.tables) && StorageOk(w) && JournalBacked(w, hash)
  }

  /** A new catalog over any storage root. */
  predicate Initial(w: World) {
    w.tables == EMPTY && w.uploads == map[]
  }

  lemma InitiallySafe(w: World, hash: Digest)
    requires Initial(w)
    ensures Safe(w, hash)
  {
    EmptyInv();
  }

  /** What the invariant is for: a journaled object that is not queued holds exactly the journaled bytes. */
  lemma JournaledBytes(w: World, hash: Digest, tok: Token)
    requires Safe(w, hash) && tok in w.tables.prepared && w.tables.prepared[tok].key !in w.tables.gc
    ensures var p := w.tables.prepared[tok];
      p.key in w.store && |w.store[p.key]| == p.size && hash(w.store[p.key]) == p.digest
  {
    assert Backed(w, hash, tok) && UploadOk(w, w.tables.prepared[tok].key);
  }

  /** LocalStorage.materialize: the bytes, or what is wrong with them. */
  function Materialize(store: map<ObjectKey, Bytes>, hash: Digest, key: ObjectKey, size: nat, digest: string)
    : Result<Bytes, Error>
  {
    if key !in store || |store[key]| != size || hash(store[key]) != digest then Failure(CorruptObject)
    else Success(store[key])
  }

  /** Reading back succeeds exactly for an object of the recorded size and digest, and yields its bytes. */
  lemma MaterializeMeans(store: map<ObjectKey, Bytes>, hash: Digest, key: ObjectKey, size: nat, digest: string, bytes: Bytes)
    ensures Materialize(store, hash, key, size, digest) == Success(bytes)
      <==> key in store && store[key] == bytes && |bytes| == size && hash(bytes) == digest
  {
  }

  /** Every blob, publishing or ready, can be read back and verified, and holds what its upload was given. */
  lemma BlobsMaterialize(w: World, hash: Digest, id: Id)
    requires Safe(w, hash) && id in w.tables.blobs
    ensures RecordOf(w.tables, id, false).Success?
    ensures var p := RecordOf(w.tables, id, false).value.file;
      && Materialize(w.store, hash, p.key, p.size, p.digest).Success?
      && p.key in w.uploads && Materialize(w.store, hash, p.key, p.size, p.digest).value == w.uploads[p.key].bytes
      && p.key in w.store && w.store[p.key] == w.uploads[p.key].bytes
      && |w.store[p.key]| == p.size && hash(w.store[p.key]) == p.digest
  {
    RecordSucceeds(w.tables, id);
    LiveIsNotQueued(w.tables, id);
    JournaledBytes(w, hash, w.tables.objects[id]);
    assert Backed(w, hash, w.tables.objects[id]) && UploadOk(w, w.tables.prepared[w.tables.objects[id]].key);
  }

  // ---------------------------------------------------------------- runs

  /** The world after a run; a step that is not enabled does nothing. */
  function Run(w: World, hash: Digest, steps: seq<Step>): World
    decreases |steps|
  {
    if |steps| == 0 then w
    else Run(if Enabled(w, hash, steps[0]) then Next(w, hash, steps[0]) else w, hash, steps[1..])
  }
}
