/** The catalog's tables as one value, the facts every committed catalog keeps, and what history may never undo. */
module Tables {
  import opened Wrappers
  import opened Errors
  import opened Ordering
  import opened Schemas

  type Id = string
  type Token = string

  /** A key in a storage root: a payload, an upload stage, or any other file there. */
  datatype Name = Object(hex: string) | Staging(hex: string) | Other(path: string)

  datatype ObjectKey = ObjectKey(root: string, name: Name)

  datatype Encoding = Encoding(id: string, version: nat, descriptor: string)

  /** A row of ms_prepared with its ms_encodings row, and the token value handed to callers. */
  datatype PreparedFile = PreparedFile(
    token: Token, key: ObjectKey, size: nat, digest: string, encoding: Option<Encoding>,
    schemaName: string, schemaVersion: nat)

  datatype State = Publishing | Ready | PendingDelete

  datatype Blob = Blob(schemaName: string, schemaVersion: nat, state: State)

  /** A row of the metadata table: schema version, concurrency version and that version's declared fields. */
  datatype Meta = Meta(schemaVersion: nat, version: nat, values: Values)

  datatype Retirement = Retirement(token: Token, schemaName: string, schemaVersion: nat, version: nat)

  datatype Reason = Retired | Discarded | Orphan

  datatype Job = Job(token: Option<Token>, blob: Option<Id>, reason: Reason, done: bool, lastError: Option<string>)

  /** A row of ms_migrations. */
  datatype Migration = Migration(
    schemaName: string, source: nat, target: nat, transformId: string, complete: bool,
    total: nat, migrated: nat, lastId: Option<Id>)

  /** A row of ms_migration_steps, present only while one row is being rewritten. */
  datatype MigrationStep = MigrationStep(name: string, expected: nat)

  datatype Tables = Tables(
    schemas: map<string, seq<BlobSchema>>,
    payload: set<(string, nat)>,     // ms_payload_schemas
    lifecycle: set<string>,          // ms_lifecycle_schemas
    prepared: map<Token, PreparedFile>,
    blobs: map<Id, Blob>,
    metadata: map<Id, Meta>,
    objects: map<Id, Token>,
    retired: map<Id, Retirement>,
    gc: map<ObjectKey, Job>,
    migrations: map<string, Migration>,
    steps: map<Id, MigrationStep>)

  /** The new tables of a committed operation and the value it returns. */
  datatype Committed<+R> = Committed(tables: Tables, value: R)

  datatype Record = Record(
    id: Id, schemaName: string, schemaVersion: nat, state: State, file: PreparedFile, version: nat, metadata: Values)

  /** A retirement joined with its cleanup job. */
  datatype Status = Status(id: Id, retirement: Retirement, key: ObjectKey, job: Job)

  const EMPTY := Tables(map[], {}, {}, map[], map[], map[], map[], map[], map[], map[], map[])

  // ---------------------------------------------------------------- reading

  function Latest(t: Tables, name: string): nat {
    if name in t.schemas then |t.schemas[name]| else 0
  }

  predicate Declared(t: Tables, name: string, version: nat) {
    name in t.schemas && 1 <= version <= |t.schemas[name]|
  }

  predicate Installed(t: Tables, schema: BlobSchema) {
    Declared(t, schema.name, schema.version) && t.schemas[schema.name][schema.version - 1] == schema
  }

  /** The publication guard of a schema name exists; its first version was enrolled with it. */
  predicate Adopted(t: Tables, name: string) {
    (name, 1) in t.payload
  }

  predicate Journaled(t: Tables, p: PreparedFile) {
    p.token in t.prepared && t.prepared[p.token] == p
  }

  predicate Bound(t: Tables, token: Token) {
    exists id | id in t.objects :: t.objects[id] == token
  }

  predicate Queued(t: Tables, token: Token) {
    exists k | k in t.gc :: t.gc[k].token == Some(token)
  }

  predicate KeyJournaled(t: Tables, key: ObjectKey) {
    exists tok | tok in t.prepared :: t.prepared[tok].key == key
  }

  predicate Running(t: Tables, name: string) {
    exists m | m in t.migrations :: t.migrations[m].schemaName == name && !t.migrations[m].complete
  }

  /** Store._schema: the declaration is installed unchanged, newest for writing, and has its publication guard. */
  function CheckSchema(t: Tables, schema: BlobSchema, write: bool): Result<(), Error> {
    if !Installed(t, schema) then Failure(UndeclaredSchema)
    else if write && schema.version != Latest(t, schema.name) then Failure(ReadOnlySchema)
    else if !Adopted(t, schema.name) then Failure(NotEnrolled)
    else Success(())
  }

  /** Store._record: one blob with its association and metadata, each consistency check in the source's order. */
  function RecordOf(t: Tables, id: Id, readyOnly: bool): Result<Record, Error> {
    if id !in t.blobs || (readyOnly && !t.blobs[id].state.Ready?) then Failure(NoSuchBlob) else
      var b := t.blobs[id];
      if id !in t.objects || t.objects[id] !in t.prepared then Failure(MissingAssociation) else
        var p := t.prepared[t.objects[id]];
        if p.schemaName != b.schemaName || p.schemaVersion > b.schemaVersion then Failure(MissingAssociation)
        else if id !in t.metadata then Failure(MissingMetadata) else
          var m := t.metadata[id];
          if m.schemaVersion != b.schemaVersion then Failure(VersionMismatch)
          else if !Declared(t, b.schemaName, b.schemaVersion)
            || m.values.Keys != t.schemas[b.schemaName][b.schemaVersion - 1].fields.Keys then Failure(MissingDeclaration)
          else Success(Record(id, b.schemaName, b.schemaVersion, b.state, p, m.version, m.values))
  }

  // ---------------------------------------------------------------- what every committed catalog keeps

  ghost predicate SchemaOk(t: Tables, n: string)
    requires n in t.schemas
  {
    && |t.schemas[n]| > 0
    && forall i | 0 <= i < |t.schemas[n]| :: t.schemas[n][i].name == n && t.schemas[n][i].version == i + 1
  }

  ghost predicate SchemasOk(t: Tables) {
    forall n {:trigger SchemaOk(t, n)} | n in t.schemas :: SchemaOk(t, n)
  }

  /** Every version of an adopted schema is enrolled, and a schema is adopted before it evolves. */
  ghost predicate AdoptionOk(t: Tables, n: string)
    requires n in t.schemas
  {
    && (Adopted(t, n) ==> forall v: nat | 1 <= v <= |t.schemas[n]| :: (n, v) in t.payload)
    && (|t.schemas[n]| > 1 ==> Adopted(t, n))
  }

  ghost predicate Enrolled(t: Tables, n: string, v: nat) {
    (n, v) in t.payload ==> Adopted(t, n) && Declared(t, n, v)
  }

  ghost predicate BlobAdopted(t: Tables, id: Id)
    requires id in t.blobs
  {
    Adopted(t, t.blobs[id].schemaName)
  }

  /** Enrolment follows the declarations, and every blob's schema has its publication guard. */
  ghost predicate EnrolmentOk(t: Tables) {
    && (forall n {:trigger AdoptionOk(t, n)} | n in t.schemas :: AdoptionOk(t, n))
    && (forall n, v {:trigger Enrolled(t, n, v)} :: Enrolled(t, n, v))
    && t.lifecycle <= t.schemas.Keys
    && (forall id {:trigger BlobAdopted(t, id)} | id in t.blobs :: BlobAdopted(t, id))
  }

  ghost predicate FileOk(t: Tables, k: Token)
    requires k in t.prepared
  {
    var p := t.prepared[k];
    p.token == k && p.key.name.Object? && Declared(t, p.schemaName, p.schemaVersion)
  }

  ghost predicate SameKey(t: Tables, j: Token, k: Token) {
    j in t.prepared && k in t.prepared && t.prepared[j].key == t.prepared[k].key
  }

  ghost predicate JournalOk(t: Tables) {
    && (forall k {:trigger FileOk(t, k)} | k in t.prepared :: FileOk(t, k))
    && (forall j, k | SameKey(t, j, k) :: j == k)
  }

  /** A blob has its association and metadata, and their schema versions agree. */
  ghost predicate BlobOk(t: Tables, id: Id)
    requires id in t.blobs
  {
    && id in t.objects && t.objects[id] in t.prepared && id in t.metadata
    && BlobRowsOk(t, t.blobs[id], t.prepared[t.objects[id]], t.metadata[id])
  }

  ghost predicate BlobRowsOk(t: Tables, b: Blob, p: PreparedFile, m: Meta) {
    && !b.state.PendingDelete?
    && Declared(t, b.schemaName, b.schemaVersion)
    && p.schemaName == b.schemaName && p.schemaVersion <= b.schemaVersion
    && m.schemaVersion == b.schemaVersion && m.version >= 1
    && Conforms(t.schemas[b.schemaName][b.schemaVersion - 1], m.values)
  }

  ghost predicate SameToken(t: Tables, i: Id, j: Id) {
    i in t.objects && j in t.objects && t.objects[i] == t.objects[j]
  }

  ghost predicate BlobsOk(t: Tables) {
    && t.objects.Keys == t.blobs.Keys && t.metadata.Keys == t.blobs.Keys
    && (forall id {:trigger BlobOk(t, id)} | id in t.blobs :: BlobOk(t, id))
    && (forall i, j | SameToken(t, i, j) :: i == j)
  }

  /** A retired id is never live, and keeps the cleanup job of its own object. */
  ghost predicate RetirementOk(t: Tables, id: Id)
    requires id in t.retired
  {
    var tok := t.retired[id].token;
    && id !in t.blobs && tok in t.prepared
    && t.prepared[tok].key in t.gc
    && var job := t.gc[t.prepared[tok].key];
    job.token == Some(tok) && job.blob == Some(id) && job.reason == Retired
  }

  ghost predicate RetiredOk(t: Tables) {
    forall id {:trigger RetirementOk(t, id)} | id in t.retired :: RetirementOk(t, id)
  }

  /** A job is for an object or a stage; it names the journaled token of its key, if there is one, and why it was queued. */
  ghost predicate JobOk(t: Tables, k: ObjectKey)
    requires k in t.gc
  {
    var job := t.gc[k];
    && !k.name.Other?
    && (job.token.Some? ==> job.token.value in t.prepared && t.prepared[job.token.value].key == k)
    && match job.reason
       case Retired => job.blob.Some? && job.blob.value in t.retired && job.token == Some(t.retired[job.blob.value].token)
       case Discarded => job.blob == None && job.token.Some?
       case Orphan => job.blob == None && job.token == None
  }

  /** A queued key belongs to no live association, and to no other token. */
  ghost predicate Unbound(t: Tables, tok: Token)
    requires tok in t.prepared
  {
    t.prepared[tok].key in t.gc ==> t.gc[t.prepared[tok].key].token == Some(tok) && !Bound(t, tok)
  }

  ghost predicate QueueOk(t: Tables) {
    && (forall k {:trigger JobOk(t, k)} | k in t.gc :: JobOk(t, k))
    && (forall tok {:trigger Unbound(t, tok)} | tok in t.prepared :: Unbound(t, tok))
  }

  predicate AfterMark(mark: Option<Id>, id: Id) {
    mark.None? || TextLess(mark.value, id)
  }

  /** The rows of a schema at one version. */
  function AtVersion(t: Tables, name: string, version: nat): set<Id> {
    set id | id in t.blobs && t.blobs[id].schemaName == name && t.blobs[id].schemaVersion == version
  }

  /** A row below the newest version awaits the running migration, ahead of its checkpoint. */
  ghost predicate Awaits(t: Tables, m: string, id: Id)
    requires id in t.blobs
  {
    && m in t.migrations && !t.migrations[m].complete
    && t.migrations[m].schemaName == t.blobs[id].schemaName
    && t.migrations[m].source == t.blobs[id].schemaVersion
    && AfterMark(t.migrations[m].lastId, id)
  }

  ghost predicate MigrationOk(t: Tables, m: string)
    requires m in t.migrations
  {
    var j := t.migrations[m];
    && j.target == j.source + 1 && 1 <= j.source && Declared(t, j.schemaName, j.target)
    && (!j.complete ==> j.target == Latest(t, j.schemaName))
    && (!j.complete ==> j.migrated + |AtVersion(t, j.schemaName, j.source)| == j.total)
    && (j.complete ==> j.migrated == j.total)
  }

  ghost predicate SameTarget(t: Tables, m: string, n: string) {
    && m in t.migrations && n in t.migrations
    && t.migrations[m].schemaName == t.migrations[n].schemaName && t.migrations[m].target == t.migrations[n].target
  }

  /** A row is at the newest version, or awaits the running migration. */
  ghost predicate Scheduled(t: Tables, id: Id)
    requires id in t.blobs
  {
    t.blobs[id].schemaVersion == Latest(t, t.blobs[id].schemaName) || exists m :: Awaits(t, m, id)
  }

  ghost predicate MigrationsOk(t: Tables) {
    && t.steps == map[]
    && (forall m {:trigger MigrationOk(t, m)} | m in t.migrations :: MigrationOk(t, m))
    && (forall m, n | SameTarget(t, m, n) :: m == n)
    && (forall id {:trigger Scheduled(t, id)} | id in t.blobs :: Scheduled(t, id))
  }

  /** The invariant of every committed catalog. */
  ghost predicate Inv(t: Tables) {
    SchemasOk(t) && EnrolmentOk(t) && JournalOk(t) && BlobsOk(t) && RetiredOk(t) && QueueOk(t) && MigrationsOk(t)
  }

  lemma EmptyInv()
    ensures Inv(EMPTY)
  {
  }

  /** Every blob reads back, at any moment between commits, mid-migration included. */
  lemma RecordSucceeds(t: Tables, id: Id)
    requires Inv(t) && id in t.blobs
    ensures RecordOf(t, id, false).Success?
    ensures RecordOf(t, id, true).Success? <==> t.blobs[id].state.Ready?
  {
    assert BlobOk(t, id);
  }

  /** No object of a live blob is queued, under its key or its token. */
  lemma LiveIsNotQueued(t: Tables, id: Id)
    requires Inv(t) && id in t.objects
    ensures t.objects[id] in t.prepared
    ensures t.prepared[t.objects[id]].key !in t.gc && !Queued(t, t.objects[id])
  {
    assert BlobOk(t, id) && Unbound(t, t.objects[id]);
    forall k | k in t.gc ensures t.gc[k].token != Some(t.objects[id]) {
      assert JobOk(t, k);
    }
  }

  /** ms_retired joined with ms_gc on the blob id. */
  predicate Joins(t: Tables, id: Id, s: Status) {
    && id in t.retired && s.key in t.gc && t.gc[s.key].blob == Some(id)
    && s == Status(id, t.retired[id], s.key, t.gc[s.key])
  }

  /** lifecycle.retired, read through the retired token's key. */
  function RetiredStatus(t: Tables, id: Id): Option<Status> {
    if id in t.retired && t.retired[id].token in t.prepared then
      var k := t.prepared[t.retired[id].token].key;
      if k in t.gc && t.gc[k].blob == Some(id) then Some(Status(id, t.retired[id], k, t.gc[k])) else None
    else None
  }

  /** The join has exactly one row for a retired id and none otherwise. */
  lemma RetiredStatusIsTheJoin(t: Tables, id: Id)
    requires Inv(t)
    ensures RetiredStatus(t, id).Some? <==> id in t.retired
    ensures forall s :: Joins(t, id, s) <==> RetiredStatus(t, id) == Some(s)
  {
    assert id in t.retired ==> RetirementOk(t, id);
    forall s | Joins(t, id, s) ensures RetiredStatus(t, id) == Some(s) {
      assert JobOk(t, s.key);
    }
  }

  // ---------------------------------------------------------------- history

  /** What any later committed catalog keeps of an earlier one. */
  ghost predicate Extends(s: Tables, t: Tables) {
    KeepsRecords(s, t) && KeepsBlobs(s, t)
  }

  /** Declarations, enrolments, the journal, retirements and cleanup jobs only accumulate. */
  ghost predicate KeepsRecords(s: Tables, t: Tables) {
    && s.payload <= t.payload && s.lifecycle <= t.lifecycle
    && (forall n {:trigger KeptSchema(s, t, n)} | n in s.schemas :: KeptSchema(s, t, n))
    && (forall k {:trigger KeptFile(s, t, k)} | k in s.prepared :: KeptFile(s, t, k))
    && (forall id {:trigger KeptRetirement(s, t, id)} | id in s.retired :: KeptRetirement(s, t, id))
    && (forall k {:trigger KeptJob(s, t, k)} | k in s.gc :: KeptJob(s, t, k))
  }

  /** A blob keeps its object and only moves forward, until it is retired. */
  ghost predicate KeepsBlobs(s: Tables, t: Tables) {
    && (forall id {:trigger KeptOrRetired(s, t, id)} | id in s.objects :: KeptOrRetired(s, t, id))
    && (forall id {:trigger Advances(s, t, id)} | id in s.blobs && id in t.blobs :: Advances(s, t, id))
    && (forall id {:trigger Edits(s, t, id)} | id in s.metadata && id in t.metadata :: Edits(s, t, id))
  }

  ghost predicate KeptSchema(s: Tables, t: Tables, n: string)
    requires n in s.schemas
  {
    n in t.schemas && s.schemas[n] <= t.schemas[n]
  }

  ghost predicate KeptFile(s: Tables, t: Tables, k: Token)
    requires k in s.prepared
  {
    k in t.prepared && t.prepared[k] == s.prepared[k]
  }

  ghost predicate KeptRetirement(s: Tables, t: Tables, id: Id)
    requires id in s.retired
  {
    id in t.retired && t.retired[id] == s.retired[id]
  }

  ghost predicate KeptJob(s: Tables, t: Tables, k: ObjectKey)
    requires k in s.gc
  {
    k in t.gc && SameJob(s.gc[k], t.gc[k])
  }

  /** Cleanup never forgets or repurposes a job, and done is final. */
  predicate SameJob(a: Job, b: Job) {
    a.token == b.token && a.blob == b.blob && a.reason == b.reason && (a.done ==> b.done)
  }

  /** An association leaves only by retiring its own id and token. */
  ghost predicate KeptOrRetired(s: Tables, t: Tables, id: Id)
    requires id in s.objects
  {
    || (id in t.objects && t.objects[id] == s.objects[id])
    || (id in t.retired && t.retired[id].token == s.objects[id])
  }

  ghost predicate Advances(s: Tables, t: Tables, id: Id)
    requires id in s.blobs && id in t.blobs
  {
    var a, b := s.blobs[id], t.blobs[id];
    a.schemaName == b.schemaName && a.schemaVersion <= b.schemaVersion && (a.state.Ready? ==> b.state.Ready?)
  }

  /** The concurrency version counts the edits: an equal version means an untouched row. */
  ghost predicate Edits(s: Tables, t: Tables, id: Id)
    requires id in s.metadata && id in t.metadata
  {
    s.metadata[id].version < t.metadata[id].version || s.metadata[id] == t.metadata[id]
  }

  lemma ExtendsReflexive(t: Tables)
    ensures Extends(t, t)
  {
  }

  lemma KeepsRecordsTransitive(s: Tables, t: Tables, u: Tables)
    requires KeepsRecords(s, t) && KeepsRecords(t, u)
    ensures KeepsRecords(s, u)
  {
    forall n | n in s.schemas ensures KeptSchema(s, u, n) {
      assert KeptSchema(s, t, n) && KeptSchema(t, u, n);
      assert s.schemas[n] <= t.schemas[n] <= u.schemas[n];
    }
    forall k | k in s.prepared ensures KeptFile(s, u, k) {
      assert KeptFile(s, t, k) && KeptFile(t, u, k);
    }
    forall id | id in s.retired ensures KeptRetirement(s, u, id) {
      assert KeptRetirement(s, t, id) && KeptRetirement(t, u, id);
    }
    forall k | k in s.gc ensures KeptJob(s, u, k) {
      assert KeptJob(s, t, k) && KeptJob(t, u, k);
    }
  }

  lemma KeepsBlobsTransitive(s: Tables, t: Tables, u: Tables)
    requires s.blobs.Keys == s.objects.Keys == s.metadata.Keys
    requires t.blobs.Keys == t.objects.Keys == t.metadata.Keys
    requires u.blobs.Keys == u.objects.Keys == u.metadata.Keys
    requires KeepsRecords(t, u) && RetiredOk(u)
    requires KeepsBlobs(s, t) && KeepsBlobs(t, u)
    ensures KeepsBlobs(s, u)
  {
    forall id | id in s.objects
      ensures KeptOrRetired(s, u, id)
      ensures id in u.objects ==> id in t.objects
    {
      assert KeptOrRetired(s, t, id);
      if id in t.objects && t.objects[id] == s.objects[id] {
        assert KeptOrRetired(t, u, id);
      } else {
        assert KeptRetirement(t, u, id) && RetirementOk(u, id);
      }
    }
    forall id | id in s.blobs && id in u.blobs
      ensures Advances(s, u, id) && Edits(s, u, id)
    {
      assert id in s.objects && id in u.objects;
      assert Advances(s, t, id) && Advances(t, u, id) && Edits(s, t, id) && Edits(t, u, id);
    }
  }

  lemma ExtendsTransitive(s: Tables, t: Tables, u: Tables)
    requires Inv(s) && Inv(t) && Inv(u) && Extends(s, t) && Extends(t, u)
    ensures Extends(s, u)
  {
    KeepsRecordsTransitive(s, t, u);
    KeepsBlobsTransitive(s, t, u);
  }
}
