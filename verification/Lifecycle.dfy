/** What each catalog operation commits, and that it keeps every committed fact and undoes none. */
module Lifecycle {
  import opened Wrappers
  import opened Errors
  import opened Schemas
  import opened Tables
  import Ordering

  const MAX_VERSION: int := 0x7fff_ffff_ffff_ffff

  // ---------------------------------------------------------------- operations

  /** Catalog.install_schema: the declaration alone; later versions need a migration. */
  function Install(t: Tables, schema: BlobSchema): Result<Committed<()>, Error> {
    if Declared(t, schema.name, schema.version) then
      if Installed(t, schema) then Success(Committed(t, ())) else Failure(SchemaConflict)
    else if schema.version != 1 then Failure(SchemaConflict)
    else if schema.name in t.schemas then Failure(SchemaConflict)
    else Success(Committed(t.(schemas := t.schemas[schema.name := [schema]]), ()))
  }

  /** payload_catalog.install: the publication guard and its enrolment. */
  function Adopt(t: Tables, schema: BlobSchema): Result<Tables, Error> {
    if (schema.name, schema.version) in t.payload then Success(t)
    else if Adopted(t, schema.name) then Failure(SchemaConflict)
    else if exists id | id in t.blobs :: t.blobs[id].schemaName == schema.name && !t.blobs[id].state.Publishing?
      then Failure(SchemaConflict)
    else Success(t.(payload := t.payload + {(schema.name, schema.version)}))
  }

  /** Store.install_schema: the declaration, its publication guard and its retirement guard. */
  function InstallSchema(t: Tables, schema: BlobSchema): Result<Committed<()>, Error> {
    var installed := Install(t, schema);
    if installed.Failure? then Failure(installed.error) else
    var adopted := Adopt(installed.value.tables, schema);
    if adopted.Failure? then Failure(adopted.error)
    else Success(Committed(adopted.value.(lifecycle := adopted.value.lifecycle + {schema.name}), ()))
  }

  /** Store.install_lifecycle: retirement guards for every declared schema. */
  function InstallLifecycle(t: Tables): Tables {
    t.(lifecycle := t.lifecycle + t.schemas.Keys)
  }

  /** The transaction of _prepare_snapshot that journals a completed upload. */
  function Journal(t: Tables, schema: BlobSchema, p: PreparedFile): Result<Committed<PreparedFile>, Error> {
    var check := CheckSchema(t, schema, true);
    if check.Failure? then Failure(check.error)
    else if p.token in t.prepared || KeyJournaled(t, p.key) || p.key in t.gc then Failure(Refused)
    else Success(Committed(t.(prepared := t.prepared[p.token := p]), p))
  }

  function Finalize(t: Tables, root: string, p: PreparedFile, schema: BlobSchema, metadata: PyMapping, id: Id)
    : Result<Committed<Record>, Error>
  {
    var check := CheckSchema(t, schema, true);
    if check.Failure? then Failure(check.error) else
    var values := NormalizeMetadata(schema, metadata);
    if values.Failure? then Failure(values.error)
    else if !Journaled(t, p) || p.key.root != root then Failure(UnknownToken)
    else if Queued(t, p.token) then Failure(RevokedToken)
    else if p.schemaName != schema.name || p.schemaVersion != schema.version then Failure(TokenOfOtherSchema)
    else if id in t.blobs then
      var existing := RecordOf(t, id, false);
      if existing.Failure? then Failure(existing.error)
      else if existing.value.file.token != p.token || existing.value.metadata != values.value then Failure(IdTaken)
      else Success(Committed(t, existing.value))
    else if Bound(t, p.token) then Failure(TokenBound)
    else if id in t.retired then Failure(Refused)
    else
      Success(Committed(
        t.(blobs := t.blobs[id := Blob(schema.name, schema.version, Publishing)],
           metadata := t.metadata[id := Meta(schema.version, 1, values.value)],
           objects := t.objects[id := p.token]),
        Record(id, schema.name, schema.version, Publishing, p, 1, values.value)))
  }

  function Publish(t: Tables, root: string, id: Id): Result<Committed<Record>, Error> {
    var record := RecordOf(t, id, false);
    if record.Failure? then Failure(record.error)
    else if record.value.file.key.root != root then Failure(OtherRoot)
    else if record.value.state.PendingDelete? then Failure(RetiredId)
    else Success(Committed(
      t.(blobs := t.blobs[id := t.blobs[id].(state := Ready)]),
      record.value.(state := Ready)))
  }

  function NormalizeChanges(schema: BlobSchema, changes: PyMapping): Result<Values, Error> {
    if changes == map[] || !(changes.Keys <= schema.fields.Keys) then Failure(UndeclaredField)
    else if exists n | n in changes :: schema.fields[n].immutable then Failure(ImmutableField)
    else if exists n | n in changes :: Normalize(schema.fields[n], changes[n]).Failure? then Failure(BadValue)
    else Success(map n | n in changes :: Normalize(schema.fields[n], changes[n]).value)
  }

  function UpdateMetadata(t: Tables, id: Id, schema: BlobSchema, changes: PyMapping, expected: int)
    : Result<Committed<Record>, Error>
  {
    var check := CheckSchema(t, schema, true);
    if check.Failure? then Failure(check.error)
    else if !(1 <= expected < MAX_VERSION) then Failure(BadArgument) else
    var values := NormalizeChanges(schema, changes);
    if values.Failure? then Failure(values.error) else
    var current := RecordOf(t, id, true);
    if current.Failure? then Failure(current.error) else
    var r := current.value;
    if r.schemaName != schema.name || r.schemaVersion != schema.version || r.version != expected then Failure(StaleVersion)
    else
      Success(Committed(
        t.(metadata := t.metadata[id := Meta(r.schemaVersion, r.version + 1, r.metadata + values.value)]),
        r.(version := r.version + 1, metadata := r.metadata + values.value)))
  }

  function Delete(t: Tables, root: string, id: Id, expected: int): Result<Committed<Status>, Error> {
    if !(1 <= expected <= MAX_VERSION) then Failure(BadArgument) else
    var previous := RetiredStatus(t, id);
    if previous.Some? then
      if previous.value.key.root != root then Failure(OtherRoot)
      else if previous.value.retirement.version != expected then Failure(StaleVersion)
      else Success(Committed(t, previous.value))
    else
      var record := RecordOf(t, id, false);
      if record.Failure? then Failure(record.error) else
      var r := record.value;
      if r.file.key.root != root then Failure(OtherRoot)
      else if r.version != expected then Failure(StaleVersion)
      else if Running(t, r.schemaName) then Failure(MigrationRunning)
      else
        var retirement := Retirement(r.file.token, r.schemaName, r.schemaVersion, r.version);
        var job := Job(Some(r.file.token), Some(id), Retired, false, None);
        Success(Committed(
          t.(blobs := t.blobs - {id}, metadata := t.metadata - {id}, objects := t.objects - {id},
             retired := t.retired[id := retirement], gc := t.gc[r.file.key := job]),
          Status(id, retirement, r.file.key, job)))
  }

  function Discard(t: Tables, root: string, p: PreparedFile): Result<Committed<Job>, Error> {
    if p.key.root != root then Failure(OtherRoot)
    else if !Journaled(t, p) then Failure(UnknownToken)
    else if Bound(t, p.token) then Failure(TokenBound)
    else if exists id | id in t.retired :: t.retired[id].token == p.token then Failure(TokenRetired)
    else if p.key in t.gc then Success(Committed(t, t.gc[p.key]))
    else
      var job := Job(Some(p.token), None, Discarded, false, None);
      Success(Committed(t.(gc := t.gc[p.key := job]), job))
  }

  predicate CleanupKey(name: Name) {
    name.Object? || name.Staging?
  }

  const ORPHAN := Job(None, None, Orphan, false, None)

  function QueueOrphans(t: Tables, root: string, names: seq<Name>): Result<Committed<seq<Name>>, Error> {
    if !(1 <= |names| <= 1000) || !Ordering.Distinct(names) || exists n | n in names :: !CleanupKey(n) then Failure(BadArgument)
    else if exists n | n in names :: KeyJournaled(t, ObjectKey(root, n)) then Failure(ProtectedObject)
    else
      var keys := set n | n in names :: ObjectKey(root, n);
      var added := map k | k in keys && k !in t.gc :: ORPHAN;
      Success(Committed(t.(gc := t.gc + added), names))
  }

  /** The transaction of cleanup that records the result of one deletion. */
  function RecordCleanup(t: Tables, key: ObjectKey, error: Option<string>): Tables {
    if key in t.gc && !t.gc[key].done then
      t.(gc := t.gc[key := t.gc[key].(done := error.None?, lastError := error)])
    else t
  }

  /** Store._retry: an existing blob of the id is returned only when it is exactly the requested one and ready. */
  function Retry(
    t: Tables, root: string, id: Id, schema: BlobSchema, values: Values, size: nat, digest: string, encoding: Option<Encoding>)
    : Result<Option<Record>, Error>
  {
    if id in t.retired then Failure(RetiredId)
    else if id !in t.blobs then Success(None) else
    var existing := RecordOf(t, id, false);
    if existing.Failure? then Failure(existing.error) else
    var r := existing.value;
    if r.schemaName != schema.name || r.schemaVersion != schema.version || r.metadata != values
      || r.file.key.root != root || r.file.size != size || r.file.digest != digest || r.file.encoding != encoding
      || !r.state.Ready? then Failure(IdTaken)
    else Success(Some(r))
  }

  /** The last transaction of import_file and put: return the winner, or finalize and publish. */
  function Import(t: Tables, root: string, p: PreparedFile, schema: BlobSchema, metadata: PyMapping, id: Id)
    : Result<Committed<Record>, Error>
  {
    var values := NormalizeMetadata(schema, metadata);
    if values.Failure? then Failure(values.error) else
    var existing := Retry(t, root, id, schema, values.value, p.size, p.digest, p.encoding);
    if existing.Failure? then Failure(existing.error)
    else if existing.value.Some? then Success(Committed(t, existing.value.value))
    else
      var finalized := Finalize(t, root, p, schema, metadata, id);
      if finalized.Failure? then Failure(finalized.error)
      else Publish(finalized.value.tables, root, id)
  }

  datatype Outcome =
    | Unknown
    | Prepared
    | Revoked               // "discarded"
    | Live(record: Record)  // "publishing" or "ready"
    | Gone(status: Status)  // "retired"

  function Resolve(t: Tables, root: string, id: Id, p: PreparedFile, schema: BlobSchema, metadata: PyMapping)
    : Result<Outcome, Error>
  {
    if p.key.root != root then Failure(OtherRoot) else
    var check := CheckSchema(t, schema, false);
    if check.Failure? then Failure(check.error) else
    var values := NormalizeMetadata(schema, metadata);
    if values.Failure? then Failure(values.error)
    else if p.schemaName != schema.name || p.schemaVersion != schema.version then Failure(TokenOfOtherSchema)
    else if p.token in t.prepared && !Journaled(t, p) then Failure(UnknownToken) else
    var prior := RetiredStatus(t, id);
    if prior.Some? then
      if prior.value.retirement.token != p.token then Failure(IdTaken) else Success(Gone(prior.value))
    else if id in t.blobs then
      var record := RecordOf(t, id, false);
      if record.Failure? then Failure(record.error) else
      var r := record.value;
      if r.file.token != p.token || r.schemaName != schema.name || r.schemaVersion != schema.version
        || r.metadata != values.value then Failure(IdTaken)
      else Success(Live(r))
    else if Bound(t, p.token) then Failure(TokenBound)
    else if Queued(t, p.token) then Success(Revoked)
    else if p.token !in t.prepared then Success(Unknown)
    else Success(Prepared)
  }
}
