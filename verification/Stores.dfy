/** Store and lifecycle operations, statement by statement; under the invariant no trigger ever refuses them. */
module Stores {
  import opened Wrappers
  import opened Errors
  import opened Schemas
  import opened Tables
  import opened Lifecycle
  import opened LifecycleProofs
  import opened Databases
  import Ordering

  /** A result in place agrees with the committed value of the specification. */
  ghost predicate Agrees<R>(spec: Result<Committed<R>, Error>, t: Tables, r: Result<R, Error>) {
    if r.Success? then spec == Success(Committed(t, r.value)) else spec == Failure(r.error)
  }

  /** installation.install, in the caller's transaction. */
  method DeclareSchema(db: Database, schema: BlobSchema) returns (r: Result<(), Error>)
    modifies db
    ensures Agrees(Install(old(db.T()), schema), db.T(), r)
    ensures r.Failure? ==> db.T() == old(db.T())
  {
    if Declared(db.T(), schema.name, schema.version) {
      if !Installed(db.T(), schema) {
        return Failure(SchemaConflict);
      }
      return Success(());
    }
    if schema.version != 1 || schema.name in db.schemas {
      return Failure(SchemaConflict);
    }
    var ok := db.InsertSchema(schema);
    assert ok;
    assert [] + [schema] == [schema];
    return Success(());
  }

  /** payload_catalog.install, in the caller's transaction. */
  method AdoptSchema(db: Database, schema: BlobSchema) returns (r: Result<(), Error>)
    requires Declared(db.T(), schema.name, schema.version)
    modifies db
    ensures r.Success? ==> Lifecycle.Adopt(old(db.T()), schema) == Success(db.T())
    ensures r.Failure? ==> Lifecycle.Adopt(old(db.T()), schema) == Failure(r.error) && db.T() == old(db.T())
  {
    if (schema.name, schema.version) in db.payload {
      return Success(());
    }
    if Adopted(db.T(), schema.name) {
      return Failure(SchemaConflict);
    }
    if exists id | id in db.blobs :: db.blobs[id].schemaName == schema.name && !db.blobs[id].state.Publishing? {
      return Failure(SchemaConflict);
    }
    var ok := db.InsertPayloadSchema(schema.name, schema.version);
    assert ok;
    return Success(());
  }

  class Store {
    const db: Database
    const root: string

    constructor (db: Database, root: string)
      ensures this.db == db && this.root == root
    {
      this.db, this.root := db, root;
    }

    /** install_schema: the declaration and both enrolments in one transaction. */
    method InstallSchema(schema: BlobSchema) returns (r: Result<(), Error>)
      requires Inv(db.T()) && schema.version >= 1
      modifies db
      ensures Agrees(Lifecycle.InstallSchema(old(db.T()), schema), db.T(), r)
      ensures r.Failure? ==> db.T() == old(db.T())
    {
      ghost var t := db.T();
      r := DeclareSchema(db, schema);
      if r.Failure? {
        return;
      }
      InstallKeeps(t, schema);
      InstalledAfter(t, schema);
      AdoptKeeps(db.T(), schema);
      r := AdoptSchema(db, schema);
      assert r.Success?;
      ghost var a := db.T();
      if schema.name !in db.lifecycle {
        var ok := db.InsertLifecycleSchema(schema.name);
        assert ok;
      }
      assert db.lifecycle == a.lifecycle + {schema.name};
      assert db.T() == a.(lifecycle := a.lifecycle + {schema.name});
      return Success(());
    }

    /** install_lifecycle: one enrolment per declared schema that has none. */
    method InstallLifecycle()
      modifies db
      ensures db.T() == Lifecycle.InstallLifecycle(old(db.T()))
    {
      ghost var t := db.T();
      var todo := db.schemas.Keys;
      while todo != {}
        invariant todo <= t.schemas.Keys && db.T() == t.(lifecycle := t.lifecycle + (t.schemas.Keys - todo))
        decreases |todo|
      {
        var name :| name in todo;
        if name !in db.lifecycle {
          var ok := db.InsertLifecycleSchema(name);
          assert ok;
        }
        todo := todo - {name};
        assert db.lifecycle == t.lifecycle + (t.schemas.Keys - todo);
      }
      assert t.schemas.Keys - todo == t.schemas.Keys;
    }

    /** The journal transaction of _prepare_snapshot. */
    method Journal(schema: BlobSchema, p: PreparedFile) returns (r: Result<PreparedFile, Error>)
      requires Inv(db.T()) && p.schemaName == schema.name && p.schemaVersion == schema.version
      modifies db
      ensures Agrees(Lifecycle.Journal(old(db.T()), schema, p), db.T(), r)
      ensures r.Failure? ==> db.T() == old(db.T())
    {
      var check := CheckSchema(db.T(), schema, true);
      if check.Failure? {
        return Failure(check.error);
      }
      var ok := db.InsertPrepared(p);
      if !ok {
        return Failure(Refused);
      }
      return Success(p);
    }

    /** Bind a prepared token to an id: three inserts, then read the record back. */
    method Finalize(p: PreparedFile, schema: BlobSchema, metadata: PyMapping, id: Id) returns (r: Result<Record, Error>)
      requires Inv(db.T())
      modifies db
      ensures Agrees(Lifecycle.Finalize(old(db.T()), root, p, schema, metadata, id), db.T(), r)
    {
      ghost var t := db.T();
      var check := CheckSchema(db.T(), schema, true);
      if check.Failure? {
        return Failure(check.error);
      }
      var values := NormalizeMetadata(schema, metadata);
      if values.Failure? {
        return Failure(values.error);
      }
      if !Journaled(db.T(), p) || p.key.root != root {
        return Failure(UnknownToken);
      }
      if Queued(db.T(), p.token) {
        return Failure(RevokedToken);
      }
      if p.schemaName != schema.name || p.schemaVersion != schema.version {
        return Failure(TokenOfOtherSchema);
      }
      if id in db.blobs {
        var existing := RecordOf(db.T(), id, false);
        if existing.Failure? {
          return Failure(existing.error);
        }
        if existing.value.file.token != p.token || existing.value.metadata != values.value {
          return Failure(IdTaken);
        }
        return Success(existing.value);
      }
      if Bound(db.T(), p.token) {
        return Failure(TokenBound);
      }
      var ok := Bind(id, schema, values.value, p);
      if !ok {
        return Failure(Refused);
      }
      BoundReadsBack(t, db.T(), p, schema, values.value, id);
      r := RecordOf(db.T(), id, false);
    }

    /** The three inserts of finalize; only the ms_no_resurrection trigger may refuse. */
    method Bind(id: Id, schema: BlobSchema, values: Values, p: PreparedFile) returns (ok: bool)
      requires id !in db.blobs && id !in db.metadata && id !in db.objects
      requires Declared(db.T(), schema.name, schema.version) && schema.version == Latest(db.T(), schema.name)
      requires Conforms(schema, values) && p.token in db.prepared && !Bound(db.T(), p.token) && !Queued(db.T(), p.token)
      modifies db
      ensures ok <==> id !in old(db.retired)
      ensures ok ==> db.T() == old(db.T()).(
        blobs := old(db.blobs)[id := Blob(schema.name, schema.version, Publishing)],
        metadata := old(db.metadata)[id := Meta(schema.version, 1, values)],
        objects := old(db.objects)[id := p.token])
    {
      ok := db.InsertBlob(id, schema.name, schema.version);
      if !ok {
        return;
      }
      ok := db.InsertMetadata(id, schema, values);
      assert ok;
      ok := db.InsertObject(id, p.token);
      assert ok;
    }

    method Publish(id: Id) returns (r: Result<Record, Error>)
      requires Inv(db.T())
      modifies db
      ensures Agrees(Lifecycle.Publish(old(db.T()), root, id), db.T(), r)
      ensures r.Failure? ==> db.T() == old(db.T())
    {
      var record := RecordOf(db.T(), id, false);
      if record.Failure? {
        return Failure(record.error);
      }
      if record.value.file.key.root != root {
        return Failure(OtherRoot);
      }
      if record.value.state.PendingDelete? {
        return Failure(RetiredId);
      }
      GuardPasses(db, id);
      ghost var t := db.T();
      var ok := db.SetReady(id);
      assert ok;
      assert db.blobs == t.blobs[id := t.blobs[id].(state := Ready)];
      r := RecordOf(db.T(), id, true);
    }

    method UpdateMetadata(id: Id, schema: BlobSchema, changes: PyMapping, expected: int) returns (r: Result<Record, Error>)
      requires Inv(db.T())
      modifies db
      ensures Agrees(Lifecycle.UpdateMetadata(old(db.T()), id, schema, changes, expected), db.T(), r)
      ensures r.Failure? ==> db.T() == old(db.T())
    {
      ghost var t := db.T();
      var check := CheckSchema(db.T(), schema, true);
      if check.Failure? {
        return Failure(check.error);
      }
      if !(1 <= expected < MAX_VERSION) {
        return Failure(BadArgument);
      }
      var values := NormalizeChanges(schema, changes);
      if values.Failure? {
        return Failure(values.error);
      }
      var current := RecordOf(db.T(), id, true);
      if current.Failure? {
        return Failure(current.error);
      }
      if current.value.schemaName != schema.name || current.value.schemaVersion != schema.version
        || current.value.version != expected
      {
        return Failure(StaleVersion);
      }
      assert BlobOk(t, id);
      ChangesConform(schema, current.value.metadata, changes);
      var ok, changed := db.EditMetadata(id, schema, values.value, expected);
      assert ok && changed;
      UpdateReadsBack(t, id, schema, changes, expected);
      r := RecordOf(db.T(), id, true);
    }

    /** Retire a blob: seven statements in the order the triggers require. */
    method Delete(id: Id, expected: int) returns (r: Result<Status, Error>)
      requires Inv(db.T())
      modifies db
      ensures Agrees(Lifecycle.Delete(old(db.T()), root, id, expected), db.T(), r)
      ensures r.Failure? ==> db.T() == old(db.T())
    {
      ghost var t := db.T();
      if !(1 <= expected <= MAX_VERSION) {
        return Failure(BadArgument);
      }
      var previous := RetiredStatus(db.T(), id);
      if previous.Some? {
        if previous.value.key.root != root {
          return Failure(OtherRoot);
        }
        if previous.value.retirement.version != expected {
          return Failure(StaleVersion);
        }
        return Success(previous.value);
      }
      var record := RecordOf(db.T(), id, false);
      if record.Failure? {
        return Failure(record.error);
      }
      var row := record.value;
      if row.file.key.root != root {
        return Failure(OtherRoot);
      }
      if row.version != expected {
        return Failure(StaleVersion);
      }
      if Running(db.T(), row.schemaName) {
        return Failure(MigrationRunning);
      }
      RetirementIsAllowed(t, id);
      var retirement := Retirement(row.file.token, row.schemaName, row.schemaVersion, row.version);
      var job := Job(Some(row.file.token), Some(id), Retired, false, None);
      Retire(id, retirement, row.file.key, job);
      r := Success(Status(id, retirement, row.file.key, job));
    }

    method Retire(id: Id, retirement: Retirement, key: ObjectKey, job: Job)
      requires Retirable(db.T(), id, retirement, key, job)
      modifies db
      ensures db.T() == old(db.T()).(
        blobs := old(db.blobs) - {id}, metadata := old(db.metadata) - {id}, objects := old(db.objects) - {id},
        retired := old(db.retired)[id := retirement], gc := old(db.gc)[key := job])
    {
      var ok := db.InsertRetired(id, retirement);
      assert ok;
      ok := db.InsertJob(key, job);
      assert ok;
      ok := db.SetPendingDelete(id);
      assert ok;
      ok := db.DeleteMetadata(id);
      assert ok;
      ok := db.DeleteObject(id);
      assert ok;
      ok := db.DeleteBlob(id);
      assert ok;
      assert db.blobs == old(db.blobs) - {id};
    }

    method Discard(p: PreparedFile) returns (r: Result<Job, Error>)
      requires Inv(db.T())
      modifies db
      ensures Agrees(Lifecycle.Discard(old(db.T()), root, p), db.T(), r)
      ensures r.Failure? ==> db.T() == old(db.T())
    {
      if p.key.root != root {
        return Failure(OtherRoot);
      }
      if !Journaled(db.T(), p) {
        return Failure(UnknownToken);
      }
      if Bound(db.T(), p.token) {
        return Failure(TokenBound);
      }
      if exists id | id in db.retired :: db.retired[id].token == p.token {
        return Failure(TokenRetired);
      }
      QueuedByKey(db.T(), p);
      db.InsertJobOrIgnore(p.key, Job(Some(p.token), None, Discarded, false, None));
      // SELECT * FROM ms_gc WHERE token=?, first row: there is always exactly one.
      QueuedOnce(db.T(), p);
      assert p.key in db.gc && db.gc[p.key].token == Some(p.token);
      return Success(db.gc[p.key]);
    }

    method QueueOrphans(names: seq<Name>) returns (r: Result<seq<Name>, Error>)
      requires Inv(db.T())
      modifies db
      ensures Agrees(Lifecycle.QueueOrphans(old(db.T()), root, names), db.T(), r)
      ensures r.Failure? ==> db.T() == old(db.T())
    {
      if !(1 <= |names| <= 1000) || !Ordering.Distinct(names) || exists n | n in names :: !CleanupKey(n) {
        return Failure(BadArgument);
      }
      var saved := db.T();
      for i := 0 to |names|
        invariant forall j | 0 <= j < i :: !KeyJournaled(saved, ObjectKey(root, names[j]))
        invariant db.T() == saved.(gc := db.gc)
        invariant db.gc == saved.gc + Added(saved, root, names[..i])
      {
        if KeyJournaled(db.T(), ObjectKey(root, names[i])) {
          assert KeyJournaled(saved, ObjectKey(root, names[i]));
          db.Rollback(saved);
          return Failure(ProtectedObject);
        }
        AddedNext(saved, root, names, i);
        db.InsertJobOrIgnore(ObjectKey(root, names[i]), ORPHAN);
      }
      assert names[..|names|] == names;
      return Success(names);
    }

    /** One transaction around the last part of import_file and put. */
    method Import(p: PreparedFile, schema: BlobSchema, metadata: PyMapping, id: Id) returns (r: Result<Record, Error>)
      requires Inv(db.T())
      modifies db
      ensures Agrees(Lifecycle.Import(old(db.T()), root, p, schema, metadata, id), db.T(), r)
      ensures r.Failure? ==> db.T() == old(db.T())
    {
      var values := NormalizeMetadata(schema, metadata);
      if values.Failure? {
        return Failure(values.error);
      }
      var saved := db.T();
      var existing := Retry(db.T(), root, id, schema, values.value, p.size, p.digest, p.encoding);
      if existing.Failure? {
        return Failure(existing.error);
      }
      if existing.value.Some? {
        return Success(existing.value.value);
      }
      r := Finalize(p, schema, metadata, id);
      if r.Success? {
        FinalizeKeeps(saved, root, p, schema, metadata, id);
        r := Publish(id);
      }
      if r.Failure? { db.Rollback(saved); }
    }
  }

  // ---------------------------------------------------------------- why no statement is refused

  lemma GuardPasses(db: Database, id: Id)
    requires SchemasOk(db.T()) && RecordOf(db.T(), id, false).Success? && id in db.blobs
    requires JournalOk(db.T())
    ensures db.Publishable(id)
  {
    assert FileOk(db.T(), db.objects[id]);
  }

  ghost predicate Retirable(t: Tables, id: Id, r: Retirement, key: ObjectKey, job: Job) {
    && id in t.blobs && id in t.objects && id in t.metadata && t.objects[id] == r.token && t.objects[id] in t.prepared
    && job == Job(Some(r.token), Some(id), Retired, false, None)
    && id !in t.retired && key !in t.gc && !Queued(t, r.token) && id !in t.steps
    && (forall i | i in t.retired :: t.retired[i].token != r.token)
    && (forall k | k in t.gc :: t.gc[k].blob != Some(id))
    && Declared(t, r.schemaName, r.schemaVersion) && r.version > 0
    && t.metadata[id].schemaVersion == Latest(t, t.blobs[id].schemaName)
  }

  lemma RetirementIsAllowed(t: Tables, id: Id)
    requires Inv(t) && id in t.blobs && !Running(t, t.blobs[id].schemaName)
    ensures RecordOf(t, id, false).Success?
    ensures var row := RecordOf(t, id, false).value;
      Retirable(t, id, Retirement(row.file.token, row.schemaName, row.schemaVersion, row.version), row.file.key,
                Job(Some(row.file.token), Some(id), Retired, false, None))
  {
    assert BlobOk(t, id) && FileOk(t, t.objects[id]) && Scheduled(t, id);
    LiveIsNotQueued(t, id);
    forall i | i in t.retired ensures i != id && t.retired[i].token != t.objects[id] {
      assert RetirementOk(t, i);
    }
    forall k | k in t.gc ensures t.gc[k].blob != Some(id) {
      assert JobOk(t, k);
    }
  }

  /** A token is queued exactly under its own key. */
  lemma QueuedByKey(t: Tables, p: PreparedFile)
    requires Inv(t) && Journaled(t, p)
    ensures Queued(t, p.token) <==> p.key in t.gc
    ensures p.key in t.gc ==> t.gc[p.key].token == Some(p.token)
  {
    assert Unbound(t, p.token);
    if Queued(t, p.token) {
      var k :| k in t.gc && t.gc[k].token == Some(p.token);
      assert JobOk(t, k);
    }
  }

  lemma QueuedOnce(t: Tables, p: PreparedFile)
    requires Journaled(t, p) && p.key in t.gc && t.gc[p.key].token == Some(p.token)
    ensures Queued(t, p.token)
  {
  }

  function Added(t: Tables, root: string, names: seq<Name>): map<ObjectKey, Job> {
    var keys := set n | n in names :: ObjectKey(root, n);
    map k | k in keys && k !in t.gc :: ORPHAN
  }

  lemma AddedNext(t: Tables, root: string, names: seq<Name>, i: nat)
    requires i < |names|
    ensures var key := ObjectKey(root, names[i]);
      var before := t.gc + Added(t, root, names[..i]);
      t.gc + Added(t, root, names[..i + 1]) == if key in before then before else before[key := ORPHAN]
  {
    assert names[..i + 1] == names[..i] + [names[i]];
  }
}
