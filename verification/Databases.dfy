/** The catalog's SQL tables in place: one method per statement, refused where a key, foreign key or trigger refuses it. */
module Databases {
  import opened Wrappers
  import opened Schemas
  import opened Tables

  class Database {
    var schemas: map<string, seq<BlobSchema>>
    var payload: set<(string, nat)>
    var lifecycle: set<string>
    var prepared: map<Token, PreparedFile>
    var blobs: map<Id, Blob>
    var metadata: map<Id, Meta>
    var objects: map<Id, Token>
    var retired: map<Id, Retirement>
    var gc: map<ObjectKey, Job>
    var migrations: map<string, Migration>
    var steps: map<Id, MigrationStep>

    constructor ()
      ensures T() == EMPTY
    {
      schemas, payload, lifecycle := map[], {}, {};
      prepared, blobs, metadata, objects := map[], map[], map[], map[];
      retired, gc, migrations, steps := map[], map[], map[], map[];
    }

    /** Everything the tables hold. */
    function T(): Tables
      reads this
    {
      Tables(schemas, payload, lifecycle, prepared, blobs, metadata, objects, retired, gc, migrations, steps)
    }

    /** ROLLBACK to the state a transaction began in. */
    method Rollback(saved: Tables)
      modifies this
      ensures T() == saved
    {
      schemas, payload, lifecycle := saved.schemas, saved.payload, saved.lifecycle;
      prepared, blobs, metadata, objects := saved.prepared, saved.blobs, saved.metadata, saved.objects;
      retired, gc, migrations, steps := saved.retired, saved.gc, saved.migrations, saved.steps;
    }

    // ---------------------------------------------------------------- ms_schemas, ms_prepared

    function Versions(name: string): seq<BlobSchema>
      reads this
    {
      if name in schemas then schemas[name] else []
    }

    method InsertSchema(schema: BlobSchema) returns (ok: bool)
      modifies this`schemas
      ensures ok <==> schema.version == |old(Versions(schema.name))| + 1
      ensures T() == if ok
        then old(T()).(schemas := old(schemas)[schema.name := old(Versions(schema.name)) + [schema]]) else old(T())
    {
      var versions := Versions(schema.name);
      ok := schema.version == |versions| + 1;
      if ok { schemas := schemas[schema.name := versions + [schema]]; }
    }

    /** Primary key and declaration reference; the first version's row comes with the publication guard. */
    method InsertPayloadSchema(name: string, version: nat) returns (ok: bool)
      modifies this`payload
      ensures ok <==> (name, version) !in old(payload) && Declared(T(), name, version)
      ensures T() == if ok then old(T()).(payload := old(payload) + {(name, version)}) else old(T())
    {
      ok := (name, version) !in payload && Declared(T(), name, version);
      if ok { payload := payload + {(name, version)}; }
    }

    /** The retirement guard of a schema and its row. */
    method InsertLifecycleSchema(name: string) returns (ok: bool)
      modifies this`lifecycle
      ensures ok <==> name !in old(lifecycle)
      ensures T() == if ok then old(T()).(lifecycle := old(lifecycle) + {name}) else old(T())
    {
      ok := name !in lifecycle;
      if ok { lifecycle := lifecycle + {name}; }
    }

    /** Primary key, unique storage key, declaration reference, and the ms_fresh_object_key trigger. */
    method InsertPrepared(p: PreparedFile) returns (ok: bool)
      modifies this`prepared
      ensures ok <==>
        && p.token !in old(prepared) && !KeyJournaled(old(T()), p.key) && p.key !in gc
        && Declared(T(), p.schemaName, p.schemaVersion)
      ensures T() == if ok then old(T()).(prepared := old(prepared)[p.token := p]) else old(T())
    {
      ok := p.token !in prepared && !KeyJournaled(T(), p.key) && p.key !in gc && Declared(T(), p.schemaName, p.schemaVersion);
      if ok { prepared := prepared[p.token := p]; }
    }

    // ---------------------------------------------------------------- ms_blobs, metadata, ms_objects

    /** Primary key, declaration reference, and the ms_no_resurrection trigger; the state defaults to publishing. */
    method InsertBlob(id: Id, name: string, version: nat) returns (ok: bool)
      modifies this`blobs
      ensures ok <==> id !in old(blobs) && id !in retired && Declared(T(), name, version)
      ensures T() == if ok then old(T()).(blobs := old(blobs)[id := Blob(name, version, Publishing)]) else old(T())
    {
      ok := id !in blobs && id !in retired && Declared(T(), name, version);
      if ok { blobs := blobs[id := Blob(name, version, Publishing)]; }
    }

    /** Primary key, column checks, blob reference, and the insert trigger: newest version, concurrency version 1. */
    method InsertMetadata(id: Id, schema: BlobSchema, values: Values) returns (ok: bool)
      modifies this`metadata
      ensures ok <==>
        && id !in old(metadata) && Conforms(schema, values) && schema.version == Latest(T(), schema.name)
        && id in blobs && blobs[id].schemaName == schema.name && blobs[id].schemaVersion == schema.version
      ensures T() == if ok then old(T()).(metadata := old(metadata)[id := Meta(schema.version, 1, values)]) else old(T())
    {
      ok := id !in metadata && Conforms(schema, values) && schema.version == Latest(T(), schema.name)
            && id in blobs && blobs[id].schemaName == schema.name && blobs[id].schemaVersion == schema.version;
      if ok { metadata := metadata[id := Meta(schema.version, 1, values)]; }
    }

    /** Primary key, unique token, both references, and the ms_unrevoked_object trigger. */
    method InsertObject(id: Id, token: Token) returns (ok: bool)
      modifies this`objects
      ensures ok <==>
        && id !in old(objects) && !Bound(old(T()), token) && id in blobs && token in prepared && !Queued(T(), token)
      ensures T() == if ok then old(T()).(objects := old(objects)[id := token]) else old(T())
    {
      ok := id !in objects && !Bound(T(), token) && id in blobs && token in prepared && !Queued(T(), token);
      if ok { objects := objects[id := token]; }
    }

    /** The publication guard: metadata and a journaled object of the blob's schema, at its version or an older one. */
    predicate Publishable(id: Id)
      requires id in blobs
      reads this
    {
      && id in metadata && metadata[id].schemaVersion == blobs[id].schemaVersion
      && id in objects && objects[id] in prepared
      && prepared[objects[id]].schemaName == blobs[id].schemaName
      && (if |Versions(blobs[id].schemaName)| > 1
          then prepared[objects[id]].schemaVersion <= blobs[id].schemaVersion
          else prepared[objects[id]].schemaVersion == blobs[id].schemaVersion)
    }

    /** UPDATE ... SET state='ready' WHERE state='publishing'; no row matching is not an error. */
    method SetReady(id: Id) returns (ok: bool)
      requires id in blobs
      modifies this`blobs
      ensures ok <==> (old(blobs)[id].state.Publishing? && Adopted(T(), old(blobs)[id].schemaName) ==> old(Publishable(id)))
      ensures T() == if ok && old(blobs)[id].state.Publishing?
        then old(T()).(blobs := old(blobs)[id := old(blobs)[id].(state := Ready)]) else old(T())
    {
      ok := blobs[id].state.Publishing? && Adopted(T(), blobs[id].schemaName) ==> Publishable(id);
      if ok && blobs[id].state.Publishing? { blobs := blobs[id := blobs[id].(state := Ready)]; }
    }

    /** The ms_state_transition trigger: only a retired blob may become pending_delete. */
    method SetPendingDelete(id: Id) returns (ok: bool)
      requires id in blobs
      modifies this`blobs
      ensures ok <==> old(blobs)[id].state.PendingDelete? || id in retired
      ensures T() == if ok then old(T()).(blobs := old(blobs)[id := old(blobs)[id].(state := PendingDelete)]) else old(T())
    {
      ok := blobs[id].state.PendingDelete? || id in retired;
      if ok { blobs := blobs[id := blobs[id].(state := PendingDelete)]; }
    }

    predicate MatchesRow(id: Id, schema: BlobSchema, expected: nat)
      reads this
    {
      id in metadata && metadata[id].schemaVersion == schema.version && metadata[id].version == expected
    }

    /** The update trigger: newest version only, immutable fields unchanged; and the column checks. */
    predicate Editable(id: Id, schema: BlobSchema, changes: Values)
      requires id in metadata
      reads this
    {
      && schema.version == Latest(T(), schema.name)
      && Conforms(schema, metadata[id].values + changes)
      && forall n | n in changes && n in schema.fields && schema.fields[n].immutable ::
           n in metadata[id].values && changes[n] == metadata[id].values[n]
    }

    /** UPDATE ... WHERE id, schema version and version match; no row matching is not an error. */
    method EditMetadata(id: Id, schema: BlobSchema, changes: Values, expected: nat) returns (ok: bool, changed: bool)
      modifies this`metadata
      ensures changed <==> old(MatchesRow(id, schema, expected))
      ensures ok <==> (changed ==> old(Editable(id, schema, changes)))
      ensures T() == if ok && changed
        then old(T()).(metadata := old(metadata)[id := Meta(schema.version, expected + 1, old(metadata)[id].values + changes)])
        else old(T())
    {
      changed := MatchesRow(id, schema, expected);
      ok := changed ==> Editable(id, schema, changes);
      if ok && changed { metadata := metadata[id := Meta(schema.version, expected + 1, metadata[id].values + changes)]; }
    }

    // ---------------------------------------------------------------- ms_retired, ms_gc

    /** Primary key, unique token, and references to the journal and the declaration. */
    method InsertRetired(id: Id, r: Retirement) returns (ok: bool)
      modifies this`retired
      ensures ok <==>
        && id !in old(retired) && (forall i | i in old(retired) :: old(retired)[i].token != r.token)
        && r.token in prepared && Declared(T(), r.schemaName, r.schemaVersion) && r.version > 0
      ensures T() == if ok then old(T()).(retired := old(retired)[id := r]) else old(T())
    {
      ok := id !in retired && (forall i | i in retired :: retired[i].token != r.token)
            && r.token in prepared && Declared(T(), r.schemaName, r.schemaVersion) && r.version > 0;
      if ok { retired := retired[id := r]; }
    }

    /** What the primary key, the unique columns and the blob reference of ms_gc allow. */
    predicate Insertable(key: ObjectKey, job: Job)
      reads this
    {
      && key !in gc
      && (job.token.Some? ==> !Queued(T(), job.token.value))
      && (job.blob.Some? ==> job.blob.value in retired && forall k | k in gc :: gc[k].blob != job.blob)
    }

    method InsertJob(key: ObjectKey, job: Job) returns (ok: bool)
      modifies this`gc
      ensures ok <==> old(Insertable(key, job))
      ensures T() == if ok then old(T()).(gc := old(gc)[key := job]) else old(T())
    {
      ok := Insertable(key, job);
      if ok { gc := gc[key := job]; }
    }

    /** INSERT OR IGNORE: a clash with the key or the token leaves the table as it is. */
    method InsertJobOrIgnore(key: ObjectKey, job: Job)
      requires job.blob.None?
      modifies this`gc
      ensures T() == if key !in old(gc) && (job.token.Some? ==> !Queued(old(T()), job.token.value))
        then old(T()).(gc := old(gc)[key := job]) else old(T())
    {
      if key !in gc && (job.token.Some? ==> !Queued(T(), job.token.value)) { gc := gc[key := job]; }
    }

    /** UPDATE ... WHERE state='pending'; identities never change and done never reverts. */
    method UpdateJob(key: ObjectKey, done: bool, error: Option<string>)
      modifies this`gc
      ensures T() == if key in old(gc) && !old(gc)[key].done
        then old(T()).(gc := old(gc)[key := old(gc)[key].(done := done, lastError := error)]) else old(T())
    {
      if key in gc && !gc[key].done { gc := gc[key := gc[key].(done := done, lastError := error)]; }
    }

    /** The enrolled schema's retirement guard and the newest-version guard on metadata rows. */
    method DeleteMetadata(id: Id) returns (ok: bool)
      requires id in metadata && id in blobs
      modifies this`metadata
      ensures ok <==>
        && (blobs[id].schemaName in lifecycle ==> id in retired)
        && old(metadata)[id].schemaVersion == Latest(T(), blobs[id].schemaName)
      ensures T() == if ok then old(T()).(metadata := old(metadata) - {id}) else old(T())
    {
      ok := (blobs[id].schemaName in lifecycle ==> id in retired)
            && metadata[id].schemaVersion == Latest(T(), blobs[id].schemaName);
      if ok { metadata := metadata - {id}; }
    }

    /** The ms_retire_object trigger. */
    method DeleteObject(id: Id) returns (ok: bool)
      requires id in objects
      modifies this`objects
      ensures ok <==> id in retired && retired[id].token == old(objects)[id]
      ensures T() == if ok then old(T()).(objects := old(objects) - {id}) else old(T())
    {
      ok := id in retired && retired[id].token == objects[id];
      if ok { objects := objects - {id}; }
    }

    /** The ms_retire_identity trigger, and the restrictive references from metadata, objects and steps. */
    method DeleteBlob(id: Id) returns (ok: bool)
      requires id in blobs
      modifies this`blobs
      ensures ok <==>
        && old(blobs)[id].state.PendingDelete? && id in retired && id !in objects && id !in metadata && id !in steps
      ensures T() == if ok then old(T()).(blobs := old(blobs) - {id}) else old(T())
    {
      ok := blobs[id].state.PendingDelete? && id in retired && id !in objects && id !in metadata && id !in steps;
      if ok { blobs := blobs - {id}; }
    }

    // ---------------------------------------------------------------- migrations

    /** Primary key, unique target, one running job per schema, and both declaration references. */
    method InsertMigration(name: string, job: Migration) returns (ok: bool)
      modifies this`migrations
      ensures ok <==>
        && name !in old(migrations)
        && (forall m | m in old(migrations) && old(migrations)[m].schemaName == job.schemaName ::
              old(migrations)[m].target != job.target)
        && !Running(old(T()), job.schemaName)
        && Declared(T(), job.schemaName, job.source) && Declared(T(), job.schemaName, job.target)
      ensures T() == if ok then old(T()).(migrations := old(migrations)[name := job]) else old(T())
    {
      ok := name !in migrations
            && (forall m | m in migrations && migrations[m].schemaName == job.schemaName ::
                  migrations[m].target != job.target)
            && !Running(T(), job.schemaName)
            && Declared(T(), job.schemaName, job.source) && Declared(T(), job.schemaName, job.target);
      if ok { migrations := migrations[name := job]; }
    }

    method InsertStep(id: Id, step: MigrationStep) returns (ok: bool)
      modifies this`steps
      ensures ok <==> id !in old(steps) && id in blobs && step.name in migrations
      ensures T() == if ok then old(T()).(steps := old(steps)[id := step]) else old(T())
    {
      ok := id !in steps && id in blobs && step.name in migrations;
      if ok { steps := steps[id := step]; }
    }

    /** The update trigger lets a row change version only under a matching step of a running job. */
    predicate Stepped(id: Id, target: nat)
      requires id in metadata && id in blobs
      reads this
    {
      && id in steps && steps[id].expected == metadata[id].version && steps[id].name in migrations
      && var job := migrations[steps[id].name];
      && !job.complete && job.schemaName == blobs[id].schemaName
      && job.source == metadata[id].schemaVersion && job.target == target
    }

    /** UPDATE metadata SET ..., schema_version=target, version=version+1 of one row. */
    method MoveMetadata(id: Id, target: BlobSchema, values: Values) returns (ok: bool)
      requires id in metadata && id in blobs
      modifies this`metadata
      ensures ok <==> old(Stepped(id, target.version)) && Conforms(target, values)
      ensures T() == if ok
        then old(T()).(metadata := old(metadata)[id := Meta(target.version, old(metadata)[id].version + 1, values)])
        else old(T())
    {
      ok := Stepped(id, target.version) && Conforms(target, values);
      if ok { metadata := metadata[id := Meta(target.version, metadata[id].version + 1, values)]; }
    }

    method SetBlobVersion(id: Id, version: nat) returns (ok: bool)
      requires id in blobs
      modifies this`blobs
      ensures ok <==> Declared(T(), old(blobs)[id].schemaName, version)
      ensures T() == if ok then old(T()).(blobs := old(blobs)[id := old(blobs)[id].(schemaVersion := version)]) else old(T())
    {
      ok := Declared(T(), blobs[id].schemaName, version);
      if ok { blobs := blobs[id := blobs[id].(schemaVersion := version)]; }
    }

    method DeleteStep(id: Id)
      modifies this`steps
      ensures T() == old(T()).(steps := old(steps) - {id})
    {
      steps := steps - {id};
    }

    method UpdateMigration(name: string, count: nat, last: Option<Id>, complete: bool)
      requires name in migrations
      modifies this`migrations
      ensures T() == old(T()).(migrations := old(migrations)[name := old(migrations)[name].(
        migrated := old(migrations)[name].migrated + count, lastId := last, complete := complete)])
    {
      migrations := migrations[name := migrations[name].(
        migrated := migrations[name].migrated + count, lastId := last, complete := complete)];
    }
  }
}
