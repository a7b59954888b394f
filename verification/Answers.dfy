/** When each catalog call succeeds, what it commits and what it is refused for; under the invariant no integrity error is left. */
module Answers {
  import opened Wrappers
  import opened Errors
  import opened Schemas
  import opened Tables
  import opened Lifecycle
  import opened LifecycleProofs
  import opened History
  import opened Migrations
  import opened MigrationProofs
  import opened Results
  import Layout

  // ---------------------------------------------------------------- reading

  ghost predicate IsQueued(t: Tables, token: Token) {
    exists k | k in t.gc :: t.gc[k].token == Some(token)
  }

  ghost predicate IsBound(t: Tables, token: Token) {
    exists id | id in t.objects :: t.objects[id] == token
  }

  /** The blob, its association and its metadata row, present and consistent. */
  ghost predicate Whole(t: Tables, id: Id) {
    && id in t.blobs && id in t.objects && t.objects[id] in t.prepared && id in t.metadata
    && var b, p, m := t.blobs[id], t.prepared[t.objects[id]], t.metadata[id];
    && p.schemaName == b.schemaName && p.schemaVersion <= b.schemaVersion && m.schemaVersion == b.schemaVersion
    && b.schemaName in t.schemas && 1 <= b.schemaVersion <= |t.schemas[b.schemaName]|
    && m.values.Keys == t.schemas[b.schemaName][b.schemaVersion - 1].fields.Keys
  }

  /** In any catalog a record reads back exactly when its rows are whole; a missing or unready blob is the only ordinary failure. */
  lemma RecordAnswer(t: Tables, id: Id, readyOnly: bool)
    ensures RecordOf(t, id, readyOnly) == Failure(NoSuchBlob) <==> id !in t.blobs || (readyOnly && t.blobs[id].state != Ready)
    ensures RecordOf(t, id, readyOnly).Success? <==> Whole(t, id) && (readyOnly ==> t.blobs[id].state == Ready)
    ensures RecordOf(t, id, readyOnly).Failure? ==>
      RecordOf(t, id, readyOnly).error in {NoSuchBlob, MissingAssociation, MissingMetadata, VersionMismatch, MissingDeclaration}
  {
  }

  /** A declaration is accepted when it is one of the installed ones, for writing only the newest, and has its guard. */
  lemma SchemaAnswer(t: Tables, schema: BlobSchema, write: bool)
    requires SchemasOk(t)
    ensures CheckSchema(t, schema, write) ==
      if schema.name !in t.schemas || schema !in t.schemas[schema.name] then Failure(UndeclaredSchema)
      else if write && schema.version < |t.schemas[schema.name]| then Failure(ReadOnlySchema)
      else if (schema.name, 1) !in t.payload then Failure(NotEnrolled)
      else Success(())
  {
    assert schema.name in t.schemas ==> SchemaOk(t, schema.name);
  }

  // ---------------------------------------------------------------- declarations

  /** Store.install_schema accepts an installed declaration again and a new name at version 1, and commits both enrolments. */
  lemma InstallAnswer(t: Tables, schema: BlobSchema)
    requires Inv(t) && schema.version >= 1
    ensures InstallSchema(t, schema) ==
      if (if schema.name in t.schemas then schema in t.schemas[schema.name] else schema.version == 1) then
        Success(Committed(
          t.(schemas := if schema.name in t.schemas then t.schemas else t.schemas[schema.name := [schema]],
             payload := t.payload + {(schema.name, schema.version)}, lifecycle := t.lifecycle + {schema.name}),
          ()))
      else Failure(SchemaConflict)
  {
    assert schema.name in t.schemas ==> SchemaOk(t, schema.name);
    if Install(t, schema).Success? {
      InstallKeeps(t, schema);
      InstalledAfter(t, schema);
      AdoptKeeps(Install(t, schema).value.tables, schema);
    }
  }

  // ---------------------------------------------------------------- uploads and blobs

  lemma JournalAnswer(t: Tables, schema: BlobSchema, p: PreparedFile)
    ensures Journal(t, schema, p) ==
      if CheckSchema(t, schema, true).Failure? then Failure(CheckSchema(t, schema, true).error)
      else if p.token in t.prepared || (exists tok | tok in t.prepared :: t.prepared[tok].key == p.key) || p.key in t.gc
        then Failure(Refused)
      else Success(Committed(t.(prepared := t.prepared[p.token := p]), p))
  {
  }

  /** The three rows of a new blob. */
  function WithBlob(t: Tables, id: Id, p: PreparedFile, schema: BlobSchema, values: Values, state: State): Tables {
    t.(blobs := t.blobs[id := Blob(schema.name, schema.version, state)],
       metadata := t.metadata[id := Meta(schema.version, 1, values)],
       objects := t.objects[id := p.token])
  }

  lemma FinalizeAnswer(t: Tables, root: string, p: PreparedFile, schema: BlobSchema, metadata: PyMapping, id: Id)
    requires Inv(t)
    ensures var r, check, values :=
        Finalize(t, root, p, schema, metadata, id), CheckSchema(t, schema, true), NormalizeMetadata(schema, metadata);
      if check.Failure? then r == Failure(check.error)
      else if values.Failure? then r == Failure(values.error)
      else if p.token !in t.prepared || t.prepared[p.token] != p || p.key.root != root then r == Failure(UnknownToken)
      else if IsQueued(t, p.token) then r == Failure(RevokedToken)
      else if (p.schemaName, p.schemaVersion) != (schema.name, schema.version) then r == Failure(TokenOfOtherSchema)
      else if id in t.blobs then
        if id in t.objects && t.objects[id] == p.token && id in t.metadata && t.metadata[id].values == values.value
        then r.Success? && r.value.tables == t
        else r == Failure(IdTaken)
      else if IsBound(t, p.token) then r == Failure(TokenBound)
      else if id in t.retired then r == Failure(Refused)
      else r.Success? && r.value.tables == WithBlob(t, id, p, schema, values.value, Publishing)
  {
    if id in t.blobs { RecordSucceeds(t, id); LiveIsBound(t, id); }
  }

  lemma PublishAnswer(t: Tables, root: string, id: Id)
    requires Inv(t)
    ensures var r := Publish(t, root, id);
      if id !in t.blobs then r == Failure(NoSuchBlob)
      else
        && id in t.objects && t.objects[id] in t.prepared
        && if t.prepared[t.objects[id]].key.root != root then r == Failure(OtherRoot)
           else r.Success? && r.value.tables == t.(blobs := t.blobs[id := t.blobs[id].(state := Ready)])
  {
    if id in t.blobs { assert BlobOk(t, id); }
  }

  lemma UpdateAnswer(t: Tables, id: Id, schema: BlobSchema, changes: PyMapping, expected: int)
    requires Inv(t)
    ensures var r, check := UpdateMetadata(t, id, schema, changes, expected), CheckSchema(t, schema, true);
      if check.Failure? then r == Failure(check.error)
      else if !(1 <= expected < 0x7fff_ffff_ffff_ffff) then r == Failure(BadArgument)
      else if changes == map[] || exists n | n in changes :: n !in schema.fields then r == Failure(UndeclaredField)
      else if exists n | n in changes :: n in schema.fields && schema.fields[n].immutable then r == Failure(ImmutableField)
      else if exists n | n in changes :: n in schema.fields && Normalize(schema.fields[n], changes[n]).Failure?
        then r == Failure(BadValue)
      else if id !in t.blobs || t.blobs[id].state != Ready then r == Failure(NoSuchBlob)
      else if id !in t.metadata || (t.blobs[id].schemaName, t.blobs[id].schemaVersion, t.metadata[id].version)
          != (schema.name, schema.version, expected)
        then r == Failure(StaleVersion)
      else r.Success?
  {
    ChangesAnswer(schema, changes);
    if id in t.blobs { assert BlobOk(t, id); RecordSucceeds(t, id); }
  }

  lemma ChangesAnswer(schema: BlobSchema, changes: PyMapping)
    ensures var r := NormalizeChanges(schema, changes);
      if changes == map[] || exists n | n in changes :: n !in schema.fields then r == Failure(UndeclaredField)
      else if exists n | n in changes :: n in schema.fields && schema.fields[n].immutable then r == Failure(ImmutableField)
      else if exists n | n in changes :: n in schema.fields && Normalize(schema.fields[n], changes[n]).Failure?
        then r == Failure(BadValue)
      else
        && r.Success? && r.value.Keys == changes.Keys
        && forall n | n in changes :: n in schema.fields && Normalize(schema.fields[n], changes[n]) == Success(r.value[n])
  {
    if exists n | n in changes :: n !in schema.fields {
    } else {
      assert changes.Keys <= schema.fields.Keys;
    }
  }

  // ---------------------------------------------------------------- retirement and cleanup

  /** A retirement is accepted at the blob's current version, of the same root, while its schema is not migrating; again, it only reports. */
  lemma DeleteAnswer(t: Tables, root: string, id: Id, expected: int)
    requires Inv(t)
    ensures var r := Delete(t, root, id, expected);
      if !(1 <= expected < 0x8000_0000_0000_0000) then r == Failure(BadArgument)
      else if id in t.retired then
        && t.retired[id].token in t.prepared
        && var retirement, key := t.retired[id], t.prepared[t.retired[id].token].key;
        && key in t.gc
        && if key.root != root then r == Failure(OtherRoot)
           else if retirement.version != expected then r == Failure(StaleVersion)
           else r == Success(Committed(t, Status(id, retirement, key, t.gc[key])))
      else if id !in t.blobs then r == Failure(NoSuchBlob)
      else
        && id in t.objects && t.objects[id] in t.prepared && id in t.metadata
        && var b, tok, key := t.blobs[id], t.objects[id], t.prepared[t.objects[id]].key;
        if key.root != root then r == Failure(OtherRoot)
        else if t.metadata[id].version != expected then r == Failure(StaleVersion)
        else if exists m | m in t.migrations :: t.migrations[m].schemaName == b.schemaName && !t.migrations[m].complete
          then r == Failure(MigrationRunning)
        else
          var retirement, job := Retirement(tok, b.schemaName, b.schemaVersion, expected), Job(Some(tok), Some(id), Retired, false, None);
          r == Success(Committed(
            t.(blobs := t.blobs - {id}, metadata := t.metadata - {id}, objects := t.objects - {id},
               retired := t.retired[id := retirement], gc := t.gc[key := job]),
            Status(id, retirement, key, job)))
  {
    RetiredStatusIsTheJoin(t, id);
    if id in t.retired {
      assert RetirementOk(t, id);
    } else if id in t.blobs {
      assert BlobOk(t, id) && FileOk(t, t.objects[id]);
      RecordSucceeds(t, id);
    }
  }

  lemma DiscardAnswer(t: Tables, root: string, p: PreparedFile)
    requires Inv(t)
    ensures var r := Discard(t, root, p);
      if p.key.root != root then r == Failure(OtherRoot)
      else if p.token !in t.prepared || t.prepared[p.token] != p then r == Failure(UnknownToken)
      else if IsBound(t, p.token) then r == Failure(TokenBound)
      else if exists id | id in t.retired :: t.retired[id].token == p.token then r == Failure(TokenRetired)
      else if p.key in t.gc then
        t.gc[p.key].token == Some(p.token) && t.gc[p.key].reason == Discarded && r == Success(Committed(t, t.gc[p.key]))
      else
        var job := Job(Some(p.token), None, Discarded, false, None);
        r == Success(Committed(t.(gc := t.gc[p.key := job]), job))
  {
    if p.token in t.prepared { assert Unbound(t, p.token); }
    if p.key in t.gc { assert JobOk(t, p.key); }
  }

  /** Only distinct object and stage keys that no journal row protects are queued; keys already queued keep their jobs. */
  lemma QueueAnswer(t: Tables, root: string, names: seq<Name>)
    ensures var r := QueueOrphans(t, root, names);
      if !(1 <= |names| <= 1000)
        || (exists i, j | 0 <= i < j < |names| :: names[i] == names[j])
        || (exists n | n in names :: n.Other?) then r == Failure(BadArgument)
      else if exists n, tok | n in names && tok in t.prepared :: t.prepared[tok].key == ObjectKey(root, n)
        then r == Failure(ProtectedObject)
      else
        && r.Success? && r.value.value == names && r.value.tables == t.(gc := r.value.tables.gc)
        && (forall k :: k in r.value.tables.gc <==> k in t.gc || (k.root == root && k.name in names))
        && (forall k | k in r.value.tables.gc ::
              r.value.tables.gc[k] == if k in t.gc then t.gc[k] else Job(None, None, Orphan, false, None))
  {
  }

  /** The result of one deletion: a pending job becomes done, or keeps its error and stays pending; nothing else changes. */
  lemma CleanupAnswer(t: Tables, key: ObjectKey, error: Option<string>, k: ObjectKey)
    ensures var u := RecordCleanup(t, key, error);
      && u == t.(gc := u.gc) && (k in u.gc <==> k in t.gc)
      && (k in t.gc && (k != key || t.gc[k].done) ==> u.gc[k] == t.gc[k])
      && (k in t.gc && k == key && !t.gc[k].done ==> u.gc[k] == t.gc[k].(done := error == None, lastError := error))
  {
  }

  // ---------------------------------------------------------------- import_file and put

  /** The blob of an id is exactly the requested one, and published. */
  ghost predicate Requested(
    t: Tables, root: string, id: Id, schema: BlobSchema, values: Values, size: nat, digest: string, encoding: Option<Encoding>)
  {
    && id in t.blobs && t.blobs[id] == Blob(schema.name, schema.version, Ready)
    && id in t.metadata && t.metadata[id].values == values
    && id in t.objects && t.objects[id] in t.prepared
    && var p := t.prepared[t.objects[id]];
    p.key.root == root && p.size == size && p.digest == digest && p.encoding == encoding
  }

  lemma RetryAnswer(
    t: Tables, root: string, id: Id, schema: BlobSchema, values: Values, size: nat, digest: string, encoding: Option<Encoding>)
    requires Inv(t)
    ensures var r := Retry(t, root, id, schema, values, size, digest, encoding);
      if id in t.retired then r == Failure(RetiredId)
      else if id !in t.blobs then r == Success(None)
      else if Requested(t, root, id, schema, values, size, digest, encoding)
        then r.Success? && r.value.Some? && r.value.value.id == id && Describes(t, r.value.value)
      else r == Failure(IdTaken)
  {
    if id in t.blobs { assert BlobOk(t, id); RecordSucceeds(t, id); }
  }

  lemma ImportAnswer(t: Tables, root: string, p: PreparedFile, schema: BlobSchema, metadata: PyMapping, id: Id)
    requires Inv(t)
    ensures var r, check, values :=
        Import(t, root, p, schema, metadata, id), CheckSchema(t, schema, true), NormalizeMetadata(schema, metadata);
      if values.Failure? then r == Failure(values.error)
      else if id in t.retired then r == Failure(RetiredId)
      else if id in t.blobs then
        if Requested(t, root, id, schema, values.value, p.size, p.digest, p.encoding) then r.Success? && r.value.tables == t
        else r == Failure(IdTaken)
      else if check.Failure? then r == Failure(check.error)
      else if p.token !in t.prepared || t.prepared[p.token] != p || p.key.root != root then r == Failure(UnknownToken)
      else if IsQueued(t, p.token) then r == Failure(RevokedToken)
      else if (p.schemaName, p.schemaVersion) != (schema.name, schema.version) then r == Failure(TokenOfOtherSchema)
      else if IsBound(t, p.token) then r == Failure(TokenBound)
      else r.Success? && r.value.tables == WithBlob(t, id, p, schema, values.value, Ready)
  {
    var values := NormalizeMetadata(schema, metadata);
    if values.Success? {
      RetryAnswer(t, root, id, schema, values.value, p.size, p.digest, p.encoding);
      FinalizeAnswer(t, root, p, schema, metadata, id);
      if id !in t.blobs && id !in t.retired && Finalize(t, root, p, schema, metadata, id).Success? {
        FreshImportAnswer(t, root, p, schema, metadata, id);
      }
    }
  }

  lemma FreshImportAnswer(t: Tables, root: string, p: PreparedFile, schema: BlobSchema, metadata: PyMapping, id: Id)
    requires Inv(t) && id !in t.blobs && id !in t.retired && Finalize(t, root, p, schema, metadata, id).Success?
    ensures NormalizeMetadata(schema, metadata).Success?
    ensures Import(t, root, p, schema, metadata, id).Success?
    ensures Import(t, root, p, schema, metadata, id).value.tables
      == WithBlob(t, id, p, schema, NormalizeMetadata(schema, metadata).value, Ready)
  {
    var f := Finalize(t, root, p, schema, metadata, id).value;
    FinalizeKeeps(t, root, p, schema, metadata, id);
    FinalizeAnswer(t, root, p, schema, metadata, id);
    ImportIsPublish(t, f, root, p, schema, metadata, id);
    PublishAnswer(f.tables, root, id);
  }

  // ---------------------------------------------------------------- resolve

  /** The outcome for an id and a token, case by case. */
  lemma ResolveAnswer(t: Tables, root: string, id: Id, p: PreparedFile, schema: BlobSchema, metadata: PyMapping)
    requires Inv(t)
    ensures var r, check, values :=
        Resolve(t, root, id, p, schema, metadata), CheckSchema(t, schema, false), NormalizeMetadata(schema, metadata);
      if p.key.root != root then r == Failure(OtherRoot)
      else if check.Failure? then r == Failure(check.error)
      else if values.Failure? then r == Failure(values.error)
      else if (p.schemaName, p.schemaVersion) != (schema.name, schema.version) then r == Failure(TokenOfOtherSchema)
      else if p.token in t.prepared && t.prepared[p.token] != p then r == Failure(UnknownToken)
      else if id in t.retired then
        if t.retired[id].token != p.token then r == Failure(IdTaken)
        else r.Success? && r.value.Gone? && Joins(t, id, r.value.status)
      else if id in t.blobs then
        if id in t.objects && t.objects[id] == p.token && id in t.metadata && t.metadata[id].values == values.value
          && t.blobs[id].schemaVersion == schema.version
        then r.Success? && r.value.Live? && r.value.record.id == id && Describes(t, r.value.record)
        else r == Failure(IdTaken)
      else if IsBound(t, p.token) then r == Failure(TokenBound)
      else if IsQueued(t, p.token) then r == Success(Revoked)
      else if p.token !in t.prepared then r == Success(Lifecycle.Unknown)
      else r == Success(Prepared)
  {
    RetiredStatusIsTheJoin(t, id);
    if id in t.blobs {
      assert BlobOk(t, id) && FileOk(t, t.objects[id]);
      RecordSucceeds(t, id);
      NotRetired(t, id);
    }
  }

  // ---------------------------------------------------------------- starting a migration

  /** No field name changes its kind between versions, and no two names differ only in the case of ASCII letters. */
  ghost predicate Compatible(schemas: seq<BlobSchema>) {
    && (forall a, b, n | a in schemas && b in schemas && n in a.fields && n in b.fields :: a.fields[n].kind == b.fields[n].kind)
    && (forall a, b, m, n | a in schemas && b in schemas && m in a.fields && n in b.fields && m != n ::
          Layout.Fold(m) != Layout.Fold(n))
  }

  lemma CompatibleMeans(schemas: seq<BlobSchema>)
    ensures Compatible(schemas) <==> Evolvable(schemas)
  {
    if Evolvable(schemas) {
      forall a, b, n | a in schemas && b in schemas && n in a.fields && n in b.fields
        ensures a.fields[n].kind == b.fields[n].kind
      {
        var i :| 0 <= i < |schemas| && schemas[i] == a;
        var j :| 0 <= j < |schemas| && schemas[j] == b;
      }
      forall a, b, m, n | a in schemas && b in schemas && m in a.fields && n in b.fields && m != n
        ensures Layout.Fold(m) != Layout.Fold(n)
      {
        var i :| 0 <= i < |schemas| && schemas[i] == a;
        var j :| 0 <= j < |schemas| && schemas[j] == b;
        assert m in Layout.Union(schemas) && n in Layout.Union(schemas);
      }
    }
    if Compatible(schemas) {
      forall m, n | m in Layout.Union(schemas) && n in Layout.Union(schemas) && Layout.Fold(m) == Layout.Fold(n) ensures m == n {
        var i :| 0 <= i < |schemas| && m in schemas[i].fields;
        var j :| 0 <= j < |schemas| && n in schemas[j].fields;
        assert schemas[i] in schemas && schemas[j] in schemas;
      }
      forall i, j, k | 0 <= i < |schemas| && 0 <= j < |schemas| && k in schemas[i].fields && k in schemas[j].fields
        ensures schemas[i].fields[k].kind == schemas[j].fields[k].kind
      {
        assert schemas[i] in schemas && schemas[j] in schemas;
      }
    }
  }

  /** What _initialize does once the source is declared and enrolled. */
  lemma ContinueAnswer(s: Tables, plan: Plan)
    requires SchemasOk(s) && ValidPlan(plan) && Installed(s, plan.source)
    ensures var r, name, source, target := Continue(s, plan), plan.source.name, plan.source.version, plan.target.version;
      if plan.name in s.migrations then
        var job := s.migrations[plan.name];
        if (job.schemaName, job.source, job.target, job.transformId) != (name, source, target, plan.transformId)
          then r == Failure(SchemaConflict)
        else if plan.target !in s.schemas[name] then r == Failure(UndeclaredSchema)
        else r == Success(Committed(s, job))
      else if source != |s.schemas[name]| then r == Failure(ReadOnlySchema)
      else if exists m | m in s.migrations :: s.migrations[m].schemaName == name && !s.migrations[m].complete
        then r == Failure(MigrationRunning)
      else if exists id | id in s.blobs :: s.blobs[id].schemaName == name && s.blobs[id].state != Ready
        then r == Failure(UnpublishedBlobs)
      else if !Compatible(s.schemas[name] + [plan.target]) then r == Failure(SchemaConflict)
      else
        var count := |set id | id in s.blobs && s.blobs[id].schemaName == name && s.blobs[id].schemaVersion == source|;
        var job := Migration(name, source, target, plan.transformId, false, count, 0, None);
        r == Success(Committed(
          s.(schemas := s.schemas[name := s.schemas[name] + [plan.target]], payload := s.payload + {(name, target)},
             migrations := s.migrations[plan.name := job]),
          job))
  {
    assert SchemaOk(s, plan.source.name);
    if plan.name !in s.migrations { CompatibleMeans(s.schemas[plan.source.name] + [plan.target]); }
  }

  /** A migration starts by declaring and enrolling its source, which only a conflicting declaration can prevent. */
  lemma InitializeAnswer(t: Tables, plan: Plan)
    requires Inv(t) && ValidPlan(plan) && plan.source.version >= 1
    ensures var name := plan.source.name;
      if (if name in t.schemas then plan.source in t.schemas[name] else plan.source.version == 1) then
        var s := t.(schemas := if name in t.schemas then t.schemas else t.schemas[name := [plan.source]],
                    payload := t.payload + {(name, plan.source.version)});
        Inv(s) && Installed(s, plan.source) && Initialize(t, plan) == Continue(s, plan)
      else Initialize(t, plan) == Failure(SchemaConflict)
  {
    assert plan.source.name in t.schemas ==> SchemaOk(t, plan.source.name);
    if Install(t, plan.source).Success? {
      PrepareKeeps(t, plan);
      InstallKeeps(t, plan.source);
      InstalledAfter(t, plan.source);
      AdoptKeeps(Install(t, plan.source).value.tables, plan.source);
    }
  }
}
