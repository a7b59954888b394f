/** Every catalog operation keeps the committed facts and undoes none of the history. */
module LifecycleProofs {
  import opened Wrappers
  import opened Errors
  import opened Schemas
  import opened Tables
  import opened Lifecycle

  ghost predicate Keeps(s: Tables, t: Tables) {
    Inv(t) && Extends(s, t)
  }

  // ---------------------------------------------------------------- frames: one group of tables at a time

  lemma JournalFrame(t: Tables, u: Tables)
    requires JournalOk(t) && u.prepared == t.prepared
    requires forall n {:trigger KeptSchema(t, u, n)} | n in t.schemas :: KeptSchema(t, u, n)
    ensures JournalOk(u)
  {
    forall k | k in u.prepared ensures FileOk(u, k) {
      assert FileOk(t, k);
      assert KeptSchema(t, u, t.prepared[k].schemaName);
    }
    forall j, k | SameKey(u, j, k) ensures j == k {
      assert SameKey(t, j, k);
    }
  }

  /** Enrolment facts, when no declaration, enrolment or unadopted blob is added. */
  lemma EnrolmentFrame(t: Tables, u: Tables)
    requires EnrolmentOk(t) && u.schemas == t.schemas && u.payload == t.payload && u.lifecycle == t.lifecycle
    requires forall id | id in u.blobs ::
      (id in t.blobs && u.blobs[id].schemaName == t.blobs[id].schemaName) || Adopted(t, u.blobs[id].schemaName)
    ensures EnrolmentOk(u)
  {
    forall id | id in u.blobs ensures BlobAdopted(u, id) { assert id in t.blobs ==> BlobAdopted(t, id); }
    forall n | n in u.schemas ensures AdoptionOk(u, n) { assert AdoptionOk(t, n); }
    forall n, v ensures Enrolled(u, n, v) { assert Enrolled(t, n, v); }
  }

  lemma BlobFrame(t: Tables, u: Tables, id: Id)
    requires id in t.blobs && BlobOk(t, id)
    requires id in u.blobs && id in u.objects && id in u.metadata
    requires u.blobs[id] == t.blobs[id] && u.metadata[id] == t.metadata[id] && u.objects[id] == t.objects[id]
    requires KeptFile(t, u, t.objects[id]) && KeptSchema(t, u, t.blobs[id].schemaName)
    ensures BlobOk(u, id)
  {
  }

  lemma BlobsFrame(t: Tables, u: Tables)
    requires BlobsOk(t)
    requires u.blobs == t.blobs && u.metadata == t.metadata && u.objects == t.objects
    requires forall n {:trigger KeptSchema(t, u, n)} | n in t.schemas :: KeptSchema(t, u, n)
    requires forall k {:trigger KeptFile(t, u, k)} | k in t.prepared :: KeptFile(t, u, k)
    ensures BlobsOk(u) && KeepsBlobs(t, u)
  {
    forall id | id in u.blobs ensures BlobOk(u, id) {
      assert BlobOk(t, id);
      assert KeptFile(t, u, t.objects[id]) && KeptSchema(t, u, t.blobs[id].schemaName);
      BlobFrame(t, u, id);
    }
    forall i, j | SameToken(u, i, j) ensures i == j {
      assert SameToken(t, i, j);
    }
  }

  /** Retirements and jobs, when no key is queued, no token bound and no id revived. */
  lemma LedgerFrame(t: Tables, u: Tables)
    requires RetiredOk(t) && QueueOk(t)
    requires u.prepared == t.prepared && u.retired == t.retired && u.gc == t.gc
    requires u.objects == t.objects && u.blobs.Keys == t.blobs.Keys
    ensures RetiredOk(u) && QueueOk(u)
  {
    forall id | id in u.retired ensures RetirementOk(u, id) { assert RetirementOk(t, id); }
    forall k | k in u.gc ensures JobOk(u, k) { assert JobOk(t, k); }
    forall tok | tok in u.prepared ensures Unbound(u, tok) { assert Unbound(t, tok); }
  }

  /** Migration facts depend only on declarations, jobs and the schema versions of blobs. */
  lemma MigrationsFrame(t: Tables, u: Tables)
    requires SchemasOk(t) && MigrationsOk(t)
    requires forall n | n in t.schemas :: n in u.schemas && u.schemas[n] == t.schemas[n]
    requires u.migrations == t.migrations && u.steps == t.steps && u.blobs.Keys == t.blobs.Keys
    requires forall id | id in t.blobs ::
      && Declared(t, t.blobs[id].schemaName, t.blobs[id].schemaVersion)
      && u.blobs[id].schemaName == t.blobs[id].schemaName && u.blobs[id].schemaVersion == t.blobs[id].schemaVersion
    ensures MigrationsOk(u)
  {
    forall m | m in u.migrations ensures MigrationOk(u, m) {
      assert MigrationOk(t, m);
      var j := t.migrations[m];
      assert AtVersion(u, j.schemaName, j.source) == AtVersion(t, j.schemaName, j.source);
    }
    forall m, n | SameTarget(u, m, n) ensures m == n { assert SameTarget(t, m, n); }
    forall id | id in u.blobs ensures Scheduled(u, id) {
      assert Scheduled(t, id);
      if u.blobs[id].schemaVersion != Latest(u, u.blobs[id].schemaName) {
        var m :| Awaits(t, m, id);
        assert Awaits(u, m, id);
      }
    }
  }

  lemma BlobsDeclared(t: Tables)
    requires BlobsOk(t)
    ensures forall id | id in t.blobs :: Declared(t, t.blobs[id].schemaName, t.blobs[id].schemaVersion)
  {
    forall id | id in t.blobs ensures Declared(t, t.blobs[id].schemaName, t.blobs[id].schemaVersion) {
      assert BlobOk(t, id);
    }
  }

  // ---------------------------------------------------------------- one group of tables per operation

  lemma InstallSchemas(t: Tables, u: Tables, schema: BlobSchema)
    requires SchemasOk(t) && schema.name !in t.schemas && schema.version == 1
    requires u.schemas == t.schemas[schema.name := [schema]]
    ensures SchemasOk(u) && forall n {:trigger KeptSchema(t, u, n)} | n in t.schemas :: KeptSchema(t, u, n)
  {
    forall n | n in u.schemas ensures SchemaOk(u, n) {
      if n != schema.name { assert SchemaOk(t, n); }
    }
  }

  lemma InstallEnrolment(t: Tables, u: Tables, schema: BlobSchema)
    requires EnrolmentOk(t) && schema.name !in t.schemas && schema.version == 1
    requires u == t.(schemas := t.schemas[schema.name := [schema]])
    ensures EnrolmentOk(u)
  {
    assert Enrolled(t, schema.name, 1);
    forall n | n in u.schemas ensures AdoptionOk(u, n) {
      if n != schema.name { assert AdoptionOk(t, n); }
    }
    forall id | id in u.blobs ensures BlobAdopted(u, id) { assert BlobAdopted(t, id); }
    forall n, v ensures Enrolled(u, n, v) { assert Enrolled(t, n, v); }
  }

  /** Enrolling a declared schema. */
  lemma AdoptEnrolment(t: Tables, u: Tables, schema: BlobSchema)
    requires SchemasOk(t) && EnrolmentOk(t) && Declared(t, schema.name, schema.version) && !Adopted(t, schema.name)
    requires u == t.(payload := t.payload + {(schema.name, schema.version)})
    ensures EnrolmentOk(u)
  {
    assert AdoptionOk(t, schema.name) && schema.version == 1;
    forall n | n in u.schemas ensures AdoptionOk(u, n) { assert AdoptionOk(t, n); }
    forall id | id in u.blobs ensures BlobAdopted(u, id) { assert BlobAdopted(t, id); }
    forall n, v ensures Enrolled(u, n, v) { assert Enrolled(t, n, v); }
  }

  lemma JournalAdds(t: Tables, u: Tables, p: PreparedFile)
    requires JournalOk(t) && RetiredOk(t) && QueueOk(t)
    requires p.token !in t.prepared && !KeyJournaled(t, p.key) && p.key !in t.gc && p.key.name.Object?
    requires Declared(t, p.schemaName, p.schemaVersion)
    requires u == t.(prepared := t.prepared[p.token := p])
    ensures JournalOk(u) && RetiredOk(u) && QueueOk(u)
    ensures forall k {:trigger KeptFile(t, u, k)} | k in t.prepared :: KeptFile(t, u, k)
  {
    forall k | k in u.prepared ensures FileOk(u, k) {
      if k != p.token { assert FileOk(t, k); }
    }
    forall j, k | SameKey(u, j, k) ensures j == k {
      if j != p.token && k != p.token { assert SameKey(t, j, k); }
    }
    forall id | id in u.retired ensures RetirementOk(u, id) { assert RetirementOk(t, id); }
    forall k | k in u.gc ensures JobOk(u, k) { assert JobOk(t, k); }
    forall tok | tok in u.prepared ensures Unbound(u, tok) {
      if tok != p.token { assert Unbound(t, tok); }
    }
  }

  /** Binding a free token to a fresh id. */
  lemma BindBlobs(t: Tables, u: Tables, p: PreparedFile, id: Id)
    requires BlobsOk(t) && id !in t.blobs && id in u.blobs && id in u.metadata
    requires !Bound(t, p.token)
    requires u == t.(blobs := t.blobs[id := u.blobs[id]], metadata := t.metadata[id := u.metadata[id]],
                     objects := t.objects[id := p.token])
    requires BlobOk(u, id)
    ensures BlobsOk(u) && KeepsBlobs(t, u)
  {
    forall i | i in t.blobs ensures BlobOk(u, i) {
      assert BlobOk(t, i);
      BlobFrame(t, u, i);
    }
    BindTokens(t, u, p.token, id);
    assert forall i {:trigger BlobOk(u, i)} | i in u.blobs :: BlobOk(u, i);
  }

  lemma BindTokens(t: Tables, u: Tables, token: Token, id: Id)
    requires forall i, j | SameToken(t, i, j) :: i == j
    requires !Bound(t, token) && u.objects == t.objects[id := token]
    ensures forall i, j | SameToken(u, i, j) :: i == j
  {
    forall i, j | SameToken(u, i, j) ensures i == j {
      if i != id && j != id { assert SameToken(t, i, j); }
    }
  }

  lemma BindLedger(t: Tables, u: Tables, p: PreparedFile, id: Id)
    requires RetiredOk(t) && QueueOk(t) && JournalOk(t)
    requires Journaled(t, p) && !Queued(t, p.token) && id !in t.retired
    requires u.prepared == t.prepared && u.retired == t.retired && u.gc == t.gc
    requires u.blobs.Keys == t.blobs.Keys + {id} && u.objects == t.objects[id := p.token] && id !in t.objects
    ensures RetiredOk(u) && QueueOk(u)
  {
    forall i | i in u.retired ensures RetirementOk(u, i) { assert RetirementOk(t, i); }
    forall k | k in u.gc ensures JobOk(u, k) { assert JobOk(t, k); }
    assert forall k | k in t.gc :: t.gc[k].token != Some(p.token);
    forall tok | tok in u.prepared ensures Unbound(u, tok) {
      assert Unbound(t, tok);
    }
  }

  /** A new blob at the newest version leaves every running migration's backlog alone. */
  lemma BindMigrations(t: Tables, u: Tables, id: Id)
    requires SchemasOk(t) && MigrationsOk(t) && id !in t.blobs && id in u.blobs
    requires u.blobs == t.blobs[id := u.blobs[id]]
    requires u.schemas == t.schemas && u.migrations == t.migrations && u.steps == t.steps
    requires u.blobs[id].schemaVersion == Latest(t, u.blobs[id].schemaName)
    ensures MigrationsOk(u)
  {
    forall m | m in u.migrations ensures MigrationOk(u, m) {
      assert MigrationOk(t, m);
      var j := t.migrations[m];
      if !j.complete {
        assert AtVersion(u, j.schemaName, j.source) == AtVersion(t, j.schemaName, j.source);
      }
    }
    forall m, n | SameTarget(u, m, n) ensures m == n { assert SameTarget(t, m, n); }
    forall i | i in u.blobs ensures Scheduled(u, i) {
      if i != id {
        assert Scheduled(t, i);
        if u.blobs[i].schemaVersion != Latest(u, u.blobs[i].schemaName) {
          var m :| Awaits(t, m, i);
          assert Awaits(u, m, i);
        }
      }
    }
  }

  /** Changing one blob's state or metadata in place. */
  lemma RowBlobs(t: Tables, u: Tables, id: Id)
    requires BlobsOk(t) && id in t.blobs && id in u.blobs && id in u.metadata
    requires u == t.(blobs := t.blobs[id := u.blobs[id]], metadata := t.metadata[id := u.metadata[id]])
    requires BlobOk(u, id) && Advances(t, u, id) && Edits(t, u, id)
    ensures BlobsOk(u) && KeepsBlobs(t, u)
  {
    forall i | i in u.blobs ensures BlobOk(u, i) {
      if i != id {
        assert BlobOk(t, i);
        BlobFrame(t, u, i);
      }
    }
    forall i, j | SameToken(u, i, j) ensures i == j { assert SameToken(t, i, j); }
  }

  ghost predicate Retires(t: Tables, u: Tables, id: Id, key: ObjectKey)
    requires id in t.blobs && id in t.objects && id in t.metadata
  {
    var tok, b := t.objects[id], t.blobs[id];
    && tok in t.prepared && t.prepared[tok].key == key
    && u == t.(blobs := t.blobs - {id}, metadata := t.metadata - {id}, objects := t.objects - {id},
               retired := t.retired[id := Retirement(tok, b.schemaName, b.schemaVersion, t.metadata[id].version)],
               gc := t.gc[key := Job(Some(tok), Some(id), Retired, false, None)])
  }

  lemma RetireBlobs(t: Tables, u: Tables, id: Id, key: ObjectKey)
    requires BlobsOk(t) && id in t.blobs && Retires(t, u, id, key)
    ensures BlobsOk(u) && KeepsBlobs(t, u)
  {
    forall i | i in u.blobs ensures BlobOk(u, i) {
      assert BlobOk(t, i);
      BlobFrame(t, u, i);
    }
    forall i, j | SameToken(u, i, j) ensures i == j { assert SameToken(t, i, j); }
  }

  lemma RetireLedger(t: Tables, u: Tables, id: Id, key: ObjectKey)
    requires JournalOk(t) && BlobsOk(t) && RetiredOk(t) && QueueOk(t) && id in t.blobs && Retires(t, u, id, key)
    requires key !in t.gc
    ensures RetiredOk(u) && QueueOk(u)
    ensures id !in t.retired
  {
    var tok := t.objects[id];
    assert FileOk(t, tok);
    assert id in t.retired ==> RetirementOk(t, id);
    forall i | i in u.retired ensures RetirementOk(u, i) {
      if i != id { assert RetirementOk(t, i); }
    }
    forall k | k in u.gc ensures JobOk(u, k) {
      if k != key {
        assert JobOk(t, k);
      }
    }
    forall x | x in u.prepared ensures Unbound(u, x) {
      assert Unbound(t, x);
      if t.prepared[x].key == key {
        assert SameKey(t, x, tok);
        forall i | i in u.objects ensures u.objects[i] != tok {
          assert !SameToken(t, i, id);
        }
      }
    }
  }

  lemma RetireMigrations(t: Tables, u: Tables, id: Id)
    requires SchemasOk(t) && MigrationsOk(t) && id in t.blobs && !Running(t, t.blobs[id].schemaName)
    requires u.blobs == t.blobs - {id}
    requires u.schemas == t.schemas && u.migrations == t.migrations && u.steps == t.steps
    ensures MigrationsOk(u)
  {
    forall m | m in u.migrations ensures MigrationOk(u, m) {
      assert MigrationOk(t, m);
      var j := t.migrations[m];
      if !j.complete {
        assert AtVersion(u, j.schemaName, j.source) == AtVersion(t, j.schemaName, j.source);
      }
    }
    forall m, n | SameTarget(u, m, n) ensures m == n { assert SameTarget(t, m, n); }
    forall i | i in u.blobs ensures Scheduled(u, i) {
      assert Scheduled(t, i);
      if u.blobs[i].schemaVersion != Latest(u, u.blobs[i].schemaName) {
        var m :| Awaits(t, m, i);
        assert Awaits(u, m, i);
      }
    }
  }

  /** Adding jobs for unbound tokens or unjournaled keys, or advancing existing jobs. */
  lemma QueueLedger(t: Tables, u: Tables)
    requires RetiredOk(t) && QueueOk(t) && u == t.(gc := u.gc)
    requires forall k {:trigger KeptJob(t, u, k)} | k in t.gc :: KeptJob(t, u, k)
    requires forall k | k in u.gc && k !in t.gc ::
      && JobOk(u, k)
      && (u.gc[k].token.None? ==> !KeyJournaled(t, k))
      && (u.gc[k].token.Some? ==>
           u.gc[k].token.value in t.prepared && t.prepared[u.gc[k].token.value].key == k && !Bound(t, u.gc[k].token.value))
    requires JournalOk(t)
    ensures RetiredOk(u) && QueueOk(u)
  {
    forall id | id in u.retired ensures RetirementOk(u, id) {
      assert RetirementOk(t, id);
      assert KeptJob(t, u, t.prepared[t.retired[id].token].key);
    }
    forall k | k in u.gc ensures JobOk(u, k) {
      if k in t.gc { assert JobOk(t, k) && KeptJob(t, u, k); }
    }
    forall tok | tok in u.prepared ensures Unbound(u, tok) {
      assert Unbound(t, tok);
      var k := t.prepared[tok].key;
      if k in t.gc {
        assert KeptJob(t, u, k);
      } else if k in u.gc && u.gc[k].token.Some? {
        assert SameKey(t, tok, u.gc[k].token.value);
      }
    }
  }

  // ---------------------------------------------------------------- operations

  lemma InstallKeeps(t: Tables, schema: BlobSchema)
    requires Inv(t) && Install(t, schema).Success?
    ensures Keeps(t, Install(t, schema).value.tables)
  {
    var u := Install(t, schema).value.tables;
    if u == t {
      ExtendsReflexive(t);
    } else {
      InstallSchemas(t, u, schema);
      InstallEnrolment(t, u, schema);
      JournalFrame(t, u);
      BlobsFrame(t, u);
      LedgerFrame(t, u);
      BlobsDeclared(t);
      MigrationsFrame(t, u);
    }
  }

  /** payload_catalog.install succeeds for every declared schema and leaves it adopted. */
  lemma AdoptKeeps(t: Tables, schema: BlobSchema)
    requires Inv(t) && Declared(t, schema.name, schema.version)
    ensures Adopt(t, schema).Success? && Keeps(t, Adopt(t, schema).value)
    ensures Adopt(t, schema).value == t.(payload := t.payload + {(schema.name, schema.version)})
    ensures Adopted(Adopt(t, schema).value, schema.name) && (schema.name, schema.version) in Adopt(t, schema).value.payload
  {
    assert AdoptionOk(t, schema.name) && Enrolled(t, schema.name, schema.version);
    forall id | id in t.blobs ensures t.blobs[id].schemaName == schema.name ==> Adopted(t, schema.name) {
      assert BlobAdopted(t, id);
    }
    if (schema.name, schema.version) in t.payload {
      assert t.payload + {(schema.name, schema.version)} == t.payload;
      ExtendsReflexive(t);
    } else {
      var u := Adopt(t, schema).value;
      AdoptEnrolment(t, u, schema);
      EnrolmentKeeps(t, u);
    }
  }

  /** Only enrolments change. */
  lemma EnrolmentKeeps(t: Tables, u: Tables)
    requires Inv(t) && EnrolmentOk(u) && u == t.(payload := u.payload, lifecycle := u.lifecycle)
    requires t.payload <= u.payload && t.lifecycle <= u.lifecycle
    ensures Keeps(t, u)
  {
    SameSchemas(t, u);
    JournalFrame(t, u);
    BlobsFrame(t, u);
    LedgerFrame(t, u);
    BlobsDeclared(t);
    MigrationsFrame(t, u);
  }

  lemma LifecycleEnrolment(t: Tables, u: Tables)
    requires EnrolmentOk(t) && u == t.(lifecycle := u.lifecycle) && u.lifecycle <= t.schemas.Keys
    ensures EnrolmentOk(u)
  {
    forall n | n in u.schemas ensures AdoptionOk(u, n) { assert AdoptionOk(t, n); }
    forall id | id in u.blobs ensures BlobAdopted(u, id) { assert BlobAdopted(t, id); }
    forall n, v ensures Enrolled(u, n, v) { assert Enrolled(t, n, v); }
  }

  lemma InstalledAfter(t: Tables, schema: BlobSchema)
    requires Install(t, schema).Success? && schema.version >= 1
    ensures Installed(Install(t, schema).value.tables, schema)
  {
  }

  /** Store.install_schema succeeds exactly when the declaration installs, and enrols it for both extensions. */
  lemma InstallSchemaKeeps(t: Tables, schema: BlobSchema)
    requires Inv(t) && schema.version >= 1
    ensures InstallSchema(t, schema).Success? <==> Install(t, schema).Success?
    ensures InstallSchema(t, schema).Success? ==>
      var u := InstallSchema(t, schema).value.tables;
      Keeps(t, u) && Adopted(u, schema.name) && schema.name in u.lifecycle && u.lifecycle == t.lifecycle + {schema.name}
  {
    if Install(t, schema).Success? {
      var s := Install(t, schema).value.tables;
      InstallKeeps(t, schema);
      InstalledAfter(t, schema);
      AdoptKeeps(s, schema);
      var a := Adopt(s, schema).value;
      var u := InstallSchema(t, schema).value.tables;
      LifecycleEnrolment(a, u);
      EnrolmentKeeps(a, u);
      ExtendsTransitive(t, s, a);
      ExtendsTransitive(t, a, u);
    }
  }

  lemma InstallLifecycleKeeps(t: Tables)
    requires Inv(t)
    ensures Keeps(t, InstallLifecycle(t))
  {
    LifecycleEnrolment(t, InstallLifecycle(t));
    EnrolmentKeeps(t, InstallLifecycle(t));
  }

  lemma JournalKeeps(t: Tables, schema: BlobSchema, p: PreparedFile)
    requires Inv(t) && Journal(t, schema, p).Success?
    requires p.key.name.Object? && p.schemaName == schema.name && p.schemaVersion == schema.version
    ensures Keeps(t, Journal(t, schema, p).value.tables)
  {
    var u := Journal(t, schema, p).value.tables;
    JournalAdds(t, u, p);
    SameSchemas(t, u);
    EnrolmentFrame(t, u);
    BlobsFrame(t, u);
    BlobsDeclared(t);
    MigrationsFrame(t, u);
  }

  /** Binding a journaled, free token of the newest version to a free id. */
  lemma BindKeeps(t: Tables, u: Tables, p: PreparedFile, schema: BlobSchema, values: Values, id: Id)
    requires Inv(t) && CheckSchema(t, schema, true).Success? && Conforms(schema, values)
    requires Journaled(t, p) && !Queued(t, p.token) && !Bound(t, p.token)
    requires p.schemaName == schema.name && p.schemaVersion == schema.version
    requires id !in t.blobs && id !in t.retired
    requires u == t.(blobs := t.blobs[id := Blob(schema.name, schema.version, Publishing)],
                     metadata := t.metadata[id := Meta(schema.version, 1, values)], objects := t.objects[id := p.token])
    ensures Keeps(t, u)
  {
    assert FileOk(t, p.token);
    BindBlobs(t, u, p, id);
    BindLedger(t, u, p, id);
    BindMigrations(t, u, id);
    JournalFrame(t, u);
    SameSchemas(t, u);
    EnrolmentFrame(t, u);
  }

  lemma BoundReadsBack(t: Tables, u: Tables, p: PreparedFile, schema: BlobSchema, values: Values, id: Id)
    requires Installed(t, schema) && Conforms(schema, values) && Journaled(t, p)
    requires p.schemaName == schema.name && p.schemaVersion == schema.version
    requires u == t.(blobs := t.blobs[id := Blob(schema.name, schema.version, Publishing)],
                     metadata := t.metadata[id := Meta(schema.version, 1, values)], objects := t.objects[id := p.token])
    ensures RecordOf(u, id, false) == Success(Record(id, schema.name, schema.version, Publishing, p, 1, values))
  {
  }

  lemma FinalizeKeeps(t: Tables, root: string, p: PreparedFile, schema: BlobSchema, metadata: PyMapping, id: Id)
    requires Inv(t) && Finalize(t, root, p, schema, metadata, id).Success?
    ensures Keeps(t, Finalize(t, root, p, schema, metadata, id).value.tables)
    ensures var c := Finalize(t, root, p, schema, metadata, id).value;
      RecordOf(c.tables, id, false) == Success(c.value)
  {
    if id in t.blobs {
      ExtendsReflexive(t);
    } else {
      var u := Finalize(t, root, p, schema, metadata, id).value.tables;
      BindKeeps(t, u, p, schema, NormalizeMetadata(schema, metadata).value, id);
      BoundReadsBack(t, u, p, schema, NormalizeMetadata(schema, metadata).value, id);
    }
  }

  lemma SameSchemas(t: Tables, u: Tables)
    requires SchemasOk(t) && u.schemas == t.schemas
    ensures SchemasOk(u)
  {
    forall n | n in u.schemas ensures SchemaOk(u, n) { assert SchemaOk(t, n); }
  }

  lemma PublishKeeps(t: Tables, root: string, id: Id)
    requires Inv(t) && Publish(t, root, id).Success?
    ensures Keeps(t, Publish(t, root, id).value.tables)
    ensures var c := Publish(t, root, id).value;
      RecordOf(c.tables, id, true) == Success(c.value)
  {
    var u := Publish(t, root, id).value.tables;
    RowKeeps(t, u, id);
  }

  lemma RowKeeps(t: Tables, u: Tables, id: Id)
    requires Inv(t) && id in t.blobs && id in u.blobs && id in u.metadata
    requires u == t.(blobs := t.blobs[id := u.blobs[id]], metadata := t.metadata[id := u.metadata[id]])
    requires u.blobs[id].schemaName == t.blobs[id].schemaName && u.blobs[id].schemaVersion == t.blobs[id].schemaVersion
    requires BlobOk(t, id) ==> BlobOk(u, id)
    requires Advances(t, u, id) && (id in t.metadata ==> Edits(t, u, id))
    ensures Keeps(t, u)
  {
    assert BlobOk(t, id);
    RowBlobs(t, u, id);
    JournalFrame(t, u);
    LedgerFrame(t, u);
    BlobsDeclared(t);
    MigrationsFrame(t, u);
    SameSchemas(t, u);
    EnrolmentFrame(t, u);
  }

  lemma UpdateKeeps(t: Tables, id: Id, schema: BlobSchema, changes: PyMapping, expected: int)
    requires Inv(t) && UpdateMetadata(t, id, schema, changes, expected).Success?
    ensures Keeps(t, UpdateMetadata(t, id, schema, changes, expected).value.tables)
  {
    var u := UpdateMetadata(t, id, schema, changes, expected).value.tables;
    assert BlobOk(t, id);
    ChangesConform(schema, t.metadata[id].values, changes);
    RowKeeps(t, u, id);
  }

  lemma UpdateReadsBack(t: Tables, id: Id, schema: BlobSchema, changes: PyMapping, expected: int)
    requires UpdateMetadata(t, id, schema, changes, expected).Success?
    ensures var c := UpdateMetadata(t, id, schema, changes, expected).value;
      RecordOf(c.tables, id, true) == Success(c.value)
  {
    assert NormalizeChanges(schema, changes).value.Keys <= schema.fields.Keys;
  }

  lemma ChangesConform(schema: BlobSchema, values: Values, changes: PyMapping)
    requires Conforms(schema, values) && NormalizeChanges(schema, changes).Success?
    ensures Conforms(schema, values + NormalizeChanges(schema, changes).value)
  {
    var all := values + NormalizeChanges(schema, changes).value;
    forall n | n in all ensures Holds(schema.fields[n], all[n]) {
      if n in changes { assert Normalize(schema.fields[n], changes[n]).Success?; }
    }
  }

  lemma RetireKeeps(t: Tables, u: Tables, id: Id, key: ObjectKey)
    requires Inv(t) && id in t.blobs && id in t.objects && id in t.metadata && Retires(t, u, id, key)
    requires !Running(t, t.blobs[id].schemaName)
    ensures Keeps(t, u)
  {
    LiveIsNotQueued(t, id);
    assert FileOk(t, t.objects[id]);
    RetireBlobs(t, u, id, key);
    RetireLedger(t, u, id, key);
    RetireMigrations(t, u, id);
    JournalFrame(t, u);
    SameSchemas(t, u);
    EnrolmentFrame(t, u);
  }

  lemma DeleteKeeps(t: Tables, root: string, id: Id, expected: int)
    requires Inv(t) && Delete(t, root, id, expected).Success?
    ensures Keeps(t, Delete(t, root, id, expected).value.tables)
    ensures var c := Delete(t, root, id, expected).value;
      RetiredStatus(c.tables, id) == Some(c.value)
  {
    RetiredStatusIsTheJoin(t, id);
    if id in t.retired {
      ExtendsReflexive(t);
    } else {
      assert FileOk(t, t.objects[id]);
      RetireKeeps(t, Delete(t, root, id, expected).value.tables, id, t.prepared[t.objects[id]].key);
    }
  }

  /** Jobs are only added or advanced. */
  lemma QueueKeeps(t: Tables, u: Tables)
    requires Inv(t) && u == t.(gc := u.gc) && RetiredOk(u) && QueueOk(u)
    requires forall k {:trigger KeptJob(t, u, k)} | k in t.gc :: KeptJob(t, u, k)
    ensures Keeps(t, u)
  {
    JournalFrame(t, u);
    BlobsFrame(t, u);
    BlobsDeclared(t);
    MigrationsFrame(t, u);
    SameSchemas(t, u);
    EnrolmentFrame(t, u);
  }

  lemma DiscardKeeps(t: Tables, root: string, p: PreparedFile)
    requires Inv(t) && Discard(t, root, p).Success?
    ensures Keeps(t, Discard(t, root, p).value.tables)
    ensures Discard(t, root, p).value.value.token == Some(p.token)
  {
    var u := Discard(t, root, p).value.tables;
    assert Unbound(t, p.token) && FileOk(t, p.token);
    QueueLedger(t, u);
    QueueKeeps(t, u);
  }

  lemma QueueOrphansKeeps(t: Tables, root: string, names: seq<Name>)
    requires Inv(t) && QueueOrphans(t, root, names).Success?
    ensures Keeps(t, QueueOrphans(t, root, names).value.tables)
  {
    var u := QueueOrphans(t, root, names).value.tables;
    QueueLedger(t, u);
    QueueKeeps(t, u);
  }

  lemma RecordCleanupKeeps(t: Tables, key: ObjectKey, error: Option<string>)
    requires Inv(t)
    ensures Keeps(t, RecordCleanup(t, key, error))
  {
    var u := RecordCleanup(t, key, error);
    QueueLedger(t, u);
    QueueKeeps(t, u);
  }

  lemma ImportKeeps(t: Tables, root: string, p: PreparedFile, schema: BlobSchema, metadata: PyMapping, id: Id)
    requires Inv(t) && Import(t, root, p, schema, metadata, id).Success?
    ensures Keeps(t, Import(t, root, p, schema, metadata, id).value.tables)
    ensures var c := Import(t, root, p, schema, metadata, id).value;
      RecordOf(c.tables, id, true) == Success(c.value)
  {
    if id in t.blobs {
      ExtendsReflexive(t);
    } else {
      FinalizeKeeps(t, root, p, schema, metadata, id);
      var f := Finalize(t, root, p, schema, metadata, id).value.tables;
      PublishKeeps(f, root, id);
      ExtendsTransitive(t, f, Publish(f, root, id).value.tables);
    }
  }
}
