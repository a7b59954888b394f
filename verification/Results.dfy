/** What the result of each call says about the request and about the catalog it commits. */
module Results {
  import opened Wrappers
  import opened Errors
  import opened Schemas
  import opened Tables
  import opened Lifecycle
  import opened LifecycleProofs
  import opened History

  /** The record of one blob, spelled out from the tables. */
  ghost predicate Describes(t: Tables, r: Record) {
    && r.id in t.blobs && r.id in t.objects && r.id in t.metadata && t.objects[r.id] in t.prepared
    && t.blobs[r.id] == Blob(r.schemaName, r.schemaVersion, r.state)
    && t.prepared[t.objects[r.id]] == r.file
    && t.metadata[r.id] == Meta(r.schemaVersion, r.version, r.metadata)
  }

  lemma RecordDescribes(t: Tables, id: Id, readyOnly: bool)
    requires RecordOf(t, id, readyOnly).Success?
    ensures RecordOf(t, id, readyOnly).value.id == id && Describes(t, RecordOf(t, id, readyOnly).value)
    ensures readyOnly ==> RecordOf(t, id, readyOnly).value.state.Ready?
  {
  }

  /** A successful finalize binds, or had already bound, exactly this token, schema and metadata to the id, field by field. */
  lemma FinalizeMeans(t: Tables, root: string, p: PreparedFile, schema: BlobSchema, metadata: PyMapping, id: Id)
    requires Inv(t) && Finalize(t, root, p, schema, metadata, id).Success?
    ensures var c := Finalize(t, root, p, schema, metadata, id).value;
      && Describes(c.tables, c.value) && c.value.id == id
      && c.value.file == p && p.key.root == root
      && c.value.schemaName == schema.name && c.value.schemaVersion == schema.version
      && c.value.metadata.Keys == schema.fields.Keys && metadata.Keys <= schema.fields.Keys
      && (forall n | n in metadata :: Normalize(schema.fields[n], metadata[n]) == Success(c.value.metadata[n]))
      && (forall n | n in schema.fields && n !in metadata :: !schema.fields[n].required && c.value.metadata[n] == Null)
      && (id !in t.blobs ==> c.value.state == Publishing && c.value.version == 1)
      && (id in t.blobs ==> c.tables == t)
  {
    FinalizeKeeps(t, root, p, schema, metadata, id);
    MetadataMeans(schema, metadata);
    var c := Finalize(t, root, p, schema, metadata, id).value;
    RecordDescribes(c.tables, id, false);
    if id in t.blobs {
      assert BlobOk(t, id) && FileOk(t, t.objects[id]) && FileOk(t, p.token);
    }
  }

  /** A successful import or put holds exactly the requested payload and metadata, published, under the id. */
  lemma ImportMeans(t: Tables, root: string, p: PreparedFile, schema: BlobSchema, metadata: PyMapping, id: Id)
    requires Inv(t) && Import(t, root, p, schema, metadata, id).Success?
    ensures var c := Import(t, root, p, schema, metadata, id).value;
      && Describes(c.tables, c.value) && c.value.id == id && c.value.state.Ready?
      && c.value.file.size == p.size && c.value.file.digest == p.digest && c.value.file.encoding == p.encoding
      && c.value.file.key.root == root
      && c.value.schemaName == schema.name && c.value.schemaVersion == schema.version
      && c.value.metadata.Keys == schema.fields.Keys && metadata.Keys <= schema.fields.Keys
      && (forall n | n in metadata :: Normalize(schema.fields[n], metadata[n]) == Success(c.value.metadata[n]))
      && (forall n | n in schema.fields && n !in metadata :: !schema.fields[n].required && c.value.metadata[n] == Null)
      && (id in t.blobs ==> c.tables == t)
      && (id !in t.blobs ==> c.value.file == p && c.value.version == 1)
  {
    ImportKeeps(t, root, p, schema, metadata, id);
    MetadataMeans(schema, metadata);
    var c := Import(t, root, p, schema, metadata, id).value;
    RecordDescribes(c.tables, id, true);
    if id !in t.blobs {
      FinalizeMeans(t, root, p, schema, metadata, id);
      var f := Finalize(t, root, p, schema, metadata, id).value;
      FinalizeKeeps(t, root, p, schema, metadata, id);
      PublishReadsBack(f, root, id);
    }
  }

  /** An edit changes exactly the named mutable fields of one ready row at the expected version, and counts one version. */
  lemma UpdateMeans(t: Tables, id: Id, schema: BlobSchema, changes: PyMapping, expected: int, n: string)
    requires Inv(t) && UpdateMetadata(t, id, schema, changes, expected).Success?
    ensures var c := UpdateMetadata(t, id, schema, changes, expected).value;
      && id in t.metadata && id in c.tables.metadata && t.blobs[id].state.Ready?
      && t.metadata[id].version == expected && c.tables.metadata[id].version == expected + 1
      && c.tables == t.(metadata := t.metadata[id := c.tables.metadata[id]])
      && c.tables.metadata[id].values.Keys == t.metadata[id].values.Keys == schema.fields.Keys
      && (n in changes ==>
            && n in schema.fields && !schema.fields[n].immutable
            && Normalize(schema.fields[n], changes[n]) == Success(c.tables.metadata[id].values[n]))
      && (n in schema.fields && n !in changes ==> c.tables.metadata[id].values[n] == t.metadata[id].values[n])
  {
    assert BlobOk(t, id);
  }

  /** A retirement moves one blob's identity, object and version to the history, and queues exactly its object. */
  lemma DeleteMeans(t: Tables, root: string, id: Id, expected: int)
    requires Inv(t) && Delete(t, root, id, expected).Success?
    ensures var c := Delete(t, root, id, expected).value;
      && id in c.tables.retired && id !in c.tables.blobs && c.value.id == id
      && c.value.retirement == c.tables.retired[id] && c.value.retirement.version == expected
      && c.value.key in c.tables.gc && c.value.job == c.tables.gc[c.value.key] && c.value.key.root == root
      && (id in t.retired ==> c.tables == t)
      && (id !in t.retired ==>
            && id in t.blobs && id in t.objects && t.objects[id] in t.prepared
            && c.value.retirement.token == t.objects[id] && c.value.key == t.prepared[t.objects[id]].key
            && !c.value.job.done && c.tables.gc.Keys == t.gc.Keys + {c.value.key} && c.value.key !in t.gc
            && c.tables.blobs == t.blobs - {id})
  {
    RetiredStatusIsTheJoin(t, id);
    if id in t.retired {
      assert RetirementOk(t, id);
    } else {
      assert BlobOk(t, id) && FileOk(t, t.objects[id]);
      LiveIsNotQueued(t, id);
    }
  }

  /** Each outcome of resolve, as a fact about the catalog. */
  lemma ResolveMeans(t: Tables, root: string, id: Id, p: PreparedFile, schema: BlobSchema, metadata: PyMapping)
    requires Inv(t) && Resolve(t, root, id, p, schema, metadata).Success?
    ensures var o := Resolve(t, root, id, p, schema, metadata).value;
      && (o.Gone? <==> id in t.retired) && (o.Live? <==> id in t.blobs)
      && (o.Gone? ==> o.status.retirement == t.retired[id] && t.retired[id].token == p.token)
      && (o.Live? ==>
            && Describes(t, o.record) && o.record.id == id && t.objects[id] == p.token
            && o.record.state == t.blobs[id].state && o.record.schemaName == schema.name && o.record.schemaVersion == schema.version
            && (forall n | n in metadata :: n in schema.fields && n in o.record.metadata
                  && Normalize(schema.fields[n], metadata[n]) == Success(o.record.metadata[n]))
            && (forall n | n in schema.fields && n !in metadata :: n in o.record.metadata && o.record.metadata[n] == Null))
      && (o.Prepared? ==> Journaled(t, p) && !Bound(t, p.token) && !Queued(t, p.token))
      && (o.Unknown? ==> p.token !in t.prepared && !Queued(t, p.token))
      && (o.Revoked? ==> Queued(t, p.token) && !Bound(t, p.token))
  {
    RetiredStatusIsTheJoin(t, id);
    if id in t.retired { RetiredStaysGone(t, id); }
    if id in t.blobs {
      RecordSucceeds(t, id);
      RecordDescribes(t, id, false);
      LiveIsBound(t, id);
      MetadataMeans(schema, metadata);
    }
  }
}
