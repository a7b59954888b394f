/** What callers may rely on across any later history of the catalog. */
module History {
  import opened Wrappers
  import opened Errors
  import opened Schemas
  import opened Tables
  import opened Lifecycle
  import opened LifecycleProofs

  /** Cleanup's live-reference conflict is unreachable: a queued job has no live association and no live blob. */
  lemma QueuedIsNotLive(t: Tables, key: ObjectKey)
    requires Inv(t) && key in t.gc
    ensures forall tok | tok in t.prepared && t.prepared[tok].key == key :: !Bound(t, tok)
    ensures t.gc[key].blob.Some? ==> t.gc[key].blob.value !in t.blobs
  {
    forall tok | tok in t.prepared && t.prepared[tok].key == key ensures !Bound(t, tok) {
      assert Unbound(t, tok);
    }
    assert JobOk(t, key);
    if t.gc[key].blob.Some? { assert RetirementOk(t, t.gc[key].blob.value); }
  }

  /** A token once queued is never bound again. */
  lemma QueuedIsNeverBoundAgain(s: Tables, t: Tables, token: Token)
    requires Inv(s) && Inv(t) && Extends(s, t) && Queued(s, token)
    ensures Queued(t, token) && !Bound(t, token)
  {
    var k :| k in s.gc && s.gc[k].token == Some(token);
    assert KeptJob(s, t, k) && JobOk(t, k) && Unbound(t, token);
  }

  /** A retired id is never live again, and its retirement record never changes. */
  lemma RetiredStaysRetired(s: Tables, t: Tables, id: Id)
    requires Inv(s) && Inv(t) && Extends(s, t) && id in s.retired
    ensures id in t.retired && t.retired[id] == s.retired[id]
    ensures id !in t.blobs && RecordOf(t, id, false) == Failure(NoSuchBlob)
  {
    assert KeptRetirement(s, t, id) && RetirementOk(t, id);
  }

  // ---------------------------------------------------------------- resolve

  predicate Forward(a: Outcome, b: Outcome) {
    match a
    case Unknown => true
    case Prepared => !b.Unknown?
    case Revoked => b.Revoked?
    case Live(r) => b.Gone? || (b.Live? && (r.state.Ready? ==> b.record.state.Ready?) && b.record.file == r.file)
    case Gone(s) => b.Gone? && b.status.retirement == s.retirement
  }

  /** What an outcome says of the tables it was read from. */
  ghost predicate Reads(t: Tables, id: Id, p: PreparedFile, o: Outcome) {
    match o
    case Unknown => id !in t.blobs && id !in t.retired && p.token !in t.prepared && !Queued(t, p.token)
    case Prepared => id !in t.blobs && id !in t.retired && Journaled(t, p) && !Queued(t, p.token)
    case Revoked => id !in t.blobs && id !in t.retired && Queued(t, p.token)
    case Live(r) =>
      && id in t.blobs && id !in t.retired && id in t.objects && id in t.metadata
      && t.objects[id] == p.token && p.token in t.prepared && t.prepared[p.token] == r.file
      && t.blobs[id].state == r.state
    case Gone(status) => id in t.retired && t.retired[id] == status.retirement && status.retirement.token == p.token
  }

  lemma ResolveReads(t: Tables, root: string, id: Id, p: PreparedFile, schema: BlobSchema, metadata: PyMapping)
    requires Inv(t) && Resolve(t, root, id, p, schema, metadata).Success?
    ensures Reads(t, id, p, Resolve(t, root, id, p, schema, metadata).value)
  {
    RetiredStatusIsTheJoin(t, id);
    if id in t.retired { RetiredStaysGone(t, id); }
    if id in t.blobs { LiveIsBound(t, id); }
  }

  lemma ReadsMoveForward(s: Tables, t: Tables, id: Id, p: PreparedFile, a: Outcome, b: Outcome)
    requires Inv(s) && Inv(t) && Extends(s, t) && Reads(s, id, p, a) && Reads(t, id, p, b)
    ensures Forward(a, b)
  {
    match a {
      case Unknown =>
      case Prepared =>
        assert KeptFile(s, t, p.token);
      case Revoked =>
        QueuedIsNeverBoundAgain(s, t, p.token);
        RevokedStaysRevoked(s, t, id, p.token);
        LiveIsBound(t, id);
      case Live(r) =>
        LiveIsBound(s, id);
        LiveMovesOn(s, t, id, p.token);
        LiveLeavesOnce(s, t, id);
      case Gone(status) =>
        RetiredStaysRetired(s, t, id);
    }
  }

  lemma LiveLeavesOnce(s: Tables, t: Tables, id: Id)
    requires Inv(t) && Extends(s, t) && id in s.objects
    ensures id in t.blobs || id in t.retired
  {
    assert KeptOrRetired(s, t, id);
    LiveIsBound(t, id);
  }

  /** resolve only moves forward: unknown, prepared, publishing, ready, retired, or to discarded from the first two. */
  lemma ResolveMovesForward(
    s: Tables, t: Tables, root: string, id: Id, p: PreparedFile, schema: BlobSchema, m1: PyMapping, m2: PyMapping)
    requires Inv(s) && Inv(t) && Extends(s, t)
    requires Resolve(s, root, id, p, schema, m1).Success? && Resolve(t, root, id, p, schema, m2).Success?
    ensures Forward(Resolve(s, root, id, p, schema, m1).value, Resolve(t, root, id, p, schema, m2).value)
  {
    ResolveReads(s, root, id, p, schema, m1);
    ResolveReads(t, root, id, p, schema, m2);
    ReadsMoveForward(s, t, id, p, Resolve(s, root, id, p, schema, m1).value, Resolve(t, root, id, p, schema, m2).value);
  }

  /** A live blob keeps its object and never goes back to publishing, until its id is retired. */
  lemma LiveMovesOn(s: Tables, t: Tables, id: Id, token: Token)
    requires Inv(s) && Inv(t) && Extends(s, t) && id in s.blobs && id in s.objects && id in s.metadata
    requires s.objects[id] in s.prepared && s.prepared[s.objects[id]].token == token
    ensures id in t.retired || id in t.blobs
    ensures id in t.blobs ==>
      && id in t.objects && t.objects[id] == s.objects[id] == token && id !in t.retired
      && token in s.prepared && token in t.prepared && t.prepared[token] == s.prepared[token]
      && (s.blobs[id].state.Ready? ==> t.blobs[id].state.Ready?)
  {
    LiveIsBound(s, id);
    LiveIsBound(t, id);
    assert KeptOrRetired(s, t, id);
    if id in t.blobs {
      NotRetired(t, id);
      assert KeptFile(s, t, token) && Advances(s, t, id);
    }
  }

  lemma LiveIsBound(t: Tables, id: Id)
    requires Inv(t)
    ensures id in t.blobs <==> id in t.objects
    ensures id in t.blobs ==>
      && t.objects[id] in t.prepared && t.prepared[t.objects[id]].token == t.objects[id]
      && Bound(t, t.objects[id])
  {
    if id in t.blobs {
      assert BlobOk(t, id) && FileOk(t, t.objects[id]);
    }
  }

  lemma NotRetired(t: Tables, id: Id)
    requires Inv(t) && id in t.blobs
    ensures id !in t.retired
  {
    assert id in t.retired ==> RetirementOk(t, id);
  }

  lemma RetiredStaysGone(t: Tables, id: Id)
    requires Inv(t) && id in t.retired
    ensures id !in t.blobs
  {
    assert RetirementOk(t, id);
  }

  /** A token queued while an id is neither live nor retired is never that id's retired token. */
  lemma RevokedStaysRevoked(s: Tables, t: Tables, id: Id, token: Token)
    requires Inv(s) && Inv(t) && Extends(s, t) && Queued(s, token) && id !in s.retired
    ensures id in t.retired ==> t.retired[id].token != token
  {
    var k :| k in s.gc && s.gc[k].token == Some(token);
    assert KeptJob(s, t, k) && JobOk(s, k) && JobOk(t, k);
    assert id in t.retired ==> RetirementOk(t, id);
  }

  /** "discarded" is also reported for a token whose blob was retired under a different id. */
  lemma RevokedMeans(t: Tables, root: string, id: Id, p: PreparedFile, schema: BlobSchema, metadata: PyMapping)
    requires Inv(t) && Resolve(t, root, id, p, schema, metadata).Success?
    requires p.token in t.prepared
    ensures Resolve(t, root, id, p, schema, metadata).value.Revoked?
      <==> id !in t.blobs && id !in t.retired
           && ((p.key in t.gc && t.gc[p.key].reason == Discarded)
               || exists other | other in t.retired :: other != id && t.retired[other].token == p.token)
  {
    RetiredStatusIsTheJoin(t, id);
    assert Unbound(t, p.token);
    if Queued(t, p.token) {
      var k :| k in t.gc && t.gc[k].token == Some(p.token);
      assert JobOk(t, k);
    }
    forall other | other in t.retired && t.retired[other].token == p.token ensures Queued(t, p.token) {
      assert RetirementOk(t, other);
    }
    if id in t.blobs { LiveIsBound(t, id); }
    if p.key in t.gc { assert JobOk(t, p.key); }
  }

  /** Retiring a blob makes resolve report discarded for its token under any unused id, though nothing was discarded. */
  lemma RetiredElsewhere(
    t: Tables, root: string, other: Id, expected: int, id: Id, p: PreparedFile, schema: BlobSchema, metadata: PyMapping)
    requires Inv(t) && other in t.objects && t.objects[other] == p.token && Journaled(t, p)
    requires Delete(t, root, other, expected).Success?
    requires id != other && id !in t.blobs && id !in t.retired && p.key.root == root
    requires CheckSchema(t, schema, false).Success? && NormalizeMetadata(schema, metadata).Success?
    requires p.schemaName == schema.name && p.schemaVersion == schema.version
    ensures var u := Delete(t, root, other, expected).value.tables;
      && Resolve(t, root, id, p, schema, metadata) == Failure(TokenBound)
      && Resolve(u, root, id, p, schema, metadata) == Success(Revoked)
      && p.key in u.gc && u.gc[p.key].reason == Retired
  {
    var u := Delete(t, root, other, expected).value.tables;
    DeleteKeeps(t, root, other, expected);
    LiveIsBound(t, other);
    NotRetired(t, other);
    RetiredStatusIsTheJoin(t, id);
    RetiredStatusIsTheJoin(t, other);
    RetiredStatusIsTheJoin(u, id);
    assert u.gc[p.key].token == Some(p.token);
    assert Queued(u, p.token) && Unbound(u, p.token);
  }

  /** So it is within reach of any catalog with a free token: import it under one id, delete that id, and resolve another. */
  lemma DiscardedWithoutDiscard(
    t: Tables, root: string, other: Id, id: Id, p: PreparedFile, schema: BlobSchema, metadata: PyMapping)
    requires Inv(t) && CheckSchema(t, schema, true).Success? && NormalizeMetadata(schema, metadata).Success?
    requires Journaled(t, p) && p.key.root == root && !Bound(t, p.token) && !Queued(t, p.token)
    requires p.schemaName == schema.name && p.schemaVersion == schema.version && !Running(t, schema.name)
    requires other !in t.blobs && other !in t.retired && id != other && id !in t.blobs && id !in t.retired
    ensures Import(t, root, p, schema, metadata, other).Success?
    ensures var u := Import(t, root, p, schema, metadata, other).value.tables;
      && Delete(u, root, other, 1).Success?
      && Resolve(Delete(u, root, other, 1).value.tables, root, id, p, schema, metadata) == Success(Revoked)
  {
    FreshImport(t, root, p, schema, metadata, other);
    ImportKeeps(t, root, p, schema, metadata, other);
    DiscardedAfterImport(t, Import(t, root, p, schema, metadata, other).value.tables, root, other, id, p, schema, metadata);
  }

  lemma DiscardedAfterImport(
    t: Tables, u: Tables, root: string, other: Id, id: Id, p: PreparedFile, schema: BlobSchema, metadata: PyMapping)
    requires Inv(u) && ImportsFresh(t, u, p, schema, other)
    requires CheckSchema(t, schema, true).Success? && NormalizeMetadata(schema, metadata).Success?
    requires Journaled(t, p) && p.key.root == root && !Running(t, schema.name)
    requires p.schemaName == schema.name && p.schemaVersion == schema.version
    requires id != other && id !in t.blobs && id !in t.retired
    ensures Delete(u, root, other, 1).Success?
    ensures Resolve(Delete(u, root, other, 1).value.tables, root, id, p, schema, metadata) == Success(Revoked)
  {
    DeleteSucceeds(u, root, other, 1);
    RetiredElsewhere(u, root, other, 1, id, p, schema, metadata);
  }

  /** A blob of this root can be retired at its version while no migration of its schema is running. */
  lemma DeleteSucceeds(t: Tables, root: string, id: Id, expected: int)
    requires Inv(t) && id in t.blobs && id in t.objects && id in t.metadata && t.objects[id] in t.prepared
    requires t.prepared[t.objects[id]].key.root == root && t.metadata[id].version == expected <= MAX_VERSION
    requires !Running(t, t.blobs[id].schemaName)
    ensures Delete(t, root, id, expected).Success?
  {
    RetiredStatusIsTheJoin(t, id);
    NotRetired(t, id);
    RecordSucceeds(t, id);
    assert BlobOk(t, id);
  }

  /** What a first import of a free token under a free id commits. */
  ghost predicate ImportsFresh(t: Tables, u: Tables, p: PreparedFile, schema: BlobSchema, id: Id) {
    && u == t.(blobs := u.blobs, metadata := u.metadata, objects := u.objects)
    && u.blobs.Keys == t.blobs.Keys + {id}
    && id in u.objects && u.objects[id] == p.token && id in u.metadata && u.metadata[id].version == 1
    && id in u.blobs && u.blobs[id].schemaName == schema.name
  }

  lemma FreshFinalize(t: Tables, root: string, p: PreparedFile, schema: BlobSchema, metadata: PyMapping, id: Id)
    requires CheckSchema(t, schema, true).Success? && NormalizeMetadata(schema, metadata).Success?
    requires Journaled(t, p) && p.key.root == root && !Bound(t, p.token) && !Queued(t, p.token)
    requires p.schemaName == schema.name && p.schemaVersion == schema.version
    requires id !in t.blobs && id !in t.retired
    ensures var f := Finalize(t, root, p, schema, metadata, id);
      && f.Success? && ImportsFresh(t, f.value.tables, p, schema, id)
      && f.value.value.file == p && f.value.value.state == Publishing
  {
  }

  lemma FreshPublish(t: Tables, f: Committed<Record>, root: string, p: PreparedFile, schema: BlobSchema, id: Id)
    requires ImportsFresh(t, f.tables, p, schema, id) && RecordOf(f.tables, id, false) == Success(f.value)
    requires f.value.file == p && p.key.root == root && f.value.state == Publishing
    ensures var c := Publish(f.tables, root, id);
      c.Success? && ImportsFresh(t, c.value.tables, p, schema, id)
  {
  }

  lemma ImportIsPublish(
    t: Tables, f: Committed<Record>, root: string, p: PreparedFile, schema: BlobSchema, metadata: PyMapping, id: Id)
    requires NormalizeMetadata(schema, metadata).Success? && id !in t.blobs && id !in t.retired
    requires Finalize(t, root, p, schema, metadata, id) == Success(f)
    ensures Import(t, root, p, schema, metadata, id) == Publish(f.tables, root, id)
  {
  }

  lemma FinalizeReadsBack(t: Tables, root: string, p: PreparedFile, schema: BlobSchema, metadata: PyMapping, id: Id)
    requires Inv(t) && Finalize(t, root, p, schema, metadata, id).Success?
    ensures var f := Finalize(t, root, p, schema, metadata, id).value;
      RecordOf(f.tables, id, false) == Success(f.value)
  {
    FinalizeKeeps(t, root, p, schema, metadata, id);
  }

  lemma FreshImport(t: Tables, root: string, p: PreparedFile, schema: BlobSchema, metadata: PyMapping, id: Id)
    requires Inv(t) && CheckSchema(t, schema, true).Success? && NormalizeMetadata(schema, metadata).Success?
    requires Journaled(t, p) && p.key.root == root && !Bound(t, p.token) && !Queued(t, p.token)
    requires p.schemaName == schema.name && p.schemaVersion == schema.version
    requires id !in t.blobs && id !in t.retired
    ensures var c := Import(t, root, p, schema, metadata, id);
      c.Success? && ImportsFresh(t, c.value.tables, p, schema, id)
  {
    FreshFinalize(t, root, p, schema, metadata, id);
    FinalizeReadsBack(t, root, p, schema, metadata, id);
    var f := Finalize(t, root, p, schema, metadata, id).value;
    FreshPublish(t, f, root, p, schema, id);
    ImportIsPublish(t, f, root, p, schema, metadata, id);
  }

  // ---------------------------------------------------------------- import_file and put

  /** The record two successful imports of one id return is the same, up to edits made in between. */
  predicate SameUpToEdits(a: Record, b: Record) {
    a.(version := b.version) == b && (a.version == b.version ==> a == b)
  }

  lemma RetriesAgree(
    s: Tables, t: Tables, root: string, id: Id, schema: BlobSchema, values: Values,
    size: nat, digest: string, encoding: Option<Encoding>)
    requires Inv(s) && Inv(t) && Extends(s, t)
    requires var a := Retry(s, root, id, schema, values, size, digest, encoding); a.Success? && a.value.Some?
    requires var b := Retry(t, root, id, schema, values, size, digest, encoding); b.Success? && b.value.Some?
    ensures SameUpToEdits(
      Retry(s, root, id, schema, values, size, digest, encoding).value.value,
      Retry(t, root, id, schema, values, size, digest, encoding).value.value)
  {
    assert KeptOrRetired(s, t, id) by { LiveIsBound(s, id); }
    LiveIsBound(s, id);
    assert KeptFile(s, t, s.objects[id]);
    NotRetired(t, id);
  }

  lemma PublishReadsBack(f: Committed<Record>, root: string, id: Id)
    requires Publish(f.tables, root, id).Success? && RecordOf(f.tables, id, false) == Success(f.value)
    ensures var c := Publish(f.tables, root, id).value;
      c.value == f.value.(state := Ready) && RecordOf(c.tables, id, false) == Success(c.value)
      && c.tables.retired == f.tables.retired
  {
  }

  lemma RetryFinds(
    u: Tables, r: Record, root: string, id: Id, schema: BlobSchema, size: nat, digest: string, encoding: Option<Encoding>)
    requires id !in u.retired && id in u.blobs && RecordOf(u, id, false) == Success(r) && r.state.Ready?
    requires r.schemaName == schema.name && r.schemaVersion == schema.version && r.file.key.root == root
    requires r.file.size == size && r.file.digest == digest && r.file.encoding == encoding
    ensures Retry(u, root, id, schema, r.metadata, size, digest, encoding) == Success(Some(r))
  {
  }

  lemma FinalizedRecord(t: Tables, root: string, p: PreparedFile, schema: BlobSchema, metadata: PyMapping, id: Id)
    requires Finalize(t, root, p, schema, metadata, id).Success? && id !in t.blobs
    ensures var r := Finalize(t, root, p, schema, metadata, id).value.value;
      && r.schemaName == schema.name && r.schemaVersion == schema.version && r.file == p && p.key.root == root
      && Success(r.metadata) == NormalizeMetadata(schema, metadata)
    ensures var u := Finalize(t, root, p, schema, metadata, id).value.tables;
      id in u.blobs && id !in u.retired
  {
  }

  /** Right after an import commits, asking again returns exactly its record. */
  lemma ImportThenRetry(t: Tables, root: string, p: PreparedFile, schema: BlobSchema, metadata: PyMapping, id: Id)
    requires Inv(t) && Import(t, root, p, schema, metadata, id).Success?
    ensures var c := Import(t, root, p, schema, metadata, id).value;
      Retry(c.tables, root, id, schema, NormalizeMetadata(schema, metadata).value, p.size, p.digest, p.encoding)
        == Success(Some(c.value))
  {
    if id !in t.blobs {
      var f := Finalize(t, root, p, schema, metadata, id).value;
      FinalizeKeeps(t, root, p, schema, metadata, id);
      FinalizedRecord(t, root, p, schema, metadata, id);
      PublishReadsBack(f, root, id);
      var c := Publish(f.tables, root, id).value;
      RetryFinds(c.tables, c.value, root, id, schema, p.size, p.digest, p.encoding);
    }
  }
}
