/** import_file and put with one caller id: however often they run, and whatever runs between, they agree. */
module Imports {
  import opened Wrappers
  import opened Errors
  import opened Schemas
  import opened Tables
  import opened Lifecycle
  import opened LifecycleProofs
  import opened History
  import opened Migrations
  import opened Operations
  import opened Interleaving

  /** The row is as it was, or has since been migrated, or its id was retired. */
  ghost predicate Unedited(s: Tables, t: Tables, id: Id)
    requires id in s.blobs && id in s.metadata
  {
    || id in t.retired
    || (id in t.blobs && id in t.metadata
        && (t.metadata[id] == s.metadata[id] || t.blobs[id].schemaVersion > s.blobs[id].schemaVersion)
        && t.blobs[id].schemaVersion >= s.blobs[id].schemaVersion)
  }

  predicate Edits(op: Op, id: Id) {
    op.DoUpdate? && op.id == id
  }

  lemma UneditedStep(s: Tables, t: Tables, u: Tables, op: Op, id: Id)
    requires id in s.blobs && id in s.metadata && Unedited(s, t, id) && !Edits(op, id)
    requires KeepsRecords(t, u) && (id in t.blobs && id in t.metadata ==> RowStep(t, op, u, id))
    ensures Unedited(s, u, id)
  {
    if id in t.retired { assert KeptRetirement(t, u, id); }
  }

  lemma {:induction false} PerformUnedited(s: Tables, t: Tables, ops: seq<Op>, id: Id)
    requires Inv(t) && id in s.blobs && id in s.metadata && Unedited(s, t, id)
    requires Perform(t, ops).Some? && forall op | op in ops :: !Edits(op, id)
    ensures Unedited(s, Perform(t, ops).value, id)
    decreases |ops|
  {
    if |ops| > 0 {
      var op, u := ops[0], Apply(t, ops[0]).value;
      ApplyKeeps(t, op);
      if id in t.blobs && id in t.metadata { ApplyRow(t, op, id); }
      UneditedStep(s, t, u, op, id);
      PerformUnedited(s, u, ops[1..], id);
    }
  }

  predicate SamePayload(p: PreparedFile, q: PreparedFile) {
    p.size == q.size && p.digest == q.digest && p.encoding == q.encoding
  }

  /** A later call that reaches its final transaction after another call committed adds nothing. */
  lemma LaterImportRetries(
    t: Tables, root: string, q: PreparedFile, schema: BlobSchema, metadata: PyMapping, id: Id)
    requires Import(t, root, q, schema, metadata, id).Success? && id in t.blobs
    ensures var c := Import(t, root, q, schema, metadata, id).value;
      && c.tables == t
      && Retry(t, root, id, schema, NormalizeMetadata(schema, metadata).value, q.size, q.digest, q.encoding)
           == Success(Some(c.value))
  {
  }

  lemma ImportedIsLive(t: Tables, root: string, p: PreparedFile, schema: BlobSchema, metadata: PyMapping, id: Id)
    requires Inv(t) && Import(t, root, p, schema, metadata, id).Success?
    ensures var c := Import(t, root, p, schema, metadata, id).value;
      Inv(c.tables) && id in c.tables.blobs && id in c.tables.metadata
      && RecordOf(c.tables, id, true) == Success(c.value)
  {
    ImportKeeps(t, root, p, schema, metadata, id);
  }

  /** An import cannot succeed for an id that was ever retired. */
  lemma NoImportAfterRetirement(t: Tables, root: string, q: PreparedFile, schema: BlobSchema, metadata: PyMapping, id: Id)
    requires Inv(t) && Import(t, root, q, schema, metadata, id).Success?
    ensures id !in t.retired
  {
  }

  /** A second call in a later catalog, given what the first call's record still answers. */
  lemma SecondImport(
    u: Tables, first: Record, t: Tables, root: string, q: PreparedFile, schema: BlobSchema, metadata: PyMapping, id: Id)
    requires Inv(u) && Inv(t) && Extends(u, t) && id in u.blobs
    requires Import(t, root, q, schema, metadata, id).Success?
    requires Retry(u, root, id, schema, NormalizeMetadata(schema, metadata).value, q.size, q.digest, q.encoding)
      == Success(Some(first))
    ensures var second := Import(t, root, q, schema, metadata, id).value;
      && second.tables == t && id !in t.retired && RecordOf(t, id, false) == Success(second.value)
      && SameUpToEdits(first, second.value)
  {
    NoImportAfterRetirement(t, root, q, schema, metadata, id);
    LiveStays(u, t, id);
    LaterImportRetries(t, root, q, schema, metadata, id);
    RetriesAgree(u, t, root, id, schema, NormalizeMetadata(schema, metadata).value, q.size, q.digest, q.encoding);
  }

  lemma SameWithoutEdits(first: Committed<Record>, t: Tables, second: Committed<Record>, txs: seq<Transaction>, id: Id)
    requires Inv(first.tables) && id in first.tables.blobs && id in first.tables.metadata
    requires t == Replay(first.tables, txs) && id !in t.retired
    requires RecordOf(first.tables, id, true) == Success(first.value) && RecordOf(t, id, false) == Success(second.value)
    requires SameUpToEdits(first.value, second.value)
    requires forall tx, op | tx in txs && op in tx.ops :: !Edits(op, id)
    ensures second.value == first.value
  {
    assert Unedited(first.tables, first.tables, id);
    AppliedIsReplay(first.tables, txs);
    forall op | op in Applied(first.tables, txs) ensures !Edits(op, id) { AppliedIsFrom(first.tables, txs, op); }
    PerformUnedited(first.tables, first.tables, Applied(first.tables, txs), id);
    SameVersion(first, t, second, id);
  }

  /**
   * Two successful calls with one id, declaration, metadata and payload, with any history of other transactions between:
   * the second commits nothing and returns the first call's record, up to edits made in between.
   */
  lemma ImportsAgree(
    s: Tables, root: string, p: PreparedFile, q: PreparedFile, schema: BlobSchema, metadata: PyMapping, id: Id,
    txs: seq<Transaction>)
    requires Inv(s) && Import(s, root, p, schema, metadata, id).Success? && SamePayload(p, q)
    requires var t := Replay(Import(s, root, p, schema, metadata, id).value.tables, txs);
      Import(t, root, q, schema, metadata, id).Success?
    ensures var first := Import(s, root, p, schema, metadata, id).value;
      var t := Replay(first.tables, txs);
      var second := Import(t, root, q, schema, metadata, id).value;
      && second.tables == t
      && SameUpToEdits(first.value, second.value)
      && ((forall tx, op | tx in txs && op in tx.ops :: !Edits(op, id)) ==> second.value == first.value)
  {
    var first := Import(s, root, p, schema, metadata, id).value;
    var t := Replay(first.tables, txs);
    ImportedIsLive(s, root, p, schema, metadata, id);
    ImportThenRetry(s, root, p, schema, metadata, id);
    ReplayKeeps(first.tables, txs);
    SecondImport(first.tables, first.value, t, root, q, schema, metadata, id);
    if forall tx, op | tx in txs && op in tx.ops :: !Edits(op, id) {
      SameWithoutEdits(first, t, Import(t, root, q, schema, metadata, id).value, txs, id);
    }
  }

  lemma LiveStays(s: Tables, t: Tables, id: Id)
    requires Inv(s) && Inv(t) && Extends(s, t) && id in s.blobs && id !in t.retired
    ensures id in t.blobs
  {
    LiveIsBound(s, id);
    LiveIsBound(t, id);
    assert KeptOrRetired(s, t, id);
  }

  lemma SameVersion(first: Committed<Record>, t: Tables, second: Committed<Record>, id: Id)
    requires id in first.tables.blobs && id in first.tables.metadata && id !in t.retired
    requires Unedited(first.tables, t, id)
    requires RecordOf(first.tables, id, true) == Success(first.value) && RecordOf(t, id, false) == Success(second.value)
    requires first.value.schemaVersion == second.value.schemaVersion
    ensures first.value.version == second.value.version
  {
  }
}
