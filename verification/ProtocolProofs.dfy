/** Every step of every process keeps storage and catalog consistent. */
module ProtocolProofs {
  import opened Wrappers
  import opened Errors
  import opened Schemas
  import opened Tables
  import opened Lifecycle
  import opened LifecycleProofs
  import opened Operations
  import opened Protocol

  // ---------------------------------------------------------------- storage steps

  lemma BeginSafe(w: World, hash: Digest, key: ObjectKey, stage: ObjectKey, bytes: Bytes)
    requires Safe(w, hash) && Enabled(w, hash, Begin(key, stage, bytes))
    ensures Safe(Next(w, hash, Begin(key, stage, bytes)), hash)
  {
    var v := Next(w, hash, Begin(key, stage, bytes));
    forall k | k in v.uploads ensures UploadOk(v, k) {
      if k != key { assert UploadOk(w, k); }
    }
    forall j, k | SameStage(v, j, k) ensures j == k {
      if j != key && k != key { assert SameStage(w, j, k); }
    }
    BackedStays(w, v, hash);
  }

  /** Bytes, sizes and digests of finished uploads never change. */
  ghost predicate UploadKept(w: World, v: World, key: ObjectKey)
    requires key in w.uploads
  {
    && key in v.uploads && v.uploads[key].bytes == w.uploads[key].bytes
    && (w.uploads[key].uploaded ==> v.uploads[key].uploaded)
  }

  lemma BackedStays(w: World, v: World, hash: Digest)
    requires JournalBacked(w, hash) && v.tables.prepared == w.tables.prepared
    requires forall key {:trigger UploadKept(w, v, key)} | key in w.uploads :: UploadKept(w, v, key)
    ensures JournalBacked(v, hash)
  {
    forall tok | tok in v.tables.prepared ensures Backed(v, hash, tok) {
      assert Backed(w, hash, tok) && UploadKept(w, v, w.tables.prepared[tok].key);
    }
  }

  lemma PutStageSafe(w: World, hash: Digest, key: ObjectKey, content: Option<Bytes>, ok: bool)
    requires Safe(w, hash) && Enabled(w, hash, PutStage(key, content, ok))
    ensures Safe(Next(w, hash, PutStage(key, content, ok)), hash)
  {
    var v := Next(w, hash, PutStage(key, content, ok));
    assert UploadOk(w, key);
    forall k | k in v.uploads ensures UploadOk(v, k) {
      assert UploadOk(w, k);
      if k != key { assert !SameStage(w, k, key); }
    }
    forall j, k | SameStage(v, j, k) ensures j == k { assert SameStage(w, j, k); }
    forall k | k in w.uploads ensures UploadKept(w, v, k) {}
    BackedStays(w, v, hash);
  }

  lemma PromoteSafe(w: World, hash: Digest, key: ObjectKey, took: bool, keepsStage: bool, ok: bool)
    requires Safe(w, hash) && Enabled(w, hash, Promote(key, took, keepsStage, ok))
    ensures Safe(Next(w, hash, Promote(key, took, keepsStage, ok)), hash)
  {
    var v := Next(w, hash, Promote(key, took, keepsStage, ok));
    assert UploadOk(w, key);
    forall k | k in v.uploads ensures UploadOk(v, k) {
      assert UploadOk(w, k);
      assert k != key ==> !SameStage(w, k, key);
    }
    forall j, k | SameStage(v, j, k) ensures j == k { assert SameStage(w, j, k); }
    forall k | k in w.uploads ensures UploadKept(w, v, k) {}
    BackedStays(w, v, hash);
  }

  lemma PutEmptySafe(w: World, hash: Digest, key: ObjectKey, took: bool, ok: bool)
    requires Safe(w, hash) && Enabled(w, hash, PutEmpty(key, took, ok))
    ensures Safe(Next(w, hash, PutEmpty(key, took, ok)), hash)
  {
    var v := Next(w, hash, PutEmpty(key, took, ok));
    assert UploadOk(w, key);
    forall k | k in v.uploads ensures UploadOk(v, k) { assert UploadOk(w, k); }
    forall j, k | SameStage(v, j, k) ensures j == k { assert SameStage(w, j, k); }
    forall k | k in w.uploads ensures UploadKept(w, v, k) {}
    BackedStays(w, v, hash);
  }

  lemma StopSafe(w: World, hash: Digest, key: ObjectKey)
    requires Safe(w, hash) && Enabled(w, hash, Stop(key))
    ensures Safe(Next(w, hash, Stop(key)), hash)
  {
    var v := Next(w, hash, Stop(key));
    forall k | k in v.uploads ensures UploadOk(v, k) { assert UploadOk(w, k); }
    forall j, k | SameStage(v, j, k) ensures j == k { assert SameStage(w, j, k); }
    forall k | k in w.uploads ensures UploadKept(w, v, k) {}
    BackedStays(w, v, hash);
  }

  lemma RemoveSafe(w: World, hash: Digest, key: ObjectKey, took: bool)
    requires Safe(w, hash) && Enabled(w, hash, Remove(key, took))
    ensures Safe(Next(w, hash, Remove(key, took)), hash)
  {
    var v := Next(w, hash, Remove(key, took));
    forall k | k in v.uploads ensures UploadOk(v, k) { assert UploadOk(w, k); }
    forall j, k | SameStage(v, j, k) ensures j == k { assert SameStage(w, j, k); }
    BackedStays(w, v, hash);
  }

  // ---------------------------------------------------------------- transactions

  ghost predicate JournaledOrUploaded(w: World, hash: Digest, u: Tables) {
    forall tok | tok in u.prepared ::
      (tok in w.tables.prepared && u.prepared[tok] == w.tables.prepared[tok]) || UploadedAs(w, hash, u.prepared[tok])
  }

  lemma {:induction false} PerformJournals(w: World, hash: Digest, t: Tables, ops: seq<Op>)
    requires JournalsUploads(w, hash, ops) && JournaledOrUploaded(w, hash, t) && Perform(t, ops).Some?
    ensures JournaledOrUploaded(w, hash, Perform(t, ops).value)
    decreases |ops|
  {
    if |ops| > 0 {
      var u := Apply(t, ops[0]).value;
      ApplyFrame(t, ops[0]);
      assert forall i | 0 <= i < |ops[1..]| :: ops[1..][i] == ops[i + 1];
      PerformJournals(w, hash, u, ops[1..]);
    }
  }

  lemma CommitSafe(w: World, hash: Digest, tx: Transaction)
    requires Safe(w, hash) && Enabled(w, hash, Commit(tx))
    ensures Safe(Next(w, hash, Commit(tx)), hash)
  {
    var u := Execute(w.tables, tx);
    ExecuteKeeps(w.tables, tx);
    if tx.commits && Perform(w.tables, tx.ops).Some? {
      PerformJournals(w, hash, w.tables, tx.ops);
    }
    TablesSafe(w, hash, u);
  }

  lemma TablesSafe(w: World, hash: Digest, u: Tables)
    requires StorageOk(w) && JournalBacked(w, hash) && Keeps(w.tables, u) && JournaledOrUploaded(w, hash, u)
    ensures Safe(w.(tables := u), hash)
  {
    var v := w.(tables := u);
    forall k | k in v.uploads ensures UploadOk(v, k) {
      assert UploadOk(w, k);
      assert k in w.tables.gc ==> KeptJob(w.tables, u, k);
    }
    forall j, k | SameStage(v, j, k) ensures j == k { assert SameStage(w, j, k); }
    forall tok | tok in v.tables.prepared ensures Backed(v, hash, tok) {
      assert tok in w.tables.prepared ==> Backed(w, hash, tok);
      assert UploadedAs(w, hash, u.prepared[tok]);
    }
  }

  // ---------------------------------------------------------------- any step

  lemma StepSafe(w: World, hash: Digest, step: Step)
    requires Safe(w, hash) && Enabled(w, hash, step)
    ensures Safe(Next(w, hash, step), hash)
  {
    match step {
      case Begin(key, stage, bytes) => BeginSafe(w, hash, key, stage, bytes);
      case PutStage(key, content, ok) => PutStageSafe(w, hash, key, content, ok);
      case Promote(key, took, keepsStage, ok) => PromoteSafe(w, hash, key, took, keepsStage, ok);
      case PutEmpty(key, took, ok) => PutEmptySafe(w, hash, key, took, ok);
      case Stop(key) => StopSafe(w, hash, key);
      case Commit(tx) => CommitSafe(w, hash, tx);
      case Remove(key, took) => RemoveSafe(w, hash, key, took);
    }
  }

  lemma StepKeeps(w: World, hash: Digest, step: Step)
    requires Inv(w.tables) && Enabled(w, hash, step)
    ensures Keeps(w.tables, Next(w, hash, step).tables)
  {
    if step.Commit? {
      ExecuteKeeps(w.tables, step.tx);
    } else {
      ExtendsReflexive(w.tables);
    }
  }
}
