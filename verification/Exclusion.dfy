/** What the exclusive maintenance lease adds: a deleted object never comes back. */
module Exclusion {
  import opened Wrappers
  import opened Errors
  import opened Schemas
  import opened Tables
  import opened Lifecycle
  import opened LifecycleProofs
  import opened Operations
  import opened Protocol
  import opened ProtocolProofs
  import opened Runs

  /** No payload operation is in progress under a root: each holds the shared lease from Begin to Stop. */
  predicate Quiet(w: World, root: string) {
    forall key | key in w.uploads && key.root == root :: !w.uploads[key].live
  }

  /** queue_orphans and cleanup run under the exclusive lease, and cleanup records done only after its deletion. */
  predicate ExclusiveOp(w: World, op: Op) {
    match op
    case DoQueue(root, _) => Quiet(w, root)
    case DoCleanup(key, error) => Quiet(w, key.root) && (error.None? ==> key !in w.store)
    case _ => true
  }

  /** Requests of a stopped process have settled: they took effect before it stopped, or never will. */
  predicate Exclusive(w: World, step: Step) {
    match step
    case PutStage(key, _, _) => key in w.uploads && w.uploads[key].live
    case Promote(key, _, _, _) => key in w.uploads && w.uploads[key].live
    case PutEmpty(key, _, _) => key in w.uploads && w.uploads[key].live
    case Remove(key, _) => Quiet(w, key.root)
    case Commit(tx) => forall i | 0 <= i < |tx.ops| :: ExclusiveOp(w, tx.ops[i])
    case _ => true
  }

  ghost predicate DoneGone(w: World, t: Tables, k: ObjectKey)
    requires k in t.gc
  {
    t.gc[k].done ==> k !in w.store
  }

  ghost predicate Unqueued(w: World, t: Tables, key: ObjectKey)
    requires key in w.uploads
  {
    w.uploads[key].live && !w.uploads[key].uploaded ==> key !in t.gc && w.uploads[key].stage !in t.gc
  }

  /** Finished jobs have no object, and no unfinished upload writes to a queued key. */
  ghost predicate Clean(w: World, t: Tables) {
    && (forall k {:trigger DoneGone(w, t, k)} | k in t.gc :: DoneGone(w, t, k))
    && (forall key {:trigger Unqueued(w, t, key)} | key in w.uploads :: Unqueued(w, t, key))
  }

  lemma StorageStepClean(w: World, hash: Digest, step: Step)
    requires StorageOk(w) && Clean(w, w.tables) && Enabled(w, hash, step) && Exclusive(w, step) && !step.Commit?
    ensures var v := Next(w, hash, step);
      Clean(v, v.tables)
  {
    var v := Next(w, hash, step);
    forall k | k in v.tables.gc ensures DoneGone(v, v.tables, k) {
      assert DoneGone(w, w.tables, k);
      if step.PutStage? || step.Promote? || step.PutEmpty? {
        assert Unqueued(w, w.tables, step.key) && UploadOk(w, step.key);
      }
    }
    forall key | key in v.uploads ensures Unqueued(v, v.tables, key) {
      if key in w.uploads { assert Unqueued(w, w.tables, key); }
    }
  }

  // ---------------------------------------------------------------- how one call changes the queue

  /** A new job is pending, and names a journaled object or was queued as an orphan. */
  ghost predicate QueueStep(t: Tables, op: Op, u: Tables, k: ObjectKey)
    requires k in u.gc
  {
    if k in t.gc then u.gc[k].done ==> t.gc[k].done || op == DoCleanup(k, None)
    else !u.gc[k].done && (KeyJournaled(t, k) || (op.DoQueue? && op.root == k.root))
  }

  lemma ApplyQueues(t: Tables, op: Op, k: ObjectKey)
    requires JournalOk(t) && Apply(t, op).Some? && k in Apply(t, op).value.gc
    ensures QueueStep(t, op, Apply(t, op).value, k)
  {
    ApplyFrame(t, op);
    match op {
      case DoDelete(root, id, expected) => DeleteQueues(t, root, id, expected, k);
      case DoQueue(root, names) => QueueOrphansQueues(t, root, names, k);
      case DoDiscard(_, _) => JobQueues(t, op, k);
      case DoCleanup(_, _) => JobQueues(t, op, k);
      case _ =>
    }
  }

  lemma DeleteQueues(t: Tables, root: string, id: Id, expected: int, k: ObjectKey)
    requires Delete(t, root, id, expected).Success? && k in Delete(t, root, id, expected).value.tables.gc
    ensures QueueStep(t, DoDelete(root, id, expected), Delete(t, root, id, expected).value.tables, k)
  {
  }

  lemma QueueOrphansQueues(t: Tables, root: string, names: seq<Name>, k: ObjectKey)
    requires QueueOrphans(t, root, names).Success? && k in QueueOrphans(t, root, names).value.tables.gc
    ensures QueueStep(t, DoQueue(root, names), QueueOrphans(t, root, names).value.tables, k)
  {
  }

  lemma JobQueues(t: Tables, op: Op, k: ObjectKey)
    requires Apply(t, op).Some? && k in Apply(t, op).value.gc && (op.DoDiscard? || op.DoCleanup?)
    ensures QueueStep(t, op, Apply(t, op).value, k)
  {
  }

  ghost predicate AllUploaded(w: World, t: Tables) {
    forall tok | tok in t.prepared :: t.prepared[tok].key in w.uploads && w.uploads[t.prepared[tok].key].uploaded
  }

  lemma ApplyClean(w: World, t: Tables, op: Op)
    requires StorageOk(w) && Inv(t) && AllUploaded(w, t) && Clean(w, t) && Apply(t, op).Some? && ExclusiveOp(w, op)
    ensures Clean(w, Apply(t, op).value)
  {
    var u := Apply(t, op).value;
    forall k | k in u.gc ensures DoneGone(w, u, k) {
      ApplyQueues(t, op, k);
      assert k in t.gc ==> DoneGone(w, t, k);
    }
    forall key | key in w.uploads ensures Unqueued(w, u, key) {
      assert Unqueued(w, t, key) && UploadOk(w, key);
      if key in u.gc { ApplyQueues(t, op, key); }
      var stage := w.uploads[key].stage;
      if stage in u.gc { ApplyQueues(t, op, stage); StagesUnjournaled(t, stage); }
    }
  }

  lemma StagesUnjournaled(t: Tables, stage: ObjectKey)
    requires JournalOk(t) && stage.name.Staging?
    ensures !KeyJournaled(t, stage)
  {
    forall tok | tok in t.prepared ensures t.prepared[tok].key != stage { assert FileOk(t, tok); }
  }

  lemma {:induction false} PerformClean(w: World, hash: Digest, t: Tables, ops: seq<Op>)
    requires StorageOk(w) && Inv(t) && AllUploaded(w, t) && Clean(w, t) && JournalsUploads(w, hash, ops)
    requires Perform(t, ops).Some? && forall i | 0 <= i < |ops| :: ExclusiveOp(w, ops[i])
    ensures Clean(w, Perform(t, ops).value)
    decreases |ops|
  {
    if |ops| > 0 {
      var u := Apply(t, ops[0]).value;
      ApplyKeeps(t, ops[0]);
      ApplyClean(w, t, ops[0]);
      ApplyFrame(t, ops[0]);
      assert forall i | 0 <= i < |ops[1..]| :: ops[1..][i] == ops[i + 1];
      PerformClean(w, hash, u, ops[1..]);
    }
  }

  lemma StepClean(w: World, hash: Digest, step: Step)
    requires Safe(w, hash) && Clean(w, w.tables) && Enabled(w, hash, step) && Exclusive(w, step)
    ensures var v := Next(w, hash, step);
      Clean(v, v.tables)
  {
    if step.Commit? {
      if step.tx.commits && Perform(w.tables, step.tx.ops).Some? {
        forall tok | tok in w.tables.prepared ensures UploadedAs(w, hash, w.tables.prepared[tok]) {
          assert Backed(w, hash, tok);
        }
        PerformClean(w, hash, w.tables, step.tx.ops);
      }
      CleanReads(w, Next(w, hash, step));
    } else {
      StorageStepClean(w, hash, step);
    }
  }

  lemma CleanReads(w: World, v: World)
    requires Clean(w, v.tables) && v.store == w.store && v.uploads == w.uploads
    ensures Clean(v, v.tables)
  {
    forall k | k in v.tables.gc ensures DoneGone(v, v.tables, k) { assert DoneGone(w, v.tables, k); }
    forall key | key in v.uploads ensures Unqueued(v, v.tables, key) { assert Unqueued(w, v.tables, key); }
  }

  /** A run in which maintenance holds its lease. */
  ghost predicate ExclusiveRun(w: World, hash: Digest, steps: seq<Step>)
    decreases |steps|
  {
    |steps| == 0 ||
    if Enabled(w, hash, steps[0]) then Exclusive(w, steps[0]) && ExclusiveRun(Next(w, hash, steps[0]), hash, steps[1..])
    else ExclusiveRun(w, hash, steps[1..])
  }

  /** Along such a run a key whose job is done never holds an object again. */
  lemma {:induction false} RunIsClean(w: World, hash: Digest, steps: seq<Step>)
    requires Safe(w, hash) && Clean(w, w.tables) && ExclusiveRun(w, hash, steps)
    ensures var v := Run(w, hash, steps);
      Safe(v, hash) && Clean(v, v.tables)
    decreases |steps|
  {
    if |steps| > 0 {
      if Enabled(w, hash, steps[0]) {
        StepSafe(w, hash, steps[0]);
        StepClean(w, hash, steps[0]);
        RunIsClean(Next(w, hash, steps[0]), hash, steps[1..]);
      } else {
        RunIsClean(w, hash, steps[1..]);
      }
    }
  }

  /** From a new catalog, along such a run a finished job's key stays empty. */
  lemma DoneIsGone(w: World, hash: Digest, steps: seq<Step>, k: ObjectKey)
    requires Initial(w) && ExclusiveRun(w, hash, steps)
    ensures var v := Run(w, hash, steps);
      k in v.tables.gc && v.tables.gc[k].done ==> k !in v.store
  {
    InitiallySafe(w, hash);
    RunIsClean(w, hash, steps);
    var v := Run(w, hash, steps);
    assert k in v.tables.gc ==> DoneGone(v, v.tables, k);
  }

  /**
   * Without settled requests it can fail: a stage whose upload stopped is queued, deleted and recorded done, and then its
   * delayed request lands. reconcile reports such a key as reappeared.
   */
  lemma LateRequestReappears(w: World, hash: Digest, key: ObjectKey, stage: ObjectKey, bytes: Bytes)
    requires Initial(w) && Enabled(w, hash, Begin(key, stage, bytes))
    ensures var steps := LateSteps(key, stage, bytes);
      var v := Run(w, hash, steps);
      && Safe(v, hash) && stage in v.tables.gc && v.tables.gc[stage].done && stage in v.store
  {
    InitiallySafe(w, hash);
    RunIsSafe(w, hash, LateSteps(key, stage, bytes));
    var c := QueuedStage(w, key, stage, bytes);
    StageIsQueued(w, hash, key, stage, bytes);
    LateLands(c, hash, key, stage, bytes);
    RunsCompose(
      w, hash, [Begin(key, stage, bytes), Stop(key), QueueStage(stage)],
      JobSteps(stage, false, None) + [PutStage(key, Some(bytes), false)]);
  }

  /** The upload has stopped before storing anything, and its stage has been queued as an orphan. */
  function QueuedStage(w: World, key: ObjectKey, stage: ObjectKey, bytes: Bytes): World {
    World(w.tables.(gc := w.tables.gc[stage := ORPHAN]), w.store, w.uploads[key := Upload(stage, bytes, false, false, false)])
  }

  lemma StageIsAccepted(t: Tables, stage: ObjectKey)
    requires t.prepared == map[] && stage !in t.gc && stage.name.Staging?
    ensures QueueOrphans(t, stage.root, [stage.name])
      == Success(Committed(t.(gc := t.gc[stage := ORPHAN]), [stage.name]))
  {
    var keys := set n | n in [stage.name] :: ObjectKey(stage.root, n);
    assert stage.name in [stage.name];
    assert keys == {stage};
    assert t.gc + (map k | k in keys && k !in t.gc :: ORPHAN) == t.gc[stage := ORPHAN];
  }

  lemma StageQueues(t: Tables, stage: ObjectKey)
    requires t.prepared == map[] && stage !in t.gc && stage.name.Staging?
    ensures Perform(t, [DoQueue(stage.root, [stage.name])]) == Some(t.(gc := t.gc[stage := ORPHAN]))
  {
    StageIsAccepted(t, stage);
    OneCall(t, DoQueue(stage.root, [stage.name]));
  }

  lemma StageIsQueued(w: World, hash: Digest, key: ObjectKey, stage: ObjectKey, bytes: Bytes)
    requires w.tables.prepared == map[] && Enabled(w, hash, Begin(key, stage, bytes))
    ensures Run(w, hash, [Begin(key, stage, bytes), Stop(key), QueueStage(stage)]) == QueuedStage(w, key, stage, bytes)
  {
    var a := Next(w, hash, Begin(key, stage, bytes));
    var b := Next(a, hash, Stop(key));
    assert b.uploads == w.uploads[key := Upload(stage, bytes, false, false, false)];
    StageQueues(w.tables, stage);
    assert [Begin(key, stage, bytes), Stop(key), QueueStage(stage)][1..] == [Stop(key), QueueStage(stage)];
    assert [Stop(key), QueueStage(stage)][1..] == [QueueStage(stage)] && [QueueStage(stage)][1..] == [];
    assert Run(b, hash, [QueueStage(stage)]) == Next(b, hash, QueueStage(stage));
    assert Run(a, hash, [Stop(key), QueueStage(stage)]) == Run(b, hash, [QueueStage(stage)]);
  }

  lemma LateLands(c: World, hash: Digest, key: ObjectKey, stage: ObjectKey, bytes: Bytes)
    requires key in c.uploads && c.uploads[key] == Upload(stage, bytes, false, false, false)
    requires stage in c.tables.gc && c.tables.gc[stage] == ORPHAN && stage !in c.store && Quiet(c, stage.root)
    ensures var v := Run(c, hash, JobSteps(stage, false, None) + [PutStage(key, Some(bytes), false)]);
      stage in v.tables.gc && v.tables.gc[stage].done && stage in v.store
  {
    var late := PutStage(key, Some(bytes), false);
    JobLeads(c, hash, stage, c.store, None);
    var d := World(RecordCleanup(c.tables, stage, None), c.store, c.uploads);
    assert Run(d, hash, [late]) == Next(d, hash, late) by { assert [late][1..] == []; }
    RunsCompose(c, hash, JobSteps(stage, false, None), [late]);
  }

  function QueueStage(stage: ObjectKey): Step {
    Commit(Transaction([DoQueue(stage.root, [stage.name])], true))
  }

  function LateSteps(key: ObjectKey, stage: ObjectKey, bytes: Bytes): seq<Step> {
    [Begin(key, stage, bytes), Stop(key), QueueStage(stage)] + (JobSteps(stage, false, None) + [PutStage(key, Some(bytes), false)])
  }

  lemma {:induction false} RunsCompose(w: World, hash: Digest, a: seq<Step>, b: seq<Step>)
    ensures Run(w, hash, a + b) == Run(Run(w, hash, a), hash, b)
    ensures ExclusiveRun(w, hash, a + b) <==> ExclusiveRun(w, hash, a) && ExclusiveRun(Run(w, hash, a), hash, b)
    decreases |a|
  {
    if |a| == 0 {
      assert |a + b| == |b| && forall i | 0 <= i < |b| :: (a + b)[i] == b[i];
      assert a + b == b;
    } else {
      assert (a + b)[1..] == a[1..] + b;
      RunsCompose(if Enabled(w, hash, a[0]) then Next(w, hash, a[0]) else w, hash, a[1..], b);
    }
  }

  /** A run under the lease that ends with these tables and objects and starts or finishes no upload. */
  ghost predicate LeadsTo(w: World, hash: Digest, steps: seq<Step>, t: Tables, objects: map<ObjectKey, Bytes>) {
    ExclusiveRun(w, hash, steps) && Run(w, hash, steps) == World(t, objects, w.uploads)
  }

  lemma LeadsOn(
    w: World, hash: Digest, a: seq<Step>, b: seq<Step>,
    t: Tables, objects: map<ObjectKey, Bytes>, u: Tables, left: map<ObjectKey, Bytes>)
    requires LeadsTo(w, hash, a, t, objects) && LeadsTo(World(t, objects, w.uploads), hash, b, u, left)
    ensures LeadsTo(w, hash, a + b, u, left)
  {
    RunsCompose(w, hash, a, b);
  }

  /** One job of cleanup as two steps: the deletion, then the transaction that records it. */
  function JobSteps(key: ObjectKey, took: bool, error: Option<string>): seq<Step> {
    [Remove(key, took), Commit(Transaction([DoCleanup(key, error)], true))]
  }

  lemma JobLeads(w: World, hash: Digest, key: ObjectKey, left: map<ObjectKey, Bytes>, error: Option<string>)
    requires key in w.tables.gc && Quiet(w, key.root)
    requires left == w.store || left == w.store - {key}
    requires error.None? ==> key !in left
    ensures LeadsTo(w, hash, JobSteps(key, left != w.store, error), RecordCleanup(w.tables, key, error), left)
  {
    var steps := JobSteps(key, left != w.store, error);
    var v := Next(w, hash, steps[0]);
    assert steps[1..] == [steps[1]] && [steps[1]][1..] == [];
    OneCall(v.tables, DoCleanup(key, error));
    assert Run(v, hash, [steps[1]]) == Next(v, hash, steps[1]);
  }

  lemma StaysPut(w: World, hash: Digest)
    ensures LeadsTo(w, hash, [], w.tables, w.store)
  {
  }
}
