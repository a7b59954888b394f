/** What holds after any run of any number of processes, wherever they stop. */
module Runs {
  import opened Wrappers
  import opened Errors
  import opened Schemas
  import opened Tables
  import opened Lifecycle
  import opened LifecycleProofs
  import opened Operations
  import opened Protocol
  import opened ProtocolProofs
  import History

  /** Any interleaving of any number of processes, crashes included, stays safe and undoes no committed fact. */
  lemma {:induction false} RunIsSafe(w: World, hash: Digest, steps: seq<Step>)
    requires Safe(w, hash)
    ensures Safe(Run(w, hash, steps), hash)
    ensures Extends(w.tables, Run(w, hash, steps).tables)
    decreases |steps|
  {
    if |steps| == 0 {
      ExtendsReflexive(w.tables);
    } else {
      var v := if Enabled(w, hash, steps[0]) then Next(w, hash, steps[0]) else w;
      if Enabled(w, hash, steps[0]) {
        StepSafe(w, hash, steps[0]);
        StepKeeps(w, hash, steps[0]);
      } else {
        ExtendsReflexive(w.tables);
      }
      RunIsSafe(v, hash, steps[1..]);
      ExtendsTransitive(w.tables, v.tables, Run(w, hash, steps).tables);
    }
  }

  /** From a new catalog, after any run: every journaled object not queued for deletion is intact. */
  lemma ReachableBytes(w: World, hash: Digest, steps: seq<Step>, tok: Token)
    requires Initial(w) && tok in Run(w, hash, steps).tables.prepared
    ensures var v := Run(w, hash, steps);
      var p := v.tables.prepared[tok];
      p.key !in v.tables.gc ==> p.key in v.store && |v.store[p.key]| == p.size && hash(v.store[p.key]) == p.digest
  {
    InitiallySafe(w, hash);
    RunIsSafe(w, hash, steps);
    var v := Run(w, hash, steps);
    if v.tables.prepared[tok].key !in v.tables.gc { JournaledBytes(v, hash, tok); }
  }

  /** resolve only moves forward along any run, whatever other processes do and wherever they stop. */
  lemma ResolveAlongRuns(
    w: World, hash: Digest, steps: seq<Step>, root: string, id: Id, p: PreparedFile, schema: BlobSchema,
    m1: PyMapping, m2: PyMapping)
    requires Safe(w, hash) && Resolve(w.tables, root, id, p, schema, m1).Success?
    requires Resolve(Run(w, hash, steps).tables, root, id, p, schema, m2).Success?
    ensures History.Forward(
      Resolve(w.tables, root, id, p, schema, m1).value,
      Resolve(Run(w, hash, steps).tables, root, id, p, schema, m2).value)
  {
    RunIsSafe(w, hash, steps);
    History.ResolveMovesForward(w.tables, Run(w, hash, steps).tables, root, id, p, schema, m1, m2);
  }
}
