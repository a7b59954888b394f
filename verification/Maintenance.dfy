/** Exclusive maintenance: the reconciliation report, and cleanup job by job. */
module Maintenance {
  import opened Wrappers
  import opened Errors
  import opened Ordering
  import opened Schemas
  import opened Tables
  import opened Lifecycle
  import opened LifecycleProofs
  import opened History
  import opened Databases
  import opened Protocol
  import opened Exclusion

  // ---------------------------------------------------------------- cleanup

  /** How one object deletion goes; a missing object is not an error. */
  datatype Deletion = Deletes | Refuses(error: string) | Loses(error: string)

  class ObjectStore {
    var objects: map<ObjectKey, Bytes>
    var calls: nat
    const script: nat -> Deletion

    constructor (objects: map<ObjectKey, Bytes>, script: nat -> Deletion)
      ensures this.objects == objects && this.script == script
    {
      this.objects, calls := objects, 0;
      this.script := script;
    }

    /** delete_object: None is success. */
    method Delete(key: ObjectKey) returns (error: Option<string>)
      modifies this
      ensures objects == old(objects) || objects == old(objects) - {key}
      ensures error.None? ==> key !in objects
      ensures calls == old(calls) + 1 && (error.None? <==> script(old(calls)).Deletes?)
    {
      var outcome := script(calls);
      calls := calls + 1;
      if !outcome.Refuses? { objects := objects - {key}; }
      error := if outcome.Deletes? then None else Some(outcome.error);
    }
  }

  /** Text order of object keys: objects/ before staging/, then the hexadecimal part. */
  predicate NameLess(a: Name, b: Name) {
    match (a, b)
    case (Object(x), Object(y)) => TextLess(x, y)
    case (Object(_), _) => true
    case (Staging(_), Object(_)) => false
    case (Staging(x), Staging(y)) => TextLess(x, y)
    case (Staging(_), Other(_)) => true
    case (Other(x), Other(y)) => TextLess(x, y)
    case (Other(_), _) => false
  }

  function NameText(n: Name): string {
    match n case Object(x) => x case Staging(x) => x case Other(x) => x
  }

  lemma NameLessStrictTotal(s: set<Name>)
    ensures StrictTotal(NameLess, s)
  {
    forall x | x in s ensures !NameLess(x, x) { TextLessIrreflexive(NameText(x)); }
    forall x, y, z | x in s && y in s && z in s && NameLess(x, y) && NameLess(y, z) ensures NameLess(x, z) {
      if TextLess(NameText(x), NameText(y)) && TextLess(NameText(y), NameText(z)) {
        TextLessTransitive(NameText(x), NameText(y), NameText(z));
      }
    }
    forall x, y | x in s && y in s && x != y ensures NameLess(x, y) || NameLess(y, x) {
      if NameText(x) != NameText(y) { TextLessConnected(NameText(x), NameText(y)); }
    }
  }

  /** The key as SQLite holds it. */
  function KeyText(n: Name): string {
    match n
    case Object(x) => "objects/" + x
    case Staging(x) => "staging/" + x
    case Other(x) => x
  }

  lemma {:induction false} PrefixIsIgnored(p: string, x: string, y: string)
    ensures TextLess(p + x, p + y) <==> TextLess(x, y)
  {
    if p == "" {
      assert p + x == x && p + y == y;
    } else {
      assert (p + x)[1..] == p[1..] + x && (p + y)[1..] == p[1..] + y;
      PrefixIsIgnored(p[1..], x, y);
    }
  }

  /** The order of queued keys is the text order of their keys. */
  lemma NameLessIsText(a: Name, b: Name)
    requires !a.Other? && !b.Other?
    ensures NameLess(a, b) <==> TextLess(KeyText(a), KeyText(b))
  {
    PrefixIsIgnored("objects/", NameText(a), NameText(b));
    PrefixIsIgnored("staging/", NameText(a), NameText(b));
    assert KeyText(a)[0] == (if a.Object? then 'o' else 's') && KeyText(b)[0] == if b.Object? then 'o' else 's';
  }

  function Pending(t: Tables, root: string): set<Name> {
    set k | k in t.gc && k.root == root && !t.gc[k].done :: k.name
  }

  /** The jobs one call works on. */
  function Selected(t: Tables, root: string, limit: nat): seq<Name> {
    NameLessStrictTotal(Pending(t, root));
    First(NameLess, Pending(t, root), limit)
  }

  datatype Done = Done(name: Name, error: Option<string>)

  /** The queue after recording some results, one transaction each. */
  function RecordAll(t: Tables, root: string, results: seq<Done>): Tables {
    if results == [] then t
    else
      var last := results[|results| - 1];
      RecordCleanup(RecordAll(t, root, results[..|results| - 1]), ObjectKey(root, last.name), last.error)
  }

  lemma SelectedArePending(t: Tables, root: string, limit: nat)
    ensures forall n | n in Selected(t, root, limit) :: ObjectKey(root, n) in t.gc && !t.gc[ObjectKey(root, n)].done
    ensures |Selected(t, root, limit)| == if limit < |Pending(t, root)| then limit else |Pending(t, root)|
  {
    NameLessStrictTotal(Pending(t, root));
    FirstSelects(NameLess, Pending(t, root), limit);
    forall n | n in Selected(t, root, limit) ensures n in Pending(t, root) {
      assert n in Elements(Selected(t, root, limit));
    }
  }

  /** One call takes the first pending keys of its root in text order, up to the limit, and leaves no earlier one. */
  lemma SelectedAreFirst(t: Tables, root: string, limit: nat)
    requires QueueOk(t)
    ensures var jobs := Selected(t, root, limit);
      && |jobs| <= limit
      && (forall n | n in jobs :: ObjectKey(root, n) in t.gc && !t.gc[ObjectKey(root, n)].done)
      && (forall i, j | 0 <= i < j < |jobs| :: TextLess(KeyText(jobs[i]), KeyText(jobs[j])))
      && (forall n | ObjectKey(root, n) in t.gc && !t.gc[ObjectKey(root, n)].done && n !in jobs ::
            |jobs| == limit && forall m | m in jobs :: TextLess(KeyText(m), KeyText(n)))
  {
    var pending, jobs := Pending(t, root), Selected(t, root, limit);
    NameLessStrictTotal(pending);
    FirstSelects(NameLess, pending, limit);
    SelectedArePending(t, root, limit);
    forall n | ObjectKey(root, n) in t.gc ensures !n.Other? { assert JobOk(t, ObjectKey(root, n)); }
    forall i, j | 0 <= i < j < |jobs| ensures TextLess(KeyText(jobs[i]), KeyText(jobs[j])) {
      assert jobs[i] in jobs && jobs[j] in jobs;
      NameLessIsText(jobs[i], jobs[j]);
    }
    forall n | ObjectKey(root, n) in t.gc && !t.gc[ObjectKey(root, n)].done && n !in jobs
      ensures |jobs| == limit && forall m | m in jobs :: TextLess(KeyText(m), KeyText(n))
    {
      assert ObjectKey(root, n).name == n && n in pending - Elements(jobs);
      if |pending| <= limit { WholeSet(Elements(jobs), pending); }
      forall m | m in jobs ensures TextLess(KeyText(m), KeyText(n)) { NameLessIsText(m, n); }
    }
  }

  lemma WholeSet<T>(a: set<T>, b: set<T>)
    requires a <= b && |a| == |b|
    ensures a == b
  {
    assert b == a + (b - a);
  }

  /** The jobs that some results leave alone. */
  lemma {:induction false} RecordAllKeeps(t: Tables, root: string, results: seq<Done>, k: ObjectKey)
    ensures var u := RecordAll(t, root, results);
      && (k in u.gc <==> k in t.gc)
      && (k in t.gc && (forall done | done in results :: ObjectKey(root, done.name) != k) ==> u.gc[k] == t.gc[k])
    decreases |results|
  {
    if results != [] {
      var init := results[..|results| - 1];
      assert forall done | done in init :: done in results;
      RecordAllKeeps(t, root, init, k);
    }
  }

  ghost predicate Fresh(t: Tables, root: string, results: seq<Done>) {
    && (forall i, j | 0 <= i < j < |results| :: results[i].name != results[j].name)
    && (forall done | done in results :: ObjectKey(root, done.name) in t.gc && !t.gc[ObjectKey(root, done.name)].done)
  }

  /** After recording some results, each worked job is done, or pending with its error. */
  lemma {:induction false} RecordAllMeans(t: Tables, root: string, results: seq<Done>, i: nat)
    requires Fresh(t, root, results) && i < |results|
    ensures var u, key := RecordAll(t, root, results), ObjectKey(root, results[i].name);
      key in u.gc && u.gc[key].done == (results[i].error == None) && u.gc[key].lastError == results[i].error
    decreases |results|
  {
    var init, last := results[..|results| - 1], results[|results| - 1];
    assert forall done | done in init :: done in results;
    if i < |init| {
      RecordAllMeans(t, root, init, i);
    } else {
      RecordAllKeeps(t, root, init, ObjectKey(root, last.name));
      assert forall done | done in init :: done.name != last.name;
    }
  }

  /** Whether cleanup's check finds a live reference to a queued key. */
  predicate Referenced(t: Tables, key: ObjectKey)
    requires key in t.gc
  {
    || (exists tok | tok in t.prepared :: t.prepared[tok].key == key && Bound(t, tok))
    || (t.gc[key].blob.Some? && t.gc[key].blob.value in t.blobs)
  }

  /** In any catalog, damaged or not: some association holds the key's object, or the retired blob is live. */
  lemma ReferencedMeans(t: Tables, key: ObjectKey)
    requires key in t.gc
    ensures Referenced(t, key) <==>
      || (exists id | id in t.objects && t.objects[id] in t.prepared :: t.prepared[t.objects[id]].key == key)
      || (exists id | id in t.blobs :: t.gc[key].blob == Some(id))
  {
    forall id | id in t.objects && t.objects[id] in t.prepared && t.prepared[t.objects[id]].key == key
      ensures Referenced(t, key)
    {
      assert Bound(t, t.objects[id]);
    }
  }

  /** The whole selection is checked before anything is deleted. */
  method AnyReferenced(db: Database, root: string, jobs: seq<Name>) returns (found: bool)
    requires forall n | n in jobs :: ObjectKey(root, n) in db.gc
    ensures found <==> exists n | n in jobs :: Referenced(db.T(), ObjectKey(root, n))
  {
    for i := 0 to |jobs|
      invariant forall j | 0 <= j < i :: !Referenced(db.T(), ObjectKey(root, jobs[j]))
    {
      if Referenced(db.T(), ObjectKey(root, jobs[i])) {
        return true;
      }
    }
    return false;
  }

  lemma NothingReferenced(t: Tables, root: string, n: Name)
    requires Inv(t) && ObjectKey(root, n) in t.gc
    ensures !Referenced(t, ObjectKey(root, n))
  {
    QueuedIsNotLive(t, ObjectKey(root, n));
  }

  type Objects = map<ObjectKey, Bytes>

  /** What working off the first jobs has done to the store. */
  ghost predicate Deleted(before: Objects, after: Objects, root: string, jobs: seq<Name>, results: seq<Done>) {
    && |results| <= |jobs|
    && (forall i | 0 <= i < |results| :: results[i].name == jobs[i])
    && (forall i | 0 <= i < |results| && results[i].error.None? :: ObjectKey(root, results[i].name) !in after)
    && after.Keys <= before.Keys
    && (forall k | k in before :: (k in after && after[k] == before[k]) || (k.root == root && k.name in jobs))
  }

  lemma DeletedNext(
    before: Objects, middle: Objects, after: Objects, root: string, jobs: seq<Name>, results: seq<Done>, done: Done)
    requires Deleted(before, middle, root, jobs, results) && |results| < |jobs| && done.name == jobs[|results|]
    requires after == middle || after == middle - {ObjectKey(root, done.name)}
    requires done.error.None? ==> ObjectKey(root, done.name) !in after
    ensures Deleted(before, after, root, jobs, results + [done])
  {
    var next := results + [done];
    forall i | 0 <= i < |next| ensures next[i].name == jobs[i] {
      assert i < |results| ==> next[i] == results[i];
    }
    forall k | k in before ensures (k in after && after[k] == before[k]) || (k.root == root && k.name in jobs) {
      assert jobs[|results|] in jobs;
    }
  }

  /** What working off the first jobs has come to: the objects deleted, the results recorded, all as a run under the lease. */
  ghost predicate Worked(
    w: World, hash: Digest, root: string, jobs: seq<Name>, results: seq<Done>, steps: seq<Step>, u: Tables, left: Objects)
  {
    && Deleted(w.store, left, root, jobs, results)
    && u == RecordAll(w.tables, root, results) && Keeps(w.tables, u)
    && LeadsTo(w, hash, steps, u, left)
  }

  lemma WorkedNext(
    w: World, hash: Digest, root: string, jobs: seq<Name>, results: seq<Done>, steps: seq<Step>, u: Tables, left: Objects,
    done: Done, more: seq<Step>, v: Tables, rest: Objects)
    requires Worked(w, hash, root, jobs, results, steps, u, left) && |results| < |jobs| && done.name == jobs[|results|]
    requires rest == left || rest == left - {ObjectKey(root, done.name)}
    requires done.error.None? ==> ObjectKey(root, done.name) !in rest
    requires v == RecordCleanup(u, ObjectKey(root, done.name), done.error) && Keeps(w.tables, v)
    requires LeadsTo(World(u, left, w.uploads), hash, more, v, rest)
    ensures Worked(w, hash, root, jobs, results + [done], steps + more, v, rest)
  {
    DeletedNext(w.store, left, rest, root, jobs, results, done);
    LeadsOn(w, hash, steps, more, u, left, v, rest);
    assert (results + [done])[..|results|] == results;
  }

  /** One job: delete the object, then record the result. */
  method WorkOffOne(
    db: Database, store: ObjectStore, root: string, name: Name, ghost t: Tables, ghost w: World, ghost hash: Digest)
    returns (done: Done, ghost steps: seq<Step>)
    requires Inv(t) && Keeps(t, db.T()) && w.tables == db.T() && w.store == store.objects && Quiet(w, root)
    requires ObjectKey(root, name) in t.gc
    modifies db, store
    ensures done.name == name
    ensures store.objects == old(store.objects) || store.objects == old(store.objects) - {ObjectKey(root, name)}
    ensures done.error.None? ==> ObjectKey(root, name) !in store.objects
    ensures db.T() == RecordCleanup(old(db.T()), ObjectKey(root, name), done.error) && Keeps(t, db.T())
    ensures LeadsTo(w, hash, steps, db.T(), store.objects)
    ensures store.calls == old(store.calls) + 1 && (done.error.None? <==> store.script(old(store.calls)).Deletes?)
  {
    var key := ObjectKey(root, name);
    var error := store.Delete(key);
    assert KeptJob(t, db.T(), key);
    RecordStep(t, db.T(), key, error);
    JobLeads(w, hash, key, store.objects, error);
    steps := JobSteps(key, store.objects != w.store, error);
    db.UpdateJob(key, error.None?, error);
    done := Done(name, error);
  }

  /** Each deletion succeeds exactly when the storage lets it. */
  ghost predicate FollowsScript(script: nat -> Deletion, first: nat, results: seq<Done>) {
    forall i | 0 <= i < |results| :: results[i].error.None? <==> script(first + i).Deletes?
  }

  /** Where the loop has got to: so many deletions called, so many results recorded. */
  ghost predicate Progress(
    w: World, hash: Digest, root: string, jobs: seq<Name>, script: nat -> Deletion, first: nat,
    results: seq<Done>, steps: seq<Step>, u: Tables, left: Objects, calls: nat)
  {
    && calls == first + |results| && FollowsScript(script, first, results)
    && Worked(w, hash, root, jobs, results, steps, u, left)
  }

  lemma ProgressNext(
    w: World, hash: Digest, root: string, jobs: seq<Name>, script: nat -> Deletion, first: nat,
    results: seq<Done>, steps: seq<Step>, u: Tables, left: Objects, calls: nat,
    done: Done, more: seq<Step>, v: Tables, rest: Objects)
    requires Progress(w, hash, root, jobs, script, first, results, steps, u, left, calls)
    requires |results| < |jobs| && done.name == jobs[|results|]
    requires rest == left || rest == left - {ObjectKey(root, done.name)}
    requires done.error.None? ==> ObjectKey(root, done.name) !in rest
    requires v == RecordCleanup(u, ObjectKey(root, done.name), done.error) && Keeps(w.tables, v)
    requires LeadsTo(World(u, left, w.uploads), hash, more, v, rest)
    requires done.error.None? <==> script(calls).Deletes?
    ensures Progress(w, hash, root, jobs, script, first, results + [done], steps + more, v, rest, calls + 1)
  {
    WorkedNext(w, hash, root, jobs, results, steps, u, left, done, more, v, rest);
  }

  /** The deletion loop, each result recorded in a transaction of its own. */
  method WorkOff(db: Database, store: ObjectStore, root: string, jobs: seq<Name>, ghost w: World, ghost hash: Digest)
    returns (results: seq<Done>, ghost steps: seq<Step>)
    requires Inv(db.T()) && w.tables == db.T() && w.store == store.objects && Quiet(w, root)
    requires forall n | n in jobs :: ObjectKey(root, n) in db.gc
    modifies db, store
    ensures |results| == |jobs| && Worked(w, hash, root, jobs, results, steps, db.T(), store.objects)
    ensures FollowsScript(store.script, old(store.calls), results)
  {
    ExtendsReflexive(db.T());
    StaysPut(w, hash);
    ghost var first := store.calls;
    results, steps := [], [];
    for i := 0 to |jobs|
      invariant |results| == i
      invariant Progress(w, hash, root, jobs, store.script, first, results, steps, db.T(), store.objects, store.calls)
    {
      assert jobs[i] in jobs;
      ghost var u, left, calls := db.T(), store.objects, store.calls;
      var done;
      ghost var more;
      done, more := WorkOffOne(db, store, root, jobs[i], w.tables, World(u, left, w.uploads), hash);
      ProgressNext(
        w, hash, root, jobs, store.script, first, results, steps, u, left, calls, done, more, db.T(), store.objects);
      results, steps := results + [done], steps + more;
    }
  }

  /**
   * The selected jobs after a call: a deleted object's job is done and its object gone, a failed one is pending with its
   * error; no other job changes.
   */
  ghost predicate WorkedOff(t: Tables, u: Tables, left: Objects, root: string, jobs: seq<Name>, results: seq<Done>) {
    && |results| == |jobs| && u.gc.Keys == t.gc.Keys
    && (forall i | 0 <= i < |jobs| ::
          && results[i].name == jobs[i] && ObjectKey(root, jobs[i]) in u.gc
          && var job := u.gc[ObjectKey(root, jobs[i])];
          && job.done == (results[i].error == None) && job.lastError == results[i].error
          && (job.done ==> ObjectKey(root, jobs[i]) !in left))
    && (forall k | k in t.gc && !(k.root == root && k.name in jobs) :: u.gc[k] == t.gc[k])
  }

  lemma WorkedOffMeans(w: World, root: string, limit: nat, results: seq<Done>, u: Tables, left: Objects)
    requires Deleted(w.store, left, root, Selected(w.tables, root, limit), results) && u == RecordAll(w.tables, root, results)
    requires |results| == |Selected(w.tables, root, limit)|
    ensures WorkedOff(w.tables, u, left, root, Selected(w.tables, root, limit), results)
  {
    var t, jobs := w.tables, Selected(w.tables, root, limit);
    ResultsAreFresh(t, root, limit, results);
    forall k ensures k in u.gc <==> k in t.gc { RecordAllKeeps(t, root, results, k); }
    forall i | 0 <= i < |jobs|
      ensures ObjectKey(root, jobs[i]) in u.gc
      ensures u.gc[ObjectKey(root, jobs[i])].done == (results[i].error == None)
      ensures u.gc[ObjectKey(root, jobs[i])].lastError == results[i].error
    {
      RecordAllMeans(t, root, results, i);
    }
    forall k | k in t.gc && !(k.root == root && k.name in jobs) ensures u.gc[k] == t.gc[k] {
      forall done | done in results ensures done.name in jobs {
        var i :| 0 <= i < |results| && results[i] == done;
      }
      RecordAllKeeps(t, root, results, k);
    }
  }

  lemma ResultsAreFresh(t: Tables, root: string, limit: nat, results: seq<Done>)
    requires var jobs := Selected(t, root, limit);
      |results| == |jobs| && forall i | 0 <= i < |results| :: results[i].name == jobs[i]
    ensures Fresh(t, root, results)
  {
    var jobs := Selected(t, root, limit);
    SelectedArePending(t, root, limit);
    NameLessStrictTotal(Pending(t, root));
    FirstSelects(NameLess, Pending(t, root), limit);
    forall done | done in results
      ensures ObjectKey(root, done.name) in t.gc && !t.gc[ObjectKey(root, done.name)].done
    {
      var i :| 0 <= i < |results| && results[i] == done;
      assert jobs[i] in jobs;
    }
    forall i, j | 0 <= i < j < |results| ensures results[i].name != results[j].name {
      assert NameLess(jobs[i], jobs[j]);
      TextLessIrreflexive(NameText(jobs[i]));
    }
  }

  /**
   * cleanup: check the whole selection, then delete and record job by job. The check never fails, only selected objects
   * are deleted, a job is recorded done only when its object is gone, and all of it is a run of the protocol.
   */
  method Cleanup(db: Database, store: ObjectStore, root: string, limit: int, ghost w: World, ghost hash: Digest)
    returns (r: Result<seq<Done>, Error>, ghost steps: seq<Step>)
    requires Inv(db.T()) && w.tables == db.T() && w.store == store.objects && Quiet(w, root)
    modifies db, store
    ensures r.Success? <==> 1 <= limit <= 1000
    ensures r.Failure? ==> db.T() == old(db.T()) && store.objects == old(store.objects)
    ensures r.Success? ==>
      && |r.value| == |Selected(old(db.T()), root, limit)|
      && Worked(w, hash, root, Selected(old(db.T()), root, limit), r.value, steps, db.T(), store.objects)
      && WorkedOff(old(db.T()), db.T(), store.objects, root, Selected(old(db.T()), root, limit), r.value)
    ensures r.Success? ==> FollowsScript(store.script, old(store.calls), r.value)
  {
    steps := [];
    if !(1 <= limit <= 1000) {
      return Failure(BadArgument), [];
    }
    var jobs := Selected(db.T(), root, limit);
    SelectedArePending(db.T(), root, limit);
    forall n | n in jobs ensures !Referenced(db.T(), ObjectKey(root, n)) { NothingReferenced(db.T(), root, n); }
    var found := AnyReferenced(db, root, jobs);
    if found {
      return Failure(LiveReference), [];
    }
    var results;
    results, steps := WorkOff(db, store, root, jobs, w, hash);
    WorkedOffMeans(w, root, limit, results, db.T(), store.objects);
    r := Success(results);
  }

  lemma RecordStep(t: Tables, u: Tables, key: ObjectKey, error: Option<string>)
    requires Inv(t) && Keeps(t, u)
    ensures Keeps(t, RecordCleanup(u, key, error))
  {
    RecordCleanupKeeps(u, key, error);
    ExtendsTransitive(t, u, RecordCleanup(u, key, error));
  }
}
