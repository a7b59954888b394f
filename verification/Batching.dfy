/** Any batching, with any rollbacks and resumptions, has the result of transforming every source row in one pass. */
module Batching {
  import opened Wrappers
  import opened Errors
  import opened Ordering
  import opened Schemas
  import opened Tables
  import opened Migrations

  /** A job just recorded by initialization. */
  ghost predicate JustInitialized(s: Tables, plan: Plan) {
    && Initialized(s, plan)
    && var job := s.migrations[plan.name];
    job.migrated == 0 && job.lastId == None && !job.complete
  }

  /** The rows to migrate, in id order. */
  ghost predicate Lists(s: Tables, plan: Plan, ids: seq<Id>) {
    && Elements(ids) == AtVersion(s, plan.source.name, plan.source.version)
    && Increasing(TextLess, ids) && Distinct(ids)
  }

  /** The catalog after migrating one set of rows, with the job's progress. */
  function After(s: Tables, plan: Plan, done: set<Id>, count: nat, mark: Option<Id>, complete: bool): Tables
    requires plan.name in s.migrations && Transforms(s, plan, done)
  {
    s.(metadata := MoveMetadata(s, plan, done), blobs := MoveBlobs(s, plan, done),
       migrations := s.migrations[plan.name :=
         s.migrations[plan.name].(migrated := count, lastId := mark, complete := complete)])
  }

  function MarkAt(ids: seq<Id>, k: nat): Option<Id>
    requires k <= |ids|
  {
    if k == 0 then None else Some(ids[k - 1])
  }

  /** The catalog after migrating the first k rows of a list. */
  function Partial(s: Tables, plan: Plan, ids: seq<Id>, k: nat, complete: bool): Tables
    requires plan.name in s.migrations && k <= |ids| && Transforms(s, plan, Elements(ids[..k]))
  {
    After(s, plan, Elements(ids[..k]), k, MarkAt(ids, k), complete)
  }

  /** One pass: every source row transformed once, every other row untouched. */
  function OneShot(s: Tables, plan: Plan, ids: seq<Id>): Tables
    requires plan.name in s.migrations && Transforms(s, plan, Elements(ids))
  {
    After(s, plan, Elements(ids), |ids|, MarkAt(ids, |ids|), true)
  }

  /** The source rows of a job just initialized, in id order. */
  function SourceRows(t: Tables, plan: Plan): seq<Id> {
    var rows := AtVersion(t, plan.source.name, plan.source.version);
    TextLessStrictTotal(rows);
    Sorted(TextLess, rows)
  }

  lemma SourceRowsAreListed(t: Tables, plan: Plan)
    ensures Lists(t, plan, SourceRows(t, plan))
  {
    var rows := AtVersion(t, plan.source.name, plan.source.version);
    TextLessStrictTotal(rows);
    SortedIsSorted(TextLess, rows);
    IncreasingIsDistinct(SourceRows(t, plan));
  }

  lemma IncreasingIsDistinct(ids: seq<Id>)
    requires Increasing(TextLess, ids)
    ensures Distinct(ids)
  {
    forall i, j | 0 <= i < j < |ids| ensures ids[i] != ids[j] {
      TextLessIrreflexive(ids[i]);
      assert TextLess(ids[i], ids[j]);
    }
  }

  lemma MovedRowsLeave(s: Tables, plan: Plan, done: set<Id>, t: Tables)
    requires plan.source.version != plan.target.version && t.blobs == MoveBlobs(s, plan, done)
    ensures AtVersion(t, plan.source.name, plan.source.version)
      == AtVersion(s, plan.source.name, plan.source.version) - done
  {
  }

  /** A batch selects the first rows of whatever list remains ahead of the mark. */
  lemma SelectionOf(t: Tables, plan: Plan, mark: Option<Id>, rest: seq<Id>, size: nat)
    requires AtVersion(t, plan.source.name, plan.source.version) == Elements(rest)
    requires Increasing(TextLess, rest)
    requires forall id | id in rest :: AfterMark(mark, id)
    ensures Selection(t, plan, mark, size) == if size < |rest| then rest[..size] else rest
  {
    assert Backlog(t, plan, mark) == Elements(rest);
    TextLessStrictTotal(Elements(rest));
    SortedIsUnique(TextLess, Elements(rest), rest);
  }

  lemma SuffixFollows(ids: seq<Id>, k: nat)
    requires Increasing(TextLess, ids) && k <= |ids|
    ensures Increasing(TextLess, ids[k..])
    ensures forall id | id in ids[k..] :: AfterMark(MarkAt(ids, k), id)
  {
    forall i | 0 <= i < |ids[k..]| ensures AfterMark(MarkAt(ids, k), ids[k..][i]) {
      assert k > 0 ==> TextLess(ids[k - 1], ids[k + i]);
    }
    forall i, j | 0 <= i < j < |ids[k..]| ensures TextLess(ids[k..][i], ids[k..][j]) {
      assert TextLess(ids[k + i], ids[k + j]);
    }
  }

  /** Moving more rows after moving some is moving them all. */
  lemma MovesCompose(s: Tables, t: Tables, plan: Plan, a: set<Id>, b: set<Id>)
    requires Transforms(s, plan, a) && a !! b
    requires t.metadata == MoveMetadata(s, plan, a) && t.blobs == MoveBlobs(s, plan, a)
    requires Transforms(t, plan, b)
    ensures Transforms(s, plan, a + b)
    ensures MoveMetadata(t, plan, b) == MoveMetadata(s, plan, a + b)
    ensures MoveBlobs(t, plan, b) == MoveBlobs(s, plan, a + b)
  {
    forall id | id in a + b ensures id in s.metadata && Transform(plan, s.metadata[id].values).Success? {
      assert id in b ==> id in t.metadata && t.metadata[id] == s.metadata[id];
    }
  }

  /** A successful batch, given what it selected and what it leaves. */
  lemma BatchTables(t: Tables, plan: Plan, size: nat, ids: seq<Id>, done: bool)
    requires plan.name in t.migrations && !t.migrations[plan.name].complete && Batch(t, plan, size).Success?
    requires Selection(t, plan, t.migrations[plan.name].lastId, size) == ids
    requires AtVersion(t, plan.source.name, plan.source.version) - Elements(ids) == {} <==> done
    ensures Transforms(t, plan, Elements(ids))
    ensures Batch(t, plan, size).value.tables == After(
      t, plan, Elements(ids), t.migrations[plan.name].migrated + |ids|,
      if ids == [] then t.migrations[plan.name].lastId else Some(ids[|ids| - 1]), done)
  {
  }

  lemma AfterAfter(
    s: Tables, plan: Plan, a: set<Id>, b: set<Id>, i: nat, j: nat, m: Option<Id>, n: Option<Id>, complete: bool)
    requires plan.name in s.migrations && Transforms(s, plan, a) && a !! b
    requires Transforms(After(s, plan, a, i, m, false), plan, b)
    ensures Transforms(s, plan, a + b)
    ensures After(After(s, plan, a, i, m, false), plan, b, j, n, complete) == After(s, plan, a + b, j, n, complete)
  {
    var t := After(s, plan, a, i, m, false);
    MovesCompose(s, t, plan, a, b);
    var u := After(t, plan, b, j, n, complete);
    assert u.migrations == s.migrations[plan.name := u.migrations[plan.name]];
  }

  lemma PartialSelects(s: Tables, t: Tables, plan: Plan, ids: seq<Id>, k: nat, size: nat, next: nat)
    requires plan.source.version != plan.target.version && Lists(s, plan, ids) && k <= |ids|
    requires t.blobs == MoveBlobs(s, plan, Elements(ids[..k]))
    requires next == if k + size < |ids| then k + size else |ids|
    ensures Selection(t, plan, MarkAt(ids, k), size) == ids[k..next]
    ensures AtVersion(t, plan.source.name, plan.source.version) - Elements(ids[k..next]) == {} <==> next == |ids|
  {
    MovedRowsLeave(s, plan, Elements(ids[..k]), t);
    SplitElements(ids, k);
    SuffixFollows(ids, k);
    SelectionOf(t, plan, MarkAt(ids, k), ids[k..], size);
    assert ids[k..next] == if size < |ids[k..]| then ids[k..][..size] else ids[k..];
    Segments(ids, k, next);
  }

  lemma MarkMoves(ids: seq<Id>, k: nat, next: nat)
    requires k <= next <= |ids|
    ensures (if ids[k..next] == [] then MarkAt(ids, k) else Some(ids[k..next][|ids[k..next]| - 1])) == MarkAt(ids, next)
  {
  }

  lemma PartialAdvances(s: Tables, plan: Plan, ids: seq<Id>, k: nat, next: nat, complete: bool)
    requires plan.name in s.migrations && Distinct(ids) && k <= next <= |ids|
    requires Transforms(s, plan, Elements(ids[..k]))
    requires Transforms(Partial(s, plan, ids, k, false), plan, Elements(ids[k..next]))
    ensures Transforms(s, plan, Elements(ids[..next]))
    ensures After(Partial(s, plan, ids, k, false), plan, Elements(ids[k..next]), next, MarkAt(ids, next), complete)
      == Partial(s, plan, ids, next, complete)
  {
    Segments(ids, k, next);
    AfterAfter(s, plan, Elements(ids[..k]), Elements(ids[k..next]), k, next, MarkAt(ids, k), MarkAt(ids, next), complete);
  }

  /** One more batch moves the next rows and nothing else. */
  lemma BatchOfPartial(s: Tables, t: Tables, plan: Plan, ids: seq<Id>, k: nat, size: nat, next: nat)
    requires JustInitialized(s, plan) && Lists(s, plan, ids) && k <= |ids|
    requires Transforms(s, plan, Elements(ids[..k])) && t == Partial(s, plan, ids, k, false)
    requires Batch(t, plan, size).Success?
    requires next == if k + size < |ids| then k + size else |ids|
    ensures Transforms(s, plan, Elements(ids[..next]))
    ensures Batch(t, plan, size).value.tables == Partial(s, plan, ids, next, next == |ids|)
  {
    PartialJob(s, t, plan, ids, k);
    BatchSelects(s, t, plan, ids, k, size, next);
    PartialAdvances(s, plan, ids, k, next, next == |ids|);
  }

  lemma BatchSelects(s: Tables, t: Tables, plan: Plan, ids: seq<Id>, k: nat, size: nat, next: nat)
    requires plan.source.version != plan.target.version && Lists(s, plan, ids) && k <= |ids|
    requires t.blobs == MoveBlobs(s, plan, Elements(ids[..k])) && Batch(t, plan, size).Success?
    requires plan.name in t.migrations && !t.migrations[plan.name].complete
    requires t.migrations[plan.name].migrated == k && t.migrations[plan.name].lastId == MarkAt(ids, k)
    requires next == if k + size < |ids| then k + size else |ids|
    ensures Transforms(t, plan, Elements(ids[k..next]))
    ensures Batch(t, plan, size).value.tables == After(t, plan, Elements(ids[k..next]), next, MarkAt(ids, next), next == |ids|)
  {
    PartialSelects(s, t, plan, ids, k, size, next);
    BatchTables(t, plan, size, ids[k..next], next == |ids|);
    MarkMoves(ids, k, next);
  }

  lemma PartialJob(s: Tables, t: Tables, plan: Plan, ids: seq<Id>, k: nat)
    requires plan.name in s.migrations && k <= |ids| && Transforms(s, plan, Elements(ids[..k]))
    requires t == Partial(s, plan, ids, k, false)
    ensures plan.name in t.migrations && !t.migrations[plan.name].complete
    ensures t.migrations[plan.name].migrated == k && t.migrations[plan.name].lastId == MarkAt(ids, k)
  {
  }

  /** A call of migrate may crash, be rolled back or be refused; only a committed batch changes the catalog. */
  datatype Attempt = Attempt(size: nat, commits: bool)

  function Try(t: Tables, plan: Plan, a: Attempt): Tables {
    var r := Batch(t, plan, a.size);
    if a.commits && a.size > 0 && r.Success? then r.value.tables else t
  }

  function AfterAttempts(t: Tables, plan: Plan, attempts: seq<Attempt>): Tables
    decreases |attempts|
  {
    if attempts == [] then t else AfterAttempts(Try(t, plan, attempts[0]), plan, attempts[1..])
  }

  /** A state of the migration: some first rows moved, complete only when all are. */
  ghost predicate IsPartial(s: Tables, plan: Plan, ids: seq<Id>, t: Tables, k: nat, complete: bool) {
    && plan.name in s.migrations && k <= |ids| && Transforms(s, plan, Elements(ids[..k]))
    && t == Partial(s, plan, ids, k, complete) && (complete ==> k == |ids|)
  }

  lemma TryStaysPartial(s: Tables, plan: Plan, ids: seq<Id>, t: Tables, k: nat, complete: bool, a: Attempt)
    returns (next: nat, complete': bool)
    requires JustInitialized(s, plan) && Lists(s, plan, ids) && IsPartial(s, plan, ids, t, k, complete)
    ensures IsPartial(s, plan, ids, Try(t, plan, a), next, complete')
  {
    next, complete' := k, complete;
    if !complete && a.commits && a.size > 0 && Batch(t, plan, a.size).Success? {
      next := if k + a.size < |ids| then k + a.size else |ids|;
      complete' := next == |ids|;
      BatchOfPartial(s, t, plan, ids, k, a.size, next);
    }
  }

  lemma {:induction false} AttemptsArePartial(
    s: Tables, plan: Plan, ids: seq<Id>, t: Tables, k: nat, complete: bool, attempts: seq<Attempt>)
    returns (next: nat, complete': bool)
    requires JustInitialized(s, plan) && Lists(s, plan, ids) && IsPartial(s, plan, ids, t, k, complete)
    ensures IsPartial(s, plan, ids, AfterAttempts(t, plan, attempts), next, complete')
    decreases |attempts|
  {
    next, complete' := k, complete;
    if attempts != [] {
      var j, c := TryStaysPartial(s, plan, ids, t, k, complete, attempts[0]);
      next, complete' := AttemptsArePartial(s, plan, ids, Try(t, plan, attempts[0]), j, c, attempts[1..]);
    }
  }

  lemma StartIsPartial(s: Tables, plan: Plan, ids: seq<Id>)
    requires JustInitialized(s, plan)
    ensures IsPartial(s, plan, ids, s, 0, false)
  {
    assert ids[..0] == [] && Elements(ids[..0]) == {};
    assert MoveMetadata(s, plan, {}) == s.metadata;
    assert MoveBlobs(s, plan, {}) == s.blobs;
    assert s.migrations[plan.name := s.migrations[plan.name]] == s.migrations;
  }

  /** The one-shot result, row by row. */
  lemma OneShotRows(s: Tables, plan: Plan, ids: seq<Id>, id: Id)
    requires plan.name in s.migrations && Lists(s, plan, ids) && Transforms(s, plan, Elements(ids))
    requires id in s.blobs && id in s.metadata
    ensures var t := OneShot(s, plan, ids);
      && id in t.blobs && id in t.metadata
      && if s.blobs[id].schemaName == plan.source.name && s.blobs[id].schemaVersion == plan.source.version then
           && t.blobs[id] == s.blobs[id].(schemaVersion := plan.target.version)
           && Transformed(plan, s.metadata[id], t.metadata[id])
         else t.blobs[id] == s.blobs[id] && t.metadata[id] == s.metadata[id]
  {
    MovedMeans(plan, s.metadata[id], OneShot(s, plan, ids).metadata[id]);
    assert id in Elements(ids) <==> id in AtVersion(s, plan.source.name, plan.source.version);
  }

  /** Every row of the source version transformed once, every other row as it was. */
  ghost predicate AllRewritten(s: Tables, t: Tables, plan: Plan) {
    && t.metadata.Keys == s.metadata.Keys && t.blobs.Keys == s.blobs.Keys
    && (forall id | id in s.blobs && id in s.metadata ::
          if SourceRow(s, plan, id) then
            && Transformed(plan, s.metadata[id], t.metadata[id])
            && t.blobs[id] == s.blobs[id].(schemaVersion := plan.target.version)
          else t.metadata[id] == s.metadata[id] && t.blobs[id] == s.blobs[id])
  }

  lemma OneShotRewrites(s: Tables, plan: Plan, ids: seq<Id>)
    requires plan.name in s.migrations && Lists(s, plan, ids) && Transforms(s, plan, Elements(ids))
    ensures AllRewritten(s, OneShot(s, plan, ids), plan)
  {
    forall id | id in s.blobs && id in s.metadata
      ensures var t := OneShot(s, plan, ids);
        if SourceRow(s, plan, id) then
          && Transformed(plan, s.metadata[id], t.metadata[id])
          && t.blobs[id] == s.blobs[id].(schemaVersion := plan.target.version)
        else t.metadata[id] == s.metadata[id] && t.blobs[id] == s.blobs[id]
    {
      OneShotRows(s, plan, ids, id);
    }
  }

  /**
   * However it was batched, rolled back and resumed, a completed migration is the one-shot migration, checkpoint included:
   * each row that was at the source version is transformed exactly once, and every other row is untouched.
   */
  lemma AnyBatchingIsOneShot(s: Tables, plan: Plan, ids: seq<Id>, attempts: seq<Attempt>)
    requires JustInitialized(s, plan) && Lists(s, plan, ids)
    requires var t := AfterAttempts(s, plan, attempts); plan.name in t.migrations && t.migrations[plan.name].complete
    ensures Transforms(s, plan, Elements(ids))
    ensures AfterAttempts(s, plan, attempts) == OneShot(s, plan, ids)
    ensures AllRewritten(s, AfterAttempts(s, plan, attempts), plan)
  {
    StartIsPartial(s, plan, ids);
    var k, complete := AttemptsArePartial(s, plan, ids, s, 0, false, attempts);
    assert ids[..|ids|] == ids;
    OneShotRewrites(s, plan, ids);
  }
}
