/** Resumable metadata migration: what initialization and each batch commit. */
module Migrations {
  import opened Wrappers
  import opened Errors
  import opened Ordering
  import opened Schemas
  import opened Tables
  import opened Lifecycle
  import Layout

  /** A MetadataMigration; the transform is pure and None stands for raising. */
  datatype Plan = Plan(
    name: string, source: BlobSchema, target: BlobSchema, transformId: string,
    transform: PyMapping -> Option<PyMapping>)

  predicate ValidPlan(plan: Plan) {
    && plan.source.name == plan.target.name
    && plan.target.version == plan.source.version + 1
    && plan.source.handlers == plan.target.handlers
    && plan.source.validator == plan.target.validator
  }

  predicate Identifies(plan: Plan, job: Migration) {
    && job.schemaName == plan.source.name && job.source == plan.source.version
    && job.target == plan.target.version && job.transformId == plan.transformId
  }

  /** What run has established before its first batch. */
  predicate Initialized(t: Tables, plan: Plan) {
    && ValidPlan(plan) && Installed(t, plan.source) && Installed(t, plan.target)
    && plan.name in t.migrations && Identifies(plan, t.migrations[plan.name])
  }

  predicate Unpublished(t: Tables, name: string) {
    exists id | id in t.blobs :: t.blobs[id].schemaName == name && !t.blobs[id].state.Ready?
  }

  /** What _initialize does once the source is installed and adopted. */
  function Continue(s: Tables, plan: Plan): Result<Committed<Migration>, Error>
    requires ValidPlan(plan) && Installed(s, plan.source)
  {
    var name := plan.source.name;
    if plan.name in s.migrations then
      if !Identifies(plan, s.migrations[plan.name]) then Failure(SchemaConflict)
      else if !Installed(s, plan.target) then Failure(UndeclaredSchema)
      else Success(Committed(s, s.migrations[plan.name]))
    else if plan.source.version != Latest(s, name) then Failure(ReadOnlySchema)
    else if Running(s, name) then Failure(MigrationRunning)
    else if Unpublished(s, name) then Failure(UnpublishedBlobs)
    else if !Evolvable(s.schemas[name] + [plan.target]) then Failure(SchemaConflict)
    else
      var job := Migration(
        name, plan.source.version, plan.target.version, plan.transformId, false,
        |AtVersion(s, name, plan.source.version)|, 0, None);
      Success(Committed(
        s.(schemas := s.schemas[name := s.schemas[name] + [plan.target]],
           payload := s.payload + {(name, plan.target.version)},
           migrations := s.migrations[plan.name := job]),
        job))
  }

  /** It enrols the source for payloads, but not for lifecycle operations. */
  function Initialize(t: Tables, plan: Plan): Result<Committed<Migration>, Error>
    requires ValidPlan(plan)
  {
    var installed := Install(t, plan.source);
    if installed.Failure? then Failure(installed.error) else
    var adopted := Adopt(installed.value.tables, plan.source);
    if adopted.Failure? then Failure(adopted.error) else
    if !Installed(adopted.value, plan.source) then Failure(UndeclaredSchema) else Continue(adopted.value, plan)
  }

  /** Whether layout can be built for these versions. */
  predicate Evolvable(schemas: seq<BlobSchema>) {
    Layout.KindsAgree(schemas) && Layout.NamesDistinct(Layout.Union(schemas))
  }

  /** One row through from_sql, the transform and normalize_metadata. */
  function Transform(plan: Plan, values: Values): (r: Result<Values, Error>)
    ensures r.Success? ==> Conforms(plan.target, r.value)
  {
    if !Conforms(plan.source, values) then Failure(BadValue) else
    match plan.transform(Inputs(plan.source, values))
    case None => Failure(BadValue)
    case Some(out) => NormalizeMetadata(plan.target, out)
  }

  /** The target may store what a transform returned: declared names, values that normalize, only optional fields left out. */
  ghost predicate Storable(plan: Plan, out: PyMapping) {
    && (forall n | n in out :: n in plan.target.fields && Normalize(plan.target.fields[n], out[n]).Success?)
    && (forall n | n in plan.target.fields && n !in out :: !plan.target.fields[n].required)
  }

  /** A target row holds what a transform returned, field by field, and null where it returned nothing. */
  ghost predicate Holding(plan: Plan, out: PyMapping, after: Values) {
    && out.Keys <= plan.target.fields.Keys == after.Keys
    && forall n | n in plan.target.fields ::
         if n in out then Normalize(plan.target.fields[n], out[n]) == Success(after[n])
         else !plan.target.fields[n].required && after[n] == Null
  }

  /** The transform accepts a source row. */
  ghost predicate Transformable(plan: Plan, before: Values) {
    exists m | IsInput(plan.source, before, m) :: plan.transform(m).Some? && Storable(plan, plan.transform(m).value)
  }

  /** A target row is what the transform makes of a source row. */
  ghost predicate Rewrites(plan: Plan, before: Values, after: Values) {
    exists m | IsInput(plan.source, before, m) :: plan.transform(m).Some? && Holding(plan, plan.transform(m).value, after)
  }

  lemma TransformOf(plan: Plan, before: Values, m: PyMapping)
    requires IsInput(plan.source, before, m)
    ensures Transform(plan, before) ==
      if plan.transform(m).None? then Failure(BadValue) else NormalizeMetadata(plan.target, plan.transform(m).value)
  {
    InputIsUnique(plan.source, before, Inputs(plan.source, before), m);
  }

  lemma StoredMeans(plan: Plan, out: PyMapping, after: Values)
    ensures NormalizeMetadata(plan.target, out).Success? <==> Storable(plan, out)
    ensures NormalizeMetadata(plan.target, out) == Success(after) <==> Holding(plan, out, after)
  {
    MetadataMeans(plan.target, out);
    if Holding(plan, out, after) {
      assert NormalizeMetadata(plan.target, out).value == after;
    }
  }

  /** Transforming a row succeeds exactly when the transform accepts it, and gives exactly the row it makes of it. */
  lemma TransformMeans(plan: Plan, before: Values, after: Values)
    ensures Transform(plan, before).Success? <==> Transformable(plan, before)
    ensures Transform(plan, before) == Success(after) <==> Rewrites(plan, before, after)
  {
    forall m | IsInput(plan.source, before, m)
      ensures Transform(plan, before).Success?
        <==> plan.transform(m).Some? && Storable(plan, plan.transform(m).value)
      ensures Transform(plan, before) == Success(after)
        <==> plan.transform(m).Some? && Holding(plan, plan.transform(m).value, after)
    {
      TransformOf(plan, before, m);
      if plan.transform(m).Some? { StoredMeans(plan, plan.transform(m).value, after); }
    }
    if Conforms(plan.source, before) { assert IsInput(plan.source, before, Inputs(plan.source, before)); }
  }

  /** A metadata row after its one transformation. */
  function Moved(plan: Plan, m: Meta): Meta
    requires Transform(plan, m.values).Success?
  {
    Meta(plan.target.version, m.version + 1, Transform(plan, m.values).value)
  }

  /** A metadata row transformed once: the target's version, the next concurrency version, the fields rewritten. */
  ghost predicate Transformed(plan: Plan, before: Meta, after: Meta) {
    && after.schemaVersion == plan.target.version && after.version == before.version + 1
    && Rewrites(plan, before.values, after.values)
  }

  lemma MovedMeans(plan: Plan, before: Meta, after: Meta)
    ensures Transform(plan, before.values).Success? <==> Transformable(plan, before.values)
    ensures Transform(plan, before.values).Success? && after == Moved(plan, before) <==> Transformed(plan, before, after)
  {
    TransformMeans(plan, before.values, after.values);
  }

  /** Source rows beyond the checkpoint. */
  function Backlog(t: Tables, plan: Plan, mark: Option<Id>): set<Id> {
    set id | id in AtVersion(t, plan.source.name, plan.source.version) && AfterMark(mark, id)
  }

  /** The rows a batch selects: the first of the backlog in id order. */
  function Selection(t: Tables, plan: Plan, mark: Option<Id>, size: nat): seq<Id> {
    var rows := Backlog(t, plan, mark);
    TextLessStrictTotal(rows);
    First(TextLess, rows, size)
  }

  predicate Transforms(t: Tables, plan: Plan, ids: set<Id>) {
    forall id | id in ids :: id in t.metadata && Transform(plan, t.metadata[id].values).Success?
  }

  function MoveMetadata(t: Tables, plan: Plan, ids: set<Id>): map<Id, Meta>
    requires Transforms(t, plan, ids)
  {
    map id | id in t.metadata :: if id in ids then Moved(plan, t.metadata[id]) else t.metadata[id]
  }

  function MoveBlobs(t: Tables, plan: Plan, ids: set<Id>): map<Id, Blob> {
    map id | id in t.blobs :: if id in ids then t.blobs[id].(schemaVersion := plan.target.version) else t.blobs[id]
  }

  /** One batch: transform the selected rows and advance the checkpoint, all or nothing. */
  function Batch(t: Tables, plan: Plan, size: nat): Result<Committed<Migration>, Error> {
    if plan.name !in t.migrations then Failure(NoSuchMigration) else
    var job := t.migrations[plan.name];
    if job.complete then Success(Committed(t, job))
    else if Unpublished(t, plan.source.name) then Failure(UnpublishedBlobs) else
    var ids := Selection(t, plan, job.lastId, size);
    if !Transforms(t, plan, Elements(ids)) then Failure(BadValue) else
    var remaining := AtVersion(t, plan.source.name, plan.source.version) - Elements(ids);
    if ids == [] && remaining != {} then Failure(BehindCheckpoint) else
    var job' := job.(
      migrated := job.migrated + |ids|,
      lastId := if ids == [] then job.lastId else Some(ids[|ids| - 1]),
      complete := remaining == {});
    Success(Committed(
      t.(metadata := MoveMetadata(t, plan, Elements(ids)), blobs := MoveBlobs(t, plan, Elements(ids)),
         migrations := t.migrations[plan.name := job']),
      job'))
  }

  // ---------------------------------------------------------------- what a batch comes to

  ghost predicate SourceRow(t: Tables, plan: Plan, id: Id) {
    id in t.blobs && t.blobs[id].schemaName == plan.source.name && t.blobs[id].schemaVersion == plan.source.version
  }

  /** The rows of a batch: in id order, as many as asked for or as there are, and no source row left out before them. */
  ghost predicate Chosen(t: Tables, plan: Plan, size: nat, ids: seq<Id>) {
    && (forall i, j | 0 <= i < j < |ids| :: TextLess(ids[i], ids[j]))
    && (forall id | id in ids :: SourceRow(t, plan, id))
    && |ids| <= size && (|ids| < size ==> forall id | SourceRow(t, plan, id) :: id in ids)
    && (forall x, y | x in ids && SourceRow(t, plan, y) && y !in ids :: TextLess(x, y))
  }

  /** Some rows transformed once each with their blobs, the rest untouched. */
  ghost predicate RowsRewritten(t: Tables, u: Tables, plan: Plan, ids: seq<Id>) {
    && u.metadata.Keys == t.metadata.Keys && u.blobs.Keys == t.blobs.Keys
    && (forall id | id in t.metadata ::
          if id in ids then Transformed(plan, t.metadata[id], u.metadata[id]) else u.metadata[id] == t.metadata[id])
    && (forall id | id in t.blobs ::
          u.blobs[id] == if id in ids then t.blobs[id].(schemaVersion := plan.target.version) else t.blobs[id])
  }

  /** The job after a batch: its count, its checkpoint, and whether a source row is left. */
  ghost predicate JobAdvanced(t: Tables, u: Tables, plan: Plan, ids: seq<Id>)
    requires plan.name in t.migrations
  {
    var job := t.migrations[plan.name];
    && plan.name in u.migrations && u.migrations == t.migrations[plan.name := u.migrations[plan.name]]
    && u.migrations[plan.name] == job.(
         migrated := job.migrated + |ids|,
         lastId := if ids == [] then job.lastId else Some(ids[|ids| - 1]),
         complete := forall id | SourceRow(t, plan, id) :: id in ids)
  }

  /** The tables and the answer of one batch: nothing changes unless every chosen row can be transformed, and then all are. */
  ghost predicate Batched(t: Tables, plan: Plan, size: nat, u: Tables, r: Result<Migration, Error>)
    requires plan.name in t.migrations
  {
    if t.migrations[plan.name].complete then u == t && r == Success(t.migrations[plan.name])
    else if exists id | id in t.blobs :: t.blobs[id].schemaName == plan.source.name && !t.blobs[id].state.Ready?
      then u == t && r == Failure(UnpublishedBlobs)
    else exists ids | Chosen(t, plan, size, ids) ::
      if exists id | id in ids && id in t.metadata :: !Transformable(plan, t.metadata[id].values)
        then u == t && r == Failure(BadValue)
      else
        && RowsRewritten(t, u, plan, ids) && JobAdvanced(t, u, plan, ids)
        && u == t.(metadata := u.metadata, blobs := u.blobs, migrations := u.migrations)
        && r == Success(u.migrations[plan.name])
  }
}
