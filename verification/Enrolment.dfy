/** Which schemas a backup accepts: those first declared through Store.install_schema, and not those a migration brought in. */
module Enrolment {
  import opened Wrappers
  import opened Errors
  import opened Schemas
  import opened Tables
  import opened Lifecycle
  import opened LifecycleProofs
  import opened Migrations
  import opened MigrationProofs
  import opened Operations
  import opened Backups

  /** Enrolment by name; versions follow. */
  ghost predicate NamesEnrolled(t: Tables) {
    forall n | n in t.schemas :: Adopted(t, n) && n in t.lifecycle
  }

  lemma EnrolledByName(t: Tables)
    requires SchemasOk(t) && EnrolmentOk(t)
    ensures AllEnrolled(t) <==> NamesEnrolled(t)
  {
    forall n | n in t.schemas ensures AdoptionOk(t, n) && SchemaOk(t, n) {}
    if AllEnrolled(t) {
      forall n | n in t.schemas ensures Adopted(t, n) && n in t.lifecycle { assert t.schemas[n][0] in t.schemas[n]; }
    }
  }

  /** Only Store.install_schema may introduce a name; plain declarations and migrations are of names already declared. */
  ghost predicate Introduces(t: Tables, op: Op) {
    && (op.DoDeclare? ==> op.schema.name in t.schemas)
    && (op.DoInitialize? ==> op.plan.source.name in t.schemas)
  }

  lemma InstallNames(t: Tables, schema: BlobSchema)
    requires Install(t, schema).Success?
    ensures Install(t, schema).value.tables.schemas.Keys == t.schemas.Keys + {schema.name}
  {
  }

  lemma InitializeNames(t: Tables, plan: Plan)
    requires ValidPlan(plan) && Initialize(t, plan).Success?
    ensures var u := Initialize(t, plan).value.tables;
      u.schemas.Keys == t.schemas.Keys + {plan.source.name} && u.lifecycle == t.lifecycle
  {
    InstallNames(t, plan.source);
    InitializeTables(t, plan);
    ContinueNames(Adopt(Install(t, plan.source).value.tables, plan.source).value, plan);
  }

  lemma ContinueNames(s: Tables, plan: Plan)
    requires ValidPlan(plan) && Installed(s, plan.source) && Continue(s, plan).Success?
    ensures Continue(s, plan).value.tables.schemas.Keys == s.schemas.Keys
  {
  }

  lemma ApplyNames(t: Tables, op: Op)
    requires Inv(t) && Apply(t, op).Some? && Introduces(t, op)
    ensures var u := Apply(t, op).value;
      u.schemas.Keys == t.schemas.Keys || (op.DoInstall? && u.schemas.Keys == t.schemas.Keys + {op.schema.name})
  {
    match op {
      case DoDeclare(schema) => InstallNames(t, schema);
      case DoInstall(schema) => InstallNames(t, schema);
      case DoEnrol =>
      case DoInitialize(plan) => InitializeNames(t, plan);
      case _ => ApplyFrame(t, op);
    }
  }

  /** Every call keeps all names enrolled when new names come only through Store.install_schema. */
  lemma ApplyEnrolled(t: Tables, op: Op)
    requires Inv(t) && NamesEnrolled(t) && Apply(t, op).Some? && Introduces(t, op)
    ensures NamesEnrolled(Apply(t, op).value)
  {
    var u := Apply(t, op).value;
    ApplyKeeps(t, op);
    ApplyNames(t, op);
    if op.DoInstall? { InstallSchemaKeeps(t, op.schema); }
  }

  ghost predicate IntroducesAll(t: Tables, ops: seq<Op>)
    requires Perform(t, ops).Some?
    decreases |ops|
  {
    |ops| == 0 || (Introduces(t, ops[0]) && IntroducesAll(Apply(t, ops[0]).value, ops[1..]))
  }

  /** So along any such history the only conditions of a backup are finished work, one root and the bounds. */
  lemma {:induction false} PerformEnrolled(t: Tables, ops: seq<Op>)
    requires Inv(t) && NamesEnrolled(t) && Perform(t, ops).Some? && IntroducesAll(t, ops)
    ensures Inv(Perform(t, ops).value) && NamesEnrolled(Perform(t, ops).value) && AllEnrolled(Perform(t, ops).value)
    decreases |ops|
  {
    if |ops| == 0 {
      EnrolledByName(t);
    } else {
      ApplyKeeps(t, ops[0]);
      ApplyEnrolled(t, ops[0]);
      PerformEnrolled(Apply(t, ops[0]).value, ops[1..]);
    }
  }

  /** Store.install_lifecycle enrols every name that is adopted. */
  lemma EnrolRepairs(t: Tables)
    requires Inv(t) && forall n | n in t.schemas :: Adopted(t, n)
    ensures NamesEnrolled(InstallLifecycle(t))
  {
  }

  /** A schema that a migration brought in is not enrolled for lifecycle operations, so no backup accepts the catalog. */
  lemma MigratedIsRefused(t: Tables, plan: Plan, root: string, max: nat)
    requires Inv(t) && ValidPlan(plan) && plan.source.version >= 1 && Initialize(t, plan).Success?
    requires plan.source.name !in t.lifecycle
    ensures var u := Initialize(t, plan).value.tables;
      Inv(u) && !AllEnrolled(u) && Entries(u, root, max).Failure?
  {
    InitializeKeeps(t, plan);
    InitializeNames(t, plan);
    var u := Initialize(t, plan).value.tables;
    EnrolledByName(u);
    SnapshotIsSound(u, root, max);
  }

  ghost predicate Unknown(t: Tables, name: string) {
    && name !in t.schemas && name !in t.lifecycle && !Adopted(t, name) && !Running(t, name)
    && forall id | id in t.blobs :: t.blobs[id].schemaName != name
  }

  lemma UndeclaredIsUnknown(t: Tables, name: string)
    requires Inv(t) && name !in t.schemas
    ensures Unknown(t, name)
  {
    assert Enrolled(t, name, 1);
    forall id | id in t.blobs ensures t.blobs[id].schemaName != name { assert BlobOk(t, id); }
    forall m | m in t.migrations ensures t.migrations[m].schemaName != name { assert MigrationOk(t, m); }
  }

  /**
   * Migrate a schema that was never installed through a store, in any catalog with finished work, and complete it: the
   * catalog is finished again, and a backup is refused for the missing enrolment alone.
   */
  lemma MigratedThenRefused(t: Tables, plan: Plan, size: nat, root: string, max: nat)
    requires Inv(t) && Finished(t) && OneRoot(t, root) && DeclarationCount(t) + 2 <= max
    requires ValidPlan(plan) && plan.source.version == 1 && Evolvable([plan.source] + [plan.target]) && size > 0
    requires plan.source.name !in t.schemas && plan.name !in t.migrations
    ensures Initialize(t, plan).Success?
    ensures var s := Initialize(t, plan).value.tables;
      && Batch(s, plan, size).Success?
      && var u := Batch(s, plan, size).value.tables;
      Inv(u) && Finished(u) && OneRoot(u, root) && Entries(u, root, max) == Failure(NotEnrolled)
  {
    UndeclaredIsUnknown(t, plan.source.name);
    NewNameInitializes(t, plan);
    InitializeKeeps(t, plan);
    InitializeReady(t, plan);
    CompletedIsRefused(t, Initialize(t, plan).value.tables, plan, size, root, max);
  }

  /** What initialization commits for a name the catalog does not know. */
  ghost predicate Introduced(t: Tables, s: Tables, plan: Plan) {
    && s == t.(schemas := t.schemas[plan.source.name := [plan.source] + [plan.target]],
               payload := t.payload + {(plan.source.name, 1)} + {(plan.source.name, 2)}, migrations := s.migrations)
    && plan.name in s.migrations && s.migrations == t.migrations[plan.name := s.migrations[plan.name]]
    && !s.migrations[plan.name].complete
  }

  lemma NewNameInitializes(t: Tables, plan: Plan)
    requires ValidPlan(plan) && plan.source.version == 1 && Evolvable([plan.source] + [plan.target])
    requires Unknown(t, plan.source.name) && plan.name !in t.migrations
    ensures Initialize(t, plan).Success? && Introduced(t, Initialize(t, plan).value.tables, plan)
  {
    var name := plan.source.name;
    var d := t.(schemas := t.schemas[name := [plan.source]]);
    var s := d.(payload := d.payload + {(name, 1)});
    assert Install(t, plan.source) == Success(Committed(d, ()));
    assert Adopt(d, plan.source) == Success(s);
    NewNameContinues(t, s, plan);
  }

  lemma NewNameContinues(t: Tables, s: Tables, plan: Plan)
    requires ValidPlan(plan) && plan.source.version == 1 && Evolvable([plan.source] + [plan.target])
    requires Unknown(t, plan.source.name) && plan.name !in t.migrations
    requires s == t.(schemas := t.schemas[plan.source.name := [plan.source]], payload := t.payload + {(plan.source.name, 1)})
    ensures Continue(s, plan).Success? && Introduced(t, Continue(s, plan).value.tables, plan)
  {
    var c := Continue(s, plan).value;
    assert c.tables.schemas == t.schemas[plan.source.name := [plan.source] + [plan.target]];
  }

  lemma NothingSelected(t: Tables, s: Tables, plan: Plan, size: nat)
    requires Inv(s) && Initialized(s, plan) && Introduced(t, s, plan) && Unknown(t, plan.source.name) && size > 0
    ensures AtVersion(s, plan.source.name, plan.source.version) == {} && !Unpublished(s, plan.source.name)
    ensures Selection(s, plan, s.migrations[plan.name].lastId, size) == []
  {
    assert AtVersion(s, plan.source.name, plan.source.version) == {};
    SelectionIsFirst(s, plan, size);
  }

  lemma NewNameCompletes(t: Tables, s: Tables, plan: Plan, size: nat)
    requires Inv(s) && Initialized(s, plan) && Introduced(t, s, plan) && Unknown(t, plan.source.name) && size > 0
    ensures Batch(s, plan, size).Success?
    ensures var c := Batch(s, plan, size).value;
      && c.tables == s.(blobs := c.tables.blobs, metadata := c.tables.metadata, migrations := c.tables.migrations)
      && c.tables.blobs == s.blobs && c.value.complete && c.tables.migrations == s.migrations[plan.name := c.value]
  {
    NothingSelected(t, s, plan, size);
    EmptyBatch(s, plan, size);
  }

  lemma EmptyBatch(s: Tables, plan: Plan, size: nat)
    requires plan.name in s.migrations && !s.migrations[plan.name].complete && !Unpublished(s, plan.source.name)
    requires AtVersion(s, plan.source.name, plan.source.version) == {}
    requires Selection(s, plan, s.migrations[plan.name].lastId, size) == []
    ensures Batch(s, plan, size).Success?
    ensures var c := Batch(s, plan, size).value;
      && c.tables == s.(blobs := c.tables.blobs, metadata := c.tables.metadata, migrations := c.tables.migrations)
      && c.tables.blobs == s.blobs && c.value.complete && c.tables.migrations == s.migrations[plan.name := c.value]
  {
    assert MoveBlobs(s, plan, {}) == s.blobs;
  }

  lemma CompletedIsRefused(t: Tables, s: Tables, plan: Plan, size: nat, root: string, max: nat)
    requires Inv(s) && Initialized(s, plan) && Introduced(t, s, plan) && Unknown(t, plan.source.name) && size > 0
    requires Finished(t) && OneRoot(t, root) && DeclarationCount(t) + 2 <= max
    ensures Batch(s, plan, size).Success?
    ensures var u := Batch(s, plan, size).value.tables;
      Inv(u) && Finished(u) && OneRoot(u, root) && Entries(u, root, max) == Failure(NotEnrolled)
  {
    NewNameCompletes(t, s, plan, size);
    BatchKeeps(s, plan, size);
    var u := Batch(s, plan, size).value.tables;
    StillFinished(t, s, u, plan, root);
    TwoMore(t, u, plan);
    EnrolledByName(u);
    SnapshotIsSound(u, root, max);
  }

  lemma StillFinished(t: Tables, s: Tables, u: Tables, plan: Plan, root: string)
    requires Introduced(t, s, plan) && Finished(t) && OneRoot(t, root)
    requires u == s.(blobs := u.blobs, metadata := u.metadata, migrations := u.migrations) && u.blobs == s.blobs
    requires plan.name in u.migrations && u.migrations[plan.name].complete
    requires u.migrations == s.migrations[plan.name := u.migrations[plan.name]]
    ensures Finished(u) && OneRoot(u, root)
  {
  }

  lemma TwoMore(t: Tables, u: Tables, plan: Plan)
    requires plan.source.name !in t.schemas && u.schemas == t.schemas[plan.source.name := [plan.source] + [plan.target]]
    ensures DeclarationCount(u) == DeclarationCount(t) + 2
  {
    var name := plan.source.name;
    var before := set n, i | n in t.schemas && 0 <= i < |t.schemas[n]| :: (n, i);
    assert |u.schemas[name]| == 2;
    assert (set n, i | n in u.schemas && 0 <= i < |u.schemas[n]| :: (n, i)) == before + {(name, 0), (name, 1)};
  }
}
