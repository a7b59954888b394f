/** The SQL table that holds rows of several schema versions at once, and the guards on its rows. */
module Layout {
  import opened Wrappers
  import opened Errors
  import opened Schemas

  /** A physical row: its schema version, its concurrency version and one cell per column. */
  datatype Row = Row(schemaVersion: nat, version: nat, cells: Values)

  datatype Column = Column(kind: Kind, notNull: bool)

  /** CHECK (schema_version != version OR (required IS NOT NULL AND ... AND absent IS NULL AND ...)). */
  datatype VersionCheck = VersionCheck(version: nat, required: set<string>, absent: set<string>)

  datatype Table = Table(columns: map<string, Column>, versions: set<nat>, checks: seq<VersionCheck>)

  predicate PassesColumn(c: Column, v: Value) {
    (c.notNull ==> !v.Null?) && (v.Null? || Fits(c.kind, v))
  }

  predicate PassesCheck(c: VersionCheck, row: Row)
    requires c.required <= row.cells.Keys && c.absent <= row.cells.Keys
  {
    row.schemaVersion != c.version
    || ((forall k | k in c.required :: !row.cells[k].Null?) && (forall k | k in c.absent :: row.cells[k].Null?))
  }

  /** Whether every CHECK and NOT NULL of a table passes. */
  predicate Accepts(t: Table, row: Row) {
    && row.cells.Keys == t.columns.Keys
    && row.schemaVersion in t.versions
    && row.version > 0
    && (forall k | k in t.columns :: PassesColumn(t.columns[k], row.cells[k]))
    && (forall c | c in t.checks ::
          c.required <= row.cells.Keys && c.absent <= row.cells.Keys && PassesCheck(c, row))
  }

  /** The table of an unevolved schema (installation._schema_objects). */
  function FirstTable(schema: BlobSchema): Table {
    Table(map k | k in schema.fields :: Column(schema.fields[k].kind, schema.fields[k].required), {1}, [])
  }

  // ---------------------------------------------------------------- what layout must build

  function Union(schemas: seq<BlobSchema>): set<string> {
    set i, k | 0 <= i < |schemas| && k in schemas[i].fields :: k
  }

  /** Each field name keeps one kind across all versions. */
  predicate KindsAgree(schemas: seq<BlobSchema>) {
    forall i, j, k | 0 <= i < |schemas| && 0 <= j < |schemas| && k in schemas[i].fields && k in schemas[j].fields ::
      schemas[i].fields[k].kind == schemas[j].fields[k].kind
  }

  predicate DistinctVersions(schemas: seq<BlobSchema>) {
    forall i, j | 0 <= i < |schemas| && 0 <= j < |schemas| && schemas[i].version == schemas[j].version :: i == j
  }

  /** A metadata row of one version, spread over all columns: undeclared ones are null. */
  function Pad(columns: set<string>, values: Values): Values {
    map k | k in columns :: if k in values then values[k] else Null
  }

  /** The rows a mixed-version table is for: padded rows that conform to the declaration of their own version. */
  ghost predicate Admits(schemas: seq<BlobSchema>, row: Row) {
    && row.version > 0
    && exists i, values | 0 <= i < |schemas| ::
         row.schemaVersion == schemas[i].version && Conforms(schemas[i], values) && row.cells == Pad(Union(schemas), values)
  }

  function Required(schema: BlobSchema): set<string> {
    set k | k in schema.fields && schema.fields[k].required
  }

  /** SQLite compares identifiers without regard to ASCII case. */
  function Lower(c: char): char {
    if 'A' <= c <= 'Z' then ((c as int) + 32) as char else c
  }

  function Fold(name: string): string {
    seq(|name|, i requires 0 <= i < |name| => Lower(name[i]))
  }

  /** Two characters that SQLite does not tell apart in identifiers. */
  predicate SameLetter(x: char, y: char) {
    || x == y
    || ('A' <= x <= 'Z' && y as int == x as int + 32)
    || ('A' <= y <= 'Z' && x as int == y as int + 32)
  }

  /** Names fold alike exactly when they differ in nothing but the case of ASCII letters. */
  lemma FoldMeans(a: string, b: string)
    ensures Fold(a) == Fold(b) <==> |a| == |b| && forall i | 0 <= i < |a| :: SameLetter(a[i], b[i])
  {
    if Fold(a) == Fold(b) {
      forall i | 0 <= i < |a| ensures SameLetter(a[i], b[i]) {
        assert Fold(a)[i] == Fold(b)[i];
      }
    }
  }

  predicate NamesDistinct(names: set<string>) {
    forall a, b | a in names && b in names && Fold(a) == Fold(b) :: a == b
  }

  ghost predicate ColumnsOf(schemas: seq<BlobSchema>, union: map<string, Column>) {
    && union.Keys == Union(schemas)
    && forall j, k | 0 <= j < |schemas| && k in schemas[j].fields :: union[k] == Column(schemas[j].fields[k].kind, false)
  }

  function FieldColumns(schema: BlobSchema): map<string, Column> {
    map k | k in schema.fields :: Column(schema.fields[k].kind, false)
  }

  predicate Clashes(schema: BlobSchema, union: map<string, Column>) {
    exists k | k in schema.fields :: k in union && union[k].kind != schema.fields[k].kind
  }

  lemma ColumnsExtend(schemas: seq<BlobSchema>, schema: BlobSchema, union: map<string, Column>)
    requires ColumnsOf(schemas, union)
    ensures Clashes(schema, union) ==> !KindsAgree(schemas + [schema])
    ensures !Clashes(schema, union) ==> ColumnsOf(schemas + [schema], union + FieldColumns(schema))
  {
    var all := schemas + [schema];
    assert all[|schemas|] == schema;
    if Clashes(schema, union) {
      var k :| k in schema.fields && k in union && union[k].kind != schema.fields[k].kind;
      var j :| 0 <= j < |schemas| && k in schemas[j].fields;
      assert all[j].fields[k].kind != all[|schemas|].fields[k].kind;
    } else {
      UnionAppend(schemas, schema);
      forall j, k | 0 <= j < |all| && k in all[j].fields
        ensures (union + FieldColumns(schema))[k] == Column(all[j].fields[k].kind, false)
      {
        if j < |schemas| { assert union[k] == Column(schemas[j].fields[k].kind, false); }
      }
    }
  }

  /** The field loop: one nullable column per name, of the one kind every version gives it. */
  method BuildColumns(schemas: seq<BlobSchema>) returns (r: Result<map<string, Column>, Error>)
    ensures r.Success? <==> KindsAgree(schemas)
    ensures r.Success? ==> ColumnsOf(schemas, r.value)
  {
    var union: map<string, Column> := map[];
    for i := 0 to |schemas|
      invariant ColumnsOf(schemas[..i], union)
    {
      var schema := schemas[i];
      ColumnsExtend(schemas[..i], schema, union);
      assert schemas[..i + 1] == schemas[..i] + [schema];
      if exists k | k in schema.fields :: k in union && union[k].kind != schema.fields[k].kind {
        assert Clashes(schema, union);
        PrefixAgrees(schemas, i + 1);
        return Failure(SchemaConflict);
      }
      union := union + FieldColumns(schema);
    }
    assert schemas[..|schemas|] == schemas;
    ColumnsAgree(schemas, union);
    return Success(union);
  }

  lemma ColumnsAgree(schemas: seq<BlobSchema>, union: map<string, Column>)
    requires ColumnsOf(schemas, union)
    ensures KindsAgree(schemas)
  {
    forall i, j, k | 0 <= i < |schemas| && 0 <= j < |schemas| && k in schemas[i].fields && k in schemas[j].fields
      ensures schemas[i].fields[k].kind == schemas[j].fields[k].kind
    {
      assert union[k] == Column(schemas[i].fields[k].kind, false);
    }
  }

  lemma PrefixAgrees(schemas: seq<BlobSchema>, n: nat)
    requires n <= |schemas|
    ensures KindsAgree(schemas) ==> KindsAgree(schemas[..n])
  {
  }

  /** The check loop: one CHECK per version that requires or forbids some column. */
  method BuildChecks(schemas: seq<BlobSchema>, columns: set<string>) returns (checks: seq<VersionCheck>)
    requires columns == Union(schemas)
    ensures forall c | c in checks :: exists j | 0 <= j < |schemas| :: c == CheckOf(schemas, j)
    ensures forall j | 0 <= j < |schemas| :: CheckOf(schemas, j) in checks || Empty(CheckOf(schemas, j))
  {
    checks := [];
    for i := 0 to |schemas|
      invariant forall c | c in checks :: exists j | 0 <= j < i :: c == CheckOf(schemas, j)
      invariant forall j | 0 <= j < i :: CheckOf(schemas, j) in checks || Empty(CheckOf(schemas, j))
    {
      var schema := schemas[i];
      var check := VersionCheck(schema.version, Required(schema), columns - schema.fields.Keys);
      assert check == CheckOf(schemas, i);
      if check.required != {} || check.absent != {} {
        checks := checks + [check];
      }
    }
  }

  /** migrations.layout, up to SQL text: its table accepts exactly the padded conforming rows of every version. */
  method Build(schemas: seq<BlobSchema>) returns (r: Result<Table, Error>)
    requires DistinctVersions(schemas)
    ensures r.Success? <==> KindsAgree(schemas) && NamesDistinct(Union(schemas))
    ensures r.Success? ==> forall row: Row :: Accepts(r.value, row) <==> Admits(schemas, row)
  {
    var union := BuildColumns(schemas);
    if union.Failure? {
      return Failure(union.error);
    }
    if !NamesDistinct(union.value.Keys) {
      return Failure(BadDeclaration);
    }
    var checks := BuildChecks(schemas, union.value.Keys);
    var t := Table(union.value, set s | s in schemas :: s.version, checks);
    forall row: Row ensures Accepts(t, row) <==> Admits(schemas, row) {
      AcceptsIsAdmits(schemas, t, row);
    }
    return Success(t);
  }

  function CheckOf(schemas: seq<BlobSchema>, i: nat): VersionCheck
    requires i < |schemas|
  {
    VersionCheck(schemas[i].version, Required(schemas[i]), Union(schemas) - schemas[i].fields.Keys)
  }

  predicate Empty(c: VersionCheck) {
    c.required == {} && c.absent == {}
  }

  lemma UnionAppend(schemas: seq<BlobSchema>, schema: BlobSchema)
    ensures Union(schemas + [schema]) == Union(schemas) + schema.fields.Keys
  {
    forall k | k in Union(schemas) + schema.fields.Keys ensures k in Union(schemas + [schema]) {
      if k in Union(schemas) {
        var i :| 0 <= i < |schemas| && k in schemas[i].fields;
        assert (schemas + [schema])[i] == schemas[i];
      } else {
        assert (schemas + [schema])[|schemas|] == schema;
      }
    }
  }

  ghost predicate IsLayout(schemas: seq<BlobSchema>, t: Table) {
    && t.columns.Keys == Union(schemas)
    && (forall j, k | 0 <= j < |schemas| && k in schemas[j].fields :: t.columns[k] == Column(schemas[j].fields[k].kind, false))
    && t.versions == (set s | s in schemas :: s.version)
    && (forall c | c in t.checks :: exists j | 0 <= j < |schemas| :: c == CheckOf(schemas, j))
    && (forall j | 0 <= j < |schemas| :: CheckOf(schemas, j) in t.checks || Empty(CheckOf(schemas, j)))
  }

  lemma AcceptsIsAdmits(schemas: seq<BlobSchema>, t: Table, row: Row)
    requires DistinctVersions(schemas) && IsLayout(schemas, t)
    ensures Accepts(t, row) <==> Admits(schemas, row)
  {
    if Accepts(t, row) { AcceptsThenAdmits(schemas, t, row); }
    if Admits(schemas, row) { AdmitsThenAccepts(schemas, t, row); }
  }

  lemma AcceptsThenAdmits(schemas: seq<BlobSchema>, t: Table, row: Row)
    requires IsLayout(schemas, t) && Accepts(t, row)
    ensures Admits(schemas, row)
  {
    var s :| s in schemas && s.version == row.schemaVersion;
    var i :| 0 <= i < |schemas| && schemas[i] == s;
    var c := CheckOf(schemas, i);
    assert Empty(c) || (c in t.checks && PassesCheck(c, row));
    forall k | k in s.fields ensures k in Union(schemas) && k in row.cells && Holds(s.fields[k], row.cells[k]) {
      assert k in schemas[i].fields;
      assert PassesColumn(t.columns[k], row.cells[k]);
      assert s.fields[k].required ==> k in c.required;
    }
    assert forall k | k in Union(schemas) && k !in s.fields :: k in c.absent;
    VersionRow(s, Union(schemas), row.cells);
  }

  lemma VersionRow(s: BlobSchema, columns: set<string>, cells: Values)
    requires cells.Keys == columns && s.fields.Keys <= columns
    requires forall k | k in s.fields :: Holds(s.fields[k], cells[k])
    requires forall k | k in columns && k !in s.fields :: cells[k].Null?
    ensures exists values :: Conforms(s, values) && cells == Pad(columns, values)
  {
    var values: Values := map k | k in s.fields :: cells[k];
    assert Conforms(s, values);
    assert cells == Pad(columns, values);
  }

  lemma AdmitsThenAccepts(schemas: seq<BlobSchema>, t: Table, row: Row)
    requires DistinctVersions(schemas) && IsLayout(schemas, t) && Admits(schemas, row)
    ensures Accepts(t, row)
  {
    var i, values :| 0 <= i < |schemas|
      && row.schemaVersion == schemas[i].version && Conforms(schemas[i], values) && row.cells == Pad(Union(schemas), values);
    var s := schemas[i];
    assert s in schemas;
    forall k | k in t.columns ensures PassesColumn(t.columns[k], row.cells[k]) {
      if k in values { assert Holds(s.fields[k], values[k]); }
      var j :| 0 <= j < |schemas| && k in schemas[j].fields;
    }
    forall c | c in t.checks
      ensures c.required <= row.cells.Keys && c.absent <= row.cells.Keys && PassesCheck(c, row)
    {
      var j :| 0 <= j < |schemas| && c == CheckOf(schemas, j);
      assert c.required <= Union(schemas);
      if row.schemaVersion == c.version {
        assert i == j;
        forall k | k in c.required ensures !row.cells[k].Null? { assert Holds(s.fields[k], values[k]); }
      }
    }
  }

  // ---------------------------------------------------------------- evolution

  /** A row copied by the rebuild: the same row with a null in every new column. */
  function Widen(schemas: seq<BlobSchema>, row: Row): Row {
    row.(cells := Pad(Union(schemas), row.cells))
  }

  lemma PadTwice(a: set<string>, b: set<string>, values: Values)
    requires values.Keys <= a
    ensures Pad(b, Pad(a, values)) == Pad(b, values)
  {
  }

  /** Every row of the previous layout, padded with nulls, is accepted by the new one. */
  lemma OldRowsAreAdmitted(schemas: seq<BlobSchema>, target: BlobSchema, row: Row)
    requires Admits(schemas, row)
    ensures Admits(schemas + [target], Widen(schemas + [target], row))
  {
    var i, values :| 0 <= i < |schemas|
      && row.schemaVersion == schemas[i].version && Conforms(schemas[i], values) && row.cells == Pad(Union(schemas), values);
    assert values.Keys <= Union(schemas);
    PadTwice(Union(schemas), Union(schemas + [target]), values);
    assert (schemas + [target])[i] == schemas[i];
  }

  /** Every row of an unevolved table, padded with nulls, is accepted by its first layout. */
  lemma FirstRowsAreAdmitted(schema: BlobSchema, target: BlobSchema, row: Row)
    requires schema.version == 1 && Accepts(FirstTable(schema), row)
    ensures Admits([schema, target], Widen([schema, target], row))
  {
    var t := FirstTable(schema);
    assert Conforms(schema, row.cells) by {
      forall k | k in row.cells ensures Holds(schema.fields[k], row.cells[k]) {
        assert PassesColumn(t.columns[k], row.cells[k]);
      }
    }
    assert [schema, target][0] == schema;
  }

  /** Every row a batch writes is accepted by the new layout. */
  lemma MigratedRowsAreAdmitted(schemas: seq<BlobSchema>, target: BlobSchema, version: nat, values: Values)
    requires Conforms(target, values) && version > 0
    ensures Admits(schemas + [target], Row(target.version, version, Pad(Union(schemas + [target]), values)))
  {
    assert (schemas + [target])[|schemas|] == target;
  }

  // ---------------------------------------------------------------- row guards

  function Cell(values: Values, k: string): Value {
    if k in values then values[k] else Null
  }

  predicate ImmutableChanged(schema: BlobSchema, before: Values, after: Values) {
    exists k | k in schema.fields && schema.fields[k].immutable :: Cell(before, k) != Cell(after, k)
  }

  /** The update guard of an unevolved table lets the row through. */
  predicate FirstUpdateAllowed(schema: BlobSchema, before: Row, after: Row) {
    && after.schemaVersion == before.schemaVersion
    && !ImmutableChanged(schema, before.cells, after.cells)
    && after.version == before.version + 1
  }

  /** The update guard of a layout: ordinary edits at the newest version only, version changes only under a migration step. */
  predicate UpdateAllowed(latest: BlobSchema, step: bool, before: Row, after: Row) {
    && after.version == before.version + 1
    && (after.schemaVersion == before.schemaVersion ==>
          before.schemaVersion == latest.version && !ImmutableChanged(latest, before.cells, after.cells))
    && (after.schemaVersion != before.schemaVersion ==> step)
  }

  /** On rows of the newest version with no migration step, the layout's guard is the original guard. */
  lemma GuardRefinesFirst(schema: BlobSchema, before: Row, after: Row)
    requires before.schemaVersion == schema.version
    ensures UpdateAllowed(schema, false, before, after) <==> FirstUpdateAllowed(schema, before, after)
  {
  }

  /** Without a migration step a row of an older version cannot be changed at all. */
  lemma OldRowsAreFrozen(latest: BlobSchema, before: Row, after: Row)
    requires before.schemaVersion != latest.version
    ensures !UpdateAllowed(latest, false, before, after)
    ensures UpdateAllowed(latest, true, before, after) ==> after.schemaVersion != before.schemaVersion
  {
  }
}
