/** The statements that change metadata rows succeed exactly when the physical table's checks and update trigger allow it. */
module Guards {
  import opened Wrappers
  import opened Schemas
  import opened Tables
  import opened Databases
  import Layout

  /** A metadata row as the shared table stores it: one cell per column of any version. */
  function Physical(schemas: seq<BlobSchema>, m: Meta): Layout.Row {
    Layout.Row(m.schemaVersion, m.version, Layout.Pad(Layout.Union(schemas), m.values))
  }

  /** The declared versions of a schema, oldest first. */
  ghost predicate Versions(schemas: seq<BlobSchema>, latest: BlobSchema) {
    && |schemas| > 0 && latest == schemas[|schemas| - 1]
    && forall i | 0 <= i < |schemas| :: schemas[i].version == i + 1
  }

  /** The checks admit a padded row of one version exactly when its fields conform to that version. */
  lemma AdmitsItsVersion(schemas: seq<BlobSchema>, i: nat, version: nat, values: Values)
    requires i < |schemas| && Layout.DistinctVersions(schemas) && version > 0
    requires values.Keys == schemas[i].fields.Keys
    ensures Layout.Admits(schemas, Physical(schemas, Meta(schemas[i].version, version, values)))
      <==> Conforms(schemas[i], values)
  {
    var row := Physical(schemas, Meta(schemas[i].version, version, values));
    assert forall k | k in values :: k in Layout.Union(schemas);
    if Layout.Admits(schemas, row) {
      var j, other :| 0 <= j < |schemas|
        && row.schemaVersion == schemas[j].version && Conforms(schemas[j], other)
        && row.cells == Layout.Pad(Layout.Union(schemas), other);
      assert i == j;
      forall k | k in values ensures values[k] == other[k] { assert row.cells[k] == values[k]; }
      assert values == other;
    }
  }

  /** An ordinary edit of a row of the newest version. */
  lemma EditGuard(db: Database, id: Id, schemas: seq<BlobSchema>, latest: BlobSchema, changes: Values, step: bool)
    requires Versions(schemas, latest) && id in db.metadata && db.metadata[id].schemaVersion == latest.version
    requires latest.name in db.schemas && db.schemas[latest.name] == schemas
    requires Conforms(latest, db.metadata[id].values) && changes.Keys <= latest.fields.Keys
    ensures var m := db.metadata[id];
      var before, after := Physical(schemas, m), Physical(schemas, Meta(latest.version, m.version + 1, m.values + changes));
      db.Editable(id, latest, changes)
      <==> Layout.Admits(schemas, after) && Layout.UpdateAllowed(latest, step, before, after)
  {
    var m := db.metadata[id];
    var before, after := Physical(schemas, m), Physical(schemas, Meta(latest.version, m.version + 1, m.values + changes));
    AdmitsItsVersion(schemas, |schemas| - 1, m.version + 1, m.values + changes);
    LatestColumns(schemas, latest);
    ImmutableCells(latest, Layout.Union(schemas), m.values, changes);
    assert Latest(db.T(), latest.name) == latest.version;
    assert db.Editable(id, latest, changes) <==> Conforms(latest, m.values + changes) && ImmutableKept(latest, m.values, changes);
    assert Layout.UpdateAllowed(latest, step, before, after) <==> !Layout.ImmutableChanged(latest, before.cells, after.cells);
  }

  lemma LatestColumns(schemas: seq<BlobSchema>, latest: BlobSchema)
    requires Versions(schemas, latest)
    ensures latest.fields.Keys <= Layout.Union(schemas)
  {
    forall k | k in latest.fields ensures k in Layout.Union(schemas) { assert k in schemas[|schemas| - 1].fields; }
  }

  predicate ImmutableKept(latest: BlobSchema, values: Values, changes: Values) {
    forall n | n in changes && n in latest.fields && latest.fields[n].immutable :: n in values && changes[n] == values[n]
  }

  /** Comparing padded cells of immutable fields is comparing the changes to them. */
  lemma ImmutableCells(latest: BlobSchema, columns: set<string>, values: Values, changes: Values)
    requires latest.fields.Keys <= columns && values.Keys == latest.fields.Keys
    ensures ImmutableKept(latest, values, changes)
      <==> !Layout.ImmutableChanged(latest, Layout.Pad(columns, values), Layout.Pad(columns, values + changes))
  {
    var before, after := Layout.Pad(columns, values), Layout.Pad(columns, values + changes);
    forall k | k in latest.fields
      ensures Layout.Cell(before, k) == values[k]
      ensures Layout.Cell(after, k) == if k in changes then changes[k] else values[k]
    {
    }
    if !ImmutableKept(latest, values, changes) {
      var n :| n in changes && n in latest.fields && latest.fields[n].immutable && !(n in values && changes[n] == values[n]);
      assert Layout.Cell(before, n) != Layout.Cell(after, n);
    }
  }

  /** The rewrite of an older row to the newest version: allowed exactly under a matching step of a running migration. */
  lemma MoveGuard(db: Database, id: Id, schemas: seq<BlobSchema>, latest: BlobSchema, values: Values)
    requires Versions(schemas, latest) && id in db.metadata && id in db.blobs
    requires db.metadata[id].schemaVersion != latest.version && values.Keys == latest.fields.Keys
    ensures var m := db.metadata[id];
      var before, after := Physical(schemas, m), Physical(schemas, Meta(latest.version, m.version + 1, values));
      db.Stepped(id, latest.version) && Conforms(latest, values)
      <==> Layout.Admits(schemas, after) && Layout.UpdateAllowed(latest, db.Stepped(id, after.schemaVersion), before, after)
  {
    AdmitsItsVersion(schemas, |schemas| - 1, db.metadata[id].version + 1, values);
  }

  /** An edit of a row that is not of the newest version is refused by both. */
  lemma OldGuard(
    db: Database, id: Id, schemas: seq<BlobSchema>, latest: BlobSchema, older: BlobSchema, changes: Values, after: Layout.Row)
    requires Versions(schemas, latest) && latest.name in db.schemas && db.schemas[latest.name] == schemas
    requires older.name == latest.name && older.version != latest.version
    requires id in db.metadata && db.metadata[id].schemaVersion == after.schemaVersion == older.version
    ensures !db.Editable(id, older, changes)
    ensures forall step :: !Layout.UpdateAllowed(latest, step, Physical(schemas, db.metadata[id]), after)
  {
  }
}
