/** Store.find over the catalog: the joined rows meet what pagination needs, and every selected record reads back. */
module Searches {
  import opened Wrappers
  import opened Errors
  import opened Schemas
  import opened Tables
  import Ordering
  import Query
  import Pages

  /** ms_blobs joined with one schema's metadata. */
  function RowOf(t: Tables, id: Id): Query.Row
    requires id in t.blobs && id in t.metadata
  {
    Query.Row(
      id, t.blobs[id].state.Ready?, t.blobs[id].schemaName, t.blobs[id].schemaVersion, t.metadata[id].schemaVersion,
      t.metadata[id].values)
  }

  function Joined(t: Tables, name: string): set<Query.Row> {
    set id | id in t.blobs && id in t.metadata && t.blobs[id].schemaName == name :: RowOf(t, id)
  }

  /** Ids are distinct, and every row in scope holds values its declaration allows. */
  lemma JoinedIsValid(t: Tables, schema: BlobSchema)
    requires Inv(t) && Installed(t, schema)
    ensures Pages.ValidTable(schema, Joined(t, schema.name))
  {
    var table := Joined(t, schema.name);
    forall row, n | row in table && Query.InScope(schema, row) && n in schema.fields
      ensures n in row.fields && Holds(schema.fields[n], row.fields[n])
    {
      assert BlobOk(t, row.id);
    }
  }

  lemma PageIsSelected(
    table: set<Query.Row>, schema: BlobSchema, terms: seq<Query.Predicate>, orderBy: seq<Query.Order>, after: Query.After,
    limit: int)
    requires Pages.ValidTable(schema, table) && Query.Accepts(schema, terms, orderBy, after, limit)
    ensures forall row | row in Pages.Page(table, schema, terms, orderBy, after, limit) :: row in table && row.ready
  {
    Pages.PageSize(table, schema, terms, orderBy, after, limit);
    var page := Pages.Page(table, schema, terms, orderBy, after, limit);
    forall row | row in page ensures row in table && row.ready { assert row in Ordering.Elements(page); }
  }

  // ---------------------------------------------------------------- what a caller asked for

  function ValueIn(r: Record, name: string): Value {
    if name == "id" then Text(r.id) else if name in r.metadata then r.metadata[name] else Null
  }

  /** Null is less than every value; values of one kind compare as text, numbers or instants. */
  predicate ValueLess(x: Value, y: Value) {
    match x
    case Null => y != Null
    case Text(a) => y.Text? && Ordering.TextLess(a, y.s)
    case Int(i) => y.Int? && i < y.i
    case Real(a) => y.Real? && a < y.r
    case Stamp(a) => y.Stamp? && a < y.t
  }

  /**
   * A record comes after some values, given for the named fields and then the id: the first field that differs decides, in
   * its direction, and among equals the greater id comes after.
   */
  predicate Follows(orderBy: seq<Query.Order>, values: seq<Value>, r: Record) {
    if values == [] then false
    else if orderBy == [] then values[0].Text? && Ordering.TextLess(values[0].s, r.id)
    else
      var x, y := values[0], ValueIn(r, orderBy[0].field);
      if x == y then Follows(orderBy[1..], values[1..], r)
      else if orderBy[0].descending then ValueLess(y, x)
      else ValueLess(x, y)
  }

  function ValuesOf(orderBy: seq<Query.Order>, r: Record): seq<Value> {
    if orderBy == [] then [Text(r.id)] else [ValueIn(r, orderBy[0].field)] + ValuesOf(orderBy[1..], r)
  }

  predicate Precedes(orderBy: seq<Query.Order>, a: Record, b: Record) {
    Follows(orderBy, ValuesOf(orderBy, a), b)
  }

  /** A field given in where: null for None, the normalized value otherwise. */
  predicate Equals(schema: BlobSchema, r: Record, name: string, v: Py) {
    if v.PyNone? then ValueIn(r, name) == Null
    else if name == "id" then v == PyStr(r.id)
    else name in schema.fields && name in r.metadata && Normalize(schema.fields[name], v) == Success(r.metadata[name])
  }

  /** The row a record comes from. */
  function Source(r: Record): Query.Row {
    Query.Row(r.id, r.state.Ready?, r.schemaName, r.schemaVersion, r.schemaVersion, r.metadata)
  }

  predicate Known(schema: BlobSchema, name: string) {
    name == "id" || name in schema.fields
  }

  /** A condition of where: a known field, with no value or one that it accepts. */
  predicate Given(schema: BlobSchema, name: string, v: Py) {
    Known(schema, name) && (v.PyNone? || if name == "id" then v.PyStr? else Normalize(schema.fields[name], v).Success?)
  }

  /** An order: at most eight distinct known fields, the id only as the last. */
  predicate Orderly(schema: BlobSchema, orderBy: seq<Query.Order>) {
    && |orderBy| <= 8
    && (forall o | o in orderBy :: Known(schema, o.field))
    && (forall i, j | 0 <= i < j < |orderBy| :: orderBy[i].field != orderBy[j].field && orderBy[i].field != "id")
  }

  /** A starting point: an id when records come in ascending id, or a cursor of this version and order with storable values. */
  predicate Startable(schema: BlobSchema, orderBy: seq<Query.Order>, after: Query.After) {
    match after
    case Start => true
    case AfterId(_) => orderBy == [] || orderBy == [Query.Order("id", false)]
    case Cursor(name, version, order, values) =>
      && name == schema.name && version == schema.version
      && order == (if orderBy != [] && orderBy[|orderBy| - 1].field == "id" then orderBy else orderBy + [Query.Order("id", false)])
      && |values| == |order|
      && forall i | 0 <= i < |order| ::
           && Known(schema, order[i].field)
           && if order[i].field == "id" then values[i].Text? else Holds(schema.fields[order[i].field], values[i])
  }

  lemma OrderlyMeans(schema: BlobSchema, orderBy: seq<Query.Order>)
    ensures Query.ValidOrder(schema, orderBy) <==> Orderly(schema, orderBy)
  {
    if Query.ValidOrder(schema, orderBy) {
      forall o | o in orderBy ensures Known(schema, o.field) {
        var i :| 0 <= i < |orderBy| && orderBy[i] == o;
        assert Query.FieldOf(schema, orderBy[i].field).Success?;
      }
    }
    if Orderly(schema, orderBy) {
      forall i | 0 <= i < |orderBy| - 1 ensures orderBy[i].field != "id" {
        assert orderBy[i].field != orderBy[|orderBy| - 1].field && orderBy[i].field != "id";
      }
    }
  }

  lemma StartableMeans(schema: BlobSchema, orderBy: seq<Query.Order>, after: Query.After)
    requires Orderly(schema, orderBy)
    ensures Query.AcceptsAfter(schema, Query.NormalOrder(orderBy), after) <==> Startable(schema, orderBy, after)
  {
    OrderlyMeans(schema, orderBy);
    Query.NormalOrderDeclared(schema, orderBy);
    var order := Query.NormalOrder(orderBy);
    assert order == if orderBy != [] && orderBy[|orderBy| - 1].field == "id" then orderBy else orderBy + [Query.Order("id", false)];
    assert order == [Query.BY_ID] <==> orderBy == [] || orderBy == [Query.Order("id", false)];
  }

  lemma GivenMeans(schema: BlobSchema, where: seq<(string, Py)>, predicates: seq<Query.Predicate>)
    ensures (forall i | 0 <= i < |Query.Terms(where, predicates)| :: Query.AcceptsTerm(schema, Query.Terms(where, predicates)[i]))
      <==> (forall i | 0 <= i < |where| :: Given(schema, where[i].0, where[i].1))
           && (forall p | p in predicates :: Query.AcceptsTerm(schema, p))
  {
    var terms := Query.Terms(where, predicates);
    forall i | 0 <= i < |where| ensures Query.AcceptsTerm(schema, terms[i]) <==> Given(schema, where[i].0, where[i].1) {
      assert terms[i] == Query.Predicate(where[i].0, Query.Eq, Query.Scalar(where[i].1));
    }
    forall i | |where| <= i < |terms| ensures terms[i] in predicates { assert terms[i] == predicates[i - |where|]; }
    forall p | p in predicates ensures exists i | |where| <= i < |terms| :: terms[i] == p {
      var j :| 0 <= j < |predicates| && predicates[j] == p;
      assert terms[|where| + j] == p;
    }
  }

  /** Exactly which requests find accepts. */
  lemma RequestMeans(
    schema: BlobSchema, where: seq<(string, Py)>, predicates: seq<Query.Predicate>, orderBy: seq<Query.Order>, after: Query.After,
    limit: int)
    ensures Query.Accepts(schema, Query.Terms(where, predicates), orderBy, after, limit) <==>
      && 1 <= limit <= 1000 && |where| + |predicates| <= 64
      && (forall i | 0 <= i < |where| :: Given(schema, where[i].0, where[i].1))
      && (forall p | p in predicates :: Query.AcceptsTerm(schema, p))
      && Orderly(schema, orderBy) && Startable(schema, orderBy, after)
  {
    OrderlyMeans(schema, orderBy);
    if Orderly(schema, orderBy) { StartableMeans(schema, orderBy, after); }
    GivenMeans(schema, where, predicates);
  }

  /** A published record of the declaration that meets every condition. */
  predicate Sought(schema: BlobSchema, where: seq<(string, Py)>, predicates: seq<Query.Predicate>, r: Record)
    requires forall p | p in predicates :: Query.AcceptsTerm(schema, p)
  {
    && r.state == Ready && r.schemaName == schema.name && r.schemaVersion == schema.version
    && (forall i | 0 <= i < |where| :: Equals(schema, r, where[i].0, where[i].1))
    && (forall p | p in predicates :: Query.Satisfies(schema, p, Source(r)))
  }

  predicate Beyond(orderBy: seq<Query.Order>, after: Query.After, r: Record) {
    match after
    case Start => true
    case AfterId(id) => Ordering.TextLess(id, r.id)
    case Cursor(_, _, _, values) => Follows(orderBy, values, r)
  }

  /**
   * What find returns: records of the catalog, all of them sought and beyond the starting point, in the requested order and
   * at most limit; any other such record is left out only because the page is full, and comes after all of them.
   */
  ghost predicate PageAnswers(
    t: Tables, schema: BlobSchema, where: seq<(string, Py)>, predicates: seq<Query.Predicate>, orderBy: seq<Query.Order>,
    limit: int, after: Query.After, records: seq<Record>)
    requires forall p | p in predicates :: Query.AcceptsTerm(schema, p)
  {
    && |records| <= limit
    && (forall i, j | 0 <= i < j < |records| :: Precedes(orderBy, records[i], records[j]))
    && (forall r | r in records ::
          RecordOf(t, r.id, true) == Success(r) && Sought(schema, where, predicates, r) && Beyond(orderBy, after, r))
    && (forall id | id in t.blobs && RecordOf(t, id, true).Success? ::
          var r := RecordOf(t, id, true).value;
          Sought(schema, where, predicates, r) && Beyond(orderBy, after, r) ==>
            r in records || (|records| == limit && forall x | x in records :: Precedes(orderBy, x, r)))
  }

  // ---------------------------------------------------------------- the order

  lemma {:induction false} ValuesOfIsKey(orderBy: seq<Query.Order>, r: Record)
    requires forall i | 0 <= i < |orderBy| - 1 :: orderBy[i].field != "id"
    ensures |ValuesOf(orderBy, r)| == |orderBy| + 1 && ValuesOf(orderBy, r)[|orderBy|] == Text(r.id)
    ensures ValuesOf(orderBy, r)[..|Query.NormalOrder(orderBy)|] == Query.Key(Query.NormalOrder(orderBy), Source(r))
    decreases |orderBy|
  {
    var order, key := Query.NormalOrder(orderBy), Query.Key(Query.NormalOrder(orderBy), Source(r));
    SourceColumn(r, order[0].field);
    if orderBy != [] {
      ValuesOfIsKey(orderBy[1..], r);
      if |orderBy| > 1 || orderBy[0].field != "id" {
        assert order[1..] == Query.NormalOrder(orderBy[1..]);
        assert key == [key[0]] + Query.Key(order[1..], Source(r));
      }
    }
  }

  /** One trailing value too many changes nothing. */
  lemma {:induction false} FollowsTrimmed(orderBy: seq<Query.Order>, values: seq<Value>, r: Record)
    requires |values| == |orderBy| + 1 && values[|orderBy|].Text? && orderBy != [] && orderBy[|orderBy| - 1].field == "id"
    requires values[|orderBy| - 1] == values[|orderBy|]
    ensures Follows(orderBy, values, r) <==> Follows(orderBy, values[..|orderBy|], r)
    decreases |orderBy|
  {
    if |orderBy| == 1 {
      Ordering.TextLessIrreflexive(r.id);
      assert values[1..] == [values[1]] && values[..1][1..] == [];
    } else {
      FollowsTrimmed(orderBy[1..], values[1..], r);
      assert values[1..][..|orderBy| - 1] == values[..|orderBy|][1..];
    }
  }

  /** One record precedes another in the requested order exactly when ORDER BY sorts its row first. */
  lemma PrecedesMeans(schema: BlobSchema, orderBy: seq<Query.Order>, a: Record, b: Record)
    requires Query.ValidOrder(schema, orderBy)
    ensures Precedes(orderBy, a, b) <==> Pages.RowLess(Query.NormalOrder(orderBy))(Source(a), Source(b))
  {
    var order := Query.NormalOrder(orderBy);
    var values := ValuesOf(orderBy, a);
    ValuesOfIsKey(orderBy, a);
    Query.NormalOrderDeclared(schema, orderBy);
    FollowsMeans(orderBy, values[..|order|], b);
    if |order| == |orderBy| { FollowsTrimmed(orderBy, values, b); } else { assert values[..|order|] == values; }
  }

  /** Without an order, records come in ascending order of their ids. */
  lemma DefaultOrder(a: Record, b: Record)
    ensures Precedes([], a, b) <==> Ordering.TextLess(a.id, b.id)
  {
  }

  /** The first named field decides wherever two records differ in it: ascending from null upwards, descending the reverse. */
  lemma FirstFieldDecides(orderBy: seq<Query.Order>, a: Record, b: Record)
    requires orderBy != [] && ValueIn(a, orderBy[0].field) != ValueIn(b, orderBy[0].field)
    ensures var x, y, less :=
        ValueIn(a, orderBy[0].field), ValueIn(b, orderBy[0].field), Precedes(orderBy, a, b) != orderBy[0].descending;
      && (x.Null? ==> less) && (y.Null? ==> !less)
      && (x.Text? && y.Text? ==> (less <==> Ordering.TextLess(x.s, y.s)))
      && (x.Int? && y.Int? ==> (less <==> x.i < y.i))
      && (x.Real? && y.Real? ==> (less <==> x.r < y.r))
      && (x.Stamp? && y.Stamp? ==> (less <==> x.t < y.t))
  {
    var x, y := ValueIn(a, orderBy[0].field), ValueIn(b, orderBy[0].field);
    if x.Text? && y.Text? {
      Ordering.TextLessConnected(x.s, y.s);
      if Ordering.TextLess(x.s, y.s) && Ordering.TextLess(y.s, x.s) {
        Ordering.TextLessTransitive(x.s, y.s, x.s);
        Ordering.TextLessIrreflexive(x.s);
      }
    }
  }

  /** Records equal in every named field come in ascending order of their ids. */
  lemma {:induction false} EqualFieldsById(orderBy: seq<Query.Order>, a: Record, b: Record)
    requires forall o | o in orderBy :: ValueIn(a, o.field) == ValueIn(b, o.field)
    ensures Precedes(orderBy, a, b) <==> Ordering.TextLess(a.id, b.id)
    decreases |orderBy|
  {
    if orderBy != [] {
      assert orderBy[0] in orderBy;
      assert forall o | o in orderBy[1..] :: o in orderBy;
      assert ValuesOf(orderBy, a)[1..] == ValuesOf(orderBy[1..], a);
      EqualFieldsById(orderBy[1..], a, b);
    }
  }

  lemma KeyBeforeStep(order: seq<Query.Order>, a: seq<Value>, b: seq<Value>)
    requires |a| == |b| == |order| && order != []
    ensures Query.KeyBefore(order, a, b) <==>
      if a[0] == b[0] then Query.KeyBefore(order[1..], a[1..], b[1..]) else Query.KeyLess(order[0].descending, a[0], b[0])
  {
    Pages.KeyLessIrreflexive(order[0].descending, a[0]);
    if i: nat :| i < |order| && a[..i] == b[..i] && Query.KeyLess(order[i].descending, a[i], b[i]) {
      if i > 0 {
        assert a[0] == a[..i][0] == b[..i][0] == b[0];
        assert a[1..][..i - 1] == a[..i][1..] && b[1..][..i - 1] == b[..i][1..];
        assert order[1..][i - 1] == order[i];
      }
    }
    if a[0] == b[0] {
      if i: nat :| i < |order[1..]| && a[1..][..i] == b[1..][..i] && Query.KeyLess(order[1..][i].descending, a[1..][i], b[1..][i]) {
        assert a[..i + 1] == [a[0]] + a[1..][..i] && b[..i + 1] == [b[0]] + b[1..][..i];
      }
    } else {
      assert a[..0] == b[..0];
    }
  }

  lemma ValueLessMeans(descending: bool, x: Value, y: Value)
    ensures Query.KeyLess(descending, x, y) <==> if descending then ValueLess(y, x) else ValueLess(x, y)
  {
  }

  lemma SourceColumn(r: Record, name: string)
    ensures Query.ColumnOf(Source(r), name) == ValueIn(r, name)
  {
  }

  lemma KeyTail(order: seq<Query.Order>, row: Query.Row)
    requires order != []
    ensures Query.Key(order, row)[1..] == Query.Key(order[1..], row)
  {
  }

  lemma NormalTail(orderBy: seq<Query.Order>)
    requires orderBy != []
    ensures Query.NormalOrder(orderBy)[1..] == if orderBy[1..] == [] && orderBy[0].field == "id" then [] else Query.NormalOrder(orderBy[1..])
    ensures Query.NormalOrder(orderBy)[0] == orderBy[0]
  {
  }

  lemma FollowsStep(orderBy: seq<Query.Order>, order: seq<Query.Order>, values: seq<Value>, r: Record)
    requires orderBy != [] && order != [] && order[0] == orderBy[0] && |values| == |order|
    requires Query.KeyBefore(order[1..], values[1..], Query.Key(order[1..], Source(r))) <==> Follows(orderBy[1..], values[1..], r)
    ensures Query.KeyBefore(order, values, Query.Key(order, Source(r))) <==> Follows(orderBy, values, r)
  {
    KeyBeforeStep(order, values, Query.Key(order, Source(r)));
    SourceColumn(r, order[0].field);
    ValueLessMeans(order[0].descending, values[0], ValueIn(r, order[0].field));
    KeyTail(order, Source(r));
  }

  /** The emitted ORDER BY and the cursor clause compare as a caller would. */
  lemma {:induction false} FollowsMeans(orderBy: seq<Query.Order>, values: seq<Value>, r: Record)
    requires |values| == |Query.NormalOrder(orderBy)| && values[|values| - 1].Text?
    requires forall i | 0 <= i < |orderBy| - 1 :: orderBy[i].field != "id"
    ensures Query.KeyBefore(Query.NormalOrder(orderBy), values, Query.Key(Query.NormalOrder(orderBy), Source(r)))
      <==> Follows(orderBy, values, r)
    decreases |orderBy|
  {
    var order := Query.NormalOrder(orderBy);
    if orderBy == [] {
      KeyBeforeStep(order, values, Query.Key(order, Source(r)));
      Ordering.TextLessIrreflexive(r.id);
    } else {
      NormalTail(orderBy);
      if orderBy[1..] != [] || orderBy[0].field != "id" { FollowsMeans(orderBy[1..], values[1..], r); }
      FollowsStep(orderBy, order, values, r);
    }
  }

  // ---------------------------------------------------------------- why a page answers

  lemma RecordSource(t: Tables, id: Id)
    requires Inv(t) && id in t.blobs && t.blobs[id].state.Ready?
    ensures RecordOf(t, id, true).Success? && id in t.metadata
    ensures Source(RecordOf(t, id, true).value) == RowOf(t, id) && RecordOf(t, id, true).value.id == id
    ensures RecordOf(t, id, true).value.state == Ready
  {
    assert BlobOk(t, id);
    RecordSucceeds(t, id);
  }

  lemma WhereMeans(schema: BlobSchema, r: Record, name: string, v: Py)
    requires Query.AcceptsTerm(schema, Query.Predicate(name, Query.Eq, Query.Scalar(v)))
    requires r.metadata.Keys == schema.fields.Keys && forall n | n in r.metadata :: Holds(schema.fields[n], r.metadata[n])
    ensures Query.Satisfies(schema, Query.Predicate(name, Query.Eq, Query.Scalar(v)), Source(r)) <==> Equals(schema, r, name, v)
  {
    SourceColumn(r, name);
    if name != "id" { NormalizeMeans(schema.fields[name], v, r.metadata[name]); }
  }

  lemma BoundaryMeans(schema: BlobSchema, orderBy: seq<Query.Order>, after: Query.After, r: Record)
    requires Query.ValidOrder(schema, orderBy) && Query.AcceptsAfter(schema, Query.NormalOrder(orderBy), after)
    ensures Query.Boundary(after).Some? ==> |Query.Boundary(after).value| == |Query.NormalOrder(orderBy)|
    ensures (Query.Boundary(after).Some? ==>
      Query.KeyBefore(Query.NormalOrder(orderBy), Query.Boundary(after).value, Query.Key(Query.NormalOrder(orderBy), Source(r))))
      <==> Beyond(orderBy, after, r)
  {
    var order := Query.NormalOrder(orderBy);
    Query.NormalOrderDeclared(schema, orderBy);
    match after {
      case Start =>
      case AfterId(id) =>
        KeyBeforeStep(order, [Text(id)], Query.Key(order, Source(r)));
        SourceColumn(r, "id");
        Ordering.TextLessIrreflexive(id);
      case Cursor(_, _, _, values) => FollowsMeans(orderBy, values, r);
    }
  }

  ghost predicate Fitting(schema: BlobSchema, r: Record) {
    r.metadata.Keys == schema.fields.Keys && forall n | n in r.metadata :: Holds(schema.fields[n], r.metadata[n])
  }

  lemma TermsMean(schema: BlobSchema, where: seq<(string, Py)>, predicates: seq<Query.Predicate>, r: Record)
    requires var terms := Query.Terms(where, predicates); forall i | 0 <= i < |terms| :: Query.AcceptsTerm(schema, terms[i])
    requires Fitting(schema, r)
    ensures forall p | p in predicates :: Query.AcceptsTerm(schema, p)
    ensures (
      && (forall i | 0 <= i < |Query.Terms(where, predicates)| ::
            Query.Satisfies(schema, Query.Terms(where, predicates)[i], Source(r))))
      <==> (
      && (forall i | 0 <= i < |where| :: Equals(schema, r, where[i].0, where[i].1))
      && (forall p | p in predicates :: Query.Satisfies(schema, p, Source(r))))
  {
    var terms := Query.Terms(where, predicates);
    forall p | p in predicates ensures p in terms {}
    forall i | 0 <= i < |where|
      ensures Query.Satisfies(schema, terms[i], Source(r)) <==> Equals(schema, r, where[i].0, where[i].1)
    {
      assert terms[i] == Query.Predicate(where[i].0, Query.Eq, Query.Scalar(where[i].1));
      WhereMeans(schema, r, where[i].0, where[i].1);
    }
    forall i | |where| <= i < |terms| ensures terms[i] in predicates { assert terms[i] == predicates[i - |where|]; }
    forall p | p in predicates ensures exists i | |where| <= i < |terms| :: terms[i] == p {
      var j :| 0 <= j < |predicates| && predicates[j] == p;
      assert terms[|where| + j] == p;
    }
  }

  /** The query selects exactly the rows of the records a caller asked for. */
  lemma SelectedMeans(
    schema: BlobSchema, where: seq<(string, Py)>, predicates: seq<Query.Predicate>, orderBy: seq<Query.Order>, after: Query.After,
    limit: int, r: Record)
    requires Query.Accepts(schema, Query.Terms(where, predicates), orderBy, after, limit)
    requires r.schemaName == schema.name && r.schemaVersion == schema.version ==> Fitting(schema, r)
    ensures forall p | p in predicates :: Query.AcceptsTerm(schema, p)
    ensures Query.Boundary(after).Some? ==> |Query.Boundary(after).value| == |Query.NormalOrder(orderBy)|
    ensures Query.Selected(
      schema, Query.Terms(where, predicates), Query.NormalOrder(orderBy), Query.Boundary(after), Source(r))
      <==> Sought(schema, where, predicates, r) && Beyond(orderBy, after, r)
  {
    BoundaryMeans(schema, orderBy, after, r);
    forall p | p in predicates ensures Query.AcceptsTerm(schema, p) {
      var j :| 0 <= j < |predicates| && predicates[j] == p;
      assert Query.Terms(where, predicates)[|where| + j] == p;
    }
    if r.schemaName == schema.name && r.schemaVersion == schema.version { TermsMean(schema, where, predicates, r); }
  }

  lemma RecordFits(t: Tables, schema: BlobSchema, id: Id)
    requires Inv(t) && Installed(t, schema) && RecordOf(t, id, true).Success?
    ensures var r := RecordOf(t, id, true).value;
      && id in t.blobs && t.blobs[id].state.Ready? && id in t.metadata && Source(r) == RowOf(t, id) && r.id == id
      && (r.schemaName == schema.name && r.schemaVersion == schema.version ==> Fitting(schema, r))
  {
    assert BlobOk(t, id);
    RecordSource(t, id);
  }

  lemma MatchingMeans(
    t: Tables, schema: BlobSchema, where: seq<(string, Py)>, predicates: seq<Query.Predicate>, orderBy: seq<Query.Order>,
    after: Query.After, limit: int, id: Id)
    requires Inv(t) && Installed(t, schema) && RecordOf(t, id, true).Success?
    requires Query.Accepts(schema, Query.Terms(where, predicates), orderBy, after, limit)
    ensures forall p | p in predicates :: Query.AcceptsTerm(schema, p)
    ensures id in t.blobs && id in t.metadata
    ensures RowOf(t, id) in Pages.Matching(Joined(t, schema.name), schema, Query.Terms(where, predicates), orderBy, after)
      <==> Sought(schema, where, predicates, RecordOf(t, id, true).value) && Beyond(orderBy, after, RecordOf(t, id, true).value)
  {
    RecordFits(t, schema, id);
    SelectedMeans(schema, where, predicates, orderBy, after, limit, RecordOf(t, id, true).value);
  }

  /** The records of a page in the order of their rows. */
  ghost predicate Reads(t: Tables, page: seq<Query.Row>, records: seq<Record>) {
    && |records| == |page|
    && forall i | 0 <= i < |page| ::
         RecordOf(t, page[i].id, true) == Success(records[i]) && Source(records[i]) == page[i]
  }

  lemma PageInOrder(
    t: Tables, schema: BlobSchema, orderBy: seq<Query.Order>, rows: set<Query.Row>, limit: nat,
    page: seq<Query.Row>, records: seq<Record>)
    requires Query.ValidOrder(schema, orderBy) && Ordering.StrictTotal(Pages.RowLess(Query.NormalOrder(orderBy)), rows)
    requires page == Ordering.First(Pages.RowLess(Query.NormalOrder(orderBy)), rows, limit) && Reads(t, page, records)
    ensures forall i, j | 0 <= i < j < |records| :: Precedes(orderBy, records[i], records[j])
    ensures forall r | r in records :: Source(r) in rows && RecordOf(t, r.id, true) == Success(r)
    ensures |records| <= limit
    ensures forall r: Record | Source(r) in rows && Source(r) !in page ::
      |records| == limit && forall x | x in records :: Precedes(orderBy, x, r)
  {
    var less := Pages.RowLess(Query.NormalOrder(orderBy));
    Ordering.FirstSelects(less, rows, limit);
    forall i, j | 0 <= i < j < |records| ensures Precedes(orderBy, records[i], records[j]) {
      PrecedesMeans(schema, orderBy, records[i], records[j]);
      assert less(page[i], page[j]);
    }
    forall r | r in records ensures Source(r) in rows && RecordOf(t, r.id, true) == Success(r) {
      var i :| 0 <= i < |records| && records[i] == r;
      assert page[i] in Ordering.Elements(page);
    }
    forall r: Record | Source(r) in rows && Source(r) !in page
      ensures |records| == limit && forall x | x in records :: Precedes(orderBy, x, r)
    {
      assert Source(r) in rows - Ordering.Elements(page);
      if |rows| <= limit { SameCount(Ordering.Elements(page), rows); }
      forall x | x in records ensures Precedes(orderBy, x, r) {
        var i :| 0 <= i < |records| && records[i] == x;
        PrecedesMeans(schema, orderBy, x, r);
        assert page[i] in page && less(page[i], Source(r));
      }
    }
  }

  lemma SameCount<T>(a: set<T>, b: set<T>)
    requires a <= b && |a| == |b|
    ensures a == b
  {
    assert b == a + (b - a);
  }

  lemma TermsAccepted(schema: BlobSchema, where: seq<(string, Py)>, predicates: seq<Query.Predicate>)
    requires var terms := Query.Terms(where, predicates); forall i | 0 <= i < |terms| :: Query.AcceptsTerm(schema, terms[i])
    ensures forall p | p in predicates :: Query.AcceptsTerm(schema, p)
  {
    forall p | p in predicates ensures Query.AcceptsTerm(schema, p) {
      var j :| 0 <= j < |predicates| && predicates[j] == p;
      assert Query.Terms(where, predicates)[|where| + j] == p;
    }
  }

  /** Every record of a page was asked for. */
  lemma PageIsSought(
    t: Tables, schema: BlobSchema, where: seq<(string, Py)>, predicates: seq<Query.Predicate>, orderBy: seq<Query.Order>,
    limit: int, after: Query.After, r: Record)
    requires Inv(t) && Installed(t, schema)
    requires Query.Accepts(schema, Query.Terms(where, predicates), orderBy, after, limit)
    requires RecordOf(t, r.id, true) == Success(r)
    requires Source(r) in Pages.Matching(Joined(t, schema.name), schema, Query.Terms(where, predicates), orderBy, after)
    ensures forall p | p in predicates :: Query.AcceptsTerm(schema, p)
    ensures Sought(schema, where, predicates, r) && Beyond(orderBy, after, r)
  {
    MatchingMeans(t, schema, where, predicates, orderBy, after, limit, r.id);
    RecordFits(t, schema, r.id);
  }

  /** A record that was asked for is on the page, or its row is not. */
  lemma PageIsFull(
    t: Tables, schema: BlobSchema, where: seq<(string, Py)>, predicates: seq<Query.Predicate>, orderBy: seq<Query.Order>,
    limit: int, after: Query.After, page: seq<Query.Row>, records: seq<Record>, id: Id)
    requires Inv(t) && Installed(t, schema) && Reads(t, page, records) && RecordOf(t, id, true).Success?
    requires Query.Accepts(schema, Query.Terms(where, predicates), orderBy, after, limit)
    ensures forall p | p in predicates :: Query.AcceptsTerm(schema, p)
    ensures var r := RecordOf(t, id, true).value;
      Sought(schema, where, predicates, r) && Beyond(orderBy, after, r) ==>
        && Source(r) in Pages.Matching(Joined(t, schema.name), schema, Query.Terms(where, predicates), orderBy, after)
        && (Source(r) in page ==> r in records)
  {
    MatchingMeans(t, schema, where, predicates, orderBy, after, limit, id);
    RecordFits(t, schema, id);
    if Source(RecordOf(t, id, true).value) in page { OnPage(t, page, records, id); }
  }

  /** The records of a page are what the caller asked for. */
  lemma PageMeans(
    t: Tables, schema: BlobSchema, where: seq<(string, Py)>, predicates: seq<Query.Predicate>, orderBy: seq<Query.Order>,
    limit: int, after: Query.After, records: seq<Record>)
    requires Inv(t) && Installed(t, schema) && Pages.ValidTable(schema, Joined(t, schema.name))
    requires Query.Accepts(schema, Query.Terms(where, predicates), orderBy, after, limit)
    requires Reads(t, Pages.Page(Joined(t, schema.name), schema, Query.Terms(where, predicates), orderBy, after, limit), records)
    ensures forall p | p in predicates :: Query.AcceptsTerm(schema, p)
    ensures PageAnswers(t, schema, where, predicates, orderBy, limit, after, records)
  {
    var terms, table := Query.Terms(where, predicates), Joined(t, schema.name);
    var page := Pages.Page(table, schema, terms, orderBy, after, limit);
    Pages.PageSize(table, schema, terms, orderBy, after, limit);
    PageInOrder(t, schema, orderBy, Pages.Matching(table, schema, terms, orderBy, after), limit, page, records);
    TermsAccepted(schema, where, predicates);
    forall r | r in records
      ensures RecordOf(t, r.id, true) == Success(r) && Sought(schema, where, predicates, r) && Beyond(orderBy, after, r)
    {
      PageIsSought(t, schema, where, predicates, orderBy, limit, after, r);
    }
    forall id | id in t.blobs && RecordOf(t, id, true).Success?
      ensures var r := RecordOf(t, id, true).value;
        Sought(schema, where, predicates, r) && Beyond(orderBy, after, r) ==>
          r in records || (|records| == limit && forall x | x in records :: Precedes(orderBy, x, r))
    {
      PageIsFull(t, schema, where, predicates, orderBy, limit, after, page, records, id);
    }
  }

  lemma OnPage(t: Tables, page: seq<Query.Row>, records: seq<Record>, id: Id)
    requires Reads(t, page, records) && RecordOf(t, id, true).Success? && RecordOf(t, id, true).value.id == id
    requires Source(RecordOf(t, id, true).value) in page
    ensures RecordOf(t, id, true).value in records
  {
    var r := RecordOf(t, id, true).value;
    var i :| 0 <= i < |page| && page[i] == Source(r);
    assert page[i].id == id;
    assert records[i] == r;
  }

  /** cursor: refused for a record of another version; otherwise what lies beyond it is what the record precedes. */
  lemma CursorMeans(schema: BlobSchema, orderBy: seq<Query.Order>, r: Record, other: Record)
    ensures Pages.CursorOf(Source(r), schema, orderBy).Success?
      <==> r.schemaName == schema.name && r.schemaVersion == schema.version && Query.ValidOrder(schema, orderBy)
    ensures Pages.CursorOf(Source(r), schema, orderBy).Success? ==>
      var after := Pages.CursorOf(Source(r), schema, orderBy).value;
      after.Cursor? && (Beyond(orderBy, after, other) <==> Precedes(orderBy, r, other))
  {
    if Pages.CursorOf(Source(r), schema, orderBy).Success? {
      Query.NormalOrderDeclared(schema, orderBy);
      FollowsMeans(orderBy, Query.Key(Query.NormalOrder(orderBy), Source(r)), other);
      PrecedesMeans(schema, orderBy, r, other);
    }
  }

  /** The records of the selected rows, each read by its id; none is ever missing. */
  method ReadPage(t: Tables, rows: seq<Query.Row>) returns (records: seq<Record>)
    requires Inv(t) && forall row | row in rows :: row.id in t.blobs && t.blobs[row.id].state.Ready? && row.id in t.metadata
    requires forall row | row in rows && row.id in t.blobs && row.id in t.metadata :: row == RowOf(t, row.id)
    ensures Reads(t, rows, records)
  {
    records := [];
    for i := 0 to |rows|
      invariant |records| == i
      invariant forall k | 0 <= k < i ::
        RecordOf(t, rows[k].id, true) == Success(records[k]) && Source(records[k]) == rows[k]
    {
      assert rows[i] in rows;
      RecordSource(t, rows[i].id);
      records := records + [RecordOf(t, rows[i].id, true).value];
    }
  }

  lemma PageRows(
    t: Tables, schema: BlobSchema, terms: seq<Query.Predicate>, orderBy: seq<Query.Order>, after: Query.After, limit: int)
    requires Pages.ValidTable(schema, Joined(t, schema.name)) && Query.Accepts(schema, terms, orderBy, after, limit)
    ensures var page := Pages.Page(Joined(t, schema.name), schema, terms, orderBy, after, limit);
      && (forall row | row in page :: row.id in t.blobs && t.blobs[row.id].state.Ready? && row.id in t.metadata)
      && (forall row | row in page && row.id in t.blobs && row.id in t.metadata :: row == RowOf(t, row.id))
  {
    PageIsSelected(Joined(t, schema.name), schema, terms, orderBy, after, limit);
  }

  /**
   * find: exactly the records of an installed schema that meet every condition and lie beyond the starting point, in the
   * requested order, up to the limit.
   */
  method FindRecords(
    t: Tables, schema: BlobSchema, where: seq<(string, Py)>, predicates: seq<Query.Predicate>, orderBy: seq<Query.Order>,
    limit: int, after: Query.After)
    returns (r: Result<seq<Record>, Error>)
    requires Inv(t)
    ensures r.Success? <==>
      CheckSchema(t, schema, false).Success? && Query.Accepts(schema, Query.Terms(where, predicates), orderBy, after, limit)
    ensures r.Success? ==>
      && (forall p | p in predicates :: Query.AcceptsTerm(schema, p))
      && PageAnswers(t, schema, where, predicates, orderBy, limit, after, r.value)
    ensures r.Success? ==>
      && Pages.ValidTable(schema, Joined(t, schema.name))
      && Reads(t, Pages.Page(Joined(t, schema.name), schema, Query.Terms(where, predicates), orderBy, after, limit), r.value)
  {
    var check := CheckSchema(t, schema, false);
    if check.Failure? {
      return Failure(check.error);
    }
    JoinedIsValid(t, schema);
    var rows := Pages.Find(Joined(t, schema.name), schema, where, predicates, orderBy, limit, after);
    if rows.Failure? {
      return Failure(rows.error);
    }
    PageRows(t, schema, Query.Terms(where, predicates), orderBy, after, limit);
    var records := ReadPage(t, rows.value);
    PageMeans(t, schema, where, predicates, orderBy, limit, after, records);
    return Success(records);
  }
}
