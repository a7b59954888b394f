/** Keyset pagination: find, cursor, and why successive pages read every matching row once. */
module Pages {
  import opened Wrappers
  import opened Errors
  import opened Ordering
  import opened Schemas
  import opened Query

  /** Rows have distinct ids, and those of the schema version hold values its columns accept. */
  ghost predicate ValidTable(schema: BlobSchema, table: set<Row>) {
    && (forall a, b | a in table && b in table && a.id == b.id :: a == b)
    && (forall row, n | row in table && InScope(schema, row) && n in schema.fields ::
          n in row.fields && Holds(schema.fields[n], row.fields[n]))
  }

  function RowLess(order: seq<Order>): (Row, Row) -> bool {
    (a: Row, b: Row) => KeyBefore(order, Key(order, a), Key(order, b))
  }

  lemma KeyLessTransitive(d: bool, a: Value, b: Value, c: Value)
    requires KeyLess(d, a, b) && KeyLess(d, b, c)
    ensures KeyLess(d, a, c)
  {
    if a.Text? && b.Text? && c.Text? {
      if d { TextLessTransitive(c.s, b.s, a.s); } else { TextLessTransitive(a.s, b.s, c.s); }
    }
  }

  lemma KeyLessIrreflexive(d: bool, a: Value)
    ensures !KeyLess(d, a, a)
  {
    if a.Text? { TextLessIrreflexive(a.s); }
  }

  lemma KeyLessConnected(d: bool, f: Field, a: Value, b: Value)
    requires Holds(f, a) && Holds(f, b) && a != b
    ensures KeyLess(d, a, b) || KeyLess(d, b, a)
  {
    if a.Text? && b.Text? { TextLessConnected(a.s, b.s); }
  }

  lemma KeyBeforeTransitive(order: seq<Order>, a: seq<Value>, b: seq<Value>, c: seq<Value>)
    requires |a| == |b| == |c| == |order|
    requires KeyBefore(order, a, b) && KeyBefore(order, b, c)
    ensures KeyBefore(order, a, c)
  {
    var i :| 0 <= i < |order| && a[..i] == b[..i] && KeyLess(order[i].descending, a[i], b[i]);
    var j :| 0 <= j < |order| && b[..j] == c[..j] && KeyLess(order[j].descending, b[j], c[j]);
    var k := if i < j then i else j;
    assert a[..k] == a[..i][..k] == b[..k] == b[..j][..k] == c[..k];
    if i < j {
      assert b[i] == b[..j][i] == c[i];
    } else if j < i {
      assert a[j] == a[..i][j] == b[j];
    } else {
      KeyLessTransitive(order[i].descending, a[i], b[i], c[i]);
    }
  }

  lemma KeyBeforeIrreflexive(order: seq<Order>, a: seq<Value>)
    requires |a| == |order|
    ensures !KeyBefore(order, a, a)
  {
    forall i | 0 <= i < |order| ensures !KeyLess(order[i].descending, a[i], a[i]) {
      KeyLessIrreflexive(order[i].descending, a[i]);
    }
  }

  lemma {:induction false} FirstDifference(a: seq<Value>, b: seq<Value>) returns (i: nat)
    requires |a| == |b| && a != b
    ensures i < |a| && a[..i] == b[..i] && a[i] != b[i]
  {
    if a[0] != b[0] {
      i := 0;
    } else {
      assert a == [a[0]] + a[1..] && b == [b[0]] + b[1..];
      var j := FirstDifference(a[1..], b[1..]);
      i := j + 1;
      assert a[..i] == [a[0]] + a[1..][..j] && b[..i] == [b[0]] + b[1..][..j];
    }
  }

  lemma KeyBeforeConnected(schema: BlobSchema, orderBy: seq<Order>, a: Row, b: Row)
    requires ValidOrder(schema, orderBy) && ValidTable(schema, {a, b}) && InScope(schema, a) && InScope(schema, b)
    requires a != b
    ensures var order := NormalOrder(orderBy);
      KeyBefore(order, Key(order, a), Key(order, b)) || KeyBefore(order, Key(order, b), Key(order, a))
  {
    NormalOrderDeclared(schema, orderBy);
    var order := NormalOrder(orderBy);
    var x, y := Key(order, a), Key(order, b);
    assert x[|order| - 1] != y[|order| - 1];
    var i := FirstDifference(x, y);
    var name := order[i].field;
    KeyLessConnected(order[i].descending, FieldOf(schema, name).value, x[i], y[i]);
  }

  /** The emitted ORDER BY is a strict total order on the rows in scope. */
  lemma RowOrderIsTotal(schema: BlobSchema, orderBy: seq<Order>, rows: set<Row>)
    requires ValidOrder(schema, orderBy) && ValidTable(schema, rows) && forall row | row in rows :: InScope(schema, row)
    ensures StrictTotal(RowLess(NormalOrder(orderBy)), rows)
  {
    var order := NormalOrder(orderBy);
    var less := RowLess(order);
    forall x | x in rows ensures !less(x, x) {
      KeyBeforeIrreflexive(order, Key(order, x));
    }
    forall x, y, z | x in rows && y in rows && z in rows && less(x, y) && less(y, z) ensures less(x, z) {
      KeyBeforeTransitive(order, Key(order, x), Key(order, y), Key(order, z));
    }
    forall x, y | x in rows && y in rows && x != y ensures less(x, y) || less(y, x) {
      KeyBeforeConnected(schema, orderBy, x, y);
    }
  }

  /** Every row the query is for, across all pages from a boundary on. */
  function Matching(table: set<Row>, schema: BlobSchema, terms: seq<Predicate>, orderBy: seq<Order>, after: After): set<Row>
    requires forall i | 0 <= i < |terms| :: AcceptsTerm(schema, terms[i])
    requires AcceptsAfter(schema, NormalOrder(orderBy), after)
  {
    set row | row in table && Selected(schema, terms, NormalOrder(orderBy), Boundary(after), row)
  }

  /** What one call of find returns. */
  function Page(table: set<Row>, schema: BlobSchema, terms: seq<Predicate>, orderBy: seq<Order>, after: After, limit: int)
    : seq<Row>
    requires ValidTable(schema, table) && Accepts(schema, terms, orderBy, after, limit)
  {
    var rows := Matching(table, schema, terms, orderBy, after);
    RowOrderIsTotal(schema, orderBy, rows);
    First(RowLess(NormalOrder(orderBy)), rows, limit)
  }

  /** Two rows that the named fields, none of them the id, do not tell apart. */
  predicate TiedOn(orderBy: seq<Order>, a: Row, b: Row) {
    forall o | o in orderBy :: o.field != "id" && ColumnOf(a, o.field) == ColumnOf(b, o.field)
  }

  /** Rows equal in every named field are sorted by id, and so are all rows when no field is named. */
  lemma TiesById(orderBy: seq<Order>, a: Row, b: Row)
    requires TiedOn(orderBy, a, b) && RowLess(NormalOrder(orderBy))(a, b)
    ensures TextLess(a.id, b.id)
  {
    var order := NormalOrder(orderBy);
    assert orderBy != [] ==> orderBy[|orderBy| - 1] in orderBy;
    assert order == orderBy + [Order("id", false)];
    var x, y := Key(order, a), Key(order, b);
    var i :| 0 <= i < |order| && x[..i] == y[..i] && KeyLess(order[i].descending, x[i], y[i]);
    if i < |orderBy| {
      assert orderBy[i] in orderBy;
      KeyLessIrreflexive(order[i].descending, x[i]);
    }
  }

  /** Store.find over the joined rows: the compiled query, run by SQLite. */
  method Find(
    table: set<Row>, schema: BlobSchema, where: seq<(string, Py)>, predicates: seq<Predicate>, orderBy: seq<Order>,
    limit: int, after: After)
    returns (r: Result<seq<Row>, Error>)
    requires ValidTable(schema, table)
    ensures r.Success? <==> Accepts(schema, Terms(where, predicates), orderBy, after, limit)
    ensures r.Success? ==> r.value == Page(table, schema, Terms(where, predicates), orderBy, after, limit)
    ensures r.Success? ==> forall i, j | 0 <= i < j < |r.value| && TiedOn(orderBy, r.value[i], r.value[j]) ::
      TextLess(r.value[i].id, r.value[j].id)
  {
    var compiled := CompileQuery(schema, where, predicates, orderBy, after, limit);
    if compiled.Failure? {
      return Failure(compiled.error);
    }
    var q := compiled.value;
    var rows := set row | row in table && Matches(q, row);
    assert rows == Matching(table, schema, Terms(where, predicates), orderBy, after);
    RowOrderIsTotal(schema, orderBy, rows);
    FirstSelects(RowLess(q.order), rows, limit);
    var page := First(RowLess(q.order), rows, q.params[|q.params| - 1].i);
    forall i, j | 0 <= i < j < |page| && TiedOn(orderBy, page[i], page[j]) ensures TextLess(page[i].id, page[j].id) {
      TiesById(orderBy, page[i], page[j]);
    }
    return Success(page);
  }

  /** Store.cursor: the position just after a returned record. */
  function CursorOf(row: Row, schema: BlobSchema, orderBy: seq<Order>): Result<After, Error> {
    if row.schemaName != schema.name || row.blobVersion != schema.version then Failure(BadCursor)
    else if !ValidOrder(schema, orderBy) then Failure(BadOrder)
    else
      var order := NormalOrder(orderBy);
      Success(Cursor(schema.name, schema.version, order, Key(order, row)))
  }

  /** A cursor taken from any row in scope is accepted by the query that produced it. */
  lemma CursorIsAccepted(row: Row, schema: BlobSchema, orderBy: seq<Order>)
    requires ValidOrder(schema, orderBy) && ValidTable(schema, {row}) && InScope(schema, row)
    ensures CursorOf(row, schema, orderBy).Success?
    ensures AcceptsAfter(schema, NormalOrder(orderBy), CursorOf(row, schema, orderBy).value)
  {
    NormalOrderDeclared(schema, orderBy);
    var order := NormalOrder(orderBy);
    forall i | 0 <= i < |order|
      ensures Holds(FieldOf(schema, order[i].field).value, Key(order, row)[i])
    {
      assert order[i].field != "id" ==> order[i].field in row.fields;
    }
  }

  /** The cursor of a selected row selects exactly the rows after it. */
  lemma CursorSelects(
    table: set<Row>, schema: BlobSchema, terms: seq<Predicate>, orderBy: seq<Order>, after: After, limit: int, last: Row)
    requires ValidTable(schema, table) && Accepts(schema, terms, orderBy, after, limit)
    requires last in Matching(table, schema, terms, orderBy, after)
    ensures var next := CursorOf(last, schema, orderBy);
      && next.Success? && Accepts(schema, terms, orderBy, next.value, limit)
      && forall row :: row in Matching(table, schema, terms, orderBy, next.value)
           <==> row in Matching(table, schema, terms, orderBy, after) && RowLess(NormalOrder(orderBy))(last, row)
  {
    CursorIsAccepted(last, schema, orderBy);
    var order, next := NormalOrder(orderBy), CursorOf(last, schema, orderBy).value;
    forall row | row in Matching(table, schema, terms, orderBy, next)
      ensures row in Matching(table, schema, terms, orderBy, after)
    {
      if Boundary(after).Some? {
        KeyBeforeTransitive(order, Boundary(after).value, Key(order, last), Key(order, row));
      }
    }
  }

  /** A page takes the first rows in order, as many as there are up to the limit. */
  lemma PageSize(table: set<Row>, schema: BlobSchema, terms: seq<Predicate>, orderBy: seq<Order>, after: After, limit: int)
    requires ValidTable(schema, table) && Accepts(schema, terms, orderBy, after, limit)
    ensures var rows := Matching(table, schema, terms, orderBy, after);
      var page := Page(table, schema, terms, orderBy, after, limit);
      && StrictTotal(RowLess(NormalOrder(orderBy)), rows)
      && page == First(RowLess(NormalOrder(orderBy)), rows, limit)
      && |page| == (if limit < |rows| then limit else |rows|)
      && Elements(page) <= rows
  {
    var rows := Matching(table, schema, terms, orderBy, after);
    RowOrderIsTotal(schema, orderBy, rows);
    FirstSelects(RowLess(NormalOrder(orderBy)), rows, limit);
  }

  /** The cursor of a page's last row leaves exactly the other rows for later pages. */
  lemma PageSplits(
    table: set<Row>, schema: BlobSchema, terms: seq<Predicate>, orderBy: seq<Order>, after: After, limit: int, last: Row)
    requires ValidTable(schema, table) && Accepts(schema, terms, orderBy, after, limit)
    requires var page := Page(table, schema, terms, orderBy, after, limit);
      page != [] && last == page[|page| - 1]
    ensures var next := CursorOf(last, schema, orderBy);
      var rows := Matching(table, schema, terms, orderBy, after);
      && next.Success? && Accepts(schema, terms, orderBy, next.value, limit)
      && Matching(table, schema, terms, orderBy, next.value)
         == rows - Elements(Page(table, schema, terms, orderBy, after, limit))
      && Matching(table, schema, terms, orderBy, next.value) < rows
  {
    var page := Page(table, schema, terms, orderBy, after, limit);
    PageSize(table, schema, terms, orderBy, after, limit);
    assert last in Elements(page);
    CursorSelects(table, schema, terms, orderBy, after, limit, last);
    var next := CursorOf(last, schema, orderBy).value;
    CutAtLast(
      RowLess(NormalOrder(orderBy)), Matching(table, schema, terms, orderBy, after),
      Matching(table, schema, terms, orderBy, next), limit, page);
  }

  lemma CutAtLast(less: (Row, Row) -> bool, rows: set<Row>, later: set<Row>, limit: nat, page: seq<Row>)
    requires StrictTotal(less, rows) && page == First(less, rows, limit) && page != [] && limit > 0
    requires forall row :: row in later <==> row in rows && less(page[|page| - 1], row)
    ensures later == rows - Elements(page) && later < rows
  {
    FirstSelects(less, rows, limit);
    assert page[0] in Elements(page);
    FirstCutsAtLast(less, rows, limit, later);
  }

  /** Calling find again with the cursor of the last row, until a page is empty. */
  ghost function AllPages(
    table: set<Row>, schema: BlobSchema, terms: seq<Predicate>, orderBy: seq<Order>, after: After, limit: int): seq<seq<Row>>
    requires ValidTable(schema, table) && Accepts(schema, terms, orderBy, after, limit)
    decreases Matching(table, schema, terms, orderBy, after)
  {
    var page := Page(table, schema, terms, orderBy, after, limit);
    if page == [] then [] else
      PageSplits(table, schema, terms, orderBy, after, limit, page[|page| - 1]);
      var next := CursorOf(page[|page| - 1], schema, orderBy).value;
      [page] + AllPages(table, schema, terms, orderBy, next, limit)
  }

  function Flatten(pages: seq<seq<Row>>): seq<Row> {
    if pages == [] then [] else pages[0] + Flatten(pages[1..])
  }

  /** Reading page by page, with any limit, yields the full sorted list: no row missed, none repeated. */
  lemma {:induction false} PagesCompose(
    table: set<Row>, schema: BlobSchema, terms: seq<Predicate>, orderBy: seq<Order>, after: After, limit: int)
    requires ValidTable(schema, table) && Accepts(schema, terms, orderBy, after, limit)
    ensures StrictTotal(RowLess(NormalOrder(orderBy)), Matching(table, schema, terms, orderBy, after))
    ensures Flatten(AllPages(table, schema, terms, orderBy, after, limit))
      == Sorted(RowLess(NormalOrder(orderBy)), Matching(table, schema, terms, orderBy, after))
    decreases Matching(table, schema, terms, orderBy, after)
  {
    var rows := Matching(table, schema, terms, orderBy, after);
    var page := Page(table, schema, terms, orderBy, after, limit);
    var less := RowLess(NormalOrder(orderBy));
    RowOrderIsTotal(schema, orderBy, rows);
    PageSize(table, schema, terms, orderBy, after, limit);
    if page != [] {
      PageSplits(table, schema, terms, orderBy, after, limit, page[|page| - 1]);
      var next := CursorOf(page[|page| - 1], schema, orderBy).value;
      PagesCompose(table, schema, terms, orderBy, next, limit);
      FirstThenRest(less, rows, limit);
      var pages := AllPages(table, schema, terms, orderBy, after, limit);
      assert pages == [page] + AllPages(table, schema, terms, orderBy, next, limit);
      assert pages[1..] == AllPages(table, schema, terms, orderBy, next, limit);
    }
  }
}
