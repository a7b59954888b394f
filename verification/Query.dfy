/** The keyset query compiler: the WHERE clause it emits, SQL's meaning of that clause, and what it must select. */
module Query {
  import opened Wrappers
  import opened Errors
  import opened Ordering
  import opened Schemas

  // ---------------------------------------------------------------- inputs

  datatype Op = Eq | Ne | Lt | Lte | Gt | Gte | In | NotIn | IsNull | NotNull | Unsupported(text: string)

  datatype Operand = Scalar(v: Py) | Sequence(vs: seq<Py>)

  datatype Predicate = Predicate(field: string, op: Op, operand: Operand)

  datatype Order = Order(field: string, descending: bool)

  datatype After =
    | Start
    | AfterId(id: string)
    | Cursor(schemaName: string, schemaVersion: nat, order: seq<Order>, values: seq<Value>)

  const BY_ID := Order("id", false)

  function FieldOf(schema: BlobSchema, name: string): Result<Field, Error> {
    if name == "id" then Success(Field(KText, true, false))
    else if name in schema.fields then Success(schema.fields[name])
    else Failure(UndeclaredField)
  }

  /** One row of ms_blobs joined with its metadata row. */
  datatype Row = Row(id: string, ready: bool, schemaName: string, blobVersion: nat, metaVersion: nat, fields: Values)

  function ColumnOf(row: Row, name: string): Value {
    if name == "id" then Text(row.id) else if name in row.fields then row.fields[name] else Null
  }

  // ---------------------------------------------------------------- SQL

  /** Order within one storage class; checks and normalization keep a column and its operands in one class. */
  predicate SqlLess(a: Value, b: Value) {
    match (a, b)
    case (Text(x), Text(y)) => TextLess(x, y)
    case (Int(x), Int(y)) => x < y
    case (Real(x), Real(y)) => x < y
    case (Stamp(x), Stamp(y)) => x < y
    case _ => false
  }

  datatype Tri = Yes | No | Unknown

  function Truth(b: bool): Tri { if b then Yes else No }
  function Not3(a: Tri): Tri { match a case Yes => No case No => Yes case Unknown => Unknown }
  function And3(a: Tri, b: Tri): Tri { if a.No? || b.No? then No else if a.Yes? && b.Yes? then Yes else Unknown }
  function Or3(a: Tri, b: Tri): Tri { if a.Yes? || b.Yes? then Yes else if a.No? && b.No? then No else Unknown }

  datatype Column = BlobSchemaName | BlobSchemaVersion | MetaSchemaVersion | Data(name: string)

  function Fetch(row: Row, col: Column): Value {
    match col
    case BlobSchemaName => Text(row.schemaName)
    case BlobSchemaVersion => Int(row.blobVersion)
    case MetaSchemaVersion => Int(row.metaVersion)
    case Data(name) => ColumnOf(row, name)
  }

  datatype Expr =
    | IsReady                                                // b.state='ready'
    | Test(col: Column, op: Op)                              // col op ?
    | NullTest(col: Column, negated: bool)                   // col IS [NOT] NULL
    | Member(col: Column, count: nat, negated: bool)         // col [NOT] IN (?,...)
    | Is(col: Column)                                        // col IS ?
    | Zero                                                   // 0
    | All(parts: seq<Expr>)                                  // (... AND ...)
    | Any(parts: seq<Expr>)                                  // (... OR ...)

  /** How many positional parameters an expression binds. */
  function Slots(e: Expr): nat
    decreases e, 0
  {
    match e
    case Test(_, _) => 1
    case Member(_, n, _) => n
    case Is(_) => 1
    case All(parts) => SlotsOf(parts)
    case Any(parts) => SlotsOf(parts)
    case _ => 0
  }

  function SlotsOf(parts: seq<Expr>): nat
    decreases parts, 1
  {
    if parts == [] then 0 else Slots(parts[0]) + SlotsOf(parts[1..])
  }

  function Compare(op: Op, a: Value, b: Value): Tri {
    if a.Null? || b.Null? then Unknown else
      match op
      case Eq => Truth(a == b)
      case Ne => Truth(a != b)
      case Lt => Truth(SqlLess(a, b))
      case Lte => Truth(SqlLess(a, b) || a == b)
      case Gt => Truth(SqlLess(b, a))
      case Gte => Truth(SqlLess(b, a) || a == b)
      case _ => Unknown
  }

  function InList(a: Value, vs: seq<Value>): Tri {
    if vs == [] then No else Or3(Compare(Eq, a, vs[0]), InList(a, vs[1..]))
  }

  /** Three-valued evaluation; parameters are consumed left to right. */
  function Eval(e: Expr, row: Row, ps: seq<Value>): Tri
    requires |ps| == Slots(e)
    decreases e, 0
  {
    match e
    case IsReady => Truth(row.ready)
    case Test(col, op) => Compare(op, Fetch(row, col), ps[0])
    case NullTest(col, negated) => Truth(Fetch(row, col).Null? != negated)
    case Member(col, _, negated) => if negated then Not3(InList(Fetch(row, col), ps)) else InList(Fetch(row, col), ps)
    case Is(col) => Truth(Fetch(row, col) == ps[0])
    case Zero => No
    case All(parts) => EvalAll(parts, row, ps)
    case Any(parts) => EvalAny(parts, row, ps)
  }

  function EvalAll(parts: seq<Expr>, row: Row, ps: seq<Value>): Tri
    requires |ps| == SlotsOf(parts)
    decreases parts, 1
  {
    if parts == [] then Yes else
      var n := Slots(parts[0]);
      And3(Eval(parts[0], row, ps[..n]), EvalAll(parts[1..], row, ps[n..]))
  }

  function EvalAny(parts: seq<Expr>, row: Row, ps: seq<Value>): Tri
    requires |ps| == SlotsOf(parts)
    decreases parts, 1
  {
    if parts == [] then No else
      var n := Slots(parts[0]);
      Or3(Eval(parts[0], row, ps[..n]), EvalAny(parts[1..], row, ps[n..]))
  }

  lemma {:induction false} SlotsAppend(parts: seq<Expr>, e: Expr)
    ensures SlotsOf(parts + [e]) == SlotsOf(parts) + Slots(e)
  {
    if parts != [] {
      assert (parts + [e])[1..] == parts[1..] + [e];
      SlotsAppend(parts[1..], e);
    }
  }

  lemma {:induction false} EvalAllAppend(parts: seq<Expr>, e: Expr, row: Row, ps: seq<Value>, qs: seq<Value>)
    requires |ps| == SlotsOf(parts) && |qs| == Slots(e)
    ensures SlotsOf(parts + [e]) == |ps + qs|
    ensures EvalAll(parts + [e], row, ps + qs) == And3(EvalAll(parts, row, ps), Eval(e, row, qs))
  {
    SlotsAppend(parts, e);
    if parts == [] {
      assert ps + qs == qs && qs[..Slots(e)] == qs && parts + [e] == [e] && [e][1..] == [];
    } else {
      var n := Slots(parts[0]);
      assert (parts + [e])[1..] == parts[1..] + [e];
      assert (ps + qs)[..n] == ps[..n] && (ps + qs)[n..] == ps[n..] + qs;
      EvalAllAppend(parts[1..], e, row, ps[n..], qs);
    }
  }

  lemma {:induction false} EvalAnyAppend(parts: seq<Expr>, e: Expr, row: Row, ps: seq<Value>, qs: seq<Value>)
    requires |ps| == SlotsOf(parts) && |qs| == Slots(e)
    ensures SlotsOf(parts + [e]) == |ps + qs|
    ensures EvalAny(parts + [e], row, ps + qs) == Or3(EvalAny(parts, row, ps), Eval(e, row, qs))
  {
    SlotsAppend(parts, e);
    if parts == [] {
      assert ps + qs == qs && qs[..Slots(e)] == qs && parts + [e] == [e] && [e][1..] == [];
    } else {
      var n := Slots(parts[0]);
      assert (parts + [e])[1..] == parts[1..] + [e];
      assert (ps + qs)[..n] == ps[..n] && (ps + qs)[n..] == ps[n..] + qs;
      EvalAnyAppend(parts[1..], e, row, ps[n..], qs);
    }
  }

  lemma {:induction false} InListMeaning(a: Value, vs: seq<Value>)
    requires forall v | v in vs :: !v.Null?
    ensures vs != [] && a.Null? ==> InList(a, vs) == Unknown
    ensures !a.Null? ==> InList(a, vs) == Truth(a in vs)
  {
    if vs != [] {
      InListMeaning(a, vs[1..]);
    }
  }

  // ---------------------------------------------------------------- what a query selects

  function Terms(where: seq<(string, Py)>, predicates: seq<Predicate>): seq<Predicate> {
    seq(|where|, i requires 0 <= i < |where| => Predicate(where[i].0, Eq, Scalar(where[i].1))) + predicates
  }

  predicate AcceptsTerm(schema: BlobSchema, term: Predicate) {
    FieldOf(schema, term.field).Success? &&
    var f := FieldOf(schema, term.field).value;
    match term.op
    case IsNull => term.operand == Scalar(PyNone)
    case NotNull => term.operand == Scalar(PyNone)
    case In => AcceptsList(f, term.operand)
    case NotIn => AcceptsList(f, term.operand)
    case Unsupported(_) => false
    case _ =>
      term.operand.Scalar? &&
      if term.operand.v.PyNone? then term.op.Eq? || term.op.Ne? else Normalize(f, term.operand.v).Success?
  }

  predicate AcceptsList(f: Field, operand: Operand) {
    && operand.Sequence?
    && 1 <= |operand.vs| <= 100
    && (forall v | v in operand.vs :: !v.PyNone? && Normalize(f, v).Success?)
  }

  /** The documented meaning of one predicate; null rows fail every comparison and membership test. */
  predicate Satisfies(schema: BlobSchema, term: Predicate, row: Row)
    requires AcceptsTerm(schema, term)
  {
    var x := ColumnOf(row, term.field);
    var f := FieldOf(schema, term.field).value;
    match term.op
    case IsNull => x.Null?
    case NotNull => !x.Null?
    case In => !x.Null? && exists v | v in term.operand.vs :: Normalize(f, v).value == x
    case NotIn => !x.Null? && forall v | v in term.operand.vs :: Normalize(f, v).value != x
    case Unsupported(_) => false
    case _ =>
      if term.operand.v.PyNone? then x.Null? == term.op.Eq? else
        var y := Normalize(f, term.operand.v).value;
        !x.Null? &&
        match term.op
        case Eq => x == y
        case Ne => x != y
        case Lt => SqlLess(x, y)
        case Lte => SqlLess(x, y) || x == y
        case Gt => SqlLess(y, x)
        case _ => SqlLess(y, x) || x == y
  }

  predicate ValidOrder(schema: BlobSchema, orderBy: seq<Order>) {
    && |orderBy| <= 8
    && (forall i | 0 <= i < |orderBy| :: FieldOf(schema, orderBy[i].field).Success?)
    && (forall i, j | 0 <= i < j < |orderBy| :: orderBy[i].field != orderBy[j].field)
    && (forall i | 0 <= i < |orderBy| - 1 :: orderBy[i].field != "id")
  }

  /** The order in force: the requested one, with an ascending id tie-breaker unless id is already last. */
  function NormalOrder(orderBy: seq<Order>): seq<Order> {
    if orderBy == [] then [BY_ID]
    else if orderBy[|orderBy| - 1].field == "id" then orderBy
    else orderBy + [BY_ID]
  }

  /** Ascending nulls sort first, descending nulls last. */
  predicate KeyLess(descending: bool, a: Value, b: Value) {
    var lo, hi := if descending then b else a, if descending then a else b;
    if lo.Null? then !hi.Null? else !hi.Null? && SqlLess(lo, hi)
  }

  function Key(order: seq<Order>, row: Row): seq<Value> {
    seq(|order|, i requires 0 <= i < |order| => ColumnOf(row, order[i].field))
  }

  /** The order that ORDER BY sorts keys by: decided at the first place where they differ. */
  predicate KeyBefore(order: seq<Order>, a: seq<Value>, b: seq<Value>)
    requires |a| == |b| == |order|
  {
    exists i | 0 <= i < |order| :: a[..i] == b[..i] && KeyLess(order[i].descending, a[i], b[i])
  }

  predicate AcceptsAfter(schema: BlobSchema, order: seq<Order>, after: After) {
    match after
    case Start => true
    case AfterId(_) => order == [BY_ID]
    case Cursor(name, version, cursorOrder, values) =>
      && name == schema.name && version == schema.version && cursorOrder == order && |values| == |order|
      && forall i | 0 <= i < |order| ::
           FieldOf(schema, order[i].field).Success? && Holds(FieldOf(schema, order[i].field).value, values[i])
  }

  function Boundary(after: After): Option<seq<Value>> {
    match after
    case Start => None
    case AfterId(id) => Some([Text(id)])
    case Cursor(_, _, _, values) => Some(values)
  }

  predicate Accepts(schema: BlobSchema, terms: seq<Predicate>, orderBy: seq<Order>, after: After, limit: int) {
    && 1 <= limit <= 1000
    && |terms| <= 64
    && (forall i | 0 <= i < |terms| :: AcceptsTerm(schema, terms[i]))
    && ValidOrder(schema, orderBy)
    && AcceptsAfter(schema, NormalOrder(orderBy), after)
  }

  predicate InScope(schema: BlobSchema, row: Row) {
    row.ready && row.schemaName == schema.name && row.blobVersion == schema.version && row.metaVersion == schema.version
  }

  /** The rows a query is for, ignoring its limit. */
  predicate Selected(schema: BlobSchema, terms: seq<Predicate>, order: seq<Order>, boundary: Option<seq<Value>>, row: Row)
    requires forall i | 0 <= i < |terms| :: AcceptsTerm(schema, terms[i])
    requires boundary.Some? ==> |boundary.value| == |order|
  {
    && InScope(schema, row)
    && (forall i | 0 <= i < |terms| :: Satisfies(schema, terms[i], row))
    && (boundary.Some? ==> KeyBefore(order, boundary.value, Key(order, row)))
  }

  // ---------------------------------------------------------------- the compiler

  datatype Query = Query(clauses: seq<Expr>, order: seq<Order>, params: seq<Value>)

  /** WHERE holds only where it evaluates to true; the last parameter is the limit. */
  predicate Matches(q: Query, row: Row)
    requires |q.params| == SlotsOf(q.clauses) + 1
  {
    EvalAll(q.clauses, row, q.params[..|q.params| - 1]) == Yes
  }

  method NormalizeAll(f: Field, vs: seq<Py>) returns (r: Result<seq<Value>, Error>)
    ensures r.Success? <==> forall v | v in vs :: Normalize(f, v).Success?
    ensures r.Success? ==> |r.value| == |vs| && forall i | 0 <= i < |vs| :: Normalize(f, vs[i]) == Success(r.value[i])
  {
    var out: seq<Value> := [];
    for i := 0 to |vs|
      invariant |out| == i
      invariant forall k | 0 <= k < i :: Normalize(f, vs[k]) == Success(out[k])
    {
      var n := Normalize(f, vs[i]);
      if n.Failure? {
        return Failure(BadValue);
      }
      out := out + [n.value];
    }
    return Success(out);
  }

  /** One predicate's clause and operands. */
  method CompileTerm(schema: BlobSchema, term: Predicate) returns (r: Result<(Expr, seq<Value>), Error>)
    ensures r.Success? <==> AcceptsTerm(schema, term)
    ensures r.Success? ==>
      && |r.value.1| == Slots(r.value.0)
      && forall row: Row :: Eval(r.value.0, row, r.value.1) == Yes <==> Satisfies(schema, term, row)
  {
    var spec := FieldOf(schema, term.field);
    if spec.Failure? {
      return Failure(UndeclaredField);
    }
    var f, col := spec.value, Data(term.field);
    match term.op {
      case IsNull | NotNull =>
        if term.operand != Scalar(PyNone) {
          return Failure(BadPredicate);
        }
        return Success((NullTest(col, term.op.NotNull?), []));
      case In | NotIn =>
        if !term.operand.Sequence? || !(1 <= |term.operand.vs| <= 100) {
          return Failure(BadPredicate);
        }
        if exists v | v in term.operand.vs :: v.PyNone? {
          return Failure(BadPredicate);
        }
        var values := NormalizeAll(f, term.operand.vs);
        if values.Failure? {
          return Failure(values.error);
        }
        var vs := values.value;
        r := Success((Member(col, |vs|, term.op.NotIn?), vs));
        forall row: Row ensures Eval(r.value.0, row, vs) == Yes <==> Satisfies(schema, term, row) {
          var x := ColumnOf(row, term.field);
          InListMeaning(x, vs);
          assert x in vs <==> exists v | v in term.operand.vs :: Normalize(f, v).value == x;
        }
      case Unsupported(_) =>
        return Failure(BadPredicate);
      case _ =>
        if term.operand.Sequence? {
          return Failure(BadValue);
        }
        if term.operand.v.PyNone? {
          if !term.op.Eq? && !term.op.Ne? {
            return Failure(BadPredicate);
          }
          return Success((NullTest(col, term.op.Ne?), []));
        }
        var value := Normalize(f, term.operand.v);
        if value.Failure? {
          return Failure(BadValue);
        }
        return Success((Test(col, term.op), [value.value]));
    }
  }

  method NormalizeOrder(schema: BlobSchema, orderBy: seq<Order>) returns (r: Result<seq<Order>, Error>)
    ensures r.Success? <==> ValidOrder(schema, orderBy)
    ensures r.Success? ==> r.value == NormalOrder(orderBy)
    ensures r.Success? ==>
      r.value == if orderBy != [] && orderBy[|orderBy| - 1].field == "id" then orderBy else orderBy + [Order("id", false)]
  {
    if |orderBy| > 8 {
      return Failure(BadOrder);
    }
    var order := if orderBy == [] then [BY_ID] else orderBy;
    var names: set<string> := {};
    for i := 0 to |order|
      invariant names == set k | 0 <= k < i :: order[k].field
      invariant forall k | 0 <= k < i :: FieldOf(schema, order[k].field).Success?
      invariant forall k, l | 0 <= k < l < i :: order[k].field != order[l].field
      invariant forall k | 0 <= k < i && k != |order| - 1 :: order[k].field != "id"
    {
      var item := order[i];
      if FieldOf(schema, item.field).Failure? {
        return Failure(UndeclaredField);
      }
      if item.field in names || (item.field == "id" && i != |order| - 1) {
        return Failure(BadOrder);
      }
      names := names + {item.field};
    }
    assert "id" in names <==> order[|order| - 1].field == "id";
    return Success(if "id" in names then order else order + [BY_ID]);
  }

  /** The strict comparison at one place of the order; none is possible after a descending null. */
  function Step(item: Order, value: Value): Expr {
    var col := Data(item.field);
    if value.Null? then (if item.descending then Zero else NullTest(col, true))
    else if item.descending then Any([Test(col, Lt), NullTest(col, false)])
    else Test(col, Gt)
  }

  function StepParams(value: Value): seq<Value> {
    if value.Null? then [] else [value]
  }

  lemma StepMeaning(item: Order, value: Value, row: Row)
    ensures Slots(Step(item, value)) == |StepParams(value)|
    ensures Eval(Step(item, value), row, StepParams(value)) == Yes
      <==> KeyLess(item.descending, value, ColumnOf(row, item.field))
  {
    if !value.Null? && item.descending {
      var lt, nul := Test(Data(item.field), Lt), NullTest(Data(item.field), false);
      assert [lt, nul][1..] == [nul] && [nul][1..] == [];
      assert SlotsOf([nul]) == 0 && SlotsOf([lt, nul]) == 1;
      assert [value][..1] == [value] && [value][1..] == [];
      assert EvalAny([nul], row, []) == Eval(nul, row, []);
      assert EvalAny([lt, nul], row, [value]) == Or3(Eval(lt, row, [value]), Eval(nul, row, []));
    }
  }

  /** One more equality conjunct extends the matched prefix by one place. */
  lemma PrefixGrows(order: seq<Order>, values: seq<Value>, pieces: seq<Expr>, params: seq<Value>, k: nat, row: Row)
    requires |values| == |order| && k < |order| && |params| == SlotsOf(pieces)
    requires EvalAll(pieces, row, params) == Yes <==> values[..k] == Key(order, row)[..k]
    ensures var piece := Is(Data(order[k].field));
      && |params + [values[k]]| == SlotsOf(pieces + [piece])
      && (EvalAll(pieces + [piece], row, params + [values[k]]) == Yes <==> values[..k + 1] == Key(order, row)[..k + 1])
  {
    var key := Key(order, row);
    EvalAllAppend(pieces, Is(Data(order[k].field)), row, params, [values[k]]);
    assert values[..k + 1] == values[..k] + [values[k]] && key[..k + 1] == key[..k] + [key[k]];
  }

  lemma BranchMeaning(order: seq<Order>, values: seq<Value>, pieces: seq<Expr>, params: seq<Value>, i: nat, row: Row)
    requires |values| == |order| && i < |order| && |params| == SlotsOf(pieces)
    requires EvalAll(pieces, row, params) == Yes <==> values[..i] == Key(order, row)[..i]
    ensures var branch := All(pieces + [Step(order[i], values[i])]);
      && |params + StepParams(values[i])| == Slots(branch)
      && (Eval(branch, row, params + StepParams(values[i])) == Yes
          <==> values[..i] == Key(order, row)[..i] && KeyLess(order[i].descending, values[i], Key(order, row)[i]))
  {
    StepMeaning(order[i], values[i], row);
    EvalAllAppend(pieces, Step(order[i], values[i]), row, params, StepParams(values[i]));
  }

  const ANY_ROW := Row("", false, "", 0, 0, map[])

  /** The equality prefix and strict step of one branch. */
  method CompileBranch(order: seq<Order>, values: seq<Value>, i: nat) returns (branch: Expr, params: seq<Value>)
    requires |values| == |order| && i < |order|
    ensures |params| == Slots(branch)
    ensures forall row: Row ::
      Eval(branch, row, params) == Yes
      <==> values[..i] == Key(order, row)[..i] && KeyLess(order[i].descending, values[i], Key(order, row)[i])
  {
    var pieces: seq<Expr> := [];
    params := [];
    for k := 0 to i
      invariant |params| == SlotsOf(pieces)
      invariant forall row: Row :: EvalAll(pieces, row, params) == Yes <==> values[..k] == Key(order, row)[..k]
    {
      PrefixGrows(order, values, pieces, params, k, ANY_ROW);
      forall row: Row { PrefixGrows(order, values, pieces, params, k, row); }
      pieces, params := pieces + [Is(Data(order[k].field))], params + [values[k]];
    }
    BranchMeaning(order, values, pieces, params, i, ANY_ROW);
    forall row: Row { BranchMeaning(order, values, pieces, params, i, row); }
    branch, params := All(pieces + [Step(order[i], values[i])]), params + StepParams(values[i]);
  }

  /** The cursor clause: one branch per place of the order, true for exactly the rows strictly after the cursor. */
  method CompileCursor(order: seq<Order>, values: seq<Value>) returns (clause: Expr, params: seq<Value>)
    requires |values| == |order|
    ensures |params| == Slots(clause)
    ensures forall row: Row :: Eval(clause, row, params) == Yes <==> KeyBefore(order, values, Key(order, row))
  {
    var branches: seq<Expr> := [];
    params := [];
    for i := 0 to |order|
      invariant |params| == SlotsOf(branches)
      invariant forall row: Row ::
        EvalAny(branches, row, params) == Yes
        <==> exists k | 0 <= k < i ::
               values[..k] == Key(order, row)[..k] && KeyLess(order[k].descending, values[k], Key(order, row)[k])
    {
      var branch, more := CompileBranch(order, values, i);
      forall row: Row
        ensures |params + more| == SlotsOf(branches + [branch])
        ensures EvalAny(branches + [branch], row, params + more)
          == Or3(EvalAny(branches, row, params), Eval(branch, row, more))
      {
        EvalAnyAppend(branches, branch, row, params, more);
      }
      SlotsAppend(branches, branch);
      branches, params := branches + [branch], params + more;
    }
    clause := Any(branches);
  }

  /** The boundary a cursor stands for, once it is checked against the query. */
  method CheckCursor(schema: BlobSchema, order: seq<Order>, after: After) returns (r: Result<Option<seq<Value>>, Error>)
    requires order != [] && forall i | 0 <= i < |order| :: FieldOf(schema, order[i].field).Success?
    ensures r.Success? <==> AcceptsAfter(schema, order, after)
    ensures r.Success? ==> r.value == Boundary(after)
    ensures r.Success? && r.value.Some? ==> |r.value.value| == |order|
  {
    if after.Start? {
      return Success(None);
    }
    var cursor := after;
    if after.AfterId? && order == [BY_ID] {
      cursor := Cursor(schema.name, schema.version, order, [Text(after.id)]);
    }
    if !cursor.Cursor? || cursor.schemaName != schema.name || cursor.schemaVersion != schema.version
      || cursor.order != order || |cursor.values| != |order|
    {
      return Failure(BadCursor);
    }
    var values: seq<Value> := [];
    for i := 0 to |order|
      invariant values == cursor.values[..i]
      invariant forall k | 0 <= k < i :: Holds(FieldOf(schema, order[k].field).value, cursor.values[k])
    {
      var f, value := FieldOf(schema, order[i].field).value, cursor.values[i];
      FromSqlRoundTrip(f, value);
      if value.Null? {
        if order[i].field == "id" || f.required {
          return Failure(BadCursor);
        }
        values := values + [value];
      } else {
        var input := FromSql(f, value);
        if input.Failure? {
          return Failure(BadValue);
        }
        var again := Normalize(f, input.value);
        if again.Failure? {
          return Failure(BadValue);
        }
        values := values + [again.value];
      }
    }
    assert values == cursor.values;
    return Success(Some(values));
  }

  lemma NormalOrderDeclared(schema: BlobSchema, orderBy: seq<Order>)
    requires ValidOrder(schema, orderBy)
    ensures var order := NormalOrder(orderBy);
      && order != [] && order[|order| - 1].field == "id"
      && (forall i | 0 <= i < |order| :: FieldOf(schema, order[i].field).Success?)
  {
  }

  /** The loop over predicates: scope first, then one clause per predicate. */
  method CompileTerms(schema: BlobSchema, terms: seq<Predicate>) returns (r: Result<(seq<Expr>, seq<Value>), Error>)
    ensures r.Success? <==> forall i | 0 <= i < |terms| :: AcceptsTerm(schema, terms[i])
    ensures r.Success? ==>
      && |r.value.1| == SlotsOf(r.value.0)
      && forall row: Row ::
           EvalAll(r.value.0, row, r.value.1) == Yes
           <==> InScope(schema, row) && forall i | 0 <= i < |terms| :: Satisfies(schema, terms[i], row)
  {
    var clauses: seq<Expr> :=
      [IsReady, Test(BlobSchemaName, Eq), Test(BlobSchemaVersion, Eq), Test(MetaSchemaVersion, Eq)];
    var params: seq<Value> := [Text(schema.name), Int(schema.version), Int(schema.version)];
    ScopeMeaning(schema);
    for i := 0 to |terms|
      invariant |params| == SlotsOf(clauses)
      invariant forall k | 0 <= k < i :: AcceptsTerm(schema, terms[k])
      invariant forall row: Row ::
        EvalAll(clauses, row, params) == Yes
        <==> InScope(schema, row) && forall k | 0 <= k < i :: Satisfies(schema, terms[k], row)
    {
      var clause := CompileTerm(schema, terms[i]);
      if clause.Failure? {
        return Failure(clause.error);
      }
      var (e, more) := clause.value;
      AppendMeaning(clauses, e, params, more);
      SlotsAppend(clauses, e);
      clauses, params := clauses + [e], params + more;
    }
    return Success((clauses, params));
  }

  /** compile_query: refuses exactly the invalid requests, and its WHERE clause is true for exactly the selected rows. */
  method CompileQuery(
    schema: BlobSchema, where: seq<(string, Py)>, predicates: seq<Predicate>, orderBy: seq<Order>, after: After, limit: int)
    returns (r: Result<Query, Error>)
    ensures r.Success? <==> Accepts(schema, Terms(where, predicates), orderBy, after, limit)
    ensures r.Success? ==>
      && |r.value.params| == SlotsOf(r.value.clauses) + 1
      && r.value.params[|r.value.params| - 1] == Int(limit)
      && r.value.order == NormalOrder(orderBy)
      && (Boundary(after).Some? ==> |Boundary(after).value| == |r.value.order|)
      && forall row: Row :: Matches(r.value, row)
           <==> Selected(schema, Terms(where, predicates), r.value.order, Boundary(after), row)
  {
    if !(1 <= limit <= 1000) {
      return Failure(BadArgument);
    }
    var terms := Terms(where, predicates);
    if |terms| > 64 {
      return Failure(BadArgument);
    }
    var scoped := CompileTerms(schema, terms);
    if scoped.Failure? {
      return Failure(scoped.error);
    }
    var (clauses, params) := scoped.value;
    var ordering := NormalizeOrder(schema, orderBy);
    if ordering.Failure? {
      return Failure(ordering.error);
    }
    var order := ordering.value;
    NormalOrderDeclared(schema, orderBy);
    var boundary := CheckCursor(schema, order, after);
    if boundary.Failure? {
      return Failure(boundary.error);
    }
    if boundary.value.Some? {
      var clause, more := CompileCursor(order, boundary.value.value);
      AppendMeaning(clauses, clause, params, more);
      SlotsAppend(clauses, clause);
      clauses, params := clauses + [clause], params + more;
    }
    var q := Query(clauses, order, params + [Int(limit)]);
    assert q.params[..|q.params| - 1] == params;
    return Success(q);
  }

  lemma AppendMeaning(clauses: seq<Expr>, e: Expr, params: seq<Value>, more: seq<Value>)
    requires |params| == SlotsOf(clauses) && |more| == Slots(e)
    ensures |params + more| == SlotsOf(clauses + [e])
    ensures forall row: Row ::
      EvalAll(clauses + [e], row, params + more) == Yes
      <==> EvalAll(clauses, row, params) == Yes && Eval(e, row, more) == Yes
  {
    SlotsAppend(clauses, e);
    forall row: Row
      ensures EvalAll(clauses + [e], row, params + more) == Yes
        <==> EvalAll(clauses, row, params) == Yes && Eval(e, row, more) == Yes
    {
      EvalAllAppend(clauses, e, row, params, more);
    }
  }

  lemma ScopeMeaning(schema: BlobSchema)
    ensures var clauses := [IsReady, Test(BlobSchemaName, Eq), Test(BlobSchemaVersion, Eq), Test(MetaSchemaVersion, Eq)];
      var params := [Text(schema.name), Int(schema.version), Int(schema.version)];
      && SlotsOf(clauses) == |params|
      && forall row: Row :: EvalAll(clauses, row, params) == Yes <==> InScope(schema, row)
  {
    var n, v := Text(schema.name), Int(schema.version);
    var a, b, c, d := IsReady, Test(BlobSchemaName, Eq), Test(BlobSchemaVersion, Eq), Test(MetaSchemaVersion, Eq);
    assert SlotsOf([a]) == 0 by { assert [a][1..] == []; }
    AppendMeaning([a], b, [], [n]);
    AppendMeaning([a] + [b], c, [] + [n], [v]);
    AppendMeaning([a] + [b] + [c], d, [] + [n] + [v], [v]);
    assert [a] + [b] + [c] + [d] == [a, b, c, d] && [] + [n] + [v] + [v] == [n, v, v];
    forall row: Row ensures EvalAll([a], row, []) == Yes <==> row.ready {
      assert [a][1..] == [];
    }
  }
}
