/** Metadata declarations, the Python values they accept and the SQL values they store. */
module Schemas {
  import opened Wrappers
  import opened Errors

  datatype Kind = KText | KInt64 | KFloat | KBoolean | KTimestamp

  datatype Field = Field(kind: Kind, required: bool, immutable: bool)

  /** A stored SQL value. A timestamp is kept as its UTC instant in microseconds. */
  datatype Value = Null | Text(s: string) | Int(i: int) | Real(r: real) | Stamp(t: int)

  /** A Python value offered as metadata or as a query operand. */
  datatype Py =
    | PyNone
    | PyStr(s: string)
    | PyInt(i: int)
    | PyFloat(r: real)
    | PyNonFinite
    | PyBool(b: bool)
    | PyAware(t: int)
    | PyNaive
    | PyOther

  const MIN_INT64: int := -0x8000_0000_0000_0000
  const MAX_INT64: int := 0x7fff_ffff_ffff_ffff
  /** First and last instants of the UTC datetime range, in microseconds since 1970. */
  const MIN_STAMP: int := -62135596800000000
  const MAX_STAMP: int := 253402300799999999

  type Values = map<string, Value>
  type PyMapping = map<string, Py>

  datatype Index = Index(fields: seq<string>, unique: bool)

  /** A canonical declaration: fields by name, indexes and handlers in sorted order. */
  datatype BlobSchema = BlobSchema(
    name: string, version: nat, fields: map<string, Field>,
    indexes: seq<Index>, handlers: seq<string>, validator: Option<string>)

  /** Whether a kind's column check accepts a non-null value. */
  predicate Fits(kind: Kind, v: Value) {
    match kind
    case KText => v.Text?
    case KInt64 => v.Int? && MIN_INT64 <= v.i <= MAX_INT64
    case KFloat => v.Real?
    case KBoolean => v.Int? && (v.i == 0 || v.i == 1)
    case KTimestamp => v.Stamp? && MIN_STAMP <= v.t <= MAX_STAMP
  }

  /** Whether a field may hold a value. */
  predicate Holds(f: Field, v: Value) {
    if v.Null? then !f.required else Fits(f.kind, v)
  }

  /** Field.normalize: strict typing, no coercion. */
  function Normalize(f: Field, v: Py): (r: Result<Value, Error>)
    ensures r.Success? ==> Holds(f, r.value) && (r.value.Null? <==> v.PyNone?)
  {
    match v
    case PyNone => if f.required then Failure(BadValue) else Success(Null)
    case PyStr(s) => if f.kind.KText? then Success(Text(s)) else Failure(BadValue)
    case PyInt(i) => if f.kind.KInt64? && MIN_INT64 <= i <= MAX_INT64 then Success(Int(i)) else Failure(BadValue)
    case PyFloat(x) => if f.kind.KFloat? then Success(Real(x)) else Failure(BadValue)
    case PyBool(b) => if f.kind.KBoolean? then Success(Int(if b then 1 else 0)) else Failure(BadValue)
    case PyAware(t) =>
      if f.kind.KTimestamp? && MIN_STAMP <= t <= MAX_STAMP then Success(Stamp(t)) else Failure(BadValue)
    case _ => Failure(BadValue)
  }

  /** What each kind accepts and stores: no coercion, the whole signed 64-bit range and nothing outside it. */
  lemma NormalizeMeans(f: Field, p: Py, v: Value)
    ensures Normalize(f, p) == Success(v) <==>
      match v
      case Null => p == PyNone && !f.required
      case Text(s) => p == PyStr(s) && f.kind == KText
      case Int(i) =>
        || (p == PyInt(i) && f.kind == KInt64 && -0x8000_0000_0000_0000 <= i < 0x8000_0000_0000_0000)
        || (f.kind == KBoolean && ((p == PyBool(true) && i == 1) || (p == PyBool(false) && i == 0)))
      case Real(x) => p == PyFloat(x) && f.kind == KFloat
      case Stamp(t) => p == PyAware(t) && f.kind == KTimestamp && -62135596800000000 <= t < 253402300800000000
  {
  }

  /** Field.from_sql: the strict Python value behind a stored one. */
  function FromSql(f: Field, v: Value): Result<Py, Error> {
    match v
    case Null => if f.required then Failure(BadValue) else Success(PyNone)
    case Int(i) =>
      if f.kind.KBoolean? then
        if i == 0 || i == 1 then Success(PyBool(i == 1)) else Failure(BadValue)
      else if f.kind.KInt64? && MIN_INT64 <= i <= MAX_INT64 then Success(PyInt(i))
      else Failure(BadValue)
    case Text(s) => if f.kind.KText? then Success(PyStr(s)) else Failure(BadValue)
    case Real(x) => if f.kind.KFloat? then Success(PyFloat(x)) else Failure(BadValue)
    case Stamp(t) =>
      if f.kind.KTimestamp? && MIN_STAMP <= t <= MAX_STAMP then Success(PyAware(t)) else Failure(BadValue)
  }

  /** Reading back succeeds on exactly the values a field holds, and writing again returns the same value. */
  lemma FromSqlRoundTrip(f: Field, v: Value)
    ensures FromSql(f, v).Success? <==> Holds(f, v)
    ensures Holds(f, v) ==> Normalize(f, FromSql(f, v).value) == Success(v)
    ensures forall p: Py | Normalize(f, p) == Success(v) :: FromSql(f, v) == Success(p)
  {
    forall p: Py | Normalize(f, p) == Success(v) ensures FromSql(f, v) == Success(p) {
      match p {
        case PyBool(b) => assert v == Int(if b then 1 else 0);
        case _ =>
      }
    }
  }

  /** Whether a full row of metadata is one that the declaration could have stored. */
  predicate Conforms(schema: BlobSchema, values: Values) {
    values.Keys == schema.fields.Keys && forall n | n in values :: Holds(schema.fields[n], values[n])
  }

  function Get(values: PyMapping, name: string): Py {
    if name in values then values[name] else PyNone
  }

  /** BlobSchema.normalize_metadata: every declared field, absent ones as null, nothing else. */
  function NormalizeMetadata(schema: BlobSchema, values: PyMapping): (r: Result<Values, Error>)
    ensures r.Success? ==> Conforms(schema, r.value)
  {
    if !(values.Keys <= schema.fields.Keys) then Failure(UndeclaredField)
    else if exists n | n in schema.fields :: Normalize(schema.fields[n], Get(values, n)).Failure? then Failure(BadValue)
    else Success(map n | n in schema.fields :: Normalize(schema.fields[n], Get(values, n)).value)
  }

  /**
   * Metadata is accepted exactly when every given name is declared, every given value normalizes and every omitted field is
   * optional; what is stored is each given value normalized, and null for every omitted field.
   */
  lemma MetadataMeans(schema: BlobSchema, values: PyMapping)
    ensures NormalizeMetadata(schema, values).Success? <==>
      && (forall n | n in values :: n in schema.fields && Normalize(schema.fields[n], values[n]).Success?)
      && (forall n | n in schema.fields && n !in values :: !schema.fields[n].required)
    ensures NormalizeMetadata(schema, values).Success? ==>
      var r := NormalizeMetadata(schema, values).value;
      && r.Keys == schema.fields.Keys
      && (forall n | n in values :: Normalize(schema.fields[n], values[n]) == Success(r[n]))
      && (forall n | n in schema.fields && n !in values :: r[n] == Null)
  {
    forall n | n in schema.fields && n !in values
      ensures Normalize(schema.fields[n], Get(values, n)).Success? <==> !schema.fields[n].required
    {
    }
    forall n | n in schema.fields && n in values ensures Get(values, n) == values[n] {}
    if forall n | n in values :: n in schema.fields { assert values.Keys <= schema.fields.Keys; }
  }

  /** The mapping whose normalized values are one stored row. */
  ghost predicate IsInput(schema: BlobSchema, values: Values, m: PyMapping) {
    && m.Keys == values.Keys == schema.fields.Keys
    && forall n | n in m :: Normalize(schema.fields[n], m[n]) == Success(values[n])
  }

  /** A row has at most one such mapping. */
  lemma InputIsUnique(schema: BlobSchema, values: Values, m: PyMapping, other: PyMapping)
    requires IsInput(schema, values, m) && IsInput(schema, values, other)
    ensures m == other
  {
    forall n | n in m ensures m[n] == other[n] {
      FromSqlRoundTrip(schema.fields[n], values[n]);
    }
  }

  /** The strict inputs a migration callback receives for one row. */
  function Inputs(schema: BlobSchema, values: Values): (r: PyMapping)
    requires Conforms(schema, values)
    ensures NormalizeMetadata(schema, r) == Success(values) && IsInput(schema, values, r)
  {
    assert forall n | n in schema.fields :: FromSql(schema.fields[n], values[n]).Success? by {
      forall n | n in schema.fields ensures FromSql(schema.fields[n], values[n]).Success? {
        FromSqlRoundTrip(schema.fields[n], values[n]);
      }
    }
    var r: PyMapping := map n | n in schema.fields :: FromSql(schema.fields[n], values[n]).value;
    assert forall n | n in schema.fields :: Normalize(schema.fields[n], Get(r, n)) == Success(values[n]) by {
      forall n | n in schema.fields ensures Normalize(schema.fields[n], Get(r, n)) == Success(values[n]) {
        FromSqlRoundTrip(schema.fields[n], values[n]);
      }
    }
    assert NormalizeMetadata(schema, r).value == values;
    r
  }
}
