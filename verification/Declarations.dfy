/** Schema declarations: validation, canonical form, and the stored definition. */
module Declarations {
  import opened Wrappers
  import opened Errors
  import opened Ordering
  import opened Schemas
  import opened Layout

  /** What an application writes: indexes and handlers in any order. */
  datatype Declaration = Declaration(
    name: string, version: int, fields: map<string, Field>,
    indexes: seq<Index>, handlers: seq<string>, validator: Option<string>)

  function Utf8Length(s: string): nat {
    if s == "" then 0
    else
      var c := s[0] as int;
      (if c < 0x80 then 1 else if c < 0x800 then 2 else if c < 0x1_0000 then 3 else 4) + Utf8Length(s[1..])
  }

  predicate Identifier(s: string) {
    s != "" && '\0' !in s && Utf8Length(s) <= 128
  }

  /** UTF-8 lengths add up, one to four bytes a character. */
  lemma {:induction false} Utf8Adds(c: char, a: string, b: string)
    ensures Utf8Length(a + b) == Utf8Length(a) + Utf8Length(b)
    ensures Utf8Length([c]) ==
      if c as int <= 0x7f then 1 else if c as int <= 0x7ff then 2 else if c as int <= 0xffff then 3 else 4
  {
    if a == [] {
      assert a + b == b;
    } else {
      assert (a + b)[1..] == a[1..] + b;
      Utf8Adds(c, a[1..], b);
    }
  }

  const RESERVED := {"id", "schema_name", "schema_version", "version"}

  predicate Prefixed(name: string) {
    |name| >= 3 && Fold(name[..3]) == "ms_"
  }

  predicate ValidFields(fields: map<string, Field>) {
    (forall n | n in fields :: ValidName(n)) && NamesDistinct(fields.Keys)
  }

  predicate ValidIndex(index: Index) {
    index.fields != [] && Distinct(index.fields) && forall n | n in index.fields :: Identifier(n)
  }

  predicate Valid(d: Declaration) {
    && Identifier(d.name) && Utf8Length(d.name) <= 48 && 1 <= d.version <= MAX_INT64
    && ValidFields(d.fields)
    && (forall index | index in d.indexes :: ValidIndex(index) && forall n | n in index.fields :: n in d.fields)
    && Distinct(d.indexes)
    && d.handlers != [] && Distinct(d.handlers) && (forall h | h in d.handlers :: Identifier(h))
    && (d.validator.Some? ==> Identifier(d.validator.value))
  }

  // ---------------------------------------------------------------- index order

  /** Lexicographic order of tuples of text. */
  predicate TuplesLess(a: seq<string>, b: seq<string>) {
    b != [] && (a == [] || TextLess(a[0], b[0]) || (a[0] == b[0] && TuplesLess(a[1..], b[1..])))
  }

  predicate IndexLess(a: Index, b: Index) {
    TuplesLess(a.fields, b.fields) || (a.fields == b.fields && !a.unique && b.unique)
  }

  lemma {:induction false} TuplesIrreflexive(a: seq<string>)
    ensures !TuplesLess(a, a)
  {
    if a != [] {
      TextLessIrreflexive(a[0]);
      TuplesIrreflexive(a[1..]);
    }
  }

  lemma {:induction false} TuplesTransitive(a: seq<string>, b: seq<string>, c: seq<string>)
    requires TuplesLess(a, b) && TuplesLess(b, c)
    ensures TuplesLess(a, c)
  {
    if a != [] {
      if a[0] == b[0] == c[0] {
        if TuplesLess(a[1..], b[1..]) && TuplesLess(b[1..], c[1..]) { TuplesTransitive(a[1..], b[1..], c[1..]); }
        TextLessIrreflexive(a[0]);
      } else if TextLess(a[0], b[0]) && TextLess(b[0], c[0]) {
        TextLessTransitive(a[0], b[0], c[0]);
      }
    }
  }

  lemma {:induction false} TuplesConnected(a: seq<string>, b: seq<string>)
    requires a != b
    ensures TuplesLess(a, b) || TuplesLess(b, a)
  {
    if a != [] && b != [] {
      if a[0] == b[0] {
        assert a == [a[0]] + a[1..] && b == [b[0]] + b[1..];
        TuplesConnected(a[1..], b[1..]);
      } else {
        TextLessConnected(a[0], b[0]);
      }
    }
  }

  lemma IndexLessStrictTotal(s: set<Index>)
    ensures StrictTotal(IndexLess, s)
  {
    forall x | x in s ensures !IndexLess(x, x) { TuplesIrreflexive(x.fields); }
    forall x, y, z | x in s && y in s && z in s && IndexLess(x, y) && IndexLess(y, z) ensures IndexLess(x, z) {
      if TuplesLess(x.fields, y.fields) && TuplesLess(y.fields, z.fields) {
        TuplesTransitive(x.fields, y.fields, z.fields);
      }
    }
    forall x, y | x in s && y in s && x != y ensures IndexLess(x, y) || IndexLess(y, x) {
      if x.fields != y.fields { TuplesConnected(x.fields, y.fields); }
    }
  }

  // ---------------------------------------------------------------- canonical form

  function SortIndexes(indexes: seq<Index>): seq<Index> {
    IndexLessStrictTotal(Elements(indexes));
    Sorted(IndexLess, Elements(indexes))
  }

  function SortHandlers(handlers: seq<string>): seq<string> {
    TextLessStrictTotal(Elements(handlers));
    Sorted(TextLess, Elements(handlers))
  }

  function Canonical(d: Declaration): BlobSchema
    requires d.version >= 0
  {
    BlobSchema(d.name, d.version, d.fields, SortIndexes(d.indexes), SortHandlers(d.handlers), d.validator)
  }

  /** The first k names agree, and then a ends or has the smaller name. */
  predicate TuplesDifferAt(a: seq<string>, b: seq<string>, k: nat) {
    k <= |a| && k < |b| && a[..k] == b[..k] && (k == |a| || TextLess(a[k], b[k]))
  }

  lemma {:induction false} TuplesLessDiffer(a: seq<string>, b: seq<string>) returns (k: nat)
    requires TuplesLess(a, b)
    ensures TuplesDifferAt(a, b, k)
  {
    k := 0;
    if a != [] && !TextLess(a[0], b[0]) {
      var j := TuplesLessDiffer(a[1..], b[1..]);
      k := j + 1;
      assert a[..k] == [a[0]] + a[1..][..j] && b[..k] == [b[0]] + b[1..][..j];
    }
  }

  /** By the names, the first difference deciding, and a plain index before a unique one of the same names. */
  ghost predicate IndexBefore(a: Index, b: Index) {
    (a.fields == b.fields && !a.unique && b.unique) || exists k: nat :: TuplesDifferAt(a.fields, b.fields, k)
  }

  lemma IndexLessMeans(a: Index, b: Index)
    requires IndexLess(a, b)
    ensures IndexBefore(a, b)
  {
    if TuplesLess(a.fields, b.fields) { var k := TuplesLessDiffer(a.fields, b.fields); }
  }

  lemma SortedIndexes(indexes: seq<Index>)
    ensures Elements(SortIndexes(indexes)) == Elements(indexes)
    ensures forall i, j | 0 <= i < j < |SortIndexes(indexes)| :: IndexBefore(SortIndexes(indexes)[i], SortIndexes(indexes)[j])
  {
    IndexLessStrictTotal(Elements(indexes));
    SortedIsSorted(IndexLess, Elements(indexes));
    var r := SortIndexes(indexes);
    forall i, j | 0 <= i < j < |r| ensures IndexBefore(r[i], r[j]) { IndexLessMeans(r[i], r[j]); }
  }

  lemma SortedHandlers(handlers: seq<string>)
    ensures Elements(SortHandlers(handlers)) == Elements(handlers)
    ensures forall i, j | 0 <= i < j < |SortHandlers(handlers)| :: TextLess(SortHandlers(handlers)[i], SortHandlers(handlers)[j])
  {
    TextLessStrictTotal(Elements(handlers));
    SortedIsSorted(TextLess, Elements(handlers));
  }

  /** The stored form keeps every index and handler: handlers in text order, indexes in their order. */
  lemma CanonicalMeans(d: Declaration)
    requires d.version >= 0
    ensures var s := Canonical(d);
      && s.name == d.name && s.version == d.version && s.fields == d.fields && s.validator == d.validator
      && Elements(s.handlers) == Elements(d.handlers) && Elements(s.indexes) == Elements(d.indexes)
      && (forall i, j | 0 <= i < j < |s.handlers| :: TextLess(s.handlers[i], s.handlers[j]))
      && (forall i, j | 0 <= i < j < |s.indexes| :: IndexBefore(s.indexes[i], s.indexes[j]))
  {
    SortedIndexes(d.indexes);
    SortedHandlers(d.handlers);
  }

  /** Python's sorted on distinct entries: each is put before the first greater one. */
  method InsertionSort<T(==,!new)>(less: (T, T) -> bool, items: seq<T>) returns (r: seq<T>)
    requires StrictTotal(less, Elements(items)) && Distinct(items)
    ensures r == Sorted(less, Elements(items))
  {
    r := [];
    for i := 0 to |items|
      invariant Elements(r) == Elements(items[..i]) && Increasing(less, r)
    {
      var k := 0;
      while k < |r| && less(r[k], items[i])
        invariant 0 <= k <= |r|
        invariant forall j | 0 <= j < k :: less(r[j], items[i])
      {
        k := k + 1;
      }
      InsertKeepsOrder(less, items, i, r, k);
      r := r[..k] + [items[i]] + r[k..];
    }
    assert items[..|items|] == items;
    SortedIsUnique(less, Elements(items), r);
  }

  lemma InsertKeepsOrder<T(!new)>(less: (T, T) -> bool, items: seq<T>, i: nat, r: seq<T>, k: nat)
    requires i < |items| && StrictTotal(less, Elements(items)) && Distinct(items)
    requires Elements(r) == Elements(items[..i]) && Increasing(less, r)
    requires k <= |r| && (forall j | 0 <= j < k :: less(r[j], items[i])) && (k < |r| ==> !less(r[k], items[i]))
    ensures var next := r[..k] + [items[i]] + r[k..];
      Elements(next) == Elements(items[..i + 1]) && Increasing(less, next)
  {
    var x := items[i];
    assert x in Elements(items);
    forall j | k <= j < |r| ensures less(x, r[j]) {
      assert r[j] in Elements(r) && r[k] in Elements(r);
      assert r[k] in items[..i] && r[j] in items[..i];
      assert r[k] in Elements(items) && r[j] in Elements(items);
      assert less(x, r[k]);
      assert k < j ==> less(r[k], r[j]);
    }
    Inserted(less, r, k, x);
    assert items[..i + 1] == items[..i] + [x];
    assert r == r[..k] + r[k..];
    assert Elements(r[..k] + [x] + r[k..]) == Elements(r) + {x};
    assert Elements(items[..i + 1]) == Elements(items[..i]) + {x};
  }

  lemma Inserted<T(!new)>(less: (T, T) -> bool, r: seq<T>, k: nat, x: T)
    requires Increasing(less, r) && k <= |r|
    requires (forall j | 0 <= j < k :: less(r[j], x)) && (forall j | k <= j < |r| :: less(x, r[j]))
    ensures Increasing(less, r[..k] + [x] + r[k..])
  {
    var next := r[..k] + [x] + r[k..];
    forall a, b | 0 <= a < b < |next| ensures less(next[a], next[b]) {
      var i, j := if a < k then a else a - 1, if b < k then b else b - 1;
      assert a != k ==> next[a] == r[i];
      assert b != k ==> next[b] == r[j];
      assert a != k && b != k ==> less(r[i], r[j]);
    }
  }

  predicate ValidName(n: string) {
    Identifier(n) && !Prefixed(n) && Fold(n) !in RESERVED
  }

  function Folds(names: set<string>): set<string> {
    set n | n in names :: Fold(n)
  }

  /** The field loop of __post_init__: identifiers, reserved names, and names that differ only in ASCII case. */
  method CheckFields(fields: map<string, Field>) returns (ok: bool)
    ensures ok <==> ValidFields(fields)
  {
    var seen, todo := RESERVED, fields.Keys;
    ghost var done: set<string> := {};
    while todo != {}
      invariant todo + done == fields.Keys && todo !! done
      invariant seen == RESERVED + Folds(done)
      invariant (forall n | n in done :: ValidName(n)) && NamesDistinct(done)
      decreases |todo|
    {
      var name :| name in todo;
      if !Identifier(name) || Fold(name) in seen || Prefixed(name) {
        NameRefused(fields, done, name);
        return false;
      }
      NameAdded(done, name);
      seen, todo, done := seen + {Fold(name)}, todo - {name}, done + {name};
    }
    assert done == fields.Keys;
    return true;
  }

  lemma PrefixedMeans(n: string)
    ensures Prefixed(n) <==> |n| >= 3 && SameLetter(n[0], 'm') && SameLetter(n[1], 's') && n[2] == '_'
  {
    if |n| >= 3 {
      FoldMeans(n[..3], "ms_");
      assert Fold("ms_") == "ms_";
    }
  }

  /** A name of so many bytes at most. */
  predicate Named(s: string, max: nat) {
    s != "" && '\0' !in s && Utf8Length(s) <= max
  }

  predicate FieldNamed(n: string) {
    && Named(n, 128)
    && Fold(n) != "id" && Fold(n) != "schema_name" && Fold(n) != "schema_version" && Fold(n) != "version"
    && !(|n| >= 3 && SameLetter(n[0], 'm') && SameLetter(n[1], 's') && n[2] == '_')
  }

  lemma FieldNames(n: string)
    ensures ValidName(n) <==> FieldNamed(n)
  {
    PrefixedMeans(n);
  }

  /** Exactly which declarations are accepted: names, version, fields, indexes and handlers. */
  lemma ValidMeans(d: Declaration)
    ensures Valid(d) <==>
      && Named(d.name, 48) && 1 <= d.version < 0x8000_0000_0000_0000
      && (forall n | n in d.fields :: FieldNamed(n))
      && (forall m, n | m in d.fields && n in d.fields && m != n :: Fold(m) != Fold(n))
      && (forall index | index in d.indexes ::
            index.fields != [] && Distinct(index.fields) && forall n | n in index.fields :: n in d.fields)
      && Distinct(d.indexes) && d.handlers != [] && Distinct(d.handlers)
      && (forall h | h in d.handlers :: Named(h, 128)) && (d.validator.Some? ==> Named(d.validator.value, 128))
  {
    forall n ensures ValidName(n) <==> FieldNamed(n) { FieldNames(n); }
  }

  lemma NameRefused(fields: map<string, Field>, done: set<string>, name: string)
    requires done <= fields.Keys && name in fields && name !in done
    requires !ValidName(name) || Fold(name) in Folds(done)
    ensures !ValidFields(fields)
  {
    if Fold(name) in Folds(done) {
      var n :| n in done && Fold(n) == Fold(name);
      assert n in fields.Keys && name in fields.Keys && n != name;
    }
  }

  lemma NameAdded(done: set<string>, name: string)
    requires NamesDistinct(done) && Fold(name) !in Folds(done)
    ensures NamesDistinct(done + {name}) && Folds(done + {name}) == Folds(done) + {Fold(name)}
  {
    forall a, b | a in done + {name} && b in done + {name} && Fold(a) == Fold(b) ensures a == b {
      assert a in done ==> Fold(a) in Folds(done);
      assert b in done ==> Fold(b) in Folds(done);
    }
  }

  /** BlobSchema.__post_init__: refuses exactly the invalid declarations, and stores the canonical form. */
  method Declare(d: Declaration) returns (r: Result<BlobSchema, Error>)
    ensures r.Success? <==> Valid(d)
    ensures r.Success? ==> r.value == Canonical(d)
  {
    if !Identifier(d.name) {
      return Failure(BadIdentifier);
    }
    if Utf8Length(d.name) > 48 || !(1 <= d.version <= MAX_INT64) {
      return Failure(BadDeclaration);
    }
    var ok := CheckFields(d.fields);
    if !ok {
      return Failure(BadDeclaration);
    }
    if exists index | index in d.indexes :: !ValidIndex(index) || exists n | n in index.fields :: n !in d.fields {
      return Failure(BadDeclaration);
    }
    if !Distinct(d.indexes) || d.handlers == [] || !Distinct(d.handlers) {
      return Failure(BadDeclaration);
    }
    if (exists h | h in d.handlers :: !Identifier(h)) || (d.validator.Some? && !Identifier(d.validator.value)) {
      return Failure(BadIdentifier);
    }
    IndexLessStrictTotal(Elements(d.indexes));
    TextLessStrictTotal(Elements(d.handlers));
    var indexes := InsertionSort(IndexLess, d.indexes);
    var handlers := InsertionSort(TextLess, d.handlers);
    return Success(BlobSchema(d.name, d.version, d.fields, indexes, handlers, d.validator));
  }

  /** Reordering indexes and handlers never changes the stored form. */
  lemma ReorderingIsIrrelevant(d: Declaration, e: Declaration)
    requires d.version >= 0
    requires d.name == e.name && d.version == e.version && d.fields == e.fields && d.validator == e.validator
    requires multiset(d.indexes) == multiset(e.indexes) && multiset(d.handlers) == multiset(e.handlers)
    ensures Canonical(d) == Canonical(e)
  {
    assert forall x :: x in d.indexes <==> x in multiset(d.indexes);
    assert forall x :: x in e.indexes <==> x in multiset(e.indexes);
    assert forall x :: x in d.handlers <==> x in multiset(d.handlers);
    assert forall x :: x in e.handlers <==> x in multiset(e.handlers);
    assert Elements(d.indexes) == Elements(e.indexes) && Elements(d.handlers) == Elements(e.handlers);
  }

  // ---------------------------------------------------------------- the definition

  /** A JSON value; keys are sorted when it is written, so an object is the map of its members. */
  datatype Json =
    | JNull
    | JBool(b: bool)
    | JInt(i: int)
    | JText(s: string)
    | JArray(items: seq<Json>)
    | JObject(members: map<string, Json>)

  function KindName(k: Kind): string {
    match k
    case KText => "text"
    case KInt64 => "int64"
    case KFloat => "float"
    case KBoolean => "boolean"
    case KTimestamp => "timestamp"
  }

  function KindNamed(s: string): Option<Kind> {
    match s
    case "text" => Some(KText)
    case "int64" => Some(KInt64)
    case "float" => Some(KFloat)
    case "boolean" => Some(KBoolean)
    case "timestamp" => Some(KTimestamp)
    case _ => None
  }

  function FieldJson(f: Field): Json {
    JObject(map["kind" := JText(KindName(f.kind)), "required" := JBool(f.required), "immutable" := JBool(f.immutable)])
  }

  function Texts(items: seq<string>): Json {
    JArray(seq(|items|, i requires 0 <= i < |items| => JText(items[i])))
  }

  function IndexJson(index: Index): Json {
    JObject(map["fields" := Texts(index.fields), "unique" := JBool(index.unique)])
  }

  function Definition(s: BlobSchema): Json {
    JObject(map[
      "name" := JText(s.name),
      "version" := JInt(s.version),
      "fields" := JObject(map n | n in s.fields :: FieldJson(s.fields[n])),
      "indexes" := JArray(seq(|s.indexes|, i requires 0 <= i < |s.indexes| => IndexJson(s.indexes[i]))),
      "handlers" := Texts(s.handlers),
      "validator_id" := if s.validator.Some? then JText(s.validator.value) else JNull])
  }

  function Member(j: Json, key: string): Json {
    if j.JObject? && key in j.members then j.members[key] else JNull
  }

  function TextOf(j: Json): string { if j.JText? then j.s else "" }

  function BoolOf(j: Json): bool { j.JBool? && j.b }

  function ItemsOf(j: Json): seq<Json> { if j.JArray? then j.items else [] }

  function TextsOf(j: Json): seq<string> {
    var items := ItemsOf(j);
    seq(|items|, i requires 0 <= i < |items| => TextOf(items[i]))
  }

  function FieldOfJson(j: Json): Option<Field> {
    var kind := KindNamed(TextOf(Member(j, "kind")));
    if kind.None? then None else Some(Field(kind.value, BoolOf(Member(j, "required")), BoolOf(Member(j, "immutable"))))
  }

  function IndexOfJson(j: Json): Index {
    Index(TextsOf(Member(j, "fields")), BoolOf(Member(j, "unique")))
  }

  /** The keyword arguments that migrations.decode hands to BlobSchema, for a stored definition. */
  function Read(j: Json): Declaration {
    var fields := Member(j, "fields");
    var members := if fields.JObject? then fields.members else map[];
    var indexes := ItemsOf(Member(j, "indexes"));
    var version := Member(j, "version");
    var validator := Member(j, "validator_id");
    Declaration(
      TextOf(Member(j, "name")),
      if version.JInt? then version.i else 0,
      map n | n in members && FieldOfJson(members[n]).Some? :: FieldOfJson(members[n]).value,
      seq(|indexes|, i requires 0 <= i < |indexes| => IndexOfJson(indexes[i])),
      TextsOf(Member(j, "handlers")),
      if validator.JText? then Some(validator.s) else None)
  }

  lemma TextsReadBack(items: seq<string>)
    ensures TextsOf(Texts(items)) == items
  {
  }

  lemma FieldReadsBack(f: Field)
    ensures FieldOfJson(FieldJson(f)) == Some(f)
    ensures FieldJson(f) == JObject(map[
      "kind" := JText(
        match f.kind
        case KText => "text" case KInt64 => "int64" case KFloat => "float" case KBoolean => "boolean" case KTimestamp => "timestamp"),
      "required" := JBool(f.required), "immutable" := JBool(f.immutable)])
  {
  }

  lemma IndexReadsBack(index: Index)
    ensures IndexOfJson(IndexJson(index)) == index
  {
    TextsReadBack(index.fields);
  }

  /** The declaration a stored form came from, up to order. */
  function Written(s: BlobSchema): Declaration {
    Declaration(s.name, s.version, s.fields, s.indexes, s.handlers, s.validator)
  }

  lemma DefinitionReadsBack(s: BlobSchema)
    ensures Read(Definition(s)) == Written(s)
  {
    var j, d := Definition(s), Read(Definition(s));
    forall n | n in s.fields ensures FieldOfJson(FieldJson(s.fields[n])) == Some(s.fields[n]) {
      FieldReadsBack(s.fields[n]);
    }
    assert d.fields == s.fields;
    forall i | 0 <= i < |s.indexes| ensures d.indexes[i] == s.indexes[i] { IndexReadsBack(s.indexes[i]); }
    TextsReadBack(s.handlers);
  }

  /** Two stored forms have the same definition exactly when they are equal. */
  lemma SameDefinition(a: BlobSchema, b: BlobSchema)
    ensures Definition(a) == Definition(b) <==> a == b
  {
    DefinitionReadsBack(a);
    DefinitionReadsBack(b);
  }

  /** Whatever declaration was stored, decoding its definition is a valid declaration with that same stored form. */
  lemma DecodeRebuilds(d: Declaration)
    requires Valid(d)
    ensures var e := Read(Definition(Canonical(d)));
      Valid(e) && Canonical(e) == Canonical(d)
  {
    var s := Canonical(d);
    DefinitionReadsBack(s);
    IndexLessStrictTotal(Elements(d.indexes));
    TextLessStrictTotal(Elements(d.handlers));
    SortedIsSorted(IndexLess, Elements(d.indexes));
    SortedIsSorted(TextLess, Elements(d.handlers));
    SortedIsDistinct(IndexLess, Elements(d.indexes));
    SortedIsDistinct(TextLess, Elements(d.handlers));
    assert forall x :: x in s.indexes <==> x in Elements(s.indexes);
    assert forall x :: x in s.handlers <==> x in Elements(s.handlers);
    assert d.handlers[0] in Elements(d.handlers);
  }

  lemma SortedIsDistinct<T(!new)>(less: (T, T) -> bool, s: set<T>)
    requires StrictTotal(less, s)
    ensures Distinct(Sorted(less, s))
  {
    SortedIsSorted(less, s);
    var r := Sorted(less, s);
    forall i, j | 0 <= i < j < |r| ensures r[i] != r[j] {
      assert r[i] in Elements(r) && less(r[i], r[j]);
    }
  }
}
