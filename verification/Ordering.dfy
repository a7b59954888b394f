/** SQLite's BINARY text order, and what ORDER BY with LIMIT selects from a finite set. */
module Ordering {

  /** Code-point order, which is the byte order of the UTF-8 text that SQLite compares. */
  predicate TextLess(a: string, b: string) {
    |b| != 0 && (|a| == 0 || a[0] < b[0] || (a[0] == b[0] && TextLess(a[1..], b[1..])))
  }

  /** The first k characters agree, and then a ends or has the smaller character. */
  predicate DiffersAt(a: string, b: string, k: nat) {
    k <= |a| && k < |b| && a[..k] == b[..k] && (k == |a| || a[k] < b[k])
  }

  lemma {:induction false} LessDiffers(a: string, b: string) returns (k: nat)
    requires TextLess(a, b)
    ensures DiffersAt(a, b, k)
  {
    k := 0;
    if a != [] && a[0] == b[0] {
      var j := LessDiffers(a[1..], b[1..]);
      k := j + 1;
      assert a[..k] == [a[0]] + a[1..][..j] && b[..k] == [b[0]] + b[1..][..j];
    }
  }

  lemma {:induction false} DiffersLess(a: string, b: string, k: nat)
    requires DiffersAt(a, b, k)
    ensures TextLess(a, b)
    decreases k
  {
    if k > 0 {
      assert a[0] == a[..k][0] && b[0] == b[..k][0];
      assert a[1..][..k - 1] == a[..k][1..] && b[1..][..k - 1] == b[..k][1..];
      DiffersLess(a[1..], b[1..], k - 1);
    }
  }

  /** It is the lexicographic order: the first difference decides, and a proper prefix comes first. */
  lemma TextLessIsLexicographic(a: string, b: string)
    ensures TextLess(a, b) <==> exists k: nat :: DiffersAt(a, b, k)
  {
    if TextLess(a, b) { var k := LessDiffers(a, b); }
    forall k: nat | DiffersAt(a, b, k) ensures TextLess(a, b) { DiffersLess(a, b, k); }
  }

  ghost predicate StrictTotal<T(!new)>(less: (T, T) -> bool, s: set<T>) {
    && (forall x | x in s :: !less(x, x))
    && (forall x, y, z | x in s && y in s && z in s && less(x, y) && less(y, z) :: less(x, z))
    && (forall x, y | x in s && y in s && x != y :: less(x, y) || less(y, x))
  }

  lemma {:induction false} TextLessIrreflexive(a: string)
    ensures !TextLess(a, a)
  {
    if a != [] {
      TextLessIrreflexive(a[1..]);
    }
  }

  lemma {:induction false} TextLessTransitive(a: string, b: string, c: string)
    requires TextLess(a, b) && TextLess(b, c)
    ensures TextLess(a, c)
  {
    if a != [] && a[0] == b[0] == c[0] {
      TextLessTransitive(a[1..], b[1..], c[1..]);
    }
  }

  lemma {:induction false} TextLessConnected(a: string, b: string)
    requires a != b
    ensures TextLess(a, b) || TextLess(b, a)
  {
    if a != [] && b != [] && a[0] == b[0] {
      assert a == [a[0]] + a[1..] && b == [b[0]] + b[1..];
      TextLessConnected(a[1..], b[1..]);
    }
  }

  lemma TextLessStrictTotal(s: set<string>)
    ensures StrictTotal(TextLess, s)
  {
    forall x | x in s ensures !TextLess(x, x) { TextLessIrreflexive(x); }
    forall x, y, z | x in s && y in s && z in s && TextLess(x, y) && TextLess(y, z) ensures TextLess(x, z) {
      TextLessTransitive(x, y, z);
    }
    forall x, y | x in s && y in s && x != y ensures TextLess(x, y) || TextLess(y, x) {
      TextLessConnected(x, y);
    }
  }

  predicate IsLeast<T(==)>(less: (T, T) -> bool, s: set<T>, m: T) {
    m in s && forall y | y in s && y != m :: less(m, y)
  }

  lemma {:induction false} LeastExists<T(!new)>(less: (T, T) -> bool, s: set<T>)
    requires s != {} && StrictTotal(less, s)
    ensures exists m :: IsLeast(less, s, m)
    ensures forall m, n | IsLeast(less, s, m) && IsLeast(less, s, n) :: m == n
    decreases s
  {
    var x :| x in s;
    if s == {x} {
      assert IsLeast(less, s, x);
    } else {
      LeastExists(less, s - {x});
      var m :| IsLeast(less, s - {x}, m);
      assert IsLeast(less, s, if less(x, m) then x else m);
    }
    forall m, n | IsLeast(less, s, m) && IsLeast(less, s, n) ensures m == n {
      assert !(less(m, n) && less(n, m)) by {
        assert !less(m, m);
      }
    }
  }

  function Least<T(==,!new)>(less: (T, T) -> bool, s: set<T>): (m: T)
    requires s != {} && StrictTotal(less, s)
    ensures IsLeast(less, s, m)
  {
    LeastExists(less, s);
    var m :| m in s && IsLeast(less, s, m);
    m
  }

  /** Rows in ORDER BY order. */
  function Sorted<T(==,!new)>(less: (T, T) -> bool, s: set<T>): (r: seq<T>)
    requires StrictTotal(less, s)
    decreases s
  {
    if s == {} then [] else
      var m := Least(less, s);
      [m] + Sorted(less, s - {m})
  }

  /** ORDER BY ... LIMIT n. */
  function First<T(==,!new)>(less: (T, T) -> bool, s: set<T>, n: nat): seq<T>
    requires StrictTotal(less, s)
  {
    var r := Sorted(less, s);
    if n < |r| then r[..n] else r
  }

  function Elements<T(==,!new)>(r: seq<T>): set<T> {
    set x | x in r
  }

  ghost predicate Increasing<T(!new)>(less: (T, T) -> bool, r: seq<T>) {
    forall i, j | 0 <= i < j < |r| :: less(r[i], r[j])
  }

  /** Sorting lists every element once, in increasing order. */
  lemma {:induction false} SortedIsSorted<T(!new)>(less: (T, T) -> bool, s: set<T>)
    requires StrictTotal(less, s)
    ensures Elements(Sorted(less, s)) == s
    ensures |Sorted(less, s)| == |s|
    ensures Increasing(less, Sorted(less, s))
    decreases s
  {
    if s != {} {
      var m := Least(less, s);
      var rest := s - {m};
      SortedIsSorted(less, rest);
      var r := Sorted(less, s);
      assert r == [m] + Sorted(less, rest);
      forall i, j | 0 <= i < j < |r| ensures less(r[i], r[j]) {
        if i == 0 {
          assert r[j] in Elements(Sorted(less, rest));
        }
      }
      assert s == rest + {m};
    }
  }

  lemma LeastIs<T(!new)>(less: (T, T) -> bool, s: set<T>, m: T)
    requires s != {} && StrictTotal(less, s) && IsLeast(less, s, m)
    ensures Least(less, s) == m
  {
    LeastExists(less, s);
  }

  lemma FirstIsLeast<T(!new)>(less: (T, T) -> bool, s: set<T>, r: seq<T>)
    requires StrictTotal(less, s) && Elements(r) == s && Increasing(less, r) && r != []
    ensures r[0] in s && Least(less, s) == r[0]
  {
    assert r[0] in Elements(r);
    forall y | y in s && y != r[0] ensures less(r[0], y) {
      assert y in Elements(r);
      var j :| 0 <= j < |r| && r[j] == y;
      assert less(r[0], r[j]);
    }
    LeastIs(less, s, r[0]);
  }

  lemma RestElements<T(!new)>(less: (T, T) -> bool, s: set<T>, r: seq<T>)
    requires StrictTotal(less, s) && Elements(r) == s && Increasing(less, r) && r != []
    ensures Elements(r[1..]) == s - {r[0]} && Increasing(less, r[1..])
  {
    assert r[0] in Elements(r);
    forall x | x in r[1..] ensures x in s && x != r[0] {
      var j :| 1 <= j < |r| && r[j] == x;
      assert x in Elements(r) && less(r[0], r[j]) && !less(r[0], r[0]);
    }
    forall x | x in s - {r[0]} ensures x in r[1..] {
      assert x in Elements(r);
      var j :| 0 <= j < |r| && r[j] == x;
      assert r[1..][j - 1] == x;
    }
    forall i, j | 0 <= i < j < |r[1..]| ensures less(r[1..][i], r[1..][j]) { assert less(r[i + 1], r[j + 1]); }
  }

  /** An increasing list of exactly the elements is the sorted list. */
  lemma {:induction false} SortedIsUnique<T(!new)>(less: (T, T) -> bool, s: set<T>, r: seq<T>)
    requires StrictTotal(less, s)
    requires Elements(r) == s && Increasing(less, r)
    ensures r == Sorted(less, s)
    decreases s
  {
    if r == [] {
      assert s == {};
    } else {
      FirstIsLeast(less, s, r);
      RestElements(less, s, r);
      assert r[0] in s;
      SortedIsUnique(less, s - {r[0]}, r[1..]);
      assert r == [r[0]] + r[1..];
    }
  }

  /** The first n rows are distinct rows of the set, and every other row follows all of them. */
  lemma FirstSelects<T(!new)>(less: (T, T) -> bool, s: set<T>, n: nat)
    requires StrictTotal(less, s)
    ensures var r := First(less, s, n);
      && Elements(r) <= s
      && |r| == |Elements(r)| == (if n < |s| then n else |s|)
      && Increasing(less, r)
      && (forall x, y | x in r && y in s - Elements(r) :: less(x, y))
  {
    SortedIsSorted(less, s);
    var all := Sorted(less, s);
    var r := First(less, s, n);
    assert forall x | x in r :: x in all;
    forall x | x in r ensures x in s { assert x in Elements(all); }
    DistinctCount(less, s, r);
    forall x, y | x in r && y in s - Elements(r) ensures less(x, y) {
      var i :| 0 <= i < |r| && r[i] == x;
      assert y in Elements(all);
      var j :| 0 <= j < |all| && all[j] == y;
      assert all[i] == x;
      assert forall k | 0 <= k < |r| :: r[k] in Elements(r);
      assert i < j;
    }
  }

  lemma {:induction false} DistinctCount<T(!new)>(less: (T, T) -> bool, s: set<T>, r: seq<T>)
    requires StrictTotal(less, s)
    requires Elements(r) <= s && Increasing(less, r)
    ensures |Elements(r)| == |r|
  {
    if r != [] {
      var init, last := r[..|r| - 1], r[|r| - 1];
      assert r == init + [last];
      assert forall x | x in init :: x in r;
      DistinctCount(less, s, init);
      assert Elements(r) == Elements(init) + {last};
      forall i | 0 <= i < |init| ensures init[i] != last {
        assert less(r[i], r[|r| - 1]);
        assert last in Elements(r);
      }
    }
  }

  /** The rows after the last of the first n are exactly the rows left out. */
  lemma FirstCutsAtLast<T(!new)>(less: (T, T) -> bool, s: set<T>, n: nat, later: set<T>)
    requires StrictTotal(less, s) && s != {} && n > 0
    requires var r := First(less, s, n); |r| > 0 ==> forall y :: y in later <==> y in s && less(r[|r| - 1], y)
    ensures First(less, s, n) != []
    ensures later == s - Elements(First(less, s, n)) && later < s
  {
    FirstSelects(less, s, n);
    var r := First(less, s, n);
    var last := r[|r| - 1];
    assert last in Elements(r);
    forall y | y in s ensures y in later <==> y !in Elements(r) {
      if y in Elements(r) {
        var i :| 0 <= i < |r| && r[i] == y;
        assert !less(y, y);
        assert i < |r| - 1 ==> less(r[i], r[|r| - 1]);
      }
    }
  }

  lemma IncreasingJoin<T(!new)>(less: (T, T) -> bool, a: seq<T>, b: seq<T>)
    requires Increasing(less, a) && Increasing(less, b) && forall x, y | x in a && y in b :: less(x, y)
    ensures Increasing(less, a + b) && Elements(a + b) == Elements(a) + Elements(b)
  {
    forall i, j | 0 <= i < j < |a + b| ensures less((a + b)[i], (a + b)[j]) {
      if j < |a| {
        assert less(a[i], a[j]);
      } else if i < |a| {
        assert a[i] in a && b[j - |a|] in b;
      } else {
        assert less(b[i - |a|], b[j - |a|]);
      }
    }
  }

  lemma TotalOnSubset<T(!new)>(less: (T, T) -> bool, s: set<T>, part: set<T>)
    requires StrictTotal(less, s) && part <= s
    ensures StrictTotal(less, part)
  {
  }

  lemma PrefixAndRest<T(!new)>(less: (T, T) -> bool, s: set<T>, r: seq<T>)
    requires StrictTotal(less, s) && Elements(r) <= s && Increasing(less, r)
    requires forall x, y | x in r && y in s - Elements(r) :: less(x, y)
    ensures StrictTotal(less, s - Elements(r)) && Sorted(less, s) == r + Sorted(less, s - Elements(r))
  {
    var others := s - Elements(r);
    TotalOnSubset(less, s, others);
    var rest := Sorted(less, others);
    SortedIsSorted(less, others);
    forall x, y | x in r && y in rest ensures less(x, y) { assert y in Elements(rest); }
    IncreasingJoin(less, r, rest);
    assert Elements(r + rest) == s;
    SortedIsUnique(less, s, r + rest);
  }

  /** A sorted prefix followed by the sorted rest is the sorted whole. */
  lemma FirstThenRest<T(!new)>(less: (T, T) -> bool, s: set<T>, n: nat)
    requires StrictTotal(less, s)
    ensures var r := First(less, s, n);
      StrictTotal(less, s - Elements(r)) && Sorted(less, s) == r + Sorted(less, s - Elements(r))
  {
    FirstSelects(less, s, n);
    PrefixAndRest(less, s, First(less, s, n));
  }

  predicate Distinct<T(==)>(r: seq<T>) {
    forall i, j | 0 <= i < j < |r| :: r[i] != r[j]
  }

  lemma SplitElements<T(!new)>(r: seq<T>, k: nat)
    requires k <= |r| && Distinct(r)
    ensures Elements(r) == Elements(r[..k]) + Elements(r[k..])
    ensures Elements(r[..k]) !! Elements(r[k..])
  {
    assert r == r[..k] + r[k..];
    forall x | x in r[..k] ensures x !in r[k..] {
      var i :| 0 <= i < k && r[i] == x;
      assert forall j | 0 <= j < |r[k..]| :: r[k..][j] == r[k + j];
    }
  }

  /** Cutting a list of distinct elements at two places. */
  lemma Segments<T(!new)>(r: seq<T>, k: nat, next: nat)
    requires k <= next <= |r| && Distinct(r)
    ensures Elements(r[..next]) == Elements(r[..k]) + Elements(r[k..next])
    ensures Elements(r[..k]) !! Elements(r[k..next])
    ensures Elements(r[k..]) - Elements(r[k..next]) == Elements(r[next..])
    ensures Elements(r[next..]) == {} <==> next == |r|
  {
    SplitElements(r[..next], k);
    assert r[..next][..k] == r[..k] && r[..next][k..] == r[k..next];
    SplitElements(r[k..], next - k);
    assert r[k..][..next - k] == r[k..next] && r[k..][next - k..] == r[next..];
    assert next < |r| ==> r[next] in Elements(r[next..]) by {
      if next < |r| { assert r[next..][0] == r[next]; }
    }
  }
}
