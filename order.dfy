/** The orderings pandas sorts by (Python's comparison of strings, numbers, dates
    and tuples of them) and the sort used for `sort_values` and for the keys of
    `groupby`, which come out in ascending order without repeats. */
module Order {

  /** One component of a sort key: a string or an integer. */
  datatype Atom = S(s: string) | N(n: int)

  /** Python's `<` on strings: code point by code point, a proper prefix first. */
  predicate StrLess(a: string, b: string) {
    if a == [] then b != []
    else if b == [] then false
    else if a[0] != b[0] then a[0] < b[0]
    else StrLess(a[1..], b[1..])
  }

  predicate AtomLess(a: Atom, b: Atom) {
    match (a, b)
    case (S(x), S(y)) => StrLess(x, y)
    case (N(x), N(y)) => x < y
    case (S(_), N(_)) => true
    case (N(_), S(_)) => false
  }

  /** Python's `<` on tuples: component by component, a proper prefix first. */
  predicate KeyLess(a: seq<Atom>, b: seq<Atom>) {
    if a == [] then b != []
    else if b == [] then false
    else if a[0] != b[0] then AtomLess(a[0], b[0])
    else KeyLess(a[1..], b[1..])
  }

  lemma {:induction false} StrLessStrict(a: string, b: string, c: string)
    ensures !StrLess(a, a)
    ensures StrLess(a, b) && StrLess(b, c) ==> StrLess(a, c)
    ensures a != b ==> StrLess(a, b) || StrLess(b, a)
    ensures StrLess(a, b) ==> !StrLess(b, a)
  {
    if a != [] && b != [] && c != [] {
      StrLessStrict(a[1..], b[1..], c[1..]);
      assert a != b && a[0] == b[0] ==> a[1..] != b[1..] by {
        if a[0] == b[0] && a[1..] == b[1..] {
          assert a == [a[0]] + a[1..] && b == [b[0]] + b[1..];
        }
      }
    } else if a != [] && b != [] {
      StrLessStrict(a[1..], b[1..], []);
      assert a != b && a[0] == b[0] ==> a[1..] != b[1..] by {
        if a[0] == b[0] && a[1..] == b[1..] {
          assert a == [a[0]] + a[1..] && b == [b[0]] + b[1..];
        }
      }
    } else if a != [] {
      StrLessStrict(a[1..], [], []);
    }
  }

  lemma AtomLessStrict(a: Atom, b: Atom, c: Atom)
    ensures !AtomLess(a, a)
    ensures AtomLess(a, b) && AtomLess(b, c) ==> AtomLess(a, c)
    ensures a != b ==> AtomLess(a, b) || AtomLess(b, a)
    ensures AtomLess(a, b) ==> !AtomLess(b, a)
  {
    var x := if a.S? then a.s else [];
    var y := if b.S? then b.s else [];
    var z := if c.S? then c.s else [];
    StrLessStrict(x, y, z);
    StrLessStrict(x, x, x);
  }

  /** `KeyLess` is a strict total order. */
  lemma {:induction false} KeyLessStrict(a: seq<Atom>, b: seq<Atom>, c: seq<Atom>)
    ensures !KeyLess(a, a)
    ensures KeyLess(a, b) && KeyLess(b, c) ==> KeyLess(a, c)
    ensures a != b ==> KeyLess(a, b) || KeyLess(b, a)
    ensures KeyLess(a, b) ==> !KeyLess(b, a)
  {
    if a != [] && b != [] {
      var c' := if c != [] then c[1..] else [];
      KeyLessStrict(a[1..], b[1..], c');
      AtomLessStrict(a[0], b[0], if c != [] then c[0] else a[0]);
      AtomLessStrict(a[0], a[0], a[0]);
      assert a != b && a[0] == b[0] ==> a[1..] != b[1..] by {
        if a[0] == b[0] && a[1..] == b[1..] {
          assert a == [a[0]] + a[1..] && b == [b[0]] + b[1..];
        }
      }
    } else if a != [] {
      KeyLessStrict(a[1..], [], []);
    }
  }

  /** Strictly ascending by the key `f`; such a sequence has no repeated keys. */
  predicate SortedBy<T>(s: seq<T>, f: T -> seq<Atom>) {
    forall i, j :: 0 <= i < j < |s| ==> KeyLess(f(s[i]), f(s[j]))
  }

  /** `f` tells the elements of `s` apart. */
  predicate InjectiveOn<T(==)>(s: seq<T>, f: T -> seq<Atom>) {
    forall x, y :: x in s && y in s && f(x) == f(y) ==> x == y
  }

  /** Inserting into a sorted sequence, skipping an element already there. */
  function Insert<T(==,!new)>(x: T, s: seq<T>, f: T -> seq<Atom>): (r: seq<T>)
    requires SortedBy(s, f)
    requires forall y :: y in s && f(y) == f(x) ==> y == x
    ensures SortedBy(r, f)
    ensures forall y :: y in r <==> y == x || y in s
  {
    if s == [] then [x]
    else if x == s[0] then s
    else if KeyLess(f(x), f(s[0])) then
      forall j | 0 <= j < |s| ensures KeyLess(f(x), f(s[j])) {
        KeyLessStrict(f(x), f(s[0]), f(s[j]));
      }
      [x] + s
    else
      var rest := Insert(x, s[1..], f);
      KeyLessStrict(f(x), f(s[0]), f(x));
      assert KeyLess(f(s[0]), f(x));
      forall y | y in rest ensures KeyLess(f(s[0]), f(y)) {
        if y != x {
          var k :| 0 <= k < |s[1..]| && s[1..][k] == y;
          assert s[k + 1] == y;
        }
      }
      var r := [s[0]] + rest;
      forall i, j | 0 <= i < j < |r| ensures KeyLess(f(r[i]), f(r[j])) {
        if i == 0 {
          assert r[j] == rest[j - 1];
        } else {
          assert r[i] == rest[i - 1] && r[j] == rest[j - 1];
        }
      }
      r
  }

  /** The distinct elements of `xs` in ascending order of `f`. */
  function SortDistinct<T(==,!new)>(xs: seq<T>, f: T -> seq<Atom>): (r: seq<T>)
    requires InjectiveOn(xs, f)
    ensures SortedBy(r, f)
    ensures forall y :: y in r <==> y in xs
  {
    if xs == [] then []
    else
      var r := SortDistinct(xs[..|xs| - 1], f);
      Insert(xs[|xs| - 1], r, f)
  }

  /** One-component keys compare as their components. */
  lemma SingleKeyLess(x: Atom, y: Atom)
    ensures KeyLess([x], [y]) <==> AtomLess(x, y)
  {
    AtomLessStrict(x, y, x);
    if x == y {
      assert [x][1..] == [] && [y][1..] == [];
    }
  }

  /** No element occurs twice in a sorted sequence. */
  lemma SortedDistinct<T>(s: seq<T>, f: T -> seq<Atom>, i: int, j: int)
    requires SortedBy(s, f) && 0 <= i < |s| && 0 <= j < |s| && i != j
    ensures s[i] != s[j]
  {
    if i < j {
      KeyLessStrict(f(s[i]), f(s[j]), f(s[j]));
    } else {
      KeyLessStrict(f(s[j]), f(s[i]), f(s[i]));
    }
  }

  /** Two sorted sequences with the same elements are the same sequence: the
      order of the keys is determined by their set. */
  lemma {:induction false} SortedUnique<T>(a: seq<T>, b: seq<T>, f: T -> seq<Atom>)
    requires SortedBy(a, f) && SortedBy(b, f)
    requires forall y :: y in a <==> y in b
    ensures a == b
  {
    if a != [] && b != [] {
      assert a[0] in b && b[0] in a;
      if a[0] != b[0] {
        var i :| 0 <= i < |b| && b[i] == a[0];
        var j :| 0 <= j < |a| && a[j] == b[0];
        KeyLessStrict(f(a[0]), f(b[0]), f(a[0]));
        assert false;
      }
      forall y ensures y in a[1..] <==> y in b[1..] {
        if y in a[1..] {
          var k :| 0 <= k < |a[1..]| && a[1..][k] == y;
          SortedDistinct(a, f, 0, k + 1);
          assert y in b && y != b[0];
          var m :| 0 <= m < |b| && b[m] == y;
          assert b[1..][m - 1] == y;
        }
        if y in b[1..] {
          var k :| 0 <= k < |b[1..]| && b[1..][k] == y;
          SortedDistinct(b, f, 0, k + 1);
          assert y in a && y != a[0];
          var m :| 0 <= m < |a| && a[m] == y;
          assert a[1..][m - 1] == y;
        }
      }
      SortedUnique(a[1..], b[1..], f);
    } else {
      SameElementsEmpty(a, b);
    }
  }

  lemma SameElementsEmpty<T>(a: seq<T>, b: seq<T>)
    requires forall y :: y in a <==> y in b
    ensures a == [] <==> b == []
  {
    if a != [] {
      assert a[0] in b;
    }
    if b != [] {
      assert b[0] in a;
    }
  }
}
