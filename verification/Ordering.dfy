/** The orders behind the engine's ordered maps and sets: strings compare character by
    character, paths component by component, and iteration visits keys in ascending order. */
module Ordering {

  ghost predicate StrictTotal<T(!new)>(less: (T, T) -> bool) {
    && (forall x, y :: x == y || less(x, y) || less(y, x))
    && (forall x, y :: less(x, y) ==> !less(y, x))
    && (forall x, y, z :: less(x, y) && less(y, z) ==> less(x, z))
  }

  ghost predicate Ascending<T>(less: (T, T) -> bool, s: seq<T>) {
    forall i, j | 0 <= i < j < |s| :: less(s[i], s[j])
  }

  predicate CharLess(a: char, b: char) {
    a < b
  }

  /** Lexicographic order of two sequences over a strict order of their elements. */
  predicate LexLess<T(==)>(less: (T, T) -> bool, a: seq<T>, b: seq<T>) {
    if b == [] then false
    else if a == [] then true
    else if a[0] == b[0] then LexLess(less, a[1..], b[1..])
    else less(a[0], b[0])
  }

  predicate StringLess(a: string, b: string) {
    LexLess(CharLess, a, b)
  }

  predicate ListLess(a: seq<string>, b: seq<string>) {
    LexLess(StringLess, a, b)
  }

  lemma {:induction false} LexTrichotomy<T(!new)>(less: (T, T) -> bool, a: seq<T>, b: seq<T>)
    requires StrictTotal(less)
    ensures a == b || LexLess(less, a, b) || LexLess(less, b, a)
    ensures LexLess(less, a, b) ==> !LexLess(less, b, a)
  {
    if a != [] && b != [] && a[0] == b[0] {
      LexTrichotomy(less, a[1..], b[1..]);
      assert a == [a[0]] + a[1..] && b == [b[0]] + b[1..];
    }
  }

  lemma {:induction false} LexTransitive<T(!new)>(less: (T, T) -> bool, a: seq<T>, b: seq<T>, c: seq<T>)
    requires StrictTotal(less)
    requires LexLess(less, a, b) && LexLess(less, b, c)
    ensures LexLess(less, a, c)
  {
    if a != [] && a[0] == b[0] == c[0] {
      LexTransitive(less, a[1..], b[1..], c[1..]);
    }
  }

  lemma StringLessIsTotal()
    ensures StrictTotal(StringLess)
  {
    assert StrictTotal(CharLess);
    forall x, y ensures x == y || StringLess(x, y) || StringLess(y, x)
                ensures StringLess(x, y) ==> !StringLess(y, x) {
      LexTrichotomy(CharLess, x, y);
    }
    forall x, y, z | StringLess(x, y) && StringLess(y, z) ensures StringLess(x, z) {
      LexTransitive(CharLess, x, y, z);
    }
  }

  lemma ListLessIsTotal()
    ensures StrictTotal(ListLess)
  {
    StringLessIsTotal();
    forall x, y ensures x == y || ListLess(x, y) || ListLess(y, x)
                ensures ListLess(x, y) ==> !ListLess(y, x) {
      LexTrichotomy(StringLess, x, y);
    }
    forall x, y, z | ListLess(x, y) && ListLess(y, z) ensures ListLess(x, z) {
      LexTransitive(StringLess, x, y, z);
    }
  }

  ghost predicate IsLeast<T>(less: (T, T) -> bool, x: T, s: set<T>) {
    x in s && forall y | y in s :: y == x || less(x, y)
  }

  lemma {:induction false} LeastExists<T(!new)>(less: (T, T) -> bool, s: set<T>)
    requires StrictTotal(less) && s != {}
    ensures exists x :: IsLeast(less, x, s)
    decreases |s|
  {
    var x :| x in s;
    if s == {x} {
      assert IsLeast(less, x, s);
    } else {
      LeastExists(less, s - {x});
      var rest :| IsLeast(less, rest, s - {x});
      assert IsLeast(less, if less(x, rest) then x else rest, s);
    }
  }

  /** The elements of a set in ascending order, as an ordered map or set iterates them. */
  function Sorted<T(!new, ==)>(less: (T, T) -> bool, s: set<T>): (r: seq<T>)
    requires StrictTotal(less)
    ensures forall x :: x in r <==> x in s
    ensures Ascending(less, r)
    decreases |s|
  {
    if s == {} then []
    else
      LeastExists(less, s);
      var x :| x in s && forall y | y in s :: y == x || less(x, y);
      [x] + Sorted(less, s - {x})
  }

  lemma HasElement<T>(s: seq<T>)
    requires s != []
    ensures exists x :: x in s
  {
    assert s[0] in s;
  }

  /** An ascending sequence is determined by its elements. */
  lemma {:induction false} AscendingUnique<T(!new)>(less: (T, T) -> bool, a: seq<T>, b: seq<T>)
    requires StrictTotal(less) && Ascending(less, a) && Ascending(less, b)
    requires forall x :: x in a <==> x in b
    ensures a == b
  {
    if a == [] {
      if b != [] {
        HasElement(b);
        assert false;
      }
    } else {
      assert a[0] in a && a[0] in b;
      assert b[0] in b && b[0] in a;
      assert a[0] == b[0];
      forall x ensures x in a[1..] <==> x in b[1..] {
        assert x in a <==> x == a[0] || x in a[1..];
        assert x in b <==> x == b[0] || x in b[1..];
        assert x in a[1..] ==> less(a[0], x);
        assert x in b[1..] ==> less(b[0], x);
      }
      AscendingUnique(less, a[1..], b[1..]);
      assert a == [a[0]] + a[1..] && b == [b[0]] + b[1..];
    }
  }

  lemma AscendingAppend<T>(less: (T, T) -> bool, s: seq<T>, x: T)
    requires Ascending(less, s) && forall y | y in s :: less(y, x)
    ensures Ascending(less, s + [x])
  {
  }

  /** However the elements of a set are collected, an ascending listing of them is the one an
      ordered map or set iterates. */
  lemma ListingIsSorted<T(!new)>(less: (T, T) -> bool, s: set<T>, listing: seq<T>)
    requires StrictTotal(less) && Ascending(less, listing)
    requires forall x :: x in listing <==> x in s
    ensures listing == Sorted(less, s)
  {
    AscendingUnique(less, listing, Sorted(less, s));
  }
}
