// Insertion sort over any strict total order. A collection without repeats has exactly
// one ascending arrangement, so sorting forgets the order a map or a store listed it in.
module Sorting {
  import opened Foundations

  ghost predicate StrictOrder<T(!new)>(less: (T, T) -> bool) {
    && (forall a :: !less(a, a))
    && (forall a, b, c :: less(a, b) && less(b, c) ==> less(a, c))
    && (forall a, b :: a == b || less(a, b) || less(b, a))
  }

  ghost predicate Ascending<T>(less: (T, T) -> bool, s: seq<T>) {
    forall i, j :: 0 <= i < j < |s| ==> less(s[i], s[j])
  }

  predicate Distinct<T(==)>(s: seq<T>) { forall i, j :: 0 <= i < j < |s| ==> s[i] != s[j] }

  ghost predicate SameElements<T(!new)>(a: seq<T>, b: seq<T>) { forall x :: x in a <==> x in b }

  // One enumeration of a set.
  ghost function AnyOrder<T(!new)>(elements: set<T>): (r: seq<T>)
    ensures Distinct(r) && forall x :: x in r <==> x in elements
  {
    if elements == {} then []
    else
      var x :| x in elements;
      [x] + AnyOrder(elements - {x})
  }

  function Insert<T>(less: (T, T) -> bool, x: T, s: seq<T>): (r: seq<T>)
    ensures |r| == |s| + 1
  {
    if s == [] || less(x, s[0]) then [x] + s else [s[0]] + Insert(less, x, s[1..])
  }

  function Sort<T>(less: (T, T) -> bool, s: seq<T>): (r: seq<T>)
    ensures |r| == |s|
  {
    if s == [] then [] else Insert(less, s[0], Sort(less, s[1..]))
  }

  lemma {:induction false} InsertElements<T>(less: (T, T) -> bool, x: T, s: seq<T>)
    ensures forall y :: y in Insert(less, x, s) <==> y == x || y in s
  {
    if s != [] && !less(x, s[0]) {
      InsertElements(less, x, s[1..]);
      assert s == [s[0]] + s[1..];
    }
  }

  lemma {:induction false} SortElements<T(!new)>(less: (T, T) -> bool, s: seq<T>)
    ensures SameElements(Sort(less, s), s)
  {
    if s != [] {
      SortElements(less, s[1..]);
      InsertElements(less, s[0], Sort(less, s[1..]));
      assert s == [s[0]] + s[1..];
    }
  }

  lemma {:induction false} InsertAscends<T(!new)>(less: (T, T) -> bool, x: T, s: seq<T>)
    requires StrictOrder(less) && Ascending(less, s) && x !in s
    ensures Ascending(less, Insert(less, x, s))
  {
    if s != [] && !less(x, s[0]) {
      InsertAscends(less, x, s[1..]);
      InsertElements(less, x, s[1..]);
      var rest := Insert(less, x, s[1..]);
      forall j | 0 <= j < |rest| ensures less(s[0], rest[j]) {
        assert rest[j] in rest;
        if rest[j] != x {
          var k :| 0 <= k < |s[1..]| && s[1..][k] == rest[j];
          assert s[1 + k] == rest[j];
        }
      }
    }
  }

  lemma {:induction false} SortAscends<T(!new)>(less: (T, T) -> bool, s: seq<T>)
    requires StrictOrder(less) && Distinct(s)
    ensures Ascending(less, Sort(less, s)) && SameElements(Sort(less, s), s)
  {
    SortElements(less, s);
    if s != [] {
      SortAscends(less, s[1..]);
      assert s[0] !in s[1..];
      InsertAscends(less, s[0], Sort(less, s[1..]));
    }
  }

  // The least element comes first, in any ascending arrangement of the same elements.
  lemma AscendingHead<T(!new)>(less: (T, T) -> bool, a: seq<T>, b: seq<T>)
    requires StrictOrder(less) && Ascending(less, a) && Ascending(less, b) && SameElements(a, b) && a != []
    ensures b != [] && a[0] == b[0] && SameElements(a[1..], b[1..])
  {
    assert a[0] in a;
    assert b != [];
    assert b[0] in b;
    var i :| 0 <= i < |b| && b[i] == a[0];
    var j :| 0 <= j < |a| && a[j] == b[0];
    forall x ensures x in a[1..] <==> x in b[1..] {
      assert a == [a[0]] + a[1..] && b == [b[0]] + b[1..];
      assert (x in a) == (x in b);
      assert a[0] !in a[1..] && b[0] !in b[1..];
    }
  }

  lemma {:induction false} AscendingUnique<T(!new)>(less: (T, T) -> bool, a: seq<T>, b: seq<T>)
    requires StrictOrder(less) && Ascending(less, a) && Ascending(less, b) && SameElements(a, b)
    ensures a == b
  {
    if a != [] {
      AscendingHead(less, a, b);
      AscendingUnique(less, a[1..], b[1..]);
      assert a == [a[0]] + a[1..] && b == [b[0]] + b[1..];
    } else if b != [] {
      AscendingHead(less, b, a);
    }
  }

  // Two enumerations of one collection sort to the same sequence.
  lemma SortForgetsOrder<T(!new)>(less: (T, T) -> bool, a: seq<T>, b: seq<T>)
    requires StrictOrder(less) && Distinct(a) && Distinct(b) && SameElements(a, b)
    ensures Sort(less, a) == Sort(less, b)
  {
    SortAscends(less, a);
    SortAscends(less, b);
    forall x ensures x in Sort(less, a) <==> x in Sort(less, b) {
      assert (x in a) == (x in b);
    }
    AscendingUnique(less, Sort(less, a), Sort(less, b));
  }

  lemma LexIsStrictOrder()
    ensures StrictOrder(LexLess)
  {
    forall a: string, b: string, c: string
      ensures !LexLess(a, a) && (LexLess(a, b) && LexLess(b, c) ==> LexLess(a, c)) && (a == b || LexLess(a, b) || LexLess(b, a))
    {
      LexTotal(a, b);
      if LexLess(a, b) && LexLess(b, c) {
        LexTransitive(a, b, c);
      }
    }
  }
}
