/** Sorting by a strict total order. The order stands for the database's
    collation, which the seed relies on when it lists units by publicCode. */
module Ordering {

  ghost predicate StrictTotal(less: (string, string) -> bool) {
    && (forall a :: !less(a, a))
    && (forall a, b, c :: less(a, b) && less(b, c) ==> less(a, c))
    && (forall a, b :: a == b || less(a, b) || less(b, a))
  }

  ghost predicate Ascending(xs: seq<string>, less: (string, string) -> bool) {
    forall i, j :: 0 <= i < j < |xs| ==> less(xs[i], xs[j])
  }

  /** xs lists the members of m, each once, in ascending order. */
  ghost predicate Lists(xs: seq<string>, m: set<string>, less: (string, string) -> bool) {
    Ascending(xs, less) && forall x :: x in xs <==> x in m
  }

  /** A set has only one ascending listing, whatever order its rows are stored in. */
  lemma {:induction false} ListingUnique(xs: seq<string>, ys: seq<string>, m: set<string>,
                                         less: (string, string) -> bool)
    requires StrictTotal(less)
    requires Lists(xs, m, less) && Lists(ys, m, less)
    ensures xs == ys
  {
    NothingToList(xs, m, less);
    NothingToList(ys, m, less);
    if xs != [] {
      var x := xs[0];
      assert x in m;
      assert x in ys;
      LeastFirst(xs, ys, m, less);
      TailLists(xs, m, less);
      TailLists(ys, m, less);
      ListingUnique(xs[1..], ys[1..], m - {x}, less);
      assert xs == [x] + xs[1..] && ys == [x] + ys[1..];
    }
  }

  lemma NothingToList(xs: seq<string>, m: set<string>, less: (string, string) -> bool)
    requires Lists(xs, m, less)
    ensures xs == [] <==> m == {}
  {
    if xs != [] {
      assert xs[0] in m;
    }
  }

  lemma LeastFirst(xs: seq<string>, ys: seq<string>, m: set<string>, less: (string, string) -> bool)
    requires StrictTotal(less)
    requires Lists(xs, m, less) && Lists(ys, m, less) && xs != [] && ys != []
    ensures xs[0] == ys[0]
  {
    assert xs[0] in m && ys[0] in m;
    assert forall i :: 0 <= i < |xs| ==> xs[i] == xs[0] || less(xs[0], xs[i]);
    assert forall j :: 0 <= j < |ys| ==> ys[j] == ys[0] || less(ys[0], ys[j]);
  }

  lemma TailLists(xs: seq<string>, m: set<string>, less: (string, string) -> bool)
    requires StrictTotal(less) && xs != [] && Lists(xs, m, less)
    ensures Lists(xs[1..], m - {xs[0]}, less)
  {
  }

  lemma AscendingIsDistinct(xs: seq<string>, less: (string, string) -> bool)
    requires StrictTotal(less) && Ascending(xs, less)
    ensures forall i, j :: 0 <= i < j < |xs| ==> xs[i] != xs[j]
  {
  }

  function Insert(x: string, xs: seq<string>, less: (string, string) -> bool): seq<string> {
    if xs == [] then [x]
    else if less(x, xs[0]) then [x] + xs
    else [xs[0]] + Insert(x, xs[1..], less)
  }

  lemma {:induction false} InsertLists(x: string, xs: seq<string>, m: set<string>,
                                       less: (string, string) -> bool)
    requires StrictTotal(less) && Lists(xs, m, less) && x !in m
    ensures Lists(Insert(x, xs, less), m + {x}, less)
  {
    if xs == [] {
    } else if less(x, xs[0]) {
      var ys := [x] + xs;
      forall i, j | 0 <= i < j < |ys|
        ensures less(ys[i], ys[j])
      {
        if i == 0 && j > 1 {
          assert less(xs[0], xs[j - 1]);
        }
      }
    } else {
      assert xs[0] in m;
      TailLists(xs, m, less);
      InsertLists(x, xs[1..], m - {xs[0]}, less);
      var tail := Insert(x, xs[1..], less);
      var ys := [xs[0]] + tail;
      assert Insert(x, xs, less) == ys;
      forall i, j | 0 <= i < j < |ys|
        ensures less(ys[i], ys[j])
      {
        assert ys[j] in tail;
        if i == 0 {
          if ys[j] != x {
            var k :| 0 <= k < |xs| && xs[k] == ys[j];
          }
        } else {
          assert less(tail[i - 1], tail[j - 1]);
        }
      }
      forall z
        ensures z in ys <==> z in m + {x}
      {
        assert z in ys <==> z == xs[0] || z in tail;
      }
    }
  }

  /** The ascending listing of a set. */
  ghost function SortedOf(m: set<string>, less: (string, string) -> bool): seq<string> {
    if m == {} then []
    else
      var x :| x in m;
      Insert(x, SortedOf(m - {x}, less), less)
  }

  lemma {:induction false} SortedOfLists(m: set<string>, less: (string, string) -> bool)
    requires StrictTotal(less)
    ensures Lists(SortedOf(m, less), m, less)
  {
    if m == {} {
    } else {
      var x :| x in m && SortedOf(m, less) == Insert(x, SortedOf(m - {x}, less), less);
      SortedOfLists(m - {x}, less);
      InsertLists(x, SortedOf(m - {x}, less), m - {x}, less);
      assert m - {x} + {x} == m;
    }
  }

  /** Comparison by code units, one instance of the abstract order. */
  predicate LexLess(a: string, b: string) {
    b != [] && (a == [] || a[0] < b[0] || (a[0] == b[0] && LexLess(a[1..], b[1..])))
  }

  lemma {:induction false} LexIrreflexive(a: string)
    ensures !LexLess(a, a)
  {
    if a != [] {
      LexIrreflexive(a[1..]);
    }
  }

  lemma {:induction false} LexTransitive(a: string, b: string, c: string)
    requires LexLess(a, b) && LexLess(b, c)
    ensures LexLess(a, c)
  {
    if a != [] && a[0] == b[0] == c[0] {
      LexTransitive(a[1..], b[1..], c[1..]);
    }
  }

  lemma {:induction false} LexTotal(a: string, b: string)
    ensures a == b || LexLess(a, b) || LexLess(b, a)
  {
    if a != [] && b != [] && a[0] == b[0] {
      LexTotal(a[1..], b[1..]);
      assert a == [a[0]] + a[1..] && b == [b[0]] + b[1..];
    }
  }

  lemma LexIsStrictTotal()
    ensures StrictTotal(LexLess)
  {
    forall a {
      LexIrreflexive(a);
    }
    forall a, b, c | LexLess(a, b) && LexLess(b, c)
      ensures LexLess(a, c)
    {
      LexTransitive(a, b, c);
    }
    forall a, b
      ensures a == b || LexLess(a, b) || LexLess(b, a)
    {
      LexTotal(a, b);
    }
  }
}
