/** The cyclic assignment of media to units: unit u shows medium (u + i) mod n at sort position i. */
module Rotation {
  import opened Basics
  import opened Entities

  function Slot(u: nat, i: nat, n: nat): nat
    requires n > 0
  {
    (u + i) % n
  }

  function UnitRows(unit: string, u: nat, keys: seq<string>): seq<UnitMedia> {
    seq(|keys|, i requires 0 <= i < |keys| => UnitMedia(unit, keys[Slot(u, i, |keys|)], i, Image))
  }

  function MediaRows(units: seq<string>, keys: seq<string>): seq<UnitMedia> {
    if units == [] then []
    else
      var n := |units| - 1;
      MediaRows(units[..n], keys) + UnitRows(units[n], n, keys)
  }

  lemma {:induction false} RowsContain(units: seq<string>, keys: seq<string>, u: nat, i: nat)
    requires u < |units| && i < |keys|
    ensures UnitMedia(units[u], keys[Slot(u, i, |keys|)], i, Image) in MediaRows(units, keys)
  {
    var n := |units| - 1;
    if u < n {
      RowsContain(units[..n], keys, u, i);
    } else {
      assert UnitRows(units[n], n, keys)[i] == UnitMedia(units[u], keys[Slot(u, i, |keys|)], i, Image);
    }
  }

  lemma {:induction false} RowsAreAssigned(units: seq<string>, keys: seq<string>, r: UnitMedia)
      returns (u: nat, i: nat)
    requires r in MediaRows(units, keys)
    ensures u < |units| && i < |keys| && r == UnitMedia(units[u], keys[Slot(u, i, |keys|)], i, Image)
  {
    var n := |units| - 1;
    if r in MediaRows(units[..n], keys) {
      u, i := RowsAreAssigned(units[..n], keys, r);
    } else {
      u := n;
      i :| 0 <= i < |keys| && UnitRows(units[n], n, keys)[i] == r;
    }
  }

  // ----- Arithmetic of the rotation -----

  lemma Spread(n: int, d: int)
    requires n > 0
    ensures d >= 1 ==> n * d >= n
    ensures d <= -1 ==> n * d <= -n
  {
  }

  lemma DivFrom(a: int, q: int, r: int, n: int)
    requires n > 0 && a == q * n + r && 0 <= r < n
    ensures a / n == q && a % n == r
  {
    var q', r' := a / n, a % n;
    assert r' - r == n * (q - q') by {
      assert a == q' * n + r';
      assert n * (q - q') == q * n - q' * n;
    }
    Spread(n, q - q');
  }

  lemma ModEqual(a: int, b: int, n: int)
    requires n > 0 && a % n == b % n && -n < a - b < n
    ensures a == b
  {
    assert a - b == n * (a / n - b / n);
    Spread(n, a / n - b / n);
  }

  lemma ModShift(a: int, k: int, n: int)
    requires n > 0
    ensures (a + k * n) % n == a % n
  {
    assert a + k * n == (a / n + k) * n + a % n;
    DivFrom(a + k * n, a / n + k, a % n, n);
  }

  /** A slot shows m exactly when the unit's residue is m - i. */
  lemma SlotOffset(u: nat, i: nat, n: nat, m: nat)
    requires m < n
    ensures Slot(u, i, n) == m <==> u % n == (m - i) % n
  {
    if Slot(u, i, n) == m {
      assert u == (m - i) + ((u + i) / n) * n;
      ModShift(m - i, (u + i) / n, n);
    }
    if u % n == (m - i) % n {
      SumOfResidues(u, i, n, m);
      ModShift(m, u / n - (m - i) / n, n);
      DivFrom(m, 0, m, n);
    }
  }

  lemma SumOfResidues(u: nat, i: nat, n: nat, m: nat)
    requires m < n && u % n == (m - i) % n
    ensures u + i == m + (u / n - (m - i) / n) * n
  {
  }

  // ----- Latin square -----

  /** Each unit shows every medium exactly once: its row is a permutation. */
  lemma RowIsPermutation(u: nat, n: nat, m: nat)
    requires m < n
    ensures exists i :: 0 <= i < n && Slot(u, i, n) == m
    ensures forall i, j :: 0 <= i < n && 0 <= j < n && Slot(u, i, n) == Slot(u, j, n) ==> i == j
  {
    var i := (m - u) % n;
    assert u + i == m + (-((m - u) / n)) * n;
    ModShift(m, -((m - u) / n), n);
    DivFrom(m, 0, m, n);
    assert Slot(u, i, n) == m;
    forall i, j | 0 <= i < n && 0 <= j < n && Slot(u, i, n) == Slot(u, j, n)
      ensures i == j
    {
      ModEqual(u + i, u + j, n);
    }
  }

  /** In any n consecutive units, each sort position shows every medium exactly once. */
  lemma ColumnIsPermutation(w: nat, n: nat, i: nat, m: nat)
    requires m < n
    ensures exists u :: w <= u < w + n && Slot(u, i, n) == m
    ensures forall u, v :: w <= u < w + n && w <= v < w + n && Slot(u, i, n) == Slot(v, i, n) ==> u == v
  {
    RowIsPermutation(w + i, n, m);
    var k :| 0 <= k < n && Slot(w + i, k, n) == m;
    assert Slot(w + k, i, n) == m;
    forall u, v | w <= u < w + n && w <= v < w + n && Slot(u, i, n) == Slot(v, i, n)
      ensures u == v
    {
      ModEqual(u + i, v + i, n);
    }
  }

  // ----- Balance -----

  /** How many of the first U units show medium m at sort position i. */
  function Uses(U: nat, n: nat, i: nat, m: nat): nat
    requires n > 0
  {
    if U == 0 then 0 else Uses(U - 1, n, i, m) + if Slot(U - 1, i, n) == m then 1 else 0
  }

  lemma Successor(U: nat, n: nat)
    requires n > 0
    ensures U % n == n - 1 ==> (U + 1) / n == U / n + 1 && (U + 1) % n == 0
    ensures U % n < n - 1 ==> (U + 1) / n == U / n && (U + 1) % n == U % n + 1
  {
    var q, r := U / n, U % n;
    if r == n - 1 {
      DivFrom(U + 1, q + 1, 0, n);
    } else {
      DivFrom(U + 1, q, r + 1, n);
    }
  }

  /** The exact use count: floor(U / n), plus one for the first U mod n residues. */
  lemma {:induction false} UsesExact(U: nat, n: nat, i: nat, m: nat)
    requires m < n
    ensures Uses(U, n, i, m) == U / n + if (m - i) % n < U % n then 1 else 0
  {
    if U == 0 {
      DivFrom(0, 0, 0, n);
    } else {
      UsesExact(U - 1, n, i, m);
      SlotOffset(U - 1, i, n, m);
      Successor(U - 1, n);
    }
  }

  /** At every sort position, use counts of two media differ by at most one. */
  lemma Balanced(U: nat, n: nat, i: nat, m: nat, k: nat)
    requires m < n && k < n
    ensures U / n <= Uses(U, n, i, m) <= U / n + (if U % n == 0 then 0 else 1)
    ensures -1 <= Uses(U, n, i, m) - Uses(U, n, i, k) <= 1
  {
    UsesExact(U, n, i, m);
    UsesExact(U, n, i, k);
  }

  // ----- The rows and the table they are inserted into -----

  ghost predicate NoClash(rows: seq<UnitMedia>) {
    forall a, b :: 0 <= a < b < |rows| ==> !PlacementsClash(rows[a], rows[b])
  }

  /** The one INSERT of all rows meets both unique keys of UnitMedia. */
  lemma {:induction false} RowsNeverClash(units: seq<string>, keys: seq<string>)
    requires Distinct(units) && Distinct(keys)
    ensures NoClash(MediaRows(units, keys))
  {
    if units != [] {
      var n := |units| - 1;
      var before, last := MediaRows(units[..n], keys), UnitRows(units[n], n, keys);
      RowsNeverClash(units[..n], keys);
      var rows := before + last;
      forall a, b | 0 <= a < b < |rows|
        ensures !PlacementsClash(rows[a], rows[b])
      {
        if a < |before| <= b {
          assert rows[a] in before;
          var u, _ := RowsAreAssigned(units[..n], keys, rows[a]);
        } else if |before| <= a {
          var i, j := a - |before|, b - |before|;
          RowIsPermutation(n, |keys|, 0);
          assert Slot(n, i, |keys|) != Slot(n, j, |keys|);
        }
      }
    }
  }

  /** Units whose gallery shows a medium at a sort position. */
  ghost function Showing(table: set<UnitMedia>, units: seq<string>, medium: string, position: int): set<string> {
    set u | u in units && UnitMedia(u, medium, position, Image) in table
  }

  /** The count over the stored rows is the count of the rotation. */
  lemma {:induction false} ShowingCount(table: set<UnitMedia>, all: seq<string>, U: nat, keys: seq<string>,
                                         i: nat, m: nat)
    requires Distinct(all) && Distinct(keys) && U <= |all| && i < |keys| && m < |keys|
    requires forall r: UnitMedia :: r in table && r.unit in all ==> r in MediaRows(all, keys)
    requires forall r :: r in MediaRows(all, keys) ==> r in table
    ensures |Showing(table, all[..U], keys[m], i)| == Uses(U, |keys|, i, m)
  {
    if U > 0 {
      ShowingCount(table, all, U - 1, keys, i, m);
      var before := Showing(table, all[..U - 1], keys[m], i);
      var unit := all[U - 1];
      assert all[..U] == all[..U - 1] + [unit];
      var r := UnitMedia(unit, keys[m], i, Image);
      assert r in table <==> Slot(U - 1, i, |keys|) == m by {
        RowsContain(all, keys, U - 1, i);
        if r in table {
          var u, j := RowsAreAssigned(all, keys, r);
        }
      }
      assert unit !in before;
      if r in table {
        assert Showing(table, all[..U], keys[m], i) == before + {unit};
      } else {
        assert Showing(table, all[..U], keys[m], i) == before;
      }
    } else {
      assert Showing(table, all[..U], keys[m], i) == {};
    }
  }
}
