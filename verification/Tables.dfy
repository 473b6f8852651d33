/** Keyed tables and upserts, for any table of the seed.
    An entry is what one upsert call carries: its key, its create payload and its
    update payload. row(entry, was) is the row the call leaves behind when the row
    stored before was was. */
module Tables {
  import opened Basics

  function Upsert<K, E, V>(t: map<K, V>, k: K, entry: E, row: (E, Option<V>) -> V): map<K, V> {
    t[k := row(entry, Get(t, k))]
  }

  /** One upsert per entry, in the order of the list. */
  function UpsertAll<K, E, V>(t: map<K, V>, list: seq<E>, key: E -> K, row: (E, Option<V>) -> V): map<K, V> {
    if list == [] then t
    else
      var n := |list| - 1;
      Upsert(UpsertAll(t, list[..n], key, row), key(list[n]), list[n], row)
  }

  /** The entries of a list by key. */
  function Index<K, E>(list: seq<E>, key: E -> K): map<K, E> {
    if list == [] then map[]
    else
      var n := |list| - 1;
      Index(list[..n], key)[key(list[n]) := list[n]]
  }

  /** All entries at once: each listed row is rewritten from its stored value,
      every other row stays. */
  function Bulk<K, E, V>(t: map<K, V>, entries: map<K, E>, row: (E, Option<V>) -> V): map<K, V> {
    map k | k in t.Keys + entries.Keys :: if k in entries then row(entries[k], Get(t, k)) else t[k]
  }

  /** Entries that share a key are the same entry. */
  ghost predicate Consistent<K, E>(list: seq<E>, key: E -> K) {
    forall i, j :: 0 <= i < j < |list| && key(list[i]) == key(list[j]) ==> list[i] == list[j]
  }

  /** Repeating an upsert changes nothing. */
  ghost predicate Repeatable<E(!new), V(!new)>(row: (E, Option<V>) -> V) {
    forall e: E, o: Option<V> :: Again(row, e, o)
  }

  ghost predicate Again<E, V>(row: (E, Option<V>) -> V, e: E, o: Option<V>) {
    row(e, Some(row(e, o))) == row(e, o)
  }

  lemma {:induction false} IndexKeys<K, E>(list: seq<E>, key: E -> K)
    ensures forall e :: e in list ==> key(e) in Index(list, key)
    ensures forall k :: k in Index(list, key) ==> Index(list, key)[k] in list && key(Index(list, key)[k]) == k
  {
    if list != [] {
      var n := |list| - 1;
      IndexKeys(list[..n], key);
      assert list == list[..n] + [list[n]];
    }
  }

  lemma IndexAt<K, E>(list: seq<E>, key: E -> K, e: E)
    requires Consistent(list, key) && e in list
    ensures key(e) in Index(list, key) && Index(list, key)[key(e)] == e
  {
  }

  /** Lists with the same entries have the same index. */
  lemma IndexOfSame<K, E>(xs: seq<E>, ys: seq<E>, key: E -> K)
    requires Consistent(xs, key) && Consistent(ys, key)
    requires forall e :: e in xs <==> e in ys
    ensures Index(xs, key) == Index(ys, key)
  {
    IndexKeys(xs, key);
    IndexKeys(ys, key);
    var a, b := Index(xs, key), Index(ys, key);
    forall k | k in a
      ensures k in b && b[k] == a[k]
    {
      IndexAt(ys, key, a[k]);
    }
    forall k | k in b
      ensures k in a
    {
      IndexAt(xs, key, b[k]);
    }
  }

  /** A loop of upserts is one bulk update. */
  lemma {:induction false} FoldIsBulk<K, E(!new), V(!new)>(t: map<K, V>, list: seq<E>, key: E -> K,
                                                           row: (E, Option<V>) -> V)
    requires Consistent(list, key) && Repeatable(row)
    ensures UpsertAll(t, list, key, row) == Bulk(t, Index(list, key), row)
  {
    if list != [] {
      var n := |list| - 1;
      var init, last := list[..n], list[n];
      FoldIsBulk(t, init, key, row);
      if key(last) in Index(init, key) {
        IndexKeys(init, key);
        var e := Index(init, key)[key(last)];
        var i :| 0 <= i < n && list[i] == e;
        assert key(list[i]) == key(list[n]);
        assert e == last;
      }
      BulkExtends(t, Index(init, key), key(last), last, row);
    }
  }

  lemma BulkExtends<K, E(!new), V(!new)>(t: map<K, V>, entries: map<K, E>, k: K, e: E, row: (E, Option<V>) -> V)
    requires Repeatable(row)
    requires k in entries ==> entries[k] == e
    ensures Upsert(Bulk(t, entries, row), k, e, row) == Bulk(t, entries[k := e], row)
  {
    assert Again(row, e, Get(t, k));
  }

  /** The order of the upserts does not matter. */
  lemma AnyOrder<K, E(!new), V(!new)>(t: map<K, V>, xs: seq<E>, ys: seq<E>, key: E -> K, row: (E, Option<V>) -> V)
    requires Consistent(xs, key) && Consistent(ys, key) && Repeatable(row)
    requires forall e :: e in xs <==> e in ys
    ensures UpsertAll(t, xs, key, row) == UpsertAll(t, ys, key, row)
  {
    FoldIsBulk(t, xs, key, row);
    FoldIsBulk(t, ys, key, row);
    IndexOfSame(xs, ys, key);
  }

  /** A row that was not there before was created by an entry of the list. */
  lemma Created<K, E(!new), V(!new)>(t: map<K, V>, list: seq<E>, key: E -> K, row: (E, Option<V>) -> V, k: K)
      returns (i: nat)
    requires Consistent(list, key) && Repeatable(row)
    requires k in UpsertAll(t, list, key, row) && k !in t
    ensures i < |list| && key(list[i]) == k && UpsertAll(t, list, key, row)[k] == row(list[i], None)
  {
    FoldIsBulk(t, list, key, row);
    IndexKeys(list, key);
    i :| 0 <= i < |list| && list[i] == Index(list, key)[k];
  }

  // ----- Tables caught part-way -----

  /** u is t with some of the entries applied. */
  ghost predicate Partial<K, E, V>(t: map<K, V>, u: map<K, V>, entries: map<K, E>, row: (E, Option<V>) -> V) {
    && t.Keys <= u.Keys <= t.Keys + entries.Keys
    && forall k :: k in u ==> (k in t && u[k] == t[k]) || (k in entries && u[k] == row(entries[k], Get(t, k)))
  }

  /** Entries of two runs that agree on every update and never undo each other. */
  ghost predicate Agree<K, E, V(!new)>(a: map<K, E>, b: map<K, E>, row: (E, Option<V>) -> V) {
    && a.Keys == b.Keys
    && (forall k, v: V :: k in a ==> row(a[k], Some(v)) == row(b[k], Some(v)))
    && (forall k, o: Option<V> :: k in a ==> Undisturbed(row, a[k], b[k], o))
  }

  ghost predicate Undisturbed<E, V>(row: (E, Option<V>) -> V, first: E, second: E, o: Option<V>) {
    row(second, Some(row(first, o))) == row(first, o)
  }

  /** Rows created by the first run keep the first run's entry. */
  function Blend<K, E, V>(t: map<K, V>, u: map<K, V>, a: map<K, E>, b: map<K, E>): map<K, E>
    requires a.Keys == b.Keys
  {
    map k | k in b :: if k in u && k !in t then a[k] else b[k]
  }

  lemma PartialUpsert<K, E, V(!new)>(t: map<K, V>, u: map<K, V>, entries: map<K, E>,
                                     row: (E, Option<V>) -> V, k: K)
    requires Partial(t, u, entries, row) && Agree(entries, entries, row) && k in entries
    ensures Partial(t, Upsert(u, k, entries[k], row), entries, row)
  {
    if k in u && k in t && u[k] == t[k] {
    } else if k in u {
      assert Undisturbed(row, entries[k], entries[k], Get(t, k));
    }
  }

  /** Finishing a half-done table gives the table an undisturbed run would give. */
  lemma Resume<K, E, V(!new)>(t: map<K, V>, u: map<K, V>, a: map<K, E>, b: map<K, E>, row: (E, Option<V>) -> V)
    requires Partial(t, u, a, row) && Agree(a, b, row)
    ensures Bulk(u, b, row) == Bulk(t, Blend(t, u, a, b), row)
  {
    var c := Blend(t, u, a, b);
    forall k | k in t.Keys + b.Keys
      ensures Bulk(u, b, row)[k] == Bulk(t, c, row)[k]
    {
      if k in b && k in u && !(k in t && u[k] == t[k]) {
        assert Undisturbed(row, a[k], b[k], Get(t, k));
        assert row(b[k], Some(u[k])) == u[k];
      }
    }
  }
}
