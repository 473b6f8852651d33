/** Small vocabulary shared by every module: optional values, results, and
    the two string operations the seed uses. */
module Basics {

  datatype Option<+T> = None | Some(value: T)

  datatype Result<+T, +E> = Ok(value: T) | Err(error: E)

  /** The result of an awaited statement that yields no value. */
  datatype Outcome<+E> = Pass | Fail(error: E)

  function Get<K, V>(t: map<K, V>, k: K): Option<V> {
    if k in t then Some(t[k]) else None
  }

  predicate StartsWith(s: string, prefix: string) {
    prefix <= s
  }

  function LowerChar(c: char): char {
    if 'A' <= c <= 'Z' then (c as int + 32) as char else c
  }

  /** r is s with each of A to Z replaced by its small letter, 32 code points on. */
  ghost predicate Lowered(s: string, r: string) {
    && |r| == |s|
    && forall i :: 0 <= i < |s| ==>
         if 'A' <= s[i] <= 'Z' then r[i] as int == s[i] as int + 32 else r[i] == s[i]
  }

  /** Lower-casing restricted to ASCII letters. */
  function Lower(s: string): (r: string)
    ensures Lowered(s, r)
  {
    seq(|s|, i requires 0 <= i < |s| => LowerChar(s[i]))
  }

  /** Lower-casing leaves no capital, and has one result only. */
  lemma LowerExact(s: string)
    ensures forall c :: c in Lower(s) ==> !('A' <= c <= 'Z')
    ensures forall r :: Lowered(s, r) ==> r == Lower(s)
  {
    forall r | Lowered(s, r)
      ensures r == Lower(s)
    {
      assert forall i :: 0 <= i < |s| ==> r[i] == Lower(s)[i];
    }
  }

  /** amount is p / 100 to the nearest integer, halves away from zero. */
  ghost predicate Rounded(p: int, amount: int) {
    && -50 <= 100 * amount - p <= 50
    && (100 * amount - p == 50 ==> p >= 0)
    && (100 * amount - p == -50 ==> p < 0)
  }

  lemma RoundedOnce(p: int, a: int, b: int)
    requires Rounded(p, a) && Rounded(p, b)
    ensures a == b
  {
  }

  ghost predicate Distinct<T>(xs: seq<T>) {
    forall i, j :: 0 <= i < j < |xs| ==> xs[i] != xs[j]
  }

  lemma SameElements<T>(xs: seq<T>, ys: seq<T>)
    requires multiset(xs) == multiset(ys)
    ensures forall x :: x in xs <==> x in ys
  {
    forall x
      ensures x in xs <==> x in ys
    {
      assert x in xs <==> x in multiset(xs);
      assert x in ys <==> x in multiset(ys);
    }
  }
}
