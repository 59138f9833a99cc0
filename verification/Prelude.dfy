/** Vocabulary shared by all modules: results, machine integers and ranges. */
module Prelude {

  datatype Option<+T> = None | Some(value: T)

  datatype Result<+T, +E> = Ok(value: T) | Err(error: E) {
    predicate IsFailure() { Err? }

    function PropagateFailure<U>(): Result<U, E>
      requires Err?
    {
      Err(error)
    }

    function Extract(): T
      requires Ok?
    {
      value
    }
  }

  const TWO_63: int := 0x8000_0000_0000_0000
  const TWO_64: int := 0x1_0000_0000_0000_0000

  type uint32 = n: int | 0 <= n < 0x1_0000_0000
  type uint64 = n: int | 0 <= n < 0x1_0000_0000_0000_0000

  /** The Go conversion int64(n) of a uint64: values from 2^63 on come out negative. */
  function ToInt64(n: uint64): int {
    if n < TWO_63 then n else n - TWO_64
  }

  /** v is the 64-bit signed number with the same bits as n. */
  predicate SameBits(v: int, n: uint64) {
    0 - TWO_63 <= v < TWO_63 && (n - v) % TWO_64 == 0
  }

  lemma ToInt64KeepsBits(n: uint64)
    ensures SameBits(ToInt64(n), n)
  {
  }

  function Abs(x: int): nat {
    if x < 0 then -x else x
  }

  /** big.Int.Uint64(): the low 64 bits of the magnitude, the sign being dropped. */
  function Low64(x: int): uint64 {
    Abs(x) % TWO_64
  }

  function Map<A, B>(f: A -> B, s: seq<A>): seq<B> {
    seq(|s|, i requires 0 <= i < |s| => f(s[i]))
  }

  /** Where the last element of a is in its rearrangement b, which without it rearranges the rest of a. */
  lemma Partner<T>(a: seq<T>, b: seq<T>) returns (k: nat)
    requires a != [] && multiset(a) == multiset(b)
    ensures k < |b| && b[k] == a[|a| - 1]
    ensures multiset(a[..|a| - 1]) == multiset(b[..k] + b[k + 1..])
  {
    var n := |a| - 1;
    assert a[n] in multiset(a);
    assert a[n] in multiset(b);
    k :| 0 <= k < |b| && b[k] == a[n];
    WithoutOne(a, n);
    WithoutOne(b, k);
    assert a[..n] + a[n + 1..] == a[..n];
  }

  lemma WithoutOne<T>(s: seq<T>, k: nat)
    requires k < |s|
    ensures multiset(s[..k] + s[k + 1..]) == multiset(s) - multiset{s[k]}
  {
    assert s == s[..k] + [s[k]] + s[k + 1..];
  }

  /** Rearranging commutes with mapping. */
  lemma {:induction false} MapPermuted<A, B>(f: A -> B, a: seq<A>, b: seq<A>)
    requires multiset(a) == multiset(b)
    ensures multiset(Map(f, a)) == multiset(Map(f, b))
  {
    if a == [] {
      assert |multiset(b)| == 0;
      return;
    }
    var n := |a| - 1;
    var k := Partner(a, b);
    MapPermuted(f, a[..n], b[..k] + b[k + 1..]);
    assert a[..n] + a[n + 1..] == a[..n];
    hide Map;
    MapWithoutOne(f, a, n);
    MapWithoutOne(f, b, k);
  }

  /** The same with the mapped sequences given by their elements. */
  lemma PermutedImages<A, B>(f: A -> B, a: seq<A>, b: seq<A>, fa: seq<B>, fb: seq<B>)
    requires multiset(a) == multiset(b) && |fa| == |a| && |fb| == |b|
    requires forall i :: 0 <= i < |a| ==> fa[i] == f(a[i])
    requires forall i :: 0 <= i < |b| ==> fb[i] == f(b[i])
    ensures multiset(fa) == multiset(fb)
  {
    MapPermuted(f, a, b);
    assert fa == Map(f, a) && fb == Map(f, b);
  }

  lemma MapWithoutOne<A, B>(f: A -> B, s: seq<A>, k: nat)
    requires k < |s|
    ensures multiset(Map(f, s)) == multiset(Map(f, s[..k] + s[k + 1..])) + multiset{f(s[k])}
  {
    var rest := Map(f, s[..k] + s[k + 1..]);
    assert Map(f, s) == rest[..k] + [f(s[k])] + rest[k..];
    assert rest == rest[..k] + rest[k..];
  }

  /** What holds of all elements holds of a rearrangement. */
  lemma {:induction false} HoldsRearranged<T>(p: T -> bool, a: seq<T>, b: seq<T>)
    requires multiset(a) == multiset(b) && forall i :: 0 <= i < |b| ==> p(b[i])
    ensures forall i :: 0 <= i < |a| ==> p(a[i])
  {
    forall i | 0 <= i < |a| ensures p(a[i]) {
      assert a[i] in multiset(a);
      assert a[i] in multiset(b);
    }
  }

  // ---------------------------------------------------------------- sums

  function SumBy<T>(s: seq<T>, f: T -> nat): nat {
    if s == [] then 0 else SumBy(s[..|s| - 1], f) + f(s[|s| - 1])
  }

  lemma {:induction false} SumByConcat<T>(a: seq<T>, b: seq<T>, f: T -> nat)
    ensures SumBy(a + b, f) == SumBy(a, f) + SumBy(b, f)
    decreases |b|
  {
    if b == [] {
      assert a + b == a;
    } else {
      assert (a + b)[..|a + b| - 1] == a + b[..|b| - 1];
      SumByConcat(a, b[..|b| - 1], f);
    }
  }

  lemma SumBySnoc<T>(s: seq<T>, x: T, f: T -> nat)
    ensures SumBy(s + [x], f) == SumBy(s, f) + f(x)
  {
    assert (s + [x])[..|s|] == s;
  }

  lemma SumByWithout<T>(s: seq<T>, k: nat, f: T -> nat)
    requires k < |s|
    ensures SumBy(s, f) == SumBy(s[..k] + s[k + 1..], f) + f(s[k])
  {
    hide SumBy;
    var a, b := s[..k], s[k + 1..];
    assert s == (a + [s[k]]) + b;
    SumByConcat(a + [s[k]], b, f);
    SumByConcat(a, b, f);
    SumBySnoc(a, s[k], f);
  }

  /** Sums do not depend on the order. */
  lemma {:induction false} SumByPermuted<T>(a: seq<T>, b: seq<T>, f: T -> nat)
    requires multiset(a) == multiset(b)
    ensures SumBy(a, f) == SumBy(b, f)
  {
    if a == [] {
      assert |multiset(b)| == 0;
      return;
    }
    hide SumBy;
    var n := |a| - 1;
    var k := Partner(a, b);
    SumByPermuted(a[..n], b[..k] + b[k + 1..], f);
    SumByWithout(b, k, f);
    SumByWithout(a, n, f);
    assert a[..n] + a[n + 1..] == a[..n];
  }

  lemma SumByPrefix<T>(s: seq<T>, i: nat, f: T -> nat)
    requires i <= |s|
    ensures SumBy(s[..i], f) <= SumBy(s, f)
  {
    assert s == s[..i] + s[i..];
    SumByConcat(s[..i], s[i..], f);
  }

  // ---------------------------------------------------------------- sorting

  ghost predicate SortedBy<T>(s: seq<T>, key: T -> nat) {
    forall i, j :: 0 <= i < j < |s| ==> key(s[i]) <= key(s[j])
  }

  /** Stands for the library sorts: some permutation sorted by the key. */
  method SortBy<T>(s: seq<T>, key: T -> nat) returns (r: seq<T>)
    ensures SortedBy(r, key) && multiset(r) == multiset(s)
  {
    r := [];
    for i := 0 to |s|
      invariant SortedBy(r, key) && multiset(r) == multiset(s[..i])
    {
      var k := 0;
      while k < |r| && key(r[k]) <= key(s[i])
        invariant 0 <= k <= |r| && forall j :: 0 <= j < k ==> key(r[j]) <= key(s[i])
      {
        k := k + 1;
      }
      InsertSortedBy(r, k, s[i], key);
      Split(r, k, s[i], s, i);
      r := r[..k] + [s[i]] + r[k..];
    }
    assert s[..|s|] == s;
  }

  lemma InsertSortedBy<T>(r: seq<T>, k: nat, x: T, key: T -> nat)
    requires k <= |r| && SortedBy(r, key)
    requires (forall j :: 0 <= j < k ==> key(r[j]) <= key(x)) && (k < |r| ==> key(x) <= key(r[k]))
    ensures SortedBy(r[..k] + [x] + r[k..], key)
  {
  }

  lemma Split<T>(r: seq<T>, k: nat, x: T, s: seq<T>, i: nat)
    requires k <= |r| && i < |s| && s[i] == x && multiset(r) == multiset(s[..i])
    ensures multiset(r[..k] + [x] + r[k..]) == multiset(s[..i + 1])
  {
    assert r == r[..k] + r[k..];
    assert s[..i + 1] == s[..i] + [x];
  }
}
