/** Small shared vocabulary: optional values, results with an error, and the
    32-bit integer range of the C# `int` that site ids, punter ids and mine ids
    live in. */
module Common {

  datatype Option<+T> = None | Some(value: T)

  datatype Result<+T, +E> = Ok(value: T) | Err(error: E)

  const MinInt32: int := -0x8000_0000
  const MaxInt32: int := 0x7fff_ffff

  /** The values of a C# `int`. */
  type Int32 = x: int | MinInt32 <= x <= MaxInt32

  /** No element occurs twice. */
  predicate NoDup<T(==)>(s: seq<T>)
  {
    forall i, j :: 0 <= i < j < |s| ==> s[i] != s[j]
  }

  /** With no duplicates, every element occurs exactly once. */
  lemma {:induction false} NoDupCount<T>(s: seq<T>, x: T)
    requires NoDup(s)
    ensures multiset(s)[x] == if x in s then 1 else 0
  {
    if s != [] {
      var init := s[..|s| - 1];
      assert s == init + [s[|s| - 1]];
      assert NoDup(init);
      NoDupCount(init, x);
      assert s[|s| - 1] !in init;
    }
  }

  /** The elements of `s` that `keep` accepts, in order. */
  function Filter<T(!new)>(s: seq<T>, keep: T -> bool): (r: seq<T>)
    ensures forall x :: x in r <==> x in s && keep(x)
    ensures |r| <= |s|
  {
    if s == [] then []
    else (if keep(s[0]) then [s[0]] else []) + Filter(s[1..], keep)
  }

  lemma {:induction false} FilterNoDup<T(!new)>(s: seq<T>, keep: T -> bool)
    requires NoDup(s)
    ensures NoDup(Filter(s, keep))
  {
    if s != [] {
      var rest := Filter(s[1..], keep);
      assert NoDup(s[1..]);
      FilterNoDup(s[1..], keep);
      assert s[0] !in s[1..];
      var r := Filter(s, keep);
      if keep(s[0]) {
        assert r == [s[0]] + rest;
        forall i, j | 0 <= i < j < |r|
          ensures r[i] != r[j]
        {
          if i > 0 {
            assert r[i] == rest[i - 1] && r[j] == rest[j - 1];
          } else {
            assert r[j] in rest;
          }
        }
      } else {
        assert r == rest;
      }
    }
  }

  /** A filter that keeps every element changes nothing. */
  lemma {:induction false} FilterKeepsAll<T(!new)>(s: seq<T>, keep: T -> bool)
    requires forall i :: 0 <= i < |s| ==> keep(s[i])
    ensures Filter(s, keep) == s
  {
    if s != [] {
      FilterKeepsAll(s[1..], keep);
      assert [s[0]] + s[1..] == s;
    }
  }

  function Min(a: int, b: int): int
  {
    if a <= b then a else b
  }

  /** Regrouping a concatenation around a split point of its middle part. */
  lemma Regroup<T>(a: seq<T>, f: seq<T>, b: seq<T>, j: int)
    requires 0 <= j <= |f|
    ensures (a + f) + b == (a + f[..j]) + (f[j..] + b)
  {
    assert f == f[..j] + f[j..];
  }

  /** One more element of `f` taken after `a`. */
  lemma TakeOneMore<T>(a: seq<T>, f: seq<T>, j: int)
    requires 0 <= j < |f|
    ensures a + f[..j + 1] == (a + f[..j]) + [f[j]]
  {
    assert f[..j + 1] == f[..j] + [f[j]];
  }
}
