/** Optional values and results, and the few sequence facts every component shares. */
module Wrappers {

  datatype Option<+T> = None | Some(value: T)

  /** A value, or the error the source raises instead. */
  datatype Result<+T, +E> = Ok(value: T) | Err(error: E)

  /** A prefix test written with slices, so that both directions are plain equalities. */
  predicate StartsWith<T(==)>(s: seq<T>, prefix: seq<T>) {
    |prefix| <= |s| && s[..|prefix|] == prefix
  }

  predicate EndsWith<T(==)>(s: seq<T>, suffix: seq<T>) {
    |suffix| <= |s| && s[|s| - |suffix|..] == suffix
  }

  lemma PrefixAndRest<T>(s: seq<T>, prefix: seq<T>)
    requires StartsWith(s, prefix)
    ensures prefix + s[|prefix|..] == s
  {
    assert s[..|prefix|] + s[|prefix|..] == s;
  }

  lemma AroundElement<T>(s: seq<T>, n: nat)
    requires n < |s|
    ensures s == s[..n] + ([s[n]] + s[n + 1..])
  {
  }

  lemma EmptyConcat<T>(s: seq<T>)
    ensures [] + s == s && s + [] == s
  {
  }

  lemma SliceOneMore<T>(s: seq<T>, from: nat, end: nat, next: nat)
    requires from <= end < |s| && next == end + 1
    ensures s[from..next] == s[from..end] + [s[end]]
  {
  }

  lemma ConcatStartsWith<T>(prefix: seq<T>, rest: seq<T>)
    ensures StartsWith(prefix + rest, prefix)
  {
  }

  lemma StartsWithTransitive<T>(a: seq<T>, b: seq<T>, c: seq<T>)
    requires StartsWith(a, b) && StartsWith(b, c)
    ensures StartsWith(a, c)
  {
    assert a[..|c|] == a[..|b|][..|c|];
  }
}
