/** Order-preserving deletion on sequences: `a` is a subsequence of `b` when `a`
    is what is left of `b` after dropping some of its elements. */
module Seqs {

  predicate Subsequence<T(==)>(a: seq<T>, b: seq<T>)
    decreases |b|
  {
    if a == [] then true
    else if b == [] then false
    else (a[0] == b[0] && Subsequence(a[1..], b[1..])) || Subsequence(a, b[1..])
  }

  lemma {:induction false} SubsequenceReflexive<T>(a: seq<T>)
    ensures Subsequence(a, a)
    decreases |a|
  {
    if a != [] {
      SubsequenceReflexive(a[1..]);
    }
  }

  /** Dropping a prefix of the longer sequence keeps the relation. */
  lemma {:induction false} SubsequenceOfSuffix<T>(a: seq<T>, b: seq<T>, k: nat)
    requires k <= |b|
    requires Subsequence(a, b[k..])
    ensures Subsequence(a, b)
    decreases k
  {
    if k > 0 {
      assert b[k - 1..][1..] == b[k..];
      SubsequenceOfSuffix(a, b, k - 1);
    }
  }

  lemma {:induction false} SubsequenceTransitive<T>(a: seq<T>, b: seq<T>, c: seq<T>)
    requires Subsequence(a, b) && Subsequence(b, c)
    ensures Subsequence(a, c)
    decreases |c|
  {
    if a != [] {
      if Subsequence(b, c[1..]) {
        SubsequenceTransitive(a, b, c[1..]);
      } else if Subsequence(a, b[1..]) {
        SubsequenceTransitive(a, b[1..], c[1..]);
      } else {
        SubsequenceTransitive(a[1..], b[1..], c[1..]);
      }
    }
  }

  lemma {:induction false} SubsequenceLength<T>(a: seq<T>, b: seq<T>)
    requires Subsequence(a, b)
    ensures |a| <= |b|
    decreases |b|
  {
    if a != [] {
      if Subsequence(a, b[1..]) {
        SubsequenceLength(a, b[1..]);
      } else {
        SubsequenceLength(a[1..], b[1..]);
      }
    }
  }

  /** Every element of a subsequence is an element of the whole. */
  lemma {:induction false} SubsequenceMembers<T>(a: seq<T>, b: seq<T>, x: T)
    requires Subsequence(a, b) && x in a
    ensures x in b
    decreases |b|
  {
    if Subsequence(a, b[1..]) {
      SubsequenceMembers(a, b[1..], x);
    } else if x != a[0] {
      assert x in a[1..];
      SubsequenceMembers(a[1..], b[1..], x);
    }
  }

  /** Keeping or dropping the last element of both sides. */
  lemma {:induction false} SubsequenceSnoc<T>(a: seq<T>, b: seq<T>, x: T, keep: bool)
    requires Subsequence(a, b)
    ensures Subsequence(if keep then a + [x] else a, b + [x])
    decreases |b|
  {
    var a' := if keep then a + [x] else a;
    if b == [] {
      assert a == [];
      assert (b + [x])[1..] == [];
      if keep {
        assert a' == [x] && a'[1..] == [];
      }
    } else if a == [] {
      if keep {
        SubsequenceSnoc(a, b[1..], x, keep);
        assert (b + [x])[1..] == b[1..] + [x];
      }
    } else if Subsequence(a, b[1..]) {
      SubsequenceSnoc(a, b[1..], x, keep);
      assert (b + [x])[1..] == b[1..] + [x];
    } else {
      SubsequenceSnoc(a[1..], b[1..], x, keep);
      assert (b + [x])[1..] == b[1..] + [x];
      assert a'[0] == a[0];
      assert a'[1..] == if keep then a[1..] + [x] else a[1..];
    }
  }
}
