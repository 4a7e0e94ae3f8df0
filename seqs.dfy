/** Sequence relations used to state what the site's `filter` calls keep. */
module Seqs {

  /** `a` is `b` with some elements left out and the rest in their original
      order (a sub-list, or subsequence, of `b`). */
  predicate IsSublist<T(==)>(a: seq<T>, b: seq<T>)
    decreases |b|
  {
    if b == [] then a == []
    else (a != [] && a[0] == b[0] && IsSublist(a[1..], b[1..])) || IsSublist(a, b[1..])
  }

  /** No element occurs twice. */
  predicate NoDuplicates<T(==)>(s: seq<T>)
  {
    forall i, j :: 0 <= i < j < |s| ==> s[i] != s[j]
  }

  /** A sub-list never repeats an element more often than the list does. */
  lemma {:induction false} SublistMultiset<T>(a: seq<T>, b: seq<T>)
    requires IsSublist(a, b)
    ensures multiset(a) <= multiset(b)
    decreases |b|
  {
    if b == [] {
    } else if a != [] && a[0] == b[0] && IsSublist(a[1..], b[1..]) {
      SublistMultiset(a[1..], b[1..]);
      assert a == [a[0]] + a[1..];
      assert b == [b[0]] + b[1..];
    } else {
      SublistMultiset(a, b[1..]);
      assert b == [b[0]] + b[1..];
    }
  }

  /** `s.filter(item => item !== x)`: every occurrence of `x` removed, the
      other elements kept in order. */
  function Without<T(==)>(s: seq<T>, x: T): (r: seq<T>)
    ensures x !in r
    ensures forall i :: 0 <= i < |r| ==> r[i] in s && r[i] != x
    ensures forall i :: 0 <= i < |s| && s[i] != x ==> s[i] in r
    ensures IsSublist(r, s)
    ensures x !in s ==> r == s
    ensures multiset(r) == multiset(s)[x := 0]
  {
    if s == [] then []
    else
      assert s == [s[0]] + s[1..];
      if s[0] == x then Without(s[1..], x)
      else [s[0]] + Without(s[1..], x)
  }

  lemma {:induction false} WithoutKeepsNoDuplicates<T>(s: seq<T>, x: T)
    requires NoDuplicates(s)
    ensures NoDuplicates(Without(s, x))
  {
    if s != [] {
      assert NoDuplicates(s[1..]) by {
        forall i, j | 0 <= i < j < |s[1..]| ensures s[1..][i] != s[1..][j] {
          assert s[1..][i] == s[i + 1] && s[1..][j] == s[j + 1];
        }
      }
      WithoutKeepsNoDuplicates(s[1..], x);
      if s[0] != x {
        var r := Without(s, x);
        assert r == [s[0]] + Without(s[1..], x);
        assert s[0] !in s[1..];
        assert s[0] !in Without(s[1..], x);
        forall i, j | 0 <= i < j < |r| ensures r[i] != r[j] {
          if i == 0 {
            assert r[j] in Without(s[1..], x);
          } else {
            assert r[i] == Without(s[1..], x)[i - 1];
            assert r[j] == Without(s[1..], x)[j - 1];
          }
        }
      }
    }
  }
}
