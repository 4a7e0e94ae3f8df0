/** String helpers behind the case-insensitive searches of the site:
    `String.prototype.toLowerCase` restricted to ASCII letters, and
    `String.prototype.includes` as a substring test. */
module Text {

  /** ASCII lower-casing of one character; every other character is kept. */
  function LowerChar(c: char): (d: char)
    ensures 'A' <= c <= 'Z' ==> 'a' <= d <= 'z' && d as int == c as int + 32
    ensures !('A' <= c <= 'Z') ==> d == c
  {
    if 'A' <= c <= 'Z' then (c as int + 32) as char else c
  }

  /** `s.toLowerCase()`, character by character. */
  function Lower(s: string): (r: string)
    ensures |r| == |s|
    ensures forall k :: 0 <= k < |s| ==> r[k] == LowerChar(s[k])
  {
    seq(|s|, k requires 0 <= k < |s| => LowerChar(s[k]))
  }

  /** A string in which no character is an ASCII capital. */
  predicate IsLowerCase(s: string)
  {
    forall k :: 0 <= k < |s| ==> !('A' <= s[k] <= 'Z')
  }

  /** `p` occurs in `s` starting at index `i`. */
  predicate OccursAt(p: string, s: string, i: nat)
  {
    i + |p| <= |s| && s[i..i + |p|] == p
  }

  /** `s.includes(p)`: `p` occurs in `s` at some index. */
  predicate IsSubstring(p: string, s: string)
  {
    exists i: nat :: i <= |s| && OccursAt(p, s, i)
  }

  lemma LowerIsLowerCase(s: string)
    ensures IsLowerCase(Lower(s))
  {
  }

  /** Lower-casing a lower-case string changes nothing; in particular
      lower-casing twice is lower-casing once. */
  lemma LowerOfLowerCase(s: string)
    requires IsLowerCase(s)
    ensures Lower(s) == s
  {
  }

  lemma LowerIdempotent(s: string)
    ensures Lower(Lower(s)) == Lower(s)
  {
    LowerIsLowerCase(s);
    LowerOfLowerCase(Lower(s));
  }

  /** A string with a capital letter is never the lower-case form of anything. */
  lemma NotLowerOfAnything(s: string, t: string)
    requires !IsLowerCase(s)
    ensures Lower(t) != s
  {
    LowerIsLowerCase(t);
  }

  lemma LowerSlice(s: string, i: nat, j: nat)
    requires i <= j <= |s|
    ensures Lower(s[i..j]) == Lower(s)[i..j]
  {
  }

  /** The empty query occurs in every string. */
  lemma EmptyIsSubstring(s: string)
    ensures IsSubstring([], s)
  {
    assert OccursAt([], s, 0);
  }

  lemma SubstringTransitive(p: string, q: string, s: string)
    requires IsSubstring(p, q) && IsSubstring(q, s)
    ensures IsSubstring(p, s)
  {
    var j: nat :| j <= |q| && OccursAt(p, q, j);
    var i: nat :| i <= |s| && OccursAt(q, s, i);
    forall k | 0 <= k < |p| ensures s[i + j + k] == p[k] {
      assert s[i..i + |q|][j + k] == q[j + k];
      assert q[j..j + |p|][k] == p[k];
    }
    assert s[i + j..i + j + |p|] == p;
    assert OccursAt(p, s, i + j);
  }

  /** An occurrence survives lower-casing of both strings. */
  lemma LowerPreservesSubstring(p: string, s: string)
    requires IsSubstring(p, s)
    ensures IsSubstring(Lower(p), Lower(s))
  {
    var i: nat :| i <= |s| && OccursAt(p, s, i);
    LowerSlice(s, i, i + |p|);
    assert OccursAt(Lower(p), Lower(s), i);
  }
}
