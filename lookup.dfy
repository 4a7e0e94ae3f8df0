/** `array.find(item => item.id === key)`: the first element with a given
    id, where a missing key (`null`) matches nothing. */
module Lookup {
  import opened Wrappers

  /** The position of the first element whose id is `key`. */
  function FirstIndex<T>(s: seq<T>, idOf: T -> string, key: string): (r: Option<nat>)
    ensures r.Some? ==> r.value < |s| && idOf(s[r.value]) == key
    ensures r.Some? ==> forall j :: 0 <= j < r.value ==> idOf(s[j]) != key
    ensures r.None? ==> forall j :: 0 <= j < |s| ==> idOf(s[j]) != key
  {
    if s == [] then None
    else if idOf(s[0]) == key then Some(0)
    else match FirstIndex(s[1..], idOf, key)
      case None => None
      case Some(i) => Some(i + 1)
  }

  /** The element `find` returns, `None` for `undefined`. */
  function Find<T>(s: seq<T>, idOf: T -> string, key: Option<string>): (r: Option<T>)
    ensures key.None? ==> r.None?
    ensures r.Some? <==> key.Some? && exists j :: 0 <= j < |s| && idOf(s[j]) == key.value
    ensures r.Some? ==> r.value in s && Some(idOf(r.value)) == key
    ensures r.Some? ==> exists i :: 0 <= i < |s| && s[i] == r.value && forall j :: 0 <= j < i ==> idOf(s[j]) != key.value
  {
    if key.None? then None
    else match FirstIndex(s, idOf, key.value)
      case None => None
      case Some(i) => Some(s[i])
  }

  /** No two elements share an id. */
  predicate DistinctIds<T>(s: seq<T>, idOf: T -> string)
  {
    forall i, j :: 0 <= i < j < |s| ==> idOf(s[i]) != idOf(s[j])
  }

  /** With distinct ids, looking up the id of an element finds that element. */
  lemma FindById<T>(s: seq<T>, idOf: T -> string, k: nat)
    requires DistinctIds(s, idOf)
    requires k < |s|
    ensures Find(s, idOf, Some(idOf(s[k]))) == Some(s[k])
  {
    var i := FirstIndex(s, idOf, idOf(s[k])).value;
    assert !(i < k) && !(k < i);
  }
}
