/**
  The Swift standard-library searches the app relies on, over a predicate:
  `firstIndex(where:)`, `first(where:)`, `contains(where:)` and `removeAll(where:)`.
 */
module Search {
  import opened Wrappers

  /** `s.firstIndex(where: p)`: the index of the first element satisfying `p`, or nil. */
  function FirstIndex<T>(s: seq<T>, p: T -> bool): (r: Option<nat>)
    ensures r.Some? ==> r.value < |s| && p(s[r.value])
    ensures r.Some? ==> forall k :: 0 <= k < r.value ==> !p(s[k])
    ensures r.None? <==> forall k :: 0 <= k < |s| ==> !p(s[k])
  {
    if |s| == 0 then None
    else if p(s[0]) then Some(0)
    else match FirstIndex(s[1..], p)
      case None => None
      case Some(i) => assert s[1..][i] == s[i + 1]; Some(i + 1)
  }

  /** `s.first(where: p)`: the first element satisfying `p`, or nil. */
  function First<T>(s: seq<T>, p: T -> bool): (r: Option<T>)
    ensures r.Some? <==> exists k :: 0 <= k < |s| && p(s[k])
    ensures r.Some? ==> exists k :: 0 <= k < |s| && s[k] == r.value && p(s[k]) &&
                                    forall j :: 0 <= j < k ==> !p(s[j])
  {
    match FirstIndex(s, p)
    case None => None
    case Some(i) => Some(s[i])
  }

  /** `s.contains(where: p)` */
  function Contains<T>(s: seq<T>, p: T -> bool): (b: bool)
    ensures b <==> exists k :: 0 <= k < |s| && p(s[k])
  {
    FirstIndex(s, p).Some?
  }

  /** The elements of `s` NOT satisfying `p`, in their order: what `s.removeAll(where: p)` leaves. */
  function RemoveAll<T>(s: seq<T>, p: T -> bool): (r: seq<T>)
    ensures |r| <= |s|
    ensures forall k :: 0 <= k < |r| ==> r[k] in s && !p(r[k])
    ensures forall k :: 0 <= k < |s| && !p(s[k]) ==> s[k] in r
  {
    if |s| == 0 then []
    else if p(s[0]) then RemoveAll(s[1..], p)
    else [s[0]] + RemoveAll(s[1..], p)
  }

  /** Removal works element by element, so it keeps the relative order of what it keeps. */
  lemma {:induction false} RemoveAllAppend<T>(a: seq<T>, b: seq<T>, p: T -> bool)
    ensures RemoveAll(a + b, p) == RemoveAll(a, p) + RemoveAll(b, p)
  {
    if |a| == 0 {
      assert a + b == b;
    } else {
      assert (a + b)[1..] == a[1..] + b;
      RemoveAllAppend(a[1..], b, p);
    }
  }

  /** Nothing to remove: the sequence is unchanged. */
  lemma {:induction false} RemoveAllNone<T>(s: seq<T>, p: T -> bool)
    requires forall k :: 0 <= k < |s| ==> !p(s[k])
    ensures RemoveAll(s, p) == s
  {
    if |s| > 0 {
      RemoveAllNone(s[1..], p);
    }
  }

  /** Removing twice removes nothing more. */
  lemma RemoveAllIdempotent<T>(s: seq<T>, p: T -> bool)
    ensures RemoveAll(RemoveAll(s, p), p) == RemoveAll(s, p)
  {
    var r := RemoveAll(s, p);
    RemoveAllNone(r, p);
  }

  /** The number of elements of `s` satisfying `p`. */
  function CountWhere<T>(s: seq<T>, p: T -> bool): (n: nat)
    ensures n <= |s|
  {
    if |s| == 0 then 0 else (if p(s[0]) then 1 else 0) + CountWhere(s[1..], p)
  }

  /** Exactly the matching elements are dropped. */
  lemma {:induction false} RemoveAllLength<T>(s: seq<T>, p: T -> bool)
    ensures |RemoveAll(s, p)| == |s| - CountWhere(s, p)
  {
    if |s| > 0 {
      RemoveAllLength(s[1..], p);
    }
  }
}
