/**
 * The array operations the source uses on lists: `filter`, `map`, the
 * `filter((_, i) => i !== index)` removal and the replace-at-index update.
 */
module Seqs {

  /** `s.filter(p)`: the elements of `s` that satisfy `p`, in their original order. */
  function Filter<T>(p: T -> bool, s: seq<T>): (r: seq<T>)
    ensures |r| <= |s|
    ensures forall x :: x in r ==> x in s && p(x)
  {
    if s == [] then [] else (if p(s[0]) then [s[0]] else []) + Filter(p, s[1..])
  }

  /** `s.map(f)`: one image per element, position by position. */
  function Map<T, U>(f: T -> U, s: seq<T>): (r: seq<U>)
    ensures |r| == |s|
    ensures forall i :: 0 <= i < |s| ==> r[i] == f(s[i])
  {
    if s == [] then [] else [f(s[0])] + Map(f, s[1..])
  }

  /** `s.filter((_, i) => i !== index)`: drops position `index`; an index outside the list drops nothing. */
  function RemoveAt<T>(s: seq<T>, index: int): (r: seq<T>)
    ensures 0 <= index < |s| ==> |r| == |s| - 1
    ensures 0 <= index < |s| ==> forall k :: 0 <= k < index ==> r[k] == s[k]
    ensures 0 <= index < |s| ==> forall k :: index <= k < |r| ==> r[k] == s[k + 1]
    ensures !(0 <= index < |s|) ==> r == s
  {
    if 0 <= index < |s| then s[..index] + s[index + 1..] else s
  }

  /** `s.map((x, i) => i === index ? v : x)`: position `index` becomes `v`, every other position is kept. */
  function ReplaceAt<T>(s: seq<T>, index: int, v: T): (r: seq<T>)
    ensures |r| == |s|
    ensures forall k :: 0 <= k < |s| ==> r[k] == if k == index then v else s[k]
  {
    if 0 <= index < |s| then s[index := v] else s
  }

  /** An element that is kept by the filter is found in its result. */
  lemma {:induction false} FilterKeeps<T>(p: T -> bool, s: seq<T>, x: T)
    requires x in s && p(x)
    ensures x in Filter(p, s)
  {
    if s[0] != x {
      FilterKeeps(p, s[1..], x);
    }
  }

  /** Filtering distributes over concatenation. */
  lemma {:induction false} FilterAppend<T>(p: T -> bool, s: seq<T>, t: seq<T>)
    ensures Filter(p, s + t) == Filter(p, s) + Filter(p, t)
  {
    if s == [] {
      assert s + t == t;
    } else {
      assert (s + t)[1..] == s[1..] + t;
      FilterAppend(p, s[1..], t);
    }
  }

  /** A filter that every element passes keeps the list as it is. */
  lemma {:induction false} FilterAll<T>(p: T -> bool, s: seq<T>)
    requires forall i :: 0 <= i < |s| ==> p(s[i])
    ensures Filter(p, s) == s
  {
    if s != [] {
      FilterAll(p, s[1..]);
    }
  }

  /** Mapping distributes over concatenation. */
  lemma MapAppend<T, U>(f: T -> U, s: seq<T>, t: seq<T>)
    ensures Map(f, s + t) == Map(f, s) + Map(f, t)
  {
  }

  /** Removing the entry just appended gives back the list before the append. */
  lemma RemoveUndoesAppend<T>(s: seq<T>, x: T)
    ensures RemoveAt(s + [x], |s|) == s
  {
    assert (s + [x])[..|s|] == s;
  }

  /** Writing back the old value undoes a replacement. */
  lemma ReplaceUndone<T>(s: seq<T>, index: nat, v: T)
    requires index < |s|
    ensures ReplaceAt(ReplaceAt(s, index, v), index, s[index]) == s
  {
  }
}
