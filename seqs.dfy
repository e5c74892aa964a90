/// Sequence operations shared by the containers the engine edits in place:
/// the "erase the first match, then break" iterator loop used on item
/// vectors, hexagon object lists and the location's object list, and the
/// reversed traversals used by the state stack and the location.
module Seqs {

  /** No element occurs twice (every entry is a distinct owned object). */
  ghost predicate Distinct<T>(s: seq<T>)
  {
    forall i, j :: 0 <= i < j < |s| ==> s[i] != s[j]
  }

  /** Index of the first occurrence of `x` in `s`, or `|s|` when there is none. */
  function FirstIndex<T(==)>(s: seq<T>, x: T): (i: nat)
    ensures i <= |s|
    ensures i < |s| ==> s[i] == x
    ensures forall j :: 0 <= j < i ==> s[j] != x
  {
    if |s| == 0 then 0
    else if s[0] == x then 0
    else 1 + FirstIndex(s[1..], x)
  }

  /** `s` with its first occurrence of `x` erased; `s` itself when `x` is absent. */
  function RemoveFirst<T(==)>(s: seq<T>, x: T): (r: seq<T>)
    ensures x !in s ==> r == s
    ensures x in s ==> |r| == |s| - 1
    ensures multiset(r) == multiset(s) - multiset{x}
  {
    var i := FirstIndex(s, x);
    if i == |s| then s
    else
      assert s == s[..i] + [s[i]] + s[i + 1..];
      s[..i] + s[i + 1..]
  }

  /** Removing the first occurrence keeps the elements before it and shifts the rest down by one. */
  lemma RemoveFirstAt<T>(s: seq<T>, x: T)
    requires x in s
    ensures var i := FirstIndex(s, x);
      && i < |s| && s[i] == x
      && RemoveFirst(s, x)[..i] == s[..i]
      && RemoveFirst(s, x)[i..] == s[i + 1..]
  {
  }

  /** Appending an element and then erasing its first occurrence restores a list that did not hold it. */
  lemma {:induction false} RemoveFirstAfterAppend<T>(s: seq<T>, x: T)
    ensures RemoveFirst(s + [x], x) == (if x in s then RemoveFirst(s, x) + [x] else s)
  {
    var i := FirstIndex(s + [x], x);
    if x in s {
      var j := FirstIndex(s, x);
      assert j < |s| by {
        var k :| 0 <= k < |s| && s[k] == x;
      }
      assert (s + [x])[j] == x;
      assert i == j;
      assert (s + [x])[..i] == s[..j];
      assert (s + [x])[i + 1..] == s[j + 1..] + [x];
    } else {
      assert forall k :: 0 <= k < |s| ==> (s + [x])[k] != x;
      assert (s + [x])[|s|] == x;
      assert i == |s|;
      assert (s + [x])[..i] == s;
    }
  }

  /** The loop `for (it = begin; it != end; ++it) if (*it == x) { erase(it); break; }`. */
  method EraseFirst<T(==)>(s: seq<T>, x: T) returns (r: seq<T>)
    ensures r == RemoveFirst(s, x)
  {
    var i := 0;
    while i < |s|
      invariant 0 <= i <= |s|
      invariant forall j :: 0 <= j < i ==> s[j] != x
    {
      if s[i] == x {
        r := s[..i] + s[i + 1..];
        return;
      }
      i := i + 1;
    }
    r := s;
  }

  /** `s` back to front. */
  function Reverse<T>(s: seq<T>): (r: seq<T>)
    ensures |r| == |s|
    ensures forall k :: 0 <= k < |s| ==> r[k] == s[|s| - 1 - k]
  {
    if s == [] then [] else Reverse(s[1..]) + [s[0]]
  }

  /** Reversing a suffix that starts one element earlier appends that element at the end. */
  lemma ReverseExtend<T>(s: seq<T>, k: nat)
    requires 0 < k <= |s|
    ensures Reverse(s[k - 1..]) == Reverse(s[k..]) + [s[k - 1]]
  {
    assert s[k - 1..][1..] == s[k..];
  }

  /** Index of the last `true` entry of `flags`, or -1 when every entry is false. */
  function LastTrue(flags: seq<bool>): (r: int)
    ensures -1 <= r < |flags|
    ensures r >= 0 ==> flags[r]
    ensures forall j :: r < j < |flags| ==> !flags[j]
  {
    if |flags| == 0 then -1
    else if flags[|flags| - 1] then |flags| - 1
    else LastTrue(flags[..|flags| - 1])
  }
}
