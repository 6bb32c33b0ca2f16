/** The list edits the screens make on their hoisted lists: append,
    `removeAt`, `indexOf` and `set`. Each callback edits a fresh copy
    (`toMutableList()`), so an edit is the list it produces. */
module ListEdits {
  import opened Wrappers

  /** `removeAt(i)`: the element at `i` gone, the others in order. */
  function RemoveAt<T>(s: seq<T>, i: nat): (r: seq<T>)
    requires i < |s|
    ensures |r| == |s| - 1
    ensures forall j :: 0 <= j < i ==> r[j] == s[j]
    ensures forall j :: i <= j < |r| ==> r[j] == s[j + 1]
    ensures multiset(r) + multiset{s[i]} == multiset(s)
  {
    assert s == s[..i] + [s[i]] + s[i + 1..];
    s[..i] + s[i + 1..]
  }

  /** `indexOf(x)`: the first index holding `x`, or -1. */
  function IndexOf<T(==)>(s: seq<T>, x: T): (r: int)
    ensures -1 <= r < |s|
    ensures r == -1 <==> x !in s
    ensures r >= 0 ==> s[r] == x && forall j :: 0 <= j < r ==> s[j] != x
    decreases |s|
  {
    if s == [] then -1
    else if s[0] == x then 0
    else
      var k := IndexOf(s[1..], x);
      if k == -1 then -1 else k + 1
  }

  /** `set(i, x)` on a copy: only position `i` changes. */
  function SetAt<T>(s: seq<T>, i: nat, x: T): (r: seq<T>)
    requires i < |s|
    ensures |r| == |s| && r[i] == x
    ensures forall j :: 0 <= j < |s| && j != i ==> r[j] == s[j]
  {
    s[i := x]
  }

  /** The first element equal to `target` replaced by `x`; `None` when no
      element is equal, and the caller then leaves the list alone. */
  function ReplaceFirst<T(==)>(s: seq<T>, target: T, x: T): (r: Option<seq<T>>)
    ensures r.None? <==> target !in s
    ensures r.Some? ==> (exists i :: 0 <= i < |s| && s[i] == target
                           && (forall j :: 0 <= j < i ==> s[j] != target) && r.value == s[i := x])
  {
    var i := IndexOf(s, target);
    if i >= 0 then Some(SetAt(s, i, x)) else None
  }
}
