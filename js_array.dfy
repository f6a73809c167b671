/** The JavaScript array operations the board applies to its id lists, on copies:
    `copy.splice(start, 1)`, `copy.splice(start, 0, x)` and `s.filter(y => y !== x)`. */
module JsArray {

  /** Where `splice` starts for a `start` argument on an array of length `len`:
      a negative start counts back from the end, and the result is clamped into [0, len]. */
  function SpliceStart(len: nat, start: int): (k: nat)
    ensures k <= len
    ensures 0 <= start <= len ==> k == start
    ensures start > len ==> k == len
    ensures start < 0 && len + start >= 0 ==> k == len + start
    ensures len + start < 0 ==> k == 0
  {
    if start < 0 then (if len + start < 0 then 0 else len + start)
    else if start > len then len
    else start
  }

  /** `copy.splice(start, 1)` applied to a copy of `s`: the element at the clamped start is
      taken out (one element fewer, the same multiset less that element); when the start is
      at the end nothing is removed. */
  function RemoveAt<T>(s: seq<T>, start: int): (r: seq<T>)
    ensures var k := SpliceStart(|s|, start);
      if k < |s| then |r| == |s| - 1 && multiset(r) + multiset{s[k]} == multiset(s)
      else r == s
  {
    var k := SpliceStart(|s|, start);
    if k < |s| then
      assert s == s[..k] + [s[k]] + s[k + 1..];
      s[..k] + s[k + 1..]
    else s
  }

  /** Removal closes the gap: the elements before the removed one stay in place and the ones
      after it move down by one. */
  lemma RemoveAtElements<T>(s: seq<T>, start: int)
    requires SpliceStart(|s|, start) < |s|
    ensures var k := SpliceStart(|s|, start);
      && (forall i :: 0 <= i < k ==> RemoveAt(s, start)[i] == s[i])
      && (forall i :: k <= i < |s| - 1 ==> RemoveAt(s, start)[i] == s[i + 1])
  {
  }

  /** `copy.splice(start, 0, x)` applied to a copy of `s`: one element more, the same multiset
      plus `x`. */
  function InsertAt<T>(s: seq<T>, start: int, x: T): (r: seq<T>)
    ensures |r| == |s| + 1 && r[SpliceStart(|s|, start)] == x
    ensures multiset(r) == multiset(s) + multiset{x}
  {
    var k := SpliceStart(|s|, start);
    assert s == s[..k] + s[k..];
    s[..k] + [x] + s[k..]
  }

  /** Insertion opens a gap at the clamped start: the elements before it stay in place and the
      ones from there on move up by one. */
  lemma InsertAtElements<T>(s: seq<T>, start: int, x: T)
    ensures var k := SpliceStart(|s|, start);
      && (forall i :: 0 <= i < k ==> InsertAt(s, start, x)[i] == s[i])
      && (forall i :: k < i <= |s| ==> InsertAt(s, start, x)[i] == s[i - 1])
  {
  }

  /** `splice(0, 1)` on a non-empty list drops its first element. */
  lemma RemoveFirst<T>(s: seq<T>)
    requires |s| > 0
    ensures RemoveAt(s, 0) == s[1..]
  {
    assert SpliceStart(|s|, 0) == 0;
  }

  /** `splice(s.length, 0, x)` appends `x`. */
  lemma InsertAtEnd<T>(s: seq<T>, x: T)
    ensures InsertAt(s, |s|, x) == s + [x]
  {
    assert SpliceStart(|s|, |s|) == |s|;
  }

  /** `s.filter(y => y !== x)`: every occurrence of `x` goes, every other element keeps its count,
      and a list without `x` comes back as it was. The order of the elements that stay is kept:
      see `WithoutConcat` and `WithoutSingle`. */
  function Without<T(==)>(s: seq<T>, x: T): (r: seq<T>)
    ensures multiset(r) == multiset(s)[x := 0]
    ensures x !in r
    ensures x !in s ==> r == s
  {
    if s == [] then []
    else
      var last := s[|s| - 1];
      assert s == s[..|s| - 1] + [last];
      Without(s[..|s| - 1], x) + (if last == x then [] else [last])
  }

  /** Removing the element at an index and putting it back at the same index restores the list. */
  lemma {:induction false} RemoveInsertRoundTrip<T>(s: seq<T>, i: int)
    requires 0 <= i < |s|
    ensures InsertAt(RemoveAt(s, i), i, s[i]) == s
  {
    var r := InsertAt(RemoveAt(s, i), i, s[i]);
    RemoveAtElements(s, i);
    InsertAtElements(RemoveAt(s, i), i, s[i]);
    forall j | 0 <= j < |s|
      ensures r[j] == s[j]
    {
    }
  }

  /** Filtering out a value that was appended to a list without it gives back that list. */
  lemma {:induction false} WithoutAppended<T>(s: seq<T>, x: T)
    requires x !in s
    ensures Without(s + [x], x) == s
  {
    assert (s + [x])[..|s + [x]| - 1] == s;
  }

  /** Filtering out the first element of a list that holds it only there drops the head. */
  lemma {:induction false} WithoutHead<T>(s: seq<T>)
    requires |s| > 0 && s[0] !in s[1..]
    ensures Without(s, s[0]) == s[1..]
  {
    var n := |s|;
    var init := s[..n - 1];
    assert s == init + [s[n - 1]];
    if n == 1 {
      assert init == [];
    } else {
      assert init[0] == s[0] && init[1..] == s[1..n - 1];
      assert s[n - 1] in s[1..];
      WithoutHead(init);
      assert s[1..] == s[1..n - 1] + [s[n - 1]];
    }
  }

  /** `filter` works element by element, so it distributes over concatenation: the elements
      that stay keep their relative order. */
  lemma {:induction false} WithoutConcat<T>(s: seq<T>, t: seq<T>, x: T)
    ensures Without(s + t, x) == Without(s, x) + Without(t, x)
    decreases |t|
  {
    if t == [] {
      assert s + t == s;
    } else {
      var init := t[..|t| - 1];
      assert (s + t)[..|s + t| - 1] == s + init;
      assert (s + t)[|s + t| - 1] == t[|t| - 1];
      WithoutConcat(s, init, x);
    }
  }

  /** On one element, `filter` keeps it exactly when it differs from `x`; with `WithoutConcat`
      this fixes the result of `Without` on every list. */
  lemma WithoutSingle<T>(y: T, x: T)
    ensures Without([y], x) == if y == x then [] else [y]
  {
    assert [y][..0] == [];
  }
}
