/** What Go's slices package and its string and byte searches do, on sequences. */
module Sequences {

  /** A list without one element, the others in their order. */
  function Without<T(==)>(list: seq<T>, x: T): (r: seq<T>)
    ensures x !in r
    ensures x !in list ==> r == list
    ensures |r| == |list| - multiset(list)[x]
  {
    if list == [] then []
    else
      var init, last := list[..|list| - 1], list[|list| - 1];
      assert list == init + [last];
      if last == x then Without(init, x) else Without(init, x) + [last]
  }

  lemma {:induction false} WithoutKeepsOthers<T>(list: seq<T>, x: T, other: T)
    requires other != x
    ensures multiset(Without(list, x))[other] == multiset(list)[other]
  {
    if list != [] {
      WithoutKeepsOthers(list[..|list| - 1], x, other);
      assert list == list[..|list| - 1] + [list[|list| - 1]];
    }
  }

  lemma {:induction false} WithoutConcat<T>(a: seq<T>, b: seq<T>, x: T)
    ensures Without(a + b, x) == Without(a, x) + Without(b, x)
  {
    if b == [] {
      assert a + b == a;
    } else {
      assert (a + b)[..|a + b| - 1] == a + b[..|b| - 1];
      WithoutConcat(a, b[..|b| - 1], x);
    }
  }

  lemma WithoutOne<T>(x: T, y: T)
    ensures Without([], y) == []
    ensures Without([x], y) == if x == y then [] else [x]
  {
    assert [x][..0] == [];
  }

  predicate OccursAt<T(==)>(s: seq<T>, text: seq<T>, i: int) {
    0 <= i && i + |text| <= |s| && s[i..i + |text|] == text
  }

  lemma Shifted<T>(s: seq<T>, text: seq<T>)
    requires s != []
    ensures forall i :: 1 <= i ==> OccursAt(s, text, i) == OccursAt(s[1..], text, i - 1)
  {
    forall i | 1 <= i && i + |text| <= |s| ensures OccursAt(s, text, i) == OccursAt(s[1..], text, i - 1) {
      var tail, j := s[1..], i - 1;
      var a, b := s[i..i + |text|], tail[j..j + |text|];
      assert forall k :: 0 <= k < |text| ==> a[k] == b[k];
      assert a == b;
    }
  }

  /** bytes.Index and strings.Index: the first occurrence, or -1. */
  function Index<T(==)>(s: seq<T>, text: seq<T>): (r: int)
    requires text != []
    ensures -1 <= r
    ensures r >= 0 ==> OccursAt(s, text, r)
    ensures forall k :: 0 <= k < (if r >= 0 then r else |s|) ==> !OccursAt(s, text, k)
  {
    if |s| < |text| then -1
    else if OccursAt(s, text, 0) then 0
    else
      var r := Index(s[1..], text);
      Shifted(s, text);
      if r < 0 then -1 else r + 1
  }
}
