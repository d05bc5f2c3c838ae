/**
 * Metadata items and their "{uuid}" placeholders (convertMetadataItemsToProperties in
 * pkg/custom-resource/components/loader/local.go and in pkg/operator/server.go): a loop that keeps
 * replacing the first placeholder, shown to be one pass over the original text.
 */
module Placeholders {
  import opened Sequences

  const PLACEHOLDER := "{uuid}"

  predicate At(s: string, i: int) {
    0 <= i && i + 6 <= |s| &&
    s[i] == '{' && s[i + 1] == 'u' && s[i + 2] == 'u' && s[i + 3] == 'i' && s[i + 4] == 'd' && s[i + 5] == '}'
  }

  lemma PlaceholderOccurs(s: string)
    ensures forall i :: At(s, i) == OccursAt(s, PLACEHOLDER, i)
  {
    forall i ensures At(s, i) == OccursAt(s, PLACEHOLDER, i) {
      if 0 <= i && i + 6 <= |s| {
        var w := s[i..i + 6];
        assert w == [s[i], s[i + 1], s[i + 2], s[i + 3], s[i + 4], s[i + 5]];
        assert w == PLACEHOLDER <==>
               w[0] == '{' && w[1] == 'u' && w[2] == 'u' && w[3] == 'i' && w[4] == 'd' && w[5] == '}';
      }
    }
  }

  /** strings.Index(s, "{uuid}"). */
  function IndexOf(s: string): (r: int)
    ensures -1 <= r
    ensures r >= 0 ==> At(s, r)
    ensures forall k :: 0 <= k < (if r >= 0 then r else |s|) ==> !At(s, k)
  {
    PlaceholderOccurs(s);
    Index(s, PLACEHOLDER)
  }

  /** The text between the placeholders, one piece more than placeholders. */
  function Pieces(s: string): (pieces: seq<string>)
    ensures |pieces| > 0
    decreases |s|
  {
    var i := IndexOf(s);
    if i < 0 then [s] else [s[..i]] + Pieces(s[i + 6..])
  }

  function Join(pieces: seq<string>): string
    requires |pieces| > 0
  {
    if |pieces| == 1 then pieces[0] else pieces[0] + PLACEHOLDER + Join(pieces[1..])
  }

  /** The pieces with the k-th, (k+1)-th, ... uuid between them. */
  function Fill(pieces: seq<string>, uuids: nat -> string, k: nat): string
    requires |pieces| > 0
  {
    if |pieces| == 1 then pieces[0] else pieces[0] + uuids(k) + Fill(pieces[1..], uuids, k + 1)
  }

  /** The text form of a uuid: 36 characters, none of them a brace. */
  predicate IsUuid(u: string) {
    |u| == 36 && '{' !in u && '}' !in u
  }

  /** The pieces are exactly the text around the original placeholders, and contain none. */
  lemma {:induction false} PiecesAreTheText(s: string)
    ensures Join(Pieces(s)) == s
    ensures forall p :: p in Pieces(s) ==> IndexOf(p) < 0
    decreases |s|
  {
    var i := IndexOf(s);
    if i >= 0 {
      PiecesAreTheText(s[i + 6..]);
      var front := s[..i];
      forall k | 0 <= k ensures !At(front, k) {
        assert At(front, k) ==> At(s, k);
      }
      assert s == s[..i] + PLACEHOLDER + s[i + 6..];
      assert Pieces(s)[1..] == Pieces(s[i + 6..]);
    }
  }

  // ---------------------------------------------------------------------------------------------
  // The replacing loop

  /** Text in which no placeholder can start, whatever follows: it is empty or ends in a uuid. */
  predicate Sealed(front: string) {
    (forall k :: 0 <= k < |front| ==> !At(front, k)) &&
    (front == "" || (|front| >= 6 && forall k :: |front| - 6 <= k < |front| ==> front[k] != '{' && front[k] != '}'))
  }

  lemma SealedFront(front: string, rest: string)
    requires Sealed(front)
    ensures IndexOf(front + rest) == if IndexOf(rest) < 0 then -1 else |front| + IndexOf(rest)
  {
    var s, i := front + rest, IndexOf(rest);
    forall k | 0 <= k < |front| ensures !At(s, k) {
      assert k + 6 <= |front| ==> At(s, k) == At(front, k);
      assert k + 6 > |front| ==> s[k] == front[k];
    }
    forall k | |front| <= k ensures At(s, k) == At(rest, k - |front|) {
    }
    var r := IndexOf(s);
    assert i >= 0 ==> At(s, |front| + i);
    assert r >= 0 ==> At(rest, r - |front|);
  }

  /** Replacing the first placeholder by a uuid keeps the front sealed: nothing new can appear. */
  lemma UuidSeals(front: string, rest: string, u: string)
    requires Sealed(front) && IndexOf(rest) >= 0 && IsUuid(u)
    ensures Sealed(front + rest[..IndexOf(rest)] + u)
  {
    var i := IndexOf(rest);
    var piece := rest[..i];
    var s := front + piece + u;
    assert forall k :: 0 <= k < 36 ==> u[k] in u;
    assert forall k :: |front + piece| <= k < |s| ==> s[k] == u[k - |front + piece|];
    forall k | 0 <= k < |s| ensures !At(s, k) {
      if k < |front| {
        assert k + 6 <= |front| ==> At(s, k) == At(front, k);
        assert k + 6 > |front| ==> s[k] == front[k];
      } else if k + 6 <= |front + piece| {
        assert At(s, k) == At(rest, k - |front|);
      } else if k + 5 < |s| {
        assert s[k + 5] == u[k + 5 - |front + piece|];
      }
    }
  }

  lemma Regroup(a: string, b: string, c: string, d: string)
    ensures a + (b + c + d) == (a + b + c) + d
  {
  }

  /** The text with its first placeholder replaced, on either side of the cut. */
  lemma ReplacedText(front: string, rest: string, u: string)
    requires Sealed(front) && IndexOf(rest) >= 0
    ensures
      var r, j := front + rest, IndexOf(rest);
      var i := IndexOf(r);
      && i >= 0 && i + 6 <= |r| && j + 6 <= |rest|
      && r[..i] + u + r[i + 6..] == (front + rest[..j] + u) + rest[j + 6..]
  {
    SealedFront(front, rest);
    var j := IndexOf(rest);
    assert At(rest, j);
    assert (front + rest)[..|front| + j] == front + rest[..j];
    assert (front + rest)[|front| + j + 6..] == rest[j + 6..];
  }

  lemma PiecesBehind(front: string, rest: string, uuids: nat -> string, n: nat)
    requires IndexOf(rest) >= 0
    ensures
      var j := IndexOf(rest);
      && j + 6 <= |rest|
      && |Pieces(rest)| == 1 + |Pieces(rest[j + 6..])|
      && front + Fill(Pieces(rest), uuids, n) ==
         (front + rest[..j] + uuids(n)) + Fill(Pieces(rest[j + 6..]), uuids, n + 1)
  {
    var j := IndexOf(rest);
    var behind := Pieces(rest[j + 6..]);
    assert Pieces(rest) == [rest[..j]] + behind;
    assert Pieces(rest)[1..] == behind;
    Regroup(front, rest[..j], uuids(n), Fill(behind, uuids, n + 1));
  }

  lemma NothingYet(val: string, uuids: nat -> string, k: nat)
    ensures "" + val == val && Sealed("")
    ensures "" + Fill(Pieces(val), uuids, k) == Fill(Pieces(val), uuids, k)
  {
  }

  lemma NothingLeft(front: string, rest: string, uuids: nat -> string, n: nat)
    requires IndexOf(rest) < 0
    ensures Pieces(rest) == [rest] && Fill(Pieces(rest), uuids, n) == rest
  {
  }

  /** The loop of both functions for one value, over the uuids from the k-th on. */
  method Expand(val: string, uuids: nat -> string, k: nat) returns (r: string, next: nat)
    requires forall n: nat :: IsUuid(uuids(n))
    ensures r == Fill(Pieces(val), uuids, k)
    ensures next == k + |Pieces(val)| - 1
    ensures IndexOf(r) < 0
  {
    hide At, IndexOf, Pieces, Fill, Sealed, IsUuid;
    r, next := val, k;
    ghost var front, rest := "", val;
    NothingYet(val, uuids, k);
    while IndexOf(r) >= 0
      invariant r == front + rest && Sealed(front) && next >= k
      invariant Fill(Pieces(val), uuids, k) == front + Fill(Pieces(rest), uuids, next)
      invariant |Pieces(val)| - 1 + k == |Pieces(rest)| - 1 + next
      decreases |rest|
    {
      SealedFront(front, rest);
      ReplacedText(front, rest, uuids(next));
      PiecesBehind(front, rest, uuids, next);
      UuidSeals(front, rest, uuids(next));
      var i := IndexOf(r);
      ghost var j := IndexOf(rest);
      r := r[..i] + uuids(next) + r[i + 6..];
      front, rest := front + rest[..j] + uuids(next), rest[j + 6..];
      next := next + 1;
    }
    SealedFront(front, rest);
    NothingLeft(front, rest, uuids, next);
  }

  // ---------------------------------------------------------------------------------------------
  // The properties map

  datatype Item = Item(name: string, value: string)

  /** Placeholders in the values of some items. */
  function Used(items: seq<Item>, read: string -> string): nat {
    if items == [] then 0
    else Used(items[..|items| - 1], read) + |Pieces(read(items[|items| - 1].value))| - 1
  }

  /** The expansion of item i: its uuids come after those of the items before it. */
  function Expanded(items: seq<Item>, read: string -> string, uuids: nat -> string, i: nat): string
    requires i < |items|
  {
    Fill(Pieces(read(items[i].value)), uuids, Used(items[..i], read))
  }

  /** The map after a list of items. */
  function Converted(items: seq<Item>, read: string -> string, uuids: nat -> string): map<string, string> {
    if items == [] then map[]
    else
      var n := |items| - 1;
      Converted(items[..n], read, uuids)[items[n].name := Expanded(items, read, uuids, n)]
  }

  /** The last item of a name gives its value; the values of earlier ones are gone. */
  lemma {:induction false} LastItemWins(items: seq<Item>, read: string -> string, uuids: nat -> string, i: nat)
    requires i < |items| && forall j :: i < j < |items| ==> items[j].name != items[i].name
    ensures items[i].name in Converted(items, read, uuids)
    ensures Converted(items, read, uuids)[items[i].name] == Expanded(items, read, uuids, i)
  {
    var n := |items| - 1;
    if i < n {
      LastItemWins(items[..n], read, uuids, i);
      assert items[..n][..i] == items[..i];
    }
  }

  lemma {:induction false} OnlyItemNames(items: seq<Item>, read: string -> string, uuids: nat -> string, name: string)
    requires name in Converted(items, read, uuids)
    ensures exists i :: 0 <= i < |items| && items[i].name == name
  {
    var n := |items| - 1;
    if items[n].name != name {
      OnlyItemNames(items[..n], read, uuids, name);
      var i :| 0 <= i < n && items[..n][i].name == name;
      assert items[i].name == name;
    }
  }

  /** Between piece m and the next stands the uuid of number k + m: each placeholder has its own. */
  lemma {:induction false} FillAt(pieces: seq<string>, uuids: nat -> string, k: nat, m: nat)
    requires m + 1 < |pieces|
    ensures Fill(pieces, uuids, k) ==
            Fill(pieces[..m + 1], uuids, k) + uuids(k + m) + Fill(pieces[m + 1..], uuids, k + m + 1)
  {
    if m == 0 {
      assert pieces[..1] == [pieces[0]];
    } else {
      var tail := pieces[1..];
      FillAt(tail, uuids, k + 1, m - 1);
      assert tail[..m] == pieces[..m + 1][1..] && tail[m..] == pieces[m + 1..];
      Regroup(pieces[0] + uuids(k), Fill(tail[..m], uuids, k + 1), uuids(k + m), Fill(tail[m..], uuids, k + m + 1));
    }
  }

  /** The placeholders of an item. */
  function Holes(items: seq<Item>, read: string -> string, i: nat): nat
    requires i < |items|
  {
    |Pieces(read(items[i].value))| - 1
  }

  /** Items draw their uuids from ranges of numbers that follow each other: no two placeholders share a uuid. */
  lemma {:induction false} OwnUuids(items: seq<Item>, read: string -> string, i: nat, j: nat)
    requires i < j < |items|
    ensures Used(items[..i], read) + Holes(items, read, i) <= Used(items[..j], read)
  {
    hide Pieces;
    assert items[..j][..j - 1] == items[..j - 1];
    if i < j - 1 {
      OwnUuids(items, read, i, j - 1);
    }
  }

  /**
   * convertMetadataItemsToProperties. The loader reads values as they are; the operator reads them
   * as unquoted JSON strings.
   */
  method ConvertMetadataItems(items: seq<Item>, read: string -> string, uuids: nat -> string)
    returns (properties: map<string, string>)
    requires forall n: nat :: IsUuid(uuids(n))
    ensures properties == Converted(items, read, uuids)
    ensures forall name :: name in properties ==> IndexOf(properties[name]) < 0
  {
    hide IndexOf, Pieces, Fill, IsUuid;
    properties := map[];
    var next := 0;
    for n := 0 to |items|
      invariant next == Used(items[..n], read)
      invariant properties == Converted(items[..n], read, uuids)
      invariant forall name :: name in properties ==> IndexOf(properties[name]) < 0
    {
      var val;
      val, next := Expand(read(items[n].value), uuids, next);
      assert items[..n + 1][..n] == items[..n];
      properties := properties[items[n].name := val];
    }
    assert items[..|items|] == items;
  }
}
