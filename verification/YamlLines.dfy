/**
 * The reference meaning of the document splitter, by lines: a line starting with "---" separates
 * two documents unless it is the first line of a document. The streaming splitter of
 * YamlDocuments is proved to agree with it, to lose nothing but one kind of unfinished tail,
 * and to undo joining documents with "\n---\n".
 */
module YamlLines {
  import opened Wrappers
  import opened YamlDocuments

  // ---------------------------------------------------------------------------------------------
  // Concatenation

  lemma Regroup(a: Bytes, n: Bytes, l: Bytes, m: Bytes, t: Bytes)
    ensures a + n + (l + m + t) == a + (n + l + m) + t
  {
  }

  lemma Assoc(a: Bytes, b: Bytes, c: Bytes)
    ensures a + b + c == a + (b + c)
  {
  }

  // ---------------------------------------------------------------------------------------------
  // Lines

  predicate IsLine(line: Bytes) {
    NEWLINE !in line
  }

  /** At least one line and no newline inside a line. The last line is not newline-terminated. */
  predicate Text(lines: seq<Bytes>) {
    |lines| > 0 && forall line :: line in lines ==> IsLine(line)
  }

  function Unlines(lines: seq<Bytes>): (b: Bytes)
    requires |lines| > 0
  {
    if |lines| == 1 then lines[0] else lines[0] + [NEWLINE] + Unlines(lines[1..])
  }

  function Lines(b: Bytes): (lines: seq<Bytes>)
    ensures Text(lines) && Unlines(lines) == b
    decreases |b|
  {
    var i := IndexNewline(b);
    if i < 0 then [b]
    else
      var rest := Lines(b[i + 1..]);
      var all := [b[..i]] + rest;
      assert all[1..] == rest && b == b[..i] + [NEWLINE] + b[i + 1..];
      all
  }

  predicate Dashes(line: Bytes) {
    |line| >= 3 && line[0] == DASH && line[1] == DASH && line[2] == DASH
  }

  /** The first line after the first that starts with dashes, or the number of lines. */
  function SeparatorLine(lines: seq<Bytes>): (j: nat)
    requires |lines| > 0
    ensures 1 <= j <= |lines|
    ensures j < |lines| ==> Dashes(lines[j])
    ensures forall k :: 1 <= k < j ==> !Dashes(lines[k])
  {
    if |lines| == 1 then 1
    else if Dashes(lines[1]) then 1
    else 1 + SeparatorLine(lines[1..])
  }

  // ---------------------------------------------------------------------------------------------
  // The reference definition

  /** The documents of a text. An unfinished separator line with more than dashes loses its document. */
  function LineDocs(lines: seq<Bytes>): seq<Bytes>
    requires |lines| > 0
    decreases |lines|
  {
    var j := SeparatorLine(lines);
    if j == |lines| then (if Unlines(lines) == [] then [] else [Unlines(lines)])
    else if j < |lines| - 1 then [Unlines(lines[..j])] + LineDocs(lines[j + 1..])
    else if |lines[j]| == 3 then [Unlines(lines[..j])]
    else []
  }

  /** No document together with its separator line is longer than the scanner's limit. */
  predicate LineFits(lines: seq<Bytes>)
    requires |lines| > 0
    decreases |lines|
  {
    var j := SeparatorLine(lines);
    if j < |lines| - 1 then |Unlines(lines[..j + 1])| + 1 <= LIMIT && LineFits(lines[j + 1..])
    else |Unlines(lines)| < LIMIT
  }

  // ---------------------------------------------------------------------------------------------
  // Agreement of the two

  lemma UnlinesFirst(lines: seq<Bytes>)
    requires |lines| > 0
    ensures Unlines(lines) == if |lines| == 1 then lines[0] else lines[0] + [NEWLINE] + Unlines(lines[1..])
  {
  }

  lemma {:induction false} UnlinesConcat(a: seq<Bytes>, b: seq<Bytes>)
    requires |a| > 0 && |b| > 0
    ensures Unlines(a + b) == Unlines(a) + [NEWLINE] + Unlines(b)
  {
    if |a| == 1 {
      assert (a + b)[1..] == b;
    } else {
      assert (a + b)[1..] == a[1..] + b;
      UnlinesConcat(a[1..], b);
    }
  }

  lemma NoNewline(line: Bytes)
    requires IsLine(line)
    ensures IndexNewline(line) == -1
  {
    forall k | 0 <= k < |line| ensures line[k] != NEWLINE {
      assert line[k] in line;
    }
  }

  lemma HeadOfText(lines: seq<Bytes>)
    requires Text(lines)
    ensures IsLine(lines[0])
    ensures Unlines(lines)[..|lines[0]|] == lines[0]
    ensures |lines| > 1 ==> Text(lines[1..]) && lines[0] + [NEWLINE] <= Unlines(lines)
    ensures IndexNewline(Unlines(lines)) == if |lines| == 1 then -1 else |lines[0]|
  {
    assert lines[0] in lines;
    var b := Unlines(lines);
    if |lines| == 1 {
      NoNewline(b);
    } else {
      var i := |lines[0]|;
      forall k | 0 <= k < i ensures b[k] != NEWLINE {
        assert b[k] == lines[0][k];
        assert lines[0][k] in lines[0];
      }
      IndexNewlineIs(b, i);
    }
  }

  lemma SeparatorStarts(first: Bytes, tail: seq<Bytes>)
    requires Text(tail)
    ensures SeparatorAt(first + [NEWLINE] + Unlines(tail), |first|) <==> Dashes(tail[0])
  {
    var t := Unlines(tail);
    HeadOfText(tail);
    hide Unlines, IndexNewline;
    var b := first + [NEWLINE] + t;
    assert forall k :: 0 <= k < |t| ==> b[|first| + 1 + k] == t[k];
    assert forall k :: 0 <= k < |tail[0]| ==> t[k] == t[..|tail[0]|][k] == tail[0][k];
    assert |tail[0]| < |t| ==> t[|tail[0]|] == NEWLINE by {
      if |tail| == 1 {
        UnlinesFirst(tail);
      }
    }
  }

  lemma NoSeparatorInLine(first: Bytes, rest: Bytes)
    requires IsLine(first)
    ensures forall k :: 0 <= k < |first| ==> !SeparatorAt(first + rest, k)
    ensures rest == [] ==> IndexSeparator(first + rest) == -1
  {
    forall k | 0 <= k < |first| ensures !SeparatorAt(first + rest, k) {
      assert (first + rest)[k] == first[k] && first[k] in first;
    }
  }

  lemma Shift(front: Bytes, t: Bytes)
    requires |front| > 0
    requires forall k :: 0 <= k < |front| ==> !SeparatorAt(front + t, k)
    ensures IndexSeparator(front + t) == if IndexSeparator(t) < 0 then -1 else |front| + IndexSeparator(t)
  {
    var b, r := front + t, IndexSeparator(t);
    forall k | |front| <= k ensures SeparatorAt(b, k) == SeparatorAt(t, k - |front|) {
    }
    if r >= 0 {
      IndexSeparatorIs(b, |front| + r);
    } else {
      var s := IndexSeparator(b);
      assert s >= 0 ==> SeparatorAt(t, s - |front|);
    }
  }

  /** The first "\n---" of a text is where its first separator line begins. */
  lemma {:induction false} SeparatorIndex(lines: seq<Bytes>)
    requires Text(lines)
    ensures IndexSeparator(Unlines(lines)) ==
            if SeparatorLine(lines) == |lines| then -1 else |Unlines(lines[..SeparatorLine(lines)])|
  {
    hide Dashes, SeparatorAt, IndexSeparator;
    HeadOfText(lines);
    var b, first := Unlines(lines), lines[0];
    if |lines| == 1 {
      NoSeparatorInLine(first, []);
      assert first + [] == b;
    } else {
      var tail := lines[1..];
      var t := Unlines(tail);
      var front := first + [NEWLINE];
      NoSeparatorInLine(first, [NEWLINE] + t);
      assert b == front + t == first + ([NEWLINE] + t);
      SeparatorStarts(first, tail);
      if Dashes(lines[1]) {
        IndexSeparatorIs(b, |first|);
        assert lines[..1] == [first];
      } else {
        SeparatorIndex(tail);
        Shift(front, t);
        var j := SeparatorLine(tail);
        if j < |tail| {
          assert lines[..j + 1][1..] == tail[..j];
        }
      }
    }
  }

  /** What follows the dashes of a separator line at the front of a text. */
  lemma AfterDashes(lines: seq<Bytes>)
    requires Text(lines) && Dashes(lines[0])
    ensures |Unlines(lines)| >= 3
    ensures IndexNewline(Unlines(lines)[3..]) == if |lines| == 1 then -1 else |lines[0]| - 3
  {
    HeadOfText(lines);
    var b := Unlines(lines);
    if |lines| > 1 {
      assert b[|lines[0]|] == NEWLINE;
      IndexNewlineIs(b[3..], |lines[0]| - 3);
    } else {
      NoNewline(b[3..]);
    }
  }

  lemma Front(f: Bytes, u: Bytes)
    requires |u| >= 3
    ensures (f + [NEWLINE] + u)[..|f|] == f
    ensures (f + [NEWLINE] + u)[|f| + 4..] == u[3..]
  {
  }

  /** A text around its first separator line. */
  lemma AroundSeparator(lines: seq<Bytes>)
    requires Text(lines) && SeparatorLine(lines) < |lines|
    ensures
      var j, b := SeparatorLine(lines), Unlines(lines);
      var n := |Unlines(lines[..j])|;
      && IndexSeparator(b) == n && n + 4 <= |b|
      && b[..n] == Unlines(lines[..j])
      && |Unlines(lines[j..])| >= 3 && b[n + 4..] == Unlines(lines[j..])[3..]
  {
    hide SeparatorLine, Unlines, IndexSeparator, SeparatorAt, IndexNewline;
    SeparatorIndex(lines);
    var j := SeparatorLine(lines);
    assert lines[..j] + lines[j..] == lines;
    UnlinesConcat(lines[..j], lines[j..]);
    AfterDashes(lines[j..]);
    Front(Unlines(lines[..j]), Unlines(lines[j..]));
  }

  /** The line after a separator line starts where the separator line and its newline end. */
  lemma BehindSeparator(lines: seq<Bytes>)
    requires Text(lines) && SeparatorLine(lines) < |lines| - 1
    ensures
      var j, b := SeparatorLine(lines), Unlines(lines);
      var n := |Unlines(lines[..j])| + 1 + |lines[j]| + 1;
      n == |Unlines(lines[..j + 1])| + 1 && n <= |b| && b[n..] == Unlines(lines[j + 1..])
  {
    var j := SeparatorLine(lines);
    assert lines[..j + 1] == lines[..j] + [lines[j]];
    UnlinesConcat(lines[..j], [lines[j]]);
    assert lines == lines[..j + 1] + lines[j + 1..];
    UnlinesConcat(lines[..j + 1], lines[j + 1..]);
  }

  /** The split function on a whole text, in terms of its lines. */
  lemma SplitText(lines: seq<Bytes>, atEOF: bool)
    requires Text(lines)
    ensures
      var j, b := SeparatorLine(lines), Unlines(lines);
      var c := SplitYamlDoc(b, atEOF);
      if j < |lines| - 1 then
        var n := |Unlines(lines[..j + 1])| + 1;
        n <= |b| && c == Cut(n, Some(Unlines(lines[..j]))) && b[n..] == Unlines(lines[j + 1..])
      else if !atEOF || b == [] then c == MORE
      else if j == |lines| then c == Cut(|b|, Some(b))
      else if |lines[j]| == 3 then c == Cut(|b|, Some(Unlines(lines[..j])))
      else c == MORE
  {
    hide SeparatorLine, IndexSeparator, IndexNewline, SeparatorAt, Unlines;
    var j := SeparatorLine(lines);
    if j == |lines| {
      SeparatorIndex(lines);
    } else {
      AroundSeparator(lines);
      AfterDashes(lines[j..]);
      if j < |lines| - 1 {
        BehindSeparator(lines);
      } else {
        assert lines[j..] == [lines[j]];
        UnlinesFirst([lines[j]]);
      }
    }
  }

  /** One scanner step on a text. */
  lemma NextDocOfText(lines: seq<Bytes>)
    requires Text(lines)
    ensures
      var j, b := SeparatorLine(lines), Unlines(lines);
      NextDoc(b) ==
        if j < |lines| - 1 then
          if |Unlines(lines[..j + 1])| + 1 <= LIMIT then Doc(Unlines(lines[..j]), Unlines(lines[j + 1..])) else Overflow
        else if |b| >= LIMIT then Overflow
        else if b == [] then Finished
        else if j == |lines| then Doc(b, [])
        else if |lines[j]| == 3 then Doc(Unlines(lines[..j]), [])
        else Finished
  {
    hide SplitYamlDoc, NextDoc;
    SplitText(lines, false);
    SplitText(lines, true);
    NextDocWhole(Unlines(lines));
  }

  /**
   * The streaming splitter agrees with the reference definition on every text: it runs into its
   * limit exactly when a document with its separator line is too long, and otherwise hands out
   * exactly the documents of the text.
   */
  lemma {:induction false} SplitterMeetsReference(lines: seq<Bytes>)
    requires Text(lines)
    ensures Fits(Unlines(lines)) <==> LineFits(lines)
    ensures LineFits(lines) ==> Docs(Unlines(lines)) == LineDocs(lines)
    decreases |lines|
  {
    hide SplitYamlDoc, NextDoc, SeparatorLine, Unlines;
    NextDocOfText(lines);
    EmptyInput();
    var j := SeparatorLine(lines);
    if j < |lines| {
      AroundSeparator(lines);
    }
    if j < |lines| - 1 {
      SplitterMeetsReference(lines[j + 1..]);
    }
  }

  // ---------------------------------------------------------------------------------------------
  // Nothing is lost but one kind of tail

  /** Line k separates documents: it starts with dashes and the line before it does not separate. */
  predicate Separates(lines: seq<Bytes>, k: nat)
    requires k < |lines|
  {
    k > 0 && Dashes(lines[k]) && !Separates(lines, k - 1)
  }

  /** The text ends inside a separator line that carries more than its dashes. */
  predicate LosesTail(lines: seq<Bytes>)
    requires |lines| > 0
  {
    Separates(lines, |lines| - 1) && |lines[|lines| - 1]| > 3
  }

  /** The separator text behind each document: nothing behind a document that ends the text. */
  function SeparatorTexts(lines: seq<Bytes>): (seps: seq<Bytes>)
    requires |lines| > 0
    ensures |seps| == |LineDocs(lines)|
    decreases |lines|
  {
    var j := SeparatorLine(lines);
    if j == |lines| then (if Unlines(lines) == [] then [] else [[]])
    else if j < |lines| - 1 then [[NEWLINE] + lines[j] + [NEWLINE]] + SeparatorTexts(lines[j + 1..])
    else if |lines[j]| == 3 then [[NEWLINE] + lines[j]]
    else []
  }

  /** A separator text starts with a newline and three dashes, or is missing behind the last document. */
  lemma {:induction false} SeparatorTextsSeparate(lines: seq<Bytes>, i: nat)
    requires |lines| > 0 && i < |SeparatorTexts(lines)|
    ensures
      var seps := SeparatorTexts(lines);
      (seps[i] == [] && i == |seps| - 1) || SEPARATOR <= seps[i]
    decreases |lines|
  {
    hide Unlines, LineDocs;
    var j := SeparatorLine(lines);
    if 0 < i {
      SeparatorTextsSeparate(lines[j + 1..], i - 1);
    }
  }

  function Interleave(docs: seq<Bytes>, seps: seq<Bytes>): Bytes
    requires |docs| == |seps|
  {
    if docs == [] then [] else docs[0] + seps[0] + Interleave(docs[1..], seps[1..])
  }

  lemma {:induction false} SeparatesFrom(lines: seq<Bytes>, k: nat)
    requires 0 < |lines| && k < |lines|
    ensures
      var j := SeparatorLine(lines);
      && (k < j ==> !Separates(lines, k))
      && (k == j ==> Separates(lines, k))
      && (k > j ==> Separates(lines, k) == Separates(lines[j + 1..], k - j - 1))
  {
    if k > 0 {
      SeparatesFrom(lines, k - 1);
    }
  }

  lemma InterleaveFirst(doc: Bytes, sep: Bytes, docs: seq<Bytes>, seps: seq<Bytes>)
    requires |docs| == |seps|
    ensures Interleave([doc] + docs, [sep] + seps) == doc + sep + Interleave(docs, seps)
  {
    assert ([doc] + docs)[1..] == docs && ([sep] + seps)[1..] == seps;
  }

  lemma InterleaveOne(doc: Bytes, sep: Bytes)
    ensures Interleave([], []) == []
    ensures Interleave([doc], [sep]) == doc + sep
  {
  }

  /** A text is its first document, its separator line and the text behind. */
  lemma TextFromSeparator(lines: seq<Bytes>, j: nat)
    requires 0 < j < |lines|
    ensures
      Unlines(lines) ==
        if j < |lines| - 1 then Unlines(lines[..j]) + ([NEWLINE] + lines[j] + [NEWLINE]) + Unlines(lines[j + 1..])
        else Unlines(lines[..j]) + ([NEWLINE] + lines[j])
  {
    hide Unlines;
    var f := Unlines(lines[..j]);
    var back := lines[j..];
    var u := Unlines(back);
    assert Unlines(lines) == f + [NEWLINE] + u by {
      assert lines == lines[..j] + back;
      UnlinesConcat(lines[..j], back);
    }
    if j < |lines| - 1 {
      var t := Unlines(lines[j + 1..]);
      assert u == lines[j] + [NEWLINE] + t by {
        assert back[1..] == lines[j + 1..];
        UnlinesFirst(back);
      }
      Regroup(f, [NEWLINE], lines[j], [NEWLINE], t);
    } else {
      UnlinesFirst(back);
      Assoc(f, [NEWLINE], lines[j]);
    }
  }

  lemma {:induction false} TextIsInterleaved(lines: seq<Bytes>)
    requires Text(lines)
    ensures Interleave(LineDocs(lines), SeparatorTexts(lines)) <= Unlines(lines)
    ensures Interleave(LineDocs(lines), SeparatorTexts(lines)) == Unlines(lines) <==> !LosesTail(lines)
    decreases |lines|
  {
    hide SeparatorLine, Unlines, Separates, Interleave;
    var j := SeparatorLine(lines);
    SeparatesFrom(lines, |lines| - 1);
    InterleaveOne(Unlines(lines), []);
    if j < |lines| {
      TextFromSeparator(lines, j);
      InterleaveOne(Unlines(lines[..j]), [NEWLINE] + lines[j]);
    }
    if j < |lines| - 1 {
      var behind := lines[j + 1..];
      TextIsInterleaved(behind);
      var sep := [NEWLINE] + lines[j] + [NEWLINE];
      InterleaveFirst(Unlines(lines[..j]), sep, LineDocs(behind), SeparatorTexts(behind));
      assert LosesTail(lines) == LosesTail(behind);
    }
  }

  /**
   * The documents and their separator texts are a front part of the input, in order, and they are
   * the whole input unless it ends inside a separator line carrying more than dashes: then, and
   * only then, the document in front of that line is lost.
   */
  lemma OnlyAnUnfinishedSeparatorLoses(b: Bytes)
    requires Fits(b)
    ensures
      var seps := SeparatorTexts(Lines(b));
      && |seps| == |Docs(b)|
      && (forall i :: 0 <= i < |seps| ==> (seps[i] == [] && i == |seps| - 1) || SEPARATOR <= seps[i])
      && Interleave(Docs(b), seps) <= b
      && (Interleave(Docs(b), seps) == b <==> !LosesTail(Lines(b)))
  {
    var seps := SeparatorTexts(Lines(b));
    forall i | 0 <= i < |seps| ensures (seps[i] == [] && i == |seps| - 1) || SEPARATOR <= seps[i] {
      SeparatorTextsSeparate(Lines(b), i);
    }
    SplitterMeetsReference(Lines(b));
    TextIsInterleaved(Lines(b));
  }

  /** The text "a\n--- b", which ends inside a separator line with more than dashes, gives no document at all. */
  lemma TailIsLost()
    ensures
      var b: Bytes := [97, 10, 45, 45, 45, 32, 98];
      Fits(b) && Docs(b) == [] && LosesTail(Lines(b))
  {
    var first: Bytes, last: Bytes := [97], [DASH, DASH, DASH, 32, 98];
    var b: Bytes := [97, NEWLINE, DASH, DASH, DASH, 32, 98];
    var lines := [first, last];
    assert lines[1..] == [last];
    assert Unlines(lines) == first + [NEWLINE] + last == b;
    SplitterMeetsReference(lines);
    assert LineDocs(lines) == [];
    OnlyAnUnfinishedSeparatorLoses(b);
    assert Interleave(Docs(b), SeparatorTexts(Lines(b))) == [];
  }

  // ---------------------------------------------------------------------------------------------
  // Splitting undoes joining

  const JOINER: Bytes := SEPARATOR + [NEWLINE]

  function JoinDocs(docs: seq<Bytes>): Bytes
    requires |docs| > 0
  {
    if |docs| == 1 then docs[0] else docs[0] + JOINER + JoinDocs(docs[1..])
  }

  /** No document contains a separator, the last one is not empty, and each fits the scanner. */
  predicate Joinable(docs: seq<Bytes>)
    requires |docs| > 0
  {
    && IndexSeparator(docs[0]) < 0
    && if |docs| == 1 then docs[0] != [] && |docs[0]| < LIMIT
       else |docs[0]| + |JOINER| <= LIMIT && Joinable(docs[1..])
  }

  /** The first separator of a joined text: inside its first document, or right behind it. */
  lemma JoinedIndex(d: Bytes, rest: Bytes)
    ensures IndexSeparator(d + JOINER + rest) == if IndexSeparator(d) < 0 then |d| else IndexSeparator(d)
  {
    var b := d + JOINER + rest;
    var i := IndexSeparator(d);
    var at := if i < 0 then |d| else i;
    forall k | 0 <= k < at ensures !SeparatorAt(b, k) {
      assert !SeparatorAt(d, k);
    }
    IndexSeparatorIs(b, at);
  }

  lemma TokenAtSeparator(b: Bytes, atEOF: bool)
    requires IndexSeparator(b) >= 0
    ensures
      var i, c := IndexSeparator(b), SplitYamlDoc(b, atEOF);
      && i + 4 <= |b|
      && (c.token.Some? ==> c.token.value == b[..i])
      && (IndexNewline(b[i + 4..]) >= 0 ==> c == Cut(i + 4 + IndexNewline(b[i + 4..]) + 1, Some(b[..i])))
  {
    assert SeparatorAt(b, IndexSeparator(b));
  }

  lemma JoinedParts(d: Bytes, rest: Bytes)
    ensures
      var b := d + JOINER + rest;
      && |b| >= |d| + |JOINER| && b[..|d|] == d
      && b[|d| + |SEPARATOR|..] == [NEWLINE] + rest && b[|d| + |JOINER|..] == rest
  {
  }

  lemma CutBehind(b: Bytes, d: Bytes)
    requires IndexSeparator(b) == |d| && |d| + 5 <= |b| && b[..|d|] == d && b[|d| + 4] == NEWLINE
    ensures SplitYamlDoc(b, false) == Cut(|d| + 5, Some(d))
  {
    hide SplitYamlDoc, IndexSeparator, SeparatorAt;
    IndexNewlineIs(b[|d| + 4..], 0);
    TokenAtSeparator(b, false);
  }

  lemma JoinedCut(d: Bytes, rest: Bytes)
    requires IndexSeparator(d) < 0
    ensures SplitYamlDoc(d + JOINER + rest, false) == Cut(|d| + |JOINER|, Some(d))
  {
    hide SplitYamlDoc, IndexSeparator;
    JoinedIndex(d, rest);
    JoinedParts(d, rest);
    CutBehind(d + JOINER + rest, d);
  }

  lemma JoinedInside(d: Bytes, rest: Bytes, atEOF: bool)
    requires IndexSeparator(d) >= 0
    ensures SplitYamlDoc(d + JOINER + rest, atEOF).token != Some(d)
  {
    JoinedIndex(d, rest);
    TokenAtSeparator(d + JOINER + rest, atEOF);
    assert SeparatorAt(d, IndexSeparator(d));
  }

  lemma JoinedStep(d: Bytes, rest: Bytes)
    ensures IndexSeparator(d) < 0 ==>
              NextDoc(d + JOINER + rest) == if |d| + |JOINER| <= LIMIT then Doc(d, rest) else Overflow
    ensures IndexSeparator(d) >= 0 ==>
              NextDoc(d + JOINER + rest).Doc? ==> NextDoc(d + JOINER + rest).token != d
  {
    hide SplitYamlDoc, NextDoc, IndexSeparator;
    JoinedParts(d, rest);
    if IndexSeparator(d) < 0 {
      JoinedCut(d, rest);
    } else {
      JoinedInside(d, rest, false);
      JoinedInside(d, rest, true);
    }
    NextDocWhole(d + JOINER + rest);
  }

  lemma LastStep(d: Bytes)
    ensures IndexSeparator(d) < 0 ==>
              NextDoc(d) == if |d| >= LIMIT then Overflow else if d == [] then Finished else Doc(d, [])
    ensures IndexSeparator(d) >= 0 ==> NextDoc(d).Doc? ==> NextDoc(d).token != d
  {
    hide NextDoc;
    NextDocWhole(d);
  }

  /** Joining and splitting again gives the documents back exactly when they are joinable. */
  lemma {:induction false} SplitUndoesJoin(docs: seq<Bytes>)
    requires |docs| > 0
    ensures Fits(JoinDocs(docs)) && Docs(JoinDocs(docs)) == docs <==> Joinable(docs)
  {
    hide SplitYamlDoc, NextDoc, IndexSeparator;
    if |docs| == 1 {
      LastStep(docs[0]);
      EmptyInput();
    } else {
      JoinedStep(docs[0], JoinDocs(docs[1..]));
      SplitUndoesJoin(docs[1..]);
    }
  }
}
