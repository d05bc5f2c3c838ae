/**
 * The streaming YAML document splitter of pkg/custom-resource/components/loader/local.go:
 * a split function called on growing prefixes by a bounded scanner, and the decode loop above it.
 *
 * The scanner may cut its input into reads of any size. What it hands out is proved to depend on
 * the whole input only, and to agree with a reference definition that works on lines.
 */
module YamlDocuments {
  import opened Sequences
  import opened Wrappers

  newtype byte = x: int | 0 <= x < 256
  type Bytes = seq<byte>

  const NEWLINE: byte := 10
  const DASH: byte := 45

  /** The text "\n---". */
  const SEPARATOR: Bytes := [NEWLINE, DASH, DASH, DASH]

  /** The scanner's token limit (bufio.MaxScanTokenSize). */
  const LIMIT: nat := 65536

  // ---------------------------------------------------------------------------------------------
  // Searching

  predicate SeparatorAt(data: Bytes, i: int) {
    0 <= i && i + 4 <= |data| &&
    data[i] == NEWLINE && data[i + 1] == DASH && data[i + 2] == DASH && data[i + 3] == DASH
  }

  lemma SeparatorOccurs(data: Bytes)
    ensures forall i :: SeparatorAt(data, i) == OccursAt(data, SEPARATOR, i)
  {
    forall i ensures SeparatorAt(data, i) == OccursAt(data, SEPARATOR, i) {
      if 0 <= i && i + 4 <= |data| {
        var w := data[i..i + 4];
        assert w == [data[i], data[i + 1], data[i + 2], data[i + 3]];
        assert w == SEPARATOR <==> w[0] == NEWLINE && w[1] == DASH && w[2] == DASH && w[3] == DASH;
      }
    }
  }

  /** bytes.Index(data, "\n---"): the first occurrence, or -1. */
  function IndexSeparator(data: Bytes): (r: int)
    ensures -1 <= r
    ensures r >= 0 ==> SeparatorAt(data, r)
    ensures forall k :: 0 <= k < (if r >= 0 then r else |data|) ==> !SeparatorAt(data, k)
  {
    SeparatorOccurs(data);
    Index(data, SEPARATOR)
  }

  /** bytes.IndexByte(data, '\n'): the first newline, or -1. */
  function IndexNewline(data: Bytes): (r: int)
    ensures -1 <= r < |data|
    ensures r >= 0 ==> data[r] == NEWLINE
    ensures forall k :: 0 <= k < (if r >= 0 then r else |data|) ==> data[k] != NEWLINE
  {
    if data == [] then -1
    else if data[0] == NEWLINE then 0
    else
      var r := IndexNewline(data[1..]);
      if r < 0 then -1 else r + 1
  }

  lemma IndexSeparatorIs(data: Bytes, i: nat)
    requires SeparatorAt(data, i)
    requires forall k :: 0 <= k < i ==> !SeparatorAt(data, k)
    ensures IndexSeparator(data) == i
  {
    var r := IndexSeparator(data);
    assert r < 0 ==> !SeparatorAt(data, i);
  }

  lemma IndexNewlineIs(data: Bytes, i: nat)
    requires i < |data| && data[i] == NEWLINE
    requires forall k :: 0 <= k < i ==> data[k] != NEWLINE
    ensures IndexNewline(data) == i
  {
  }

  // ---------------------------------------------------------------------------------------------
  // The split function

  /** What a split function tells the scanner: bytes to drop and, perhaps, a token. */
  datatype Cut = Cut(advance: nat, token: Option<Bytes>)

  const MORE := Cut(0, None)

  /** splitYamlDoc, branch by branch. A token always moves the scanner forward. */
  function SplitYamlDoc(data: Bytes, atEOF: bool): (c: Cut)
    ensures c.advance <= |data|
    ensures c.token.Some? ==> 0 < c.advance && c.token.value <= data
    ensures c.token.None? ==> c == MORE
  {
    if atEOF && |data| == 0 then MORE
    else
      var i := IndexSeparator(data);
      if i >= 0 then
        var after := data[i + 4..];
        if |after| == 0 then
          if atEOF then Cut(|data|, Some(data[..|data| - 4])) else MORE
        else
          var j := IndexNewline(after);
          if j >= 0 then Cut(i + 4 + j + 1, Some(data[..i])) else MORE
      else if atEOF then Cut(|data|, Some(data))
      else MORE
  }

  predicate Settled(data: Bytes) {
    SplitYamlDoc(data, false).token.Some?
  }

  /** A settled prefix fixes the first separator and its newline in every extension. */
  lemma SettledExtends(data: Bytes, m: nat, atEOF: bool)
    requires m <= |data| && Settled(data[..m])
    ensures SplitYamlDoc(data, atEOF) == SplitYamlDoc(data[..m], false)
  {
    var p := data[..m];
    var i := IndexSeparator(p);
    var j := IndexNewline(p[i + 4..]);
    hide IndexSeparator, IndexNewline;
    forall k | 0 <= k < i ensures !SeparatorAt(data, k) {
      assert !SeparatorAt(p, k);
    }
    IndexSeparatorIs(data, i);
    IndexNewlineIs(data[i + 4..], j);
    assert data[..i] == p[..i];
  }

  /** A prefix that reaches the end of the separator line is settled. */
  lemma EnoughSettles(data: Bytes, m: nat)
    requires m <= |data| && Settled(data) && SplitYamlDoc(data, false).advance <= m
    ensures Settled(data[..m])
  {
    var p := data[..m];
    var i := IndexSeparator(data);
    var j := IndexNewline(data[i + 4..]);
    hide IndexSeparator, IndexNewline;
    forall k | 0 <= k < i ensures !SeparatorAt(p, k) {
      assert !SeparatorAt(data, k);
    }
    IndexSeparatorIs(p, i);
    IndexNewlineIs(p[i + 4..], j);
  }

  /**
   * A token returned on a prefix is returned unchanged on every extension of it, at end of input or
   * not, and the prefixes that settle are exactly those that reach the end of the separator line.
   */
  lemma PrefixDecides(data: Bytes, m: nat, atEOF: bool)
    requires m <= |data|
    ensures Settled(data[..m]) ==> SplitYamlDoc(data, atEOF) == SplitYamlDoc(data[..m], false)
    ensures Settled(data[..m]) <==> Settled(data) && SplitYamlDoc(data, false).advance <= m
  {
    hide SplitYamlDoc;
    if Settled(data[..m]) {
      SettledExtends(data, m, atEOF);
      SettledExtends(data, m, false);
    } else if Settled(data) && SplitYamlDoc(data, false).advance <= m {
      EnoughSettles(data, m);
    }
  }

  // ---------------------------------------------------------------------------------------------
  // What the scanner hands out, as a function of the whole input

  datatype Next = Doc(token: Bytes, rest: Bytes) | Finished | Overflow

  function Window(data: Bytes): Bytes {
    if |data| <= LIMIT then data else data[..LIMIT]
  }

  /** The next document of an input of which nothing has been read yet. */
  function NextDoc(data: Bytes): (n: Next)
    ensures n.Doc? ==> |n.rest| < |data|
  {
    var c := SplitYamlDoc(Window(data), false);
    if c.token.Some? then Doc(c.token.value, data[c.advance..])
    else if |data| >= LIMIT then Overflow
    else
      var e := SplitYamlDoc(data, true);
      if e.token.Some? then Doc(e.token.value, data[e.advance..]) else Finished
  }

  /** The scanner's window matters only when a document and its separator line do not fit it. */
  lemma NextDocWhole(data: Bytes)
    ensures
      var c, e := SplitYamlDoc(data, false), SplitYamlDoc(data, true);
      NextDoc(data) ==
        if c.token.Some? && c.advance <= LIMIT then Doc(c.token.value, data[c.advance..])
        else if |data| >= LIMIT then Overflow
        else if e.token.Some? then Doc(e.token.value, data[e.advance..])
        else Finished
  {
    assert data[..|data|] == data;
    PrefixDecides(data, |Window(data)|, false);
  }

  /** All documents up to the end of the input or the first one over the limit. */
  function Docs(data: Bytes): seq<Bytes>
    decreases |data|
  {
    var n := NextDoc(data);
    if n.Doc? then [n.token] + Docs(n.rest) else []
  }

  /** No document of this input runs into the scanner's limit. */
  predicate Fits(data: Bytes)
    decreases |data|
  {
    var n := NextDoc(data);
    n.Finished? || (n.Doc? && Fits(n.rest))
  }

  lemma OneLine(b: Bytes, c: byte)
    requires c != NEWLINE && b != [] && forall k :: 0 <= k < |b| ==> b[k] == c
    ensures NextDoc(b) == if |b| >= LIMIT then Overflow else Doc(b, [])
  {
    var w := Window(b);
    assert IndexSeparator(w) < 0 && IndexSeparator(b) < 0;
    assert b[|b|..] == [];
  }

  lemma EmptyInput()
    ensures NextDoc([]) == Finished
  {
  }

  /**
   * A line of 65536 bytes runs into the limit: nothing is handed out, and decodeYaml cannot end. One
   * byte less is still a document.
   */
  lemma LongLineOverflows(c: byte)
    requires c != NEWLINE
    ensures !Fits(seq(65536, _ => c)) && Docs(seq(65536, _ => c)) == []
    ensures Fits(seq(65535, _ => c)) && Docs(seq(65535, _ => c)) == [seq(65535, _ => c)]
  {
    OneLine(seq(65536, _ => c), c);
    OneLine(seq(65535, _ => c), c);
    EmptyInput();
  }

  // ---------------------------------------------------------------------------------------------
  // The scanner

  datatype ScanError = NoError | EndOfInput | TooLong

  /** Splitting the window decides NextDoc: a token is final, and no token at the limit or the end is final too. */
  lemma WindowDecides(data: Bytes, window: Bytes, err: ScanError)
    requires err != TooLong ==> window <= data && |window| <= LIMIT
    requires err == EndOfInput ==> window == data && |window| < LIMIT
    ensures err == NoError && Settled(window) ==>
              var c := SplitYamlDoc(window, false);
              NextDoc(data) == Doc(c.token.value, data[c.advance..])
    ensures err == NoError && !Settled(window) && |window| == LIMIT ==> NextDoc(data) == Overflow
    ensures err == EndOfInput ==>
              var c := SplitYamlDoc(window, true);
              NextDoc(data) == if c.token.Some? then Doc(c.token.value, data[c.advance..]) else Finished
  {
    if err == TooLong { return; }
    var w := Window(data);
    assert w[..|window|] == window;
    PrefixDecides(w, |window|, false);
    if err == EndOfInput {
      assert data[..|data|] == data;
      PrefixDecides(data, |data|, true);
    }
  }

  /** bufio.Scanner over a reader that delivers its bytes in pieces of any size. */
  class Scanner {
    var window: Bytes      // read and not yet consumed
    var unread: Bytes      // still with the reader
    var err: ScanError

    ghost predicate Valid()
      reads this
    {
      && |window| <= LIMIT
      && (err == EndOfInput ==> unread == [] && |window| < LIMIT)
    }

    ghost function Remaining(): Bytes
      reads this
    {
      window + unread
    }

    constructor (input: Bytes)
      ensures Valid() && Remaining() == input && err == NoError
    {
      window := [];
      unread := input;
      err := NoError;
    }

    /** One read: between one byte and all that fits, or the end of the input. */
    method Read()
      requires Valid() && err == NoError && |window| < LIMIT
      modifies this
      ensures Valid() && Remaining() == old(Remaining())
      ensures if old(unread) == [] then err == EndOfInput && window == old(window) && unread == []
              else err == NoError && |unread| < |old(unread)| && old(window) <= window
    {
      if unread == [] {
        err := EndOfInput;
      } else {
        var n :| 1 <= n <= |unread| && n <= LIMIT - |window|;
        window, unread := window + unread[..n], unread[n..];
      }
    }

    /**
     * Scan: until the limit is hit the result is NextDoc of what remains, however the reads were
     * cut. After the limit was hit nothing more is read and only the window is split.
     */
    method Scan() returns (ok: bool, token: Bytes)
      requires Valid()
      modifies this
      ensures Valid()
      ensures old(err) != TooLong ==>
                match NextDoc(old(Remaining())) {
                  case Doc(t, rest) => ok && token == t && Remaining() == rest && err != TooLong
                  case Finished => !ok && err == EndOfInput && Remaining() == []
                  case Overflow => !ok && err == TooLong && window == old(Remaining())[..LIMIT]
                }
      ensures old(err) == TooLong ==>
                && err == TooLong
                && var c := SplitYamlDoc(old(window), true);
                   if c.token.Some? then ok && token == c.token.value && window == old(window)[c.advance..]
                   else !ok && window == []
    {
      hide SplitYamlDoc, NextDoc;
      ghost var data := Remaining();
      ok, token := false, [];
      while true
        invariant Valid()
        invariant old(err) != TooLong ==> err != TooLong && Remaining() == data
        invariant old(err) == TooLong ==> err == TooLong && window == old(window)
        decreases |unread|, err == NoError
      {
        if window != [] || err != NoError {
          var c := SplitYamlDoc(window, err != NoError);
          WindowDecides(data, window, err);
          assert err != TooLong ==> data[c.advance..] == window[c.advance..] + unread;
          window := window[c.advance..];
          if c.token.Some? {
            return true, c.token.value;
          }
        }
        if err != NoError {
          window := [];
          return false, [];
        }
        if |window| >= LIMIT {
          err := TooLong;
          return false, [];
        }
        Read();
      }
    }
  }

  // ---------------------------------------------------------------------------------------------
  // The decode loop

  /** What yaml.Unmarshal makes of one document: a failure, or a kind and a component. */
  datatype Parsed<+C> = Malformed(reason: string) | Resource(kind: string, component: C)

  datatype DecodeError = ParseError(reason: string) | TokenTooLong

  const COMPONENT_KIND := "Component"

  function GoodComponents<C>(docs: seq<Bytes>, parse: Bytes -> Parsed<C>): seq<C> {
    if docs == [] then []
    else
      var init, p := docs[..|docs| - 1], parse(docs[|docs| - 1]);
      GoodComponents(init, parse) + (if p.Resource? && p.kind == COMPONENT_KIND then [p.component] else [])
  }

  function Failures<C>(docs: seq<Bytes>, parse: Bytes -> Parsed<C>): seq<DecodeError> {
    if docs == [] then []
    else
      var init, p := docs[..|docs| - 1], parse(docs[|docs| - 1]);
      Failures(init, parse) + (if p.Malformed? then [ParseError(p.reason)] else [])
  }

  function OtherKinds<C>(docs: seq<Bytes>, parse: Bytes -> Parsed<C>): nat {
    if docs == [] then 0
    else
      var init, p := docs[..|docs| - 1], parse(docs[|docs| - 1]);
      OtherKinds(init, parse) + (if p.Resource? && p.kind != COMPONENT_KIND then 1 else 0)
  }

  /** Every document is accounted for: a component, an error or another kind. */
  lemma {:induction false} EveryDocumentCounts<C>(docs: seq<Bytes>, parse: Bytes -> Parsed<C>)
    ensures |GoodComponents(docs, parse)| + |Failures(docs, parse)| + OtherKinds(docs, parse) == |docs|
  {
    if docs != [] {
      EveryDocumentCounts(docs[..|docs| - 1], parse);
    }
  }

  /** Places among n documents, in increasing order. */
  predicate Increasing(places: seq<nat>, n: nat) {
    && (forall k :: 0 <= k < |places| ==> places[k] < n)
    && (forall j, k :: 0 <= j < k < |places| ==> places[j] < places[k])
  }

  /** The components are those of the good documents, each once and in the order of the documents. */
  lemma {:induction false} ComponentsInOrder<C>(docs: seq<Bytes>, parse: Bytes -> Parsed<C>)
    returns (places: seq<nat>)
    ensures Increasing(places, |docs|) && |GoodComponents(docs, parse)| == |places|
    ensures forall k :: 0 <= k < |places| ==>
              parse(docs[places[k]]) == Resource("Component", GoodComponents(docs, parse)[k])
    ensures forall i :: 0 <= i < |docs| && parse(docs[i]).Resource? && parse(docs[i]).kind == "Component" ==> i in places
  {
    places := [];
    if docs != [] {
      var n := |docs| - 1;
      places := ComponentsInOrder(docs[..n], parse);
      assert forall k :: 0 <= k < |places| ==> docs[..n][places[k]] == docs[places[k]];
      assert forall i :: 0 <= i < n ==> docs[..n][i] == docs[i];
      if parse(docs[n]).Resource? && parse(docs[n]).kind == COMPONENT_KIND {
        ghost var before := places;
        places := places + [n];
        assert places[|before|] == n && forall i :: i in before ==> i in places;
      }
    }
  }

  /** The errors are those of the documents that do not parse, each once and in the order of the documents. */
  lemma {:induction false} FailuresInOrder<C>(docs: seq<Bytes>, parse: Bytes -> Parsed<C>)
    returns (places: seq<nat>)
    ensures Increasing(places, |docs|) && |Failures(docs, parse)| == |places|
    ensures forall k :: 0 <= k < |places| ==>
              parse(docs[places[k]]).Malformed?
              && Failures(docs, parse)[k] == ParseError(parse(docs[places[k]]).reason)
    ensures forall i :: 0 <= i < |docs| && parse(docs[i]).Malformed? ==> i in places
  {
    places := [];
    if docs != [] {
      var n := |docs| - 1;
      places := FailuresInOrder(docs[..n], parse);
      assert forall k :: 0 <= k < |places| ==> docs[..n][places[k]] == docs[places[k]];
      assert forall i :: 0 <= i < n ==> docs[..n][i] == docs[i];
      if parse(docs[n]).Malformed? {
        ghost var before := places;
        places := places + [n];
        assert places[|before|] == n && forall i :: i in before ==> i in places;
      }
    }
  }

  /** The documents handed out by a scanner, as seen after k of them. */
  lemma {:induction false} DocsAfter(data: Bytes, done: seq<Bytes>, rest: Bytes)
    requires Docs(data) == done + Docs(rest)
    ensures match NextDoc(rest)
            case Doc(t, r) => Docs(data) == done + [t] + Docs(r)
            case _ => Docs(data) == done
  {
  }

  /**
   * decodeYaml with a budget on its loop turns, which the source does not have. For an input whose
   * documents fit the limit, the loop stops by itself after one turn per document and one for the
   * end. For any other input no budget is enough: the scanner keeps reporting the long token.
   */
  method DecodeYaml<C>(b: Bytes, parse: Bytes -> Parsed<C>, budget: nat)
    returns (stopped: bool, list: seq<C>, errs: seq<DecodeError>)
    ensures stopped <==> Fits(b) && |Docs(b)| < budget
    ensures stopped ==> list == GoodComponents(Docs(b), parse) && errs == Failures(Docs(b), parse)
    ensures stopped ==> |list| + |errs| + OtherKinds(Docs(b), parse) == |Docs(b)|
    ensures !Fits(b) && |Docs(b)| < budget ==> TokenTooLong in errs
  {
    hide NextDoc, SplitYamlDoc;
    var scanner := new Scanner(b);
    stopped, list, errs := false, [], [];
    ghost var done: seq<Bytes> := [];
    ghost var rest := b;
    for turn := 0 to budget
      invariant scanner.Valid() && !stopped
      invariant scanner.err != TooLong ==>
                  && scanner.Remaining() == rest
                  && (Fits(b) <==> Fits(rest))
                  && Docs(b) == done + Docs(rest)
                  && list == GoodComponents(done, parse) && errs == Failures(done, parse)
                  && |done| == turn
      invariant scanner.err == TooLong ==> !Fits(b) && TokenTooLong in errs
      invariant !Fits(b) && |Docs(b)| < turn ==> scanner.err == TooLong
    {
      var ok, token := scanner.Scan();
      if scanner.err != TooLong {
        DocsAfter(b, done, rest);
      }
      if ok {
        match parse(token) {
          case Malformed(reason) => errs := errs + [ParseError(reason)];
          case Resource(kind, component) =>
            if kind == COMPONENT_KIND {
              list := list + [component];
            }
        }
        if scanner.err != TooLong {
          done, rest := done + [token], NextDoc(rest).rest;
          assert done[..|done| - 1] + [token] == done;
        }
      } else if scanner.err == EndOfInput {
        stopped := true;
        EveryDocumentCounts(done, parse);
        return;
      } else {
        errs := errs + [TokenTooLong];
      }
    }
  }
}
