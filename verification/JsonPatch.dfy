/**
 * JSON documents, JSON Pointer (RFC 6901) and the "add" operation of JSON Patch (RFC 6902).
 */
module JsonPatch {
  import opened Wrappers

  datatype Json =
    | Null
    | Bool(b: bool)
    | Num(n: int)
    | Str(s: string)
    | Arr(elems: seq<Json>)
    | Obj(members: map<string, Json>)

  /** An object member, with null for a missing one. */
  function Member(j: Json, key: string): Json {
    if j.Obj? && key in j.members then j.members[key] else Null
  }

  // ---------------------------------------------------------------------------------------------
  // Pointers (RFC 6901, sections 3 and 4)

  /** The reference tokens between slashes. There is always one more token than slashes. */
  function SplitSlash(s: string): (tokens: seq<string>)
    ensures |tokens| > 0
  {
    if s == "" then [""]
    else
      var rest := SplitSlash(s[1..]);
      if s[0] == '/' then [""] + rest else [[s[0]] + rest[0]] + rest[1..]
  }

  /** "~1" stands for a slash and "~0" for a tilde; any other use of a tilde is an error. */
  function Unescape(token: string): Option<string> {
    if token == "" then Some("")
    else if token[0] != '~' then
      var rest := Unescape(token[1..]);
      if rest.None? then None else Some([token[0]] + rest.value)
    else if |token| < 2 || (token[1] != '0' && token[1] != '1') then None
    else
      var rest := Unescape(token[2..]);
      if rest.None? then None else Some([if token[1] == '0' then '~' else '/'] + rest.value)
  }

  function UnescapeAll(tokens: seq<string>): (r: Option<seq<string>>) {
    if tokens == [] then Some([])
    else
      var first, rest := Unescape(tokens[0]), UnescapeAll(tokens[1..]);
      if first.None? || rest.None? then None else Some([first.value] + rest.value)
  }

  function ParsePointer(s: string): Option<seq<string>> {
    if s == "" then Some([])
    else if s[0] != '/' then None
    else UnescapeAll(SplitSlash(s[1..]))
  }

  predicate IsDigit(c: char) {
    '0' <= c <= '9'
  }

  predicate Digits(s: string) {
    s != "" && forall c :: c in s ==> IsDigit(c)
  }

  function DigitsValue(s: string): nat
    requires Digits(s)
  {
    var init, last := s[..|s| - 1], s[|s| - 1] as int - '0' as int;
    assert IsDigit(s[|s| - 1]);
    if init == "" then last else DigitsValue(init) * 10 + last
  }

  /** An array index has digits only and no leading zero. */
  function ParseIndex(token: string): Option<nat> {
    if Digits(token) && (token[0] != '0' || |token| == 1) then Some(DigitsValue(token)) else None
  }

  /** Decimal notation, as Go's "%d" prints it. */
  function Itoa(n: nat): (s: string)
    ensures Digits(s)
    ensures s[0] == '0' ==> n == 0
    ensures |s| == 1 <==> n < 10
  {
    var last := [('0' as int + n % 10) as char];
    if n < 10 then last else Itoa(n / 10) + last
  }

  lemma {:induction false} IndexRoundTrip(n: nat)
    ensures ParseIndex(Itoa(n)) == Some(n)
  {
    var s := Itoa(n);
    if n >= 10 {
      IndexRoundTrip(n / 10);
      assert s[..|s| - 1] == Itoa(n / 10);
    }
  }

  lemma PrintedAppend(m: nat, digit: char)
    requires m > 0 && IsDigit(digit)
    ensures Itoa(m * 10 + (digit as int - '0' as int)) == Itoa(m) + [digit]
  {
    var n := m * 10 + (digit as int - '0' as int);
    assert n / 10 == m && n % 10 == digit as int - '0' as int;
  }

  lemma PrintedSmall(n: nat)
    requires n < 10
    ensures Itoa(n) == [('0' as int + n) as char]
  {
    assert n % 10 == n;
  }

  lemma PrintedDigit(digit: char)
    requires IsDigit(digit)
    ensures Itoa(digit as int - '0' as int) == [digit]
  {
    hide Itoa;
    PrintedSmall(digit as int - '0' as int);
  }

  /** A front part of an index is an index, and not zero. */
  lemma IndexFront(token: string)
    requires ParseIndex(token).Some? && |token| > 1
    ensures
      var n := |token| - 1;
      && IsDigit(token[n]) && ParseIndex(token[..n]).Some?
      && ParseIndex(token).value == ParseIndex(token[..n]).value * 10 + (token[n] as int - '0' as int)
      && token[..n][0] != '0'
  {
    assert forall c :: c in token[..|token| - 1] ==> c in token;
  }

  lemma ZeroIsPrinted()
    ensures Itoa(0) == "0"
  {
  }

  lemma {:induction false} IndexIsPrinted(token: string)
    requires ParseIndex(token).Some?
    ensures token == Itoa(ParseIndex(token).value)
  {
    hide Itoa;
    var n := |token| - 1;
    assert token[n] in token && token == token[..n] + [token[n]];
    if n == 0 {
      PrintedDigit(token[0]);
    } else {
      IndexFront(token);
      hide ParseIndex;
      IndexIsPrinted(token[..n]);
      ZeroIsPrinted();
      PrintedAppend(ParseIndex(token[..n]).value, token[n]);
    }
  }

  /** An array index is exactly the decimal notation of a number. */
  lemma ParseIndexIff(token: string, n: nat)
    ensures ParseIndex(token) == Some(n) <==> token == Itoa(n)
  {
    IndexRoundTrip(n);
    if ParseIndex(token).Some? {
      IndexIsPrinted(token);
    }
  }

  // ---------------------------------------------------------------------------------------------
  // Patches (RFC 6902, sections 4.1 and 5)

  datatype PatchOperation = PatchOperation(op: string, path: string, value: Json)

  datatype PatchError = BadOperation | BadPointer | NoTarget

  /** "add": set an object member, insert into an array or append to it. The parent must exist. */
  function Add(doc: Json, tokens: seq<string>, value: Json): Result<Json, PatchError>
    decreases |tokens|
  {
    if tokens == [] then Ok(value)
    else if |tokens| == 1 then
      match doc {
        case Obj(members) => Ok(Obj(members[tokens[0] := value]))
        case Arr(elems) =>
          if tokens[0] == "-" then Ok(Arr(elems + [value]))
          else
            var i := ParseIndex(tokens[0]);
            if i.Some? && i.value <= |elems| then Ok(Arr(elems[..i.value] + [value] + elems[i.value..]))
            else Err(NoTarget)
        case _ => Err(NoTarget)
      }
    else
      match doc {
        case Obj(members) =>
          if tokens[0] in members then
            var r := Add(members[tokens[0]], tokens[1..], value);
            if r.Ok? then Ok(Obj(members[tokens[0] := r.value])) else r
          else Err(NoTarget)
        case Arr(elems) =>
          var i := ParseIndex(tokens[0]);
          if i.Some? && i.value < |elems| then
            var r := Add(elems[i.value], tokens[1..], value);
            if r.Ok? then Ok(Arr(elems[i.value := r.value])) else r
          else Err(NoTarget)
        case _ => Err(NoTarget)
      }
  }

  lemma Inserted(elems: seq<Json>, i: nat, value: Json)
    requires i <= |elems|
    ensures
      var r := elems[..i] + [value] + elems[i..];
      && |r| == |elems| + 1 && r[i] == value
      && forall k :: 0 <= k < |elems| ==> r[if k < i then k else k + 1] == elems[k]
  {
  }

  /** Adding at an index inserts: what stood there and behind moves up by one. Behind the end there is no place. */
  lemma AddInserts(elems: seq<Json>, i: nat, value: Json)
    ensures
      var r := Add(Arr(elems), [Itoa(i)], value);
      if i > |elems| then r == Err(NoTarget)
      else
        && r.Ok? && r.value.Arr? && |r.value.elems| == |elems| + 1 && r.value.elems[i] == value
        && forall k :: 0 <= k < |elems| ==> r.value.elems[if k < i then k else k + 1] == elems[k]
  {
    hide Itoa, ParseIndex;
    IndexRoundTrip(i);
    assert Itoa(i) != "-" by {
      assert Itoa(i)[0] in Itoa(i);
    }
    if i <= |elems| {
      Inserted(elems, i, value);
      assert Add(Arr(elems), [Itoa(i)], value) == Ok(Arr(elems[..i] + [value] + elems[i..]));
    }
  }

  function ApplyOp(doc: Json, op: PatchOperation): Result<Json, PatchError> {
    if op.op != "add" then Err(BadOperation)
    else
      var p := ParsePointer(op.path);
      if p.None? then Err(BadPointer) else Add(doc, p.value, op.value)
  }

  /** Operations apply in order; one error fails the whole patch. */
  function Apply(doc: Json, ops: seq<PatchOperation>): Result<Json, PatchError>
    decreases |ops|
  {
    if ops == [] then Ok(doc)
    else
      var r := ApplyOp(doc, ops[0]);
      if r.Ok? then Apply(r.value, ops[1..]) else r
  }

  lemma {:induction false} ApplyConcat(doc: Json, a: seq<PatchOperation>, b: seq<PatchOperation>)
    ensures Apply(doc, a + b) == if Apply(doc, a).Ok? then Apply(Apply(doc, a).value, b) else Apply(doc, a)
    decreases |a|
  {
    if a == [] {
      assert a + b == b;
    } else {
      assert (a + b)[1..] == a[1..] + b;
      if ApplyOp(doc, a[0]).Ok? {
        ApplyConcat(ApplyOp(doc, a[0]).value, a[1..], b);
      }
    }
  }

  // ---------------------------------------------------------------------------------------------
  // Pointers written without escapes

  predicate Plain(token: string) {
    '/' !in token && '~' !in token
  }

  function Pointer(tokens: seq<string>): string {
    if tokens == [] then "" else "/" + tokens[0] + Pointer(tokens[1..])
  }

  lemma {:induction false} SplitPlain(token: string, rest: string)
    requires '/' !in token && (rest == "" || rest[0] == '/')
    ensures SplitSlash(token + rest) == if rest == "" then [token] else [token] + SplitSlash(rest[1..])
  {
    var s := token + rest;
    if token == "" {
      assert s == rest;
    } else {
      assert s[1..] == token[1..] + rest;
      assert token[0] in token;
      SplitPlain(token[1..], rest);
      assert [token[0]] + token[1..] == token;
    }
  }

  // ---------------------------------------------------------------------------------------------
  // Pointers of any tokens (RFC 6901, section 3)

  function Escape(token: string): string {
    if token == "" then ""
    else (if token[0] == '~' then "~0" else if token[0] == '/' then "~1" else [token[0]]) + Escape(token[1..])
  }

  lemma {:induction false} EscapedUnescapes(token: string)
    ensures '/' !in Escape(token) && Unescape(Escape(token)) == Some(token)
  {
    if token != "" {
      EscapedUnescapes(token[1..]);
      var e, rest := Escape(token), Escape(token[1..]);
      assert [token[0]] + token[1..] == token;
      if token[0] == '~' || token[0] == '/' {
        assert e[2..] == rest;
      } else {
        assert e[1..] == rest;
      }
    }
  }

  lemma {:induction false} UnescapedIsEscaped(s: string)
    requires '/' !in s && Unescape(s).Some?
    ensures s == Escape(Unescape(s).value)
  {
    if s != "" {
      var t := Unescape(s).value;
      if s[0] == '~' {
        UnescapedIsEscaped(s[2..]);
        assert s == s[..2] + s[2..] && t[1..] == Unescape(s[2..]).value;
      } else {
        assert s[0] in s;
        UnescapedIsEscaped(s[1..]);
        assert s == [s[0]] + s[1..] && t[1..] == Unescape(s[1..]).value;
      }
    }
  }

  function EscapedPointer(tokens: seq<string>): string {
    if tokens == [] then "" else "/" + Escape(tokens[0]) + EscapedPointer(tokens[1..])
  }

  lemma UnescapeFirst(first: string, rest: seq<string>)
    ensures UnescapeAll([]) == Some([])
    ensures
      var f, r := Unescape(first), UnescapeAll(rest);
      UnescapeAll([first] + rest) == if f.None? || r.None? then None else Some([f.value] + r.value)
  {
    assert ([first] + rest)[1..] == rest;
  }

  lemma {:induction false} EscapedRoundTrip(tokens: seq<string>)
    ensures ParsePointer(EscapedPointer(tokens)) == Some(tokens)
  {
    hide Escape, Unescape, SplitSlash, UnescapeAll;
    if tokens != [] {
      var first, rest := Escape(tokens[0]), EscapedPointer(tokens[1..]);
      assert EscapedPointer(tokens)[1..] == first + rest;
      EscapedUnescapes(tokens[0]);
      SplitPlain(first, rest);
      EscapedRoundTrip(tokens[1..]);
      assert [tokens[0]] + tokens[1..] == tokens;
      UnescapeFirst(first, if rest == "" then [] else SplitSlash(rest[1..]));
      assert [first] + [] == [first];
    }
  }

  lemma SplitStep(s: string)
    requires s != ""
    ensures
      var parts, rest := SplitSlash(s), SplitSlash(s[1..]);
      if s[0] == '/' then parts[0] == "" && parts[1..] == rest
      else parts[0] == [s[0]] + rest[0] && parts[1..] == rest[1..]
  {
  }

  lemma {:induction false} SplitFirst(s: string)
    ensures
      var parts := SplitSlash(s);
      var first := parts[0];
      && '/' !in first && first <= s
      && if |first| == |s| then parts == [first]
         else |first| < |s| && s[|first|] == '/' && parts[1..] == SplitSlash(s[|first| + 1..])
  {
    if s != "" {
      SplitStep(s);
      hide SplitSlash;
      var parts, rest := SplitSlash(s), SplitSlash(s[1..]);
      assert parts == [parts[0]] + parts[1..];
      if s[0] != '/' {
        SplitFirst(s[1..]);
        assert s == [s[0]] + s[1..];
        if |rest[0]| < |s| - 1 {
          assert s[1..][|rest[0]| + 1..] == s[|rest[0]| + 2..];
        }
      }
    }
  }

  lemma {:induction false} SplitIsPointer(s: string)
    requires UnescapeAll(SplitSlash(s)).Some?
    ensures "/" + s == EscapedPointer(UnescapeAll(SplitSlash(s)).value)
    decreases |s|
  {
    var parts := SplitSlash(s);
    var tokens := UnescapeAll(parts).value;
    SplitFirst(s);
    var first := parts[0];
    UnescapedIsEscaped(first);
    assert tokens == [Unescape(first).value] + UnescapeAll(parts[1..]).value;
    assert tokens[1..] == UnescapeAll(parts[1..]).value;
    if |first| < |s| {
      SplitIsPointer(s[|first| + 1..]);
      assert "/" + s == "/" + first + ("/" + s[|first| + 1..]);
    } else {
      assert UnescapeAll([]) == Some([]) && EscapedPointer([]) == "";
      assert parts[1..] == [];
    }
  }

  /** A text is a pointer with these tokens exactly when it is the tokens, escaped, each behind a slash. */
  lemma PointerIff(s: string, tokens: seq<string>)
    ensures ParsePointer(s) == Some(tokens) <==> s == EscapedPointer(tokens)
  {
    EscapedRoundTrip(tokens);
    if s != "" && s[0] == '/' && ParsePointer(s).Some? {
      SplitIsPointer(s[1..]);
      assert s == "/" + s[1..];
    }
  }

  lemma {:induction false} EscapePlain(token: string)
    requires Plain(token)
    ensures Escape(token) == token
  {
    if token != "" {
      assert token[0] in token;
      EscapePlain(token[1..]);
      assert [token[0]] + token[1..] == token;
    }
  }

  lemma {:induction false} PlainPointer(tokens: seq<string>)
    requires forall t :: t in tokens ==> Plain(t)
    ensures Pointer(tokens) == EscapedPointer(tokens)
  {
    if tokens != [] {
      EscapePlain(tokens[0]);
      PlainPointer(tokens[1..]);
    }
  }

  /** A pointer printed from plain tokens is read back as these tokens. */
  lemma PointerRoundTrip(tokens: seq<string>)
    requires forall t :: t in tokens ==> Plain(t)
    ensures ParsePointer(Pointer(tokens)) == Some(tokens)
  {
    PlainPointer(tokens);
    EscapedRoundTrip(tokens);
  }

  lemma {:induction false} DigitsArePlain(s: string)
    requires Digits(s)
    ensures Plain(s)
  {
  }
}
