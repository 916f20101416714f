/** The quote repair of the Qoder adapter: a two-flag scanner with lookahead that escapes the
    double quotes a model left bare inside JSON strings (RFC 8259, sections 2 and 7).

    Texts are sequences of characters.  `Scan` says what the scanner writes for the rest of a
    text; the loop in `RepairUnescapedQuotes` is proved to compute it. */
module QuoteRepair {

  // ---------------------------------------------------------------------------------------
  // The scanner
  // ---------------------------------------------------------------------------------------

  /** The two flags `inString` and `escaped`; the second is only ever set with the first. */
  datatype Mode = Outside | Inside | Escaped

  predicate IsSpace(c: char) { c == ' ' || c == '\t' || c == '\n' || c == '\r' }

  predicate IsCloser(c: char) { c == ',' || c == '}' || c == ']' || c == ':' }

  /** What the lookahead concludes from the text after a quote: does the quote end its string? */
  predicate EndsString(rest: string)
  {
    if rest == [] then true
    else if IsSpace(rest[0]) then EndsString(rest[1..])
    else IsCloser(rest[0])
  }

  function Scan(s: string, mode: Mode): string
  {
    if s == [] then []
    else match mode
      case Outside => [s[0]] + Scan(s[1..], if s[0] == '"' then Inside else Outside)
      case Escaped => [s[0]] + Scan(s[1..], Inside)
      case Inside =>
        if s[0] == '\\' then [s[0]] + Scan(s[1..], Escaped)
        else if s[0] != '"' then [s[0]] + Scan(s[1..], Inside)
        else if EndsString(s[1..]) then [s[0]] + Scan(s[1..], Outside)
        else ['\\', '"'] + Scan(s[1..], Inside)
  }

  /** The mode after a character that the scanner copies. */
  function NextMode(c: char, mode: Mode): Mode
  {
    match mode
    case Outside => if c == '"' then Inside else Outside
    case Escaped => Inside
    case Inside => if c == '\\' then Escaped else if c == '"' then Outside else Inside
  }

  function Repair(text: string): string { Scan(text, Outside) }

  function ModeOf(inString: bool, escaped: bool): Mode
  {
    if !inString then Outside else if escaped then Escaped else Inside
  }

  /** The scan has got to `index`, in `mode`, having written `repaired`. */
  ghost predicate ScannedTo(text: string, index: nat, mode: Mode, repaired: string)
    requires index <= |text|
  {
    repaired + Scan(text[index..], mode) == Repair(text)
  }

  /** A quote that ends no string. */
  predicate Inner(text: string, index: nat, mode: Mode)
    requires index < |text|
  {
    mode == Inside && text[index] == '"' && !EndsString(text[index + 1..])
  }

  /** One character further: an inner quote is escaped, anything else copied. */
  lemma ScansOn(text: string, index: nat, mode: Mode, repaired: string)
    requires index < |text| && ScannedTo(text, index, mode, repaired)
    ensures if Inner(text, index, mode)
            then ScannedTo(text, index + 1, Inside, repaired + ['\\', '"'])
            else ScannedTo(text, index + 1, NextMode(text[index], mode), repaired + [text[index]])
  {
    var rest := text[index..];
    assert rest[1..] == text[index + 1..] && rest[0] == text[index];
    if Inner(text, index, mode) {
      assert Scan(rest, mode) == ['\\', '"'] + Scan(text[index + 1..], Inside);
      Associates(repaired, ['\\', '"'], Scan(text[index + 1..], Inside));
    } else {
      var next := NextMode(rest[0], mode);
      assert Scan(rest, mode) == [rest[0]] + Scan(text[index + 1..], next);
      Associates(repaired, [rest[0]], Scan(text[index + 1..], next));
    }
  }

  lemma Associates(a: string, b: string, c: string)
    ensures a + b + c == a + (b + c)
  {
  }

  /** Past the whitespace from `start` on: is there a closer, or nothing? */
  method LookAhead(text: string, start: nat) returns (ends: bool)
    requires start <= |text|
    ensures ends == EndsString(text[start..])
  {
    var lookahead := start;
    while lookahead < |text| && IsSpace(text[lookahead])
      invariant start <= lookahead <= |text|
      invariant EndsString(text[lookahead..]) == EndsString(text[start..])
    {
      assert text[lookahead..][1..] == text[lookahead + 1..];
      lookahead := lookahead + 1;
    }
    ends := lookahead == |text| || IsCloser(text[lookahead]);
  }

  method RepairUnescapedQuotes(text: string) returns (repaired: string)
    ensures repaired == Repair(text)
  {
    repaired := "";
    var inString, escaped := false, false;
    var index := 0;
    assert text[0..] == text;
    while index < |text|
      invariant 0 <= index <= |text|
      invariant escaped ==> inString
      invariant ScannedTo(text, index, ModeOf(inString, escaped), repaired)
    {
      var c := text[index];
      ScansOn(text, index, ModeOf(inString, escaped), repaired);
      if !inString {
        if c == '"' { inString := true; }
        repaired := repaired + [c];
      } else if escaped {
        escaped := false;
        repaired := repaired + [c];
      } else if c == '\\' {
        escaped := true;
        repaired := repaired + [c];
      } else if c != '"' {
        repaired := repaired + [c];
      } else {
        var ends := LookAhead(text, index + 1);
        if ends {
          inString := false;
          repaired := repaired + [c];
        } else {
          repaired := repaired + ['\\', '"'];
        }
      }
      index := index + 1;
    }
    assert text[index..] == [];
  }

  // ---------------------------------------------------------------------------------------
  // Every text: idempotence, and the input read back from the output
  // ---------------------------------------------------------------------------------------

  lemma {:induction false} ScanKeepsEnding(rest: string)
    requires EndsString(rest)
    ensures EndsString(Scan(rest, Outside))
  {
    if rest != [] && IsSpace(rest[0]) {
      ScanKeepsEnding(rest[1..]);
      assert Scan(rest, Outside)[1..] == Scan(rest[1..], Outside);
    }
  }

  lemma {:induction false} ScanIdempotent(s: string, mode: Mode)
    ensures Scan(Scan(s, mode), mode) == Scan(s, mode)
    decreases |s|
  {
    if s != [] {
      if mode == Inside && s[0] == '"' && !EndsString(s[1..]) {
        ScanIdempotent(s[1..], Inside);
        EscapedQuoteRescans(Scan(s[1..], Inside));
      } else {
        ScanIdempotent(s[1..], NextMode(s[0], mode));
        if mode == Inside && s[0] == '"' { ScanKeepsEnding(s[1..]); }
        CopyRescans(s[0], Scan(s[1..], NextMode(s[0], mode)), mode);
      }
    }
  }

  /** What was written for an inner quote is copied the second time. */
  lemma EscapedQuoteRescans(rest: string)
    ensures Scan(['\\', '"'] + rest, Inside) == ['\\', '"'] + Scan(rest, Inside)
  {
    var out := ['\\', '"'] + rest;
    assert out[1..] == ['"'] + rest && out[1..][1..] == rest;
    assert Scan(out, Inside) == ['\\'] + Scan(out[1..], Escaped);
  }

  lemma CopyRescans(c: char, rest: string, mode: Mode)
    requires mode == Inside && c == '"' ==> EndsString(rest)
    ensures Scan([c] + rest, mode) == [c] + Scan(rest, NextMode(c, mode))
  {
    assert ([c] + rest)[1..] == rest;
  }

  /** Repairing twice is repairing once, on every text whatsoever. */
  lemma RepairIdempotent(text: string)
    ensures Repair(Repair(text)) == Repair(text)
  {
    ScanIdempotent(text, Outside);
  }

  /** Which characters of the output the scanner inserted. */
  function Marks(s: string, mode: Mode): (marks: seq<bool>)
    ensures |marks| == |Scan(s, mode)|
  {
    if s == [] then []
    else match mode
      case Outside => [false] + Marks(s[1..], if s[0] == '"' then Inside else Outside)
      case Escaped => [false] + Marks(s[1..], Inside)
      case Inside =>
        if s[0] == '\\' then [false] + Marks(s[1..], Escaped)
        else if s[0] != '"' then [false] + Marks(s[1..], Inside)
        else if EndsString(s[1..]) then [false] + Marks(s[1..], Outside)
        else [true, false] + Marks(s[1..], Inside)
  }

  function Unmarked(out: string, marks: seq<bool>): string
    requires |marks| == |out|
  {
    if out == [] then []
    else (if marks[0] then [] else [out[0]]) + Unmarked(out[1..], marks[1..])
  }

  ghost predicate Copied(s: string, mode: Mode)
    requires s != []
  {
    !(mode == Inside && s[0] == '"' && !EndsString(s[1..]))
  }

  lemma CopiedStep(s: string, mode: Mode)
    requires s != [] && Copied(s, mode)
    ensures Scan(s, mode) == [s[0]] + Scan(s[1..], NextMode(s[0], mode))
    ensures Marks(s, mode) == [false] + Marks(s[1..], NextMode(s[0], mode))
  {
  }

  lemma {:induction false} UnmarkedIsInput(s: string, mode: Mode)
    ensures Unmarked(Scan(s, mode), Marks(s, mode)) == s
    decreases |s|
  {
    if s != [] {
      if Copied(s, mode) {
        CopiedStep(s, mode);
        UnmarkedIsInput(s[1..], NextMode(s[0], mode));
        UnmarksCopy(s[0], Scan(s[1..], NextMode(s[0], mode)), Marks(s[1..], NextMode(s[0], mode)));
      } else {
        UnmarkedIsInput(s[1..], Inside);
        UnmarksEscape(Scan(s[1..], Inside), Marks(s[1..], Inside));
      }
    }
  }

  lemma UnmarksCopy(c: char, out: string, marks: seq<bool>)
    requires |marks| == |out|
    ensures Unmarked([c] + out, [false] + marks) == [c] + Unmarked(out, marks)
  {
    assert ([c] + out)[1..] == out && ([false] + marks)[1..] == marks;
  }

  lemma UnmarksEscape(out: string, marks: seq<bool>)
    requires |marks| == |out|
    ensures Unmarked(['\\', '"'] + out, [true, false] + marks) == ['"'] + Unmarked(out, marks)
  {
    UnmarksCopy('"', out, marks);
    assert (['\\', '"'] + out)[1..] == ['"'] + out && ([true, false] + marks)[1..] == [false] + marks;
  }

  ghost predicate EscapesAQuote(out: string, marks: seq<bool>, i: nat)
    requires |marks| == |out| && i < |out|
  {
    out[i] == '\\' && i + 1 < |out| && out[i + 1] == '"' && !marks[i + 1]
  }

  lemma {:induction false} MarksAreEscapes(s: string, mode: Mode)
    ensures forall i :: 0 <= i < |Scan(s, mode)| && Marks(s, mode)[i] ==>
              EscapesAQuote(Scan(s, mode), Marks(s, mode), i)
    ensures |s| <= |Scan(s, mode)| <= 2 * |s|
    decreases |s|
  {
    if s == [] { return; }
    var out, marks := Scan(s, mode), Marks(s, mode);
    var next := if Copied(s, mode) then NextMode(s[0], mode) else Inside;
    var out', marks' := Scan(s[1..], next), Marks(s[1..], next);
    MarksAreEscapes(s[1..], next);
    if Copied(s, mode) { CopiedStep(s, mode); }
    var k := |out| - |out'|;
    assert out[k..] == out' && marks[k..] == marks';
    forall i | 0 <= i < |out| && marks[i] ensures EscapesAQuote(out, marks, i) {
      if i >= k {
        assert out[i] == out'[i - k] && marks[i] == marks'[i - k];
        assert EscapesAQuote(out', marks', i - k);
        assert out[i + 1] == out'[i + 1 - k] && marks[i + 1] == marks'[i + 1 - k];
      }
    }
  }

  /** Dropping exactly the inserted characters gives the input back; every one of them is a
      backslash put in front of a quote of the input; so the output is at most twice as long. */
  lemma InputRecovered(text: string)
    ensures Unmarked(Repair(text), Marks(text, Outside)) == text
    ensures forall i :: 0 <= i < |Repair(text)| && Marks(text, Outside)[i] ==>
              EscapesAQuote(Repair(text), Marks(text, Outside), i)
    ensures |text| <= |Repair(text)| <= 2 * |text|
  {
    UnmarkedIsInput(text, Outside);
    MarksAreEscapes(text, Outside);
  }

  // ---------------------------------------------------------------------------------------
  // JSON texts and the lenient printer
  // ---------------------------------------------------------------------------------------

  /** One piece of a string body: a character that needs no escape, a double quote of the value,
      or a backslash pair.  (`\u` and its digits are a pair followed by four raw characters.) */
  datatype Piece = Raw(c: char) | Quote | Pair(c: char)

  type Body = seq<Piece>

  /** Derivation trees of RFC 8259 with their white space: `gap` follows an opening bracket or a
      comma, `post` follows a value.  Elements of arrays carry no tag, members of objects do. */
  datatype Tree =
    | Literal(text: string)
    | Str(body: Body)
    | Arr(gap: string, kids: Kids)
    | Obj(gap: string, kids: Kids)

  datatype Kids = End | Kid(tag: Label, value: Tree, post: string, gap: string, rest: Kids)

  datatype Label = NoLabel | Named(key: Body, before: string, after: string)

  datatype Doc = Doc(lead: string, tree: Tree, trail: string)

  ghost predicate AllSpace(s: string) { forall i :: 0 <= i < |s| ==> IsSpace(s[i]) }

  /** Characters of `true`, `false`, `null` and numbers: neither space, structure nor quote. */
  predicate IsLiteralChar(c: char)
  {
    !IsSpace(c) && !IsCloser(c) && c != '"' && c != '[' && c != '{'
  }

  ghost predicate ShapedBody(body: Body)
  {
    forall i :: 0 <= i < |body| && body[i].Raw? ==> body[i].c != '"' && body[i].c != '\\'
  }

  ghost predicate ShapedTree(t: Tree)
  {
    match t
    case Literal(text) => text != [] && forall i :: 0 <= i < |text| ==> IsLiteralChar(text[i])
    case Str(body) => ShapedBody(body)
    case Arr(gap, kids) => AllSpace(gap) && ShapedKids(kids, false)
    case Obj(gap, kids) => AllSpace(gap) && ShapedKids(kids, true)
  }

  ghost predicate ShapedKids(kids: Kids, named: bool)
  {
    match kids
    case End => true
    case Kid(tag, value, post, gap, rest) =>
      && tag.Named? == named
      && ShapedLabel(tag)
      && ShapedTree(value)
      && AllSpace(post) && AllSpace(gap)
      && (rest.End? ==> gap == [])
      && ShapedKids(rest, named)
  }

  ghost predicate ShapedLabel(tag: Label)
  {
    tag.Named? ==> ShapedBody(tag.key) && AllSpace(tag.before) && AllSpace(tag.after)
  }

  ghost predicate Shaped(d: Doc)
  {
    AllSpace(d.lead) && ShapedTree(d.tree) && AllSpace(d.trail)
  }

  /** The printers, written so that they put their text in front of `rest`.  The lenient one
      (`bare`) leaves the quotes of string values bare and escapes everything else. */
  function PutBody(body: Body, bare: bool, rest: string): string
  {
    if body == [] then rest
    else
      var tail := PutBody(body[1..], bare, rest);
      match body[0]
      case Raw(c) => [c] + tail
      case Quote => (if bare then ['"'] else ['\\', '"']) + tail
      case Pair(c) => ['\\', c] + tail
  }

  function PutString(body: Body, bare: bool, rest: string): string
  {
    ['"'] + PutBody(body, bare, ['"'] + rest)
  }

  function Put(t: Tree, bare: bool, rest: string): string
    decreases t, 0
  {
    match t
    case Literal(text) => text + rest
    case Str(body) => PutString(body, bare, rest)
    case Arr(gap, kids) => ['['] + (gap + PutKids(kids, bare, [']'] + rest))
    case Obj(gap, kids) => ['{'] + (gap + PutKids(kids, bare, ['}'] + rest))
  }

  function PutKids(kids: Kids, bare: bool, rest: string): string
    decreases kids, 0
  {
    match kids
    case End => rest
    case Kid(tag, value, post, gap, more) =>
      PutLabel(tag, bare, Put(value, bare, post + PutMore(gap, more, bare, rest)))
  }

  function PutMore(gap: string, more: Kids, bare: bool, rest: string): string
    decreases more, 1
  {
    if more.End? then rest else [','] + (gap + PutKids(more, bare, rest))
  }

  function PutLabel(tag: Label, bare: bool, rest: string): string
  {
    match tag
    case NoLabel => rest
    case Named(key, before, after) => PutString(key, bare, before + ([':'] + (after + rest)))
  }

  function Print(d: Doc, bare: bool): string { d.lead + Put(d.tree, bare, d.trail) }

  function Lenient(d: Doc): string { Print(d, true) }

  function Strict(d: Doc): string { Print(d, false) }

  // ---------------------------------------------------------------------------------------
  // When a bare quote is mistaken for a closing one
  // ---------------------------------------------------------------------------------------

  /** After a bare quote, do the next pieces start with white space and then a closer? */
  predicate LooksClosed(body: Body)
  {
    if body == [] || !body[0].Raw? then false
    else if IsSpace(body[0].c) then LooksClosed(body[1..])
    else IsCloser(body[0].c)
  }

  predicate SafeBody(body: Body)
  {
    body == [] || ((body[0].Quote? ==> !LooksClosed(body[1..])) && SafeBody(body[1..]))
  }

  predicate SafeTree(t: Tree)
  {
    match t
    case Literal(_) => true
    case Str(body) => SafeBody(body)
    case Arr(_, kids) => SafeKids(kids)
    case Obj(_, kids) => SafeKids(kids)
  }

  predicate SafeKids(kids: Kids)
  {
    match kids
    case End => true
    case Kid(tag, value, _, _, rest) =>
      (tag.Named? ==> SafeBody(tag.key)) && SafeTree(value) && SafeKids(rest)
  }

  /** No quote inside a string value is followed by white space and one of `, } ] :`. */
  predicate NoFalseCloser(d: Doc) { SafeTree(d.tree) }

  // ---------------------------------------------------------------------------------------
  // Repair undoes the lenient printer
  // ---------------------------------------------------------------------------------------

  lemma CancelPrefix(p: string, a: string, b: string)
    ensures p + a == p + b <==> a == b
  {
    if p + a == p + b {
      assert (p + a)[|p|..] == a && (p + b)[|p|..] == b;
    }
  }

  /** Text without quotes is copied when the scanner is outside strings. */
  lemma {:induction false} ScanCopies(x: string, rest: string)
    requires forall i :: 0 <= i < |x| ==> x[i] != '"'
    ensures Scan(x + rest, Outside) == x + Scan(rest, Outside)
  {
    if x == [] {
      assert x + rest == rest;
    } else {
      ScanCopies(x[1..], rest);
      assert (x + rest)[1..] == x[1..] + rest;
      assert x == [x[0]] + x[1..];
    }
  }

  lemma CopiesThenEquals(x: string, rest: string, out: string)
    requires forall i :: 0 <= i < |x| ==> x[i] != '"'
    ensures Scan(x + rest, Outside) == x + out <==> Scan(rest, Outside) == out
  {
    ScanCopies(x, rest);
    CancelPrefix(x, Scan(rest, Outside), out);
  }

  lemma {:induction false} SpaceThenEnds(ws: string, rest: string)
    requires AllSpace(ws)
    ensures EndsString(ws + rest) == EndsString(rest)
  {
    if ws == [] {
      assert ws + rest == rest;
    } else {
      SpaceThenEnds(ws[1..], rest);
      assert (ws + rest)[1..] == ws[1..] + rest;
    }
  }

  lemma {:induction false} LookaheadInBody(body: Body, rest: string)
    requires ShapedBody(body)
    ensures EndsString(PutBody(body, true, ['"'] + rest)) == LooksClosed(body)
  {
    var text := PutBody(body, true, ['"'] + rest);
    if body != [] && body[0].Raw? {
      LookaheadInBody(body[1..], rest);
      assert text[1..] == PutBody(body[1..], true, ['"'] + rest);
    }
  }

  lemma {:induction false} BodyRepaired(body: Body, rest: string, out: string)
    requires ShapedBody(body) && EndsString(rest)
    ensures Scan(PutBody(body, true, ['"'] + rest), Inside) == PutBody(body, false, ['"'] + out)
       <==> SafeBody(body) && Scan(rest, Outside) == out
  {
    var text := PutBody(body, true, ['"'] + rest);
    var want := PutBody(body, false, ['"'] + out);
    if body == [] {
      assert text[1..] == rest;
      CancelPrefix(['"'], Scan(rest, Outside), out);
    } else {
      var text', want' := PutBody(body[1..], true, ['"'] + rest), PutBody(body[1..], false, ['"'] + out);
      BodyRepaired(body[1..], rest, out);
      match body[0]
      case Raw(c) =>
        assert text[1..] == text';
        CancelPrefix([c], Scan(text', Inside), want');
      case Pair(c) =>
        PairScans(c, text');
        CancelPrefix(['\\', c], Scan(text', Inside), want');
      case Quote =>
        LookaheadInBody(body[1..], rest);
        BareQuoteScans(text');
        if LooksClosed(body[1..]) {
          assert Scan(text, Inside)[0] != want[0];
        } else {
          CancelPrefix(['\\', '"'], Scan(text', Inside), want');
        }
    }
  }

  lemma PairScans(c: char, rest: string)
    ensures Scan(['\\', c] + rest, Inside) == ['\\', c] + Scan(rest, Inside)
  {
    var text := ['\\', c] + rest;
    assert text[1..] == [c] + rest && text[1..][1..] == rest;
    assert Scan(text, Inside) == ['\\'] + ([c] + Scan(rest, Inside));
  }

  lemma BareQuoteScans(rest: string)
    ensures Scan(['"'] + rest, Inside) ==
      if EndsString(rest) then ['"'] + Scan(rest, Outside) else ['\\', '"'] + Scan(rest, Inside)
  {
    assert (['"'] + rest)[1..] == rest;
  }

  lemma StringRepaired(body: Body, rest: string, out: string)
    requires ShapedBody(body) && EndsString(rest)
    ensures Scan(PutString(body, true, rest), Outside) == PutString(body, false, out)
       <==> SafeBody(body) && Scan(rest, Outside) == out
  {
    var inner := PutBody(body, true, ['"'] + rest);
    assert PutString(body, true, rest)[1..] == inner;
    BodyRepaired(body, rest, out);
    CancelPrefix(['"'], Scan(inner, Inside), PutBody(body, false, ['"'] + out));
  }

  lemma LabelRepaired(tag: Label, rest: string, out: string)
    requires ShapedLabel(tag)
    ensures Scan(PutLabel(tag, true, rest), Outside) == PutLabel(tag, false, out)
       <==> (tag.Named? ==> SafeBody(tag.key)) && Scan(rest, Outside) == out
  {
    match tag
    case NoLabel =>
    case Named(key, before, after) =>
      var tail, tail' := [':'] + (after + rest), [':'] + (after + out);
      SpaceThenEnds(before, tail);
      StringRepaired(key, before + tail, before + tail');
      CopiesThenEquals(before, tail, tail');
      CopiesThenEquals([':'], after + rest, after + out);
      CopiesThenEquals(after, rest, out);
  }

  lemma {:induction false} TreeRepaired(t: Tree, rest: string, out: string)
    requires ShapedTree(t) && EndsString(rest)
    ensures Scan(Put(t, true, rest), Outside) == Put(t, false, out)
       <==> SafeTree(t) && Scan(rest, Outside) == out
    decreases t
  {
    match t
    case Literal(text) => CopiesThenEquals(text, rest, out);
    case Str(body) => StringRepaired(body, rest, out);
    case Arr(gap, kids) => BracketRepaired('[', gap, kids, false, ']', rest, out);
    case Obj(gap, kids) => BracketRepaired('{', gap, kids, true, '}', rest, out);
  }

  lemma {:induction false} BracketRepaired(open: char, gap: string, kids: Kids, named: bool, close: char,
                                           rest: string, out: string)
    requires open != '"' && IsCloser(close)
    requires AllSpace(gap) && ShapedKids(kids, named)
    ensures Scan([open] + (gap + PutKids(kids, true, [close] + rest)), Outside)
         == [open] + (gap + PutKids(kids, false, [close] + out))
       <==> SafeKids(kids) && Scan(rest, Outside) == out
    decreases kids, 1
  {
    var inner, inner' := PutKids(kids, true, [close] + rest), PutKids(kids, false, [close] + out);
    CopiesThenEquals([open], gap + inner, gap + inner');
    CopiesThenEquals(gap, inner, inner');
    KidsRepaired(kids, named, [close] + rest, [close] + out);
    CopiesThenEquals([close], rest, out);
  }

  lemma {:induction false} KidsRepaired(kids: Kids, named: bool, rest: string, out: string)
    requires ShapedKids(kids, named) && EndsString(rest)
    ensures Scan(PutKids(kids, true, rest), Outside) == PutKids(kids, false, out)
       <==> SafeKids(kids) && Scan(rest, Outside) == out
    decreases kids, 0
  {
    match kids
    case End =>
    case Kid(tag, value, post, gap, more) =>
      var tail, tail' := PutMore(gap, more, true, rest), PutMore(gap, more, false, out);
      if !more.End? {
        CopiesThenEquals([','], gap + PutKids(more, true, rest), gap + PutKids(more, false, out));
        CopiesThenEquals(gap, PutKids(more, true, rest), PutKids(more, false, out));
      }
      KidsRepaired(more, named, rest, out);
      SpaceThenEnds(post, tail);
      CopiesThenEquals(post, tail, tail');
      TreeRepaired(value, post + tail, post + tail');
      LabelRepaired(tag, Put(value, true, post + tail), Put(value, false, post + tail'));
  }

  /** The repaired text of a leniently printed value is its strict print, exactly when no bare
      quote is followed by white space and a closer. */
  lemma LenientPrintRepaired(d: Doc)
    requires Shaped(d)
    ensures Repair(Lenient(d)) == Strict(d) <==> NoFalseCloser(d)
  {
    SpaceThenEnds(d.trail, []);
    assert d.trail + [] == d.trail;
    ScanCopies(d.trail, []);
    CopiesThenEquals(d.lead, Put(d.tree, true, d.trail), Put(d.tree, false, d.trail));
    TreeRepaired(d.tree, d.trail, d.trail);
  }

  // ---------------------------------------------------------------------------------------
  // Well-formed texts, and what a repaired text reads as
  // ---------------------------------------------------------------------------------------

  /** The tree a strict print reads as: every quote of a value is an escape pair. */
  function Escaped'(body: Body): Body
  {
    if body == [] then [] else [if body[0].Quote? then Pair('"') else body[0]] + Escaped'(body[1..])
  }

  function EscapedTag(tag: Label): Label
  {
    match tag
    case NoLabel => NoLabel
    case Named(key, before, after) => Named(Escaped'(key), before, after)
  }

  function EscapedTree(t: Tree): Tree
  {
    match t
    case Literal(text) => t
    case Str(body) => Str(Escaped'(body))
    case Arr(gap, kids) => Arr(gap, EscapedKids(kids))
    case Obj(gap, kids) => Obj(gap, EscapedKids(kids))
  }

  function EscapedKids(kids: Kids): Kids
  {
    match kids
    case End => End
    case Kid(tag, value, post, gap, rest) =>
      Kid(EscapedTag(tag), EscapedTree(value), post, gap, EscapedKids(rest))
  }

  function EscapedDoc(d: Doc): Doc { Doc(d.lead, EscapedTree(d.tree), d.trail) }

  /** A tree without bare quotes is a derivation of its own print. */
  ghost predicate IsDerivation(d: Doc) { Shaped(d) && EscapedDoc(d) == d }

  ghost predicate Derives(text: string, d: Doc) { IsDerivation(d) && text == Strict(d) }

  ghost predicate WellFormed(text: string) { exists d :: Derives(text, d) }

  lemma {:induction false} EscapedBodyFacts(body: Body, bare: bool, rest: string)
    requires ShapedBody(body)
    ensures ShapedBody(Escaped'(body)) && SafeBody(Escaped'(body))
    ensures Escaped'(Escaped'(body)) == Escaped'(body)
    ensures PutBody(Escaped'(body), bare, rest) == PutBody(body, false, rest)
  {
    if body != [] {
      EscapedBodyFacts(body[1..], bare, rest);
      assert Escaped'(body)[1..] == Escaped'(body[1..]);
    }
  }

  lemma EscapedTagFacts(tag: Label, bare: bool, rest: string)
    requires ShapedLabel(tag)
    ensures ShapedLabel(EscapedTag(tag)) && EscapedTag(EscapedTag(tag)) == EscapedTag(tag)
    ensures EscapedTag(tag).Named? ==> SafeBody(EscapedTag(tag).key)
    ensures PutLabel(EscapedTag(tag), bare, rest) == PutLabel(tag, false, rest)
  {
    match tag
    case NoLabel =>
    case Named(key, before, after) =>
      EscapedBodyFacts(key, bare, ['"'] + (before + ([':'] + (after + rest))));
  }

  lemma {:induction false} EscapedTreeFacts(t: Tree, bare: bool, rest: string)
    requires ShapedTree(t)
    ensures ShapedTree(EscapedTree(t)) && SafeTree(EscapedTree(t))
    ensures EscapedTree(EscapedTree(t)) == EscapedTree(t)
    ensures Put(EscapedTree(t), bare, rest) == Put(t, false, rest)
    decreases t
  {
    match t
    case Literal(_) =>
    case Str(body) => EscapedBodyFacts(body, bare, ['"'] + rest);
    case Arr(gap, kids) => EscapedKidsFacts(kids, false, bare, [']'] + rest);
    case Obj(gap, kids) => EscapedKidsFacts(kids, true, bare, ['}'] + rest);
  }

  lemma {:induction false} EscapedKidsFacts(kids: Kids, named: bool, bare: bool, rest: string)
    requires ShapedKids(kids, named)
    ensures ShapedKids(EscapedKids(kids), named) && SafeKids(EscapedKids(kids))
    ensures EscapedKids(EscapedKids(kids)) == EscapedKids(kids)
    ensures PutKids(EscapedKids(kids), bare, rest) == PutKids(kids, false, rest)
    decreases kids
  {
    match kids
    case End =>
    case Kid(tag, value, post, gap, more) =>
      EscapedKidsFacts(more, named, bare, rest);
      var tail := post + PutMore(gap, more, false, rest);
      assert PutMore(gap, EscapedKids(more), bare, rest) == PutMore(gap, more, false, rest);
      EscapedTreeFacts(value, bare, tail);
      EscapedTagFacts(tag, bare, Put(value, false, tail));
  }

  lemma StrictIsDerivation(d: Doc)
    requires Shaped(d)
    ensures Derives(Strict(d), EscapedDoc(d)) && NoFalseCloser(EscapedDoc(d))
    ensures Lenient(EscapedDoc(d)) == Strict(d)
  {
    EscapedTreeFacts(d.tree, false, d.trail);
    EscapedTreeFacts(d.tree, true, d.trail);
  }

  /** Repair leaves every well-formed JSON text alone. */
  lemma WellFormedUnchanged(text: string)
    requires WellFormed(text)
    ensures Repair(text) == text
  {
    var d :| Derives(text, d);
    StrictIsDerivation(d);
    LenientPrintRepaired(d);
  }

  // ---- a strict print has one derivation ----

  lemma {:induction false} SpaceUnique(w: string, x: string, v: string, y: string)
    requires AllSpace(w) && AllSpace(v)
    requires (x == [] || !IsSpace(x[0])) && (y == [] || !IsSpace(y[0]))
    requires w + x == v + y
    ensures w == v && x == y
  {
    assert w != [] ==> (w + x)[0] == w[0] && (w + x)[1..] == w[1..] + x;
    assert v != [] ==> (v + y)[0] == v[0] && (v + y)[1..] == v[1..] + y;
    assert (w == [] ==> w + x == x) && (v == [] ==> v + y == y);
    if w != [] && v != [] {
      SpaceUnique(w[1..], x, v[1..], y);
      assert w == [w[0]] + w[1..] && v == [v[0]] + v[1..];
    }
  }

  ghost predicate LiteralEnds(rest: string) { rest == [] || !IsLiteralChar(rest[0]) }

  lemma {:induction false} LiteralUnique(t: string, x: string, u: string, y: string)
    requires forall i :: 0 <= i < |t| ==> IsLiteralChar(t[i])
    requires forall i :: 0 <= i < |u| ==> IsLiteralChar(u[i])
    requires LiteralEnds(x) && LiteralEnds(y)
    requires t + x == u + y
    ensures t == u && x == y
  {
    assert t != [] ==> (t + x)[0] == t[0] && (t + x)[1..] == t[1..] + x;
    assert u != [] ==> (u + y)[0] == u[0] && (u + y)[1..] == u[1..] + y;
    assert (t == [] ==> t + x == x) && (u == [] ==> u + y == y);
    if t != [] && u != [] {
      LiteralUnique(t[1..], x, u[1..], y);
      assert t == [t[0]] + t[1..] && u == [u[0]] + u[1..];
    }
  }

  ghost predicate NoQuotes(body: Body) { forall i :: 0 <= i < |body| ==> !body[i].Quote? }

  lemma {:induction false} EscapedHasNoQuotes(body: Body)
    requires Escaped'(body) == body
    ensures NoQuotes(body)
  {
    if body != [] {
      assert Escaped'(body)[1..] == Escaped'(body[1..]) == body[1..];
      assert Escaped'(body)[0] == body[0];
      EscapedHasNoQuotes(body[1..]);
      forall i | 0 <= i < |body| ensures !body[i].Quote? {
        if i > 0 { assert body[i] == body[1..][i - 1]; }
      }
    }
  }

  lemma {:induction false} BodyUnique(a: Body, x: string, b: Body, y: string)
    requires ShapedBody(a) && ShapedBody(b) && NoQuotes(a) && NoQuotes(b)
    requires PutBody(a, false, ['"'] + x) == PutBody(b, false, ['"'] + y)
    ensures a == b && x == y
  {
    var s := PutBody(a, false, ['"'] + x);
    if a == [] || b == [] {
      assert s[0] == '"';
      assert s[1..] == x && s[1..] == y;
    } else {
      var a', b' := PutBody(a[1..], false, ['"'] + x), PutBody(b[1..], false, ['"'] + y);
      assert !a[0].Quote? && !b[0].Quote?;
      assert a[0].Raw? ==> s == [a[0].c] + a' && a[0].c != '\\';
      assert b[0].Raw? ==> s == [b[0].c] + b' && b[0].c != '\\';
      assert b[0].Pair? ==> s[0] == '\\';
      if a[0].Raw? {
        assert s[1..] == a' && s[1..] == b';
      } else {
        assert s[0] == '\\' && b[0].Pair?;
        assert s[2..] == a' && s[2..] == b' && s[1] == a[0].c == b[0].c;
      }
      BodyUnique(a[1..], x, b[1..], y);
      assert a == [a[0]] + a[1..] && b == [b[0]] + b[1..];
    }
  }

  lemma StringUnique(a: Body, x: string, b: Body, y: string)
    requires ShapedBody(a) && ShapedBody(b) && Escaped'(a) == a && Escaped'(b) == b
    requires PutString(a, false, x) == PutString(b, false, y)
    ensures a == b && x == y
  {
    EscapedHasNoQuotes(a);
    EscapedHasNoQuotes(b);
    assert PutString(a, false, x)[1..] == PutBody(a, false, ['"'] + x);
    assert PutString(b, false, y)[1..] == PutBody(b, false, ['"'] + y);
    BodyUnique(a, x, b, y);
  }

  /** The first character tells which kind of value follows. */
  lemma PutStarts(t: Tree, rest: string)
    requires ShapedTree(t)
    ensures var s := Put(t, false, rest);
            && s != [] && !IsSpace(s[0]) && !IsCloser(s[0])
            && (t.Str? <==> s[0] == '"') && (t.Arr? <==> s[0] == '[') && (t.Obj? <==> s[0] == '{')
  {
  }

  lemma KidsStart(kids: Kids, named: bool, close: char, rest: string)
    requires ShapedKids(kids, named) && IsCloser(close)
    ensures var s := PutKids(kids, false, [close] + rest);
            s != [] && !IsSpace(s[0]) && (kids.End? <==> IsCloser(s[0]))
  {
    match kids
    case End =>
    case Kid(tag, value, post, gap, more) => PutStarts(value, post + PutMore(gap, more, false, [close] + rest));
  }

  lemma MoreStarts(post: string, gap: string, more: Kids, close: char, rest: string)
    requires AllSpace(post) && IsCloser(close)
    ensures var s := PutMore(gap, more, false, [close] + rest);
            s != [] && IsCloser(s[0]) && LiteralEnds(post + s)
  {
  }

  lemma {:induction false} TreeUnique(a: Tree, x: string, b: Tree, y: string)
    requires ShapedTree(a) && ShapedTree(b) && EscapedTree(a) == a && EscapedTree(b) == b
    requires LiteralEnds(x) && LiteralEnds(y)
    requires Put(a, false, x) == Put(b, false, y)
    ensures a == b && x == y
    decreases a
  {
    PutStarts(a, x);
    PutStarts(b, y);
    match a
    case Literal(text) => LiteralUnique(text, x, b.text, y);
    case Str(body) => StringUnique(body, x, b.body, y);
    case Arr(gap, kids) => BracketUnique('[', gap, kids, x, b.gap, b.kids, y, false, ']');
    case Obj(gap, kids) => BracketUnique('{', gap, kids, x, b.gap, b.kids, y, true, '}');
  }

  lemma {:induction false} BracketUnique(open: char, gap: string, kids: Kids, x: string,
                                         gap': string, kids': Kids, y: string, named: bool, close: char)
    requires AllSpace(gap) && AllSpace(gap') && IsCloser(close) && close != ','
    requires ShapedKids(kids, named) && ShapedKids(kids', named)
    requires EscapedKids(kids) == kids && EscapedKids(kids') == kids'
    requires [open] + (gap + PutKids(kids, false, [close] + x)) == [open] + (gap' + PutKids(kids', false, [close] + y))
    ensures gap == gap' && kids == kids' && x == y
    decreases kids, 1
  {
    var k, k' := PutKids(kids, false, [close] + x), PutKids(kids', false, [close] + y);
    CancelPrefix([open], gap + k, gap' + k');
    KidsStart(kids, named, close, x);
    KidsStart(kids', named, close, y);
    SpaceUnique(gap, k, gap', k');
    KidsUnique(kids, x, kids', y, named, close);
  }

  lemma {:induction false} KidsUnique(a: Kids, x: string, b: Kids, y: string, named: bool, close: char)
    requires ShapedKids(a, named) && ShapedKids(b, named) && IsCloser(close) && close != ','
    requires EscapedKids(a) == a && EscapedKids(b) == b
    requires PutKids(a, false, [close] + x) == PutKids(b, false, [close] + y)
    ensures a == b && x == y
    decreases a, 0
  {
    KidsStart(a, named, close, x);
    KidsStart(b, named, close, y);
    if a.End? {
      CancelPrefix([close], x, y);
    } else {
      var r, r' := PutMore(a.gap, a.rest, false, [close] + x), PutMore(b.gap, b.rest, false, [close] + y);
      MoreStarts(a.post, a.gap, a.rest, close, x);
      MoreStarts(b.post, b.gap, b.rest, close, y);
      TagUnique(a.tag, Put(a.value, false, a.post + r), b.tag, Put(b.value, false, b.post + r'), a.value, b.value,
                a.post + r, b.post + r');
      TreeUnique(a.value, a.post + r, b.value, b.post + r');
      SpaceUnique(a.post, r, b.post, r');
      if a.rest.End? || b.rest.End? {
        assert r[0] == r'[0];
        CancelPrefix([close], x, y);
      } else {
        var k, k' := PutKids(a.rest, false, [close] + x), PutKids(b.rest, false, [close] + y);
        CancelPrefix([','], a.gap + k, b.gap + k');
        KidsStart(a.rest, named, close, x);
        KidsStart(b.rest, named, close, y);
        SpaceUnique(a.gap, k, b.gap, k');
        KidsUnique(a.rest, x, b.rest, y, named, close);
      }
    }
  }

  lemma TagUnique(a: Label, x: string, b: Label, y: string, v: Tree, w: Tree, v': string, w': string)
    requires ShapedLabel(a) && ShapedLabel(b) && a.Named? == b.Named?
    requires EscapedTag(a) == a && EscapedTag(b) == b
    requires ShapedTree(v) && ShapedTree(w) && x == Put(v, false, v') && y == Put(w, false, w')
    requires PutLabel(a, false, x) == PutLabel(b, false, y)
    ensures a == b && x == y
  {
    if a.Named? {
      var s, t := [':'] + (a.after + x), [':'] + (b.after + y);
      StringUnique(a.key, a.before + s, b.key, b.before + t);
      SpaceUnique(a.before, s, b.before, t);
      CancelPrefix([':'], a.after + x, b.after + y);
      PutStarts(v, v');
      PutStarts(w, w');
      SpaceUnique(a.after, x, b.after, y);
    }
  }

  /** The grammar is unambiguous: a text has at most one derivation. */
  lemma DerivationUnique(text: string, d: Doc, e: Doc)
    requires Derives(text, d) && Derives(text, e)
    ensures d == e
  {
    PutStarts(d.tree, d.trail);
    PutStarts(e.tree, e.trail);
    SpaceUnique(d.lead, Put(d.tree, false, d.trail), e.lead, Put(e.tree, false, e.trail));
    TreeUnique(d.tree, d.trail, e.tree, e.trail);
  }

  /** `parseAndValidateOutput`: parse the text, and only if that fails parse the repaired text. */
  ghost predicate ParsesTo(text: string, d: Doc)
  {
    Derives(text, d) || (!WellFormed(text) && Derives(Repair(text), d))
  }

  /** A leniently printed value without false closers parses to that value and to nothing else,
      whether the printed text was well formed or had to be repaired. */
  lemma LenientPrintParsesBack(d: Doc, e: Doc)
    requires Shaped(d) && NoFalseCloser(d)
    ensures ParsesTo(Lenient(d), e) <==> e == EscapedDoc(d)
  {
    LenientPrintRepaired(d);
    StrictIsDerivation(d);
    if WellFormed(Lenient(d)) {
      WellFormedUnchanged(Lenient(d));
    }
    if ParsesTo(Lenient(d), e) {
      DerivationUnique(Strict(d), e, EscapedDoc(d));
    }
  }

  /** Without the condition the repaired text can fail to parse, or parse to something else:
      the value `a" ,` ends early. */
  lemma FalseCloserBreaksRepair()
    ensures var d := Doc([], Str([Raw('a'), Quote, Raw(' '), Raw(',')]), []);
            Shaped(d) && !NoFalseCloser(d) && Lenient(d) == "\"a\" ,\"" && Repair(Lenient(d)) != Strict(d)
  {
    var body := [Raw('a'), Quote, Raw(' '), Raw(',')];
    var end := ['"'] + [];
    assert body[1..] == [Quote, Raw(' '), Raw(',')] && body[2..] == [Raw(' '), Raw(',')] && body[3..] == [Raw(',')];
    assert body[1..][1..] == body[2..] && body[2..][1..] == body[3..] && body[3..][1..] == [];
    assert PutBody(body[3..], true, end) == [','] + end;
    assert PutBody(body[2..], true, end) == [' '] + ([','] + end);
    assert PutBody(body[1..], true, end) == ['"'] + ([' '] + ([','] + end));
    LenientPrintRepaired(Doc([], Str(body), []));
  }
}
