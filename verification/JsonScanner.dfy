/** Recovering a JSON object from prose by matching braces outside strings. */
module JsonScanner {
  import opened Wrappers

  // ---- Scanning ----

  datatype Scan = Scan(depth: int, inString: bool, escaped: bool)

  function Step(s: Scan, c: char): Scan {
    if s.inString then
      if s.escaped then s.(escaped := false)
      else if c == '\\' then s.(escaped := true)
      else if c == '"' then s.(inString := false)
      else s
    else if c == '"' then s.(inString := true)
    else if c == '{' then s.(depth := s.depth + 1)
    else if c == '}' then s.(depth := s.depth - 1)
    else s
  }

  function Scanned(s: Scan, text: string): Scan
    decreases |text|
  {
    if text == [] then s else Step(Scanned(s, text[..|text| - 1]), text[|text| - 1])
  }

  /** The string-aware brace depth after a text. */
  function Depth(text: string): int { Scanned(Scan(0, false, false), text).depth }

  predicate FirstBrace(text: string, start: nat) {
    start < |text| && text[start] == '{' && forall i :: 0 <= i < start ==> text[i] != '{'
  }

  /** The depth first returns to zero at end. */
  predicate Closes(text: string, start: nat, end: nat) {
    && start < end <= |text|
    && Depth(text[start..end]) == 0
    && forall k :: start < k < end ==> Depth(text[start..k]) > 0
  }

  /** The span of the first object: from the first brace, the shortest balanced piece. */
  predicate Span(text: string, start: nat, end: nat) {
    FirstBrace(text, start) && Closes(text, start, end)
  }

  ghost predicate IsExtraction(text: string, r: Option<string>) {
    match r
    case Some(o) => exists start: nat, end: nat :: Span(text, start, end) && o == text[start..end]
    case None => forall start: nat, end: nat :: !Span(text, start, end)
  }

  lemma ScannedOne(s: Scan, text: string, start: nat, i: nat)
    requires start <= i < |text|
    ensures Scanned(s, text[start..i + 1]) == Step(Scanned(s, text[start..i]), text[i])
  {
    assert text[start..i + 1][..i - start] == text[start..i];
  }

  method ExtractFirstJsonObject(text: string) returns (r: Option<string>)
    ensures IsExtraction(text, r)
  {
    var start := 0;
    while start < |text| && text[start] != '{'
      invariant 0 <= start <= |text|
      invariant forall i :: 0 <= i < start ==> text[i] != '{'
    {
      start := start + 1;
    }
    if start == |text| {
      return None;
    }
    var depth, inString, escaped := 0, false, false;
    var i := start;
    while i < |text|
      invariant start <= i <= |text|
      invariant Scan(depth, inString, escaped) == Scanned(Scan(0, false, false), text[start..i])
      invariant i == start ==> depth == 0 && !inString
      invariant forall k :: start < k <= i ==> Depth(text[start..k]) > 0
    {
      var c := text[i];
      ScannedOne(Scan(0, false, false), text, start, i);
      i := i + 1;
      if inString {
        if escaped {
          escaped := false;
        } else if c == '\\' {
          escaped := true;
        } else if c == '"' {
          inString := false;
        }
      } else {
        match c
        case '"' => inString := true;
        case '{' => depth := depth + 1;
        case '}' =>
          depth := depth - 1;
          if depth == 0 {
            assert Span(text, start, i);
            return Some(text[start..i]);
          }
        case _ =>
      }
    }
    forall start': nat, end: nat ensures !Span(text, start', end) {
      if FirstBrace(text, start') { assert start' == start; }
    }
    r := None;
  }

  lemma SpanUnique(text: string, a: nat, b: nat, c: nat, d: nat)
    requires Span(text, a, b) && Span(text, c, d)
    ensures a == c && b == d
  {
  }

  // ---- JSON texts (sections 2 to 7 of RFC 8259) ----

  predicate IsWhite(c: char) { c == ' ' || c == '\t' || c == '\n' || c == '\r' }

  predicate IsNumeric(c: char) { '0' <= c <= '9' || c == '-' || c == '+' || c == '.' || c == 'e' || c == 'E' }

  predicate IsHex(c: char) { '0' <= c <= '9' || 'a' <= c <= 'f' || 'A' <= c <= 'F' }

  type White = s: string | forall i :: 0 <= i < |s| ==> IsWhite(s[i]) witness ""

  /** Any text of number characters; the numbers of section 6 are among them. */
  type Numeral = s: string | forall i :: 0 <= i < |s| ==> IsNumeric(s[i]) witness "0"

  type Unescaped = c: char | c >= ' ' && c != '"' && c != '\\' witness 'a'

  type EscapeLetter = c: char | c in "\"\\/bfnrt" witness 'n'

  type HexDigit = c: char | IsHex(c) witness '0'

  datatype StringChar =
    | Plain(plain: Unescaped)
    | Escaped(letter: EscapeLetter)
    | Unicode(a: HexDigit, b: HexDigit, c: HexDigit, d: HexDigit)

  datatype Literal = True | False | Null

  /** Values with the whitespace they are written with. */
  datatype Value =
    | Word(word: Literal)
    | Number(numeral: Numeral)
    | Text(chars: seq<StringChar>)
    | Array(inner: White, elements: Elements)
    | Object(inner: White, members: Members)

  datatype Elements = NoElements | Elements(before: White, value: Value, after: White, rest: Elements)

  datatype Members =
    | NoMembers
    | Members(before: White, name: seq<StringChar>, afterName: White, beforeValue: White, value: Value, after: White,
      rest: Members)

  function PrintChar(c: StringChar): string {
    match c
    case Plain(c) => [c]
    case Escaped(letter) => ['\\', letter]
    case Unicode(a, b, c, d) => ['\\', 'u', a, b, c, d]
  }

  function PrintChars(chars: seq<StringChar>): string
    decreases |chars|
  {
    if chars == [] then "" else PrintChars(chars[..|chars| - 1]) + PrintChar(chars[|chars| - 1])
  }

  function PrintString(chars: seq<StringChar>): string { "\"" + PrintChars(chars) + "\"" }

  function PrintWord(w: Literal): string {
    match w
    case True => "true"
    case False => "false"
    case Null => "null"
  }

  function Print(v: Value): string {
    match v
    case Word(w) => PrintWord(w)
    case Number(n) => n
    case Text(chars) => PrintString(chars)
    case Array(inner, elements) => "[" + inner + PrintElements(elements) + "]"
    case Object(inner, members) => "{" + (inner + PrintMembers(members)) + "}"
  }

  function PrintElements(es: Elements): string {
    match es
    case NoElements => ""
    case Elements(before, v, after, rest) =>
      before + Print(v) + after + (if rest.NoElements? then "" else "," + PrintElements(rest))
  }

  function PrintMembers(ms: Members): string {
    match ms
    case NoMembers => ""
    case Members(before, name, afterName, beforeValue, v, after, rest) =>
      (before + PrintString(name) + afterName) + ":" + (beforeValue + Print(v) + after)
      + (if rest.NoMembers? then "" else "," + PrintMembers(rest))
  }

  // ---- Neutral pieces ----

  /** Read outside a string, the piece ends outside a string at the depth it began and never goes below it. */
  ghost predicate Neutral(text: string) {
    forall d: int :: NeutralAt(d, text)
  }

  predicate NeutralAt(d: int, text: string) {
    && Scanned(Scan(d, false, false), text) == Scan(d, false, false)
    && forall k: nat :: k <= |text| ==> Scanned(Scan(d, false, false), text[..k]).depth >= d
  }

  lemma {:induction false} ScannedConcat(s: Scan, a: string, b: string)
    ensures Scanned(s, a + b) == Scanned(Scanned(s, a), b)
    decreases |b|
  {
    if b == [] {
      assert a + b == a;
    } else {
      assert (a + b)[..|a + b| - 1] == a + b[..|b| - 1];
      ScannedConcat(s, a, b[..|b| - 1]);
    }
  }

  lemma NeutralConcat(a: string, b: string)
    requires Neutral(a) && Neutral(b)
    ensures Neutral(a + b)
  {
    forall d: int ensures NeutralAt(d, a + b) {
      assert NeutralAt(d, a) && NeutralAt(d, b);
      ScannedConcat(Scan(d, false, false), a, b);
      forall k: nat | k <= |a + b| ensures Scanned(Scan(d, false, false), (a + b)[..k]).depth >= d {
        PrefixOfBoth(d, a, b, k);
      }
    }
  }

  lemma PrefixOfBoth(d: int, a: string, b: string, k: nat)
    requires NeutralAt(d, a) && NeutralAt(d, b) && k <= |a + b|
    ensures Scanned(Scan(d, false, false), (a + b)[..k]).depth >= d
  {
    var s := Scan(d, false, false);
    if k <= |a| {
      assert (a + b)[..k] == a[..k];
      assert Scanned(s, a[..k]).depth >= d;
    } else {
      var j: nat := k - |a|;
      assert (a + b)[..k] == a + b[..j];
      ScannedConcat(s, a, b[..j]);
      assert Scanned(s, b[..j]).depth >= d;
    }
  }

  lemma NeutralConcat3(a: string, b: string, c: string)
    requires Neutral(a) && Neutral(b) && Neutral(c)
    ensures Neutral(a + b + c)
  {
    NeutralConcat(a, b);
    NeutralConcat(a + b, c);
  }

  predicate Inert(c: char) { c != '"' && c != '{' && c != '}' }

  lemma {:induction false} InertScan(d: int, text: string)
    requires forall i :: 0 <= i < |text| ==> Inert(text[i])
    ensures Scanned(Scan(d, false, false), text) == Scan(d, false, false)
    decreases |text|
  {
    if text != [] { InertScan(d, text[..|text| - 1]); }
  }

  lemma InertIsNeutral(text: string)
    requires forall i :: 0 <= i < |text| ==> Inert(text[i])
    ensures Neutral(text)
  {
    forall d: int ensures Scanned(Scan(d, false, false), text) == Scan(d, false, false) {
      InertScan(d, text);
    }
    forall d: int, k: nat | k <= |text| ensures Scanned(Scan(d, false, false), text[..k]).depth >= d {
      InertScan(d, text[..k]);
    }
  }

  /** A printed string is read to its closing quote: escapes included, nothing in it ends it early. */
  lemma {:induction false} CharsStayInside(d: int, chars: seq<StringChar>)
    ensures Scanned(Scan(d, true, false), PrintChars(chars)) == Scan(d, true, false)
    ensures forall k :: 0 <= k <= |PrintChars(chars)| ==>
      Scanned(Scan(d, true, false), PrintChars(chars)[..k]).inString
        && Scanned(Scan(d, true, false), PrintChars(chars)[..k]).depth == d
    decreases |chars|
  {
    var s := Scan(d, true, false);
    if chars != [] {
      var front, c := PrintChars(chars[..|chars| - 1]), PrintChar(chars[|chars| - 1]);
      CharsStayInside(d, chars[..|chars| - 1]);
      ScannedConcat(s, front, c);
      CharStaysInside(d, chars[|chars| - 1]);
      forall k | 0 <= k <= |front + c|
        ensures Scanned(s, (front + c)[..k]).inString && Scanned(s, (front + c)[..k]).depth == d
      {
        if k <= |front| {
          assert (front + c)[..k] == front[..k];
        } else {
          assert (front + c)[..k] == front + c[..k - |front|];
          ScannedConcat(s, front, c[..k - |front|]);
        }
      }
    }
  }

  lemma CharStaysInside(d: int, c: StringChar)
    ensures Scanned(Scan(d, true, false), PrintChar(c)) == Scan(d, true, false)
    ensures forall k :: 0 <= k <= |PrintChar(c)| ==>
      Scanned(Scan(d, true, false), PrintChar(c)[..k]).inString
        && Scanned(Scan(d, true, false), PrintChar(c)[..k]).depth == d
  {
    var p, s := PrintChar(c), Scan(d, true, false);
    assert p[..|p|] == p && p[..0] == [];
    ScannedOne(s, p, 0, 0);
    if |p| >= 2 { ScannedOne(s, p, 0, 1); }
    if |p| == 6 {
      ScannedOne(s, p, 0, 2);
      ScannedOne(s, p, 0, 3);
      ScannedOne(s, p, 0, 4);
      ScannedOne(s, p, 0, 5);
    }
    forall k | 0 <= k <= |p| ensures Scanned(s, p[..k]).inString && Scanned(s, p[..k]).depth == d {
      assert p[..k] == p[0..k];
      assert k == 0 || k == 1 || k == 2 || k == 3 || k == 4 || k == 5 || k == 6;
    }
    assert p[0..|p|] == p;
  }

  lemma StringIsNeutral(chars: seq<StringChar>)
    ensures Neutral(PrintString(chars))
  {
    var body := PrintChars(chars);
    var text := PrintString(chars);
    forall d: int, k: nat | k <= |text|
      ensures Scanned(Scan(d, false, false), text[..k]).depth == d
      ensures k == |text| ==> Scanned(Scan(d, false, false), text[..k]) == Scan(d, false, false)
    {
      var s := Scan(d, false, false);
      CharsStayInside(d, chars);
      assert Scanned(s, "\"") == Scan(d, true, false) by { assert "\""[..0] == []; }
      if 0 < k <= |body| + 1 {
        assert text[..k] == "\"" + body[..k - 1];
        ScannedConcat(s, "\"", body[..k - 1]);
      } else if k == |body| + 2 {
        ScannedConcat(s, "\"", body);
        assert text[..k][..k - 1] == "\"" + body;
      }
    }
    forall d: int ensures Scanned(Scan(d, false, false), text) == Scan(d, false, false) {
      assert text[..|text|] == text;
    }
  }

  lemma BracesAreNeutral(inside: string)
    requires Neutral(inside)
    ensures Neutral("{" + inside + "}")
  {
    var text := "{" + inside + "}";
    forall d: int, k: nat | k <= |text| ensures Scanned(Scan(d, false, false), text[..k]).depth >= d {
      ObjectDepth(d, inside, k);
    }
    forall d: int ensures Scanned(Scan(d, false, false), text) == Scan(d, false, false) {
      ObjectDepth(d, inside, |text|);
      assert text[..|text|] == text;
    }
  }

  /** Depth inside an object's text: above the start everywhere but at the two ends. */
  lemma ObjectDepth(d: int, inside: string, k: nat)
    requires NeutralAt(d + 1, inside) && k <= |inside| + 2
    ensures var s := Scanned(Scan(d, false, false), ("{" + inside + "}")[..k]);
      && (0 < k < |inside| + 2 ==> s.depth > d)
      && (k == 0 || k == |inside| + 2 ==> s == Scan(d, false, false))
  {
    var text, s := "{" + inside + "}", Scan(d, false, false);
    assert Scanned(s, "{") == Scan(d + 1, false, false) by { assert "{"[..0] == []; }
    if 0 < k <= |inside| + 1 {
      assert text[..k] == "{" + inside[..k - 1];
      ScannedConcat(s, "{", inside[..k - 1]);
    } else if k == |inside| + 2 {
      ScannedConcat(s, "{", inside);
      assert text[..k][..k - 1] == "{" + inside;
    }
  }

  lemma {:induction false} ValueIsNeutral(v: Value)
    ensures Neutral(Print(v))
    decreases v
  {
    match v
    case Word(w) => InertIsNeutral(PrintWord(w));
    case Number(n) => InertIsNeutral(n);
    case Text(chars) => StringIsNeutral(chars);
    case Array(inner, elements) =>
      ElementsAreNeutral(elements);
      InertIsNeutral("[" + inner);
      InertIsNeutral("]");
      NeutralConcat("[" + inner, PrintElements(elements));
      NeutralConcat("[" + inner + PrintElements(elements), "]");
    case Object(inner, members) =>
      InsideIsNeutral(inner, members);
      BracesAreNeutral(inner + PrintMembers(members));
  }

  lemma {:induction false} ElementsAreNeutral(es: Elements)
    ensures Neutral(PrintElements(es))
    decreases es
  {
    match es
    case NoElements => InertIsNeutral("");
    case Elements(before, v, after, rest) =>
      ValueIsNeutral(v);
      ElementsAreNeutral(rest);
      InertIsNeutral(before);
      InertIsNeutral(after);
      InertIsNeutral(",");
      InertIsNeutral("");
      NeutralConcat(",", PrintElements(rest));
      NeutralConcat(before, Print(v));
      NeutralConcat(before + Print(v), after);
      NeutralConcat(before + Print(v) + after, if rest.NoElements? then "" else "," + PrintElements(rest));
  }

  lemma {:induction false} MembersAreNeutral(ms: Members)
    ensures Neutral(PrintMembers(ms))
    decreases ms, 0
  {
    match ms
    case NoMembers => InertIsNeutral("");
    case Members(before, name, afterName, beforeValue, v, after, rest) =>
      ValueIsNeutral(v);
      MembersAreNeutral(rest);
      InertIsNeutral(",");
      InertIsNeutral("");
      NeutralConcat(",", PrintMembers(rest));
      EntryIsNeutral(before, name, afterName, beforeValue, Print(v), after);
      NeutralConcat((before + PrintString(name) + afterName) + ":" + (beforeValue + Print(v) + after),
                    if rest.NoMembers? then "" else "," + PrintMembers(rest));
  }

  lemma EntryIsNeutral(before: White, name: seq<StringChar>, afterName: White, beforeValue: White, value: string,
      after: White)
    requires Neutral(value)
    ensures Neutral((before + PrintString(name) + afterName) + ":" + (beforeValue + value + after))
  {
    StringIsNeutral(name);
    WhiteIsNeutral(before);
    WhiteIsNeutral(afterName);
    WhiteIsNeutral(beforeValue);
    WhiteIsNeutral(after);
    InertIsNeutral(":");
    NeutralConcat3(before, PrintString(name), afterName);
    NeutralConcat3(beforeValue, value, after);
    NeutralConcat3(before + PrintString(name) + afterName, ":", beforeValue + value + after);
  }

  lemma WhiteIsNeutral(w: White)
    ensures Neutral(w)
  {
    InertIsNeutral(w);
  }

  // ---- The round trip ----

  lemma InnerPiece(p: string, o: string, s: string, k: nat)
    requires k <= |o|
    ensures (p + o + s)[|p|..|p| + k] == o[..k]
  {
  }

  /** A piece that returns to depth zero only at its end closes there wherever it stands. */
  lemma PieceCloses(text: string, start: nat, o: string)
    requires start + |o| <= |text| && text[start..start + |o|] == o && o != ""
    requires Depth(o) == 0 && forall k :: 0 < k < |o| ==> Depth(o[..k]) > 0
    ensures Closes(text, start, start + |o|)
  {
    forall j | start < j < start + |o| ensures Depth(text[start..j]) > 0 {
      assert text[start..j] == o[..j - start];
    }
  }

  lemma ObjectBalances(inside: string)
    requires Neutral(inside)
    ensures var o := "{" + inside + "}"; Depth(o) == 0 && forall k :: 0 < k < |o| ==> Depth(o[..k]) > 0
  {
    var o := "{" + inside + "}";
    assert o[..|o|] == o;
    ObjectDepth(0, inside, |o|);
    forall k | 0 < k < |o| ensures Depth(o[..k]) > 0 {
      ObjectDepth(0, inside, k);
    }
  }

  lemma ObjectCloses(p: string, inside: string, s: string)
    requires Neutral(inside)
    ensures Closes(p + ("{" + inside + "}") + s, |p|, |p| + |inside| + 2)
  {
    var o := "{" + inside + "}";
    InnerPiece(p, o, s, |o|);
    assert o[..|o|] == o;
    ObjectBalances(inside);
    PieceCloses(p + o + s, |p|, o);
  }

  lemma InsideIsNeutral(inner: White, members: Members)
    ensures Neutral(inner + PrintMembers(members))
    decreases members, 1
  {
    MembersAreNeutral(members);
    WhiteIsNeutral(inner);
    NeutralConcat(inner, PrintMembers(members));
  }

  /** A printed object is found at its own place, whatever follows it, exactly when no brace precedes it. */
  lemma ObjectFoundIff(p: string, inner: White, members: Members, s: string)
    ensures var o := Print(Object(inner, members));
      Span(p + o + s, |p|, |p| + |o|) <==> forall i :: 0 <= i < |p| ==> p[i] != '{'
  {
    var o := Print(Object(inner, members));
    var text := p + o + s;
    InsideIsNeutral(inner, members);
    ObjectCloses(p, inner + PrintMembers(members), s);
    assert text[|p|] == o[0] == '{';
    assert forall i :: 0 <= i < |p| ==> text[i] == p[i];
  }

  /** Extraction undoes printing: prose without a brace, an object, anything. */
  lemma RoundTrip(p: string, inner: White, members: Members, s: string, r: Option<string>)
    requires forall i :: 0 <= i < |p| ==> p[i] != '{'
    requires IsExtraction(p + Print(Object(inner, members)) + s, r)
    ensures r == Some(Print(Object(inner, members)))
  {
    var o := Print(Object(inner, members));
    var text := p + o + s;
    ObjectFoundIff(p, inner, members, s);
    InnerPiece(p, o, s, |o|);
    assert Span(text, |p|, |p| + |o|);
    if r.Some? {
      var start: nat, end: nat :| Span(text, start, end) && r.value == text[start..end];
      SpanUnique(text, start, end, |p|, |p| + |o|);
    }
  }
}
