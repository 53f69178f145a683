/** Names under which remote tools are exposed: sanitized, at most 64 characters, unique per tool list. */
module ToolNames {
  import opened Wrappers

  /** The character tables of the runtime: invariant lower-casing and the letter-or-digit test. */
  datatype Chars = Chars(lower: char -> char, letterOrDigit: char -> bool)

  const MaxExposedNameLength: nat := 64
  const NamePrefix: string := "mcp"

  /** The largest number of elements a hash set can hold. */
  const MaxSetCount: nat := 2_147_483_587

  // ---- Slugs ----

  function Lowered(t: Chars, value: string): string {
    seq(|value|, i requires 0 <= i < |value| => t.lower(value[i]))
  }

  /** The maximal runs of letters and digits, in order. */
  function Words(t: Chars, s: string): (w: seq<string>)
    ensures forall i :: 0 <= i < |w| ==> w[i] != ""
    ensures s != "" && t.letterOrDigit(s[|s| - 1]) ==> w != []
    decreases |s|
  {
    if s == "" then []
    else
      var front, c := s[..|s| - 1], s[|s| - 1];
      var w := Words(t, front);
      if !t.letterOrDigit(c) then w
      else if front != "" && t.letterOrDigit(front[|front| - 1]) then w[..|w| - 1] + [w[|w| - 1] + [c]]
      else w + [[c]]
  }

  function Joined(words: seq<string>): string
    decreases |words|
  {
    if words == [] then ""
    else if |words| == 1 then words[0]
    else Joined(words[..|words| - 1]) + "_" + words[|words| - 1]
  }

  /** The lower-cased words with single underscores between them; "x" when there are none. */
  function SlugOf(t: Chars, value: string): string {
    var words := Words(t, Lowered(t, value));
    if words == [] then "x" else Joined(words)
  }

  function TrimEnd(s: string): string
    decreases |s|
  {
    if s != "" && s[|s| - 1] == '_' then TrimEnd(s[..|s| - 1]) else s
  }

  lemma JoinedNewWord(words: seq<string>, c: char)
    ensures Joined(words + [[c]]) == if words == [] then [c] else Joined(words) + "_" + [c]
  {
    assert (words + [[c]])[..|words|] == words;
  }

  lemma JoinedLongerWord(words: seq<string>, c: char)
    requires words != []
    ensures Joined(words[..|words| - 1] + [words[|words| - 1] + [c]]) == Joined(words) + [c]
  {
    var front, last := words[..|words| - 1], words[|words| - 1];
    var longer := front + [last + [c]];
    assert longer[..|front|] == front;
    if front == [] {
      assert longer == [last + [c]];
    } else {
      assert Joined(longer) == Joined(front) + "_" + (last + [c]);
    }
  }

  /** What one more character does to the joined words. */
  lemma WordsStep(t: Chars, text: string, k: nat)
    requires k < |text|
    ensures var w, w', c := Words(t, text[..k]), Words(t, text[..k + 1]), text[k];
      if !t.letterOrDigit(c) then w' == w
      else if k > 0 && t.letterOrDigit(text[k - 1]) then w != [] && w' != [] && Joined(w') == Joined(w) + [c]
      else w' != [] && Joined(w') == if w == [] then [c] else Joined(w) + "_" + [c]
  {
    assert text[..k + 1][..k] == text[..k];
    var w, c := Words(t, text[..k]), text[k];
    if t.letterOrDigit(c) {
      if k > 0 && t.letterOrDigit(text[k - 1]) {
        JoinedLongerWord(w, c);
      } else {
        JoinedNewWord(w, c);
      }
    }
  }

  /** Words hold letters and digits of the text only, and every one of those is in some word. */
  lemma {:induction false} WordChars(t: Chars, s: string)
    ensures forall i, k :: 0 <= i < |Words(t, s)| && 0 <= k < |Words(t, s)[i]| ==>
      t.letterOrDigit(Words(t, s)[i][k]) && Words(t, s)[i][k] in s
    ensures forall c :: c in s && t.letterOrDigit(c) ==> exists i :: 0 <= i < |Words(t, s)| && c in Words(t, s)[i]
    decreases |s|
  {
    if s != "" {
      var front, c := s[..|s| - 1], s[|s| - 1];
      WordChars(t, front);
      var w, w' := Words(t, front), Words(t, s);
      assert s == front + [c];
      forall x | x in s && t.letterOrDigit(x) ensures exists i :: 0 <= i < |w'| && x in w'[i] {
        if x in front {
          var i :| 0 <= i < |w| && x in w[i];
          assert x in w'[i];
        } else {
          assert x in w'[|w'| - 1];
        }
      }
    }
  }

  predicate AtBoundary(t: Chars, text: string, k: nat)
    requires k <= |text|
  {
    k == 0 || !t.letterOrDigit(text[k - 1])
  }

  /** What has been written after k characters: the words so far, and a separator once one is over. */
  function Written(t: Chars, text: string, k: nat): string
    requires k <= |text|
  {
    var words := Words(t, text[..k]);
    Joined(words) + if words != [] && AtBoundary(t, text, k) then "_" else ""
  }

  lemma WrittenStep(t: Chars, text: string, k: nat)
    requires k < |text|
    ensures Written(t, text, k + 1) == Written(t, text, k) +
      if t.letterOrDigit(text[k]) then [text[k]] else if AtBoundary(t, text, k) then "" else "_"
  {
    WordsStep(t, text, k);
    if k > 0 && t.letterOrDigit(text[k - 1]) {
      assert text[..k][|text[..k]| - 1] == text[k - 1];
    }
  }

  method Slug(t: Chars, value: string) returns (r: string)
    requires !t.letterOrDigit('_')
    ensures r == SlugOf(t, value)
  {
    var sb := "";
    var lastWasUnderscore := true;
    var text := Lowered(t, value);
    for k := 0 to |text|
      invariant lastWasUnderscore <==> AtBoundary(t, text, k)
      invariant sb == Written(t, text, k)
    {
      var c := text[k];
      WrittenStep(t, text, k);
      if t.letterOrDigit(c) {
        sb := sb + [c];
        lastWasUnderscore := false;
      } else if !lastWasUnderscore {
        sb := sb + "_";
        lastWasUnderscore := true;
      }
    }
    assert text[..|text|] == text;
    TrimsToWords(t, text);
    r := TrimEnd(sb);
    if r == "" {
      r := "x";
    }
  }

  lemma TrimsToWords(t: Chars, text: string)
    requires !t.letterOrDigit('_')
    ensures var w := Words(t, text);
      && TrimEnd(Joined(w)) == Joined(w)
      && (w != [] ==> TrimEnd(Joined(w) + "_") == Joined(w) && Joined(w) != "")
  {
    var w := Words(t, text);
    if w != [] {
      JoinedEnds(t, text);
      assert (Joined(w) + "_")[..|Joined(w)|] == Joined(w);
    }
  }

  lemma JoinedEnds(t: Chars, text: string)
    requires Words(t, text) != []
    ensures var j := Joined(Words(t, text)); j != "" && t.letterOrDigit(j[0]) && t.letterOrDigit(j[|j| - 1])
  {
    WordChars(t, text);
    var w := Words(t, text);
    JoinedBounds(w);
  }

  lemma {:induction false} JoinedBounds(words: seq<string>)
    requires words != [] && forall i :: 0 <= i < |words| ==> words[i] != ""
    ensures var j, last := Joined(words), words[|words| - 1];
      j != "" && j[0] == words[0][0] && j[|j| - 1] == last[|last| - 1]
    decreases |words|
  {
    if |words| > 1 { JoinedBounds(words[..|words| - 1]); }
  }

  predicate Plain(c: char) { 'a' <= c <= 'z' || '0' <= c <= '9' }

  /** Characters a function name may have. */
  predicate Legal(c: char) { Plain(c) || 'A' <= c <= 'Z' || c == '_' || c == '-' }

  /** A slug is never empty, has no underscore at either end and no two in a row, and consists of
      underscores and the letters and digits of the lower-cased text. */
  lemma SlugShape(t: Chars, value: string)
    requires !t.letterOrDigit('_') && t.letterOrDigit('x')
    ensures var s := SlugOf(t, value);
      && s != "" && s[0] != '_' && s[|s| - 1] != '_'
      && (forall i :: 0 < i < |s| ==> !(s[i - 1] == '_' && s[i] == '_'))
      && (forall i :: 0 <= i < |s| ==> s[i] == '_' || t.letterOrDigit(s[i]))
  {
    var w := Words(t, Lowered(t, value));
    if w != [] {
      JoinedEnds(t, Lowered(t, value));
      WordChars(t, Lowered(t, value));
      JoinedSingles(t, w);
    }
  }

  lemma {:induction false} JoinedSingles(t: Chars, words: seq<string>)
    requires !t.letterOrDigit('_')
    requires forall i :: 0 <= i < |words| ==>
      words[i] != "" && forall k :: 0 <= k < |words[i]| ==> t.letterOrDigit(words[i][k])
    ensures var j := Joined(words);
      && (forall i :: 0 < i < |j| ==> !(j[i - 1] == '_' && j[i] == '_'))
      && (forall i :: 0 <= i < |j| ==> j[i] == '_' || t.letterOrDigit(j[i]))
    decreases |words|
  {
    if |words| > 1 {
      var front, last := words[..|words| - 1], words[|words| - 1];
      JoinedSingles(t, front);
      JoinedBounds(front);
      var a := Joined(front);
      assert t.letterOrDigit(front[|front| - 1][|front[|front| - 1]| - 1]);
      assert Joined(words) == a + "_" + last;
    }
  }

  lemma {:induction false} JoinedMembers(words: seq<string>, i: nat, c: char)
    requires i < |words| && c in words[i]
    ensures c in Joined(words)
    decreases |words|
  {
    if |words| > 1 && i < |words| - 1 { JoinedMembers(words[..|words| - 1], i, c); }
  }

  lemma {:induction false} JoinedFrom(words: seq<string>, c: char)
    requires c in Joined(words) && c != '_'
    ensures exists i :: 0 <= i < |words| && c in words[i]
    decreases |words|
  {
    if |words| > 1 && c !in words[|words| - 1] {
      JoinedFrom(words[..|words| - 1], c);
      var i :| 0 <= i < |words| - 1 && c in words[..|words| - 1][i];
      assert c in words[i];
    }
  }

  /** A slug keeps to the function-name characters exactly when every letter or digit of the lower-cased
      text does: a letter outside ASCII goes through unchanged. */
  lemma SlugLegalIff(t: Chars, value: string)
    requires !t.letterOrDigit('_')
    ensures (forall c :: c in SlugOf(t, value) ==> Legal(c)) <==>
      forall c :: c in Lowered(t, value) && t.letterOrDigit(c) ==> Legal(c)
  {
    var text, w := Lowered(t, value), Words(t, Lowered(t, value));
    WordChars(t, text);
    forall c | c in text && t.letterOrDigit(c) ensures c in SlugOf(t, value) {
      var i :| 0 <= i < |w| && c in w[i];
      JoinedMembers(w, i, c);
    }
    forall c | c in SlugOf(t, value) && c != '_' && w != [] ensures c in text && t.letterOrDigit(c) {
      JoinedFrom(w, c);
    }
  }

  /** The runtime's tables on ASCII. */
  predicate AsciiTables(t: Chars) {
    forall c: char :: c < 128 as char ==>
      && (t.letterOrDigit(c) <==> Plain(c) || 'A' <= c <= 'Z')
      && (if 'A' <= c <= 'Z' then Plain(t.lower(c)) else t.lower(c) == c)
  }

  /** Tables that are the runtime's on ASCII and know one more letter, e with an acute accent. */
  function LatinTables(): Chars {
    Chars(c => if 'A' <= c <= 'Z' then (c as int + 32) as char else c,
          c => Plain(c) || 'A' <= c <= 'Z' || c == '\U{E9}')
  }

  /** A slug outside the function-name characters: the accented letter goes through. */
  lemma SlugLeavesLegal()
    ensures AsciiTables(LatinTables()) && !LatinTables().letterOrDigit('_')
    ensures SlugOf(LatinTables(), "\U{E9}") == "\U{E9}" && !Legal('\U{E9}')
  {
    var t, value := LatinTables(), "\U{E9}";
    assert Lowered(t, value) == value && value[..0] == "";
    assert Words(t, value) == [value];
  }

  predicate Ascii(s: string) { forall i :: 0 <= i < |s| ==> s[i] < 128 as char }

  predicate Exposable(s: string) { forall i :: 0 <= i < |s| ==> Plain(s[i]) || s[i] == '_' }

  lemma AsciiSlug(t: Chars, value: string)
    requires AsciiTables(t) && Ascii(value)
    ensures Exposable(SlugOf(t, value))
  {
    var text, w := Lowered(t, value), Words(t, Lowered(t, value));
    assert !t.letterOrDigit('_');
    WordChars(t, text);
    forall i | 0 <= i < |SlugOf(t, value)| ensures Plain(SlugOf(t, value)[i]) || SlugOf(t, value)[i] == '_' {
      var c := SlugOf(t, value)[i];
      if c != '_' && w != [] {
        JoinedFrom(w, c);
        assert c in text && t.letterOrDigit(c);
        var k :| 0 <= k < |value| && c == t.lower(value[k]);
      }
    }
  }

  // ---- Suffixes ----

  function Digit(d: nat): char
    requires d < 10
  {
    "0123456789"[d]
  }

  function Decimal(n: nat): (s: string)
    ensures s != "" && forall i :: 0 <= i < |s| ==> '0' <= s[i] <= '9'
  {
    if n < 10 then [Digit(n)] else Decimal(n / 10) + [Digit(n % 10)]
  }

  lemma DigitInjective(a: nat, b: nat)
    requires a < 10 && b < 10 && Digit(a) == Digit(b)
    ensures a == b
  {
    var digits := "0123456789";
    assert digits[0] == '0' && digits[1] == '1' && digits[2] == '2' && digits[3] == '3' && digits[4] == '4';
    assert digits[5] == '5' && digits[6] == '6' && digits[7] == '7' && digits[8] == '8' && digits[9] == '9';
  }

  lemma {:induction false} DecimalInjective(a: nat, b: nat)
    requires Decimal(a) == Decimal(b)
    ensures a == b
    decreases a
  {
    var s := Decimal(a);
    if a < 10 && b < 10 {
      DigitInjective(a, b);
    } else if a >= 10 && b >= 10 {
      assert Decimal(a / 10) == s[..|s| - 1] == Decimal(b / 10);
      DecimalInjective(a / 10, b / 10);
      DigitInjective(a % 10, b % 10);
    }
  }

  function Pow10(k: nat): nat { if k == 0 then 1 else 10 * Pow10(k - 1) }

  lemma {:induction false} DecimalLength(n: nat, k: nat)
    requires k >= 1 && n < Pow10(k)
    ensures |Decimal(n)| <= k
    decreases k
  {
    if n >= 10 { DecimalLength(n / 10, k - 1); }
  }

  function Suffix(j: nat): string { "_" + Decimal(j) }

  lemma SuffixFits(j: nat)
    requires j <= MaxSetCount + 2
    ensures |Suffix(j)| <= 11
  {
    assert Pow10(5) == 100_000;
    assert Pow10(10) == 10_000_000_000;
    DecimalLength(j, 10);
  }

  /** The j-th name tried for a candidate: the candidate itself, then suffixes from 2, cut to fit. */
  function NameAt(candidate: string, j: nat): string
    requires 1 <= j <= MaxSetCount + 2
  {
    SuffixFits(j);
    if j == 1 then candidate
    else if |candidate| + |Suffix(j)| > MaxExposedNameLength
      then candidate[..MaxExposedNameLength - |Suffix(j)|] + Suffix(j)
      else candidate + Suffix(j)
  }

  lemma NoUnderscoreAfter(a: string, j: nat, p: int)
    requires |a| < p < |a + Suffix(j)|
    ensures (a + Suffix(j))[p] != '_'
  {
    assert (a + Suffix(j))[p] == Decimal(j)[p - |a| - 1];
  }

  /** The digits after the last underscore tell the suffix. */
  lemma SuffixRecovered(a: string, i: nat, b: string, j: nat)
    requires a + Suffix(i) == b + Suffix(j)
    ensures i == j
  {
    var n, di, dj := a + Suffix(i), Decimal(i), Decimal(j);
    assert n[|a|] == '_' && n[|b|] == '_';
    if |a| > |b| {
      NoUnderscoreAfter(b, j, |a|);
    } else if |b| > |a| {
      NoUnderscoreAfter(a, i, |b|);
    } else {
      assert di == n[|a| + 1..] == dj;
      DecimalInjective(i, j);
    }
  }

  /** Even cut to fit, names with different suffixes are different. */
  lemma SuffixedNamesDiffer(candidate: string, i: nat, j: nat)
    requires 2 <= i <= MaxSetCount + 2 && 2 <= j <= MaxSetCount + 2 && i != j
    ensures NameAt(candidate, i) != NameAt(candidate, j)
  {
    SuffixFits(i);
    SuffixFits(j);
    var a := if |candidate| + |Suffix(i)| > MaxExposedNameLength
      then candidate[..MaxExposedNameLength - |Suffix(i)|] else candidate;
    var b := if |candidate| + |Suffix(j)| > MaxExposedNameLength
      then candidate[..MaxExposedNameLength - |Suffix(j)|] else candidate;
    if a + Suffix(i) == b + Suffix(j) { SuffixRecovered(a, i, b, j); }
  }

  /** Pigeonhole: n suffixed names cannot all be among fewer than n used ones. */
  lemma {:induction false} TriesBounded(candidate: string, used: set<string>, n: nat)
    requires 2 <= n <= MaxSetCount + 3
    requires forall j :: 2 <= j < n ==> NameAt(candidate, j) in used
    ensures n - 2 <= |used|
    decreases n
  {
    if n > 2 {
      var x := NameAt(candidate, n - 1);
      forall j | 2 <= j < n - 1 ensures NameAt(candidate, j) in used - {x} {
        SuffixedNamesDiffer(candidate, j, n - 1);
      }
      TriesBounded(candidate, used - {x}, n - 1);
    }
  }

  /** The names tried before the n-th are all in use. */
  predicate Taken(candidate: string, used: set<string>, n: nat)
    requires 1 <= n <= MaxSetCount + 3
  {
    forall j :: 1 <= j < n ==> NameAt(candidate, j) in used
  }

  /** One more name in use, and then another one to try. */
  lemma OneMoreTaken(candidate: string, used: set<string>, n: nat)
    requires 1 <= n <= MaxSetCount + 2 && Taken(candidate, used, n) && NameAt(candidate, n) in used
    ensures Taken(candidate, used, n + 1) && n - 1 <= |used|
  {
    TriesBounded(candidate, used, n + 1);
  }

  /** The first name tried that is not in use. */
  ghost predicate FirstFree(candidate: string, used: set<string>, name: string) {
    exists k: nat :: 1 <= k <= |used| + 2 && k <= MaxSetCount + 2
      && name == NameAt(candidate, k) && name !in used && Taken(candidate, used, k)
  }

  function Candidate(t: Chars, server: string, tool: string): string {
    var full := NamePrefix + "_" + SlugOf(t, server) + "_" + SlugOf(t, tool);
    if |full| > MaxExposedNameLength then TrimEnd(full[..MaxExposedNameLength]) else full
  }

  // ---- Exposing ----

  class HashSet {
    var names: set<string>

    constructor ()
      ensures names == {}
    {
      names := {};
    }

    method Add(name: string) returns (added: bool)
      modifies this
      ensures added <==> name !in old(names)
      ensures names == old(names) + {name}
    {
      added := name !in names;
      names := names + {name};
    }
  }

  /** The candidate with a suffix, cut where the two together are too long. */
  method Suffixed(candidate: string, i: nat) returns (name: string)
    requires 2 <= i <= MaxSetCount + 2
    ensures name == NameAt(candidate, i)
  {
    SuffixFits(i);
    var suffix := Suffix(i);
    name := if |candidate| + |suffix| > MaxExposedNameLength
      then candidate[..MaxExposedNameLength - |suffix|] + suffix
      else candidate + suffix;
  }

  /** The suffix loop ends within |usedNames| + 1 suffixes, so the counter and the cut stay in range. */
  method ExposedName(t: Chars, server: string, tool: string, usedNames: HashSet) returns (name: string)
    requires !t.letterOrDigit('_') && |usedNames.names| <= MaxSetCount
    modifies usedNames
    ensures FirstFree(Candidate(t, server, tool), old(usedNames.names), name)
    ensures usedNames.names == old(usedNames.names) + {name}
  {
    ghost var used := usedNames.names;
    var serverSlug := Slug(t, server);
    var toolSlug := Slug(t, tool);
    var candidate := NamePrefix + "_" + serverSlug + "_" + toolSlug;
    if |candidate| > MaxExposedNameLength {
      candidate := TrimEnd(candidate[..MaxExposedNameLength]);
    }
    assert candidate == Candidate(t, server, tool);
    name := candidate;
    var i := 2;
    var added := usedNames.Add(name);
    while !added
      invariant 2 <= i <= |used| + 3
      invariant name == NameAt(candidate, i - 1) && Taken(candidate, used, i - 1)
      invariant added <==> name !in used
      invariant usedNames.names == used + {name}
      decreases |used| + 3 - i, !added
    {
      assert used + {name} == used;
      OneMoreTaken(candidate, used, i - 1);
      name := Suffixed(candidate, i);
      i := i + 1;
      added := usedNames.Add(name);
    }
  }

  lemma {:induction false} TrimEndShortens(s: string)
    ensures |TrimEnd(s)| <= |s| && TrimEnd(s) == s[..|TrimEnd(s)|]
    decreases |s|
  {
    if s != "" && s[|s| - 1] == '_' { TrimEndShortens(s[..|s| - 1]); }
  }

  lemma CandidateShape(t: Chars, server: string, tool: string)
    ensures |Candidate(t, server, tool)| <= MaxExposedNameLength
    ensures AsciiTables(t) && Ascii(server) && Ascii(tool) ==> Exposable(Candidate(t, server, tool))
  {
    var full := NamePrefix + "_" + SlugOf(t, server) + "_" + SlugOf(t, tool);
    if |full| > MaxExposedNameLength { TrimEndShortens(full[..MaxExposedNameLength]); }
    if AsciiTables(t) && Ascii(server) && Ascii(tool) {
      AsciiSlug(t, server);
      AsciiSlug(t, tool);
      assert Exposable(NamePrefix);
      assert Exposable(full);
    }
  }

  lemma {:induction false} TrimEndEnds(s: string)
    ensures TrimEnd(s) != "" ==> TrimEnd(s)[|TrimEnd(s)| - 1] != '_'
    ensures forall i :: |TrimEnd(s)| <= i < |s| ==> s[i] == '_'
    decreases |s|
  {
    TrimEndShortens(s);
    if s != "" && s[|s| - 1] == '_' {
      TrimEndEnds(s[..|s| - 1]);
      TrimEndShortens(s[..|s| - 1]);
      forall i | |TrimEnd(s)| <= i < |s| ensures s[i] == '_' {
        if i < |s| - 1 { assert s[i] == s[..|s| - 1][i]; }
      }
    }
  }

  /** What is tried first: the fixed prefix, the server's slug and the tool's slug, in this order; past 64
      characters the first 64 of it without the underscores they may end in. */
  lemma CandidateIs(t: Chars, server: string, tool: string)
    ensures var full, c := "mcp_" + SlugOf(t, server) + "_" + SlugOf(t, tool), Candidate(t, server, tool);
      if |full| <= 64 then c == full
      else
        && |c| <= 64 && c == full[..|c|] && (c != "" ==> c[|c| - 1] != '_')
        && forall i :: |c| <= i < 64 ==> full[i] == '_'
  {
    assert NamePrefix + "_" == "mcp_";
    var full := "mcp_" + SlugOf(t, server) + "_" + SlugOf(t, tool);
    if |full| > 64 {
      TrimEndShortens(full[..64]);
      TrimEndEnds(full[..64]);
      var c := Candidate(t, server, tool);
      assert c == full[..64][..|c|] == full[..|c|];
      forall i | |c| <= i < 64 ensures full[i] == '_' { assert full[i] == full[..64][i]; }
    }
  }

  /** The letters and digits of a text, in order. */
  function Letters(t: Chars, s: string): string
    decreases |s|
  {
    if s == "" then ""
    else Letters(t, s[..|s| - 1]) + if t.letterOrDigit(s[|s| - 1]) then [s[|s| - 1]] else ""
  }

  lemma {:induction false} LettersConcat(t: Chars, a: string, b: string)
    ensures Letters(t, a + b) == Letters(t, a) + Letters(t, b)
    decreases |b|
  {
    if b == "" {
      assert a + b == a;
    } else {
      assert (a + b)[..|a + b| - 1] == a + b[..|b| - 1];
      LettersConcat(t, a, b[..|b| - 1]);
    }
  }

  lemma LettersLast(t: Chars, s: string, c: char)
    ensures Letters(t, s + [c]) == Letters(t, s) + if t.letterOrDigit(c) then [c] else ""
  {
    assert (s + [c])[..|s|] == s;
  }

  lemma {:induction false} JoinedLetters(t: Chars, s: string)
    requires !t.letterOrDigit('_')
    ensures Letters(t, Joined(Words(t, s))) == Letters(t, s)
    decreases |s|
  {
    if s != "" {
      var front, c := s[..|s| - 1], s[|s| - 1];
      var w := Words(t, front);
      JoinedLetters(t, front);
      if t.letterOrDigit(c) {
        if front != "" && t.letterOrDigit(front[|front| - 1]) {
          JoinedLongerWord(w, c);
          LettersLast(t, Joined(w), c);
        } else {
          JoinedNewWord(w, c);
          LettersLast(t, "", c);
          if w != [] {
            LettersLast(t, Joined(w), '_');
            LettersLast(t, Joined(w) + "_", c);
          }
        }
      }
    }
  }

  /** A slug has exactly the letters and digits of the lower-cased text, in order; for a text without any it
      is "x". */
  lemma SlugKeepsLetters(t: Chars, value: string)
    requires !t.letterOrDigit('_')
    ensures if Letters(t, Lowered(t, value)) == "" then SlugOf(t, value) == "x"
            else Letters(t, SlugOf(t, value)) == Letters(t, Lowered(t, value))
  {
    var text := Lowered(t, value);
    JoinedLetters(t, text);
    NoWordsNoLetters(t, text);
  }

  lemma {:induction false} NoWordsNoLetters(t: Chars, s: string)
    ensures Words(t, s) == [] <==> Letters(t, s) == ""
    decreases |s|
  {
    if s != "" { NoWordsNoLetters(t, s[..|s| - 1]); }
  }

  /** Words are parted by one underscore; the second name tried ends in "_2". */
  lemma FirstNames()
    ensures SlugOf(LatinTables(), "A b") == "a_b"
    ensures NameAt("mcp_a_b", 1) == "mcp_a_b" && NameAt("mcp_a_b", 2) == "mcp_a_b_2"
  {
    var t := LatinTables();
    var text := Lowered(t, "A b");
    assert text == "a b";
    assert "a b"[..2] == "a " && "a "[..1] == "a" && "a"[..0] == "";
    assert Words(t, "a") == ["a"];
    assert Words(t, "a ") == ["a"];
    assert Words(t, "a b") == ["a"] + ["b"];
    assert (["a"] + ["b"])[..1] == ["a"];
    assert Decimal(2) == "2";
  }

  lemma NameAtShape(candidate: string, k: nat)
    requires 1 <= k <= MaxSetCount + 2 && |candidate| <= MaxExposedNameLength
    ensures |NameAt(candidate, k)| <= MaxExposedNameLength
    ensures Exposable(candidate) ==> Exposable(NameAt(candidate, k))
  {
    SuffixFits(k);
  }

  /** Every exposed name has at most 64 characters, and for ASCII server and tool names only lower-case
      letters, digits and underscores. */
  lemma ExposedNameShape(t: Chars, server: string, tool: string, used: set<string>, name: string)
    requires FirstFree(Candidate(t, server, tool), used, name)
    ensures |name| <= 64
    ensures AsciiTables(t) && Ascii(server) && Ascii(tool) ==> Exposable(name)
  {
    CandidateShape(t, server, tool);
    var k: nat :| 1 <= k <= MaxSetCount + 2 && name == NameAt(Candidate(t, server, tool), k);
    NameAtShape(Candidate(t, server, tool), k);
  }

  // ---- A whole tool list ----

  /** A server and the tools it lists; None when it cannot be reached or fails to list. */
  datatype Server = Server(name: string, tools: Option<seq<string>>)

  datatype Binding = Binding(exposed: string, server: string, tool: string)

  /** The tools of all reachable servers, in order. */
  function Reachable(servers: seq<Server>): seq<(string, string)>
    decreases |servers|
  {
    if servers == [] then []
    else Reachable(servers[..|servers| - 1]) + ToolsOf(servers[|servers| - 1])
  }

  function ToolsOf(s: Server): seq<(string, string)> {
    match s.tools
    case None => []
    case Some(tools) => seq(|tools|, i requires 0 <= i < |tools| => (s.name, tools[i]))
  }

  function NamesOf(bindings: seq<Binding>): set<string> {
    set b | b in bindings :: b.exposed
  }

  /** One binding per tool, in order, each under the first free name given those before it. */
  ghost predicate Binds(t: Chars, tools: seq<(string, string)>, bindings: seq<Binding>) {
    && |bindings| == |tools|
    && forall i :: 0 <= i < |tools| ==>
      && bindings[i].server == tools[i].0 && bindings[i].tool == tools[i].1
      && FirstFree(Candidate(t, tools[i].0, tools[i].1), NamesOf(bindings[..i]), bindings[i].exposed)
  }

  lemma BindsOneMore(t: Chars, tools: seq<(string, string)>, bindings: seq<Binding>, x: (string, string), b: Binding)
    requires Binds(t, tools, bindings) && b.server == x.0 && b.tool == x.1
    requires FirstFree(Candidate(t, x.0, x.1), NamesOf(bindings), b.exposed)
    ensures Binds(t, tools + [x], bindings + [b])
  {
    var more := bindings + [b];
    forall i | 0 <= i < |more|
      ensures FirstFree(Candidate(t, (tools + [x])[i].0, (tools + [x])[i].1), NamesOf(more[..i]), more[i].exposed)
    {
      assert more[..i] == bindings[..i];
      assert bindings[..|bindings|] == bindings;
    }
  }

  lemma NamesFew(bindings: seq<Binding>)
    ensures |NamesOf(bindings)| <= |bindings|
    decreases |bindings|
  {
    if bindings == [] {
      assert NamesOf(bindings) == {};
    } else {
      var front, b := bindings[..|bindings| - 1], bindings[|bindings| - 1];
      NamesFew(front);
      assert bindings == front + [b];
      assert NamesOf(bindings) == NamesOf(front) + {b.exposed};
    }
  }

  /** One more tool of a server bound. */
  lemma BindNext(t: Chars, before: seq<(string, string)>, all: seq<(string, string)>, k: nat, bindings: seq<Binding>,
      b: Binding)
    requires k < |all| && Binds(t, before + all[..k], bindings) && b.server == all[k].0 && b.tool == all[k].1
    requires FirstFree(Candidate(t, b.server, b.tool), NamesOf(bindings), b.exposed)
    ensures Binds(t, before + all[..k + 1], bindings + [b])
      && NamesOf(bindings + [b]) == NamesOf(bindings) + {b.exposed}
  {
    BindsOneMore(t, before + all[..k], bindings, all[k], b);
    assert before + all[..k] + [all[k]] == before + all[..k + 1];
    NamesGrow(bindings, b);
  }

  /** The bindings of one reachable server, after those of the servers before it. */
  method BindServer(t: Chars, server: string, tools: seq<string>, usedNames: HashSet, bindings: seq<Binding>,
                    ghost before: seq<(string, string)>, ghost all: seq<(string, string)>)
    returns (more: seq<Binding>)
    requires !t.letterOrDigit('_') && |before| + |all| <= MaxSetCount && all == ToolsOf(Server(server, Some(tools)))
    requires Binds(t, before, bindings) && usedNames.names == NamesOf(bindings)
    modifies usedNames
    ensures Binds(t, before + all, more) && usedNames.names == NamesOf(more)
  {
    more := bindings;
    assert before + all[..0] == before;
    for k := 0 to |tools|
      invariant Binds(t, before + all[..k], more)
      invariant usedNames.names == NamesOf(more)
    {
      NamesFew(more);
      var name := ExposedName(t, server, tools[k], usedNames);
      BindNext(t, before, all, k, more, Binding(name, server, tools[k]));
      more := more + [Binding(name, server, tools[k])];
    }
    assert all[..|tools|] == all;
  }

  lemma NamesGrow(bindings: seq<Binding>, b: Binding)
    ensures NamesOf(bindings + [b]) == NamesOf(bindings) + {b.exposed}
  {
  }

  method GetTools(t: Chars, servers: seq<Server>) returns (bindings: seq<Binding>)
    requires !t.letterOrDigit('_') && |Reachable(servers)| <= MaxSetCount
    ensures Binds(t, Reachable(servers), bindings)
  {
    bindings := [];
    var usedNames := new HashSet();
    for n := 0 to |servers|
      invariant Binds(t, Reachable(servers[..n]), bindings) && usedNames.names == NamesOf(bindings)
    {
      assert servers[..n + 1][..n] == servers[..n];
      ReachableGrows(servers, n + 1);
      if servers[n].tools.Some? {
        bindings := BindServer(t, servers[n].name, servers[n].tools.value, usedNames, bindings,
          Reachable(servers[..n]), ToolsOf(servers[n]));
      } else {
        assert Reachable(servers[..n + 1]) == Reachable(servers[..n]);
      }
    }
    assert servers[..|servers|] == servers;
  }

  lemma {:induction false} ReachableGrows(servers: seq<Server>, n: nat)
    requires n <= |servers|
    ensures |Reachable(servers[..n])| <= |Reachable(servers)|
    decreases |servers|
  {
    if n < |servers| {
      ReachableGrows(servers[..|servers| - 1], n);
      assert servers[..|servers| - 1][..n] == servers[..n];
    } else {
      assert servers[..n] == servers;
    }
  }

  /** The list goes server by server, and through each reachable server's tools in their order. */
  lemma {:induction false} ReachableAt(servers: seq<Server>, n: nat, k: nat)
    requires n < |servers| && servers[n].tools.Some? && k < |servers[n].tools.value|
    ensures |Reachable(servers[..n + 1])| == |Reachable(servers[..n])| + |servers[n].tools.value|
    ensures |Reachable(servers[..n])| + k < |Reachable(servers)|
    ensures Reachable(servers)[|Reachable(servers[..n])| + k] == (servers[n].name, servers[n].tools.value[k])
    decreases |servers|
  {
    assert servers[..n + 1][..n] == servers[..n];
    if n < |servers| - 1 {
      var front := servers[..|servers| - 1];
      assert front[..n] == servers[..n] && front[..n + 1] == servers[..n + 1];
      ReachableAt(front, n, k);
    }
  }

  /** All tools of one list have pairwise different names of at most 64 characters. */
  lemma BindingsDistinct(t: Chars, tools: seq<(string, string)>, bindings: seq<Binding>)
    requires Binds(t, tools, bindings)
    ensures forall i, j :: 0 <= i < j < |bindings| ==> bindings[i].exposed != bindings[j].exposed
    ensures forall i :: 0 <= i < |bindings| ==> |bindings[i].exposed| <= MaxExposedNameLength
  {
    forall i | 0 <= i < |bindings| ensures |bindings[i].exposed| <= MaxExposedNameLength {
      ExposedNameShape(t, tools[i].0, tools[i].1, NamesOf(bindings[..i]), bindings[i].exposed);
    }
    forall i, j | 0 <= i < j < |bindings| ensures bindings[i].exposed != bindings[j].exposed {
      assert bindings[..j][i] == bindings[i];
      assert bindings[i].exposed in NamesOf(bindings[..j]);
    }
  }
}
