/** Text for the documents: one-line summaries, and Doxygen code blocks turned into Markdown fences. */
module DocTexts {
  import opened Prelude
  import opened Utf8s

  const TAB: Byte := 0x09
  const NEWLINE: Byte := 0x0A
  const RETURN: Byte := 0x0D
  const SPACE: Byte := 0x20
  const SUMMARY_MAX := 120
  const ELLIPSIS: seq<Byte> := [0xE2, 0x80, 0xA6]   // U+2026

  predicate IsBlank(c: Byte) {
    c == SPACE || c == TAB || c == RETURN || c == NEWLINE
  }

  predicate NotBlank(c: Byte) {
    !IsBlank(c)
  }

  predicate IsNewline(c: Byte) {
    c == NEWLINE
  }

  predicate IsWord(c: Byte) {
    0x61 <= c <= 0x7A || 0x41 <= c <= 0x5A || 0x30 <= c <= 0x39 || c == 0x5F
  }

  // ---------------------------------------------------------------------------
  // Cutting
  // ---------------------------------------------------------------------------

  /** The longest prefix of valid text that fits in `max` bytes without splitting a character. */
  method Utf8Floor(s: seq<Byte>, max: nat) returns (i: nat)
    ensures i <= |s| && i <= max
    ensures Valid(s) ==> Valid(s[..i]) && forall k: nat | k <= |s| && k <= max && Valid(s[..k]) :: k <= i
  {
    hide CharLength;
    i := 0;
    while i < |s|
      invariant i <= |s| && i <= max && (Valid(s) ==> Valid(s[..i]) && Valid(s[i..]))
    {
      var len := SeqLen(s, i);
      if len == 0 {
        len := 1;
      }
      if i + len > max {
        if Valid(s) { FloorMaximal(s, i, max); }
        break;
      }
      if Valid(s) { NextBoundary(s, i); }
      i := i + len;
    }
  }

  lemma NextBoundary(s: seq<Byte>, i: nat)
    requires i < |s| && Valid(s[..i]) && Valid(s[i..])
    ensures var n := CharLength(s[i..]); n > 0 && Valid(s[..i + n]) && Valid(s[i + n..])
  {
    hide CharLength, Valid;
    var n := CharLength(s[i..]);
    ValidRest(s[i..]);
    ValidChar(s[i..]);
    assert s[..i] + s[i..][..n] == s[..i + n] && s[i..][n..] == s[i + n..];
    ValidSum(s[..i], s[i..][..n]);
  }

  lemma FloorMaximal(s: seq<Byte>, i: nat, max: nat)
    requires i < |s| && Valid(s[..i]) && Valid(s[i..]) && i + CharLength(s[i..]) > max
    ensures forall k: nat | k <= |s| && k <= max && Valid(s[..k]) :: k <= i
  {
    forall k: nat | i < k <= |s| && k <= max ensures !Valid(s[..k]) {
      assert s[..i] + s[i..k] == s[..k] && s[i..k] + s[k..] == s[i..];
      ValidSum(s[..i], s[i..k]);
      if CharLength(s[i..k]) > 0 {
        FrontKept(s[i..k], s[k..]);
      }
    }
  }

  function TrimmedRight(s: seq<Byte>): (r: seq<Byte>)
    ensures r <= s && (r != [] ==> !IsBlank(r[|r| - 1]))
    ensures forall k | |r| <= k < |s| :: IsBlank(s[k])
  {
    if s != [] && IsBlank(s[|s| - 1]) then TrimmedRight(s[..|s| - 1]) else s
  }

  method TrimRight(s: seq<Byte>) returns (r: seq<Byte>)
    ensures r == TrimmedRight(s)
  {
    r := s;
    while r != [] && IsBlank(r[|r| - 1])
      invariant TrimmedRight(r) == TrimmedRight(s)
      decreases |r|
    {
      r := r[..|r| - 1];
    }
  }

  lemma {:induction false} TrimmedValid(s: seq<Byte>)
    requires Valid(s)
    ensures Valid(TrimmedRight(s))
  {
    if s != [] && IsBlank(s[|s| - 1]) {
      AsciiStandsAlone(s, |s| - 1);
      TrimmedValid(s[..|s| - 1]);
    }
  }

  // ---------------------------------------------------------------------------
  // Summaries
  // ---------------------------------------------------------------------------

  /** The index of the first byte at or after i that satisfies the test, or |s|. */
  function IndexFrom(s: seq<Byte>, i: nat, test: Byte -> bool): (k: nat)
    requires i <= |s|
    ensures i <= k <= |s| && (k < |s| ==> test(s[k]))
    ensures forall j | i <= j < k :: !test(s[j])
    decreases |s| - i
  {
    if i == |s| || test(s[i]) then i else IndexFrom(s, i + 1, test)
  }

  /** The first line with something on it, from its first non-blank character. */
  function FirstLine(text: seq<Byte>): seq<Byte> {
    var b := IndexFrom(text, 0, NotBlank);
    text[b..IndexFrom(text, b, IsNewline)]
  }

  const EG: seq<Byte> := [0x65, 0x2E, 0x67]
  const IE: seq<Byte> := [0x69, 0x2E, 0x65]

  /** The dot of "e.g." or "i.e.", as a word of its own. */
  predicate EndsAbbreviation(line: seq<Byte>, dot: nat)
    requires dot < |line|
  {
    dot >= 3 && (line[dot - 3..dot] == EG || line[dot - 3..dot] == IE) && (dot == 3 || !IsWord(line[dot - 4]))
  }

  predicate EndsSentence(line: seq<Byte>, i: nat)
    requires i + 1 < |line|
  {
    && (line[i] == 0x2E || line[i] == 0x21 || line[i] == 0x3F) && (line[i + 1] == SPACE || line[i + 1] == TAB)
    && !(line[i] == 0x2E && EndsAbbreviation(line, i))
  }

  /** Up to the end of the first sentence that does not end the line, from position i on. */
  function Sentence(line: seq<Byte>, i: nat): (r: seq<Byte>)
    requires i <= |line|
    ensures r <= line && (r == line || (|r| > i && |r| < |line| && EndsSentence(line, |r| - 1)))
    ensures forall j | i <= j < |r| - 1 :: !EndsSentence(line, j)
    decreases |line| - i
  {
    if i + 1 >= |line| then line
    else if EndsSentence(line, i) then line[..i + 1]
    else Sentence(line, i + 1)
  }

  /** The first sentence of the first line, without trailing blanks. */
  function FirstSentence(text: seq<Byte>): seq<Byte> {
    TrimmedRight(Sentence(FirstLine(text), 0))
  }

  /** At most 120 bytes: the sentence, or the most of it that leaves room for the ellipsis. */
  ghost predicate IsSummary(text: seq<Byte>, r: seq<Byte>) {
    var whole := FirstSentence(text);
    if |whole| <= SUMMARY_MAX then r == whole
    else
      exists n: nat :: LongestFit(whole, SUMMARY_MAX - |ELLIPSIS|, n) && r == TrimmedRight(whole[..n]) + ELLIPSIS
  }

  ghost predicate LongestFit(s: seq<Byte>, max: nat, n: nat) {
    n <= |s| && n <= max && Valid(s[..n]) && forall k: nat | k <= |s| && k <= max && Valid(s[..k]) :: k <= n
  }

  method Summary(desc: seq<Byte>) returns (r: seq<Byte>)
    ensures IsSummary(Sanitized(desc), r)
  {
    hide Sanitized, Valid, CharLength, Sentence;
    var text := Utf8Sanitize(desc);
    SanitizedValid(desc);
    var b := 0;
    while b < |text| && IsBlank(text[b])
      invariant b <= |text| && IndexFrom(text, 0, NotBlank) == IndexFrom(text, b, NotBlank)
    {
      b := b + 1;
    }
    FirstSentenceValid(text);
    if b == |text| {
      assert FirstLine(text) == [];
      return [];
    }
    var line := LineAt(text, b);
    line := FirstSentenceOf(line);
    line := TrimRight(line);
    hide FirstSentence;
    if |line| <= SUMMARY_MAX {
      return line;
    }
    var n := Utf8Floor(line, SUMMARY_MAX - |ELLIPSIS|);
    assert LongestFit(line, SUMMARY_MAX - |ELLIPSIS|, n);
    var cut := TrimRight(line[..n]);
    return cut + ELLIPSIS;
  }

  /** From b up to the next newline, if there is one. */
  method LineAt(text: seq<Byte>, b: nat) returns (line: seq<Byte>)
    requires b <= |text|
    ensures line == text[b..IndexFrom(text, b, IsNewline)]
  {
    var e := b;
    while e < |text| && text[e] != NEWLINE
      invariant b <= e <= |text| && IndexFrom(text, b, IsNewline) == IndexFrom(text, e, IsNewline)
    {
      e := e + 1;
    }
    line := text[b..e];
  }

  method FirstSentenceOf(line: seq<Byte>) returns (r: seq<Byte>)
    ensures r == Sentence(line, 0)
  {
    var i := 0;
    while i + 1 < |line|
      invariant i <= |line| && Sentence(line, 0) == Sentence(line, i)
    {
      if EndsSentence(line, i) {
        return line[..i + 1];
      }
      i := i + 1;
    }
    return line;
  }

  lemma BetweenAscii(s: seq<Byte>, b: nat, e: nat)
    requires Valid(s) && b <= e <= |s| && (b == 0 || s[b - 1] < 0x80) && (e == |s| || s[e] < 0x80)
    ensures Valid(s[b..e])
  {
    hide CharLength, Valid;
    if b > 0 {
      AfterAscii(s, b);
    }
    assert s[0..] == s;
    var t := s[b..];
    assert Valid(t);
    if e < |s| {
      AsciiStandsAlone(t, e - b);
    } else {
      assert t[..e - b] == t;
    }
    assert t[..e - b] == s[b..e];
  }

  lemma FirstLineValid(text: seq<Byte>)
    requires Valid(text)
    ensures Valid(FirstLine(text))
  {
    var b := IndexFrom(text, 0, NotBlank);
    BetweenAscii(text, b, IndexFrom(text, b, IsNewline));
  }

  lemma FirstSentenceValid(text: seq<Byte>)
    requires Valid(text)
    ensures Valid(FirstSentence(text))
  {
    FirstLineValid(text);
    SentenceValid(FirstLine(text));
    TrimmedValid(Sentence(FirstLine(text), 0));
  }

  lemma SentenceValid(line: seq<Byte>)
    requires Valid(line)
    ensures Valid(Sentence(line, 0))
  {
    var r := Sentence(line, 0);
    if r != line {
      assert line[..|r|] == r && line[|r| - 1] == r[|r| - 1] < 0x80;
      AfterAscii(line, |r|);
    }
  }

  /** A summary is valid UTF-8 of at most 120 bytes, on one line; it is empty only when there is nothing
      to summarise. */
  lemma SummaryFits(desc: seq<Byte>, r: seq<Byte>)
    requires IsSummary(Sanitized(desc), r)
    ensures Valid(r) && |r| <= SUMMARY_MAX && NEWLINE !in r
    ensures r == [] <==> forall c | c in Sanitized(desc) :: IsBlank(c)
  {
    var text := Sanitized(desc);
    SanitizedValid(desc);
    FirstSentenceValid(text);
    var whole := FirstSentence(text);
    OneLine(text);
    SentenceEmpty(text);
    hide FirstSentence, Sanitized, Valid, LongestFit, IsBlank;
    if |whole| > SUMMARY_MAX {
      var n: nat :| LongestFit(whole, SUMMARY_MAX - |ELLIPSIS|, n) && r == TrimmedRight(whole[..n]) + ELLIPSIS;
      CutFits(whole, n);
    }
  }

  lemma CutFits(whole: seq<Byte>, n: nat)
    requires LongestFit(whole, SUMMARY_MAX - |ELLIPSIS|, n) && NEWLINE !in whole
    ensures var r := TrimmedRight(whole[..n]) + ELLIPSIS; Valid(r) && 0 < |r| <= SUMMARY_MAX && NEWLINE !in r
  {
    TrimmedValid(whole[..n]);
    EllipsisValid(TrimmedRight(whole[..n]));
    hide Valid;
    assert forall c | c in TrimmedRight(whole[..n]) :: c in whole;
  }

  lemma EllipsisValid(s: seq<Byte>)
    requires Valid(s)
    ensures Valid(s + ELLIPSIS)
  {
    assert CharLength(ELLIPSIS) == 3 && ELLIPSIS[3..] == [];
    ValidSum(s, ELLIPSIS);
  }

  lemma OneLine(text: seq<Byte>)
    ensures NEWLINE !in FirstSentence(text)
  {
    var line := FirstLine(text);
    assert NEWLINE !in line;
    assert forall c | c in Sentence(line, 0) :: c in line;
  }

  lemma SentenceEmpty(text: seq<Byte>)
    ensures FirstSentence(text) == [] <==> forall c | c in text :: IsBlank(c)
  {
    var b := IndexFrom(text, 0, NotBlank);
    if b < |text| {
      assert text[b] in text;
      var line := FirstLine(text);
      assert line[0] == text[b];
      assert Sentence(line, 0)[0] == text[b];
    } else {
      assert forall c | c in text :: exists i | 0 <= i < b :: text[i] == c;
      assert FirstLine(text) == [];
    }
  }

  // ---------------------------------------------------------------------------
  // Descriptions
  // ---------------------------------------------------------------------------

  const CODE: seq<Byte> := [0x40, 0x63, 0x6F, 0x64, 0x65]                            // @code
  const ENDCODE: seq<Byte> := [0x40, 0x65, 0x6E, 0x64, 0x63, 0x6F, 0x64, 0x65]       // @endcode
  const FENCE: seq<Byte> := [0x60, 0x60, 0x60]
  const DOT: Byte := 0x2E
  const OPEN_BRACE: Byte := 0x7B
  const CLOSE_BRACE: Byte := 0x7D

  predicate KeywordAt(s: seq<Byte>, i: nat, word: seq<Byte>) {
    && i + |word| <= |s| && s[i..i + |word|] == word
    && (i == 0 || !IsWord(s[i - 1])) && (i + |word| == |s| || !IsWord(s[i + |word|]))
  }

  predicate NotSpace(c: Byte) {
    c != SPACE && c != TAB
  }

  predicate ClosesBrace(c: Byte) {
    c == CLOSE_BRACE
  }

  predicate InLanguage(c: Byte) {
    IsWord(c) || c == 0x2B || c == 0x2D
  }

  /** The language between the braces, without its leading dot; nothing when it is not plain. */
  function Language(braced: seq<Byte>): (r: seq<Byte>)
    ensures Ascii(r)
  {
    var lang := if braced != [] && braced[0] == DOT then braced[1..] else braced;
    if forall c | c in lang :: InLanguage(c) then lang else []
  }

  /** A language in braces at j, if there is one, and where it ends. */
  function Braces(s: seq<Byte>, j: nat): (r: (seq<Byte>, nat))
    requires j <= |s|
    ensures j <= r.1 <= |s|
  {
    var close := IndexFrom(s, j, ClosesBrace);
    if j < |s| && s[j] == OPEN_BRACE && close < |s| then (Language(s[j + 1..close]), close + 1) else ([], j)
  }

  /** For @code at i: the language, and where the code starts. */
  function Opening(s: seq<Byte>, i: nat): (r: (seq<Byte>, nat))
    requires i + |CODE| <= |s|
    ensures i + |CODE| <= r.1 <= |s|
  {
    var (lang, j) := Braces(s, i + |CODE|);
    var k := IndexFrom(s, j, NotSpace);
    (lang, if k < |s| && s[k] == NEWLINE then k + 1 else k)
  }

  /** What the rewriter emits: a byte kept, or a fence opened or closed (with a newline after it). */
  datatype Piece = Kept(b: Byte) | Open(lang: seq<Byte>) | Close(newline: bool)

  /** The text from i on; `inCode` inside a code block. */
  function Pieces(s: seq<Byte>, i: nat, inCode: bool): seq<Piece>
    requires i <= |s|
    decreases |s| - i
  {
    if i == |s| then if inCode then [Close(false)] else []
    else if !inCode && KeywordAt(s, i, CODE) then
      var (lang, j) := Opening(s, i);
      [Open(lang)] + Pieces(s, j, true)
    else if inCode && KeywordAt(s, i, ENDCODE) then
      var j := IndexFrom(s, i + |ENDCODE|, NotSpace);
      [Close(j < |s| && s[j] != NEWLINE)] + Pieces(s, j, false)
    else [Kept(s[i])] + Pieces(s, i + 1, inCode)
  }

  function WithoutSpaces(s: seq<Byte>): (r: seq<Byte>)
    ensures r <= s && (r != [] ==> NotSpace(r[|r| - 1]))
  {
    if s != [] && !NotSpace(s[|s| - 1]) then WithoutSpaces(s[..|s| - 1]) else s
  }

  /** Ready for a line of its own: nothing, or text that ends its line. */
  function LineStarted(out: seq<Byte>): (r: seq<Byte>)
    ensures r == [] || r[|r| - 1] == NEWLINE
  {
    var r := WithoutSpaces(out);
    if r != [] && r[|r| - 1] != NEWLINE then r + [NEWLINE] else r
  }

  function Emitted(out: seq<Byte>, p: Piece): seq<Byte> {
    match p
    case Kept(b) => out + [b]
    case Open(lang) => LineStarted(out) + (FENCE + lang + [NEWLINE])
    case Close(newline) => LineStarted(out) + (FENCE + if newline then [NEWLINE] else [])
  }

  function Rendered(ps: seq<Piece>): seq<Byte> {
    if ps == [] then [] else Emitted(Rendered(ps[..|ps| - 1]), ps[|ps| - 1])
  }

  method StartLine(out: seq<Byte>) returns (r: seq<Byte>)
    ensures r == LineStarted(out)
  {
    var n := |out|;
    assert out[..n] == out;
    while n > 0 && (out[n - 1] == SPACE || out[n - 1] == TAB)
      invariant 0 <= n <= |out| && WithoutSpaces(out) == WithoutSpaces(out[..n])
    {
      assert out[..n][..n - 1] == out[..n - 1];
      n := n - 1;
    }
    r := out[..n];
    if r != [] && r[|r| - 1] != NEWLINE {
      r := r + [NEWLINE];
    }
  }

  method SkipSpaces(s: seq<Byte>, j: nat) returns (k: nat)
    requires j <= |s|
    ensures k == IndexFrom(s, j, NotSpace)
  {
    k := j;
    while k < |s| && (s[k] == SPACE || s[k] == TAB)
      invariant k <= |s| && IndexFrom(s, j, NotSpace) == IndexFrom(s, k, NotSpace)
    {
      k := k + 1;
    }
  }

  method ReadBraces(s: seq<Byte>, i: nat) returns (lang: seq<Byte>, j: nat)
    requires i <= |s|
    ensures (lang, j) == Braces(s, i)
  {
    lang, j := [], i;
    if j < |s| && s[j] == OPEN_BRACE {
      var close := IndexFrom(s, j, ClosesBrace);
      if close < |s| {
        lang := s[j + 1..close];
        if lang != [] && lang[0] == DOT {
          lang := lang[1..];
        }
        if !forall c | c in lang :: InLanguage(c) {
          lang := [];
        }
        j := close + 1;
      }
    }
  }

  method ReadOpening(s: seq<Byte>, i: nat) returns (lang: seq<Byte>, j: nat)
    requires i + |CODE| <= |s|
    ensures (lang, j) == Opening(s, i)
  {
    hide Braces;
    lang, j := ReadBraces(s, i + |CODE|);
    j := SkipSpaces(s, j);
    if j < |s| && s[j] == NEWLINE {
      j := j + 1;
    }
  }

  /** One turn of the rewriter's loop. */
  method Emit(s: seq<Byte>, i: nat, inCode: bool, before: seq<Byte>)
    returns (out: seq<Byte>, j: nat, nowInCode: bool, ghost piece: Piece)
    requires i < |s|
    ensures i < j <= |s| && Pieces(s, i, inCode) == [piece] + Pieces(s, j, nowInCode) && out == Emitted(before, piece)
  {
    out := before;
    nowInCode := inCode;
    if !inCode && KeywordAt(s, i, CODE) {
      var lang;
      lang, j := ReadOpening(s, i);
      out := StartLine(out);
      out := out + (FENCE + lang + [NEWLINE]);
      nowInCode := true;
      piece := Open(lang);
    } else if inCode && KeywordAt(s, i, ENDCODE) {
      out := StartLine(out);
      j := SkipSpaces(s, i + |ENDCODE|);
      piece := Close(j < |s| && s[j] != NEWLINE);
      out := out + (FENCE + if j < |s| && s[j] != NEWLINE then [NEWLINE] else []);
      nowInCode := false;
    } else {
      out := out + [s[i]];
      piece := Kept(s[i]);
      j := i + 1;
    }
  }

  method Description(desc: seq<Byte>) returns (out: seq<Byte>)
    ensures out == Rendered(Pieces(Sanitized(desc), 0, false))
  {
    var s := Utf8Sanitize(desc);
    hide Pieces, Emitted, Sanitized;
    out := [];
    var inCode := false;
    var i := 0;
    ghost var emitted: seq<Piece> := [];
    assert emitted + Pieces(s, 0, false) == Pieces(s, 0, false);
    while i < |s|
      invariant i <= |s| && out == Rendered(emitted)
      invariant emitted + Pieces(s, i, inCode) == Pieces(s, 0, false)
      decreases |s| - i
    {
      ghost var piece;
      out, i, inCode, piece := Emit(s, i, inCode, out);
      Appended(emitted, piece, Pieces(s, i, inCode));
      emitted := emitted + [piece];
    }
    LastPiece(s, inCode);
    if inCode {
      Appended(emitted, Close(false), []);
      assert emitted + [Close(false)] + [] == emitted + [Close(false)];
      out := StartLine(out);
      out := out + FENCE;
    } else {
      assert emitted + [] == emitted;
    }
  }

  lemma Appended(ps: seq<Piece>, p: Piece, more: seq<Piece>)
    ensures ps + ([p] + more) == (ps + [p]) + more && Rendered(ps + [p]) == Emitted(Rendered(ps), p)
  {
    assert (ps + [p])[..|ps|] == ps;
  }

  lemma LastPiece(s: seq<Byte>, inCode: bool)
    ensures Pieces(s, |s|, inCode) == if inCode then [Close(false)] else []
    ensures forall out :: Emitted(out, Close(false)) == LineStarted(out) + FENCE
  {
    assert FENCE + [] == FENCE;
  }

  // ---------------------------------------------------------------------------
  // What a description is
  // ---------------------------------------------------------------------------

  /** Fences open and close in turn, and none stays open. */
  predicate Balanced(ps: seq<Piece>, open: bool) {
    if ps == [] then !open
    else
      match ps[0]
      case Kept(_) => Balanced(ps[1..], open)
      case Open(_) => !open && Balanced(ps[1..], true)
      case Close(_) => open && Balanced(ps[1..], false)
  }

  lemma {:induction false} PiecesBalanced(s: seq<Byte>, i: nat, inCode: bool)
    requires i <= |s|
    ensures Balanced(Pieces(s, i, inCode), inCode)
    decreases |s| - i
  {
    if i < |s| {
      if !inCode && KeywordAt(s, i, CODE) {
        PiecesBalanced(s, Opening(s, i).1, true);
      } else if inCode && KeywordAt(s, i, ENDCODE) {
        PiecesBalanced(s, IndexFrom(s, i + |ENDCODE|, NotSpace), false);
      } else {
        PiecesBalanced(s, i + 1, inCode);
      }
    }
  }

  /** Without an @code keyword nothing is rewritten. */
  lemma {:induction false} NothingToRewrite(s: seq<Byte>, i: nat, emitted: seq<Piece>)
    requires i <= |s| && forall k | i <= k < |s| :: !KeywordAt(s, k, CODE)
    ensures Rendered(emitted + Pieces(s, i, false)) == Rendered(emitted) + s[i..]
    decreases |s| - i
  {
    hide Rendered, Emitted, KeywordAt;
    if i == |s| {
      assert emitted + [] == emitted && Rendered(emitted) + s[i..] == Rendered(emitted);
    } else {
      Appended(emitted, Kept(s[i]), Pieces(s, i + 1, false));
      NothingToRewrite(s, i + 1, emitted + [Kept(s[i])]);
      KeptStep(s, i, emitted);
    }
  }

  lemma {:induction false} LineStartedValid(out: seq<Byte>)
    requires Valid(out)
    ensures Valid(LineStarted(out))
  {
    WithoutSpacesValid(out);
    ValidSum(WithoutSpaces(out), [NEWLINE]);
  }

  lemma {:induction false} WithoutSpacesValid(out: seq<Byte>)
    requires Valid(out)
    ensures Valid(WithoutSpaces(out))
  {
    if out != [] && !NotSpace(out[|out| - 1]) {
      AsciiStandsAlone(out, |out| - 1);
      WithoutSpacesValid(out[..|out| - 1]);
    }
  }

  lemma FenceValid(out: seq<Byte>, p: Piece)
    requires Valid(out) && !p.Kept? && (p.Open? ==> Ascii(p.lang))
    ensures Valid(Emitted(out, p))
  {
    var line := LineStarted(out);
    var fence := match p case Open(lang) => FENCE + lang + [NEWLINE] case Close(newline) => FENCE + if newline then [NEWLINE] else [];
    assert Ascii(fence);
    AsciiValid(fence);
    LineStartedValid(out);
    ValidSum(line, fence);
  }

  /** What was emitted, followed by what is left to read, is valid throughout. */
  lemma {:induction false} PiecesValid(s: seq<Byte>, i: nat, inCode: bool, emitted: seq<Piece>)
    requires i <= |s| && Valid(s) && Valid(Rendered(emitted) + s[i..])
    ensures Valid(Rendered(emitted + Pieces(s, i, inCode)))
    decreases |s| - i
  {
    hide Valid, Emitted, Rendered, Opening;
    var out := Rendered(emitted);
    if i == |s| {
      assert out + s[i..] == out;
      if inCode {
        FenceValid(out, Close(false));
        Appended(emitted, Close(false), []);
        assert emitted + [Close(false)] + [] == emitted + [Close(false)];
      } else {
        assert emitted + [] == emitted;
      }
    } else if !inCode && KeywordAt(s, i, CODE) {
      var (lang, j) := Opening(s, i);
      OpeningAscii(s, i);
      FenceStep(s, i, j, emitted, Open(lang));
      PiecesValid(s, j, true, emitted + [Open(lang)]);
      Appended(emitted, Open(lang), Pieces(s, j, true));
    } else if inCode && KeywordAt(s, i, ENDCODE) {
      var j := IndexFrom(s, i + |ENDCODE|, NotSpace);
      var close := Close(j < |s| && s[j] != NEWLINE);
      EndingAscii(s, i);
      FenceStep(s, i, j, emitted, close);
      PiecesValid(s, j, false, emitted + [close]);
      Appended(emitted, close, Pieces(s, j, false));
    } else {
      KeptStep(s, i, emitted);
      Appended(emitted, Kept(s[i]), Pieces(s, i + 1, inCode));
      PiecesValid(s, i + 1, inCode, emitted + [Kept(s[i])]);
    }
  }

  lemma KeptStep(s: seq<Byte>, i: nat, emitted: seq<Piece>)
    requires i < |s|
    ensures Rendered(emitted + [Kept(s[i])]) + s[i + 1..] == Rendered(emitted) + s[i..]
  {
    Appended(emitted, Kept(s[i]), []);
    assert Rendered(emitted) + [s[i]] + s[i + 1..] == Rendered(emitted) + s[i..];
  }

  lemma OpeningAscii(s: seq<Byte>, i: nat)
    requires i < |s| && KeywordAt(s, i, CODE)
    ensures var (lang, j) := Opening(s, i); i < j <= |s| && s[i] < 0x80 && s[j - 1] < 0x80 && Ascii(lang)
  {
    assert s[i..i + 5][4] == CODE[4] && s[i..i + 5][0] == CODE[0];
  }

  lemma EndingAscii(s: seq<Byte>, i: nat)
    requires i < |s| && KeywordAt(s, i, ENDCODE)
    ensures var j := IndexFrom(s, i + |ENDCODE|, NotSpace); i < j <= |s| && s[i] < 0x80 && s[j - 1] < 0x80
  {
    assert s[i..i + 8][7] == ENDCODE[7] && s[i..i + 8][0] == ENDCODE[0];
  }

  lemma FenceStep(s: seq<Byte>, i: nat, j: nat, emitted: seq<Piece>, p: Piece)
    requires Valid(s) && i < j <= |s| && s[i] < 0x80 && s[j - 1] < 0x80 && Valid(Rendered(emitted) + s[i..])
    requires !p.Kept? && (p.Open? ==> Ascii(p.lang))
    ensures Valid(Rendered(emitted + [p]) + s[j..])
  {
    var out := Rendered(emitted);
    AsciiStandsAlone(out + s[i..], |out|);
    assert (out + s[i..])[..|out|] == out;
    FenceValid(out, p);
    AfterAscii(s, j);
    Appended(emitted, p, []);
    ValidSum(Emitted(out, p), s[j..]);
  }

  /** A description is valid UTF-8 that closes every fence it opens, and text without @code is only sanitised. */
  lemma DescriptionSound(desc: seq<Byte>)
    ensures
      var s := Sanitized(desc);
      var ps := Pieces(s, 0, false);
      && Valid(Rendered(ps)) && Balanced(ps, false)
      && ((forall k | 0 <= k < |s| :: !KeywordAt(s, k, CODE)) ==> Rendered(ps) == s)
  {
    var s := Sanitized(desc);
    SanitizedValid(desc);
    PiecesBalanced(s, 0, false);
    assert s[0..] == s && [] + s == s && [] + Pieces(s, 0, false) == Pieces(s, 0, false);
    hide Pieces, Sanitized, Balanced, KeywordAt, Valid;
    PiecesValid(s, 0, false, []);
    if forall k | 0 <= k < |s| :: !KeywordAt(s, k, CODE) {
      NothingToRewrite(s, 0, []);
    }
  }
}
