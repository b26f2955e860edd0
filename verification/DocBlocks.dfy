/** What the text rewriters do, said without their loops: abbreviations end no sentence, and a Doxygen code block
    becomes a Markdown fence with everything around it kept. */
module DocBlocks {
  import opened Prelude
  import opened Utf8s
  import opened DocTexts

  // ---------------------------------------------------------------------------
  // Words
  // ---------------------------------------------------------------------------

  predicate EndsWord(s: seq<Byte>) {
    s == [] || !IsWord(s[|s| - 1])
  }

  predicate StartsNoWord(s: seq<Byte>) {
    s == [] || !IsWord(s[0])
  }

  /** The dot after "e.g" or "i.e", where no word runs into it, ends no sentence; any other full stop, exclamation or
      question mark before a blank does. */
  lemma SentenceEnds(before: seq<Byte>, stop: Byte, after: seq<Byte>)
    requires after != []
    ensures
      EndsSentence(before + [stop] + after, |before|) <==>
      && (stop == 0x2E || stop == 0x21 || stop == 0x3F) && (after[0] == SPACE || after[0] == TAB)
      && !(stop == 0x2E && exists word :: EndsWord(word) && (before == word + EG || before == word + IE))
  {
    var line := before + [stop] + after;
    AbbreviationEnds(before, stop, after);
    assert line[|before|] == stop && line[|before| + 1] == after[0];
  }

  lemma AbbreviationEnds(before: seq<Byte>, stop: Byte, after: seq<Byte>)
    ensures
      EndsAbbreviation(before + [stop] + after, |before|) <==>
      exists word :: EndsWord(word) && (before == word + EG || before == word + IE)
  {
    if |before| >= 3 {
      Parted(before, stop, after);
    }
    if exists word :: EndsWord(word) && (before == word + EG || before == word + IE) {
      var word :| EndsWord(word) && (before == word + EG || before == word + IE);
      assert before[..|before| - 3] == word && (before == word + EG ==> before[|before| - 3..] == EG) &&
             (before == word + IE ==> before[|before| - 3..] == IE);
    }
    hide IsWord;
  }

  lemma Parted(before: seq<Byte>, stop: Byte, after: seq<Byte>)
    requires |before| >= 3
    ensures
      var (line, word) := (before + [stop] + after, before[..|before| - 3]);
      && before == word + before[|before| - 3..] && line[|before| - 3..|before|] == before[|before| - 3..]
      && (|before| > 3 ==> |word| > 0 && line[|before| - 4] == word[|word| - 1])
  {
  }

  /** A keyword stands where no word runs into it on either side. */
  lemma KeywordStands(before: seq<Byte>, word: seq<Byte>, after: seq<Byte>)
    ensures KeywordAt(before + word + after, |before|, word) <==> EndsWord(before) && StartsNoWord(after)
  {
    var s := before + word + after;
    assert s[|before|..|before| + |word|] == word;
    assert before != [] ==> s[|before| - 1] == before[|before| - 1];
    assert after != [] ==> s[|before| + |word|] == after[0];
  }

  // ---------------------------------------------------------------------------
  // Rewriting from left to right
  // ---------------------------------------------------------------------------

  /** The output after the pieces, from what was output before. */
  function Rest(out: seq<Byte>, ps: seq<Piece>): seq<Byte>
    decreases |ps|
  {
    if ps == [] then out else Rest(Emitted(out, ps[0]), ps[1..])
  }

  lemma {:induction false} RestRendered(emitted: seq<Piece>, ps: seq<Piece>)
    ensures Rendered(emitted + ps) == Rest(Rendered(emitted), ps)
    decreases |ps|
  {
    hide Emitted;
    if ps == [] {
      assert emitted + ps == emitted;
    } else {
      Appended(emitted, ps[0], ps[1..]);
      assert ps == [ps[0]] + ps[1..];
      RestRendered(emitted + [ps[0]], ps[1..]);
    }
  }

  lemma RestFirst(out: seq<Byte>, p: Piece, more: seq<Piece>)
    ensures Rest(out, [p] + more) == Rest(Emitted(out, p), more)
  {
    assert ([p] + more)[1..] == more;
  }

  function Keyword(inCode: bool): seq<Byte> {
    if inCode then ENDCODE else CODE
  }

  /** Up to the next keyword that counts, text is kept as it is. */
  lemma {:induction false} KeptUpTo(s: seq<Byte>, i: nat, j: nat, inCode: bool, out: seq<Byte>)
    requires i <= j <= |s| && forall k | i <= k < j :: !KeywordAt(s, k, Keyword(inCode))
    ensures Rest(out, Pieces(s, i, inCode)) == Rest(out + s[i..j], Pieces(s, j, inCode))
    decreases j - i
  {
    hide KeywordAt, Rest, Pieces, Keyword;
    if i == j {
      assert out + s[i..j] == out;
    } else {
      KeptOne(s, i, inCode);
      RestFirst(out, Kept(s[i]), Pieces(s, i + 1, inCode));
      KeptUpTo(s, i + 1, j, inCode, out + [s[i]]);
      assert out + [s[i]] + s[i + 1..j] == out + s[i..j];
    }
  }

  lemma KeptOne(s: seq<Byte>, i: nat, inCode: bool)
    requires i < |s| && !KeywordAt(s, i, Keyword(inCode))
    ensures Pieces(s, i, inCode) == [Kept(s[i])] + Pieces(s, i + 1, inCode)
  {
    hide KeywordAt, Opening;
  }

  // ---------------------------------------------------------------------------
  // A block
  // ---------------------------------------------------------------------------

  /** What follows a block goes on a line of its own. */
  function NextLine(after: seq<Byte>): seq<Byte> {
    var rest := after[IndexFrom(after, 0, NotSpace)..];
    if rest != [] && rest[0] != NEWLINE then [NEWLINE] + rest else rest
  }

  /** `@code{.lang}`, a newline, the body, and `@endcode`. */
  function Block(lang: seq<Byte>, body: seq<Byte>): seq<Byte> {
    Head(lang) + body + ENDCODE
  }

  function Head(lang: seq<Byte>): seq<Byte> {
    CODE + [OPEN_BRACE, DOT] + lang + [CLOSE_BRACE, NEWLINE]
  }

  lemma {:induction false} IndexIs(s: seq<Byte>, i: nat, k: nat, test: Byte -> bool)
    requires i <= k <= |s| && (forall j | i <= j < k :: !test(s[j])) && (k < |s| ==> test(s[k]))
    ensures IndexFrom(s, i, test) == k
  {
    var r := IndexFrom(s, i, test);
    assert r < |s| ==> test(s[r]);
    assert !(r < k) && !(k < r);
  }

  lemma HeadOpens(before: seq<Byte>, lang: seq<Byte>, more: seq<Byte>)
    requires EndsWord(before) && forall c | c in lang :: InLanguage(c)
    ensures
      var s := before + (Head(lang) + more);
      KeywordAt(s, |before|, CODE) && Opening(s, |before|) == (lang, |before| + |Head(lang)|)
  {
    var s := before + (Head(lang) + more);
    HeadKeyword(before, lang, more);
    var close := |before| + |CODE| + 2 + |lang|;
    IndexIs(s, close + 1, close + 1, NotSpace);
    hide KeywordAt, Braces, IndexFrom, EndsWord, InLanguage;
  }

  lemma HeadKeyword(before: seq<Byte>, lang: seq<Byte>, more: seq<Byte>)
    requires EndsWord(before) && forall c | c in lang :: InLanguage(c)
    ensures
      var (s, close) := (before + (Head(lang) + more), |before| + |CODE| + 2 + |lang|);
      && KeywordAt(s, |before|, CODE) && Braces(s, |before| + |CODE|) == (lang, close + 1)
      && close + 1 < |s| && s[close + 1] == NEWLINE
  {
    var tail := [OPEN_BRACE, DOT] + lang + [CLOSE_BRACE, NEWLINE] + more;
    KeywordStands(before, CODE, tail);
    HeadBraces(before + CODE, lang, more);
    hide KeywordAt, Braces, IndexFrom, EndsWord, InLanguage;
    assert before + CODE + tail == before + (Head(lang) + more);
    assert tail[2 + |lang| + 1] == NEWLINE;
  }

  lemma HeadBraces(front: seq<Byte>, lang: seq<Byte>, more: seq<Byte>)
    requires forall c | c in lang :: InLanguage(c)
    ensures
      var s := front + ([OPEN_BRACE, DOT] + lang + [CLOSE_BRACE, NEWLINE] + more);
      Braces(s, |front|) == (lang, |front| + 2 + |lang| + 1)
  {
    var s := front + ([OPEN_BRACE, DOT] + lang + [CLOSE_BRACE, NEWLINE] + more);
    var close := |front| + 2 + |lang|;
    assert s[|front|] == OPEN_BRACE && s[|front| + 1] == DOT && s[close] == CLOSE_BRACE;
    forall j | |front| <= j < close ensures !ClosesBrace(s[j]) {
      if j >= |front| + 2 {
        assert s[j] == lang[j - |front| - 2] && s[j] in lang;
      }
    }
    IndexIs(s, |front|, close, ClosesBrace);
    assert s[|front| + 1..close] == [DOT] + lang;
    assert ([DOT] + lang)[1..] == lang;
  }

  /** The block's end is at e, and what follows it is what goes on the next line. */
  ghost predicate Closes(s: seq<Byte>, e: nat, after: seq<Byte>) {
    e < |s| && KeywordAt(s, e, ENDCODE) && Gap(s, AfterEnd(s, e)) + s[AfterEnd(s, e)..] == NextLine(after)
  }

  function AfterEnd(s: seq<Byte>, e: nat): (j: nat)
    ensures j <= |s|
  {
    if e + |ENDCODE| <= |s| then IndexFrom(s, e + |ENDCODE|, NotSpace) else |s|
  }

  function Gap(s: seq<Byte>, j: nat): seq<Byte> {
    if j < |s| && s[j] != NEWLINE then [NEWLINE] else []
  }

  lemma TailCloses(front: seq<Byte>, after: seq<Byte>)
    requires EndsWord(front) && StartsNoWord(after)
    ensures Closes(front + ENDCODE + after, |front|, after)
  {
    KeywordStands(front, ENDCODE, after);
    EndLong();
    hide KeywordAt, IndexFrom, NotSpace, EndsWord, StartsNoWord, ENDCODE;
    TailIndex(front + ENDCODE, after);
    assert |front + ENDCODE| == |front| + |ENDCODE|;
  }

  lemma EndLong()
    ensures |ENDCODE| == 8
  {
  }

  lemma TailIndex(front: seq<Byte>, after: seq<Byte>)
    ensures
      var (s, k) := (front + after, IndexFrom(after, 0, NotSpace));
      IndexFrom(s, |front|, NotSpace) == |front| + k && s[|front| + k..] == after[k..]
  {
    var (s, k) := (front + after, IndexFrom(after, 0, NotSpace));
    hide NotSpace, IndexFrom;
    forall x | |front| <= x < |s| ensures s[x] == after[x - |front|] {}
    IndexIs(s, |front|, |front| + k, NotSpace);
  }

  /** The text with a block in it. */
  function Around(before: seq<Byte>, lang: seq<Byte>, body: seq<Byte>, after: seq<Byte>): seq<Byte> {
    before + Block(lang, body) + after
  }

  /** No other keyword counts: none opens a block outside this one, and none closes it early. */
  ghost predicate Lone(s: seq<Byte>, i: nat, b: nat, e: nat) {
    && (forall k: nat | k < i :: !KeywordAt(s, k, CODE))
    && (forall k | b <= k < e :: !KeywordAt(s, k, ENDCODE))
    && (forall k | e + |ENDCODE| <= k < |s| :: !KeywordAt(s, k, CODE))
  }

  /** The text so far with a fence opened on a line of its own. */
  function Opened(out: seq<Byte>, lang: seq<Byte>): seq<Byte> {
    LineStarted(out) + FENCE + lang + [NEWLINE]
  }

  /** And closed, with what follows on the next line. */
  function Shut(out: seq<Byte>, after: seq<Byte>): seq<Byte> {
    LineStarted(out) + FENCE + NextLine(after)
  }

  /** A code block becomes a fence with its language and its body, what is before it is kept, and so is what is after
      it, each on lines of its own. */
  lemma BlockBecomesFence(before: seq<Byte>, lang: seq<Byte>, body: seq<Byte>, after: seq<Byte>)
    requires EndsWord(before) && EndsWord(body) && StartsNoWord(after) && forall c | c in lang :: InLanguage(c)
    requires Lone(Around(before, lang, body, after), |before|, |before| + |Head(lang)|, |before| + |Head(lang)| + |body|)
    ensures
      Rendered(Pieces(Around(before, lang, body, after), 0, false)) == Shut(Opened(before, lang) + body, after)
  {
    hide KeywordAt, Opening, Rendered, Pieces, Head, Around, Lone, EndsWord, StartsNoWord, InLanguage, Closes, Opened;
    hide Shut, CODE, ENDCODE, FENCE;
    var s := Around(before, lang, body, after);
    var (b, e) := (|before| + |Head(lang)|, |before| + |Head(lang)| + |body|);
    BlockStarts(before, lang, body, after);
    BlockStops(before, lang, body, after);
    CloseInside(s, e, after);
    BlockRuns(s, |before|, b, e, lang, after);
  }

  lemma BlockStarts(before: seq<Byte>, lang: seq<Byte>, body: seq<Byte>, after: seq<Byte>)
    requires EndsWord(before) && forall c | c in lang :: InLanguage(c)
    ensures
      var (s, b) := (Around(before, lang, body, after), |before| + |Head(lang)|);
      && |before| < b <= b + |body| < |s| && KeywordAt(s, |before|, CODE) && Opening(s, |before|) == (lang, b)
      && s[..|before|] == before && s[b..b + |body|] == body
  {
    HeadOpens(before, lang, body + ENDCODE + after);
    HeadLong(lang);
    hide KeywordAt, Opening, Head, EndsWord, InLanguage;
    BlockParts(before, Head(lang), body, ENDCODE, after);
  }

  lemma HeadLong(lang: seq<Byte>)
    ensures |Head(lang)| > 0
  {
  }

  lemma BlockStops(before: seq<Byte>, lang: seq<Byte>, body: seq<Byte>, after: seq<Byte>)
    requires EndsWord(body) && StartsNoWord(after)
    ensures Closes(Around(before, lang, body, after), |before| + |Head(lang)| + |body|, after)
  {
    hide Closes, Head, EndsWord, StartsNoWord, ENDCODE;
    FrontEnds(before, lang, body);
    TailCloses(before + Head(lang) + body, after);
    BlockParts(before, Head(lang), body, ENDCODE, after);
  }

  lemma CloseInside(s: seq<Byte>, e: nat, after: seq<Byte>)
    requires Closes(s, e, after)
    ensures e < |s|
  {
    hide KeywordAt, NextLine;
  }

  lemma BlockRuns(s: seq<Byte>, i: nat, b: nat, e: nat, lang: seq<Byte>, after: seq<Byte>)
    requires i < b <= e < |s| && KeywordAt(s, i, CODE) && Opening(s, i) == (lang, b) && Closes(s, e, after) &&
      Lone(s, i, b, e)
    ensures Rendered(Pieces(s, 0, false)) == Shut(Opened(s[..i], lang) + s[b..e], after)
  {
    hide Opening, Rendered, Pieces, Rest, KeywordAt, Opened, Shut;
    UpToBlock(s, i);
    InBlock(s, i, b, e, lang, s[..i]);
    PastBlock(s, e, Opened(s[..i], lang) + s[b..e], after);
  }

  lemma BlockParts(before: seq<Byte>, head: seq<Byte>, body: seq<Byte>, end: seq<Byte>, after: seq<Byte>)
    ensures
      var (s, front) := (before + (head + body + end) + after, before + head + body);
      && s == before + (head + (body + end + after)) && s == front + end + after
      && s[..|before|] == before && s[|before| + |head|..|front|] == body
  {
  }

  lemma FrontEnds(before: seq<Byte>, lang: seq<Byte>, body: seq<Byte>)
    requires EndsWord(body)
    ensures EndsWord(before + Head(lang) + body)
  {
    var front := before + Head(lang) + body;
    if body == [] {
      assert front[|front| - 1] == NEWLINE;
    } else {
      assert front[|front| - 1] == body[|body| - 1];
    }
  }

  lemma UpToBlock(s: seq<Byte>, i: nat)
    requires i <= |s| && forall k: nat | k < i :: !KeywordAt(s, k, CODE)
    ensures Rendered(Pieces(s, 0, false)) == Rest(s[..i], Pieces(s, i, false))
  {
    FromStart(s);
    KeptUpTo(s, 0, i, false, []);
    assert [] + s[0..i] == s[..i];
    hide Rendered, Rest, Pieces, KeywordAt;
  }

  lemma InBlock(s: seq<Byte>, i: nat, b: nat, e: nat, lang: seq<Byte>, out: seq<Byte>)
    requires i < b <= e < |s| && KeywordAt(s, i, CODE) && Opening(s, i) == (lang, b)
    requires forall k | b <= k < e :: !KeywordAt(s, k, ENDCODE)
    ensures Rest(out, Pieces(s, i, false)) == Rest(Opened(out, lang) + s[b..e], Pieces(s, e, true))
  {
    OpensBlock(s, i, b, lang);
    EmitsOpen(out, lang);
    hide Pieces, Rest, Emitted, Opening, KeywordAt, Opened;
    RestFirst(out, Open(lang), Pieces(s, b, true));
    KeptUpTo(s, b, e, true, Opened(out, lang));
  }

  lemma EmitsOpen(out: seq<Byte>, lang: seq<Byte>)
    ensures Emitted(out, Open(lang)) == Opened(out, lang)
  {
    hide LineStarted;
    var line := LineStarted(out);
    assert line + (FENCE + lang + [NEWLINE]) == line + FENCE + lang + [NEWLINE];
  }

  lemma PastBlock(s: seq<Byte>, e: nat, out: seq<Byte>, after: seq<Byte>)
    requires Closes(s, e, after) && forall k | e + |ENDCODE| <= k < |s| :: !KeywordAt(s, k, CODE)
    ensures Rest(out, Pieces(s, e, true)) == Shut(out, after)
  {
    var j := AfterEnd(s, e);
    var close := Close(j < |s| && s[j] != NEWLINE);
    ClosesBlock(s, e);
    EmitsClose(s, j, out);
    hide Pieces, Rest, Emitted, NextLine, LineStarted, KeywordAt, Gap;
    RestFirst(out, close, Pieces(s, j, false));
    KeptUpTo(s, j, |s|, false, Emitted(out, close));
    Ends(s, Emitted(out, close) + s[j..|s|]);
  }

  lemma EmitsClose(s: seq<Byte>, j: nat, out: seq<Byte>)
    requires j <= |s|
    ensures Emitted(out, Close(j < |s| && s[j] != NEWLINE)) + s[j..] == LineStarted(out) + FENCE + (Gap(s, j) + s[j..])
  {
    hide LineStarted;
    assert LineStarted(out) + (FENCE + Gap(s, j)) + s[j..] == LineStarted(out) + FENCE + (Gap(s, j) + s[j..]);
  }

  lemma OpensBlock(s: seq<Byte>, i: nat, b: nat, lang: seq<Byte>)
    requires i < b <= |s| && KeywordAt(s, i, CODE) && Opening(s, i) == (lang, b)
    ensures Pieces(s, i, false) == [Open(lang)] + Pieces(s, b, true)
  {
    hide Opening;
  }

  lemma ClosesBlock(s: seq<Byte>, e: nat)
    requires e < |s| && KeywordAt(s, e, ENDCODE)
    ensures var j := AfterEnd(s, e); Pieces(s, e, true) == [Close(j < |s| && s[j] != NEWLINE)] + Pieces(s, j, false)
    ensures AfterEnd(s, e) >= e + |ENDCODE|
  {
    hide Opening;
  }

  lemma FromStart(s: seq<Byte>)
    ensures Rendered(Pieces(s, 0, false)) == Rest([], Pieces(s, 0, false))
  {
    RestRendered([], Pieces(s, 0, false));
    assert [] + Pieces(s, 0, false) == Pieces(s, 0, false);
    hide Pieces, Rest;
  }

  lemma Ends(s: seq<Byte>, out: seq<Byte>)
    ensures Rest(out, Pieces(s, |s|, false)) == out
  {
  }

  /** A line that is complete stays as it is; otherwise blanks at its end give way to a newline. */
  lemma {:induction false} LineStands(out: seq<Byte>, blanks: seq<Byte>)
    requires (out == [] || NotSpace(out[|out| - 1])) && forall c | c in blanks :: !NotSpace(c)
    ensures LineStarted(out + blanks) == if out == [] || out[|out| - 1] == NEWLINE then out else out + [NEWLINE]
    decreases |blanks|
  {
    BlanksGo(out, blanks);
  }

  lemma {:induction false} BlanksGo(out: seq<Byte>, blanks: seq<Byte>)
    requires (out == [] || NotSpace(out[|out| - 1])) && forall c | c in blanks :: !NotSpace(c)
    ensures WithoutSpaces(out + blanks) == out
    decreases |blanks|
  {
    if blanks == [] {
      assert out + blanks == out;
    } else {
      var last := |blanks| - 1;
      assert (out + blanks)[|out + blanks| - 1] == blanks[last] && blanks[last] in blanks;
      assert (out + blanks)[..|out + blanks| - 1] == out + blanks[..last];
      BlanksGo(out, blanks[..last]);
    }
  }
}
