/**
 The shapes a reply may wrap its literal in: a code fence, an assertion, answer
 tags in running text. Which literal comes out is stated from the reply's own
 text, not through the unwrapping functions.
 */
module OutputShapes {
  import opened Wrappers
  import opened Bytes
  import opened PyGrammar
  import opened PyInverse
  import opened PyCanon
  import opened PyLiteral
  import opened OutputMatch

  // ---------------------------------------------------------------------
  // Both ends of a literal

  lemma {:induction false} TailEnds(tail: Tail, close: byte)
    ensures TailText(tail, close) != [] && TailText(tail, close)[|TailText(tail, close)| - 1] == close
  {
    match tail
    case End(ws) =>
    case TrailingComma(ws, blank) =>
    case More(ws, item, rest) =>
      TailEnds(rest, close);
      var front := ws + [COMMA] + ItemText(item);
      assert TailText(tail, close) == front + TailText(rest, close);
  }

  lemma ItemsEnd(items: Items, close: byte)
    ensures ItemsText(items, close) != [] && ItemsText(items, close)[|ItemsText(items, close)| - 1] == close
  {
    if items.Cons? {
      TailEnds(items.tail, close);
    }
  }

  lemma CoreEnds(c: Cst)
    requires Ok(c)
    ensures var t := Core(c); t != [] && Ordinary(t[0]) && Ordinary(t[|t| - 1])
  {
    hide PiecesText, ItemText, NumberLen, ItemsText, TailText;
    match c
    case Atom(_, tok) =>
      if IsNumber(tok) { NumberTokenBytes(tok); } else { KeywordLetters(tok); }
    case ListC(_, items) => ItemsEnd(items, RBRACKET);
    case Tup(_, first, after, items) =>
      ItemsEnd(items, RPAREN);
      assert Core(c) == ([LPAREN] + (first.ws + Core(first)) + after + [COMMA]) + ItemsText(items, RPAREN);
    case Braces(_, item, tail) =>
      TailEnds(tail, RBRACE);
      assert Core(c) == ([LBRACE] + ItemText(item)) + TailText(tail, RBRACE);
    case _ =>
  }

  /** A trimmed literal begins and ends with an ordinary byte. */
  lemma LiteralEnds(t: bytes)
    requires Denotes(t).Some? && Trim(t) == t
    ensures t != [] && Ordinary(t[0]) && Ordinary(t[|t| - 1])
  {
    hide Denotes, Core, Tree, Trim;
    DenotesSpelling(t, Denotes(t).value);
    var c, blank :| Ok(c) && Tree(c) == Denotes(t).value && AllBlank(blank) && Trim(t) == Text(c) + blank;
    CoreEnds(c);
    TrimKeepsTheMiddle(t);
    NoBlankEnds(c.ws, Core(c), blank);
  }

  lemma NoBlankEnds(ws: bytes, core: bytes, blank: bytes)
    requires AllBlank(ws) && AllBlank(blank) && core != []
    requires HeadBlank(ws + core + blank) == 0 && LastBlank(ws + core + blank) == 0
    ensures ws == [] && blank == []
  {
    Ends(ws, core + blank);
    Ends(ws + core, blank);
    assert ws + core + blank == ws + (core + blank);
  }

  // ---------------------------------------------------------------------
  // Trimming around ordinary bytes

  /** Blanks before an ordinary byte are cut, and nothing behind it is looked at. */
  lemma {:induction false} TrimLeftBefore(a: bytes, x: bytes)
    requires x != [] && Ordinary(x[0])
    ensures TrimLeft(a + x) == TrimLeft(a) + x
    decreases |a|
  {
    HeadBefore(a, x);
    if HeadBlank(a) == 0 {
    } else {
      var w := HeadBlank(a);
      assert (a + x)[w..] == a[w..] + x;
      TrimLeftBefore(a[w..], x);
    }
  }

  lemma HeadBefore(a: bytes, x: bytes)
    requires x != [] && Ordinary(x[0])
    ensures HeadBlank(a + x) == HeadBlank(a)
  {
    var t := a + x;
    assert |a| == 0 ==> t[0] == x[0];
    assert |a| == 1 ==> t[1] == x[0];
    assert |a| == 2 ==> t[2] == x[0];
  }

  lemma {:induction false} BlanksGo(ws: bytes)
    requires AllBlank(ws)
    ensures TrimLeft(ws) == []
    decreases |ws|
  {
    if ws != [] {
      BlanksGo(ws[1..]);
    }
  }

  /** A text between blanks, with ordinary ends, is what trimming leaves. */
  lemma TrimAround(ws: bytes, t: bytes, blank: bytes)
    requires AllBlank(ws) && blank in {[], [NEWLINE]}
    requires t != [] && Ordinary(t[0]) && Ordinary(t[|t| - 1])
    ensures Trim(ws + t + blank) == t
  {
    hide TrimLeft, TrimRight;
    var x := t + blank;
    assert ws + t + blank == ws + x;
    TrimLeftBefore(ws, x);
    BlanksGo(ws);
    assert [] + x == x;
    TrimRightOnce(t, blank);
  }

  lemma TrimRightOnce(t: bytes, blank: bytes)
    requires blank in {[], [NEWLINE]} && t != [] && Ordinary(t[|t| - 1])
    ensures TrimRight(t + blank) == t
  {
    var x := t + blank;
    assert LastBlank(t) == 0;
    if blank == [] {
      assert x == t;
    } else {
      assert LastBlank(x) == 1 && x[..|x| - 1] == t;
    }
  }

  // ---------------------------------------------------------------------
  // Searching across a byte that the pattern does not have

  lemma ByteUnder(s: bytes, pat: bytes, k: nat, i: nat)
    requires At(s, pat, k) && i < |s|
    ensures k <= i < k + |pat| ==> s[i] == pat[i - k]
  {
    if k <= i < k + |pat| {
      assert s[k..k + |pat|][i - k] == s[i];
    }
  }

  lemma AcrossByte(a: bytes, sep: byte, b: bytes, pat: bytes, k: nat)
    requires sep !in pat && pat != [] && At(a + [sep] + b, pat, k)
    ensures At(a, pat, k) || (k >= |a| + 1 && At(b, pat, k - |a| - 1))
  {
    var s := a + [sep] + b;
    ByteUnder(s, pat, k, |a|);
    if k + |pat| <= |a| {
      assert s[k..k + |pat|] == a[k..k + |pat|];
    } else {
      assert s[k..k + |pat|] == b[k - |a| - 1..k - |a| - 1 + |pat|];
    }
  }

  /** Around a byte it does not have, a pattern occurs exactly where it occurs in one of the sides. */
  lemma NowhereAcross(a: bytes, sep: byte, b: bytes, pat: bytes)
    requires sep !in pat && pat != []
    ensures IndexOf(a + [sep] + b, pat).None? <==> IndexOf(a, pat).None? && IndexOf(b, pat).None?
  {
    hide IndexFrom, At;
    var s := a + [sep] + b;
    if IndexOf(s, pat).Some? {
      AcrossByte(a, sep, b, pat, IndexOf(s, pat).value);
    }
    if IndexOf(a, pat).Some? {
      OccursBefore(a, [sep] + b, pat, IndexOf(a, pat).value);
      assert a + ([sep] + b) == s;
    }
    if IndexOf(b, pat).Some? {
      OccursBehind(a + [sep], b, pat, IndexOf(b, pat).value);
    }
  }

  lemma OccursBefore(a: bytes, b: bytes, pat: bytes, k: nat)
    requires At(a, pat, k)
    ensures At(a + b, pat, k)
  {
    assert (a + b)[k..k + |pat|] == a[k..k + |pat|];
  }

  lemma OccursBehind(a: bytes, b: bytes, pat: bytes, k: nat)
    requires At(b, pat, k)
    ensures At(a + b, pat, |a| + k)
  {
    assert (a + b)[|a| + k..|a| + k + |pat|] == b[k..k + |pat|];
  }

  lemma InFront(a: bytes, b: bytes, pat: bytes, k: nat)
    ensures k + |pat| <= |a| ==> (At(a + b, pat, k) <==> At(a, pat, k))
  {
    if k + |pat| <= |a| {
      assert (a + b)[k..k + |pat|] == a[k..k + |pat|];
    }
  }

  lemma SuffixHasNone(s: bytes, p: bytes, pat: bytes)
    requires |p| <= |s| && p == s[|s| - |p|..] && IndexOf(s, pat).None?
    ensures IndexOf(p, pat).None?
  {
    hide IndexFrom;
    assert s[..|s| - |p|] + p == s;
    if IndexOf(p, pat).Some? {
      OccursBehind(s[..|s| - |p|], p, pat, IndexOf(p, pat).value);
    }
  }

  /** Once a tag is found, what is extracted comes from behind it. */
  lemma TagCuts(answer: bytes, k: nat, t: bytes)
    requires IndexOf(Trim(answer), OPEN_TAG) == Some(k) && |Trim(answer)| - k - 8 < |t|
    ensures Extract(answer) != Some(t)
  {
    hide Trim, IndexFrom, Unfence, AfterDoubleEq;
    var s := Trim(answer);
    var rest := s[k + |OPEN_TAG|..];
    var cut := match IndexOf(rest, CLOSE_TAG) case None => rest case Some(e) => rest[..e];
    TrimShortens(cut);
    assert Untag(s) == Trim(cut) && |Untag(s)| < |t|;
    UnwrapShortens(Untag(s));
    if Unfence(Untag(s)).Some? {
      UnwrapShortens(Unfence(Untag(s)).value);
    }
  }

  // ---------------------------------------------------------------------
  // A code fence

  const TICKS: bytes := [96, 96, 96]

  function Fenced(lang: bytes, t: bytes): bytes {
    TICKS + lang + [NEWLINE] + t + [NEWLINE] + TICKS
  }

  /** What may stand on the opening line: blanks, or one word, which a backtick would end. */
  predicate OneWord(lang: bytes) {
    && 96 !in lang && NEWLINE !in lang
    && (AllBlank(lang) || (Trim(lang) != [] && SPACE !in Trim(lang) && TAB !in Trim(lang)))
  }

  lemma NoTicks(s: bytes)
    requires 96 !in s
    ensures IndexOf(s, TICKS).None?
  {
    hide IndexFrom;
    if IndexOf(s, TICKS).Some? {
      var k := IndexOf(s, TICKS).value;
      ByteUnder(s, TICKS, k, k);
    }
  }

  /** The closing fence is the first one behind the opening. */
  lemma FirstFence(inner: bytes)
    requires IndexOf(inner + [NEWLINE], TICKS).None?
    ensures IndexOf(inner + [NEWLINE] + TICKS, TICKS) == Some(|inner| + 1)
  {
    hide IndexFrom;
    var s, n := inner + [NEWLINE] + TICKS, |inner| + 1;
    assert s[n..n + 3] == TICKS;
    assert At(s, TICKS, n);
    var k := IndexOf(s, TICKS).value;
    AcrossByte(inner, NEWLINE, TICKS, TICKS, k);
    if k < n {
      OccursBefore(inner, [NEWLINE], TICKS, k);
    }
  }

  lemma FirstNewline(lang: bytes, rest: bytes)
    requires NEWLINE !in lang
    ensures IndexOf(lang + [NEWLINE] + rest, [NEWLINE]) == Some(|lang|)
  {
    hide IndexFrom;
    var s := lang + [NEWLINE] + rest;
    assert s[|lang|..|lang| + 1] == [NEWLINE];
    assert At(s, [NEWLINE], |lang|);
    assert forall j | 0 <= j < |lang| :: s[j] == lang[j];
    var k := IndexOf(s, [NEWLINE]).value;
    ByteUnder(s, [NEWLINE], k, k);
  }

  /** Inside the fence: the opening line goes, and the blanks around the literal. */
  lemma InsideFence(lang: bytes, t: bytes)
    requires OneWord(lang) && t != [] && Ordinary(t[0]) && Ordinary(t[|t| - 1])
    ensures Trim(DropLanguage(lang + [NEWLINE] + t + [NEWLINE])) == t
  {
    hide Trim, IndexFrom;
    var inner := lang + [NEWLINE] + (t + [NEWLINE]);
    assert lang + [NEWLINE] + t + [NEWLINE] == inner;
    FirstNewline(lang, t + [NEWLINE]);
    assert inner[..|lang|] == lang && inner[|lang| + 1..] == t + [NEWLINE];
    assert Contains(Trim(lang), SPACE) <==> SPACE in Trim(lang);
    assert Contains(Trim(lang), TAB) <==> TAB in Trim(lang);
    assert [] + t + [NEWLINE] == t + [NEWLINE];
    TrimAround([], t, [NEWLINE]);
    if AllBlank(lang) {
      BlankIsTrimmed(lang);
      TrimAround(lang + [NEWLINE], t, [NEWLINE]);
    }
  }

  lemma BlankIsTrimmed(ws: bytes)
    requires AllBlank(ws)
    ensures Trim(ws) == []
  {
    hide TrimLeft;
    BlanksGo(ws);
  }

  lemma FenceOpens(lang: bytes, t: bytes)
    requires 96 !in lang && IndexOf(t, TICKS).None?
    ensures var s, inner := Fenced(lang, t), lang + [NEWLINE] + t + [NEWLINE];
      && FENCE <= s && IndexOf(s[3..], FENCE) == Some(|inner|) && s[3..3 + |inner|] == inner && s[3 + |inner| + 3..] == []
  {
    hide IndexFrom, Trim;
    var s, inner := Fenced(lang, t), lang + [NEWLINE] + t + [NEWLINE];
    NoTicks(lang);
    NoTicks([]);
    NowhereAcross(lang, NEWLINE, t, TICKS);
    NowhereAcross(lang + [NEWLINE] + t, NEWLINE, [], TICKS);
    assert lang + [NEWLINE] + t + [NEWLINE] + [] == inner;
    FirstFence(lang + [NEWLINE] + t);
    assert s == TICKS + (inner + TICKS);
    assert s[3..] == inner + TICKS;
  }

  /** The answer tag occurs in a fenced reply exactly when it occurs in the opening line or in the literal. */
  lemma FenceTags(lang: bytes, t: bytes)
    ensures IndexOf(Fenced(lang, t), OPEN_TAG).None? <==> IndexOf(lang, OPEN_TAG).None? && IndexOf(t, OPEN_TAG).None?
  {
    hide IndexFrom;
    var front := TICKS + lang;
    NowhereAcross(front, NEWLINE, t + [NEWLINE] + TICKS, OPEN_TAG);
    NowhereAcross(t, NEWLINE, TICKS, OPEN_TAG);
    assert front + [NEWLINE] + (t + [NEWLINE] + TICKS) == Fenced(lang, t);
    TicksBefore(lang);
  }

  lemma TicksBefore(s: bytes)
    ensures IndexOf(TICKS + s, OPEN_TAG).None? <==> IndexOf(s, OPEN_TAG).None?
  {
    hide IndexFrom;
    var x := TICKS + s;
    if IndexOf(x, OPEN_TAG).Some? {
      var k := IndexOf(x, OPEN_TAG).value;
      ByteUnder(x, OPEN_TAG, k, k);
      assert x[k..k + 8] == s[k - 3..k - 3 + 8];
      assert At(s, OPEN_TAG, k - 3);
    }
    if IndexOf(s, OPEN_TAG).Some? {
      OccursBehind(TICKS, s, OPEN_TAG, IndexOf(s, OPEN_TAG).value);
    }
  }

  /**
   A literal in a code fence, with no language or one word on the opening line, is extracted whole exactly when
   it does not hold the answer tag.
   */
  lemma FencedLiteral(lang: bytes, t: bytes)
    requires Denotes(t).Some? && Trim(t) == t && IndexOf(t, TICKS).None?
    requires OneWord(lang) && IndexOf(lang, OPEN_TAG).None?
    ensures Extract(Fenced(lang, t)) == Some(t) <==> IndexOf(t, OPEN_TAG).None?
  {
    hide Denotes, Trim, IndexFrom, AfterDoubleEq, DropLanguage;
    var s := Fenced(lang, t);
    OrdinaryEnds(s);
    LiteralEnds(t);
    FenceTags(lang, t);
    if IndexOf(t, OPEN_TAG).None? {
      FenceOpens(lang, t);
      InsideFence(lang, t);
      TrimNothing();
      assert Unfence(s) == Some(t);
      LiteralUnwraps(t);
    } else {
      var k := IndexOf(s, OPEN_TAG).value;
      TagBehindLine(lang, t, k);
      TagCuts(s, k, t);
    }
  }

  lemma TrimNothing()
    ensures Trim([]) == []
  {
  }

  lemma TagBehindLine(lang: bytes, t: bytes, k: nat)
    requires IndexOf(lang, OPEN_TAG).None? && IndexOf(Fenced(lang, t), OPEN_TAG) == Some(k)
    ensures k >= |lang| + 4
  {
    hide IndexFrom;
    var front, back := TICKS + lang, t + [NEWLINE] + TICKS;
    assert front + [NEWLINE] + back == Fenced(lang, t);
    AcrossByte(front, NEWLINE, back, OPEN_TAG, k);
    TicksBefore(lang);
  }

  /** Such a reply scores by the literal's value alone. */
  lemma FencedVerdict(expected: bytes, lang: bytes, t: bytes)
    requires Denotes(expected).Some? && Denotes(t).Some? && Trim(t) == t && IndexOf(t, TICKS).None?
    requires OneWord(lang) && IndexOf(lang, OPEN_TAG).None? && IndexOf(t, OPEN_TAG).None?
    ensures Verdict(expected, Fenced(lang, t)) == Some(1.0) <==> Equiv(Denotes(t).value, Denotes(expected).value)
  {
    hide Denotes, Trim, Equiv, Extract, Canon, OneWord;
    FencedLiteral(lang, t);
    VerdictMeaning(expected, Fenced(lang, t));
  }

  /** An opening line of several words is kept: with neither a quote nor "=" on it, it spoils the literal. */
  lemma PhraseStays(lang: bytes, t: bytes)
    requires Denotes(t).Some? && Trim(t) == t && IndexOf(t, TICKS).None? && IndexOf(t, OPEN_TAG).None?
    requires 96 !in lang && NEWLINE !in lang && IndexOf(lang, OPEN_TAG).None? && SQUOTE !in lang && DQUOTE !in lang && EQUALS !in lang
    requires Trim(lang) == lang != [] && (SPACE in lang || TAB in lang)
    ensures Extract(Fenced(lang, t)) == Some(lang + [NEWLINE] + t)
  {
    hide Denotes, Trim, IndexFrom, Calm;
    var s, inner, u := Fenced(lang, t), lang + [NEWLINE] + t + [NEWLINE], lang + [NEWLINE] + t;
    OrdinaryEnds(s);
    LiteralEnds(t);
    FenceTags(lang, t);
    FenceOpens(lang, t);
    TrimNothing();
    FirstNewline(lang, t + [NEWLINE]);
    assert lang + [NEWLINE] + (t + [NEWLINE]) == inner;
    assert inner[..|lang|] == lang;
    assert Contains(lang, SPACE) || Contains(lang, TAB);
    PhraseTrims(lang, t);
    assert Unfence(s) == Some(u);
    LineIsCalm(lang, t);
    CalmHasNoDoubleEq(u);
  }

  lemma PhraseTrims(lang: bytes, t: bytes)
    requires Trim(lang) == lang != [] && t != [] && Ordinary(t[|t| - 1])
    ensures Trim(lang + [NEWLINE] + t + [NEWLINE]) == lang + [NEWLINE] + t
  {
    hide TrimLeft, TrimRight, Trim;
    var u := lang + [NEWLINE] + t;
    TrimKeepsTheMiddle(lang);
    TrimRightOnce(u, [NEWLINE]);
    HeadStays(lang, [NEWLINE] + t + [NEWLINE]);
    assert lang + ([NEWLINE] + t + [NEWLINE]) == u + [NEWLINE];
    TrimSteps(u + [NEWLINE]);
  }

  lemma TrimSteps(s: bytes)
    requires HeadBlank(s) == 0
    ensures Trim(s) == TrimRight(s)
  {
    hide TrimRight, HeadBlank;
  }

  /** What follows by a byte below 128 does not turn the front into a blank. */
  lemma HeadStays(a: bytes, x: bytes)
    requires a != [] && HeadBlank(a) == 0 && x != [] && x[0] < 128
    ensures HeadBlank(a + x) == 0
  {
    var t := a + x;
    assert |a| == 1 ==> t[1] == x[0];
    assert |a| == 2 ==> t[2] == x[0];
  }

  lemma LineIsCalm(lang: bytes, t: bytes)
    requires Denotes(t).Some? && Trim(t) == t && SQUOTE !in lang && DQUOTE !in lang && EQUALS !in lang
    ensures Calm(lang + [NEWLINE] + t)
  {
    hide Denotes, Trim, Calm;
    var front := lang + [NEWLINE];
    forall i | 0 <= i < |front| ensures !IsQuote(front[i]) && front[i] != EQUALS {
      assert front[i] == NEWLINE || front[i] in lang;
    }
    PlainIsCalm(front);
    LiteralIsCalm(t);
    CalmConcat(front, t);
  }

  lemma LiteralIsCalm(t: bytes)
    requires Denotes(t).Some?
    ensures Calm(Trim(t))
  {
    hide Calm, Tree, Ok, Core, Trim, Parse, Denotes;
    DenotesSpelling(t, Denotes(t).value);
    var c, blank :| Ok(c) && Tree(c) == Denotes(t).value && AllBlank(blank) && Trim(t) == Text(c) + blank;
    TextIsCalm(c);
    BlankIsCalm(blank);
    CalmConcat(Text(c), blank);
  }

  /** A fence that is never closed, or has something behind its first closing, gives nothing, and a known case scores 0. */
  lemma FenceFails(expected: bytes, answer: bytes)
    requires Denotes(expected).Some? && TICKS <= Trim(answer) && IndexOf(Trim(answer), OPEN_TAG).None?
    ensures var close := IndexOf(Trim(answer)[3..], TICKS);
      close.None? || Trim(Trim(answer)[3 + close.value + 3..]) != [] ==>
        Extract(answer) == None && Verdict(expected, answer) == Some(0.0)
  {
    hide Trim, IndexFrom, DropLanguage, AfterDoubleEq, Denotes, Canon;
    assert FENCE == TICKS;
  }

  // ---------------------------------------------------------------------
  // An assertion

  /** What follows "==" is extracted, whatever stands before it without a quote or "=", exactly when it does not hold the answer tag. */
  lemma AssertedLiteral(prefix: bytes, ws: bytes, t: bytes)
    requires Denotes(t).Some? && Trim(t) == t && AllBlank(ws)
    requires SQUOTE !in prefix && DQUOTE !in prefix && EQUALS !in prefix
    requires IndexOf(prefix, OPEN_TAG).None? && IndexOf(prefix, TICKS).None?
    ensures Extract(prefix + [61, 61] + ws + t) == Some(t) <==> IndexOf(t, OPEN_TAG).None?
  {
    hide *;
    var answer, p := prefix + [61, 61] + ws + t, TrimLeft(prefix);
    var s := p + [61, 61] + ws + t;
    LiteralEnds(t);
    AssertionTrims(prefix, ws, t);
    FrontBytes(prefix, p);
    AssertionTags(prefix, p, ws, t);
    if IndexOf(t, OPEN_TAG).None? {
      Cat4(p, [61, 61], ws, t);
      Cat3([61, 61], ws, t);
      NoFenceInFront(prefix, p, [61, 61] + ws + t);
      AfterAssertion(p, ws, t);
      PlainExtract(answer, t);
    } else {
      TagCuts(answer, IndexOf(s, OPEN_TAG).value, t);
    }
  }

  lemma FrontBytes(prefix: bytes, p: bytes)
    requires SQUOTE !in prefix && DQUOTE !in prefix && EQUALS !in prefix && |p| <= |prefix| && p == prefix[|prefix| - |p|..]
    ensures SQUOTE !in p && DQUOTE !in p && EQUALS !in p
  {
    assert forall i | 0 <= i < |p| :: p[i] in prefix;
  }

  lemma PlainExtract(answer: bytes, t: bytes)
    requires var s := Trim(answer);
      s != [] && IndexOf(s, OPEN_TAG).None? && Unfence(s) == Some(s) && AfterDoubleEq(s) == t && t != []
    ensures Extract(answer) == Some(t)
  {
    hide Trim, IndexFrom, Unfence, AfterDoubleEq;
  }

  lemma AssertionTrims(prefix: bytes, ws: bytes, t: bytes)
    requires t != [] && Ordinary(t[|t| - 1])
    ensures Trim(prefix + [61, 61] + ws + t) == TrimLeft(prefix) + [61, 61] + ws + t
  {
    hide *;
    var x := [61, 61] + ws + t;
    Cat3([61, 61], ws, t);
    Ends([61, 61], ws + t);
    Ends([61, 61] + ws, t);
    EqualsIsOrdinary();
    TrimsBefore(prefix, x);
    Cat4(prefix, [61, 61], ws, t);
    Cat4(TrimLeft(prefix), [61, 61], ws, t);
  }

  lemma TrimsBefore(a: bytes, x: bytes)
    requires x != [] && Ordinary(x[0]) && Ordinary(x[|x| - 1])
    ensures Trim(a + x) == TrimLeft(a) + x
  {
    hide TrimLeft, TrimRight, LastBlank, Ordinary;
    TrimLeftBefore(a, x);
    Ends(TrimLeft(a), x);
    var y := TrimLeft(a) + x;
    assert y + [] == y;
    TrimRightOnce(y, []);
  }

  lemma EqualsIsOrdinary()
    ensures Ordinary(61)
  {
  }

  /** In the trimmed assertion the answer tag occurs exactly when it occurs in the literal, and then behind the "==". */
  lemma AssertionTags(prefix: bytes, p: bytes, ws: bytes, t: bytes)
    requires AllBlank(ws) && IndexOf(prefix, OPEN_TAG).None? && |p| <= |prefix| && p == prefix[|prefix| - |p|..]
    ensures var s := p + [61, 61] + ws + t;
      && (IndexOf(s, OPEN_TAG).None? <==> IndexOf(t, OPEN_TAG).None?)
      && (IndexOf(s, OPEN_TAG).Some? ==> IndexOf(s, OPEN_TAG).value >= |p| + |ws| + 2)
  {
    hide IndexFrom;
    var s, back := p + [61, 61] + ws + t, [] + [EQUALS] + (ws + t);
    assert s == p + [EQUALS] + back;
    SuffixHasNone(prefix, p, OPEN_TAG);
    NowhereAcross(p, EQUALS, back, OPEN_TAG);
    NowhereAcross([], EQUALS, ws + t, OPEN_TAG);
    if IndexOf(s, OPEN_TAG).Some? {
      var k := IndexOf(s, OPEN_TAG).value;
      AcrossByte(p, EQUALS, back, OPEN_TAG, k);
      AcrossByte([], EQUALS, ws + t, OPEN_TAG, k - |p| - 1);
      BlanksBefore(ws, t, k - |p| - 2);
    }
    if IndexOf(t, OPEN_TAG).Some? { OccursBehind(ws, t, OPEN_TAG, IndexOf(t, OPEN_TAG).value); }
  }

  lemma BlanksBefore(ws: bytes, t: bytes, k: nat)
    requires AllBlank(ws) && At(ws + t, OPEN_TAG, k)
    ensures k >= |ws| && At(t, OPEN_TAG, k - |ws|)
  {
    ByteUnder(ws + t, OPEN_TAG, k, k);
    assert k >= |ws|;
    assert (ws + t)[k..k + 8] == t[k - |ws|..k - |ws| + 8];
  }

  lemma NoFenceInFront(prefix: bytes, p: bytes, y: bytes)
    requires IndexOf(prefix, TICKS).None? && |p| <= |prefix| && p == prefix[|prefix| - |p|..] && y != [] && y[0] == 61
    ensures Unfence(p + y) == Some(p + y)
  {
    hide IndexFrom, Trim, DropLanguage;
    var s := p + y;
    assert s[|p|] == 61;
    SuffixHasNone(prefix, p, TICKS);
    InFront(p, y, TICKS, 0);
    assert FENCE <= s <==> At(s, TICKS, 0);
  }

  lemma AfterAssertion(p: bytes, ws: bytes, t: bytes)
    requires SQUOTE !in p && DQUOTE !in p && EQUALS !in p && AllBlank(ws)
    requires t != [] && Ordinary(t[0]) && Ordinary(t[|t| - 1])
    ensures AfterDoubleEq(p + [61, 61] + ws + t) == t
  {
    hide Trim, ScanAll;
    var s := p + [61, 61] + ws + t;
    forall i | 0 <= i < |p| ensures s[i] == p[i] && !IsQuote(p[i]) && p[i] != EQUALS { assert p[i] in p; }
    PlainIsCalm(p);
    assert s[..|p|] == p;
    assert DoubleEqAt(s, |p|);
    assert FirstDoubleEq(s, 0) == Some(|p|);
    assert s[|p| + 2..] == ws + t + [];
    TrimAround(ws, t, []);
  }

  // ---------------------------------------------------------------------
  // Answer tags in running text

  /** The first opening tag behind a text without one. */
  lemma FirstTag(pre: bytes, rest: bytes)
    requires IndexOf(pre, OPEN_TAG).None?
    ensures IndexOf(pre + OPEN_TAG + rest, OPEN_TAG) == Some(|pre|)
  {
    hide IndexFrom;
    var s := pre + OPEN_TAG + rest;
    assert s[|pre|..|pre| + 8] == OPEN_TAG;
    assert At(s, OPEN_TAG, |pre|);
    var k := IndexOf(s, OPEN_TAG).value;
    ByteUnder(s, OPEN_TAG, k, |pre|);
    assert s[|pre|] == OPEN_TAG[0];
    assert s == pre + (OPEN_TAG + rest);
    InFront(pre, OPEN_TAG + rest, OPEN_TAG, k);
  }

  /** Between the first opening tag and the closing tag, or to the end when it is missing, whatever the text around them. */
  lemma TagsInText(pre: bytes, t: bytes, post: bytes)
    requires Denotes(t).Some? && Trim(t) == t && IndexOf(t, CLOSE_TAG).None? && IndexOf(pre, OPEN_TAG).None?
    ensures var s := pre + OPEN_TAG + t; Trim(s) == s ==> Extract(s) == Some(t)
    ensures var s := pre + OPEN_TAG + t + CLOSE_TAG + post; Trim(s) == s ==> Extract(s) == Some(t)
  {
    hide Denotes, Trim, IndexFrom, Unfence, AfterDoubleEq;
    LiteralUnwraps(t);
    var s1 := pre + OPEN_TAG + t;
    FirstTag(pre, t);
    assert s1[|pre| + 8..] == t;
    var s2, rest := pre + OPEN_TAG + t + CLOSE_TAG + post, t + CLOSE_TAG + post;
    FirstTag(pre, rest);
    assert pre + OPEN_TAG + rest == s2;
    assert s2[|pre| + 8..] == rest;
    FirstClose(t, post);
    assert rest[..|t|] == t;
  }

  lemma FirstClose(t: bytes, post: bytes)
    requires IndexOf(t, CLOSE_TAG).None?
    ensures IndexOf(t + CLOSE_TAG + post, CLOSE_TAG) == Some(|t|)
  {
    hide IndexFrom;
    var s := t + CLOSE_TAG + post;
    assert s[|t|..|t| + 9] == CLOSE_TAG;
    assert At(s, CLOSE_TAG, |t|);
    var k := IndexOf(s, CLOSE_TAG).value;
    ByteUnder(s, CLOSE_TAG, k, |t|);
    assert s[|t|] == CLOSE_TAG[0];
    assert s == t + (CLOSE_TAG + post);
    InFront(t, CLOSE_TAG + post, CLOSE_TAG, k);
  }
}
