/**
 Scoring an output prediction: pull one literal out of the reply and compare
 it with the expected one by canonical text.
 */
module OutputMatch {
  import opened Wrappers
  import opened Bytes
  import opened PyGrammar
  import opened PyInverse
  import opened PyCanon
  import opened PyLiteral

  // ---------------------------------------------------------------------
  // Searching

  predicate At(s: bytes, pat: bytes, k: nat) {
    k + |pat| <= |s| && s[k..k + |pat|] == pat
  }

  /** Where pat first occurs in s. */
  function IndexOf(s: bytes, pat: bytes): (r: Option<nat>)
    ensures r.Some? ==> At(s, pat, r.value) && forall k: nat | k < r.value :: !At(s, pat, k)
    ensures r.None? ==> forall k: nat :: !At(s, pat, k)
  {
    IndexFrom(s, pat, 0)
  }

  function IndexFrom(s: bytes, pat: bytes, from: nat): (r: Option<nat>)
    requires from <= |s| + 1
    ensures r.Some? ==> from <= r.value && At(s, pat, r.value) && forall k: nat | from <= k < r.value :: !At(s, pat, k)
    ensures r.None? ==> forall k: nat | from <= k :: !At(s, pat, k)
    decreases |s| + 1 - from
  {
    if from > |s| then None
    else if At(s, pat, from) then Some(from)
    else IndexFrom(s, pat, from + 1)
  }

  /** Where a left-to-right scan stands: outside strings, inside one, or just after a backslash inside one. */
  datatype Scan = Outside | Inside(quote: byte) | Escaped(quote: byte)

  function ScanByte(st: Scan, c: byte): Scan {
    match st
    case Outside => if IsQuote(c) then Inside(c) else Outside
    case Inside(q) => if c == BACKSLASH then Escaped(q) else if c == q then Outside else st
    case Escaped(q) => Inside(q)
  }

  function ScanAll(s: bytes, st: Scan): Scan {
    if s == [] then st else ScanAll(s[1..], ScanByte(st, s[0]))
  }

  /** A "==" at k that no string literal encloses. */
  predicate DoubleEqAt(s: bytes, k: nat) {
    k + 1 < |s| && s[k] == EQUALS && s[k + 1] == EQUALS && ScanAll(s[..k], Outside) == Outside
  }

  function FirstDoubleEq(s: bytes, from: nat): (r: Option<nat>)
    requires from <= |s|
    ensures r.Some? ==> from <= r.value && r.value + 1 < |s|
    ensures r.Some? ==> DoubleEqAt(s, r.value) && forall k: nat | from <= k < r.value :: !DoubleEqAt(s, k)
    ensures r.None? ==> forall k: nat | from <= k :: !DoubleEqAt(s, k)
    decreases |s| - from
  {
    if from == |s| then None
    else if DoubleEqAt(s, from) then Some(from)
    else FirstDoubleEq(s, from + 1)
  }

  lemma {:induction false} ScanConcat(a: bytes, b: bytes, st: Scan)
    ensures ScanAll(a + b, st) == ScanAll(b, ScanAll(a, st))
  {
    if a == [] {
      assert a + b == b;
    } else {
      assert (a + b)[0] == a[0] && (a + b)[1..] == a[1..] + b;
      ScanConcat(a[1..], b, ScanByte(st, a[0]));
    }
  }

  lemma ScanNext(s: bytes, k: nat)
    requires k < |s|
    ensures ScanAll(s[..k + 1], Outside) == ScanByte(ScanAll(s[..k], Outside), s[k])
  {
    assert s[..k + 1] == s[..k] + [s[k]];
    ScanConcat(s[..k], [s[k]], Outside);
  }

  /** The first "==" outside string quotes, or -1. */
  method TopLevelDoubleEq(s: bytes) returns (r: int)
    ensures r >= 0 ==> DoubleEqAt(s, r) && forall k: nat | k < r :: !DoubleEqAt(s, k)
    ensures r < 0 ==> r == -1 && forall k: nat :: !DoubleEqAt(s, k)
    ensures FirstDoubleEq(s, 0) == if r < 0 then None else Some(r)
  {
    hide ScanAll;
    var quote: byte := 0;
    var i := 0;
    assert s[..0] == [];
    ScanNothing();
    while i < |s|
      invariant 0 <= i <= |s|
      invariant quote != 0 ==> IsQuote(quote)
      invariant ScanAll(s[..i], Outside) == if quote == 0 then Outside else Inside(quote)
      invariant forall k: nat | k < i :: !DoubleEqAt(s, k)
    {
      var c := s[i];
      ScanNext(s, i);
      if quote != 0 {
        if c == BACKSLASH {
          if i + 1 >= |s| {
            return -1;
          }
          i := i + 1;
          ScanNext(s, i);
        } else if c == quote {
          quote := 0;
        }
      } else if IsQuote(c) {
        quote := c;
      } else if c == EQUALS && i + 1 < |s| && s[i + 1] == EQUALS {
        return i;
      }
      i := i + 1;
    }
    return -1;
  }

  lemma ScanNothing()
    ensures ScanAll([], Outside) == Outside
  {
  }

  // ---------------------------------------------------------------------
  // Extraction

  const OPEN_TAG: bytes := [91, 65, 78, 83, 87, 69, 82, 93]
  const CLOSE_TAG: bytes := [91, 47, 65, 78, 83, 87, 69, 82, 93]
  const FENCE: bytes := [96, 96, 96]

  predicate Contains(s: bytes, c: byte) {
    exists i | 0 <= i < |s| :: s[i] == c
  }

  /** What stands between the answer tags; the whole text when there is no opening tag. */
  function Untag(s: bytes): bytes {
    match IndexOf(s, OPEN_TAG)
    case None => s
    case Some(k) =>
      var rest := s[k + |OPEN_TAG|..];
      Trim(match IndexOf(rest, CLOSE_TAG) case None => rest case Some(e) => rest[..e])
  }

  /** Drops the first line of a fenced body when it is one word. */
  function DropLanguage(inner: bytes): bytes {
    match IndexOf(inner, [NEWLINE])
    case None => inner
    case Some(nl) =>
      var tag := Trim(inner[..nl]);
      if tag != [] && !Contains(tag, SPACE) && !Contains(tag, TAB) then inner[nl + 1..] else inner
  }

  /** The body of a code fence that wraps the whole text; none when the fence is open or something surrounds it. */
  function Unfence(s: bytes): Option<bytes> {
    if !(FENCE <= s) then Some(s)
    else match IndexOf(s[3..], FENCE)
      case None => None
      case Some(e) => if Trim(s[3 + e + 3..]) != [] then None else Some(Trim(DropLanguage(s[3..3 + e])))
  }

  function AfterDoubleEq(s: bytes): bytes {
    match FirstDoubleEq(s, 0)
    case None => s
    case Some(k) => Trim(s[k + 2..])
  }

  function Extract(answer: bytes): Option<bytes> {
    var s := Trim(answer);
    if s == [] then None
    else match Unfence(Untag(s))
      case None => None
      case Some(u) => if AfterDoubleEq(u) == [] then None else Some(AfterDoubleEq(u))
  }

  method ExtractOutputLiteral(answer: bytes) returns (literal: bytes, found: bool)
    ensures found == Extract(answer).Some?
    ensures found ==> literal == Extract(answer).value
  {
    hide Trim, IndexOf, FirstDoubleEq, Unfence;
    var s := Trim(answer);
    if s == [] {
      return [], false;
    }
    var idx := IndexOf(s, OPEN_TAG);
    if idx.Some? {
      var rest := s[idx.value + |OPEN_TAG|..];
      var end := IndexOf(rest, CLOSE_TAG);
      if end.Some? {
        rest := rest[..end.value];
      }
      s := Trim(rest);
    }
    s, found := UnwrapFence(s);
    if !found {
      return [], false;
    }
    var eq := TopLevelDoubleEq(s);
    if eq >= 0 {
      s := Trim(s[eq + 2..]);
    }
    if s == [] {
      return [], false;
    }
    return s, true;
  }

  method UnwrapFence(s: bytes) returns (r: bytes, ok: bool)
    ensures ok == Unfence(s).Some?
    ensures ok ==> r == Unfence(s).value
  {
    hide Trim, IndexOf, Contains;
    if !(FENCE <= s) {
      return s, true;
    }
    var end := IndexOf(s[3..], FENCE);
    if end.None? {
      return [], false;
    }
    var inner := s[3..3 + end.value];
    if Trim(s[3 + end.value + 3..]) != [] {
      return [], false;
    }
    var nl := IndexOf(inner, [NEWLINE]);
    if nl.Some? {
      var tag := Trim(inner[..nl.value]);
      if tag != [] && !Contains(tag, SPACE) && !Contains(tag, TAB) {
        inner := inner[nl.value + 1..];
      }
    }
    return Trim(inner), true;
  }

  // ---------------------------------------------------------------------
  // The verdict

  /** None when the expected text is no literal, which leaves the case unscored. */
  function Verdict(expected: bytes, answer: bytes): Option<real> {
    match Canonical(expected)
    case None => None
    case Some(want) =>
      match Extract(answer)
      case None => Some(0.0)
      case Some(literal) => Some(if Canonical(literal) == Some(want) then 1.0 else 0.0)
  }

  method OutputMatchVerdict(expected: bytes, answer: bytes) returns (score: Option<real>)
    ensures score == Verdict(expected, answer)
  {
    hide Canonical, Extract;
    var want, known := CanonicalPyLiteral(expected);
    if !known {
      return None;
    }
    var literal, found := ExtractOutputLiteral(answer);
    if !found {
      return Some(0.0);
    }
    var got, ok := CanonicalPyLiteral(literal);
    if !ok {
      return Some(0.0);
    }
    if got == want {
      return Some(1.0);
    }
    return Some(0.0);
  }

  /** A score of 1 means both texts are literals whose values are equal up to entry order, and nothing less. */
  lemma VerdictMeaning(expected: bytes, answer: bytes)
    ensures Verdict(expected, answer).None? <==> Denotes(expected).None?
    ensures Verdict(expected, answer) == Some(1.0) <==>
      && Denotes(expected).Some? && Extract(answer).Some? && Denotes(Extract(answer).value).Some?
      && Equiv(Denotes(Extract(answer).value).value, Denotes(expected).value)
    ensures Verdict(expected, answer).Some? ==> Verdict(expected, answer).value in {0.0, 1.0}
  {
    hide Denotes, Equiv, Canon, Extract;
    if Denotes(expected).Some? && Extract(answer).Some? && Denotes(Extract(answer).value).Some? {
      CanonicalDecides(Extract(answer).value, expected);
    }
  }

  // ---------------------------------------------------------------------
  // A bare literal comes through extraction untouched

  /** No "=" outside strings, and the scan comes back out. */
  predicate Quiet(s: bytes, st: Scan) {
    s == [] || (!(st == Outside && s[0] == EQUALS) && Quiet(s[1..], ScanByte(st, s[0])))
  }

  predicate Calm(s: bytes) {
    Quiet(s, Outside) && ScanAll(s, Outside) == Outside
  }

  lemma {:induction false} QuietConcat(a: bytes, b: bytes, st: Scan)
    ensures Quiet(a + b, st) == (Quiet(a, st) && Quiet(b, ScanAll(a, st)))
  {
    if a == [] {
      assert a + b == b;
    } else {
      assert (a + b)[0] == a[0] && (a + b)[1..] == a[1..] + b;
      QuietConcat(a[1..], b, ScanByte(st, a[0]));
    }
  }

  lemma CalmConcat(a: bytes, b: bytes)
    requires Calm(a) && Calm(b)
    ensures Calm(a + b)
  {
    hide Quiet, ScanAll;
    QuietConcat(a, b, Outside);
    ScanConcat(a, b, Outside);
  }

  lemma QuietAt(s: bytes, k: nat)
    requires Quiet(s, Outside) && k < |s| && ScanAll(s[..k], Outside) == Outside
    ensures s[k] != EQUALS
  {
    QuietConcat(s[..k], s[k..], Outside);
    assert s[..k] + s[k..] == s;
  }

  lemma {:induction false} PlainIsCalm(s: bytes)
    requires forall i | 0 <= i < |s| :: !IsQuote(s[i]) && s[i] != EQUALS
    ensures Calm(s)
  {
    if s != [] {
      PlainIsCalm(s[1..]);
    }
  }

  lemma ScanCons(c: byte, rest: bytes, st: Scan)
    ensures ScanAll([c] + rest, st) == ScanAll(rest, ScanByte(st, c))
    ensures Quiet([c] + rest, st) == (!(st == Outside && c == EQUALS) && Quiet(rest, ScanByte(st, c)))
  {
    assert ([c] + rest)[1..] == rest;
  }

  lemma PieceScan(p: Piece, q: byte)
    requires IsQuote(q) && PieceOk(p, q)
    ensures Quiet(PieceText(p), Inside(q)) && ScanAll(PieceText(p), Inside(q)) == Inside(q)
  {
    match p
    case Raw(c) =>
      ScanCons(c, [], Inside(q));
    case Esc(e) =>
      ScanCons(BACKSLASH, [e], Inside(q));
      ScanCons(e, [], Escaped(q));
    case Hex(h, l) =>
      ScanCons(BACKSLASH, [LOWER_X, h, l], Inside(q));
      ScanCons(LOWER_X, [h, l], Escaped(q));
      ScanCons(h, [l], Inside(q));
      ScanCons(l, [], Inside(q));
  }

  lemma {:induction false} PiecesScan(ps: seq<Piece>, q: byte)
    requires IsQuote(q) && forall i | 0 <= i < |ps| :: PieceOk(ps[i], q)
    ensures Quiet(PiecesText(ps), Inside(q)) && ScanAll(PiecesText(ps), Inside(q)) == Inside(q)
  {
    if ps != [] {
      PieceScan(ps[0], q);
      PiecesScan(ps[1..], q);
      QuietConcat(PieceText(ps[0]), PiecesText(ps[1..]), Inside(q));
      ScanConcat(PieceText(ps[0]), PiecesText(ps[1..]), Inside(q));
    }
  }

  lemma StringIsCalm(ps: seq<Piece>, q: byte)
    requires IsQuote(q) && forall i | 0 <= i < |ps| :: PieceOk(ps[i], q)
    ensures Calm([q] + PiecesText(ps) + [q])
  {
    var b := PiecesText(ps);
    PiecesScan(ps, q);
    QuietConcat(b, [q], Inside(q));
    ScanConcat(b, [q], Inside(q));
    var t := [q] + b + [q];
    assert t[0] == q && t[1..] == b + [q];
    assert [q][1..] == [];
  }

  lemma CalmAround(a: bytes, t: bytes, b: bytes)
    requires Calm(t)
    requires forall i | 0 <= i < |a| :: !IsQuote(a[i]) && a[i] != EQUALS
    requires forall i | 0 <= i < |b| :: !IsQuote(b[i]) && b[i] != EQUALS
    ensures Calm(a + t + b)
  {
    hide Calm;
    PlainIsCalm(a);
    PlainIsCalm(b);
    CalmConcat(a, t);
    CalmConcat(a + t, b);
  }

  lemma AtomIsCalm(tok: bytes)
    requires IsNumber(tok) || IsKeyword(tok)
    ensures Calm(tok)
  {
    hide NumberLen, Calm;
    if IsNumber(tok) {
      NumberTokenBytes(tok);
    } else {
      KeywordLetters(tok);
    }
    PlainIsCalm(tok);
  }

  lemma BlankIsCalm(ws: bytes)
    requires AllBlank(ws)
    ensures Calm(ws)
  {
    hide Calm;
    PlainIsCalm(ws);
  }

  /** A blank run, one separator, and the rest. */
  lemma SeparatorIsCalm(ws: bytes, c: byte, t: bytes)
    requires AllBlank(ws) && !IsQuote(c) && c != EQUALS && Calm(t)
    ensures Calm(ws + [c] + t) && Calm(ws + [c]) && Calm([c] + t)
  {
    hide Calm;
    BlankIsCalm(ws);
    PlainIsCalm([c]);
    CalmConcat(ws, [c]);
    CalmConcat(ws + [c], t);
    CalmConcat([c], t);
  }

  lemma {:induction false} TextIsCalm(c: Cst)
    requires Ok(c)
    ensures Calm(Text(c))
    decreases c, 2
  {
    hide Calm, Core;
    BlankIsCalm(c.ws);
    CoreIsCalm(c);
    CalmConcat(c.ws, Core(c));
  }

  lemma TupleIsCalm(first: bytes, after: bytes, items: bytes)
    requires Calm(first) && AllBlank(after) && Calm(items)
    ensures Calm([LPAREN] + first + after + [COMMA] + items)
  {
    hide Calm;
    BlankIsCalm([]);
    SeparatorIsCalm(after, COMMA, []);
    CalmConcat(first, after + [COMMA]);
    CalmAround([LPAREN], first + (after + [COMMA]), []);
    CalmConcat([LPAREN] + (first + (after + [COMMA])) + [], items);
    assert [LPAREN] + first + after + [COMMA] + items == [LPAREN] + (first + (after + [COMMA])) + [] + items;
  }

  lemma {:induction false} CoreIsCalm(c: Cst)
    requires Ok(c)
    ensures Calm(Core(c))
    decreases c, 1
  {
    hide Calm, NumberLen, PiecesText, IsKeyword, ItemText, ItemsText, TailText;
    match c
    case Atom(_, tok) => AtomIsCalm(tok);
    case Str(_, prefix, q, ps) =>
      StringIsCalm(ps, q);
      PlainIsCalm(prefix);
      CalmConcat(prefix, [q] + PiecesText(ps) + [q]);
      Cat4(prefix, [q], PiecesText(ps), [q]);
      Cat3([q], PiecesText(ps), [q]);
    case ListC(_, items) =>
      ItemsAreCalm(items, RBRACKET);
      PlainIsCalm([LBRACKET]);
      CalmConcat([LBRACKET], ItemsText(items, RBRACKET));
    case Unit(_, blank) =>
      PlainIsCalm([LPAREN] + blank + [RPAREN]);
    case Group(_, inner, after) =>
      TextIsCalm(inner);
      BlankIsCalm(after);
      CalmConcat(Text(inner), after);
      CalmAround([LPAREN], Text(inner) + after, [RPAREN]);
      Cat3([LPAREN], Text(inner), after);
    case Tup(_, first, after, items) =>
      TextIsCalm(first);
      ItemsAreCalm(items, RPAREN);
      TupleIsCalm(Text(first), after, ItemsText(items, RPAREN));
    case EmptyBraces(_, blank) =>
      PlainIsCalm([LBRACE] + blank + [RBRACE]);
    case Braces(_, item, tail) =>
      ItemIsCalm(item, item.val.Value?);
      TailIsCalm(tail, RBRACE, item.val.Value?);
      CalmConcat(ItemText(item), TailText(tail, RBRACE));
      CalmAround([LBRACE], ItemText(item) + TailText(tail, RBRACE), []);
      Cat3([LBRACE], ItemText(item), TailText(tail, RBRACE));
      assert Core(c) + [] == Core(c);
  }

  lemma {:induction false} ItemIsCalm(it: Item, colon: bool)
    requires ItemOk(it, colon)
    ensures Calm(ItemText(it))
    decreases it, 1
  {
    hide Calm, Core;
    TextIsCalm(it.k);
    match it.val
    case NoValue =>
      assert Text(it.k) + [] == Text(it.k);
    case Value(ws, v) =>
      assert ValueOk(it.val);
      TextIsCalm(v);
      SeparatorIsCalm(ws, COLON, Text(v));
      CalmConcat(Text(it.k), ws + [COLON] + Text(v));
  }

  lemma {:induction false} ItemsAreCalm(items: Items, close: byte)
    requires ItemsOk(items) && !IsQuote(close) && close != EQUALS
    ensures Calm(ItemsText(items, close))
    decreases items, 1
  {
    hide Calm, ItemText, TailText;
    match items
    case Close(ws) =>
      BlankIsCalm([]);
      SeparatorIsCalm(ws, close, []);
    case Cons(item, tail) =>
      ItemIsCalm(item, false);
      TailIsCalm(tail, close, false);
      CalmConcat(ItemText(item), TailText(tail, close));
  }

  lemma {:induction false} TailIsCalm(tail: Tail, close: byte, colon: bool)
    requires TailOk(tail, colon) && !IsQuote(close) && close != EQUALS
    ensures Calm(TailText(tail, close))
    decreases tail, 1
  {
    hide Calm, ItemText;
    BlankIsCalm([]);
    match tail
    case End(ws) =>
      SeparatorIsCalm(ws, close, []);
    case TrailingComma(ws, blank) =>
      SeparatorIsCalm(blank, close, []);
      SeparatorIsCalm(ws, COMMA, blank + [close]);
      Cat4(ws, [COMMA], blank, [close]);
      Cat3(ws, [COMMA], blank + [close]);
    case More(ws, item, rest) =>
      ItemIsCalm(item, colon);
      TailIsCalm(rest, close, colon);
      SeparatorIsCalm(ws, COMMA, ItemText(item));
      CalmConcat(ws + [COMMA] + ItemText(item), TailText(rest, close));
  }

  /** A literal has no "==" outside its strings. */
  lemma LiteralHasNoDoubleEq(s: bytes)
    requires Denotes(s).Some?
    ensures forall k: nat :: !DoubleEqAt(Trim(s), k)
  {
    hide Calm, Tree, Ok, Core, Trim, Parse;
    var t := Trim(s);
    DenotesSpelling(s, Denotes(s).value);
    var c, blank :| Ok(c) && AllBlank(blank) && t == Text(c) + blank;
    TextIsCalm(c);
    BlankIsCalm(blank);
    CalmConcat(Text(c), blank);
    CalmHasNoDoubleEq(t);
  }

  lemma CalmHasNoDoubleEq(t: bytes)
    requires Calm(t)
    ensures forall k: nat :: !DoubleEqAt(t, k)
  {
    hide ScanAll, Quiet;
    forall k: nat ensures !DoubleEqAt(t, k) {
      if k < |t| && ScanAll(t[..k], Outside) == Outside {
        QuietAt(t, k);
      }
    }
  }

  lemma LiteralHead(s: bytes)
    requires Denotes(s).Some?
    ensures Trim(s) != [] && !(FENCE <= Trim(s))
  {
    hide ParseStr, ParseItems, ParseParen, ParseBraces, NumberLen, Tree, Ok, Trim, LetterLen, IsKeyword;
    var t := Trim(s);
    TrimKeepsTheMiddle(s);
    if t != [] {
      BlankLenUnique(t, 0);
      assert t[..0] == [] && t[0..] == t;
      BacktickIsNoLiteral(t);
    }
  }

  lemma BacktickIsNoLiteral(t: bytes)
    ensures FENCE <= t ==> ParseCore([], t).None?
  {
    if FENCE <= t {
      assert t[0] == FENCE[0];
    }
  }

  lemma TrimShortens(s: bytes)
    ensures |Trim(s)| <= |s|
  {
  }

  lemma UnwrapShortens(s: bytes)
    ensures Unfence(s).Some? ==> |Unfence(s).value| <= |s|
    ensures |AfterDoubleEq(s)| <= |s|
  {
    hide Trim, IndexFrom, DoubleEqAt, Contains;
    if FENCE <= s && Unfence(s).Some? {
      var e := IndexOf(s[3..], FENCE).value;
      TrimShortens(DropLanguage(s[3..3 + e]));
    }
    if FirstDoubleEq(s, 0).Some? {
      TrimShortens(s[FirstDoubleEq(s, 0).value + 2..]);
    }
  }

  /** A trimmed literal with nothing around it passes the fence and the "==" steps unchanged. */
  lemma LiteralUnwraps(s: bytes)
    requires Denotes(s).Some? && Trim(s) == s
    ensures Unfence(s) == Some(s) && AfterDoubleEq(s) == s && s != []
  {
    hide Denotes, Trim, DoubleEqAt;
    LiteralHead(s);
    LiteralHasNoDoubleEq(s);
  }

  lemma TrimmedDenotes(s: bytes)
    ensures Denotes(Trim(s)) == Denotes(s) && Trim(Trim(s)) == Trim(s)
  {
    hide Trim, Parse, Tree;
    TrimKeepsTheMiddle(s);
  }

  /** A reply that is just a literal is extracted whole exactly when the opening answer tag does not occur in it. */
  lemma BareLiteral(s: bytes)
    requires Denotes(s).Some?
    ensures Extract(s) == Some(Trim(s)) <==> IndexOf(Trim(s), OPEN_TAG).None?
  {
    hide Denotes, Trim, IndexFrom, Unfence, AfterDoubleEq;
    var t := Trim(s);
    TrimmedDenotes(s);
    LiteralUnwraps(t);
    if IndexOf(t, OPEN_TAG).Some? {
      var rest := t[IndexOf(t, OPEN_TAG).value + |OPEN_TAG|..];
      var cut := match IndexOf(rest, CLOSE_TAG) case None => rest case Some(e) => rest[..e];
      TrimShortens(cut);
      assert Untag(t) == Trim(cut) && |Untag(t)| < |t|;
      UnwrapShortens(Untag(t));
      if Unfence(Untag(t)).Some? {
        UnwrapShortens(Unfence(Untag(t)).value);
      }
    }
  }

  /** So a bare literal without the tag scores by value alone, and every expected text without it accepts itself. */
  lemma BareLiteralVerdict(expected: bytes, s: bytes)
    requires Denotes(expected).Some? && Denotes(s).Some? && IndexOf(Trim(s), OPEN_TAG).None?
    ensures Verdict(expected, s) == Some(1.0) <==> Equiv(Denotes(s).value, Denotes(expected).value)
    ensures s == expected ==> Verdict(expected, s) == Some(1.0)
  {
    hide Denotes, Trim, Equiv, Extract, Canon;
    BareLiteral(s);
    TrimmedDenotes(s);
    VerdictMeaning(expected, s);
    CanonicalDecides(s, expected);
  }

  /** A string literal that spells the tag is cut inside and scores 0 against itself. */
  lemma TagInsideStringMisses()
    ensures var s := [DQUOTE] + OPEN_TAG + [DQUOTE];
      Denotes(s).Some? && Verdict(s, s) == Some(0.0)
  {
    hide Denotes, Parse, Trim, Canon, Tree;
    var s := [DQUOTE] + OPEN_TAG + [DQUOTE];
    var pieces := seq(8, i requires 0 <= i < 8 => Raw(OPEN_TAG[i]));
    RawText(OPEN_TAG, pieces);
    var c := Str([], [], DQUOTE, pieces);
    assert Core(c) == s;
    assert Text(c) == s;
    SpelledLiteral(c);
    OrdinaryEnds(s);
    assert At(s, OPEN_TAG, 1);
    assert s[0] != OPEN_TAG[0] && !At(s, OPEN_TAG, 0);
    assert IndexOf(s, OPEN_TAG) == Some(1);
    LoneQuote();
    assert s[9..] == [DQUOTE];
    assert Untag(s) == [DQUOTE];
    assert Extract(s) == Some([DQUOTE]);
  }

  lemma {:induction false} RawText(s: bytes, ps: seq<Piece>)
    requires |ps| == |s| && forall i | 0 <= i < |s| :: ps[i] == Raw(s[i])
    ensures PiecesText(ps) == s
  {
    if s != [] {
      RawText(s[1..], ps[1..]);
    }
  }

  /** What is left after the tag there: one quote, which is no literal. */
  lemma LoneQuote()
    ensures IndexOf([DQUOTE], CLOSE_TAG).None? && Trim([DQUOTE]) == [DQUOTE]
    ensures Unfence([DQUOTE]) == Some([DQUOTE]) && AfterDoubleEq([DQUOTE]) == [DQUOTE]
    ensures Denotes([DQUOTE]).None?
  {
    hide Trim;
    OrdinaryEnds([DQUOTE]);
    BlankLenUnique([DQUOTE], 0);
    assert [DQUOTE][0..] == [DQUOTE];
    assert [DQUOTE][1..] == [];
    assert ParsePieces([], DQUOTE).None?;
    assert ParseCore([], [DQUOTE]).None?;
    assert [DQUOTE][..0] == [];
    assert Parse([DQUOTE]).None?;
  }

  /** Between tags every literal survives, the opening tag included, exactly when the closing tag is not in it. */
  lemma TaggedLiteral(t: bytes)
    requires Denotes(t).Some? && Trim(t) == t
    ensures Extract(OPEN_TAG + t + CLOSE_TAG) == Some(t) <==> IndexOf(t, CLOSE_TAG).None?
  {
    hide Denotes, Trim, IndexFrom, Unfence, AfterDoubleEq;
    var s := OPEN_TAG + t + CLOSE_TAG;
    OrdinaryEnds(s);
    assert At(s, OPEN_TAG, 0);
    assert IndexOf(s, OPEN_TAG) == Some(0);
    var rest := s[8..];
    assert rest == t + CLOSE_TAG;
    assert At(rest, CLOSE_TAG, |t|);
    var e := IndexOf(rest, CLOSE_TAG).value;
    FirstCloseTag(t, e);
    assert Untag(s) == Trim(rest[..e]);
    if IndexOf(t, CLOSE_TAG).None? {
      assert rest[..e] == t;
      LiteralUnwraps(t);
    } else {
      TrimShortens(rest[..e]);
      UnwrapShortens(Untag(s));
      if Unfence(Untag(s)).Some? {
        UnwrapShortens(Unfence(Untag(s)).value);
      }
    }
  }

  lemma FirstCloseTag(t: bytes, e: nat)
    requires IndexOf(t + CLOSE_TAG, CLOSE_TAG) == Some(e)
    ensures e <= |t| && (e == |t| <==> IndexOf(t, CLOSE_TAG).None?)
  {
    hide IndexFrom;
    var rest := t + CLOSE_TAG;
    assert At(rest, CLOSE_TAG, |t|);
    if IndexOf(t, CLOSE_TAG).Some? {
      var k := IndexOf(t, CLOSE_TAG).value;
      assert t[k..k + 9] == rest[k..k + 9];
      assert At(rest, CLOSE_TAG, k);
    }
    if e < |t| {
      var j := if |t| - e < 9 then |t| - e else 0;
      assert rest[e + j] == rest[e..e + 9][j] == CLOSE_TAG[j];
      assert e + 9 <= |t|;
      assert t[e..e + 9] == rest[e..e + 9];
      assert At(t, CLOSE_TAG, e);
    }
  }
}
