/**
 What the scalars of the literal language mean, byte by byte: the escapes of
 quoted strings, the keywords, and the number tokens. The tables here are written
 in plain byte values and know nothing of the parser.
 */
module PyScalars {
  import opened Wrappers
  import opened Bytes
  import opened PyGrammar
  import opened PyInverse
  import opened PyCanon
  import opened PyEscapes
  import opened PyRoundTrip
  import opened PyReading
  import opened PyLiteral

  // ---------------------------------------------------------------------
  // Quoted strings

  /** The body between quotes q spells the bytes of value, one after another. */
  ghost predicate Means(body: bytes, q: byte, value: bytes) {
    if value == [] then body == []
    else exists n: nat :: 0 < n <= |body| && body[0] != q && Spells(body[..n], value[0]) && Means(body[n..], q, value[1..])
  }

  predicate PiecesOk(ps: seq<Piece>, q: byte) {
    forall i | 0 <= i < |ps| :: PieceOk(ps[i], q) && (ps[i].Hex? ==> IsHex(ps[i].hi) && IsHex(ps[i].lo))
  }

  lemma {:induction false} PiecesMean(ps: seq<Piece>, q: byte)
    requires IsQuote(q) && PiecesOk(ps, q)
    ensures Means(PiecesText(ps), q, Decode(ps))
  {
    if ps != [] {
      PiecesMean(ps[1..], q);
      PieceSpells(ps[0], q, DecodePiece(ps[0]));
      var text, n := PiecesText(ps), |PieceText(ps[0])|;
      assert text[..n] == PieceText(ps[0]) && text[n..] == PiecesText(ps[1..]);
      assert Decode(ps)[1..] == Decode(ps[1..]);
    }
  }

  lemma OnePieceMore(p: Piece, ps: seq<Piece>, q: byte)
    requires PiecesOk(ps, q) && PieceOk(p, q)
    ensures PiecesOk([p] + ps, q)
    ensures PiecesText([p] + ps) == PieceText(p) + PiecesText(ps) && Decode([p] + ps) == [DecodePiece(p)] + Decode(ps)
  {
    assert ([p] + ps)[1..] == ps;
  }

  lemma {:induction false} MeantPieces(body: bytes, q: byte, value: bytes) returns (ps: seq<Piece>)
    requires IsQuote(q) && Means(body, q, value)
    ensures PiecesOk(ps, q) && PiecesText(ps) == body && Decode(ps) == value
    decreases |value|
  {
    hide Spells, PieceOk, PiecesOk, PiecesText, PieceText, Decode, DecodePiece;
    if value == [] {
      ps := [];
      NoPieces(q);
    } else {
      var n: nat :| 0 < n <= |body| && body[0] != q && Spells(body[..n], value[0]) && Means(body[n..], q, value[1..]);
      var rest := MeantPieces(body[n..], q, value[1..]);
      SpelledPiece(body[..n], q, value[0]);
      OnePieceMore(PieceOf(body[..n]), rest, q);
      ps := [PieceOf(body[..n])] + rest;
      assert body == body[..n] + body[n..] && value == [value[0]] + value[1..];
    }
  }

  lemma NoPieces(q: byte)
    ensures PiecesOk([], q) && PiecesText([]) == [] && Decode([]) == []
  {
  }

  function QuotedText(prefix: bytes, q: byte, body: bytes): bytes {
    prefix + [q] + body + [q]
  }

  /** A quoted string denotes exactly the bytes its body spells, in both quote styles, with b, B or no prefix. */
  lemma StringMeans(prefix: bytes, q: byte, body: bytes, value: bytes)
    requires IsQuote(q) && PrefixOk(prefix)
    ensures Denotes(QuotedText(prefix, q, body)) == Some(Chars(prefix != [], value)) <==> Means(body, q, value)
  {
    hide Denotes, Means, Decode, PiecesText, Spells, Tree;
    var t := QuotedText(prefix, q, body);
    if Means(body, q, value) {
      var ps := MeantPieces(body, q, value);
      StringDenotes(prefix, q, ps);
    }
    if Denotes(t) == Some(Chars(prefix != [], value)) {
      var ps := StringPieces(prefix, q, body, value);
      PiecesMean(ps, q);
    }
  }

  lemma StringDenotes(prefix: bytes, q: byte, ps: seq<Piece>)
    requires IsQuote(q) && PrefixOk(prefix) && PiecesOk(ps, q)
    ensures Denotes(QuotedText(prefix, q, PiecesText(ps))) == Some(Chars(prefix != [], Decode(ps)))
  {
    hide Denotes, Decode, PiecesText;
    var c := Str([], prefix, q, ps);
    assert Text(c) == QuotedText(prefix, q, PiecesText(ps));
    SpelledLiteral(c);
  }

  /** What denotes a string was spelled piece by piece between those quotes. */
  lemma StringPieces(prefix: bytes, q: byte, body: bytes, value: bytes) returns (ps: seq<Piece>)
    requires IsQuote(q) && PrefixOk(prefix) && Denotes(QuotedText(prefix, q, body)) == Some(Chars(prefix != [], value))
    ensures PiecesOk(ps, q) && body == PiecesText(ps) && value == Decode(ps)
  {
    hide Denotes, Decode, PiecesText, PiecesOk, Ok, Tree, Core;
    var c := SpelledWhole(QuotedText(prefix, q, body), Chars(prefix != [], value));
    ps := StringShape(c, prefix, q, body, value);
  }

  /** A literal without blanks around it is the spelling of a tree. */
  lemma SpelledWhole(t: bytes, v: Lit) returns (c: Cst)
    requires t != [] && Ordinary(t[0]) && Ordinary(t[|t| - 1]) && Denotes(t) == Some(v)
    ensures Ok(c) && Tree(c) == v && Text(c) == t
  {
    hide Denotes, Ok, Tree, Core, Trim, TrimLeft;
    OrdinaryEnds(t);
    DenotesSpelling(t, v);
    var blank;
    c, blank :| Ok(c) && Tree(c) == v && AllBlank(blank) && Trim(t) == Text(c) + blank;
    Ends(Text(c), blank);
    assert Text(c) + [] == Text(c);
  }

  lemma StringShape(c: Cst, prefix: bytes, q: byte, body: bytes, value: bytes) returns (ps: seq<Piece>)
    requires Ok(c) && Tree(c) == Chars(prefix != [], value) && Text(c) == QuotedText(prefix, q, body)
    requires IsQuote(q) && PrefixOk(prefix)
    ensures PiecesOk(ps, q) && body == PiecesText(ps) && value == Decode(ps)
  {
    hide PiecesText, Decode, TailText, ItemsText, ItemText;
    var t := Text(c);
    Ends(c.ws, Core(c));
    assert t == Core(c);
    ps := c.pieces;
    SameFrame(prefix, q, body, c.prefix, c.quote, PiecesText(ps));
  }

  lemma SameFrame(prefix: bytes, q: byte, body: bytes, prefix': bytes, q': byte, body': bytes)
    requires QuotedText(prefix, q, body) == QuotedText(prefix', q', body')
    requires PrefixOk(prefix) && PrefixOk(prefix') && IsQuote(q) && IsQuote(q')
    ensures prefix == prefix' && q == q' && body == body'
  {
    var t := QuotedText(prefix, q, body);
    assert t[0] == if prefix == [] then q else prefix[0];
    assert t[0] == if prefix' == [] then q' else prefix'[0];
    assert t[|prefix|] == q && t[|prefix'|] == q';
    assert body == t[|prefix| + 1..|t| - 1];
    assert body' == t[|prefix'| + 1..|t| - 1];
  }

  /** Two strings match exactly when they spell the same bytes and are both byte strings or neither, whatever their quotes and escapes. */
  lemma StringsMatch(p1: bytes, q1: byte, body1: bytes, v1: bytes, p2: bytes, q2: byte, body2: bytes, v2: bytes)
    requires IsQuote(q1) && PrefixOk(p1) && Means(body1, q1, v1)
    requires IsQuote(q2) && PrefixOk(p2) && Means(body2, q2, v2)
    ensures var a, b := QuotedText(p1, q1, body1), QuotedText(p2, q2, body2);
      && Canonical(a).Some? && Canonical(b).Some?
      && (Canonical(a) == Canonical(b) <==> v1 == v2 && (p1 == []) == (p2 == []))
  {
    hide Denotes, Means, Canon;
    StringMeans(p1, q1, body1, v1);
    StringMeans(p2, q2, body2, v2);
    CanonicalDecides(QuotedText(p1, q1, body1), QuotedText(p2, q2, body2));
  }

  // ---------------------------------------------------------------------
  // Blanks

  /** Tab, newline, vertical tab, form feed, carriage return and space. */
  predicate Blanks(s: bytes) {
    forall i | 0 <= i < |s| :: s[i] in {9, 10, 11, 12, 13, 32}
  }

  lemma {:induction false} BlanksInFront(ws: bytes, t: bytes)
    requires Blanks(ws)
    ensures TrimLeft(ws + t) == TrimLeft(t)
    decreases |ws|
  {
    hide HeadBlank;
    if ws == [] {
      assert ws + t == t;
    } else {
      OneBlank(ws, t);
      BlanksInFront(ws[1..], t);
    }
  }

  lemma OneBlank(ws: bytes, t: bytes)
    requires Blanks(ws) && ws != []
    ensures HeadBlank(ws + t) == 1 && (ws + t)[1..] == ws[1..] + t && Blanks(ws[1..])
  {
    assert (ws + t)[0] == ws[0];
  }

  /** Blanks before a text change nothing. */
  lemma BlanksMeanNothing(ws: bytes, t: bytes)
    requires Blanks(ws)
    ensures Denotes(ws + t) == Denotes(t)
  {
    hide Parse, TrimLeft, TrimRight, HeadBlank;
    BlanksInFront(ws, t);
  }

  /** Between brackets they make the empty list, tuple and dict. */
  lemma BlanksInBrackets(ws: bytes)
    requires Blanks(ws)
    ensures Denotes([91] + ws + [93]) == Some(Node(List, [])) && Denotes([40] + ws + [41]) == Some(Node(Tuple, []))
    ensures Denotes([123] + ws + [125]) == Some(Node(Braced, []))
  {
    hide Denotes;
    var list, unit, braces := ListC([], Close(ws)), Unit([], ws), EmptyBraces([], ws);
    assert ItemsText(Close(ws), RBRACKET) == ws + [93];
    Cat3([91], ws, [93]);
    assert Core(list) == [91] + ws + [93] && Core(unit) == [40] + ws + [41] && Core(braces) == [123] + ws + [125];
    assert [] + Core(list) == Core(list) && [] + Core(unit) == Core(unit) && [] + Core(braces) == Core(braces);
    SpelledLiteral(list);
    SpelledLiteral(unit);
    SpelledLiteral(braces);
  }

  // ---------------------------------------------------------------------
  // Keywords

  /** tok is the lower-case word in any mixture of cases. */
  predicate AnyCase(tok: bytes, word: bytes) {
    |tok| == |word| && forall i | 0 <= i < |tok| :: tok[i] == word[i] || tok[i] as int == word[i] as int - 32
  }

  lemma LowerIsAnyCase(tok: bytes, word: bytes)
    requires (forall i | 0 <= i < |tok| :: IsLetter(tok[i])) && forall i | 0 <= i < |word| :: 97 <= word[i] <= 122
    ensures Lower(tok) == word <==> AnyCase(tok, word)
  {
    if Lower(tok) == word {
      forall i | 0 <= i < |tok| ensures tok[i] == word[i] || tok[i] as int == word[i] as int - 32 { assert Lower(tok)[i] == word[i]; }
    }
    if AnyCase(tok, word) {
      forall i | 0 <= i < |tok| ensures Lower(tok)[i] == word[i] {}
    }
  }

  /** A text of letters denotes True, False or None when it spells that word in any case, and nothing otherwise. */
  lemma KeywordMeans(tok: bytes)
    requires tok != [] && forall i | 0 <= i < |tok| :: IsLetter(tok[i])
    ensures Denotes(tok) ==
      if AnyCase(tok, [116, 114, 117, 101]) then Some(Word([84, 114, 117, 101]))
      else if AnyCase(tok, [102, 97, 108, 115, 101]) then Some(Word([70, 97, 108, 115, 101]))
      else if AnyCase(tok, [110, 111, 110, 101]) then Some(Word([78, 111, 110, 101]))
      else None
  {
    hide Denotes, Lower, AnyCase, NumberLen;
    LowerIsAnyCase(tok, TRUE_LOWER);
    LowerIsAnyCase(tok, FALSE_LOWER);
    LowerIsAnyCase(tok, NONE_LOWER);
    if IsKeyword(tok) {
      var c := Atom([], tok);
      assert Text(c) == tok;
      SpelledLiteral(c);
    } else if Denotes(tok).Some? {
      var c := SpelledWhole(tok, Denotes(tok).value);
      LettersAreAtoms(c);
    }
  }

  lemma LettersAreAtoms(c: Cst)
    requires Ok(c) && Text(c) != [] && forall i | 0 <= i < |Text(c)| :: IsLetter(Text(c)[i])
    ensures IsKeyword(Text(c))
  {
    hide Core, IsNumber, Lower;
    var t := Text(c);
    Ends(c.ws, Core(c));
    assert t == Core(c) && IsLetter(t[0]);
    OtherThanLetters(c);
    assert t == c.tok by { AtomText(c); }
    if IsNumber(t) { NumberHead(t); }
  }

  lemma AtomText(c: Cst)
    requires c.Atom?
    ensures Core(c) == c.tok
  {
  }

  /** Everything but an atom has a bracket or a quote among its first two bytes. */
  lemma OtherThanLetters(c: Cst)
    requires Ok(c)
    ensures var t := Core(c); !c.Atom? ==> t != [] && (IsLetter(t[0]) ==> |t| > 1 && !IsLetter(t[1]))
  {
    hide PiecesText, ItemsText, ItemText, TailText;
  }

  // ---------------------------------------------------------------------
  // Numbers

  predicate Digits(s: bytes) {
    forall i | 0 <= i < |s| :: IsDigit(s[i])
  }

  predicate Sign(s: bytes) {
    s == [] || s == [43] || s == [45]
  }

  /** Digits with an optional point and further digits, or a point with digits. */
  predicate Mantissa(whole: bytes, fraction: bytes) {
    && Digits(whole)
    && (fraction == [] || (fraction[0] == 46 && Digits(fraction[1..])))
    && (whole == [] ==> |fraction| > 1)
  }

  predicate Exponent(mark: bytes, sign: bytes, digits: bytes) {
    || (mark == [] && sign == [] && digits == [])
    || ((mark == [101] || mark == [69]) && Sign(sign) && digits != [] && Digits(digits))
  }

  predicate Parts(tok: bytes, sign: bytes, whole: bytes, fraction: bytes, mark: bytes, expSign: bytes, digits: bytes) {
    && tok == sign + whole + fraction + mark + expSign + digits
    && Sign(sign) && Mantissa(whole, fraction) && Exponent(mark, expSign, digits)
  }

  /** The number expression of the program, part by part. */
  ghost predicate Numeral(tok: bytes) {
    exists sign, whole, fraction, mark, expSign, digits :: Parts(tok, sign, whole, fraction, mark, expSign, digits)
  }

  lemma DigitsFront(t: bytes)
    ensures Digits(t[..DigitLen(t)])
  {
  }

  lemma ExponentFront(t: bytes) returns (mark: bytes, sign: bytes, digits: bytes)
    ensures Exponent(mark, sign, digits) && t[..ExponentLen(t)] == mark + sign + digits
  {
    hide Digits, DigitLen;
    mark, sign, digits := [], [], [];
    if ExponentLen(t) > 0 {
      var s := if |t| > 1 && (t[1] == PLUS || t[1] == MINUS) then 2 else 1;
      var d := DigitLen(t[s..]);
      DigitsFront(t[s..]);
      mark, sign, digits := [t[0]], t[1..s], t[s..][..d];
      assert ExponentLen(t) == s + d;
      assert t[..s + d] == mark + sign + digits;
    }
  }

  lemma MantissaFront(t: bytes) returns (whole: bytes, fraction: bytes)
    requires UnsignedLen(t) > 0
    ensures Mantissa(whole, fraction) && t[..UnsignedLen(t)] == whole + fraction
  {
    var a := DigitLen(t);
    whole, fraction := t[..a], t[a..][..FractionLen(t[a..])];
    assert t[0..] == t;
    if fraction != [] {
      var d := DigitLen(t[a..][1..]);
      assert fraction[1..] == t[a..][1..][..d];
    }
  }

  lemma SplitAt(t: bytes, s: nat, m: nat, n: nat)
    requires s <= m <= n <= |t|
    ensures t[..n] == t[..s] + t[s..][..m - s] + t[m..][..n - m]
  {
  }

  /** What the expression matches at the front of a text is a numeral. */
  lemma MatchIsNumeral(t: bytes)
    requires NumberLen(t) > 0
    ensures Numeral(t[..NumberLen(t)])
  {
    hide UnsignedLen, ExponentLen, Mantissa, Exponent;
    var s, m := SignLen(t), MantissaLen(t);
    var whole, fraction := MantissaFront(t[s..]);
    var mark, expSign, digits := ExponentFront(t[m..]);
    SplitAt(t, s, m, NumberLen(t));
    var tok := t[..NumberLen(t)];
    assert tok == t[..s] + (whole + fraction) + (mark + expSign + digits);
    assert tok == t[..s] + whole + fraction + mark + expSign + digits;
    assert Parts(t[..NumberLen(t)], t[..s], whole, fraction, mark, expSign, digits);
  }

  lemma {:induction false} DigitsWithin(t: bytes, k: nat)
    requires k <= |t| && forall i | 0 <= i < k :: IsDigit(t[i])
    ensures k <= DigitLen(t)
  {
    if k > 0 {
      DigitsWithin(t[1..], k - 1);
    }
  }

  lemma ExponentWithin(t: bytes, k: nat, mark: bytes, sign: bytes, digits: bytes)
    requires k <= |t| && t[..k] == mark + sign + digits && Exponent(mark, sign, digits)
    ensures k <= ExponentLen(t)
  {
    if mark != [] {
      assert t[0] == t[..k][0] && t[1] == t[..k][1];
      var s := 1 + |sign|;
      assert forall i | s <= i < k :: t[i] == t[..k][i] == digits[i - s];
      DigitsWithin(t[s..], |digits|);
      assert s == if |t| > 1 && (t[1] == PLUS || t[1] == MINUS) then 2 else 1;
    }
  }

  lemma FractionWithin(t: bytes, fraction: bytes)
    requires |fraction| <= |t| && t[..|fraction|] == fraction
    requires fraction == [] || (fraction[0] == 46 && Digits(fraction[1..]))
    ensures |fraction| <= FractionLen(t)
    ensures |fraction| < FractionLen(t) ==> t[|fraction|] == 46 || IsDigit(t[|fraction|])
  {
    var k := |fraction|;
    if fraction != [] {
      assert forall i | 1 <= i < k :: t[i] == fraction[i] == fraction[1..][i - 1];
      DigitsWithin(t[1..], k - 1);
    }
  }

  /** A match of the mantissa is never longer than the one found; if it is shorter, a digit or a point comes next. */
  lemma MantissaWithin(t: bytes, whole: bytes, fraction: bytes)
    requires |whole + fraction| <= |t| && t[..|whole + fraction|] == whole + fraction && Mantissa(whole, fraction)
    ensures var k := |whole + fraction|;
      && 0 < k <= UnsignedLen(t) && (IsDigit(t[0]) || t[0] == 46)
      && (k < UnsignedLen(t) ==> IsDigit(t[k]) || t[k] == 46)
  {
    hide FractionLen;
    var a, k := |whole|, |whole + fraction|;
    assert forall i | 0 <= i < a :: t[i] == t[..k][i] == whole[i];
    DigitsWithin(t, a);
    assert fraction != [] ==> t[a] == t[..k][a] == fraction[0];
    if DigitLen(t) == a {
      assert t[a..][..|fraction|] == t[..k][a..] == fraction;
      FractionWithin(t[a..], fraction);
      assert t[0..] == t;
    }
  }

  /** No front of the text that is a numeral is longer than the match. */
  lemma MatchIsLongest(t: bytes, n: nat)
    requires n <= |t| && Numeral(t[..n])
    ensures n <= NumberLen(t)
  {
    hide UnsignedLen, ExponentLen, Mantissa, Exponent;
    var sign, whole, fraction, mark, expSign, digits :| Parts(t[..n], sign, whole, fraction, mark, expSign, digits);
    LongestParts(t, n, sign, whole, fraction, mark, expSign, digits);
  }

  lemma LongestParts(t: bytes, n: nat, sign: bytes, whole: bytes, fraction: bytes, mark: bytes, expSign: bytes, digits: bytes)
    requires n <= |t| && Parts(t[..n], sign, whole, fraction, mark, expSign, digits)
    ensures n <= NumberLen(t)
  {
    hide UnsignedLen, ExponentLen, Mantissa;
    var s, k := |sign|, |whole + fraction|;
    Pieces3(t, n, sign, whole + fraction, mark + expSign + digits);
    MantissaWithin(t[s..], whole, fraction);
    assert s > 0 ==> t[0] == t[..s][0];
    assert SignLen(t) == s && MantissaLen(t) == s + UnsignedLen(t[s..]);
    assert mark != [] ==> t[s..][k] == t[s + k..][..n - s - k][0] == mark[0];
    if UnsignedLen(t[s..]) == k {
      ExponentWithin(t[s + k..], n - s - k, mark, expSign, digits);
    }
  }

  lemma Pieces3(t: bytes, n: nat, a: bytes, b: bytes, c: bytes)
    requires n <= |t| && t[..n] == a + b + c
    ensures |a| + |b| + |c| == n && t[..|a|] == a && t[|a|..][..|b|] == b && t[|a| + |b|..][..|c|] == c
  {
    assert t[..|a|] == t[..n][..|a|];
    assert t[|a|..][..|b|] == t[..n][|a|..|a| + |b|];
    assert t[|a| + |b|..][..|c|] == t[..n][|a| + |b|..];
  }

  /**
   The parser's number token is the longest numeral at the front of the input, none when no front is one; it
   stands for itself without its leading plus.
   */
  lemma NumberMeans(t: bytes)
    ensures NumberLen(t) > 0 ==> Numeral(t[..NumberLen(t)])
    ensures forall n: nat | n <= |t| && Numeral(t[..n]) :: n <= NumberLen(t)
    ensures Numeral(t) ==> Denotes(t) == Some(Word(if t[0] == 43 then t[1..] else t))
  {
    hide NumberLen, Denotes, Numeral;
    if NumberLen(t) > 0 { MatchIsNumeral(t); }
    forall n: nat | n <= |t| && Numeral(t[..n]) ensures n <= NumberLen(t) { MatchIsLongest(t, n); }
    if Numeral(t) {
      assert t[..|t|] == t;
      NumeralNotEmpty(t);
      NumberDenotes(t);
    }
  }

  lemma NumeralNotEmpty(t: bytes)
    requires Numeral(t)
    ensures t != []
  {
  }
}
