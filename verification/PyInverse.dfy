/**
 Parse and Text are inverse: whatever Parse returns spells exactly the bytes it
 consumed, and every well-formed tree is read back from its own text.
 */
module PyInverse {
  import opened Wrappers
  import opened Bytes
  import opened PyGrammar

  // ---------------------------------------------------------------------
  // Soundness: a parsed tree is well formed and spells the input

  lemma {:induction false} PiecesSound(t: bytes, q: byte)
    requires IsQuote(q) && ParsePieces(t, q).Some?
    ensures var (ps, rest) := ParsePieces(t, q).value;
      && t == PiecesText(ps) + [q] + rest
      && forall i | 0 <= i < |ps| :: PieceOk(ps[i], q)
    decreases |t|
  {
    var (ps, rest) := ParsePieces(t, q).value;
    if t[0] != q {
      var n := if t[0] != BACKSLASH then 1 else if t[1] == LOWER_X then 4 else 2;
      PiecesSound(t[n..], q);
      var tail := ParsePieces(t[n..], q).value.0;
      assert ps == [ps[0]] + tail && ps[1..] == tail;
      calc {
        t;
        t[..n] + t[n..];
        { assert t[..n] == PieceText(ps[0]); Cat3(PiecesText(tail), [q], rest); }
        PieceText(ps[0]) + (PiecesText(tail) + ([q] + rest));
        { Cat4(PieceText(ps[0]), PiecesText(tail), [q], rest); }
        PieceText(ps[0]) + PiecesText(tail) + [q] + rest;
      }
    }
  }

  lemma StrSound(ws: bytes, prefix: bytes, u: bytes)
    requires u != [] && IsQuote(u[0]) && AllBlank(ws) && PrefixOk(prefix) && ParseStr(ws, prefix, u).Some?
    ensures var (c, rest) := ParseStr(ws, prefix, u).value;
      Ok(c) && c.ws == ws && prefix + u == Core(c) + rest
  {
    hide ParsePieces, PiecesText;
    PiecesSound(u[1..], u[0]);
    var (ps, rest) := ParsePieces(u[1..], u[0]).value;
    assert u == [u[0]] + u[1..];
    Cat3(PiecesText(ps), [u[0]], rest);
    Cat5(prefix, [u[0]], PiecesText(ps), [u[0]], rest);
  }

  lemma DigitPrefix(s: bytes, n: nat)
    requires DigitLen(s) <= n <= |s|
    ensures DigitLen(s[..n]) == DigitLen(s)
  {
    DigitLenUnique(s[..n], DigitLen(s));
  }

  lemma FractionPrefix(t: bytes, k: nat)
    requires FractionLen(t) <= k <= |t|
    ensures FractionLen(t[..k]) == FractionLen(t)
  {
    if t != [] && t[0] == DOT {
      assert t[..k][1..] == t[1..][..k - 1];
      DigitPrefix(t[1..], k - 1);
    }
  }

  lemma UnsignedPrefix(t: bytes, k: nat)
    requires 0 < UnsignedLen(t) <= k <= |t|
    ensures UnsignedLen(t[..k]) == UnsignedLen(t)
  {
    var a := DigitLen(t);
    DigitPrefix(t, k);
    assert t[..k][a..] == t[a..][..k - a];
    FractionPrefix(t[a..], k - a);
    if a == 0 {
      assert t[0..] == t;
    }
  }

  lemma MantissaPrefix(t: bytes, k: nat)
    requires 0 < MantissaLen(t) <= k <= |t|
    ensures MantissaLen(t[..k]) == MantissaLen(t)
  {
    var s := SignLen(t);
    assert t[..k][s..] == t[s..][..k - s];
    UnsignedPrefix(t[s..], k - s);
  }

  lemma ExponentPrefix(t: bytes)
    ensures ExponentLen(t[..ExponentLen(t)]) == ExponentLen(t)
  {
    var k := ExponentLen(t);
    if k > 0 {
      var s := if |t| > 1 && (t[1] == PLUS || t[1] == MINUS) then 2 else 1;
      assert t[..k][s..] == t[s..][..k - s];
      DigitPrefix(t[s..], k - s);
    }
  }

  lemma NumberPrefix(u: bytes)
    requires NumberLen(u) != 0
    ensures IsNumber(u[..NumberLen(u)])
  {
    hide UnsignedLen, ExponentLen;
    var k, m := NumberLen(u), MantissaLen(u);
    MantissaPrefix(u, k);
    assert u[..k][m..] == u[m..][..k - m];
    ExponentPrefix(u[m..]);
  }

  lemma {:induction false} Sound(t: bytes)
    requires Parse(t).Some?
    ensures var (c, rest) := Parse(t).value;
      Ok(c) && c.ws == t[..BlankLen(t)] && t == Text(c) + rest
    decreases |t|, 1
  {
    hide ParseCore, Core, Ok;
    var n := BlankLen(t);
    CoreSound(t[..n], t[n..]);
    assert t == t[..n] + t[n..];
  }

  lemma {:induction false} CoreSound(ws: bytes, u: bytes)
    requires AllBlank(ws) && ParseCore(ws, u).Some?
    ensures var (c, rest) := ParseCore(ws, u).value;
      Ok(c) && c.ws == ws && u == Core(c) + rest
    decreases |u|, 0
  {
    hide ParsePieces, ParseItems, ItemsText, LetterLen, NumberLen, Lower;
    assert u == u[..1] + u[1..];
    if IsQuote(u[0]) {
      StrSound(ws, [], u);
    } else if BytesPrefix(u) {
      StrSound(ws, u[..1], u[1..]);
    } else if u[0] == LBRACKET {
      ItemsSound(u[1..], RBRACKET);
      var (items, rest) := ParseItems(u[1..], RBRACKET).value;
      Cat3([LBRACKET], ItemsText(items, RBRACKET), rest);
    } else if u[0] == LPAREN {
      ParenSound(ws, u[1..]);
    } else if u[0] == LBRACE {
      BracesSound(ws, u[1..]);
    } else if NumberStart(u[0]) {
      NumberPrefix(u);
    }
  }

  lemma NextSplit(t: bytes, c: byte)
    requires NextIs(t, c)
    ensures var n := BlankLen(t); t == t[..n] + [c] + t[n + 1..]
  {
  }

  lemma {:induction false} ParenSound(ws: bytes, t: bytes)
    requires AllBlank(ws) && ParseParen(ws, t).Some?
    ensures var (c, rest) := ParseParen(ws, t).value;
      Ok(c) && c.ws == ws && [LPAREN] + t == Core(c) + rest
    decreases |t|, 2
  {
    if NextIs(t, RPAREN) {
      NextSplit(t, RPAREN);
      var m := BlankLen(t);
      Cat3([LPAREN], t[..m], [RPAREN] + t[m + 1..]);
      Cat3([LPAREN] + t[..m], [RPAREN], t[m + 1..]);
      Cat3(t[..m], [RPAREN], t[m + 1..]);
    } else {
      Sound(t);
      var (v, u) := Parse(t).value;
      var m := BlankLen(u);
      if NextIs(u, RPAREN) {
        NextSplit(u, RPAREN);
        GroupSplit(Text(v), u[..m], u[m + 1..]);
      } else {
        NextSplit(u, COMMA);
        ItemsSound(u[m + 1..], RPAREN);
        var (items, rest) := ParseItems(u[m + 1..], RPAREN).value;
        TupSplit(Text(v), u[..m], ItemsText(items, RPAREN), rest);
      }
    }
  }

  lemma GroupSplit(inner: bytes, after: bytes, rest: bytes)
    ensures [LPAREN] + (inner + (after + [RPAREN] + rest)) == [LPAREN] + inner + after + [RPAREN] + rest
  {
    Cat3(after, [RPAREN], rest);
    Cat5([LPAREN], inner, after, [RPAREN], rest);
  }

  lemma TupSplit(first: bytes, after: bytes, items: bytes, rest: bytes)
    ensures [LPAREN] + (first + (after + [COMMA] + (items + rest))) == [LPAREN] + first + after + [COMMA] + items + rest
  {
    Cat3(after, [COMMA], items + rest);
    Cat5([LPAREN], first, after, [COMMA], items + rest);
    Cat3([LPAREN] + first + after + [COMMA], items, rest);
  }

  lemma EmptyBracesSound(ws: bytes, t: bytes)
    requires NextIs(t, RBRACE) && AllBlank(ws)
    ensures ParseBraces(ws, t).Some?
    ensures var (c, rest) := ParseBraces(ws, t).value;
      Ok(c) && c.ws == ws && [LBRACE] + t == Core(c) + rest
  {
    hide ParseCore, ParseItem, ParseTail, Parse;
    NextSplit(t, RBRACE);
    var m := BlankLen(t);
    Cat4([LBRACE], t[..m], [RBRACE], t[m + 1..]);
  }

  lemma {:induction false} BracesSound(ws: bytes, t: bytes)
    requires AllBlank(ws) && ParseBraces(ws, t).Some?
    ensures var (c, rest) := ParseBraces(ws, t).value;
      Ok(c) && c.ws == ws && [LBRACE] + t == Core(c) + rest
    decreases |t|, 4
  {
    hide ParseCore, ParseItem, ParseTail, ItemText, TailText, Parse, ItemOk, TailOk;
    if NextIs(t, RBRACE) {
      NextSplit(t, RBRACE);
      EmptyBracesSound(ws, t);
    } else {
      var colon := NextIs(Parse(t).value.1, COLON);
      ItemSound(t, colon);
      var (item, u) := ParseItem(t, colon).value;
      TailSound(u, RBRACE, colon);
      var (tail, rest) := ParseTail(u, RBRACE, colon).value;
      Cat4([LBRACE], ItemText(item), TailText(tail, RBRACE), rest);
    }
  }

  lemma {:induction false} ItemSound(t: bytes, colon: bool)
    requires ParseItem(t, colon).Some?
    ensures var (it, rest) := ParseItem(t, colon).value;
      ItemOk(it, colon) && it.val.Value? == colon && t == ItemText(it) + rest
    decreases |t|, 2
  {
    hide Core, ParseCore, Ok;
    Sound(t);
    var (k, u) := Parse(t).value;
    if colon {
      NextSplit(u, COLON);
      Sound(u[BlankLen(u) + 1..]);
    }
  }

  lemma {:induction false} ItemsSound(t: bytes, close: byte)
    requires ParseItems(t, close).Some?
    ensures var (items, rest) := ParseItems(t, close).value;
      ItemsOk(items) && t == ItemsText(items, close) + rest
    decreases |t|, 3
  {
    hide Core, ParseItem, ParseTail, ItemText, TailText;
    if NextIs(t, close) {
      NextSplit(t, close);
    } else {
      ItemSound(t, false);
      var (item, u) := ParseItem(t, false).value;
      TailSound(u, close, false);
      var (tail, rest) := ParseTail(u, close, false).value;
      Cat3(ItemText(item), TailText(tail, close), rest);
    }
  }

  lemma {:induction false} TailSound(t: bytes, close: byte, colon: bool)
    requires ParseTail(t, close, colon).Some?
    ensures var (tail, rest) := ParseTail(t, close, colon).value;
      TailOk(tail, colon) && t == TailText(tail, close) + rest
    decreases |t|, 3
  {
    hide Core, ParseCore, Ok, ParseItem, ItemText;
    if NextIs(t, COMMA) {
      NextSplit(t, COMMA);
      var ws, u := t[..BlankLen(t)], t[BlankLen(t) + 1..];
      if NextIs(u, close) {
        NextSplit(u, close);
        TrailingSplit(ws, u[..BlankLen(u)], close, u[BlankLen(u) + 1..]);
      } else {
        ItemSound(u, colon);
        var (item, u2) := ParseItem(u, colon).value;
        TailSound(u2, close, colon);
        var (tail, rest) := ParseTail(u2, close, colon).value;
        MoreSplit(ws, ItemText(item), TailText(tail, close), rest);
      }
    } else {
      NextSplit(t, close);
    }
  }

  lemma TrailingSplit(ws: bytes, blank: bytes, close: byte, rest: bytes)
    ensures ws + [COMMA] + (blank + [close] + rest) == ws + [COMMA] + blank + [close] + rest
  {
    Cat3(blank, [close], rest);
    Cat4(ws + [COMMA], blank, [close], rest);
  }

  lemma MoreSplit(ws: bytes, item: bytes, tail: bytes, rest: bytes)
    ensures ws + [COMMA] + (item + (tail + rest)) == ws + [COMMA] + item + tail + rest
  {
    Cat4(ws + [COMMA], item, tail, rest);
  }

  // ---------------------------------------------------------------------
  // Completeness: every well-formed tree is read back from its text

  /** What may follow a value: nothing, a blank, or a separator. */
  predicate Delimited(post: bytes) {
    post == [] || IsBlank(post[0]) || post[0] == COMMA || post[0] == COLON
    || post[0] == RPAREN || post[0] == RBRACKET || post[0] == RBRACE
  }

  predicate IsClose(c: byte) {
    c == RPAREN || c == RBRACKET || c == RBRACE
  }

  lemma {:induction false} PiecesComplete(ps: seq<Piece>, q: byte, post: bytes)
    requires IsQuote(q) && forall i | 0 <= i < |ps| :: PieceOk(ps[i], q)
    ensures ParsePieces(PiecesText(ps) + [q] + post, q) == Some((ps, post))
  {
    var t := PiecesText(ps) + [q] + post;
    if ps == [] {
      assert t == [q] + post;
    } else {
      PiecesComplete(ps[1..], q, post);
      var n := |PieceText(ps[0])|;
      assert t == PieceText(ps[0]) + (PiecesText(ps[1..]) + [q] + post);
      assert t[n..] == PiecesText(ps[1..]) + [q] + post;
      assert ps == [ps[0]] + ps[1..];
    }
  }

  /** Bytes that cannot continue a mantissa. */
  predicate EndsMantissa(post: bytes) {
    post == [] || !(IsDigit(post[0]) || post[0] == DOT)
  }

  lemma DigitExtend(s: bytes, post: bytes)
    requires DigitLen(s) < |s| || post == [] || !IsDigit(post[0])
    ensures DigitLen(s + post) == DigitLen(s)
  {
    DigitLenUnique(s + post, DigitLen(s));
  }

  lemma FractionExtend(t: bytes, post: bytes)
    requires EndsMantissa(post)
    ensures FractionLen(t + post) == FractionLen(t)
  {
    if t != [] && t[0] == DOT {
      assert (t + post)[1..] == t[1..] + post;
      DigitExtend(t[1..], post);
    } else if t == [] {
      assert t + post == post;
    }
  }

  lemma UnsignedExtend(t: bytes, post: bytes)
    requires EndsMantissa(post)
    ensures UnsignedLen(t + post) == UnsignedLen(t)
  {
    DigitExtend(t, post);
    var a := DigitLen(t);
    assert (t + post)[a..] == t[a..] + post;
    FractionExtend(t[a..], post);
    FractionExtend(t, post);
  }

  lemma MantissaExtend(t: bytes, post: bytes)
    requires t != [] && EndsMantissa(post)
    ensures MantissaLen(t + post) == MantissaLen(t)
  {
    var s := SignLen(t);
    assert (t + post)[s..] == t[s..] + post;
    UnsignedExtend(t[s..], post);
  }

  lemma ExponentExtend(e: bytes, post: bytes)
    requires ExponentLen(e) == |e| && Delimited(post)
    ensures ExponentLen(e + post) == |e|
  {
    if e == [] {
      assert e + post == post;
    } else {
      var s := if |e| > 1 && (e[1] == PLUS || e[1] == MINUS) then 2 else 1;
      assert (e + post)[s..] == e[s..] + post;
      DigitExtend(e[s..], post);
    }
  }

  lemma NumberExtend(tok: bytes, post: bytes)
    requires IsNumber(tok) && Delimited(post)
    ensures NumberLen(tok + post) == |tok|
  {
    hide UnsignedLen;
    var m := MantissaLen(tok);
    var a, e := tok[..m], tok[m..];
    MantissaPrefix(tok, m);
    assert tok + post == a + (e + post);
    MantissaExtend(a, e + post);
    assert (a + (e + post))[m..] == e + post;
    ExponentExtend(e, post);
  }

  lemma KeywordLetters(tok: bytes)
    requires IsKeyword(tok)
    ensures |tok| >= 4 && IsLetter(tok[0]) && tok[0] != 98 && tok[0] != 66
    ensures forall i | 0 <= i < |tok| :: IsLetter(tok[i])
  {
    var l := Lower(tok);
    forall i | 0 <= i < |tok| ensures IsLetter(tok[i]) {
      assert l[i] == ToLower(tok[i]);
    }
    assert l[0] == ToLower(tok[0]);
  }

  lemma AtomComplete(ws: bytes, tok: bytes, post: bytes)
    requires IsNumber(tok) || IsKeyword(tok)
    requires Delimited(post)
    ensures ParseCore(ws, tok + post) == Some((Atom(ws, tok), post))
  {
    var u := tok + post;
    if IsKeyword(tok) {
      KeywordLetters(tok);
      LetterLenUnique(u, |tok|);
    } else {
      NumberExtend(tok, post);
      assert NumberStart(tok[0]);
    }
    assert u[..|tok|] == tok && u[|tok|..] == post;
  }

  /** The first byte of a core is never blank, never a closer, never a colon or comma. */
  lemma CoreHead(c: Cst)
    requires Ok(c)
    ensures Core(c) != []
    ensures var h := Core(c)[0]; !IsBlank(h) && !IsClose(h) && h != COMMA && h != COLON
  {
    if c.Atom? && IsKeyword(c.tok) {
      KeywordLetters(c.tok);
    } else if c.Atom? {
      assert NumberStart(c.tok[0]);
    }
  }

  lemma NextAfterBlanks(ws: bytes, c: byte, post: bytes)
    requires AllBlank(ws) && !IsBlank(c)
    ensures var t := ws + [c] + post;
      && BlankLen(t) == |ws| && t[..|ws|] == ws && t[|ws| + 1..] == post
      && NextIs(t, c) && forall d | d != c :: !NextIs(t, d)
  {
    var t := ws + [c] + post;
    assert t[..|ws|] == ws && t[|ws|] == c;
    BlankLenUnique(t, |ws|);
  }

  lemma ValueHead(c: Cst, post: bytes)
    requires Ok(c)
    ensures var t := Text(c) + post;
      && BlankLen(t) == |c.ws| && t[..|c.ws|] == c.ws && t[|c.ws|..] == Core(c) + post
      && !NextIs(t, RPAREN) && !NextIs(t, RBRACKET) && !NextIs(t, RBRACE) && !NextIs(t, COMMA)
  {
    CoreHead(c);
    HeadAfterBlanks(c.ws, Core(c), post);
  }

  lemma HeadAfterBlanks(ws: bytes, core: bytes, post: bytes)
    requires AllBlank(ws) && core != [] && !IsBlank(core[0])
    ensures var t := ws + core + post;
      && BlankLen(t) == |ws| && t[..|ws|] == ws && t[|ws|..] == core + post
      && forall d | d != core[0] :: !NextIs(t, d)
  {
    var t := ws + core + post;
    assert t[..|ws|] == ws && t[|ws|..] == core + post;
    assert t[|ws|] == core[0];
    BlankLenUnique(t, |ws|);
  }

  lemma {:induction false} Complete(c: Cst, post: bytes)
    requires Ok(c) && Delimited(post)
    ensures Parse(Text(c) + post) == Some((c, post))
    decreases c, 2
  {
    ValueHead(c, post);
    CoreComplete(c, post);
  }

  lemma {:induction false} CoreComplete(c: Cst, post: bytes)
    requires Ok(c) && Delimited(post)
    ensures ParseCore(c.ws, Core(c) + post) == Some((c, post))
    decreases c, 1
  {
    match c
    case Atom(ws, tok) => AtomComplete(ws, tok, post);
    case Str(ws, prefix, q, ps) => StrComplete(ws, prefix, q, ps, post);
    case ListC(_, _) => ListComplete(c, post);
    case Unit(ws, blank) => UnitComplete(ws, blank, post);
    case Group(_, _, _) => GroupComplete(c, post);
    case Tup(_, _, _, _) => TupComplete(c, post);
    case EmptyBraces(ws, blank) => EmptyBracesComplete(ws, blank, post);
    case Braces(_, _, _) => BracesComplete(c, post);
  }

  lemma UnitComplete(ws: bytes, blank: bytes, post: bytes)
    requires AllBlank(blank)
    ensures ParseCore(ws, [LPAREN] + blank + [RPAREN] + post) == Some((Unit(ws, blank), post))
  {
    NextAfterBlanks(blank, RPAREN, post);
    OpenCore(LPAREN, blank + [RPAREN], post);
    Cat3([LPAREN], blank, [RPAREN]);
    ParenCore(ws, [LPAREN] + blank + [RPAREN] + post);
  }

  lemma EmptyBracesComplete(ws: bytes, blank: bytes, post: bytes)
    requires AllBlank(blank)
    ensures ParseCore(ws, [LBRACE] + blank + [RBRACE] + post) == Some((EmptyBraces(ws, blank), post))
  {
    NextAfterBlanks(blank, RBRACE, post);
    OpenCore(LBRACE, blank + [RBRACE], post);
    Cat3([LBRACE], blank, [RBRACE]);
    BraceCore(ws, [LBRACE] + blank + [RBRACE] + post);
  }

  lemma {:induction false} ListComplete(c: Cst, post: bytes)
    requires Ok(c) && c.ListC?
    ensures ParseCore(c.ws, Core(c) + post) == Some((c, post))
    decreases c, 0
  {
    hide ParseItems, ItemsText;
    ItemsComplete(c.items, RBRACKET, post);
    OpenCore(LBRACKET, ItemsText(c.items, RBRACKET), post);
  }

  lemma {:induction false} GroupComplete(c: Cst, post: bytes)
    requires Ok(c) && c.Group?
    ensures ParseCore(c.ws, Core(c) + post) == Some((c, post))
    decreases c, 0
  {
    var rest := c.after + [RPAREN] + post;
    assert ParseParen(c.ws, Text(c.inner) + rest) == Some((c, post)) by {
      NextAfterBlanks(c.after, RPAREN, post);
      ValueHead(c.inner, rest);
      Complete(c.inner, rest);
      GroupStep(c.ws, Text(c.inner) + rest, c.inner, rest);
    }
    GroupText(Text(c.inner), c.after, post);
    ParenCore(c.ws, Core(c) + post);
  }

  lemma GroupStep(ws: bytes, t: bytes, inner: Cst, u: bytes)
    requires !NextIs(t, RPAREN) && Parse(t) == Some((inner, u)) && NextIs(u, RPAREN)
    ensures ParseParen(ws, t) == Some((Group(ws, inner, u[..BlankLen(u)]), u[BlankLen(u) + 1..]))
  {
  }

  lemma GroupText(inner: bytes, after: bytes, post: bytes)
    ensures var core := [LPAREN] + inner + after + [RPAREN];
      && (core + post)[0] == LPAREN
      && (core + post)[1..] == inner + (after + [RPAREN] + post)
  {
    Cat4([LPAREN], inner, after, [RPAREN]);
    Cat3(inner, after, [RPAREN]);
    OpenCore(LPAREN, inner + after + [RPAREN], post);
    Cat3(inner, after + [RPAREN], post);
    Cat3(inner, after, [RPAREN]);
  }

  lemma {:induction false} TupComplete(c: Cst, post: bytes)
    requires Ok(c) && c.Tup?
    ensures ParseCore(c.ws, Core(c) + post) == Some((c, post))
    decreases c, 0
  {
    var more := ItemsText(c.items, RPAREN) + post;
    var rest := c.after + [COMMA] + more;
    assert ParseParen(c.ws, Text(c.first) + rest) == Some((c, post)) by {
      NextAfterBlanks(c.after, COMMA, more);
      ValueHead(c.first, rest);
      Complete(c.first, rest);
      ItemsComplete(c.items, RPAREN, post);
      TupStep(c.ws, Text(c.first) + rest, c.first, rest, c.items, post);
    }
    TupText(Text(c.first), c.after, ItemsText(c.items, RPAREN), post);
    ParenCore(c.ws, Core(c) + post);
  }

  lemma ParenCore(ws: bytes, u: bytes)
    requires u != [] && u[0] == LPAREN
    ensures ParseCore(ws, u) == ParseParen(ws, u[1..])
  {
  }

  lemma BraceCore(ws: bytes, u: bytes)
    requires u != [] && u[0] == LBRACE
    ensures ParseCore(ws, u) == ParseBraces(ws, u[1..])
  {
  }

  lemma TupStep(ws: bytes, t: bytes, first: Cst, u: bytes, items: Items, rest: bytes)
    requires !NextIs(t, RPAREN) && Parse(t) == Some((first, u))
    requires !NextIs(u, RPAREN) && NextIs(u, COMMA)
    requires ParseItems(u[BlankLen(u) + 1..], RPAREN) == Some((items, rest))
    ensures ParseParen(ws, t) == Some((Tup(ws, first, u[..BlankLen(u)], items), rest))
  {
  }

  lemma {:induction false} BracesComplete(c: Cst, post: bytes)
    requires Ok(c) && c.Braces?
    ensures ParseCore(c.ws, Core(c) + post) == Some((c, post))
    decreases c, 0
  {
    var colon := c.item.val.Value?;
    var item, tail := ItemText(c.item), TailText(c.tail, RBRACE);
    assert ParseBraces(c.ws, item + (tail + post)) == Some((c, post)) by {
      TailHead(c.tail, RBRACE, colon, post);
      TailComplete(c.tail, RBRACE, colon, post);
      ItemComplete(c.item, colon, tail + post);
      BracesStep(c.ws, item + (tail + post), c.item, tail + post, c.tail, post);
    }
    Cat3([LBRACE], item, tail);
    OpenCore(LBRACE, item + tail, post);
    Cat3(item, tail, post);
    BraceCore(c.ws, Core(c) + post);
  }

  lemma BracesStep(ws: bytes, t: bytes, item: Item, u: bytes, tail: Tail, rest: bytes)
    requires !NextIs(t, RBRACE) && Parse(t).Some? && NextIs(Parse(t).value.1, COLON) == item.val.Value?
    requires ParseItem(t, item.val.Value?) == Some((item, u))
    requires ParseTail(u, RBRACE, item.val.Value?) == Some((tail, rest))
    ensures ParseBraces(ws, t) == Some((Braces(ws, item, tail), rest))
  {
  }

  lemma OpenCore(open: byte, body: bytes, post: bytes)
    ensures [open] + body + post == [open] + (body + post)
    ensures ([open] + body + post)[1..] == body + post
  {
  }

  lemma TupText(first: bytes, after: bytes, items: bytes, post: bytes)
    ensures var core := [LPAREN] + first + after + [COMMA] + items;
      && (core + post)[0] == LPAREN
      && (core + post)[1..] == first + (after + [COMMA] + (items + post))
  {
    var body := first + after + [COMMA] + items;
    assert [LPAREN] + first + after + [COMMA] + items == [LPAREN] + body;
    OpenCore(LPAREN, body, post);
  }

  lemma StrComplete(ws: bytes, prefix: bytes, q: byte, ps: seq<Piece>, post: bytes)
    requires PrefixOk(prefix) && IsQuote(q) && forall i | 0 <= i < |ps| :: PieceOk(ps[i], q)
    ensures ParseCore(ws, prefix + [q] + PiecesText(ps) + [q] + post) == Some((Str(ws, prefix, q, ps), post))
  {
    PiecesComplete(ps, q, post);
    var body := PiecesText(ps) + [q] + post;
    var u := prefix + [q] + PiecesText(ps) + [q] + post;
    assert u == prefix + ([q] + body);
    if prefix == [] {
      assert u[0] == q && u[1..] == body;
    } else {
      assert u[..1] == prefix && u[1..] == [q] + body && u[1] == q;
      assert u[1..][1..] == body;
    }
  }

  /** A tail begins, after blanks, with a comma or its closer. */
  lemma TailHead(tail: Tail, close: byte, colon: bool, post: bytes)
    requires TailOk(tail, colon) && IsClose(close)
    ensures var t := TailText(tail, close) + post;
      Delimited(t) && !NextIs(t, COLON)
  {
    var t := TailText(tail, close) + post;
    match tail
    case End(ws) =>
      assert t == ws + [close] + post;
      NextAfterBlanks(ws, close, post);
    case TrailingComma(ws, blank) =>
      assert t == ws + [COMMA] + (blank + [close] + post);
      NextAfterBlanks(ws, COMMA, blank + [close] + post);
    case More(ws, item, rest) =>
      var more := ItemText(item) + TailText(rest, close);
      Cat3(ws + [COMMA], ItemText(item), TailText(rest, close));
      Cat3(ws + [COMMA], more, post);
      NextAfterBlanks(ws, COMMA, more + post);
  }

  /** Reading an item back; the key parse is also what the braces peek at. */
  lemma {:induction false} ItemComplete(it: Item, colon: bool, post: bytes)
    requires ItemOk(it, colon) && Delimited(post) && !NextIs(post, COLON)
    ensures var t := ItemText(it) + post;
      && ParseItem(t, colon) == Some((it, post))
      && Parse(t).Some? && NextIs(Parse(t).value.1, COLON) == colon
      && !NextIs(t, RPAREN) && !NextIs(t, RBRACKET) && !NextIs(t, RBRACE)
    decreases it, 0
  {
    hide Core, ParseCore;
    var t := ItemText(it) + post;
    match it.val
    case NoValue =>
      assert ValueText(it.val) == [];
      assert Text(it.k) + [] == Text(it.k);
      ValueHead(it.k, post);
      Complete(it.k, post);
    case Value(ws, v) =>
      var more := Text(v) + post;
      var rest := ws + [COLON] + more;
      Cat3(ws + [COLON], Text(v), post);
      Cat3(Text(it.k), ValueText(it.val), post);
      NextAfterBlanks(ws, COLON, more);
      ValueHead(it.k, rest);
      Complete(it.k, rest);
      Complete(v, post);
  }

  lemma {:induction false} ItemsComplete(items: Items, close: byte, post: bytes)
    requires ItemsOk(items) && IsClose(close)
    ensures ParseItems(ItemsText(items, close) + post, close) == Some((items, post))
    decreases items, 0
  {
    var t := ItemsText(items, close) + post;
    match items
    case Close(ws) =>
      assert t == ws + [close] + post;
      NextAfterBlanks(ws, close, post);
    case Cons(item, tail) =>
      var rest := TailText(tail, close) + post;
      assert t == ItemText(item) + rest;
      TailHead(tail, close, false, post);
      TailComplete(tail, close, false, post);
      ItemComplete(item, false, rest);
  }

  lemma {:induction false} TailComplete(tail: Tail, close: byte, colon: bool, post: bytes)
    requires TailOk(tail, colon) && IsClose(close)
    ensures ParseTail(TailText(tail, close) + post, close, colon) == Some((tail, post))
    decreases tail, 0
  {
    hide Core, Parse, ParseItem, ItemText, Ok;
    match tail
    case End(ws) => NextAfterBlanks(ws, close, post);
    case TrailingComma(ws, blank) =>
      TrailingSplit(ws, blank, close, post);
      NextAfterBlanks(ws, COMMA, blank + [close] + post);
      NextAfterBlanks(blank, close, post);
    case More(ws, item, rest) =>
      var more := TailText(rest, close) + post;
      MoreSplit(ws, ItemText(item), TailText(rest, close), post);
      NextAfterBlanks(ws, COMMA, ItemText(item) + more);
      TailHead(rest, close, colon, post);
      ItemComplete(item, colon, more);
      TailComplete(rest, close, colon, post);
      MoreStep(TailText(tail, close) + post, close, colon, item, more, rest, post);
  }

  lemma MoreStep(t: bytes, close: byte, colon: bool, item: Item, u: bytes, tail: Tail, rest: bytes)
    requires NextIs(t, COMMA) && !NextIs(t[BlankLen(t) + 1..], close)
    requires ParseItem(t[BlankLen(t) + 1..], colon) == Some((item, u))
    requires ParseTail(u, close, colon) == Some((tail, rest))
    ensures ParseTail(t, close, colon) == Some((More(t[..BlankLen(t)], item, tail), rest))
  {
  }

  /** The two halves together: a text has at most one tree and t is read as c exactly when c spells it. */
  lemma ParseIsInverse(t: bytes, c: Cst, rest: bytes)
    requires Delimited(rest)
    ensures Parse(t) == Some((c, rest)) <==> Ok(c) && t == Text(c) + rest
  {
    if Parse(t) == Some((c, rest)) {
      Sound(t);
    }
    if Ok(c) && t == Text(c) + rest {
      Complete(c, rest);
    }
  }
}
