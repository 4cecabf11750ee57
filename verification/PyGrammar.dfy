/**
 The literal language that internal/evaluator/outputmatch.go accepts, as a
 pair of inverse functions. A concrete syntax tree (Cst) keeps every choice a
 writer makes: blanks, quote style, escapes, grouping, trailing commas. Text
 spells a tree; the Parse functions read one back from a suffix of the input.
 */
module PyGrammar {
  import opened Wrappers
  import opened Bytes

  /** One unit of a quoted body: a plain byte or one of the known escapes. */
  datatype Piece = Raw(c: byte) | Esc(code: byte) | Hex(hi: byte, lo: byte)

  datatype Cst =
    | Atom(ws: bytes, tok: bytes)
    | Str(ws: bytes, prefix: bytes, quote: byte, pieces: seq<Piece>)
    | ListC(ws: bytes, items: Items)
    | Unit(ws: bytes, blank: bytes)
    | Group(ws: bytes, inner: Cst, after: bytes)
    | Tup(ws: bytes, first: Cst, after: bytes, items: Items)
    | EmptyBraces(ws: bytes, blank: bytes)
    | Braces(ws: bytes, item: Item, tail: Tail)

  datatype Item = Item(k: Cst, val: Value)
  datatype Value = NoValue | Value(ws: bytes, v: Cst)
  datatype Items = Close(ws: bytes) | Cons(item: Item, tail: Tail)
  datatype Tail = End(ws: bytes) | TrailingComma(ws: bytes, blank: bytes) | More(ws: bytes, item: Item, tail: Tail)

  // ---------------------------------------------------------------------
  // Tokens

  function ExponentLen(t: bytes): (n: nat)
    ensures n <= |t|
  {
    if t == [] || !(t[0] == 101 || t[0] == 69) then 0 else
    var s := if |t| > 1 && (t[1] == PLUS || t[1] == MINUS) then 2 else 1;
    var d := DigitLen(t[s..]);
    if d == 0 then 0 else s + d
  }

  function SignLen(t: bytes): (n: nat)
    ensures n <= |t|
  {
    if t != [] && (t[0] == PLUS || t[0] == MINUS) then 1 else 0
  }

  function FractionLen(t: bytes): (n: nat)
    ensures n <= |t|
  {
    if t != [] && t[0] == DOT then 1 + DigitLen(t[1..]) else 0
  }

  /** Digits with an optional fraction, or a fraction that has digits. */
  function UnsignedLen(t: bytes): (n: nat)
    ensures n <= |t|
  {
    var a := DigitLen(t);
    if a > 0 then a + FractionLen(t[a..])
    else if FractionLen(t) > 1 then FractionLen(t)
    else 0
  }

  function MantissaLen(t: bytes): (n: nat)
    ensures n <= |t|
  {
    var s := SignLen(t);
    var m := UnsignedLen(t[s..]);
    if m == 0 then 0 else s + m
  }

  /** What the number expression matches at the front of t; 0 is no match. */
  function NumberLen(t: bytes): (n: nat)
    ensures n <= |t|
  {
    var m := MantissaLen(t);
    if m == 0 then 0 else m + ExponentLen(t[m..])
  }

  predicate IsNumber(tok: bytes) {
    tok != [] && NumberLen(tok) == |tok|
  }

  const TRUE_LOWER: bytes := [116, 114, 117, 101]
  const FALSE_LOWER: bytes := [102, 97, 108, 115, 101]
  const NONE_LOWER: bytes := [110, 111, 110, 101]

  predicate IsKeyword(tok: bytes) {
    var l := Lower(tok);
    l == TRUE_LOWER || l == FALSE_LOWER || l == NONE_LOWER
  }

  predicate NumberStart(c: byte) {
    c == MINUS || c == PLUS || c == DOT || IsDigit(c)
  }

  predicate IsEscapeCode(c: byte) {
    c == 110 || c == 116 || c == 114 || c == BACKSLASH || c == SQUOTE || c == DQUOTE
  }

  predicate IsHex(c: byte) {
    IsDigit(c) || 97 <= c <= 102 || 65 <= c <= 70
  }

  const LOWER_X: byte := 120

  // ---------------------------------------------------------------------
  // Spelling a tree

  function PieceText(p: Piece): bytes {
    match p
    case Raw(c) => [c]
    case Esc(e) => [BACKSLASH, e]
    case Hex(h, l) => [BACKSLASH, LOWER_X, h, l]
  }

  function PiecesText(ps: seq<Piece>): bytes {
    if ps == [] then [] else PieceText(ps[0]) + PiecesText(ps[1..])
  }

  function Text(c: Cst): bytes {
    c.ws + Core(c)
  }

  /** The text of a tree without the blanks before it. */
  function Core(c: Cst): bytes
    decreases c, 0
  {
    match c
    case Atom(_, tok) => tok
    case Str(_, prefix, q, ps) => prefix + [q] + PiecesText(ps) + [q]
    case ListC(_, items) => [LBRACKET] + ItemsText(items, RBRACKET)
    case Unit(_, blank) => [LPAREN] + blank + [RPAREN]
    case Group(_, inner, after) => [LPAREN] + (inner.ws + Core(inner)) + after + [RPAREN]
    case Tup(_, first, after, items) => [LPAREN] + (first.ws + Core(first)) + after + [COMMA] + ItemsText(items, RPAREN)
    case EmptyBraces(_, blank) => [LBRACE] + blank + [RBRACE]
    case Braces(_, item, tail) => [LBRACE] + ItemText(item) + TailText(tail, RBRACE)
  }

  function ItemText(it: Item): bytes
    decreases it, 0
  {
    (it.k.ws + Core(it.k)) + ValueText(it.val)
  }

  function ValueText(v: Value): bytes
    decreases v, 0
  {
    match v
    case NoValue => []
    case Value(ws, c) => ws + [COLON] + (c.ws + Core(c))
  }

  function ItemsText(items: Items, close: byte): bytes
    decreases items, 0
  {
    match items
    case Close(ws) => ws + [close]
    case Cons(item, tail) => ItemText(item) + TailText(tail, close)
  }

  function TailText(tail: Tail, close: byte): bytes
    decreases tail, 0
  {
    match tail
    case End(ws) => ws + [close]
    case TrailingComma(ws, blank) => ws + [COMMA] + blank + [close]
    case More(ws, item, rest) => ws + [COMMA] + ItemText(item) + TailText(rest, close)
  }

  // ---------------------------------------------------------------------
  // Well-formed trees

  predicate PieceOk(p: Piece, q: byte) {
    match p
    case Raw(c) => c != q && c != BACKSLASH
    case Esc(e) => IsEscapeCode(e)
    case Hex(h, l) => IsHex(h) && IsHex(l)
  }

  predicate PrefixOk(prefix: bytes) {
    prefix == [] || prefix == [98] || prefix == [66]
  }

  predicate Ok(c: Cst)
    decreases c, 0
  {
    && AllBlank(c.ws)
    && match c
       case Atom(_, tok) => IsNumber(tok) || IsKeyword(tok)
       case Str(_, prefix, q, ps) => PrefixOk(prefix) && IsQuote(q) && forall i | 0 <= i < |ps| :: PieceOk(ps[i], q)
       case ListC(_, items) => ItemsOk(items)
       case Unit(_, blank) => AllBlank(blank)
       case Group(_, inner, after) => Ok(inner) && AllBlank(after)
       case Tup(_, first, after, items) => Ok(first) && AllBlank(after) && ItemsOk(items)
       case EmptyBraces(_, blank) => AllBlank(blank)
       case Braces(_, item, tail) => ItemOk(item, item.val.Value?) && TailOk(tail, item.val.Value?)
  }

  /** In one pair of braces either every item carries a value or none does. */
  predicate ItemOk(it: Item, colon: bool)
    decreases it, 0
  {
    Ok(it.k) && it.val.Value? == colon && ValueOk(it.val)
  }

  predicate ValueOk(v: Value)
    decreases v, 0
  {
    match v
    case NoValue => true
    case Value(ws, c) => AllBlank(ws) && Ok(c)
  }

  predicate ItemsOk(items: Items)
    decreases items, 0
  {
    match items
    case Close(ws) => AllBlank(ws)
    case Cons(item, tail) => ItemOk(item, false) && TailOk(tail, false)
  }

  predicate TailOk(tail: Tail, colon: bool)
    decreases tail, 0
  {
    match tail
    case End(ws) => AllBlank(ws)
    case TrailingComma(ws, blank) => AllBlank(ws) && AllBlank(blank)
    case More(ws, item, rest) => AllBlank(ws) && ItemOk(item, colon) && TailOk(rest, colon)
  }

  // ---------------------------------------------------------------------
  // Reading a tree back. Each function takes the unread suffix and returns
  // the tree with what is left. The recursion always consumes bytes.

  function ParsePieces(t: bytes, q: byte): (r: Option<(seq<Piece>, bytes)>)
    ensures r.Some? ==> |r.value.1| < |t|
  {
    if t == [] then None
    else if t[0] == q then Some(([], t[1..]))
    else if t[0] == BACKSLASH then
      if |t| < 2 then None
      else if t[1] == LOWER_X then
        if |t| < 4 || !IsHex(t[2]) || !IsHex(t[3]) then None
        else Prepend(Hex(t[2], t[3]), ParsePieces(t[4..], q))
      else if IsEscapeCode(t[1]) then Prepend(Esc(t[1]), ParsePieces(t[2..], q))
      else None
    else Prepend(Raw(t[0]), ParsePieces(t[1..], q))
  }

  function Prepend(p: Piece, r: Option<(seq<Piece>, bytes)>): Option<(seq<Piece>, bytes)> {
    match r
    case None => None
    case Some((ps, rest)) => Some(([p] + ps, rest))
  }

  function ParseStr(ws: bytes, prefix: bytes, u: bytes): (r: Option<(Cst, bytes)>)
    requires u != []
    ensures r.Some? ==> |r.value.1| < |u|
  {
    match ParsePieces(u[1..], u[0])
    case None => None
    case Some((ps, rest)) => Some((Str(ws, prefix, u[0], ps), rest))
  }

  predicate BytesPrefix(u: bytes) {
    |u| > 1 && (u[0] == 98 || u[0] == 66) && IsQuote(u[1])
  }

  function Parse(t: bytes): (r: Option<(Cst, bytes)>)
    ensures r.Some? ==> |r.value.1| < |t|
    decreases |t|, 1
  {
    var n := BlankLen(t);
    ParseCore(t[..n], t[n..])
  }

  function ParseCore(ws: bytes, u: bytes): (r: Option<(Cst, bytes)>)
    ensures r.Some? ==> |r.value.1| < |u|
    decreases |u|, 0
  {
    if u == [] then None
    else if IsQuote(u[0]) then ParseStr(ws, [], u)
    else if BytesPrefix(u) then ParseStr(ws, u[..1], u[1..])
    else if u[0] == LBRACKET then
      match ParseItems(u[1..], RBRACKET)
      case None => None
      case Some((items, rest)) => Some((ListC(ws, items), rest))
    else if u[0] == LPAREN then ParseParen(ws, u[1..])
    else if u[0] == LBRACE then ParseBraces(ws, u[1..])
    else if NumberStart(u[0]) then
      var k := NumberLen(u);
      if k == 0 then None else Some((Atom(ws, u[..k]), u[k..]))
    else if IsLetter(u[0]) then
      var k := LetterLen(u);
      if IsKeyword(u[..k]) then Some((Atom(ws, u[..k]), u[k..])) else None
    else None
  }

  /** Whether the first byte after the blanks is c. */
  predicate NextIs(t: bytes, c: byte) {
    var n := BlankLen(t);
    n < |t| && t[n] == c
  }

  function ParseParen(ws: bytes, t: bytes): (r: Option<(Cst, bytes)>)
    ensures r.Some? ==> |r.value.1| < |t|
    decreases |t|, 2
  {
    var n := BlankLen(t);
    if NextIs(t, RPAREN) then Some((Unit(ws, t[..n]), t[n + 1..]))
    else match Parse(t)
      case None => None
      case Some((v, u)) =>
        var m := BlankLen(u);
        if NextIs(u, RPAREN) then Some((Group(ws, v, u[..m]), u[m + 1..]))
        else if !NextIs(u, COMMA) then None
        else match ParseItems(u[m + 1..], RPAREN)
          case None => None
          case Some((items, rest)) => Some((Tup(ws, v, u[..m], items), rest))
  }

  function ParseBraces(ws: bytes, t: bytes): (r: Option<(Cst, bytes)>)
    ensures r.Some? ==> |r.value.1| < |t|
    decreases |t|, 4
  {
    var n := BlankLen(t);
    if NextIs(t, RBRACE) then Some((EmptyBraces(ws, t[..n]), t[n + 1..]))
    else match Parse(t)
      case None => None
      case Some((_, u)) =>
        var colon := NextIs(u, COLON);
        match ParseItem(t, colon)
        case None => None
        case Some((item, u2)) =>
          match ParseTail(u2, RBRACE, colon)
          case None => None
          case Some((tail, rest)) => Some((Braces(ws, item, tail), rest))
  }

  function ParseItem(t: bytes, colon: bool): (r: Option<(Item, bytes)>)
    ensures r.Some? ==> |r.value.1| < |t|
    decreases |t|, 2
  {
    match Parse(t)
    case None => None
    case Some((k, u)) =>
      if !colon then Some((Item(k, NoValue), u))
      else if !NextIs(u, COLON) then None
      else
        var m := BlankLen(u);
        match Parse(u[m + 1..])
        case None => None
        case Some((v, rest)) => Some((Item(k, Value(u[..m], v)), rest))
  }

  function ParseItems(t: bytes, close: byte): (r: Option<(Items, bytes)>)
    ensures r.Some? ==> |r.value.1| < |t|
    decreases |t|, 3
  {
    var n := BlankLen(t);
    if NextIs(t, close) then Some((Close(t[..n]), t[n + 1..]))
    else match ParseItem(t, false)
      case None => None
      case Some((item, u)) =>
        match ParseTail(u, close, false)
        case None => None
        case Some((tail, rest)) => Some((Cons(item, tail), rest))
  }

  function ParseTail(t: bytes, close: byte, colon: bool): (r: Option<(Tail, bytes)>)
    ensures r.Some? ==> |r.value.1| < |t|
    decreases |t|, 3
  {
    var n := BlankLen(t);
    if NextIs(t, COMMA) then
      var u := t[n + 1..];
      var m := BlankLen(u);
      if NextIs(u, close) then Some((TrailingComma(t[..n], u[..m]), u[m + 1..]))
      else match ParseItem(u, colon)
        case None => None
        case Some((item, u2)) =>
          match ParseTail(u2, close, colon)
          case None => None
          case Some((tail, rest)) => Some((More(t[..n], item, tail), rest))
    else if NextIs(t, close) then Some((End(t[..n]), t[n + 1..]))
    else None
  }
}
