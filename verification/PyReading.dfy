/**
 What the parser is to return at each point: the canonical text of the tree
 that Parse reads, one step of a loop at a time.
 */
module PyReading {
  import opened Wrappers
  import opened Bytes
  import opened PyGrammar
  import opened PyInverse
  import opened KeySort
  import opened PyCanon
  import opened PyEscapes

  /** The value at the front of t in canonical form, with what follows it. */
  function Reading(t: bytes): Option<(bytes, bytes)> {
    match Parse(t)
    case None => None
    case Some((c, rest)) => Sound(t); Some((Canon(Tree(c)), rest))
  }

  function CoreReading(u: bytes): Option<(bytes, bytes)> {
    match ParseCore([], u)
    case None => None
    case Some((c, rest)) => CoreSound([], u); Some((Canon(Tree(c)), rest))
  }

  function WithBlanks(ws: bytes, r: Option<(Cst, bytes)>): Option<(Cst, bytes)> {
    match r
    case None => None
    case Some((c, rest)) => Some((c.(ws := ws), rest))
  }

  lemma CoreWithBlanks(ws: bytes, u: bytes)
    ensures ParseCore(ws, u) == WithBlanks(ws, ParseCore([], u))
  {
    hide Parse, ParseItems, ParsePieces, NumberLen, LetterLen, ParseItem, ParseTail, IsKeyword;
    if u != [] && u[0] == LPAREN {
      assert ParseParen(ws, u[1..]) == WithBlanks(ws, ParseParen([], u[1..]));
    } else if u != [] && u[0] == LBRACE {
      assert ParseBraces(ws, u[1..]) == WithBlanks(ws, ParseBraces([], u[1..]));
    }
  }

  /** The blanks before a value do not show in its canonical form. */
  lemma TreeIgnoresBlanks(c: Cst, ws: bytes)
    requires Ok(c) && AllBlank(ws)
    ensures Ok(c.(ws := ws)) && Tree(c.(ws := ws)) == Tree(c)
  {
  }

  lemma ReadingSkipsBlanks(t: bytes)
    ensures Reading(t) == CoreReading(t[BlankLen(t)..])
  {
    hide ParseCore, Tree, Ok, Canon;
    var n := BlankLen(t);
    var ws, u := t[..n], t[n..];
    CoreWithBlanks(ws, u);
    if ParseCore([], u).Some? {
      CoreSound([], u);
      TreeIgnoresBlanks(ParseCore([], u).value.0, ws);
    }
  }

  // ---------------------------------------------------------------------
  // Quoted bodies

  function BodyReading(t: bytes, q: byte): Option<(bytes, bytes)>
    requires IsQuote(q)
  {
    match ParsePieces(t, q)
    case None => None
    case Some((ps, rest)) => PiecesSound(t, q); Some((Decode(ps), rest))
  }

  function Extend<T>(acc: seq<T>, r: Option<(seq<T>, bytes)>): Option<(seq<T>, bytes)> {
    match r
    case None => None
    case Some((xs, rest)) => Some((acc + xs, rest))
  }

  lemma ExtendTwice<T>(acc: seq<T>, xs: seq<T>, r: Option<(seq<T>, bytes)>)
    ensures Extend(acc, Extend(xs, r)) == Extend(acc + xs, r)
  {
    if r.Some? {
      assert acc + (xs + r.value.0) == acc + xs + r.value.0;
    }
  }

  /** How many bytes the piece at the front takes; 0 when it is malformed. */
  function PieceLen(t: bytes): nat
    requires t != []
  {
    if t[0] != BACKSLASH then 1
    else if |t| >= 2 && t[1] == LOWER_X then (if |t| >= 4 && IsHex(t[2]) && IsHex(t[3]) then 4 else 0)
    else if |t| >= 2 && IsEscapeCode(t[1]) then 2
    else 0
  }

  function PieceAt(t: bytes): (p: Piece)
    requires t != [] && PieceLen(t) > 0
    ensures p.Hex? ==> IsHex(p.hi) && IsHex(p.lo)
  {
    if t[0] != BACKSLASH then Raw(t[0])
    else if t[1] == LOWER_X then Hex(t[2], t[3])
    else Esc(t[1])
  }

  /** The piece at the front spells the byte it decodes to; where there is none, no front of the text spells a byte. */
  lemma PieceAtSpells(t: bytes)
    requires t != []
    ensures PieceLen(t) > 0 ==> PieceLen(t) <= |t| && Spells(t[..PieceLen(t)], DecodePiece(PieceAt(t)))
    ensures PieceLen(t) == 0 ==> forall n: nat, b: byte | n <= |t| :: !Spells(t[..n], b)
  {
    if PieceLen(t) > 0 {
      var p := PieceAt(t);
      var q := if t[0] == SQUOTE then DQUOTE else SQUOTE;
      assert PieceText(p) == t[..PieceLen(t)];
      PieceSpells(p, q, DecodePiece(p));
    } else {
      forall n: nat, b: byte | n <= |t| ensures !Spells(t[..n], b) {
        assert n > 0 ==> t[..n][0] == t[0];
        assert n > 1 ==> t[..n][1] == t[1];
        if n == 4 {
          HexDigitValue(t[2], b as int / 16);
          HexDigitValue(t[3], b as int % 16);
        }
      }
    }
  }

  lemma BodyStep(t: bytes, q: byte)
    requires IsQuote(q) && t != [] && t[0] != q
    ensures PieceLen(t) <= |t|
    ensures BodyReading(t, q) ==
      if PieceLen(t) == 0 then None else Extend([DecodePiece(PieceAt(t))], BodyReading(t[PieceLen(t)..], q))
  {
    hide PiecesText, PieceOk, DecodePiece;
    if ParsePieces(t, q).Some? {
      PiecesSound(t, q);
      var n := PieceLen(t);
      var ps, tail := ParsePieces(t, q).value.0, ParsePieces(t[n..], q).value.0;
      assert ps == [PieceAt(t)] + tail && ps[1..] == tail;
    }
  }

  // ---------------------------------------------------------------------
  // Runs of items up to a closer

  function ItemReading(t: bytes, colon: bool): Option<(Key, bytes)> {
    match ParseItem(t, colon)
    case None => None
    case Some((item, u)) => ItemSound(t, colon); Some((KeyOf(EntryOf(item, colon)), u))
  }

  /** Items separated by commas up to close, as their canonical keys. */
  function RunReading(t: bytes, close: byte, colon: bool): Option<(seq<Key>, bytes)> {
    match ParseItem(t, colon)
    case None => None
    case Some((item, u)) =>
      ItemSound(t, colon);
      match ParseTail(u, close, colon)
      case None => None
      case Some((tail, rest)) =>
        TailSound(u, close, colon);
        Some(([KeyOf(EntryOf(item, colon))] + Keys(TailEntries(tail, colon)), rest)) 
  }

  /** One item, then: closed, closed after a comma, more after a comma, or malformed. */
  lemma RunStep(t: bytes, close: byte, colon: bool)
    requires close != COMMA
    ensures RunReading(t, close, colon) ==
      match ItemReading(t, colon)
      case None => None
      case Some((key, u)) =>
        if NextIs(u, COMMA) then
          var v := u[BlankLen(u) + 1..];
          if NextIs(v, close) then Some(([key], v[BlankLen(v) + 1..]))
          else Extend([key], RunReading(v, close, colon))
        else if NextIs(u, close) then Some(([key], u[BlankLen(u) + 1..]))
        else None
  {
    hide ParseItem, KeyOf, Tree, Ok, ItemText, EntryOf, ParseTail, TailText, RunReading, TailReading;
    RunSplit(t, close, colon);
    if ParseItem(t, colon).Some? {
      ItemSound(t, colon);
      var (item, u) := ParseItem(t, colon).value;
      var key := KeyOf(EntryOf(item, colon));
      if NextIs(u, COMMA) && !NextIs(u[BlankLen(u) + 1..], close) {
        RunMore(key, u, close, colon);
      } else {
        RunLast(key, u, close, colon);
      }
    }
  }

  /** The keys of a tail, or none when it is malformed. */
  function TailReading(u: bytes, close: byte, colon: bool): Option<(seq<Key>, bytes)> {
    match ParseTail(u, close, colon)
    case None => None
    case Some((tail, rest)) => TailSound(u, close, colon); Some((Keys(TailEntries(tail, colon)), rest))
  }

  lemma RunSplit(t: bytes, close: byte, colon: bool)
    ensures RunReading(t, close, colon) ==
      match ItemReading(t, colon)
      case None => None
      case Some((key, u)) => Extend([key], TailReading(u, close, colon))
  {
    hide ParseItem, KeyOf, Tree, Ok, ItemText, EntryOf, ParseTail, TailText, Keys, TailEntries;
  }

  lemma RunLast(key: Key, u: bytes, close: byte, colon: bool)
    requires close != COMMA && (NextIs(u, COMMA) ==> NextIs(u[BlankLen(u) + 1..], close))
    ensures Extend([key], TailReading(u, close, colon)) ==
      if NextIs(u, COMMA) then
        var v := u[BlankLen(u) + 1..];
        Some(([key], v[BlankLen(v) + 1..]))
      else if NextIs(u, close) then Some(([key], u[BlankLen(u) + 1..]))
      else None
  {
    hide ParseItem, KeyOf, Tree, Ok, ItemText, EntryOf;
    assert [key] + [] == [key];
  }

  lemma RunMore(key: Key, u: bytes, close: byte, colon: bool)
    requires NextIs(u, COMMA) && !NextIs(u[BlankLen(u) + 1..], close)
    ensures Extend([key], TailReading(u, close, colon)) == Extend([key], RunReading(u[BlankLen(u) + 1..], close, colon))
  {
    hide ParseItem, KeyOf, Tree, Ok, ItemText, EntryOf;
    var v := u[BlankLen(u) + 1..];
    if ParseTail(u, close, colon).Some? {
      TailSound(u, close, colon);
      ItemSound(v, colon);
      var (item2, u2) := ParseItem(v, colon).value;
      TailSound(u2, close, colon);
      var tail := ParseTail(u, close, colon).value.0;
      var es := TailEntries(tail, colon);
      assert es == [EntryOf(item2, colon)] + TailEntries(tail.tail, colon);
      assert es[0] == EntryOf(item2, colon) && es[1..] == TailEntries(tail.tail, colon);
    }
  }

  lemma ItemReadingSteps(t: bytes, colon: bool)
    ensures ItemReading(t, colon) ==
      match Reading(t)
      case None => None
      case Some((k, u)) =>
        if !colon then Some((Key(k, None), u))
        else if !NextIs(u, COLON) then None
        else match Reading(u[BlankLen(u) + 1..])
          case None => None
          case Some((v, rest)) => Some((Key(k, Some(v)), rest))
  {
    hide Parse, Canon, Tree, Ok, ItemText;
    if Parse(t).Some? {
      Sound(t);
      var (c, u) := Parse(t).value;
      if colon && NextIs(u, COLON) && Parse(u[BlankLen(u) + 1..]).Some? {
        Sound(u[BlankLen(u) + 1..]);
        ItemSound(t, colon);
      } else if !colon {
        ItemSound(t, colon);
      }
    }
  }

  // ---------------------------------------------------------------------
  // Containers

  function ElemsReading(t: bytes, close: byte): Option<(seq<Key>, bytes)> {
    if NextIs(t, close) then Some(([], t[BlankLen(t) + 1..])) else RunReading(t, close, false)
  }

  /** Whether the first item of a pair of braces is followed by a colon. */
  predicate Coloned(t: bytes) {
    Parse(t).Some? && NextIs(Parse(t).value.1, COLON)
  }

  lemma ListReading(u: bytes)
    requires u != [] && u[0] == LBRACKET
    ensures CoreReading(u) ==
      match ElemsReading(u[1..], RBRACKET)
      case None => None
      case Some((keys, rest)) => Some((Assemble(List, keys), rest))
  {
    hide ParseItem, ParseTail, Assemble, Core;
    if ParseItems(u[1..], RBRACKET).Some? {
      CoreSound([], u);
      ElemsAreEntries(u[1..], RBRACKET);
    }
  }

  lemma ElemsAreEntries(t: bytes, close: byte)
    requires ParseItems(t, close).Some?
    ensures var (items, rest) := ParseItems(t, close).value;
      ItemsOk(items) && ElemsReading(t, close) == Some((Keys(Entries(items)), rest))
  {
    hide ParseItem, ParseTail, KeyOf, Core, EntryOf, TailEntries;
    ItemsSound(t, close);
    if !NextIs(t, close) {
      ItemSound(t, false);
      var (item, u) := ParseItem(t, false).value;
      TailSound(u, close, false);
      var tail := ParseTail(u, close, false).value.0;
      var es := [EntryOf(item, false)] + TailEntries(tail, false);
      assert es[0] == EntryOf(item, false) && es[1..] == TailEntries(tail, false);
    }
  }

  lemma ParenReading(u: bytes)
    requires u != [] && u[0] == LPAREN
    ensures CoreReading(u) ==
      var t := u[1..];
      if NextIs(t, RPAREN) then Some((Assemble(Tuple, []), t[BlankLen(t) + 1..]))
      else match Reading(t)
        case None => None
        case Some((first, v)) =>
          if NextIs(v, RPAREN) then Some((first, v[BlankLen(v) + 1..]))
          else if !NextIs(v, COMMA) then None
          else match ElemsReading(v[BlankLen(v) + 1..], RPAREN)
            case None => None
            case Some((keys, rest)) => Some((Assemble(Tuple, [Key(first, None)] + keys), rest))
  {
    hide Parse, ParseItems, Assemble, Core, ItemsText, ElemsReading, ParseCore, Tree, Canon, Ok;
    var t := u[1..];
    ParenCore([], u);
    if NextIs(t, RPAREN) {
      UnitReading(u);
    } else if Parse(t).Some? {
      Sound(t);
      var v := Parse(t).value.1;
      if NextIs(v, RPAREN) {
        GroupReading(u);
      } else if NextIs(v, COMMA) {
        var w := v[BlankLen(v) + 1..];
        if ParseItems(w, RPAREN).Some? {
          TupleReading(u, t, v);
        } else {
          ElemsFail(w, RPAREN);
        }
      }
    }
  }

  lemma UnitReading(u: bytes)
    requires u != [] && u[0] == LPAREN && NextIs(u[1..], RPAREN)
    ensures CoreReading(u) == Some((Assemble(Tuple, []), u[1..][BlankLen(u[1..]) + 1..]))
  {
    hide Parse, ParseCore, ParseItems, Assemble;
    var t := u[1..];
    var c := Unit([], t[..BlankLen(t)]);
    ParenCore([], u);
    assert ParseCore([], u) == Some((c, t[BlankLen(t) + 1..]));
    assert Tree(c) == Node(Tuple, []) && Keys([]) == [];
  }

  lemma GroupReading(u: bytes)
    requires u != [] && u[0] == LPAREN && !NextIs(u[1..], RPAREN)
    requires Parse(u[1..]).Some? && NextIs(Parse(u[1..]).value.1, RPAREN)
    ensures var v := Parse(u[1..]).value.1;
      CoreReading(u) == Some((Reading(u[1..]).value.0, v[BlankLen(v) + 1..]))
  {
    hide Parse, Canon;
    CoreSound([], u);
    ParenCore([], u);
    Sound(u[1..]);
  }

  lemma ElemsFail(t: bytes, close: byte)
    requires ParseItems(t, close).None?
    ensures ElemsReading(t, close) == None
  {
    hide ParseItem, ParseTail;
  }

  lemma TupCanon(first: Cst, after: bytes, items: Items)
    requires Ok(Tup([], first, after, items)) && Ok(first) && ItemsOk(items)
    ensures Canon(Tree(Tup([], first, after, items))) == Assemble(Tuple, [Key(Canon(Tree(first)), None)] + Keys(Entries(items)))
  {
    hide Assemble, Entries;
    var e := Entry(Tree(first), None);
    KeysConcat([e], Entries(items));
    assert Keys([e]) == [KeyOf(e)];
  }

  lemma TupleReading(u: bytes, t: bytes, v: bytes)
    requires u != [] && u[0] == LPAREN && t == u[1..] && !NextIs(t, RPAREN)
    requires Parse(t).Some? && v == Parse(t).value.1
    requires !NextIs(v, RPAREN) && NextIs(v, COMMA) && ParseItems(v[BlankLen(v) + 1..], RPAREN).Some?
    ensures Reading(t).Some? && ElemsReading(v[BlankLen(v) + 1..], RPAREN).Some?
    ensures var (keys, rest) := ElemsReading(v[BlankLen(v) + 1..], RPAREN).value;
      CoreReading(u) == Some((Assemble(Tuple, [Key(Reading(t).value.0, None)] + keys), rest))
  {
    hide Parse, ParseItems, Assemble, Core, ItemsText, ElemsReading, Entries, Tree, Canon, Ok, ParseCore, Keys;
    Sound(t);
    var w := v[BlankLen(v) + 1..];
    ElemsAreEntries(w, RPAREN);
    ParenCore([], u);
    var c := Parse(t).value.0;
    var (items, rest) := ParseItems(w, RPAREN).value;
    TupStep([], t, c, v, items, rest);
    CoreSound([], u);
    TupCanon(c, v[..BlankLen(v)], items);
  }

  lemma BraceReading(u: bytes)
    requires u != [] && u[0] == LBRACE
    ensures CoreReading(u) ==
      var t := u[1..];
      if NextIs(t, RBRACE) then Some((Assemble(Braced, []), t[BlankLen(t) + 1..]))
      else match RunReading(t, RBRACE, Coloned(t))
        case None => None
        case Some((keys, rest)) => Some((Assemble(Braced, keys), rest))
  {
    hide Parse, ParseTail, Assemble, Core, ItemText, TailText, EntryOf, TailEntries;
    var t := u[1..];
    BraceCore([], u);
    if ParseBraces([], t).Some? {
      CoreSound([], u);
      if !NextIs(t, RBRACE) {
        var colon := Coloned(t);
        ItemSound(t, colon);
        var (item, v) := ParseItem(t, colon).value;
        TailSound(v, RBRACE, colon);
        var tail := ParseTail(v, RBRACE, colon).value.0;
        KeysConcat([EntryOf(item, colon)], TailEntries(tail, colon));
        assert Keys([EntryOf(item, colon)]) == [KeyOf(EntryOf(item, colon))];
      }
    }
  }

  // ---------------------------------------------------------------------
  // Scalars

  function QuotedReading(isBytes: bool, u: bytes): Option<(bytes, bytes)>
    requires u != [] && IsQuote(u[0])
  {
    match BodyReading(u[1..], u[0])
    case None => None
    case Some((body, rest)) => Some((Quoted(isBytes, body), rest))
  }

  lemma StringReading(u: bytes)
    requires u != [] && (IsQuote(u[0]) || BytesPrefix(u))
    ensures CoreReading(u) == if IsQuote(u[0]) then QuotedReading(false, u) else QuotedReading(true, u[1..])
  {
    hide ParsePieces, Quoted, PiecesText, Decode, PieceOk;
    if IsQuote(u[0]) {
      if ParsePieces(u[1..], u[0]).Some? {
        PiecesSound(u[1..], u[0]);
      }
    } else if ParsePieces(u[1..][1..], u[1..][0]).Some? {
      PiecesSound(u[1..][1..], u[1..][0]);
    }
  }

  lemma NumberReading(u: bytes)
    requires u != [] && NumberStart(u[0])
    ensures CoreReading(u) ==
      var k := NumberLen(u);
      if k == 0 then None else Some((TrimPlus(u[..k]), u[k..]))
  {
    hide NumberLen;
    var k := NumberLen(u);
    if k != 0 {
      assert Lower(u[..k])[0] == ToLower(u[0]);
    }
  }

  lemma WordReading(u: bytes)
    requires u != [] && IsLetter(u[0]) && !BytesPrefix(u)
    ensures CoreReading(u) ==
      var k := LetterLen(u);
      if IsKeyword(u[..k]) then Some((CanonWord(u[..k]), u[k..])) else None
  {
    hide IsKeyword, CanonWord, NumberLen;
  }

  lemma NoReading(u: bytes)
    requires u != [] ==>
      && !IsQuote(u[0]) && !BytesPrefix(u) && u[0] != LBRACKET && u[0] != LPAREN && u[0] != LBRACE
      && !NumberStart(u[0]) && !IsLetter(u[0])
    ensures CoreReading(u) == None
  {
  }

  // ---------------------------------------------------------------------
  // Skipping blanks first changes nothing

  lemma NoBlanksLeft(t: bytes)
    ensures BlankLen(t[BlankLen(t)..]) == 0 && t[BlankLen(t)..][0..] == t[BlankLen(t)..]
  {
    var u := t[BlankLen(t)..];
    assert u[..0] == [];
    BlankLenUnique(u, 0);
  }

  lemma ParseAfterBlanks(t: bytes)
    ensures var u := t[BlankLen(t)..];
      && Parse(u).Some? == Parse(t).Some?
      && (Parse(t).Some? ==> Parse(u).value.1 == Parse(t).value.1)
  {
    hide ParseCore;
    NoBlanksLeft(t);
    var n := BlankLen(t);
    CoreWithBlanks(t[..n], t[n..]);
    CoreWithBlanks(t[n..][..0], t[n..]);
  }

  lemma ReadingAfterBlanks(t: bytes)
    ensures Reading(t[BlankLen(t)..]) == Reading(t)
    ensures Coloned(t[BlankLen(t)..]) == Coloned(t)
  {
    hide Reading, CoreReading, Parse;
    NoBlanksLeft(t);
    ReadingSkipsBlanks(t);
    ReadingSkipsBlanks(t[BlankLen(t)..]);
    ParseAfterBlanks(t);
  }

  lemma RunAfterBlanks(t: bytes, close: byte, colon: bool)
    requires close != COMMA
    ensures RunReading(t[BlankLen(t)..], close, colon) == RunReading(t, close, colon)
  {
    hide Reading, RunReading, ItemReading, NextIs, BlankLen, Extend;
    ItemAfterBlanks(t, colon);
    RunStep(t, close, colon);
    RunStep(t[BlankLen(t)..], close, colon);
  }

  lemma ItemAfterBlanks(t: bytes, colon: bool)
    ensures ItemReading(t[BlankLen(t)..], colon) == ItemReading(t, colon)
  {
    hide Reading, ItemReading, NextIs, BlankLen;
    ReadingAfterBlanks(t);
    ItemReadingSteps(t, colon);
    ItemReadingSteps(t[BlankLen(t)..], colon);
  }

  lemma ExtendNothing<T>(r: Option<(seq<T>, bytes)>)
    ensures Extend([], r) == r
  {
    if r.Some? {
      assert [] + r.value.0 == r.value.0;
    }
  }

  lemma ItemShrinks(t: bytes, colon: bool)
    ensures ItemReading(t, colon).Some? ==> |ItemReading(t, colon).value.1| < |t|
  {
    hide ParseItem;
  }

  lemma ExtendEmpty<T>(acc: seq<T>, rest: bytes)
    ensures Extend(acc, Some(([], rest))) == Some((acc, rest))
  {
    assert acc + [] == acc;
  }

  lemma ExtendNone<T>(acc: seq<T>)
    ensures Extend(acc, None) == None
  {
  }

  /** What follows the blanks and the one byte after them. */
  function After(t: bytes): bytes
    requires BlankLen(t) < |t|
  {
    t[BlankLen(t) + 1..]
  }

  lemma AfterIsNext(t: bytes)
    requires BlankLen(t) < |t|
    ensures t[BlankLen(t)..][1..] == After(t)
  {
  }

  // Where a run stands after one more item, given what came before it.

  lemma RunFails(whole: Option<(seq<Key>, bytes)>, acc: seq<Key>, t: bytes, close: byte, colon: bool)
    requires close != COMMA && whole == Extend(acc, RunReading(t, close, colon))
    requires match ItemReading(t, colon) case None => true case Some((_, u)) => !NextIs(u, COMMA) && !NextIs(u, close)
    ensures whole == None
  {
    hide RunReading, ItemReading;
    RunStep(t, close, colon);
  }

  lemma RunCloses(whole: Option<(seq<Key>, bytes)>, acc: seq<Key>, t: bytes, close: byte, colon: bool, key: Key, u: bytes)
    requires close != COMMA && whole == Extend(acc, RunReading(t, close, colon))
    requires ItemReading(t, colon) == Some((key, u)) && NextIs(u, close)
    ensures whole == Some((acc + [key], After(u)))
  {
    hide RunReading, ItemReading;
    RunStep(t, close, colon);
  }

  lemma RunTrails(whole: Option<(seq<Key>, bytes)>, acc: seq<Key>, t: bytes, close: byte, colon: bool, key: Key, u: bytes)
    requires close != COMMA && whole == Extend(acc, RunReading(t, close, colon))
    requires ItemReading(t, colon) == Some((key, u)) && NextIs(u, COMMA) && NextIs(After(u), close)
    ensures whole == Some((acc + [key], After(After(u))))
  {
    hide RunReading, ItemReading;
    RunStep(t, close, colon);
  }

  lemma RunGoesOn(whole: Option<(seq<Key>, bytes)>, acc: seq<Key>, t: bytes, close: byte, colon: bool, key: Key, u: bytes)
    requires close != COMMA && whole == Extend(acc, RunReading(t, close, colon))
    requires ItemReading(t, colon) == Some((key, u)) && NextIs(u, COMMA) && !NextIs(After(u), close)
    ensures whole == Extend(acc + [key], RunReading(After(u)[BlankLen(After(u))..], close, colon))
  {
    hide RunReading, ItemReading;
    RunStep(t, close, colon);
    RunAfterBlanks(After(u), close, colon);
    ExtendTwice(acc, [key], RunReading(After(u), close, colon));
  }

  lemma EmptyTupleText()
    ensures Assemble(Tuple, []) == [LPAREN, RPAREN]
  {
  }

  lemma EmptyBracesText()
    ensures Assemble(Braced, []) == [LBRACE, RBRACE]
  {
  }

  lemma ColonedIsNext(t: bytes, k: bytes, u: bytes)
    requires Reading(t) == Some((k, u))
    ensures Coloned(t) == NextIs(u, COLON)
  {
  }
}
