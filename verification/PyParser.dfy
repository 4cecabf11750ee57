/**
 The recursive-descent parser of internal/evaluator/outputmatch.go: a cursor
 over the input, advanced by every method, that emits canonical text as it
 goes. Each method is proved against the reading functions of PyReading.
 */
module PyParsing {
  import opened Wrappers
  import opened Bytes
  import opened PyGrammar
  import opened PyInverse
  import opened KeySort
  import opened PyCanon
  import opened PyEscapes
  import opened PyReading

  class PyParser {
    const s: bytes
    var i: nat

    constructor (s: bytes)
      ensures this.s == s && i == 0 && Valid()
    {
      this.s := s;
      i := 0;
    }

    ghost predicate Valid()
      reads this
    {
      i <= |s|
    }

    /** The unread part of the input. */
    ghost function Rest(): bytes
      reads this
      requires Valid()
    {
      s[i..]
    }

    /** The outcome and the new cursor are what reading r prescribes. */
    ghost predicate Agrees<T>(r: Option<(T, bytes)>, out: T, ok: bool)
      reads this
    {
      Valid() && ok == r.Some? && (ok ==> out == r.value.0 && Rest() == r.value.1)
    }

    method SkipWS()
      requires Valid()
      modifies this`i
      ensures Valid() && i == old(i) + BlankLen(old(Rest())) && Rest() == old(Rest())[BlankLen(old(Rest()))..]
    {
      ghost var t := s[i..];
      while i < |s| && IsBlank(s[i])
        invariant old(i) <= i <= |s|
        invariant AllBlank(t[..i - old(i)])
      {
        assert t[..i + 1 - old(i)] == t[..i - old(i)] + [s[i]];
        i := i + 1;
      }
      BlankLenUnique(t, i - old(i));
    }

    /** Moves over one byte. */
    method Advance()
      requires Valid() && i < |s|
      modifies this`i
      ensures Valid() && i == old(i) + 1 && Rest() == old(Rest())[1..]
    {
      i := i + 1;
    }

    /** Whether the byte under the cursor is c. */
    predicate At(c: byte)
      reads this
    {
      i < |s| && s[i] == c
    }

    method ParseValue() returns (out: bytes, ok: bool)
      requires Valid()
      modifies this`i
      ensures i >= old(i) && Agrees(Reading(old(Rest())), out, ok)
      decreases |s| - i, 1
    {
      hide CoreReading, ParseCore, Canon, Tree, Reading;
      ReadingSkipsBlanks(Rest());
      SkipWS();
      ghost var u := Rest();
      if i >= |s| {
        NoReading(u);
        return [], false;
      }
      var c := s[i];
      if IsQuote(c) || ((c == 98 || c == 66) && i + 1 < |s| && IsQuote(s[i + 1])) {
        out, ok := ParseString();
      } else if c == LBRACKET {
        out, ok := ParseList();
      } else if c == LPAREN {
        out, ok := ParseTuple();
      } else if c == LBRACE {
        out, ok := ParseDictOrSet();
      } else if NumberStart(c) {
        out, ok := ParseNumber();
      } else if IsLetter(c) {
        out, ok := ParseKeyword();
      } else {
        NoReading(u);
        return [], false;
      }
    }

    method ParseString() returns (out: bytes, ok: bool)
      requires Valid() && Rest() != [] && (IsQuote(Rest()[0]) || BytesPrefix(Rest()))
      modifies this`i
      ensures i >= old(i) && Agrees(CoreReading(old(Rest())), out, ok)
      decreases |s| - i, 0
    {
      hide CoreReading, BodyReading, Escape, Extend;
      StringReading(Rest());
      var isBytes := false;
      if s[i] == 98 || s[i] == 66 {
        isBytes := true;
        Advance();
      }
      var q := s[i];
      Advance();
      var body;
      body, ok := ParseBody(q);
      if !ok {
        return [], false;
      }
      var escaped := EscapePyString(body);
      return (if isBytes then BYTES_PREFIX else []) + [DQUOTE] + escaped + [DQUOTE], true;
    }

    /** Decodes the quoted body up to and including its closing quote. */
    method ParseBody(q: byte) returns (b: bytes, ok: bool)
      requires Valid() && IsQuote(q)
      modifies this`i
      ensures i >= old(i) && Agrees(BodyReading(old(Rest()), q), b, ok)
    {
      hide BodyReading, PieceLen, PieceAt, DecodePiece, Extend;
      ghost var whole := BodyReading(Rest(), q);
      b := [];
      ExtendNothing(whole);
      while i < |s|
        invariant old(i) <= i <= |s|
        invariant whole == Extend(b, BodyReading(Rest(), q))
      {
        ghost var before, acc := Rest(), b;
        if s[i] == q {
          BodyEnd(before, q);
          ExtendEmpty(b, before[1..]);
          Advance();
          return b, true;
        }
        BodyStep(before, q);
        ExtendNone(acc);
        var c;
        c, ok := ParsePiece();
        if !ok {
          return [], false;
        }
        b := b + [c];
        ExtendTwice(acc, [c], BodyReading(Rest(), q));
      }
      assert Rest() == [];
      BodyOver(q);
      ExtendNone(b);
      return [], false;
    }

    /** Decodes one plain byte or one escape. */
    method ParsePiece() returns (c: byte, ok: bool)
      requires Valid() && Rest() != []
      modifies this`i
      ensures Valid() && i >= old(i) && ok == (PieceLen(old(Rest())) > 0)
      ensures PieceLen(old(Rest())) <= |old(Rest())|
      ensures ok ==> i == old(i) + PieceLen(old(Rest())) && Rest() == old(Rest())[PieceLen(old(Rest()))..]
      ensures ok ==> c == DecodePiece(PieceAt(old(Rest())))
      ensures ok ==> Spells(old(Rest())[..i - old(i)], c)
      ensures !ok ==> forall n: nat, b: byte | n <= |old(Rest())| :: !Spells(old(Rest())[..n], b)
    {
      PieceAtSpells(Rest());
      hide Spells;
      c := s[i];
      if c != BACKSLASH {
        i := i + 1;
        return c, true;
      }
      i := i + 1;
      if i >= |s| {
        return c, false;
      }
      var e := s[i];
      if e == 110 {
        c := NEWLINE;
      } else if e == 116 {
        c := TAB;
      } else if e == 114 {
        c := RETURN;
      } else if e == BACKSLASH || e == SQUOTE || e == DQUOTE {
        c := e;
      } else if e == LOWER_X {
        if i + 2 >= |s| || !IsHex(s[i + 1]) || !IsHex(s[i + 2]) {
          return c, false;
        }
        c := (16 * HexValue(s[i + 1]) + HexValue(s[i + 2])) as byte;
        i := i + 2;
      } else {
        return c, false;
      }
      i := i + 1;
      ok := true;
    }

    method EscapePyString(text: bytes) returns (r: bytes)
      ensures r == Escape(text)
    {
      r := [];
      var k := 0;
      while k < |text|
        invariant 0 <= k <= |text|
        invariant Escape(text) == r + Escape(text[k..])
      {
        var c := text[k];
        assert text[k..][1..] == text[k + 1..];
        Cat3(r, EscapeByte(c), Escape(text[k + 1..]));
        if c == BACKSLASH {
          r := r + [BACKSLASH, BACKSLASH];
        } else if c == DQUOTE {
          r := r + [BACKSLASH, DQUOTE];
        } else if c == NEWLINE {
          r := r + [BACKSLASH, 110];
        } else if c == TAB {
          r := r + [BACKSLASH, 116];
        } else if c == RETURN {
          r := r + [BACKSLASH, 114];
        } else {
          r := r + [c];
        }
        k := k + 1;
      }
    }

    method ParseNumber() returns (out: bytes, ok: bool)
      requires Valid() && Rest() != [] && NumberStart(Rest()[0])
      modifies this`i
      ensures i >= old(i) && Agrees(CoreReading(old(Rest())), out, ok)
      decreases |s| - i, 0
    {
      NumberReading(Rest());
      hide CoreReading, NumberLen;
      var m := s[i..][..NumberLen(s[i..])];
      if m == [] {
        return [], false;
      }
      i := i + |m|;
      return TrimPlus(m), true;
    }

    method ParseKeyword() returns (out: bytes, ok: bool)
      requires Valid() && Rest() != [] && IsLetter(Rest()[0]) && !BytesPrefix(Rest())
      modifies this`i
      ensures i >= old(i) && Agrees(CoreReading(old(Rest())), out, ok)
      decreases |s| - i, 0
    {
      ghost var t := Rest();
      WordReading(t);
      hide CoreReading, LetterLen, Lower;
      var start := i;
      while i < |s| && IsLetter(s[i])
        invariant start <= i <= |s|
        invariant forall k | 0 <= k < i - start :: IsLetter(t[k])
      {
        i := i + 1;
      }
      LetterLenUnique(t, i - start);
      assert s[start..i] == t[..i - start];
      var l := Lower(s[start..i]);
      if l == TRUE_LOWER {
        return TRUE_WORD, true;
      } else if l == FALSE_LOWER {
        return FALSE_WORD, true;
      } else if l == NONE_LOWER {
        return NONE_WORD, true;
      }
      return [], false;
    }

    method ParseList() returns (out: bytes, ok: bool)
      requires Valid() && Rest() != [] && Rest()[0] == LBRACKET
      modifies this`i
      ensures i >= old(i) && Agrees(CoreReading(old(Rest())), out, ok)
      decreases |s| - i, 0
    {
      hide CoreReading, ElemsReading, Join, KeyText;
      ListReading(Rest());
      i := i + 1;
      var elems;
      elems, ok := ParseElems(RBRACKET);
      if !ok {
        return [], false;
      }
      return [LBRACKET] + Join(elems) + [RBRACKET], true;
    }

    /** "(v)" is grouping, "(v,)" a one-element tuple, "(a, b)" a tuple. */
    method ParseTuple() returns (out: bytes, ok: bool)
      requires Valid() && Rest() != [] && Rest()[0] == LPAREN
      modifies this`i
      ensures i >= old(i) && Agrees(CoreReading(old(Rest())), out, ok)
      decreases |s| - i, 0
    {
      hide CoreReading, ElemsReading, Reading, Assemble;
      ParenReading(Rest());
      Advance();
      ghost var t := Rest();
      ReadingSkipsBlanks(t);
      SkipWS();
      if At(RPAREN) {
        AfterIsNext(t);
        Advance();
        EmptyTupleText();
        return [LPAREN, RPAREN], true;
      }
      ReadingAfterBlanks(t);
      var first;
      first, ok := ParseValue();
      if !ok {
        return [], false;
      }
      ghost var u := Rest();
      SkipWS();
      if At(RPAREN) {
        AfterIsNext(u);
        Advance();
        return first, true;
      }
      if !At(COMMA) {
        return [], false;
      }
      AfterIsNext(u);
      Advance();
      var rest;
      rest, ok := ParseElems(RPAREN);
      if !ok {
        return [], false;
      }
      out := TupleText([Key(first, None)] + rest);
    }

    method TupleText(elems: seq<Key>) returns (out: bytes)
      requires elems != []
      ensures out == Assemble(Tuple, elems)
    {
      if |elems| == 1 {
        return [LPAREN] + KeyText(elems[0]) + [COMMA, RPAREN];
      }
      return [LPAREN] + Join(elems) + [RPAREN];
    }

    /** One element and the blanks after it. */
    method ParseElem() returns (v: bytes, ok: bool)
      requires Valid()
      modifies this`i
      ensures Valid() && i >= old(i) && ok == ItemReading(old(Rest()), false).Some?
      ensures ok ==>
        var (k, u) := ItemReading(old(Rest()), false).value;
        k == Key(v, None) && Rest() == u[BlankLen(u)..] && |u| < |old(Rest())|
      decreases |s| - i, 2
    {
      hide Reading, ItemReading;
      ItemShrinks(Rest(), false);
      ItemReadingSteps(Rest(), false);
      v, ok := ParseValue();
      if ok {
        SkipWS();
      }
    }

    /** Comma-separated values up to close, allowing one trailing comma. */
    method ParseElems(close: byte) returns (elems: seq<Key>, ok: bool)
      requires Valid() && close != COMMA && !IsBlank(close)
      modifies this`i
      ensures i >= old(i) && Agrees(ElemsReading(old(Rest()), close), elems, ok)
      decreases |s| - i, 3
    {
      hide Reading, RunReading, ItemReading, Extend, AllBlank, IsBlank;
      ghost var t := Rest();
      elems := [];
      SkipWS();
      RunAfterBlanks(t, close, false);
      if At(close) {
        AfterIsNext(t);
        Advance();
        return elems, true;
      }
      ghost var whole := RunReading(t, close, false);
      ExtendNothing(whole);
      while true
        invariant old(i) <= i <= |s|
        invariant whole == Extend(elems, RunReading(Rest(), close, false))
        decreases |s| - i
      {
        ghost var before, acc := Rest(), elems;
        var v;
        v, ok := ParseElem();
        if !ok || i >= |s| {
          RunFails(whole, acc, before, close, false);
          return [], false;
        }
        ghost var key, u := Key(v, None), ItemReading(before, false).value.1;
        elems := elems + [Key(v, None)];
        AfterIsNext(u);
        if s[i] == COMMA {
          Advance();
          ghost var next := Rest();
          SkipWS();
          if At(close) {
            AfterIsNext(next);
            Advance();
            RunTrails(whole, acc, before, close, false, key, u);
            return elems, true;
          }
          RunGoesOn(whole, acc, before, close, false, key, u);
        } else if s[i] == close {
          Advance();
          RunCloses(whole, acc, before, close, false, key, u);
          return elems, true;
        } else {
          RunFails(whole, acc, before, close, false);
          return [], false;
        }
      }
    }

    /** Dict entries and set elements; the first one decides which. */
    method ParseDictOrSet() returns (out: bytes, ok: bool)
      requires Valid() && Rest() != [] && Rest()[0] == LBRACE
      modifies this`i
      ensures i >= old(i) && Agrees(CoreReading(old(Rest())), out, ok)
      decreases |s| - i, 0
    {
      hide CoreReading, Reading, RunReading, ItemReading, Join, Sort, Coloned, Extend;
      BraceReading(Rest());
      Advance();
      ghost var t := Rest();
      SkipWS();
      if At(RBRACE) {
        AfterIsNext(t);
        Advance();
        EmptyBracesText();
        return [LBRACE, RBRACE], true;
      }
      ghost var colon := Coloned(t);
      RunAfterBlanks(t, RBRACE, colon);
      ReadingAfterBlanks(t);
      var items;
      items, ok := ParseEntries(colon);
      if !ok {
        return [], false;
      }
      return [LBRACE] + Join(Sort(items)) + [RBRACE], true;
    }

    /** The entries up to and including the closing brace. */
    method ParseEntries(ghost colon: bool) returns (items: seq<Key>, ok: bool)
      requires Valid() && colon == Coloned(Rest())
      modifies this`i
      ensures i >= old(i) && Agrees(RunReading(old(Rest()), RBRACE, colon), items, ok)
      decreases |s| - i, 3
    {
      hide Reading, RunReading, ItemReading, Coloned, Extend;
      ghost var whole := RunReading(Rest(), RBRACE, colon);
      items := [];
      var isDict, first, closed := false, true, false;
      ExtendNothing(whole);
      while !closed
        invariant old(i) <= i <= |s|
        invariant if first then Coloned(Rest()) == colon && !closed else isDict == colon
        invariant !closed ==> whole == Extend(items, RunReading(Rest(), RBRACE, colon))
        invariant closed ==> whole == Some((items, Rest()))
        decreases !closed, |s| - i
      {
        ghost var before, acc := Rest(), items;
        var key;
        key, isDict, ok := ParseEntry(first, isDict, colon);
        first := false;
        if !ok || i >= |s| {
          RunFails(whole, acc, before, RBRACE, colon);
          return [], false;
        }
        items := items + [key];
        ghost var u := ItemReading(before, colon).value.1;
        AfterIsNext(u);
        if s[i] == COMMA {
          Advance();
          ghost var next := Rest();
          SkipWS();
          if At(RBRACE) {
            AfterIsNext(next);
            Advance();
            closed := true;
            RunTrails(whole, acc, before, RBRACE, colon, key, u);
          } else {
            RunGoesOn(whole, acc, before, RBRACE, colon, key, u);
          }
        } else if s[i] == RBRACE {
          Advance();
          closed := true;
          RunCloses(whole, acc, before, RBRACE, colon, key, u);
        } else {
          RunFails(whole, acc, before, RBRACE, colon);
          return [], false;
        }
      }
      ok := true;
    }

    /** One entry and the blanks after it; the first entry settles whether there are colons. */
    method ParseEntry(first: bool, wasDict: bool, ghost colon: bool) returns (key: Key, isDict: bool, ok: bool)
      requires Valid() && if first then Coloned(Rest()) == colon else wasDict == colon
      modifies this`i
      ensures Valid() && i >= old(i) && ok == ItemReading(old(Rest()), colon).Some?
      ensures ok ==>
        var (k, u) := ItemReading(old(Rest()), colon).value;
        isDict == colon && key == k && Rest() == u[BlankLen(u)..] && |u| < |old(Rest())|
      decreases |s| - i, 2
    {
      hide Reading, ItemReading, Coloned;
      ghost var before := Rest();
      ItemShrinks(before, colon);
      ItemReadingSteps(before, colon);
      isDict, key := wasDict, Key([], None);
      var k;
      k, ok := ParseValue();
      if !ok {
        return;
      }
      ghost var afterKey := Rest();
      SkipWS();
      if first {
        ColonedIsNext(before, k, afterKey);
        isDict := At(COLON);
      }
      if !isDict {
        return Key(k, None), false, true;
      }
      if !At(COLON) {
        ok := false;
        return;
      }
      AfterIsNext(afterKey);
      Advance();
      var v;
      v, ok := ParseValue();
      if !ok {
        return;
      }
      SkipWS();
      key := Key(k, Some(v));
    }
  }

  lemma BodyEnd(t: bytes, q: byte)
    requires IsQuote(q) && t != [] && t[0] == q
    ensures BodyReading(t, q) == Some(([], t[1..]))
  {
  }

  lemma BodyOver(q: byte)
    requires IsQuote(q)
    ensures BodyReading([], q) == None
  {
  }
}
