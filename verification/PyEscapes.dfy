/**
 The escapes of quoted strings in plain byte values, apart from the code that
 decodes them.
 */
module PyEscapes {
  import opened Bytes
  import opened PyGrammar
  import opened PyCanon

  /** c is the digit of value n, in either letter case. */
  predicate HexDigit(c: byte, n: int) {
    || (0 <= n < 10 && c as int == 48 + n)
    || (10 <= n < 16 && (c as int == 97 + (n - 10) || c as int == 65 + (n - 10)))
  }

  /** The text spells byte b: as itself, by a letter or mark after a backslash, or in hexadecimal. */
  predicate Spells(text: bytes, b: byte) {
    || (text == [b] && b != 92)
    || (text == [92, 110] && b == 10)
    || (text == [92, 116] && b == 9)
    || (text == [92, 114] && b == 13)
    || (text == [92, 92] && b == 92)
    || (text == [92, 39] && b == 39)
    || (text == [92, 34] && b == 34)
    || (|text| == 4 && text[0] == 92 && text[1] == 120 && HexDigit(text[2], b as int / 16) && HexDigit(text[3], b as int % 16))
  }

  lemma HexDigitValue(c: byte, n: int)
    ensures HexDigit(c, n) <==> IsHex(c) && HexValue(c) == n
  {
  }

  lemma TwoDigits(hi: nat, lo: nat, b: int)
    requires hi < 16 && lo < 16
    ensures 16 * hi + lo == b <==> hi == b / 16 && lo == b % 16
  {
  }

  /** A piece of a quoted body decodes to the one byte that its text spells. */
  lemma PieceSpells(p: Piece, q: byte, b: byte)
    requires IsQuote(q) && PieceOk(p, q)
    ensures Spells(PieceText(p), b) <==> DecodePiece(p) == b
  {
    if p.Hex? {
      HexDigitValue(p.hi, b as int / 16);
      HexDigitValue(p.lo, b as int % 16);
      TwoDigits(HexValue(p.hi), HexValue(p.lo), b as int);
    }
  }

  function PieceOf(text: bytes): Piece
    requires |text| == 1 || |text| == 2 || |text| == 4
  {
    if |text| == 1 then Raw(text[0]) else if |text| == 2 then Esc(text[1]) else Hex(text[2], text[3])
  }

  /** Whatever spells a byte and does not close the string is the text of a piece that decodes to it. */
  lemma SpelledPiece(text: bytes, q: byte, b: byte)
    requires IsQuote(q) && Spells(text, b) && text[0] != q
    ensures (|text| == 1 || |text| == 2 || |text| == 4) && PieceOk(PieceOf(text), q)
    ensures PieceText(PieceOf(text)) == text && DecodePiece(PieceOf(text)) == b
  {
    if |text| == 4 {
      HexDigitValue(text[2], b as int / 16);
      HexDigitValue(text[3], b as int % 16);
    }
    PieceSpells(PieceOf(text), q, b);
  }

  /** Every byte has a hexadecimal spelling, and whichever case its digits are in, it is decoded to that byte. */
  lemma EveryByteInHex(b: byte, hi: byte, lo: byte)
    requires HexDigit(hi, b as int / 16) && HexDigit(lo, b as int % 16)
    ensures IsHex(hi) && IsHex(lo) && DecodePiece(Hex(hi, lo)) == b
  {
    SpelledPiece([92, 120, hi, lo], DQUOTE, b);
  }

  /** At most one front of a text spells a byte, and it spells one byte only. */
  lemma SpellsOnce(t: bytes, m: nat, n: nat, b: byte, c: byte)
    requires m <= |t| && n <= |t| && Spells(t[..m], b) && Spells(t[..n], c)
    ensures m == n && b == c
  {
    assert m > 0 && n > 0 && t[..m][0] == t[0] == t[..n][0];
    assert m > 1 ==> t[..m][1] == t[1];
    assert n > 1 ==> t[..n][1] == t[1];
    var hi, lo := if |t| > 2 then t[2] else 0, if |t| > 3 then t[3] else 0;
    HexDigitValue(hi, b as int / 16);
    HexDigitValue(lo, b as int % 16);
    HexDigitValue(hi, c as int / 16);
    HexDigitValue(lo, c as int % 16);
  }
}
