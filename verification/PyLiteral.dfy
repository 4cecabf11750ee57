/**
 A whole literal: trimming, one value, nothing after it. The canonical text of
 a literal is a fixed point, and it decides equality up to the order of dict
 entries and set elements.
 */
module PyLiteral {
  import opened Wrappers
  import opened Bytes
  import opened PyGrammar
  import opened PyInverse
  import opened KeySort
  import opened PyCanon
  import opened PyRoundTrip
  import opened PyReading
  import PyParsing

  // ---------------------------------------------------------------------
  // Trimming, blank by blank, as strings.TrimSpace does over UTF-8

  /** U+1680, U+2000 to U+200A, U+2028, U+2029, U+202F, U+205F and U+3000. */
  predicate WideBlank(a: byte, b: byte, c: byte) {
    || (a == 225 && b == 154 && c == 128)
    || (a == 226 && b == 128 && (128 <= c <= 138 || c == 168 || c == 169 || c == 175))
    || (a == 226 && b == 129 && c == 159)
    || (a == 227 && b == 128 && c == 128)
  }

  /** U+0085 and U+00A0. */
  predicate PairBlank(a: byte, b: byte) {
    a == 194 && (b == 133 || b == 160)
  }

  /** The UTF-8 spellings of exactly those code points. */
  lemma UnicodeBlanks(a: byte, b: byte, c: byte)
    requires 128 <= b < 192 && 128 <= c < 192
    ensures 194 <= a < 224 ==> var code := 64 * (a as int - 192) + (b as int - 128);
      PairBlank(a, b) <==> code in {0x85, 0xA0}
    ensures 224 <= a < 240 ==> var code := 4096 * (a as int - 224) + 64 * (b as int - 128) + (c as int - 128);
      WideBlank(a, b, c) <==> code == 0x1680 || 0x2000 <= code <= 0x200A || code in {0x2028, 0x2029, 0x202F, 0x205F, 0x3000}
  {
  }

  /** The width of the blank that s starts with, 0 when it starts with none. */
  function HeadBlank(s: bytes): (n: nat)
    ensures n <= |s|
  {
    if s == [] then 0
    else if IsBlank(s[0]) then 1
    else if |s| >= 2 && PairBlank(s[0], s[1]) then 2
    else if |s| >= 3 && WideBlank(s[0], s[1], s[2]) then 3
    else 0
  }

  /** The width of the blank that s ends with, 0 when it ends with none. */
  function LastBlank(s: bytes): (n: nat)
    ensures n <= |s|
  {
    var n := |s|;
    if n == 0 then 0
    else if IsBlank(s[n - 1]) then 1
    else if n >= 2 && PairBlank(s[n - 2], s[n - 1]) then 2
    else if n >= 3 && WideBlank(s[n - 3], s[n - 2], s[n - 1]) then 3
    else 0
  }

  function TrimLeft(s: bytes): (r: bytes)
    ensures |r| <= |s| && r == s[|s| - |r|..] && HeadBlank(r) == 0
    decreases |s|
  {
    if HeadBlank(s) == 0 then s else TrimLeft(s[HeadBlank(s)..])
  }

  function TrimRight(s: bytes): (r: bytes)
    ensures |r| <= |s| && r == s[..|r|] && LastBlank(r) == 0
    decreases |s|
  {
    if LastBlank(s) == 0 then s else TrimRight(s[..|s| - LastBlank(s)])
  }

  function Trim(s: bytes): bytes {
    TrimRight(TrimLeft(s))
  }

  /** A text without a blank at either end is what trimming leaves. */
  lemma TrimFixed(s: bytes)
    requires HeadBlank(s) == 0 && LastBlank(s) == 0
    ensures Trim(s) == s
  {
    hide HeadBlank, LastBlank;
  }

  lemma PrefixHeadBlank(l: bytes, n: nat)
    requires HeadBlank(l) == 0 && n <= |l|
    ensures HeadBlank(l[..n]) == 0
  {
    hide WideBlank, PairBlank, IsBlank;
  }

  /** Trimming cuts a blank-free middle out of the text, and trimming again changes nothing. */
  lemma TrimKeepsTheMiddle(s: bytes)
    ensures HeadBlank(Trim(s)) == 0 && LastBlank(Trim(s)) == 0
    ensures Trim(Trim(s)) == Trim(s)
    ensures exists a, b :: s == a + Trim(s) + b
  {
    hide TrimLeft, TrimRight, HeadBlank, LastBlank;
    var l := TrimLeft(s);
    var r := TrimRight(l);
    PrefixHeadBlank(l, |r|);
    TrimFixed(r);
    assert s == s[..|s| - |l|] + r + l[|r|..];
  }

  /** A byte that trimming never removes. */
  predicate Ordinary(c: byte) {
    c < 128 && !IsBlank(c)
  }

  lemma OrdinaryEnds(s: bytes)
    requires s != [] && Ordinary(s[0]) && Ordinary(s[|s| - 1])
    ensures Trim(s) == s
  {
    hide TrimLeft, TrimRight;
    TrimFixed(s);
  }

  // ---------------------------------------------------------------------
  // The value of a text and its canonical text

  /** The value that s spells when s is exactly one literal. */
  function Denotes(s: bytes): (r: Option<Lit>)
    ensures r.Some? ==> Wf(r.value)
  {
    match Parse(Trim(s))
    case None => None
    case Some((c, rest)) =>
      Sound(Trim(s));
      TreeWf(c);
      if BlankLen(rest) == |rest| then Some(Tree(c)) else None
  }

  function Canonical(s: bytes): Option<bytes> {
    match Denotes(s)
    case None => None
    case Some(v) => Some(Canon(v))
  }

  method CanonicalPyLiteral(s: bytes) returns (out: bytes, ok: bool)
    ensures ok == Canonical(s).Some?
    ensures ok ==> out == Canonical(s).value
  {
    hide Parse, Canon, Tree, Ok, TrimLeft, TrimRight;
    var p := new PyParsing.PyParser(Trim(s));
    assert p.Rest() == Trim(s);
    out, ok := p.ParseValue();
    if !ok {
      return [], false;
    }
    p.SkipWS();
    if p.i != |p.s| {
      return [], false;
    }
  }

  /** A text is a literal exactly when it is the spelling of a well-formed tree, and it denotes that tree. */
  lemma DenotesSpelling(s: bytes, v: Lit)
    ensures Denotes(s) == Some(v) <==>
      exists c, blank :: Ok(c) && Tree(c) == v && AllBlank(blank) && Trim(s) == Text(c) + blank
  {
    hide Parse, Tree, Ok, Core, Trim, TrimLeft;
    var t := Trim(s);
    if Denotes(s) == Some(v) {
      Sound(t);
      var (c, rest) := Parse(t).value;
      assert rest[..|rest|] == rest;
      assert Ok(c) && Tree(c) == v && AllBlank(rest) && t == Text(c) + rest;
    }
    if c, blank :| Ok(c) && Tree(c) == v && AllBlank(blank) && t == Text(c) + blank {
      Complete(c, blank);
      assert blank[..|blank|] == blank;
      BlankLenUnique(blank, |blank|);
    }
  }

  // ---------------------------------------------------------------------
  // The canonical text is a fixed point

  predicate NumberByte(c: byte) {
    IsDigit(c) || c == DOT || c == PLUS || c == MINUS || c == 101 || c == 69
  }

  predicate NumberBytes(s: bytes) {
    forall i | 0 <= i < |s| :: NumberByte(s[i])
  }

  lemma UnsignedBytes(t: bytes)
    ensures NumberBytes(t[..UnsignedLen(t)])
  {
  }

  lemma ExponentBytes(t: bytes)
    ensures NumberBytes(t[..ExponentLen(t)])
  {
    if ExponentLen(t) > 0 {
      var s := if |t| > 1 && (t[1] == PLUS || t[1] == MINUS) then 2 else 1;
      assert forall i | s <= i < ExponentLen(t) :: t[i] == t[s..][i - s];
    }
  }

  lemma NumberTokenBytes(tok: bytes)
    requires IsNumber(tok)
    ensures NumberBytes(tok)
  {
    hide UnsignedLen, ExponentLen;
    var s, m := SignLen(tok), MantissaLen(tok);
    UnsignedBytes(tok[s..]);
    ExponentBytes(tok[m..]);
    assert forall i | s <= i < m :: tok[i] == tok[s..][..m - s][i - s];
    assert forall i | m <= i < |tok| :: tok[i] == tok[m..][..|tok| - m][i - m];
  }

  lemma CanonEnds(v: Lit)
    requires Wf(v)
    ensures var t := Canon(v); t != [] && Ordinary(t[0]) && Ordinary(t[|t| - 1])
  {
    hide NumberLen, Join, Escape, Sort, KeyText;
    match v
    case Word(tok) =>
      if IsNumber(tok) {
        NumberTokenBytes(tok);
      }
    case Chars(isBytes, body) =>
    case Node(kind, es) =>
  }

  /** Canonical text denotes the value it came from, with dicts and sets put in order. */
  lemma CanonicalDenotes(v: Lit)
    requires Wf(v)
    ensures Denotes(Canon(v)) == Some(Norm(v)) && Canon(Norm(v)) == Canon(v)
  {
    hide Parse, Canon, Tree, Norm, Plain, Ok, Trim, Wf, Normal, Text;
    CanonEnds(v);
    OrdinaryEnds(Canon(v));
    CanonParses(v, []);
    NormSpec(v);
    assert Canon(v) + [] == Canon(v);
  }

  lemma CanonicalIsFixed(s: bytes)
    requires Canonical(s).Some?
    ensures Canonical(Canonical(s).value) == Canonical(s)
  {
    hide Denotes, Canon, Norm;
    CanonicalDenotes(Denotes(s).value);
  }

  /** Two literals have the same canonical text exactly when they are equal up to entry order. */
  lemma CanonicalDecides(a: bytes, b: bytes)
    requires Denotes(a).Some? && Denotes(b).Some?
    ensures Canonical(a) == Canonical(b) <==> Equiv(Denotes(a).value, Denotes(b).value)
  {
    hide Denotes, Canon, Equiv;
    CanonDecidesEquiv(Denotes(a).value, Denotes(b).value);
  }

  // ---------------------------------------------------------------------
  // What never matches

  /** "(v)" is v itself, "(v,)" is a tuple that v never equals. */
  lemma {:induction false} GroupingIsNotATuple(v: Lit)
    ensures !Equiv(v, Node(Tuple, [Entry(v, None)]))
  {
    if v.Node? && v.kind == Tuple && |v.entries| == 1 && Equiv(v, Node(Tuple, [Entry(v, None)])) {
      var e := v.entries[0];
      assert Matches(v.entries, [Entry(v, None)], Identity(1));
      assert Identity(1)[0] == 0;
      assert EquivEntry(v.entries[0], [Entry(v, None)][0]);
      assert v == Node(Tuple, [Entry(e.k, None)]);
      GroupingIsNotATuple(e.k);
    }
  }

  lemma SpelledLiteral(c: Cst)
    requires Ok(c) && c.ws == [] && Text(c) != []
    requires Ordinary(Text(c)[0]) && Ordinary(Text(c)[|Text(c)| - 1])
    ensures Denotes(Text(c)) == Some(Tree(c))
  {
    hide Parse, Tree, Ok, Core, TrimLeft, TrimRight;
    OrdinaryEnds(Text(c));
    Complete(c, []);
    assert Text(c) + [] == Text(c);
  }

  /** Parentheses around any literal change nothing; a comma before the closing one changes the value. */
  lemma ParenthesesAndTuples(c: Cst)
    requires Ok(c)
    ensures var group, tuple := [LPAREN] + Text(c) + [RPAREN], [LPAREN] + Text(c) + [COMMA, RPAREN];
      && Denotes(group) == Some(Tree(c))
      && Denotes(tuple) == Some(Node(Tuple, [Entry(Tree(c), None)]))
      && Canonical(group) != Canonical(tuple)
  {
    hide Denotes, Equiv, Canon;
    var t := Text(c);
    var g, u := Group([], c, []), Tup([], c, [], Close([]));
    assert Text(g) == [LPAREN] + t + [RPAREN];
    assert ItemsText(Close([]), RPAREN) == [RPAREN];
    assert Core(u) == [LPAREN] + t + [] + [COMMA] + [RPAREN];
    assert Text(u) == [LPAREN] + t + [COMMA, RPAREN];
    SpelledLiteral(g);
    SpelledLiteral(u);
    assert [Entry(Tree(c), None)] + [] == [Entry(Tree(c), None)];
    GroupingIsNotATuple(Tree(c));
    CanonicalDecides(Text(g), Text(u));
  }

  /** Numbers match digit for digit, a leading plus aside: 1 never matches 1.0. */
  lemma NumbersMatchVerbatim(a: bytes, b: bytes)
    requires IsNumber(a) && IsNumber(b)
    ensures Canonical(a).Some? && Canonical(b).Some?
    ensures Canonical(a) == Canonical(b) <==> TrimPlus(a) == TrimPlus(b)
  {
    hide Denotes, IsNumber;
    NumberDenotes(a);
    NumberDenotes(b);
  }

  lemma NumberDenotes(tok: bytes)
    requires IsNumber(tok)
    ensures Denotes(tok) == Some(Word(TrimPlus(tok)))
  {
    hide Denotes, NumberLen, Lower, UnsignedLen;
    NumberWord(tok);
    NumberTokenBytes(tok);
    var c := Atom([], tok);
    assert Text(c) == tok;
    SpelledLiteral(c);
  }
}
