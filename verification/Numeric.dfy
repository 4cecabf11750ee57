/**
 The normal form of numeric answers. A token is an optional minus, an integer
 part with thousands commas, and an optional fraction.
 */
module Numeric {
  import opened Wrappers

  predicate IsDigit(c: char) { '0' <= c <= '9' }

  predicate Digits(s: string) {
    forall i | 0 <= i < |s| :: IsDigit(s[i])
  }

  function DigitValue(c: char): int
    requires IsDigit(c)
  {
    c as int - '0' as int
  }

  // ---------------------------------------------------------------------
  // The normalizer, as a chain of string functions

  function TrimPrefix(s: string, c: char): string {
    if s != [] && s[0] == c then s[1..] else s
  }

  function TrimRight(s: string, c: char): (r: string)
    ensures |r| <= |s| && r == s[..|r|] && (forall i | |r| <= i < |s| :: s[i] == c) && (r != [] ==> r[|r| - 1] != c)
  {
    if s != [] && s[|s| - 1] == c then TrimRight(s[..|s| - 1], c) else s
  }

  function Remove(s: string, c: char): (r: string)
    ensures forall i | 0 <= i < |r| :: r[i] != c && r[i] in s
  {
    if s == [] then [] else (if s[0] == c then [] else [s[0]]) + Remove(s[1..], c)
  }

  predicate Blank(c: char) {
    c == ' ' || c == '\t' || c == '\n' || c == '\r'
  }

  function TrimSpace(s: string): string
    decreases |s|
  {
    if s != [] && Blank(s[0]) then TrimSpace(s[1..])
    else if s != [] && Blank(s[|s| - 1]) then TrimSpace(s[..|s| - 1])
    else s
  }

  function TrimFraction(s: string): string {
    if '.' in s then TrimRight(TrimRight(s, '0'), '.') else s
  }

  function FoldZero(s: string): string {
    if s == "-0" || s == "" then "0" else s
  }

  function Normalize(tok: string): string {
    FoldZero(TrimFraction(TrimPrefix(Remove(TrimPrefix(TrimSpace(tok), '$'), ','), '+')))
  }

  // ---------------------------------------------------------------------
  // Tokens and their values

  /** The parts of a token; whole keeps its commas. */
  datatype Token = Token(negative: bool, whole: string, fraction: Option<string>)

  predicate Ok(t: Token) {
    && t.whole != [] && IsDigit(t.whole[0]) && (forall i | 0 <= i < |t.whole| :: IsDigit(t.whole[i]) || t.whole[i] == ',')
    && (t.fraction.Some? ==> t.fraction.value != [] && Digits(t.fraction.value))
  }

  function Sign(negative: bool): string {
    if negative then "-" else ""
  }

  function FractionText(f: Option<string>): string {
    match f
    case None => ""
    case Some(ds) => "." + ds
  }

  function Text(t: Token): string {
    Sign(t.negative) + t.whole + FractionText(t.fraction)
  }

  function WholeValue(ds: string): int
    requires Digits(ds)
  {
    if ds == [] then 0 else 10 * WholeValue(ds[..|ds| - 1]) + DigitValue(ds[|ds| - 1])
  }

  /** The value of digits after the point. */
  function FractionValue(ds: string): real
    requires Digits(ds)
  {
    if ds == [] then 0.0 else (DigitValue(ds[0]) as real + FractionValue(ds[1..])) / 10.0
  }

  lemma {:induction false} RemoveCommas(s: string)
    requires forall i | 0 <= i < |s| :: IsDigit(s[i]) || s[i] == ','
    ensures Digits(Remove(s, ','))
    ensures s != [] && IsDigit(s[0]) ==> Remove(s, ',') != [] && Remove(s, ',')[0] == s[0]
  {
    if s != [] {
      RemoveCommas(s[1..]);
    }
  }

  function Magnitude(t: Token): real
    requires Ok(t)
  {
    RemoveCommas(t.whole);
    WholeValue(Remove(t.whole, ',')) as real + if t.fraction.Some? then FractionValue(t.fraction.value) else 0.0
  }

  function Value(t: Token): real
    requires Ok(t)
  {
    if t.negative then -Magnitude(t) else Magnitude(t)
  }

  // ---------------------------------------------------------------------
  // The normal token

  /** Commas and trailing zeros of the fraction go, and minus zero loses its sign. */
  function Normal(t: Token): (n: Token)
    requires Ok(t)
    ensures Ok(n)
  {
    RemoveCommas(t.whole);
    var whole := Remove(t.whole, ',');
    var fraction := match t.fraction case None => None case Some(ds) => Shorten(ds);
    NoCommas(whole);
    Token(t.negative && !(whole == "0" && fraction.None?), whole, fraction)
  }

  function Shorten(ds: string): (f: Option<string>)
    requires Digits(ds)
    ensures f.Some? ==> f.value != [] && Digits(f.value)
  {
    var r := TrimRight(ds, '0');
    if r == [] then None else Some(r)
  }

  lemma {:induction false} NoCommas(s: string)
    requires Digits(s)
    ensures Remove(s, ',') == s
  {
    if s != [] {
      NoCommas(s[1..]);
    }
  }

  lemma {:induction false} RemoveConcat(a: string, b: string, c: char)
    ensures Remove(a + b, c) == Remove(a, c) + Remove(b, c)
  {
    if a == [] {
      assert a + b == b;
    } else {
      assert (a + b)[0] == a[0] && (a + b)[1..] == a[1..] + b;
      RemoveConcat(a[1..], b, c);
    }
  }

  lemma {:induction false} RemoveNothing(s: string, c: char)
    requires forall i | 0 <= i < |s| :: s[i] != c
    ensures Remove(s, c) == s
  {
    if s != [] {
      RemoveNothing(s[1..], c);
    }
  }

  /** Trailing characters of a concatenation go from its last part, and from the part before only when that is used up. */
  lemma {:induction false} TrimRightConcat(a: string, b: string, c: char)
    ensures TrimRight(a + b, c) == if TrimRight(b, c) == [] then TrimRight(a, c) else a + TrimRight(b, c)
  {
    if b == [] {
      assert a + b == a;
    } else if b[|b| - 1] == c {
      assert (a + b)[..|a + b| - 1] == a + b[..|b| - 1];
      TrimRightConcat(a, b[..|b| - 1], c);
    }
  }

  /** On tokens the string chain computes the normal token's text. */
  lemma NormalizeIsNormal(t: Token)
    requires Ok(t)
    ensures Normalize(Text(t)) == Text(Normal(t))
  {
    hide Remove, TrimRight, TrimSpace;
    var whole := Remove(t.whole, ',');
    RemoveCommas(t.whole);
    TokenEnds(t);
    StripsCommas(t);
    var s := Sign(t.negative) + whole + FractionText(t.fraction);
    assert TrimPrefix(s, '+') == s;
    if t.fraction.Some? {
      TrimsFraction(Sign(t.negative) + whole, t.fraction.value);
    } else {
      assert s == Sign(t.negative) + whole;
      NoDot(Sign(t.negative), whole);
    }
    FoldsZero(t.negative, whole, Normal(t).fraction);
  }

  predicate AllBlank(s: string) {
    forall i | 0 <= i < |s| :: Blank(s[i])
  }

  lemma {:induction false} TrimsAround(before: string, x: string, after: string)
    requires AllBlank(before) && AllBlank(after) && x != [] && !Blank(x[0]) && !Blank(x[|x| - 1])
    ensures TrimSpace(before + x + after) == x
    decreases |before| + |after|
  {
    var s := before + x + after;
    if before != [] {
      assert s[0] == before[0] && s[1..] == before[1..] + x + after;
      TrimsAround(before[1..], x, after);
    } else if after != [] {
      var n := |after| - 1;
      assert s[0] == x[0] && s[|s| - 1] == after[n] && s[..|s| - 1] == before + x + after[..n];
      TrimsAround(before, x, after[..n]);
    } else {
      assert s == x;
    }
  }

  lemma TokenHead(t: Token)
    requires Ok(t)
    ensures var s := Text(t); s != [] && (s[0] == '-' || IsDigit(s[0])) && (IsDigit(s[|s| - 1]) || s[|s| - 1] == ',')
    ensures var r := Remove(Text(t), ','); r != [] && (r[0] == '-' || IsDigit(r[0]))
  {
    hide Remove;
    RemoveCommas(t.whole);
    StripsCommas(t);
    var s := Text(t);
    match t.fraction
    case None => assert s[|s| - 1] == t.whole[|t.whole| - 1];
    case Some(ds) => assert s[|s| - 1] == ds[|ds| - 1];
  }

  /** Blanks around a token, a dollar sign and then a plus in front of it make no difference. */
  lemma DecoratedToken(t: Token, before: string, money: bool, plus: bool, after: string)
    requires Ok(t) && AllBlank(before) && AllBlank(after)
    ensures Normalize(before + (if money then "$" else "") + (if plus then "+" else "") + Text(t) + after) == Text(Normal(t))
  {
    hide *;
    var d, p, s := if money then "$" else "", if plus then "+" else "", Text(t);
    TokenHead(t);
    TokenEnds(t);
    NormalizeIsNormal(t);
    DropsMarks(money, plus, s);
    TrimsAround(before, d + p + s, after);
    assert before + (d + p + s) + after == before + d + p + s + after;
    RemoveConcat(p, s, ',');
    NoCommaInPlus(plus);
    DropsPlus(plus, Remove(s, ','));
    SameChain(before + d + p + s + after, s, plus);
  }

  lemma SameChain(deco: string, s: string, plus: bool)
    requires TrimPrefix(TrimSpace(s), '$') == s && TrimPrefix(Remove(s, ','), '+') == Remove(s, ',')
    requires var p := if plus then "+" else "";
      && TrimPrefix(TrimSpace(deco), '$') == p + s && Remove(p + s, ',') == p + Remove(s, ',')
      && TrimPrefix(p + Remove(s, ','), '+') == Remove(s, ',')
    ensures Normalize(deco) == Normalize(s)
  {
    hide Remove, TrimSpace, TrimPrefix, TrimFraction, FoldZero;
  }

  lemma NoCommaInPlus(plus: bool)
    ensures var p := if plus then "+" else ""; Remove(p, ',') == p
  {
    RemoveNothing(if plus then "+" else "", ',');
  }

  lemma DropsPlus(plus: bool, r: string)
    requires r != [] && (r[0] == '-' || IsDigit(r[0]))
    ensures TrimPrefix(r, '+') == r && TrimPrefix((if plus then "+" else "") + r, '+') == r
  {
    if plus { assert ("+" + r)[1..] == r; } else { assert "" + r == r; }
  }

  /** The dollar sign goes, and what is left begins and ends without a blank. */
  lemma DropsMarks(money: bool, plus: bool, s: string)
    requires s != [] && (s[0] == '-' || IsDigit(s[0])) && (IsDigit(s[|s| - 1]) || s[|s| - 1] == ',')
    ensures var d, p := if money then "$" else "", if plus then "+" else "";
      var x := d + p + s;
      x != [] && !Blank(x[0]) && !Blank(x[|x| - 1]) && TrimPrefix(x, '$') == p + s
  {
    var d, p := if money then "$" else "", if plus then "+" else "";
    var x := d + p + s;
    assert x[|x| - 1] == s[|s| - 1];
    assert (p + s)[0] == (if plus then '+' else s[0]);
    if money { assert x[1..] == p + s; } else { assert x == p + s; }
  }

  lemma TokenEnds(t: Token)
    requires Ok(t)
    ensures TrimPrefix(TrimSpace(Text(t)), '$') == Text(t)
  {
    var s := Text(t);
    assert s[0] == '-' || IsDigit(s[0]);
    var last := s[|s| - 1];
    assert last == ',' || IsDigit(last) by {
      match t.fraction
      case None => assert last == t.whole[|t.whole| - 1];
      case Some(ds) => assert last == ds[|ds| - 1];
    }
  }

  lemma StripsCommas(t: Token)
    requires Ok(t)
    ensures Remove(Text(t), ',') == Sign(t.negative) + Remove(t.whole, ',') + FractionText(t.fraction)
  {
    RemoveConcat(Sign(t.negative) + t.whole, FractionText(t.fraction), ',');
    RemoveConcat(Sign(t.negative), t.whole, ',');
    RemoveNothing(Sign(t.negative), ',');
    RemoveNothing(FractionText(t.fraction), ',');
  }

  lemma NoDot(sign: string, whole: string)
    requires (sign == "" || sign == "-") && Digits(whole)
    ensures '.' !in sign + whole
  {
  }

  lemma TrimsFraction(front: string, ds: string)
    requires Digits(ds) && front != [] && IsDigit(front[|front| - 1])
    ensures TrimFraction(front + FractionText(Some(ds))) == front + FractionText(Shorten(ds))
  {
    hide TrimRight;
    var s := front + ("." + ds);
    assert s[|front|] == '.';
    TrimRightConcat(front, "." + ds, '0');
    TrimRightConcat(".", ds, '0');
    KeepsDot();
    var r := TrimRight(ds, '0');
    if r == [] {
      assert TrimRight(s, '0') == front + ".";
      TrimRightConcat(front, ".", '.');
      DotGoes();
      KeepsEnd(front, '.');
      assert front + "" == front;
    } else {
      assert TrimRight(s, '0') == front + ("." + r);
      KeepsEnd(front + ("." + r), '.');
    }
  }

  lemma KeepsEnd(s: string, c: char)
    requires s != [] && s[|s| - 1] != c
    ensures TrimRight(s, c) == s
  {
  }

  lemma KeepsDot()
    ensures TrimRight(".", '0') == "."
  {
  }

  lemma DotGoes()
    ensures TrimRight(".", '.') == ""
  {
    assert "."[..0] == "";
  }

  lemma FoldsZero(negative: bool, whole: string, fraction: Option<string>)
    requires whole != [] && Digits(whole)
    ensures FoldZero(Sign(negative) + whole + FractionText(fraction)) ==
      Sign(negative && !(whole == "0" && fraction.None?)) + whole + FractionText(fraction)
  {
    var s := Sign(negative) + whole + FractionText(fraction);
    assert fraction.Some? ==> s[|Sign(negative)| + |whole|] == '.';
    if s == "-0" {
      assert s[0] == '-';
      assert negative && fraction.None?;
      assert whole == s[1..] == "0";
    }
  }

  // ---------------------------------------------------------------------
  // Value and idempotence

  lemma {:induction false} FractionTrimmed(ds: string)
    requires Digits(ds)
    ensures Digits(TrimRight(ds, '0')) && FractionValue(TrimRight(ds, '0')) == FractionValue(ds)
  {
    if ds != [] && ds[|ds| - 1] == '0' {
      FractionTrimmed(ds[..|ds| - 1]);
      TrailingZero(ds[..|ds| - 1]);
      assert ds == ds[..|ds| - 1] + "0";
    }
  }

  lemma {:induction false} TrailingZero(ds: string)
    requires Digits(ds)
    ensures Digits(ds + "0") && FractionValue(ds + "0") == FractionValue(ds)
  {
    if ds == [] {
      assert "0"[1..] == "";
      assert ds + "0" == "0";
    } else {
      TrailingZero(ds[1..]);
      assert (ds + "0")[0] == ds[0] && (ds + "0")[1..] == ds[1..] + "0";
    }
  }

  /** Normalizing keeps the value. */
  lemma NormalKeepsValue(t: Token)
    requires Ok(t)
    ensures Value(Normal(t)) == Value(t)
  {
    hide Remove, TrimRight, FractionValue, WholeValue;
    RemoveCommas(t.whole);
    var whole := Remove(t.whole, ',');
    NoCommas(whole);
    if t.fraction.Some? {
      FractionTrimmed(t.fraction.value);
      EmptyFraction();
    }
    ZeroWhole();
  }

  lemma EmptyFraction()
    ensures FractionValue("") == 0.0
  {
  }

  lemma ZeroWhole()
    ensures WholeValue("0") == 0
  {
    assert "0"[..0] == "";
  }

  /** Normalizing a token's text, and doing it again, gives the same text. */
  lemma NormalizeIdempotent(t: Token)
    requires Ok(t)
    ensures Normalize(Normalize(Text(t))) == Normalize(Text(t))
  {
    hide Remove, TrimRight, Normalize, Text;
    NormalizeIsNormal(t);
    NormalizeIsNormal(Normal(t));
    NormalTwice(t);
  }

  lemma NormalTwice(t: Token)
    requires Ok(t)
    ensures Normal(Normal(t)) == Normal(t)
  {
    hide Remove, TrimRight;
    RemoveCommas(t.whole);
    NoCommas(Remove(t.whole, ','));
    if t.fraction.Some? && Shorten(t.fraction.value).Some? {
      KeepsEnd(TrimRight(t.fraction.value, '0'), '0');
    }
  }

  // ---------------------------------------------------------------------
  // Equal forms and equal values

  /** No zero in front of other integer digits. */
  predicate Plain(t: Token)
    requires Ok(t)
  {
    var whole := Remove(t.whole, ',');
    whole == "0" || (whole != [] && whole[0] != '0')
  }

  lemma {:induction false} WholePositive(ds: string)
    requires Digits(ds) && ds != [] && ds[0] != '0'
    ensures WholeValue(ds) >= 1
  {
    if |ds| > 1 {
      WholePositive(ds[..|ds| - 1]);
    } else {
      assert ds[..0] == "";
    }
  }

  lemma WholeNonNegative(ds: string)
    requires Digits(ds)
    ensures WholeValue(ds) >= 0
  {
  }

  /** Digits without a leading zero are fixed by their value. */
  lemma {:induction false} WholeUnique(a: string, b: string)
    requires Digits(a) && Digits(b) && WholeValue(a) == WholeValue(b)
    requires a == [] || a[0] != '0'
    requires b == [] || b[0] != '0'
    ensures a == b
    decreases |a|
  {
    if a != [] && b != [] {
      var fa, fb := a[..|a| - 1], b[..|b| - 1];
      assert WholeValue(fa) == WholeValue(fb) && DigitValue(a[|a| - 1]) == DigitValue(b[|b| - 1]);
      WholeUnique(fa, fb);
      assert a == fa + [a[|a| - 1]] && b == fb + [b[|b| - 1]];
    } else if a != [] {
      WholePositive(a);
    } else if b != [] {
      WholePositive(b);
    }
  }

  lemma {:induction false} FractionBounds(ds: string)
    requires Digits(ds)
    ensures 0.0 <= FractionValue(ds) < 1.0
    ensures ds != [] && ds[|ds| - 1] != '0' ==> FractionValue(ds) > 0.0
  {
    if ds != [] {
      FractionBounds(ds[1..]);
      if |ds| > 1 { assert ds[1..][|ds| - 2] == ds[|ds| - 1]; }
    }
  }

  /** Fraction digits without a trailing zero are fixed by their value. */
  lemma {:induction false} FractionUnique(a: string, b: string)
    requires Digits(a) && Digits(b) && FractionValue(a) == FractionValue(b)
    requires a == [] || a[|a| - 1] != '0'
    requires b == [] || b[|b| - 1] != '0'
    ensures a == b
    decreases |a|
  {
    FractionBounds(a);
    FractionBounds(b);
    if a != [] && b != [] {
      FractionBounds(a[1..]);
      FractionBounds(b[1..]);
      var x, y := FractionValue(a[1..]), FractionValue(b[1..]);
      assert DigitValue(a[0]) as real + x == DigitValue(b[0]) as real + y;
      SameWhole(DigitValue(a[0]), x, DigitValue(b[0]), y);
      if |a| > 1 { assert a[1..][|a| - 2] == a[|a| - 1]; }
      if |b| > 1 { assert b[1..][|b| - 2] == b[|b| - 1]; }
      FractionUnique(a[1..], b[1..]);
      assert a == [a[0]] + a[1..] && b == [b[0]] + b[1..];
    }
  }

  lemma SameWhole(m: int, x: real, n: int, y: real)
    requires 0.0 <= x < 1.0 && 0.0 <= y < 1.0 && m as real + x == n as real + y
    ensures m == n && x == y
  {
    assert -1.0 < (m - n) as real < 1.0;
  }

  function FractionDigits(t: Token): string {
    match t.fraction
    case None => ""
    case Some(ds) => ds
  }

  /** A normal token's integer digits, empty for zero. */
  function Significant(whole: string): string {
    if whole == "0" then "" else whole
  }

  lemma SignificantValue(whole: string)
    requires Digits(whole)
    ensures Digits(Significant(whole)) && WholeValue(Significant(whole)) == WholeValue(whole)
  {
    ZeroWhole();
  }

  /** What normalizing leaves: digits, a fraction without trailing zeros, and the parts' values. */
  lemma NormalParts(t: Token)
    requires Ok(t)
    ensures var n := Normal(t);
      && Digits(n.whole) && n.whole == Remove(t.whole, ',') && n.whole != []
      && Digits(FractionDigits(n)) && (FractionDigits(n) == [] || FractionDigits(n)[|FractionDigits(n)| - 1] != '0')
      && (n.fraction.None? <==> FractionDigits(n) == [])
      && Magnitude(n) == WholeValue(n.whole) as real + FractionValue(FractionDigits(n))
      && (n.negative ==> n.whole != "0" || FractionDigits(n) != [])
  {
    hide Remove, TrimRight, WholeValue, FractionValue;
    RemoveCommas(t.whole);
    NoCommas(Remove(t.whole, ','));
    EmptyFraction();
  }

  /** Digit strings of one length are fixed by their value, leading zeros or not. */
  lemma {:induction false} SameLengthUnique(a: string, b: string)
    requires Digits(a) && Digits(b) && |a| == |b| && WholeValue(a) == WholeValue(b)
    ensures a == b
  {
    if a != [] {
      var n := |a| - 1;
      assert WholeValue(a[..n]) == WholeValue(b[..n]) && DigitValue(a[n]) == DigitValue(b[n]);
      SameLengthUnique(a[..n], b[..n]);
      assert a == a[..n] + [a[n]] && b == b[..n] + [b[n]];
    }
  }

  /** Two tokens of equal value have the same fraction, and integer digits of the same value. */
  lemma SameParts(a: Token, b: Token)
    requires Ok(a) && Ok(b) && Value(a) == Value(b) && Normal(a).negative == Normal(b).negative
    ensures Digits(Normal(a).whole) && Digits(Normal(b).whole)
    ensures WholeValue(Normal(a).whole) == WholeValue(Normal(b).whole) && Normal(a).fraction == Normal(b).fraction
  {
    hide Remove, WholeValue, FractionValue, Magnitude, Normal;
    NormalKeepsValue(a);
    NormalKeepsValue(b);
    NormalParts(a);
    NormalParts(b);
    var m, n := Normal(a), Normal(b);
    FractionBounds(FractionDigits(m));
    FractionBounds(FractionDigits(n));
    assert Magnitude(m) == Magnitude(n);
    SameWhole(WholeValue(m.whole), FractionValue(FractionDigits(m)), WholeValue(n.whole), FractionValue(FractionDigits(n)));
    FractionUnique(FractionDigits(m), FractionDigits(n));
    SameFraction(m, n);
  }

  /** Digits without superfluous zeros that are not all zero have a positive value. */
  lemma NormalPositive(whole: string, fraction: string)
    requires Digits(whole) && whole != [] && (whole == "0" || whole[0] != '0')
    requires Digits(fraction) && (fraction == [] || fraction[|fraction| - 1] != '0')
    requires whole != "0" || fraction != []
    ensures WholeValue(whole) as real + FractionValue(fraction) > 0.0
  {
    FractionBounds(fraction);
    WholeNonNegative(whole);
    if whole != "0" { WholePositive(whole); }
  }

  /** A plain token's sign follows its value. */
  lemma PlainSign(t: Token)
    requires Ok(t) && Plain(t)
    ensures Normal(t).negative <==> Value(t) < 0.0
  {
    hide Remove, WholeValue, FractionValue, Magnitude, Normal;
    NormalKeepsValue(t);
    NormalParts(t);
    var n := Normal(t);
    FractionBounds(FractionDigits(n));
    WholeNonNegative(n.whole);
    if n.negative { NormalPositive(n.whole, FractionDigits(n)); }
  }

  /** So plain tokens of equal value agree in sign and in the number of integer digits. */
  lemma PlainSameShape(a: Token, b: Token)
    requires Ok(a) && Ok(b) && Plain(a) && Plain(b) && Value(a) == Value(b)
    ensures Normal(a).negative == Normal(b).negative && |Remove(a.whole, ',')| == |Remove(b.whole, ',')|
  {
    hide Remove, WholeValue, FractionValue, Magnitude, Normal;
    PlainSign(a);
    PlainSign(b);
    SameParts(a, b);
    NormalParts(a);
    NormalParts(b);
    var x, y := Normal(a).whole, Normal(b).whole;
    SignificantValue(x);
    SignificantValue(y);
    WholeUnique(Significant(x), Significant(y));
    SignificantUnique(x, y);
  }

  lemma SignificantUnique(a: string, b: string)
    requires a != [] && b != [] && Significant(a) == Significant(b)
    ensures a == b
  {
  }

  lemma SameFraction(m: Token, n: Token)
    requires Ok(m) && Ok(n) && FractionDigits(m) == FractionDigits(n)
    ensures m.fraction == n.fraction
  {
  }

  /** Equal normal forms mean equal values, for every token. */
  lemma EqualFormsEqualValues(a: Token, b: Token)
    requires Ok(a) && Ok(b) && Normalize(Text(a)) == Normalize(Text(b))
    ensures Value(a) == Value(b)
  {
    hide Normalize, Value, Text, Normal;
    NormalizeIsNormal(a);
    NormalizeIsNormal(b);
    TextUnique(Normal(a), Normal(b));
    NormalKeepsValue(a);
    NormalKeepsValue(b);
  }

  /** A token's text determines the token. */
  lemma TextUnique(a: Token, b: Token)
    requires Ok(a) && Ok(b) && Text(a) == Text(b)
    ensures a == b
  {
    var s := Text(a);
    assert s[0] == if a.negative then '-' else a.whole[0];
    assert s[0] == if b.negative then '-' else b.whole[0];
    var k := if a.negative then 1 else 0;
    PointAt(a, s, k);
    PointAt(b, s, k);
    assert a.whole == s[k..k + |a.whole|] && b.whole == s[k..k + |b.whole|];
    if a.fraction.Some? { assert a.fraction.value == s[k + |a.whole| + 1..]; }
    if b.fraction.Some? { assert b.fraction.value == s[k + |b.whole| + 1..]; }
  }

  /** The integer part ends at the point, or at the end. */
  lemma PointAt(t: Token, s: string, k: nat)
    requires Ok(t) && s == Text(t) && k == |Sign(t.negative)|
    ensures k + |t.whole| <= |s| && (forall i | k <= i < k + |t.whole| :: s[i] != '.')
    ensures if t.fraction.Some? then k + |t.whole| < |s| && s[k + |t.whole|] == '.' else k + |t.whole| == |s|
  {
    forall i | k <= i < k + |t.whole| ensures s[i] == t.whole[i - k] {}
  }

  /** Two tokens have the same normal form exactly when value, sign and number of integer digits agree. */
  lemma FormsAgreeExactly(a: Token, b: Token)
    requires Ok(a) && Ok(b)
    ensures Normalize(Text(a)) == Normalize(Text(b)) <==>
      && Value(a) == Value(b)
      && |Remove(a.whole, ',')| == |Remove(b.whole, ',')|
      && Normal(a).negative == Normal(b).negative
  {
    hide Normalize, Value, Text, Normal, Remove, WholeValue;
    NormalizeIsNormal(a);
    NormalizeIsNormal(b);
    NormalParts(a);
    NormalParts(b);
    if Normalize(Text(a)) == Normalize(Text(b)) {
      EqualFormsEqualValues(a, b);
      TextUnique(Normal(a), Normal(b));
    }
    if Value(a) == Value(b) && |Remove(a.whole, ',')| == |Remove(b.whole, ',')| && Normal(a).negative == Normal(b).negative {
      SameParts(a, b);
      SameLengthUnique(Normal(a).whole, Normal(b).whole);
      assert Normal(a) == Normal(b);
    }
  }

  /** Without superfluous leading zeros that is: exactly when the values are equal. */
  lemma EqualValuesEqualForms(a: Token, b: Token)
    requires Ok(a) && Ok(b) && Plain(a) && Plain(b)
    ensures Normalize(Text(a)) == Normalize(Text(b)) <==> Value(a) == Value(b)
  {
    hide Normalize, Value, Text, Normal, Plain, Remove;
    FormsAgreeExactly(a, b);
    if Value(a) == Value(b) {
      PlainSameShape(a, b);
    }
  }

  const MINUS_ZEROS := Token(true, "00", None)
  const ZERO := Token(false, "0", None)

  lemma ZeroTokens()
    ensures Ok(MINUS_ZEROS) && Ok(ZERO)
    ensures Normal(MINUS_ZEROS) == MINUS_ZEROS && Normal(ZERO) == ZERO
  {
    NoCommas("00");
    NoCommas("0");
  }

  lemma ZeroValues()
    requires Ok(MINUS_ZEROS) && Ok(ZERO)
    ensures Value(MINUS_ZEROS) == Value(ZERO)
  {
    NoCommas("00");
    NoCommas("0");
    ZeroWhole();
    assert "00"[..1] == "0";
    assert WholeValue("00") == 10 * WholeValue("0") + DigitValue('0');
  }

  /** Leading zeros do matter: "-00" has the value of "0" but not its form. */
  lemma LeadingZerosDiffer()
    ensures Ok(MINUS_ZEROS) && Ok(ZERO) && Value(MINUS_ZEROS) == Value(ZERO)
    ensures Normalize(Text(MINUS_ZEROS)) != Normalize(Text(ZERO))
  {
    hide Normalize, Value, Normal, Ok;
    ZeroTokens();
    ZeroValues();
    NormalizeIsNormal(MINUS_ZEROS);
    NormalizeIsNormal(ZERO);
    assert Text(MINUS_ZEROS)[0] == '-' && Text(ZERO)[0] == '0';
  }
}
