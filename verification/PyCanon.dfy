/**
 Literal values and their canonical text: what internal/evaluator/outputmatch.go
 computes while it parses. A value forgets layout, quoting and grouping; the
 canonical text also forgets the order of dict entries and set elements.
 */
module PyCanon {
  import opened Wrappers
  import opened Bytes
  import opened PyGrammar
  import opened KeySort
  import opened Permutations

  datatype Kind = List | Tuple | Braced
  /** Empty braces are the empty dict; other braces are a dict when their entries carry values. */
  datatype Lit = Word(tok: bytes) | Chars(isBytes: bool, body: bytes) | Node(kind: Kind, entries: seq<Entry>)
  datatype Entry = Entry(k: Lit, v: Option<Lit>)

  // ---------------------------------------------------------------------
  // From concrete syntax to values

  const TRUE_WORD: bytes := [84, 114, 117, 101]
  const FALSE_WORD: bytes := [70, 97, 108, 115, 101]
  const NONE_WORD: bytes := [78, 111, 110, 101]

  function TrimPlus(tok: bytes): bytes {
    if tok != [] && tok[0] == PLUS then tok[1..] else tok
  }

  function CanonWord(tok: bytes): bytes {
    var l := Lower(tok);
    if l == TRUE_LOWER then TRUE_WORD
    else if l == FALSE_LOWER then FALSE_WORD
    else if l == NONE_LOWER then NONE_WORD
    else TrimPlus(tok)
  }

  function HexValue(c: byte): (n: nat)
    requires IsHex(c)
    ensures n < 16
  {
    if IsDigit(c) then (c - 48) as nat else if c >= 97 then (c - 87) as nat else (c - 55) as nat
  }

  function DecodePiece(p: Piece): byte
    requires p.Hex? ==> IsHex(p.hi) && IsHex(p.lo)
  {
    match p
    case Raw(c) => c
    case Esc(e) => if e == 110 then NEWLINE else if e == 116 then TAB else if e == 114 then RETURN else e
    case Hex(h, l) => (16 * HexValue(h) + HexValue(l)) as byte
  }

  function Decode(ps: seq<Piece>): (r: bytes)
    requires forall i | 0 <= i < |ps| :: ps[i].Hex? ==> IsHex(ps[i].hi) && IsHex(ps[i].lo)
    ensures |r| == |ps|
  {
    if ps == [] then [] else [DecodePiece(ps[0])] + Decode(ps[1..])
  }

  function Tree(c: Cst): Lit
    requires Ok(c)
    decreases c, 0
  {
    match c
    case Atom(_, tok) => Word(CanonWord(tok))
    case Str(_, prefix, _, ps) => Chars(prefix != [], Decode(ps))
    case ListC(_, items) => Node(List, Entries(items))
    case Unit(_, _) => Node(Tuple, [])
    case Group(_, inner, _) => Tree(inner)
    case Tup(_, first, _, items) => Node(Tuple, [Entry(Tree(first), None)] + Entries(items))
    case EmptyBraces(_, _) => Node(Braced, [])
    case Braces(_, item, tail) => Node(Braced, [EntryOf(item, item.val.Value?)] + TailEntries(tail, item.val.Value?))
  }

  function EntryOf(it: Item, colon: bool): Entry
    requires ItemOk(it, colon)
    decreases it, 0
  {
    match it.val
    case NoValue => Entry(Tree(it.k), None)
    case Value(_, c) => assert ValueOk(it.val); Entry(Tree(it.k), Some(Tree(c)))
  }

  function Entries(items: Items): seq<Entry>
    requires ItemsOk(items)
    decreases items, 0
  {
    match items
    case Close(_) => []
    case Cons(item, tail) => [EntryOf(item, false)] + TailEntries(tail, false)
  }

  function TailEntries(tail: Tail, colon: bool): seq<Entry>
    requires TailOk(tail, colon)
    decreases tail, 0
  {
    match tail
    case End(_) => []
    case TrailingComma(_, _) => []
    case More(_, item, rest) => [EntryOf(item, colon)] + TailEntries(rest, colon)
  }

  // ---------------------------------------------------------------------
  // Canonical text

  function EscapeByte(c: byte): bytes {
    if c == BACKSLASH then [BACKSLASH, BACKSLASH]
    else if c == DQUOTE then [BACKSLASH, DQUOTE]
    else if c == NEWLINE then [BACKSLASH, 110]
    else if c == TAB then [BACKSLASH, 116]
    else if c == RETURN then [BACKSLASH, 114]
    else [c]
  }

  function Escape(s: bytes): bytes {
    if s == [] then [] else EscapeByte(s[0]) + Escape(s[1..])
  }

  const BYTES_PREFIX: bytes := [98]

  function Quoted(isBytes: bool, body: bytes): bytes {
    (if isBytes then BYTES_PREFIX else []) + [DQUOTE] + Escape(body) + [DQUOTE]
  }

  function KeyText(key: Key): bytes {
    match key.v
    case None => key.k
    case Some(v) => key.k + [COLON] + v
  }

  /** The texts separated by commas. */
  function Join(keys: seq<Key>): bytes {
    if keys == [] then []
    else if |keys| == 1 then KeyText(keys[0])
    else KeyText(keys[0]) + [COMMA] + Join(keys[1..])
  }

  function Assemble(kind: Kind, keys: seq<Key>): bytes {
    match kind
    case List => [LBRACKET] + Join(keys) + [RBRACKET]
    case Tuple => if |keys| == 1 then [LPAREN] + KeyText(keys[0]) + [COMMA, RPAREN] else [LPAREN] + Join(keys) + [RPAREN]
    case Braced => [LBRACE] + Join(Sort(keys)) + [RBRACE]
  }

  function Canon(v: Lit): bytes
    decreases v, 0
  {
    match v
    case Word(tok) => tok
    case Chars(isBytes, body) => Quoted(isBytes, body)
    case Node(kind, es) => Assemble(kind, Keys(es))
  }

  function KeyOf(e: Entry): Key
    decreases e, 0
  {
    Key(Canon(e.k), match e.v case None => None case Some(v) => Some(Canon(v)))
  }

  function Keys(es: seq<Entry>): (r: seq<Key>)
    ensures |r| == |es|
    ensures forall i | 0 <= i < |es| :: r[i] == KeyOf(es[i])
    decreases es, 0
  {
    if es == [] then [] else [KeyOf(es[0])] + Keys(es[1..])
  }

  lemma KeysConcat(a: seq<Entry>, b: seq<Entry>)
    ensures Keys(a + b) == Keys(a) + Keys(b)
  {
  }

  // ---------------------------------------------------------------------
  // Well-formed and normal values

  predicate IsWord(tok: bytes) {
    (IsNumber(tok) && tok[0] != PLUS) || tok == TRUE_WORD || tok == FALSE_WORD || tok == NONE_WORD
  }

  predicate Wf(v: Lit)
    decreases v, 0
  {
    match v
    case Word(tok) => IsWord(tok)
    case Chars(_, _) => true
    case Node(kind, es) =>
      && (kind != Braced ==> forall i | 0 <= i < |es| :: es[i].v.None?)
      && (forall i, j | 0 <= i < j < |es| :: es[i].v.Some? == es[j].v.Some?)
      && WfEntries(es)
  }

  predicate WfEntry(e: Entry)
    decreases e, 0
  {
    Wf(e.k) && match e.v case None => true case Some(v) => Wf(v)
  }

  predicate WfEntries(es: seq<Entry>)
    ensures WfEntries(es) ==> forall i | 0 <= i < |es| :: WfEntry(es[i])
    decreases es, 0
  {
    es == [] || (WfEntry(es[0]) && WfEntries(es[1..]))
  }

  lemma WfEntriesConcat(a: seq<Entry>, b: seq<Entry>)
    ensures WfEntries(a + b) == (WfEntries(a) && WfEntries(b))
  {
    if a == [] {
      assert a + b == b;
    } else {
      assert (a + b)[0] == a[0] && (a + b)[1..] == a[1..] + b;
      WfEntriesConcat(a[1..], b);
    }
  }

  /** A value whose dicts and sets are written in canonical order, all the way down. */
  predicate Normal(v: Lit)
    decreases v, 0
  {
    v.Node? ==> (v.kind == Braced ==> Sorted(Keys(v.entries))) && NormalEntries(v.entries)
  }

  predicate NormalEntry(e: Entry)
    decreases e, 0
  {
    Normal(e.k) && match e.v case None => true case Some(v) => Normal(v)
  }

  predicate NormalEntries(es: seq<Entry>)
    ensures NormalEntries(es) ==> forall i | 0 <= i < |es| :: NormalEntry(es[i])
    decreases es, 0
  {
    es == [] || (NormalEntry(es[0]) && NormalEntries(es[1..]))
  }

  function InsertEntry(x: Entry, es: seq<Entry>): seq<Entry> {
    if es == [] then [x]
    else if KeyLeq(KeyOf(x), KeyOf(es[0])) then [x] + es
    else [es[0]] + InsertEntry(x, es[1..])
  }

  function SortEntries(es: seq<Entry>): seq<Entry> {
    if es == [] then [] else InsertEntry(es[0], SortEntries(es[1..]))
  }

  function Norm(v: Lit): Lit
    decreases v, 0
  {
    match v
    case Word(_) => v
    case Chars(_, _) => v
    case Node(kind, es) =>
      var ns := NormEntries(es);
      Node(kind, if kind == Braced then SortEntries(ns) else ns)
  }

  function NormEntry(e: Entry): Entry
    decreases e, 0
  {
    Entry(Norm(e.k), match e.v case None => None case Some(v) => Some(Norm(v)))
  }

  function NormEntries(es: seq<Entry>): (r: seq<Entry>)
    ensures |r| == |es|
    ensures forall i | 0 <= i < |es| :: r[i] == NormEntry(es[i])
    decreases es, 0
  {
    if es == [] then [] else [NormEntry(es[0])] + NormEntries(es[1..])
  }

  // ---------------------------------------------------------------------
  // Equality up to the order of dict entries and set elements

  ghost predicate Equiv(a: Lit, b: Lit)
    decreases a, 0
  {
    match a
    case Word(_) => a == b
    case Chars(_, _) => a == b
    case Node(kind, es) =>
      && b.Node? && b.kind == kind && |b.entries| == |es|
      && if kind == Braced
         then exists p: seq<nat> :: IsPermutation(p, |es|) && Matches(es, b.entries, p)
         else Matches(es, b.entries, Identity(|es|))
  }

  function Identity(n: nat): (p: seq<nat>)
    ensures |p| == n && forall i | 0 <= i < n :: p[i] == i
  {
    seq(n, i => i)
  }

  /** Each entry of a is equivalent to the entry of b that p pairs it with. */
  ghost predicate Matches(a: seq<Entry>, b: seq<Entry>, p: seq<nat>)
    requires |a| == |b| == |p|
    decreases a, 1
  {
    forall i | 0 <= i < |a| :: p[i] < |b| && EquivEntry(a[i], b[p[i]])
  }

  ghost predicate EquivEntry(a: Entry, b: Entry)
    decreases a, 0
  {
    Equiv(a.k, b.k) && a.v.Some? == b.v.Some? && (a.v.Some? ==> Equiv(a.v.value, b.v.value))
  }
}
