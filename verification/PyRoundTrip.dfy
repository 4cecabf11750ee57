/**
 The canonical text is itself a literal: it parses back to the normal form of
 the value it was printed from. Equal canonical texts therefore mean values
 equal up to the order of dict entries and set elements, and nothing else.
 */
module PyRoundTrip {
  import opened Wrappers
  import opened Bytes
  import opened PyGrammar
  import opened PyInverse
  import opened KeySort
  import opened Permutations
  import opened PyCanon

  // ---------------------------------------------------------------------
  // Parsed values are well formed

  lemma UnsignedHead(t: bytes)
    requires UnsignedLen(t) > 0
    ensures t != [] && (IsDigit(t[0]) || t[0] == DOT)
  {
  }

  lemma NumberHead(tok: bytes)
    requires IsNumber(tok)
    ensures tok != [] && NumberStart(tok[0]) && UnsignedLen(tok[SignLen(tok)..]) > 0
  {
    hide UnsignedLen, ExponentLen;
    UnsignedHead(tok[SignLen(tok)..]);
  }

  lemma DropPlus(tok: bytes)
    requires IsNumber(tok) && tok[0] == PLUS
    ensures IsNumber(tok[1..]) && tok[1] != PLUS
  {
    hide UnsignedLen, ExponentLen;
    var u := tok[1..];
    NumberHead(tok);
    UnsignedHead(u);
    assert u[0..] == u;
    var m := MantissaLen(tok);
    assert tok[m..] == u[m - 1..];
  }

  lemma NumberWord(tok: bytes)
    requires IsNumber(tok)
    ensures IsWord(CanonWord(tok)) && CanonWord(tok) == TrimPlus(tok)
  {
    hide MantissaLen, ExponentLen;
    NumberHead(tok);
    assert Lower(tok)[0] == ToLower(tok[0]);
    if tok[0] == PLUS {
      DropPlus(tok);
    }
  }

  lemma WordFixed(tok: bytes)
    requires IsWord(tok)
    ensures CanonWord(tok) == tok && (IsNumber(tok) || IsKeyword(tok))
  {
    hide NumberLen;
    if IsNumber(tok) {
      NumberWord(tok);
    } else {
      assert Lower(TRUE_WORD) == TRUE_LOWER;
      assert Lower(FALSE_WORD) == FALSE_LOWER;
      assert Lower(NONE_WORD) == NONE_LOWER;
    }
  }

  lemma {:induction false} TreeWf(c: Cst)
    requires Ok(c)
    ensures Wf(Tree(c))
    decreases c, 0
  {
    match c
    case Atom(_, tok) =>
      if IsNumber(tok) { NumberWord(tok); }
    case Str(_, _, _, _) =>
    case ListC(_, items) => EntriesWf(items);
    case Unit(_, _) =>
    case Group(_, inner, _) => TreeWf(inner);
    case Tup(_, first, _, items) =>
      TreeWf(first);
      EntriesWf(items);
      WfEntriesConcat([Entry(Tree(first), None)], Entries(items));
    case EmptyBraces(_, _) =>
    case Braces(_, item, tail) =>
      ItemWf(item, item.val.Value?);
      TailWf(tail, item.val.Value?);
      WfEntriesConcat([EntryOf(item, item.val.Value?)], TailEntries(tail, item.val.Value?));
  }

  lemma {:induction false} ItemWf(it: Item, colon: bool)
    requires ItemOk(it, colon)
    ensures WfEntry(EntryOf(it, colon)) && EntryOf(it, colon).v.Some? == colon
    decreases it, 0
  {
    TreeWf(it.k);
    if colon {
      assert ValueOk(it.val);
      TreeWf(it.val.v);
    }
  }

  lemma {:induction false} EntriesWf(items: Items)
    requires ItemsOk(items)
    ensures WfEntries(Entries(items))
    ensures forall i | 0 <= i < |Entries(items)| :: Entries(items)[i].v.None?
    decreases items, 0
  {
    match items
    case Close(_) =>
    case Cons(item, tail) =>
      ItemWf(item, false);
      TailWf(tail, false);
      WfEntriesConcat([EntryOf(item, false)], TailEntries(tail, false));
  }

  lemma {:induction false} TailWf(tail: Tail, colon: bool)
    requires TailOk(tail, colon)
    ensures WfEntries(TailEntries(tail, colon))
    ensures forall i | 0 <= i < |TailEntries(tail, colon)| :: TailEntries(tail, colon)[i].v.Some? == colon
    decreases tail, 0
  {
    match tail
    case End(_) =>
    case TrailingComma(_, _) =>
    case More(_, item, rest) =>
      ItemWf(item, colon);
      TailWf(rest, colon);
      WfEntriesConcat([EntryOf(item, colon)], TailEntries(rest, colon));
  }

  // ---------------------------------------------------------------------
  // The plain spelling of a value: no blanks, double quotes, no grouping

  function PlainPiece(c: byte): Piece {
    if c == BACKSLASH || c == DQUOTE then Esc(c)
    else if c == NEWLINE then Esc(110)
    else if c == TAB then Esc(116)
    else if c == RETURN then Esc(114)
    else Raw(c)
  }

  function PlainPieces(s: bytes): (r: seq<Piece>)
    ensures forall i | 0 <= i < |r| :: !r[i].Hex?
  {
    if s == [] then [] else [PlainPiece(s[0])] + PlainPieces(s[1..])
  }

  function Plain(v: Lit): Cst
    decreases v, 0
  {
    match v
    case Word(tok) => Atom([], tok)
    case Chars(isBytes, body) => Str([], if isBytes then BYTES_PREFIX else [], DQUOTE, PlainPieces(body))
    case Node(kind, es) =>
      match kind
      case List => ListC([], PlainItems(es))
      case Tuple => if es == [] then Unit([], []) else Tup([], Plain(es[0].k), [], PlainItems(es[1..]))
      case Braced => if es == [] then EmptyBraces([], []) else Braces([], PlainItem(es[0]), PlainTail(es[1..]))
  }

  function PlainItem(e: Entry): Item
    decreases e, 0
  {
    Item(Plain(e.k), match e.v case None => NoValue case Some(v) => Value([], Plain(v)))
  }

  function PlainItems(es: seq<Entry>): Items
    decreases es, 1
  {
    if es == [] then Close([]) else Cons(PlainItem(es[0]), PlainTail(es[1..]))
  }

  function PlainTail(es: seq<Entry>): Tail
    decreases es, 0
  {
    if es == [] then End([]) else More([], PlainItem(es[0]), PlainTail(es[1..]))
  }

  lemma {:induction false} PlainPiecesOk(s: bytes)
    ensures forall i | 0 <= i < |PlainPieces(s)| :: PieceOk(PlainPieces(s)[i], DQUOTE)
    ensures PiecesText(PlainPieces(s)) == Escape(s) && Decode(PlainPieces(s)) == s
  {
    if s != [] {
      PlainPiecesOk(s[1..]);
      assert s == [s[0]] + s[1..];
      assert PlainPieces(s)[1..] == PlainPieces(s[1..]);
      assert PieceText(PlainPiece(s[0])) == EscapeByte(s[0]);
    }
  }

  lemma {:induction false} PlainOk(v: Lit)
    requires Wf(v)
    ensures Ok(Plain(v)) && Plain(v).ws == [] && Tree(Plain(v)) == v
    decreases v, 0
  {
    match v
    case Word(tok) => PlainWordOk(tok);
    case Chars(isBytes, body) => PlainCharsOk(isBytes, body);
    case Node(kind, es) => PlainNodeOk(kind, es);
  }

  lemma PlainWordOk(tok: bytes)
    requires IsWord(tok)
    ensures var c := Plain(Word(tok)); Ok(c) && c.ws == [] && Tree(c) == Word(tok)
  {
    hide IsNumber, IsKeyword, CanonWord;
    WordFixed(tok);
  }

  lemma PlainCharsOk(isBytes: bool, body: bytes)
    ensures var c := Plain(Chars(isBytes, body)); Ok(c) && c.ws == [] && Tree(c) == Chars(isBytes, body)
  {
    PlainPiecesOk(body);
  }

  lemma {:induction false} PlainNodeOk(kind: Kind, es: seq<Entry>)
    requires Wf(Node(kind, es))
    ensures var c := Plain(Node(kind, es)); Ok(c) && c.ws == [] && Tree(c) == Node(kind, es)
    decreases es, 2
  {
    if kind == List {
      PlainItemsOk(es);
    } else if es != [] {
      PlainItemOk(es[0]);
      if kind == Tuple {
        PlainItemsOk(es[1..]);
        TupleOk(es);
      } else {
        PlainTailOk(es[1..], es[0].v.Some?);
        BracesOk(es);
      }
    }
  }

  lemma TupleOk(es: seq<Entry>)
    requires es != [] && es[0].v.None?
    requires ItemOk(PlainItem(es[0]), false) && EntryOf(PlainItem(es[0]), false) == es[0] && Ok(PlainItem(es[0]).k)
    requires ItemsOk(PlainItems(es[1..])) && Entries(PlainItems(es[1..])) == es[1..]
    ensures var c := Plain(Node(Tuple, es)); Ok(c) && c.ws == [] && Tree(c) == Node(Tuple, es)
  {
    hide Core;
    assert es == [es[0]] + es[1..];
  }

  lemma BracesOk(es: seq<Entry>)
    requires es != []
    requires ItemOk(PlainItem(es[0]), es[0].v.Some?) && EntryOf(PlainItem(es[0]), es[0].v.Some?) == es[0]
    requires TailOk(PlainTail(es[1..]), es[0].v.Some?) && TailEntries(PlainTail(es[1..]), es[0].v.Some?) == es[1..]
    ensures var c := Plain(Node(Braced, es)); Ok(c) && c.ws == [] && Tree(c) == Node(Braced, es)
  {
    assert es == [es[0]] + es[1..];
  }

  lemma {:induction false} PlainItemOk(e: Entry)
    requires WfEntry(e)
    ensures ItemOk(PlainItem(e), e.v.Some?) && EntryOf(PlainItem(e), e.v.Some?) == e
    decreases e, 0
  {
    PlainOk(e.k);
    if e.v.Some? {
      PlainOk(e.v.value);
      assert ValueOk(PlainItem(e).val);
    }
  }

  lemma {:induction false} PlainItemsOk(es: seq<Entry>)
    requires WfEntries(es) && forall i | 0 <= i < |es| :: es[i].v.None?
    ensures ItemsOk(PlainItems(es)) && Entries(PlainItems(es)) == es
    decreases es, 1
  {
    if es != [] {
      PlainItemOk(es[0]);
      PlainTailOk(es[1..], false);
      assert es == [es[0]] + es[1..];
    }
  }

  lemma {:induction false} PlainTailOk(es: seq<Entry>, colon: bool)
    requires WfEntries(es) && forall i | 0 <= i < |es| :: es[i].v.Some? == colon
    ensures TailOk(PlainTail(es), colon) && TailEntries(PlainTail(es), colon) == es
    decreases es, 0
  {
    if es != [] {
      PlainItemOk(es[0]);
      PlainTailOk(es[1..], colon);
      assert es == [es[0]] + es[1..];
    }
  }

  lemma {:induction false} PlainItemText(e: Entry)
    requires WfEntry(e) && NormalEntry(e)
    ensures ItemText(PlainItem(e)) == KeyText(KeyOf(e))
    decreases e, 0
  {
    PlainCore(e.k);
    if e.v.Some? {
      PlainCore(e.v.value);
    }
    PlainItemParts(e);
  }

  lemma PlainItemParts(e: Entry)
    requires Core(Plain(e.k)) == Canon(e.k) && Plain(e.k).ws == []
    requires e.v.Some? ==> Core(Plain(e.v.value)) == Canon(e.v.value) && Plain(e.v.value).ws == []
    ensures ItemText(PlainItem(e)) == KeyText(KeyOf(e))
  {
    var it := PlainItem(e);
    assert it.k.ws + Core(it.k) == Canon(e.k);
    if e.v.Some? {
      assert it.val.v.ws + Core(it.val.v) == Canon(e.v.value);
      assert ValueText(it.val) == [COLON] + Canon(e.v.value);
      Cat3(Canon(e.k), [COLON], Canon(e.v.value));
    } else {
      assert ValueText(it.val) == [];
    }
  }

  /** A comma and the rest, or nothing when there is no rest. */
  function JoinRest(keys: seq<Key>): bytes {
    if keys == [] then [] else [COMMA] + Join(keys)
  }

  lemma JoinCons(keys: seq<Key>)
    requires keys != []
    ensures Join(keys) == KeyText(keys[0]) + JoinRest(keys[1..])
  {
    if |keys| > 1 {
      Cat3(KeyText(keys[0]), [COMMA], Join(keys[1..]));
    }
  }

  lemma {:induction false} PlainTailText(es: seq<Entry>, close: byte)
    requires WfEntries(es) && NormalEntries(es)
    ensures TailText(PlainTail(es), close) == JoinRest(Keys(es)) + [close]
    decreases es, 0
  {
    if es != [] {
      var item, rest := KeyText(KeyOf(es[0])), JoinRest(Keys(es[1..]));
      PlainItemText(es[0]);
      PlainTailText(es[1..], close);
      JoinCons(Keys(es));
      assert Keys(es)[1..] == Keys(es[1..]);
      assert TailText(PlainTail(es), close) == [] + [COMMA] + item + (rest + [close]);
      Cat3([COMMA], item, rest);
      Cat3([COMMA] + item, rest, [close]);
    }
  }

  lemma {:induction false} PlainItemsText(es: seq<Entry>, close: byte)
    requires WfEntries(es) && NormalEntries(es)
    ensures ItemsText(PlainItems(es), close) == Join(Keys(es)) + [close]
    decreases es, 1
  {
    if es != [] {
      PlainItemText(es[0]);
      PlainTailText(es[1..], close);
      JoinCons(Keys(es));
      assert Keys(es)[1..] == Keys(es[1..]);
      Cat3(KeyText(KeyOf(es[0])), JoinRest(Keys(es[1..])), [close]);
    }
  }

  lemma {:induction false} PlainTuple(es: seq<Entry>)
    requires es != [] && WfEntries(es) && NormalEntries(es)
    requires es[0].v.None? && Core(Plain(es[0].k)) == Canon(es[0].k) && Plain(es[0].k).ws == []
    ensures Core(Tup([], Plain(es[0].k), [], PlainItems(es[1..]))) == Assemble(Tuple, Keys(es))
    decreases es, 1
  {
    PlainItemsText(es[1..], RPAREN);
    var k, rest := Canon(es[0].k), Join(Keys(es[1..]));
    assert KeyText(Keys(es)[0]) == k;
    assert Core(Tup([], Plain(es[0].k), [], PlainItems(es[1..]))) == [LPAREN] + ([] + k) + [] + [COMMA] + (rest + [RPAREN]);
    if |es| == 1 {
      assert rest == [];
    } else {
      JoinCons(Keys(es));
      assert Keys(es)[1..] == Keys(es[1..]);
      TupleText(k, rest);
    }
  }

  lemma TupleText(k: bytes, rest: bytes)
    ensures [LPAREN] + ([] + k) + [] + [COMMA] + (rest + [RPAREN]) == [LPAREN] + (k + ([COMMA] + rest)) + [RPAREN]
  {
    assert [] + k == k && [LPAREN] + k + [] == [LPAREN] + k;
    Cat4([LPAREN], k, [COMMA], rest);
    Cat3([LPAREN] + k + [COMMA], rest, [RPAREN]);
  }

  /** The canonical text of a normal value is the text of its plain spelling. */
  lemma {:induction false} PlainCore(v: Lit)
    requires Wf(v) && Normal(v)
    ensures Core(Plain(v)) == Canon(v) && Plain(v).ws == []
    decreases v, 0
  {
    match v
    case Word(_) =>
    case Chars(_, body) => PlainPiecesOk(body);
    case Node(kind, es) =>
      match kind
      case List =>
        PlainItemsText(es, RBRACKET);
        Cat3([LBRACKET], Join(Keys(es)), [RBRACKET]);
      case Tuple =>
        if es != [] {
          assert WfEntry(es[0]) && NormalEntry(es[0]);
          PlainCore(es[0].k);
          PlainTuple(es);
        }
      case Braced =>
        SortFixed(Keys(es));
        if es != [] {
          PlainItemText(es[0]);
          PlainTailText(es[1..], RBRACE);
          JoinCons(Keys(es));
          assert Keys(es)[1..] == Keys(es[1..]);
          BracesText(KeyText(KeyOf(es[0])), JoinRest(Keys(es[1..])));
        }
  }

  lemma BracesText(item: bytes, rest: bytes)
    ensures [LBRACE] + item + (rest + [RBRACE]) == [LBRACE] + (item + rest) + [RBRACE]
  {
    Cat3([LBRACE], item, rest);
    Cat3([LBRACE] + item, rest, [RBRACE]);
  }

  // ---------------------------------------------------------------------
  // Normalising a value keeps its canonical text

  lemma {:induction false} InsertEntryKeys(x: Entry, es: seq<Entry>)
    ensures Keys(InsertEntry(x, es)) == Insert(KeyOf(x), Keys(es))
    ensures multiset(InsertEntry(x, es)) == multiset{x} + multiset(es)
  {
    if es != [] && !KeyLeq(KeyOf(x), KeyOf(es[0])) {
      InsertEntryKeys(x, es[1..]);
      assert Keys(es)[1..] == Keys(es[1..]);
      assert es == [es[0]] + es[1..];
    } else {
      assert Keys([x] + es) == [KeyOf(x)] + Keys(es);
    }
  }

  lemma {:induction false} SortEntriesKeys(es: seq<Entry>)
    ensures Keys(SortEntries(es)) == Sort(Keys(es))
    ensures multiset(SortEntries(es)) == multiset(es)
  {
    if es != [] {
      SortEntriesKeys(es[1..]);
      InsertEntryKeys(es[0], SortEntries(es[1..]));
      assert Keys(es)[1..] == Keys(es[1..]);
      assert es == [es[0]] + es[1..];
    }
  }

  lemma {:induction false} EntriesFromAll(es: seq<Entry>)
    ensures (forall e | e in multiset(es) :: WfEntry(e) && NormalEntry(e)) ==> WfEntries(es) && NormalEntries(es)
  {
    if es != [] {
      EntriesFromAll(es[1..]);
      assert es == [es[0]] + es[1..];
      assert es[0] in multiset(es);
      forall e | e in multiset(es[1..]) ensures e in multiset(es) {
      }
    }
  }

  lemma {:induction false} NormSpec(v: Lit)
    requires Wf(v)
    ensures Wf(Norm(v)) && Normal(Norm(v)) && Canon(Norm(v)) == Canon(v)
    decreases v, 0
  {
    if v.Node? {
      NormEntriesSpec(v.entries);
      var ns := NormEntries(v.entries);
      if v.kind == Braced {
        NormBraces(v.entries, v.entries != [] && v.entries[0].v.Some?);
      }
    }
  }

  predicate SortedWell(es: seq<Entry>, colon: bool) {
    forall e | e in multiset(es) :: WfEntry(e) && NormalEntry(e) && e.v.Some? == colon
  }

  lemma SameContentsSortedWell(a: seq<Entry>, b: seq<Entry>, colon: bool)
    requires SortedWell(a, colon) && multiset(a) == multiset(b)
    ensures WfEntries(b) && NormalEntries(b) && forall i | 0 <= i < |b| :: b[i].v.Some? == colon
  {
    EntriesFromAll(b);
    forall i | 0 <= i < |b| ensures b[i].v.Some? == colon {
      assert b[i] in multiset(b);
    }
  }

  lemma MembersSortedWell(es: seq<Entry>, colon: bool)
    requires WfEntries(es) && NormalEntries(es) && forall i | 0 <= i < |es| :: es[i].v.Some? == colon
    ensures SortedWell(es, colon)
  {
    forall e | e in multiset(es) ensures WfEntry(e) && NormalEntry(e) && e.v.Some? == colon {
      assert e in es;
    }
  }

  lemma NormBraces(es: seq<Entry>, colon: bool)
    requires WfEntries(NormEntries(es)) && NormalEntries(NormEntries(es)) && Keys(NormEntries(es)) == Keys(es)
    requires forall i | 0 <= i < |es| :: NormEntries(es)[i].v.Some? == colon
    ensures var ss := SortEntries(NormEntries(es));
      && WfEntries(ss) && NormalEntries(ss) && Sorted(Keys(ss)) && Sort(Keys(ss)) == Sort(Keys(es))
      && forall i | 0 <= i < |ss| :: ss[i].v.Some? == colon
  {
    var ns := NormEntries(es);
    SortEntriesKeys(ns);
    SortSpec(Keys(ns));
    SortFixed(Sort(Keys(ns)));
    MembersSortedWell(ns, colon);
    SameContentsSortedWell(ns, SortEntries(ns), colon);
  }

  lemma {:induction false} NormEntrySpec(e: Entry)
    requires WfEntry(e)
    ensures WfEntry(NormEntry(e)) && NormalEntry(NormEntry(e))
    ensures KeyOf(NormEntry(e)) == KeyOf(e) && NormEntry(e).v.Some? == e.v.Some?
    decreases e, 0
  {
    NormSpec(e.k);
    if e.v.Some? {
      NormSpec(e.v.value);
    }
  }

  lemma {:induction false} NormEntriesSpec(es: seq<Entry>)
    requires WfEntries(es)
    ensures WfEntries(NormEntries(es)) && NormalEntries(NormEntries(es)) && Keys(NormEntries(es)) == Keys(es)
    ensures forall i | 0 <= i < |es| :: NormEntries(es)[i].v.Some? == es[i].v.Some?
    decreases es, 0
  {
    if es != [] {
      NormEntrySpec(es[0]);
      NormEntriesSpec(es[1..]);
      assert NormEntries(es) == [NormEntry(es[0])] + NormEntries(es[1..]);
    }
  }

  // ---------------------------------------------------------------------
  // The round trip

  /** The canonical text of a value parses, and to the normal form of that value. */
  lemma CanonParses(v: Lit, post: bytes)
    requires Wf(v) && Delimited(post)
    ensures var c := Plain(Norm(v));
      && Ok(c) && Tree(c) == Norm(v) && Text(c) == Canon(v)
      && Parse(Canon(v) + post) == Some((c, post))
  {
    NormSpec(v);
    PlainOk(Norm(v));
    PlainCore(Norm(v));
    Complete(Plain(Norm(v)), post);
  }

  // ---------------------------------------------------------------------
  // Equal canonical texts mean equal values up to order

  lemma {:induction false} EquivImpliesCanon(a: Lit, b: Lit)
    requires Equiv(a, b)
    ensures Canon(a) == Canon(b)
    decreases a, 0
  {
    if a.Node? {
      if a.kind == Braced {
        var p: seq<nat> :| IsPermutation(p, |a.entries|) && Matches(a.entries, b.entries, p);
        MatchesKeys(a.entries, b.entries, p);
        PermutedContents(Keys(a.entries), Keys(b.entries), p);
        SortDependsOnContents(Keys(a.entries), Keys(b.entries));
      } else {
        MatchesKeys(a.entries, b.entries, Identity(|a.entries|));
        assert Keys(a.entries) == Keys(b.entries);
      }
    }
  }

  lemma {:induction false} MatchesKeys(a: seq<Entry>, b: seq<Entry>, p: seq<nat>)
    requires |a| == |b| == |p| && Matches(a, b, p)
    ensures forall i | 0 <= i < |a| :: Keys(a)[i] == Keys(b)[p[i]]
    decreases a, 1
  {
    forall i | 0 <= i < |a| ensures Keys(a)[i] == Keys(b)[p[i]] {
      EquivEntryImpliesKey(a[i], b[p[i]]);
    }
  }

  lemma {:induction false} EquivEntryImpliesKey(a: Entry, b: Entry)
    requires EquivEntry(a, b)
    ensures KeyOf(a) == KeyOf(b)
    decreases a, 0
  {
    EquivImpliesCanon(a.k, b.k);
    if a.v.Some? {
      EquivImpliesCanon(a.v.value, b.v.value);
    }
  }

  lemma SameNorm(a: Lit, b: Lit)
    requires Wf(a) && Wf(b) && Canon(a) == Canon(b)
    ensures Norm(a) == Norm(b)
  {
    CanonParses(a, []);
    CanonParses(b, []);
  }

  /** The reverse goes through the parser: one text has one tree. */
  lemma {:induction false} CanonImpliesEquiv(a: Lit, b: Lit)
    requires Wf(a) && Wf(b) && Canon(a) == Canon(b)
    ensures Equiv(a, b)
    decreases a, 0
  {
    SameNorm(a, b);
    if a.Node? {
      NodesAlike(a, b);
      if a.kind == Braced {
        var p := PermutationOf(Keys(a.entries), Keys(b.entries));
        KeysMatch(a.entries, b.entries, p);
      } else {
        KeysMatch(a.entries, b.entries, Identity(|a.entries|));
      }
    }
  }

  lemma NodesAlike(a: Lit, b: Lit)
    requires Wf(a) && Wf(b) && a.Node? && Norm(a) == Norm(b)
    ensures b.Node? && a.kind == b.kind
    ensures multiset(Keys(a.entries)) == multiset(Keys(b.entries)) && |a.entries| == |b.entries|
    ensures a.kind != Braced ==> Keys(a.entries) == Keys(b.entries)
  {
    assert b.Node? && a.kind == b.kind;
    NormEntriesSpec(a.entries);
    NormEntriesSpec(b.entries);
    if a.kind == Braced {
      BracedKeys(a.entries, b.entries);
    }
    SameLength(Keys(a.entries), Keys(b.entries));
  }

  lemma BracedKeys(a: seq<Entry>, b: seq<Entry>)
    requires SortEntries(NormEntries(a)) == SortEntries(NormEntries(b))
    requires Keys(NormEntries(a)) == Keys(a) && Keys(NormEntries(b)) == Keys(b)
    ensures multiset(Keys(a)) == multiset(Keys(b))
  {
    SortEntriesKeys(NormEntries(a));
    SortEntriesKeys(NormEntries(b));
    SortSpec(Keys(a));
    SortSpec(Keys(b));
  }

  lemma {:induction false} KeysMatch(a: seq<Entry>, b: seq<Entry>, p: seq<nat>)
    requires WfEntries(a) && WfEntries(b) && |a| == |b| == |p|
    requires forall i | 0 <= i < |a| :: p[i] < |b| && Keys(a)[i] == Keys(b)[p[i]]
    ensures Matches(a, b, p)
    decreases a, 1
  {
    forall i | 0 <= i < |a| ensures EquivEntry(a[i], b[p[i]]) {
      assert WfEntry(a[i]) && WfEntry(b[p[i]]) && KeyOf(a[i]) == KeyOf(b[p[i]]);
      KeyImpliesEquivEntry(a[i], b[p[i]]);
    }
  }

  lemma {:induction false} KeyImpliesEquivEntry(a: Entry, b: Entry)
    requires WfEntry(a) && WfEntry(b) && KeyOf(a) == KeyOf(b)
    ensures EquivEntry(a, b)
    decreases a, 0
  {
    CanonImpliesEquiv(a.k, b.k);
    if a.v.Some? {
      CanonImpliesEquiv(a.v.value, b.v.value);
    }
  }

  /** Two values have the same canonical text exactly when they differ only in the order of dict entries and set elements. */
  lemma CanonDecidesEquiv(a: Lit, b: Lit)
    requires Wf(a) && Wf(b)
    ensures Canon(a) == Canon(b) <==> Equiv(a, b)
  {
    if Canon(a) == Canon(b) {
      CanonImpliesEquiv(a, b);
    }
    if Equiv(a, b) {
      EquivImpliesCanon(a, b);
    }
  }
}
