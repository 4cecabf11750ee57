/**
 Ordering of dict entries and set elements by their canonical text. The source
 hands this to Go's sort package; any sorted rearrangement is the same list.
 */
module KeySort {
  import opened Wrappers
  import opened Bytes
  import opened Permutations

  /** The canonical text of one element, or of a key with its value. */
  datatype Key = Key(k: bytes, v: Option<bytes>)

  predicate ValueLeq(a: Option<bytes>, b: Option<bytes>) {
    a.None? || (b.Some? && Leq(a.value, b.value))
  }

  predicate KeyLeq(a: Key, b: Key) {
    if a.k == b.k then ValueLeq(a.v, b.v) else Leq(a.k, b.k)
  }

  lemma KeyTotal(a: Key, b: Key)
    ensures KeyLeq(a, b) || KeyLeq(b, a)
  {
    LeqTotal(a.k, b.k);
    if a.v.Some? && b.v.Some? {
      LeqTotal(a.v.value, b.v.value);
    }
  }

  lemma KeyAntisymmetric(a: Key, b: Key)
    requires KeyLeq(a, b) && KeyLeq(b, a)
    ensures a == b
  {
    if a.k != b.k {
      LeqAntisymmetric(a.k, b.k);
    } else if a.v.Some? && b.v.Some? {
      LeqAntisymmetric(a.v.value, b.v.value);
    }
  }

  lemma KeyTransitive(a: Key, b: Key, c: Key)
    requires KeyLeq(a, b) && KeyLeq(b, c)
    ensures KeyLeq(a, c)
  {
    if a.k != b.k && b.k != c.k {
      LeqTransitive(a.k, b.k, c.k);
      if a.k == c.k {
        LeqAntisymmetric(a.k, b.k);
      }
    } else if a.k == b.k == c.k && a.v.Some? {
      LeqTransitive(a.v.value, b.v.value, c.v.value);
    }
  }

  predicate Sorted(s: seq<Key>) {
    forall i, j | 0 <= i < j < |s| :: KeyLeq(s[i], s[j])
  }

  function Insert(x: Key, s: seq<Key>): seq<Key> {
    if s == [] then [x]
    else if KeyLeq(x, s[0]) then [x] + s
    else [s[0]] + Insert(x, s[1..])
  }

  function Sort(s: seq<Key>): seq<Key> {
    if s == [] then [] else Insert(s[0], Sort(s[1..]))
  }

  lemma {:induction false} InsertContents(x: Key, s: seq<Key>)
    ensures multiset(Insert(x, s)) == multiset{x} + multiset(s)
  {
    if s != [] && !KeyLeq(x, s[0]) {
      InsertContents(x, s[1..]);
      assert s == [s[0]] + s[1..];
    }
  }

  lemma {:induction false} InsertSorted(x: Key, s: seq<Key>)
    requires Sorted(s)
    ensures Sorted(Insert(x, s))
  {
    if s != [] {
      var r := Insert(x, s);
      if KeyLeq(x, s[0]) {
        forall j | 0 <= j < |s| ensures KeyLeq(x, s[j]) {
          if j > 0 { KeyTransitive(x, s[0], s[j]); }
        }
      } else {
        var t := Insert(x, s[1..]);
        InsertSorted(x, s[1..]);
        InsertContents(x, s[1..]);
        KeyTotal(x, s[0]);
        forall j | 0 <= j < |t| ensures KeyLeq(s[0], t[j]) {
          assert t[j] in multiset(t);
          if t[j] != x {
            assert t[j] in s[1..];
          }
        }
      }
    }
  }

  /** Sorting rearranges and orders. */
  lemma {:induction false} SortSpec(s: seq<Key>)
    ensures Sorted(Sort(s)) && multiset(Sort(s)) == multiset(s) && |Sort(s)| == |s|
  {
    if s != [] {
      SortSpec(s[1..]);
      InsertSorted(s[0], Sort(s[1..]));
      InsertContents(s[0], Sort(s[1..]));
      assert s == [s[0]] + s[1..];
      assert |Sort(s)| == |multiset(Sort(s))| == |multiset(s)| == |s|;
    }
  }

  lemma HeadIsLeast(s: seq<Key>, x: Key)
    requires Sorted(s) && x in multiset(s)
    ensures s != [] && (s[0] == x || KeyLeq(s[0], x))
  {
    assert x in s;
  }

  lemma HeadsAgree(a: seq<Key>, b: seq<Key>)
    requires Sorted(a) && Sorted(b) && multiset(a) == multiset(b) && a != [] && b != []
    ensures a[0] == b[0]
  {
    assert a[0] in multiset(a) && b[0] in multiset(b);
    HeadIsLeast(a, b[0]);
    HeadIsLeast(b, a[0]);
    if a[0] != b[0] {
      KeyAntisymmetric(a[0], b[0]);
    }
  }

  lemma TailSorted(s: seq<Key>)
    requires Sorted(s) && s != []
    ensures Sorted(Without(s, 0))
  {
    var t := Without(s, 0);
    forall i, j | 0 <= i < j < |t| ensures KeyLeq(t[i], t[j]) {
      assert KeyLeq(s[i + 1], s[j + 1]);
    }
  }

  /** Two sorted lists with the same contents are equal, so the sorting algorithm does not matter. */
  lemma {:induction false} SortedUnique(a: seq<Key>, b: seq<Key>)
    requires Sorted(a) && Sorted(b) && multiset(a) == multiset(b)
    ensures a == b
    decreases |a|
  {
    hide *;
    SameLength(a, b);
    if a != [] {
      HeadsAgree(a, b);
      TailSorted(a);
      TailSorted(b);
      SameHeads(a, b);
      SortedUnique(Without(a, 0), Without(b, 0));
    }
  }

  lemma SortDependsOnContents(a: seq<Key>, b: seq<Key>)
    requires multiset(a) == multiset(b)
    ensures Sort(a) == Sort(b)
  {
    SortSpec(a);
    SortSpec(b);
    SortedUnique(Sort(a), Sort(b));
  }

  lemma SortFixed(s: seq<Key>)
    requires Sorted(s)
    ensures Sort(s) == s
  {
    SortSpec(s);
    SortedUnique(Sort(s), s);
  }
}
