/** Rearrangements of a sequence, as permutations of positions and as multisets. */
module Permutations {
  /** p sends the positions 0..n to distinct positions below n. */
  ghost predicate IsPermutation(p: seq<nat>, n: nat) {
    && |p| == n
    && (forall i | 0 <= i < n :: p[i] < n)
    && (forall i, j | 0 <= i < j < n :: p[i] != p[j])
  }

  function Without<T>(s: seq<T>, j: nat): (r: seq<T>)
    requires j < |s|
    ensures |r| == |s| - 1
    ensures forall i | 0 <= i < |r| :: r[i] == if i < j then s[i] else s[i + 1]
  {
    s[..j] + s[j + 1..]
  }

  lemma WithoutContents<T>(s: seq<T>, j: nat)
    requires j < |s|
    ensures multiset(Without(s, j)) == multiset(s) - multiset{s[j]}
    ensures multiset(s) == multiset(Without(s, j)) + multiset{s[j]}
  {
    assert s == s[..j] + [s[j]] + s[j + 1..];
  }

  lemma SameLength<T>(a: seq<T>, b: seq<T>)
    requires multiset(a) == multiset(b)
    ensures |a| == |b|
  {
    assert |multiset(a)| == |a| && |multiset(b)| == |b|;
  }

  lemma SameHeads<T>(a: seq<T>, b: seq<T>)
    requires a != [] && b != [] && a[0] == b[0]
    ensures multiset(a) == multiset(b) ==> multiset(Without(a, 0)) == multiset(Without(b, 0))
    ensures Without(a, 0) == Without(b, 0) ==> a == b
  {
    WithoutContents(a, 0);
    WithoutContents(b, 0);
    assert a == [a[0]] + Without(a, 0) && b == [b[0]] + Without(b, 0);
  }

  /** Equal contents: some permutation of positions turns one sequence into the other. */
  lemma {:induction false} PermutationOf<T>(a: seq<T>, b: seq<T>) returns (p: seq<nat>)
    requires multiset(a) == multiset(b)
    ensures IsPermutation(p, |a|) && |a| == |b|
    ensures forall i | 0 <= i < |a| :: a[i] == b[p[i]]
  {
    SameLength(a, b);
    if a == [] {
      return [];
    }
    assert a[0] in multiset(b);
    var j :| 0 <= j < |b| && b[j] == a[0];
    WithoutContents(a, 0);
    WithoutContents(b, j);
    var q := PermutationOf(Without(a, 0), Without(b, j));
    p := Shifted(q, j);
    ShiftedPairs(a, b, q, j);
  }

  /** Position 0 goes to j and the rest follow q, stepping over j. */
  function Shifted(q: seq<nat>, j: nat): (p: seq<nat>)
    ensures |p| == |q| + 1 && p[0] == j
    ensures forall i | 0 < i < |p| :: p[i] == if q[i - 1] < j then q[i - 1] else q[i - 1] + 1
  {
    [j] + seq(|q|, i requires 0 <= i < |q| => if q[i] < j then q[i] else q[i] + 1)
  }

  lemma ShiftedPairs<T>(a: seq<T>, b: seq<T>, q: seq<nat>, j: nat)
    requires |a| == |b| == |q| + 1 && j < |b| && a[0] == b[j]
    requires IsPermutation(q, |q|)
    requires forall i | 0 <= i < |q| :: Without(a, 0)[i] == Without(b, j)[q[i]]
    ensures IsPermutation(Shifted(q, j), |a|)
    ensures forall i | 0 <= i < |a| :: a[i] == b[Shifted(q, j)[i]]
  {
    var p := Shifted(q, j);
    forall i, k | 0 <= i < k < |p| ensures p[i] != p[k] {
      if i > 0 {
        assert q[i - 1] != q[k - 1];
      }
    }
    forall i | 0 <= i < |a| ensures p[i] < |a| && a[i] == b[p[i]] {
      if i > 0 {
        assert Without(a, 0)[i - 1] == Without(b, j)[q[i - 1]];
      }
    }
  }

  /** A rearranged sequence has the same contents. */
  lemma {:induction false} PermutedContents<T>(a: seq<T>, b: seq<T>, p: seq<nat>)
    requires |a| == |b| && IsPermutation(p, |a|)
    requires forall i | 0 <= i < |a| :: a[i] == b[p[i]]
    ensures multiset(a) == multiset(b)
  {
    if a != [] {
      var j := p[0];
      forall i | 0 < i < |p| ensures p[i] != j {
        assert p[0] != p[i];
      }
      var q: seq<nat> := seq(|a| - 1, i requires 0 <= i < |a| - 1 => if p[i + 1] < j then p[i + 1] else p[i + 1] - 1);
      forall i, k | 0 <= i < k < |q| ensures q[i] != q[k] {
        assert p[i + 1] != p[k + 1];
      }
      forall i | 0 <= i < |q| ensures Without(a, 0)[i] == Without(b, j)[q[i]] {
        assert a[i + 1] == b[p[i + 1]];
      }
      PermutedContents(Without(a, 0), Without(b, j), q);
      WithoutContents(a, 0);
      WithoutContents(b, j);
    }
  }
}
