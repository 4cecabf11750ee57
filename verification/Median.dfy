/**
 The jury's median and the mean over samples. Failed judges leave empty votes,
 which never count as zero.
 */
module Median {
  import opened Wrappers
  import opened Permutations

  // ---------------------------------------------------------------------
  // Sorting

  predicate Sorted(s: seq<real>) {
    forall i, j | 0 <= i < j < |s| :: s[i] <= s[j]
  }

  function Insert(x: real, s: seq<real>): (r: seq<real>)
    ensures |r| == |s| + 1
  {
    if s == [] || x <= s[0] then [x] + s else [s[0]] + Insert(x, s[1..])
  }

  function Sort(s: seq<real>): (r: seq<real>)
    ensures |r| == |s|
  {
    if s == [] then [] else Insert(s[0], Sort(s[1..]))
  }

  lemma {:induction false} InsertContents(x: real, s: seq<real>)
    ensures multiset(Insert(x, s)) == multiset{x} + multiset(s)
  {
    if s != [] && !(x <= s[0]) {
      InsertContents(x, s[1..]);
      assert s == [s[0]] + s[1..];
    }
  }

  /** Every member of s is at least lo. */
  predicate Above(s: seq<real>, lo: real) {
    forall i | 0 <= i < |s| :: lo <= s[i]
  }

  lemma {:induction false} InsertSorted(x: real, s: seq<real>)
    requires Sorted(s)
    ensures Sorted(Insert(x, s))
    ensures forall lo | lo <= x && Above(s, lo) :: Above(Insert(x, s), lo)
  {
    if s != [] && !(x <= s[0]) {
      InsertSorted(x, s[1..]);
      assert Above(s[1..], s[0]);
      assert Above(Insert(x, s[1..]), s[0]);
      forall lo | lo <= x && Above(s, lo) ensures Above(Insert(x, s), lo) {
        assert lo <= s[0];
        assert Above(s[1..], lo);
      }
    }
  }

  lemma {:induction false} SortSpec(s: seq<real>)
    ensures Sorted(Sort(s)) && multiset(Sort(s)) == multiset(s)
  {
    if s != [] {
      SortSpec(s[1..]);
      InsertSorted(s[0], Sort(s[1..]));
      InsertContents(s[0], Sort(s[1..]));
      assert s == [s[0]] + s[1..];
    }
  }

  lemma LeastFirst(s: seq<real>, x: real)
    requires Sorted(s) && x in multiset(s)
    ensures s != [] && s[0] <= x
  {
    assert x in s;
  }

  lemma HeadsAgree(a: seq<real>, b: seq<real>)
    requires Sorted(a) && Sorted(b) && multiset(a) == multiset(b) && a != [] && b != []
    ensures a[0] == b[0]
  {
    assert a[0] in multiset(a) && b[0] in multiset(b);
    LeastFirst(a, b[0]);
    LeastFirst(b, a[0]);
  }

  lemma TailSorted(s: seq<real>)
    requires Sorted(s) && s != []
    ensures Sorted(Without(s, 0))
  {
  }

  /** Sorted arrangements of the same votes are the same. */
  lemma {:induction false} SortedUnique(a: seq<real>, b: seq<real>)
    requires Sorted(a) && Sorted(b) && multiset(a) == multiset(b)
    ensures a == b
    decreases |a|
  {
    hide *;
    SameLength(a, b);
    if a != [] {
      HeadsAgree(a, b);
      TailSorted(a);
      TailSorted(b);
      SameHeads(a, b);
      SortedUnique(Without(a, 0), Without(b, 0));
    }
  }

  // ---------------------------------------------------------------------
  // The partial-jury rule

  /** The votes that are not null, in slot order. */
  function Cast(scores: seq<Option<real>>): (r: seq<real>)
    ensures |r| <= |scores|
  {
    if scores == [] then []
    else (if scores[0].Some? then [scores[0].value] else []) + Cast(scores[1..])
  }

  /** One vote is itself, two their mean, three or more the second smallest; none is null. */
  function MedianOfVotes(scores: seq<Option<real>>): Option<real> {
    var vals := Sort(Cast(scores));
    if vals == [] then None
    else if |vals| == 1 then Some(vals[0])
    else if |vals| == 2 then Some((vals[0] + vals[1]) / 2.0)
    else Some(vals[1])
  }

  lemma CastAppend(scores: seq<Option<real>>, x: Option<real>)
    ensures Cast(scores + [x]) == Cast(scores) + (if x.Some? then [x.value] else [])
  {
    if scores != [] {
      assert (scores + [x])[1..] == scores[1..] + [x];
      CastAppend(scores[1..], x);
    }
  }

  method TakeMedian(scores: seq<Option<real>>) returns (m: Option<real>)
    ensures m == MedianOfVotes(scores)
  {
    var vals: seq<real> := [];
    for k := 0 to |scores|
      invariant vals == Cast(scores[..k])
    {
      assert scores[..k + 1] == scores[..k] + [scores[k]];
      CastAppend(scores[..k], scores[k]);
      if scores[k].Some? {
        vals := vals + [scores[k].value];
      }
    }
    assert scores[..|scores|] == scores;
    if |vals| == 0 {
      return None;
    }
    var sorted := SortFloats(vals);
    match |sorted| {
      case 1 => return Some(sorted[0]);
      case 2 => return Some((sorted[0] + sorted[1]) / 2.0);
      case _ => return Some(sorted[1]);
    }
  }

  /** The library sort: any sorted arrangement of the votes is this one. */
  method SortFloats(s: seq<real>) returns (r: seq<real>)
    ensures r == Sort(s)
  {
    r := [];
    for k := 0 to |s|
      invariant |r| == k && r == Sort(s[|s| - k..])
    {
      var x := s[|s| - k - 1];
      assert s[|s| - k - 1..][1..] == s[|s| - k..];
      r := Insert(x, r);
    }
    assert s[0..] == s;
  }

  /** The textbook median of a sorted, nonempty list. */
  function TrueMedian(s: seq<real>): real
    requires s != []
  {
    (s[(|s| - 1) / 2] + s[|s| / 2]) / 2.0
  }

  /** Slot order does not matter. */
  lemma MedianIgnoresOrder(a: seq<Option<real>>, b: seq<Option<real>>)
    requires multiset(Cast(a)) == multiset(Cast(b))
    ensures MedianOfVotes(a) == MedianOfVotes(b)
  {
    SortSpec(Cast(a));
    SortSpec(Cast(b));
    SortedUnique(Sort(Cast(a)), Sort(Cast(b)));
  }

  /** Two votes of 0 and n - 2 votes of 1. */
  function Split(n: nat): (s: seq<Option<real>>)
    requires n >= 2
    ensures |s| == n
  {
    seq(n, i => if i < 2 then Some(0.0) else Some(1.0))
  }

  lemma {:induction false} CastAll(scores: seq<Option<real>>)
    requires forall i | 0 <= i < |scores| :: scores[i].Some?
    ensures |Cast(scores)| == |scores| && forall i | 0 <= i < |scores| :: Cast(scores)[i] == scores[i].value
  {
    if scores != [] {
      CastAll(scores[1..]);
    }
  }

  /** With n votes cast the rule is the true median on every input exactly when n is at most three. */
  lemma MedianRuleExact(n: nat)
    requires n > 0
    ensures (forall scores {:trigger Cast(scores)} :: |Cast(scores)| == n ==> MedianOfVotes(scores) == Some(TrueMedian(Sort(Cast(scores)))))
      <==> n <= 3
  {
    if n >= 4 {
      var s := Split(n);
      CastAll(s);
      var vals := Cast(s);
      SortSpec(vals);
      SortedUnique(Sort(vals), vals);
      assert MedianOfVotes(s) == Some(0.0);
      assert TrueMedian(vals) > 0.0;
    }
  }

  predicate Unit(x: Option<real>) {
    x.Some? ==> 0.0 <= x.value <= 1.0
  }

  lemma {:induction false} CastUnit(scores: seq<Option<real>>)
    requires forall i | 0 <= i < |scores| :: Unit(scores[i])
    ensures forall x | x in Cast(scores) :: 0.0 <= x <= 1.0
  {
    if scores != [] {
      CastUnit(scores[1..]);
    }
  }

  /** Votes in [0,1] have their median there, whatever the number of judges; it is null exactly when nobody voted. */
  lemma MedianUnit(scores: seq<Option<real>>)
    requires forall i | 0 <= i < |scores| :: Unit(scores[i])
    ensures Unit(MedianOfVotes(scores))
    ensures MedianOfVotes(scores).None? <==> forall i | 0 <= i < |scores| :: scores[i].None?
  {
    CastUnit(scores);
    SortSpec(Cast(scores));
    var vals := Sort(Cast(scores));
    forall i | 0 <= i < |vals| ensures 0.0 <= vals[i] <= 1.0 {
      assert vals[i] in multiset(vals);
      assert vals[i] in Cast(scores);
    }
    CastEmpty(scores);
  }

  lemma {:induction false} CastEmpty(scores: seq<Option<real>>)
    ensures Cast(scores) == [] <==> forall i | 0 <= i < |scores| :: scores[i].None?
  {
    if scores != [] {
      CastEmpty(scores[1..]);
      assert forall i | 1 <= i < |scores| :: scores[i] == scores[1..][i - 1];
    }
  }

  /** All votes but the one at position i are at least x. */
  predicate AboveBut(votes: seq<real>, i: int, x: real) {
    forall k | 0 <= k < |votes| && k != i :: x <= votes[k]
  }

  /** x is a vote, at least one other vote is not above it, and all the rest are not below it. */
  predicate SecondSmallest(votes: seq<real>, x: real) {
    exists i, j | 0 <= i < |votes| && 0 <= j < |votes| :: i != j && votes[j] == x && votes[i] <= x && AboveBut(votes, i, x)
  }

  /** One vote is itself, two give their mean, more give the second smallest. */
  lemma RuleOfVotes(scores: seq<Option<real>>)
    ensures var votes, m := Cast(scores), MedianOfVotes(scores);
      && (m.None? <==> |votes| == 0)
      && (|votes| == 1 ==> m == Some(votes[0]))
      && (|votes| == 2 ==> m == Some((votes[0] + votes[1]) / 2.0))
      && (|votes| >= 3 ==> SecondSmallest(votes, m.value))
  {
    hide Cast;
    var votes := Cast(scores);
    if |votes| == 2 {
      SortOfTwo(votes);
    }
    if |votes| >= 3 {
      SortSpec(votes);
      SecondOfSorted(votes, Sort(votes));
    }
  }

  lemma SortOfTwo(votes: seq<real>)
    requires |votes| == 2
    ensures Sort(votes) == if votes[0] <= votes[1] then [votes[0], votes[1]] else [votes[1], votes[0]]
  {
    assert votes[1..][1..] == [] && Sort(votes[1..]) == [votes[1]];
    assert [votes[1]][1..] == [];
    assert Insert(votes[0], []) == [votes[0]];
  }

  lemma SecondOfSorted(votes: seq<real>, sorted: seq<real>)
    requires |votes| == |sorted| >= 3 && Sorted(sorted) && multiset(sorted) == multiset(votes)
    ensures SecondSmallest(votes, sorted[1])
  {
    hide Sorted, SecondSmallest;
    assert sorted[0] in multiset(votes);
    var i :| 0 <= i < |votes| && votes[i] == sorted[0];
    WithoutContents(votes, i);
    WithoutContents(sorted, 0);
    LeastOut(sorted);
    SecondVote(votes, i, sorted[0], Without(sorted, 0));
  }

  lemma LeastOut(sorted: seq<real>)
    requires |sorted| >= 2 && Sorted(sorted)
    ensures sorted[0] <= sorted[1] && Without(sorted, 0)[0] == sorted[1] && Above(Without(sorted, 0), sorted[1])
  {
  }

  lemma SecondVote(votes: seq<real>, i: nat, least: real, above: seq<real>)
    requires i < |votes| && votes[i] == least && above != [] && least <= above[0] && Above(above, above[0])
    requires multiset(Without(votes, i)) == multiset(above)
    ensures SecondSmallest(votes, above[0])
  {
    var rest := Without(votes, i);
    forall k | 0 <= k < |votes| && k != i ensures above[0] <= votes[k] {
      assert rest[if k < i then k else k - 1] == votes[k];
      assert votes[k] in multiset(rest);
      assert votes[k] in above;
    }
    assert above[0] in multiset(rest);
    var k: nat :| k < |rest| && rest[k] == above[0];
    var j := if k < i then k else k + 1;
    assert votes[j] == above[0] && j != i && AboveBut(votes, i, above[0]);
  }
}
