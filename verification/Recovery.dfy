/**
 The sweep that finishes a crashed process's judging: it re-issues the votes
 that persisted answers still miss and writes the case rows.
 */
module Recovery {
  import opened Wrappers
  import opened Median
  import opened PipelineBook
  import opened PipelineMachine
  import opened PipelineInvariant
  import opened PipelineFrame
  import opened PipelineTheorems
  import opened PipelineScores

  /** A persisted answer attempt; a failed call has no text to judge. */
  datatype Answer = Answer(id: int, no: nat, attempt: nat, answered: bool)
  datatype VoteRow = VoteRow(answerId: int, slot: nat, score: Option<real>)
  /** What each judge says about each answer. */
  type Says = map<(int, nat), Option<real>>

  function Saying(says: Says, id: int, slot: nat): Option<real> {
    if (id, slot) in says then says[(id, slot)] else None
  }

  // ---------------------------------------------------------------------
  // The latest attempt of each sample

  function LatestBySample(answers: seq<Answer>): map<nat, Answer> {
    if answers == [] then map[]
    else
      var latest, a := LatestBySample(answers[..|answers| - 1]), answers[|answers| - 1];
      if a.no in latest && a.attempt <= latest[a.no].attempt then latest else latest[a.no := a]
  }

  /** Samples in the order they first appear. */
  function SampleOrder(answers: seq<Answer>): seq<nat> {
    if answers == [] then []
    else
      var front, a := answers[..|answers| - 1], answers[|answers| - 1];
      if a.no in LatestBySample(front) then SampleOrder(front) else SampleOrder(front) + [a.no]
  }

  /** The entries are recorded attempts of their samples, every sample has one, and none is superseded. */
  lemma {:induction false} LatestSpec(answers: seq<Answer>)
    ensures var latest := LatestBySample(answers);
      && (forall no | no in latest :: latest[no].no == no && latest[no] in answers)
      && (forall i | 0 <= i < |answers| :: answers[i].no in latest && answers[i].attempt <= latest[answers[i].no].attempt)
  {
    if answers != [] {
      var front := answers[..|answers| - 1];
      LatestSpec(front);
      assert answers == front + [answers[|answers| - 1]];
    }
  }

  /** The answer at i is an attempt of its sample, and every one recorded before it was an earlier attempt. */
  predicate FirstOfItsAttempt(answers: seq<Answer>, i: nat, a: Answer) {
    i < |answers| && answers[i] == a && forall j | 0 <= j < i :: answers[j].no == a.no ==> answers[j].attempt < a.attempt
  }

  /** Of equal attempts the one recorded first counts. */
  lemma {:induction false} EarliestOfEquals(answers: seq<Answer>)
    ensures forall no | no in LatestBySample(answers) :: exists i: nat :: FirstOfItsAttempt(answers, i, LatestBySample(answers)[no])
  {
    if answers != [] {
      var n := |answers| - 1;
      var front, a := answers[..n], answers[n];
      EarliestOfEquals(front);
      LatestSpec(front);
      forall no | no in LatestBySample(answers) ensures exists i: nat :: FirstOfItsAttempt(answers, i, LatestBySample(answers)[no]) {
        var kept := LatestBySample(answers)[no];
        if no in LatestBySample(front) && kept == LatestBySample(front)[no] {
          var i: nat :| FirstOfItsAttempt(front, i, kept);
          assert FirstOfItsAttempt(answers, i, kept);
        } else {
          forall j | 0 <= j < n && answers[j].no == a.no ensures answers[j].attempt < a.attempt { assert front[j] == answers[j]; }
          assert FirstOfItsAttempt(answers, n, kept);
        }
      }
    }
  }

  lemma {:induction false} OrderSpec(answers: seq<Answer>)
    ensures var order := SampleOrder(answers);
      && (forall i, j | 0 <= i < j < |order| :: order[i] != order[j])
      && (forall no :: no in order <==> no in LatestBySample(answers))
  {
    if answers != [] {
      OrderSpec(answers[..|answers| - 1]);
    }
  }

  /** The attempts that count. */
  function Latest(answers: seq<Answer>): (r: seq<Answer>)
    ensures |r| == |SampleOrder(answers)|
    ensures forall i | 0 <= i < |r| :: r[i].no == SampleOrder(answers)[i] && r[i] in answers
  {
    OrderSpec(answers);
    LatestSpec(answers);
    seq(|SampleOrder(answers)|, i requires 0 <= i < |SampleOrder(answers)| => LatestBySample(answers)[SampleOrder(answers)[i]])
  }

  // ---------------------------------------------------------------------
  // One case

  /** The last row stored for a slot of an answer, if there is any: a null score is a row too. */
  function Stored(votes: seq<VoteRow>, id: int, slot: nat): Option<Option<real>> {
    if votes == [] then None
    else
      var row := votes[|votes| - 1];
      if row.answerId == id && row.slot == slot then Some(row.score) else Stored(votes[..|votes| - 1], id, slot)
  }

  /** The rows the missing slots from..judges of an answer still need. */
  function Missing(votes: seq<VoteRow>, id: int, from: nat, judges: nat, says: Says): seq<VoteRow>
    decreases judges - from
  {
    if from >= judges then []
    else
      var here := if Stored(votes, id, from).None? then [VoteRow(id, from, Saying(says, id, from))] else [];
      here + Missing(votes, id, from + 1, judges, says)
  }

  function SlotVote(votes: seq<VoteRow>, id: int, slot: nat, says: Says): Option<real> {
    match Stored(votes, id, slot)
    case Some(score) => score
    case None => Saying(says, id, slot)
  }

  function SlotVotes(votes: seq<VoteRow>, id: int, judges: nat, says: Says): (r: seq<Option<real>>)
    ensures |r| == judges
  {
    seq(judges, slot requires 0 <= slot => SlotVote(votes, id, slot, says))
  }

  function Judgeable(a: Answer, judges: nat): bool {
    a.answered && judges > 0
  }

  function AnswerMedian(votes: seq<VoteRow>, a: Answer, judges: nat, says: Says): Option<real> {
    if Judgeable(a, judges) then MedianOfVotes(SlotVotes(votes, a.id, judges, says)) else None
  }

  function Added(votes: seq<VoteRow>, a: Answer, judges: nat, says: Says): seq<VoteRow> {
    if Judgeable(a, judges) then Missing(votes, a.id, 0, judges, says) else []
  }

  /** Works through the chosen answers: the vote table afterwards and the aggregate. */
  function Rescue(votes: seq<VoteRow>, chosen: seq<Answer>, judges: nat, says: Says, agg: Aggregate): (seq<VoteRow>, Aggregate)
    decreases |chosen|
  {
    if chosen == [] then (votes, agg)
    else
      Rescue(votes + Added(votes, chosen[0], judges, says), chosen[1..], judges, says,
             Fold(agg, AnswerMedian(votes, chosen[0], judges, says)))
  }

  function Fresh(n: nat): Aggregate { Aggregate(n, 0, 0.0, 0) }

  class Store {
    var votes: seq<VoteRow>
    var results: map<CaseKey, seq<Option<real>>>

    /** Judges one case's persisted answers and writes its row. */
    method RecoverCase(key: CaseKey, answers: seq<Answer>, judges: nat, says: Says)
      modifies this
      ensures answers == [] ==> votes == old(votes) && results == old(results)
      ensures answers != [] ==>
        var (table, agg) := Rescue(old(votes), Latest(answers), judges, says, Fresh(|Latest(answers)|));
        votes == table && results == old(results)[key := RowsIn(old(results), key) + [CaseScore(agg)]]
    {
      if answers == [] {
        return;
      }
      var latest, order := PickLatest(answers);
      OrderSpec(answers);
      ghost var chosen := Latest(answers);
      var agg := Fresh(|order|);
      ghost var start := votes;
      for i := 0 to |order|
        invariant results == old(results)
        invariant Rescue(start, chosen, judges, says, Fresh(|chosen|)) == Rescue(votes, chosen[i..], judges, says, agg)
      {
        var a := latest[order[i]];
        assert a == chosen[i];
        assert chosen[i..][1..] == chosen[i + 1..];
        ghost var before, table := agg, votes;
        if !a.answered || judges == 0 {
          agg := agg.(settled := agg.settled + 1);
          assert votes + [] == votes;
        } else {
          var scores := JudgeMissing(a.id, judges, says);
          var median := TakeMedian(scores);
          agg := agg.(settled := agg.settled + 1);
          if median.Some? {
            agg := agg.(sum := agg.sum + median.value, scored := agg.scored + 1);
          }
        }
        assert agg == Fold(before, AnswerMedian(table, a, judges, says));
        assert votes == table + Added(table, a, judges, says);
      }
      results := results[key := (if key in results then results[key] else []) + [CaseScore(agg)]];
    }

    /** Keeps the stored votes of an answer and asks only the judges that have no row. */
    method JudgeMissing(id: int, judges: nat, says: Says) returns (scores: seq<Option<real>>)
      modifies this`votes
      ensures votes == old(votes) + Missing(old(votes), id, 0, judges, says)
      ensures scores == SlotVotes(old(votes), id, judges, says)
    {
      var stored := votes;
      scores := [];
      assert Missing(stored, id, judges, judges, says) == [];
      for slot := 0 to judges
        invariant |scores| == slot && forall k | 0 <= k < slot :: scores[k] == SlotVote(stored, id, k, says)
        invariant stored + Missing(stored, id, 0, judges, says) == votes + Missing(stored, id, slot, judges, says)
      {
        ghost var later := Missing(stored, id, slot + 1, judges, says);
        var done := Stored(stored, id, slot);
        if done.Some? {
          assert Missing(stored, id, slot, judges, says) == [] + later == later;
          scores := scores + [done.value];
        } else {
          var score := Saying(says, id, slot);
          assert votes + ([VoteRow(id, slot, score)] + later) == (votes + [VoteRow(id, slot, score)]) + later;
          votes := votes + [VoteRow(id, slot, score)];
          scores := scores + [score];
        }
      }
      assert votes + [] == votes;
    }
  }

  method PickLatest(answers: seq<Answer>) returns (latest: map<nat, Answer>, order: seq<nat>)
    ensures latest == LatestBySample(answers) && order == SampleOrder(answers)
  {
    latest, order := map[], [];
    for i := 0 to |answers|
      invariant latest == LatestBySample(answers[..i]) && order == SampleOrder(answers[..i])
    {
      assert answers[..i + 1][..i] == answers[..i];
      var a := answers[i];
      if a.no !in latest || a.attempt > latest[a.no].attempt {
        if a.no !in latest {
          order := order + [a.no];
        }
        latest := latest[a.no := a];
      }
    }
    assert answers[..|answers|] == answers;
  }

  // ---------------------------------------------------------------------
  // Exactly the missing votes

  lemma {:induction false} StoredAppend(votes: seq<VoteRow>, rows: seq<VoteRow>, id: int, slot: nat)
    ensures Stored(votes + rows, id, slot) == if Stored(rows, id, slot).Some? then Stored(rows, id, slot) else Stored(votes, id, slot)
  {
    if rows == [] {
      assert votes + rows == votes;
    } else {
      var front := rows[..|rows| - 1];
      assert (votes + rows)[..|votes + rows| - 1] == votes + front;
      StoredAppend(votes, front, id, slot);
    }
  }

  /** Missing rows are for this answer's slots without a row, one each, with what the judge says. */
  lemma {:induction false} MissingExactly(votes: seq<VoteRow>, id: int, from: nat, judges: nat, says: Says)
    ensures var rows := Missing(votes, id, from, judges, says);
      && (forall i | 0 <= i < |rows| ::
            rows[i].answerId == id && from <= rows[i].slot < judges && Stored(votes, id, rows[i].slot).None? && rows[i].score == Saying(says, id, rows[i].slot))
      && (forall i, j | 0 <= i < j < |rows| :: rows[i].slot < rows[j].slot)
      && (forall slot | from <= slot < judges && Stored(votes, id, slot).None? :: VoteRow(id, slot, Saying(says, id, slot)) in rows)
    decreases judges - from
  {
    hide Stored, Saying;
    if from < judges {
      MissingExactly(votes, id, from + 1, judges, says);
      var later := Missing(votes, id, from + 1, judges, says);
      var here := if Stored(votes, id, from).None? then [VoteRow(id, from, Saying(says, id, from))] else [];
      var rows := Missing(votes, id, from, judges, says);
      assert rows == here + later;
      forall i | 0 <= i < |rows| ensures rows[i] == if i < |here| then here[i] else later[i - |here|] {}
      forall slot | from <= slot < judges && Stored(votes, id, slot).None? ensures VoteRow(id, slot, Saying(says, id, slot)) in rows {
        assert slot == from ==> VoteRow(id, slot, Saying(says, id, slot)) in here;
        assert slot > from ==> VoteRow(id, slot, Saying(says, id, slot)) in later;
      }
    }
  }

  lemma {:induction false} StoredMissing(votes: seq<VoteRow>, id: int, from: nat, judges: nat, says: Says, other: int, slot: nat)
    ensures Stored(Missing(votes, id, from, judges, says), other, slot) ==
      if other == id && from <= slot < judges && Stored(votes, id, slot).None? then Some(Saying(says, id, slot)) else None
    decreases judges - from
  {
    if from < judges {
      StoredMissing(votes, id, from + 1, judges, says, other, slot);
      var later := Missing(votes, id, from + 1, judges, says);
      var here := if Stored(votes, id, from).None? then [VoteRow(id, from, Saying(says, id, from))] else [];
      StoredAppend(here, later, other, slot);
      assert Stored(here, other, slot) == if other == id && slot == from && Stored(votes, id, from).None? then Some(Saying(says, id, from)) else None by {
        if Stored(votes, id, from).None? {
          assert here[..0] == [];
        }
      }
    }
  }

  /** After one answer: its slots are all stored as voted, other answers' rows are as before. */
  lemma AddedStores(votes: seq<VoteRow>, a: Answer, judges: nat, says: Says, id: int, slot: nat)
    ensures var after := votes + Added(votes, a, judges, says);
      Stored(after, id, slot) ==
        if id == a.id && Judgeable(a, judges) && slot < judges then Some(SlotVote(votes, id, slot, says)) else Stored(votes, id, slot)
  {
    hide Stored, Missing;
    if Judgeable(a, judges) {
      StoredAppend(votes, Missing(votes, a.id, 0, judges, says), id, slot);
      StoredMissing(votes, a.id, 0, judges, says, id, slot);
    } else {
      assert votes + [] == votes;
    }
  }

  predicate DistinctIds(chosen: seq<Answer>) {
    forall i, j | 0 <= i < j < |chosen| :: chosen[i].id != chosen[j].id
  }

  /** The table after a rescue: a stored row is what it was, a judged slot that had none is what its judge says. */
  lemma {:induction false} RescueStores(votes: seq<VoteRow>, chosen: seq<Answer>, judges: nat, says: Says, agg: Aggregate, id: int, slot: nat)
    requires DistinctIds(chosen)
    ensures var after := Rescue(votes, chosen, judges, says, agg).0;
      Stored(after, id, slot) ==
        if slot < judges && exists a :: a in chosen && a.id == id && a.answered then Some(SlotVote(votes, id, slot, says)) else Stored(votes, id, slot)
    decreases |chosen|
  {
    hide Stored, Saying, AnswerMedian, Fold, Added;
    if chosen != [] {
      var a, rest := chosen[0], chosen[1..];
      var votes1 := votes + Added(votes, a, judges, says);
      var wanted := slot < judges && exists x :: x in chosen && x.id == id && x.answered;
      var later := slot < judges && exists x :: x in rest && x.id == id && x.answered;
      AddedStores(votes, a, judges, says, id, slot);
      RescueStores(votes1, rest, judges, says, Fold(agg, AnswerMedian(votes, a, judges, says)), id, slot);
      assert chosen == [a] + rest;
      assert wanted <==> later || (slot < judges && a.id == id && a.answered) by {
        if later {
          var x :| x in rest && x.id == id && x.answered;
          assert x in chosen;
        }
        if slot < judges && a.id == id && a.answered {
          assert a in chosen;
        }
      }
    }
  }

  /** The aggregate is the fold of the medians that the stored and missing votes give, in order. */
  function FoldMedians(votes: seq<VoteRow>, chosen: seq<Answer>, judges: nat, says: Says, agg: Aggregate): Aggregate
    decreases |chosen|
  {
    if chosen == [] then agg else FoldMedians(votes, chosen[1..], judges, says, Fold(agg, AnswerMedian(votes, chosen[0], judges, says)))
  }

  lemma {:induction false} SameSlotVotes(votes: seq<VoteRow>, votes': seq<VoteRow>, chosen: seq<Answer>, judges: nat, says: Says, agg: Aggregate)
    requires forall a, slot: nat | a in chosen && slot < judges :: SlotVote(votes', a.id, slot, says) == SlotVote(votes, a.id, slot, says)
    ensures FoldMedians(votes', chosen, judges, says, agg) == FoldMedians(votes, chosen, judges, says, agg)
    decreases |chosen|
  {
    hide SlotVote, Fold, MedianOfVotes;
    if chosen != [] {
      var a := chosen[0];
      forall slot: nat | slot < judges ensures SlotVote(votes', a.id, slot, says) == SlotVote(votes, a.id, slot, says) {
        assert a in chosen;
      }
      assert SlotVotes(votes', a.id, judges, says) == SlotVotes(votes, a.id, judges, says);
      SameSlotVotes(votes, votes', chosen[1..], judges, says, Fold(agg, AnswerMedian(votes, a, judges, says)));
    }
  }

  lemma {:induction false} RescueFolds(votes: seq<VoteRow>, chosen: seq<Answer>, judges: nat, says: Says, agg: Aggregate)
    requires DistinctIds(chosen)
    ensures Rescue(votes, chosen, judges, says, agg).1 == FoldMedians(votes, chosen, judges, says, agg)
    decreases |chosen|
  {
    hide Stored, Saying, AnswerMedian, Fold, Added;
    if chosen != [] {
      var a, rest := chosen[0], chosen[1..];
      var votes1, agg1 := votes + Added(votes, a, judges, says), Fold(agg, AnswerMedian(votes, a, judges, says));
      RescueFolds(votes1, rest, judges, says, agg1);
      forall x, slot: nat | x in rest && slot < judges ensures SlotVote(votes1, x.id, slot, says) == SlotVote(votes, x.id, slot, says) {
        AddedStores(votes, a, judges, says, x.id, slot);
      }
      SameSlotVotes(votes, votes1, rest, judges, says, agg1);
    }
  }

  lemma {:induction false} AllStoredAddsNothing(votes: seq<VoteRow>, id: int, from: nat, judges: nat, says: Says)
    requires forall slot: nat | slot < judges :: Stored(votes, id, slot).Some?
    ensures Missing(votes, id, from, judges, says) == []
    decreases judges - from
  {
    if from < judges {
      AllStoredAddsNothing(votes, id, from + 1, judges, says);
    }
  }

  lemma {:induction false} NothingLeft(votes: seq<VoteRow>, chosen: seq<Answer>, judges: nat, says: Says, agg: Aggregate)
    requires forall a, slot: nat | a in chosen && a.answered && slot < judges :: Stored(votes, a.id, slot).Some?
    ensures Rescue(votes, chosen, judges, says, agg).0 == votes
    decreases |chosen|
  {
    hide Stored, Saying, AnswerMedian, Fold;
    if chosen != [] {
      var a := chosen[0];
      if Judgeable(a, judges) {
        forall slot: nat | slot < judges ensures Stored(votes, a.id, slot).Some? { assert a in chosen; }
        AllStoredAddsNothing(votes, a.id, 0, judges, says);
      }
      assert votes + [] == votes;
      NothingLeft(votes, chosen[1..], judges, says, Fold(agg, AnswerMedian(votes, a, judges, says)));
    }
  }

  /** Rescuing again, say after a crash before the row was written, judges nobody again and finds the same aggregate. */
  lemma RescueAgain(votes: seq<VoteRow>, chosen: seq<Answer>, judges: nat, says: Says, says': Says, agg: Aggregate)
    requires DistinctIds(chosen)
    ensures var (table, result) := Rescue(votes, chosen, judges, says, agg);
      Rescue(table, chosen, judges, says', agg) == (table, result)
  {
    hide Stored, Saying, Rescue, FoldMedians;
    var (table, result) := Rescue(votes, chosen, judges, says, agg);
    forall a, slot: nat | a in chosen && a.answered && slot < judges
      ensures Stored(table, a.id, slot) == Some(SlotVote(votes, a.id, slot, says))
    {
      RescueStores(votes, chosen, judges, says, agg, a.id, slot);
    }
    NothingLeft(table, chosen, judges, says', agg);
    RescueFolds(votes, chosen, judges, says, agg);
    RescueFolds(table, chosen, judges, says', agg);
    SameMedians(votes, table, chosen, judges, says, says', agg);
  }

  lemma {:induction false} SameMedians(votes: seq<VoteRow>, table: seq<VoteRow>, chosen: seq<Answer>, judges: nat, says: Says, says': Says, agg: Aggregate)
    requires forall a, slot: nat | a in chosen && a.answered && slot < judges :: Stored(table, a.id, slot) == Some(SlotVote(votes, a.id, slot, says))
    ensures FoldMedians(table, chosen, judges, says', agg) == FoldMedians(votes, chosen, judges, says, agg)
    decreases |chosen|
  {
    hide Stored, Saying, Fold, MedianOfVotes;
    if chosen != [] {
      var a := chosen[0];
      if Judgeable(a, judges) {
        forall slot: nat | slot < judges ensures SlotVote(table, a.id, slot, says') == SlotVote(votes, a.id, slot, says) {
          assert a in chosen;
        }
        assert SlotVotes(table, a.id, judges, says') == SlotVotes(votes, a.id, judges, says);
      }
      SameMedians(votes, table, chosen[1..], judges, says, says', Fold(agg, AnswerMedian(votes, a, judges, says)));
    }
  }

  // ---------------------------------------------------------------------
  // Agreement with the live pipeline

  /** A judge case of the batch: which of its samples get an answer, and how many judges each answer has. */
  predicate Asks(b: Batch, ck: CaseKey, answered: seq<bool>, judges: nat) {
    && Samples(b, ck) == |answered|
    && forall no: nat | no < |answered| :: OutcomeOf(b, SampleKey(ck, no)) == if answered[no] then Answered(judges) else Failed
  }

  predicate InChosen(chosen: seq<Answer>, no: nat) {
    exists i | 0 <= i < |chosen| :: chosen[i].no == no
  }

  /** The answers that were persisted, one for each sample it happened for. */
  predicate Persisted(answered: seq<bool>, chosen: seq<Answer>) {
    && DistinctIds(chosen)
    && (forall i, j | 0 <= i < j < |chosen| :: chosen[i].no != chosen[j].no)
    && forall i | 0 <= i < |chosen| :: chosen[i].no < |answered| && chosen[i].answered == answered[chosen[i].no]
  }

  /** Every vote stored or still to be asked about a persisted answer is that judge's verdict. */
  ghost predicate VotesAgree(b: Batch, ck: CaseKey, chosen: seq<Answer>, judges: nat, votes: seq<VoteRow>, says: Says) {
    forall i, slot: nat | 0 <= i < |chosen| && chosen[i].answered && slot < judges ::
      SlotVote(votes, chosen[i].id, slot, says) == Verdict(b, VoteKey(SampleKey(ck, chosen[i].no), slot))
  }

  /** Every sample that was answered and has a jury is persisted. */
  predicate NoneMissing(answered: seq<bool>, chosen: seq<Answer>, judges: nat) {
    judges > 0 ==> forall no: nat | no < |answered| && answered[no] :: InChosen(chosen, no)
  }

  function RecoveredScore(votes: seq<VoteRow>, chosen: seq<Answer>, judges: nat, says: Says): Option<real> {
    CaseScore(Rescue(votes, chosen, judges, says, Fresh(|chosen|)).1)
  }

  function SettledOn(samples: map<SampleKey, SampleState>, ck: CaseKey, chosen: seq<Answer>): map<SampleKey, SampleState>
    decreases |chosen|
  {
    if chosen == [] then samples else SettledOn(samples[SampleKey(ck, chosen[0].no) := Settled], ck, chosen[1..])
  }

  lemma {:induction false} SettledOnIs(samples: map<SampleKey, SampleState>, ck: CaseKey, chosen: seq<Answer>, no: nat)
    ensures SampleIn(SettledOn(samples, ck, chosen), SampleKey(ck, no)).Settled? <==>
      SampleIn(samples, SampleKey(ck, no)).Settled? || InChosen(chosen, no)
    decreases |chosen|
  {
    if chosen != [] {
      SettledOnIs(samples[SampleKey(ck, chosen[0].no) := Settled], ck, chosen[1..], no);
      if InChosen(chosen[1..], no) {
        var i :| 0 <= i < |chosen[1..]| && chosen[1..][i].no == no;
        assert chosen[i + 1].no == no;
      }
      if i :| 0 <= i < |chosen| && chosen[i].no == no && i > 0 {
        assert chosen[1..][i - 1].no == no;
      }
    }
  }

  lemma AnswerMedianIs(b: Batch, ck: CaseKey, answered: seq<bool>, judges: nat, chosen: seq<Answer>, votes: seq<VoteRow>, says: Says, i: nat)
    requires Asks(b, ck, answered, judges) && Persisted(answered, chosen) && VotesAgree(b, ck, chosen, judges, votes, says) && i < |chosen|
    ensures AnswerMedian(votes, chosen[i], judges, says) == SampleMedian(b, SampleKey(ck, chosen[i].no))
  {
    hide SlotVote, MedianOfVotes, DistinctIds;
    var a := chosen[i];
    if Judgeable(a, judges) {
      assert SlotVotes(votes, a.id, judges, says) == Verdicts(b, SampleKey(ck, a.no));
    }
  }

  /** Folding the persisted answers' medians, in whatever order, counts exactly their samples as settled. */
  lemma {:induction false} FoldsToTally(b: Batch, ck: CaseKey, answered: seq<bool>, judges: nat,
      chosen: seq<Answer>, votes: seq<VoteRow>, says: Says, samples: map<SampleKey, SampleState>)
    requires Asks(b, ck, answered, judges) && Persisted(answered, chosen) && VotesAgree(b, ck, chosen, judges, votes, says)
    requires forall i | 0 <= i < |chosen| :: !SampleIn(samples, SampleKey(ck, chosen[i].no)).Settled?
    ensures FoldMedians(votes, chosen, judges, says, Tally(b, samples, ck, |answered|)) == Tally(b, SettledOn(samples, ck, chosen), ck, |answered|)
    decreases |chosen|
  {
    hide Tally, Fold, AnswerMedian, SampleMedian, SlotVote;
    if chosen != [] {
      var k, rest := SampleKey(ck, chosen[0].no), chosen[1..];
      AnswerMedianIs(b, ck, answered, judges, chosen, votes, says, 0);
      TallyAdds(b, samples, k, |answered|);
      forall i, slot: nat | 0 <= i < |rest| && rest[i].answered && slot < judges
        ensures SlotVote(votes, rest[i].id, slot, says) == Verdict(b, VoteKey(SampleKey(ck, rest[i].no), slot))
      {
        assert rest[i] == chosen[i + 1];
      }
      FoldsToTally(b, ck, answered, judges, rest, votes, says, samples[k := Settled]);
    }
  }

  /** How many samples were expected does not show in the sum. */
  lemma {:induction false} ExpectedIsAside(votes: seq<VoteRow>, chosen: seq<Answer>, judges: nat, says: Says, agg: Aggregate, n: nat)
    ensures FoldMedians(votes, chosen, judges, says, agg.(expected := n)) == FoldMedians(votes, chosen, judges, says, agg).(expected := n)
    decreases |chosen|
  {
    hide AnswerMedian;
    if chosen != [] {
      ExpectedIsAside(votes, chosen[1..], judges, says, Fold(agg, AnswerMedian(votes, chosen[0], judges, says)), n);
    }
  }

  /** The recovered score is that of a case of which exactly the persisted samples have settled. */
  lemma RecoveredIsPartTally(b: Batch, ck: CaseKey, answered: seq<bool>, judges: nat, chosen: seq<Answer>, votes: seq<VoteRow>, says: Says)
    requires Asks(b, ck, answered, judges) && Persisted(answered, chosen) && VotesAgree(b, ck, chosen, judges, votes, says)
    ensures RecoveredScore(votes, chosen, judges, says) == CaseScore(Tally(b, SettledOn(map[], ck, chosen), ck, |answered|))
  {
    hide Tally, FoldMedians, Rescue, SlotVote, Asks, VotesAgree;
    RescueFolds(votes, chosen, judges, says, Fresh(|chosen|));
    TallyNone(b, map[], ck, |answered|);
    FoldsToTally(b, ck, answered, judges, chosen, votes, says, map[]);
    ExpectedIsAside(votes, chosen, judges, says, Fresh(Samples(b, ck)), |chosen|);
  }

  /** Samples without a median change neither the sum nor the count. */
  lemma {:induction false} UnscoredAreAside(b: Batch, samples: map<SampleKey, SampleState>, ck: CaseKey, n: nat)
    requires forall no: nat | no < n && !SampleIn(samples, SampleKey(ck, no)).Settled? :: SampleMedian(b, SampleKey(ck, no)) == None
    ensures Tally(b, samples, ck, n).sum == Full(b, ck, n).sum && Tally(b, samples, ck, n).scored == Full(b, ck, n).scored
  {
    hide SampleMedian;
    if n > 0 {
      UnscoredAreAside(b, samples, ck, n - 1);
    }
  }

  /**
   Whichever votes a crash left behind, the recovered score is the one the live pipeline writes for the same
   answers and verdicts, as long as no answered sample with a jury is missing.
   */
  lemma RecoveryAgrees(b: Batch, ck: CaseKey, answered: seq<bool>, judges: nat, chosen: seq<Answer>, votes: seq<VoteRow>, says: Says)
    requires Asks(b, ck, answered, judges) && Persisted(answered, chosen) && VotesAgree(b, ck, chosen, judges, votes, says)
    requires NoneMissing(answered, chosen, judges)
    ensures RecoveredScore(votes, chosen, judges, says) == Score(b, ck)
  {
    hide Tally, Full, Persisted, VotesAgree, RecoveredScore;
    RecoveredIsPartTally(b, ck, answered, judges, chosen, votes, says);
    var samples := SettledOn(map[], ck, chosen);
    forall no: nat | no < |answered| && !SampleIn(samples, SampleKey(ck, no)).Settled? ensures SampleMedian(b, SampleKey(ck, no)) == None {
      SettledOnIs(map[], ck, chosen, no);
    }
    UnscoredAreAside(b, samples, ck, |answered|);
  }

  // ---------------------------------------------------------------------
  // When it does not agree

  lemma SameVotesSameMedian(n: nat, x: real)
    requires n > 0
    ensures MedianOfVotes(seq(n, i => Some(x))) == Some(x)
  {
    hide Sort, Cast;
    var votes := seq(n, i => Some(x));
    CastAll(votes);
    var vals := Sort(Cast(votes));
    SortSpec(Cast(votes));
    assert forall i | 0 <= i < |Cast(votes)| :: Cast(votes)[i] == x;
    forall i | 0 <= i < |vals| ensures vals[i] == x {
      assert vals[i] in multiset(vals);
      assert vals[i] in Cast(votes);
    }
  }

  function SampleKeys(ck: CaseKey, n: nat): (r: set<SampleKey>)
    ensures forall k :: k in r <==> k.of == ck && k.no < n
  {
    if n == 0 then {} else SampleKeys(ck, n - 1) + {SampleKey(ck, n - 1)}
  }

  function VoteKeys(ck: CaseKey, n: nat, judges: nat): (r: set<VoteKey>)
    ensures forall v :: v in r <==> v.sample.of == ck && v.sample.no < n && v.slot < judges
  {
    if n == 0 then {} else VoteKeys(ck, n - 1, judges) + SlotKeys(SampleKey(ck, n - 1), judges)
  }

  /** Every judge gives sample odd full marks and the other samples none. */
  function OddOneOut(ck: CaseKey, answered: seq<bool>, judges: nat, odd: nat): Batch {
    Batch(false, false, {}, {}, map[], map[ck := |answered|], map[],
      map k | k in SampleKeys(ck, |answered|) :: if answered[k.no] then Answered(judges) else Failed,
      map v | v in VoteKeys(ck, |answered|, judges) :: Some(if v.sample.no == odd then 1.0 else 0.0),
      1, 1, map[])
  }

  lemma OddMedians(ck: CaseKey, answered: seq<bool>, judges: nat, odd: nat, no: nat)
    requires judges > 0 && no < |answered|
    ensures SampleMedian(OddOneOut(ck, answered, judges, odd), SampleKey(ck, no)) ==
      if answered[no] then Some(if no == odd then 1.0 else 0.0) else None
  {
    hide MedianOfVotes;
    var b, k, x := OddOneOut(ck, answered, judges, odd), SampleKey(ck, no), if no == odd then 1.0 else 0.0;
    if answered[no] {
      forall slot: nat | slot < judges ensures Verdict(b, VoteKey(k, slot)) == Some(x) {
        assert VoteKey(k, slot) in VoteKeys(ck, |answered|, judges);
      }
      assert Verdicts(b, k) == seq(judges, i => Some(x));
      SameVotesSameMedian(judges, x);
    }
  }

  lemma {:induction false} OddSums(ck: CaseKey, answered: seq<bool>, judges: nat, odd: nat, samples: map<SampleKey, SampleState>, n: nat)
    requires judges > 0 && odd < |answered| && answered[odd] && n <= |answered| && !SampleIn(samples, SampleKey(ck, odd)).Settled?
    ensures var b := OddOneOut(ck, answered, judges, odd);
      && Tally(b, samples, ck, n).sum == 0.0
      && Full(b, ck, n).sum == (if odd < n then 1.0 else 0.0) && (odd < n ==> Full(b, ck, n).scored > 0)
  {
    hide SampleMedian;
    if n > 0 {
      OddSums(ck, answered, judges, odd, samples, n - 1);
      OddMedians(ck, answered, judges, odd, n - 1);
    }
  }

  function NoMarksFor(id: int, judges: nat): (r: Says)
    ensures forall p :: p in r <==> p.0 == id && p.1 < judges
    ensures forall p | p in r :: r[p] == Some(0.0)
  {
    if judges == 0 then map[] else NoMarksFor(id, judges - 1)[(id, judges - 1) := Some(0.0)]
  }

  /** The judges' say on the persisted answers of that batch. */
  function NoMarks(chosen: seq<Answer>, judges: nat): (r: Says)
    ensures forall i, slot: nat | 0 <= i < |chosen| && slot < judges :: (chosen[i].id, slot) in r
    ensures forall p | p in r :: r[p] == Some(0.0)
  {
    if chosen == [] then map[] else NoMarks(chosen[..|chosen| - 1], judges) + NoMarksFor(chosen[|chosen| - 1].id, judges)
  }

  lemma OddInputs(ck: CaseKey, answered: seq<bool>, judges: nat, odd: nat, chosen: seq<Answer>)
    requires Persisted(answered, chosen) && !InChosen(chosen, odd)
    ensures var b := OddOneOut(ck, answered, judges, odd);
      Asks(b, ck, answered, judges) && VotesAgree(b, ck, chosen, judges, [], NoMarks(chosen, judges))
  {
    var b := OddOneOut(ck, answered, judges, odd);
    forall no: nat | no < |answered| ensures OutcomeOf(b, SampleKey(ck, no)) == if answered[no] then Answered(judges) else Failed {
      assert SampleKey(ck, no) in SampleKeys(ck, |answered|);
    }
    forall i, slot: nat | 0 <= i < |chosen| && chosen[i].answered && slot < judges
      ensures SlotVote([], chosen[i].id, slot, NoMarks(chosen, judges)) == Verdict(b, VoteKey(SampleKey(ck, chosen[i].no), slot))
    {
      assert (chosen[i].id, slot) in NoMarks(chosen, judges);
      assert VoteKey(SampleKey(ck, chosen[i].no), slot) in VoteKeys(ck, |answered|, judges);
    }
  }

  /** With an answered sample missing there are verdicts for which the live score is positive and the recovered one is not. */
  lemma MissingSampleShows(ck: CaseKey, answered: seq<bool>, judges: nat, odd: nat, chosen: seq<Answer>)
    requires Persisted(answered, chosen) && judges > 0 && odd < |answered| && answered[odd] && !InChosen(chosen, odd)
    ensures RecoveredScore([], chosen, judges, NoMarks(chosen, judges)) != Score(OddOneOut(ck, answered, judges, odd), ck)
  {
    hide Tally, Full, Persisted, RecoveredScore, Asks, VotesAgree;
    var b := OddOneOut(ck, answered, judges, odd);
    OddInputs(ck, answered, judges, odd, chosen);
    RecoveredIsPartTally(b, ck, answered, judges, chosen, [], NoMarks(chosen, judges));
    SettledOnIs(map[], ck, chosen, odd);
    OddSums(ck, answered, judges, odd, SettledOn(map[], ck, chosen), |answered|);
    assert Samples(b, ck) == |answered|;
  }

  /** A batch, a vote table and judges that give the case these answers and agree on every vote. */
  ghost predicate SameAnswers(b: Batch, ck: CaseKey, answered: seq<bool>, judges: nat, chosen: seq<Answer>, votes: seq<VoteRow>, says: Says) {
    Asks(b, ck, answered, judges) && VotesAgree(b, ck, chosen, judges, votes, says)
  }

  /** For all verdicts the recovered score is the live one exactly when no answered sample with a jury is missing. */
  lemma RecoveryAgreesExactly(ck: CaseKey, answered: seq<bool>, judges: nat, answers: seq<Answer>)
    requires answers != [] && Persisted(answered, Latest(answers))
    ensures (forall b, votes, says | SameAnswers(b, ck, answered, judges, Latest(answers), votes, says) ::
        RecoveredScore(votes, Latest(answers), judges, says) == Score(b, ck))
      <==> NoneMissing(answered, Latest(answers), judges)
  {
    hide Latest, Persisted, RecoveredScore, Score, Asks, VotesAgree, OddOneOut, NoMarks, InChosen;
    var chosen := Latest(answers);
    if NoneMissing(answered, chosen, judges) {
      forall b, votes, says | SameAnswers(b, ck, answered, judges, chosen, votes, says)
        ensures RecoveredScore(votes, chosen, judges, says) == Score(b, ck)
      {
        RecoveryAgrees(b, ck, answered, judges, chosen, votes, says);
      }
    } else {
      var odd: nat :| odd < |answered| && answered[odd] && !InChosen(chosen, odd);
      OddInputs(ck, answered, judges, odd, chosen);
      MissingSampleShows(ck, answered, judges, odd, chosen);
      assert SameAnswers(OddOneOut(ck, answered, judges, odd), ck, answered, judges, chosen, [], NoMarks(chosen, judges));
    }
  }

  /** For instance, a crash before the second answer leaves a mean over one sample. */
  lemma PartialAnswersScoreDifferently(b: Batch, ck: CaseKey, says: Says)
    requires Samples(b, ck) == 2 && OutcomeOf(b, SampleKey(ck, 0)) == Answered(1) && OutcomeOf(b, SampleKey(ck, 1)) == Answered(1)
    requires Verdict(b, VoteKey(SampleKey(ck, 0), 0)) == Some(1.0) && Verdict(b, VoteKey(SampleKey(ck, 1), 0)) == Some(0.0)
    requires Saying(says, 7, 0) == Some(1.0)
    ensures Score(b, ck) == Some(0.5)
    ensures CaseScore(Rescue([], Latest([Answer(7, 0, 1, true)]), 1, says, Fresh(1)).1) == Some(1.0)
  {
    hide *;
    LiveMeanOfTwo(b, ck);
    RecoveredFromOne(says);
  }

  lemma LiveMeanOfTwo(b: Batch, ck: CaseKey)
    requires Samples(b, ck) == 2 && OutcomeOf(b, SampleKey(ck, 0)) == Answered(1) && OutcomeOf(b, SampleKey(ck, 1)) == Answered(1)
    requires Verdict(b, VoteKey(SampleKey(ck, 0), 0)) == Some(1.0) && Verdict(b, VoteKey(SampleKey(ck, 1), 0)) == Some(0.0)
    ensures Score(b, ck) == Some(0.5)
  {
    hide MedianOfVotes, Verdict, OutcomeOf, Samples;
    OneVote(1.0);
    OneVote(0.0);
    assert Verdicts(b, SampleKey(ck, 0)) == [Some(1.0)];
    assert Verdicts(b, SampleKey(ck, 1)) == [Some(0.0)];
    assert Full(b, ck, 1) == Aggregate(2, 1, 1.0, 1);
    assert Full(b, ck, 2) == Aggregate(2, 2, 1.0, 2);
  }

  lemma RecoveredFromOne(says: Says)
    requires Saying(says, 7, 0) == Some(1.0)
    ensures CaseScore(Rescue([], Latest([Answer(7, 0, 1, true)]), 1, says, Fresh(1)).1) == Some(1.0)
  {
    hide MedianOfVotes, Saying;
    var one := [Answer(7, 0, 1, true)];
    assert one[..0] == [];
    assert SampleOrder(one) == [0] && LatestBySample(one) == map[0 := one[0]];
    assert Latest(one) == one;
    assert one[1..] == [];
    assert SlotVotes([], 7, 1, says) == [Some(1.0)];
    OneVote(1.0);
  }

  lemma OneVote(x: real)
    ensures MedianOfVotes([Some(x)]) == Some(x)
  {
    var v: seq<Option<real>> := [Some(x)];
    assert v[1..] == [];
    assert Cast(v) == [x];
    assert [x][1..] == [];
    assert Sort([x]) == [x];
  }

  // ---------------------------------------------------------------------
  // The whole sweep

  /** The persisted answers of one (model, case) cell of a run. */
  datatype Group = Group(key: CaseKey, answers: seq<Answer>, byJudges: bool, judges: nat)

  datatype Tables = Tables(votes: seq<VoteRow>, results: map<CaseKey, seq<Option<real>>>)

  predicate Skipped(results: map<CaseKey, seq<Option<real>>>, g: Group) {
    RowsIn(results, g.key) != [] || !g.byJudges || g.answers == []
  }

  function Recovered(t: Tables, g: Group, says: Says): Tables {
    if Skipped(t.results, g) then t
    else
      var (table, agg) := Rescue(t.votes, Latest(g.answers), g.judges, says, Fresh(|Latest(g.answers)|));
      Tables(table, t.results[g.key := RowsIn(t.results, g.key) + [CaseScore(agg)]])
  }

  function Sweep(t: Tables, groups: seq<Group>, says: Says): Tables {
    if groups == [] then t
    else
      var before := Sweep(t, groups[..|groups| - 1], says);
      Recovered(before, groups[|groups| - 1], says)
  }

  method RecoverRun(store: Store, groups: seq<Group>, says: Says)
    modifies store
    ensures Tables(store.votes, store.results) == Sweep(Tables(old(store.votes), old(store.results)), groups, says)
  {
    ghost var start := Tables(store.votes, store.results);
    for i := 0 to |groups|
      invariant Tables(store.votes, store.results) == Sweep(start, groups[..i], says)
    {
      assert groups[..i + 1][..i] == groups[..i];
      var g := groups[i];
      if !(g.key in store.results && store.results[g.key] != []) && g.byJudges {
        store.RecoverCase(g.key, g.answers, g.judges, says);
      }
    }
    assert groups[..|groups|] == groups;
  }

  /** After a sweep every judge group with answers has its row; rows that were there are untouched. */
  lemma {:induction false} SweepLeavesRows(t: Tables, groups: seq<Group>, says: Says, key: CaseKey)
    ensures RowsIn(t.results, key) != [] ==> RowsIn(Sweep(t, groups, says).results, key) == RowsIn(t.results, key)
    ensures RowsIn(t.results, key) == [] ==>
      (RowsIn(Sweep(t, groups, says).results, key) != [] <==> exists g :: g in groups && g.key == key && g.byJudges && g.answers != [])
  {
    hide Rescue, Latest, CaseScore;
    if groups != [] {
      var front, last := groups[..|groups| - 1], groups[|groups| - 1];
      SweepLeavesRows(t, front, says, key);
      assert groups == front + [last];
      if g :| g in groups && g.key == key && g.byJudges && g.answers != [] && g != last {
        assert g in front;
      }
    }
  }

  lemma {:induction false} SkippedAllRound(t: Tables, groups: seq<Group>, says: Says)
    requires forall g | g in groups :: Skipped(t.results, g)
    ensures Sweep(t, groups, says) == t
  {
    hide Rescue, Latest, CaseScore;
    if groups != [] {
      assert groups[|groups| - 1] in groups;
      SkippedAllRound(t, groups[..|groups| - 1], says);
    }
  }

  /** A second sweep finds nothing to do: no vote is asked again and no row is written. */
  lemma SecondSweepIdle(t: Tables, groups: seq<Group>, says: Says, says': Says)
    ensures Sweep(Sweep(t, groups, says), groups, says') == Sweep(t, groups, says)
  {
    hide Sweep;
    var after := Sweep(t, groups, says);
    forall g | g in groups ensures Skipped(after.results, g) {
      SweepLeavesRows(t, groups, says, g.key);
    }
    SkippedAllRound(after, groups, says');
  }

  // ---------------------------------------------------------------------
  // From a crash to the rows

  /** What a crash in state s left behind of a judge case: its persisted answers, and the votes recorded by then. */
  ghost predicate LeftBehind(b: Batch, s: Sys, g: Group, answered: seq<bool>, votes: seq<VoteRow>, says: Says) {
    var chosen := Latest(g.answers);
    && Asks(b, g.key, answered, g.judges) && Persisted(answered, chosen) && NoneMissing(answered, chosen, g.judges)
    && forall i, slot: nat | 0 <= i < |chosen| && slot < g.judges ::
         var v := VoteKey(SampleKey(g.key, chosen[i].no), slot);
         && Stored(votes, chosen[i].id, slot) == (if v in s.db.ballots then Some(s.db.ballots[v]) else None)
         && (v !in s.db.ballots ==> Saying(says, chosen[i].id, slot) == Verdict(b, v))
  }

  /** A crash at any step of any run: the case recovered from what is left gets the score the live run would have written. */
  lemma CrashThenRecover(b: Batch, trace: seq<Sys>, actions: seq<Action>, i: nat, g: Group, answered: seq<bool>, votes: seq<VoteRow>, says: Says)
    requires ValidBatch(b) && IsRun(b, trace, actions) && i < |trace|
    requires LeftBehind(b, trace[i], g, answered, votes, says)
    ensures RecoveredScore(votes, Latest(g.answers), g.judges, says) == Score(b, g.key)
  {
    hide ValidBatch, IsRun, Latest, Stored, Saying, RecoveredScore, Score, Asks, Persisted, NoneMissing;
    var chosen := Latest(g.answers);
    forall k, slot: nat | 0 <= k < |chosen| && chosen[k].answered && slot < g.judges
      ensures SlotVote(votes, chosen[k].id, slot, says) == Verdict(b, VoteKey(SampleKey(g.key, chosen[k].no), slot))
    {
      StoredVotesAreVerdicts(b, trace, actions, i, VoteKey(SampleKey(g.key, chosen[k].no), slot));
    }
    RecoveryAgrees(b, g.key, answered, g.judges, chosen, votes, says);
  }

  /** Answer ids are unique, and each case has one group. */
  predicate Separate(groups: seq<Group>) {
    && (forall i, j | 0 <= i < j < |groups| :: groups[i].key != groups[j].key)
    && (forall i, j, x, y | 0 <= i < |groups| && 0 <= j < |groups| && 0 <= x < |groups[i].answers| && 0 <= y < |groups[j].answers| && (i != j || x != y) ::
          groups[i].answers[x].id != groups[j].answers[y].id)
  }

  lemma SeparateFront(groups: seq<Group>)
    requires Separate(groups) && groups != []
    ensures Separate(groups[..|groups| - 1])
  {
  }

  lemma LatestDistinct(groups: seq<Group>, i: nat)
    requires Separate(groups) && i < |groups|
    ensures DistinctIds(Latest(groups[i].answers))
  {
    var answers := groups[i].answers;
    var chosen := Latest(answers);
    OrderSpec(answers);
    forall p, q | 0 <= p < q < |chosen| ensures chosen[p].id != chosen[q].id {
      var x :| 0 <= x < |answers| && answers[x] == chosen[p];
      var y :| 0 <= y < |answers| && answers[y] == chosen[q];
    }
  }

  /** Recovering the groups before leaves the votes on a later group's answers alone. */
  lemma {:induction false} SweepSparesVotes(t: Tables, groups: seq<Group>, says: Says, id: int, slot: nat)
    requires Separate(groups)
    requires forall i, x | 0 <= i < |groups| && 0 <= x < |groups[i].answers| :: groups[i].answers[x].id != id
    ensures Stored(Sweep(t, groups, says).votes, id, slot) == Stored(t.votes, id, slot)
  {
    hide Stored, Rescue, Latest, CaseScore;
    if groups != [] {
      var n := |groups| - 1;
      SeparateFront(groups);
      SweepSparesVotes(t, groups[..n], says, id, slot);
      LatestDistinct(groups, n);
      var before, chosen := Sweep(t, groups[..n], says), Latest(groups[n].answers);
      RescueStores(before.votes, chosen, groups[n].judges, says, Fresh(|chosen|), id, slot);
      if a :| a in chosen && a.id == id {
        LatestAreAnswers(groups[n].answers, a);
      }
    }
  }

  lemma LatestAreAnswers(answers: seq<Answer>, a: Answer)
    requires a in Latest(answers)
    ensures exists x :: 0 <= x < |answers| && answers[x] == a
  {
  }

  lemma {:induction false} SweepSparesRows(t: Tables, groups: seq<Group>, says: Says, key: CaseKey)
    requires forall i | 0 <= i < |groups| :: groups[i].key != key
    ensures RowsIn(Sweep(t, groups, says).results, key) == RowsIn(t.results, key)
  {
    hide Rescue, Latest, CaseScore;
    if groups != [] {
      SweepSparesRows(t, groups[..|groups| - 1], says, key);
    }
  }

  /** After a crash at any step and one sweep, every judge case that had no row and of which enough was left has the row the live run would have written. */
  lemma {:induction false} CrashThenSweep(b: Batch, trace: seq<Sys>, actions: seq<Action>, i: nat,
      t: Tables, groups: seq<Group>, says: Says, k: nat, answered: seq<bool>)
    requires ValidBatch(b) && IsRun(b, trace, actions) && i < |trace|
    requires Separate(groups) && k < |groups| && groups[k].byJudges && groups[k].answers != []
    requires RowsIn(t.results, groups[k].key) == [] && LeftBehind(b, trace[i], groups[k], answered, t.votes, says)
    ensures RowsIn(Sweep(t, groups, says).results, groups[k].key) == [Score(b, groups[k].key)]
    decreases |groups|
  {
    hide ValidBatch, IsRun, Latest, Stored, Saying, Score, Asks, Persisted, NoneMissing, Rescue, LeftBehind, Sweep;
    var n, g := |groups| - 1, groups[k];
    var front := groups[..n];
    SeparateFront(groups);
    SweepLast(t, groups, says);
    if k < n {
      CrashThenSweep(b, trace, actions, i, t, front, says, k, answered);
    } else {
      SweepSparesRows(t, front, says, g.key);
      var before := Sweep(t, front, says);
      SweepSparesLeft(b, trace[i], t, groups, says, answered);
      CrashThenRecover(b, trace, actions, i, g, answered, before.votes, says);
    }
  }

  lemma SweepLast(t: Tables, groups: seq<Group>, says: Says)
    requires groups != []
    ensures Sweep(t, groups, says) == Recovered(Sweep(t, groups[..|groups| - 1], says), groups[|groups| - 1], says)
  {
    hide Recovered;
  }

  lemma SweepSparesLeft(b: Batch, s: Sys, t: Tables, groups: seq<Group>, says: Says, answered: seq<bool>)
    requires Separate(groups) && groups != [] && LeftBehind(b, s, groups[|groups| - 1], answered, t.votes, says)
    ensures LeftBehind(b, s, groups[|groups| - 1], answered, Sweep(t, groups[..|groups| - 1], says).votes, says)
  {
    hide Stored, Saying, Asks, Persisted, NoneMissing, Sweep;
    var n := |groups| - 1;
    var g, front := groups[n], groups[..n];
    var chosen := Latest(g.answers);
    SeparateFront(groups);
    forall p, slot: nat | 0 <= p < |chosen| && slot < g.judges
      ensures Stored(Sweep(t, front, says).votes, chosen[p].id, slot) == Stored(t.votes, chosen[p].id, slot)
    {
      LatestAreAnswers(g.answers, chosen[p]);
      SweepSparesVotes(t, front, says, chosen[p].id, slot);
    }
  }
}
