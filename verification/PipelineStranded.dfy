/**
 The smallest batch that gets stuck. Its judge leaves on the spent time budget
 while the one exam worker waits in an offer and the feed is closed, so nobody
 is left to cancel: only an operator's cancel frees the batch.
 */
module PipelineStranded {
  import opened Wrappers
  import opened PipelineBook
  import opened PipelineMachine
  import opened PipelineProgress

  const C := Cell(1, 1)
  const CK := CaseKey(C, 0)
  const K := SampleKey(CK, 0)
  const V := VoteKey(K, 0)
  const P := Pos(0, 0, false, 0)
  const P' := Pos(0, 0, true, 0)

  /** One run, one model, one case with one sample for one judge; one worker in each pool. */
  const SMALL := Batch(false, true, {1}, {C}, map[C := 1], map[], map[], map[K := Answered(1)], map[], 1, 1, map[])

  function At(pc: CellPc, book: Book, jobs: map<VoteKey, JobPc>, phase: Phase, exam: Crew, judge: Crew, past: History): Sys {
    Sys(book, Threads(map[C := pc], jobs, map[1 := 1]), Control(phase, false, false, exam, judge), Database(map[], map[], map[]), past)
  }

  const NONE_PAST := History(map[], map[], map[])
  const OPEN_PAST := History(map[], map[CK := Open], map[])
  const POLLING_PAST := History(map[K := Polling], map[CK := Open], map[])
  const OPEN_BOOK := Book(map[CK := Aggregate(1, 0, 0.0, 0)], map[], map[], {}, {})
  const POLLING_BOOK := Book(map[CK := Aggregate(1, 0, 0.0, 0)], map[K := Ballot(1, 0, [None])], map[1 := 1], {}, {})

  const BEFORE := Crew(1, 0)
  const BUSY := Crew(0, 0)
  const GONE := Crew(0, 1)
  const OPEN_ROWS := Database(map[CK := []], map[], map[])

  const S0 := At(Waiting, EMPTY_BOOK, map[], Feeding, BEFORE, BEFORE, NONE_PAST)
  const S1 := At(Start, EMPTY_BOOK, map[], Feeding, BUSY, BEFORE, NONE_PAST)
  const S2 := At(Next(0, 0), EMPTY_BOOK, map[], Feeding, BUSY, BEFORE, NONE_PAST)
  const S3 := At(Ask(P), OPEN_BOOK, map[], Feeding, BUSY, BEFORE, OPEN_PAST).(db := OPEN_ROWS)
  const S4 := At(Enlist(P'), OPEN_BOOK, map[], Feeding, BUSY, BEFORE, OPEN_PAST).(db := OPEN_ROWS)
  const S5 := At(Offer(P', 0), POLLING_BOOK, map[V := Owed], Feeding, BUSY, BEFORE, POLLING_PAST).(db := OPEN_ROWS)
  const S6 := At(Offer(P', 0), POLLING_BOOK, map[V := Owed], Fed, BUSY, BEFORE, POLLING_PAST).(db := OPEN_ROWS)
  const S7 := At(Offer(P', 0), POLLING_BOOK, map[V := Owed], Fed, BUSY, GONE, POLLING_PAST).(db := OPEN_ROWS)

  const TRACE := [S0, S1, S2, S3, S4, S5, S6, S7]
  const ACTIONS := [Take(C), Begin(C), OpenNext(C), AskOne(C), EnlistOne(C), CloseFeed, JudgeLeaves]

  lemma StartsRight()
    ensures ValidBatch(SMALL) && Init(SMALL, S0)
  {
    assert CellsOf(SMALL, 1) == {C};
    var empty := set r | r in SMALL.runs && CellsOf(SMALL, r) == {};
    assert empty == {};
  }

  lemma FirstSteps()
    ensures Enabled(SMALL, S0, Take(C)) && Step(SMALL, S0, Take(C)) == S1
    ensures Enabled(SMALL, S1, Begin(C)) && Step(SMALL, S1, Begin(C)) == S2
  {
    hide OpenStep, AskStep, SettleStep, EnlistStep, OfferStep, FailStep, CountStep, MarkStep, LandStep, SettleJobStep, DropStep;
  }

  lemma OpenAndAsk()
    ensures Enabled(SMALL, S2, OpenNext(C)) && Step(SMALL, S2, OpenNext(C)) == S3
    ensures Enabled(SMALL, S3, AskOne(C)) && Step(SMALL, S3, AskOne(C)) == S4
  {
    hide SettleStep, EnlistStep, OfferStep, FailStep, CountStep, MarkStep, LandStep, SettleJobStep, DropStep;
  }

  lemma EnlistVotes()
    ensures Enabled(SMALL, S4, EnlistOne(C)) && Step(SMALL, S4, EnlistOne(C)) == S5
  {
    hide OpenStep, AskStep, SettleStep, OfferStep, FailStep, CountStep, MarkStep, LandStep, SettleJobStep, DropStep;
    assert SlotKeys(K, 1) == {V};
    assert AllOwed(K, 1) == map[V := Owed];
    assert Judges(SMALL, K) == 1;
    var none: map<VoteKey, JobPc> := map[];
    assert none + map[V := Owed] == map[V := Owed];
    assert Register(OPEN_BOOK, K, 1).votes[K].scores == [None];
    assert Register(OPEN_BOOK, K, 1) == POLLING_BOOK;
    assert EnlistStep(SMALL, S4, C, P') == S5;
  }

  lemma CloseAndLeave()
    ensures Enabled(SMALL, S5, CloseFeed) && Step(SMALL, S5, CloseFeed) == S6
    ensures Enabled(SMALL, S6, JudgeLeaves) && Step(SMALL, S6, JudgeLeaves) == S7
  {
    hide OpenStep, AskStep, SettleStep, EnlistStep, OfferStep, FailStep, CountStep, MarkStep, LandStep, SettleJobStep, DropStep;
  }

  /** The run below ends in a state where the driver is not through and only a cancel is possible. */
  lemma FreshBatchStrands()
    ensures ValidBatch(SMALL) && IsRun(SMALL, TRACE, ACTIONS)
    ensures Stranded(SMALL, TRACE[7]) && !TRACE[7].control.phase.Over?
    ensures forall a | Enabled(SMALL, TRACE[7], a) :: a == Cancel
  {
    StartsRight();
    FirstSteps();
    OpenAndAsk();
    EnlistVotes();
    CloseAndLeave();
    OnlyCancel();
    hide Step, Enabled, ValidBatch, Init;
    forall i | 0 <= i < |ACTIONS| ensures Enabled(SMALL, TRACE[i], ACTIONS[i]) && TRACE[i + 1] == Step(SMALL, TRACE[i], ACTIONS[i]) {
      if i == 0 {} else if i == 1 {} else if i == 2 {} else if i == 3 {} else if i == 4 {} else if i == 5 {} else {}
    }
  }

  lemma Places()
    ensures forall c :: CellAt(S7, c) == if c == C then Offer(P', 0) else Returned
    ensures forall v :: JobAt(S7, v) == if v == V then Owed else Unlisted
  {
  }

  lemma OnlyCancel()
    ensures Stranded(SMALL, S7)
    ensures forall a | Enabled(SMALL, S7, a) :: a == Cancel
  {
    hide CellAt, JobAt;
    Places();
    assert S7.control == Control(Fed, false, false, BUSY, GONE);
    assert C in SMALL.cells && CellAt(S7, C).Offer?;
    forall a | Enabled(SMALL, S7, a) ensures a == Cancel {
      OnlyCancelIn(S7, a);
    }
  }

  lemma OnlyCancelIn(s: Sys, a: Action)
    requires s.control == Control(Fed, false, false, BUSY, GONE) && Enabled(SMALL, s, a)
    requires forall c :: CellAt(s, c) == if c == C then Offer(P', 0) else Returned
    requires forall v :: JobAt(s, v) == if v == V then Owed else Unlisted
    ensures a == Cancel
  {
    hide CellAt, JobAt;
  }
}
