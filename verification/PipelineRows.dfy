/**
 The rows a finished run leaves behind, as a function of the answers and the
 votes alone: which cases the circuit breaker refuses, and what every other case
 scores.
 */
module PipelineRows {
  import opened Wrappers
  import opened Median
  import opened PipelineBook
  import opened PipelineMachine
  import opened PipelineInvariant
  import opened PipelineSafety
  import opened PipelineTheorems
  import opened PipelineScores
  import opened PipelineProgress
  import opened PipelineCircuit

  /** A cell that opens no further case. */
  predicate Left(pc: CellPc) {
    pc.FailRest? || pc.Count? || pc.Mark? || pc.Stamp? || pc.Returned?
  }

  predicate Opened(s: Sys, c: Cell, at: nat) {
    CaseAt(s, CaseKey(c, at)) != Unopened
  }

  /** A retry stops opening cases once it is cancelled; a fresh batch does not. */
  predicate OpensOn(b: Batch, s: Sys) {
    !b.retry || !s.control.cancelled
  }

  /** A cell that is through with its cases has opened exactly those before the circuit opened, which in a retry are all. */
  ghost predicate OpenedDue(b: Batch, s: Sys, c: Cell) {
    OpensOn(b, s) && c in b.cells && Left(CellAt(s, c)) ==>
      forall at: nat | at < Cases(b, c) :: Opened(s, c, at) <==> SetupOf(b, c).Ready? && Reaches(b, c, at)
  }

  // ---------------------------------------------------------------------
  // Only opening a case opens it

  lemma CellStepOpens(b: Batch, s: Sys, a: Action, ck: CaseKey)
    requires (a.OpenNext? || a.SettleOne? || a.WriteOne?) && Enabled(b, s, a) && CaseOk(b, s, ck) && TokenOk(b, s, ByCell(a.c))
    requires a.OpenNext? ==> a.c != ck.cell || CellAt(s, a.c).next != ck.at || CellAt(s, a.c).next >= Cases(b, a.c)
    ensures (CaseAt(Step(b, s, a), ck) != Unopened) == (CaseAt(s, ck) != Unopened)
  {
    hide OpenCase, CaseScore, SettleSample, After, NonNull, SampleMedian, Tally, FullAggregate, RowsDue;
  }

  lemma PlainStepOpens(b: Batch, s: Sys, a: Action)
    requires OfCell(a) && !a.OpenNext? && !a.SettleOne? && !a.WriteOne? && Enabled(b, s, a)
    ensures Step(b, s, a).past.cases == s.past.cases
  {
    hide Register, MarkCellsDone, After, Judges, AllOwed;
  }

  lemma OtherStepOpens(b: Batch, s: Sys, a: Action, ck: CaseKey)
    requires !OfCell(a) && Enabled(b, s, a) && CaseOk(b, s, ck)
    requires forall v: VoteKey | v.sample.of == ck :: TokenOk(b, s, ByVote(v))
    ensures (CaseAt(Step(b, s, a), ck) != Unopened) == (CaseAt(s, ck) != Unopened)
  {
    hide LandVote, DecrementPending, CaseScore, OpenStep, AskStep, SettleStep, EnlistStep, OfferStep, FailStep, CountStep, MarkStep, After, TakeStep, Tally, FullAggregate, RowsDue;
    if a.WriteVote? && a.v.sample.of == ck { assert TokenOk(b, s, ByVote(a.v)); }
  }

  lemma SameCase(s: Sys, s': Sys, ck: CaseKey)
    requires s'.past.cases == s.past.cases
    ensures CaseAt(s', ck) == CaseAt(s, ck)
  {
  }

  lemma StaysOpen(b: Batch, s: Sys, a: Action, c: Cell)
    requires Inv(b, s) && Enabled(b, s, a)
    requires a != OpenNext(c) || CellAt(s, c).next >= Cases(b, c)
    ensures forall at: nat | at < Cases(b, c) :: Opened(Step(b, s, a), c, at) == Opened(s, c, at)
  {
    hide Enabled, Step, CaseOk, TokenOk, CaseAt;
    forall at: nat | at < Cases(b, c) ensures Opened(Step(b, s, a), c, at) == Opened(s, c, at) {
      assert CaseOk(b, s, CaseKey(c, at));
      if OfCell(a) && !a.OpenNext? && !a.SettleOne? && !a.WriteOne? {
        PlainStepOpens(b, s, a);
        SameCase(s, Step(b, s, a), CaseKey(c, at));
      } else if OfCell(a) {
        assert TokenOk(b, s, ByCell(a.c));
        CellStepOpens(b, s, a, CaseKey(c, at));
      } else {
        OtherStepOpens(b, s, a, CaseKey(c, at));
      }
    }
  }

  // ---------------------------------------------------------------------
  // What is open when a cell leaves its cases

  /** A cell leaves its cases when it cannot start, when there is none left, or when the circuit opens behind one. */
  predicate Leaving(b: Batch, c: Cell, pc: CellPc) {
    || (pc.Start? && !SetupOf(b, c).Ready?)
    || (pc.Next? && pc.next >= Cases(b, c))
    || (InCase(pc) && !pc.Ask? && !pc.Enlist? && After(b, c, pc.pos).FailRest?)
  }

  lemma HowItLeaves(b: Batch, s: Sys, a: Action)
    requires OfCell(a) && Enabled(b, s, a) && OpensOn(b, s) && a.c in b.cells
    requires !Left(CellAt(s, a.c)) && Left(CellAt(Step(b, s, a), a.c))
    ensures Leaving(b, a.c, CellAt(s, a.c))
  {
    hide OpenCase, Register, MarkCellsDone, CaseScore, SettleSample, Judges, NonNull, AllOwed, LandStep, SettleJobStep, DropStep, SettleBy, SetRows, SetBook, WriteRow;
  }

  /** By then the cell has opened exactly the cases before the circuit opened. */
  lemma LeavesDue(b: Batch, s: Sys, c: Cell)
    requires c in b.cells && Leaving(b, c, CellAt(s, c))
    requires CellOk(b, s, c) && (forall at: nat :: GridOk(b, s, CaseKey(c, at))) && CircuitOk(b, c, CellAt(s, c))
    ensures forall at: nat | at < Cases(b, c) :: Opened(s, c, at) <==> SetupOf(b, c).Ready? && Reaches(b, c, at)
  {
    hide AnsweredBy, CircuitOk;
    var pc := CellAt(s, c);
    forall at: nat | at < Cases(b, c) ensures Opened(s, c, at) <==> SetupOf(b, c).Ready? && Reaches(b, c, at) {
      assert GridOk(b, s, CaseKey(c, at));
      LeavesAt(b, s, c, at);
    }
  }

  lemma LeavesAt(b: Batch, s: Sys, c: Cell, at: nat)
    requires c in b.cells && Leaving(b, c, CellAt(s, c)) && at < Cases(b, c)
    requires CellOk(b, s, c) && GridOk(b, s, CaseKey(c, at)) && CircuitOk(b, c, CellAt(s, c))
    ensures Opened(s, c, at) <==> SetupOf(b, c).Ready? && Reaches(b, c, at)
  {
    hide AnsweredBy, Streak;
    var pc := CellAt(s, c);
    if pc.Next? {
      assert Reaches(b, c, pc.next);
    } else if InCase(pc) {
      AfterCircuit(b, c, pc.pos);
      StreakBehind(b, c, pc.pos);
    }
  }

  /** Behind a case that opens the circuit the streak has reached the threshold. */
  lemma StreakBehind(b: Batch, c: Cell, p: Pos)
    requires PosOk(b, c, p, p.no + 1) && After(b, c, p).FailRest? && p.no < Samples(b, CaseKey(c, p.at))
    ensures Reaches(b, c, p.at) && p.at + 1 < Cases(b, c) && Streak(b, c, p.at + 1) >= CIRCUIT_BREAKER
  {
    hide AnsweredBy;
  }

  lemma {:induction false} OpenedHolds(b: Batch, trace: seq<Sys>, actions: seq<Action>, i: nat, c: Cell)
    requires ValidBatch(b) && IsRun(b, trace, actions) && i < |trace|
    ensures OpenedDue(b, trace[i], c)
  {
    hide ValidBatch, CircuitOk, Enabled, Step, Inv, OpenedDue;
    if i == 0 {
      NothingLeft(b, trace[0], c);
    } else {
      var s, a := trace[i - 1], actions[i - 1];
      OpenedHolds(b, trace, actions, i - 1, c);
      RunHolds(b, trace, actions, i - 1);
      CircuitHolds(b, trace, actions, i - 1, c);
      OpenedStep(b, s, a, c);
    }
  }

  lemma NothingLeft(b: Batch, s: Sys, c: Cell)
    requires Init(b, s)
    ensures OpenedDue(b, s, c)
  {
  }

  lemma OpenedStep(b: Batch, s: Sys, a: Action, c: Cell)
    requires Inv(b, s) && ValidBatch(b) && Enabled(b, s, a) && OpenedDue(b, s, c) && CircuitOk(b, c, CellAt(s, c))
    ensures OpenedDue(b, Step(b, s, a), c)
  {
    hide Enabled, Step, CircuitOk, CellAt, Reaches;
    hide CellOk, GridOk, Leaving, Opened;
    CancelStays(b, s, a);
    if OpensOn(b, Step(b, s, a)) && c in b.cells && Left(CellAt(Step(b, s, a), c)) {
      if Left(CellAt(s, c)) {
        NoOpening(b, s, a, c);
        StaysOpen(b, s, a, c);
      } else if OfCell(a) && a.c == c {
        assert CellOk(b, s, c);
        HowItLeaves(b, s, a);
        NoOpening(b, s, a, c);
        StaysOpen(b, s, a, c);
        LeavesDue(b, s, c);
      } else {
        OthersStay(b, s, a, c);
      }
    }
  }

  lemma CancelStays(b: Batch, s: Sys, a: Action)
    requires Enabled(b, s, a)
    ensures s.control.cancelled ==> Step(b, s, a).control.cancelled
  {
    hide OpenCase, Register, MarkCellsDone, CaseScore, After, Judges, NonNull, AllOwed, SettleSample, LandVote, DecrementPending;
  }

  lemma NoOpening(b: Batch, s: Sys, a: Action, c: Cell)
    requires Enabled(b, s, a) && (Left(CellAt(s, c)) || Leaving(b, c, CellAt(s, c)))
    ensures a != OpenNext(c) || CellAt(s, c).next >= Cases(b, c)
  {
  }

  // ---------------------------------------------------------------------
  // The rows, from the answers and the votes alone

  /** Every call of the case failed. */
  ghost predicate Unanswered(b: Batch, ck: CaseKey) {
    forall no: nat | no < Samples(b, ck) :: OutcomeOf(b, SampleKey(ck, no)) == Failed
  }

  /** The count cases right before n went unanswered. */
  ghost predicate FailedInARow(b: Batch, c: Cell, n: nat, count: nat) {
    n >= count && forall m: nat | n - count <= m < n :: Unanswered(b, CaseKey(c, m))
  }

  /** Somewhere before case at five cases in a row went unanswered. */
  ghost predicate CircuitOpens(b: Batch, c: Cell, at: nat) {
    exists n: nat :: n <= at && FailedInARow(b, c, n, 5)
  }

  lemma {:induction false} StreakReaches(b: Batch, c: Cell, n: nat, count: nat)
    ensures Streak(b, c, n) >= count <==> FailedInARow(b, c, n, count)
    decreases count
  {
    hide AnsweredBy, Unanswered;
    if count > 0 && n > 0 {
      StreakReaches(b, c, n - 1, count - 1);
      AnsweredOrNot(b, CaseKey(c, n - 1));
    }
  }

  lemma AnsweredOrNot(b: Batch, ck: CaseKey)
    ensures AnsweredBy(b, ck, Samples(b, ck)) <==> !Unanswered(b, ck)
  {
  }

  lemma ReachesExactly(b: Batch, c: Cell, at: nat)
    requires !b.retry && at < Cases(b, c)
    ensures Reaches(b, c, at) <==> !CircuitOpens(b, c, at)
  {
    hide FailedInARow, Streak;
    forall n: nat | n <= at ensures Streak(b, c, n) >= 5 <==> FailedInARow(b, c, n, 5) { StreakReaches(b, c, n, 5); }
    NoStreakAtFirst(b, c);
  }

  lemma NoStreakAtFirst(b: Batch, c: Cell)
    ensures !FailedInARow(b, c, 0, 5)
  {
  }

  /**
   A fresh batch's done run, whatever the order of events: a skipped model's cases have no row, those of a model
   that cannot be asked a null row, a case behind five unanswered ones in a row a null row, and every other case
   the mean of what its samples are worth.
   */
  lemma FinishedRow(b: Batch, trace: seq<Sys>, actions: seq<Action>, i: nat, ck: CaseKey, xs: seq<Option<real>>)
    requires ValidBatch(b) && IsRun(b, trace, actions) && i < |trace| && !b.retry && InGrid(b, ck)
    requires DoneStamp in Stamps(trace[i], ck.cell.run) && Worth(b, ck, xs)
    ensures Rows(trace[i], ck) ==
      match SetupOf(b, ck.cell)
      case Skip => []
      case FailAll => [None]
      case Ready => [if CircuitOpens(b, ck.cell, ck.at) then None else Mean(Cast(xs))]
  {
    hide IsRun, RunOk, SampleOk, GridOk, CellOk, JobOk, TokenOk, PoolOk, FullAggregate, Tally, Worth, Cast, Mean, Reaches, CircuitOpens, Score;
    var s := trace[i];
    RunHolds(b, trace, actions, i);
    DoneIsComplete(b, trace, actions, i, ck.cell.run);
    OpenedHolds(b, trace, actions, i, ck.cell);
    assert Counted(CellAt(s, ck.cell)) && CaseOk(b, s, ck);
    assert Opened(s, ck.cell, ck.at) <==> SetupOf(b, ck.cell).Ready? && Reaches(b, ck.cell, ck.at);
    ReachesExactly(b, ck.cell, ck.at);
    ScoreFromWorth(b, ck, xs);
    if !SetupOf(b, ck.cell).Skip? {
      DoneGridIsComplete(b, trace, actions, i, ck);
    }
  }

  /**
   A retry's done run: cases of a model that cannot be asked keep their row; every other case has the mean of what
   its samples are worth now, or, only when the retry was cancelled, still the row from before.
   */
  lemma RetriedRow(b: Batch, trace: seq<Sys>, actions: seq<Action>, i: nat, ck: CaseKey, xs: seq<Option<real>>)
    requires ValidBatch(b) && IsRun(b, trace, actions) && i < |trace| && b.retry && InGrid(b, ck)
    requires DoneStamp in Stamps(trace[i], ck.cell.run) && Worth(b, ck, xs)
    ensures var rows, before := Rows(trace[i], ck), RowsIn(b.rowsBefore, ck);
      if !trace[i].control.cancelled then rows == (if SetupOf(b, ck.cell).Ready? then [Mean(Cast(xs))] else before)
      else rows == before || rows == [Mean(Cast(xs))]
  {
    hide IsRun, RunOk, SampleOk, GridOk, CellOk, JobOk, TokenOk, PoolOk, FullAggregate, Tally, Worth, Cast, Mean, Score, Reaches;
    var s := trace[i];
    RunHolds(b, trace, actions, i);
    DoneIsComplete(b, trace, actions, i, ck.cell.run);
    OpenedHolds(b, trace, actions, i, ck.cell);
    assert Counted(CellAt(s, ck.cell)) && CaseOk(b, s, ck);
    assert Opened(s, ck.cell, ck.at) <==> CaseAt(s, ck) != Unopened;
    RetryReaches(b, ck.cell, ck.at);
    ScoreFromWorth(b, ck, xs);
  }

  lemma RetryReaches(b: Batch, c: Cell, at: nat)
    requires b.retry
    ensures Reaches(b, c, at)
  {
  }
}
