/**
 What a batch promises: one terminal stamp per run, "done" only when everything
 is accounted for, and scores that no interleaving can change.
 */
module PipelineTheorems {
  import opened Wrappers
  import opened Median
  import opened PipelineBook
  import opened PipelineMachine
  import opened PipelineInvariant
  import opened PipelineFrame
  import opened PipelineKeeps
  import opened PipelineRuns
  import opened PipelineSafety

  // ---------------------------------------------------------------------
  // No crash, one stamp

  /** No interleaving sends on the closed vote channel or folds into a missing aggregate. */
  lemma NeverCrashes(b: Batch, trace: seq<Sys>, actions: seq<Action>, i: nat)
    requires ValidBatch(b) && IsRun(b, trace, actions) && i < |trace|
    ensures !trace[i].control.crashed
  {
    hide ValidBatch, IsRun, AllTokens, AllSamples, AllJobs, AllCases, AllCells, AllGrid, AllRuns;
    RunHolds(b, trace, actions, i);
  }

  /** At any moment a run has at most one stamp; when the driver is through it has exactly one. */
  lemma OneStamp(b: Batch, trace: seq<Sys>, actions: seq<Action>, i: nat, r: int)
    requires ValidBatch(b) && IsRun(b, trace, actions) && i < |trace| && r in b.runs
    ensures |Stamps(trace[i], r)| <= 1
    ensures trace[i].control.phase.Over? ==> Stamps(trace[i], r) == [DoneStamp] || Stamps(trace[i], r) == [FailedStamp]
  {
    hide ValidBatch, IsRun, AllTokens, AllSamples, AllJobs, AllCases, AllCells, AllGrid, OpenVotes, Uncounted, DutyOf;
    var s := trace[i];
    RunHolds(b, trace, actions, i);
    assert RunOk(b, s, r);
    if s.control.phase.Over? && RunAt(s, r).Finishing? {
      OverIsQuiet(b, s, RunAt(s, r).who);
    }
  }

  /** When the driver is through nobody carries anything. */
  lemma OverIsQuiet(b: Batch, s: Sys, t: Token)
    requires PoolOk(b, s) && AllCells(b, s) && s.control.phase.Over?
    ensures DutyOf(s, t) == Free
  {
    hide CellOk;
    assert |BusyCells(b, s.threads.cells)| == 0 && |BusyJobs(s.threads.jobs)| == 0;
    match t
    case ByCell(c) =>
      assert c !in BusyCells(b, s.threads.cells);
      assert CellOk(b, s, c);
      CellInBatch(b, s, c);
    case ByVote(v) =>
      assert v !in BusyJobs(s.threads.jobs);
  }

  lemma CellInBatch(b: Batch, s: Sys, c: Cell)
    requires CellOk(b, s, c)
    ensures c !in b.cells ==> CellAt(s, c).Returned?
  {
  }

  // ---------------------------------------------------------------------
  // What "done" means

  /** The result row of an asked case: the mean of its sample medians, whatever the order of events. */
  function Score(b: Batch, ck: CaseKey): Option<real> {
    CaseScore(FullAggregate(b, ck))
  }

  /**
   A run is stamped done only after all its cells returned and all its votes were counted off;
   by then every case it opened has exactly one row, and that row is the case's score.
   */
  lemma DoneIsComplete(b: Batch, trace: seq<Sys>, actions: seq<Action>, i: nat, r: int)
    requires ValidBatch(b) && IsRun(b, trace, actions) && i < |trace| && r in b.runs
    requires DoneStamp in Stamps(trace[i], r)
    ensures forall c | c in b.cells && c.run == r :: Counted(CellAt(trace[i], c))
    ensures forall v: VoteKey | v.sample.of.cell.run == r :: JobAt(trace[i], v) in {Unlisted, Stamping, Done}
    ensures forall ck: CaseKey | ck.cell.run == r && CaseAt(trace[i], ck) != Unopened ::
      CaseAt(trace[i], ck).Written? && Rows(trace[i], ck) == [Score(b, ck)]
  {
    hide ValidBatch, IsRun, RunOk, CaseOk, SampleOk, GridOk, CellOk, JobOk, TokenOk, PoolOk, OpenVotes, Uncounted;
    var s := trace[i];
    RunHolds(b, trace, actions, i);
    assert RunOk(b, s, r);
    DoneIsFinished(b, s, r);
    forall c | c in b.cells && c.run == r ensures Counted(CellAt(s, c)) { FinishedCell(b, s, r, c); }
    forall v: VoteKey | v.sample.of.cell.run == r ensures JobAt(s, v) in {Unlisted, Stamping, Done} { FinishedVote(b, s, r, v); }
    forall ck: CaseKey | ck.cell.run == r && CaseAt(s, ck) != Unopened ensures CaseAt(s, ck).Written? && Rows(s, ck) == [Score(b, ck)] {
      FinishedCase(b, s, r, ck);
    }
  }

  lemma DoneIsFinished(b: Batch, s: Sys, r: int)
    requires RunOk(b, s, r) && r in b.runs && DoneStamp in Stamps(s, r)
    ensures r in s.book.finished && Uncounted(b, s.threads.cells, r) == {} && OpenVotes(s.threads.jobs, r) == {}
  {
    hide OpenVotes, Uncounted, DutyOf;
  }

  lemma FinishedCell(b: Batch, s: Sys, r: int, c: Cell)
    requires Uncounted(b, s.threads.cells, r) == {} && c in b.cells && c.run == r
    ensures Counted(CellAt(s, c))
  {
    assert c !in Uncounted(b, s.threads.cells, r);
  }

  lemma FinishedVote(b: Batch, s: Sys, r: int, v: VoteKey)
    requires OpenVotes(s.threads.jobs, r) == {} && v.sample.of.cell.run == r
    ensures JobAt(s, v) in {Unlisted, Stamping, Done}
  {
    assert v !in OpenVotes(s.threads.jobs, r);
  }

  lemma FinishedCase(b: Batch, s: Sys, r: int, ck: CaseKey)
    requires Inv(b, s) && ck.cell.run == r && CaseAt(s, ck) != Unopened
    requires Uncounted(b, s.threads.cells, r) == {} && OpenVotes(s.threads.jobs, r) == {}
    ensures CaseAt(s, ck).Written? && Rows(s, ck) == [Score(b, ck)]
  {
    hide RunOk, SampleOk, GridOk, CellOk, JobOk, TokenOk, PoolOk, OpenVotes, Uncounted, Tally, FullAggregate, DutyOf;
    assert CaseOk(b, s, ck);
    FinishedCell(b, s, r, ck.cell);
    NoWriterLeft(b, s, r, ck);
    AllSettled(b, s, r, ck);
    TallyFull(b, s.past.samples, ck, Samples(b, ck));
  }

  /** A finished run has no row still in anybody's hands. */
  lemma NoWriterLeft(b: Batch, s: Sys, r: int, ck: CaseKey)
    requires CaseOk(b, s, ck) && ck.cell.run == r && Counted(CellAt(s, ck.cell)) && OpenVotes(s.threads.jobs, r) == {}
    ensures !CaseAt(s, ck).Closing?
  {
    hide Tally, FullAggregate, Uncounted, OpenVotes;
    if CaseAt(s, ck).Closing? && CaseAt(s, ck).who.ByVote? {
      FinishedVote(b, s, r, CaseAt(s, ck).who.vote);
    }
  }

  /** Every sample of an opened case of a finished run has settled. */
  lemma AllSettled(b: Batch, s: Sys, r: int, ck: CaseKey)
    requires Inv(b, s) && CaseAt(s, ck) != Unopened && InGrid(b, ck) && ck.cell.run == r
    requires Counted(CellAt(s, ck.cell)) && OpenVotes(s.threads.jobs, r) == {}
    ensures forall no: nat | no < Samples(b, ck) :: SampleIn(s.past.samples, SampleKey(ck, no)).Settled?
  {
    hide RunOk, SampleOk, GridOk, CellOk, JobOk, TokenOk, PoolOk, OpenVotes, Uncounted, Tally, FullAggregate, DutyOf, RowsDue;
    assert GridOk(b, s, ck);
    forall no: nat | no < Samples(b, ck) ensures SampleIn(s.past.samples, SampleKey(ck, no)).Settled? {
      assert SampleOk(b, s, SampleKey(ck, no));
      AskedWhenCounted(b, s, ck, no);
      SettledWhenFinished(b, s, r, SampleKey(ck, no));
    }
  }

  lemma AskedWhenCounted(b: Batch, s: Sys, ck: CaseKey, no: nat)
    requires GridOk(b, s, ck) && InGrid(b, ck) && no < Samples(b, ck) && Counted(CellAt(s, ck.cell)) && CaseAt(s, ck) != Unopened
    ensures SampleAt(s, SampleKey(ck, no)) != Unasked
  {
  }

  lemma SettledWhenFinished(b: Batch, s: Sys, r: int, k: SampleKey)
    requires SampleOk(b, s, k) && SampleAt(s, k) != Unasked && k.of.cell.run == r && Counted(CellAt(s, k.of.cell))
    requires OpenVotes(s.threads.jobs, r) == {} && forall i: nat :: JobOk(b, s, VoteKey(k, i))
    ensures SampleAt(s, k).Settled?
  {
    hide OpenVotes, SampleMedian;
    if SampleAt(s, k).Polling? {
      var n := Judges(b, k);
      LandedAll(s.threads.jobs, k, n);
      forall i: nat | i < n ensures HasLanded(JobIn(s.threads.jobs, VoteKey(k, i))) {
        assert JobOk(b, s, VoteKey(k, i));
        FinishedVote(b, s, r, VoteKey(k, i));
      }
    } else if SampleAt(s, k).Deciding? && SampleAt(s, k).who.ByVote? {
      FinishedVote(b, s, r, SampleAt(s, k).who.vote);
    }
  }

  /** A fresh batch's done run has one row for every case of every cell it did not skip. */
  lemma DoneGridIsComplete(b: Batch, trace: seq<Sys>, actions: seq<Action>, i: nat, ck: CaseKey)
    requires ValidBatch(b) && IsRun(b, trace, actions) && i < |trace| && !b.retry && InGrid(b, ck)
    requires DoneStamp in Stamps(trace[i], ck.cell.run) && !SetupOf(b, ck.cell).Skip?
    ensures Rows(trace[i], ck) == if CaseAt(trace[i], ck) == Unopened then [None] else [Score(b, ck)]
  {
    hide IsRun, RunOk, SampleOk, GridOk, CellOk, JobOk, TokenOk, PoolOk, FullAggregate, Tally, OpenVotes, Uncounted;
    var s := trace[i];
    RunHolds(b, trace, actions, i);
    DoneIsComplete(b, trace, actions, i, ck.cell.run);
    assert CaseOk(b, s, ck);
  }

  /** Rows outside the batch's grid never change; in a retry every scored row is outside. */
  lemma OtherRowsUntouched(b: Batch, trace: seq<Sys>, actions: seq<Action>, i: nat, ck: CaseKey)
    requires ValidBatch(b) && IsRun(b, trace, actions) && i < |trace|
    requires !InGrid(b, ck) || (b.retry && exists x :: x in RowsIn(b.rowsBefore, ck) && x.Some?)
    ensures Rows(trace[i], ck) == RowsIn(b.rowsBefore, ck)
  {
    hide IsRun, RunOk, SampleOk, GridOk, CellOk, JobOk, TokenOk, PoolOk, FullAggregate, Tally;
    RunHolds(b, trace, actions, i);
    assert CaseOk(b, trace[i], ck);
  }

  /** A batch never gives a case a second row, so retry and resume always find units with one row or none. */
  lemma OneRowAtMost(b: Batch, trace: seq<Sys>, actions: seq<Action>, i: nat, ck: CaseKey)
    requires ValidBatch(b) && IsRun(b, trace, actions) && i < |trace|
    requires |RowsIn(b.rowsBefore, ck)| <= 1
    ensures |Rows(trace[i], ck)| <= 1
  {
    hide IsRun, RunOk, SampleOk, GridOk, CellOk, JobOk, TokenOk, PoolOk, FullAggregate, Tally;
    RunHolds(b, trace, actions, i);
    assert CaseOk(b, trace[i], ck);
  }

  // ---------------------------------------------------------------------
  // A fan-out that was cut short

  /** A registered vote that nobody is going to offer any more. */
  predicate Abandoned(s: Sys, v: VoteKey) {
    JobAt(s, v).Owed? && !Offering(CellAt(s, v.sample.of.cell), v)
  }

  lemma AbandonedStays(b: Batch, s: Sys, a: Action, v: VoteKey)
    requires Inv(b, s) && Enabled(b, s, a) && Abandoned(s, v)
    ensures Abandoned(Step(b, s, a), v)
  {
    hide Inv, Step, Enabled;
    if a.Judge? || a.Land? || a.SettleVote? || a.WriteVote? || a.Drop? || a.StampVote? {
      VoteStepLeavesOwed(b, s, a, v);
    } else if a.Cancel? || a.CloseFeed? || a.ExamLeaves? || a.CloseJudges? || a.JudgeLeaves? || a.BeginTail? || a.FailRun? || a.Finish? {
      SwitchLeavesOwed(b, s, a, v);
    } else {
      CellStepLeavesOwed(b, s, a, v);
    }
  }

  lemma VoteStepLeavesOwed(b: Batch, s: Sys, a: Action, v: VoteKey)
    requires Enabled(b, s, a) && Abandoned(s, v)
    requires a.Judge? || a.Land? || a.SettleVote? || a.WriteVote? || a.Drop? || a.StampVote?
    ensures Abandoned(Step(b, s, a), v)
  {
    hide OpenStep, AskStep, SettleStep, EnlistStep, OfferStep, After, FailStep, CountStep, MarkStep, LandVote, SettleSample, DecrementPending;
  }

  lemma SwitchLeavesOwed(b: Batch, s: Sys, a: Action, v: VoteKey)
    requires Enabled(b, s, a) && Abandoned(s, v)
    requires a.Cancel? || a.CloseFeed? || a.ExamLeaves? || a.CloseJudges? || a.JudgeLeaves? || a.BeginTail? || a.FailRun? || a.Finish?
    ensures Abandoned(Step(b, s, a), v)
  {
    hide OpenStep, AskStep, SettleStep, EnlistStep, OfferStep, After, FailStep, CountStep, MarkStep, LandStep, SettleJobStep, DropStep;
  }

  lemma CellStepLeavesOwed(b: Batch, s: Sys, a: Action, v: VoteKey)
    requires Inv(b, s) && Enabled(b, s, a) && Abandoned(s, v)
    requires a.Take? || a.Begin? || a.OpenNext? || a.AskOne? || a.SettleOne? || a.WriteOne? || a.EnlistOne? || a.Hand? || a.Cut? || a.FailOne? || a.CountOne? || a.MarkOne? || a.StampOne?
    ensures Abandoned(Step(b, s, a), v)
  {
    hide RunOk, CaseOk, SampleOk, CellOk, GridOk, TokenOk, PoolOk, Offering, AllTokens, AllCases, AllRuns, EnlistStep, OfferStep, AskStep, SettleStep, CountStep, MarkStep, FailStep, OpenStep, AfterSetup, After;
    assert JobOk(b, s, v);
    assert CellOk(b, s, a.c) && (CellAt(s, a.c).Enlist? ==> GridOk(b, s, CaseKey(a.c, CellAt(s, a.c).pos.at)));
    if a.EnlistOne? {
      EnlistLeavesOwed(b, s, a.c, v);
    } else if a.Hand? {
      HandLeavesOwed(b, s, a.c, v);
    } else {
      MoveLeavesOwed(b, s, a, v);
    }
  }

  lemma MoveLeavesOwed(b: Batch, s: Sys, a: Action, v: VoteKey)
    requires Enabled(b, s, a) && Abandoned(s, v)
    requires a.Take? || a.Begin? || a.OpenNext? || a.AskOne? || a.SettleOne? || a.WriteOne? || a.Cut? || a.FailOne? || a.CountOne? || a.MarkOne? || a.StampOne?
    ensures Abandoned(Step(b, s, a), v)
  {
    hide SettleSample, OpenCase, MarkCellsDone, Stamps, Rows, NonNull, CaseScore, Judges, OutcomeOf;
  }

  lemma EnlistLeavesOwed(b: Batch, s: Sys, c: Cell, v: VoteKey)
    requires CellAt(s, c).Enlist? && Abandoned(s, v) && JobOk(b, s, v) && CellOk(b, s, c) && GridOk(b, s, CaseKey(c, CellAt(s, c).pos.at))
    ensures Abandoned(EnlistStep(b, s, c, CellAt(s, c).pos), v)
  {
    hide SlotKeys, AllOwed, Judges, Register, CaseAt;
    var p := CellAt(s, c).pos;
    AskedNext(b, s, c, p);
    EnlistJobs(b, s, c, p, v);
    assert v.sample != Key(c, p);
  }

  lemma HandLeavesOwed(b: Batch, s: Sys, c: Cell, v: VoteKey)
    requires CellAt(s, c).Offer? && Abandoned(s, v)
    ensures Abandoned(OfferStep(b, s, c, CellAt(s, c).pos, CellAt(s, c).slot), v)
  {
    hide Judges;
  }

  lemma {:induction false} AbandonedForGood(b: Batch, trace: seq<Sys>, actions: seq<Action>, i: nat, j: nat, v: VoteKey)
    requires ValidBatch(b) && IsRun(b, trace, actions) && i <= j < |trace| && Abandoned(trace[i], v)
    ensures Abandoned(trace[j], v)
  {
    hide ValidBatch, Init, Step, Enabled, Abandoned, Inv;
    if i < j {
      AbandonedForGood(b, trace, actions, i, j - 1, v);
      RunHolds(b, trace, actions, j - 1);
      AbandonedStays(b, trace[j - 1], actions[j - 1], v);
    }
  }

  /** Cutting a fan-out abandons at least the vote that was on offer. */
  lemma CutAbandons(b: Batch, s: Sys, c: Cell)
    requires Inv(b, s) && Enabled(b, s, Cut(c))
    ensures CellAt(s, c).Offer? && c in b.cells
    ensures Abandoned(Step(b, s, Cut(c)), VoteKey(Key(c, CellAt(s, c).pos), CellAt(s, c).slot))
  {
    hide RunOk, CaseOk, SampleOk, JobOk, TokenOk, PoolOk, GridOk, AllGrid, AllTokens, AllCases, AllRuns;
    assert CellOk(b, s, c);
    assert PcOk(b, s, c, CellAt(s, c));
  }

  /** A run whose vote fan-out was cut short by a cancel is never stamped done; when the driver is through it is failed. */
  lemma CutNeverDone(b: Batch, trace: seq<Sys>, actions: seq<Action>, i: nat, j: nat, c: Cell)
    requires ValidBatch(b) && IsRun(b, trace, actions) && i < |actions| && actions[i] == Cut(c) && i < j < |trace|
    ensures DoneStamp !in Stamps(trace[j], c.run)
    ensures trace[j].control.phase.Over? ==> Stamps(trace[j], c.run) == [FailedStamp]
  {
    hide ValidBatch, Init, Step, Enabled, Abandoned, RunOk, CaseOk, SampleOk, JobOk, TokenOk, PoolOk, GridOk, CellOk, Inv;
    RunHolds(b, trace, actions, i);
    RunHolds(b, trace, actions, j);
    CutAbandons(b, trace[i], c);
    var v := VoteKey(Key(c, CellAt(trace[i], c).pos), CellAt(trace[i], c).slot);
    AbandonedForGood(b, trace, actions, i + 1, j, v);
    RunsOfCells(b, c);
    OneStamp(b, trace, actions, j, c.run);
    OwedIsUnfinished(b, trace[j], v);
  }

  lemma OwedIsUnfinished(b: Batch, s: Sys, v: VoteKey)
    requires Inv(b, s) && Abandoned(s, v) && v.sample.of.cell.run in b.runs
    ensures DoneStamp !in Stamps(s, v.sample.of.cell.run)
  {
    hide CaseOk, SampleOk, JobOk, TokenOk, PoolOk, GridOk, CellOk, Uncounted, AllTokens, AllCases, AllGrid, AllCells, AllSamples;
    var r := v.sample.of.cell.run;
    assert RunOk(b, s, r);
    assert v in OpenVotes(s.threads.jobs, r);
  }
}
