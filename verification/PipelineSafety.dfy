/** What holds in every run of a batch. */
module PipelineSafety {
  import opened Wrappers
  import opened Median
  import opened PipelineBook
  import opened PipelineMachine
  import opened PipelineInvariant
  import opened PipelineFrame
  import opened PipelineKeeps
  import opened PipelineVotes
  import opened PipelineRuns

  // ---------------------------------------------------------------------
  // The invariant holds throughout

  lemma InitHolds(b: Batch, s: Sys)
    requires ValidBatch(b) && Init(b, s)
    ensures Inv(b, s)
  {
    hide Tally, FullAggregate, ValidBatch, PcOk, CellDuty, JobDuty;
    forall c ensures CellAt(s, c) == if c in b.cells then Waiting else Returned {}
    forall v ensures JobAt(s, v) == Unlisted {}
    forall t ensures DutyOf(s, t) == Free { InitDuty(s, t); }
    assert BusyCells(b, s.threads.cells) == {};
    assert BusyJobs(s.threads.jobs) == {};
    InitRuns(b, s);
    InitCells(b, s);
  }

  lemma InitDuty(s: Sys, t: Token)
    requires forall c :: CellAt(s, c).Waiting? || CellAt(s, c).Returned?
    requires forall v :: JobAt(s, v).Unlisted?
    ensures DutyOf(s, t) == Free
  {
  }

  lemma InitCells(b: Batch, s: Sys)
    requires Init(b, s)
    ensures AllCells(b, s)
  {
  }

  lemma InitRuns(b: Batch, s: Sys)
    requires ValidBatch(b) && Init(b, s)
    ensures AllRuns(b, s)
  {
    hide CellDuty, JobDuty;
    forall r ensures RunOk(b, s, r) {
      assert OpenVotes(s.threads.jobs, r) == {};
      if r in b.runs {
        assert Uncounted(b, s.threads.cells, r) == CellsOf(b, r);
      } else {
        assert CellsOf(b, r) == {};
        assert Uncounted(b, s.threads.cells, r) == {};
      }
    }
  }

  lemma SwitchKeeps(b: Batch, s: Sys, a: Action)
    requires Inv(b, s) && ValidBatch(b) && Enabled(b, s, a)
    requires a.Cancel? || a.CloseFeed? || a.ExamLeaves? || a.CloseJudges? || a.JudgeLeaves? || a.BeginTail? || a.FailRun? || a.Finish?
    ensures Inv(b, Step(b, s, a))
  {
    hide RunOk, AllTokens, AllSamples, AllJobs, AllCases, AllCells, AllGrid, ValidBatch;
    var s' := Step(b, s, a);
    forall r ensures RunOk(b, s', r) {
      assert RunOk(b, s, r);
      if r in b.runs { SwitchStamps(b, s, a, r); }
      ControlRun(b, s, s', r);
    }
    ControlKeeps(b, s, s');
  }

  lemma SwitchStamps(b: Batch, s: Sys, a: Action, r: int)
    requires RunOk(b, s, r) && r in b.runs && PoolOk(b, s) && Enabled(b, s, a)
    requires a.Cancel? || a.CloseFeed? || a.ExamLeaves? || a.CloseJudges? || a.JudgeLeaves? || a.BeginTail? || a.FailRun? || a.Finish?
    ensures Stamps(Step(b, s, a), r) == StampsDue(Step(b, s, a), r)
  {
    hide OpenVotes, Uncounted, DutyOf, BusyCells, BusyJobs;
    var none: seq<Status> := [];
    assert none + [FailedStamp] == [FailedStamp];
  }

  lemma CellStepKeeps(b: Batch, s: Sys, a: Action)
    requires Inv(b, s) && ValidBatch(b) && Enabled(b, s, a)
    requires a.Take? || a.Begin? || a.OpenNext? || a.AskOne? || a.SettleOne? || a.WriteOne? || a.EnlistOne? || a.Hand? || a.Cut? || a.FailOne? || a.CountOne? || a.MarkOne? || a.StampOne?
    ensures Inv(b, Step(b, s, a))
  {
    hide Inv, ValidBatch, AfterSetup, OpenStep, AskStep, SettleStep, WriteRow, EnlistStep, OfferStep, After, FailStep, CountStep, MarkStep, StampRun, Return, Goto, TakeStep;
    match a
    case Take(c) => TakeKeeps(b, s, c);
    case Begin(c) => BeginKeeps(b, s, c);
    case OpenNext(c) =>
      if CellAt(s, c).next >= Cases(b, c) || (b.retry && s.control.cancelled) { SkipRestKeeps(b, s, c); } else { OpenKeeps(b, s, c); }
    case AskOne(c) => AskKeeps(b, s, c);
    case SettleOne(c) => SettleKeeps(b, s, c);
    case WriteOne(c) => WriteKeeps(b, s, c);
    case EnlistOne(c) => EnlistKeeps(b, s, c);
    case Hand(c) => HandKeeps(b, s, c);
    case Cut(c) => CutKeeps(b, s, c);
    case FailOne(c) => FailOneOrEnd(b, s, c);
    case CountOne(c) => CountKeeps(b, s, c);
    case MarkOne(c) => MarkKeeps(b, s, c);
    case StampOne(c) => StampKeeps(b, s, c);
  }

  lemma FailOneOrEnd(b: Batch, s: Sys, c: Cell)
    requires Inv(b, s) && ValidBatch(b) && CellAt(s, c).FailRest?
    ensures Inv(b, FailStep(b, s, c, CellAt(s, c).from))
  {
    hide Inv, ValidBatch;
    if CellAt(s, c).from >= Cases(b, c) { FailEndKeeps(b, s, c); } else { FailOneKeeps(b, s, c); }
  }

  lemma VoteStepKeeps(b: Batch, s: Sys, a: Action)
    requires Inv(b, s) && ValidBatch(b) && Enabled(b, s, a)
    requires a.Judge? || a.Land? || a.SettleVote? || a.WriteVote? || a.Drop? || a.StampVote?
    ensures Inv(b, Step(b, s, a))
  {
    hide Inv, ValidBatch, LandStep, SettleJobStep, WriteRow, DropStep, StampRun, ReturnJob;
    match a
    case Judge(v) => JudgeKeeps(b, s, v);
    case Land(v) => LandKeeps(b, s, v);
    case SettleVote(v) => SettleVoteKeeps(b, s, v);
    case WriteVote(v) => WriteVoteKeeps(b, s, v);
    case Drop(v) => DropKeeps(b, s, v);
    case StampVote(v) => StampVoteKeeps(b, s, v);
  }

  lemma StepKeeps(b: Batch, s: Sys, a: Action)
    requires Inv(b, s) && ValidBatch(b) && Enabled(b, s, a)
    ensures Inv(b, Step(b, s, a))
  {
    hide Inv, ValidBatch, Step, Enabled;
    if a.Judge? || a.Land? || a.SettleVote? || a.WriteVote? || a.Drop? || a.StampVote? {
      VoteStepKeeps(b, s, a);
    } else if a.Cancel? || a.CloseFeed? || a.ExamLeaves? || a.CloseJudges? || a.JudgeLeaves? || a.BeginTail? || a.FailRun? || a.Finish? {
      SwitchKeeps(b, s, a);
    } else {
      CellStepKeeps(b, s, a);
    }
  }

  lemma {:induction false} RunHolds(b: Batch, trace: seq<Sys>, actions: seq<Action>, i: nat)
    requires ValidBatch(b) && IsRun(b, trace, actions) && i < |trace|
    ensures Inv(b, trace[i])
  {
    hide Inv, ValidBatch, Init, Step, Enabled;
    if i == 0 {
      InitHolds(b, trace[0]);
    } else {
      RunHolds(b, trace, actions, i - 1);
      StepKeeps(b, trace[i - 1], actions[i - 1]);
    }
  }
}
