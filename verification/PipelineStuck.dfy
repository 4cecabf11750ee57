/**
 When a batch can get stuck: all judges have left on a spent time budget while
 every exam worker waits in an offer or has gone, so that nobody is left who
 would look at the clock and cancel.
 */
module PipelineStuck {
  import opened Wrappers
  import opened PipelineBook
  import opened PipelineMachine
  import opened PipelineInvariant
  import opened PipelineSafety
  import opened PipelineProgress
  import opened PipelineCircuit

  /** The driver is not through, and nothing can happen but a cancel. */
  ghost predicate Stuck(b: Batch, s: Sys) {
    !s.control.phase.Over? && Enabled(b, s, Cancel) && forall a | Enabled(b, s, a) :: a == Cancel
  }

  ghost predicate EndsStuck(b: Batch, trace: seq<Sys>, actions: seq<Action>) {
    IsRun(b, trace, actions) && Stuck(b, trace[|trace| - 1])
  }

  /** The cell gets to this sample, and its answer has judges. */
  predicate Judged(b: Batch, k: SampleKey) {
    && k.of.cell in b.cells && SetupOf(b, k.of.cell).Ready?
    && k.of.at < Cases(b, k.of.cell) && k.no < Samples(b, k.of) && Judges(b, k) > 0
    && Reaches(b, k.of.cell, k.of.at)
  }

  ghost predicate AsksJudges(b: Batch) {
    exists k :: Judged(b, k)
  }

  // ---------------------------------------------------------------------
  // A stuck batch has a budget and asks judges

  lemma StuckNeeds(b: Batch, trace: seq<Sys>, actions: seq<Action>)
    requires ValidBatch(b) && EndsStuck(b, trace, actions)
    ensures b.timed && AsksJudges(b)
  {
    hide ValidBatch, Enabled, Inv, CircuitOk, CellOk, Judged;
    var s := trace[|trace| - 1];
    RunHolds(b, trace, actions, |trace| - 1);
    var a := CanStep(b, s);
    assert Stranded(b, s);
    var c :| c in b.cells && CellAt(s, c).Offer?;
    CircuitHolds(b, trace, actions, |trace| - 1, c);
    PoolHolds(b, s);
    OfferIsJudged(b, s, c);
    assert Judged(b, Key(c, CellAt(s, c).pos));
  }

  lemma OfferIsJudged(b: Batch, s: Sys, c: Cell)
    requires CellOk(b, s, c) && c in b.cells && CellAt(s, c).Offer? && CircuitOk(b, c, CellAt(s, c))
    ensures Judged(b, Key(c, CellAt(s, c).pos))
  {
    hide Reaches, AnsweredBy, Streak, Uncounted;
  }

  // ---------------------------------------------------------------------
  // Running without judges

  /** What can happen while no judge takes a vote, none leaves and nobody cancels. */
  predicate Unjudged(a: Action) {
    !a.Cancel? && !a.Hand? && !a.JudgeLeaves?
  }

  ghost predicate AllUnjudged(actions: seq<Action>) {
    forall i | 0 <= i < |actions| :: Unjudged(actions[i])
  }

  /** The cell has not got past sample k. */
  predicate Before(b: Batch, k: SampleKey, pc: CellPc) {
    match pc
    case Waiting => true
    case Start => true
    case Next(next, _) => next <= k.of.at
    case Ask(p) => p.at < k.of.at || (p.at == k.of.at && p.no <= k.no)
    case Enlist(p) => p.at < k.of.at || (p.at == k.of.at && p.no <= k.no)
    case Offer(p, _) => p.at < k.of.at || (p.at == k.of.at && p.no <= k.no)
    case Settle(p, _) => p.at < k.of.at || (p.at == k.of.at && p.no < k.no)
    case Write(p, _) => p.at < k.of.at || (p.at == k.of.at && p.no < k.no)
    case _ => false
  }

  /** All judges are there and idle, and nobody has cancelled. */
  ghost predicate Calm(b: Batch, s: Sys) {
    !s.control.cancelled && s.control.judge == Crew(b.judgeWorkers, 0) && forall v :: !JobBusy(JobAt(s, v))
  }

  lemma AfterBefore(b: Batch, k: SampleKey, p: Pos)
    requires Judged(b, k) && p.no < Samples(b, CaseKey(k.of.cell, p.at)) && PosOk(b, k.of.cell, p, p.no + 1)
    requires p.at < k.of.at || (p.at == k.of.at && p.no < k.no)
    ensures Before(b, k, After(b, k.of.cell, p))
  {
    hide AnsweredBy, Judges;
    var n := p.at + 1;
    assert p.no + 1 >= Samples(b, CaseKey(k.of.cell, p.at)) ==> Streak(b, k.of.cell, n) == if p.answered then 0 else p.streak + 1;
  }

  lemma OwnBefore(b: Batch, s: Sys, a: Action, k: SampleKey)
    requires OfCell(a) && Unjudged(a) && Enabled(b, s, a) && !s.control.cancelled && a.c == k.of.cell
    requires Judged(b, k) && Before(b, k, CellAt(s, a.c)) && CircuitOk(b, a.c, CellAt(s, a.c))
    requires InCase(CellAt(s, a.c)) ==> CellAt(s, a.c).pos.no < Samples(b, CaseKey(a.c, CellAt(s, a.c).pos.at))
    ensures Before(b, k, CellAt(Step(b, s, a), a.c))
  {
    hide OpenCase, SettleSample, Register, MarkCellsDone, CaseScore, After, NonNull, AllOwed, AnsweredBy, Reaches, Streak;
    hide LandStep, SettleJobStep, DropStep, CountStep, MarkStep, FailStep, StampRun, WriteRow, SettleBy, SetRows, SetBook;
    var pc := CellAt(s, a.c);
    if pc.Settle? || pc.Write? { AfterBefore(b, k, pc.pos); }
  }

  lemma CalmStays(b: Batch, s: Sys, a: Action)
    requires Calm(b, s) && Unjudged(a) && Enabled(b, s, a)
    ensures Calm(b, Step(b, s, a))
  {
    hide Calm, Enabled, Step;
    if OfCell(a) {
      CellCalm(b, s, a);
    } else if OfVote(a) {
      NoVoteMoves(b, s, a);
    } else {
      SwitchCalm(b, s, a);
    }
  }

  lemma NoVoteMoves(b: Batch, s: Sys, a: Action)
    requires Calm(b, s) && OfVote(a)
    ensures !Enabled(b, s, a)
  {
    assert !JobBusy(JobAt(s, a.v));
  }

  lemma SwitchCalm(b: Batch, s: Sys, a: Action)
    requires Calm(b, s) && Unjudged(a) && Enabled(b, s, a) && !OfCell(a) && !OfVote(a)
    ensures Calm(b, Step(b, s, a))
  {
    var s' := Step(b, s, a);
    assert s'.threads.jobs == s.threads.jobs;
    forall v ensures !JobBusy(JobAt(s', v)) { assert !JobBusy(JobAt(s, v)); }
  }

  lemma CellCalm(b: Batch, s: Sys, a: Action)
    requires Calm(b, s) && Unjudged(a) && Enabled(b, s, a) && OfCell(a)
    ensures Calm(b, Step(b, s, a))
  {
    hide OpenCase, SettleSample, Register, MarkCellsDone, CaseScore, After, NonNull, LandStep, SettleJobStep, DropStep;
    var s' := Step(b, s, a);
    forall v ensures !JobBusy(JobAt(s', v)) { assert !JobBusy(JobAt(s, v)); }
  }

  lemma {:induction false} UnjudgedRun(b: Batch, trace: seq<Sys>, actions: seq<Action>, i: nat, k: SampleKey)
    requires ValidBatch(b) && IsRun(b, trace, actions) && AllUnjudged(actions) && Judged(b, k) && i < |trace|
    ensures Calm(b, trace[i]) && Before(b, k, CellAt(trace[i], k.of.cell))
  {
    hide ValidBatch, CircuitOk, Enabled, Step, Inv, Judged, Before, Calm;
    if i == 0 {
      StartsCalm(b, trace[0], k);
    } else {
      var s, a := trace[i - 1], actions[i - 1];
      UnjudgedRun(b, trace, actions, i - 1, k);
      assert Unjudged(a);
      CalmStays(b, s, a);
      if OfCell(a) && a.c == k.of.cell {
        RunHolds(b, trace, actions, i - 1);
        PoolHolds(b, s);
        OwnCell(b, s, a);
        CircuitHolds(b, trace, actions, i - 1, a.c);
        NotCancelled(b, s);
        OwnBefore(b, s, a, k);
      } else {
        OthersStay(b, s, a, k.of.cell);
      }
    }
  }

  lemma NotCancelled(b: Batch, s: Sys)
    requires Calm(b, s)
    ensures !s.control.cancelled
  {
  }

  lemma StartsCalm(b: Batch, s: Sys, k: SampleKey)
    requires Init(b, s) && Judged(b, k)
    ensures Calm(b, s) && Before(b, k, CellAt(s, k.of.cell))
  {
    hide Judges, Reaches;
  }

  /** The batch runs on until nothing can happen without a judge. */
  lemma {:induction false} RunOut(b: Batch, trace: seq<Sys>, actions: seq<Action>) returns (trace': seq<Sys>, actions': seq<Action>)
    requires ValidBatch(b) && IsRun(b, trace, actions) && AllUnjudged(actions)
    ensures IsRun(b, trace', actions') && AllUnjudged(actions')
    ensures forall a | Unjudged(a) :: !Enabled(b, trace'[|trace'| - 1], a)
    decreases WorkOf(b, trace[|trace| - 1]).cells, WorkOf(b, trace[|trace| - 1]).jobs, WorkOf(b, trace[|trace| - 1]).switches
  {
    hide Inv, ValidBatch, Step, Enabled, WorkOf, Init, Unjudged;
    var s := trace[|trace| - 1];
    if a :| Unjudged(a) && Enabled(b, s, a) {
      RunHolds(b, trace, actions, |trace| - 1);
      StepShrinks(b, s, a);
      var t2, a2 := trace + [Step(b, s, a)], actions + [a];
      assert t2[|t2| - 1] == Step(b, s, a);
      Extended(b, trace, actions, a);
      trace', actions' := RunOut(b, t2, a2);
    } else {
      trace', actions' := trace, actions;
    }
  }

  /** By then the channel is still open, for a cell is waiting with a vote. */
  lemma StillOpen(b: Batch, s: Sys, k: SampleKey)
    requires PoolOk(b, s) && Calm(b, s) && Judged(b, k) && Before(b, k, CellAt(s, k.of.cell))
    ensures !ChannelClosed(s.control.phase)
  {
    hide Judges, Reaches, BusyJobs;
    var c, busy := k.of.cell, BusyCells(b, s.threads.cells);
    assert CellAt(s, c).Waiting? || c in busy;
    assert c in busy ==> |busy| > 0;
  }

  // ---------------------------------------------------------------------
  // The judges leave

  function Left(s: Sys, n: nat): Sys {
    SetJudge(s, s.control.judge.idle - n, s.control.judge.left + n)
  }

  lemma {:induction false} JudgesLeave(b: Batch, trace: seq<Sys>, actions: seq<Action>, n: nat) returns (trace': seq<Sys>, actions': seq<Action>)
    requires IsRun(b, trace, actions) && b.timed && !trace[|trace| - 1].control.crashed && n <= trace[|trace| - 1].control.judge.idle
    ensures IsRun(b, trace', actions') && trace'[|trace'| - 1] == Left(trace[|trace| - 1], n)
    ensures |actions'| == |actions| + n && actions <= actions' && forall i | |actions| <= i < |actions'| :: actions'[i] == JudgeLeaves
    decreases n
  {
    hide Init, Step, Enabled;
    if n == 0 {
      trace', actions' := trace, actions;
    } else {
      trace', actions' := JudgesLeave(b, trace, actions, n - 1);
      var s := trace'[|trace'| - 1];
      OneLeaves(b, s);
      Extended(b, trace', actions', JudgeLeaves);
      trace', actions' := trace' + [Step(b, s, JudgeLeaves)], actions' + [JudgeLeaves];
    }
  }

  lemma OneLeaves(b: Batch, s: Sys)
    requires b.timed && !s.control.crashed && s.control.judge.idle > 0
    ensures Enabled(b, s, JudgeLeaves) && Step(b, s, JudgeLeaves) == Left(s, 1)
  {
  }

  lemma NothingButCancel(b: Batch, s: Sys)
    requires Calm(b, s) && !s.control.crashed && !ChannelClosed(s.control.phase)
    requires forall a | Unjudged(a) :: !Enabled(b, s, a)
    ensures Stuck(b, Left(s, b.judgeWorkers))
  {
    var s' := Left(s, b.judgeWorkers);
    forall a | Enabled(b, s', a) ensures a == Cancel {
      if Unjudged(a) { assert Enabled(b, s, a); }
    }
  }

  /** The run that gets stuck: nobody leaves, judges or cancels before the very end, when all judges leave. */
  ghost predicate StuckRun(b: Batch, trace: seq<Sys>, actions: seq<Action>) {
    && EndsStuck(b, trace, actions) && |actions| >= b.judgeWorkers
    && AllUnjudged(actions[..|actions| - b.judgeWorkers])
    && forall i | |actions| - b.judgeWorkers <= i < |actions| :: actions[i] == JudgeLeaves
  }

  lemma GetsStuck(b: Batch, k: SampleKey) returns (trace: seq<Sys>, actions: seq<Action>)
    requires ValidBatch(b) && b.timed && Judged(b, k)
    ensures StuckRun(b, trace, actions)
  {
    hide ValidBatch, Enabled, Step, Inv, Judged, Before, Unjudged, Stuck, Init, ChannelClosed, PoolOk;
    var s0 := FirstState(b);
    var t1, a1 := RunOut(b, [s0], []);
    var n := |t1| - 1;
    UnjudgedRun(b, t1, a1, n, k);
    RunHolds(b, t1, a1, n);
    PoolHolds(b, t1[n]);
    StillOpen(b, t1[n], k);
    NeverCrashed(b, t1[n]);
    trace, actions := JudgesLeave(b, t1, a1, b.judgeWorkers);
    NothingButCancel(b, t1[n]);
    assert actions[..|actions| - b.judgeWorkers] == a1;
  }

  lemma NeverCrashed(b: Batch, s: Sys)
    requires PoolOk(b, s)
    ensures !s.control.crashed
  {
  }

  lemma FirstState(b: Batch) returns (s: Sys)
    ensures Init(b, s)
  {
    var empty := set r | r in b.runs && CellsOf(b, r) == {};
    s := Sys(
      EMPTY_BOOK.(cellsDone := empty, finished := empty),
      Threads(map c | c in b.cells :: Waiting, map[], map r | r in b.runs :: |CellsOf(b, r)|),
      Control(Feeding, false, false, Crew(b.examWorkers, 0), Crew(b.judgeWorkers, 0)),
      Database(b.rowsBefore, map[], map r | r in empty :: [DoneStamp]),
      History(map[], map[], map r | r in empty :: Finished));
  }

  /** A batch can get stuck exactly when it has a time budget and gets to a sample with judges. */
  lemma StuckExactly(b: Batch)
    requires ValidBatch(b)
    ensures (exists trace, actions :: EndsStuck(b, trace, actions)) <==> b.timed && AsksJudges(b)
  {
    hide ValidBatch, Stuck, Judged;
    if b.timed && AsksJudges(b) {
      var k :| Judged(b, k);
      var trace, actions := GetsStuck(b, k);
      assert EndsStuck(b, trace, actions);
    }
    if trace, actions :| EndsStuck(b, trace, actions) {
      StuckNeeds(b, trace, actions);
    }
  }
}
