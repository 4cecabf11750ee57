/**
 Progress. Every step uses up some of a finite stock of work, and a batch whose
 judges have no guard always has a step to take until its driver is through. A
 batch with a time budget lets its judges leave once it is spent, and then it
 can wait for ever on a cell's offer.
 */
module PipelineProgress {
  import opened Wrappers
  import opened Median
  import opened PipelineBook
  import opened PipelineMachine
  import opened PipelineInvariant
  import opened PipelineFrame
  import opened PipelineKeeps
  import opened PipelineVotes
  import opened PipelineRuns
  import opened PipelineSafety

  // ---------------------------------------------------------------------
  // Work still to do

  /** Steps left in the sample loop from sample no on, at the most. */
  function SampleWork(b: Batch, ck: CaseKey, no: nat): (w: nat)
    ensures w >= 1
    decreases Samples(b, ck) - no
  {
    if no >= Samples(b, ck) then 1 else 4 + Judges(b, SampleKey(ck, no)) + SampleWork(b, ck, no + 1)
  }

  function CaseWork(b: Batch, c: Cell, at: nat): (w: nat)
    ensures at <= Cases(b, c) ==> w >= Cases(b, c) - at
    decreases Cases(b, c) - at
  {
    if at >= Cases(b, c) then 0 else 1 + SampleWork(b, CaseKey(c, at), 0) + CaseWork(b, c, at + 1)
  }

  /** What follows once the sample at p is over. */
  function LaterWork(b: Batch, c: Cell, at: nat, no: nat): nat {
    4 + CaseWork(b, c, at + 1) + SampleWork(b, CaseKey(c, at), no + 1)
  }

  function CellWork(b: Batch, c: Cell, pc: CellPc): nat {
    match pc
    case Waiting => 6 + CaseWork(b, c, 0)
    case Start => 5 + CaseWork(b, c, 0)
    case Next(at, _) => 4 + CaseWork(b, c, at)
    case Ask(p) => 4 + Judges(b, Key(c, p)) + LaterWork(b, c, p.at, p.no)
    case Settle(p, _) => 2 + LaterWork(b, c, p.at, p.no)
    case Write(p, _) => 1 + LaterWork(b, c, p.at, p.no)
    case Enlist(p) => 1 + Judges(b, Key(c, p)) + LaterWork(b, c, p.at, p.no)
    case Offer(p, slot) => (if slot < Judges(b, Key(c, p)) then Judges(b, Key(c, p)) - slot else 1) + LaterWork(b, c, p.at, p.no)
    case FailRest(from) => if from < Cases(b, c) then 4 + Cases(b, c) - from else 4
    case Count => 3
    case Mark => 2
    case Stamp => 1
    case Returned => 0
  }

  function JobWork(pc: JobPc): nat {
    match pc
    case Owed => 7
    case Judging => 6
    case Landing => 5
    case Settling(_) => 4
    case Writing(_) => 3
    case Dropping => 2
    case Stamping => 1
    case _ => 0
  }

  function PhaseWork(p: Phase): nat {
    match p
    case Feeding => 4
    case Fed => 3
    case Closed => 2
    case Tail(_) => 1
    case Over => 0
  }

  ghost function Total<K(!new)>(keys: set<K>, work: K -> nat): nat {
    if keys == {} then 0 else
    var k :| k in keys;
    work(k) + Total(keys - {k}, work)
  }

  /** A total can be opened at any of its members. */
  lemma {:induction false} TotalAt<K(!new)>(keys: set<K>, work: K -> nat, k: K)
    requires k in keys
    ensures Total(keys, work) == work(k) + Total(keys - {k}, work)
    decreases keys
  {
    var first :| first in keys && Total(keys, work) == work(first) + Total(keys - {first}, work);
    if first != k {
      TotalAt(keys - {first}, work, k);
      TotalAt(keys - {k}, work, first);
      assert keys - {first} - {k} == keys - {k} - {first};
    }
  }

  lemma {:induction false} TotalSame<K(!new)>(keys: set<K>, work: K -> nat, work': K -> nat)
    requires forall k | k in keys :: work'(k) == work(k)
    ensures Total(keys, work') == Total(keys, work)
    decreases keys
  {
    if keys != {} {
      var k :| k in keys;
      TotalAt(keys, work, k);
      TotalAt(keys, work', k);
      TotalSame(keys - {k}, work, work');
    }
  }

  /** One member's work changing changes the total by as much. */
  lemma TotalChanges<K(!new)>(keys: set<K>, work: K -> nat, work': K -> nat, k: K)
    requires k in keys && forall j | j in keys && j != k :: work'(j) == work(j)
    ensures Total(keys, work') - work'(k) == Total(keys, work) - work(k)
  {
    TotalAt(keys, work, k);
    TotalAt(keys, work', k);
    TotalSame(keys - {k}, work, work');
  }

  ghost function CellsWork(b: Batch, cells: map<Cell, CellPc>): nat {
    Total(b.cells, c => CellWork(b, c, CellIn(cells, c)))
  }

  ghost function JobsWork(jobs: map<VoteKey, JobPc>): nat {
    Total(jobs.Keys, v => JobWork(JobIn(jobs, v)))
  }

  lemma CellsChange(b: Batch, cells: map<Cell, CellPc>, c: Cell, pc: CellPc)
    requires c in b.cells
    ensures CellsWork(b, cells[c := pc]) - CellWork(b, c, pc) == CellsWork(b, cells) - CellWork(b, c, CellIn(cells, c))
  {
    TotalChanges(b.cells, d => CellWork(b, d, CellIn(cells, d)), d => CellWork(b, d, CellIn(cells[c := pc], d)), c);
  }

  lemma JobsChange(jobs: map<VoteKey, JobPc>, v: VoteKey, pc: JobPc)
    requires v in jobs
    ensures JobsWork(jobs[v := pc]) - JobWork(pc) == JobsWork(jobs) - JobWork(jobs[v])
  {
    assert jobs[v := pc].Keys == jobs.Keys;
    TotalChanges(jobs.Keys, w => JobWork(JobIn(jobs, w)), w => JobWork(JobIn(jobs[v := pc], w)), v);
  }

  // ---------------------------------------------------------------------
  // Every step uses up work

  datatype Work = Work(cells: nat, jobs: nat, switches: nat)

  predicate Less(x: Work, y: Work) {
    x.cells < y.cells || (x.cells == y.cells && (x.jobs < y.jobs || (x.jobs == y.jobs && x.switches < y.switches)))
  }

  /** What the driver and the idle workers can still do by themselves. */
  function Switches(b: Batch, o: Control): nat {
    (if o.cancelled then 0 else 1)
    + (if o.exam.left <= b.examWorkers then b.examWorkers - o.exam.left else 0)
    + (if o.judge.left <= b.judgeWorkers then b.judgeWorkers - o.judge.left else 0)
    + PhaseWork(o.phase) * (|b.runs| + 1)
    + (if o.phase.Tail? then |o.phase.todo| else 0)
  }

  ghost function WorkOf(b: Batch, s: Sys): Work {
    Work(CellsWork(b, s.threads.cells), JobsWork(s.threads.jobs), Switches(b, s.control))
  }

  lemma SwitchShrinks(b: Batch, s: Sys, a: Action)
    requires PoolOk(b, s) && Enabled(b, s, a)
    requires a.Cancel? || a.CloseFeed? || a.ExamLeaves? || a.CloseJudges? || a.JudgeLeaves? || a.BeginTail? || a.FailRun? || a.Finish?
    ensures Switches(b, Step(b, s, a).control) < Switches(b, s.control) && Step(b, s, a).threads == s.threads
  {
    hide BusyCells, BusyJobs, CellAt, JobAt, TakeStep, OpenStep, AskStep, SettleStep, WriteRow, EnlistStep, OfferStep, FailStep, CountStep, MarkStep, After, LandStep, SettleJobStep, DropStep, ReturnJob;
    if a.FailRun? {
      assert |s.control.phase.todo - {a.r}| == |s.control.phase.todo| - 1;
    }
  }

  lemma AfterWork(b: Batch, c: Cell, p: Pos)
    requires p.at < Cases(b, c)
    ensures CellWork(b, c, After(b, c, p)) <= LaterWork(b, c, p.at, p.no)
  {
  }

  predicate OfCell(a: Action) {
    a.Take? || a.Begin? || a.OpenNext? || a.AskOne? || a.SettleOne? || a.WriteOne? || a.EnlistOne? || a.Hand? || a.Cut?
    || a.FailOne? || a.CountOne? || a.MarkOne? || a.StampOne?
  }

  predicate OfVote(a: Action) {
    a.Judge? || a.Land? || a.SettleVote? || a.WriteVote? || a.Drop? || a.StampVote?
  }

  lemma CellShrinks(b: Batch, s: Sys, a: Action)
    requires OfCell(a) && Inv(b, s) && ValidBatch(b) && Enabled(b, s, a)
    ensures a.c in b.cells
    ensures CellsWork(b, Step(b, s, a).threads.cells) < CellsWork(b, s.threads.cells)
  {
    hide CellsWork, AllTokens, AllSamples, AllJobs, AllCases, AllGrid, AllRuns, Step, Enabled, CellWork, CellOk, ValidBatch, BusyCells, BusyJobs;
    assert CellOk(b, s, a.c);
    OwnCell(b, s, a);
    StepKeeps(b, s, a);
    forall ck | InGrid(b, ck) ensures Samples(b, ck) >= 1 { ValidSamples(b, ck); }
    var s' := Step(b, s, a);
    if a.SettleOne? || a.WriteOne? || a.EnlistOne? || a.Hand? || a.Cut? || a.AskOne? {
      OwnMove(b, s, a);
    } else if a.CountOne? || a.MarkOne? || a.StampOne? {
      OwnExit(b, s, a);
    } else {
      OwnCases(b, s, a);
    }
    CellsChange(b, s.threads.cells, a.c, CellAt(s', a.c));
  }

  lemma OwnCell(b: Batch, s: Sys, a: Action)
    requires OfCell(a) && CellOk(b, s, a.c) && Enabled(b, s, a) && PoolOk(b, s)
    ensures a.c in b.cells
    ensures InCase(CellAt(s, a.c)) ==> CellAt(s, a.c).pos.at < Cases(b, a.c) && CellAt(s, a.c).pos.no < Samples(b, CaseKey(a.c, CellAt(s, a.c).pos.at))
    ensures CellAt(s, a.c).Offer? ==> CellAt(s, a.c).slot < Judges(b, Key(a.c, CellAt(s, a.c).pos))
    ensures a.SettleOne? || a.WriteOne? || a.EnlistOne? || a.Hand? || a.Cut? || a.AskOne? ==> InCase(CellAt(s, a.c))
    ensures CellAt(s, a.c).Enlist? ==> Judges(b, Key(a.c, CellAt(s, a.c).pos)) > 0
    ensures a.Hand? ==> !ChannelClosed(s.control.phase)
  {
    hide Judges;
    if a.Hand? { ChannelOpen(b, s, a.c); }
  }

  lemma OwnMove(b: Batch, s: Sys, a: Action)
    requires a.SettleOne? || a.WriteOne? || a.EnlistOne? || a.Hand? || a.Cut? || a.AskOne?
    requires Enabled(b, s, a) && !Step(b, s, a).control.crashed && InCase(CellAt(s, a.c)) && CellAt(s, a.c).pos.at < Cases(b, a.c)
    requires CellAt(s, a.c).pos.no < Samples(b, CaseKey(a.c, CellAt(s, a.c).pos.at))
    requires CellAt(s, a.c).Offer? ==> CellAt(s, a.c).slot < Judges(b, Key(a.c, CellAt(s, a.c).pos))
    requires CellAt(s, a.c).Enlist? ==> Judges(b, Key(a.c, CellAt(s, a.c).pos)) > 0
    ensures var s' := Step(b, s, a);
      && s'.threads.cells == s.threads.cells[a.c := CellAt(s', a.c)]
      && CellWork(b, a.c, CellAt(s', a.c)) < CellWork(b, a.c, CellAt(s, a.c))
  {
    hide Judges, LaterWork, After, SettleSample, Register, OutcomeOf, AllOwed, CaseScore;
    AfterWork(b, a.c, CellAt(s, a.c).pos);
  }

  lemma OwnCases(b: Batch, s: Sys, a: Action)
    requires a.Take? || a.Begin? || a.OpenNext? || a.FailOne?
    requires Enabled(b, s, a) && a.c in b.cells && forall ck | InGrid(b, ck) :: Samples(b, ck) >= 1
    ensures var s' := Step(b, s, a);
      && s'.threads.cells == s.threads.cells[a.c := CellAt(s', a.c)]
      && CellWork(b, a.c, CellAt(s', a.c)) < CellWork(b, a.c, CellAt(s, a.c))
  {
    hide Judges, OpenCase, NonNull, AskStep, SettleStep, EnlistStep, OfferStep, LandStep, DropStep, SettleJobStep, CountStep, MarkStep, After;
    if a.OpenNext? && CellAt(s, a.c).next < Cases(b, a.c) {
      assert InGrid(b, CaseKey(a.c, CellAt(s, a.c).next));
    }
  }

  lemma OwnExit(b: Batch, s: Sys, a: Action)
    requires a.CountOne? || a.MarkOne? || a.StampOne?
    requires Enabled(b, s, a)
    ensures var s' := Step(b, s, a);
      && s'.threads.cells == s.threads.cells[a.c := CellAt(s', a.c)]
      && CellWork(b, a.c, CellAt(s', a.c)) < CellWork(b, a.c, CellAt(s, a.c))
  {
    hide Judges, OpenStep, FailStep, MarkCellsDone, AskStep, SettleStep, EnlistStep, OfferStep, LandStep, DropStep, SettleJobStep, After;
  }

  lemma VoteShrinks(b: Batch, s: Sys, a: Action)
    requires OfVote(a) && Inv(b, s) && ValidBatch(b) && Enabled(b, s, a)
    ensures JobsWork(Step(b, s, a).threads.jobs) < JobsWork(s.threads.jobs) && Step(b, s, a).threads.cells == s.threads.cells
  {
    hide JobsWork, AllTokens, AllSamples, AllJobs, AllCases, AllCells, AllGrid, AllRuns, Step, Enabled, ValidBatch, BusyCells, BusyJobs;
    StepKeeps(b, s, a);
    VoteOwnMove(b, s, a);
    JobsChange(s.threads.jobs, a.v, JobAt(Step(b, s, a), a.v));
  }

  lemma VoteOwnMove(b: Batch, s: Sys, a: Action)
    requires OfVote(a) && Enabled(b, s, a) && !Step(b, s, a).control.crashed
    ensures var s' := Step(b, s, a);
      && a.v in s.threads.jobs && s'.threads == s.threads.(jobs := s.threads.jobs[a.v := JobAt(s', a.v)])
      && JobWork(JobAt(s', a.v)) < JobWork(s.threads.jobs[a.v])
  {
    hide LandVote, SettleSample, DecrementPending, CaseScore, OpenStep, AskStep, SettleStep, EnlistStep, OfferStep, FailStep, CountStep, MarkStep, After;
  }

  /** Every step, a cancel included, leaves less work than there was. */
  lemma StepShrinks(b: Batch, s: Sys, a: Action)
    requires Inv(b, s) && ValidBatch(b) && Enabled(b, s, a)
    ensures Less(WorkOf(b, Step(b, s, a)), WorkOf(b, s))
  {
    hide Inv, ValidBatch, Step, Enabled, CellsWork, JobsWork, Switches;
    if OfCell(a) {
      CellShrinks(b, s, a);
    } else if OfVote(a) {
      VoteShrinks(b, s, a);
    } else {
      PoolHolds(b, s);
      SwitchShrinks(b, s, a);
    }
  }

  lemma PoolHolds(b: Batch, s: Sys)
    requires Inv(b, s)
    ensures PoolOk(b, s) && AllCells(b, s) && AllJobs(b, s)
  {
  }

  /** So there is no endless run: any endless list of states and actions breaks the rules somewhere. */
  lemma {:induction false} NoEndlessRun(b: Batch, states: nat -> Sys, actions: nat -> Action, from: nat) returns (n: nat)
    requires ValidBatch(b) && Inv(b, states(from))
    ensures n >= from
    ensures Enabled(b, states(n), actions(n)) ==> states(n + 1) != Step(b, states(n), actions(n))
    decreases WorkOf(b, states(from)).cells, WorkOf(b, states(from)).jobs, WorkOf(b, states(from)).switches
  {
    hide Inv, ValidBatch, Step, Enabled, WorkOf;
    if Enabled(b, states(from), actions(from)) && states(from + 1) == Step(b, states(from), actions(from)) {
      StepShrinks(b, states(from), actions(from));
      StepKeeps(b, states(from), actions(from));
      n := NoEndlessRun(b, states, actions, from + 1);
    } else {
      n := from;
    }
  }

  // ---------------------------------------------------------------------
  // There is always a step to take

  /** Where a busy cell can go, unless it waits to hand over a vote. */
  lemma BusyCellSteps(b: Batch, s: Sys, c: Cell) returns (a: Action)
    requires !s.control.crashed && CellBusy(CellAt(s, c)) && !CellAt(s, c).Offer?
    ensures Enabled(b, s, a) && a != Cancel
  {
    a := match CellAt(s, c)
      case Start => Begin(c)
      case Next(_, _) => OpenNext(c)
      case Ask(_) => AskOne(c)
      case Settle(_, _) => SettleOne(c)
      case Write(_, _) => WriteOne(c)
      case Enlist(_) => EnlistOne(c)
      case FailRest(_) => FailOne(c)
      case Count => CountOne(c)
      case Mark => MarkOne(c)
      case _ => StampOne(c);
  }

  lemma BusyVoteSteps(b: Batch, s: Sys, v: VoteKey) returns (a: Action)
    requires !s.control.crashed && JobBusy(JobAt(s, v))
    ensures Enabled(b, s, a) && a != Cancel
  {
    a := match JobAt(s, v)
      case Judging => Judge(v)
      case Landing => Land(v)
      case Settling(_) => SettleVote(v)
      case Writing(_) => WriteVote(v)
      case Dropping => Drop(v)
      case _ => StampVote(v);
  }

  lemma SomeMember(rs: set<int>) returns (r: int)
    requires rs != {}
    ensures r in rs
  {
    assert (forall x: int :: x !in rs) ==> rs == {};
    r :| r in rs;
  }

  /** With nobody busy the driver or an idle worker can move. */
  lemma IdleSteps(b: Batch, s: Sys) returns (a: Action)
    requires PoolOk(b, s) && b.examWorkers >= 1 && !s.control.phase.Over?
    requires BusyCells(b, s.threads.cells) == {} && BusyJobs(s.threads.jobs) == {}
    ensures Enabled(b, s, a) && a != Cancel
  {
    var o := s.control;
    match o.phase
    case Feeding =>
      if !o.cancelled && exists c | c in b.cells :: CellAt(s, c).Waiting? {
        var c :| c in b.cells && CellAt(s, c).Waiting?;
        a := Take(c);
      } else {
        a := CloseFeed;
      }
    case Fed => a := if o.exam.idle > 0 then ExamLeaves else CloseJudges;
    case Closed => a := if o.judge.idle > 0 then JudgeLeaves else BeginTail;
    case Tail(todo) =>
      if todo != {} {
        var r := SomeMember(todo);
        a := FailRun(r);
      } else {
        a := Finish;
      }
  }

  /** A cell is waiting to hand over a vote, every judge has left and nobody has cancelled. */
  ghost predicate Stranded(b: Batch, s: Sys) {
    && b.timed && !s.control.cancelled && s.control.judge.left == b.judgeWorkers
    && exists c | c in b.cells :: CellAt(s, c).Offer?
  }

  /** Until the driver is through some step other than a cancel is possible, or the batch is stranded. */
  lemma CanStep(b: Batch, s: Sys) returns (a: Action)
    requires Inv(b, s) && ValidBatch(b) && !s.control.phase.Over?
    ensures a != Cancel
    ensures Enabled(b, s, a) || Stranded(b, s)
  {
    hide Inv, CellOk, JobOk, Enabled;
    PoolHolds(b, s);
    if v :| v in BusyJobs(s.threads.jobs) {
      a := BusyVoteSteps(b, s, v);
    } else if c :| c in BusyCells(b, s.threads.cells) {
      a := CellCanStep(b, s, c);
    } else {
      a := IdleSteps(b, s);
    }
  }

  lemma CellCanStep(b: Batch, s: Sys, c: Cell) returns (a: Action)
    requires PoolOk(b, s) && ValidBatch(b) && c in BusyCells(b, s.threads.cells) && BusyJobs(s.threads.jobs) == {}
    ensures a != Cancel
    ensures Enabled(b, s, a) || Stranded(b, s)
  {
    if !CellAt(s, c).Offer? {
      a := BusyCellSteps(b, s, c);
    } else if s.control.cancelled {
      a := Cut(c);
    } else {
      ChannelOpen(b, s, c);
      a := Hand(c);
    }
  }

  /** Without a time budget the judges stay until the queue closes: from every state of a run the batch can go on to the end. Retries are such batches. */
  lemma {:induction false} UntimedFinishes(b: Batch, trace: seq<Sys>, actions: seq<Action>) returns (trace': seq<Sys>, actions': seq<Action>)
    requires ValidBatch(b) && !b.timed && IsRun(b, trace, actions)
    ensures IsRun(b, trace', actions') && trace <= trace' && actions <= actions'
    ensures trace'[|trace'| - 1].control.phase.Over?
    ensures forall i | |actions| <= i < |actions'| :: actions'[i] != Cancel
    decreases WorkOf(b, trace[|trace| - 1]).cells, WorkOf(b, trace[|trace| - 1]).jobs, WorkOf(b, trace[|trace| - 1]).switches
  {
    hide Inv, ValidBatch, Step, Enabled, WorkOf, Init;
    var s := trace[|trace| - 1];
    RunHolds(b, trace, actions, |trace| - 1);
    if s.control.phase.Over? {
      return trace, actions;
    }
    var a := CanStep(b, s);
    StepShrinks(b, s, a);
    var t2, a2 := trace + [Step(b, s, a)], actions + [a];
    assert t2[|t2| - 1] == Step(b, s, a);
    Extended(b, trace, actions, a);
    trace', actions' := UntimedFinishes(b, t2, a2);
  }

  lemma Extended(b: Batch, trace: seq<Sys>, actions: seq<Action>, a: Action)
    requires IsRun(b, trace, actions) && Enabled(b, trace[|trace| - 1], a)
    ensures IsRun(b, trace + [Step(b, trace[|trace| - 1], a)], actions + [a])
  {
    hide Step, Enabled, Init;
    var t2, a2 := trace + [Step(b, trace[|trace| - 1], a)], actions + [a];
    forall i | 0 <= i < |a2| ensures Enabled(b, t2[i], a2[i]) && t2[i + 1] == Step(b, t2[i], a2[i]) {
      if i < |actions| {
        assert a2[i] == actions[i] && t2[i] == trace[i] && t2[i + 1] == trace[i + 1];
      }
    }
  }
}
