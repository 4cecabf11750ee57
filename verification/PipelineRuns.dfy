/** Counting cells and votes off, marking and stamping runs, and the driver's own steps. */
module PipelineRuns {
  import opened Wrappers
  import opened Median
  import opened PipelineBook
  import opened PipelineMachine
  import opened PipelineInvariant
  import opened PipelineFrame
  import opened PipelineKeeps
  import opened PipelineVotes

  // ---------------------------------------------------------------------
  // A cell on its way out

  /** A step of a cell that has left its cases: only its run and its worker are concerned. */
  ghost predicate CellLeaves(b: Batch, s: Sys, s': Sys, c: Cell, pc: CellPc) {
    && c in b.cells && c in s.threads.cells
    && (CellAt(s, c).Count? || CellAt(s, c).Mark? || CellAt(s, c).Stamp?) && (pc.Mark? || pc.Stamp? || pc.Returned?)
    && s'.threads == s.threads.(cells := s.threads.cells[c := pc], remaining := s'.threads.remaining)
    && s'.book.aggs == s.book.aggs && s'.book.votes == s.book.votes && s'.book.pending == s.book.pending
    && s'.db.rows == s.db.rows && s'.db.ballots == s.db.ballots
    && s'.past == s.past.(runs := s'.past.runs)
    && OnlyRun(s, s', c.run)
    && s'.control == s.control.(exam := s'.control.exam)
  }

  lemma LeavingAround(b: Batch, s: Sys, s': Sys, c: Cell, pc: CellPc)
    requires CellLeaves(b, s, s', c, pc)
    ensures Around(s, s', ByCell(c), SomeKey(c, 0)) && SameRefusals(b, s, s', SomeKey(c, 0))
    ensures forall v: VoteKey :: JobAt(s', v) == JobAt(s, v)
  {
    hide Around, OnlyRun;
    StaysAround(s, s', ByCell(c), SomeKey(c, 0));
  }

  lemma LeavingGrid(b: Batch, s: Sys, s': Sys, c: Cell, pc: CellPc, ck: CaseKey)
    requires CellLeaves(b, s, s', c, pc) && ck.cell == c && GridOk(b, s, ck)
    ensures GridOk(b, s', ck)
  {
    hide OnlyRun;
  }

  lemma LeavingVote(b: Batch, s: Sys, s': Sys, c: Cell, pc: CellPc, v: VoteKey)
    requires CellLeaves(b, s, s', c, pc) && v.sample.of.cell == c && JobOk(b, s, v)
    ensures JobOk(b, s', v)
  {
    hide OnlyRun;
    JobKept(b, s, s', v);
  }

  lemma LeavingCase(b: Batch, s: Sys, s': Sys, c: Cell, pc: CellPc, ck: CaseKey)
    requires CellLeaves(b, s, s', c, pc) && ck.cell == c && CaseOk(b, s, ck)
    requires CaseAt(s, ck).Closing? ==> CaseAt(s, ck).who != ByCell(c)
    requires forall t | t != ByCell(c) :: DutyOf(s', t) == DutyOf(s, t)
    ensures CaseOk(b, s', ck)
  {
    hide OnlyRun, DutyOf;
    CaseKept(b, s, s', ck);
  }

  lemma LeavingElsewhere(b: Batch, s: Sys, c: Cell, k: SampleKey)
    requires SampleOk(b, s, k) && CaseOk(b, s, k.of) && (CellAt(s, c).Count? || CellAt(s, c).Mark? || CellAt(s, c).Stamp?)
    ensures SampleAt(s, k).Deciding? ==> SampleAt(s, k).who != ByCell(c)
    ensures CaseAt(s, k.of).Closing? ==> CaseAt(s, k.of).who != ByCell(c)
  {
    hide BallotOk, Tally, RowsDue;
  }

  lemma LeavingRightful(b: Batch, s: Sys, s': Sys, c: Cell, pc: CellPc)
    requires CellLeaves(b, s, s', c, pc)
    requires RunAt(s, c.run).Finishing? && RunAt(s, c.run).who != ByCell(c) ==> RunAt(s', c.run) == RunAt(s, c.run)
    ensures Rightful(s, s', ByCell(c), SomeKey(c, 0))
  {
    hide OnlyRun;
  }

  /** What is left to show for a leaving cell is its run, its own clause, its token and the pools. */
  lemma LeavingKeeps(b: Batch, s: Sys, s': Sys, c: Cell, pc: CellPc)
    requires Inv(b, s) && CellLeaves(b, s, s', c, pc)
    requires TokenOk(b, s', ByCell(c)) && CellOk(b, s', c) && RunOk(b, s', c.run) && PoolOk(b, s')
    requires RunAt(s, c.run).Finishing? && RunAt(s, c.run).who != ByCell(c) ==> RunAt(s', c.run) == RunAt(s, c.run)
    ensures Inv(b, s')
  {
    hide TokenOk, SampleOk, CaseOk, GridOk, RunOk, JobOk, PoolOk, Rightful, CellOk, CellLeaves, SameRefusals;
    var k := SomeKey(c, 0);
    assert SampleOk(b, s, k) && CaseOk(b, s, k.of);
    LeavingAround(b, s, s', c, pc);
    LeavingRightful(b, s, s', c, pc);
    LeavingSample(b, s, s', c, pc);
    LeavingFrom(b, s, s', c, pc);
    LeavingElsewhere(b, s, c, k);
    LeavingCase(b, s, s', c, pc, k.of);
    forall i: nat ensures JobOk(b, s', VoteKey(k, i)) {
      assert JobOk(b, s, VoteKey(k, i));
      LeavingVote(b, s, s', c, pc, VoteKey(k, i));
    }
    forall at: nat ensures GridOk(b, s', CaseKey(c, at)) {
      assert GridOk(b, s, CaseKey(c, at));
      LeavingGrid(b, s, s', c, pc, CaseKey(c, at));
    }
    KeepAround(b, s, s', ByCell(c), k);
  }

  lemma LeavingFrom(b: Batch, s: Sys, s': Sys, c: Cell, pc: CellPc)
    requires CellLeaves(b, s, s', c, pc)
    ensures CellAt(s, c).Count? || CellAt(s, c).Mark? || CellAt(s, c).Stamp?
  {
  }

  lemma LeavingSample(b: Batch, s: Sys, s': Sys, c: Cell, pc: CellPc)
    requires CellLeaves(b, s, s', c, pc) && SampleOk(b, s, SomeKey(c, 0)) && CaseOk(b, s, CaseKey(c, 0))
    requires Around(s, s', ByCell(c), SomeKey(c, 0))
    ensures SampleOk(b, s', SomeKey(c, 0))
  {
    hide OnlyRun, DutyOf, SampleOk, CaseOk;
    LeavingElsewhere(b, s, c, SomeKey(c, 0));
    SampleKept(b, s, s', SomeKey(c, 0));
  }

  lemma OneFewer(b: Batch, cells: map<Cell, CellPc>, c: Cell, pc: CellPc)
    requires c in b.cells && !Counted(CellIn(cells, c)) && Counted(pc)
    ensures Uncounted(b, cells[c := pc], c.run) == Uncounted(b, cells, c.run) - {c}
    ensures |Uncounted(b, cells[c := pc], c.run)| == |Uncounted(b, cells, c.run)| - 1
  {
    assert c in Uncounted(b, cells, c.run);
    assert Uncounted(b, cells[c := pc], c.run) == Uncounted(b, cells, c.run) - {c};
  }

  lemma OneLessBusy(b: Batch, cells: map<Cell, CellPc>, c: Cell)
    requires c in b.cells && CellBusy(CellIn(cells, c))
    ensures |BusyCells(b, cells[c := Returned])| == |BusyCells(b, cells)| - 1
  {
    assert c in BusyCells(b, cells);
    assert BusyCells(b, cells[c := Returned]) == BusyCells(b, cells) - {c};
  }

  lemma PoolReturns(b: Batch, s: Sys, s': Sys, c: Cell, pc: CellPc)
    requires PoolOk(b, s) && c in b.cells && CellBusy(CellAt(s, c)) && s'.threads.jobs == s.threads.jobs
    requires s'.threads.cells == s.threads.cells[c := pc] && !pc.Waiting?
    requires if pc.Returned? then s'.control == s.control.(exam := Crew(s.control.exam.idle + 1, s.control.exam.left))
      else CellBusy(pc) && s'.control == s.control
    ensures PoolOk(b, s')
  {
    if pc.Returned? { OneLessBusy(b, s.threads.cells, c); } else { SameBusy(b, s.threads.cells, c, pc); }
  }

  lemma CountRun(b: Batch, s: Sys, c: Cell)
    requires ValidBatch(b) && CellAt(s, c).Count? && c in b.cells && RunOk(b, s, c.run)
    ensures RunOk(b, CountStep(s, c), c.run)
    ensures CellAt(CountStep(s, c), c).Mark? ==> Uncounted(b, CountStep(s, c).threads.cells, c.run) == {}
  {
    hide OpenVotes, Uncounted, CellDuty, JobDuty;
    var s' := CountStep(s, c);
    assert c.run in b.runs;
    OneFewer(b, s.threads.cells, c, CellAt(s', c));
    assert c in Uncounted(b, s.threads.cells, c.run) by { UncountedHas(b, s, c); }
    if CellAt(s', c).Mark? {
      assert CellAt(s', c).Mark? && c.run == c.run;
    }
    forall t | t != ByCell(c) ensures DutyOf(s', t) == DutyOf(s, t) {}
    FreeIsNotFinisher(b, s, c);
  }

  lemma UncountedHas(b: Batch, s: Sys, c: Cell)
    requires c in b.cells && !Counted(CellAt(s, c))
    ensures c in Uncounted(b, s.threads.cells, c.run)
  {
  }

  lemma FreeIsNotFinisher(b: Batch, s: Sys, c: Cell)
    requires RunOk(b, s, c.run) && !CellAt(s, c).Stamp?
    ensures RunAt(s, c.run).Finishing? ==> RunAt(s, c.run).who != ByCell(c)
  {
    hide OpenVotes, Uncounted;
  }

  lemma CountKeeps(b: Batch, s: Sys, c: Cell)
    requires Inv(b, s) && ValidBatch(b) && CellAt(s, c).Count?
    ensures Inv(b, CountStep(s, c))
  {
    hide TokenOk, SampleOk, CaseOk, GridOk, RunOk, JobOk, PoolOk, ValidBatch, Uncounted;
    var s' := CountStep(s, c);
    assert CellOk(b, s, c) && RunOk(b, s, c.run);
    CountRun(b, s, c);
    FreeIsNotFinisher(b, s, c);
    MovedToken(b, s', ByCell(c));
    PoolReturns(b, s, s', c, CellAt(s', c));
    LeavingKeeps(b, s, s', c, CellAt(s', c));
  }

  lemma MarkRun(b: Batch, s: Sys, c: Cell)
    requires ValidBatch(b) && CellAt(s, c).Mark? && c in b.cells && RunOk(b, s, c.run) && Uncounted(b, s.threads.cells, c.run) == {}
    requires !ChannelClosed(s.control.phase)
    ensures RunOk(b, MarkStep(s, c), c.run) && TokenOk(b, MarkStep(s, c), ByCell(c))
    ensures RunAt(s, c.run).Finishing? && RunAt(s, c.run).who != ByCell(c) ==> RunAt(MarkStep(s, c), c.run) == RunAt(s, c.run)
  {
    hide OpenVotes, Uncounted, JobDuty;
    var s' := MarkStep(s, c);
    assert c.run in b.runs;
    SameCount(b, s.threads.cells, c, CellAt(s', c));
    FreeIsNotFinisher(b, s, c);
    forall t | t != ByCell(c) ensures DutyOf(s', t) == DutyOf(s, t) {}
  }

  lemma MarkKeeps(b: Batch, s: Sys, c: Cell)
    requires Inv(b, s) && ValidBatch(b) && CellAt(s, c).Mark?
    ensures Inv(b, MarkStep(s, c))
  {
    hide TokenOk, SampleOk, CaseOk, GridOk, RunOk, JobOk, PoolOk, ValidBatch, Uncounted;
    var s' := MarkStep(s, c);
    assert CellOk(b, s, c) && RunOk(b, s, c.run);
    ChannelOpen(b, s, c);
    MarkRun(b, s, c);
    PoolReturns(b, s, s', c, CellAt(s', c));
    LeavingKeeps(b, s, s', c, CellAt(s', c));
  }

  lemma StampCellRun(b: Batch, s: Sys, c: Cell)
    requires CellAt(s, c).Stamp? && c in b.cells && RunOk(b, s, c.run) && TokenOk(b, s, ByCell(c))
    ensures RunOk(b, Return(StampRun(s, c.run), c), c.run)
    ensures RunAt(s, c.run) == Finishing(ByCell(c))
  {
    hide OpenVotes, Uncounted;
    SameCount(b, s.threads.cells, c, Returned);
    assert forall d: Cell | d != c :: CellAt(Return(StampRun(s, c.run), c), d) == CellAt(s, d);
    var none: seq<Status> := [];
    assert none + [DoneStamp] == [DoneStamp];
  }

  lemma StampKeeps(b: Batch, s: Sys, c: Cell)
    requires Inv(b, s) && CellAt(s, c).Stamp?
    ensures Inv(b, Return(StampRun(s, c.run), c))
  {
    hide TokenOk, SampleOk, CaseOk, GridOk, RunOk, JobOk, PoolOk, Uncounted;
    var s' := Return(StampRun(s, c.run), c);
    assert CellOk(b, s, c) && RunOk(b, s, c.run) && TokenOk(b, s, ByCell(c));
    StampCellRun(b, s, c);
    MovedToken(b, s', ByCell(c));
    PoolReturns(b, s, s', c, Returned);
    LeavingKeeps(b, s, s', c, Returned);
  }

  // ---------------------------------------------------------------------
  // A vote on its way out

  ghost predicate VoteLeaves(s: Sys, s': Sys, v: VoteKey, pc: JobPc) {
    && v in s.threads.jobs && v.sample.of.cell in s.threads.cells
    && (JobAt(s, v).Dropping? || JobAt(s, v).Stamping?) && (pc.Stamping? || pc.Done?)
    && s'.threads == s.threads.(jobs := s.threads.jobs[v := pc])
    && s'.book == s.book.(pending := s'.book.pending, finished := s'.book.finished)
    && s'.db == s.db.(stamps := s'.db.stamps) && s'.past == s.past.(runs := s'.past.runs)
    && OnlyRun(s, s', v.sample.of.cell.run)
    && s'.control == s.control.(judge := s'.control.judge)
  }

  lemma VoteLeavesAround(b: Batch, s: Sys, s': Sys, v: VoteKey, pc: JobPc)
    requires VoteLeaves(s, s', v, pc)
    requires RunAt(s, v.sample.of.cell.run).Finishing? && RunAt(s, v.sample.of.cell.run).who != ByVote(v) ==>
      RunAt(s', v.sample.of.cell.run) == RunAt(s, v.sample.of.cell.run)
    ensures Around(s, s', ByVote(v), v.sample) && Rightful(s, s', ByVote(v), v.sample) && SameRefusals(b, s, s', v.sample)
  {
    hide Around, OnlyRun;
    VoteStaysAround(s, s', v);
  }

  /** A leaving vote has landed already, so its sample, case and cell do not notice. */
  lemma VoteLeavesRest(b: Batch, s: Sys, s': Sys, v: VoteKey, pc: JobPc)
    requires Inv(b, s) && VoteLeaves(s, s', v, pc) && Around(s, s', ByVote(v), v.sample)
    ensures SampleOk(b, s', v.sample) && CaseOk(b, s', v.sample.of) && CellOk(b, s', v.sample.of.cell)
  {
    hide SampleOk, CaseOk, RunOk, JobOk, PoolOk, OnlyRun, GridOk, TokenOk, CellOk, DutyOf;
    var k := v.sample;
    assert SampleOk(b, s, k) && CaseOk(b, s, k.of) && CellOk(b, s, k.of.cell);
    LeavingVoteElsewhere(b, s, v);
    SampleKept(b, s, s', k);
    CaseKept(b, s, s', k.of);
    LeavingVoteCell(b, s, s', v, pc);
  }

  lemma LeavingVoteElsewhere(b: Batch, s: Sys, v: VoteKey)
    requires SampleOk(b, s, v.sample) && CaseOk(b, s, v.sample.of) && (JobAt(s, v).Dropping? || JobAt(s, v).Stamping?)
    ensures SampleAt(s, v.sample).Deciding? ==> SampleAt(s, v.sample).who != ByVote(v)
    ensures CaseAt(s, v.sample.of).Closing? ==> CaseAt(s, v.sample.of).who != ByVote(v)
  {
    hide BallotOk, Tally, RowsDue;
  }

  lemma LeavingVoteCell(b: Batch, s: Sys, s': Sys, v: VoteKey, pc: JobPc)
    requires VoteLeaves(s, s', v, pc) && CellOk(b, s, v.sample.of.cell)
    ensures CellOk(b, s', v.sample.of.cell)
  {
    hide OnlyRun, Judges;
  }

  lemma LeavingVoteJob(b: Batch, s: Sys, s': Sys, v: VoteKey, pc: JobPc, w: VoteKey)
    requires VoteLeaves(s, s', v, pc) && w.sample == v.sample && JobOk(b, s, w)
    ensures JobOk(b, s', w)
  {
    hide OnlyRun, Judges;
  }

  lemma LeavingVoteGrid(b: Batch, s: Sys, s': Sys, v: VoteKey, pc: JobPc, ck: CaseKey)
    requires VoteLeaves(s, s', v, pc) && GridOk(b, s, ck)
    ensures GridOk(b, s', ck)
  {
    hide OnlyRun, GridOk;
    GridKept(b, s, s', ck);
  }

  lemma VoteLeavesKeeps(b: Batch, s: Sys, s': Sys, v: VoteKey, pc: JobPc)
    requires Inv(b, s) && VoteLeaves(s, s', v, pc)
    requires TokenOk(b, s', ByVote(v)) && RunOk(b, s', v.sample.of.cell.run) && PoolOk(b, s')
    requires RunAt(s, v.sample.of.cell.run).Finishing? && RunAt(s, v.sample.of.cell.run).who != ByVote(v) ==>
      RunAt(s', v.sample.of.cell.run) == RunAt(s, v.sample.of.cell.run)
    ensures Inv(b, s')
  {
    hide SampleOk, CaseOk, RunOk, JobOk, PoolOk, GridOk, TokenOk, CellOk, Around, Rightful, SameRefusals, VoteLeaves;
    VoteLeavesAround(b, s, s', v, pc);
    VoteLeavesRest(b, s, s', v, pc);
    forall i: nat ensures JobOk(b, s', VoteKey(v.sample, i)) {
      assert JobOk(b, s, VoteKey(v.sample, i));
      LeavingVoteJob(b, s, s', v, pc, VoteKey(v.sample, i));
    }
    forall at: nat ensures GridOk(b, s', CaseKey(v.sample.of.cell, at)) {
      assert GridOk(b, s, CaseKey(v.sample.of.cell, at));
      LeavingVoteGrid(b, s, s', v, pc, CaseKey(v.sample.of.cell, at));
    }
    KeepAround(b, s, s', ByVote(v), v.sample);
  }

  lemma OneFewerVote(jobs: map<VoteKey, JobPc>, v: VoteKey, pc: JobPc)
    requires v in jobs && jobs[v].Dropping? && (pc.Stamping? || pc.Done?)
    ensures OpenVotes(jobs[v := pc], v.sample.of.cell.run) == OpenVotes(jobs, v.sample.of.cell.run) - {v}
    ensures |OpenVotes(jobs[v := pc], v.sample.of.cell.run)| == |OpenVotes(jobs, v.sample.of.cell.run)| - 1
    ensures OpenVotes(jobs, v.sample.of.cell.run) != {}
  {
    assert v in OpenVotes(jobs, v.sample.of.cell.run);
    assert OpenVotes(jobs[v := pc], v.sample.of.cell.run) == OpenVotes(jobs, v.sample.of.cell.run) - {v};
  }

  lemma VotePool(b: Batch, s: Sys, s': Sys, v: VoteKey, pc: JobPc)
    requires PoolOk(b, s) && v in s.threads.jobs && JobBusy(JobAt(s, v)) && s'.threads == s.threads.(jobs := s.threads.jobs[v := pc])
    requires if pc.Done? then s'.control == s.control.(judge := Crew(s.control.judge.idle + 1, s.control.judge.left))
      else JobBusy(pc) && s'.control == s.control
    ensures PoolOk(b, s')
  {
    assert v in BusyJobs(s.threads.jobs);
    if pc.Done? {
      assert BusyJobs(s'.threads.jobs) == BusyJobs(s.threads.jobs) - {v};
    } else {
      assert BusyJobs(s'.threads.jobs) == BusyJobs(s.threads.jobs);
    }
  }

  /** While a vote is busy the judge pool has not emptied, so the driver is not in its tail. */
  lemma TailNotYet(b: Batch, s: Sys, v: VoteKey)
    requires PoolOk(b, s) && v in s.threads.jobs && JobBusy(JobAt(s, v))
    ensures !s.control.phase.Tail? && !s.control.phase.Over?
  {
    assert v in BusyJobs(s.threads.jobs);
  }

  lemma DropRun(b: Batch, s: Sys, v: VoteKey)
    requires JobAt(s, v).Dropping? && v in s.threads.jobs && RunOk(b, s, v.sample.of.cell.run) && v.sample.of.cell.run in b.runs
    requires !s.control.phase.Tail? && !s.control.phase.Over?
    ensures RunOk(b, DropStep(s, v), v.sample.of.cell.run) && TokenOk(b, DropStep(s, v), ByVote(v))
    ensures RunAt(s, v.sample.of.cell.run) == Running
  {
    hide OpenVotes, Uncounted, CellDuty;
    var s', r := DropStep(s, v), v.sample.of.cell.run;
    OneFewerVote(s.threads.jobs, v, JobAt(s', v));
    assert r !in s.book.finished;
    forall c ensures CellAt(s', c) == CellAt(s, c) {}
  }

  lemma DropLeaves(s: Sys, v: VoteKey)
    requires JobAt(s, v).Dropping? && v in s.threads.jobs && v.sample.of.cell in s.threads.cells
    ensures VoteLeaves(s, DropStep(s, v), v, JobAt(DropStep(s, v), v))
    ensures var s' := DropStep(s, v); s'.control == if JobAt(s', v).Done? then s.control.(judge := Crew(s.control.judge.idle + 1, s.control.judge.left)) else s.control
  {
  }

  lemma DropKeeps(b: Batch, s: Sys, v: VoteKey)
    requires Inv(b, s) && ValidBatch(b) && JobAt(s, v).Dropping?
    ensures Inv(b, DropStep(s, v))
  {
    hide SampleOk, CaseOk, RunOk, JobOk, PoolOk, GridOk, TokenOk, CellOk, DropStep, ValidBatch, OnlyRun;
    var s', k := DropStep(s, v), v.sample;
    assert SampleOk(b, s, k) && CaseOk(b, s, k.of) && JobOk(b, s, v) && CellOk(b, s, k.of.cell) && RunOk(b, s, k.of.cell.run);
    VoteInGrid(b, s, v);
    RunsOfCells(b, k.of.cell);
    TailNotYet(b, s, v);
    DropRun(b, s, v);
    DropLeaves(s, v);
    VotePool(b, s, s', v, JobAt(s', v));
    VoteLeavesKeeps(b, s, s', v, JobAt(s', v));
  }

  lemma RunsOfCells(b: Batch, c: Cell)
    requires ValidBatch(b) && c in b.cells
    ensures c.run in b.runs
  {
  }

  lemma StampVoteRun(b: Batch, s: Sys, v: VoteKey)
    requires JobAt(s, v).Stamping? && v in s.threads.jobs && RunOk(b, s, v.sample.of.cell.run) && TokenOk(b, s, ByVote(v))
    ensures RunOk(b, ReturnJob(StampRun(s, v.sample.of.cell.run), v), v.sample.of.cell.run)
    ensures RunAt(s, v.sample.of.cell.run) == Finishing(ByVote(v))
  {
    hide Uncounted;
    var s', r := ReturnJob(StampRun(s, v.sample.of.cell.run), v), v.sample.of.cell.run;
    assert OpenVotes(s'.threads.jobs, r) == OpenVotes(s.threads.jobs, r);
    forall c ensures CellAt(s', c) == CellAt(s, c) {}
    var none: seq<Status> := [];
    assert none + [DoneStamp] == [DoneStamp];
  }

  lemma StampVoteKeeps(b: Batch, s: Sys, v: VoteKey)
    requires Inv(b, s) && JobAt(s, v).Stamping?
    ensures Inv(b, ReturnJob(StampRun(s, v.sample.of.cell.run), v))
  {
    hide SampleOk, CaseOk, RunOk, JobOk, PoolOk, GridOk, TokenOk, CellOk;
    var s', k := ReturnJob(StampRun(s, v.sample.of.cell.run), v), v.sample;
    assert SampleOk(b, s, k) && CaseOk(b, s, k.of) && JobOk(b, s, v) && CellOk(b, s, k.of.cell) && RunOk(b, s, k.of.cell.run) && TokenOk(b, s, ByVote(v));
    VoteInGrid(b, s, v);
    StampVoteRun(b, s, v);
    MovedToken(b, s', ByVote(v));
    VotePool(b, s, s', v, Done);
    VoteLeavesKeeps(b, s, s', v, Done);
  }

  // ---------------------------------------------------------------------
  // The driver

  /** Steps that only turn the driver's own switches. */
  lemma ControlKeeps(b: Batch, s: Sys, s': Sys)
    requires Inv(b, s) && s'.book == s.book && s'.threads == s.threads && s'.past == s.past
    requires s'.db == s.db.(stamps := s'.db.stamps) && (s.control.cancelled ==> s'.control.cancelled)
    requires PoolOk(b, s') && forall r :: RunOk(b, s', r)
    ensures Inv(b, s')
  {
    hide RunOk, PoolOk, DutyOf, BallotOk, RowsDue, Tally, FullAggregate;
    forall t ensures DutyOf(s', t) == DutyOf(s, t) { SameDuty(s, s', t); }
    forall t ensures TokenOk(b, s', t) { assert TokenOk(b, s, t); }
    forall k ensures SampleOk(b, s', k) { assert SampleOk(b, s, k); }
    ControlCases(b, s, s');
    ControlCells(b, s, s');
  }

  lemma SameDuty(s: Sys, s': Sys, t: Token)
    requires s'.threads == s.threads
    ensures DutyOf(s', t) == DutyOf(s, t)
  {
    hide CellDuty, JobDuty;
  }

  lemma ControlCases(b: Batch, s: Sys, s': Sys)
    requires AllCases(b, s) && AllJobs(b, s) && s'.book == s.book && s'.threads == s.threads && s'.past == s.past
    requires s'.db == s.db.(stamps := s'.db.stamps) && (s.control.cancelled ==> s'.control.cancelled)
    ensures AllCases(b, s') && AllJobs(b, s')
  {
    hide CaseOk, JobOk, DutyOf;
    forall t ensures DutyOf(s', t) == DutyOf(s, t) { SameDuty(s, s', t); }
    forall ck ensures CaseOk(b, s', ck) {
      assert CaseOk(b, s, ck);
      CaseKept(b, s, s', ck);
    }
    forall v ensures JobOk(b, s', v) {
      assert JobOk(b, s, v);
      ControlJob(b, s, s', v);
    }
  }

  lemma ControlJob(b: Batch, s: Sys, s': Sys, v: VoteKey)
    requires JobOk(b, s, v) && s'.threads == s.threads && s'.past == s.past && s'.db.ballots == s.db.ballots && (s.control.cancelled ==> s'.control.cancelled)
    ensures JobOk(b, s', v)
  {
    hide Judges;
  }

  lemma ControlCells(b: Batch, s: Sys, s': Sys)
    requires AllCells(b, s) && AllGrid(b, s) && s'.threads == s.threads && s'.past == s.past
    ensures AllCells(b, s') && AllGrid(b, s')
  {
    hide GridOk, PcOk;
    forall c ensures CellOk(b, s', c) {
      assert CellOk(b, s, c);
      ControlPc(b, s, s', c);
    }
    forall ck ensures GridOk(b, s', ck) {
      assert GridOk(b, s, ck);
      GridKept(b, s, s', ck);
    }
  }

  lemma ControlPc(b: Batch, s: Sys, s': Sys, c: Cell)
    requires s'.threads == s.threads
    ensures PcOk(b, s', c, CellAt(s, c)) == PcOk(b, s, c, CellAt(s, c))
  {
    hide Judges;
    assert forall v: VoteKey :: JobAt(s', v) == JobAt(s, v);
  }

  /** A run's clause looks at the driver only to see which runs have been failed. */
  lemma ControlRun(b: Batch, s: Sys, s': Sys, r: int)
    requires RunOk(b, s, r) && s'.book == s.book && s'.threads == s.threads && s'.past == s.past
    requires r in b.runs ==> Stamps(s', r) == StampsDue(s', r)
    ensures RunOk(b, s', r)
  {
    hide Uncounted, OpenVotes, DutyOf;
    forall t ensures DutyOf(s', t) == DutyOf(s, t) { SameDuty(s, s', t); }
    forall c ensures CellAt(s', c) == CellAt(s, c) {}
  }
}
