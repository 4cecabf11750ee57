/**
 What every step of the batch machine keeps. Each clause speaks about one
 sample, vote, case, cell, run or worker pool, and ties the program's counters
 to the work that is really outstanding.
 */
module PipelineInvariant {
  import opened Wrappers
  import opened Median
  import opened PipelineBook
  import opened PipelineMachine

  // ---------------------------------------------------------------------
  // Duties: what a token alone is entitled to do

  datatype Duty = Free | ToSettle(k: SampleKey, median: Option<real>) | ToWrite(ck: CaseKey, agg: Aggregate) | ToStamp(r: int)

  function CellDuty(c: Cell, pc: CellPc): Duty {
    match pc
    case Settle(p, median) => ToSettle(Key(c, p), median)
    case Write(p, agg) => ToWrite(CaseKey(c, p.at), agg)
    case Stamp => ToStamp(c.run)
    case _ => Free
  }

  function JobDuty(v: VoteKey, pc: JobPc): Duty {
    match pc
    case Settling(median) => ToSettle(v.sample, median)
    case Writing(agg) => ToWrite(v.sample.of, agg)
    case Stamping => ToStamp(v.sample.of.cell.run)
    case _ => Free
  }

  function DutyOf(s: Sys, t: Token): Duty {
    match t
    case ByCell(c) => CellDuty(c, CellAt(s, c))
    case ByVote(v) => JobDuty(v, JobAt(s, v))
  }

  // ---------------------------------------------------------------------
  // Counting

  /** The aggregate of a case whose settled samples among the first n are those marked so. */
  function Tally(b: Batch, samples: map<SampleKey, SampleState>, ck: CaseKey, n: nat): Aggregate {
    if n == 0 then Aggregate(Samples(b, ck), 0, 0.0, 0)
    else
      var k := SampleKey(ck, n - 1);
      var a := Tally(b, samples, ck, n - 1);
      if SampleIn(samples, k).Settled? then Fold(a, SampleMedian(b, k)) else a
  }

  /** The aggregate of a complete case. */
  function Full(b: Batch, ck: CaseKey, n: nat): Aggregate {
    if n == 0 then Aggregate(Samples(b, ck), 0, 0.0, 0)
    else Fold(Full(b, ck, n - 1), SampleMedian(b, SampleKey(ck, n - 1)))
  }

  function FullAggregate(b: Batch, ck: CaseKey): Aggregate {
    Full(b, ck, Samples(b, ck))
  }

  predicate HasLanded(pc: JobPc) {
    pc.Settling? || pc.Writing? || pc.Dropping? || pc.Stamping? || pc.Done?
  }

  function LandedCount(jobs: map<VoteKey, JobPc>, k: SampleKey, n: nat): nat {
    if n == 0 then 0
    else LandedCount(jobs, k, n - 1) + if HasLanded(JobIn(jobs, VoteKey(k, n - 1))) then 1 else 0
  }

  /** Votes of a run that are registered and not yet counted off. */
  ghost function OpenVotes(jobs: map<VoteKey, JobPc>, r: int): set<VoteKey> {
    set v | v in jobs && v.sample.of.cell.run == r && !jobs[v].Unlisted? && !jobs[v].Done? && !jobs[v].Stamping?
  }

  predicate Counted(pc: CellPc) {
    pc.Mark? || pc.Stamp? || pc.Returned?
  }

  ghost function Uncounted(b: Batch, cells: map<Cell, CellPc>, r: int): set<Cell> {
    set c | c in b.cells && c.run == r && !Counted(CellIn(cells, c))
  }

  ghost function BusyCells(b: Batch, cells: map<Cell, CellPc>): set<Cell> {
    set c | c in b.cells && CellBusy(CellIn(cells, c))
  }

  ghost function BusyJobs(jobs: map<VoteKey, JobPc>): set<VoteKey> {
    set v | v in jobs && JobBusy(jobs[v])
  }

  // ---------------------------------------------------------------------
  // The invariant, clause by clause

  ghost predicate TokenOk(b: Batch, s: Sys, t: Token) {
    match DutyOf(s, t)
    case Free => true
    case ToSettle(k, median) => SampleAt(s, k) == Deciding(t) && median == SampleMedian(b, k)
    case ToWrite(ck, agg) => CaseAt(s, ck) == Closing(t) && agg == FullAggregate(b, ck)
    case ToStamp(r) => RunAt(s, r) == Finishing(t)
  }

  ghost predicate SampleOk(b: Batch, s: Sys, k: SampleKey) {
    && (SampleAt(s, k) != Unasked ==> CaseAt(s, k.of) != Unopened && k.no < Samples(b, k.of))
    && (SampleAt(s, k).Deciding? ==> DutyOf(s, SampleAt(s, k).who) == ToSettle(k, SampleMedian(b, k)))
    && (k in s.book.votes <==> SampleAt(s, k).Polling?)
    && (SampleAt(s, k).Polling? ==> BallotOk(b, s.threads.jobs, k, s.book.votes[k]))
  }

  ghost predicate BallotOk(b: Batch, jobs: map<VoteKey, JobPc>, k: SampleKey, ballot: Ballot) {
    var n := Judges(b, k);
    && ballot.expected == |ballot.scores| == n
    && ballot.landed == LandedCount(jobs, k, n) < n
    && forall i | 0 <= i < n :: ballot.scores[i] == if HasLanded(JobIn(jobs, VoteKey(k, i))) then Verdict(b, VoteKey(k, i)) else None
  }

  ghost predicate JobOk(b: Batch, s: Sys, v: VoteKey) {
    var pc := JobAt(s, v);
    && (pc.Unlisted? <==> SampleAt(s, v.sample) == Unasked || v.slot >= Judges(b, v.sample))
    && (pc.Owed? || pc.Judging? || pc.Landing? ==> SampleAt(s, v.sample).Polling?)
    && (v in s.db.ballots <==> pc.Landing? || HasLanded(pc))
    && (v in s.db.ballots ==> s.db.ballots[v] == Verdict(b, v))
    && (pc.Owed? ==> s.control.cancelled || Offering(CellAt(s, v.sample.of.cell), v))
  }

  /** The cell is still going to offer this vote. */
  predicate Offering(pc: CellPc, v: VoteKey) {
    pc.Offer? && Key(v.sample.of.cell, pc.pos) == v.sample && pc.slot <= v.slot
  }

  /** The cell is inside its sample loop. */
  predicate InCase(pc: CellPc) {
    pc.Ask? || pc.Settle? || pc.Write? || pc.Enlist? || pc.Offer?
  }

  ghost predicate CaseOk(b: Batch, s: Sys, ck: CaseKey) {
    var n := Samples(b, ck);
    && (CaseAt(s, ck) != Unopened ==> InGrid(b, ck))
    && (ck in s.book.aggs <==> CaseAt(s, ck).Open?)
    && (CaseAt(s, ck).Open? ==> s.book.aggs[ck] == Tally(b, s.past.samples, ck, n) && s.book.aggs[ck].settled < n)
    && (CaseAt(s, ck).Closing? || CaseAt(s, ck).Written? ==> forall no | 0 <= no < n :: SampleAt(s, SampleKey(ck, no)).Settled?)
    && (CaseAt(s, ck).Closing? ==> DutyOf(s, CaseAt(s, ck).who) == ToWrite(ck, FullAggregate(b, ck)))
    && Rows(s, ck) == RowsDue(b, s, ck)
  }

  /** The result rows a case must have now. */
  ghost function RowsDue(b: Batch, s: Sys, ck: CaseKey): seq<Option<real>> {
    match CaseAt(s, ck)
    case Unopened => if InGrid(b, ck) && Refused(b, CellAt(s, ck.cell), ck) then [None] else RowsIn(b.rowsBefore, ck)
    case Written => [CaseScore(FullAggregate(b, ck))]
    case _ => []
  }

  /** Whether a fresh batch has given up on a case it never opened. */
  predicate Refused(b: Batch, pc: CellPc, ck: CaseKey) {
    !b.retry && match pc
    case FailRest(from) => ck.at < from
    case Count => !SetupOf(b, ck.cell).Skip?
    case Mark => !SetupOf(b, ck.cell).Skip?
    case Stamp => !SetupOf(b, ck.cell).Skip?
    case Returned => !SetupOf(b, ck.cell).Skip?
    case _ => false
  }

  predicate OpenedBy(pc: CellPc, at: nat) {
    match pc
    case Next(next, _) => at < next
    case _ => InCase(pc) && at <= pc.pos.at
  }

  /** Whether a cell that opened case at has already asked sample no of it. */
  predicate AskedBy(pc: CellPc, at: nat, no: nat) {
    InCase(pc) && pc.pos.at == at ==> no < pc.pos.no || (no == pc.pos.no && !pc.Ask? && !pc.Enlist?)
  }

  ghost predicate CellOk(b: Batch, s: Sys, c: Cell) {
    && (c in s.threads.cells <==> c in b.cells)
    && PcOk(b, s, c, CellAt(s, c))
    && (CellAt(s, c).Mark? ==> Uncounted(b, s.threads.cells, c.run) == {})
  }

  ghost predicate PcOk(b: Batch, s: Sys, c: Cell, pc: CellPc) {
    && (pc.Next? || InCase(pc) ==> SetupOf(b, c).Ready?)
    && (pc.Next? ==> pc.next <= Cases(b, c))
    && (pc.FailRest? ==> pc.from <= Cases(b, c) && !b.retry && !SetupOf(b, c).Skip?)
    && (InCase(pc) ==> pc.pos.at < Cases(b, c) && pc.pos.no < Samples(b, CaseKey(c, pc.pos.at)))
    && (pc.Enlist? ==> Judges(b, Key(c, pc.pos)) > 0)
    && (pc.Offer? ==>
          && pc.slot < Judges(b, Key(c, pc.pos))
          && forall j | pc.slot <= j < Judges(b, Key(c, pc.pos)) :: JobAt(s, VoteKey(Key(c, pc.pos), j)).Owed?)
  }

  /** What a cell's place says about the cases of its grid. */
  ghost predicate GridOk(b: Batch, s: Sys, ck: CaseKey) {
    var pc := CellAt(s, ck.cell);
    InGrid(b, ck) ==>
      && (pc.Waiting? || pc.Start? || pc.Next? || InCase(pc) ==> (CaseAt(s, ck) != Unopened <==> OpenedBy(pc, ck.at)))
      && (pc.FailRest? && ck.at >= pc.from ==> CaseAt(s, ck) == Unopened)
      && (forall no | 0 <= no < Samples(b, ck) ::
            SampleAt(s, SampleKey(ck, no)) != Unasked <==> CaseAt(s, ck) != Unopened && AskedBy(pc, ck.at, no))
  }

  ghost predicate RunOk(b: Batch, s: Sys, r: int) {
    && Pending(s.book, r) == |OpenVotes(s.threads.jobs, r)|
    && (r in b.runs ==> RemainingIn(s.threads.remaining, r) == |Uncounted(b, s.threads.cells, r)|)
    && (r in s.book.cellsDone ==> Uncounted(b, s.threads.cells, r) == {})
    && (r in b.runs && Uncounted(b, s.threads.cells, r) == {} && r !in s.book.cellsDone ==>
          exists c | c in b.cells :: c.run == r && CellAt(s, c).Mark?)
    && (r in s.book.finished <==> RunAt(s, r) != Running)
    && (r in s.book.finished <==> r in s.book.cellsDone && OpenVotes(s.threads.jobs, r) == {})
    && (RunAt(s, r).Finishing? ==> DutyOf(s, RunAt(s, r).who) == ToStamp(r))
    && (r in b.runs ==> Stamps(s, r) == StampsDue(s, r))
    && (RunAt(s, r) != Running ==> r in b.runs)
  }

  function StampsDue(s: Sys, r: int): seq<Status> {
    match RunAt(s, r)
    case Finished => [DoneStamp]
    case Finishing(_) => []
    case Running => if s.control.phase.Over? || (s.control.phase.Tail? && r !in s.control.phase.todo) then [FailedStamp] else []
  }

  ghost predicate PoolOk(b: Batch, s: Sys) {
    && !s.control.crashed
    && s.control.exam.idle >= 0 && s.control.judge.idle >= 0 && s.control.exam.left >= 0 && s.control.judge.left >= 0
    && s.control.exam.idle + |BusyCells(b, s.threads.cells)| + s.control.exam.left == b.examWorkers
    && s.control.judge.idle + |BusyJobs(s.threads.jobs)| + s.control.judge.left == b.judgeWorkers
    && (!s.control.phase.Feeding? ==> s.control.cancelled || forall c | c in b.cells :: !CellAt(s, c).Waiting?)
    && (s.control.phase.Closed? || s.control.phase.Tail? || s.control.phase.Over? ==> s.control.exam.left == b.examWorkers)
    && (s.control.phase.Tail? || s.control.phase.Over? ==> s.control.judge.left == b.judgeWorkers)
    && (s.control.phase.Tail? ==> s.control.phase.todo <= b.runs)
    && (s.control.phase.Feeding? && !s.control.cancelled ==> s.control.exam.left == 0)
    && ((s.control.phase.Feeding? || s.control.phase.Fed?) && !s.control.cancelled && !b.timed ==> s.control.judge.left == 0)
  }

  ghost predicate AllTokens(b: Batch, s: Sys) { forall t :: TokenOk(b, s, t) }
  ghost predicate AllSamples(b: Batch, s: Sys) { forall k :: SampleOk(b, s, k) }
  ghost predicate AllJobs(b: Batch, s: Sys) { forall v :: JobOk(b, s, v) }
  ghost predicate AllCases(b: Batch, s: Sys) { forall ck :: CaseOk(b, s, ck) }
  ghost predicate AllCells(b: Batch, s: Sys) { forall c :: CellOk(b, s, c) }
  ghost predicate AllGrid(b: Batch, s: Sys) { forall ck :: GridOk(b, s, ck) }
  ghost predicate AllRuns(b: Batch, s: Sys) { forall r :: RunOk(b, s, r) }

  ghost predicate Inv(b: Batch, s: Sys) {
    && AllTokens(b, s) && AllSamples(b, s) && AllJobs(b, s) && AllCases(b, s)
    && AllCells(b, s) && AllGrid(b, s) && AllRuns(b, s) && PoolOk(b, s)
  }
}
