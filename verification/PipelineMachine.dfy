/**
 One batch as a state machine: exam workers take cells and ask samples, judge
 workers take votes off an unbuffered channel, and a driver closes both pools
 and fails whatever never finished. One action is one critical section, one
 channel hand-off, one hub call or one database write; any enabled action may
 come next.
 */
module PipelineMachine {
  import opened Wrappers
  import opened Median
  import opened PipelineBook

  // ---------------------------------------------------------------------
  // What a batch is given

  /** What asking one sample gives: a failed call, a rule's score, or an answer for so many judges. */
  datatype Outcome = Failed | Ruled(score: Option<real>) | Answered(judges: nat)
  /** Whether a cell's model can be asked at all, and if not whether its cases get null rows. */
  datatype Setup = Ready | Skip | FailAll

  /** timed: the judges have a guard that lets them leave once a time budget is spent; retries have no guard. */
  datatype Batch = Batch(
    retry: bool,
    timed: bool,
    runs: set<int>,
    cells: set<Cell>,
    caseCount: map<Cell, nat>,
    sampleCount: map<CaseKey, nat>,
    setups: map<Cell, Setup>,
    outcomes: map<SampleKey, Outcome>,
    verdicts: map<VoteKey, Option<real>>,
    examWorkers: nat,
    judgeWorkers: nat,
    rowsBefore: map<CaseKey, seq<Option<real>>>)

  function Cases(b: Batch, c: Cell): nat { if c in b.caseCount then b.caseCount[c] else 0 }
  function Samples(b: Batch, ck: CaseKey): nat { if ck in b.sampleCount then b.sampleCount[ck] else 1 }
  function SetupOf(b: Batch, c: Cell): Setup { if c in b.setups then b.setups[c] else Ready }
  function OutcomeOf(b: Batch, k: SampleKey): Outcome { if k in b.outcomes then b.outcomes[k] else Failed }
  function Verdict(b: Batch, v: VoteKey): Option<real> { if v in b.verdicts then b.verdicts[v] else None }

  predicate InGrid(b: Batch, ck: CaseKey) {
    ck.cell in b.cells && ck.at < Cases(b, ck.cell)
  }

  /** A fresh batch starts without rows; a case that is retried may have a null row. */
  ghost predicate ValidBatch(b: Batch) {
    && (forall c | c in b.cells :: c.run in b.runs)
    && (forall ck | InGrid(b, ck) :: Samples(b, ck) >= 1)
    && b.examWorkers >= 1 && b.judgeWorkers >= 1
    && (forall ck | InGrid(b, ck) :: RowsIn(b.rowsBefore, ck) == [] || (b.retry && RowsIn(b.rowsBefore, ck) == [None]))
  }

  function Judges(b: Batch, k: SampleKey): nat {
    match OutcomeOf(b, k)
    case Answered(n) => n
    case _ => 0
  }

  function Verdicts(b: Batch, k: SampleKey): seq<Option<real>> {
    seq(Judges(b, k), i requires 0 <= i => Verdict(b, VoteKey(k, i)))
  }

  /** The median a sample settles with, fixed by its answer and its slot-indexed verdicts. */
  function SampleMedian(b: Batch, k: SampleKey): Option<real> {
    match OutcomeOf(b, k)
    case Failed => None
    case Ruled(score) => score
    case Answered(n) => if n == 0 then None else MedianOfVotes(Verdicts(b, k))
  }

  // ---------------------------------------------------------------------
  // State

  /** Where a cell stands in its loop over the samples of the case at. */
  datatype Pos = Pos(at: nat, no: nat, answered: bool, streak: nat)
  datatype CellPc =
    | Waiting | Start
    | Next(next: nat, streak: nat)
    | Ask(pos: Pos) | Settle(pos: Pos, median: Option<real>) | Write(pos: Pos, agg: Aggregate)
    | Enlist(pos: Pos) | Offer(pos: Pos, slot: nat)
    | FailRest(from: nat)
    | Count | Mark | Stamp | Returned
  datatype JobPc =
    | Unlisted | Owed | Judging | Landing
    | Settling(median: Option<real>) | Writing(agg: Aggregate)
    | Dropping | Stamping | Done

  datatype Phase = Feeding | Fed | Closed | Tail(todo: set<int>) | Over
  datatype Status = DoneStamp | FailedStamp

  /** Who is carrying a piece of work. */
  datatype Token = ByCell(cell: Cell) | ByVote(vote: VoteKey)
  datatype SampleState = Unasked | Polling | Deciding(who: Token) | Settled
  datatype CaseState = Unopened | Open | Closing(who: Token) | Written
  datatype RunState = Running | Finishing(who: Token) | Finished

  /** The idle workers of a pool and those that have left it. */
  datatype Crew = Crew(idle: int, left: int)
  /** crashed is a nil dereference, a bad index or a send on a closed channel. */
  datatype Control = Control(phase: Phase, cancelled: bool, crashed: bool, exam: Crew, judge: Crew)
  datatype Threads = Threads(cells: map<Cell, CellPc>, jobs: map<VoteKey, JobPc>, remaining: map<int, int>)
  datatype Database = Database(rows: map<CaseKey, seq<Option<real>>>, ballots: map<VoteKey, Option<real>>, stamps: map<int, seq<Status>>)
  /** Which samples, cases and runs are done with, or in whose hands they are. */
  datatype History = History(samples: map<SampleKey, SampleState>, cases: map<CaseKey, CaseState>, runs: map<int, RunState>)
  datatype Sys = Sys(book: Book, threads: Threads, control: Control, db: Database, past: History)

  function CellIn(cells: map<Cell, CellPc>, c: Cell): CellPc { if c in cells then cells[c] else Returned }
  function JobIn(jobs: map<VoteKey, JobPc>, v: VoteKey): JobPc { if v in jobs then jobs[v] else Unlisted }
  function SampleIn(samples: map<SampleKey, SampleState>, k: SampleKey): SampleState { if k in samples then samples[k] else Unasked }
  function RowsIn(rows: map<CaseKey, seq<Option<real>>>, ck: CaseKey): seq<Option<real>> { if ck in rows then rows[ck] else [] }
  function RemainingIn(remaining: map<int, int>, r: int): int { if r in remaining then remaining[r] else 0 }
  function CellAt(s: Sys, c: Cell): CellPc { CellIn(s.threads.cells, c) }
  function JobAt(s: Sys, v: VoteKey): JobPc { JobIn(s.threads.jobs, v) }
  function Rows(s: Sys, ck: CaseKey): seq<Option<real>> { RowsIn(s.db.rows, ck) }
  function Stamps(s: Sys, r: int): seq<Status> { if r in s.db.stamps then s.db.stamps[r] else [] }
  function SampleAt(s: Sys, k: SampleKey): SampleState { SampleIn(s.past.samples, k) }
  function CaseAt(s: Sys, ck: CaseKey): CaseState { if ck in s.past.cases then s.past.cases[ck] else Unopened }
  function RunAt(s: Sys, r: int): RunState { if r in s.past.runs then s.past.runs[r] else Running }

  ghost function CellsOf(b: Batch, r: int): set<Cell> {
    set c | c in b.cells && c.run == r
  }

  /** A run without cells is finished before the pools start. */
  ghost predicate Init(b: Batch, s: Sys) {
    var empty := set r | r in b.runs && CellsOf(b, r) == {};
    && s.book == EMPTY_BOOK.(cellsDone := empty, finished := empty)
    && s.threads == Threads(map c | c in b.cells :: Waiting, map[], map r | r in b.runs :: |CellsOf(b, r)|)
    && s.control == Control(Feeding, false, false, Crew(b.examWorkers, 0), Crew(b.judgeWorkers, 0))
    && s.db == Database(b.rowsBefore, map[], map r | r in empty :: [DoneStamp])
    && s.past == History(map[], map[], map r | r in empty :: Finished)
  }

  // ---------------------------------------------------------------------
  // Updates

  function Goto(s: Sys, c: Cell, pc: CellPc): Sys { s.(threads := s.threads.(cells := s.threads.cells[c := pc])) }
  function GotoJob(s: Sys, v: VoteKey, pc: JobPc): Sys { s.(threads := s.threads.(jobs := s.threads.jobs[v := pc])) }
  function SetSample(s: Sys, k: SampleKey, st: SampleState): Sys { s.(past := s.past.(samples := s.past.samples[k := st])) }
  function SetCase(s: Sys, ck: CaseKey, st: CaseState): Sys { s.(past := s.past.(cases := s.past.cases[ck := st])) }
  function SetRun(s: Sys, r: int, st: RunState): Sys { s.(past := s.past.(runs := s.past.runs[r := st])) }
  function SetRows(s: Sys, ck: CaseKey, rows: seq<Option<real>>): Sys { s.(db := s.db.(rows := s.db.rows[ck := rows])) }
  function AddStamp(s: Sys, r: int, st: Status): Sys { s.(db := s.db.(stamps := s.db.stamps[r := Stamps(s, r) + [st]])) }
  function SetBook(s: Sys, b: Book): Sys { s.(book := b) }
  function SetPhase(s: Sys, p: Phase): Sys { s.(control := s.control.(phase := p)) }
  function SetExam(s: Sys, idle: int, left: int): Sys { s.(control := s.control.(exam := Crew(idle, left))) }
  function SetJudge(s: Sys, idle: int, left: int): Sys { s.(control := s.control.(judge := Crew(idle, left))) }
  function Crash(s: Sys): Sys { s.(control := s.control.(crashed := true)) }

  // ---------------------------------------------------------------------
  // Cells

  function Key(c: Cell, p: Pos): SampleKey { SampleKey(CaseKey(c, p.at), p.no) }

  const CIRCUIT_BREAKER: nat := 5

  /** Where a cell goes after a sample: the next sample, the next case, or the open circuit. */
  function After(b: Batch, c: Cell, p: Pos): CellPc {
    if p.no + 1 < Samples(b, CaseKey(c, p.at)) then Ask(p.(no := p.no + 1))
    else
      var streak := if p.answered then 0 else p.streak + 1;
      if !b.retry && streak >= CIRCUIT_BREAKER && p.at + 1 < Cases(b, c) then FailRest(p.at + 1)
      else Next(p.at + 1, streak)
  }

  function AfterSetup(b: Batch, c: Cell): CellPc {
    match SetupOf(b, c)
    case Ready => Next(0, 0)
    case Skip => Count
    case FailAll => if b.retry then Count else FailRest(0)
  }

  function NonNull(rows: seq<Option<real>>): seq<Option<real>> {
    if rows == [] then []
    else (if rows[0].Some? then [rows[0]] else []) + NonNull(rows[1..])
  }

  function TakeStep(s: Sys, c: Cell): Sys {
    SetExam(Goto(s, c, Start), s.control.exam.idle - 1, s.control.exam.left)
  }

  /** Opens a case; a retry first deletes the case's null rows. */
  function OpenStep(b: Batch, s: Sys, c: Cell, at: nat, streak: nat): Sys {
    var ck := CaseKey(c, at);
    var s1 := SetBook(s, OpenCase(s.book, ck, Samples(b, ck)));
    var s2 := SetRows(s1, ck, if b.retry then NonNull(Rows(s, ck)) else Rows(s, ck));
    Goto(SetCase(s2, ck, Open), c, Ask(Pos(at, 0, false, streak)))
  }

  /** A sample with judges waits to be enlisted; any other settles with what the answer gave. */
  function AskStep(b: Batch, s: Sys, c: Cell, p: Pos): Sys {
    var k := Key(c, p);
    var p' := p.(answered := p.answered || !OutcomeOf(b, k).Failed?);
    if Judges(b, k) > 0 then Goto(s, c, Enlist(p'))
    else
      var median := match OutcomeOf(b, k) case Ruled(score) => score case _ => None;
      Goto(SetSample(s, k, Deciding(ByCell(c))), c, Settle(p', median))
  }

  /** The sample settles, and the token that completed the case owes its row. */
  function SettleBy(s: Sys, t: Token, k: SampleKey, done: Option<Aggregate>, book: Book): Sys {
    var s1 := SetSample(SetBook(s, book), k, Settled);
    if done.Some? then SetCase(s1, k.of, Closing(t)) else s1
  }

  function SettleStep(b: Batch, s: Sys, c: Cell, p: Pos, median: Option<real>): Sys {
    var k := Key(c, p);
    if k.of !in s.book.aggs then Crash(s)
    else
      var (book, done) := SettleSample(s.book, k.of, median);
      Goto(SettleBy(s, ByCell(c), k, done, book), c, if done.Some? then Write(p, done.value) else After(b, c, p))
  }

  function WriteRow(s: Sys, ck: CaseKey, agg: Aggregate): Sys {
    SetCase(SetRows(s, ck, Rows(s, ck) + [CaseScore(agg)]), ck, Written)
  }

  function SlotKeys(k: SampleKey, n: nat): (r: set<VoteKey>)
    ensures forall v :: v in r <==> v.sample == k && v.slot < n
    ensures |r| == n
  {
    if n == 0 then {} else SlotKeys(k, n - 1) + {VoteKey(k, n - 1)}
  }

  function AllOwed(k: SampleKey, n: nat): map<VoteKey, JobPc> {
    map v: VoteKey | v in SlotKeys(k, n) :: Owed
  }

  function EnlistStep(b: Batch, s: Sys, c: Cell, p: Pos): Sys {
    var k := Key(c, p);
    var s1 := SetBook(s, Register(s.book, k, Judges(b, k)));
    var s2 := s1.(threads := s1.threads.(jobs := s1.threads.jobs + AllOwed(k, Judges(b, k))));
    Goto(SetSample(s2, k, Polling), c, Offer(p, 0))
  }

  predicate ChannelClosed(p: Phase) { p.Closed? || p.Tail? || p.Over? }

  /** Hands one job to an idle judge; on a closed channel the send panics. */
  function OfferStep(b: Batch, s: Sys, c: Cell, p: Pos, slot: nat): Sys {
    if ChannelClosed(s.control.phase) then Crash(s)
    else
      var s1 := SetJudge(GotoJob(s, VoteKey(Key(c, p), slot), Judging), s.control.judge.idle - 1, s.control.judge.left);
      Goto(s1, c, if slot + 1 < Judges(b, Key(c, p)) then Offer(p, slot + 1) else After(b, c, p))
  }

  function FailStep(b: Batch, s: Sys, c: Cell, from: nat): Sys {
    var ck := CaseKey(c, from);
    if from >= Cases(b, c) then Goto(s, c, Count)
    else Goto(SetRows(s, ck, Rows(s, ck) + [None]), c, FailRest(from + 1))
  }

  function Return(s: Sys, c: Cell): Sys {
    SetExam(Goto(s, c, Returned), s.control.exam.idle + 1, s.control.exam.left)
  }

  function CountStep(s: Sys, c: Cell): Sys {
    var n := RemainingIn(s.threads.remaining, c.run) - 1;
    var s1 := s.(threads := s.threads.(remaining := s.threads.remaining[c.run := n]));
    if n == 0 then Goto(s1, c, Mark) else Return(s1, c)
  }

  function MarkStep(s: Sys, c: Cell): Sys {
    var (book, finished) := MarkCellsDone(s.book, c.run);
    if finished then Goto(SetRun(SetBook(s, book), c.run, Finishing(ByCell(c))), c, Stamp)
    else Return(SetBook(s, book), c)
  }

  function StampRun(s: Sys, r: int): Sys {
    SetRun(AddStamp(s, r, DoneStamp), r, Finished)
  }

  // ---------------------------------------------------------------------
  // Votes

  function LandStep(b: Batch, s: Sys, v: VoteKey): Sys {
    if v.sample in s.book.votes && v.slot >= |s.book.votes[v.sample].scores| then Crash(s)
    else
      var (book, landing) := LandVote(s.book, v, Verdict(b, v));
      if landing.Complete?
      then GotoJob(SetSample(SetBook(s, book), v.sample, Deciding(ByVote(v))), v, Settling(landing.median))
      else GotoJob(SetBook(s, book), v, Dropping)
  }

  function SettleJobStep(s: Sys, v: VoteKey, median: Option<real>): Sys {
    if v.sample.of !in s.book.aggs then Crash(s)
    else
      var (book, done) := SettleSample(s.book, v.sample.of, median);
      GotoJob(SettleBy(s, ByVote(v), v.sample, done, book), v, if done.Some? then Writing(done.value) else Dropping)
  }

  function ReturnJob(s: Sys, v: VoteKey): Sys {
    SetJudge(GotoJob(s, v, Done), s.control.judge.idle + 1, s.control.judge.left)
  }

  function DropStep(s: Sys, v: VoteKey): Sys {
    var r := v.sample.of.cell.run;
    var (book, finished) := DecrementPending(s.book, r);
    if finished then GotoJob(SetRun(SetBook(s, book), r, Finishing(ByVote(v))), v, Stamping)
    else ReturnJob(SetBook(s, book), v)
  }

  // ---------------------------------------------------------------------
  // Actions

  datatype Action =
    | Cancel
    | Take(c: Cell) | Begin(c: Cell) | OpenNext(c: Cell) | AskOne(c: Cell) | SettleOne(c: Cell) | WriteOne(c: Cell)
    | EnlistOne(c: Cell) | Hand(c: Cell) | Cut(c: Cell) | FailOne(c: Cell) | CountOne(c: Cell) | MarkOne(c: Cell) | StampOne(c: Cell)
    | Judge(v: VoteKey) | Land(v: VoteKey) | SettleVote(v: VoteKey) | WriteVote(v: VoteKey) | Drop(v: VoteKey) | StampVote(v: VoteKey)
    | CloseFeed | ExamLeaves | CloseJudges | JudgeLeaves | BeginTail | FailRun(r: int) | Finish

  predicate CellBusy(pc: CellPc) { !pc.Waiting? && !pc.Returned? }
  predicate JobBusy(pc: JobPc) { !pc.Unlisted? && !pc.Owed? && !pc.Done? }

  /** The judges of a batch with a time budget may leave early, whenever it is spent; the others' may not. */
  ghost predicate Enabled(b: Batch, s: Sys, a: Action) {
    var o := s.control;
    !o.crashed &&
    match a
    case Cancel => !o.cancelled && o.phase != Over
    case Take(c) => o.phase.Feeding? && o.exam.idle > 0 && !o.cancelled && CellAt(s, c).Waiting?
    case Begin(c) => CellAt(s, c).Start?
    case OpenNext(c) => CellAt(s, c).Next?
    case AskOne(c) => CellAt(s, c).Ask?
    case SettleOne(c) => CellAt(s, c).Settle?
    case WriteOne(c) => CellAt(s, c).Write?
    case EnlistOne(c) => CellAt(s, c).Enlist?
    case Hand(c) => CellAt(s, c).Offer? && (o.judge.idle > 0 || ChannelClosed(o.phase))
    case Cut(c) => CellAt(s, c).Offer? && o.cancelled
    case FailOne(c) => CellAt(s, c).FailRest?
    case CountOne(c) => CellAt(s, c).Count?
    case MarkOne(c) => CellAt(s, c).Mark?
    case StampOne(c) => CellAt(s, c).Stamp?
    case Judge(v) => JobAt(s, v).Judging?
    case Land(v) => JobAt(s, v).Landing?
    case SettleVote(v) => JobAt(s, v).Settling?
    case WriteVote(v) => JobAt(s, v).Writing?
    case Drop(v) => JobAt(s, v).Dropping?
    case StampVote(v) => JobAt(s, v).Stamping?
    case CloseFeed => o.phase.Feeding? && (o.cancelled || forall c | c in b.cells :: !CellAt(s, c).Waiting?)
    case ExamLeaves => o.exam.idle > 0 && (o.cancelled || !o.phase.Feeding?)
    case CloseJudges => o.phase.Fed? && o.exam.left == b.examWorkers
    case JudgeLeaves => o.judge.idle > 0 && (o.cancelled || b.timed || ChannelClosed(o.phase))
    case BeginTail => o.phase.Closed? && o.judge.left == b.judgeWorkers
    case FailRun(r) => o.phase.Tail? && r in o.phase.todo
    case Finish => o.phase.Tail? && o.phase.todo == {}
  }

  function Step(b: Batch, s: Sys, a: Action): Sys
    requires Enabled(b, s, a)
  {
    var o := s.control;
    match a
    case Cancel => s.(control := o.(cancelled := true))
    case Take(c) => TakeStep(s, c)
    case Begin(c) => Goto(s, c, AfterSetup(b, c))
    case OpenNext(c) =>
      var pc := CellAt(s, c);
      if pc.next >= Cases(b, c) || (b.retry && o.cancelled) then Goto(s, c, Count) else OpenStep(b, s, c, pc.next, pc.streak)
    case AskOne(c) => AskStep(b, s, c, CellAt(s, c).pos)
    case SettleOne(c) => SettleStep(b, s, c, CellAt(s, c).pos, CellAt(s, c).median)
    case WriteOne(c) =>
      var pc := CellAt(s, c);
      Goto(WriteRow(s, CaseKey(c, pc.pos.at), pc.agg), c, After(b, c, pc.pos))
    case EnlistOne(c) => EnlistStep(b, s, c, CellAt(s, c).pos)
    case Hand(c) => OfferStep(b, s, c, CellAt(s, c).pos, CellAt(s, c).slot)
    case Cut(c) => Goto(s, c, After(b, c, CellAt(s, c).pos))
    case FailOne(c) => FailStep(b, s, c, CellAt(s, c).from)
    case CountOne(c) => CountStep(s, c)
    case MarkOne(c) => MarkStep(s, c)
    case StampOne(c) => Return(StampRun(s, c.run), c)
    case Judge(v) => GotoJob(s.(db := s.db.(ballots := s.db.ballots[v := Verdict(b, v)])), v, Landing)
    case Land(v) => LandStep(b, s, v)
    case SettleVote(v) => SettleJobStep(s, v, JobAt(s, v).median)
    case WriteVote(v) => GotoJob(WriteRow(s, v.sample.of, JobAt(s, v).agg), v, Dropping)
    case Drop(v) => DropStep(s, v)
    case StampVote(v) => ReturnJob(StampRun(s, v.sample.of.cell.run), v)
    case CloseFeed => SetPhase(s, Fed)
    case ExamLeaves => SetExam(s, o.exam.idle - 1, o.exam.left + 1)
    case CloseJudges => SetPhase(s, Closed)
    case JudgeLeaves => SetJudge(s, o.judge.idle - 1, o.judge.left + 1)
    case BeginTail => SetPhase(s, Tail(b.runs))
    case FailRun(r) =>
      var s1 := SetPhase(s, Tail(o.phase.todo - {r}));
      if r in s.book.finished then s1 else AddStamp(s1, r, FailedStamp)
    case Finish => SetPhase(s, Over)
  }

  /** A run of the batch: states with an enabled action between neighbours. */
  ghost predicate IsRun(b: Batch, trace: seq<Sys>, actions: seq<Action>) {
    && |trace| == |actions| + 1
    && Init(b, trace[0])
    && forall i | 0 <= i < |actions| :: Enabled(b, trace[i], actions[i]) && trace[i + 1] == Step(b, trace[i], actions[i])
  }
}
