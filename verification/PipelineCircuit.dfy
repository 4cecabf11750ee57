/**
 Which cases a cell gets to: all of them, unless the circuit breaker of a fresh
 batch opens on five unanswered cases in a row.
 */
module PipelineCircuit {
  import opened Wrappers
  import opened PipelineBook
  import opened PipelineMachine
  import opened PipelineInvariant
  import opened PipelineSafety
  import opened PipelineProgress

  /** One of the first n samples of a case gets an answer. */
  predicate AnsweredBy(b: Batch, ck: CaseKey, n: nat) {
    exists no: nat :: no < n && !OutcomeOf(b, SampleKey(ck, no)).Failed?
  }

  /** How many cases right before at get no answer. */
  function Streak(b: Batch, c: Cell, at: nat): nat {
    if at == 0 || AnsweredBy(b, CaseKey(c, at - 1), Samples(b, CaseKey(c, at - 1))) then 0 else Streak(b, c, at - 1) + 1
  }

  /** The circuit does not open before case at. */
  predicate Reaches(b: Batch, c: Cell, at: nat) {
    b.retry || forall n: nat | 0 < n <= at && n < Cases(b, c) :: Streak(b, c, n) < CIRCUIT_BREAKER
  }

  /** The position counts the unanswered cases before it, and knows whether one of the n samples so far was answered. */
  predicate PosOk(b: Batch, c: Cell, p: Pos, n: nat) {
    p.streak == Streak(b, c, p.at) && Reaches(b, c, p.at) && p.answered == AnsweredBy(b, CaseKey(c, p.at), n)
  }

  predicate CircuitOk(b: Batch, c: Cell, pc: CellPc) {
    match pc
    case Next(next, streak) => streak == Streak(b, c, next) && Reaches(b, c, next)
    case Ask(p) => PosOk(b, c, p, p.no)
    case Settle(p, _) => PosOk(b, c, p, p.no + 1)
    case Write(p, _) => PosOk(b, c, p, p.no + 1)
    case Enlist(p) => PosOk(b, c, p, p.no + 1)
    case Offer(p, _) => PosOk(b, c, p, p.no + 1)
    case _ => true
  }

  lemma OneMoreAsked(b: Batch, ck: CaseKey, n: nat)
    ensures AnsweredBy(b, ck, n + 1) == (AnsweredBy(b, ck, n) || !OutcomeOf(b, SampleKey(ck, n)).Failed?)
  {
  }

  lemma AfterCircuit(b: Batch, c: Cell, p: Pos)
    requires PosOk(b, c, p, p.no + 1) && p.no < Samples(b, CaseKey(c, p.at))
    ensures CircuitOk(b, c, After(b, c, p))
  {
    hide AnsweredBy;
    if p.no + 1 >= Samples(b, CaseKey(c, p.at)) {
      var n := p.at + 1;
      assert Streak(b, c, n) == if p.answered then 0 else p.streak + 1;
    }
  }

  /** Another token's step leaves a cell where it is. */
  lemma OthersStay(b: Batch, s: Sys, a: Action, c: Cell)
    requires Enabled(b, s, a) && !(OfCell(a) && a.c == c)
    ensures CellAt(Step(b, s, a), c) == CellAt(s, c)
  {
    hide Enabled, Step, CellAt;
    if OfCell(a) { OtherCellStays(b, s, a, c); } else { CellsStay(b, s, a, c); }
  }

  lemma OtherCellStays(b: Batch, s: Sys, a: Action, c: Cell)
    requires OfCell(a) && Enabled(b, s, a) && a.c != c
    ensures CellAt(Step(b, s, a), c) == CellAt(s, c)
  {
    hide OpenCase, SettleSample, Register, MarkCellsDone, CaseScore, After, Judges, NonNull, AllOwed, LandStep, SettleJobStep, DropStep;
  }

  lemma CellsStay(b: Batch, s: Sys, a: Action, c: Cell)
    requires !OfCell(a) && Enabled(b, s, a)
    ensures CellAt(Step(b, s, a), c) == CellAt(s, c)
  {
    hide SettleSample, LandVote, DecrementPending, CaseScore, OpenStep, AskStep, SettleStep, EnlistStep, OfferStep, FailStep, CountStep, MarkStep, After, TakeStep;
  }

  lemma OwnCircuit(b: Batch, s: Sys, a: Action)
    requires OfCell(a) && Enabled(b, s, a) && CircuitOk(b, a.c, CellAt(s, a.c))
    requires InCase(CellAt(s, a.c)) ==> CellAt(s, a.c).pos.no < Samples(b, CaseKey(a.c, CellAt(s, a.c).pos.at))
    ensures CircuitOk(b, a.c, CellAt(Step(b, s, a), a.c))
  {
    hide OpenCase, SettleSample, Register, MarkCellsDone, CaseScore, After, Judges, NonNull, AllOwed, AnsweredBy, Reaches, Streak;
    hide LandStep, SettleJobStep, DropStep, StampRun, WriteRow, SettleBy, SetRows, SetBook;
    var pc := CellAt(s, a.c);
    if InCase(pc) {
      OneMoreAsked(b, CaseKey(a.c, pc.pos.at), pc.pos.no);
      if !pc.Ask? { AfterCircuit(b, a.c, pc.pos); }
    }
    NothingBefore(b, a.c);
  }

  lemma NothingBefore(b: Batch, c: Cell)
    ensures Streak(b, c, 0) == 0 && Reaches(b, c, 0)
    ensures forall at :: !AnsweredBy(b, CaseKey(c, at), 0)
  {
  }

  lemma {:induction false} CircuitHolds(b: Batch, trace: seq<Sys>, actions: seq<Action>, i: nat, c: Cell)
    requires ValidBatch(b) && IsRun(b, trace, actions) && i < |trace|
    ensures CircuitOk(b, c, CellAt(trace[i], c))
  {
    hide ValidBatch, CircuitOk, Enabled, Step, Inv;
    if i == 0 {
      StartsClosed(b, trace[0], c);
    } else {
      var s, a := trace[i - 1], actions[i - 1];
      CircuitHolds(b, trace, actions, i - 1, c);
      if OfCell(a) && a.c == c {
        RunHolds(b, trace, actions, i - 1);
        PoolHolds(b, s);
        OwnCell(b, s, a);
        OwnCircuit(b, s, a);
      } else {
        OthersStay(b, s, a, c);
      }
    }
  }

  lemma StartsClosed(b: Batch, s: Sys, c: Cell)
    requires Init(b, s)
    ensures CircuitOk(b, c, CellAt(s, c))
  {
  }
}
