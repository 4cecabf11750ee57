/**
 Resuming an interrupted campaign and retrying chosen units. The pools are
 those of a batch, with two differences: a case's old row goes whatever its
 score, and a run's cells are marked done after every cell.
 */
module Resume {
  import opened Wrappers
  import opened Median
  import opened PipelineBook
  import opened PipelineMachine
  import opened PipelineInvariant
  import opened PipelineKeeps
  import opened PipelineSafety
  import opened PipelineTheorems

  // ---------------------------------------------------------------------
  // The plan

  datatype ResultRow = ResultRow(model: int, caseId: int, score: Option<real>)

  /** The scores stored for a unit, oldest first. */
  function RowsOf(results: seq<ResultRow>, model: int, caseId: int): seq<Option<real>> {
    if results == [] then []
    else
      var row := results[|results| - 1];
      RowsOf(results[..|results| - 1], model, caseId) + if row.model == model && row.caseId == caseId then [row.score] else []
  }

  /** A unit without a row, or whose last row has no score. */
  predicate Unfinished(results: seq<ResultRow>, model: int, caseId: int) {
    var rows := RowsOf(results, model, caseId);
    rows == [] || rows[|rows| - 1].None?
  }

  /** The map holds the last score of every unit that has a row. */
  predicate Remembers(existing: map<(int, int), Option<real>>, results: seq<ResultRow>, model: int, caseId: int) {
    var rows := RowsOf(results, model, caseId);
    && ((model, caseId) in existing <==> rows != [])
    && (rows != [] ==> existing[(model, caseId)] == rows[|rows| - 1])
  }

  method LastScores(results: seq<ResultRow>) returns (existing: map<(int, int), Option<real>>)
    ensures forall m, c :: Remembers(existing, results, m, c)
  {
    existing := map[];
    for i := 0 to |results|
      invariant forall m, c :: Remembers(existing, results[..i], m, c)
    {
      ghost var was := existing;
      existing := existing[(results[i].model, results[i].caseId) := results[i].score];
      ghost var seen := results[..i + 1];
      assert seen[..i] == results[..i];
      forall m, c ensures Remembers(existing, seen, m, c) {
        assert Remembers(was, results[..i], m, c);
      }
    }
    assert results[..|results|] == results;
  }

  /** The cases a member model still owes a run. */
  method Todo(cases: seq<int>, results: seq<ResultRow>, model: int) returns (todo: seq<int>)
    ensures forall c :: c in todo <==> c in cases && Unfinished(results, model, c)
  {
    var existing := LastScores(results);
    todo := [];
    for i := 0 to |cases|
      invariant forall c :: c in todo <==> c in cases[..i] && Unfinished(results, model, c)
    {
      assert Remembers(existing, results, model, cases[i]);
      assert cases[..i + 1] == cases[..i] + [cases[i]];
      if (model, cases[i]) !in existing || existing[(model, cases[i])].None? {
        todo := todo + [cases[i]];
      }
    }
    assert cases[..|cases|] == cases;
  }

  /** While a unit has at most one row, the plan leaves out exactly the units that have a score. */
  lemma PlanSparesScores(results: seq<ResultRow>, model: int, caseId: int)
    requires |RowsOf(results, model, caseId)| <= 1
    ensures !Unfinished(results, model, caseId) <==> exists x :: x in RowsOf(results, model, caseId) && x.Some?
    ensures Unfinished(results, model, caseId) <==> RowsOf(results, model, caseId) in {[], [None]}
  {
    var rows := RowsOf(results, model, caseId);
    if rows != [] { assert rows == [rows[0]] && rows[0] in rows; }
  }

  // ---------------------------------------------------------------------
  // The machine

  /** Opens a case after deleting its row. */
  function ReplaceStep(b: Batch, s: Sys, c: Cell, at: nat, streak: nat): Sys {
    var ck := CaseKey(c, at);
    var s1 := SetBook(s, OpenCase(s.book, ck, Samples(b, ck)));
    Goto(SetCase(SetRows(s1, ck, []), ck, Open), c, Ask(Pos(at, 0, false, streak)))
  }

  /** A cell that is through always goes on to mark its run; the count is kept, but nobody asks for it. */
  function EagerCount(s: Sys, c: Cell): Sys {
    var n := RemainingIn(s.threads.remaining, c.run) - 1;
    Goto(s.(threads := s.threads.(remaining := s.threads.remaining[c.run := n])), c, Mark)
  }

  function EagerStep(b: Batch, s: Sys, a: Action): Sys
    requires Enabled(b, s, a)
  {
    match a
    case OpenNext(c) =>
      var pc := CellAt(s, c);
      if pc.next >= Cases(b, c) || s.control.cancelled then Goto(s, c, Count) else ReplaceStep(b, s, c, pc.next, pc.streak)
    case CountOne(c) => EagerCount(s, c)
    case _ => Step(b, s, a)
  }

  ghost predicate IsEagerRun(b: Batch, trace: seq<Sys>, actions: seq<Action>) {
    && |trace| == |actions| + 1
    && Init(b, trace[0])
    && forall i | 0 <= i < |actions| :: Enabled(b, trace[i], actions[i]) && trace[i + 1] == EagerStep(b, trace[i], actions[i])
  }

  // ---------------------------------------------------------------------
  // Only planned units change

  predicate CellInside(b: Batch, c: Cell, pc: CellPc) {
    (!pc.Returned? ==> c in b.cells) && !pc.FailRest? && (InCase(pc) ==> pc.pos.at < Cases(b, c))
  }

  /** Nobody works on a case outside the grid. */
  ghost predicate Inside(b: Batch, s: Sys) {
    && (forall c :: CellInside(b, c, CellAt(s, c)))
    && (forall v :: !JobAt(s, v).Unlisted? ==> InGrid(b, v.sample.of))
  }

  ghost predicate SameOutside(b: Batch, s: Sys, s': Sys) {
    forall ck | !InGrid(b, ck) :: Rows(s', ck) == Rows(s, ck)
  }

  /** A cell moved inside the grid, and at most its own case's rows changed. */
  lemma CellMoved(b: Batch, s: Sys, s': Sys, c: Cell)
    requires Inside(b, s) && CellInside(b, c, CellAt(s', c))
    requires (forall d | d != c :: CellAt(s', d) == CellAt(s, d)) && (forall v :: JobAt(s', v) == JobAt(s, v))
    ensures Inside(b, s')
  {
    forall d ensures CellInside(b, d, CellAt(s', d)) {
      if d != c { assert CellInside(b, d, CellAt(s, d)); }
    }
  }

  lemma JobMoved(b: Batch, s: Sys, s': Sys, v: VoteKey)
    requires Inside(b, s) && InGrid(b, v.sample.of)
    requires (forall d :: CellAt(s', d) == CellAt(s, d)) && (forall w | w != v :: JobAt(s', w) == JobAt(s, w))
    ensures Inside(b, s')
  {
    forall d ensures CellInside(b, d, CellAt(s', d)) { assert CellInside(b, d, CellAt(s, d)); }
  }

  lemma AfterInside(b: Batch, c: Cell, p: Pos)
    requires b.retry && c in b.cells && p.at < Cases(b, c)
    ensures CellInside(b, c, After(b, c, p))
  {
  }

  lemma CellGoesIn(b: Batch, s: Sys, a: Action)
    requires b.retry && Inside(b, s) && Enabled(b, s, a)
    requires a.Take? || a.Begin? || a.OpenNext? || a.AskOne? || a.Cut? || a.FailOne?
    ensures Inside(b, EagerStep(b, s, a)) && SameOutside(b, s, EagerStep(b, s, a))
  {
    hide Inside, After, SettleSample, OpenCase, MarkCellsDone, CaseScore, Judges, OutcomeOf, SetupOf, EnlistStep, OfferStep, LandStep, DropStep, SettleJobStep, OpenStep, CountStep;
    CellIsInside(b, s, a.c);
    if InCase(CellAt(s, a.c)) { AfterInside(b, a.c, CellAt(s, a.c).pos); }
    CellMoved(b, s, EagerStep(b, s, a), a.c);
  }


  lemma CellGoesOn(b: Batch, s: Sys, a: Action)
    requires b.retry && Inside(b, s) && Enabled(b, s, a)
    requires a.SettleOne? || a.WriteOne? || a.CountOne? || a.MarkOne? || a.StampOne?
    ensures Inside(b, EagerStep(b, s, a)) && SameOutside(b, s, EagerStep(b, s, a))
  {
    hide Inside, After, SettleSample, OpenCase, MarkCellsDone, CaseScore, Judges, OutcomeOf, SetupOf, EnlistStep, OfferStep, LandStep, DropStep, SettleJobStep, OpenStep, CountStep;
    CellIsInside(b, s, a.c);
    if InCase(CellAt(s, a.c)) { AfterInside(b, a.c, CellAt(s, a.c).pos); }
    CellMoved(b, s, EagerStep(b, s, a), a.c);
  }

  lemma CellIsInside(b: Batch, s: Sys, c: Cell)
    requires Inside(b, s)
    ensures CellInside(b, c, CellAt(s, c))
  {
  }

  lemma EnlistInside(b: Batch, s: Sys, c: Cell)
    requires b.retry && Inside(b, s) && CellAt(s, c).Enlist?
    ensures var s' := EnlistStep(b, s, c, CellAt(s, c).pos); Inside(b, s') && SameOutside(b, s, s')
  {
    hide Register, Judges;
    CellIsInside(b, s, c);
    var s' := EnlistStep(b, s, c, CellAt(s, c).pos);
    forall d ensures CellInside(b, d, CellAt(s', d)) {
      if d != c { assert CellInside(b, d, CellAt(s, d)); }
    }
  }

  lemma HandInside(b: Batch, s: Sys, c: Cell)
    requires b.retry && Inside(b, s) && CellAt(s, c).Offer?
    ensures var s' := OfferStep(b, s, c, CellAt(s, c).pos, CellAt(s, c).slot); Inside(b, s') && SameOutside(b, s, s')
  {
    hide After, Judges;
    CellIsInside(b, s, c);
    var p := CellAt(s, c).pos;
    AfterInside(b, c, p);
    var s' := OfferStep(b, s, c, p, CellAt(s, c).slot);
    forall d ensures CellInside(b, d, CellAt(s', d)) {
      if d != c { assert CellInside(b, d, CellAt(s, d)); }
    }
  }

  lemma VoteStepInside(b: Batch, s: Sys, a: Action)
    requires Inside(b, s) && Enabled(b, s, a)
    requires a.Judge? || a.Land? || a.SettleVote? || a.WriteVote? || a.Drop? || a.StampVote?
    ensures Inside(b, EagerStep(b, s, a)) && SameOutside(b, s, EagerStep(b, s, a))
  {
    hide Inside, SettleSample, LandVote, DecrementPending, CaseScore, OpenStep, ReplaceStep, AskStep, SettleStep, EnlistStep, OfferStep, FailStep, EagerCount, CountStep, MarkStep, After, TakeStep;
    VoteIsInside(b, s, a.v);
    JobMoved(b, s, EagerStep(b, s, a), a.v);
  }

  lemma VoteIsInside(b: Batch, s: Sys, v: VoteKey)
    requires Inside(b, s)
    ensures !JobAt(s, v).Unlisted? ==> InGrid(b, v.sample.of)
  {
  }

  lemma SameThreads(b: Batch, s: Sys, s': Sys)
    requires Inside(b, s) && s'.threads == s.threads && s'.db.rows == s.db.rows
    ensures Inside(b, s') && SameOutside(b, s, s')
  {
    hide CellInside;
    forall d ensures CellInside(b, d, CellAt(s', d)) { assert CellInside(b, d, CellAt(s, d)); }
    forall v | !JobAt(s', v).Unlisted? ensures InGrid(b, v.sample.of) { assert !JobAt(s, v).Unlisted?; }
  }

  lemma SwitchInside(b: Batch, s: Sys, a: Action)
    requires Inside(b, s) && Enabled(b, s, a)
    requires a.Cancel? || a.CloseFeed? || a.ExamLeaves? || a.CloseJudges? || a.JudgeLeaves? || a.BeginTail? || a.FailRun? || a.Finish?
    ensures Inside(b, EagerStep(b, s, a)) && SameOutside(b, s, EagerStep(b, s, a))
  {
    hide Inside, SameOutside;
    SameThreads(b, s, EagerStep(b, s, a));
  }

  lemma StepInside(b: Batch, s: Sys, a: Action)
    requires b.retry && Inside(b, s) && Enabled(b, s, a)
    ensures Inside(b, EagerStep(b, s, a)) && SameOutside(b, s, EagerStep(b, s, a))
  {
    hide Inside, SameOutside, CellInside;
    if a.EnlistOne? {
      EnlistInside(b, s, a.c);
    } else if a.Hand? {
      HandInside(b, s, a.c);
    } else if a.Judge? || a.Land? || a.SettleVote? || a.WriteVote? || a.Drop? || a.StampVote? {
      VoteStepInside(b, s, a);
    } else if a.Take? || a.Begin? || a.OpenNext? || a.AskOne? || a.Cut? || a.FailOne? {
      CellGoesIn(b, s, a);
    } else if a.SettleOne? || a.WriteOne? || a.CountOne? || a.MarkOne? || a.StampOne? {
      CellGoesOn(b, s, a);
    } else {
      SwitchInside(b, s, a);
    }
  }

  lemma {:induction false} OnlyTheGridChanges(b: Batch, trace: seq<Sys>, actions: seq<Action>, i: nat)
    requires b.retry && IsEagerRun(b, trace, actions) && i < |trace|
    ensures Inside(b, trace[i]) && SameOutside(b, trace[0], trace[i])
  {
    hide EagerStep, Enabled;
    if i > 0 {
      OnlyTheGridChanges(b, trace, actions, i - 1);
      StepInside(b, trace[i - 1], actions[i - 1]);
    }
  }

  /** Resuming, cancelled or not, leaves every scored row as it was at every moment. */
  lemma ResumeKeepsScores(b: Batch, trace: seq<Sys>, actions: seq<Action>, i: nat, ck: CaseKey)
    requires ValidBatch(b) && b.retry && IsEagerRun(b, trace, actions) && i < |trace|
    requires exists x :: x in RowsIn(b.rowsBefore, ck) && x.Some?
    ensures Rows(trace[i], ck) == RowsIn(b.rowsBefore, ck)
  {
    hide EagerStep, Enabled, Inside;
    OnlyTheGridChanges(b, trace, actions, i);
  }

  // ---------------------------------------------------------------------
  // When "done" still means done

  /** No run has two cells. */
  predicate OneCellEach(cells: set<Cell>) {
    forall c, d | c in cells && d in cells && c.run == d.run :: c == d
  }

  lemma SameOpen(b: Batch, s: Sys, c: Cell)
    requires Inv(b, s) && ValidBatch(b) && b.retry && CellAt(s, c).Next? && CellAt(s, c).next < Cases(b, c)
    ensures ReplaceStep(b, s, c, CellAt(s, c).next, CellAt(s, c).streak) == OpenStep(b, s, c, CellAt(s, c).next, CellAt(s, c).streak)
  {
    hide TokenOk, SampleOk, JobOk, RunOk, PoolOk, NonNull, OpenCase;
    var ck := CaseKey(c, CellAt(s, c).next);
    assert CellOk(b, s, c) && GridOk(b, s, ck) && CaseOk(b, s, ck);
    NextIsFresh(b, s, c);
    NullRowsGo();
  }

  lemma SameCountStep(b: Batch, s: Sys, c: Cell)
    requires Inv(b, s) && ValidBatch(b) && OneCellEach(b.cells) && CellAt(s, c).Count?
    ensures EagerCount(s, c) == CountStep(s, c)
  {
    hide TokenOk, SampleOk, JobOk, CaseOk, GridOk, PoolOk;
    assert CellOk(b, s, c) && RunOk(b, s, c.run);
    assert Uncounted(b, s.threads.cells, c.run) == {c};
  }

  lemma SameStep(b: Batch, s: Sys, a: Action)
    requires Inv(b, s) && ValidBatch(b) && b.retry && OneCellEach(b.cells) && Enabled(b, s, a)
    ensures EagerStep(b, s, a) == Step(b, s, a)
  {
    hide Inv, ValidBatch, OneCellEach, ReplaceStep, OpenStep, EagerCount, CountStep;
    if a.OpenNext? && CellAt(s, a.c).next < Cases(b, a.c) { SameOpen(b, s, a.c); }
    if a.CountOne? { SameCountStep(b, s, a.c); }
  }

  /** With one cell to a run, marking after every cell is marking after the last one. */
  lemma {:induction false} EagerIsOrdinary(b: Batch, trace: seq<Sys>, actions: seq<Action>)
    requires ValidBatch(b) && b.retry && OneCellEach(b.cells) && IsEagerRun(b, trace, actions)
    ensures IsRun(b, trace, actions)
  {
    hide EagerStep, Step, Inv, OneCellEach, ValidBatch, Enabled;
    var n := |actions|;
    if n > 0 {
      EagerIsOrdinary(b, trace[..n], actions[..n - 1]);
      RunHolds(b, trace[..n], actions[..n - 1], n - 1);
      SameStep(b, trace[n - 1], actions[n - 1]);
      forall i | 0 <= i < n ensures Enabled(b, trace[i], actions[i]) && trace[i + 1] == Step(b, trace[i], actions[i]) {
        if i < n - 1 { assert trace[..n][i] == trace[i] && actions[..n - 1][i] == actions[i] && trace[..n][i + 1] == trace[i + 1]; }
      }
    }
  }

  /** A run is stamped done while one of its cells has not come back. */
  ghost predicate TooEarly(b: Batch, trace: seq<Sys>, actions: seq<Action>, i: nat, c: Cell) {
    && ValidBatch(b) && b.retry && IsEagerRun(b, trace, actions) && i < |trace|
    && c in b.cells && DoneStamp in Stamps(trace[i], c.run) && !Counted(CellAt(trace[i], c))
  }

  lemma NeverTooEarly(b: Batch, trace: seq<Sys>, actions: seq<Action>, i: nat, c: Cell)
    requires OneCellEach(b.cells)
    ensures !TooEarly(b, trace, actions, i, c)
  {
    hide OneCellEach, ValidBatch, IsRun, IsEagerRun;
    if TooEarly(b, trace, actions, i, c) {
      EagerIsOrdinary(b, trace, actions);
      InBatchRuns(b, c);
      DoneIsComplete(b, trace, actions, i, c.run);
    }
  }

  lemma InBatchRuns(b: Batch, c: Cell)
    requires ValidBatch(b) && c in b.cells
    ensures c.run in b.runs
  {
  }

  /** Every model of these cells is gone, so a cell that is taken comes back at once. */
  function SkipAll(cells: set<Cell>): Batch {
    Batch(true, false, set c | c in cells :: c.run, cells, map[], map[], map c | c in cells :: Skip, map[], map[], 1, 1, map[])
  }

  ghost function Before(b: Batch): Sys {
    Sys(EMPTY_BOOK, Threads(map c | c in b.cells :: Waiting, map[], map r | r in b.runs :: |CellsOf(b, r)|),
      Control(Feeding, false, false, Crew(1, 0), Crew(1, 0)), Database(map[], map[], map[]), History(map[], map[], map[]))
  }

  lemma SkipAllStarts(cells: set<Cell>)
    ensures var b := SkipAll(cells); ValidBatch(b) && Init(b, Before(b))
  {
    var b := SkipAll(cells);
    forall r | r in b.runs ensures CellsOf(b, r) != {} {
      var c :| c in cells && c.run == r;
      assert c in CellsOf(b, r);
    }
    var empty := set r | r in b.runs && CellsOf(b, r) == {};
    assert empty == {};
    var none: map<int, seq<Status>> := map[];
    var quiet: map<int, RunState> := map[];
    assert (map r | r in empty :: [DoneStamp]) == none && (map r | r in empty :: Finished) == quiet;
  }

  /** How a cell that has nothing to do goes through. */
  lemma ComesBack(b: Batch, s: Sys, c: Cell)
    requires !s.control.crashed
    ensures s.control.phase.Feeding? && s.control.exam.idle > 0 && !s.control.cancelled && CellAt(s, c).Waiting? ==>
      Enabled(b, s, Take(c)) && EagerStep(b, s, Take(c)) == TakeStep(s, c)
    ensures CellAt(s, c).Start? && SetupOf(b, c).Skip? ==> Enabled(b, s, Begin(c)) && EagerStep(b, s, Begin(c)) == Goto(s, c, Count)
    ensures CellAt(s, c).Count? ==> Enabled(b, s, CountOne(c)) && EagerStep(b, s, CountOne(c)) == EagerCount(s, c)
    ensures CellAt(s, c).Mark? ==> Enabled(b, s, MarkOne(c)) && EagerStep(b, s, MarkOne(c)) == MarkStep(s, c)
    ensures CellAt(s, c).Stamp? ==> Enabled(b, s, StampOne(c)) && EagerStep(b, s, StampOne(c)) == Return(StampRun(s, c.run), c)
  {
    hide TakeStep, EagerCount, MarkStep, Return, StampRun, Goto;
  }

  /** One cell of a run comes back, and the run is done; another one has not even started. */
  lemma StampsTooEarly(cells: set<Cell>, c: Cell, d: Cell) returns (trace: seq<Sys>, actions: seq<Action>)
    requires c in cells && d in cells && c.run == d.run && c != d
    ensures TooEarly(SkipAll(cells), trace, actions, 5, d)
  {
    hide ValidBatch, Init, Enabled, EagerStep, Step;
    var b := SkipAll(cells);
    SkipAllStarts(cells);
    actions := [Take(c), Begin(c), CountOne(c), MarkOne(c), StampOne(c)];
    var s0 := Before(b);
    var s1 := TakeStep(s0, c);
    var s2 := Goto(s1, c, Count);
    var s3 := EagerCount(s2, c);
    var s4 := MarkStep(s3, c);
    var s5 := Return(StampRun(s4, c.run), c);
    trace := [s0, s1, s2, s3, s4, s5];
    ComesBack(b, s0, c);
    ComesBack(b, s1, c);
    ComesBack(b, s2, c);
    ComesBack(b, s3, c);
    ComesBack(b, s4, c);
    assert CellAt(s4, c).Stamp?;
    assert Stamps(s5, d.run) == [DoneStamp] && CellAt(s5, d).Waiting?;
  }

  /** A run can be stamped done before its cells are back exactly when some run has two cells. */
  lemma DoneTooEarlyIff(cells: set<Cell>)
    ensures (exists b: Batch, trace, actions, i: nat, c :: b.cells == cells && TooEarly(b, trace, actions, i, c)) <==> !OneCellEach(cells)
  {
    hide TooEarly;
    if !OneCellEach(cells) {
      var c, d :| c in cells && d in cells && c.run == d.run && c != d;
      var trace, actions := StampsTooEarly(cells, c, d);
      assert SkipAll(cells).cells == cells;
    } else {
      forall b: Batch, trace, actions, i: nat, c | b.cells == cells ensures !TooEarly(b, trace, actions, i, c) {
        NeverTooEarly(b, trace, actions, i, c);
      }
    }
  }
}
