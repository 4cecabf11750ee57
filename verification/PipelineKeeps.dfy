/** Every action keeps the invariant. */
module PipelineKeeps {
  import opened Wrappers
  import opened Median
  import opened PipelineBook
  import opened PipelineMachine
  import opened PipelineInvariant
  import opened PipelineFrame

  // ---------------------------------------------------------------------
  // Sets that the counters count

  lemma SameCount(b: Batch, cells: map<Cell, CellPc>, c: Cell, pc: CellPc)
    requires Counted(pc) == Counted(CellIn(cells, c))
    ensures Uncounted(b, cells[c := pc], c.run) == Uncounted(b, cells, c.run)
  {
  }

  lemma SameBusy(b: Batch, cells: map<Cell, CellPc>, c: Cell, pc: CellPc)
    requires CellBusy(pc) == CellBusy(CellIn(cells, c))
    ensures BusyCells(b, cells[c := pc]) == BusyCells(b, cells)
  {
  }

  lemma SameJobSets(jobs: map<VoteKey, JobPc>, v: VoteKey, pc: JobPc, r: int)
    requires v in jobs && JobBusy(pc) == JobBusy(jobs[v]) && !pc.Unlisted? && !jobs[v].Unlisted?
    requires !pc.Stamping? && !pc.Done? && !jobs[v].Stamping? && !jobs[v].Done?
    ensures OpenVotes(jobs[v := pc], r) == OpenVotes(jobs, r)
    ensures BusyJobs(jobs[v := pc]) == BusyJobs(jobs)
  {
  }

  // ---------------------------------------------------------------------
  // Steps that stay around one sample

  predicate OnlyAt<K, V(==)>(m: map<K, V>, m': map<K, V>, k: K) {
    m' - {k} == m - {k}
  }

  lemma OnlyAtSame<K, V>(m: map<K, V>, m': map<K, V>, k: K, j: K)
    requires OnlyAt(m, m', k) && j != k
    ensures SameKey(m, m', j)
  {
    assert j in m <==> j in m - {k};
    assert j in m' <==> j in m' - {k};
    assert j in m ==> m[j] == (m - {k})[j];
    assert j in m' ==> m'[j] == (m' - {k})[j];
  }

  /** The same run's counters, stamps and history may change; other runs' may not. */
  ghost predicate OnlyRun(s: Sys, s': Sys, r: int) {
    && OnlyAt(s.book.pending, s'.book.pending, r) && OnlyAt(s.threads.remaining, s'.threads.remaining, r)
    && OnlyAt(s.db.stamps, s'.db.stamps, r) && OnlyAt(s.past.runs, s'.past.runs, r)
    && s'.book.cellsDone - {r} == s.book.cellsDone - {r} && s'.book.finished - {r} == s.book.finished - {r}
  }

  lemma OtherRunSame(s: Sys, s': Sys, r: int, q: int)
    requires OnlyRun(s, s', r) && q != r
    ensures SameRun(s, s', q)
  {
    hide OnlyAt;
    OnlyAtSame(s.book.pending, s'.book.pending, r, q);
    OnlyAtSame(s.threads.remaining, s'.threads.remaining, r, q);
    OnlyAtSame(s.db.stamps, s'.db.stamps, r, q);
    OnlyAtSame(s.past.runs, s'.past.runs, r, q);
    assert q in s'.book.cellsDone <==> q in s'.book.cellsDone - {r};
    assert q in s.book.cellsDone <==> q in s.book.cellsDone - {r};
    assert q in s'.book.finished <==> q in s'.book.finished - {r};
    assert q in s.book.finished <==> q in s.book.finished - {r};
  }

  ghost predicate OnlyCase(s: Sys, s': Sys, k: SampleKey) {
    && OnlyAt(s.past.samples, s'.past.samples, k) && OnlyAt(s.book.votes, s'.book.votes, k)
    && OnlyAt(s.past.cases, s'.past.cases, k.of) && OnlyAt(s.book.aggs, s'.book.aggs, k.of) && OnlyAt(s.db.rows, s'.db.rows, k.of)
  }

  lemma OtherCasesSame(s: Sys, s': Sys, k: SampleKey)
    requires OnlyCase(s, s', k)
    ensures forall j | j != k :: SampleAt(s', j) == SampleAt(s, j) && SameKey(s.book.votes, s'.book.votes, j)
    ensures forall ck | ck != k.of :: CaseAt(s', ck) == CaseAt(s, ck) && SameKey(s.book.aggs, s'.book.aggs, ck) && Rows(s', ck) == Rows(s, ck)
  {
    hide OnlyAt;
    forall j | j != k ensures SampleAt(s', j) == SampleAt(s, j) && SameKey(s.book.votes, s'.book.votes, j) {
      OnlyAtSame(s.past.samples, s'.past.samples, k, j);
      OnlyAtSame(s.book.votes, s'.book.votes, k, j);
    }
    forall ck | ck != k.of ensures CaseAt(s', ck) == CaseAt(s, ck) && SameKey(s.book.aggs, s'.book.aggs, ck) && Rows(s', ck) == Rows(s, ck) {
      OnlyAtSame(s.past.cases, s'.past.cases, k.of, ck);
      OnlyAtSame(s.book.aggs, s'.book.aggs, k.of, ck);
      OnlyAtSame(s.db.rows, s'.db.rows, k.of, ck);
    }
  }

  ghost predicate OnlyVotesOf(s: Sys, s': Sys, k: SampleKey) {
    forall v: VoteKey | v.sample != k :: SameKey(s.threads.jobs, s'.threads.jobs, v) && SameKey(s.db.ballots, s'.db.ballots, v)
  }

  /** What a step may touch, and the duties it may change, stated map by map. */
  lemma StaysAround(s: Sys, s': Sys, a: Token, k: SampleKey)
    requires k.of.cell in s.threads.cells && OnlyAt(s.threads.cells, s'.threads.cells, k.of.cell) && k.of.cell in s'.threads.cells
    requires OnlyVotesOf(s, s', k) && OnlyCase(s, s', k) && OnlyRun(s, s', k.of.cell.run)
    requires s'.control.phase == s.control.phase && s'.control.cancelled == s.control.cancelled
    requires a != ByCell(k.of.cell) ==> CellAt(s', k.of.cell) == CellAt(s, k.of.cell)
    requires forall i: nat | a != ByVote(VoteKey(k, i)) :: JobDuty(VoteKey(k, i), JobAt(s', VoteKey(k, i))) == JobDuty(VoteKey(k, i), JobAt(s, VoteKey(k, i)))
    ensures Around(s, s', a, k)
  {
    hide OnlyAt, OnlyCase, OnlyRun, CellDuty, JobDuty, SameRun;
    OtherCasesSame(s, s', k);
    forall c | c != k.of.cell ensures CellAt(s', c) == CellAt(s, c) && (c in s.threads.cells <==> c in s'.threads.cells) {
      OnlyAtSame(s.threads.cells, s'.threads.cells, k.of.cell, c);
    }
    assert s'.threads.cells.Keys == s.threads.cells.Keys;
    forall v: VoteKey | v.sample != k ensures JobAt(s', v) == JobAt(s, v) && SameKey(s.db.ballots, s'.db.ballots, v) {
      assert SameKey(s.threads.jobs, s'.threads.jobs, v);
    }
    forall r | r != k.of.cell.run ensures SameRun(s, s', r) { OtherRunSame(s, s', k.of.cell.run, r); }
    forall t | t != a ensures DutyOf(s', t) == DutyOf(s, t) {
      match t
      case ByCell(c) => assert CellAt(s', c) == CellAt(s, c);
      case ByVote(v) =>
        if v.sample == k {
          assert v == VoteKey(k, v.slot);
        } else {
          assert JobAt(s', v) == JobAt(s, v);
        }
    }
  }

  /** A cell step that leaves votes, counters and stamps alone stays around its sample. */
  lemma CellStaysAround(s: Sys, s': Sys, c: Cell, k: SampleKey)
    requires k.of.cell == c && c in s.threads.cells
    requires s'.threads == s.threads.(cells := s.threads.cells[c := CellAt(s', c)])
    requires s'.book == s.book.(aggs := s'.book.aggs) && OnlyAt(s.book.aggs, s'.book.aggs, k.of)
    requires s'.db == s.db.(rows := s'.db.rows) && OnlyAt(s.db.rows, s'.db.rows, k.of)
    requires s'.past == s.past.(samples := s'.past.samples, cases := s'.past.cases)
    requires OnlyAt(s.past.samples, s'.past.samples, k) && OnlyAt(s.past.cases, s'.past.cases, k.of)
    requires s'.control == s.control
    ensures Around(s, s', ByCell(c), k) && SameRun(s, s', c.run)
  {
    hide CellDuty, JobDuty, Around;
    StaysAround(s, s', ByCell(c), k);
  }

  /** A vote step moves that one vote; its sample, case and run may change with it. */
  lemma VoteStaysAround(s: Sys, s': Sys, v: VoteKey)
    requires v.sample.of.cell in s.threads.cells
    requires s'.threads == s.threads.(jobs := s.threads.jobs[v := JobAt(s', v)])
    requires OnlyAt(s.db.ballots, s'.db.ballots, v)
    requires OnlyCase(s, s', v.sample) && OnlyRun(s, s', v.sample.of.cell.run)
    requires s'.control.phase == s.control.phase && s'.control.cancelled == s.control.cancelled
    ensures Around(s, s', ByVote(v), v.sample)
  {
    hide CellDuty, JobDuty, Around, OnlyCase, OnlyRun;
    forall w: VoteKey | w.sample != v.sample ensures SameKey(s.threads.jobs, s'.threads.jobs, w) && SameKey(s.db.ballots, s'.db.ballots, w) {
      OnlyAtSame(s.db.ballots, s'.db.ballots, v, w);
    }
    StaysAround(s, s', ByVote(v), v.sample);
  }

  lemma MovedToken(b: Batch, s: Sys, a: Token)
    requires DutyOf(s, a) == Free
    ensures TokenOk(b, s, a)
  {
  }

  /** A token without a duty is nobody's decider, closer or finisher. */
  lemma DecidersElsewhere(b: Batch, s: Sys, a: Token, k: SampleKey)
    requires SampleOk(b, s, k) && CaseOk(b, s, k.of) && RunOk(b, s, k.of.cell.run) && DutyOf(s, a) == Free
    ensures SampleAt(s, k).Deciding? ==> SampleAt(s, k).who != a
    ensures CaseAt(s, k.of).Closing? ==> CaseAt(s, k.of).who != a
    ensures RunAt(s, k.of.cell.run).Finishing? ==> RunAt(s, k.of.cell.run).who != a
  {
    hide BallotOk, Tally, RowsDue;
  }

  /** c goes from one place to another without a duty on either side. */
  ghost predicate PlainMove(b: Batch, s: Sys, s': Sys, c: Cell, pc: CellPc, k: SampleKey) {
    && c in b.cells && k.of.cell == c
    && CellDuty(c, CellAt(s, c)) == Free == CellDuty(c, pc)
    && !Counted(CellAt(s, c)) && !Counted(pc) && !pc.Waiting?
    && (CellAt(s, c).Offer? ==> s.control.cancelled && Key(c, CellAt(s, c).pos) == k)
    && PcOk(b, s', c, pc)
    && (forall at: nat :: GridOk(b, s', CaseKey(c, at)))
    && SameRefusals(b, s, s', k)
    && (CaseAt(s, k.of) == Unopened && InGrid(b, k.of) ==> Refused(b, CellAt(s, c), k.of) == Refused(b, pc, k.of))
    && s'.book == s.book && s'.db == s.db && s'.past == s.past && s'.threads == s.threads.(cells := s.threads.cells[c := pc])
    && s'.control.phase == s.control.phase && s'.control.cancelled == s.control.cancelled
  }

  lemma PlainMoveAround(b: Batch, s: Sys, s': Sys, c: Cell, pc: CellPc, k: SampleKey)
    requires CellOk(b, s, c) && PlainMove(b, s, s', c, pc, k)
    ensures Around(s, s', ByCell(c), k)
    ensures Rightful(s, s', ByCell(c), k)
  {
    hide PcOk, GridOk, SameRefusals, Refused;
  }

  lemma PlainMoveFocus(b: Batch, s: Sys, s': Sys, c: Cell, pc: CellPc, k: SampleKey)
    requires Inv(b, s) && PlainMove(b, s, s', c, pc, k) && PoolOk(b, s')
    ensures Focus(b, s', ByCell(c), k)
  {
    hide TokenOk, SampleOk, CaseOk, GridOk, PcOk, SameRefusals, Refused, RunOk, JobOk, PoolOk;
    var a := ByCell(c);
    assert SampleOk(b, s, k) && CaseOk(b, s, k.of) && CellOk(b, s, c) && RunOk(b, s, c.run);
    SameCount(b, s.threads.cells, c, pc);
    MovedToken(b, s', a);
    DecidersElsewhere(b, s, a, k);
    SampleKept(b, s, s', k);
    CaseKept(b, s, s', k.of);
    forall i: nat ensures JobOk(b, s', VoteKey(k, i)) {
      assert JobOk(b, s, VoteKey(k, i));
      VoteUnderMove(b, s, s', c, pc, k, VoteKey(k, i));
    }
    RunKept(b, s, s', c.run);
  }

  lemma VoteUnderMove(b: Batch, s: Sys, s': Sys, c: Cell, pc: CellPc, k: SampleKey, v: VoteKey)
    requires JobOk(b, s, v) && PlainMove(b, s, s', c, pc, k) && v.sample == k
    ensures JobOk(b, s', v)
  {
    hide PcOk, GridOk, SameRefusals, Refused;
    JobKept(b, s, s', v);
  }

  lemma PlainMoveKeeps(b: Batch, s: Sys, s': Sys, c: Cell, pc: CellPc, k: SampleKey)
    requires Inv(b, s) && PlainMove(b, s, s', c, pc, k) && PoolOk(b, s')
    ensures Inv(b, s')
  {
    hide Focus, Around, Rightful, TokenOk, SampleOk, CaseOk, GridOk, PcOk, Refused, RunOk, JobOk, PoolOk;
    assert CellOk(b, s, c);
    PlainMoveAround(b, s, s', c, pc, k);
    PlainMoveFocus(b, s, s', c, pc, k);
    KeepAround(b, s, s', ByCell(c), k);
  }

  /** Any key of the cell serves as the focus of a move between cases. */
  function SomeKey(c: Cell, at: nat): SampleKey { SampleKey(CaseKey(c, at), 0) }

  lemma TakeKeeps(b: Batch, s: Sys, c: Cell)
    requires Inv(b, s) && CellAt(s, c).Waiting? && s.control.exam.idle > 0 && s.control.phase.Feeding?
    ensures Inv(b, TakeStep(s, c))
  {
    hide TokenOk, SampleOk, CaseOk, RunOk, JobOk;
    var s' := TakeStep(s, c);
    assert CellOk(b, s, c);
    assert BusyCells(b, s'.threads.cells) == BusyCells(b, s.threads.cells) + {c};
    forall at: nat ensures GridOk(b, s', CaseKey(c, at)) { assert GridOk(b, s, CaseKey(c, at)); }
    PlainMoveKeeps(b, s, s', c, Start, SomeKey(c, 0));
  }

  lemma BeginKeeps(b: Batch, s: Sys, c: Cell)
    requires Inv(b, s) && CellAt(s, c).Start?
    ensures Inv(b, Goto(s, c, AfterSetup(b, c)))
  {
    hide TokenOk, SampleOk, CaseOk, RunOk, JobOk;
    var pc := AfterSetup(b, c);
    var s' := Goto(s, c, pc);
    assert CellOk(b, s, c);
    SameBusy(b, s.threads.cells, c, pc);
    forall at: nat ensures GridOk(b, s', CaseKey(c, at)) { assert GridOk(b, s, CaseKey(c, at)); }
    PlainMoveKeeps(b, s, s', c, pc, SomeKey(c, 0));
  }

  lemma SkipRestKeeps(b: Batch, s: Sys, c: Cell)
    requires Inv(b, s) && CellAt(s, c).Next? && (CellAt(s, c).next >= Cases(b, c) || b.retry)
    ensures Inv(b, Goto(s, c, Count))
  {
    hide TokenOk, SampleOk, CaseOk, RunOk, JobOk;
    var s' := Goto(s, c, Count);
    assert CellOk(b, s, c);
    SameBusy(b, s.threads.cells, c, Count);
    forall at: nat ensures GridOk(b, s', CaseKey(c, at)) { assert GridOk(b, s, CaseKey(c, at)); }
    forall ck: CaseKey | ck.cell == c && CaseAt(s, ck) == Unopened && InGrid(b, ck)
      ensures Refused(b, CellAt(s, c), ck) == Refused(b, Count, ck)
    {
      assert GridOk(b, s, ck);
    }
    PlainMoveKeeps(b, s, s', c, Count, SomeKey(c, 0));
  }

  lemma FailEndKeeps(b: Batch, s: Sys, c: Cell)
    requires Inv(b, s) && CellAt(s, c).FailRest? && CellAt(s, c).from >= Cases(b, c)
    ensures Inv(b, Goto(s, c, Count))
  {
    hide TokenOk, SampleOk, CaseOk, RunOk, JobOk;
    var s' := Goto(s, c, Count);
    assert CellOk(b, s, c);
    SameBusy(b, s.threads.cells, c, Count);
    forall at: nat ensures GridOk(b, s', CaseKey(c, at)) { assert GridOk(b, s, CaseKey(c, at)); }
    PlainMoveKeeps(b, s, s', c, Count, SomeKey(c, 0));
  }

  lemma ToEnlistKeeps(b: Batch, s: Sys, c: Cell, p: Pos, p': Pos)
    requires Inv(b, s) && CellAt(s, c) == Ask(p) && p' == p.(answered := p'.answered) && Judges(b, Key(c, p)) > 0
    ensures Inv(b, Goto(s, c, Enlist(p')))
  {
    hide TokenOk, SampleOk, CaseOk, RunOk, JobOk;
    var pc := Enlist(p');
    var s' := Goto(s, c, pc);
    assert CellOk(b, s, c);
    SameBusy(b, s.threads.cells, c, pc);
    forall at: nat ensures GridOk(b, s', CaseKey(c, at)) { assert GridOk(b, s, CaseKey(c, at)); }
    PlainMoveKeeps(b, s, s', c, pc, Key(c, p));
  }

  /** The place after sample p agrees with the grid as soon as sample p is asked. */
  lemma AfterGrid(b: Batch, s: Sys, c: Cell, p: Pos)
    requires forall at: nat :: GridOk(b, s, CaseKey(c, at))
    requires InCase(CellAt(s, c)) && CellAt(s, c).pos == p && !CellAt(s, c).Ask? && !CellAt(s, c).Enlist?
    requires c in b.cells && PcOk(b, s, c, CellAt(s, c))
    ensures var s' := Goto(s, c, After(b, c, p));
      && (forall at: nat :: GridOk(b, s', CaseKey(c, at)))
      && PcOk(b, s', c, After(b, c, p))
      && (forall ck: CaseKey | ck.cell == c && CaseAt(s, ck) == Unopened && InGrid(b, ck) ::
            Refused(b, CellAt(s, c), ck) == Refused(b, After(b, c, p), ck))
  {
    var s' := Goto(s, c, After(b, c, p));
    forall at: nat ensures GridOk(b, s', CaseKey(c, at)) { assert GridOk(b, s, CaseKey(c, at)); }
    forall ck: CaseKey | ck.cell == c && CaseAt(s, ck) == Unopened && InGrid(b, ck)
      ensures Refused(b, CellAt(s, c), ck) == Refused(b, After(b, c, p), ck)
    {
      assert ck == CaseKey(c, ck.at);
      assert GridOk(b, s, CaseKey(c, ck.at));
    }
  }

  lemma CutKeeps(b: Batch, s: Sys, c: Cell)
    requires Inv(b, s) && CellAt(s, c).Offer? && s.control.cancelled
    ensures Inv(b, Goto(s, c, After(b, c, CellAt(s, c).pos)))
  {
    hide TokenOk, SampleOk, CaseOk, RunOk, JobOk, GridOk, PcOk, Refused;
    var p := CellAt(s, c).pos;
    var pc := After(b, c, p);
    var s' := Goto(s, c, pc);
    assert CellOk(b, s, c);
    SameBusy(b, s.threads.cells, c, pc);
    forall at: nat ensures GridOk(b, s, CaseKey(c, at)) {}
    AfterGrid(b, s, c, p);
    PlainMoveKeeps(b, s, s', c, pc, Key(c, p));
  }

  // ---------------------------------------------------------------------
  // Opening a case and asking a sample

  /** The case that comes next, unopened and without samples. */
  lemma NextIsFresh(b: Batch, s: Sys, c: Cell)
    requires CellOk(b, s, c) && CellAt(s, c).Next? && CellAt(s, c).next < Cases(b, c)
    requires GridOk(b, s, CaseKey(c, CellAt(s, c).next))
    ensures var ck := CaseKey(c, CellAt(s, c).next);
      && InGrid(b, ck) && CaseAt(s, ck) == Unopened
      && forall no: nat | no < Samples(b, ck) :: SampleAt(s, SampleKey(ck, no)) == Unasked
  {
  }

  lemma NullRowsGo()
    ensures NonNull([None]) == [] && NonNull([]) == []
  {
    var rows: seq<Option<real>> := [None];
    assert rows[1..] == [];
  }

  /** The bottom of the sample loop: the sample a cell stands at, before it is asked. */
  lemma AskedNext(b: Batch, s: Sys, c: Cell, p: Pos)
    requires CellOk(b, s, c) && InCase(CellAt(s, c)) && CellAt(s, c).pos == p && GridOk(b, s, CaseKey(c, p.at))
    ensures InGrid(b, CaseKey(c, p.at)) && CaseAt(s, CaseKey(c, p.at)) != Unopened
    ensures CellAt(s, c).Ask? || CellAt(s, c).Enlist? <==> SampleAt(s, Key(c, p)) == Unasked
  {
    assert SampleAt(s, SampleKey(CaseKey(c, p.at), p.no)) == SampleAt(s, Key(c, p));
  }

  /** A case with an unsettled sample is open. */
  lemma UnsettledIsOpen(b: Batch, s: Sys, k: SampleKey)
    requires CaseOk(b, s, k.of) && CaseAt(s, k.of) != Unopened && k.no < Samples(b, k.of) && !SampleAt(s, k).Settled?
    ensures CaseAt(s, k.of).Open?
  {
    hide Tally, RowsDue, DutyOf, FullAggregate;
    assert SampleAt(s, SampleKey(k.of, k.no)) == SampleAt(s, k);
  }

  /** A step that neither counts, nor marks, nor stamps leaves the run as it was. */
  lemma QuietRun(b: Batch, s: Sys, s': Sys, a: Token, k: SampleKey)
    requires RunOk(b, s, k.of.cell.run) && Around(s, s', a, k) && SameRun(s, s', k.of.cell.run)
    requires OpenVotes(s'.threads.jobs, k.of.cell.run) == OpenVotes(s.threads.jobs, k.of.cell.run)
    requires Uncounted(b, s'.threads.cells, k.of.cell.run) == Uncounted(b, s.threads.cells, k.of.cell.run)
    requires !CellAt(s, k.of.cell).Mark? || CellAt(s', k.of.cell).Mark?
    requires DutyOf(s, a) != ToStamp(k.of.cell.run)
    ensures RunOk(b, s', k.of.cell.run)
  {
    hide DutyOf, OpenVotes, Uncounted, SameRun, SameKey;
    RunKept(b, s, s', k.of.cell.run);
  }

  function Decided(b: Batch, s: Sys, c: Cell, p: Pos, p': Pos): Sys {
    Goto(SetSample(s, Key(c, p), Deciding(ByCell(c))), c, Settle(p', SampleMedian(b, Key(c, p))))
  }

  lemma DecideAround(b: Batch, s: Sys, c: Cell, p: Pos, p': Pos)
    requires CellOk(b, s, c) && CellAt(s, c) == Ask(p) && p' == p.(answered := p'.answered) && SampleAt(s, Key(c, p)) == Unasked
    requires c in b.cells
    ensures Around(s, Decided(b, s, c, p, p'), ByCell(c), Key(c, p))
    ensures Rightful(s, Decided(b, s, c, p, p'), ByCell(c), Key(c, p))
    ensures SameRefusals(b, s, Decided(b, s, c, p, p'), Key(c, p))
  {
    hide PcOk, SampleMedian;
  }

  lemma DecideFocus(b: Batch, s: Sys, c: Cell, p: Pos, p': Pos)
    requires Inv(b, s) && CellAt(s, c) == Ask(p) && p' == p.(answered := p'.answered) && Judges(b, Key(c, p)) == 0
    requires c in b.cells && SampleAt(s, Key(c, p)) == Unasked && CaseAt(s, CaseKey(c, p.at)).Open?
    ensures Focus(b, Decided(b, s, c, p, p'), ByCell(c), Key(c, p))
  {
    hide TokenOk, SampleOk, CaseOk, GridOk, RunOk, JobOk, SampleMedian, Judges, BallotOk;
    var s', k := Decided(b, s, c, p, p'), Key(c, p);
    assert SampleOk(b, s, k) && CaseOk(b, s, k.of) && CellOk(b, s, c) && RunOk(b, s, c.run);
    SameCount(b, s.threads.cells, c, CellAt(s', c));
    SameBusy(b, s.threads.cells, c, CellAt(s', c));
    DecideSample(b, s, c, p, p');
    DecideAround(b, s, c, p, p');
    DecidersElsewhere(b, s, ByCell(c), k);
    CaseKept(b, s, s', k.of);
    QuietRun(b, s, s', ByCell(c), k);
    forall i: nat ensures JobOk(b, s', VoteKey(k, i)) {
      assert JobOk(b, s, VoteKey(k, i));
      DecideJob(b, s, c, p, p', VoteKey(k, i));
    }
    forall at: nat ensures GridOk(b, s', CaseKey(c, at)) {
      assert GridOk(b, s, CaseKey(c, at));
      DecideGrid(b, s, c, p, p', CaseKey(c, at));
    }
  }

  lemma DecideSample(b: Batch, s: Sys, c: Cell, p: Pos, p': Pos)
    requires CellAt(s, c) == Ask(p) && p' == p.(answered := p'.answered) && p.no < Samples(b, CaseKey(c, p.at))
    requires CaseAt(s, CaseKey(c, p.at)).Open? && SampleOk(b, s, Key(c, p)) && SampleAt(s, Key(c, p)) == Unasked
    ensures SampleOk(b, Decided(b, s, c, p, p'), Key(c, p))
    ensures TokenOk(b, Decided(b, s, c, p, p'), ByCell(c))
  {
    hide SampleMedian, BallotOk;
  }

  lemma DecideJob(b: Batch, s: Sys, c: Cell, p: Pos, p': Pos, v: VoteKey)
    requires CellAt(s, c) == Ask(p) && v.sample == Key(c, p) && Judges(b, v.sample) == 0 && JobOk(b, s, v)
    ensures JobOk(b, Decided(b, s, c, p, p'), v)
  {
    hide SampleMedian, Judges;
  }

  lemma DecideGrid(b: Batch, s: Sys, c: Cell, p: Pos, p': Pos, ck: CaseKey)
    requires CellAt(s, c) == Ask(p) && p' == p.(answered := p'.answered) && ck.cell == c && GridOk(b, s, ck)
    requires c in b.cells && CaseAt(s, CaseKey(c, p.at)).Open? && p.no < Samples(b, CaseKey(c, p.at))
    ensures GridOk(b, Decided(b, s, c, p, p'), ck)
  {
    hide SampleMedian;
  }

  lemma AskKeeps(b: Batch, s: Sys, c: Cell)
    requires Inv(b, s) && CellAt(s, c).Ask?
    ensures Inv(b, AskStep(b, s, c, CellAt(s, c).pos))
  {
    hide TokenOk, SampleOk, CaseOk, GridOk, RunOk, JobOk, PoolOk, Around, Rightful, SameRefusals, Focus;
    var p := CellAt(s, c).pos;
    var k := Key(c, p);
    var p' := p.(answered := p.answered || !OutcomeOf(b, k).Failed?);
    assert CellOk(b, s, c) && GridOk(b, s, k.of) && SampleOk(b, s, k) && CaseOk(b, s, k.of);
    if Judges(b, k) > 0 {
      ToEnlistKeeps(b, s, c, p, p');
    } else {
      AskedNext(b, s, c, p);
      UnsettledIsOpen(b, s, k);
      DecideAround(b, s, c, p, p');
      DecideFocus(b, s, c, p, p');
      KeepAround(b, s, Decided(b, s, c, p, p'), ByCell(c), k);
    }
  }

  lemma OpenAround(b: Batch, s: Sys, c: Cell)
    requires CellOk(b, s, c) && c in b.cells && CellAt(s, c).Next? && CellAt(s, c).next < Cases(b, c)
    requires CaseAt(s, CaseKey(c, CellAt(s, c).next)) == Unopened
    ensures var s', k := OpenStep(b, s, c, CellAt(s, c).next, CellAt(s, c).streak), SomeKey(c, CellAt(s, c).next);
      Around(s, s', ByCell(c), k) && SameRun(s, s', c.run)
  {
    hide PcOk, NonNull, Around, SameRun;
    CellStaysAround(s, OpenStep(b, s, c, CellAt(s, c).next, CellAt(s, c).streak), c, SomeKey(c, CellAt(s, c).next));
  }

  lemma OpenRightful(b: Batch, s: Sys, c: Cell)
    requires CellOk(b, s, c) && c in b.cells && CellAt(s, c).Next? && CellAt(s, c).next < Cases(b, c)
    requires CaseAt(s, CaseKey(c, CellAt(s, c).next)) == Unopened
    ensures var s', k := OpenStep(b, s, c, CellAt(s, c).next, CellAt(s, c).streak), SomeKey(c, CellAt(s, c).next);
      Rightful(s, s', ByCell(c), k) && SameRefusals(b, s, s', k)
  {
    hide PcOk, NonNull, OpenCase;
  }

  lemma OpenCaseOk(b: Batch, s: Sys, c: Cell)
    requires ValidBatch(b) && CellAt(s, c).Next? && CaseOk(b, s, CaseKey(c, CellAt(s, c).next))
    requires InGrid(b, CaseKey(c, CellAt(s, c).next)) && CaseAt(s, CaseKey(c, CellAt(s, c).next)) == Unopened
    requires forall no: nat | no < Samples(b, CaseKey(c, CellAt(s, c).next)) :: SampleAt(s, SampleKey(CaseKey(c, CellAt(s, c).next), no)) == Unasked
    ensures CaseOk(b, OpenStep(b, s, c, CellAt(s, c).next, CellAt(s, c).streak), CaseKey(c, CellAt(s, c).next))
  {
    hide Tally, FullAggregate, NonNull;
    var ck := CaseKey(c, CellAt(s, c).next);
    NullRowsGo();
    forall no: nat | no < Samples(b, ck) ensures !SampleIn(s.past.samples, SampleKey(ck, no)).Settled? {
      assert SampleAt(s, SampleKey(ck, no)) == Unasked;
    }
    TallyNone(b, s.past.samples, ck, Samples(b, ck));
  }

  lemma OpenGrid(b: Batch, s: Sys, c: Cell, ck: CaseKey)
    requires CellAt(s, c).Next? && ck.cell == c && GridOk(b, s, ck) && GridOk(b, s, CaseKey(c, CellAt(s, c).next))
    ensures GridOk(b, OpenStep(b, s, c, CellAt(s, c).next, CellAt(s, c).streak), ck)
  {
    hide NonNull;
  }

  lemma OpenFocus(b: Batch, s: Sys, c: Cell)
    requires Inv(b, s) && ValidBatch(b) && c in b.cells && CellAt(s, c).Next? && CellAt(s, c).next < Cases(b, c)
    ensures Focus(b, OpenStep(b, s, c, CellAt(s, c).next, CellAt(s, c).streak), ByCell(c), SomeKey(c, CellAt(s, c).next))
  {
    hide TokenOk, SampleOk, CaseOk, GridOk, RunOk, JobOk, ValidBatch, NonNull;
    var at := CellAt(s, c).next;
    var s', k := OpenStep(b, s, c, at, CellAt(s, c).streak), SomeKey(c, at);
    assert SampleOk(b, s, k) && CaseOk(b, s, k.of) && CellOk(b, s, c) && RunOk(b, s, c.run) && GridOk(b, s, k.of);
    NextIsFresh(b, s, c);
    assert Samples(b, k.of) >= 1 by { ValidSamples(b, k.of); }
    SameCount(b, s.threads.cells, c, CellAt(s', c));
    SameBusy(b, s.threads.cells, c, CellAt(s', c));
    OpenAround(b, s, c);
    OpenCaseOk(b, s, c);
    MovedToken(b, s', ByCell(c));
    DecidersElsewhere(b, s, ByCell(c), k);
    SampleKept(b, s, s', k);
    QuietRun(b, s, s', ByCell(c), k);
    forall i: nat ensures JobOk(b, s', VoteKey(k, i)) {
      assert JobOk(b, s, VoteKey(k, i));
      OpenJob(b, s, c, VoteKey(k, i));
    }
    forall i: nat ensures GridOk(b, s', CaseKey(c, i)) {
      assert GridOk(b, s, CaseKey(c, i));
      OpenGrid(b, s, c, CaseKey(c, i));
    }
  }

  lemma ValidSamples(b: Batch, ck: CaseKey)
    requires ValidBatch(b) && InGrid(b, ck)
    ensures Samples(b, ck) >= 1
  {
  }

  lemma OpenJob(b: Batch, s: Sys, c: Cell, v: VoteKey)
    requires CellAt(s, c).Next? && v.sample.of.cell == c && JobOk(b, s, v)
    ensures JobOk(b, OpenStep(b, s, c, CellAt(s, c).next, CellAt(s, c).streak), v)
  {
    hide NonNull;
  }

  lemma OpenKeeps(b: Batch, s: Sys, c: Cell)
    requires Inv(b, s) && ValidBatch(b) && CellAt(s, c).Next? && CellAt(s, c).next < Cases(b, c)
    ensures Inv(b, OpenStep(b, s, c, CellAt(s, c).next, CellAt(s, c).streak))
  {
    hide TokenOk, SampleOk, CaseOk, GridOk, RunOk, JobOk, PoolOk, Around, Rightful, SameRefusals, Focus, OpenStep, ValidBatch;
    var at := CellAt(s, c).next;
    assert CellOk(b, s, c) && GridOk(b, s, CaseKey(c, at));
    NextIsFresh(b, s, c);
    OpenAround(b, s, c);
    OpenRightful(b, s, c);
    OpenFocus(b, s, c);
    KeepAround(b, s, OpenStep(b, s, c, at, CellAt(s, c).streak), ByCell(c), SomeKey(c, at));
  }

  // ---------------------------------------------------------------------
  // Settling a sample, by a cell or by a vote

  /** Settling k folds its median in, and completes the case exactly when it was the last sample. */
  ghost predicate SettleFacts(b: Batch, s: Sys, k: SampleKey) {
    && k.of in s.book.aggs
    && var a := Fold(s.book.aggs[k.of], SampleMedian(b, k));
    && var n := Samples(b, k.of);
    && a == Tally(b, s.past.samples[k := Settled], k.of, n)
    && a.expected == n && a.settled <= n
    && (a.settled == n ==> forall no: nat | no < n :: SampleIn(s.past.samples[k := Settled], SampleKey(k.of, no)).Settled?)
    && (a.settled == n ==> a == FullAggregate(b, k.of))
  }

  lemma SettleHolds(b: Batch, s: Sys, k: SampleKey)
    requires SampleOk(b, s, k) && CaseOk(b, s, k.of) && SampleAt(s, k).Deciding?
    ensures CaseAt(s, k.of).Open? && SettleFacts(b, s, k) && k.of in s.book.aggs
  {
    hide Tally, Full, RowsDue, SampleMedian, BallotOk;
    UnsettledIsOpen(b, s, k);
    TallyAdds(b, s.past.samples, k, Samples(b, k.of));
    TallyFull(b, s.past.samples[k := Settled], k.of, Samples(b, k.of));
  }

  /** s' is s with k settled by a; agg is the completed aggregate, if the case is complete. */
  ghost predicate SettledBy(b: Batch, s: Sys, s': Sys, a: Token, k: SampleKey) {
    k.of in s.book.aggs &&
    var (book, done) := SettleSample(s.book, k.of, SampleMedian(b, k));
    && s'.book == book && s'.db == s.db && s'.control == s.control
    && s'.past == SettleBy(s, a, k, done, book).past
    && DutyOf(s', a) == (match done case None => Free case Some(agg) => ToWrite(k.of, agg))
  }

  lemma SettledFocus(b: Batch, s: Sys, s': Sys, a: Token, k: SampleKey)
    requires SettledBy(b, s, s', a, k) && SettleFacts(b, s, k) && CaseAt(s, k.of).Open?
    requires CaseOk(b, s, k.of) && SampleOk(b, s, k)
    requires SampleAt(s, k) == Deciding(a)
    ensures TokenOk(b, s', a) && SampleOk(b, s', k) && CaseOk(b, s', k.of)
  {
    hide Tally, FullAggregate, SampleMedian, BallotOk, DutyOf, Refused;
  }

  lemma SettleCellAround(b: Batch, s: Sys, c: Cell, p: Pos, median: Option<real>)
    requires c in s.threads.cells && CellAt(s, c) == Settle(p, median) && CaseKey(c, p.at) in s.book.aggs
    ensures var s' := SettleStep(b, s, c, p, median);
      Around(s, s', ByCell(c), Key(c, p)) && SameRun(s, s', c.run)
  {
    hide After, Fold, Around, SameRun;
    CellStaysAround(s, SettleStep(b, s, c, p, median), c, Key(c, p));
  }

  lemma SettleCellRightful(b: Batch, s: Sys, c: Cell, p: Pos, median: Option<real>)
    requires c in s.threads.cells && CellAt(s, c) == Settle(p, median) && CaseAt(s, CaseKey(c, p.at)).Open? && CaseKey(c, p.at) in s.book.aggs
    requires SampleAt(s, Key(c, p)) == Deciding(ByCell(c))
    ensures Rightful(s, SettleStep(b, s, c, p, median), ByCell(c), Key(c, p))
  {
    hide After, Fold;
  }

  /** Where the cell stands after settling: owing the row, or at the next sample. */
  lemma SettleCellGrid(b: Batch, s: Sys, c: Cell, p: Pos, median: Option<real>)
    requires CellOk(b, s, c) && c in b.cells && CellAt(s, c) == Settle(p, median) && CaseKey(c, p.at) in s.book.aggs
    requires forall at: nat :: GridOk(b, s, CaseKey(c, at))
    requires SampleAt(s, Key(c, p)) == Deciding(ByCell(c)) && CaseAt(s, CaseKey(c, p.at)).Open?
    ensures var s' := SettleStep(b, s, c, p, median);
      && (forall at: nat :: GridOk(b, s', CaseKey(c, at))) && PcOk(b, s', c, CellAt(s', c))
      && SameRefusals(b, s, s', Key(c, p)) && !Counted(CellAt(s', c)) && CellBusy(CellAt(s', c))
  {
    hide After, Fold, GridOk, PcOk, Refused;
    var s' := SettleStep(b, s, c, p, median);
    AfterGrid(b, s, c, p);
    AfterIsPlain(b, c, p);
    forall at: nat ensures GridOk(b, s', CaseKey(c, at)) {
      assert GridOk(b, s, CaseKey(c, at));
      assert GridOk(b, Goto(s, c, After(b, c, p)), CaseKey(c, at));
      SettleCellGridAt(b, s, c, p, median, CaseKey(c, at));
    }
    SettleCellPc(b, s, c, p, median);
  }

  lemma AfterIsPlain(b: Batch, c: Cell, p: Pos)
    ensures var pc := After(b, c, p);
      CellDuty(c, pc) == Free && !Counted(pc) && CellBusy(pc) && !pc.Offer? && !pc.Enlist? && !pc.Mark? && !pc.Waiting? && !pc.Start?
  {
  }

  lemma SettleCellPc(b: Batch, s: Sys, c: Cell, p: Pos, median: Option<real>)
    requires PcOk(b, s, c, CellAt(s, c)) && CellAt(s, c) == Settle(p, median) && CaseKey(c, p.at) in s.book.aggs
    requires PcOk(b, Goto(s, c, After(b, c, p)), c, After(b, c, p))
    requires forall ck: CaseKey | ck.cell == c && CaseAt(s, ck) == Unopened && InGrid(b, ck) ::
      Refused(b, CellAt(s, c), ck) == Refused(b, After(b, c, p), ck)
    ensures var s' := SettleStep(b, s, c, p, median);
      PcOk(b, s', c, CellAt(s', c)) && SameRefusals(b, s, s', Key(c, p))
  {
    hide After, Fold;
    AfterIsPlain(b, c, p);
  }

  lemma SettleCellGridAt(b: Batch, s: Sys, c: Cell, p: Pos, median: Option<real>, ck: CaseKey)
    requires CellAt(s, c) == Settle(p, median) && CaseKey(c, p.at) in s.book.aggs && ck.cell == c
    requires GridOk(b, s, ck) && GridOk(b, Goto(s, c, After(b, c, p)), ck)
    requires SampleAt(s, Key(c, p)) == Deciding(ByCell(c)) && CaseAt(s, CaseKey(c, p.at)).Open?
    ensures GridOk(b, SettleStep(b, s, c, p, median), ck)
  {
    hide After, Fold;
  }

  /** The votes of a settled sample are all landed, so none of them looks at it any more. */
  lemma SettleJobs(b: Batch, s: Sys, s': Sys, v: VoteKey)
    requires JobOk(b, s, v) && JobAt(s', v) == JobAt(s, v) && s'.db.ballots == s.db.ballots
    requires SampleAt(s, v.sample).Deciding? && SampleAt(s', v.sample).Settled? && s'.control == s.control
    ensures JobOk(b, s', v)
  {
    JobKept(b, s, s', v);
  }

  lemma SettleCellDuty(b: Batch, s: Sys, c: Cell, p: Pos, median: Option<real>)
    requires TokenOk(b, s, ByCell(c)) && CellAt(s, c) == Settle(p, median)
    ensures SampleAt(s, Key(c, p)) == Deciding(ByCell(c)) && median == SampleMedian(b, Key(c, p))
  {
    hide SampleMedian;
  }

  lemma SettleCellBy(b: Batch, s: Sys, c: Cell, p: Pos, median: Option<real>)
    requires CellAt(s, c) == Settle(p, median) && median == SampleMedian(b, Key(c, p)) && CaseKey(c, p.at) in s.book.aggs
    ensures SettledBy(b, s, SettleStep(b, s, c, p, median), ByCell(c), Key(c, p))
    ensures var s' := SettleStep(b, s, c, p, median);
      && s'.threads.jobs == s.threads.jobs && s'.threads.cells == s.threads.cells[c := CellAt(s', c)]
      && s'.db == s.db && s'.control == s.control && SampleAt(s', Key(c, p)).Settled?
  {
    hide SampleMedian, After, Fold;
    AfterIsPlain(b, c, p);
  }

  /** A cell that neither counts nor marks keeps its own clause, its run's and the pools'. */
  lemma QuietCell(b: Batch, s: Sys, s': Sys, c: Cell, k: SampleKey)
    requires Around(s, s', ByCell(c), k) && SameRun(s, s', c.run) && k.of.cell == c
    requires CellOk(b, s, c) && RunOk(b, s, c.run) && PoolOk(b, s)
    requires s'.threads.jobs == s.threads.jobs && s'.control == s.control && s'.threads.cells == s.threads.cells[c := CellAt(s', c)]
    requires PcOk(b, s', c, CellAt(s', c)) && CellBusy(CellAt(s, c)) && !Counted(CellAt(s, c)) && CellBusy(CellAt(s', c)) && !Counted(CellAt(s', c))
    ensures CellOk(b, s', c) && RunOk(b, s', c.run) && PoolOk(b, s')
  {
    hide Around, SameRun, RunOk, PcOk;
    SameCount(b, s.threads.cells, c, CellAt(s', c));
    SameBusy(b, s.threads.cells, c, CellAt(s', c));
    QuietRun(b, s, s', ByCell(c), k);
  }

  lemma SettleCellFocus(b: Batch, s: Sys, c: Cell, p: Pos, median: Option<real>)
    requires Inv(b, s) && c in b.cells && CellAt(s, c) == Settle(p, median)
    ensures CaseKey(c, p.at) in s.book.aggs && CaseAt(s, CaseKey(c, p.at)).Open? && SampleAt(s, Key(c, p)) == Deciding(ByCell(c))
    ensures Focus(b, SettleStep(b, s, c, p, median), ByCell(c), Key(c, p))
  {
    hide TokenOk, SampleOk, CaseOk, GridOk, RunOk, JobOk, PcOk, SampleMedian, BallotOk, SettleFacts, SettledBy, SettleStep, Around, Rightful, SameRun, Refused;
    var s', k := SettleStep(b, s, c, p, median), Key(c, p);
    assert SampleOk(b, s, k) && CaseOk(b, s, k.of) && CellOk(b, s, c) && RunOk(b, s, c.run) && TokenOk(b, s, ByCell(c));
    SettleCellDuty(b, s, c, p, median);
    SettleHolds(b, s, k);
    SettleCellBy(b, s, c, p, median);
    SettledFocus(b, s, s', ByCell(c), k);
    SettleCellAround(b, s, c, p, median);
    forall at: nat ensures GridOk(b, s, CaseKey(c, at)) {}
    SettleCellGrid(b, s, c, p, median);
    QuietCell(b, s, s', c, k);
    forall i: nat ensures JobOk(b, s', VoteKey(k, i)) {
      assert JobOk(b, s, VoteKey(k, i));
      SettleJobs(b, s, s', VoteKey(k, i));
    }
  }

  lemma SettleKeeps(b: Batch, s: Sys, c: Cell)
    requires Inv(b, s) && CellAt(s, c).Settle?
    ensures Inv(b, SettleStep(b, s, c, CellAt(s, c).pos, CellAt(s, c).median))
  {
    hide TokenOk, SampleOk, CaseOk, GridOk, RunOk, JobOk, PoolOk, PcOk, Around, Rightful, SameRefusals, Focus, SettleStep;
    var p, median := CellAt(s, c).pos, CellAt(s, c).median;
    assert CellOk(b, s, c);
    SettleCellFocus(b, s, c, p, median);
    SettleCellAround(b, s, c, p, median);
    SettleCellRightful(b, s, c, p, median);
    forall at: nat ensures GridOk(b, s, CaseKey(c, at)) {}
    SettleCellGrid(b, s, c, p, median);
    KeepAround(b, s, SettleStep(b, s, c, p, median), ByCell(c), Key(c, p));
  }

  // ---------------------------------------------------------------------
  // Writing a row

  /** s' is s with the row of k's case written by a. */
  ghost predicate WrittenBy(b: Batch, s: Sys, s': Sys, a: Token, k: SampleKey) {
    && s'.book == s.book && s'.control == s.control
    && s'.db == WriteRow(s, k.of, FullAggregate(b, k.of)).db && s'.past == WriteRow(s, k.of, FullAggregate(b, k.of)).past
    && DutyOf(s', a) == Free
  }

  lemma WrittenFocus(b: Batch, s: Sys, s': Sys, a: Token, k: SampleKey)
    requires WrittenBy(b, s, s', a, k) && CaseOk(b, s, k.of) && SampleOk(b, s, k) && CaseAt(s, k.of) == Closing(a) && k.no < Samples(b, k.of)
    ensures TokenOk(b, s', a) && SampleOk(b, s', k) && CaseOk(b, s', k.of) && SampleAt(s, k).Settled?
  {
    hide Tally, FullAggregate, SampleMedian, BallotOk, DutyOf, Refused, CaseScore;
    assert SampleAt(s, SampleKey(k.of, k.no)) == SampleAt(s, k);
  }

  function CellWrites(b: Batch, s: Sys, c: Cell, p: Pos, agg: Aggregate): Sys {
    Goto(WriteRow(s, CaseKey(c, p.at), agg), c, After(b, c, p))
  }

  lemma CellWritesAround(b: Batch, s: Sys, c: Cell, p: Pos, agg: Aggregate)
    requires c in s.threads.cells && CellAt(s, c) == Write(p, agg) && CaseAt(s, CaseKey(c, p.at)) == Closing(ByCell(c)) && SampleAt(s, Key(c, p)).Settled?
    ensures var s' := CellWrites(b, s, c, p, agg);
      Around(s, s', ByCell(c), Key(c, p)) && SameRun(s, s', c.run) && Rightful(s, s', ByCell(c), Key(c, p))
  {
    hide After, CaseScore, Around, SameRun;
    AfterIsPlain(b, c, p);
    CellStaysAround(s, CellWrites(b, s, c, p, agg), c, Key(c, p));
  }

  lemma CellWritesFacts(b: Batch, s: Sys, c: Cell, p: Pos, agg: Aggregate)
    requires TokenOk(b, s, ByCell(c)) && CellAt(s, c) == Write(p, agg)
    ensures CaseAt(s, CaseKey(c, p.at)) == Closing(ByCell(c)) && agg == FullAggregate(b, CaseKey(c, p.at))
    ensures var s' := CellWrites(b, s, c, p, agg);
      && WrittenBy(b, s, s', ByCell(c), Key(c, p))
      && s'.threads.jobs == s.threads.jobs && s'.threads.cells == s.threads.cells[c := CellAt(s', c)] && CellAt(s', c) == After(b, c, p)
      && s'.past.samples == s.past.samples && s'.db.ballots == s.db.ballots
  {
    hide After, CaseScore, FullAggregate;
    AfterIsPlain(b, c, p);
  }

  lemma CellWritesGrid(b: Batch, s: Sys, c: Cell, p: Pos, agg: Aggregate)
    requires CellOk(b, s, c) && c in b.cells && CellAt(s, c) == Write(p, agg) && CaseAt(s, CaseKey(c, p.at)) == Closing(ByCell(c))
    requires forall at: nat :: GridOk(b, s, CaseKey(c, at))
    ensures var s' := CellWrites(b, s, c, p, agg);
      && (forall at: nat :: GridOk(b, s', CaseKey(c, at))) && PcOk(b, s', c, CellAt(s', c)) && SameRefusals(b, s, s', Key(c, p))
  {
    hide After, GridOk, Refused, CaseScore;
    var s' := CellWrites(b, s, c, p, agg);
    AfterGrid(b, s, c, p);
    AfterIsPlain(b, c, p);
    forall at: nat ensures GridOk(b, s', CaseKey(c, at)) {
      assert GridOk(b, Goto(s, c, After(b, c, p)), CaseKey(c, at));
      GridKept(b, Goto(s, c, After(b, c, p)), s', CaseKey(c, at));
    }
  }

  lemma WriteKeeps(b: Batch, s: Sys, c: Cell)
    requires Inv(b, s) && CellAt(s, c).Write?
    ensures Inv(b, CellWrites(b, s, c, CellAt(s, c).pos, CellAt(s, c).agg))
  {
    hide TokenOk, SampleOk, CaseOk, GridOk, RunOk, JobOk, PoolOk, PcOk, Around, Rightful, SameRefusals, CellWrites, WrittenBy, After, FullAggregate, SameRun;
    var p, agg := CellAt(s, c).pos, CellAt(s, c).agg;
    var s', k := CellWrites(b, s, c, p, agg), Key(c, p);
    assert CellOk(b, s, c) && TokenOk(b, s, ByCell(c)) && CaseOk(b, s, k.of) && SampleOk(b, s, k) && RunOk(b, s, c.run);
    CellWritesFacts(b, s, c, p, agg);
    PosInCase(b, s, c);
    WrittenFocus(b, s, s', ByCell(c), k);
    CellWritesAround(b, s, c, p, agg);
    forall at: nat ensures GridOk(b, s, CaseKey(c, at)) {}
    CellWritesGrid(b, s, c, p, agg);
    AfterIsPlain(b, c, p);
    WrittenControl(b, s, s', ByCell(c), k);
    QuietCell(b, s, s', c, k);
    forall i: nat ensures JobOk(b, s', VoteKey(k, i)) {
      assert JobOk(b, s, VoteKey(k, i));
      JobUnderWrite(b, s, s', VoteKey(k, i));
    }
    KeepAround(b, s, s', ByCell(c), k);
  }

  lemma PosInCase(b: Batch, s: Sys, c: Cell)
    requires CellOk(b, s, c) && InCase(CellAt(s, c))
    ensures c in b.cells && c in s.threads.cells && CellAt(s, c).pos.no < Samples(b, CaseKey(c, CellAt(s, c).pos.at))
  {
  }

  lemma WrittenControl(b: Batch, s: Sys, s': Sys, a: Token, k: SampleKey)
    requires WrittenBy(b, s, s', a, k)
    ensures s'.control == s.control && s'.book == s.book
  {
  }

  /** A settled sample's votes do not care who else moves. */
  lemma JobUnderWrite(b: Batch, s: Sys, s': Sys, v: VoteKey)
    requires JobOk(b, s, v) && SampleAt(s, v.sample).Settled? && s'.past.samples == s.past.samples
    requires s'.threads.jobs == s.threads.jobs && s'.db.ballots == s.db.ballots && s'.control == s.control
    ensures JobOk(b, s', v)
  {
    JobKept(b, s, s', v);
  }

  // ---------------------------------------------------------------------
  // Giving up on the rest of a cell

  lemma FailOneKeeps(b: Batch, s: Sys, c: Cell)
    requires Inv(b, s) && ValidBatch(b) && CellAt(s, c).FailRest? && CellAt(s, c).from < Cases(b, c)
    ensures Inv(b, FailStep(b, s, c, CellAt(s, c).from))
  {
    hide TokenOk, SampleOk, CaseOk, GridOk, RunOk, JobOk, Around, Rightful, ValidBatch, SameRun;
    var at := CellAt(s, c).from;
    var s', k := FailStep(b, s, c, at), SomeKey(c, at);
    assert CellOk(b, s, c) && SampleOk(b, s, k) && CaseOk(b, s, k.of) && RunOk(b, s, c.run) && GridOk(b, s, k.of);
    FailUnopened(b, s, c);
    CellStaysAround(s, s', c, k);
    FailRightful(b, s, c);
    MovedToken(b, s', ByCell(c));
    DecidersElsewhere(b, s, ByCell(c), k);
    SampleKept(b, s, s', k);
    FailCase(b, s, c);
    SameBusy(b, s.threads.cells, c, CellAt(s', c));
    SameCount(b, s.threads.cells, c, CellAt(s', c));
    QuietRun(b, s, s', ByCell(c), k);
    forall i: nat ensures JobOk(b, s', VoteKey(k, i)) {
      assert JobOk(b, s, VoteKey(k, i));
      FailJob(b, s, s', c, VoteKey(k, i));
    }
    forall i: nat ensures GridOk(b, s', CaseKey(c, i)) {
      assert GridOk(b, s, CaseKey(c, i));
      FailGrid(b, s, c, CaseKey(c, i));
    }
    KeepAround(b, s, s', ByCell(c), k);
  }

  lemma FailUnopened(b: Batch, s: Sys, c: Cell)
    requires CellOk(b, s, c) && CellAt(s, c).FailRest? && CellAt(s, c).from < Cases(b, c) && GridOk(b, s, CaseKey(c, CellAt(s, c).from))
    ensures InGrid(b, CaseKey(c, CellAt(s, c).from)) && CaseAt(s, CaseKey(c, CellAt(s, c).from)) == Unopened && c in s.threads.cells && !b.retry
  {
  }

  lemma FailRightful(b: Batch, s: Sys, c: Cell)
    requires CellAt(s, c).FailRest? && CellAt(s, c).from < Cases(b, c)
    ensures var s', k := FailStep(b, s, c, CellAt(s, c).from), SomeKey(c, CellAt(s, c).from);
      Rightful(s, s', ByCell(c), k) && SameRefusals(b, s, s', k)
  {
  }

  lemma FailCase(b: Batch, s: Sys, c: Cell)
    requires ValidBatch(b) && CellAt(s, c).FailRest? && !b.retry && CaseOk(b, s, CaseKey(c, CellAt(s, c).from))
    requires InGrid(b, CaseKey(c, CellAt(s, c).from)) && CaseAt(s, CaseKey(c, CellAt(s, c).from)) == Unopened
    ensures CaseOk(b, FailStep(b, s, c, CellAt(s, c).from), CaseKey(c, CellAt(s, c).from))
  {
    hide Tally;
    var none: seq<Option<real>> := [];
    assert none + [None] == [None];
  }

  lemma FailJob(b: Batch, s: Sys, s': Sys, c: Cell, v: VoteKey)
    requires JobOk(b, s, v) && CellAt(s, c).FailRest? && v.sample.of.cell == c && s'.past == s.past
    requires s'.threads.jobs == s.threads.jobs && s'.db.ballots == s.db.ballots && s'.control == s.control
    ensures JobOk(b, s', v)
  {
    JobKept(b, s, s', v);
  }

  lemma FailGrid(b: Batch, s: Sys, c: Cell, ck: CaseKey)
    requires GridOk(b, s, ck) && ck.cell == c && CellAt(s, c).FailRest?
    ensures GridOk(b, FailStep(b, s, c, CellAt(s, c).from), ck)
  {
  }

  // ---------------------------------------------------------------------
  // Registering a sample's votes and offering them

  lemma FreshSlots(b: Batch, s: Sys, k: SampleKey, n: nat)
    requires SampleAt(s, k) == Unasked && n == Judges(b, k) && forall i: nat :: JobOk(b, s, VoteKey(k, i))
    ensures forall v | v in SlotKeys(k, n) :: JobAt(s, v).Unlisted? && v !in s.db.ballots
  {
    forall v | v in SlotKeys(k, n) ensures JobAt(s, v).Unlisted? && v !in s.db.ballots {
      assert v == VoteKey(k, v.slot);
      assert JobOk(b, s, VoteKey(k, v.slot));
    }
  }

  lemma OwedSets(jobs: map<VoteKey, JobPc>, k: SampleKey, n: nat)
    requires forall v | v in SlotKeys(k, n) :: JobIn(jobs, v).Unlisted?
    ensures |OpenVotes(jobs + AllOwed(k, n), k.of.cell.run)| == |OpenVotes(jobs, k.of.cell.run)| + n
    ensures BusyJobs(jobs + AllOwed(k, n)) == BusyJobs(jobs)
  {
    var r := k.of.cell.run;
    var jobs' := jobs + AllOwed(k, n);
    forall v: VoteKey ensures v in OpenVotes(jobs', r) <==> v in OpenVotes(jobs, r) || v in SlotKeys(k, n) {}
    assert OpenVotes(jobs', r) == OpenVotes(jobs, r) + SlotKeys(k, n);
    forall v | v in SlotKeys(k, n) ensures v !in OpenVotes(jobs, r) {}
    assert OpenVotes(jobs, r) !! SlotKeys(k, n);
    forall v: VoteKey ensures v in BusyJobs(jobs') <==> v in BusyJobs(jobs) {
      assert v in SlotKeys(k, n) ==> JobIn(jobs, v).Unlisted?;
    }
  }

  lemma EnlistJobs(b: Batch, s: Sys, c: Cell, p: Pos, v: VoteKey)
    requires CellAt(s, c) == Enlist(p)
    ensures JobAt(EnlistStep(b, s, c, p), v) == if v in SlotKeys(Key(c, p), Judges(b, Key(c, p))) then Owed else JobAt(s, v)
    ensures v.sample != Key(c, p) ==> SameKey(s.threads.jobs, EnlistStep(b, s, c, p).threads.jobs, v)
  {
    hide Judges, SlotKeys;
  }

  lemma EnlistAround(b: Batch, s: Sys, c: Cell, p: Pos)
    requires c in s.threads.cells && CellAt(s, c) == Enlist(p)
    requires forall v | v in SlotKeys(Key(c, p), Judges(b, Key(c, p))) :: JobAt(s, v).Unlisted?
    ensures Around(s, EnlistStep(b, s, c, p), ByCell(c), Key(c, p))
  {
    hide Judges, Around, SlotKeys, AllOwed;
    var s', k := EnlistStep(b, s, c, p), Key(c, p);
    forall v: VoteKey ensures JobAt(s', v) == (if v in SlotKeys(k, Judges(b, k)) then Owed else JobAt(s, v)) && (v.sample != k ==> SameKey(s.threads.jobs, s'.threads.jobs, v)) {
      EnlistJobs(b, s, c, p, v);
    }
    StaysAround(s, s', ByCell(c), k);
  }

  lemma EnlistSample(b: Batch, s: Sys, c: Cell, p: Pos)
    requires CellAt(s, c) == Enlist(p) && Judges(b, Key(c, p)) > 0 && SampleOk(b, s, Key(c, p)) && SampleAt(s, Key(c, p)) == Unasked
    requires CaseAt(s, CaseKey(c, p.at)).Open? && p.no < Samples(b, CaseKey(c, p.at))
    requires forall v | v in SlotKeys(Key(c, p), Judges(b, Key(c, p))) :: JobAt(s, v).Unlisted?
    ensures SampleOk(b, EnlistStep(b, s, c, p), Key(c, p))
    ensures TokenOk(b, EnlistStep(b, s, c, p), ByCell(c))
    ensures Rightful(s, EnlistStep(b, s, c, p), ByCell(c), Key(c, p))
  {
    hide Judges, LandedCount, SlotKeys, AllOwed;
    var s', k := EnlistStep(b, s, c, p), Key(c, p);
    var n := Judges(b, k);
    forall i: nat | i < n ensures JobIn(s'.threads.jobs, VoteKey(k, i)).Owed? {
      EnlistJobs(b, s, c, p, VoteKey(k, i));
    }
    LandedNone(s'.threads.jobs, k, n);
  }

  lemma EnlistVote(b: Batch, s: Sys, c: Cell, p: Pos, v: VoteKey)
    requires CellAt(s, c) == Enlist(p) && v.sample == Key(c, p) && JobOk(b, s, v) && SampleAt(s, v.sample) == Unasked
    ensures JobOk(b, EnlistStep(b, s, c, p), v)
  {
    hide Judges, SlotKeys, AllOwed;
    EnlistJobs(b, s, c, p, v);
  }

  lemma EnlistRun(b: Batch, s: Sys, c: Cell, p: Pos)
    requires CellAt(s, c) == Enlist(p) && c in b.cells && RunOk(b, s, c.run) && PoolOk(b, s) && CellOk(b, s, c)
    requires forall v | v in SlotKeys(Key(c, p), Judges(b, Key(c, p))) :: JobAt(s, v).Unlisted?
    ensures RunOk(b, EnlistStep(b, s, c, p), c.run) && PoolOk(b, EnlistStep(b, s, c, p))
  {
    hide Judges, SlotKeys, AllOwed, OpenVotes, BusyJobs, PcOk, CellDuty, JobDuty;
    var s', k := EnlistStep(b, s, c, p), Key(c, p);
    var n := Judges(b, k);
    OwedSets(s.threads.jobs, k, n);
    SameCount(b, s.threads.cells, c, Offer(p, 0));
    SameBusy(b, s.threads.cells, c, Offer(p, 0));
    assert c in Uncounted(b, s.threads.cells, c.run);
    assert c.run !in s.book.finished;
  }

  lemma EnlistGrid(b: Batch, s: Sys, c: Cell, p: Pos, ck: CaseKey)
    requires CellAt(s, c) == Enlist(p) && ck.cell == c && GridOk(b, s, ck) && CaseAt(s, CaseKey(c, p.at)).Open? && p.no < Samples(b, CaseKey(c, p.at))
    ensures GridOk(b, EnlistStep(b, s, c, p), ck)
  {
    hide Judges, AllOwed;
  }

  lemma EnlistCell(b: Batch, s: Sys, c: Cell, p: Pos)
    requires CellOk(b, s, c) && CellAt(s, c) == Enlist(p)
    ensures CellOk(b, EnlistStep(b, s, c, p), c)
    ensures SameRefusals(b, s, EnlistStep(b, s, c, p), Key(c, p))
  {
    hide Judges, AllOwed, SlotKeys;
    var s', k := EnlistStep(b, s, c, p), Key(c, p);
    forall i: nat | i < Judges(b, k) ensures JobAt(s', VoteKey(k, i)).Owed? {
      EnlistJobs(b, s, c, p, VoteKey(k, i));
    }
  }

  lemma EnlistKeeps(b: Batch, s: Sys, c: Cell)
    requires Inv(b, s) && CellAt(s, c).Enlist?
    ensures Inv(b, EnlistStep(b, s, c, CellAt(s, c).pos))
  {
    hide TokenOk, SampleOk, CaseOk, GridOk, RunOk, JobOk, PoolOk, PcOk, Around, Rightful, SameRefusals, EnlistStep, Judges, SlotKeys;
    var p := CellAt(s, c).pos;
    var s', k := EnlistStep(b, s, c, p), Key(c, p);
    assert CellOk(b, s, c) && GridOk(b, s, k.of) && SampleOk(b, s, k) && CaseOk(b, s, k.of) && RunOk(b, s, c.run);
    PosInCase(b, s, c);
    EnlistHasJudges(b, s, c);
    AskedNext(b, s, c, p);
    UnsettledIsOpen(b, s, k);
    forall i: nat ensures JobOk(b, s, VoteKey(k, i)) {}
    FreshSlots(b, s, k, Judges(b, k));
    EnlistAround(b, s, c, p);
    EnlistSample(b, s, c, p);
    EnlistRun(b, s, c, p);
    EnlistCell(b, s, c, p);
    EnlistCase(b, s, c, p);
    forall i: nat ensures JobOk(b, s', VoteKey(k, i)) {
      assert JobOk(b, s, VoteKey(k, i));
      EnlistVote(b, s, c, p, VoteKey(k, i));
    }
    forall i: nat ensures GridOk(b, s', CaseKey(c, i)) {
      assert GridOk(b, s, CaseKey(c, i));
      EnlistGrid(b, s, c, p, CaseKey(c, i));
    }
    KeepAround(b, s, s', ByCell(c), k);
  }

  lemma EnlistHasJudges(b: Batch, s: Sys, c: Cell)
    requires CellOk(b, s, c) && CellAt(s, c).Enlist?
    ensures Judges(b, Key(c, CellAt(s, c).pos)) > 0
  {
  }

  lemma EnlistCase(b: Batch, s: Sys, c: Cell, p: Pos)
    requires CellAt(s, c) == Enlist(p) && CaseOk(b, s, CaseKey(c, p.at)) && CaseAt(s, CaseKey(c, p.at)).Open? && SampleAt(s, Key(c, p)) == Unasked
    ensures CaseOk(b, EnlistStep(b, s, c, p), CaseKey(c, p.at))
  {
    hide AllOwed, Judges, Tally, Refused, RowsDue, CaseOk;
    CaseKept(b, s, EnlistStep(b, s, c, p), CaseKey(c, p.at));
  }
}
