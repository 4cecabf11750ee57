/**
 A step of one token touches one sample and what encloses it: its case, its
 cell and its run. Everything else keeps its clause of the invariant.
 */
module PipelineFrame {
  import opened Wrappers
  import opened Median
  import opened PipelineBook
  import opened PipelineMachine
  import opened PipelineInvariant

  // ---------------------------------------------------------------------
  // Counters against what they count

  lemma FoldCommutes(a: Aggregate, x: Option<real>, y: Option<real>)
    ensures Fold(Fold(a, x), y) == Fold(Fold(a, y), x)
  {
  }

  lemma {:induction false} TallyFrame(b: Batch, samples: map<SampleKey, SampleState>, samples': map<SampleKey, SampleState>, ck: CaseKey, n: nat)
    requires forall no | 0 <= no < n :: SampleIn(samples, SampleKey(ck, no)).Settled? <==> SampleIn(samples', SampleKey(ck, no)).Settled?
    ensures Tally(b, samples', ck, n) == Tally(b, samples, ck, n)
  {
    if n > 0 {
      TallyFrame(b, samples, samples', ck, n - 1);
    }
  }

  /** Settling one more sample folds its median in, whichever order the others settled in. */
  lemma {:induction false} TallyAdds(b: Batch, samples: map<SampleKey, SampleState>, k: SampleKey, n: nat)
    requires k.no < n && !SampleIn(samples, k).Settled?
    ensures Tally(b, samples[k := Settled], k.of, n) == Fold(Tally(b, samples, k.of, n), SampleMedian(b, k))
  {
    hide SampleMedian;
    if k.no == n - 1 {
      TallyFrame(b, samples, samples[k := Settled], k.of, n - 1);
    } else {
      TallyAdds(b, samples, k, n - 1);
      FoldCommutes(Tally(b, samples, k.of, n - 1), SampleMedian(b, k), SampleMedian(b, SampleKey(k.of, n - 1)));
    }
  }

  lemma {:induction false} TallyFull(b: Batch, samples: map<SampleKey, SampleState>, ck: CaseKey, n: nat)
    ensures var a := Tally(b, samples, ck, n);
      && a.expected == Samples(b, ck) && a.settled <= n
      && (a.settled == n <==> forall no | 0 <= no < n :: SampleIn(samples, SampleKey(ck, no)).Settled?)
      && (a.settled == n ==> a == Full(b, ck, n))
  {
    hide SampleMedian;
    if n > 0 {
      TallyFull(b, samples, ck, n - 1);
    }
  }

  lemma {:induction false} TallyNone(b: Batch, samples: map<SampleKey, SampleState>, ck: CaseKey, n: nat)
    requires forall no | 0 <= no < n :: !SampleIn(samples, SampleKey(ck, no)).Settled?
    ensures Tally(b, samples, ck, n) == Aggregate(Samples(b, ck), 0, 0.0, 0)
  {
    if n > 0 {
      TallyNone(b, samples, ck, n - 1);
    }
  }

  lemma {:induction false} LandedFrame(jobs: map<VoteKey, JobPc>, jobs': map<VoteKey, JobPc>, k: SampleKey, n: nat)
    requires forall i | 0 <= i < n :: HasLanded(JobIn(jobs, VoteKey(k, i))) <==> HasLanded(JobIn(jobs', VoteKey(k, i)))
    ensures LandedCount(jobs', k, n) == LandedCount(jobs, k, n)
  {
    if n > 0 {
      LandedFrame(jobs, jobs', k, n - 1);
    }
  }

  lemma {:induction false} LandedAdds(jobs: map<VoteKey, JobPc>, v: VoteKey, pc: JobPc, n: nat)
    requires v.slot < n && HasLanded(pc) && !HasLanded(JobIn(jobs, v))
    ensures LandedCount(jobs[v := pc], v.sample, n) == LandedCount(jobs, v.sample, n) + 1
  {
    if v.slot == n - 1 {
      LandedFrame(jobs, jobs[v := pc], v.sample, n - 1);
    } else {
      LandedAdds(jobs, v, pc, n - 1);
    }
  }

  lemma {:induction false} LandedAll(jobs: map<VoteKey, JobPc>, k: SampleKey, n: nat)
    ensures LandedCount(jobs, k, n) <= n
    ensures LandedCount(jobs, k, n) == n <==> forall i | 0 <= i < n :: HasLanded(JobIn(jobs, VoteKey(k, i)))
  {
    if n > 0 {
      LandedAll(jobs, k, n - 1);
    }
  }

  lemma {:induction false} LandedNone(jobs: map<VoteKey, JobPc>, k: SampleKey, n: nat)
    requires forall i | 0 <= i < n :: !HasLanded(JobIn(jobs, VoteKey(k, i)))
    ensures LandedCount(jobs, k, n) == 0
  {
    if n > 0 {
      LandedNone(jobs, k, n - 1);
    }
  }

  // ---------------------------------------------------------------------
  // A step of token a around sample k

  /** Outside k, its case, its cell and its run nothing changes, and no other token's duty does. */
  ghost predicate Around(s: Sys, s': Sys, a: Token, k: SampleKey) {
    && (forall j | j != k :: SampleAt(s', j) == SampleAt(s, j) && SameKey(s.book.votes, s'.book.votes, j))
    && (forall ck | ck != k.of :: CaseAt(s', ck) == CaseAt(s, ck) && SameKey(s.book.aggs, s'.book.aggs, ck) && Rows(s', ck) == Rows(s, ck))
    && (forall c | c != k.of.cell :: CellAt(s', c) == CellAt(s, c))
    && s'.threads.cells.Keys == s.threads.cells.Keys
    && (forall v: VoteKey | v.sample != k :: JobAt(s', v) == JobAt(s, v) && SameKey(s.db.ballots, s'.db.ballots, v))
    && (forall r | r != k.of.cell.run :: SameRun(s, s', r))
    && (forall t | t != a :: DutyOf(s', t) == DutyOf(s, t))
    && s'.control.phase == s.control.phase && s'.control.cancelled == s.control.cancelled
  }

  predicate SameKey<K, V(==)>(m: map<K, V>, m': map<K, V>, k: K) {
    (k in m <==> k in m') && (k in m ==> m'[k] == m[k])
  }

  predicate SameRun(s: Sys, s': Sys, r: int) {
    && RunAt(s', r) == RunAt(s, r) && Pending(s'.book, r) == Pending(s.book, r)
    && RemainingIn(s'.threads.remaining, r) == RemainingIn(s.threads.remaining, r)
    && (r in s'.book.cellsDone <==> r in s.book.cellsDone) && (r in s'.book.finished <==> r in s.book.finished)
    && Stamps(s', r) == Stamps(s, r)
  }

  /** What a holds is k, its case or its run, and only a or nobody gives those up. */
  ghost predicate Rightful(s: Sys, s': Sys, a: Token, k: SampleKey) {
    && (match DutyOf(s, a)
        case Free => true
        case ToSettle(j, _) => j == k
        case ToWrite(ck, _) => ck == k.of
        case ToStamp(r) => r == k.of.cell.run)
    && (SampleAt(s, k).Deciding? && SampleAt(s, k).who != a ==> SampleAt(s', k) == SampleAt(s, k))
    && (CaseAt(s, k.of).Closing? && CaseAt(s, k.of).who != a ==> CaseAt(s', k.of) == CaseAt(s, k.of))
    && (RunAt(s, k.of.cell.run).Finishing? && RunAt(s, k.of.cell.run).who != a ==> RunAt(s', k.of.cell.run) == RunAt(s, k.of.cell.run))
    && (CaseAt(s, k.of) != Unopened ==> CaseAt(s', k.of) != Unopened)
    && (CellAt(s, k.of.cell).Offer? && CellAt(s', k.of.cell) != CellAt(s, k.of.cell) ==> Key(k.of.cell, CellAt(s, k.of.cell).pos) == k)
    && (Counted(CellAt(s, k.of.cell)) ==> Counted(CellAt(s', k.of.cell)))
  }

  // Each clause holds on when what it looks at is as before.

  lemma TokenKept(b: Batch, s: Sys, s': Sys, t: Token)
    requires TokenOk(b, s, t) && DutyOf(s', t) == DutyOf(s, t)
    requires match DutyOf(s, t)
      case Free => true
      case ToSettle(k, _) => SampleAt(s', k) == SampleAt(s, k)
      case ToWrite(ck, _) => CaseAt(s', ck) == CaseAt(s, ck)
      case ToStamp(r) => RunAt(s', r) == RunAt(s, r)
    ensures TokenOk(b, s', t)
  {
    hide DutyOf, SampleMedian, FullAggregate;
  }

  lemma SampleKept(b: Batch, s: Sys, s': Sys, k: SampleKey)
    requires SampleOk(b, s, k) && SampleAt(s', k) == SampleAt(s, k) && SameKey(s.book.votes, s'.book.votes, k)
    requires CaseAt(s, k.of) != Unopened ==> CaseAt(s', k.of) != Unopened
    requires SampleAt(s, k).Deciding? ==> DutyOf(s', SampleAt(s, k).who) == DutyOf(s, SampleAt(s, k).who)
    requires SampleAt(s, k).Polling? ==> forall i: nat :: HasLanded(JobAt(s', VoteKey(k, i))) == HasLanded(JobAt(s, VoteKey(k, i)))
    ensures SampleOk(b, s', k)
  {
    hide DutyOf, SampleMedian, LandedCount;
    if SampleAt(s, k).Polling? {
      forall i: nat ensures HasLanded(JobIn(s.threads.jobs, VoteKey(k, i))) <==> HasLanded(JobIn(s'.threads.jobs, VoteKey(k, i))) {
        assert HasLanded(JobAt(s', VoteKey(k, i))) == HasLanded(JobAt(s, VoteKey(k, i)));
      }
      LandedFrame(s.threads.jobs, s'.threads.jobs, k, Judges(b, k));
    }
  }

  lemma JobKept(b: Batch, s: Sys, s': Sys, v: VoteKey)
    requires JobOk(b, s, v) && JobAt(s', v) == JobAt(s, v) && SameKey(s.db.ballots, s'.db.ballots, v)
    requires SampleAt(s, v.sample) == SampleAt(s', v.sample) ||
      (SampleAt(s, v.sample) != Unasked && SampleAt(s', v.sample) != Unasked && !JobAt(s, v).Owed? && !JobAt(s, v).Judging? && !JobAt(s, v).Landing?)
    requires s.control.cancelled ==> s'.control.cancelled
    requires !s.control.cancelled && JobAt(s, v).Owed? ==> Offering(CellAt(s', v.sample.of.cell), v)
    ensures JobOk(b, s', v)
  {
  }

  lemma CaseKept(b: Batch, s: Sys, s': Sys, ck: CaseKey)
    requires CaseOk(b, s, ck) && CaseAt(s', ck) == CaseAt(s, ck) && SameKey(s.book.aggs, s'.book.aggs, ck) && Rows(s', ck) == Rows(s, ck)
    requires CaseAt(s, ck).Closing? ==> DutyOf(s', CaseAt(s, ck).who) == DutyOf(s, CaseAt(s, ck).who)
    requires forall no: nat :: SampleAt(s', SampleKey(ck, no)).Settled? == SampleAt(s, SampleKey(ck, no)).Settled?
    requires CaseAt(s, ck) == Unopened && InGrid(b, ck) ==> Refused(b, CellAt(s, ck.cell), ck) == Refused(b, CellAt(s', ck.cell), ck)
    ensures CaseOk(b, s', ck)
  {
    hide DutyOf, Tally, FullAggregate, Refused;
    forall no: nat ensures SampleIn(s'.past.samples, SampleKey(ck, no)).Settled? == SampleIn(s.past.samples, SampleKey(ck, no)).Settled? {
      assert SampleAt(s', SampleKey(ck, no)).Settled? == SampleAt(s, SampleKey(ck, no)).Settled?;
    }
    TallyFrame(b, s.past.samples, s'.past.samples, ck, Samples(b, ck));
  }

  lemma CellKept(b: Batch, s: Sys, s': Sys, c: Cell)
    requires CellOk(b, s, c) && CellAt(s', c) == CellAt(s, c) && (c in s'.threads.cells <==> c in s.threads.cells)
    requires forall v: VoteKey | v.sample.of.cell == c :: JobAt(s', v) == JobAt(s, v)
    requires forall d :: Counted(CellAt(s, d)) ==> Counted(CellAt(s', d))
    ensures CellOk(b, s', c)
  {
    assert Uncounted(b, s'.threads.cells, c.run) <= Uncounted(b, s.threads.cells, c.run) by {
      forall d | d in Uncounted(b, s'.threads.cells, c.run) ensures !Counted(CellAt(s, d)) {
        assert CellAt(s', d) == CellIn(s'.threads.cells, d);
      }
    }
  }

  lemma GridKept(b: Batch, s: Sys, s': Sys, ck: CaseKey)
    requires GridOk(b, s, ck) && CellAt(s', ck.cell) == CellAt(s, ck.cell)
    requires (CaseAt(s', ck) != Unopened) == (CaseAt(s, ck) != Unopened)
    requires forall no: nat :: (SampleAt(s', SampleKey(ck, no)) != Unasked) == (SampleAt(s, SampleKey(ck, no)) != Unasked)
    ensures GridOk(b, s', ck)
  {
    hide OpenedBy, AskedBy;
  }

  lemma RunKept(b: Batch, s: Sys, s': Sys, r: int)
    requires RunOk(b, s, r) && SameRun(s, s', r)
    requires OpenVotes(s'.threads.jobs, r) == OpenVotes(s.threads.jobs, r)
    requires Uncounted(b, s'.threads.cells, r) == Uncounted(b, s.threads.cells, r)
    requires forall c: Cell | c.run == r && CellAt(s, c).Mark? :: CellAt(s', c).Mark?
    requires RunAt(s, r).Finishing? ==> DutyOf(s', RunAt(s, r).who) == DutyOf(s, RunAt(s, r).who)
    requires s'.control.phase == s.control.phase
    ensures RunOk(b, s', r)
  {
    hide DutyOf;
  }

  lemma SameOpenVotes(jobs: map<VoteKey, JobPc>, jobs': map<VoteKey, JobPc>, r: int, k: SampleKey)
    requires r != k.of.cell.run && forall v: VoteKey | v.sample != k :: JobIn(jobs', v) == JobIn(jobs, v)
    ensures OpenVotes(jobs', r) == OpenVotes(jobs, r)
  {
    forall v: VoteKey ensures v in OpenVotes(jobs', r) <==> v in OpenVotes(jobs, r) {
      assert v.sample != k ==> JobIn(jobs', v) == JobIn(jobs, v);
    }
  }

  lemma SameUncounted(b: Batch, cells: map<Cell, CellPc>, cells': map<Cell, CellPc>, r: int, c0: Cell)
    requires r != c0.run && forall c | c != c0 :: CellIn(cells', c) == CellIn(cells, c)
    ensures Uncounted(b, cells', r) == Uncounted(b, cells, r)
  {
  }

  /** Cases of the same cell that were never opened are given up only where they were before. */
  ghost predicate SameRefusals(b: Batch, s: Sys, s': Sys, k: SampleKey) {
    forall ck | ck != k.of && ck.cell == k.of.cell && CaseAt(s, ck) == Unopened ::
      InGrid(b, ck) ==> Refused(b, CellAt(s, ck.cell), ck) == Refused(b, CellAt(s', ck.cell), ck)
  }

  /** The clauses about a, k and what encloses k. */
  ghost predicate Focus(b: Batch, s: Sys, a: Token, k: SampleKey) {
    && TokenOk(b, s, a) && SampleOk(b, s, k) && CaseOk(b, s, k.of)
    && (forall i: nat :: JobOk(b, s, VoteKey(k, i)))
    && CellOk(b, s, k.of.cell)
    && (forall at: nat :: GridOk(b, s, CaseKey(k.of.cell, at)))
    && RunOk(b, s, k.of.cell.run) && PoolOk(b, s)
  }

  /** The part that changed is in order, the rest is as it was. */
  lemma KeepAround(b: Batch, s: Sys, s': Sys, a: Token, k: SampleKey)
    requires Inv(b, s) && Around(s, s', a, k) && Rightful(s, s', a, k) && SameRefusals(b, s, s', k)
    requires Focus(b, s', a, k)
    ensures Inv(b, s')
  {
    hide TokenOk, SampleOk, JobOk, CaseOk, CellOk, GridOk, RunOk, PoolOk, Around, Rightful;
    forall t ensures TokenOk(b, s', t) {
      assert TokenOk(b, s, t);
      if t != a { OtherToken(b, s, s', a, k, t); }
    }
    forall j ensures SampleOk(b, s', j) {
      assert SampleOk(b, s, j);
      if j != k { OtherSample(b, s, s', a, k, j); }
    }
    forall v: VoteKey ensures JobOk(b, s', v) {
      assert JobOk(b, s, v);
      if v.sample == k { assert v == VoteKey(k, v.slot); } else { OtherJob(b, s, s', a, k, v); }
    }
    forall ck ensures CaseOk(b, s', ck) {
      assert CaseOk(b, s, ck);
      if ck != k.of { OtherCase(b, s, s', a, k, ck); }
    }
    forall c ensures CellOk(b, s', c) {
      assert CellOk(b, s, c);
      if c != k.of.cell { OtherCell(b, s, s', a, k, c); }
    }
    forall ck: CaseKey ensures GridOk(b, s', ck) {
      assert GridOk(b, s, ck);
      if ck.cell == k.of.cell { assert ck == CaseKey(k.of.cell, ck.at); } else { OtherGrid(b, s, s', a, k, ck); }
    }
    forall r ensures RunOk(b, s', r) {
      assert RunOk(b, s, r);
      if r != k.of.cell.run { OtherRun(b, s, s', a, k, r); }
    }
  }

  lemma OtherToken(b: Batch, s: Sys, s': Sys, a: Token, k: SampleKey, t: Token)
    requires Around(s, s', a, k) && Rightful(s, s', a, k) && t != a && TokenOk(b, s, t)
    ensures TokenOk(b, s', t)
  {
    hide DutyOf, SampleMedian, FullAggregate;
    if DutyOf(s, t).ToStamp? && DutyOf(s, t).r != k.of.cell.run {
      assert SameRun(s, s', DutyOf(s, t).r);
    }
    TokenKept(b, s, s', t);
  }

  lemma OtherSample(b: Batch, s: Sys, s': Sys, a: Token, k: SampleKey, j: SampleKey)
    requires Around(s, s', a, k) && Rightful(s, s', a, k) && j != k && SampleOk(b, s, j)
    ensures SampleOk(b, s', j)
  {
    hide DutyOf, SampleMedian, BallotOk, SameRun;
    SampleKept(b, s, s', j);
  }

  lemma OtherJob(b: Batch, s: Sys, s': Sys, a: Token, k: SampleKey, v: VoteKey)
    requires Around(s, s', a, k) && Rightful(s, s', a, k) && v.sample != k && JobOk(b, s, v)
    ensures JobOk(b, s', v)
  {
    hide DutyOf, SameRun;
    JobKept(b, s, s', v);
  }

  lemma OtherCase(b: Batch, s: Sys, s': Sys, a: Token, k: SampleKey, ck: CaseKey)
    requires Around(s, s', a, k) && Rightful(s, s', a, k) && ck != k.of && CaseOk(b, s, ck)
    requires SameRefusals(b, s, s', k)
    ensures CaseOk(b, s', ck)
  {
    hide DutyOf, Tally, FullAggregate, SameRun, Refused, RowsDue;
    CaseKept(b, s, s', ck);
  }

  lemma OtherCell(b: Batch, s: Sys, s': Sys, a: Token, k: SampleKey, c: Cell)
    requires Around(s, s', a, k) && Rightful(s, s', a, k) && c != k.of.cell && CellOk(b, s, c)
    ensures CellOk(b, s', c)
  {
    hide DutyOf, SameRun, CellOk;
    CellKept(b, s, s', c);
  }

  lemma OtherGrid(b: Batch, s: Sys, s': Sys, a: Token, k: SampleKey, ck: CaseKey)
    requires Around(s, s', a, k) && ck.cell != k.of.cell && GridOk(b, s, ck)
    ensures GridOk(b, s', ck)
  {
    hide DutyOf, SameRun, GridOk;
    GridKept(b, s, s', ck);
  }

  lemma OtherRun(b: Batch, s: Sys, s': Sys, a: Token, k: SampleKey, r: int)
    requires Around(s, s', a, k) && Rightful(s, s', a, k) && r != k.of.cell.run && RunOk(b, s, r)
    ensures RunOk(b, s', r)
  {
    hide DutyOf;
    forall v: VoteKey | v.sample != k ensures JobIn(s'.threads.jobs, v) == JobIn(s.threads.jobs, v) {
      assert JobAt(s', v) == JobAt(s, v);
    }
    forall c | c != k.of.cell ensures CellIn(s'.threads.cells, c) == CellIn(s.threads.cells, c) {
      assert CellAt(s', c) == CellAt(s, c);
    }
    assert SameRun(s, s', r);
    SameOpenVotes(s.threads.jobs, s'.threads.jobs, r, k);
    SameUncounted(b, s.threads.cells, s'.threads.cells, r, k.of.cell);
    RunKept(b, s, s', r);
  }
}
