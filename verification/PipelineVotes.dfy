/** Votes change hands, are judged, land, settle and write without losing count. */
module PipelineVotes {
  import opened Wrappers
  import opened Median
  import opened PipelineBook
  import opened PipelineMachine
  import opened PipelineInvariant
  import opened PipelineFrame
  import opened PipelineKeeps

  // ---------------------------------------------------------------------
  // The hand-off

  /** While a cell is busy the exam pool has not emptied, so the vote channel is open. */
  lemma ChannelOpen(b: Batch, s: Sys, c: Cell)
    requires PoolOk(b, s) && c in b.cells && CellBusy(CellAt(s, c))
    ensures !ChannelClosed(s.control.phase)
  {
    assert c in BusyCells(b, s.threads.cells);
  }

  function HandTo(b: Batch, c: Cell, p: Pos, slot: nat): CellPc {
    if slot + 1 < Judges(b, Key(c, p)) then Offer(p, slot + 1) else After(b, c, p)
  }

  lemma HandStep(b: Batch, s: Sys, c: Cell, p: Pos, slot: nat)
    requires !ChannelClosed(s.control.phase)
    ensures var s', v := OfferStep(b, s, c, p, slot), VoteKey(Key(c, p), slot);
      && s'.threads == s.threads.(cells := s.threads.cells[c := HandTo(b, c, p, slot)], jobs := s.threads.jobs[v := Judging])
      && s'.book == s.book && s'.db == s.db && s'.past == s.past
      && s'.control == s.control.(judge := Crew(s.control.judge.idle - 1, s.control.judge.left))
  {
    hide Judges, After;
  }

  lemma HandPlace(b: Batch, s: Sys, c: Cell, p: Pos, slot: nat)
    requires PcOk(b, s, c, CellAt(s, c)) && CellAt(s, c) == Offer(p, slot)
    ensures var pc := HandTo(b, c, p, slot); CellDuty(c, pc) == Free && !Counted(pc) && CellBusy(pc) && !pc.Mark?
    ensures slot < Judges(b, Key(c, p)) && JobAt(s, VoteKey(Key(c, p), slot)).Owed?
  {
    hide Judges;
    AfterIsPlain(b, c, p);
  }

  lemma HandAround(b: Batch, s: Sys, s': Sys, c: Cell, p: Pos, slot: nat)
    requires !ChannelClosed(s.control.phase) && CellOk(b, s, c) && c in b.cells && CellAt(s, c) == Offer(p, slot)
    requires s' == OfferStep(b, s, c, p, slot)
    ensures Around(s, s', ByCell(c), Key(c, p)) && SameRun(s, s', c.run) && Rightful(s, s', ByCell(c), Key(c, p))
  {
    hide Around, OfferStep, HandTo, Judges;
    HandStep(b, s, c, p, slot);
    HandPlace(b, s, c, p, slot);
    StaysAround(s, s', ByCell(c), Key(c, p));
  }

  lemma HandCounts(b: Batch, s: Sys, s': Sys, c: Cell, p: Pos, slot: nat)
    requires !ChannelClosed(s.control.phase) && s.control.judge.idle > 0 && PoolOk(b, s) && RunOk(b, s, c.run) && CellOk(b, s, c) && c in b.cells
    requires CellAt(s, c) == Offer(p, slot) && s' == OfferStep(b, s, c, p, slot)
    ensures RunOk(b, s', c.run) && PoolOk(b, s')
  {
    hide Around, OfferStep, HandTo, Judges, RunOk, PcOk;
    var v := VoteKey(Key(c, p), slot);
    HandStep(b, s, c, p, slot);
    HandPlace(b, s, c, p, slot);
    HandAround(b, s, s', c, p, slot);
    SameCount(b, s.threads.cells, c, HandTo(b, c, p, slot));
    SameBusy(b, s.threads.cells, c, HandTo(b, c, p, slot));
    assert OpenVotes(s'.threads.jobs, c.run) == OpenVotes(s.threads.jobs, c.run);
    assert BusyJobs(s'.threads.jobs) == BusyJobs(s.threads.jobs) + {v};
    QuietRun(b, s, s', ByCell(c), Key(c, p));
  }

  lemma HandCell(b: Batch, s: Sys, s': Sys, c: Cell, p: Pos, slot: nat)
    requires !ChannelClosed(s.control.phase) && CellOk(b, s, c) && c in b.cells && CellAt(s, c) == Offer(p, slot)
    requires (forall at: nat :: GridOk(b, s, CaseKey(c, at))) && s' == OfferStep(b, s, c, p, slot)
    ensures CellOk(b, s', c) && (forall at: nat :: GridOk(b, s', CaseKey(c, at))) && SameRefusals(b, s, s', Key(c, p))
  {
    hide OfferStep, After, GridOk, Refused, Judges;
    HandStep(b, s, c, p, slot);
    AfterGrid(b, s, c, p);
    AfterIsPlain(b, c, p);
    SameCount(b, s.threads.cells, c, HandTo(b, c, p, slot));
    forall at: nat ensures GridOk(b, s', CaseKey(c, at)) {
      assert GridOk(b, s, CaseKey(c, at));
      assert GridOk(b, Goto(s, c, After(b, c, p)), CaseKey(c, at));
      HandGrid(b, s, s', c, p, slot, CaseKey(c, at));
    }
    HandRefusals(b, s, s', c, p, slot);
  }

  lemma HandGrid(b: Batch, s: Sys, s': Sys, c: Cell, p: Pos, slot: nat, ck: CaseKey)
    requires CellAt(s, c) == Offer(p, slot) && ck.cell == c && s'.past == s.past && CellAt(s', c) == HandTo(b, c, p, slot)
    requires GridOk(b, s, ck) && GridOk(b, Goto(s, c, After(b, c, p)), ck)
    ensures GridOk(b, s', ck)
  {
    hide After, Judges;
  }

  lemma HandRefusals(b: Batch, s: Sys, s': Sys, c: Cell, p: Pos, slot: nat)
    requires CellAt(s, c) == Offer(p, slot) && CellAt(s', c) == HandTo(b, c, p, slot)
    requires forall ck: CaseKey | ck.cell == c && CaseAt(s, ck) == Unopened && InGrid(b, ck) ::
      Refused(b, CellAt(s, c), ck) == Refused(b, After(b, c, p), ck)
    ensures SameRefusals(b, s, s', Key(c, p))
  {
    hide After, Judges;
  }

  lemma HandVote(b: Batch, s: Sys, s': Sys, c: Cell, p: Pos, slot: nat, w: VoteKey)
    requires !ChannelClosed(s.control.phase) && CellAt(s, c) == Offer(p, slot) && s' == OfferStep(b, s, c, p, slot)
    requires JobOk(b, s, w) && JobOk(b, s, VoteKey(Key(c, p), slot)) && w.sample == Key(c, p) && JobAt(s, VoteKey(Key(c, p), slot)).Owed?
    ensures JobOk(b, s', w)
  {
    hide OfferStep, Judges, After;
    HandStep(b, s, c, p, slot);
  }

  lemma HandSample(b: Batch, s: Sys, s': Sys, c: Cell, p: Pos, slot: nat)
    requires !ChannelClosed(s.control.phase) && s' == OfferStep(b, s, c, p, slot) && CellAt(s, c) == Offer(p, slot) && CellOk(b, s, c)
    requires SampleOk(b, s, Key(c, p)) && CaseOk(b, s, CaseKey(c, p.at)) && RunOk(b, s, c.run) && JobOk(b, s, VoteKey(Key(c, p), slot))
    ensures SampleOk(b, s', Key(c, p)) && CaseOk(b, s', CaseKey(c, p.at)) && TokenOk(b, s', ByCell(c))
  {
    hide OfferStep, HandTo, Judges, SampleOk, CaseOk, RunOk, Refused;
    HandStep(b, s, c, p, slot);
    HandPlace(b, s, c, p, slot);
    DecidersElsewhere(b, s, ByCell(c), Key(c, p));
    var v := VoteKey(Key(c, p), slot);
    forall w: VoteKey ensures HasLanded(JobAt(s', w)) == HasLanded(JobAt(s, w)) {}
    forall t | t != ByCell(c) ensures DutyOf(s', t) == DutyOf(s, t) {}
    SampleKept(b, s, s', Key(c, p));
    OwedIsOpened(b, s, v);
    CaseKept(b, s, s', CaseKey(c, p.at));
    MovedToken(b, s', ByCell(c));
  }

  /** An owed vote's case is open for business. */
  lemma OwedIsOpened(b: Batch, s: Sys, v: VoteKey)
    requires SampleOk(b, s, v.sample) && JobOk(b, s, v) && !JobAt(s, v).Unlisted?
    ensures CaseAt(s, v.sample.of) != Unopened && SampleAt(s, v.sample) != Unasked
    ensures JobAt(s, v).Owed? || JobAt(s, v).Judging? || JobAt(s, v).Landing? ==> SampleAt(s, v.sample).Polling?
  {
  }

  lemma HandKeeps(b: Batch, s: Sys, c: Cell)
    requires Inv(b, s) && CellAt(s, c).Offer? && (s.control.judge.idle > 0 || ChannelClosed(s.control.phase))
    ensures Inv(b, OfferStep(b, s, c, CellAt(s, c).pos, CellAt(s, c).slot))
  {
    hide TokenOk, SampleOk, CaseOk, GridOk, RunOk, JobOk, PoolOk, PcOk, Around, Rightful, SameRefusals, OfferStep, Judges, SameRun;
    var p, slot := CellAt(s, c).pos, CellAt(s, c).slot;
    var s', k := OfferStep(b, s, c, p, slot), Key(c, p);
    assert CellOk(b, s, c) && SampleOk(b, s, k) && CaseOk(b, s, k.of) && RunOk(b, s, c.run) && JobOk(b, s, VoteKey(k, slot));
    PosInCase(b, s, c);
    ChannelOpen(b, s, c);
    HandPlace(b, s, c, p, slot);
    HandAround(b, s, s', c, p, slot);
    HandCounts(b, s, s', c, p, slot);
    forall at: nat ensures GridOk(b, s, CaseKey(c, at)) {}
    HandCell(b, s, s', c, p, slot);
    HandSample(b, s, s', c, p, slot);
    forall i: nat ensures JobOk(b, s', VoteKey(k, i)) {
      assert JobOk(b, s, VoteKey(k, i));
      HandVote(b, s, s', c, p, slot, VoteKey(k, i));
    }
    KeepAround(b, s, s', ByCell(c), k);
  }

  // ---------------------------------------------------------------------
  // Judging, landing, settling and writing

  /** Where a vote belongs. */
  lemma VoteInGrid(b: Batch, s: Sys, v: VoteKey)
    requires SampleOk(b, s, v.sample) && CaseOk(b, s, v.sample.of) && JobOk(b, s, v) && CellOk(b, s, v.sample.of.cell) && !JobAt(s, v).Unlisted?
    ensures v.sample.of.cell in b.cells && v.sample.of.cell in s.threads.cells && v.slot < Judges(b, v.sample) && v in s.threads.jobs
    ensures v.sample.no < Samples(b, v.sample.of)
  {
    hide Judges, BallotOk, RowsDue, Tally, PcOk, DutyOf;
  }

  /** What a vote's step leaves alone when it neither returns nor is counted off. */
  ghost predicate VoteMove(s: Sys, s': Sys, v: VoteKey, pc: JobPc) {
    && v in s.threads.jobs && v.sample.of.cell in s.threads.cells
    && JobBusy(JobAt(s, v)) && JobBusy(pc) && !JobAt(s, v).Stamping? && !pc.Stamping?
    && s'.threads == s.threads.(jobs := s.threads.jobs[v := pc])
    && OnlyAt(s.db.ballots, s'.db.ballots, v) && s'.db.stamps == s.db.stamps
    && OnlyCase(s, s', v.sample)
    && s'.book.pending == s.book.pending && s'.book.cellsDone == s.book.cellsDone && s'.book.finished == s.book.finished
    && s'.past.runs == s.past.runs && s'.control == s.control
  }

  lemma VoteMoveAround(b: Batch, s: Sys, s': Sys, v: VoteKey, pc: JobPc)
    requires VoteMove(s, s', v, pc) && PoolOk(b, s) && RunOk(b, s, v.sample.of.cell.run) && CellOk(b, s, v.sample.of.cell)
    requires GridBack(b, s, s', v.sample)
    ensures Around(s, s', ByVote(v), v.sample)
    ensures RunOk(b, s', v.sample.of.cell.run) && PoolOk(b, s') && CellOk(b, s', v.sample.of.cell)
    ensures forall at: nat :: GridOk(b, s', CaseKey(v.sample.of.cell, at))
    ensures SameRefusals(b, s, s', v.sample)
  {
    hide Around, RunOk, OnlyCase, GridOk, CellOk;
    var r := v.sample.of.cell.run;
    VoteStaysAround(s, s', v);
    SameJobSets(s.threads.jobs, v, pc, r);
    RunStays(b, s, s', v, pc);
    VoteCell(b, s, s', v, pc);
    forall at: nat ensures GridOk(b, s', CaseKey(v.sample.of.cell, at)) {
      VoteGrid(b, s, s', v, pc, at);
    }
  }

  /** The grid as it was, and no case reopened or sample forgotten. */
  ghost predicate GridBack(b: Batch, s: Sys, s': Sys, k: SampleKey) {
    && (forall at: nat :: GridOk(b, s, CaseKey(k.of.cell, at)))
    && (CaseAt(s', k.of) != Unopened <==> CaseAt(s, k.of) != Unopened)
    && (SampleAt(s', k) != Unasked <==> SampleAt(s, k) != Unasked)
  }

  lemma VoteGrid(b: Batch, s: Sys, s': Sys, v: VoteKey, pc: JobPc, at: nat)
    requires VoteMove(s, s', v, pc) && GridBack(b, s, s', v.sample)
    ensures GridOk(b, s', CaseKey(v.sample.of.cell, at))
  {
    hide GridOk, OnlyCase;
    OtherCasesSame(s, s', v.sample);
    GridKept(b, s, s', CaseKey(v.sample.of.cell, at));
  }

  lemma RunStays(b: Batch, s: Sys, s': Sys, v: VoteKey, pc: JobPc)
    requires VoteMove(s, s', v, pc) && RunOk(b, s, v.sample.of.cell.run) && Around(s, s', ByVote(v), v.sample)
    requires OpenVotes(s'.threads.jobs, v.sample.of.cell.run) == OpenVotes(s.threads.jobs, v.sample.of.cell.run)
    ensures RunOk(b, s', v.sample.of.cell.run)
  {
    hide OnlyCase, Around, RunOk;
    QuietRun(b, s, s', ByVote(v), v.sample);
  }

  lemma VoteCell(b: Batch, s: Sys, s': Sys, v: VoteKey, pc: JobPc)
    requires VoteMove(s, s', v, pc) && CellOk(b, s, v.sample.of.cell)
    ensures CellOk(b, s', v.sample.of.cell)
  {
    hide OnlyCase, OnlyAt, Judges;
  }

  function Judged(b: Batch, s: Sys, v: VoteKey): Sys {
    GotoJob(s.(db := s.db.(ballots := s.db.ballots[v := Verdict(b, v)])), v, Landing)
  }

  lemma JudgeKeeps(b: Batch, s: Sys, v: VoteKey)
    requires Inv(b, s) && JobAt(s, v).Judging?
    ensures Inv(b, Judged(b, s, v))
  {
    hide TokenOk, SampleOk, CaseOk, GridOk, RunOk, JobOk, PoolOk, PcOk, Around, Judges, SameRun, CellOk;
    var s', k := Judged(b, s, v), v.sample;
    assert CellOk(b, s, k.of.cell) && SampleOk(b, s, k) && CaseOk(b, s, k.of) && RunOk(b, s, k.of.cell.run) && JobOk(b, s, v);
    VoteInGrid(b, s, v);
    forall at: nat ensures GridOk(b, s, CaseKey(k.of.cell, at)) {}
    VoteMoveAround(b, s, s', v, Landing);
    DecidersElsewhere(b, s, ByVote(v), k);
    SampleKept(b, s, s', k);
    CaseKept(b, s, s', k.of);
    MovedToken(b, s', ByVote(v));
    forall i: nat ensures JobOk(b, s', VoteKey(k, i)) {
      assert JobOk(b, s, VoteKey(k, i));
      JudgeVote(b, s, v, VoteKey(k, i));
    }
    KeepAround(b, s, s', ByVote(v), k);
  }

  lemma JudgeVote(b: Batch, s: Sys, v: VoteKey, w: VoteKey)
    requires JobAt(s, v).Judging? && JobOk(b, s, w) && w.sample == v.sample
    ensures JobOk(b, Judged(b, s, v), w)
  {
    hide Judges;
  }

  /** The ballot after v lands: one more vote, and the full set of verdicts when it was the last. */
  lemma LandFacts(b: Batch, s: Sys, v: VoteKey, pc: JobPc)
    requires SampleOk(b, s, v.sample) && SampleAt(s, v.sample).Polling? && JobAt(s, v).Landing? && v.slot < Judges(b, v.sample) && HasLanded(pc)
    ensures v.sample in s.book.votes && |s.book.votes[v.sample].scores| == Judges(b, v.sample)
    ensures var ballot, n := s.book.votes[v.sample], Judges(b, v.sample);
      var scores := ballot.scores[v.slot := Verdict(b, v)];
      && ballot.expected == n && ballot.landed + 1 == LandedCount(s.threads.jobs[v := pc], v.sample, n) <= n
      && (forall i | 0 <= i < n :: scores[i] == if HasLanded(JobIn(s.threads.jobs[v := pc], VoteKey(v.sample, i))) then Verdict(b, VoteKey(v.sample, i)) else None)
      && (ballot.landed + 1 == n ==> scores == Verdicts(b, v.sample) && forall i | 0 <= i < n :: HasLanded(JobIn(s.threads.jobs[v := pc], VoteKey(v.sample, i))))
  {
    hide LandedCount, Judges, DutyOf;
    var k, n := v.sample, Judges(b, v.sample);
    var jobs' := s.threads.jobs[v := pc];
    LandedAdds(s.threads.jobs, v, pc, n);
    LandedAll(jobs', k, n);
    var ballot := s.book.votes[k];
    var scores := ballot.scores[v.slot := Verdict(b, v)];
    forall i | 0 <= i < n ensures scores[i] == if HasLanded(JobIn(jobs', VoteKey(k, i))) then Verdict(b, VoteKey(k, i)) else None {
      if i == v.slot { assert VoteKey(k, i) == v; } else { assert JobIn(jobs', VoteKey(k, i)) == JobIn(s.threads.jobs, VoteKey(k, i)); }
    }
    if ballot.landed + 1 == n {
      forall i | 0 <= i < n ensures scores[i] == Verdicts(b, k)[i] {
        assert HasLanded(JobIn(jobs', VoteKey(k, i)));
      }
    }
  }

  lemma LandPartial(b: Batch, s: Sys, v: VoteKey)
    requires SampleOk(b, s, v.sample) && SampleAt(s, v.sample).Polling? && JobAt(s, v).Landing? && v.slot < Judges(b, v.sample)
    requires v.sample in s.book.votes && s.book.votes[v.sample].landed + 1 != s.book.votes[v.sample].expected
    ensures var s' := LandStep(b, s, v);
      && SampleOk(b, s', v.sample) && JobAt(s', v).Dropping?
      && s'.threads == s.threads.(jobs := s.threads.jobs[v := Dropping]) && s'.db == s.db && s'.past == s.past && s'.control == s.control
      && s'.book == s.book.(votes := s'.book.votes) && OnlyAt(s.book.votes, s'.book.votes, v.sample)
  {
    hide LandedCount, Judges, DutyOf, MedianOfVotes;
    LandFacts(b, s, v, Dropping);
  }

  lemma LandComplete(b: Batch, s: Sys, v: VoteKey)
    requires SampleOk(b, s, v.sample) && SampleAt(s, v.sample).Polling? && JobAt(s, v).Landing? && v.slot < Judges(b, v.sample)
    requires v.sample in s.book.votes && s.book.votes[v.sample].landed + 1 == s.book.votes[v.sample].expected
    ensures var s', m := LandStep(b, s, v), SampleMedian(b, v.sample);
      && SampleOk(b, s', v.sample) && TokenOk(b, s', ByVote(v))
      && s'.threads == s.threads.(jobs := s.threads.jobs[v := Settling(m)]) && s'.db == s.db && s'.control == s.control
      && s'.past == s.past.(samples := s.past.samples[v.sample := Deciding(ByVote(v))])
      && s'.book == s.book.(votes := s.book.votes - {v.sample})
      && forall i: nat | i < Judges(b, v.sample) :: HasLanded(JobAt(s', VoteKey(v.sample, i)))
  {
    hide LandedCount, MedianOfVotes, BallotOk, Verdicts;
    LandFacts(b, s, v, Settling(SampleMedian(b, v.sample)));
  }

  lemma LandVoteOk(b: Batch, s: Sys, s': Sys, v: VoteKey, pc: JobPc, w: VoteKey)
    requires s'.threads == s.threads.(jobs := s.threads.jobs[v := pc]) && s'.db == s.db && s'.control == s.control
    requires JobAt(s, v).Landing? && HasLanded(pc) && w.sample == v.sample && JobOk(b, s, w) && SampleAt(s, v.sample) != Unasked
    requires SampleAt(s', v.sample) == SampleAt(s, v.sample) ||
      (SampleAt(s', v.sample) != Unasked && forall i: nat | i < Judges(b, v.sample) :: HasLanded(JobAt(s', VoteKey(v.sample, i))))
    ensures JobOk(b, s', w)
  {
    hide Judges;
    assert w == VoteKey(v.sample, w.slot);
    if w.slot < Judges(b, v.sample) && SampleAt(s', v.sample) != SampleAt(s, v.sample) {
      assert HasLanded(JobAt(s', VoteKey(v.sample, w.slot)));
    }
  }

  lemma LandKeeps(b: Batch, s: Sys, v: VoteKey)
    requires Inv(b, s) && JobAt(s, v).Landing?
    ensures Inv(b, LandStep(b, s, v))
  {
    hide TokenOk, SampleOk, CaseOk, GridOk, RunOk, JobOk, PoolOk, PcOk, Around, Judges, SameRun, CellOk, LandStep, OnlyAt;
    var s', k := LandStep(b, s, v), v.sample;
    assert CellOk(b, s, k.of.cell) && SampleOk(b, s, k) && CaseOk(b, s, k.of) && RunOk(b, s, k.of.cell.run) && JobOk(b, s, v);
    VoteInGrid(b, s, v);
    OwedIsOpened(b, s, v);
    PollingHasBallot(b, s, k);
    forall at: nat ensures GridOk(b, s, CaseKey(k.of.cell, at)) {}
    DecidersElsewhere(b, s, ByVote(v), k);
    var pc := JobAt(s', v);
    if s.book.votes[k].landed + 1 == s.book.votes[k].expected {
      LandComplete(b, s, v);
      SameOnly(s, s', v);
      VoteMoveAround(b, s, s', v, pc);
    } else {
      LandPartial(b, s, v);
      SameOnly(s, s', v);
      VoteMoveAround(b, s, s', v, pc);
      MovedToken(b, s', ByVote(v));
    }
    CaseKept(b, s, s', k.of);
    forall i: nat ensures JobOk(b, s', VoteKey(k, i)) {
      assert JobOk(b, s, VoteKey(k, i));
      LandVoteOk(b, s, s', v, pc, VoteKey(k, i));
    }
    KeepAround(b, s, s', ByVote(v), k);
  }

  lemma PollingHasBallot(b: Batch, s: Sys, k: SampleKey)
    requires SampleOk(b, s, k) && SampleAt(s, k).Polling?
    ensures k in s.book.votes
  {
  }

  lemma SameOnly(s: Sys, s': Sys, v: VoteKey)
    ensures s'.db.ballots == s.db.ballots ==> OnlyAt(s.db.ballots, s'.db.ballots, v)
    ensures s'.book.votes == s.book.votes - {v.sample} ==> OnlyAt(s.book.votes, s'.book.votes, v.sample)
    ensures s'.past.samples == s.past.samples ==> OnlyAt(s.past.samples, s'.past.samples, v.sample)
    ensures s'.past.samples == s.past.samples[v.sample := SampleAt(s', v.sample)] ==> OnlyAt(s.past.samples, s'.past.samples, v.sample)
    ensures s'.past.cases == s.past.cases ==> OnlyAt(s.past.cases, s'.past.cases, v.sample.of)
    ensures s'.book.aggs == s.book.aggs ==> OnlyAt(s.book.aggs, s'.book.aggs, v.sample.of)
    ensures s'.db.rows == s.db.rows ==> OnlyAt(s.db.rows, s'.db.rows, v.sample.of)
  {
  }

  lemma SettleVoteDuty(b: Batch, s: Sys, v: VoteKey)
    requires TokenOk(b, s, ByVote(v)) && JobAt(s, v).Settling?
    ensures SampleAt(s, v.sample) == Deciding(ByVote(v)) && JobAt(s, v).median == SampleMedian(b, v.sample)
  {
    hide SampleMedian;
  }

  lemma SettleVoteMove(b: Batch, s: Sys, v: VoteKey)
    requires JobAt(s, v).Settling? && JobAt(s, v).median == SampleMedian(b, v.sample) && v.sample.of in s.book.aggs
    requires v in s.threads.jobs && v.sample.of.cell in s.threads.cells
    ensures var s' := SettleJobStep(s, v, JobAt(s, v).median);
      && VoteMove(s, s', v, JobAt(s', v)) && SettledBy(b, s, s', ByVote(v), v.sample)
      && SampleAt(s', v.sample).Settled? && HasLanded(JobAt(s', v)) && s'.db == s.db
      && (CaseAt(s, v.sample.of).Open? ==> CaseAt(s', v.sample.of) != Unopened)
  {
    hide SampleMedian, Fold;
  }

  lemma SettleVoteRightful(s: Sys, s': Sys, v: VoteKey)
    requires JobAt(s, v).Settling? && SampleAt(s, v.sample) == Deciding(ByVote(v)) && CaseAt(s, v.sample.of).Open?
    requires CaseAt(s', v.sample.of) != Unopened && VoteMove(s, s', v, JobAt(s', v))
    ensures Rightful(s, s', ByVote(v), v.sample)
  {
    hide OnlyCase, OnlyAt;
  }

  lemma SettledVoteOk(b: Batch, s: Sys, s': Sys, v: VoteKey, w: VoteKey)
    requires JobOk(b, s, w) && w.sample == v.sample && s'.db == s.db && s'.control == s.control
    requires s'.threads == s.threads.(jobs := s.threads.jobs[v := JobAt(s', v)]) && HasLanded(JobAt(s, v)) && HasLanded(JobAt(s', v))
    requires SampleAt(s, w.sample).Deciding? || SampleAt(s, w.sample).Settled?
    requires SampleAt(s', w.sample).Settled?
    ensures JobOk(b, s', w)
  {
    hide Judges;
  }

  lemma SettleVoteKeeps(b: Batch, s: Sys, v: VoteKey)
    requires Inv(b, s) && JobAt(s, v).Settling?
    ensures Inv(b, SettleJobStep(s, v, JobAt(s, v).median))
  {
    hide TokenOk, SampleOk, CaseOk, GridOk, RunOk, JobOk, PoolOk, PcOk, Around, Rightful, Judges, SameRun, CellOk, SettleJobStep, OnlyAt, OnlyCase, SettledBy, SettleFacts, SampleMedian, SameRefusals;
    var s', k := SettleJobStep(s, v, JobAt(s, v).median), v.sample;
    assert CellOk(b, s, k.of.cell) && SampleOk(b, s, k) && CaseOk(b, s, k.of) && RunOk(b, s, k.of.cell.run) && JobOk(b, s, v) && TokenOk(b, s, ByVote(v));
    VoteInGrid(b, s, v);
    SettleVoteDuty(b, s, v);
    SettleHolds(b, s, k);
    SettleVoteMove(b, s, v);
    SettledFocus(b, s, s', ByVote(v), k);
    SettleVoteRightful(s, s', v);
    forall at: nat ensures GridOk(b, s, CaseKey(k.of.cell, at)) {}
    VoteMoveAround(b, s, s', v, JobAt(s', v));
    forall i: nat ensures JobOk(b, s', VoteKey(k, i)) {
      assert JobOk(b, s, VoteKey(k, i));
      SettledVoteOk(b, s, s', v, VoteKey(k, i));
    }
    KeepAround(b, s, s', ByVote(v), k);
  }

  function VoteWrites(s: Sys, v: VoteKey): Sys
    requires JobAt(s, v).Writing?
  {
    GotoJob(WriteRow(s, v.sample.of, JobAt(s, v).agg), v, Dropping)
  }

  lemma WriteVoteMove(b: Batch, s: Sys, v: VoteKey)
    requires JobAt(s, v).Writing? && TokenOk(b, s, ByVote(v)) && v in s.threads.jobs && v.sample.of.cell in s.threads.cells
    ensures var s' := VoteWrites(s, v);
      && VoteMove(s, s', v, Dropping) && WrittenBy(b, s, s', ByVote(v), v.sample) && CaseAt(s, v.sample.of) == Closing(ByVote(v))
      && s'.past.samples == s.past.samples && s'.db.ballots == s.db.ballots && CaseAt(s', v.sample.of) != Unopened
  {
    hide FullAggregate, CaseScore;
  }

  lemma WriteVoteRightful(s: Sys, s': Sys, v: VoteKey)
    requires JobAt(s, v).Writing? && CaseAt(s, v.sample.of) == Closing(ByVote(v)) && SampleAt(s, v.sample).Settled?
    requires CaseAt(s', v.sample.of) != Unopened && VoteMove(s, s', v, Dropping)
    ensures Rightful(s, s', ByVote(v), v.sample)
  {
    hide OnlyCase, OnlyAt;
  }

  lemma WriteVoteOk(b: Batch, s: Sys, s': Sys, v: VoteKey, w: VoteKey)
    requires JobOk(b, s, w) && w.sample == v.sample && s'.db.ballots == s.db.ballots && s'.control == s.control
    requires s'.threads == s.threads.(jobs := s.threads.jobs[v := Dropping]) && HasLanded(JobAt(s, v))
    requires SampleAt(s, w.sample).Settled? && s'.past.samples == s.past.samples
    ensures JobOk(b, s', w)
  {
    hide Judges;
  }

  lemma WriteVoteKeeps(b: Batch, s: Sys, v: VoteKey)
    requires Inv(b, s) && JobAt(s, v).Writing?
    ensures Inv(b, VoteWrites(s, v))
  {
    hide TokenOk, SampleOk, CaseOk, GridOk, RunOk, JobOk, PoolOk, PcOk, Around, Rightful, Judges, SameRun, CellOk, VoteWrites, OnlyAt, OnlyCase, WrittenBy, SameRefusals;
    var s', k := VoteWrites(s, v), v.sample;
    assert CellOk(b, s, k.of.cell) && SampleOk(b, s, k) && CaseOk(b, s, k.of) && RunOk(b, s, k.of.cell.run) && JobOk(b, s, v) && TokenOk(b, s, ByVote(v));
    VoteInGrid(b, s, v);
    WriteVoteMove(b, s, v);
    WrittenFocus(b, s, s', ByVote(v), k);
    WriteVoteRightful(s, s', v);
    forall at: nat ensures GridOk(b, s, CaseKey(k.of.cell, at)) {}
    VoteMoveAround(b, s, s', v, Dropping);
    forall i: nat ensures JobOk(b, s', VoteKey(k, i)) {
      assert JobOk(b, s, VoteKey(k, i));
      WriteVoteOk(b, s, s', v, VoteKey(k, i));
    }
    KeepAround(b, s, s', ByVote(v), k);
  }
}
