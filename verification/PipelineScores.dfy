/** Scores: what they are, and that no schedule can change them. */
module PipelineScores {
  import opened Wrappers
  import opened Median
  import opened PipelineBook
  import opened PipelineMachine
  import opened PipelineInvariant
  import opened PipelineSafety
  import opened PipelineTheorems

  function Medians(b: Batch, ck: CaseKey, n: nat): (r: seq<Option<real>>)
    ensures |r| == n
  {
    seq(n, i requires 0 <= i => SampleMedian(b, SampleKey(ck, i)))
  }

  function Sum(xs: seq<real>): real {
    if xs == [] then 0.0 else Sum(xs[..|xs| - 1]) + xs[|xs| - 1]
  }

  lemma {:induction false} FullSums(b: Batch, ck: CaseKey, n: nat)
    ensures Full(b, ck, n) == Aggregate(Samples(b, ck), n, Sum(Cast(Medians(b, ck, n))), |Cast(Medians(b, ck, n))|)
  {
    hide SampleMedian;
    if n > 0 {
      FullSums(b, ck, n - 1);
      var m := SampleMedian(b, SampleKey(ck, n - 1));
      assert Medians(b, ck, n) == Medians(b, ck, n - 1) + [m];
      CastAppend(Medians(b, ck, n - 1), m);
      if m.Some? {
        var xs := Cast(Medians(b, ck, n));
        assert xs[..|xs| - 1] == Cast(Medians(b, ck, n - 1));
      } else {
        assert Cast(Medians(b, ck, n - 1)) + [] == Cast(Medians(b, ck, n - 1));
      }
    }
  }

  /** The mean of what was scored, null when nothing was. */
  function Mean(xs: seq<real>): Option<real> {
    if xs == [] then None else Some(Sum(xs) / |xs| as real)
  }

  /** A case's score is the mean of the medians its samples have, null when none has one. */
  lemma ScoreIsMean(b: Batch, ck: CaseKey)
    ensures Score(b, ck) == Mean(Cast(Medians(b, ck, Samples(b, ck))))
  {
    FullSums(b, ck, Samples(b, ck));
  }

  /**
   What each sample of a case is worth, read off the answers and the votes: a failed call nothing, a rule its
   score, an answer what the median of its judges' votes is, nothing without judges.
   */
  ghost predicate Worth(b: Batch, ck: CaseKey, xs: seq<Option<real>>) {
    && |xs| == Samples(b, ck)
    && forall no: nat | no < |xs| ::
      match OutcomeOf(b, SampleKey(ck, no))
      case Failed => xs[no] == None
      case Ruled(score) => xs[no] == score
      case Answered(n) => if n == 0 then xs[no] == None
        else xs[no] == MedianOfVotes(seq(n, slot requires 0 <= slot => Verdict(b, VoteKey(SampleKey(ck, no), slot))))
  }

  lemma ScoreFromWorth(b: Batch, ck: CaseKey, xs: seq<Option<real>>)
    requires Worth(b, ck, xs)
    ensures Score(b, ck) == Mean(Cast(xs))
  {
    hide Full, MedianOfVotes, Cast;
    ScoreIsMean(b, ck);
    var ms := Medians(b, ck, Samples(b, ck));
    forall no: nat | no < |xs| ensures xs[no] == ms[no] {
      var k := SampleKey(ck, no);
      if OutcomeOf(b, k).Answered? {
        assert seq(OutcomeOf(b, k).judges, slot requires 0 <= slot => Verdict(b, VoteKey(SampleKey(ck, no), slot))) == Verdicts(b, k);
      }
    }
    assert xs == ms;
  }

  lemma {:induction false} SumBounds(xs: seq<real>)
    requires forall i | 0 <= i < |xs| :: 0.0 <= xs[i] <= 1.0
    ensures 0.0 <= Sum(xs) <= |xs| as real
  {
    if xs != [] {
      SumBounds(xs[..|xs| - 1]);
    }
  }

  lemma MeanBounds(total: real, n: nat)
    requires n > 0 && 0.0 <= total <= n as real
    ensures 0.0 <= total / n as real <= 1.0
  {
  }

  /** Verdicts and rule scores in [0,1] give a score in [0,1]. */
  lemma ScoreUnit(b: Batch, ck: CaseKey)
    requires forall k: SampleKey | k.of == ck && OutcomeOf(b, k).Ruled? :: Unit(OutcomeOf(b, k).score)
    requires forall v: VoteKey | v.sample.of == ck :: Unit(Verdict(b, v))
    ensures Unit(Score(b, ck))
  {
    hide Full;
    var n := Samples(b, ck);
    var ms := Medians(b, ck, n);
    forall i | 0 <= i < n ensures Unit(ms[i]) {
      var k := SampleKey(ck, i);
      if OutcomeOf(b, k).Answered? {
        MedianUnit(Verdicts(b, k));
      }
    }
    CastUnit(ms);
    ScoreIsMean(b, ck);
    forall i | 0 <= i < |Cast(ms)| ensures 0.0 <= Cast(ms)[i] <= 1.0 {
      assert Cast(ms)[i] in Cast(ms);
    }
    SumBounds(Cast(ms));
    if Cast(ms) != [] {
      MeanBounds(Sum(Cast(ms)), |Cast(ms)|);
    }
  }

  /** With one to three judges a sample's median is the true median of the votes cast. */
  lemma ThreeJudges(b: Batch, k: SampleKey)
    requires 1 <= Judges(b, k) <= 3
    ensures var votes := Cast(Verdicts(b, k));
      SampleMedian(b, k) == if votes == [] then None else Some(TrueMedian(Sort(votes)))
  {
    var votes := Cast(Verdicts(b, k));
    if votes != [] {
      MedianRuleExact(|votes|);
    }
  }

  // ---------------------------------------------------------------------
  // Confluence

  /** Two batches that ask the same samples of ck and get the same answers and slot-indexed verdicts. */
  ghost predicate SameInputs(a: Batch, b: Batch, ck: CaseKey) {
    && Samples(a, ck) == Samples(b, ck)
    && (forall no: nat | no < Samples(a, ck) :: OutcomeOf(a, SampleKey(ck, no)) == OutcomeOf(b, SampleKey(ck, no)))
    && (forall no: nat, slot: nat | no < Samples(a, ck) && slot < Judges(a, SampleKey(ck, no)) ::
          Verdict(a, VoteKey(SampleKey(ck, no), slot)) == Verdict(b, VoteKey(SampleKey(ck, no), slot)))
  }

  lemma {:induction false} SameFull(a: Batch, b: Batch, ck: CaseKey, n: nat)
    requires SameInputs(a, b, ck) && n <= Samples(a, ck)
    ensures Full(a, ck, n) == Full(b, ck, n)
  {
    if n > 0 {
      SameFull(a, b, ck, n - 1);
      var k := SampleKey(ck, n - 1);
      assert OutcomeOf(a, k) == OutcomeOf(b, k);
      assert Verdicts(a, k) == Verdicts(b, k);
    }
  }

  /**
   Whatever the order of votes, the number of workers, the other work in the batch or the
   cancellations around it: once a case has its row, the row is fixed by its own answers and verdicts.
   */
  lemma Confluence(a: Batch, b: Batch, ck: CaseKey,
      traceA: seq<Sys>, actionsA: seq<Action>, i: nat, traceB: seq<Sys>, actionsB: seq<Action>, j: nat)
    requires ValidBatch(a) && IsRun(a, traceA, actionsA) && i < |traceA| && CaseAt(traceA[i], ck).Written?
    requires ValidBatch(b) && IsRun(b, traceB, actionsB) && j < |traceB| && CaseAt(traceB[j], ck).Written?
    requires SameInputs(a, b, ck)
    ensures Rows(traceA[i], ck) == Rows(traceB[j], ck) == [Score(a, ck)]
  {
    hide IsRun, ValidBatch, RunOk, SampleOk, GridOk, CellOk, JobOk, TokenOk, PoolOk, Tally, Full, SameInputs;
    RunHolds(a, traceA, actionsA, i);
    RunHolds(b, traceB, actionsB, j);
    assert CaseOk(a, traceA[i], ck) && CaseOk(b, traceB[j], ck);
    SameCounts(a, b, ck);
    SameFull(a, b, ck, Samples(a, ck));
  }

  lemma SameCounts(a: Batch, b: Batch, ck: CaseKey)
    requires SameInputs(a, b, ck)
    ensures Samples(a, ck) == Samples(b, ck)
  {
  }

  /** Once a case is written, its row is the mean of what its samples are worth, in every run. */
  lemma WrittenRow(b: Batch, trace: seq<Sys>, actions: seq<Action>, i: nat, ck: CaseKey, xs: seq<Option<real>>)
    requires ValidBatch(b) && IsRun(b, trace, actions) && i < |trace| && CaseAt(trace[i], ck).Written?
    requires Worth(b, ck, xs)
    ensures Rows(trace[i], ck) == [Mean(Cast(xs))]
  {
    hide IsRun, ValidBatch, RunOk, SampleOk, GridOk, CellOk, JobOk, TokenOk, PoolOk, Tally, Full, Worth, Mean;
    RunHolds(b, trace, actions, i);
    assert CaseOk(b, trace[i], ck);
    ScoreFromWorth(b, ck, xs);
  }

  /** A case whose samples a rule scores gets the mean of the rule's scores, null when the rule gave none. */
  lemma RuleCaseRow(b: Batch, trace: seq<Sys>, actions: seq<Action>, i: nat, ck: CaseKey, scores: seq<Option<real>>)
    requires ValidBatch(b) && IsRun(b, trace, actions) && i < |trace| && CaseAt(trace[i], ck).Written?
    requires |scores| == Samples(b, ck)
    requires forall no: nat | no < |scores| :: OutcomeOf(b, SampleKey(ck, no)) == Ruled(scores[no])
    ensures Rows(trace[i], ck) == [if Cast(scores) == [] then None else Some(Sum(Cast(scores)) / |Cast(scores)| as real)]
  {
    hide IsRun, ValidBatch, Cast;
    assert Worth(b, ck, scores) by {
      forall no: nat | no < |scores| ensures OutcomeOf(b, SampleKey(ck, no)) == Ruled(scores[no]) {}
    }
    WrittenRow(b, trace, actions, i, ck, scores);
  }

  /** Whatever a crash leaves in the vote table is a part of the verdicts: one row per judged slot, and only what that judge said. */
  lemma StoredVotesAreVerdicts(b: Batch, trace: seq<Sys>, actions: seq<Action>, i: nat, v: VoteKey)
    requires ValidBatch(b) && IsRun(b, trace, actions) && i < |trace|
    ensures v in trace[i].db.ballots <==> JobAt(trace[i], v).Landing? || HasLanded(JobAt(trace[i], v))
    ensures v in trace[i].db.ballots ==> trace[i].db.ballots[v] == Verdict(b, v) && v.slot < Judges(b, v.sample)
  {
    hide IsRun, ValidBatch, RunOk, SampleOk, GridOk, CellOk, CaseOk, TokenOk, PoolOk;
    RunHolds(b, trace, actions, i);
    assert JobOk(b, trace[i], v);
  }

  // ---------------------------------------------------------------------
  // Without a cancel everything gets done

  lemma UncancelledIsDone(b: Batch, trace: seq<Sys>, actions: seq<Action>, i: nat, r: int)
    requires ValidBatch(b) && IsRun(b, trace, actions) && i < |trace| && r in b.runs
    requires trace[i].control.phase.Over? && !trace[i].control.cancelled
    ensures Stamps(trace[i], r) == [DoneStamp]
  {
    hide IsRun, ValidBatch, RunOk, SampleOk, GridOk, CaseOk, TokenOk, OpenVotes, Uncounted, JobOk, CellOk, PoolOk, DutyOf;
    var s := trace[i];
    RunHolds(b, trace, actions, i);
    assert RunOk(b, s, r);
    NobodyBusy(b, s);
    forall c | c in b.cells ensures Counted(CellAt(s, c)) {}
    NoneUncounted(b, s, r);
    NoneOpen(b, s, r);
    if RunAt(s, r).Finishing? { OverIsQuiet(b, s, RunAt(s, r).who); }
    QuietRunIsDone(b, s, r);
  }

  lemma NobodyBusy(b: Batch, s: Sys)
    requires PoolOk(b, s) && s.control.phase.Over? && !s.control.cancelled
    ensures forall c | c in b.cells :: CellAt(s, c).Returned?
    ensures forall v :: !JobBusy(JobAt(s, v))
  {
    assert BusyCells(b, s.threads.cells) == {} && BusyJobs(s.threads.jobs) == {};
    forall c | c in b.cells ensures CellAt(s, c).Returned? { assert c !in BusyCells(b, s.threads.cells); }
    forall v ensures !JobBusy(JobAt(s, v)) { assert v !in BusyJobs(s.threads.jobs); }
  }

  lemma NoneUncounted(b: Batch, s: Sys, r: int)
    requires forall c | c in b.cells :: Counted(CellAt(s, c))
    ensures Uncounted(b, s.threads.cells, r) == {}
  {
    forall c ensures c !in Uncounted(b, s.threads.cells, r) {
      if c in b.cells { assert Counted(CellAt(s, c)); }
    }
  }

  lemma NoneOpen(b: Batch, s: Sys, r: int)
    requires AllJobs(b, s) && AllCells(b, s) && !s.control.cancelled
    requires (forall c | c in b.cells :: CellAt(s, c).Returned?) && forall v :: !JobBusy(JobAt(s, v))
    ensures OpenVotes(s.threads.jobs, r) == {}
  {
    hide JobOk, CellOk;
    forall v ensures v !in OpenVotes(s.threads.jobs, r) {
      assert JobOk(b, s, v) && CellOk(b, s, v.sample.of.cell) && !JobBusy(JobAt(s, v));
      OwedNeedsOffer(b, s, v);
    }
  }

  lemma OwedNeedsOffer(b: Batch, s: Sys, v: VoteKey)
    requires JobOk(b, s, v) && !s.control.cancelled && CellOk(b, s, v.sample.of.cell)
    ensures JobAt(s, v).Owed? ==> CellAt(s, v.sample.of.cell).Offer? && v.sample.of.cell in b.cells
  {
  }

  lemma QuietRunIsDone(b: Batch, s: Sys, r: int)
    requires RunOk(b, s, r) && r in b.runs && Uncounted(b, s.threads.cells, r) == {} && OpenVotes(s.threads.jobs, r) == {}
    requires forall c | c in b.cells :: CellAt(s, c).Returned?
    requires RunAt(s, r).Finishing? ==> DutyOf(s, RunAt(s, r).who) == Free
    ensures Stamps(s, r) == [DoneStamp]
  {
    hide OpenVotes, Uncounted, DutyOf;
  }
}
