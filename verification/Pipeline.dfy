/**
 The judge stage's shared books: open cases, samples awaiting votes, and the
 outstanding work of each run. The functions give one critical section each;
 the class updates the same books in place.
 */
module PipelineBook {
  import opened Wrappers
  import opened Median

  datatype Cell = Cell(run: int, model: int)
  /** A case of a cell, by its position in the cell's list. */
  datatype CaseKey = CaseKey(cell: Cell, at: nat)
  /** Samples are numbered from zero. */
  datatype SampleKey = SampleKey(of: CaseKey, no: nat)
  datatype VoteKey = VoteKey(sample: SampleKey, slot: nat)

  datatype Aggregate = Aggregate(expected: nat, settled: nat, sum: real, scored: nat)
  datatype Ballot = Ballot(expected: nat, landed: nat, scores: seq<Option<real>>)

  datatype Book = Book(
    aggs: map<CaseKey, Aggregate>,
    votes: map<SampleKey, Ballot>,
    pending: map<int, int>,
    cellsDone: set<int>,
    finished: set<int>)

  const EMPTY_BOOK := Book(map[], map[], map[], {}, {})

  function Pending(b: Book, run: int): int {
    if run in b.pending then b.pending[run] else 0
  }

  function OpenCase(b: Book, key: CaseKey, expected: nat): Book {
    if key in b.aggs then b else b.(aggs := b.aggs[key := Aggregate(expected, 0, 0.0, 0)])
  }

  function Fold(a: Aggregate, median: Option<real>): Aggregate {
    if median.Some?
    then Aggregate(a.expected, a.settled + 1, a.sum + median.value, a.scored + 1)
    else a.(settled := a.settled + 1)
  }

  /** The score of a completed case: the mean of its sample medians, null when none scored. */
  function CaseScore(a: Aggregate): Option<real> {
    if a.scored > 0 then Some(a.sum / a.scored as real) else None
  }

  /** Settles one sample; the aggregate comes back when that completed the case. */
  function SettleSample(b: Book, key: CaseKey, median: Option<real>): (Book, Option<Aggregate>)
    requires key in b.aggs
  {
    var a := Fold(b.aggs[key], median);
    if a.settled == a.expected then (b.(aggs := b.aggs - {key}), Some(a))
    else (b.(aggs := b.aggs[key := a]), None)
  }

  function Register(b: Book, key: SampleKey, judges: nat): Book {
    var run := key.of.cell.run;
    b.(votes := b.votes[key := Ballot(judges, 0, seq(judges, i => None))],
       pending := b.pending[run := Pending(b, run) + judges])
  }

  /** What a landed vote leads to: nothing, or the sample's median when it was the last one. */
  datatype Landing = Late | Partial | Complete(median: Option<real>)

  function LandVote(b: Book, v: VoteKey, score: Option<real>): (Book, Landing)
    requires v.sample in b.votes ==> v.slot < |b.votes[v.sample].scores|
  {
    if v.sample !in b.votes then (b, Late)
    else
      var sv := b.votes[v.sample];
      var sv' := Ballot(sv.expected, sv.landed + 1, sv.scores[v.slot := score]);
      if sv'.landed == sv'.expected then (b.(votes := b.votes - {v.sample}), Complete(MedianOfVotes(sv'.scores)))
      else (b.(votes := b.votes[v.sample := sv']), Partial)
  }

  /** Marks the run finished, once, when its cells are done and nothing is outstanding. */
  function FinishIfDone(b: Book, run: int): (Book, bool) {
    if run in b.finished || run !in b.cellsDone || Pending(b, run) != 0 then (b, false)
    else (b.(finished := b.finished + {run}), true)
  }

  function DecrementPending(b: Book, run: int): (Book, bool) {
    FinishIfDone(b.(pending := b.pending[run := Pending(b, run) - 1]), run)
  }

  function MarkCellsDone(b: Book, run: int): (Book, bool) {
    FinishIfDone(b.(cellsDone := b.cellsDone + {run}), run)
  }
}

/** The pipeline object itself. */
module PipelineObject {
  import opened Wrappers
  import opened Median
  import B = PipelineBook

  class Pipeline {
    var aggs: map<B.CaseKey, B.Aggregate>
    var votes: map<B.SampleKey, B.Ballot>
    var judgePending: map<int, int>
    var cellsDone: set<int>
    var finished: set<int>

    constructor ()
      ensures Contents() == B.EMPTY_BOOK
    {
      aggs, votes, judgePending, cellsDone, finished := map[], map[], map[], {}, {};
    }

    ghost function Contents(): B.Book
      reads this
    {
      B.Book(aggs, votes, judgePending, cellsDone, finished)
    }

    method OpenCase(key: B.CaseKey, expected: nat)
      modifies this`aggs
      ensures Contents() == B.OpenCase(old(Contents()), key, expected)
    {
      if key !in aggs {
        aggs := aggs[key := B.Aggregate(expected, 0, 0.0, 0)];
      }
    }

    method SettleSample(key: B.CaseKey, median: Option<real>) returns (row: Option<Option<real>>)
      requires key in aggs
      modifies this`aggs
      ensures
        var (b, done) := B.SettleSample(old(Contents()), key, median);
        && Contents() == b
        && row == match done case None => None case Some(a) => Some(B.CaseScore(a))
    {
      var agg := aggs[key];
      agg := agg.(settled := agg.settled + 1);
      if median.Some? {
        agg := agg.(sum := agg.sum + median.value, scored := agg.scored + 1);
      }
      if agg.settled == agg.expected {
        aggs := aggs - {key};
        if agg.scored > 0 {
          return Some(Some(agg.sum / agg.scored as real));
        }
        return Some(None);
      }
      aggs := aggs[key := agg];
      return None;
    }

    /** The registration half of enqueueVotes; the offers follow one by one. */
    method RegisterVotes(key: B.SampleKey, judges: nat)
      modifies this`votes, this`judgePending
      ensures Contents() == B.Register(old(Contents()), key, judges)
    {
      var run := key.of.cell.run;
      votes := votes[key := B.Ballot(judges, 0, seq(judges, i => None))];
      judgePending := judgePending[run := (if run in judgePending then judgePending[run] else 0) + judges];
    }

    method LandVote(v: B.VoteKey, score: Option<real>) returns (median: B.Landing)
      requires v.sample in votes ==> v.slot < |votes[v.sample].scores|
      modifies this`votes
      ensures (Contents(), median) == B.LandVote(old(Contents()), v, score)
    {
      if v.sample !in votes {
        return B.Late;
      }
      var sv := votes[v.sample];
      sv := sv.(scores := sv.scores[v.slot := score], landed := sv.landed + 1);
      if sv.landed == sv.expected {
        var m := TakeMedian(sv.scores);
        votes := votes - {v.sample};
        return B.Complete(m);
      }
      votes := votes[v.sample := sv];
      return B.Partial;
    }

    method DecrementPending(run: int) returns (done: bool)
      modifies this`judgePending, this`finished
      ensures (Contents(), done) == B.DecrementPending(old(Contents()), run)
    {
      judgePending := judgePending[run := (if run in judgePending then judgePending[run] else 0) - 1];
      done := RunFinished(run);
    }

    method MarkCellsDone(run: int) returns (done: bool)
      modifies this`cellsDone, this`finished
      ensures (Contents(), done) == B.MarkCellsDone(old(Contents()), run)
    {
      cellsDone := cellsDone + {run};
      done := RunFinished(run);
    }

    method RunFinished(run: int) returns (done: bool)
      modifies this`finished
      ensures (Contents(), done) == B.FinishIfDone(old(Contents()), run)
    {
      if run in finished || run !in cellsDone || (run in judgePending && judgePending[run] != 0) {
        return false;
      }
      finished := finished + {run};
      return true;
    }
  }
}
