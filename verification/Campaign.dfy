/**
 Campaign and run statuses, and a retry of failed results from reopening the
 campaign to settling it again.
 */
module Campaign {
  import opened Wrappers
  import opened PipelineBook
  import opened PipelineMachine
  import opened PipelineInvariant
  import opened PipelineTheorems
  import PipelineScores

  datatype RunStatus = Active | RunDone | RunFailed
  datatype Standing = Pending | Executing | CampaignDone | CampaignFailed
  /** A result row belongs to a case of a cell. */
  datatype Unit = Unit(cell: Cell, caseId: int)

  /** One campaign: its standing, its member runs and their result rows. */
  datatype State = State(standing: Standing, runs: map<int, RunStatus>, rows: map<Unit, seq<Option<real>>>)

  predicate Terminal(s: Standing) { s.CampaignDone? || s.CampaignFailed? }

  predicate SomeRun(runs: map<int, RunStatus>, st: RunStatus) {
    exists r | r in runs :: runs[r] == st
  }

  function SettleRuns(c: State): State {
    if SomeRun(c.runs, Active) || Terminal(c.standing) then c
    else c.(standing := if c.runs == map[] || SomeRun(c.runs, RunFailed) then CampaignFailed else CampaignDone)
  }

  function SettleEmpty(c: State): State {
    if Terminal(c.standing) || c.runs != map[] then c else c.(standing := CampaignDone)
  }

  /** Whether a run holds a result without a score. */
  predicate HasNull(c: State, r: int) {
    exists u | u in c.rows :: u.cell.run == r && None in c.rows[u]
  }

  function Reopened(c: State, ids: set<int>): State {
    State(Executing, map r | r in c.runs :: if r in ids then Active else c.runs[r], c.rows)
  }

  function ReopenRuns(c: State, ids: set<int>): (State, bool) {
    if Terminal(c.standing) then (Reopened(c, ids), true) else (c, false)
  }

  function NullRuns(c: State): set<int> {
    set r | r in c.runs && HasNull(c, r)
  }

  function ReopenForRetry(c: State): (State, bool) {
    ReopenRuns(c, NullRuns(c))
  }

  function FinishRun(c: State, r: int, st: RunStatus): State {
    if r in c.runs then c.(runs := c.runs[r := st]) else c
  }

  /** Opening the store after a dead process: executing runs fail, then an unsettled campaign fails with them. */
  function CloseOut(c: State): State {
    State(
      if Terminal(c.standing) then c.standing else CampaignFailed,
      map r | r in c.runs :: if c.runs[r].Active? then RunFailed else c.runs[r],
      c.rows)
  }

  /** The campaign's rows in the store, rewritten by guarded updates. */
  class Store {
    var standing: Standing
    var runs: map<int, RunStatus>
    var rows: map<Unit, seq<Option<real>>>

    function Contents(): State
      reads this
    {
      State(standing, runs, rows)
    }

    method SettleCampaign()
      modifies this`standing
      ensures Contents() == SettleRuns(old(Contents()))
    {
      if SomeRun(runs, Active) {
        return;
      }
      var status := CampaignDone;
      if runs == map[] || SomeRun(runs, RunFailed) {
        status := CampaignFailed;
      }
      if !Terminal(standing) {
        standing := status;
      }
    }

    method SettleEmptyCampaign()
      modifies this`standing
      ensures Contents() == SettleEmpty(old(Contents()))
    {
      if !Terminal(standing) && runs == map[] {
        standing := CampaignDone;
      }
    }

    method ReopenCampaignRuns(ids: set<int>) returns (ok: bool)
      modifies this`standing, this`runs
      ensures (Contents(), ok) == ReopenRuns(old(Contents()), ids)
    {
      if !Terminal(standing) {
        return false;
      }
      standing := Executing;
      runs := map r | r in runs :: if r in ids then Active else runs[r];
      return true;
    }

    method ReopenCampaignForRetry() returns (ok: bool)
      modifies this`standing, this`runs
      ensures (Contents(), ok) == ReopenForRetry(old(Contents()))
    {
      var ids := set r | r in runs && exists u | u in rows :: u.cell.run == r && None in rows[u];
      assert ids == NullRuns(Contents());
      ok := ReopenCampaignRuns(ids);
    }

    method CloseOutInterrupted()
      modifies this`standing, this`runs
      ensures Contents() == CloseOut(old(Contents()))
    {
      runs := map r | r in runs :: if runs[r].Active? then RunFailed else runs[r];
      if !Terminal(standing) {
        standing := CampaignFailed;
      }
    }

    method FinishEvalRun(r: int, st: RunStatus)
      modifies this`runs
      ensures Contents() == FinishRun(old(Contents()), r, st)
    {
      if r in runs {
        runs := runs[r := st];
      }
    }
  }

  // ---------------------------------------------------------------------
  // What every sequence of campaign operations keeps

  datatype Op = SettleOp | SettleEmptyOp | ReopenOp(ids: set<int>) | RetryOp | FinishOp(r: int, ok: bool) | JoinOp(r: int) | StartupOp

  /** Drivers stamp only runs that are executing; runs join a campaign that is executing. */
  predicate Allowed(c: State, op: Op) {
    match op
    case FinishOp(r, _) => r in c.runs && c.runs[r].Active?
    case JoinOp(r) => r !in c.runs && !Terminal(c.standing)
    case _ => true
  }

  function Apply(c: State, op: Op): State {
    match op
    case SettleOp => SettleRuns(c)
    case SettleEmptyOp => SettleEmpty(c)
    case ReopenOp(ids) => ReopenRuns(c, ids).0
    case RetryOp => ReopenForRetry(c).0
    case FinishOp(r, ok) => FinishRun(c, r, if ok then RunDone else RunFailed)
    case JoinOp(r) => c.(runs := c.runs[r := Active])
    case StartupOp => CloseOut(c)
  }

  /** A settled campaign has no executing run, and done means that every run is done. */
  predicate Consistent(c: State) {
    && (Terminal(c.standing) ==> !SomeRun(c.runs, Active))
    && (c.standing.CampaignDone? ==> forall r | r in c.runs :: c.runs[r] == RunDone)
  }

  /** And failed means that it has no run, or a failed one. */
  predicate Truthful(c: State) {
    Consistent(c) && (c.standing.CampaignFailed? ==> c.runs == map[] || SomeRun(c.runs, RunFailed))
  }

  /** All runs are done, there is one, and the campaign has not been settled yet. */
  predicate DoneUnsettled(c: State) {
    !Terminal(c.standing) && c.runs != map[] && forall r | r in c.runs :: c.runs[r] == RunDone
  }

  lemma OpKeepsConsistent(c: State, op: Op)
    requires Consistent(c) && Allowed(c, op)
    ensures Consistent(Apply(c, op))
  {
    if op.FinishOp? {
      assert c.runs[op.r] == Active;
      assert SomeRun(c.runs, Active);
    }
  }

  /** One operation loses the truth exactly when it is a restart that finds every run done and the campaign unsettled. */
  lemma TruthLostExactly(c: State, op: Op)
    requires Truthful(c) && Allowed(c, op)
    ensures !Truthful(Apply(c, op)) <==> op.StartupOp? && DoneUnsettled(c)
  {
    OpKeepsConsistent(c, op);
    match op {
      case FinishOp(r, ok) =>
        assert c.runs[r] == Active;
        assert SomeRun(c.runs, Active);
      case StartupOp =>
        if r :| r in c.runs && c.runs[r] != RunDone {
          assert CloseOut(c).runs[r] == RunFailed;
        }
        if c.runs != map[] { NonEmpty(c.runs); }
      case _ =>
    }
  }

  lemma NonEmpty(runs: map<int, RunStatus>)
    requires runs != map[]
    ensures exists r :: r in runs
  {
    assert (forall r: int :: r !in runs) ==> runs == map[];
  }

  function ApplyAll(c: State, ops: seq<Op>): State
    decreases |ops|
  {
    if ops == [] then c else ApplyAll(Apply(c, ops[0]), ops[1..])
  }

  predicate AllAllowed(c: State, ops: seq<Op>)
    decreases |ops|
  {
    ops == [] || (Allowed(c, ops[0]) && AllAllowed(Apply(c, ops[0]), ops[1..]))
  }

  /** Some restart finds every run done and the campaign unsettled. */
  predicate BadRestart(c: State, ops: seq<Op>)
    decreases |ops|
  {
    ops != [] && ((ops[0].StartupOp? && DoneUnsettled(c)) || BadRestart(Apply(c, ops[0]), ops[1..]))
  }

  lemma {:induction false} AlwaysConsistent(c: State, ops: seq<Op>)
    requires Consistent(c) && AllAllowed(c, ops)
    ensures Consistent(ApplyAll(c, ops))
    decreases |ops|
  {
    hide Consistent, Allowed, Apply;
    if ops != [] {
      OpKeepsConsistent(c, ops[0]);
      AlwaysConsistent(Apply(c, ops[0]), ops[1..]);
    }
  }

  /** A campaign tells the truth after every operation of a sequence exactly when no restart comes between its last run and its settling. */
  lemma {:induction false} AlwaysTruthful(c: State, ops: seq<Op>)
    requires Truthful(c) && AllAllowed(c, ops)
    ensures (forall n | 0 <= n <= |ops| :: Truthful(ApplyAll(c, ops[..n]))) <==> !BadRestart(c, ops)
    decreases |ops|
  {
    hide Truthful, Allowed, Apply, DoneUnsettled;
    assert ops[..0] == [];
    if ops != [] {
      var c1 := Apply(c, ops[0]);
      TruthLostExactly(c, ops[0]);
      forall n | 1 <= n <= |ops| ensures ApplyAll(c, ops[..n]) == ApplyAll(c1, ops[1..][..n - 1]) {
        assert ops[..n][0] == ops[0] && ops[..n][1..] == ops[1..][..n - 1];
      }
      if Truthful(c1) {
        AlwaysTruthful(c1, ops[1..]);
        forall n | 0 <= n <= |ops[1..]| ensures ApplyAll(c1, ops[1..][..n]) == ApplyAll(c, ops[..n + 1]) {}
      } else {
        assert ops[1..][..0] == [];
        assert !Truthful(ApplyAll(c, ops[..1]));
      }
    }
  }

  /** The last run is stamped done, the process dies before the campaign is settled, and the restart calls it failed. */
  lemma CrashBeforeSettle()
    ensures var c, ops := State(Executing, map[1 := Active], map[]), [FinishOp(1, true), StartupOp];
      && Truthful(c) && AllAllowed(c, ops)
      && ApplyAll(c, ops) == State(CampaignFailed, map[1 := RunDone], map[]) && !Truthful(ApplyAll(c, ops))
  {
    var c, ops := State(Executing, map[1 := Active], map[]), [FinishOp(1, true), StartupOp];
    var c1 := Apply(c, ops[0]);
    assert c1.runs == map[1 := RunDone];
    assert ops[1..] == [StartupOp] && ops[1..][1..] == [];
    assert Apply(c1, StartupOp).runs == map[1 := RunDone];
  }

  /** Until something reopens it a settled campaign keeps its standing, and of two racing retries only one gets through. */
  lemma FirstOneWins(c: State, op: Op)
    ensures Terminal(c.standing) && !op.ReopenOp? && !op.RetryOp? ==> Apply(c, op).standing == c.standing
    ensures ReopenForRetry(c).1 ==> !ReopenForRetry(ReopenForRetry(c).0).1
  {
  }

  /**
   A campaign without runs is settled as done; one with runs is settled once none is executing, as done when all of
   them are and as failed otherwise. Settling moves no run and no settled campaign.
   */
  lemma SettlesAs(c: State)
    ensures var empty, some := Apply(c, SettleEmptyOp), Apply(c, SettleOp);
      && empty.runs == some.runs == c.runs && empty.rows == some.rows == c.rows
      && (c.standing in {CampaignDone, CampaignFailed} ==> empty == some == c)
      && (c.standing in {Pending, Executing} ==>
            && empty.standing == (if c.runs == map[] then CampaignDone else c.standing)
            && some.standing ==
                 if exists r :: r in c.runs && c.runs[r] == Active then c.standing
                 else if c.runs != map[] && forall r | r in c.runs :: c.runs[r] == RunDone then CampaignDone
                 else CampaignFailed)
  {
  }

  /** Reopening chosen runs of a settled campaign sets exactly those executing; an unsettled campaign refuses it. */
  lemma ReopensChosen(c: State, ids: set<int>)
    ensures var (c1, ok) := ReopenRuns(c, ids);
      && (ok <==> c.standing in {CampaignDone, CampaignFailed}) && (!ok ==> c1 == c) && c1.rows == c.rows && c1.runs.Keys == c.runs.Keys
      && (ok ==> c1.standing == Executing && forall r | r in c.runs :: c1.runs[r] == if r in ids then Active else c.runs[r])
  {
  }

  // ---------------------------------------------------------------------
  // A retry of failed results

  /** Null-score units of a run whose case can still be asked. */
  function Retriable(c: State, r: int, enabled: set<Unit>): set<Unit> {
    set u | u in c.rows && u.cell.run == r && None in c.rows[u] && u in enabled
  }

  /** The runs whose failed cases are all gone finish at once; the others go to the batch. */
  function FinishedAtOnce(c: State, enabled: set<Unit>): set<int> {
    set r | r in c.runs && HasNull(c, r) && Retriable(c, r, enabled) == {}
  }

  function SentToBatch(c: State, enabled: set<Unit>): set<int> {
    set r | r in c.runs && HasNull(c, r) && Retriable(c, r, enabled) != {}
  }

  /** The batch the driver builds: one grid position per retriable unit of the reopened runs. */
  ghost predicate RetryBatch(b: Batch, unitOf: map<CaseKey, Unit>, c: State, enabled: set<Unit>) {
    && ValidBatch(b) && b.retry && b.runs == SentToBatch(c, enabled)
    && (forall ck :: ck in unitOf <==> InGrid(b, ck))
    && (forall ck | ck in unitOf :: unitOf[ck].cell == ck.cell && unitOf[ck] in Retriable(c, ck.cell.run, enabled))
    && (forall j, k | j in unitOf && k in unitOf && j != k :: unitOf[j] != unitOf[k])
    && (forall ck | ck in unitOf :: RowsIn(b.rowsBefore, ck) == c.rows[unitOf[ck]])
  }

  function StampOf(stamps: seq<Status>): RunStatus {
    if stamps == [DoneStamp] then RunDone else RunFailed
  }

  /** The store once the retry's driver is through, before it settles the campaign. */
  ghost function AfterRetry(c: State, enabled: set<Unit>, unitOf: map<CaseKey, Unit>, s: Sys): State {
    State(c.standing,
      map r | r in c.runs :: if r in FinishedAtOnce(c, enabled) then RunDone else if r in SentToBatch(c, enabled) then StampOf(Stamps(s, r)) else c.runs[r],
      map u | u in c.rows :: if exists ck :: ck in unitOf && unitOf[ck] == u then Rows(s, Holder(unitOf, u)) else c.rows[u])
  }

  ghost function Holder(unitOf: map<CaseKey, Unit>, u: Unit): CaseKey
    requires exists ck :: ck in unitOf && unitOf[ck] == u
  {
    var ck :| ck in unitOf && unitOf[ck] == u;
    ck
  }

  /** Reopening moves exactly the runs with a null result back to executing. */
  lemma ReopenedRuns(c: State)
    requires Terminal(c.standing) && !SomeRun(c.runs, Active)
    ensures var (c1, ok) := ReopenForRetry(c);
      && ok && c1.rows == c.rows && c1.runs.Keys == c.runs.Keys
      && forall r | r in c.runs :: c1.runs[r] == if HasNull(c, r) then Active else c.runs[r]
    ensures forall r :: HasNull(c, r) <==> exists u :: u in c.rows && u.cell.run == r && None in c.rows[u]
  {
  }

  /**
   A retry of failed results, cancelled or not, ends with every reopened run done or failed, the other runs
   as they were, and the campaign settled; no result that had a score has changed.
   */
  lemma RetrySettles(c: State, enabled: set<Unit>, b: Batch, unitOf: map<CaseKey, Unit>,
      trace: seq<Sys>, actions: seq<Action>)
    requires Terminal(c.standing) && !SomeRun(c.runs, Active)
    requires RetryBatch(b, unitOf, ReopenForRetry(c).0, enabled)
    requires IsRun(b, trace, actions) && trace[|trace| - 1].control.phase.Over?
    ensures
      var c1 := ReopenForRetry(c).0;
      var c2 := AfterRetry(c1, enabled, unitOf, trace[|trace| - 1]);
      var c3 := SettleRuns(c2);
      && Terminal(c3.standing) && Truthful(c3)
      && (forall r | r in c.runs :: r in c3.runs && if HasNull(c, r) then c3.runs[r] in {RunDone, RunFailed} else c3.runs[r] == c.runs[r])
      && (forall u | u in c.rows && (exists x :: x in c.rows[u] && x.Some?) && |c.rows[u]| <= 1 :: u in c3.rows && c3.rows[u] == c.rows[u])
  {
    var s := trace[|trace| - 1];
    hide IsRun, ValidBatch, HasNull, Retriable, SomeRun, AfterRetry, ReopenForRetry, RetryBatch, Truthful, SettleRuns, Stamps;
    var c1 := ReopenForRetry(c).0;
    var c2 := AfterRetry(c1, enabled, unitOf, s);
    ReopenedRuns(c);
    SameNulls(c);
    forall r | r in c.runs ensures r in c2.runs && !c2.runs[r].Active? && (!HasNull(c, r) ==> c2.runs[r] == c.runs[r]) {
      TerminalRun(c, r);
      RunAfterRetry(c1, enabled, b, unitOf, trace, actions, r);
    }
    AfterRetryShape(c1, enabled, unitOf, s);
    NoneActive(c2);
    forall u | u in c.rows && (exists x :: x in c.rows[u] && x.Some?) && |c.rows[u]| <= 1 ensures u in c2.rows && c2.rows[u] == c.rows[u] {
      ScoredUnitsStay(c1, enabled, b, unitOf, u);
      UntouchedRow(c1, enabled, unitOf, s, u);
    }
    ReopenedExecutes(c);
    SettledTruth(c2);
  }

  /** A retry that nobody cancels leaves every reopened run done, and the campaign done unless a run it did not reopen had failed. */
  lemma UncancelledRetry(c: State, enabled: set<Unit>, b: Batch, unitOf: map<CaseKey, Unit>,
      trace: seq<Sys>, actions: seq<Action>)
    requires Terminal(c.standing) && !SomeRun(c.runs, Active) && c.runs != map[]
    requires RetryBatch(b, unitOf, ReopenForRetry(c).0, enabled)
    requires IsRun(b, trace, actions) && trace[|trace| - 1].control.phase.Over? && !trace[|trace| - 1].control.cancelled
    ensures
      var c3 := SettleRuns(AfterRetry(ReopenForRetry(c).0, enabled, unitOf, trace[|trace| - 1]));
      && (forall r | r in c.runs :: r in c3.runs && c3.runs[r] == if HasNull(c, r) then RunDone else c.runs[r])
      && c3.standing == if exists r :: r in c.runs && !HasNull(c, r) && c.runs[r] == RunFailed then CampaignFailed else CampaignDone
  {
    var s := trace[|trace| - 1];
    hide IsRun, ValidBatch, HasNull, Retriable, SomeRun, AfterRetry, ReopenForRetry, RetryBatch, SettleRuns, Stamps;
    var c1 := ReopenForRetry(c).0;
    var c2 := AfterRetry(c1, enabled, unitOf, s);
    ReopenedRuns(c);
    SameNulls(c);
    forall r | r in c.runs ensures r in c2.runs && c2.runs[r] == if HasNull(c, r) then RunDone else c.runs[r] {
      UncancelledRun(c1, enabled, b, unitOf, trace, actions, r);
    }
    forall r | r in c.runs ensures !c.runs[r].Active? { TerminalRun(c, r); }
    AfterRetryShape(c1, enabled, unitOf, s);
    ReopenedExecutes(c);
    SettledStanding(c, c2);
  }

  lemma UncancelledRun(c: State, enabled: set<Unit>, b: Batch, unitOf: map<CaseKey, Unit>, trace: seq<Sys>, actions: seq<Action>, r: int)
    requires RetryBatch(b, unitOf, c, enabled) && r in c.runs
    requires IsRun(b, trace, actions) && trace[|trace| - 1].control.phase.Over? && !trace[|trace| - 1].control.cancelled
    ensures var c2 := AfterRetry(c, enabled, unitOf, trace[|trace| - 1]);
      r in c2.runs && c2.runs[r] == if HasNull(c, r) then RunDone else c.runs[r]
  {
    assert |trace| > 0;
    var n: nat := |trace| - 1;
    hide IsRun, ValidBatch, HasNull, Retriable, Stamps;
    if r in SentToBatch(c, enabled) {
      PipelineScores.UncancelledIsDone(b, trace, actions, n, r);
    }
  }

  lemma SettledStanding(c: State, c2: State)
    requires c2.runs.Keys == c.runs.Keys && c.runs != map[] && !Terminal(c2.standing)
    requires forall r | r in c.runs :: !c.runs[r].Active? && c2.runs[r] == if HasNull(c, r) then RunDone else c.runs[r]
    ensures SettleRuns(c2).runs == c2.runs
    ensures SettleRuns(c2).standing == if exists r :: r in c.runs && !HasNull(c, r) && c.runs[r] == RunFailed then CampaignFailed else CampaignDone
  {
    hide HasNull;
    NonEmpty(c.runs);
    if r :| r in c.runs && !HasNull(c, r) && c.runs[r] == RunFailed { assert c2.runs[r] == RunFailed; }
  }

  lemma ReopenedExecutes(c: State)
    requires Terminal(c.standing)
    ensures !Terminal(ReopenForRetry(c).0.standing)
  {
  }

  lemma AfterRetryShape(c: State, enabled: set<Unit>, unitOf: map<CaseKey, Unit>, s: Sys)
    ensures AfterRetry(c, enabled, unitOf, s).runs.Keys == c.runs.Keys && AfterRetry(c, enabled, unitOf, s).standing == c.standing
  {
  }

  lemma UntouchedRow(c: State, enabled: set<Unit>, unitOf: map<CaseKey, Unit>, s: Sys, u: Unit)
    requires u in c.rows && !exists ck :: ck in unitOf && unitOf[ck] == u
    ensures u in AfterRetry(c, enabled, unitOf, s).rows && AfterRetry(c, enabled, unitOf, s).rows[u] == c.rows[u]
  {
  }

  /** One run after the retry: finished at once, stamped by its batch, or left alone. */
  lemma RunAfterRetry(c: State, enabled: set<Unit>, b: Batch, unitOf: map<CaseKey, Unit>, trace: seq<Sys>, actions: seq<Action>, r: int)
    requires RetryBatch(b, unitOf, c, enabled) && r in c.runs && (c.runs[r].Active? ==> HasNull(c, r))
    requires IsRun(b, trace, actions) && trace[|trace| - 1].control.phase.Over?
    ensures var c2 := AfterRetry(c, enabled, unitOf, trace[|trace| - 1]);
      r in c2.runs && !c2.runs[r].Active? && (!HasNull(c, r) ==> c2.runs[r] == c.runs[r])
  {
    assert |trace| > 0;
    var n: nat := |trace| - 1;
    hide IsRun, ValidBatch, HasNull, Retriable, Stamps;
    if r in SentToBatch(c, enabled) {
      OneStamp(b, trace, actions, n, r);
    }
  }

  lemma SameNulls(c: State)
    ensures forall r :: HasNull(ReopenForRetry(c).0, r) == HasNull(c, r)
  {
  }

  lemma TerminalRun(c: State, r: int)
    requires !SomeRun(c.runs, Active) && r in c.runs
    ensures !c.runs[r].Active?
  {
  }

  lemma NoneActive(c: State)
    requires forall r | r in c.runs :: !c.runs[r].Active?
    ensures !SomeRun(c.runs, Active)
  {
  }

  lemma SettledTruth(c: State)
    requires !SomeRun(c.runs, Active) && !Terminal(c.standing)
    ensures Terminal(SettleRuns(c).standing) && Truthful(SettleRuns(c)) && SettleRuns(c).runs == c.runs && SettleRuns(c).rows == c.rows
  {
  }

  /** A unit with a score is not among the retried ones. */
  lemma ScoredUnitsStay(c: State, enabled: set<Unit>, b: Batch, unitOf: map<CaseKey, Unit>, u: Unit)
    requires RetryBatch(b, unitOf, c, enabled) && u in c.rows && (exists x :: x in c.rows[u] && x.Some?) && |c.rows[u]| <= 1
    ensures !exists ck :: ck in unitOf && unitOf[ck] == u
  {
    hide ValidBatch;
    forall ck | ck in unitOf ensures unitOf[ck] != u {
      assert unitOf[ck] in Retriable(c, ck.cell.run, enabled);
      assert None in c.rows[unitOf[ck]];
    }
  }
}
