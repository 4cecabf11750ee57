/**
 The overview snapshot cache. A build runs several queries while writers and
 probers go on; markers read before and after it decide whether it may be
 stored as it is. Writes are positions in the database's commit log.
 */
module Overview {
  import opened Wrappers

  /** A structural write commits first and invalidates the overview later; a probe moves the watermark. */
  datatype Write = Structural | Probe

  /** The markers before and after a build. */
  datatype Markers = Markers(wm0: nat, gen0: nat, wm1: nat, gen1: nat)

  /** seen are the log lengths the build's queries saw; the last three fields are history. */
  datatype Snapshot = Snapshot(watermark: nat, structGen: nat, hour: int, seen: seq<nat>, wm0: nat, gen0: nat, start: nat)

  /** One attempt of a build, between its first and its last marker. */
  datatype Attempt = Attempt(number: nat, wm0: nat, gen0: nat, hour: int, seen: seq<nat>, start: nat)
  datatype Pc =
    | Idle
    | Checking(watermark: nat, hour: int, asOf: nat)
    | Starting(number: nat)
    | Marking(number: nat, wm0: nat, hour: int, start: nat)
    | Querying(attempt: Attempt)
    | Closing(attempt: Attempt, wm1: nat)
    | Built(snap: Snapshot)
    | Waiting(leader: int)

  /** calls are the completed calls of InvalidateOverview, each with the writes it was made for. */
  datatype State = State(
    log: seq<Write>,
    calls: seq<set<nat>>,
    threads: map<int, Pc>,
    scopes: map<int, int>,
    snaps: map<int, Snapshot>,
    inflight: map<int, int>)

  /** The probe watermark of a database state. */
  function Watermark(log: seq<Write>): (n: nat)
    ensures n <= |log|
  {
    if log == [] then 0 else Watermark(log[..|log| - 1]) + if log[|log| - 1].Probe? then 1 else 0
  }

  function Gen(s: State): nat {
    |s.calls|
  }

  predicate Invalidated(calls: seq<set<nat>>, w: nat) {
    exists g | 0 <= g < |calls| :: w in calls[g]
  }

  function PcAt(s: State, t: int): Pc { if t in s.threads then s.threads[t] else Idle }
  function ScopeOf(s: State, t: int): int { if t in s.scopes then s.scopes[t] else 0 }
  function Goto(s: State, t: int, pc: Pc): State { s.(threads := s.threads[t := pc]) }

  /** A call of InvalidateOverview may be made for one committed write, for several, again for an old one, or for none. */
  datatype Action =
    | Commit(kind: Write)
    | Invalidate(covers: set<nat>)
    | Arrive(t: int, scope: int, hour: int)
    | Look(t: int)
    | Mark0(t: int, hour: int)
    | Gen0(t: int)
    | Query(t: int)
    | Mark1(t: int)
    | Gen1(t: int)
    | Store(t: int)
    | Joined(t: int)

  predicate Hit(s: State, t: int) {
    PcAt(s, t).Checking? && ScopeOf(s, t) in s.snaps &&
    var snap := s.snaps[ScopeOf(s, t)];
    snap.watermark == PcAt(s, t).watermark && snap.structGen == Gen(s) && snap.hour == PcAt(s, t).hour
  }

  predicate Enabled(s: State, a: Action) {
    match a
    case Commit(_) => true
    case Invalidate(covers) => forall w | w in covers :: w < |s.log| && s.log[w].Structural?
    case Arrive(t, _, _) => PcAt(s, t).Idle?
    case Look(t) => PcAt(s, t).Checking?
    case Mark0(t, _) => PcAt(s, t).Starting?
    case Gen0(t) => PcAt(s, t).Marking?
    case Query(t) => PcAt(s, t).Querying?
    case Mark1(t) => PcAt(s, t).Querying? && PcAt(s, t).attempt.seen != []
    case Gen1(t) => PcAt(s, t).Closing?
    case Store(t) => PcAt(s, t).Built?
    case Joined(t) => PcAt(s, t).Waiting? && (ScopeOf(s, t) !in s.inflight || s.inflight[ScopeOf(s, t)] != PcAt(s, t).leader)
  }

  const LAST_ATTEMPT: nat := 2

  /** At the end of an attempt: store it when the markers held or it was the third, else try again. */
  function Close(p: Attempt, wm1: nat, gen1: nat): Pc {
    if (p.wm0 == wm1 && p.gen0 == gen1) || p.number >= LAST_ATTEMPT
    then Built(Snapshot(wm1, gen1, p.hour, p.seen, p.wm0, p.gen0, p.start))
    else Starting(p.number + 1)
  }

  function Step(s: State, a: Action): State
    requires Enabled(s, a)
  {
    match a
    case Commit(w) => s.(log := s.log + [w])
    case Invalidate(covers) => s.(calls := s.calls + [covers])
    case Arrive(t, scope, hour) => Goto(s.(scopes := s.scopes[t := scope]), t, Checking(Watermark(s.log), hour, |s.log|))
    case Look(t) =>
      if Hit(s, t) then Goto(s, t, Idle)
      else if ScopeOf(s, t) in s.inflight then Goto(s, t, Waiting(s.inflight[ScopeOf(s, t)]))
      else Goto(s.(inflight := s.inflight[ScopeOf(s, t) := t]), t, Starting(0))
    case Mark0(t, hour) => Goto(s, t, Marking(PcAt(s, t).number, Watermark(s.log), hour, |s.log|))
    case Gen0(t) =>
      var p := PcAt(s, t);
      Goto(s, t, Querying(Attempt(p.number, p.wm0, Gen(s), p.hour, [], p.start)))
    case Query(t) =>
      var p := PcAt(s, t).attempt;
      Goto(s, t, Querying(p.(seen := p.seen + [|s.log|])))
    case Mark1(t) => Goto(s, t, Closing(PcAt(s, t).attempt, Watermark(s.log)))
    case Gen1(t) => Goto(s, t, Close(PcAt(s, t).attempt, PcAt(s, t).wm1, Gen(s)))
    case Store(t) => Goto(s.(snaps := s.snaps[ScopeOf(s, t) := PcAt(s, t).snap], inflight := s.inflight - {ScopeOf(s, t)}), t, Idle)
    case Joined(t) => Goto(s, t, Idle)
  }

  const START := State([], [], map[], map[], map[], map[])

  predicate Legal(s: State, actions: seq<Action>)
    decreases |actions|
  {
    actions == [] || (Enabled(s, actions[0]) && Legal(Step(s, actions[0]), actions[1..]))
  }

  function Run(s: State, actions: seq<Action>): State
    requires Legal(s, actions)
    decreases |actions|
  {
    if actions == [] then s else Run(Step(s, actions[0]), actions[1..])
  }

  /** The build saw write w in every one of its queries. */
  predicate Contains(seen: seq<nat>, w: nat) {
    forall i | 0 <= i < |seen| :: w < seen[i]
  }

  // ---------------------------------------------------------------------
  // What the markers say

  lemma WatermarkAppend(log: seq<Write>, w: Write)
    ensures Watermark(log + [w]) == Watermark(log) + if w.Probe? then 1 else 0
  {
    assert (log + [w])[..|log|] == log;
  }

  lemma {:induction false} WatermarkMonotone(log: seq<Write>, m: nat, n: nat)
    requires m <= n <= |log|
    ensures Watermark(log[..m]) <= Watermark(log[..n])
    ensures Watermark(log[..m]) == Watermark(log[..n]) ==> forall p | m <= p < n :: !log[p].Probe?
    decreases n
  {
    if m < n {
      WatermarkMonotone(log, m, n - 1);
      assert log[..n][..n - 1] == log[..n - 1];
    }
  }

  /** The calls counted by gen0 were for writes committed before any query ran, and wm0 counts the log before any query. */
  predicate MarksOk(log: seq<Write>, calls: seq<set<nat>>, wm0: nat, gen0: nat, seen: seq<nat>, start: nat) {
    && start <= |log| && wm0 == Watermark(log[..start]) && gen0 <= |calls|
    && (forall i | 0 <= i < |seen| :: start <= seen[i] && forall g, w: nat | 0 <= g < gen0 && w in calls[g] :: w < seen[i])
  }

  /** Every attempt that had to be repeated moved a marker. */
  predicate PcOk(s: State, pc: Pc) {
    match pc
    case Checking(wm, _, asOf) => asOf <= |s.log| && wm == Watermark(s.log[..asOf])
    case Starting(n) => Watermark(s.log) + Gen(s) >= n
    case Marking(n, wm0, _, start) => start <= |s.log| && wm0 == Watermark(s.log[..start]) && wm0 + Gen(s) >= n
    case Querying(p) => MarksOk(s.log, s.calls, p.wm0, p.gen0, p.seen, p.start) && p.wm0 + p.gen0 >= p.number
    case Closing(p, wm1) =>
      && MarksOk(s.log, s.calls, p.wm0, p.gen0, p.seen, p.start) && p.wm0 + p.gen0 >= p.number
      && p.wm0 <= wm1 <= Watermark(s.log)
    case Built(snap) => SnapOk(s, snap)
    case _ => true
  }

  function MarkersOf(snap: Snapshot): Markers {
    Markers(snap.wm0, snap.gen0, snap.watermark, snap.structGen)
  }

  predicate Held(m: Markers) {
    m.wm0 == m.wm1 && m.gen0 == m.gen1
  }

  /** Markers that moved during the third attempt, each of the two before having moved one. */
  predicate Forced(m: Markers) {
    !Held(m) && m.wm0 <= m.wm1 && m.gen0 <= m.gen1 && m.wm0 + m.gen0 >= LAST_ATTEMPT
  }

  predicate SnapOk(s: State, snap: Snapshot) {
    && MarksOk(s.log, s.calls, snap.wm0, snap.gen0, snap.seen, snap.start)
    && (Held(MarkersOf(snap)) || Forced(MarkersOf(snap)))
  }

  predicate Inv(s: State) {
    && (forall g, w: nat | 0 <= g < |s.calls| && w in s.calls[g] :: w < |s.log|)
    && (forall t | t in s.threads :: PcOk(s, s.threads[t]))
    && (forall scope | scope in s.snaps :: SnapOk(s, s.snaps[scope]))
  }

  lemma MarksPersist(s: State, s': State, wm0: nat, gen0: nat, seen: seq<nat>, start: nat)
    requires MarksOk(s.log, s.calls, wm0, gen0, seen, start) && s.log <= s'.log && s.calls <= s'.calls
    ensures MarksOk(s'.log, s'.calls, wm0, gen0, seen, start)
  {
    assert s'.log[..start] == s.log[..start];
  }

  /** Commits and invalidations only add, so what was established about a thread or a snapshot stays true. */
  lemma PcPersists(s: State, s': State, pc: Pc)
    requires PcOk(s, pc) && s.log <= s'.log && s.calls <= s'.calls
    ensures PcOk(s', pc)
  {
    hide MarksOk, Watermark, Held, Forced;
    WatermarkGrows(s.log, s'.log);
    match pc {
      case Checking(wm, _, asOf) => assert s'.log[..asOf] == s.log[..asOf];
      case Marking(_, wm0, _, start) => assert s'.log[..start] == s.log[..start];
      case Querying(p) => MarksPersist(s, s', p.wm0, p.gen0, p.seen, p.start);
      case Closing(p, _) => MarksPersist(s, s', p.wm0, p.gen0, p.seen, p.start);
      case Built(snap) => SnapPersists(s, s', snap);
      case _ =>
    }
  }

  lemma WatermarkGrows(log: seq<Write>, log': seq<Write>)
    requires log <= log'
    ensures Watermark(log) <= Watermark(log')
  {
    WatermarkMonotone(log', |log|, |log'|);
    assert log'[..|log|] == log && log'[..|log'|] == log';
  }

  lemma SnapPersists(s: State, s': State, snap: Snapshot)
    requires SnapOk(s, snap) && s.log <= s'.log && s.calls <= s'.calls
    ensures SnapOk(s', snap)
  {
    hide MarksOk;
    MarksPersist(s, s', snap.wm0, snap.gen0, snap.seen, snap.start);
  }

  /** The acting thread's new place is in order. */
  lemma OwnPc(s: State, a: Action)
    requires Inv(s) && Enabled(s, a) && !a.Commit? && !a.Invalidate?
    ensures PcOk(Step(s, a), PcAt(Step(s, a), a.t))
  {
    hide Watermark;
    var pc := PcAt(s, a.t);
    assert PcOk(s, pc);
    assert s.log[..|s.log|] == s.log;
    if a.Mark1? {
      WatermarkMonotone(s.log, pc.attempt.start, |s.log|);
    }
  }

  lemma StepKeeps(s: State, a: Action)
    requires Inv(s) && Enabled(s, a)
    ensures Inv(Step(s, a))
  {
    hide PcOk, SnapOk, Hit, Close, Watermark;
    var s' := Step(s, a);
    forall t | t in s'.threads ensures PcOk(s', s'.threads[t]) {
      if !a.Commit? && !a.Invalidate? && t == a.t {
        OwnPc(s, a);
      } else {
        PcPersists(s, s', s.threads[t]);
      }
    }
    forall scope | scope in s'.snaps ensures SnapOk(s', s'.snaps[scope]) {
      if a.Store? && scope == ScopeOf(s, a.t) {
        BuiltOk(s, a.t);
        SnapPersists(s, s', PcAt(s, a.t).snap);
      } else {
        SnapPersists(s, s', s.snaps[scope]);
      }
    }
  }

  lemma BuiltOk(s: State, t: int)
    requires Inv(s) && PcAt(s, t).Built?
    ensures SnapOk(s, PcAt(s, t).snap)
  {
    assert PcOk(s, s.threads[t]);
  }

  lemma {:induction false} RunKeeps(s: State, actions: seq<Action>)
    requires Inv(s) && Legal(s, actions)
    ensures Inv(Run(s, actions))
    decreases |actions|
  {
    hide Inv, Step, Enabled;
    if actions != [] {
      StepKeeps(s, actions[0]);
      RunKeeps(Step(s, actions[0]), actions[1..]);
    }
  }

  // ---------------------------------------------------------------------
  // Freshness

  /** A request's snapshot contains every write whose invalidation is over, and every probe the request's watermark counted. */
  ghost predicate IsFresh(s: State, t: int, snap: Snapshot)
    requires PcAt(s, t).Checking?
  {
    && (forall w: nat | Invalidated(s.calls, w) :: Contains(snap.seen, w))
    && (forall p: nat | p < PcAt(s, t).asOf && p < |s.log| && s.log[p].Probe? :: Contains(snap.seen, p))
  }

  /**
   A request is served from the cache exactly when its scope has a snapshot of its own watermark, of all the
   invalidations that are over, and of its own hour; otherwise it joins the scope's rebuild or leads one.
   */
  lemma ServedExactly(s: State, t: int)
    requires PcAt(s, t).Checking?
    ensures var pc, scope, s' := PcAt(s, t), ScopeOf(s, t), Step(s, Look(t));
      && (PcAt(s', t).Idle? <==>
            (scope in s.snaps && s.snaps[scope].watermark == pc.watermark && s.snaps[scope].structGen == |s.calls| && s.snaps[scope].hour == pc.hour))
      && (!PcAt(s', t).Idle? && scope in s.inflight ==> PcAt(s', t) == Waiting(s.inflight[scope]) && s'.inflight == s.inflight)
      && (!PcAt(s', t).Idle? && scope !in s.inflight ==> PcAt(s', t) == Starting(0) && s'.inflight == s.inflight[scope := t])
      && s'.snaps == s.snaps && s'.log == s.log && s'.calls == s.calls
  {
  }

  /** A cache hit on a snapshot whose markers held is fresh and of the request's hour, whatever writers, other builds and requests did meanwhile. */
  lemma StableHitIsFresh(actions: seq<Action>, t: int)
    requires Legal(START, actions) && Hit(Run(START, actions), t)
    requires Held(MarkersOf(Run(START, actions).snaps[ScopeOf(Run(START, actions), t)]))
    ensures var s := Run(START, actions); IsFresh(s, t, s.snaps[ScopeOf(s, t)]) && s.snaps[ScopeOf(s, t)].hour == PcAt(s, t).hour
  {
    hide Legal, Run, Watermark;
    RunKeeps(START, actions);
    var s := Run(START, actions);
    var snap := s.snaps[ScopeOf(s, t)];
    assert PcOk(s, s.threads[t]) && SnapOk(s, snap);
    var asOf := PcAt(s, t).asOf;
    if snap.start < asOf {
      WatermarkMonotone(s.log, snap.start, asOf);
    }
  }

  // ---------------------------------------------------------------------
  // Stale snapshots

  lemma {:induction false} RunConcat(s: State, a: seq<Action>, b: seq<Action>)
    requires Legal(s, a) && Legal(Run(s, a), b)
    ensures Legal(s, a + b) && Run(s, a + b) == Run(Run(s, a), b)
    decreases |a|
  {
    hide Step, Enabled;
    if a == [] {
      assert a + b == b;
    } else {
      assert (a + b)[0] == a[0] && (a + b)[1..] == a[1..] + b;
      RunConcat(Step(s, a[0]), a[1..], b);
    }
  }

  lemma RunOne(s: State, a: Action)
    requires Enabled(s, a)
    ensures Legal(s, [a]) && Run(s, [a]) == Step(s, a)
  {
    hide Step, Enabled;
    assert [a][1..] == [];
  }

  /** actions lead from s to s'. */
  predicate Leads(s: State, actions: seq<Action>, s': State) {
    Legal(s, actions) && Run(s, actions) == s'
  }

  lemma LeadsOn(s: State, a: seq<Action>, s1: State, b: seq<Action>, s2: State)
    requires Leads(s, a, s1) && Leads(s1, b, s2)
    ensures Leads(s, a + b, s2)
  {
    hide Legal, Run;
    RunConcat(s, a, b);
  }

  lemma LeadsByOne(s: State, a: seq<Action>, s1: State, next: Action)
    requires Leads(s, a, s1) && Enabled(s1, next)
    ensures Leads(s, a + [next], Step(s1, next))
  {
    hide Legal, Run, Enabled, Step;
    RunOne(s1, next);
    LeadsOn(s, a, s1, [next], Step(s1, next));
  }

  function Probes(n: nat): seq<Write> { seq(n, i => Probe) }
  function Bumps(n: nat, w: nat): seq<set<nat>> { seq(n, i => {w}) }

  /** p probes, a structural write, and g calls for it. */
  function Meanwhile(s: State, p: nat, g: nat): State {
    s.(log := s.log + Probes(p) + [Structural], calls := s.calls + Bumps(g, |s.log| + p))
  }

  lemma {:induction false} CommitProbes(s: State, p: nat) returns (actions: seq<Action>)
    ensures Leads(s, actions, s.(log := s.log + Probes(p))) && Watermark(s.log + Probes(p)) == Watermark(s.log) + p
  {
    hide Legal, Run, Watermark;
    if p == 0 {
      actions := [];
      assert s.log + Probes(0) == s.log;
      assert Leads(s, [], s) by { NoActions(s); }
    } else {
      actions := CommitProbes(s, p - 1);
      var s1 := s.(log := s.log + Probes(p - 1));
      LeadsByOne(s, actions, s1, Commit(Probe));
      actions := actions + [Commit(Probe)];
      WatermarkAppend(s1.log, Probe);
      assert s1.log + [Probe] == s.log + Probes(p);
    }
  }

  lemma NoActions(s: State)
    ensures Leads(s, [], s)
  {
  }

  lemma {:induction false} CallFor(s: State, w: nat, g: nat) returns (actions: seq<Action>)
    requires w < |s.log| && s.log[w].Structural?
    ensures Leads(s, actions, s.(calls := s.calls + Bumps(g, w)))
  {
    hide Legal, Run, Watermark;
    if g == 0 {
      actions := [];
      assert s.calls + Bumps(0, w) == s.calls;
      NoActions(s);
    } else {
      actions := CallFor(s, w, g - 1);
      var s1 := s.(calls := s.calls + Bumps(g - 1, w));
      LeadsByOne(s, actions, s1, Invalidate({w}));
      actions := actions + [Invalidate({w})];
      assert s1.calls + [{w}] == s.calls + Bumps(g, w);
    }
  }

  lemma WriteMeanwhile(s: State, p: nat, g: nat) returns (actions: seq<Action>)
    ensures Leads(s, actions, Meanwhile(s, p, g)) && Watermark(Meanwhile(s, p, g).log) == Watermark(s.log) + p
  {
    hide Legal, Run, Watermark;
    var s1 := s.(log := s.log + Probes(p));
    var s2 := s1.(log := s1.log + [Structural]);
    actions := CommitProbes(s, p);
    LeadsByOne(s, actions, s1, Commit(Structural));
    actions := actions + [Commit(Structural)];
    WatermarkAppend(s1.log, Structural);
    var more := CallFor(s2, |s.log| + p, g);
    LeadsOn(s, actions, s2, more, Meanwhile(s, p, g));
    actions := actions + more;
  }

  /** The attempt that runs its one query before those writes. */
  function Overtaken(s: State, t: int): Attempt
    requires PcAt(s, t).Starting?
  {
    Attempt(PcAt(s, t).number, Watermark(s.log), Gen(s), 0, [|s.log|], |s.log|)
  }

  function AfterAttempt(s: State, t: int, p: nat, g: nat): State
    requires PcAt(s, t).Starting?
  {
    Goto(Meanwhile(s, p, g), t, Close(Overtaken(s, t), Watermark(s.log) + p, Gen(s) + g))
  }

  lemma OvertakenAttempt(s: State, t: int, p: nat, g: nat) returns (actions: seq<Action>)
    requires PcAt(s, t).Starting?
    ensures Leads(s, actions, AfterAttempt(s, t, p, g)) && Watermark(AfterAttempt(s, t, p, g).log) == Watermark(s.log) + p
  {
    hide Legal, Run, Watermark, Close, Leads, Meanwhile;
    var a := Overtaken(s, t);
    actions := OvertakenQuery(s, t);
    var s1 := Goto(s, t, Querying(a));
    var writes := WriteMeanwhile(s1, p, g);
    LeadsOn(s, actions, s1, writes, Meanwhile(s1, p, g));
    actions := actions + writes;
    MeanwhileKeeps(s1, p, g);
    var s2 := Meanwhile(s1, p, g);
    var s3 := Step(s2, Mark1(t));
    LeadsByOne(s, actions, s2, Mark1(t));
    actions := actions + [Mark1(t)];
    LeadsByOne(s, actions, s3, Gen1(t));
    actions := actions + [Gen1(t)];
    var m, pc := Meanwhile(s, p, g), Close(a, Watermark(s.log) + p, Gen(s) + g);
    MeanwhileElsewhere(s, t, p, g, Querying(a));
    LastPlaceCounts(m, t, Querying(a), Closing(a, Watermark(s.log) + p));
    LastPlaceCounts(m, t, Closing(a, Watermark(s.log) + p), pc);
    assert s3 == Goto(s2, t, Closing(a, Watermark(s2.log)));
    assert Step(s3, Gen1(t)) == Goto(s3, t, pc);
  }

  lemma OvertakenQuery(s: State, t: int) returns (actions: seq<Action>)
    requires PcAt(s, t).Starting?
    ensures Leads(s, actions, Goto(s, t, Querying(Overtaken(s, t))))
  {
    hide Legal, Run, Watermark, Leads;
    var s1 := Step(s, Mark0(t, 0));
    var s2 := Step(s1, Gen0(t));
    NoActions(s);
    LeadsByOne(s, [], s, Mark0(t, 0));
    LeadsByOne(s, [] + [Mark0(t, 0)], s1, Gen0(t));
    LeadsByOne(s, [] + [Mark0(t, 0)] + [Gen0(t)], s2, Query(t));
    actions := [] + [Mark0(t, 0)] + [Gen0(t)] + [Query(t)];
    var none: seq<nat> := [];
    assert none + [|s.log|] == [|s.log|];
    assert Step(s2, Query(t)).threads == s.threads[t := Querying(Overtaken(s, t))];
  }

  lemma MeanwhileKeeps(s: State, p: nat, g: nat)
    ensures var s' := Meanwhile(s, p, g);
      && s'.threads == s.threads && s'.scopes == s.scopes && s'.snaps == s.snaps && s'.inflight == s.inflight
      && |s'.log| == |s.log| + p + 1 && Gen(s') == Gen(s) + g
  {
  }

  lemma MeanwhileElsewhere(s: State, t: int, p: nat, g: nat, pc: Pc)
    ensures Meanwhile(Goto(s, t, pc), p, g) == Goto(Meanwhile(s, p, g), t, pc)
  {
  }

  lemma LastPlaceCounts(s: State, t: int, pc: Pc, pc': Pc)
    ensures Goto(Goto(s, t, pc), t, pc') == Goto(s, t, pc')
  {
    assert s.threads[t := pc][t := pc'] == s.threads[t := pc'];
  }

  const LEADING := State([], [], map[1 := Starting(0)], map[1 := 0], map[], map[0 := 1])

  lemma LeadBuilds() returns (actions: seq<Action>)
    ensures Leads(START, actions, LEADING)
  {
    hide Legal, Run, Leads;
    NoActions(START);
    LeadsByOne(START, [], START, Arrive(1, 0, 0));
    var s1 := Step(START, Arrive(1, 0, 0));
    LeadsByOne(START, [] + [Arrive(1, 0, 0)], s1, Look(1));
    actions := [] + [Arrive(1, 0, 0)] + [Look(1)];
    assert Step(s1, Look(1)) == LEADING;
  }

  /** How far the markers move in the first attempt, so that the first two can bring them to wm and gen. */
  function FirstMove(wm: nat, gen: nat): (nat, nat) {
    if wm > 0 then (1, 0) else (0, 1)
  }

  /** Two overtaken attempts bring the markers anywhere, if together they move at least twice. */
  lemma TwoAttempts(wm: nat, gen: nat) returns (actions: seq<Action>, s: State)
    requires wm + gen >= LAST_ATTEMPT
    ensures Leads(START, actions, s) && Watermark(s.log) == wm && Gen(s) == gen
    ensures PcAt(s, 1) == Starting(2) && PcAt(s, 2).Idle? && ScopeOf(s, 1) == 0
  {
    hide Legal, Run, Watermark, Leads;
    var (p, g) := FirstMove(wm, gen);
    actions := LeadBuilds();
    EmptyLog();
    var first := OvertakenAttempt(LEADING, 1, p, g);
    var s1 := AfterAttempt(LEADING, 1, p, g);
    LeadsOn(START, actions, LEADING, first, s1);
    actions := actions + first;
    var second := OvertakenAttempt(s1, 1, wm - p, gen - g);
    s := AfterAttempt(s1, 1, wm - p, gen - g);
    LeadsOn(START, actions, s1, second, s);
    actions := actions + second;
  }

  lemma EmptyLog()
    ensures Watermark([]) == 0
  {
  }

  /** What the third attempt stores when its markers move from (wm0, gen0) to (wm1, gen1). */
  function ForcedSnapshot(m: Markers, n: nat): Snapshot {
    Snapshot(m.wm1, m.gen1, 0, [n], m.wm0, m.gen0, n)
  }

  lemma ThirdAttempt(m: Markers) returns (actions: seq<Action>, s: State, n: nat)
    requires Forced(m)
    ensures Leads(START, actions, s) && Watermark(s.log) == m.wm1 && Gen(s) == m.gen1
    ensures PcAt(s, 1) == Built(ForcedSnapshot(m, n)) && PcAt(s, 2).Idle? && ScopeOf(s, 1) == 0
    ensures m.gen0 < m.gen1 ==> exists w: nat :: Invalidated(s.calls, w) && n <= w
    ensures m.wm0 < m.wm1 ==> n < |s.log| && s.log[n].Probe?
  {
    hide Legal, Run, Watermark, Leads;
    var s2;
    actions, s2 := TwoAttempts(m.wm0, m.gen0);
    n := |s2.log|;
    var p, g := m.wm1 - m.wm0, m.gen1 - m.gen0;
    var third := OvertakenAttempt(s2, 1, p, g);
    s := AfterAttempt(s2, 1, p, g);
    LeadsOn(START, actions, s2, third, s);
    actions := actions + third;
    if g > 0 {
      var w: nat := n + p;
      assert w in s.calls[|s2.calls|];
      assert Invalidated(s.calls, w);
    }
  }

  /** The snapshot a request is answered from. */
  ghost function ServedTo(actions: seq<Action>, t: int): Snapshot
    requires Legal(START, actions) && Hit(Run(START, actions), t)
  {
    Run(START, actions).snaps[ScopeOf(Run(START, actions), t)]
  }

  /** A request is answered from a snapshot with these markers. */
  ghost predicate HitOn(actions: seq<Action>, t: int, m: Markers) {
    Legal(START, actions) && Hit(Run(START, actions), t) && MarkersOf(ServedTo(actions, t)) == m
  }

  ghost predicate StaleHit(actions: seq<Action>, t: int, m: Markers) {
    HitOn(actions, t, m) && !IsFresh(Run(START, actions), t, ServedTo(actions, t))
  }

  /** The forced exit can serve stale content, whichever markers moved and however far: the next request takes it as fresh. */
  lemma ForcedExitCanBeStale(m: Markers) returns (actions: seq<Action>)
    requires Forced(m)
    ensures StaleHit(actions, 2, m)
  {
    hide Legal, Run, Watermark, Leads;
    var s, n;
    actions, s, n := ThirdAttempt(m);
    LeadsByOne(START, actions, s, Store(1));
    var s1 := Step(s, Store(1));
    LeadsByOne(START, actions + [Store(1)], s1, Arrive(2, 0, 0));
    actions := actions + [Store(1)] + [Arrive(2, 0, 0)];
    var s2 := Step(s1, Arrive(2, 0, 0));
    LeadsMeans(START, actions, s2);
    assert s2.snaps[0] == ForcedSnapshot(m, n) && Hit(s2, 2);
    ForcedMisses(s2, m, n);
  }

  lemma LeadsMeans(s: State, actions: seq<Action>, s': State)
    requires Leads(s, actions, s')
    ensures Legal(s, actions) && Run(s, actions) == s'
  {
  }

  lemma ForcedMisses(s: State, m: Markers, n: nat)
    requires PcAt(s, 2).Checking? && PcAt(s, 2).asOf == |s.log| && Forced(m)
    requires m.gen0 < m.gen1 ==> exists w: nat :: Invalidated(s.calls, w) && n <= w
    requires m.wm0 < m.wm1 ==> n < |s.log| && s.log[n].Probe?
    ensures !IsFresh(s, 2, ForcedSnapshot(m, n))
  {
    assert ForcedSnapshot(m, n).seen[0] == n;
    if m.gen0 < m.gen1 {
      var w: nat :| Invalidated(s.calls, w) && n <= w;
      assert !Contains([n], w);
    } else {
      assert !Contains([n], n);
    }
  }

  /** Some run serves a snapshot with these markers stale exactly when they moved during a third attempt. */
  lemma StaleExactly(m: Markers)
    ensures (exists actions, t :: StaleHit(actions, t, m)) <==> Forced(m)
  {
    hide Legal, Run, IsFresh, Hit, Forced, Held;
    if Forced(m) {
      var actions := ForcedExitCanBeStale(m);
    }
    if actions, t :| StaleHit(actions, t, m) {
      HitIsStored(actions, t, m);
      if Held(m) { StableHitIsFresh(actions, t); }
    }
  }

  lemma HitIsStored(actions: seq<Action>, t: int, m: Markers)
    requires HitOn(actions, t, m)
    ensures Held(m) || Forced(m)
  {
    hide Legal, Run;
    RunKeeps(START, actions);
    var s := Run(START, actions);
    assert SnapOk(s, s.snaps[ScopeOf(s, t)]);
  }

  /** Some run stores a snapshot with these markers. */
  ghost predicate Stores(actions: seq<Action>, scope: int, m: Markers) {
    Legal(START, actions) && scope in Run(START, actions).snaps && MarkersOf(Run(START, actions).snaps[scope]) == m
  }

  /** For the markers of any stored attempt: every hit on them, in every run, is fresh exactly when they held. */
  lemma FreshExactlyWhenMarkersHeld(stored: seq<Action>, scope: int, m: Markers)
    requires Stores(stored, scope, m)
    ensures (forall actions, t | HitOn(actions, t, m) :: IsFresh(Run(START, actions), t, ServedTo(actions, t))) <==> m.wm0 == m.wm1 && m.gen0 == m.gen1
  {
    hide Legal, Run, IsFresh;
    RunKeeps(START, stored);
    assert SnapOk(Run(START, stored), Run(START, stored).snaps[scope]);
    if Forced(m) {
      var actions := ForcedExitCanBeStale(m);
      assert HitOn(actions, 2, m);
    }
    forall actions, t | HitOn(actions, t, m) && Held(m) ensures IsFresh(Run(START, actions), t, ServedTo(actions, t)) {
      StableHitIsFresh(actions, t);
    }
  }

  // ---------------------------------------------------------------------
  // The cache object

  datatype Entry = Entry(watermark: nat, structGen: nat, hour: int, body: string)
  datatype Found = Fresh(entry: Entry) | Join | Lead
  /** What one attempt reads: both markers, the content, both markers again. seen and start are history. */
  datatype Reading = Reading(wm0: nat, gen0: nat, hour: int, seen: seq<nat>, start: nat, body: string, wm1: nat, gen1: nat)

  function AttemptOf(r: Reading, number: nat): Attempt {
    Attempt(number, r.wm0, r.gen0, r.hour, r.seen, r.start)
  }

  predicate Matches(e: Entry, snap: Snapshot) {
    e.watermark == snap.watermark && e.structGen == snap.structGen && e.hour == snap.hour
  }

  /** world is history: the whole protocol, of which the object's critical sections are steps. */
  class Cache {
    var structGen: nat
    var snaps: map<int, Entry>
    var inflight: set<int>
    ghost var world: State

    constructor ()
      ensures Valid() && world == START
    {
      structGen, snaps, inflight, world := 0, map[], {}, START;
    }

    /** The fields are the protocol's, with the bodies of the snapshots. */
    ghost predicate Valid()
      reads this
    {
      && structGen == Gen(world) && inflight == world.inflight.Keys && snaps.Keys == world.snaps.Keys
      && forall scope | scope in snaps :: Matches(snaps[scope], world.snaps[scope])
    }

    /** Everything outside the critical sections leaves the object alone. */
    ghost method Elsewhere(a: Action)
      requires Valid() && Enabled(world, a) && !a.Invalidate? && !a.Look? && !a.Store?
      modifies this`world
      ensures Valid() && world == Step(old(world), a)
    {
      world := Step(world, a);
    }

    method InvalidateOverview(ghost covers: set<nat>)
      requires Valid() && Enabled(world, Invalidate(covers))
      modifies this`structGen, this`world
      ensures Valid() && world == Step(old(world), Invalidate(covers))
    {
      structGen := structGen + 1;
      world := Step(world, Invalidate(covers));
    }

    /** Serves a snapshot exactly on a hit, and lets one request per scope rebuild. */
    method LookUp(ghost t: int, scope: int, watermark: nat, hour: int) returns (r: Found)
      requires Valid() && Enabled(world, Look(t)) && ScopeOf(world, t) == scope
      requires PcAt(world, t).watermark == watermark && PcAt(world, t).hour == hour
      modifies this`inflight, this`world
      ensures Valid() && world == Step(old(world), Look(t))
      ensures r.Fresh? <==> Hit(old(world), t)
      ensures r.Fresh? ==> scope in snaps && r.entry == snaps[scope]
      ensures r.Lead? <==> PcAt(world, t) == Starting(0)
      ensures r.Join? <==> PcAt(world, t).Waiting?
    {
      world := Step(world, Look(t));
      if scope in snaps && snaps[scope].watermark == watermark && snaps[scope].structGen == structGen && snaps[scope].hour == hour {
        return Fresh(snaps[scope]);
      }
      if scope in inflight {
        return Join;
      }
      inflight := inflight + {scope};
      return Lead;
    }

    method StoreSnapshot(ghost t: int, scope: int, entry: Entry)
      requires Valid() && Enabled(world, Store(t)) && ScopeOf(world, t) == scope && Matches(entry, PcAt(world, t).snap)
      modifies this`snaps, this`inflight, this`world
      ensures Valid() && world == Step(old(world), Store(t))
      ensures scope in snaps && snaps[scope] == entry
    {
      inflight := inflight - {scope};
      snaps := snaps[scope := entry];
      world := Step(world, Store(t));
    }
  }

  /** Goes from attempt to attempt as the protocol does, and returns what the protocol stores. */
  method Rebuild(readings: seq<Reading>) returns (entry: Entry, attempt: nat)
    requires |readings| > LAST_ATTEMPT
    ensures attempt <= LAST_ATTEMPT
    ensures forall i | 0 <= i < attempt :: Close(AttemptOf(readings[i], i), readings[i].wm1, readings[i].gen1) == Starting(i + 1)
    ensures var r := readings[attempt];
      var pc := Close(AttemptOf(r, attempt), r.wm1, r.gen1);
      pc.Built? && Matches(entry, pc.snap) && entry.body == r.body
  {
    attempt := 0;
    while true
      invariant attempt <= LAST_ATTEMPT
      invariant forall i | 0 <= i < attempt :: Close(AttemptOf(readings[i], i), readings[i].wm1, readings[i].gen1) == Starting(i + 1)
      decreases LAST_ATTEMPT - attempt
    {
      var r := readings[attempt];
      if (r.wm0 == r.wm1 && r.gen0 == r.gen1) || attempt >= LAST_ATTEMPT {
        return Entry(r.wm1, r.gen1, r.hour, r.body), attempt;
      }
      attempt := attempt + 1;
    }
  }
}
