/**
 Delivery over whole runs: nothing reaches the webhook twice under its own id,
 confirmations are never taken back, and a flush accounts for every transition.
 */
module AlertDelivery {
  import opened Wrappers
  import opened QuietHours
  import opened Alerts

  predicate Distinct(ids: seq<nat>) {
    forall i, j | 0 <= i < j < |ids| :: ids[i] != ids[j]
  }

  /** Events that report something, unlike the records of cards sent. */
  predicate Reports(k: Kind) {
    Transition(k) || k == ScoreDrop
  }

  /** Every id names a report that has not been confirmed. */
  predicate Undelivered(log: seq<Event>, ids: seq<nat>) {
    forall i | 0 <= i < |ids| :: ids[i] < |log| && Reports(log[ids[i]].kind) && !log[ids[i]].sent
  }

  /** A report is confirmed exactly when it was delivered, and it was delivered at most once. */
  ghost predicate Honest(log: seq<Event>, delivered: multiset<nat>) {
    && (forall id | id in delivered :: id < |log| && Reports(log[id].kind))
    && (forall i: nat | i < |log| && Reports(log[i].kind) :: delivered[i] == if log[i].sent then 1 else 0)
  }

  predicate EndpointKind(k: Kind) { k == Down || k == Recovered }
  predicate GroupKind(k: Kind) { k == GroupDown || k == GroupRecovered }

  /** Buffered transitions stand for events of the log, one each. */
  predicate WindowOk(log: seq<Event>, w: Window) {
    && (forall i | 0 <= i < |w.pending| :: w.pending[i].id < |log| && EndpointKind(log[w.pending[i].id].kind) && log[w.pending[i].id].kind == w.pending[i].kind)
    && DistinctBuffered(w.pending)
    && (forall i | 0 <= i < |w.groups| :: w.groups[i].id < |log| && GroupKind(log[w.groups[i].id].kind) && log[w.groups[i].id].kind == w.groups[i].kind)
    && DistinctCards(w.groups)
  }

  /** Deferred score drops wait for the summary. */
  predicate DropsOk(log: seq<Event>, drops: seq<nat>) {
    Distinct(drops) && forall i | 0 <= i < |drops| :: drops[i] < |log| && log[drops[i]].kind == ScoreDrop && !log[drops[i]].sent
  }

  ghost predicate Fine(s: State) {
    Honest(s.log, s.delivered) && WindowOk(s.log, s.window) && DropsOk(s.log, s.drops)
  }

  /** Events stay in the log as they were recorded, and a confirmation stays a confirmation. */
  predicate Extends(log: seq<Event>, log': seq<Event>) {
    |log| <= |log'| && forall i | 0 <= i < |log| :: log'[i].kind == log[i].kind && log'[i].about == log[i].about && (log[i].sent ==> log'[i].sent)
  }

  // ---------------------------------------------------------------------
  // Sending cards

  lemma CountOf(ids: seq<nat>, id: nat)
    requires Distinct(ids)
    ensures multiset(ids)[id] == if id in ids then 1 else 0
  {
    if ids != [] {
      var n := |ids| - 1;
      CountOf(ids[..n], id);
      assert ids == ids[..n] + [ids[n]];
    }
  }

  lemma CardKeeps(s: State, ids: seq<nat>, ok: bool, kind: Kind)
    requires Honest(s.log, s.delivered) && Distinct(ids) && Undelivered(s.log, ids) && !Reports(kind)
    ensures var s' := SendCard(s, ids, ok, kind);
      && Honest(s'.log, s'.delivered) && Extends(s.log, s'.log) && |s'.log| == |s.log| + 1
      && forall i: nat | i < |s.log| && i !in ids :: s'.log[i] == s.log[i]
  {
    var s' := SendCard(s, ids, ok, kind);
    forall i: nat ensures multiset(ids)[i] == if i in ids then 1 else 0 { CountOf(ids, i); }
    forall id | id in s'.delivered ensures id < |s'.log| && Reports(s'.log[id].kind) {
      if id in ids { var k :| 0 <= k < |ids| && ids[k] == id; }
    }
    forall i: nat | i < |s'.log| && Reports(s'.log[i].kind) ensures s'.delivered[i] == if s'.log[i].sent then 1 else 0 {
      if i in ids { var k :| 0 <= k < |ids| && ids[k] == i; }
    }
  }

  function Flat(cards: seq<seq<nat>>): seq<nat> {
    if cards == [] then [] else Flat(cards[..|cards| - 1]) + cards[|cards| - 1]
  }

  lemma {:induction false} CardsKeep(s: State, cards: seq<seq<nat>>, oks: seq<bool>)
    requires Honest(s.log, s.delivered) && Distinct(Flat(cards)) && Undelivered(s.log, Flat(cards))
    ensures var s' := SendCards(s, cards, oks);
      && Honest(s'.log, s'.delivered) && Extends(s.log, s'.log)
      && s'.drops == s.drops && s'.window == s.window && s'.caches == s.caches
      && forall i: nat | i < |s.log| && i !in Flat(cards) :: s'.log[i] == s.log[i]
  {
    if cards != [] {
      var n := |cards| - 1;
      var front, last := Flat(cards[..n]), cards[n];
      assert Flat(cards) == front + last;
      FrontOf(front, last);
      assert Undelivered(s.log, front) by {
        forall i | 0 <= i < |front| ensures front[i] < |s.log| && Reports(s.log[front[i]].kind) && !s.log[front[i]].sent {
          assert Flat(cards)[i] == front[i];
        }
      }
      CardsKeep(s, cards[..n], oks);
      var s1 := SendCards(s, cards[..n], oks);
      forall i | 0 <= i < |last| ensures last[i] < |s1.log| && Reports(s1.log[last[i]].kind) && !s1.log[last[i]].sent {
        assert Flat(cards)[|front| + i] == last[i];
        assert last[i] in last && last[i] !in front;
      }
      CardKeeps(s1, last, n < |oks| && oks[n], Batch);
    }
  }

  lemma FrontOf(front: seq<nat>, last: seq<nat>)
    requires Distinct(front + last)
    ensures Distinct(front) && Distinct(last) && forall x | x in last :: x !in front
  {
    var all := front + last;
    forall i, j | 0 <= i < j < |front| ensures front[i] != front[j] { assert all[i] != all[j]; }
    forall i, j | 0 <= i < j < |last| ensures last[i] != last[j] { assert all[|front| + i] != all[|front| + j]; }
    forall x | x in last ensures x !in front {
      var j :| 0 <= j < |last| && last[j] == x;
      forall i | 0 <= i < |front| ensures front[i] != x { assert all[i] != all[|front| + j]; }
    }
  }

  // ---------------------------------------------------------------------
  // The ids of a flush

  lemma {:induction false} UnconfirmedIn(log: seq<Event>, ts: seq<Buffered>)
    ensures var r := UnconfirmedTransitions(log, ts);
      forall t :: t in r <==> t in ts && !Confirmed(log, t.id)
  {
    hide Confirmed;
    if ts != [] {
      var n := |ts| - 1;
      UnconfirmedIn(log, ts[..n]);
      assert ts == ts[..n] + [ts[n]];
    }
  }

  predicate DistinctBuffered(ts: seq<Buffered>) {
    forall i, j | 0 <= i < j < |ts| :: ts[i].id != ts[j].id
  }

  lemma {:induction false} UnconfirmedDistinct(log: seq<Event>, ts: seq<Buffered>)
    requires DistinctBuffered(ts)
    ensures DistinctBuffered(UnconfirmedTransitions(log, ts))
  {
    hide Confirmed;
    if ts != [] {
      var n := |ts| - 1;
      UnconfirmedDistinct(log, ts[..n]);
      UnconfirmedIn(log, ts[..n]);
      var front := UnconfirmedTransitions(log, ts[..n]);
      forall i | 0 <= i < |front| ensures front[i].id != ts[n].id {
        assert front[i] in ts[..n];
      }
    }
  }

  lemma UnconfirmedMembers(log: seq<Event>, ts: seq<Buffered>)
    ensures var r := UnconfirmedTransitions(log, ts);
      forall t :: t in r <==> t in ts && !Confirmed(log, t.id)
    ensures DistinctBuffered(ts) ==> DistinctBuffered(UnconfirmedTransitions(log, ts))
  {
    hide UnconfirmedTransitions, DistinctBuffered, Confirmed;
    UnconfirmedIn(log, ts);
    if DistinctBuffered(ts) { UnconfirmedDistinct(log, ts); }
  }

  predicate DistinctCards(gs: seq<GroupCard>) {
    forall i, j | 0 <= i < j < |gs| :: gs[i].id != gs[j].id
  }

  lemma {:induction false} UnconfirmedGroupIn(log: seq<Event>, gs: seq<GroupCard>)
    ensures var r := UnconfirmedGroups(log, gs);
      forall g :: g in r <==> g in gs && !Confirmed(log, g.id)
  {
    hide Confirmed;
    if gs != [] {
      var n := |gs| - 1;
      UnconfirmedGroupIn(log, gs[..n]);
      assert gs == gs[..n] + [gs[n]];
    }
  }

  lemma {:induction false} UnconfirmedGroupDistinct(log: seq<Event>, gs: seq<GroupCard>)
    requires DistinctCards(gs)
    ensures DistinctCards(UnconfirmedGroups(log, gs))
  {
    hide Confirmed;
    if gs != [] {
      var n := |gs| - 1;
      UnconfirmedGroupDistinct(log, gs[..n]);
      UnconfirmedGroupIn(log, gs[..n]);
      var front := UnconfirmedGroups(log, gs[..n]);
      forall i | 0 <= i < |front| ensures front[i].id != gs[n].id {
        assert front[i] in gs[..n];
      }
    }
  }

  lemma UnconfirmedGroupMembers(log: seq<Event>, gs: seq<GroupCard>)
    ensures var r := UnconfirmedGroups(log, gs);
      forall g :: g in r <==> g in gs && !Confirmed(log, g.id)
    ensures DistinctCards(gs) ==> DistinctCards(UnconfirmedGroups(log, gs))
  {
    hide UnconfirmedGroups, DistinctCards, Confirmed;
    UnconfirmedGroupIn(log, gs);
    if DistinctCards(gs) { UnconfirmedGroupDistinct(log, gs); }
  }

  lemma {:induction false} CardIdsAre(gs: seq<GroupCard>, ts: seq<Buffered>, kind: Kind)
    requires forall i, j | 0 <= i < j < |ts| :: ts[i].id != ts[j].id
    ensures Distinct(CardIds(gs, ts, kind))
    ensures forall id :: id in CardIds(gs, ts, kind) <==> exists i :: 0 <= i < |ts| && ts[i].id == id && ts[i].kind == kind && Renders(gs, ts[i])
  {
    if ts != [] {
      var n := |ts| - 1;
      var front, last := ts[..n], ts[n];
      CardIdsAre(gs, front, kind);
      assert last.id !in CardIds(gs, front, kind);
      forall id ensures id in CardIds(gs, ts, kind) <==> exists i :: 0 <= i < |ts| && ts[i].id == id && ts[i].kind == kind && Renders(gs, ts[i]) {
        if i :| 0 <= i < |ts| && ts[i].id == id && ts[i].kind == kind && Renders(gs, ts[i]) {
          assert i < n ==> front[i] == ts[i];
        }
        if id in CardIds(gs, front, kind) {
          var i :| 0 <= i < |front| && front[i].id == id && front[i].kind == kind && Renders(gs, front[i]);
          assert ts[i] == front[i];
        }
      }
    }
  }

  lemma {:induction false} GroupIdsFlat(gs: seq<GroupCard>)
    ensures |Flat(GroupIds(gs))| == |gs| && forall i | 0 <= i < |gs| :: Flat(GroupIds(gs))[i] == gs[i].id
  {
    if gs != [] {
      var n := |gs| - 1;
      GroupIdsFlat(gs[..n]);
      assert GroupIds(gs)[..|GroupIds(gs)| - 1] == GroupIds(gs[..n]);
    }
  }

  lemma FlatOptional(cards: seq<seq<nat>>, ids: seq<nat>)
    ensures Flat(cards + Optional(ids)) == Flat(cards) + ids
  {
    if ids == [] {
      assert cards + Optional(ids) == cards;
      assert Flat(cards) + ids == Flat(cards);
    } else {
      assert (cards + [ids])[..|cards|] == cards;
    }
  }

  /** The cards of a flush: each unconfirmed group event and each rendered transition once. */
  lemma CardsFlat(gs: seq<GroupCard>, ts: seq<Buffered>)
    ensures Flat(Cards(gs, ts)) == Flat(GroupIds(gs)) + CardIds(gs, ts, Down) + CardIds(gs, ts, Recovered)
  {
    FlatOptional(GroupIds(gs), CardIds(gs, ts, Down));
    FlatOptional(GroupIds(gs) + Optional(CardIds(gs, ts, Down)), CardIds(gs, ts, Recovered));
  }

  lemma Joined(a: seq<nat>, b: seq<nat>)
    requires Distinct(a) && Distinct(b) && forall x | x in b :: x !in a
    ensures Distinct(a + b) && forall x :: x in a + b <==> x in a || x in b
  {
    forall i, j | 0 <= i < j < |a + b| ensures (a + b)[i] != (a + b)[j] {
      if i < |a| <= j { assert b[j - |a|] in b && a[i] in a; }
    }
  }

  lemma FlushIds(log: seq<Event>, w: Window)
    requires WindowOk(log, w)
    ensures var gs, ts := UnconfirmedGroups(log, w.groups), UnconfirmedTransitions(log, w.pending);
      Distinct(Flat(Cards(gs, ts))) && Undelivered(log, Flat(Cards(gs, ts)))
  {
    hide Cards, CardIds, GroupIds, UnconfirmedGroups, UnconfirmedTransitions, Flat;
    var gs, ts := UnconfirmedGroups(log, w.groups), UnconfirmedTransitions(log, w.pending);
    UnconfirmedMembers(log, w.pending);
    UnconfirmedGroupMembers(log, w.groups);
    CardIdsAre(gs, ts, Down);
    CardIdsAre(gs, ts, Recovered);
    GroupIdsFlat(gs);
    CardsFlat(gs, ts);
    var g, d, r := Flat(GroupIds(gs)), CardIds(gs, ts, Down), CardIds(gs, ts, Recovered);
    forall i | 0 <= i < |gs| ensures gs[i] in w.groups && !Confirmed(log, gs[i].id) { assert gs[i] in gs; }
    forall i | 0 <= i < |ts| ensures ts[i] in w.pending && !Confirmed(log, ts[i].id) { assert ts[i] in ts; }
    forall x | x in g ensures x < |log| && GroupKind(log[x].kind) && !log[x].sent {
      var i :| 0 <= i < |g| && g[i] == x;
      assert gs[i] in w.groups;
    }
    RenderedIds(log, w, gs, ts, Down);
    RenderedIds(log, w, gs, ts, Recovered);
    Joined(g, d);
    Joined(g + d, r);
    forall i | 0 <= i < |g + d + r| ensures (g + d + r)[i] < |log| && Reports(log[(g + d + r)[i]].kind) && !log[(g + d + r)[i]].sent {
      assert (g + d + r)[i] in g + d + r;
    }
  }

  lemma RenderedIds(log: seq<Event>, w: Window, gs: seq<GroupCard>, ts: seq<Buffered>, kind: Kind)
    requires WindowOk(log, w) && EndpointKind(kind)
    requires forall i | 0 <= i < |ts| :: ts[i] in w.pending && !Confirmed(log, ts[i].id)
    requires forall i, j | 0 <= i < j < |ts| :: ts[i].id != ts[j].id
    ensures forall x | x in CardIds(gs, ts, kind) :: x < |log| && log[x].kind == kind && !log[x].sent
  {
    hide CardIds;
    CardIdsAre(gs, ts, kind);
    forall x | x in CardIds(gs, ts, kind) ensures x < |log| && log[x].kind == kind && !log[x].sent {
      var i :| 0 <= i < |ts| && ts[i].id == x && ts[i].kind == kind && Renders(gs, ts[i]);
      assert ts[i] in w.pending;
    }
  }

  // ---------------------------------------------------------------------
  // Every step

  lemma FlushKeeps(s: State, q: Quiet, webhook: bool, oks: seq<bool>, now: Instant)
    requires Fine(s)
    ensures Fine(Flush(s, q, webhook, oks, now)) && Extends(s.log, Flush(s, q, webhook, oks, now).log)
  {
    hide Cards, SendCards, UnconfirmedGroups, UnconfirmedTransitions, Held, Honest;
    var s1 := s.(window := EMPTY_WINDOW);
    var cards := Cards(UnconfirmedGroups(s.log, s.window.groups), UnconfirmedTransitions(s.log, s.window.pending));
    FlushIds(s.log, s.window);
    CardsKeep(s1, cards, oks);
    var s' := SendCards(s1, cards, oks);
    forall i | 0 <= i < |s.drops| ensures s'.log[s.drops[i]] == s.log[s.drops[i]] {
      FlushSparesDrops(s.log, s.window, s.drops[i]);
    }
  }

  lemma FlushSparesDrops(log: seq<Event>, w: Window, id: nat)
    requires WindowOk(log, w) && id < |log| && log[id].kind == ScoreDrop
    ensures id !in Flat(Cards(UnconfirmedGroups(log, w.groups), UnconfirmedTransitions(log, w.pending)))
  {
    hide Cards, CardIds, GroupIds, UnconfirmedGroups, UnconfirmedTransitions, Flat;
    var gs, ts := UnconfirmedGroups(log, w.groups), UnconfirmedTransitions(log, w.pending);
    UnconfirmedMembers(log, w.pending);
    UnconfirmedGroupMembers(log, w.groups);
    GroupIdsFlat(gs);
    CardsFlat(gs, ts);
    forall i | 0 <= i < |ts| ensures ts[i] in w.pending && !Confirmed(log, ts[i].id) { assert ts[i] in ts; }
    RenderedIds(log, w, gs, ts, Down);
    RenderedIds(log, w, gs, ts, Recovered);
    forall i | 0 <= i < |Flat(GroupIds(gs))| ensures Flat(GroupIds(gs))[i] != id { assert gs[i] in gs; }
  }

  lemma SummaryKeeps(s: State, webhook: bool, familyOf: map<int, string>, ok: bool)
    requires Fine(s)
    ensures Fine(Summary(s, webhook, familyOf, ok)) && Extends(s.log, Summary(s, webhook, familyOf, ok).log)
  {
    hide Honest, Undelivered, SummaryIds;
    SummaryIdsFit(s, familyOf);
    CardKeeps(s, SummaryIds(s.log, familyOf, |s.log|) + s.drops, ok, QuietSummary);
  }

  /** What an end-of-quiet summary tells: distinct events, none of them confirmed. */
  lemma SummaryIdsFit(s: State, familyOf: map<int, string>)
    requires Fine(s)
    ensures var ids := SummaryIds(s.log, familyOf, |s.log|) + s.drops;
      Distinct(ids) && Undelivered(s.log, ids)
  {
    hide Summarised, Honest, SummaryIds;
    var anchors := SummaryIds(s.log, familyOf, |s.log|);
    AnchorsDistinct(s.log, familyOf, |s.log|);
    AnchorsUnsent(s.log, familyOf);
    var ids := anchors + s.drops;
    forall x | x in s.drops ensures x !in anchors {
      var i :| 0 <= i < |s.drops| && s.drops[i] == x;
    }
    Joined(anchors, s.drops);
    forall i | 0 <= i < |ids| ensures ids[i] < |s.log| && Reports(s.log[ids[i]].kind) && !s.log[ids[i]].sent {
      if i < |anchors| { assert ids[i] in anchors; } else { assert ids[i] == s.drops[i - |anchors|]; }
    }
  }

  lemma {:induction false} AnchorsDistinct(log: seq<Event>, familyOf: map<int, string>, n: nat)
    requires n <= |log|
    ensures Distinct(SummaryIds(log, familyOf, n))
  {
    hide Summarised;
    if n > 0 {
      AnchorsDistinct(log, familyOf, n - 1);
      assert n - 1 !in SummaryIds(log, familyOf, n - 1);
    }
  }

  lemma AnchorsUnsent(log: seq<Event>, familyOf: map<int, string>)
    ensures forall i | i in SummaryIds(log, familyOf, |log|) :: i < |log| && Transition(log[i].kind) && !log[i].sent
  {
  }

  lemma DropKeeps(s: State, quiet: bool, ok: bool)
    requires Fine(s)
    ensures Fine(HandleDrop(s, quiet, ok)) && Extends(s.log, HandleDrop(s, quiet, ok).log)
  {
    var s' := HandleDrop(s, quiet, ok);
    assert forall i | 0 <= i < |s.log| :: s'.log[i] == s.log[i];
    assert |s.log| !in s.delivered;
  }

  lemma RecordKeeps(s: State, e: Event)
    requires Fine(s) && Transition(e.kind) && !e.sent
    ensures Fine(Record(s, e)) && Extends(s.log, Record(s, e).log)
  {
    assert |s.log| !in s.delivered;
  }

  /** The log, the buffers and the deliveries do not see cache lookups. */
  lemma {:induction false} LearningTouchesCachesOnly(s: State, ms: seq<Member>)
    ensures LearnMembers(s, ms) == s.(caches := LearnMembers(s, ms).caches)
  {
    if ms != [] {
      LearningTouchesCachesOnly(s, ms[..|ms| - 1]);
    }
  }

  lemma GroupKeeps(s: State, r: Round)
    requires Fine(s)
    ensures var s' := EvaluateGroup(s, r);
      Fine(s') && Extends(s.log, s'.log) && s'.window.pending == s.window.pending
  {
    hide Honest, Faulty, RecoveredSince, LearnMembers, GroupVerdict, VendorFlag, Refs;
    if IsVendor(r.family) && r.members != [] {
      var s1 := LearnMembers(LearnVendor(s, r.family), r.members);
      LearningTouchesCachesOnly(LearnVendor(s, r.family), r.members);
      match GroupVerdict(VendorFlag(s1, r.family), |Faulty(s1, r.members)|, |r.members|)
      case None =>
      case Some(kind) =>
        GroupVerdictKind(VendorFlag(s1, r.family), |Faulty(s1, r.members)|, |r.members|);
        RecordKeeps(SetVendor(s1, r.family, kind == GroupDown), Event(kind, Vendor(r.family), false));
    }
  }

  lemma GroupVerdictKind(open: bool, faulty: nat, members: nat)
    ensures GroupVerdict(open, faulty, members).Some? ==> GroupKind(GroupVerdict(open, faulty, members).value)
  {
  }

  lemma RoundKeeps(s: State, r: Round)
    requires Fine(s)
    ensures Fine(HandleRound(s, r)) && Extends(s.log, HandleRound(s, r).log)
  {
    hide Honest, EvaluateGroup, EndpointFlag, VendorFlag;
    var s1 := LearnEndpoint(s, r.endpoint);
    match RoundVerdict(EndpointFlag(s1, r.endpoint), r.failures)
    case None =>
    case Some(kind) =>
      var s2 := SetEndpoint(s1, r.endpoint, kind == Down);
      RecordKeeps(s2, Event(kind, Endpoint(r.endpoint), false));
      var s3 := LearnVendor(if r.configured then Record(s2, Event(kind, Endpoint(r.endpoint), false)) else s2, r.family);
      GroupKeeps(s3, r);
  }

  lemma StepKeeps(s: State, step: Step)
    requires Fine(s)
    ensures Fine(Apply(s, step)) && Extends(s.log, Apply(s, step).log)
  {
    hide HandleRound, Flush, Summary, HandleDrop, Honest;
    match step
    case RoundStep(r) => RoundKeeps(s, r);
    case FlushStep(q, webhook, oks, at) => FlushKeeps(s, q, webhook, oks, at);
    case SummaryStep(webhook, familyOf, ok) => SummaryKeeps(s, webhook, familyOf, ok);
    case DropStep(quiet, ok) => DropKeeps(s, quiet, ok);
    case RestartStep =>
  }

  lemma {:induction false} RunKeeps(steps: seq<Step>)
    ensures Fine(Run(START, steps))
  {
    hide Fine, Apply;
    if steps == [] {
      StartFine();
    } else {
      RunKeeps(steps[..|steps| - 1]);
      StepKeeps(Run(START, steps[..|steps| - 1]), steps[|steps| - 1]);
    }
  }

  lemma StartFine()
    ensures Fine(START)
  {
  }

  /** Over any run nothing is delivered twice under its own id, and a report is confirmed exactly when it was delivered. */
  lemma DeliveredOnce(steps: seq<Step>, id: nat)
    ensures var s := Run(START, steps);
      && s.delivered[id] <= 1
      && (id < |s.log| && Reports(s.log[id].kind) ==> (s.log[id].sent <==> s.delivered[id] == 1))
  {
    hide Run, WindowOk, DropsOk;
    RunKeeps(steps);
    var s := Run(START, steps);
    if id in s.delivered { assert id < |s.log|; }
  }

  /** Over any run events keep their place and kind and a confirmation is never taken back. */
  lemma {:induction false} ConfirmationsStay(steps: seq<Step>, more: seq<Step>)
    ensures Extends(Run(START, steps).log, Run(START, steps + more).log)
  {
    hide Fine, Apply, Run;
    if more == [] {
      assert steps + more == steps;
    } else {
      var n := |more| - 1;
      ConfirmationsStay(steps, more[..n]);
      RunKeeps(steps + more[..n]);
      StepKeeps(Run(START, steps + more[..n]), more[n]);
      RunLast(steps + more[..n], more[n]);
      assert steps + more == steps + more[..n] + [more[n]];
    }
  }

  lemma RunLast(steps: seq<Step>, step: Step)
    ensures Run(START, steps + [step]) == Apply(Run(START, steps), step)
  {
    assert (steps + [step])[..|steps|] == steps;
  }

  // ---------------------------------------------------------------------
  // What a flush does with each transition

  predicate Tells(g: GroupCard, family: string, m: Ref) {
    g.family == family && g.kind == GroupDown && m in g.faulty
  }

  predicate Revokes(g: GroupCard, family: string, m: Ref) {
    g.family == family && g.kind == GroupRecovered && m in g.recovered
  }

  predicate RevokedAfter(gs: seq<GroupCard>, i: nat, family: string, m: Ref) {
    exists j :: i < j < |gs| && Revokes(gs[j], family, m)
  }

  /** Some group_down card lists the member as faulty and no later group_recovered card lists it as recovered. */
  predicate Told(gs: seq<GroupCard>, family: string, m: Ref) {
    exists i: nat :: i < |gs| && Tells(gs[i], family, m) && !RevokedAfter(gs, i, family, m)
  }

  lemma ToldFront(gs: seq<GroupCard>, family: string, m: Ref)
    requires gs != []
    ensures Told(gs, family, m) <==>
      Tells(gs[|gs| - 1], family, m) || (Told(gs[..|gs| - 1], family, m) && !Revokes(gs[|gs| - 1], family, m))
  {
    hide Tells, Revokes;
    var n := |gs| - 1;
    var front := gs[..n];
    forall i: nat | i < n ensures RevokedAfter(gs, i, family, m) <==> RevokedAfter(front, i, family, m) || Revokes(gs[n], family, m) {
      if j :| i < j < |front| && Revokes(front[j], family, m) { assert gs[j] == front[j]; }
      if j :| i < j < |gs| && Revokes(gs[j], family, m) { assert j < n ==> front[j] == gs[j]; }
    }
    if i: nat :| i < |gs| && Tells(gs[i], family, m) && !RevokedAfter(gs, i, family, m) {
      assert i < n ==> front[i] == gs[i];
    }
    if i: nat :| i < |front| && Tells(front[i], family, m) && !RevokedAfter(front, i, family, m) {
      assert gs[i] == front[i];
    }
    assert !RevokedAfter(gs, n, family, m);
  }

  /** The coverage replay is decided by the last group card of the family that mentions the member. */
  lemma {:induction false} CoveredExactly(gs: seq<GroupCard>, family: string, m: Ref)
    ensures m in Covered(gs, family) <==> Told(gs, family, m)
  {
    hide Told, RevokedAfter;
    if gs == [] {
      NothingTold(family, m);
    } else {
      CoveredExactly(gs[..|gs| - 1], family, m);
      ToldFront(gs, family, m);
    }
  }

  lemma NothingTold(family: string, m: Ref)
    ensures !Told([], family, m)
  {
  }

  function Ones(a: bool, b: bool, c: bool, d: bool): nat {
    (if a then 1 else 0) + (if b then 1 else 0) + (if c then 1 else 0) + (if d then 1 else 0)
  }

  /**
   Every unconfirmed transition meets exactly one fate: absorbed by its group when decided, covered by a group
   card of this flush, on the down card, or on the recovered card. A recovery that was not absorbed is always shown.
   */
  lemma FlushAccounting(log: seq<Event>, w: Window, t: Buffered)
    requires WindowOk(log, w) && t in w.pending && !Confirmed(log, t.id)
    ensures var gs, ts := UnconfirmedGroups(log, w.groups), UnconfirmedTransitions(log, w.pending);
      var covered := !t.absorbed && t.kind == Down && Told(gs, t.family, t.who);
      var down, recovered := t.id in CardIds(gs, ts, Down), t.id in CardIds(gs, ts, Recovered);
      && Ones(t.absorbed, covered, down, recovered) == 1
      && (down ==> t.kind == Down) && (recovered ==> t.kind == Recovered)
      && (t.kind == Recovered && !t.absorbed ==> recovered)
  {
    hide CardIds, Covered, UnconfirmedGroups, UnconfirmedTransitions, Told;
    var gs, ts := UnconfirmedGroups(log, w.groups), UnconfirmedTransitions(log, w.pending);
    UnconfirmedMembers(log, w.pending);
    CoveredExactly(gs, t.family, t.who);
    CardIdsAre(gs, ts, Down);
    CardIdsAre(gs, ts, Recovered);
    assert t in ts;
    var k :| 0 <= k < |ts| && ts[k] == t;
    forall i | 0 <= i < |ts| && ts[i].id == t.id ensures ts[i] == t {}
  }
}
