/** The evaluator object: the same steps, updating its fields in place. */
module AlertObject {
  import opened Wrappers
  import opened QuietHours
  import opened Alerts
  import opened AlertState

  function OkAt(oks: seq<bool>, n: nat): bool {
    n < |oks| && oks[n]
  }

  class Evaluator {
    var log: seq<Event>
    var alerted: map<int, bool>
    var groupAlerted: map<string, bool>
    var pending: seq<Buffered>
    var groupPending: seq<GroupCard>
    var windowFiresAt: Option<Instant>
    var quietScoreDrops: seq<nat>
    ghost var delivered: multiset<nat>

    constructor ()
      ensures Contents() == START
    {
      log, alerted, groupAlerted, pending, groupPending := [], map[], map[], [], [];
      windowFiresAt, quietScoreDrops, delivered := None, [], multiset{};
    }

    ghost function Contents(): State
      reads this
    {
      State(log, Caches(alerted, groupAlerted), Window(pending, groupPending, windowFiresAt), quietScoreDrops, delivered)
    }

    method IsAlerted(e: int) returns (flagged: bool)
      modifies this`alerted
      ensures Contents() == LearnEndpoint(old(Contents()), e) && flagged == EndpointFlag(old(Contents()), e)
    {
      if e in alerted {
        flagged := alerted[e];
        assert alerted[e := flagged] == alerted;
        return;
      }
      flagged := IsOpen(log, Endpoint(e));
      alerted := alerted[e := flagged];
    }

    method IsGroupAlerted(f: string) returns (flagged: bool)
      modifies this`groupAlerted
      ensures Contents() == LearnVendor(old(Contents()), f) && flagged == VendorFlag(old(Contents()), f)
    {
      if f in groupAlerted {
        flagged := groupAlerted[f];
        assert groupAlerted[f := flagged] == groupAlerted;
        return;
      }
      flagged := IsOpen(log, Vendor(f));
      groupAlerted := groupAlerted[f := flagged];
    }

    method CreateAlertEvent(e: Event) returns (id: nat)
      modifies this`log
      ensures Contents() == Record(old(Contents()), e) && id == |old(log)|
    {
      id := |log|;
      log := log + [e];
    }

    method ArmWindow(now: Instant)
      modifies this`windowFiresAt
      ensures Contents() == old(Contents()).(window := Arm(old(Contents()).window, now))
    {
      if windowFiresAt.None? {
        windowFiresAt := Some(now + WINDOW);
      }
    }

    method HandleRound(r: Round)
      modifies this
      ensures Contents() == Alerts.HandleRound(old(Contents()), r)
    {
      hide *;
      RoundUnfolds(Contents(), r);
      var flagged := IsAlerted(r.endpoint);
      VerdictUnfolds(flagged, r.failures);
      FlagLearned(old(Contents()), r.endpoint);
      if !flagged && r.failures >= DOWN_THRESHOLD {
        MakeTransition(r, Down);
      } else if flagged && r.failures < DOWN_THRESHOLD {
        MakeTransition(r, Recovered);
      }
    }

    method MakeTransition(r: Round, kind: Kind)
      modifies this
      ensures Contents() == EndpointTransition(old(Contents()), r, kind)
    {
      hide EvaluateGroup, VendorFlag, Arm, LearnVendor;
      var eventId := 0;
      alerted := alerted[r.endpoint := kind == Down];
      if r.configured {
        eventId := CreateAlertEvent(Event(kind, Endpoint(r.endpoint), false));
      }
      var wasOpen := IsGroupAlerted(r.family);
      FlagOfVendor(old(Contents()), r, kind);
      EvaluateGroupOf(r);
      if !r.configured {
        return;
      }
      var openNow := IsGroupAlerted(r.family);
      pending := pending + [Buffered(eventId, kind, r.who, r.family, wasOpen || openNow)];
      ArmWindow(r.now);
    }

    method EvaluateGroupOf(r: Round)
      modifies this
      ensures Contents() == EvaluateGroup(old(Contents()), r)
    {
      hide Faulty, LearnMembers, GroupTransition;
      if r.family == "" || r.family == OTHER || |r.members| == 0 {
        return;
      }
      var open := IsGroupAlerted(r.family);
      ghost var s0 := Contents();
      var faulty := FaultyMembers(r.members);
      ghost var s1 := Contents();
      LearningMembers(s0, r.members);
      assert VendorFlag(s1, r.family) == open;
      if !open && |faulty| >= GROUP_MIN && 2 * |faulty| >= |r.members| {
        MakeGroupTransition(r, GroupDown, faulty);
      } else if open && 2 * |faulty| < |r.members| {
        MakeGroupTransition(r, GroupRecovered, faulty);
      }
    }

    /** Looks every member's flag up and keeps the open ones. */
    method FaultyMembers(members: seq<Member>) returns (faulty: seq<Member>)
      modifies this`alerted
      ensures Contents() == LearnMembers(old(Contents()), members)
      ensures faulty == Faulty(Contents(), members)
    {
      faulty := [];
      ghost var s := Contents();
      for k := 0 to |members|
        invariant Contents() == LearnMembers(s, members[..k]) && faulty == Faulty(s, members[..k])
        invariant log == s.log && groupAlerted == s.caches.vendors && pending == s.window.pending && groupPending == s.window.groups
        invariant windowFiresAt == s.window.firesAt && quietScoreDrops == s.drops && delivered == s.delivered
      {
        assert members[..k + 1][..k] == members[..k];
        LearningMembers(s, members[..k]);
        var flagged := IsAlerted(members[k].endpoint);
        if flagged {
          faulty := faulty + [members[k]];
        }
      }
      assert members[..|members|] == members;
      LearningMembers(s, members);
      SameFaulty(s, Contents(), members);
    }

    method MakeGroupTransition(r: Round, kind: Kind, faulty: seq<Member>)
      requires faulty == Faulty(Contents(), r.members)
      modifies this
      ensures Contents() == GroupTransition(old(Contents()), r, kind)
    {
      hide Faulty, Since, Arm;
      groupAlerted := groupAlerted[r.family := kind == GroupDown];
      SameFaulty(old(Contents()), Contents(), r.members);
      if !r.configured {
        return;
      }
      var healed: seq<Member> := [];
      if kind == GroupRecovered {
        healed := RecoveredMembers(r.family, r.members, faulty);
      }
      EmptyRefs();
      var id := CreateAlertEvent(Event(kind, Vendor(r.family), false));
      groupPending := groupPending + [GroupCard(id, kind, r.family, |r.members|, Refs(faulty), Refs(healed))];
      ArmWindow(r.now);
    }

    method RecoveredMembers(family: string, members: seq<Member>, faulty: seq<Member>) returns (recovered: seq<Member>)
      requires faulty == Faulty(Contents(), members)
      ensures recovered == RecoveredSince(Contents(), family, members)
    {
      recovered := [];
      var since := Latest(log, Vendor(family));
      if since.None? || !IsOpen(log, Vendor(family)) {
        return;
      }
      var faultyIds := set m | m in faulty :: m.endpoint;
      FaultyAre(Contents(), members);
      for k := 0 to |members|
        invariant recovered == Since(Contents(), since.value, members[..k])
      {
        assert members[..k + 1][..k] == members[..k];
        var m := members[k];
        assert m in members;
        if m.endpoint !in faultyIds {
          var latest := Latest(log, Endpoint(m.endpoint));
          if latest.Some? && log[latest.value].kind == Recovered && latest.value > since.value {
            recovered := recovered + [m];
          }
        }
      }
      assert members[..|members|] == members;
    }

    // ---------------------------------------------------------------------
    // Sending

    /** Writes the result back to the events and records the card. */
    method SendCard(ids: seq<nat>, ok: bool, kind: Kind)
      modifies this`log, this`delivered
      ensures Contents() == Alerts.SendCard(old(Contents()), ids, ok, kind)
    {
      log := Mark(log, ids, ok);
      if ok {
        delivered := delivered + multiset(ids);
      }
      log := log + [Event(kind, Nobody, ok)];
    }

    method Flush(q: Quiet, webhook: bool, oks: seq<bool>, now: Instant)
      modifies this
      ensures Contents() == Alerts.Flush(old(Contents()), q, webhook, oks, now)
    {
      hide Cards, SendCards, UnconfirmedGroups, UnconfirmedTransitions;
      var ts, gs, due := pending, groupPending, windowFiresAt;
      pending, groupPending, windowFiresAt := [], [], None;
      if |ts| == 0 && |gs| == 0 {
        return;
      }
      var firesAt := if due.Some? then due.value else now;
      if q.Active() && (q.Contains(firesAt) || q.Contains(firesAt - WINDOW)) {
        return;
      }
      ghost var transitions, groups := ts, gs;
      ts, gs := DropConfirmed(ts, gs);
      if !webhook {
        return;
      }
      SendAll(gs, ts, oks);
    }

    method DropConfirmed(ts: seq<Buffered>, gs: seq<GroupCard>) returns (ts': seq<Buffered>, gs': seq<GroupCard>)
      ensures ts' == UnconfirmedTransitions(log, ts) && gs' == UnconfirmedGroups(log, gs)
    {
      ts', gs' := [], [];
      for k := 0 to |ts|
        invariant ts' == UnconfirmedTransitions(log, ts[..k])
      {
        assert ts[..k + 1][..k] == ts[..k];
        if !Confirmed(log, ts[k].id) {
          ts' := ts' + [ts[k]];
        }
      }
      for k := 0 to |gs|
        invariant gs' == UnconfirmedGroups(log, gs[..k])
      {
        assert gs[..k + 1][..k] == gs[..k];
        if !Confirmed(log, gs[k].id) {
          gs' := gs' + [gs[k]];
        }
      }
      assert ts[..|ts|] == ts && gs[..|gs|] == gs;
    }

    /** Group cards first, then one card for the downs and one for the recoveries that are left to show. */
    method SendAll(gs: seq<GroupCard>, ts: seq<Buffered>, oks: seq<bool>)
      modifies this`log, this`delivered
      ensures Contents() == SendCards(old(Contents()), Cards(gs, ts), oks)
    {
      hide Covered, SendCards, CardIds, GroupIds, Alerts.SendCard;
      ghost var start := Contents();
      var covered := ReplayCoverage(gs);
      GroupIdsCount(gs);
      SendGroups(gs, oks);
      ghost var sent := GroupIds(gs);
      var down := IdsToShow(gs, ts, covered, Down);
      var n := SendOptional(down, oks, |gs|, start, sent);
      sent := sent + Optional(down);
      var recovered := IdsToShow(gs, ts, covered, Recovered);
      n := SendOptional(recovered, oks, n, start, sent);
    }

    method SendGroups(gs: seq<GroupCard>, oks: seq<bool>)
      modifies this`log, this`delivered
      ensures Contents() == SendCards(old(Contents()), GroupIds(gs), oks)
    {
      hide SendCards, GroupIds, Alerts.SendCard;
      ghost var start := Contents();
      GroupIdsCount(gs);
      SendNothing(start, oks);
      for n := 0 to |gs|
        invariant Contents() == SendCards(start, GroupIds(gs)[..n], oks)
      {
        SendOneMore(start, GroupIds(gs)[..n], [gs[n].id], oks);
        assert GroupIds(gs)[..n + 1] == GroupIds(gs)[..n] + [[gs[n].id]];
        SendCard([gs[n].id], OkAt(oks, n), Batch);
      }
      assert GroupIds(gs)[..|gs|] == GroupIds(gs);
    }

    /** Sends a card unless it would be empty. */
    method SendOptional(ids: seq<nat>, oks: seq<bool>, n: nat, ghost start: State, ghost sent: seq<seq<nat>>) returns (n': nat)
      requires n == |sent| && Contents() == SendCards(start, sent, oks)
      modifies this`log, this`delivered
      ensures n' == |sent + Optional(ids)| && Contents() == SendCards(start, sent + Optional(ids), oks)
    {
      hide SendCards, Alerts.SendCard;
      assert sent + [] == sent;
      if |ids| == 0 {
        return n;
      }
      SendOneMore(start, sent, ids, oks);
      SendCard(ids, OkAt(oks, n), Batch);
      return n + 1;
    }

    method DeliverQuietSummary(webhook: bool, familyOf: map<int, string>, ok: bool)
      modifies this
      ensures Contents() == Summary(old(Contents()), webhook, familyOf, ok)
    {
      if !webhook {
        quietScoreDrops := [];
        return;
      }
      var ids := SummaryAnchors(familyOf);
      ids := ids + quietScoreDrops;
      if |ids| == 0 {
        return;
      }
      SendCard(ids, ok, QuietSummary);
      quietScoreDrops := [];
    }

    /** The open anchors whose story never reached anybody. */
    method SummaryAnchors(familyOf: map<int, string>) returns (ids: seq<nat>)
      ensures ids == SummaryIds(log, familyOf, |log|)
    {
      ids := [];
      for n := 0 to |log|
        invariant ids == SummaryIds(log, familyOf, n)
      {
        if Summarised(log, familyOf, n) {
          ids := ids + [n];
        }
      }
    }

    method HandleScoreDrop(quiet: bool, ok: bool)
      modifies this
      ensures Contents() == HandleDrop(old(Contents()), quiet, ok)
    {
      var id;
      if quiet {
        id := CreateAlertEvent(Event(ScoreDrop, Nobody, false));
        quietScoreDrops := quietScoreDrops + [id];
      } else {
        id := CreateAlertEvent(Event(ScoreDrop, Nobody, ok));
        if ok {
          delivered := delivered + multiset{id};
        }
      }
    }
  }

  /** The faulty members of each family that the group cards leave covered. */
  method ReplayCoverage(gs: seq<GroupCard>) returns (covered: map<string, set<Ref>>)
    ensures forall f: string :: Covered(gs, f) == CoverageOf(covered, f)
  {
    covered := map[];
    for k := 0 to |gs|
      invariant forall f: string :: Covered(gs[..k], f) == CoverageOf(covered, f)
    {
      assert gs[..k + 1][..k] == gs[..k];
      var g := gs[k];
      var members := CoverageOf(covered, g.family);
      if g.kind == GroupDown {
        members := members + (set m | m in g.faulty);
      } else if g.kind == GroupRecovered {
        members := members - (set m | m in g.recovered);
      }
      covered := covered[g.family := members];
    }
    assert gs[..|gs|] == gs;
  }

  function CoverageOf(covered: map<string, set<Ref>>, f: string): set<Ref> {
    if f in covered then covered[f] else {}
  }

  method IdsToShow(gs: seq<GroupCard>, ts: seq<Buffered>, covered: map<string, set<Ref>>, kind: Kind) returns (ids: seq<nat>)
    requires forall f: string :: Covered(gs, f) == CoverageOf(covered, f)
    ensures ids == CardIds(gs, ts, kind)
  {
    hide Covered;
    ids := [];
    for k := 0 to |ts|
      invariant ids == CardIds(gs, ts[..k], kind)
    {
      assert ts[..k + 1][..k] == ts[..k];
      var t := ts[k];
      if t.kind == kind && !t.absorbed && !(t.kind == Down && t.who in CoverageOf(covered, t.family)) {
        ids := ids + [t.id];
      }
    }
    assert ts[..|ts|] == ts;
  }

  lemma RoundUnfolds(s: State, r: Round)
    ensures Alerts.HandleRound(s, r) ==
      match RoundVerdict(EndpointFlag(LearnEndpoint(s, r.endpoint), r.endpoint), r.failures)
      case None => LearnEndpoint(s, r.endpoint)
      case Some(kind) => EndpointTransition(LearnEndpoint(s, r.endpoint), r, kind)
  {
    hide EndpointTransition;
  }

  lemma VerdictUnfolds(open: bool, failures: nat)
    ensures RoundVerdict(open, failures) ==
      if !open && failures >= DOWN_THRESHOLD then Some(Down) else if open && failures < DOWN_THRESHOLD then Some(Recovered) else None
  {
  }

  lemma FlagLearned(s: State, e: int)
    ensures EndpointFlag(LearnEndpoint(s, e), e) == EndpointFlag(s, e)
  {
  }

  /** Looking a vendor's flag up does not change it. */
  lemma FlagOfVendor(s: State, r: Round, kind: Kind)
    ensures forall t: State :: VendorFlag(LearnVendor(t, r.family), r.family) == VendorFlag(t, r.family)
  {
  }

  lemma EmptyRefs()
    ensures Refs([]) == []
  {
  }

  lemma {:induction false} FaultyAre(s: State, members: seq<Member>)
    ensures forall m | m in members :: (exists f :: f in Faulty(s, members) && f.endpoint == m.endpoint) <==> EndpointFlag(s, m.endpoint)
    ensures forall f | f in Faulty(s, members) :: EndpointFlag(s, f.endpoint)
  {
    if members != [] {
      var front, last := members[..|members| - 1], members[|members| - 1];
      FaultyAre(s, front);
      assert members == front + [last];
      forall m | m in members ensures (exists f :: f in Faulty(s, members) && f.endpoint == m.endpoint) <==> EndpointFlag(s, m.endpoint) {
        if EndpointFlag(s, m.endpoint) {
          if m in front {
            var f :| f in Faulty(s, front) && f.endpoint == m.endpoint;
            assert f in Faulty(s, members);
          } else {
            assert last in Faulty(s, members);
          }
        }
      }
    }
  }

  lemma {:induction false} GroupIdsCount(gs: seq<GroupCard>)
    ensures |GroupIds(gs)| == |gs| && forall i | 0 <= i < |gs| :: GroupIds(gs)[i] == [gs[i].id]
  {
    if gs != [] {
      GroupIdsCount(gs[..|gs| - 1]);
    }
  }

  lemma SendNothing(s: State, oks: seq<bool>)
    ensures SendCards(s, [], oks) == s
  {
  }

  lemma SendOneMore(s: State, cards: seq<seq<nat>>, ids: seq<nat>, oks: seq<bool>)
    ensures SendCards(s, cards + [ids], oks) == Alerts.SendCard(SendCards(s, cards, oks), ids, OkAt(oks, |cards|), Batch)
  {
    assert (cards + [ids])[..|cards|] == cards;
  }
}
