/**
 What one probe round writes, read off the log alone: the endpoint's event, its
 vendor's event, the frozen group card and the buffered transition.
 */
module AlertRounds {
  import opened Wrappers
  import opened QuietHours
  import opened Alerts
  import opened AlertDelivery
  import opened AlertState

  /** The newest transition about a subject is a down or a group_down. */
  ghost predicate Alarmed(log: seq<Event>, about: Subject) {
    exists i: nat :: NewestAt(log, about, i) && (log[i].kind == Down || log[i].kind == GroupDown)
  }

  predicate NewestAt(log: seq<Event>, about: Subject, i: nat) {
    && i < |log| && log[i].kind in {Down, Recovered, GroupDown, GroupRecovered} && log[i].about == about
    && forall j | i < j < |log| :: log[j].kind in {Down, Recovered, GroupDown, GroupRecovered} ==> log[j].about != about
  }

  lemma AlarmedIsOpen(log: seq<Event>, about: Subject)
    ensures Alarmed(log, about) <==> IsOpen(log, about)
    ensures forall i: nat :: NewestAt(log, about, i) <==> Latest(log, about) == Some(i)
  {
    hide Latest;
    forall i: nat ensures NewestAt(log, about, i) <==> Latest(log, about) == Some(i) {
      if NewestAt(log, about, i) {
        assert Transition(log[i].kind);
      }
    }
  }

  ghost function AlarmedMembers(log: seq<Event>, ms: seq<Member>): (r: seq<Member>)
    ensures |r| <= |ms|
  {
    if ms == [] then []
    else AlarmedMembers(log, ms[..|ms| - 1]) + if Alarmed(log, Endpoint(ms[|ms| - 1].endpoint)) then [ms[|ms| - 1]] else []
  }

  /** What the vendor's share of alarmed members changes: opened by two that are half of all, closed by less than half. */
  ghost function GroupKindDue(log: seq<Event>, r: Round): Option<Kind> {
    var n := |AlarmedMembers(log, r.members)|;
    if r.family == "" || r.family == "other" || r.members == [] then None
    else if !Alarmed(log, Vendor(r.family)) && n >= 2 && 2 * n >= |r.members| then Some(GroupDown)
    else if Alarmed(log, Vendor(r.family)) && 2 * n < |r.members| then Some(GroupRecovered)
    else None
  }

  /** Three failures in a row alarm an endpoint, fewer end the alarm. */
  ghost function EndpointKindDue(log: seq<Event>, r: Round): Option<Kind> {
    if !Alarmed(log, Endpoint(r.endpoint)) && r.failures >= 3 then Some(Down)
    else if Alarmed(log, Endpoint(r.endpoint)) && r.failures < 3 then Some(Recovered)
    else None
  }

  lemma FlagsAreAlarms(s: State)
    requires CacheOk(s)
    ensures forall e :: EndpointFlag(s, e) == Alarmed(s.log, Endpoint(e))
    ensures forall f :: VendorFlag(s, f) == Alarmed(s.log, Vendor(f))
  {
    hide Alarmed, EndpointFlag, VendorFlag;
    FlagsFromChanges(s);
    forall e ensures EndpointFlag(s, e) == Alarmed(s.log, Endpoint(e)) { OpenInLog(s.log, Endpoint(e)); AlarmedIsOpen(s.log, Endpoint(e)); }
    forall f ensures VendorFlag(s, f) == Alarmed(s.log, Vendor(f)) { OpenInLog(s.log, Vendor(f)); AlarmedIsOpen(s.log, Vendor(f)); }
  }

  lemma {:induction false} FaultyAreAlarmed(s: State, ms: seq<Member>)
    requires CacheOk(s)
    ensures Faulty(s, ms) == AlarmedMembers(s.log, ms)
  {
    hide Alarmed, CacheOk, EndpointFlag;
    if ms != [] {
      FaultyAreAlarmed(s, ms[..|ms| - 1]);
      FlagsAreAlarms(s);
    }
  }

  // ---------------------------------------------------------------------
  // The vendor

  /** A member that came back after its vendor's group was opened. */
  ghost predicate CameBack(log: seq<Event>, family: string, e: int) {
    exists i: nat, j: nat :: NewestAt(log, Vendor(family), i) && NewestAt(log, Endpoint(e), j) && i < j && log[j].kind == Recovered
  }

  ghost function CameBackMembers(log: seq<Event>, family: string, ms: seq<Member>): (r: seq<Member>)
    ensures |r| <= |ms|
  {
    if ms == [] then []
    else CameBackMembers(log, family, ms[..|ms| - 1]) + if CameBack(log, family, ms[|ms| - 1].endpoint) then [ms[|ms| - 1]] else []
  }

  lemma {:induction false} HealedCameBack(s: State, family: string, ms: seq<Member>)
    requires Latest(s.log, Vendor(family)).Some? && forall e :: EndpointFlag(s, e) == Alarmed(s.log, Endpoint(e))
    ensures Since(s, Latest(s.log, Vendor(family)).value, ms) == CameBackMembers(s.log, family, ms)
  {
    hide Latest, EndpointFlag, NewestAt, Alarmed;
    if ms != [] {
      HealedCameBack(s, family, ms[..|ms| - 1]);
      var e := ms[|ms| - 1].endpoint;
      AlarmedIsOpen(s.log, Vendor(family));
      AlarmedIsOpen(s.log, Endpoint(e));
      OneNewest(s, family, e);
    }
  }

  lemma OneNewest(s: State, family: string, e: int)
    requires Latest(s.log, Vendor(family)).Some? && EndpointFlag(s, e) == Alarmed(s.log, Endpoint(e))
    ensures var latest, since := Latest(s.log, Endpoint(e)), Latest(s.log, Vendor(family)).value;
      CameBack(s.log, family, e) <==> !EndpointFlag(s, e) && latest.Some? && s.log[latest.value].kind == Recovered && latest.value > since
  {
    hide Latest, EndpointFlag, NewestAt, Alarmed;
    AlarmedIsOpen(s.log, Vendor(family));
    AlarmedIsOpen(s.log, Endpoint(e));
    var latest, since := Latest(s.log, Endpoint(e)), Latest(s.log, Vendor(family)).value;
    if latest.Some? {
      assert NewestAt(s.log, Endpoint(e), latest.value) && NewestAt(s.log, Vendor(family), since);
    }
  }

  /** The group card, frozen when the group changes: its alarmed members, and on a recovery those that came back. */
  ghost function CardDue(log: seq<Event>, r: Round, kind: Kind): GroupCard {
    GroupCard(|log|, kind, r.family, |r.members|, Refs(AlarmedMembers(log, r.members)),
      if kind == GroupRecovered then Refs(CameBackMembers(log, r.family, r.members)) else [])
  }

  /** The aggregation window fires a minute after its first transition. */
  function FiresAt(w: Window, now: Instant): Option<Instant> {
    Some(if w.firesAt.Some? then w.firesAt.value else now + 60_000_000_000)
  }

  lemma GroupWrites(s: State, r: Round)
    requires CacheOk(s) && r.configured
    ensures var s', kind := EvaluateGroup(s, r), GroupKindDue(s.log, r);
      && s'.delivered == s.delivered && s'.drops == s.drops
      && match kind
         case None => s'.log == s.log && s'.window == s.window
         case Some(k) =>
           && s'.log == s.log + [Event(k, Vendor(r.family), false)]
           && s'.window == Window(s.window.pending, s.window.groups + [CardDue(s.log, r, k)], FiresAt(s.window, r.now))
  {
    hide LearnMembers, Faulty, Alarmed, CacheOk, Since, VendorFlag, Refs, AlarmedMembers, CameBackMembers, EndpointFlag;
    if IsVendor(r.family) && r.members != [] {
      var s0 := LearnVendor(s, r.family);
      var s1 := LearnMembers(s0, r.members);
      LearningAgrees(s, 0, r.family);
      LearningMembers(s0, r.members);
      FlagsAreAlarms(s1);
      FaultyAreAlarmed(s1, r.members);
      var kind := GroupKindDue(s.log, r);
      assert kind == GroupVerdict(VendorFlag(s1, r.family), |Faulty(s1, r.members)|, |r.members|);
      if kind.Some? {
        var s2 := SetVendor(s1, r.family, kind.value == GroupDown);
        FlagsOfEndpoints(s1, s2);
        SameFaulty(s1, s2, r.members);
        AlarmedIsOpen(s.log, Vendor(r.family));
        if kind.value == GroupRecovered { HealedCameBack(s2, r.family, r.members); }
      }
    }
  }

  lemma FlagsOfEndpoints(s: State, s': State)
    requires s'.log == s.log && s'.caches.endpoints == s.caches.endpoints
    ensures forall e :: EndpointFlag(s', e) == EndpointFlag(s, e)
  {
  }

  // ---------------------------------------------------------------------
  // The round

  lemma AlarmedAppend(log: seq<Event>, e: Event, about: Subject)
    requires Transition(e.kind)
    ensures Alarmed(log + [e], about) <==> if e.about == about then Opening(e.kind) else Alarmed(log, about)
  {
    hide Latest;
    AlarmedIsOpen(log, about);
    AlarmedIsOpen(log + [e], about);
    LatestAppend(log, e, about);
  }

  lemma LatestAppend(log: seq<Event>, e: Event, about: Subject)
    requires Transition(e.kind)
    ensures Latest(log + [e], about) == if e.about == about then Some(|log|) else Latest(log, about)
  {
    assert (log + [e])[..|log|] == log;
  }

  /**
   A configured round writes exactly what the log and its failures call for: the endpoint's event, then its vendor's
   event with the frozen card, and it buffers the endpoint's transition, absorbed exactly when the vendor's group
   was open before the round or is open after it. A round that changes nothing writes nothing.
   */
  lemma RoundWrites(s: State, r: Round)
    requires CacheOk(s) && r.configured
    ensures var s' := Apply(s, RoundStep(r));
      && s'.delivered == s.delivered && s'.drops == s.drops
      && match EndpointKindDue(s.log, r)
         case None => s'.log == s.log && s'.window == s.window
         case Some(kind) =>
           var log1 := s.log + [Event(kind, Endpoint(r.endpoint), false)];
           var group := GroupKindDue(log1, r);
           && s'.log == log1 + (if group.None? then [] else [Event(group.value, Vendor(r.family), false)])
           && s'.window.groups == s.window.groups + (if group.None? then [] else [CardDue(log1, r, group.value)])
           && s'.window.pending == s.window.pending
                + [Buffered(|s.log|, kind, r.who, r.family, Alarmed(s.log, Vendor(r.family)) || Alarmed(s'.log, Vendor(r.family)))]
           && s'.window.firesAt == FiresAt(s.window, r.now)
  {
    hide EvaluateGroup, GroupKindDue, CardDue, CacheOk, VendorFlag, EndpointFlag, Alarmed;
    var s1 := LearnEndpoint(s, r.endpoint);
    LearningAgrees(s, r.endpoint, r.family);
    FlagsAreAlarms(s1);
    assert s1.log == s.log;
    assert EndpointKindDue(s.log, r) == RoundVerdict(EndpointFlag(s1, r.endpoint), r.failures);
    match EndpointKindDue(s.log, r)
    case None =>
    case Some(kind) =>
      var e := Event(kind, Endpoint(r.endpoint), false);
      RecordedAgrees(s1, kind, r.endpoint);
      var s2 := Record(SetEndpoint(s1, r.endpoint, kind == Down), e);
      LearningAgrees(s2, 0, r.family);
      var s3 := LearnVendor(s2, r.family);
      GroupWrites(s3, r);
      GroupFollows(s3, r);
      FlagsAreAlarms(s3);
      FlagsAreAlarms(EvaluateGroup(s3, r));
      AlarmedAppend(s.log, e, Vendor(r.family));
  }

  /** While alerting is not configured a round writes and buffers nothing; only cached flags change. */
  lemma UnconfiguredRound(s: State, r: Round)
    requires !r.configured
    ensures var s' := Apply(s, RoundStep(r)); s' == s.(caches := s'.caches)
  {
    hide Faulty, VendorFlag, EndpointFlag, LearnMembers;
    var s1 := LearnEndpoint(s, r.endpoint);
    var verdict := RoundVerdict(EndpointFlag(s1, r.endpoint), r.failures);
    if verdict.Some? {
      var s3 := LearnVendor(SetEndpoint(s1, r.endpoint, verdict.value == Down), r.family);
      LearningMembers(LearnVendor(s3, r.family), r.members);
    }
  }
}
