/**
 The flags behind the alerts: the caches agree with the log, restarts leave the
 sequence of transitions as it is, transitions alternate, and groups follow
 their thresholds.
 */
module AlertState {
  import opened Wrappers
  import opened QuietHours
  import opened Alerts

  // ---------------------------------------------------------------------
  // The transitions of a log

  datatype Change = Change(kind: Kind, about: Subject)

  function Changes(log: seq<Event>): seq<Change> {
    if log == [] then []
    else
      var e := log[|log| - 1];
      Changes(log[..|log| - 1]) + (if Transition(e.kind) then [Change(e.kind, e.about)] else [])
  }

  /** Whether the changes leave a subject's alert open. */
  predicate Open(cs: seq<Change>, s: Subject) {
    cs != [] && if cs[|cs| - 1].about == s then Opening(cs[|cs| - 1].kind) else Open(cs[..|cs| - 1], s)
  }

  lemma {:induction false} OpenInLog(log: seq<Event>, s: Subject)
    ensures IsOpen(log, s) == Open(Changes(log), s)
  {
    if log != [] {
      var front, e := log[..|log| - 1], log[|log| - 1];
      OpenInLog(front, s);
      if Transition(e.kind) {
        assert Changes(log)[..|Changes(log)| - 1] == Changes(front);
      } else {
        assert Changes(log) == Changes(front);
      }
    }
  }

  lemma ChangesAppend(log: seq<Event>, e: Event)
    ensures Changes(log + [e]) == Changes(log) + (if Transition(e.kind) then [Change(e.kind, e.about)] else [])
  {
    assert (log + [e])[..|log|] == log;
  }

  lemma OpenAppend(cs: seq<Change>, c: Change, s: Subject)
    ensures Open(cs + [c], s) == if c.about == s then Opening(c.kind) else Open(cs, s)
  {
    assert (cs + [c])[..|cs|] == cs;
  }

  /** Confirming events changes no transition. */
  lemma {:induction false} ChangesIgnoreConfirmation(log: seq<Event>, log': seq<Event>)
    requires |log'| == |log| && forall i | 0 <= i < |log| :: log'[i].kind == log[i].kind && log'[i].about == log[i].about
    ensures Changes(log') == Changes(log)
  {
    if log != [] {
      ChangesIgnoreConfirmation(log[..|log| - 1], log'[..|log| - 1]);
    }
  }

  lemma CardChangesNothing(s: State, ids: seq<nat>, ok: bool, kind: Kind)
    requires !Transition(kind)
    ensures Changes(SendCard(s, ids, ok, kind).log) == Changes(s.log)
  {
    ChangesAppend(Mark(s.log, ids, ok), Event(kind, Nobody, ok));
    ChangesIgnoreConfirmation(s.log, Mark(s.log, ids, ok));
    assert Changes(s.log) + [] == Changes(s.log);
  }

  lemma {:induction false} CardsChangeNothing(s: State, cards: seq<seq<nat>>, oks: seq<bool>)
    ensures var s' := SendCards(s, cards, oks);
      Changes(s'.log) == Changes(s.log) && s'.caches == s.caches
  {
    if cards != [] {
      var n := |cards| - 1;
      CardsChangeNothing(s, cards[..n], oks);
      CardChangesNothing(SendCards(s, cards[..n], oks), cards[n], n < |oks| && oks[n], Batch);
    }
  }

  // ---------------------------------------------------------------------
  // Caches

  /** Every cached flag is what the changes say. */
  predicate Agrees(caches: Caches, cs: seq<Change>) {
    && (forall e | e in caches.endpoints :: caches.endpoints[e] == Open(cs, Endpoint(e)))
    && (forall f | f in caches.vendors :: caches.vendors[f] == Open(cs, Vendor(f)))
  }

  predicate CacheOk(s: State) {
    Agrees(s.caches, Changes(s.log))
  }

  lemma FlagsFromChanges(s: State)
    requires CacheOk(s)
    ensures forall e :: EndpointFlag(s, e) == Open(Changes(s.log), Endpoint(e))
    ensures forall f :: VendorFlag(s, f) == Open(Changes(s.log), Vendor(f))
  {
    forall e ensures EndpointFlag(s, e) == Open(Changes(s.log), Endpoint(e)) { OpenInLog(s.log, Endpoint(e)); }
    forall f ensures VendorFlag(s, f) == Open(Changes(s.log), Vendor(f)) { OpenInLog(s.log, Vendor(f)); }
  }

  lemma LearningAgrees(s: State, e: int, f: string)
    requires CacheOk(s)
    ensures CacheOk(LearnEndpoint(s, e)) && CacheOk(LearnVendor(s, f))
  {
    FlagsFromChanges(s);
  }

  lemma {:induction false} LearningMembers(s: State, ms: seq<Member>)
    ensures LearnMembers(s, ms) == s.(caches := LearnMembers(s, ms).caches)
    ensures LearnMembers(s, ms).caches.vendors == s.caches.vendors
    ensures forall e :: EndpointFlag(LearnMembers(s, ms), e) == EndpointFlag(s, e)
    ensures forall m | m in ms :: m.endpoint in LearnMembers(s, ms).caches.endpoints
    ensures forall e | e in s.caches.endpoints :: e in LearnMembers(s, ms).caches.endpoints
    ensures CacheOk(s) ==> CacheOk(LearnMembers(s, ms))
  {
    if ms != [] {
      var front := ms[..|ms| - 1];
      LearningMembers(s, front);
      assert ms == front + [ms[|ms| - 1]];
      if CacheOk(s) { LearningAgrees(LearnMembers(s, front), ms[|ms| - 1].endpoint, ""); }
    }
  }

  /** Recording a change and setting its flag keeps cache and log together. */
  lemma RecordedAgrees(s: State, kind: Kind, e: int)
    requires CacheOk(s) && (kind == Down || kind == Recovered)
    ensures CacheOk(Record(SetEndpoint(s, e, kind == Down), Event(kind, Endpoint(e), false)))
  {
    hide Open, Changes;
    ChangesAppend(s.log, Event(kind, Endpoint(e), false));
    forall subject ensures Open(Changes(s.log) + [Change(kind, Endpoint(e))], subject) == if subject == Endpoint(e) then Opening(kind) else Open(Changes(s.log), subject) {
      OpenAppend(Changes(s.log), Change(kind, Endpoint(e)), subject);
    }
  }

  lemma RecordedGroupAgrees(s: State, kind: Kind, f: string)
    requires CacheOk(s) && (kind == GroupDown || kind == GroupRecovered)
    ensures CacheOk(Record(SetVendor(s, f, kind == GroupDown), Event(kind, Vendor(f), false)))
  {
    hide Open, Changes;
    ChangesAppend(s.log, Event(kind, Vendor(f), false));
    forall subject ensures Open(Changes(s.log) + [Change(kind, Vendor(f))], subject) == if subject == Vendor(f) then Opening(kind) else Open(Changes(s.log), subject) {
      OpenAppend(Changes(s.log), Change(kind, Vendor(f)), subject);
    }
  }

  // ---------------------------------------------------------------------
  // A round as a function of the changes so far

  function OpenMembers(cs: seq<Change>, ms: seq<Member>): nat {
    if ms == [] then 0
    else OpenMembers(cs, ms[..|ms| - 1]) + if Open(cs, Endpoint(ms[|ms| - 1].endpoint)) then 1 else 0
  }

  lemma {:induction false} FaultyCount(s: State, ms: seq<Member>)
    requires CacheOk(s)
    ensures |Faulty(s, ms)| == OpenMembers(Changes(s.log), ms)
  {
    if ms != [] {
      FaultyCount(s, ms[..|ms| - 1]);
      FlagsFromChanges(s);
    }
  }

  function GroupChange(cs: seq<Change>, r: Round): seq<Change> {
    if !IsVendor(r.family) || r.members == [] then cs
    else match GroupVerdict(Open(cs, Vendor(r.family)), OpenMembers(cs, r.members), |r.members|)
      case None => cs
      case Some(kind) => cs + [Change(kind, Vendor(r.family))]
  }

  function RoundChange(cs: seq<Change>, r: Round): seq<Change> {
    match RoundVerdict(Open(cs, Endpoint(r.endpoint)), r.failures)
    case None => cs
    case Some(kind) => GroupChange(cs + [Change(kind, Endpoint(r.endpoint))], r)
  }

  lemma GroupFollows(s: State, r: Round)
    requires CacheOk(s) && r.configured
    ensures CacheOk(EvaluateGroup(s, r)) && Changes(EvaluateGroup(s, r).log) == GroupChange(Changes(s.log), r)
  {
    hide LearnMembers, Faulty, RecoveredSince, OpenMembers, Open, VendorFlag, Refs;
    if IsVendor(r.family) && r.members != [] {
      var s0 := LearnVendor(s, r.family);
      var s1 := LearnMembers(s0, r.members);
      LearningAgrees(s, 0, r.family);
      LearningMembers(s0, r.members);
      FlagsFromChanges(s1);
      FaultyCount(s1, r.members);
      match GroupVerdict(VendorFlag(s1, r.family), |Faulty(s1, r.members)|, |r.members|)
      case None =>
      case Some(kind) =>
        RecordedGroupAgrees(s1, kind, r.family);
        ChangesAppend(s1.log, Event(kind, Vendor(r.family), false));
    }
  }

  lemma RoundFollows(s: State, r: Round)
    requires CacheOk(s) && r.configured
    ensures CacheOk(HandleRound(s, r)) && Changes(HandleRound(s, r).log) == RoundChange(Changes(s.log), r)
  {
    hide EvaluateGroup, GroupChange, Open, VendorFlag;
    var s1 := LearnEndpoint(s, r.endpoint);
    LearningAgrees(s, r.endpoint, r.family);
    FlagsFromChanges(s1);
    match RoundVerdict(EndpointFlag(s1, r.endpoint), r.failures)
    case None =>
    case Some(kind) =>
      RecordedAgrees(s1, kind, r.endpoint);
      ChangesAppend(s1.log, Event(kind, Endpoint(r.endpoint), false));
      var s2 := Record(SetEndpoint(s1, r.endpoint, kind == Down), Event(kind, Endpoint(r.endpoint), false));
      LearningAgrees(s2, 0, r.family);
      var s3 := LearnVendor(s2, r.family);
      GroupFollows(s3, r);
      LearningAgrees(EvaluateGroup(s3, r), 0, r.family);
  }

  // ---------------------------------------------------------------------
  // Whole runs

  predicate Configured(steps: seq<Step>) {
    forall i | 0 <= i < |steps| :: steps[i].RoundStep? ==> steps[i].r.configured
  }

  function Rounds(steps: seq<Step>): seq<Round> {
    if steps == [] then []
    else Rounds(steps[..|steps| - 1]) + (if steps[|steps| - 1].RoundStep? then [steps[|steps| - 1].r] else [])
  }

  function RoundsChange(rs: seq<Round>): seq<Change> {
    if rs == [] then [] else RoundChange(RoundsChange(rs[..|rs| - 1]), rs[|rs| - 1])
  }

  lemma OtherStepsChangeNothing(s: State, step: Step)
    requires CacheOk(s) && !step.RoundStep?
    ensures CacheOk(Apply(s, step)) && Changes(Apply(s, step).log) == Changes(s.log)
  {
    hide Open, Cards, SendCard, SummaryIds, UnconfirmedGroups, UnconfirmedTransitions;
    match step
    case FlushStep(q, webhook, oks, at) =>
      CardsChangeNothing(s.(window := EMPTY_WINDOW), Cards(UnconfirmedGroups(s.log, s.window.groups), UnconfirmedTransitions(s.log, s.window.pending)), oks);
    case SummaryStep(webhook, familyOf, ok) =>
      SummaryChangesNothing(s, webhook, familyOf, ok);
    case DropStep(quiet, ok) =>
      ChangesAppend(s.log, Event(ScoreDrop, Nobody, false));
      ChangesAppend(s.log, Event(ScoreDrop, Nobody, ok));
      assert Changes(s.log) + [] == Changes(s.log);
    case RestartStep =>
    case RoundStep(_) =>
  }

  lemma SummaryChangesNothing(s: State, webhook: bool, familyOf: map<int, string>, ok: bool)
    ensures Changes(Summary(s, webhook, familyOf, ok).log) == Changes(s.log) && Summary(s, webhook, familyOf, ok).caches == s.caches
  {
    hide SummaryIds;
    CardChangesNothing(s, SummaryIds(s.log, familyOf, |s.log|) + s.drops, ok, QuietSummary);
  }

  /** While alerting stays configured, caches and log agree after every step and the changes depend on the rounds alone. */
  lemma {:induction false} RunFollows(steps: seq<Step>)
    requires Configured(steps)
    ensures CacheOk(Run(START, steps)) && Changes(Run(START, steps).log) == RoundsChange(Rounds(steps))
  {
    hide Apply, CacheOk, RoundChange;
    if steps == [] {
      StartAgrees();
    } else {
      var n := |steps| - 1;
      RunFollows(steps[..n]);
      var s := Run(START, steps[..n]);
      if steps[n].RoundStep? {
        RoundFollows(s, steps[n].r);
        RoundApplies(s, steps[n].r);
        assert Rounds(steps)[..|Rounds(steps)| - 1] == Rounds(steps[..n]);
      } else {
        OtherStepsChangeNothing(s, steps[n]);
        assert Rounds(steps) == Rounds(steps[..n]);
      }
    }
  }

  lemma StartAgrees()
    ensures CacheOk(START) && Changes(START.log) == []
  {
  }

  lemma RoundApplies(s: State, r: Round)
    ensures Apply(s, RoundStep(r)) == HandleRound(s, r)
  {
  }

  /** Restarting anywhere, any number of times, leaves the sequence of transitions as it is; so do flushes, summaries and score drops. */
  lemma RestartTransparent(steps: seq<Step>, steps': seq<Step>)
    requires Configured(steps) && Configured(steps') && Rounds(steps) == Rounds(steps')
    ensures Changes(Run(START, steps).log) == Changes(Run(START, steps').log)
  {
    RunFollows(steps);
    RunFollows(steps');
  }

  /** A round keeps cache and log together exactly when alerting is configured or the round changes nothing. */
  lemma CacheStaysExactly(s: State, r: Round)
    requires CacheOk(s)
    ensures CacheOk(HandleRound(s, r)) <==> r.configured || RoundVerdict(EndpointFlag(s, r.endpoint), r.failures).None?
  {
    hide Open, Changes, VendorFlag;
    var s1 := LearnEndpoint(s, r.endpoint);
    LearningAgrees(s, r.endpoint, "");
    FlagsFromChanges(s);
    if r.configured {
      RoundFollows(s, r);
    } else if RoundVerdict(EndpointFlag(s, r.endpoint), r.failures).Some? {
      var kind := RoundVerdict(EndpointFlag(s, r.endpoint), r.failures).value;
      UnconfiguredKeepsLog(LearnVendor(SetEndpoint(s1, r.endpoint, kind == Down), r.family), r);
      assert r.endpoint in HandleRound(s, r).caches.endpoints;
      assert HandleRound(s, r).caches.endpoints[r.endpoint] != Open(Changes(s.log), Endpoint(r.endpoint));
    }
  }

  /** Without configuration a group evaluation writes no event and forgets no cached flag. */
  lemma UnconfiguredKeepsLog(s: State, r: Round)
    requires !r.configured
    ensures var s' := EvaluateGroup(s, r);
      s'.log == s.log && forall e | e in s.caches.endpoints :: e in s'.caches.endpoints && s'.caches.endpoints[e] == s.caches.endpoints[e]
  {
    hide Faulty, VendorFlag, LearnMembers;
    if IsVendor(r.family) && r.members != [] {
      LearningMembers(LearnVendor(s, r.family), r.members);
      forall e | e in s.caches.endpoints ensures LearnMembers(LearnVendor(s, r.family), r.members).caches.endpoints[e] == s.caches.endpoints[e] {
        assert EndpointFlag(LearnMembers(LearnVendor(s, r.family), r.members), e) == EndpointFlag(LearnVendor(s, r.family), e);
      }
    }
  }

  // ---------------------------------------------------------------------
  // Alternation

  /** Every change opens a closed subject or closes an open one. */
  predicate Alternates(cs: seq<Change>) {
    forall k | 0 <= k < |cs| :: Opening(cs[k].kind) <==> !Open(cs[..k], cs[k].about)
  }

  lemma AlternatesAppend(cs: seq<Change>, c: Change)
    requires Alternates(cs) && (Opening(c.kind) <==> !Open(cs, c.about))
    ensures Alternates(cs + [c])
  {
    forall k | 0 <= k < |cs + [c]| ensures Opening((cs + [c])[k].kind) <==> !Open((cs + [c])[..k], (cs + [c])[k].about) {
      assert k <= |cs| && (cs + [c])[..k] == cs[..k];
      assert cs[..|cs|] == cs;
    }
  }

  lemma {:induction false} RoundsAlternate(rs: seq<Round>)
    ensures Alternates(RoundsChange(rs))
  {
    hide Alternates, Open, OpenMembers;
    if rs == [] {
      assert Alternates([]) by { NothingAlternates(); }
    } else {
      var r := rs[|rs| - 1];
      var cs := RoundsChange(rs[..|rs| - 1]);
      RoundsAlternate(rs[..|rs| - 1]);
      match RoundVerdict(Open(cs, Endpoint(r.endpoint)), r.failures)
      case None =>
      case Some(kind) =>
        AlternatesAppend(cs, Change(kind, Endpoint(r.endpoint)));
        var c1 := cs + [Change(kind, Endpoint(r.endpoint))];
        match GroupVerdict(Open(c1, Vendor(r.family)), OpenMembers(c1, r.members), |r.members|)
        case None =>
        case Some(gkind) => AlternatesAppend(c1, Change(gkind, Vendor(r.family)));
    }
  }

  lemma NothingAlternates()
    ensures Alternates([])
  {
  }

  lemma {:induction false} OpenUntouched(cs: seq<Change>, i: nat, k: nat)
    requires i < k <= |cs| && forall j | i < j < k :: cs[j].about != cs[i].about
    ensures Open(cs[..k], cs[i].about) == Opening(cs[i].kind)
    decreases k
  {
    assert cs[..k][..k - 1] == cs[..k - 1];
    if i < k - 1 {
      OpenUntouched(cs, i, k - 1);
    }
  }

  lemma {:induction false} NeverOpened(cs: seq<Change>, s: Subject, k: nat)
    requires k <= |cs| && forall j | 0 <= j < k :: cs[j].about != s
    ensures !Open(cs[..k], s)
  {
    if k > 0 {
      assert cs[..k][..k - 1] == cs[..k - 1];
      NeverOpened(cs, s, k - 1);
    }
  }

  /** In any configured run, with any restarts, each subject's transitions start with a down and strictly alternate. */
  lemma TransitionsAlternate(steps: seq<Step>, k: nat)
    requires Configured(steps) && k < |Changes(Run(START, steps).log)|
    ensures var cs := Changes(Run(START, steps).log);
      && ((forall j | 0 <= j < k :: cs[j].about != cs[k].about) ==> Opening(cs[k].kind))
      && (forall i | 0 <= i < k && cs[i].about == cs[k].about && (forall j | i < j < k :: cs[j].about != cs[k].about) ::
            Opening(cs[i].kind) != Opening(cs[k].kind))
  {
    hide Run, RoundsChange, Rounds, Open, Changes;
    RunFollows(steps);
    RoundsAlternate(Rounds(steps));
    var cs := Changes(Run(START, steps).log);
    if forall j | 0 <= j < k :: cs[j].about != cs[k].about {
      NeverOpened(cs, cs[k].about, k);
    }
    forall i | 0 <= i < k && cs[i].about == cs[k].about && (forall j | i < j < k :: cs[j].about != cs[k].about)
      ensures Opening(cs[i].kind) != Opening(cs[k].kind)
    {
      OpenUntouched(cs, i, k);
    }
  }

  // ---------------------------------------------------------------------
  // Group thresholds

  lemma {:induction false} SameFaulty(s: State, s': State, ms: seq<Member>)
    requires forall m | m in ms :: EndpointFlag(s', m.endpoint) == EndpointFlag(s, m.endpoint)
    ensures Faulty(s', ms) == Faulty(s, ms)
  {
    if ms != [] {
      var front := ms[..|ms| - 1];
      assert forall m | m in front :: m in ms;
      assert ms[|ms| - 1] in ms;
      SameFaulty(s, s', front);
    }
  }

  predicate WithinThresholds(open: bool, faulty: nat, members: nat) {
    if open then 2 * faulty >= members else faulty < GROUP_MIN || 2 * faulty < members
  }

  lemma GroupWithinThresholds(s: State, r: Round)
    requires IsVendor(r.family) && r.members != []
    ensures var s' := EvaluateGroup(s, r);
      && WithinThresholds(VendorFlag(s', r.family), |Faulty(s', r.members)|, |r.members|)
      && forall m | m in r.members :: m.endpoint in s'.caches.endpoints
  {
    hide Faulty, LearnMembers, RecoveredSince, Refs;
    var s0 := LearnVendor(s, r.family);
    var s1 := LearnMembers(s0, r.members);
    LearningMembers(s0, r.members);
    var s' := EvaluateGroup(s, r);
    assert s'.caches.endpoints == s1.caches.endpoints;
    SameFaulty(s1, s', r.members);
  }

  /**
   After every evaluation of a vendor family with enabled members, configured or not, an open group has half its
   members faulty and a closed one has fewer than two or less than half.
   */
  lemma Hysteresis(s: State, r: Round)
    requires IsVendor(r.family) && r.members != [] && RoundVerdict(EndpointFlag(s, r.endpoint), r.failures).Some?
    ensures var s' := HandleRound(s, r);
      WithinThresholds(VendorFlag(s', r.family), |Faulty(s', r.members)|, |r.members|)
  {
    hide Faulty, EvaluateGroup, WithinThresholds;
    var s1 := LearnEndpoint(s, r.endpoint);
    var kind := RoundVerdict(EndpointFlag(s1, r.endpoint), r.failures).value;
    var s2 := SetEndpoint(s1, r.endpoint, kind == Down);
    var s3 := LearnVendor(if r.configured then Record(s2, Event(kind, Endpoint(r.endpoint), false)) else s2, r.family);
    GroupWithinThresholds(s3, r);
    var s4 := EvaluateGroup(s3, r);
    SameFaulty(s4, HandleRound(s, r), r.members);
  }
}
