/**
 The alert evaluator: per-endpoint and per-vendor flags cached over an event
 log, transitions buffered for one aggregated flush, and an end-of-quiet
 summary that can run before the flush. Event ids are positions in the log.
 */
module Alerts {
  import opened Wrappers
  import opened QuietHours

  datatype Kind = Down | Recovered | GroupDown | GroupRecovered | Batch | QuietSummary | ScoreDrop
  datatype Subject = Endpoint(id: int) | Vendor(family: string) | Nobody
  /** sent means delivery confirmed. */
  datatype Event = Event(kind: Kind, about: Subject, sent: bool)

  /** How a card names a member. */
  datatype Ref = Ref(hub: string, model: string, protocol: string)
  datatype Member = Member(endpoint: int, who: Ref)
  datatype Buffered = Buffered(id: nat, kind: Kind, who: Ref, family: string, absorbed: bool)
  /** A group card's content, frozen when the group changed. */
  datatype GroupCard = GroupCard(id: nat, kind: Kind, family: string, total: nat, faulty: seq<Ref>, recovered: seq<Ref>)

  /** delivered is history: under which ids something has reached the webhook. */
  datatype State = State(
    log: seq<Event>,
    caches: Caches,
    window: Window,
    drops: seq<nat>,
    delivered: multiset<nat>)
  datatype Caches = Caches(endpoints: map<int, bool>, vendors: map<string, bool>)
  datatype Window = Window(pending: seq<Buffered>, groups: seq<GroupCard>, firesAt: Option<Instant>)

  const NO_CACHE := Caches(map[], map[])
  const EMPTY_WINDOW := Window([], [], None)

  const OTHER := "other"
  const DOWN_THRESHOLD: nat := 3
  const GROUP_MIN: nat := 2

  // ---------------------------------------------------------------------
  // Reading the log

  predicate Opening(k: Kind) { k == Down || k == GroupDown }
  predicate Transition(k: Kind) { k == Down || k == Recovered || k == GroupDown || k == GroupRecovered }

  /** The newest transition recorded about a subject. */
  function Latest(log: seq<Event>, s: Subject): (r: Option<nat>)
    ensures r.Some? ==> r.value < |log| && Transition(log[r.value].kind) && log[r.value].about == s
    ensures r.Some? ==> forall i | r.value < i < |log| :: !(Transition(log[i].kind) && log[i].about == s)
    ensures r.None? ==> forall i | 0 <= i < |log| :: !(Transition(log[i].kind) && log[i].about == s)
  {
    if log == [] then None
    else
      var n := |log| - 1;
      if Transition(log[n].kind) && log[n].about == s then Some(n) else Latest(log[..n], s)
  }

  /** Whether the log leaves the subject's alert open. */
  predicate IsOpen(log: seq<Event>, s: Subject) {
    Latest(log, s).Some? && Opening(log[Latest(log, s).value].kind)
  }

  predicate EndpointFlag(s: State, e: int) {
    if e in s.caches.endpoints then s.caches.endpoints[e] else IsOpen(s.log, Endpoint(e))
  }

  predicate VendorFlag(s: State, f: string) {
    if f in s.caches.vendors then s.caches.vendors[f] else IsOpen(s.log, Vendor(f))
  }

  /** Looking a flag up caches it. */
  function LearnEndpoint(s: State, e: int): State {
    s.(caches := s.caches.(endpoints := s.caches.endpoints[e := EndpointFlag(s, e)]))
  }

  function LearnVendor(s: State, f: string): State {
    s.(caches := s.caches.(vendors := s.caches.vendors[f := VendorFlag(s, f)]))
  }

  function LearnMembers(s: State, ms: seq<Member>): State {
    if ms == [] then s else LearnEndpoint(LearnMembers(s, ms[..|ms| - 1]), ms[|ms| - 1].endpoint)
  }

  // ---------------------------------------------------------------------
  // A probe round

  /** One finished round: the endpoint's failures in a row, and its identity and vendor's enabled members just now. */
  datatype Round = Round(endpoint: int, failures: nat, configured: bool, who: Ref, family: string, members: seq<Member>, now: Instant)

  function Record(s: State, e: Event): State {
    s.(log := s.log + [e])
  }

  /** The window starts with its first transition and does not slide. */
  function Arm(w: Window, now: Instant): Window {
    if w.firesAt.Some? then w else w.(firesAt := Some(now + WINDOW))
  }

  function BufferEndpoint(s: State, t: Buffered, now: Instant): State {
    s.(window := Arm(s.window.(pending := s.window.pending + [t]), now))
  }

  function BufferGroup(s: State, g: GroupCard, now: Instant): State {
    s.(window := Arm(s.window.(groups := s.window.groups + [g]), now))
  }

  /** The members whose alert is open. */
  function Faulty(s: State, ms: seq<Member>): (r: seq<Member>)
    ensures |r| <= |ms|
  {
    if ms == [] then []
    else Faulty(s, ms[..|ms| - 1]) + (if EndpointFlag(s, ms[|ms| - 1].endpoint) then [ms[|ms| - 1]] else [])
  }

  function Refs(ms: seq<Member>): (r: seq<Ref>)
    ensures |r| == |ms|
  {
    seq(|ms|, i requires 0 <= i < |ms| => ms[i].who)
  }

  /** Members that are not faulty and whose newest transition is a recovery recorded after the group opened. */
  function RecoveredSince(s: State, family: string, ms: seq<Member>): seq<Member> {
    if !IsOpen(s.log, Vendor(family)) then []
    else Since(s, Latest(s.log, Vendor(family)).value, ms)
  }

  function Since(s: State, since: nat, ms: seq<Member>): seq<Member> {
    if ms == [] then []
    else
      var m := ms[|ms| - 1];
      var latest := Latest(s.log, Endpoint(m.endpoint));
      Since(s, since, ms[..|ms| - 1])
        + (if !EndpointFlag(s, m.endpoint) && latest.Some? && s.log[latest.value].kind == Recovered && latest.value > since then [m] else [])
  }

  function SetVendor(s: State, f: string, open: bool): State {
    s.(caches := s.caches.(vendors := s.caches.vendors[f := open]))
  }

  function SetEndpoint(s: State, e: int, open: bool): State {
    s.(caches := s.caches.(endpoints := s.caches.endpoints[e := open]))
  }

  function GroupTransition(s: State, r: Round, kind: Kind): State {
    var s1 := SetVendor(s, r.family, kind == GroupDown);
    if !r.configured then s1
    else
      var healed := if kind == GroupRecovered then Refs(RecoveredSince(s1, r.family, r.members)) else [];
      var card := GroupCard(|s.log|, kind, r.family, |r.members|, Refs(Faulty(s1, r.members)), healed);
      BufferGroup(Record(s1, Event(kind, Vendor(r.family), false)), card, r.now)
  }

  /** The fallback family is not a vendor. */
  predicate IsVendor(family: string) {
    family != "" && family != OTHER
  }

  /** Opens at two members and half of them, closes below half. */
  function GroupVerdict(open: bool, faulty: nat, members: nat): Option<Kind> {
    if !open && faulty >= GROUP_MIN && 2 * faulty >= members then Some(GroupDown)
    else if open && 2 * faulty < members then Some(GroupRecovered)
    else None
  }

  function EvaluateGroup(s: State, r: Round): State {
    if !IsVendor(r.family) || r.members == [] then s
    else
      var s1 := LearnMembers(LearnVendor(s, r.family), r.members);
      match GroupVerdict(VendorFlag(s1, r.family), |Faulty(s1, r.members)|, |r.members|)
      case None => s1
      case Some(kind) => GroupTransition(s1, r, kind)
  }

  function EndpointTransition(s: State, r: Round, kind: Kind): State {
    var s1 := SetEndpoint(s, r.endpoint, kind == Down);
    var s2 := if r.configured then Record(s1, Event(kind, Endpoint(r.endpoint), false)) else s1;
    var s3 := LearnVendor(s2, r.family);
    var s4 := EvaluateGroup(s3, r);
    if !r.configured then s4
    else
      BufferEndpoint(LearnVendor(s4, r.family),
        Buffered(|s.log|, kind, r.who, r.family, VendorFlag(s3, r.family) || VendorFlag(s4, r.family)), r.now)
  }

  /** What a round changes about its endpoint: nothing, or the kind of transition. */
  function RoundVerdict(open: bool, failures: nat): Option<Kind> {
    if !open && failures >= DOWN_THRESHOLD then Some(Down)
    else if open && failures < DOWN_THRESHOLD then Some(Recovered)
    else None
  }

  function HandleRound(s: State, r: Round): State {
    var s1 := LearnEndpoint(s, r.endpoint);
    match RoundVerdict(EndpointFlag(s1, r.endpoint), r.failures)
    case None => s1
    case Some(kind) => EndpointTransition(s1, r, kind)
  }

  // ---------------------------------------------------------------------
  // Sending

  function Mark(log: seq<Event>, ids: seq<nat>, ok: bool): (r: seq<Event>)
    ensures |r| == |log|
    ensures forall i | 0 <= i < |log| :: r[i] == if i in ids then log[i].(sent := ok) else log[i]
  {
    seq(|log|, i requires 0 <= i < |log| => if i in ids then log[i].(sent := ok) else log[i])
  }

  /** One card for these events, and one event of its own for the card. */
  function SendCard(s: State, ids: seq<nat>, ok: bool, kind: Kind): State {
    s.(log := Mark(s.log, ids, ok) + [Event(kind, Nobody, ok)],
       delivered := if ok then s.delivered + multiset(ids) else s.delivered)
  }

  function SendCards(s: State, cards: seq<seq<nat>>, oks: seq<bool>): State {
    if cards == [] then s
    else
      var n := |cards| - 1;
      SendCard(SendCards(s, cards[..n], oks), cards[n], n < |oks| && oks[n], Batch)
  }

  predicate Confirmed(log: seq<Event>, id: nat) {
    id < |log| && log[id].sent
  }

  function UnconfirmedTransitions(log: seq<Event>, ts: seq<Buffered>): seq<Buffered> {
    if ts == [] then []
    else UnconfirmedTransitions(log, ts[..|ts| - 1]) + (if Confirmed(log, ts[|ts| - 1].id) then [] else [ts[|ts| - 1]])
  }

  function UnconfirmedGroups(log: seq<Event>, gs: seq<GroupCard>): seq<GroupCard> {
    if gs == [] then []
    else UnconfirmedGroups(log, gs[..|gs| - 1]) + (if Confirmed(log, gs[|gs| - 1].id) then [] else [gs[|gs| - 1]])
  }

  /** The members whose fault the group cards of a family tell, replayed in decision order. */
  function Covered(gs: seq<GroupCard>, family: string): set<Ref> {
    if gs == [] then {}
    else
      var g, before := gs[|gs| - 1], Covered(gs[..|gs| - 1], family);
      if g.family != family then before
      else if g.kind == GroupDown then before + (set m | m in g.faulty)
      else if g.kind == GroupRecovered then before - (set m | m in g.recovered)
      else before
  }

  predicate Renders(gs: seq<GroupCard>, t: Buffered) {
    !t.absorbed && (t.kind == Down ==> t.who !in Covered(gs, t.family))
  }

  /** The ids on the endpoint card of one kind. */
  function CardIds(gs: seq<GroupCard>, ts: seq<Buffered>, kind: Kind): seq<nat> {
    if ts == [] then []
    else CardIds(gs, ts[..|ts| - 1], kind) + (if ts[|ts| - 1].kind == kind && Renders(gs, ts[|ts| - 1]) then [ts[|ts| - 1].id] else [])
  }

  function GroupIds(gs: seq<GroupCard>): seq<seq<nat>> {
    if gs == [] then [] else GroupIds(gs[..|gs| - 1]) + [[gs[|gs| - 1].id]]
  }

  function Optional(ids: seq<nat>): seq<seq<nat>> {
    if ids == [] then [] else [ids]
  }

  /** Group cards first, then one down card and one recovered card. */
  function Cards(gs: seq<GroupCard>, ts: seq<Buffered>): seq<seq<nat>> {
    GroupIds(gs) + Optional(CardIds(gs, ts, Down)) + Optional(CardIds(gs, ts, Recovered))
  }

  predicate Held(q: Quiet, firesAt: Instant) {
    q.Active() && (q.Contains(firesAt) || q.Contains(firesAt - WINDOW))
  }

  function Flush(s: State, q: Quiet, webhook: bool, oks: seq<bool>, now: Instant): State {
    var w := s.window;
    var s1 := s.(window := EMPTY_WINDOW);
    var firesAt := if w.firesAt.Some? then w.firesAt.value else now;
    if (w.pending == [] && w.groups == []) || Held(q, firesAt) || !webhook then s1
    else SendCards(s1, Cards(UnconfirmedGroups(s.log, w.groups), UnconfirmedTransitions(s.log, w.pending)), oks)
  }

  // ---------------------------------------------------------------------
  // The summary at the end of quiet hours, score drops, restarts

  /** An opening event that is still its subject's newest transition. */
  predicate Anchor(log: seq<Event>, i: nat) {
    i < |log| && Opening(log[i].kind) && Latest(log, log[i].about) == Some(i)
  }

  /** Families whose open group has never been reported. */
  predicate ReportedFamily(log: seq<Event>, f: string) {
    exists i: nat :: i < |log| && Anchor(log, i) && log[i].about == Vendor(f) && !log[i].sent
  }

  /** Whether the summary tells the story of event i; an endpoint folds into its vendor's line. */
  predicate Summarised(log: seq<Event>, familyOf: map<int, string>, i: nat) {
    && Anchor(log, i) && !log[i].sent
    && (log[i].about.Endpoint? ==> log[i].about.id in familyOf && !ReportedFamily(log, familyOf[log[i].about.id]))
  }

  function SummaryIds(log: seq<Event>, familyOf: map<int, string>, n: nat): (r: seq<nat>)
    requires n <= |log|
    ensures forall i :: i in r <==> 0 <= i < n && Summarised(log, familyOf, i)
  {
    if n == 0 then [] else SummaryIds(log, familyOf, n - 1) + (if Summarised(log, familyOf, n - 1) then [n - 1] else [])
  }

  function Summary(s: State, webhook: bool, familyOf: map<int, string>, ok: bool): State {
    var ids := SummaryIds(s.log, familyOf, |s.log|) + s.drops;
    if !webhook then s.(drops := [])
    else if ids == [] then s
    else SendCard(s, ids, ok, QuietSummary).(drops := [])
  }

  /** A score drop is sent at once, or recorded and deferred inside quiet hours. */
  function HandleDrop(s: State, quiet: bool, ok: bool): State {
    if quiet then Record(s, Event(ScoreDrop, Nobody, false)).(drops := s.drops + [|s.log|])
    else Record(s, Event(ScoreDrop, Nobody, ok)).(delivered := if ok then s.delivered + multiset{|s.log|} else s.delivered)
  }

  /** A restart loses everything but the log. */
  function Restart(s: State): State {
    s.(caches := NO_CACHE, window := EMPTY_WINDOW, drops := [])
  }

  datatype Step =
    | RoundStep(r: Round)
    | FlushStep(q: Quiet, webhook: bool, oks: seq<bool>, at: Instant)
    | SummaryStep(webhook: bool, familyOf: map<int, string>, ok: bool)
    | DropStep(quiet: bool, ok: bool)
    | RestartStep

  function Apply(s: State, step: Step): State {
    match step
    case RoundStep(r) => HandleRound(s, r)
    case FlushStep(q, webhook, oks, at) => Flush(s, q, webhook, oks, at)
    case SummaryStep(webhook, familyOf, ok) => Summary(s, webhook, familyOf, ok)
    case DropStep(quiet, ok) => HandleDrop(s, quiet, ok)
    case RestartStep => Restart(s)
  }

  function Run(s: State, steps: seq<Step>): State {
    if steps == [] then s else Apply(Run(s, steps[..|steps| - 1]), steps[|steps| - 1])
  }

  const START := State([], NO_CACHE, EMPTY_WINDOW, [], multiset{})
}
