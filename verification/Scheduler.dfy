/**
 The probe scheduler: which endpoints have a round in flight, when each may
 start its next one, and when the loop wakes. Instants and intervals are whole
 nanoseconds.
 */
module Scheduler {
  import opened Wrappers

  type Instant = int

  /** An enabled endpoint as the store lists it, with its own interval if it has one. */
  datatype Endpoint = Endpoint(id: int, override: Option<int>)
  /** An enabled endpoint with the interval that applies to it. */
  datatype Due = Due(id: int, interval: int)
  /** completedAt stays empty until a round of this entry has run to its end. */
  datatype Entry = Entry(running: bool, hasRun: bool, dropped: bool, completedAt: Option<Instant>)

  const NEW_ENTRY := Entry(false, false, false, None)

  /** The override when it is positive, else the default. */
  function IntervalFor(override: Option<int>, default: int): int {
    match override
    case Some(s) => if s > 0 then s else default
    case None => default
  }

  function DueList(endpoints: seq<Endpoint>, default: int): (due: seq<Due>)
    ensures |due| == |endpoints|
    ensures forall i | 0 <= i < |due| :: due[i].id == endpoints[i].id && due[i].interval == IntervalFor(endpoints[i].override, default)
  {
    seq(|endpoints|, i requires 0 <= i < |endpoints| => Due(endpoints[i].id, IntervalFor(endpoints[i].override, default)))
  }

  /** An idle entry may start now: it never ran, or its interval has passed. */
  predicate MayStart(e: Entry, interval: int, now: Instant) {
    !e.hasRun || e.completedAt.None? || e.completedAt.value + interval <= now
  }

  /** When an idle entry becomes due; nothing to wait for when it may start at once. */
  function DueAt(e: Entry, interval: int): Option<Instant> {
    if e.hasRun && e.completedAt.Some? then Some(e.completedAt.value + interval) else None
  }

  /**
   History, which the scheduler does not read. listed are the endpoints of the last dispatch; unlisted those with a
   round in flight during which some dispatch did not list them; lastDone is the last completion of each endpoint
   that was enabled then and has been listed by every dispatch since; lapsed are those that were unlisted when it came.
   */
  datatype Past = Past(listed: set<int>, unlisted: set<int>, lapsed: set<int>, lastDone: map<int, Instant>)
  /** entries is the scheduler's table; queued and running are the rounds waiting for the semaphore and holding it. */
  datatype State = State(entries: map<int, Entry>, queued: multiset<int>, running: multiset<int>, past: Past)

  function EntryOf(entries: map<int, Entry>, id: int): Entry {
    if id in entries then entries[id] else NEW_ENTRY
  }

  // ---------------------------------------------------------------------
  // Dispatch

  function StartOne(s: State, d: Due, now: Instant): State {
    var e := EntryOf(s.entries, d.id);
    if !e.running && MayStart(e, d.interval, now)
    then s.(entries := s.entries[d.id := e.(running := true, hasRun := true)], queued := s.queued + multiset{d.id})
    else s.(entries := s.entries[d.id := e])
  }

  function StartAll(s: State, due: seq<Due>, now: Instant): State {
    if due == [] then s else StartOne(StartAll(s, due[..|due| - 1], now), due[|due| - 1], now)
  }

  /** The earliest time at which an endpoint that is idle before the round of starts becomes due. */
  function Wake(entries: map<int, Entry>, due: seq<Due>, now: Instant, poll: int): Instant {
    if due == [] then now + poll
    else
      var d := due[|due| - 1];
      Earlier(EntryOf(entries, d.id), d.interval, now, Wake(entries, due[..|due| - 1], now, poll))
  }

  /** The earlier of w and the time an idle entry that may not start yet becomes due. */
  function Earlier(e: Entry, interval: int, now: Instant, w: Instant): Instant {
    if e.running || MayStart(e, interval, now) then w
    else if e.completedAt.value + interval < w then e.completedAt.value + interval else w
  }

  predicate Listed(due: seq<Due>, id: int) {
    exists i | 0 <= i < |due| :: due[i].id == id
  }

  /** Endpoints off the list are forgotten; one with a round in flight is marked so that its end forgets it. */
  function Forget(entries: map<int, Entry>, due: seq<Due>): map<int, Entry> {
    map id | id in entries && (Listed(due, id) || entries[id].running) ::
      if Listed(due, id) then entries[id] else entries[id].(dropped := true)
  }

  function Seen(past: Past, inFlight: multiset<int>, due: seq<Due>): Past {
    Past(
      (set i | 0 <= i < |due| :: due[i].id),
      past.unlisted + (set id | id in inFlight && !Listed(due, id)),
      past.lapsed,
      map id | id in past.lastDone && Listed(due, id) :: past.lastDone[id])
  }

  function Dispatch(s: State, due: seq<Due>, now: Instant): State {
    var s1 := StartAll(s, due, now);
    s1.(entries := Forget(s1.entries, due), past := Seen(s1.past, s1.queued + s1.running, due))
  }

  // ---------------------------------------------------------------------
  // Rounds

  /** The end of a round: a dropped endpoint is forgotten, another becomes idle, with its completion when there is one. */
  function Finish(s: State, id: int, completed: bool, now: Instant): State {
    var s1 := s.(past := Ended(s.past, id, completed, now));
    if id !in s.entries then s1
    else if s.entries[id].dropped then s1.(entries := s.entries - {id})
    else
      var e := s.entries[id].(running := false);
      s1.(entries := s.entries[id := if completed then e.(completedAt := Some(now)) else e])
  }

  function Ended(past: Past, id: int, completed: bool, now: Instant): Past {
    var counts := completed && id in past.listed;
    Past(
      past.listed,
      past.unlisted - {id},
      if !counts then past.lapsed else if id in past.unlisted then past.lapsed + {id} else past.lapsed - {id},
      if counts then past.lastDone[id := now] else past.lastDone)
  }

  datatype Action =
    | DispatchNow(due: seq<Due>, now: Instant)
    | Acquire(id: int)
    | Complete(id: int, now: Instant)
    | GiveUp(id: int, now: Instant)

  /** The list names each endpoint once; the semaphore admits at most cap rounds. */
  predicate Enabled(s: State, cap: nat, a: Action) {
    match a
    case DispatchNow(due, _) => forall i, j | 0 <= i < j < |due| :: due[i].id != due[j].id
    case Acquire(id) => id in s.queued && |s.running| < cap
    case Complete(id, _) => id in s.running
    case GiveUp(id, _) => id in s.queued
  }

  function Step(s: State, a: Action): State {
    match a
    case DispatchNow(due, now) => Dispatch(s, due, now)
    case Acquire(id) => s.(queued := s.queued - multiset{id}, running := s.running + multiset{id})
    case Complete(id, now) => Finish(s.(running := s.running - multiset{id}), id, true, now)
    case GiveUp(id, now) => Finish(s.(queued := s.queued - multiset{id}), id, false, now)
  }

  const START := State(map[], multiset{}, multiset{}, Past({}, {}, {}, map[]))

  predicate Legal(s: State, cap: nat, actions: seq<Action>)
    decreases |actions|
  {
    actions == [] || (Enabled(s, cap, actions[0]) && Legal(Step(s, actions[0]), cap, actions[1..]))
  }

  function Run(s: State, actions: seq<Action>): State
    decreases |actions|
  {
    if actions == [] then s else Run(Step(s, actions[0]), actions[1..])
  }

  // ---------------------------------------------------------------------
  // At most one round per endpoint

  function InFlight(s: State, id: int): nat {
    s.queued[id] + s.running[id]
  }

  predicate EntryFits(s: State, id: int) {
    var e := EntryOf(s.entries, id);
    && TableFits(s, id)
    && (e.running && !e.dropped ==> id in s.past.listed)
    && (id in s.past.lastDone ==> id in s.past.listed)
  }

  /** An endpoint's entry against its rounds and its history. */
  predicate TableFits(s: State, id: int) {
    var e := EntryOf(s.entries, id);
    && InFlight(s, id) == (if e.running then 1 else 0)
    && (e.dropped ==> e.running) && (e.running ==> e.hasRun) && (e.completedAt.Some? ==> e.hasRun)
    && (e.dropped <==> id in s.past.unlisted)
    && (id in s.past.lastDone ==> LastDoneFits(s.past, e, id))
  }

  /** The entry remembers the last completion, unless the endpoint had lapsed: then it remembers none. */
  predicate LastDoneFits(past: Past, e: Entry, id: int)
    requires id in past.lastDone
  {
    !e.dropped && e.completedAt == if id in past.lapsed then None else Some(past.lastDone[id])
  }

  ghost predicate Inv(s: State, cap: nat) {
    (forall id :: EntryFits(s, id)) && |s.running| <= cap
  }

  lemma StartOneFits(s: State, d: Due, now: Instant, id: int)
    requires TableFits(s, id)
    ensures TableFits(StartOne(s, d, now), id)
  {
  }

  lemma {:induction false} StartAllFits(s: State, due: seq<Due>, now: Instant, id: int)
    requires TableFits(s, id)
    ensures TableFits(StartAll(s, due, now), id)
    ensures StartAll(s, due, now).running == s.running && StartAll(s, due, now).past == s.past
  {
    hide TableFits;
    if due != [] {
      StartAllFits(s, due[..|due| - 1], now, id);
      StartOneFits(StartAll(s, due[..|due| - 1], now), due[|due| - 1], now, id);
    }
  }

  lemma DispatchFits(s: State, due: seq<Due>, now: Instant, id: int)
    requires EntryFits(s, id)
    ensures EntryFits(Dispatch(s, due, now), id) && Dispatch(s, due, now).running == s.running
  {
    hide StartAll;
    StartAllFits(s, due, now, id);
    SeenIs(s.past, StartAll(s, due, now).queued + s.running, due, id);
  }

  lemma SeenIs(past: Past, inFlight: multiset<int>, due: seq<Due>, id: int)
    ensures var p := Seen(past, inFlight, due);
      && (id in p.listed <==> Listed(due, id))
      && (id in p.unlisted <==> id in past.unlisted || (id in inFlight && !Listed(due, id)))
  {
  }

  lemma StepKeeps(s: State, cap: nat, a: Action)
    requires Inv(s, cap) && Enabled(s, cap, a)
    ensures Inv(Step(s, a), cap)
  {
    hide EntryFits, Dispatch;
    match a
    case DispatchNow(due, now) =>
      forall id ensures EntryFits(Step(s, a), id) {
        assert EntryFits(s, id);
        DispatchFits(s, due, now, id);
      }
      assert EntryFits(s, 0);
      DispatchFits(s, due, now, 0);
    case _ =>
      forall id ensures EntryFits(Step(s, a), id) {
        assert EntryFits(s, id);
        RoundFits(s, cap, a, id);
      }
  }

  lemma RoundFits(s: State, cap: nat, a: Action, id: int)
    requires EntryFits(s, id) && Enabled(s, cap, a) && !a.DispatchNow?
    ensures EntryFits(Step(s, a), id)
  {
    hide EntryFits, TableFits, Finish;
    match a {
      case Acquire(mine) => AcquireFits(s, mine, id);
      case Complete(mine, now) => EndFits(s, s.(running := s.running - multiset{mine}), mine, true, now, id);
      case GiveUp(mine, now) => EndFits(s, s.(queued := s.queued - multiset{mine}), mine, false, now, id);
    }
  }

  lemma AcquireFits(s: State, mine: int, id: int)
    requires EntryFits(s, id) && mine in s.queued
    ensures EntryFits(s.(queued := s.queued - multiset{mine}, running := s.running + multiset{mine}), id)
  {
  }

  lemma EndFits(s: State, s1: State, mine: int, completed: bool, now: Instant, id: int)
    requires EntryFits(s, id) && s1.entries == s.entries && s1.past == s.past
    requires InFlight(s1, id) == InFlight(s, id) - if id == mine then 1 else 0
    ensures EntryFits(Finish(s1, mine, completed, now), id)
  {
  }
  lemma {:induction false} RunKeeps(s: State, cap: nat, actions: seq<Action>)
    requires Inv(s, cap) && Legal(s, cap, actions)
    ensures Inv(Run(s, actions), cap)
    decreases |actions|
  {
    hide Inv, Step, Enabled;
    if actions != [] {
      StepKeeps(s, cap, actions[0]);
      RunKeeps(Step(s, actions[0]), cap, actions[1..]);
    }
  }

  /** In every run of dispatches, rounds, disabling and re-enabling each endpoint has at most one round in flight, and the semaphore holds. */
  lemma OneRoundEach(cap: nat, actions: seq<Action>, id: int)
    requires Legal(START, cap, actions)
    ensures InFlight(Run(START, actions), id) <= 1
    ensures |Run(START, actions).running| <= cap
  {
    hide Run, Legal;
    RunKeeps(START, cap, actions);
    assert EntryFits(Run(START, actions), id);
  }

  // ---------------------------------------------------------------------
  // Timeliness

  /** One start leaves the other endpoints alone. */
  lemma StartOneElsewhere(s: State, d: Due, now: Instant, id: int)
    requires d.id != id
    ensures var s' := StartOne(s, d, now);
      (id in s'.entries <==> id in s.entries) && EntryOf(s'.entries, id) == EntryOf(s.entries, id) && s'.queued[id] == s.queued[id]
  {
  }

  /** An endpoint off the list keeps its entry. */
  lemma {:induction false} StartAllElsewhere(s: State, due: seq<Due>, now: Instant, id: int)
    requires !Listed(due, id)
    ensures var s' := StartAll(s, due, now);
      (id in s'.entries <==> id in s.entries) && EntryOf(s'.entries, id) == EntryOf(s.entries, id) && s'.queued[id] == s.queued[id]
  {
    hide StartOne, EntryOf;
    if due != [] {
      var n := |due| - 1;
      assert !Listed(due[..n], id) by { forall i | 0 <= i < n ensures due[..n][i].id != id {} }
      StartAllElsewhere(s, due[..n], now, id);
      StartOneElsewhere(StartAll(s, due[..n], now), due[n], now, id);
    }
  }

  /** A listed endpoint gets its entry, and a round if it is idle and due. */
  predicate Started(s: State, s': State, d: Due, now: Instant) {
    var e := EntryOf(s.entries, d.id);
    && d.id in s'.entries
    && if !e.running && MayStart(e, d.interval, now)
       then s'.entries[d.id] == e.(running := true, hasRun := true) && s'.queued[d.id] == s.queued[d.id] + 1
       else s'.entries[d.id] == e && s'.queued[d.id] == s.queued[d.id]
  }

  lemma {:induction false} StartAllOf(s: State, due: seq<Due>, now: Instant, i: nat)
    requires forall i, j | 0 <= i < j < |due| :: due[i].id != due[j].id
    requires i < |due|
    ensures Started(s, StartAll(s, due, now), due[i], now)
  {
    hide MayStart;
    var n := |due| - 1;
    var front := due[..n];
    if i == n {
      assert !Listed(front, due[n].id);
      StartAllElsewhere(s, front, now, due[n].id);
    } else {
      StartAllOf(s, front, now, i);
      StartOneElsewhere(StartAll(s, front, now), due[n], now, due[i].id);
    }
  }

  /** After a dispatch an enabled endpoint that is idle is not due yet. */
  lemma NoneIdleAndDue(s: State, cap: nat, due: seq<Due>, now: Instant, i: nat)
    requires Inv(s, cap) && Enabled(s, cap, DispatchNow(due, now)) && i < |due|
    ensures var e := EntryOf(Dispatch(s, due, now).entries, due[i].id);
      && due[i].id in Dispatch(s, due, now).entries
      && (e.running || (DueAt(e, due[i].interval).Some? && DueAt(e, due[i].interval).value > now))
  {
    assert EntryFits(s, due[i].id);
    StartAllOf(s, due, now, i);
    assert Listed(due, due[i].id);
  }

  predicate DueExactly(e: Entry, interval: int, now: Instant, w: Instant) {
    !e.running && !MayStart(e, interval, now) && w == e.completedAt.value + interval
  }

  lemma {:induction false} WakeIsEarliest(entries: map<int, Entry>, due: seq<Due>, now: Instant, poll: int)
    ensures var w := Wake(entries, due, now, poll);
      && w <= now + poll
      && (forall i | 0 <= i < |due| ::
            var e := EntryOf(entries, due[i].id);
            e.running || MayStart(e, due[i].interval, now) || w <= e.completedAt.value + due[i].interval)
      && (w == now + poll || exists i :: 0 <= i < |due| && DueExactly(EntryOf(entries, due[i].id), due[i].interval, now, w))
  {
    if due != [] {
      var n := |due| - 1;
      var front := due[..n];
      WakeIsEarliest(entries, front, now, poll);
      assert forall i | 0 <= i < n :: front[i] == due[i];
    }
  }

  /** The loop wakes no later than any idle endpoint becomes due, and no later than the poll interval. */
  lemma WakesInTime(s: State, cap: nat, due: seq<Due>, now: Instant, poll: int, i: nat)
    requires Inv(s, cap) && Enabled(s, cap, DispatchNow(due, now)) && i < |due|
    ensures var e := EntryOf(Dispatch(s, due, now).entries, due[i].id);
      var w := Wake(s.entries, due, now, poll);
      && w <= now + poll
      && (!e.running ==> DueAt(e, due[i].interval).Some? && w <= DueAt(e, due[i].interval).value)
  {
    assert EntryFits(s, due[i].id);
    StartAllOf(s, due, now, i);
    WakeIsEarliest(s.entries, due, now, poll);
    assert Listed(due, due[i].id);
  }

  /** The dispatch starts a round of id although less than its interval has passed since its last completion. */
  predicate StartsEarly(s: State, due: seq<Due>, now: Instant, i: nat)
    requires i < |due|
  {
    var id := due[i].id;
    id in s.past.lastDone && Dispatch(s, due, now).queued[id] > s.queued[id] && now < s.past.lastDone[id] + due[i].interval
  }

  /**
   An idle endpoint that was enabled at its last completion and ever since restarts before that completion plus its
   interval exactly when some dispatch during that round did not list it.
   */
  lemma StartsEarlyExactly(cap: nat, actions: seq<Action>, due: seq<Due>, now: Instant, i: nat)
    requires Legal(START, cap, actions) && i < |due|
    requires Enabled(Run(START, actions), cap, DispatchNow(due, now))
    ensures var s, id := Run(START, actions), due[i].id;
      id in s.past.lastDone && InFlight(s, id) == 0 && now < s.past.lastDone[id] + due[i].interval ==>
        (StartsEarly(s, due, now, i) <==> id in s.past.lapsed)
    ensures var s := Run(START, actions); InFlight(s, due[i].id) > 0 ==> !StartsEarly(s, due, now, i)
  {
    hide Run, Legal;
    RunKeeps(START, cap, actions);
    var s := Run(START, actions);
    assert EntryFits(s, due[i].id);
    StartAllOf(s, due, now, i);
  }

  /** So an endpoint that every dispatch listed from the start of its last completed round restarts on time. */
  lemma RestartsOnTime(cap: nat, actions: seq<Action>, due: seq<Due>, now: Instant, i: nat)
    requires Legal(START, cap, actions) && i < |due|
    requires Enabled(Run(START, actions), cap, DispatchNow(due, now))
    ensures var s, id := Run(START, actions), due[i].id;
      id in s.past.lastDone && id !in s.past.lapsed && Dispatch(s, due, now).queued[id] > s.queued[id] ==>
        s.past.lastDone[id] + due[i].interval <= now
  {
    hide Run, Legal, Dispatch;
    StartsEarlyExactly(cap, actions, due, now, i);
  }

  const ONE := [Due(7, 10)]
  /** Endpoint 7 is disabled and enabled again while its round is in flight, and completes at 3. */
  const LAPSE := [DispatchNow(ONE, 0), Acquire(7), DispatchNow([], 1), DispatchNow(ONE, 2), Complete(7, 3)]
  const BUSY := Entry(true, true, false, None)

  /** It restarts at 3, although it was enabled at its completion and its interval is 10. */
  lemma RestartsAtOnce()
    ensures Legal(START, 4, LAPSE)
    ensures var s := Run(START, LAPSE); 7 in s.past.lastDone && s.past.lastDone[7] == 3 && 7 in s.past.lapsed && StartsEarly(s, ONE, 3, 0)
  {
    hide Dispatch, Step, Enabled, Legal, Run;
    LapseStarts();
    LapseLapses();
    LapseEnds();
    LapseRuns(AFTER1, AFTER2, AFTER3, AFTER4, AFTER5);
    StartsAgain();
  }

  const AFTER1 := State(map[7 := BUSY], multiset{7}, multiset{}, Past({7}, {}, {}, map[]))
  const AFTER2 := AFTER1.(queued := multiset{}, running := multiset{7})
  const AFTER3 := AFTER2.(entries := map[7 := BUSY.(dropped := true)], past := Past({}, {7}, {}, map[]))
  const AFTER4 := AFTER3.(past := Past({7}, {7}, {}, map[]))
  const AFTER5 := State(map[], multiset{}, multiset{}, Past({7}, {}, {7}, map[7 := 3]))

  lemma LapseStarts()
    ensures Enabled(START, 4, LAPSE[0]) && Step(START, LAPSE[0]) == AFTER1
    ensures Enabled(AFTER1, 4, LAPSE[1]) && Step(AFTER1, LAPSE[1]) == AFTER2
  {
    ListsOnlySeven();
    StartAllOne(START, 0);
    assert Dispatch(START, ONE, 0).entries == AFTER1.entries;
    assert Dispatch(START, ONE, 0).past == AFTER1.past;
  }

  lemma LapseLapses()
    ensures Enabled(AFTER2, 4, LAPSE[2]) && Step(AFTER2, LAPSE[2]) == AFTER3
    ensures Enabled(AFTER3, 4, LAPSE[3]) && Step(AFTER3, LAPSE[3]) == AFTER4
  {
    ListsOnlySeven();
    assert Dispatch(AFTER2, [], 1).entries == AFTER3.entries;
    assert Dispatch(AFTER2, [], 1).past == AFTER3.past;
    StartAllOne(AFTER3, 2);
    assert Dispatch(AFTER3, ONE, 2).entries == AFTER4.entries;
    assert Dispatch(AFTER3, ONE, 2).past == AFTER4.past;
  }

  lemma LapseEnds()
    ensures Enabled(AFTER4, 4, LAPSE[4]) && Step(AFTER4, LAPSE[4]) == AFTER5
  {
    assert Step(AFTER4, LAPSE[4]).entries == AFTER5.entries;
    assert Step(AFTER4, LAPSE[4]).past == AFTER5.past;
  }

  lemma StartsAgain()
    ensures StartsEarly(AFTER5, ONE, 3, 0)
  {
    StartAllOne(AFTER5, 3);
  }

  lemma ListsOnlySeven()
    ensures forall id :: (Listed(ONE, id) <==> id == 7) && !Listed([], id)
    ensures (set i | 0 <= i < |ONE| :: ONE[i].id) == {7}
  {
    assert ONE[0].id == 7;
  }

  lemma StartAllOne(s: State, now: Instant)
    ensures StartAll(s, ONE, now) == StartOne(s, ONE[0], now)
  {
    assert ONE[..0] == [];
  }

  lemma LapseRuns(s1: State, s2: State, s3: State, s4: State, s5: State)
    requires s1 == Step(START, LAPSE[0]) && s2 == Step(s1, LAPSE[1]) && s3 == Step(s2, LAPSE[2]) && s4 == Step(s3, LAPSE[3]) && s5 == Step(s4, LAPSE[4])
    requires Enabled(START, 4, LAPSE[0]) && Enabled(s1, 4, LAPSE[1]) && Enabled(s2, 4, LAPSE[2]) && Enabled(s3, 4, LAPSE[3]) && Enabled(s4, 4, LAPSE[4])
    ensures Legal(START, 4, LAPSE) && Run(START, LAPSE) == s5
  {
    hide Step, Enabled;
    assert LAPSE[1..][1..] == LAPSE[2..] && LAPSE[2..][1..] == LAPSE[3..] && LAPSE[3..][1..] == LAPSE[4..] && LAPSE[4..][1..] == [];
    assert Legal(s4, 4, LAPSE[4..]) && Run(s4, LAPSE[4..]) == s5;
    assert Legal(s3, 4, LAPSE[3..]) && Run(s3, LAPSE[3..]) == s5;
    assert Legal(s2, 4, LAPSE[2..]) && Run(s2, LAPSE[2..]) == s5;
    assert Legal(s1, 4, LAPSE[1..]) && Run(s1, LAPSE[1..]) == s5;
  }

  // ---------------------------------------------------------------------
  // The interval that applies

  /**
   An idle endpoint that has completed a round is started again by a dispatch exactly when its own interval, or the
   default when it has none that is positive, has passed since; one without a completion is started at once.
   */
  lemma StartsAfterOwnInterval(s: State, cap: nat, endpoints: seq<Endpoint>, default: int, now: Instant, i: nat)
    requires i < |endpoints| && Inv(s, cap) && Enabled(s, cap, DispatchNow(DueList(endpoints, default), now))
    ensures var id, s' := endpoints[i].id, Dispatch(s, DueList(endpoints, default), now);
      var e := EntryOf(s.entries, id);
      s'.queued[id] == s.queued[id] +
        if e.running then 0
        else if e.completedAt.None? then 1
        else if endpoints[i].override.Some? && endpoints[i].override.value > 0 then if now - e.completedAt.value >= endpoints[i].override.value then 1 else 0
        else if now - e.completedAt.value >= default then 1 else 0
  {
    hide StartAll;
    var due := DueList(endpoints, default);
    assert EntryFits(s, endpoints[i].id);
    StartAllOf(s, due, now, i);
  }

  // ---------------------------------------------------------------------
  // The scheduler object

  class Table {
    var entries: map<int, Entry>
    ghost var queued: multiset<int>
    ghost var running: multiset<int>
    ghost var past: Past

    ghost function Contents(): State
      reads this
    {
      State(entries, queued, running, past)
    }

    /** Starts what is due, forgets what is disabled, and says when to wake. */
    method DispatchRounds(endpoints: seq<Endpoint>, default: int, now: Instant, poll: int) returns (next: Instant)
      requires forall i, j | 0 <= i < j < |endpoints| :: endpoints[i].id != endpoints[j].id
      modifies this
      ensures Contents() == Dispatch(old(Contents()), DueList(endpoints, default), now)
      ensures next == Wake(old(entries), DueList(endpoints, default), now, poll)
    {
      hide StartAll, StartOne, Wake, MayStart, Listed, IntervalFor, Seen;
      next := now + poll;
      ghost var start, due := Contents(), DueList(endpoints, default);
      var active: set<int> := {};
      NothingStarted(start, now, poll);
      for k := 0 to |endpoints|
        invariant Contents() == StartAll(start, due[..k], now)
        invariant next == Wake(start.entries, due[..k], now, poll)
        invariant forall id :: id in active <==> Listed(due[..k], id)
      {
        OneMoreStarted(start, due, k, now, poll);
        ListedNext(due, k);
        active := active + {endpoints[k].id};
        next := StartIfDue(Due(endpoints[k].id, IntervalFor(endpoints[k].override, default)), now, next);
      }
      assert due[..|due|] == due;
      entries := map id | id in entries && (id in active || entries[id].running) ::
        if id in active then entries[id] else entries[id].(dropped := true);
      past := Seen(past, queued + running, due);
    }

    method StartIfDue(d: Due, now: Instant, wake: Instant) returns (next: Instant)
      modifies this`entries, this`queued
      ensures Contents() == StartOne(old(Contents()), d, now)
      ensures next == Earlier(EntryOf(old(entries), d.id), d.interval, now, wake)
    {
      next := wake;
      var e := if d.id in entries then entries[d.id] else NEW_ENTRY;
      if e.running {
        entries := entries[d.id := e];
      } else if !e.hasRun || e.completedAt.None? || e.completedAt.value + d.interval <= now {
        entries := entries[d.id := e.(running := true, hasRun := true)];
        queued := queued + multiset{d.id};
      } else {
        entries := entries[d.id := e];
        if e.completedAt.value + d.interval < next {
          next := e.completedAt.value + d.interval;
        }
      }
    }

    method FinishRound(id: int, completed: bool, now: Instant)
      modifies this`entries, this`past
      ensures Contents() == Finish(old(Contents()), id, completed, now)
    {
      past := Ended(past, id, completed, now);
      if id !in entries {
        return;
      }
      if entries[id].dropped {
        entries := entries - {id};
        return;
      }
      var e := entries[id].(running := false);
      if completed {
        e := e.(completedAt := Some(now));
      }
      entries := entries[id := e];
    }
  }

  lemma NothingStarted(s: State, now: Instant, poll: int)
    ensures StartAll(s, [], now) == s && Wake(s.entries, [], now, poll) == now + poll && forall id :: !Listed([], id)
  {
  }

  lemma OneMoreStarted(s: State, due: seq<Due>, k: nat, now: Instant, poll: int)
    requires k < |due| && forall i, j | 0 <= i < j < |due| :: due[i].id != due[j].id
    ensures StartAll(s, due[..k + 1], now) == StartOne(StartAll(s, due[..k], now), due[k], now)
    ensures Wake(s.entries, due[..k + 1], now, poll) ==
      Earlier(EntryOf(StartAll(s, due[..k], now).entries, due[k].id), due[k].interval, now, Wake(s.entries, due[..k], now, poll))
  {
    assert due[..k + 1][..k] == due[..k];
    assert !Listed(due[..k], due[k].id);
    StartAllElsewhere(s, due[..k], now, due[k].id);
  }

  lemma ListedNext(due: seq<Due>, k: nat)
    requires k < |due|
    ensures forall id :: Listed(due[..k + 1], id) <==> Listed(due[..k], id) || id == due[k].id
  {
    assert due[..k + 1] == due[..k] + [due[k]];
    forall id ensures Listed(due[..k + 1], id) <==> Listed(due[..k], id) || id == due[k].id {
      ListedAppend(due[..k], due[k], id);
    }
  }

  lemma ListedAppend(due: seq<Due>, d: Due, id: int)
    ensures Listed(due + [d], id) <==> Listed(due, id) || id == d.id
  {
    if i: int :| 0 <= i < |due| && due[i].id == id { assert (due + [d])[i].id == id; }
    if id == d.id { assert (due + [d])[|due|].id == id; }
  }
}
