/**
 What a flush delivers, read off the buffered window, the log and the webhook's
 answers: which events go out, on which card, and when nothing goes out at all.
 */
module AlertFlush {
  import opened Wrappers
  import opened QuietHours
  import opened Alerts
  import opened AlertDelivery
  import opened AlertRounds

  predicate Ok(oks: seq<bool>, n: nat) {
    n < |oks| && oks[n]
  }

  /** An event whose delivery is unconfirmed. */
  predicate Unsent(log: seq<Event>, id: nat) {
    !(id < |log| && log[id].sent)
  }

  // ---------------------------------------------------------------------
  // The cards of a window

  /** How many of the first n group events are unconfirmed: the number of the card that the next one gets. */
  function Rank(log: seq<Event>, gs: seq<GroupCard>, n: nat): (r: nat)
    requires n <= |gs|
    ensures r <= n
  {
    if n == 0 then 0 else Rank(log, gs, n - 1) + if Unsent(log, gs[n - 1].id) then 1 else 0
  }

  predicate RevokedBehind(log: seq<Event>, gs: seq<GroupCard>, i: nat, family: string, m: Ref) {
    exists j :: i < j < |gs| && Unsent(log, gs[j].id) && Revokes(gs[j], family, m)
  }

  /** An unconfirmed group_down of the window lists the member, and no unconfirmed group_recovered behind it lists it as recovered. */
  predicate StillTold(log: seq<Event>, gs: seq<GroupCard>, family: string, m: Ref) {
    exists i: nat :: i < |gs| && Unsent(log, gs[i].id) && Tells(gs[i], family, m) && !RevokedBehind(log, gs, i, family, m)
  }

  /** A buffered transition that a card of this flush shows. */
  predicate Shown(s: State, t: Buffered, kind: Kind) {
    && t in s.window.pending && t.kind == kind && Unsent(s.log, t.id) && !t.absorbed
    && (kind == Down ==> !StillTold(s.log, s.window.groups, t.family, t.who))
  }

  ghost predicate ShowsAny(s: State, kind: Kind) {
    exists t :: Shown(s, t, kind)
  }

  ghost predicate ShowsId(s: State, kind: Kind, id: nat) {
    exists t :: Shown(s, t, kind) && t.id == id
  }

  function GroupCards(s: State): nat {
    Rank(s.log, s.window.groups, |s.window.groups|)
  }

  /** Group cards come first, one for each unconfirmed group event. */
  ghost predicate OnGroupCard(s: State, id: nat, n: nat) {
    exists k: nat :: k < |s.window.groups| && s.window.groups[k].id == id && Unsent(s.log, id) && n == Rank(s.log, s.window.groups, k)
  }

  ghost function DownCards(s: State): nat {
    if ShowsAny(s, Down) then 1 else 0
  }

  ghost function RecoveredCards(s: State): nat {
    if ShowsAny(s, Recovered) then 1 else 0
  }

  /** Event id goes out on card n: its own group card, the one down card, or the one recovered card. */
  ghost predicate OnCard(s: State, id: nat, n: nat) {
    || OnGroupCard(s, id, n)
    || (ShowsId(s, Down, id) && n == GroupCards(s))
    || (ShowsId(s, Recovered, id) && n == GroupCards(s) + DownCards(s))
  }

  // ---------------------------------------------------------------------
  // Sending a list of cards

  /** Card n reports event id: the event and the count of its deliveries say whether the send succeeded. */
  predicate Reported(s: State, s': State, id: nat, ok: bool) {
    && id < |s.log| && id < |s'.log| && s'.log[id] == s.log[id].(sent := ok)
    && s'.delivered[id] == s.delivered[id] + if ok then 1 else 0
  }

  predicate Untouched(s: State, s': State, id: nat) {
    s'.delivered[id] == s.delivered[id] && (id < |s.log| ==> id < |s'.log| && s'.log[id] == s.log[id])
  }

  predicate Recorded(s: State, s': State, oks: seq<bool>, cards: nat) {
    && |s'.log| == |s.log| + cards
    && forall n: nat | n < cards :: s'.log[|s.log| + n] == Event(Batch, Nobody, Ok(oks, n))
  }

  lemma OneCard(s: State, ids: seq<nat>, ok: bool, kind: Kind)
    requires Distinct(ids) && forall id | id in ids :: id < |s.log|
    ensures var s' := SendCard(s, ids, ok, kind);
      && (forall id | id in ids :: Reported(s, s', id, ok))
      && (forall id: nat | id !in ids :: Untouched(s, s', id))
      && |s'.log| == |s.log| + 1 && s'.log[|s.log|] == Event(kind, Nobody, ok)
      && s'.window == s.window && s'.caches == s.caches && s'.drops == s.drops
  {
    forall id: nat ensures multiset(ids)[id] == if id in ids then 1 else 0 { CountOf(ids, id); }
  }

  lemma {:induction false} SendCardsDeliver(s: State, cards: seq<seq<nat>>, oks: seq<bool>)
    requires Distinct(Flat(cards)) && forall id | id in Flat(cards) :: id < |s.log|
    ensures var s' := SendCards(s, cards, oks);
      && Recorded(s, s', oks, |cards|)
      && (forall n: nat, id | n < |cards| && id in cards[n] :: Reported(s, s', id, Ok(oks, n)))
      && (forall id: nat | id !in Flat(cards) :: Untouched(s, s', id))
      && s'.window == s.window && s'.caches == s.caches && s'.drops == s.drops
  {
    if cards != [] {
      var n := |cards| - 1;
      var front, last := Flat(cards[..n]), cards[n];
      assert Flat(cards) == front + last;
      FrontOf(front, last);
      assert forall id | id in front :: id in Flat(cards);
      assert forall id | id in last :: id in Flat(cards);
      SendCardsDeliver(s, cards[..n], oks);
      var s1 := SendCards(s, cards[..n], oks);
      OneCard(s1, last, Ok(oks, n), Batch);
      LastCard(s, cards, oks, s1);
    }
  }

  lemma LastCard(s: State, cards: seq<seq<nat>>, oks: seq<bool>, s1: State)
    requires cards != [] && s1 == SendCards(s, cards[..|cards| - 1], oks)
    requires var n := |cards| - 1;
      && Recorded(s, s1, oks, n)
      && (forall m: nat, id | m < n && id in cards[..n][m] :: Reported(s, s1, id, Ok(oks, m)))
      && (forall id: nat | id !in Flat(cards[..n]) :: Untouched(s, s1, id))
      && (forall id | id in cards[n] :: id !in Flat(cards[..n]) && id < |s.log|)
      && var s' := SendCard(s1, cards[n], Ok(oks, n), Batch);
      && (forall id | id in cards[n] :: Reported(s1, s', id, Ok(oks, n)))
      && (forall id: nat | id !in cards[n] :: Untouched(s1, s', id))
      && |s'.log| == |s1.log| + 1 && s'.log[|s1.log|] == Event(Batch, Nobody, Ok(oks, n))
    ensures var s' := SendCards(s, cards, oks);
      && Recorded(s, s', oks, |cards|)
      && (forall m: nat, id | m < |cards| && id in cards[m] :: Reported(s, s', id, Ok(oks, m)))
      && (forall id: nat | id !in Flat(cards) :: Untouched(s, s', id))
  {
    hide SendCard, Flat, Distinct;
    var n := |cards| - 1;
    var s' := SendCard(s1, cards[n], Ok(oks, n), Batch);
    assert s' == SendCards(s, cards, oks);
    FlatLast(cards);
    forall m: nat | m < |cards| ensures s'.log[|s.log| + m] == Event(Batch, Nobody, Ok(oks, m)) {
      if m < n {
        assert |s.log| + m !in cards[n];
        assert Untouched(s1, s', |s.log| + m);
      }
    }
    forall m: nat, id | m < |cards| && id in cards[m] ensures Reported(s, s', id, Ok(oks, m)) {
      if m < n {
        assert cards[..n][m] == cards[m];
        InFlat(cards[..n], m, id);
        assert Untouched(s1, s', id);
      }
    }
  }

  lemma FlatLast(cards: seq<seq<nat>>)
    requires cards != []
    ensures Flat(cards) == Flat(cards[..|cards| - 1]) + cards[|cards| - 1]
  {
  }

  lemma {:induction false} InFlat(cards: seq<seq<nat>>, n: nat, id: nat)
    requires n < |cards| && id in cards[n]
    ensures id in Flat(cards)
  {
    if n < |cards| - 1 {
      InFlat(cards[..|cards| - 1], n, id);
    }
  }

  lemma {:induction false} FlatIn(cards: seq<seq<nat>>, id: nat) returns (n: nat)
    requires id in Flat(cards)
    ensures n < |cards| && id in cards[n]
  {
    n := |cards| - 1;
    if id !in cards[n] {
      n := FlatIn(cards[..n], id);
    }
  }

  // ---------------------------------------------------------------------
  // The cards are those of the window

  lemma {:induction false} GroupRanks(log: seq<Event>, gs: seq<GroupCard>)
    ensures var us := UnconfirmedGroups(log, gs);
      && |us| == Rank(log, gs, |gs|)
      && forall k: nat | k < |gs| && Unsent(log, gs[k].id) :: Rank(log, gs, k) < |us| && us[Rank(log, gs, k)] == gs[k]
  {
    if gs != [] {
      var n := |gs| - 1;
      GroupRanks(log, gs[..n]);
      RanksOfFront(log, gs, n);
      forall k: nat | k < n && Unsent(log, gs[k].id)
        ensures Rank(log, gs, k) < |UnconfirmedGroups(log, gs)| && UnconfirmedGroups(log, gs)[Rank(log, gs, k)] == gs[k]
      {
        assert gs[..n][k] == gs[k];
      }
    }
  }

  /** Every group card is that of some unconfirmed group event. */
  lemma {:induction false} RankHit(log: seq<Event>, gs: seq<GroupCard>, n: nat, i: nat) returns (k: nat)
    requires n <= |gs| && i < Rank(log, gs, n)
    ensures k < n && Unsent(log, gs[k].id) && Rank(log, gs, k) == i
  {
    k := n - 1;
    if !(Unsent(log, gs[k].id) && Rank(log, gs, k) == i) {
      k := RankHit(log, gs, k, i);
    }
  }

  lemma RanksOfFront(log: seq<Event>, gs: seq<GroupCard>, n: nat)
    requires n <= |gs|
    ensures forall k: nat | k <= n :: Rank(log, gs[..n], k) == Rank(log, gs, k)
  {
    forall k: nat | k <= n ensures Rank(log, gs[..n], k) == Rank(log, gs, k) { RankOfFront(log, gs, n, k); }
  }

  lemma {:induction false} RankOfFront(log: seq<Event>, gs: seq<GroupCard>, n: nat, k: nat)
    requires k <= n <= |gs|
    ensures Rank(log, gs[..n], k) == Rank(log, gs, k)
  {
    if k > 0 {
      RankOfFront(log, gs, n, k - 1);
    }
  }

  /** Replaying only the unconfirmed cards tells the same as looking for them in the window. */
  lemma {:induction false} ToldInWindow(log: seq<Event>, gs: seq<GroupCard>, family: string, m: Ref)
    ensures Told(UnconfirmedGroups(log, gs), family, m) <==> StillTold(log, gs, family, m)
  {
    hide Told, StillTold, Unsent, Tells, Revokes, RevokedBehind;
    if gs == [] {
      NothingTold(family, m);
      NothingStillTold(log, family, m);
    } else {
      var n := |gs| - 1;
      var front := UnconfirmedGroups(log, gs[..n]);
      ToldInWindow(log, gs[..n], family, m);
      StillToldFront(log, gs, family, m);
      if Unsent(log, gs[n].id) {
        UnsentIsUnconfirmed(log, gs[n].id);
        assert UnconfirmedGroups(log, gs) == front + [gs[n]];
        assert (front + [gs[n]])[..|front|] == front;
        ToldFront(front + [gs[n]], family, m);
      } else {
        UnsentIsUnconfirmed(log, gs[n].id);
        assert UnconfirmedGroups(log, gs) == front;
      }
    }
  }

  lemma UnsentIsUnconfirmed(log: seq<Event>, id: nat)
    ensures Unsent(log, id) <==> !Confirmed(log, id)
  {
  }

  lemma NothingStillTold(log: seq<Event>, family: string, m: Ref)
    ensures !StillTold(log, [], family, m)
  {
  }

  lemma StillToldFront(log: seq<Event>, gs: seq<GroupCard>, family: string, m: Ref)
    requires gs != []
    ensures var n := |gs| - 1;
      StillTold(log, gs, family, m) <==>
        if Unsent(log, gs[n].id) then Tells(gs[n], family, m) || (StillTold(log, gs[..n], family, m) && !Revokes(gs[n], family, m))
        else StillTold(log, gs[..n], family, m)
  {
    hide Tells, Revokes, Unsent;
    var n := |gs| - 1;
    var front := gs[..n];
    forall i: nat | i < n ensures RevokedBehind(log, gs, i, family, m) <==> RevokedBehind(log, front, i, family, m) || (Unsent(log, gs[n].id) && Revokes(gs[n], family, m)) {
      if j :| i < j < |front| && Unsent(log, front[j].id) && Revokes(front[j], family, m) { assert gs[j] == front[j]; }
      if j :| i < j < |gs| && Unsent(log, gs[j].id) && Revokes(gs[j], family, m) { assert j < n ==> front[j] == gs[j]; }
    }
    if i: nat :| i < |gs| && Unsent(log, gs[i].id) && Tells(gs[i], family, m) && !RevokedBehind(log, gs, i, family, m) {
      assert i < n ==> front[i] == gs[i];
    }
    if i: nat :| i < |front| && Unsent(log, front[i].id) && Tells(front[i], family, m) && !RevokedBehind(log, front, i, family, m) {
      assert gs[i] == front[i];
    }
    assert !RevokedBehind(log, gs, n, family, m);
  }

  /** The ids on an endpoint card are those of the buffered transitions it is to show. */
  lemma ShownIds(s: State, kind: Kind)
    requires WindowOk(s.log, s.window)
    ensures var ids := CardIds(UnconfirmedGroups(s.log, s.window.groups), UnconfirmedTransitions(s.log, s.window.pending), kind);
      (forall id: nat :: id in ids <==> ShowsId(s, kind, id)) && (ids == [] <==> !ShowsAny(s, kind))
  {
    hide CardIds, Covered, UnconfirmedGroups, UnconfirmedTransitions, StillTold, Confirmed, Unsent;
    var gs, ts := UnconfirmedGroups(s.log, s.window.groups), UnconfirmedTransitions(s.log, s.window.pending);
    UnconfirmedMembers(s.log, s.window.pending);
    CardIdsAre(gs, ts, kind);
    var ids := CardIds(gs, ts, kind);
    forall t: Buffered | t.kind == kind ensures t in ts && Renders(gs, t) <==> Shown(s, t, kind) {
      UnsentIsUnconfirmed(s.log, t.id);
      CoveredExactly(gs, t.family, t.who);
      ToldInWindow(s.log, s.window.groups, t.family, t.who);
    }
    forall id: nat ensures id in ids <==> ShowsId(s, kind, id) {
      if ShowsId(s, kind, id) {
        var t :| Shown(s, t, kind) && t.id == id;
        assert t in ts;
        var i :| 0 <= i < |ts| && ts[i] == t;
      }
      if id in ids {
        var i :| 0 <= i < |ts| && ts[i].id == id && ts[i].kind == kind && Renders(gs, ts[i]);
        assert Shown(s, ts[i], kind);
      }
    }
    AnyIsSome(s, kind, ids);
  }

  lemma AnyIsSome(s: State, kind: Kind, ids: seq<nat>)
    requires forall id: nat :: id in ids <==> ShowsId(s, kind, id)
    ensures ids == [] <==> !ShowsAny(s, kind)
  {
    if ids != [] { assert ids[0] in ids; }
    if ShowsAny(s, kind) {
      var t :| Shown(s, t, kind);
      assert ShowsId(s, kind, t.id);
    }
  }

  lemma {:induction false} GroupCardOf(gs: seq<GroupCard>, n: nat)
    requires n < |gs|
    ensures |GroupIds(gs)| == |gs| && GroupIds(gs)[n] == [gs[n].id]
  {
    if n < |gs| - 1 {
      GroupCardOf(gs[..|gs| - 1], n);
    } else {
      GroupIdsLength(gs[..n]);
    }
  }

  lemma {:induction false} GroupIdsLength(gs: seq<GroupCard>)
    ensures |GroupIds(gs)| == |gs|
  {
    if gs != [] {
      GroupIdsLength(gs[..|gs| - 1]);
    }
  }

  lemma GroupCardIds(s: State, id: nat, n: nat)
    ensures var gs := UnconfirmedGroups(s.log, s.window.groups);
      |GroupIds(gs)| == GroupCards(s) && (OnGroupCard(s, id, n) <==> n < GroupCards(s) && id in GroupIds(gs)[n])
  {
    hide GroupIds, UnconfirmedGroups, Rank, Unsent;
    var gs := UnconfirmedGroups(s.log, s.window.groups);
    GroupRanks(s.log, s.window.groups);
    GroupIdsLength(gs);
    if n < |gs| {
      GroupCardOf(gs, n);
      var k := RankHit(s.log, s.window.groups, |s.window.groups|, n);
    }
  }

  lemma CardsOf(s: State)
    requires WindowOk(s.log, s.window)
    ensures var cards := Cards(UnconfirmedGroups(s.log, s.window.groups), UnconfirmedTransitions(s.log, s.window.pending));
      && |cards| == GroupCards(s) + DownCards(s) + RecoveredCards(s)
      && forall id: nat, n: nat :: OnCard(s, id, n) <==> n < |cards| && id in cards[n]
  {
    hide CardIds, GroupIds, UnconfirmedGroups, UnconfirmedTransitions, Rank, OnGroupCard, ShowsAny, ShowsId, WindowOk;
    ShownIds(s, Down);
    ShownIds(s, Recovered);
    GroupCardIds(s, 0, 0);
    var cards := Cards(UnconfirmedGroups(s.log, s.window.groups), UnconfirmedTransitions(s.log, s.window.pending));
    forall id: nat, n: nat ensures OnCard(s, id, n) <==> n < |cards| && id in cards[n] {
      GroupCardIds(s, id, n);
    }
  }

  // ---------------------------------------------------------------------
  // The flush

  /** Quiet hours are on, and some instant of the minute before the flush is due lies in them. */
  ghost predicate QuietMinuteBefore(q: Quiet, firesAt: Instant) {
    && q.enabled && q.start != q.end && 0 <= q.start < 24 && 0 <= q.end < 24
    && exists t: Instant, k: int :: firesAt - 60_000_000_000 <= t <= firesAt && 0 <= k < (q.end - q.start) % 24 && Shows(q.start, k, HourOfDay(t))
  }

  function DueAt(s: State, at: Instant): Instant {
    if s.window.firesAt.Some? then s.window.firesAt.value else at
  }

  /**
   With a webhook and no quiet instant in its minute, a flush sends every unconfirmed group event, each unconfirmed
   down that was neither absorbed nor is still told by a group card, and each unconfirmed recovery that was not
   absorbed. Each is delivered and confirmed exactly when its card's send succeeded; every card leaves one batch
   event with its own result, group cards first; nothing else changes, and the window is empty.
   */
  lemma FlushDelivers(s: State, q: Quiet, webhook: bool, oks: seq<bool>, at: Instant)
    requires Fine(s) && webhook && !QuietMinuteBefore(q, DueAt(s, at))
    ensures var s' := Apply(s, FlushStep(q, webhook, oks, at));
      && (forall id: nat, n: nat | OnCard(s, id, n) :: Reported(s, s', id, Ok(oks, n)))
      && (forall id: nat | (forall n: nat :: !OnCard(s, id, n)) :: Untouched(s, s', id))
      && Recorded(s, s', oks, GroupCards(s) + DownCards(s) + RecoveredCards(s))
      && s'.window == EMPTY_WINDOW && s'.caches == s.caches && s'.drops == s.drops
  {
    hide Cards, SendCards, UnconfirmedGroups, UnconfirmedTransitions, OnCard, Honest, DropsOk, Rank, ShowsAny, Flat, Untouched, Reported, Recorded;
    QuietMinute(q, DueAt(s, at));
    var cards := Cards(UnconfirmedGroups(s.log, s.window.groups), UnconfirmedTransitions(s.log, s.window.pending));
    var s1 := s.(window := EMPTY_WINDOW);
    FlushIds(s.log, s.window);
    UndeliveredInLog(s.log, Flat(cards));
    SendCardsDeliver(s1, cards, oks);
    CardsOf(s);
    var s' := SendCards(s1, cards, oks);
    FlushSends(s, q, oks, at);
    SameBooks(s, s1, s', oks);
    forall id: nat | (forall n: nat :: !OnCard(s, id, n)) ensures Untouched(s, s', id) {
      if id in Flat(cards) { var n := FlatIn(cards, id); }
    }
  }

  lemma UndeliveredInLog(log: seq<Event>, ids: seq<nat>)
    requires Undelivered(log, ids)
    ensures forall id | id in ids :: id < |log|
  {
  }

  lemma FlushSends(s: State, q: Quiet, oks: seq<bool>, at: Instant)
    requires !Held(q, DueAt(s, at))
    ensures Apply(s, FlushStep(q, true, oks, at)) ==
      SendCards(s.(window := EMPTY_WINDOW), Cards(UnconfirmedGroups(s.log, s.window.groups), UnconfirmedTransitions(s.log, s.window.pending)), oks)
  {
    hide Held;
  }

  lemma SameBooks(s: State, s1: State, s': State, oks: seq<bool>)
    requires s1 == s.(window := EMPTY_WINDOW)
    ensures forall id: nat, ok: bool :: Reported(s1, s', id, ok) == Reported(s, s', id, ok)
    ensures forall id: nat :: Untouched(s1, s', id) == Untouched(s, s', id)
    ensures forall cards: nat :: Recorded(s1, s', oks, cards) == Recorded(s, s', oks, cards)
  {
  }

  /** Without a webhook, or with a quiet instant in its minute, a flush only empties the window: nothing is sent or recorded. */
  lemma FlushHeld(s: State, q: Quiet, webhook: bool, oks: seq<bool>, at: Instant)
    requires !webhook || QuietMinuteBefore(q, DueAt(s, at))
    ensures Apply(s, FlushStep(q, webhook, oks, at)) == s.(window := EMPTY_WINDOW)
  {
    QuietMinute(q, DueAt(s, at));
  }

  // ---------------------------------------------------------------------
  // The summary at the end of quiet hours, and score drops

  /** A down or group_down that no later transition of its subject has followed, not yet confirmed. */
  predicate OpenStory(log: seq<Event>, i: nat) {
    i < |log| && NewestAt(log, log[i].about, i) && (log[i].kind == Down || log[i].kind == GroupDown) && !log[i].sent
  }

  ghost predicate VendorStory(log: seq<Event>, family: string) {
    exists i: nat :: OpenStory(log, i) && log[i].about == Vendor(family)
  }

  /** The summary tells the open stories, an endpoint's only when its vendor has none, and the deferred score drops. */
  ghost predicate InSummary(s: State, familyOf: map<int, string>, id: nat) {
    || id in s.drops
    || (OpenStory(s.log, id) &&
         match s.log[id].about
         case Endpoint(e) => e in familyOf && !VendorStory(s.log, familyOf[e])
         case _ => true)
  }

  lemma StoriesAreAnchors(log: seq<Event>, i: nat)
    ensures OpenStory(log, i) <==> Anchor(log, i) && !log[i].sent
  {
    hide Latest, NewestAt;
    if i < |log| { AlarmedIsOpen(log, log[i].about); }
  }

  lemma VendorStories(log: seq<Event>, family: string)
    ensures VendorStory(log, family) <==> ReportedFamily(log, family)
  {
    hide OpenStory, Anchor;
    forall i: nat | i < |log| ensures OpenStory(log, i) <==> Anchor(log, i) && !log[i].sent { StoriesAreAnchors(log, i); }
    if VendorStory(log, family) {
      var i: nat :| i < |log| && OpenStory(log, i) && log[i].about == Vendor(family) by { StoriesInLog(log); }
      assert Anchor(log, i);
    }
    if ReportedFamily(log, family) {
      var i: nat :| i < |log| && Anchor(log, i) && log[i].about == Vendor(family) && !log[i].sent;
      assert OpenStory(log, i);
    }
  }

  lemma StoriesInLog(log: seq<Event>)
    ensures forall i: nat :: OpenStory(log, i) ==> i < |log|
    ensures forall i: nat :: Anchor(log, i) ==> i < |log|
  {
  }

  lemma SummaryTells(s: State, familyOf: map<int, string>, id: nat)
    ensures InSummary(s, familyOf, id) <==> id in SummaryIds(s.log, familyOf, |s.log|) + s.drops
  {
    hide Anchor, OpenStory, SummaryIds, VendorStory, ReportedFamily;
    StoriesInLog(s.log);
    StoriesAreAnchors(s.log, id);
    if id < |s.log| && s.log[id].about.Endpoint? && s.log[id].about.id in familyOf {
      VendorStories(s.log, familyOf[s.log[id].about.id]);
    }
  }

  lemma NothingToTell(s: State, familyOf: map<int, string>, ids: seq<nat>)
    requires forall id: nat :: InSummary(s, familyOf, id) <==> id in ids
    ensures ids == [] <==> forall id: nat :: !InSummary(s, familyOf, id)
  {
    if ids != [] { assert ids[0] in ids; }
  }

  /** With a webhook the summary goes out once if there is anything to tell; what it tells is confirmed and delivered exactly when the send succeeded. */
  lemma SummaryDelivers(s: State, webhook: bool, familyOf: map<int, string>, ok: bool)
    requires Fine(s)
    ensures var s' := Apply(s, SummaryStep(webhook, familyOf, ok));
      if !webhook then s' == s.(drops := [])
      else if forall id: nat :: !InSummary(s, familyOf, id) then s' == s
      else
        && (forall id: nat | InSummary(s, familyOf, id) :: Reported(s, s', id, ok))
        && (forall id: nat | !InSummary(s, familyOf, id) :: Untouched(s, s', id))
        && |s'.log| == |s.log| + 1 && s'.log[|s.log|] == Event(QuietSummary, Nobody, ok)
        && s'.window == s.window && s'.caches == s.caches && s'.drops == []
  {
    hide SummaryIds, InSummary, Honest, WindowOk, Summarised, SendCard, Distinct, Undelivered;
    var ids := SummaryIds(s.log, familyOf, |s.log|) + s.drops;
    forall id: nat ensures InSummary(s, familyOf, id) <==> id in ids { SummaryTells(s, familyOf, id); }
    NothingToTell(s, familyOf, ids);
    SummaryIdsFit(s, familyOf);
    UndeliveredInLog(s.log, ids);
    OneCard(s, ids, ok, QuietSummary);
    assert webhook && ids == [] ==> s.drops == [];
  }

  /** A score drop outside quiet hours is delivered with its own send; inside, it stays unconfirmed and waits for the summary. */
  lemma DropDelivers(s: State, quiet: bool, ok: bool)
    requires Fine(s)
    ensures var s', id := Apply(s, DropStep(quiet, ok)), |s.log|;
      && |s'.log| == id + 1 && s'.log[id].kind == ScoreDrop && (s'.log[id].sent <==> !quiet && ok)
      && s'.delivered[id] == (if !quiet && ok then 1 else 0) && (forall i: nat | i != id :: Untouched(s, s', i))
      && (id in s'.drops <==> quiet)
  {
    hide WindowOk;
    assert |s.log| !in s.delivered;
    assert quiet ==> (s.drops + [|s.log|])[|s.drops|] == |s.log|;
  }

  /** The next summary then delivers it. */
  lemma DeferredDropIsTold(s: State, familyOf: map<int, string>, ok: bool, sent: bool)
    requires Fine(s)
    ensures var id, s2 := |s.log|, Apply(Apply(s, DropStep(true, ok)), SummaryStep(true, familyOf, sent));
      id < |s2.log| && s2.log[id].sent == sent && s2.delivered[id] == if sent then 1 else 0
  {
    hide Apply, Fine, Summary;
    var s' := Apply(s, DropStep(true, ok));
    DropDelivers(s, true, ok);
    StepKeeps(s, DropStep(true, ok));
    SummaryDelivers(s', true, familyOf, sent);
    assert InSummary(s', familyOf, |s.log|);
  }

  /** A restart keeps the log and what was delivered, and loses caches, buffered transitions and deferred drops. */
  lemma RestartForgets(s: State)
    ensures Apply(s, RestartStep) == START.(log := s.log, delivered := s.delivered)
  {
  }
}
