/**
 Sliding-window failure counters that keep only a bounded tail of timestamps
 per key and sweep stale keys, against the full history of failures since the
 last reset. Instants never decrease.
 */
module Counters {
  import opened Wrappers

  type Instant = int

  /** The failures that are still inside the window. */
  function Recent(ts: seq<Instant>, cutoff: Instant): (r: seq<Instant>)
    ensures |r| <= |ts|
  {
    if ts == [] then []
    else Recent(ts[..|ts| - 1], cutoff) + (if ts[|ts| - 1] > cutoff then [ts[|ts| - 1]] else [])
  }

  function Tail(ts: seq<Instant>, keep: nat): seq<Instant> {
    if |ts| > keep then ts[|ts| - keep..] else ts
  }

  predicate Ordered(ts: seq<Instant>) {
    forall i, j | 0 <= i < j < |ts| :: ts[i] <= ts[j]
  }

  // ---------------------------------------------------------------------
  // Tails of an ordered history

  /** A list that is expired up to k and recent from k on. */
  predicate SplitAt(ts: seq<Instant>, cutoff: Instant, k: nat) {
    k <= |ts| && (forall i | 0 <= i < k :: ts[i] <= cutoff) && forall i | k <= i < |ts| :: ts[i] > cutoff
  }

  lemma {:induction false} RecentFrom(ts: seq<Instant>, cutoff: Instant, k: nat)
    requires SplitAt(ts, cutoff, k)
    ensures Recent(ts, cutoff) == ts[k..]
  {
    if ts != [] {
      var n := |ts| - 1;
      if k <= n {
        RecentFrom(ts[..n], cutoff, k);
        assert ts[k..] == ts[..n][k..] + [ts[n]];
      } else {
        RecentFrom(ts[..n], cutoff, n);
      }
    }
  }

  /** Where an ordered history splits. */
  function Split(ts: seq<Instant>, cutoff: Instant): (k: nat)
    requires Ordered(ts)
    ensures SplitAt(ts, cutoff, k)
  {
    if ts == [] || ts[|ts| - 1] <= cutoff then |ts| else Split(ts[..|ts| - 1], cutoff)
  }

  /** A tail of an ordered list has as many recent failures as the list, up to its own length. */
  lemma TailRecent(ts: seq<Instant>, keep: nat, cutoff: Instant)
    requires Ordered(ts)
    ensures Recent(Tail(ts, keep), cutoff) == Tail(Recent(ts, cutoff), keep)
    ensures var n := |Recent(ts, cutoff)|; |Recent(Tail(ts, keep), cutoff)| == if n < keep then n else keep
  {
    hide Recent, Split;
    var k, t := Split(ts, cutoff), Tail(ts, keep);
    var skip := |ts| - |t|;
    var j: nat := if k > skip then k - skip else 0;
    assert t == ts[skip..];
    RecentFrom(ts, cutoff, k);
    RecentFrom(t, cutoff, j);
    assert t[j..] == ts[skip + j..];
    assert Tail(ts[k..], keep) == ts[skip + j..];
  }

  /** What has already left the window stays out of it. */
  lemma RecentOfRecent(ts: seq<Instant>, early: Instant, late: Instant)
    requires Ordered(ts) && early <= late
    ensures Recent(Recent(ts, early), late) == Recent(ts, late) && Ordered(Recent(ts, early))
  {
    hide Recent, Split;
    var a, b := Split(ts, early), Split(ts, late);
    assert b < |ts| ==> ts[b] > late;
    assert a <= b;
    RecentFrom(ts, early, a);
    RecentFrom(ts, late, b);
    RecentFrom(ts[a..], late, b - a);
    assert ts[a..][b - a..] == ts[b..];
  }

  // ---------------------------------------------------------------------
  // One key

  datatype Entry = Entry(failures: seq<Instant>, seen: Instant)

  /** The timestamps kept for a key, none when it has no entry. */
  function Kept(e: Option<Entry>): seq<Instant> {
    match e
    case None => []
    case Some(x) => x.failures
  }

  function Note(e: Option<Entry>, now: Instant, window: int, keep: nat): Entry {
    Entry(Tail(Recent(Kept(e), now - window) + [now], keep), now)
  }

  /** The entry remembers what matters of the history: its recent tail, or nothing when everything has expired. */
  predicate Remembers(e: Option<Entry>, history: seq<Instant>, clock: Instant, window: int, keep: nat) {
    && Ordered(history) && (forall i | 0 <= i < |history| :: history[i] <= clock)
    && match e
       case None => forall i | 0 <= i < |history| :: history[i] <= clock - window
       case Some(x) =>
         && x.seen <= clock && history != [] && x.seen == history[|history| - 1]
         && x.failures == Tail(Recent(history, x.seen - window), keep)
  }

  /** At any later time the entry's recent failures are the history's, up to the cap. */
  lemma EntryRecent(e: Option<Entry>, history: seq<Instant>, clock: Instant, window: int, keep: nat, now: Instant)
    requires Remembers(e, history, clock, window, keep) && now >= clock && window > 0
    ensures Recent(Kept(e), now - window) == Tail(Recent(history, now - window), keep)
    ensures var n := |Recent(history, now - window)|; |Recent(Kept(e), now - window)| == if n < keep then n else keep
  {
    hide Recent, Ordered, Tail;
    match e
    case None =>
      NoneRecent(history, now - window);
      NoneRecent([], now - window);
      TailOfNothing(keep);
    case Some(x) =>
      RecentOfRecent(history, x.seen - window, now - window);
      TailRecent(Recent(history, x.seen - window), keep, now - window);
  }

  lemma TailOfNothing(keep: nat)
    ensures Tail([], keep) == []
  {
  }

  lemma {:induction false} NoneRecent(ts: seq<Instant>, cutoff: Instant)
    requires forall i | 0 <= i < |ts| :: ts[i] <= cutoff
    ensures Recent(ts, cutoff) == []
  {
    if ts != [] {
      NoneRecent(ts[..|ts| - 1], cutoff);
    }
  }

  lemma RecentAppend(ts: seq<Instant>, now: Instant, cutoff: Instant)
    ensures Recent(ts + [now], cutoff) == Recent(ts, cutoff) + (if now > cutoff then [now] else [])
  {
    assert (ts + [now])[..|ts|] == ts;
  }

  /** Tails of tails. */
  lemma TailAppend(ts: seq<Instant>, now: Instant, keep: nat)
    requires keep > 0
    ensures Tail(Tail(ts, keep) + [now], keep) == Tail(ts + [now], keep)
  {
  }

  /** Noting a failure keeps the entry faithful. */
  lemma NoteRemembers(e: Option<Entry>, history: seq<Instant>, clock: Instant, window: int, keep: nat, now: Instant)
    requires Remembers(e, history, clock, window, keep) && now >= clock && window > 0 && keep > 0
    ensures Remembers(Some(Note(e, now, window, keep)), history + [now], now, window, keep)
    ensures Note(e, now, window, keep).failures == Tail(Recent(history + [now], now - window), keep)
  {
    hide Recent, Tail;
    EntryRecent(e, history, clock, window, keep, now);
    RecentAppend(history, now, now - window);
    TailAppend(Recent(history, now - window), now, keep);
  }

  /** A stale entry may be swept: its whole history has expired. */
  lemma SweepRemembers(e: Entry, history: seq<Instant>, clock: Instant, window: int, keep: nat, now: Instant)
    requires Remembers(Some(e), history, clock, window, keep) && now >= clock && window > 0 && e.seen < now - window
    ensures Remembers(None, history, now, window, keep)
  {
  }

  lemma LaterRemembers(e: Option<Entry>, history: seq<Instant>, clock: Instant, window: int, keep: nat, now: Instant)
    requires Remembers(e, history, clock, window, keep) && now >= clock
    ensures Remembers(e, history, now, window, keep)
  {
  }

  // ---------------------------------------------------------------------
  // What the counters are for

  /** Whether a captcha is required: threshold failures inside the window. */
  predicate Armed(failures: seq<Instant>, threshold: nat, cutoff: Instant) {
    |Recent(failures, cutoff)| >= threshold
  }

  /** That is when the failure that many places from the newest is still inside the window. */
  lemma ArmedExactly(ts: seq<Instant>, threshold: nat, cutoff: Instant)
    requires Ordered(ts)
    ensures Armed(ts, threshold, cutoff) <==> threshold == 0 || (threshold <= |ts| && ts[|ts| - threshold] > cutoff)
  {
    hide Ordered, Recent;
    var k := Split(ts, cutoff);
    RecentFrom(ts, cutoff, k);
  }

  /** The captcha answer from the capped entry is the answer from the full history. */
  lemma CaptchaAnswer(e: Option<Entry>, history: seq<Instant>, clock: Instant, window: int, threshold: nat, now: Instant)
    requires Remembers(e, history, clock, window, threshold + 1) && now >= clock && window > 0
    ensures Armed(Kept(e), threshold, now - window) <==> Armed(history, threshold, now - window)
  {
    hide Recent, Remembers;
    EntryRecent(e, history, clock, window, threshold + 1, now);
  }

  /** The penalty for the n-th failure in the window: none up to the threshold, then band by band, the last band for ever. */
  function Penalty(n: nat, threshold: nat, backoff: seq<int>): int
    requires backoff != []
  {
    if n <= threshold then 0
    else if n - threshold - 1 >= |backoff| then backoff[|backoff| - 1]
    else backoff[n - threshold - 1]
  }

  /** Up to the threshold nothing; then the first failure over it earns the first band, and so on; past the last band, the last. */
  lemma PenaltyBands(threshold: nat, backoff: seq<int>, n: nat)
    requires backoff != []
    ensures n <= threshold ==> Penalty(n, threshold, backoff) == 0
    ensures forall j: nat | j < |backoff| && n == threshold + 1 + j :: Penalty(n, threshold, backoff) == backoff[j]
    ensures n >= threshold + |backoff| ==> Penalty(n, threshold, backoff) == backoff[|backoff| - 1]
    ensures (forall i, j | 0 <= i < j < |backoff| :: 0 <= backoff[i] <= backoff[j]) && 0 <= backoff[0] ==>
      0 <= Penalty(n, threshold, backoff) <= Penalty(n + 1, threshold, backoff)
  {
  }

  /** The delay earned from the capped entry is the delay earned from the full history. */
  lemma PenaltyAnswer(e: Option<Entry>, history: seq<Instant>, clock: Instant, window: int, threshold: nat, backoff: seq<int>, now: Instant)
    requires backoff != [] && Remembers(e, history, clock, window, threshold + |backoff|) && now >= clock && window > 0
    ensures Penalty(|Note(e, now, window, threshold + |backoff|).failures|, threshold, backoff)
      == Penalty(|Recent(history + [now], now - window)|, threshold, backoff)
  {
    hide Recent, Remembers, Note;
    var keep := threshold + |backoff|;
    NoteRemembers(e, history, clock, window, keep, now);
  }

  // ---------------------------------------------------------------------
  // Tables of keys

  type Table = map<string, Entry>
  type Histories = map<string, seq<Instant>>

  function EntryFor(t: Table, key: string): Option<Entry> {
    if key in t then Some(t[key]) else None
  }

  function HistoryOf(h: Histories, key: string): seq<Instant> {
    if key in h then h[key] else []
  }

  ghost predicate AllRemembered(t: Table, h: Histories, clock: Instant, window: int, keep: nat) {
    forall key: string :: Remembers(EntryFor(t, key), HistoryOf(h, key), clock, window, keep)
  }

  predicate Room(t: Table, key: string, maxEntries: nat) {
    key in t || |t| < maxEntries
  }

  /** Keys whose last failure has left the window. */
  function Swept(t: Table, cutoff: Instant): Table {
    map key | key in t && t[key].seen >= cutoff :: t[key]
  }

  /** One more failure of a key, counted only while there is room. */
  function Recorded(t: Table, key: string, now: Instant, window: int, keep: nat, maxEntries: nat): Table {
    if Room(t, key, maxEntries) then t[key := Note(EntryFor(t, key), now, window, keep)] else t
  }

  lemma SweptRemembers(t: Table, h: Histories, clock: Instant, window: int, keep: nat, now: Instant)
    requires AllRemembered(t, h, clock, window, keep) && now >= clock && window > 0
    ensures AllRemembered(Swept(t, now - window), h, now, window, keep)
  {
    hide Remembers;
    forall key: string ensures Remembers(EntryFor(Swept(t, now - window), key), HistoryOf(h, key), now, window, keep) {
      assert Remembers(EntryFor(t, key), HistoryOf(h, key), clock, window, keep);
      if key in t && t[key].seen < now - window {
        SweepRemembers(t[key], HistoryOf(h, key), clock, window, keep, now);
      } else {
        LaterRemembers(EntryFor(t, key), HistoryOf(h, key), clock, window, keep, now);
      }
    }
  }

  lemma RecordedRemembers(t: Table, h: Histories, clock: Instant, window: int, keep: nat, maxEntries: nat, key: string, now: Instant)
    requires AllRemembered(t, h, clock, window, keep) && now >= clock && window > 0 && keep > 0 && Room(t, key, maxEntries)
    ensures AllRemembered(Recorded(t, key, now, window, keep, maxEntries), h[key := HistoryOf(h, key) + [now]], now, window, keep)
  {
    hide Remembers, Note;
    var t', h' := Recorded(t, key, now, window, keep, maxEntries), h[key := HistoryOf(h, key) + [now]];
    forall k: string ensures Remembers(EntryFor(t', k), HistoryOf(h', k), now, window, keep) {
      assert Remembers(EntryFor(t, k), HistoryOf(h, k), clock, window, keep);
      if k == key {
        NoteRemembers(EntryFor(t, k), HistoryOf(h, k), clock, window, keep, now);
      } else {
        LaterRemembers(EntryFor(t, k), HistoryOf(h, k), clock, window, keep, now);
      }
    }
  }

  /** A sweep never takes room away: a swept key leaves a place of its own. */
  lemma SweepingMakesRoom(t: Table, key: string, cutoff: Instant, maxEntries: nat)
    requires |t| <= maxEntries
    ensures Room(t, key, maxEntries) ==> Room(Swept(t, cutoff), key, maxEntries)
    ensures |Swept(t, cutoff)| <= maxEntries
  {
    var s := Swept(t, cutoff);
    assert |s| == |s.Keys| && |t| == |t.Keys|;
    SubsetSize(s.Keys, t.Keys);
    if key in t && key !in s {
      SubsetSize(s.Keys, t.Keys - {key});
    }
  }

  lemma SubsetSize(a: set<string>, b: set<string>)
    requires a <= b
    ensures |a| <= |b|
  {
    assert |b - a| == |b| - |a|;
  }

  lemma FullTableUnchanged(t: Table, key: string, now: Instant, window: int, keep: nat, maxEntries: nat)
    requires !Room(t, key, maxEntries)
    ensures Recorded(t, key, now, window, keep, maxEntries) == t
  {
  }

  lemma RecordedFits(t: Table, key: string, now: Instant, window: int, keep: nat, maxEntries: nat)
    requires |t| <= maxEntries
    ensures |Recorded(t, key, now, window, keep, maxEntries)| <= maxEntries
  {
    hide Note;
    if key !in t && |t| < maxEntries {
      var r := Recorded(t, key, now, window, keep, maxEntries);
      assert |r| == |r.Keys| && r.Keys == t.Keys + {key};
    } else if key in t {
      var r := Recorded(t, key, now, window, keep, maxEntries);
      assert |r| == |r.Keys| && r.Keys == t.Keys;
    }
  }

  lemma RemovedFits(t: Table, key: string)
    ensures |t - {key}| <= |t|
  {
    assert |t - {key}| == |(t - {key}).Keys|;
    SubsetSize((t - {key}).Keys, t.Keys);
  }

  /** The history the table accounts for: a failure that finds the table full is not counted. */
  ghost function Counted(t: Table, h: Histories, key: string, now: Instant, maxEntries: nat): Histories {
    if Room(t, key, maxEntries) then h[key := HistoryOf(h, key) + [now]] else h
  }

  lemma CountedHistory(h: Histories, key: string, now: Instant)
    ensures HistoryOf(h[key := HistoryOf(h, key) + [now]], key) == HistoryOf(h, key) + [now]
  {
  }

  lemma CountedRemembers(t: Table, h: Histories, clock: Instant, window: int, keep: nat, maxEntries: nat, key: string, now: Instant)
    requires AllRemembered(t, h, clock, window, keep) && now >= clock && window > 0 && keep > 0
    ensures AllRemembered(Recorded(t, key, now, window, keep, maxEntries), Counted(t, h, key, now, maxEntries), now, window, keep)
  {
    hide Remembers, Note;
    if Room(t, key, maxEntries) {
      RecordedRemembers(t, h, clock, window, keep, maxEntries, key, now);
    } else {
      forall k: string ensures Remembers(EntryFor(t, k), HistoryOf(h, k), now, window, keep) {
        LaterRemembers(EntryFor(t, k), HistoryOf(h, k), clock, window, keep, now);
      }
    }
  }

  lemma ResetRemembers(t: Table, h: Histories, clock: Instant, window: int, keep: nat, key: string)
    requires AllRemembered(t, h, clock, window, keep)
    ensures AllRemembered(t - {key}, h - {key}, clock, window, keep)
  {
    hide Remembers;
    forall k: string ensures Remembers(EntryFor(t - {key}, k), HistoryOf(h - {key}, k), clock, window, keep) {
      assert Remembers(EntryFor(t, k), HistoryOf(h, k), clock, window, keep);
      if k == key { NothingRemembered(clock, window, keep); }
    }
  }

  lemma NothingRemembered(clock: Instant, window: int, keep: nat)
    ensures Remembers(None, [], clock, window, keep)
  {
  }

  // ---------------------------------------------------------------------
  // Shared loops

  method DropExpired(ts: seq<Instant>, cutoff: Instant) returns (kept: seq<Instant>)
    ensures kept == Recent(ts, cutoff)
  {
    kept := [];
    for k := 0 to |ts|
      invariant kept == Recent(ts[..k], cutoff)
    {
      assert ts[..k + 1][..k] == ts[..k];
      if ts[k] > cutoff {
        kept := kept + [ts[k]];
      }
    }
    assert ts[..|ts|] == ts;
  }

  method SweepTable(t: Table, cutoff: Instant) returns (r: Table)
    ensures r == Swept(t, cutoff)
  {
    r := t;
    var left := t.Keys;
    while left != {}
      invariant left <= t.Keys
      invariant r == map key | key in t && (key in left || t[key].seen >= cutoff) :: t[key]
      decreases |left|
    {
      NonEmpty(left);
      var key :| key in left;
      left := left - {key};
      if t[key].seen < cutoff {
        r := r - {key};
      }
    }
  }

  lemma NonEmpty(s: set<string>)
    requires s != {}
    ensures exists key :: key in s
  {
    assert (forall key: string :: key !in s) ==> s == {};
  }

  method RecordInto(t: Table, key: string, now: Instant, window: int, keep: nat, maxEntries: nat) returns (r: Table)
    ensures r == Recorded(t, key, now, window, keep, maxEntries)
  {
    if key !in t && |t| >= maxEntries {
      return t;
    }
    var kept := DropExpired(if key in t then t[key].failures else [], now - window);
    var failures := kept + [now];
    if |failures| > keep {
      failures := failures[|failures| - keep..];
    }
    return t[key := Entry(failures, now)];
  }
}

/** Which logins need a captcha: two tables, by address and by user. */
module Captcha {
  import opened Wrappers
  import opened Counters

  const SWEEP_EVERY: nat := 1024

  class Trigger {
    const threshold: nat
    const window: int
    const maxEntries: nat
    var byIP: Table
    var byUser: Table
    var sweeps: nat
    ghost var ipHistory: Histories
    ghost var userHistory: Histories
    ghost var clock: Instant

    constructor (threshold: nat, window: int, maxEntries: nat, clock: Instant)
      requires window > 0 && threshold > 0
      ensures Valid() && this.threshold == threshold && this.window == window && this.maxEntries == maxEntries
      ensures byIP == map[] && byUser == map[] && ipHistory == map[] && userHistory == map[] && this.clock == clock
    {
      this.threshold, this.window, this.maxEntries, this.clock := threshold, window, maxEntries, clock;
      byIP, byUser, sweeps, ipHistory, userHistory := map[], map[], 0, map[], map[];
    }

    /** Both tables remember what matters of every failure since the last reset. */
    ghost predicate Valid()
      reads this
    {
      && window > 0 && threshold > 0 && |byIP| <= maxEntries && |byUser| <= maxEntries
      && AllRemembered(byIP, ipHistory, clock, window, threshold + 1)
      && AllRemembered(byUser, userHistory, clock, window, threshold + 1)
    }

    /** The answer is that of counting every failure since the last reset inside the window. */
    method Required(ip: string, user: string, now: Instant) returns (required: bool)
      requires Valid() && now >= clock
      ensures required <==>
        Armed(HistoryOf(ipHistory, ip), threshold, now - window) || Armed(HistoryOf(userHistory, user), threshold, now - window)
    {
      hide Armed, Remembers;
      CaptchaAnswer(EntryFor(byIP, ip), HistoryOf(ipHistory, ip), clock, window, threshold, now);
      CaptchaAnswer(EntryFor(byUser, user), HistoryOf(userHistory, user), clock, window, threshold, now);
      required := IsArmed(byIP, ip, now - window);
      if !required {
        required := IsArmed(byUser, user, now - window);
      }
    }

    method IsArmed(t: Table, key: string, cutoff: Instant) returns (armed: bool)
      requires threshold > 0
      ensures armed <==> Armed(Kept(EntryFor(t, key)), threshold, cutoff)
    {
      if key !in t {
        return false;
      }
      var count := 0;
      var failures := t[key].failures;
      for k := 0 to |failures|
        invariant count == |Recent(failures[..k], cutoff)|
      {
        assert failures[..k + 1][..k] == failures[..k];
        if failures[k] > cutoff {
          count := count + 1;
        }
      }
      assert failures[..|failures|] == failures;
      return count >= threshold;
    }

    /** Counts the failure in both tables; only a full table leaves a new key uncounted. */
    method RecordFailure(ip: string, user: string, now: Instant)
      requires Valid() && now >= clock
      modifies this
      ensures Valid() && clock == now
      ensures ipHistory == old(ipHistory)[ip := HistoryOf(old(ipHistory), ip) + [now]]
        || (ipHistory == old(ipHistory) && !Room(old(byIP), ip, maxEntries))
      ensures userHistory == old(userHistory)[user := HistoryOf(old(userHistory), user) + [now]]
        || (userHistory == old(userHistory) && !Room(old(byUser), user, maxEntries))
    {
      hide AllRemembered, Recorded, Swept, Room;
      EvictStale(now, ip, user);
      CountedRemembers(byIP, ipHistory, clock, window, threshold + 1, maxEntries, ip, now);
      CountedRemembers(byUser, userHistory, clock, window, threshold + 1, maxEntries, user, now);
      RecordedFits(byIP, ip, now, window, threshold + 1, maxEntries);
      RecordedFits(byUser, user, now, window, threshold + 1, maxEntries);
      ipHistory := Counted(byIP, ipHistory, ip, now, maxEntries);
      userHistory := Counted(byUser, userHistory, user, now, maxEntries);
      byIP := RecordInto(byIP, ip, now, window, threshold + 1, maxEntries);
      byUser := RecordInto(byUser, user, now, window, threshold + 1, maxEntries);
      clock := now;
    }

    /** Every 1024th call drops the keys whose failures have all expired. */
    method EvictStale(now: Instant, ghost ip: string, ghost user: string)
      requires Valid() && now >= clock
      modifies this`sweeps, this`byIP, this`byUser, this`clock
      ensures Valid() && clock <= now
      ensures Room(old(byIP), ip, maxEntries) ==> Room(byIP, ip, maxEntries)
      ensures Room(old(byUser), user, maxEntries) ==> Room(byUser, user, maxEntries)
    {
      hide AllRemembered, Swept, Room;
      sweeps := sweeps + 1;
      if sweeps >= SWEEP_EVERY {
        sweeps := 0;
        SweptRemembers(byIP, ipHistory, clock, window, threshold + 1, now);
        SweptRemembers(byUser, userHistory, clock, window, threshold + 1, now);
        SweepingMakesRoom(byIP, ip, now - window, maxEntries);
        SweepingMakesRoom(byUser, user, now - window, maxEntries);
        byIP := SweepTable(byIP, now - window);
        byUser := SweepTable(byUser, now - window);
        clock := now;
      }
    }

    method Reset(ip: string, user: string)
      requires Valid()
      modifies this
      ensures Valid() && clock == old(clock)
      ensures ipHistory == old(ipHistory) - {ip} && userHistory == old(userHistory) - {user}
    {
      hide AllRemembered;
      ResetRemembers(byIP, ipHistory, clock, window, threshold + 1, ip);
      ResetRemembers(byUser, userHistory, clock, window, threshold + 1, user);
      RemovedFits(byIP, ip);
      RemovedFits(byUser, user);
      byIP, byUser := byIP - {ip}, byUser - {user};
      ipHistory, userHistory := ipHistory - {ip}, userHistory - {user};
    }
  }
}

/** How long a failed login waits: one table, by user. */
module LoginDelay {
  import opened Wrappers
  import opened Counters

  const SWEEP_EVERY: nat := 1024

  class Delayer {
    const threshold: nat
    const window: int
    const backoff: seq<int>
    const maxEntries: nat
    var items: Table
    var sweeps: nat
    ghost var history: Histories
    ghost var clock: Instant

    constructor (threshold: nat, window: int, backoff: seq<int>, maxEntries: nat, clock: Instant)
      requires window > 0 && backoff != []
      ensures Valid() && this.threshold == threshold && this.window == window && this.backoff == backoff && this.maxEntries == maxEntries
      ensures items == map[] && history == map[] && this.clock == clock
    {
      this.threshold, this.window, this.backoff, this.maxEntries, this.clock := threshold, window, backoff, maxEntries, clock;
      items, sweeps, history := map[], 0, map[];
    }

    ghost predicate Valid()
      reads this
    {
      window > 0 && backoff != [] && |items| <= maxEntries && AllRemembered(items, history, clock, window, threshold + |backoff|)
    }

    /**
     The delay is that of counting every failure since the last reset inside the window, this one included; a full
     table leaves a new user uncounted and undelayed.
     */
    method Penalize(user: string, now: Instant) returns (delay: int)
      requires Valid() && now >= clock
      modifies this
      ensures Valid() && clock == now
      ensures
        || (history == old(history)[user := HistoryOf(old(history), user) + [now]]
            && delay == Penalty(|Recent(HistoryOf(history, user), now - window)|, threshold, backoff))
        || (history == old(history) && delay == 0 && !Room(old(items), user, maxEntries))
    {
      hide AllRemembered, Recent, Note, Swept, Recorded, HistoryOf;
      var keep := threshold + |backoff|;
      EvictStale(user, now);
      CountedRemembers(items, history, clock, window, keep, maxEntries, user, now);
      RecordedFits(items, user, now, window, keep, maxEntries);
      if user !in items && |items| >= maxEntries {
        FullTableUnchanged(items, user, now, window, keep, maxEntries);
        clock := now;
        return 0;
      }
      EarnedPenalty(user, now);
      CountedHistory(history, user, now);
      history := Counted(items, history, user, now, maxEntries);
      items := RecordInto(items, user, now, window, keep, maxEntries);
      clock := now;
      var over := |items[user].failures| - threshold;
      if over <= 0 {
        return 0;
      }
      var band := over - 1;
      if band >= |backoff| {
        band := |backoff| - 1;
      }
      return backoff[band];
    }

    /** What the new entry will earn. */
    lemma EarnedPenalty(user: string, now: Instant)
      requires Valid() && now >= clock && Room(items, user, maxEntries)
      ensures var t := Recorded(items, user, now, window, threshold + |backoff|, maxEntries);
        && user in t
        && Penalty(|t[user].failures|, threshold, backoff) == Penalty(|Recent(HistoryOf(history, user) + [now], now - window)|, threshold, backoff)
    {
      hide Recent, Note, Remembers, Penalty;
      assert Remembers(EntryFor(items, user), HistoryOf(history, user), clock, window, threshold + |backoff|);
      PenaltyAnswer(EntryFor(items, user), HistoryOf(history, user), clock, window, threshold, backoff, now);
    }

    /** Every 1024th call drops the users whose failures have all expired. */
    method EvictStale(ghost user: string, now: Instant)
      requires Valid() && now >= clock
      modifies this`sweeps, this`items, this`clock
      ensures Valid() && clock <= now
      ensures Room(old(items), user, maxEntries) ==> Room(items, user, maxEntries)
    {
      hide AllRemembered, Swept, Room;
      sweeps := sweeps + 1;
      if sweeps >= SWEEP_EVERY {
        sweeps := 0;
        SweptRemembers(items, history, clock, window, threshold + |backoff|, now);
        SweepingMakesRoom(items, user, now - window, maxEntries);
        items := SweepTable(items, now - window);
        clock := now;
      }
    }

    method Reset(user: string)
      requires Valid()
      modifies this
      ensures Valid() && clock == old(clock) && history == old(history) - {user}
    {
      hide AllRemembered;
      ResetRemembers(items, history, clock, window, threshold + |backoff|, user);
      RemovedFits(items, user);
      items := items - {user};
      history := history - {user};
    }
  }
}
