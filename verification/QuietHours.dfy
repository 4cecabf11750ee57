/**
 The daily quiet window, in one fixed time zone. Instants count nanoseconds of
 local time from some midnight.
 */
module QuietHours {
  import opened Wrappers

  type Instant = int

  const SECOND := 1_000_000_000
  const HOUR := 3600 * SECOND
  const DAY := 24 * HOUR
  /** The alert aggregation window. */
  const WINDOW := 60 * SECOND

  datatype Quiet = Quiet(enabled: bool, start: int, end: int) {
    /** Equal or out-of-range bounds switch the window off. */
    predicate Active() {
      enabled && start != end && 0 <= start <= 23 && 0 <= end <= 23
    }

    predicate Contains(now: Instant) {
      ContainsHour(HourOfDay(now))
    }

    /** A window whose start is past its end wraps over midnight. */
    predicate ContainsHour(h: int) {
      if start < end then start <= h < end else h >= start || h < end
    }
  }

  function HourOfDay(t: Instant): (h: int)
    ensures 0 <= h < 24
  {
    (t / HOUR) % 24
  }

  function Midnight(t: Instant): Instant {
    t - t % DAY
  }

  /** The earlier of best and c, if c is still ahead of now. */
  function Better(best: Option<Instant>, c: Instant, now: Instant): Option<Instant> {
    if c > now && (best.None? || c < best.value) then Some(c) else best
  }

  /** The candidates of one day, tried in the order of the settings. */
  function BetterOfDay(q: Quiet, best: Option<Instant>, midnight: Instant, now: Instant): Option<Instant> {
    Better(Better(best, midnight + q.start * HOUR, now), midnight + q.end * HOUR, now)
  }

  /** The next start or end hour strictly after now. */
  method NextBoundary(q: Quiet, now: Instant) returns (next: Instant)
    requires q.Active()
    ensures next == Boundary(q, now)
  {
    var midnight := Midnight(now);
    var best: Option<Instant> := None;
    for day := 0 to 2
      invariant day == 0 ==> best == None
      invariant day == 1 ==> best == BetterOfDay(q, None, midnight, now)
      invariant day == 2 ==> best == BetterOfDay(q, BetterOfDay(q, None, midnight, now), midnight + DAY, now)
    {
      var candidate := midnight + day * DAY + q.start * HOUR;
      if candidate > now && (best.None? || candidate < best.value) {
        best := Some(candidate);
      }
      candidate := midnight + day * DAY + q.end * HOUR;
      if candidate > now && (best.None? || candidate < best.value) {
        best := Some(candidate);
      }
    }
    BestIsBoundary(q, now);
    next := best.value;
  }

  predicate Shows(from: int, hours: int, h: int) {
    (from + hours) % 24 == h
  }

  /** Hours until the clock next shows h, at least one. */
  function HoursUntil(from: int, h: int): (n: int)
    requires 0 <= h < 24
    ensures 1 <= n <= 24 && Shows(from, n, h)
    ensures forall m | 1 <= m < n :: !Shows(from, m, h)
  {
    if h > from % 24 then h - from % 24 else 24 + h - from % 24
  }

  /** The same instant by counting whole hours. */
  function Boundary(q: Quiet, now: Instant): Instant
    requires q.Active()
  {
    var h := now / HOUR;
    var s, e := HoursUntil(h, q.start), HoursUntil(h, q.end);
    HOUR * (h + if s < e then s else e)
  }

  lemma InHour(t: Instant, h: int, rest: int)
    requires t == HOUR * h + rest && 0 <= rest < HOUR
    ensures t / HOUR == h
  {
  }

  lemma InDay(t: Instant, d: int, rest: int)
    requires t == DAY * d + rest && 0 <= rest < DAY
    ensures t / DAY == d && t % DAY == rest
  {
  }

  lemma TodaysMidnight(t: Instant)
    ensures Midnight(t) == HOUR * (t / HOUR - (t / HOUR) % 24)
  {
    var h := t / HOUR;
    assert t == HOUR * h + t % HOUR && h == 24 * (h / 24) + h % 24;
    InDay(t, h / 24, HOUR * (h % 24) + t % HOUR);
  }

  lemma BestIsBoundary(q: Quiet, now: Instant)
    requires q.Active()
    ensures var midnight := Midnight(now);
      BetterOfDay(q, BetterOfDay(q, None, midnight, now), midnight + DAY, now) == Some(Boundary(q, now))
  {
    hide Midnight, HoursUntil, Better;
    CandidateHours(now, q.start);
    CandidateHours(now, q.end);
    var midnight, h := Midnight(now), now / HOUR;
    var s, e := HoursUntil(h, q.start), HoursUntil(h, q.end);
    InOrder(h, s, e);
    EarliestOfFour(midnight + q.start * HOUR, midnight + q.end * HOUR, HOUR * (h + HoursUntil(h, q.start)), HOUR * (h + HoursUntil(h, q.end)), now);
  }

  lemma InOrder(h: int, s: int, e: int)
    ensures HOUR * (h + if s < e then s else e) == if HOUR * (h + s) < HOUR * (h + e) then HOUR * (h + s) else HOUR * (h + e)
  {
  }

  /** Two instants of today and the same a day later: the earliest ahead of now is the earlier of the two next ones. */
  lemma EarliestOfFour(s: Instant, e: Instant, nextS: Instant, nextE: Instant, now: Instant)
    requires nextS > now && (s == nextS || s + DAY == nextS) && (s > now ==> s >= nextS)
    requires nextE > now && (e == nextE || e + DAY == nextE) && (e > now ==> e >= nextE)
    ensures Better(Better(Better(Better(None, s, now), e, now), s + DAY, now), e + DAY, now) == Some(if nextS < nextE then nextS else nextE)
  {
  }

  /** Of today's and tomorrow's instant of one hour, the one that counts is the first after now. */
  lemma CandidateHours(now: Instant, hour: int)
    requires 0 <= hour < 24
    ensures var today, next := Midnight(now) + hour * HOUR, HOUR * (now / HOUR + HoursUntil(now / HOUR, hour));
      && next > now && (today == next || today + DAY == next)
      && (today > now ==> today >= next) && today + DAY >= next
  {
    TodaysMidnight(now);
  }

  lemma HourWalk(q: Quiet, from: int, n: int)
    requires q.Active() && 0 <= n
    requires forall m | 1 <= m <= n :: !Shows(from, m, q.start) && !Shows(from, m, q.end)
    ensures q.ContainsHour((from + n) % 24) == q.ContainsHour(from % 24)
    decreases n
  {
    if n > 0 {
      HourWalk(q, from, n - 1);
      assert !Shows(from, n, q.start) && !Shows(from, n, q.end);
      HourStep(q, from + n - 1);
    }
  }

  /** From one hour to the next the window changes exactly at its start and its end. */
  lemma HourStep(q: Quiet, h: int)
    requires q.Active()
    ensures q.ContainsHour((h + 1) % 24) != q.ContainsHour(h % 24) <==> (h + 1) % 24 == q.start || (h + 1) % 24 == q.end
  {
    assert (h + 1) % 24 == if h % 24 == 23 then 0 else h % 24 + 1;
  }

  /** The boundary is strictly ahead, at most a day away, and is the first instant at which the window flips. */
  lemma BoundaryFlips(q: Quiet, now: Instant)
    requires q.Active()
    ensures now < Boundary(q, now) <= now + DAY
    ensures q.Contains(Boundary(q, now)) != q.Contains(now)
    ensures forall t | now <= t < Boundary(q, now) :: q.Contains(t) == q.Contains(now)
  {
    hide HoursUntil;
    var h := now / HOUR;
    var s, e := HoursUntil(h, q.start), HoursUntil(h, q.end);
    var n := if s < e then s else e;
    FlipsAt(q, h, n, s, e);
    BoundaryHour(now, h + n);
    forall t | now <= t < Boundary(q, now) ensures q.Contains(t) == q.Contains(now) {
      HoursMonotone(now, t);
      BelowBoundary(t, h + n);
      HourWalk(q, h, t / HOUR - h);
    }
  }

  lemma BoundaryHour(now: Instant, n: int)
    requires 1 <= n - now / HOUR <= 24
    ensures now < HOUR * n <= now + DAY && (HOUR * n) / HOUR == n
  {
    InHour(HOUR * n, n, 0);
  }

  /** n hours on, the clock shows a bound for the first time, and the window flips there. */
  lemma FlipsAt(q: Quiet, h: int, n: int, s: int, e: int)
    requires q.Active() && s == HoursUntil(h, q.start) && e == HoursUntil(h, q.end) && n == if s < e then s else e
    ensures 1 <= n <= 24 && forall m | 1 <= m < n :: !Shows(h, m, q.start) && !Shows(h, m, q.end)
    ensures q.ContainsHour((h + n) % 24) != q.ContainsHour(h % 24)
  {
    hide HoursUntil;
    HourWalk(q, h, n - 1);
    HourStep(q, h + n - 1);
    assert Shows(h, n, q.start) || Shows(h, n, q.end);
  }

  lemma HoursMonotone(a: Instant, b: Instant)
    requires a <= b
    ensures a / HOUR <= b / HOUR
  {
  }

  lemma BelowBoundary(t: Instant, n: int)
    requires t < HOUR * n
    ensures t / HOUR < n
  {
  }

  /** Looking only at the two ends of an aggregation window finds every quiet instant in it. */
  lemma TwoInstantsSuffice(q: Quiet, firesAt: Instant)
    requires q.Active()
    ensures q.Contains(firesAt) || q.Contains(firesAt - WINDOW) <==>
      exists t: Instant :: firesAt - WINDOW <= t <= firesAt && q.Contains(t)
  {
    forall t: Instant | firesAt - WINDOW <= t <= firesAt ensures q.Contains(t) ==> q.Contains(firesAt) || q.Contains(firesAt - WINDOW) {
      HoursMonotone(firesAt - WINDOW, t);
      HoursMonotone(t, firesAt);
      assert firesAt / HOUR <= (firesAt - WINDOW) / HOUR + 1;
    }
    if q.Contains(firesAt) {
      assert firesAt - WINDOW <= firesAt <= firesAt;
    } else if q.Contains(firesAt - WINDOW) {
      assert firesAt - WINDOW <= firesAt - WINDOW <= firesAt;
    }
  }

  // ---------------------------------------------------------------------
  // Which hours are quiet

  /** Hours from h, and then rest nanoseconds, after the midnight of day d the clock shows h. */
  lemma ClockShows(d: int, h: int, rest: int)
    requires 0 <= h < 24 && 0 <= rest < 3_600_000_000_000
    ensures HourOfDay(86_400_000_000_000 * d + 3_600_000_000_000 * h + rest) == h
  {
    InHour(86_400_000_000_000 * d + 3_600_000_000_000 * h + rest, 24 * d + h, rest);
  }

  /** Counting hours on from the start: the window holds as many of them as it takes to reach the end, which is not one. */
  lemma WindowHours(q: Quiet, t: Instant)
    requires q.Active()
    ensures q.Contains(t) <==> exists k: int :: 0 <= k < (q.end - q.start) % 24 && Shows(q.start, k, HourOfDay(t))
  {
    var h := HourOfDay(t);
    var k := (h - q.start) % 24;
    assert k == if h >= q.start then h - q.start else h - q.start + 24;
    assert (q.end - q.start) % 24 == if q.end >= q.start then q.end - q.start else q.end - q.start + 24;
    assert Shows(q.start, k, h);
    forall j: int | 0 <= j < 24 && Shows(q.start, j, h) ensures j == k {
      OnceADay(q.start, j, h);
    }
  }

  lemma OnceADay(from: int, j: int, h: int)
    requires 0 <= from < 24 && 0 <= j < 24 && 0 <= h < 24 && Shows(from, j, h)
    ensures j == if h >= from then h - from else h - from + 24
  {
    assert (from + j) % 24 == if from + j < 24 then from + j else from + j - 24;
  }

  /** While the clock shows the start hour it is quiet; while it shows the end hour it is not. */
  lemma StartIsQuietEndIsLoud(q: Quiet, t: Instant)
    requires q.Active()
    ensures HourOfDay(t) == q.start ==> q.Contains(t)
    ensures HourOfDay(t) == q.end ==> !q.Contains(t)
  {
    WindowHours(q, t);
    if HourOfDay(t) == q.start {
      assert Shows(q.start, 0, HourOfDay(t));
    }
    if HourOfDay(t) == q.end {
      forall j: int | 0 <= j < 24 && Shows(q.start, j, HourOfDay(t)) ensures j >= (q.end - q.start) % 24 {
        OnceADay(q.start, j, q.end);
      }
    }
  }

  /** The next boundary falls on the hour; it begins the window when the clock then shows the start and ends it when it shows the end. */
  lemma BoundaryTurns(q: Quiet, now: Instant)
    requires q.Active()
    ensures var t := Boundary(q, now);
      && t % 3_600_000_000_000 == 0
      && (HourOfDay(t) == q.start || HourOfDay(t) == q.end)
      && (HourOfDay(t) == q.start <==> q.Contains(t) && !q.Contains(now))
      && (HourOfDay(t) == q.end <==> !q.Contains(t) && q.Contains(now))
  {
    hide HoursUntil;
    var h := now / HOUR;
    var s, e := HoursUntil(h, q.start), HoursUntil(h, q.end);
    var n := if s < e then s else e;
    InHour(HOUR * (h + n), h + n, 0);
    assert Shows(h, n, q.start) || Shows(h, n, q.end);
    StartIsQuietEndIsLoud(q, Boundary(q, now));
    BoundaryFlips(q, now);
  }

  /** A flush is held exactly when the switch is on, the bounds are two different hours of the day, and some instant of its minute is quiet. */
  lemma QuietMinute(q: Quiet, firesAt: Instant)
    ensures q.Active() && (q.Contains(firesAt) || q.Contains(firesAt - WINDOW)) <==>
      && q.enabled && q.start != q.end && 0 <= q.start < 24 && 0 <= q.end < 24
      && exists t: Instant, k: int :: firesAt - 60_000_000_000 <= t <= firesAt && 0 <= k < (q.end - q.start) % 24 && Shows(q.start, k, HourOfDay(t))
  {
    if q.Active() {
      TwoInstantsSuffice(q, firesAt);
      forall t: Instant ensures q.Contains(t) <==> exists k: int :: 0 <= k < (q.end - q.start) % 24 && Shows(q.start, k, HourOfDay(t)) {
        WindowHours(q, t);
      }
    }
  }
}
