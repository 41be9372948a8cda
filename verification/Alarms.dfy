/** Wall-clock alarms (controller/em_alarms.py): when an alarm fires next, and which occurrence a firing is. */
module Alarms {
  import opened Options
  import opened LocalTime

  const LATE_GRACE: int := 600

  datatype Recurrence = Once | Daily | Weekly

  /** One durable alarm. A date counts days from 1970-01-01. */
  datatype AlarmSpec = AlarmSpec(
    id: string, deviceId: string, hour: int, minute: int, recurrence: Recurrence, zone: Zone,
    enabled: bool, weekdayMask: int, date: Option<int>, alarmLabel: Option<string>)

  ghost predicate ValidSpec(spec: AlarmSpec) {
    0 <= spec.hour <= 23 && 0 <= spec.minute <= 59 && ValidZone(spec.zone)
  }

  // ---- Searching

  /** The first index from k on that satisfies p, or the bound. */
  function FirstFrom(p: nat -> bool, k: nat, bound: nat): (r: nat)
    requires k <= bound
    ensures k <= r <= bound
    decreases bound - k
  {
    if k == bound || p(k) then k else FirstFrom(p, k + 1, bound)
  }

  lemma {:induction false} FirstFromStops(p: nat -> bool, k: nat, bound: nat)
    requires k <= bound
    ensures var r := FirstFrom(p, k, bound);
            (r < bound ==> p(r)) && (forall i :: k <= i < r ==> !p(i))
    decreases bound - k
  {
    if k < bound && !p(k) {
      FirstFromStops(p, k + 1, bound);
    }
  }

  lemma FirstFromIs(p: nat -> bool, bound: nat, n: nat)
    requires n <= bound && (n < bound ==> p(n))
    requires forall i :: 0 <= i < n ==> !p(i)
    ensures FirstFrom(p, 0, bound) == n
  {
    FirstFromStops(p, 0, bound);
  }

  /** The search succeeds when anything under its bound satisfies p. */
  lemma FirstFromFinds(p: nat -> bool, bound: nat, n: nat)
    requires n < bound && p(n)
    ensures var r := FirstFrom(p, 0, bound); r <= n && p(r)
  {
    FirstFromStops(p, 0, bound);
  }

  // ---- One local wall time

  /** The wall time k minutes on exists. */
  function Exists(z: Zone, w: int): nat -> bool {
    k => Shown(z, w + 60 * k)
  }

  /** The instant a local wall time stands for. */
  function Resolve(z: Zone, w: int): int {
    var k := FirstFrom(Exists(z, w), 0, 1440);
    ToUtc(z, if k < 1440 then w + 60 * k else w)
  }

  /** Steps a wall time forward a minute at a time until it exists. */
  method ResolveLocal(z: Zone, w: int) returns (t: int)
    ensures t == Resolve(z, w)
  {
    var naive := w;
    for k := 0 to 1440
      invariant naive == w + 60 * k
      invariant forall i :: 0 <= i < k ==> !Exists(z, w)(i)
    {
      var aware := ToUtc(z, naive);
      if Local(z, aware) == naive {
        FirstFromIs(Exists(z, w), 1440, k);
        return aware;
      }
      naive := naive + 60;
    }
    FirstFromIs(Exists(z, w), 1440, 1440);
    t := ToUtc(z, w);
  }

  lemma WholeMinutesApart(w: int, v: int) returns (n: nat)
    requires w % 60 == 0 && v % 60 == 0 && w <= v
    ensures v == w + 60 * n
  {
    n := (v - w) / 60;
  }

  /** The scan always ends inside its bound, at the first minute that exists. */
  lemma ResolveSteps(z: Zone, w: int) returns (k: nat)
    requires ValidZone(z) && w % 60 == 0
    ensures k < 1440 && Exists(z, w)(k) && Resolve(z, w) == ToUtc(z, w + 60 * k)
    ensures forall i :: 0 <= i < k ==> !Exists(z, w)(i)
  {
    k := FirstFrom(Exists(z, w), 0, 1440);
    var n := 0;
    if !Shown(z, w) {
      var j := GapAhead(z, w);
      GapEndOnMinute(z, j);
      n := WholeMinutesApart(w, z.shifts[j].at + Offset(z, j + 1));
    }
    assert Exists(z, w)(n);
    FirstFromFinds(Exists(z, w), 1440, n);
    FirstFromStops(Exists(z, w), 0, 1440);
  }

  lemma GapEndOnMinute(z: Zone, j: nat)
    requires WholeMinutes(z) && j < |z.shifts|
    ensures (z.shifts[j].at + Offset(z, j + 1)) % 60 == 0
    ensures (z.shifts[j].at + Offset(z, j)) % 60 == 0
  {
    MinuteArithmetic(z.shifts[j].at, Offset(z, j + 1));
    MinuteArithmetic(z.shifts[j].at, Offset(z, j));
  }

  /** The instant resolved is the earliest one showing the least wall-clock minute that exists at or
      after the one asked for: the first of two instants on fall-back, the end of the gap on
      spring-forward, and the time itself otherwise. */
  lemma ResolveIsFirst(z: Zone, w: int)
    requires ValidZone(z) && w % 60 == 0
    ensures var t := Resolve(z, w);
            && w <= Local(z, t) < w + 86400
            && (forall u :: Local(z, u) >= w && Local(z, u) % 60 == 0 ==> Local(z, t) <= Local(z, u))
            && (forall u :: Local(z, u) == Local(z, t) ==> t <= u)
  {
    var k := ResolveSteps(z, w);
    var t := Resolve(z, w);
    assert Local(z, t) == w + 60 * k;
    forall u | Local(z, u) >= w && Local(z, u) % 60 == 0 ensures Local(z, t) <= Local(z, u) {
      LeastMinute(z, w, k, u);
    }
    forall u | Local(z, u) == Local(z, t) ensures t <= u {
      EarliestShowing(z, Local(z, u), u);
    }
  }

  lemma LeastMinute(z: Zone, w: int, k: nat, u: int)
    requires Spaced(z) && w % 60 == 0 && Local(z, u) >= w && Local(z, u) % 60 == 0
    requires forall i :: 0 <= i < k ==> !Exists(z, w)(i)
    ensures w + 60 * k <= Local(z, u)
  {
    EarliestShowing(z, Local(z, u), u);
    LeastShown(z, w, k, Local(z, u));
  }

  lemma LeastShown(z: Zone, w: int, k: nat, v: int)
    requires w % 60 == 0 && v >= w && v % 60 == 0 && Shown(z, v)
    requires forall i :: 0 <= i < k ==> !Exists(z, w)(i)
    ensures w + 60 * k <= v
  {
    var i := WholeMinutesApart(w, v);
    assert Exists(z, w)(i);
  }

  // ---- Days

  function Pow2(n: nat): (p: int)
    ensures p > 0
  {
    if n == 0 then 1 else 2 * Pow2(n - 1)
  }

  /** Monday is 0; 1970-01-01 was a Thursday. */
  function Weekday(day: int): nat {
    (day + 3) % 7
  }

  /** Weekdays follow one another from Thursday 1 January 1970 on. */
  lemma CalendarWeek(day: int)
    ensures Weekday(0) == 3 && Weekday(day + 1) == (Weekday(day) + 1) % 7
  {
  }

  /** Each weekday comes once in seven days. */
  lemma OncePerWeek(start: int, d: int, e: int)
    requires start <= d < start + 7 && start <= e < start + 7 && Weekday(d) == Weekday(e)
    ensures d == e
  {
  }

  predicate DayBit(mask: int, weekday: nat) {
    mask / Pow2(weekday) % 2 == 1
  }

  predicate Matches(spec: AlarmSpec, day: int) {
    match spec.recurrence
    case Once => spec.date == Some(day)
    case Daily => true
    case Weekly => DayBit(spec.weekdayMask, Weekday(day))
  }

  function Wall(spec: AlarmSpec, day: int): int {
    day * 86400 + spec.hour * 3600 + spec.minute * 60
  }

  /** When the alarm fires for a local day. */
  function FireOn(spec: AlarmSpec, day: int): int {
    Resolve(spec.zone, Wall(spec, day))
  }

  function LocalDay(z: Zone, t: int): int {
    Local(z, t) / 86400
  }

  /** Day `start + k` is kept by the recurrence and fires after the instant. */
  function Due(spec: AlarmSpec, after: int, start: int): nat -> bool {
    k => (spec.recurrence.Weekly? ==> DayBit(spec.weekdayMask, Weekday(start + k))) && FireOn(spec, start + k) > after
  }

  /** The earliest firing strictly after an instant. */
  function NextFire(spec: AlarmSpec, after: int): Option<int> {
    if !spec.enabled then None
    else if spec.recurrence.Once? then
      if spec.date.None? then None
      else if FireOn(spec, spec.date.value) > after then Some(FireOn(spec, spec.date.value)) else None
    else
      var start := LocalDay(spec.zone, after);
      var k := FirstFrom(Due(spec, after, start), 0, 15);
      if k < 15 then Some(FireOn(spec, start + k)) else None
  }

  /** The search as the source runs it. */
  method FindNextFire(spec: AlarmSpec, after: int) returns (fire: Option<int>)
    ensures fire == NextFire(spec, after)
  {
    if !spec.enabled {
      return None;
    }
    if spec.recurrence.Once? {
      if spec.date.None? {
        return None;
      }
      var f := ResolveLocal(spec.zone, Wall(spec, spec.date.value));
      return if f > after then Some(f) else None;
    }
    fire := ScanDays(spec, after, LocalDay(spec.zone, after));
  }

  /** The scan over fifteen local days. */
  method ScanDays(spec: AlarmSpec, after: int, start: int) returns (fire: Option<int>)
    ensures var k := FirstFrom(Due(spec, after, start), 0, 15);
            fire == if k < 15 then Some(FireOn(spec, start + k)) else None
  {
    ghost var due := Due(spec, after, start);
    for k := 0 to 15
      invariant NoneTo(due, k)
    {
      var found, f := DayIsDue(spec, after, start, k);
      if found {
        FirstFromIs(due, 15, k);
        return Some(f);
      }
    }
    FirstFromIs(due, 15, 15);
    fire := None;
  }

  ghost predicate NoneTo(p: nat -> bool, k: nat) {
    forall i: nat :: i < k ==> !p(i)
  }

  method DayIsDue(spec: AlarmSpec, after: int, start: int, k: nat) returns (found: bool, f: int)
    ensures found == Due(spec, after, start)(k)
    ensures found ==> f == FireOn(spec, start + k)
  {
    DueIs(spec, after, start, k);
    var day := start + k;
    found, f := false, 0;
    if !(spec.recurrence.Weekly? && !DayBit(spec.weekdayMask, Weekday(day))) {
      f := ResolveLocal(spec.zone, Wall(spec, day));
      found := f > after;
    }
  }

  lemma DueIs(spec: AlarmSpec, after: int, start: int, k: nat)
    ensures Due(spec, after, start)(k) <==>
            && (spec.recurrence.Weekly? ==> DayBit(spec.weekdayMask, Weekday(start + k)))
            && FireOn(spec, start + k) > after
  {
  }

  lemma WallOnMinute(spec: AlarmSpec, day: int)
    ensures Wall(spec, day) % 60 == 0
  {
    assert Wall(spec, day) == 60 * (day * 1440 + spec.hour * 60 + spec.minute);
  }

  lemma WallInDay(spec: AlarmSpec, day: int)
    requires ValidSpec(spec)
    ensures day * 86400 <= Wall(spec, day) < (day + 1) * 86400
  {
  }

  /** Later days fire strictly later. */
  lemma FireIncreasing(spec: AlarmSpec, d1: int, d2: int)
    requires ValidSpec(spec) && d1 < d2
    ensures FireOn(spec, d1) < FireOn(spec, d2)
  {
    WallOnMinute(spec, d1);
    WallOnMinute(spec, d2);
    ResolveIncreasing(spec.zone, Wall(spec, d1), Wall(spec, d2));
  }

  lemma ResolveIncreasing(z: Zone, w1: int, w2: int)
    requires ValidZone(z) && w1 % 60 == 0 && w2 % 60 == 0 && w1 + 86400 <= w2
    ensures Resolve(z, w1) < Resolve(z, w2)
  {
    var k1 := ResolveSteps(z, w1);
    var k2 := ResolveSteps(z, w2);
    ShownByNow(z, w1 + 60 * k1, ToUtc(z, w2 + 60 * k2));
  }

  lemma DayOf(l: int, day: int)
    ensures l / 86400 > day <==> l >= (day + 1) * 86400
    ensures l / 86400 < day <==> l < day * 86400
  {
  }

  /** A wall time is resolved to an instant by now if any existing minute from it on is on the clock by now. */
  lemma ResolvedByNow(z: Zone, w: int, v: int, now: int)
    requires ValidZone(z) && w % 60 == 0 && v % 60 == 0 && w <= v <= Local(z, now) && Shown(z, v)
    ensures Resolve(z, w) <= now
  {
    var k := ResolveSteps(z, w);
    LeastShown(z, w, k, v);
    ShownByNow(z, w + 60 * k, now);
  }

  /** A day before the local date of an instant has already fired by then. */
  lemma PastDayFired(spec: AlarmSpec, after: int, day: int)
    requires ValidSpec(spec) && day < LocalDay(spec.zone, after)
    ensures FireOn(spec, day) <= after
  {
    var l := Local(spec.zone, after);
    WallOnMinute(spec, day);
    WallInDay(spec, day);
    DayOf(l, day);
    DayStartOnMinute(l, day);
    MinuteOnClock(spec.zone, after);
    ResolvedByNow(spec.zone, Wall(spec, day), l - l % 60, after);
  }

  lemma FloorToMinuteOf(l: int, m: int)
    requires l >= 60 * m
    ensures l - l % 60 >= 60 * m && (l - l % 60) % 60 == 0
  {
    assert l - l % 60 == 60 * (l / 60);
  }

  lemma DayStartOnMinute(l: int, day: int)
    requires l >= (day + 1) * 86400
    ensures l - l % 60 >= (day + 1) * 86400 && (l - l % 60) % 60 == 0
  {
    FloorToMinuteOf(l, (day + 1) * 1440);
  }

  lemma ResolvedAfterNow(z: Zone, w: int, now: int)
    requires ValidZone(z) && w % 60 == 0 && w >= Local(z, now) + 86400
    ensures Resolve(z, w) > now
  {
    var k := ResolveSteps(z, w);
    var t := ToUtc(z, w + 60 * k);
    if t <= now {
      ClockSlipsUnderADay(z, t, now);
    }
  }

  /** From the second day after the local date on, every day fires later: the clock slips back less than a day. */
  lemma FutureDayFires(spec: AlarmSpec, after: int, day: int)
    requires ValidSpec(spec) && day >= LocalDay(spec.zone, after) + 2
    ensures FireOn(spec, day) > after
  {
    WallOnMinute(spec, day);
    WallInDay(spec, day);
    DayOf(Local(spec.zone, after), day - 1);
    ResolvedAfterNow(spec.zone, Wall(spec, day), after);
  }

  /** A firing instant of the alarm. */
  ghost predicate IsFiring(spec: AlarmSpec, fire: int) {
    exists day :: Matches(spec, day) && fire == FireOn(spec, day)
  }

  lemma DueDay(spec: AlarmSpec, after: int, start: int, day: int)
    requires start <= day < start + 15 && !spec.recurrence.Once? && Matches(spec, day) && FireOn(spec, day) > after
    ensures FirstFrom(Due(spec, after, start), 0, 15) <= day - start
  {
    var i: nat := day - start;
    assert start + i == day;
    DueIs(spec, after, start, i);
    FirstFromFinds(Due(spec, after, start), 15, i);
  }

  /** The first day found by the scan is due, and no earlier day is. */
  lemma ScanIsLeast(spec: AlarmSpec, after: int, start: int, k: nat, day: int)
    requires ValidSpec(spec) && !spec.recurrence.Once? && start == LocalDay(spec.zone, after)
    requires k < 15 && k == FirstFrom(Due(spec, after, start), 0, 15)
    requires Matches(spec, day) && FireOn(spec, day) > after
    ensures FireOn(spec, start + k) <= FireOn(spec, day)
  {
    if day < start {
      PastDayFired(spec, after, day);
    } else if day > start + k {
      FireIncreasing(spec, start + k, day);
    } else {
      DueDay(spec, after, start, day);
      assert day == start + k;
    }
  }

  /** A firing after the instant with no firing of any day in between. */
  ghost predicate IsLeastAfter(spec: AlarmSpec, after: int, fire: int) {
    && fire > after && IsFiring(spec, fire)
    && (forall f :: IsFiring(spec, f) && f > after ==> fire <= f)
  }

  /** The fire found is the least firing after the instant over all days that match: the 15-day window
      and its start lose nothing. */
  lemma NextFireIsLeast(spec: AlarmSpec, after: int)
    requires ValidSpec(spec)
    ensures NextFire(spec, after).Some? ==> IsLeastAfter(spec, after, NextFire(spec, after).value)
  {
    if NextFire(spec, after).Some? {
      if spec.recurrence.Once? {
        OnceCase(spec, after);
      } else {
        RepeatingCase(spec, after);
      }
    }
  }

  lemma OnceCase(spec: AlarmSpec, after: int)
    requires spec.recurrence.Once? && NextFire(spec, after).Some?
    ensures IsLeastAfter(spec, after, NextFire(spec, after).value)
  {
    var day := OnceForm(spec, after);
    OnceIsLeast(spec, after, day);
  }

  lemma RepeatingCase(spec: AlarmSpec, after: int)
    requires ValidSpec(spec) && !spec.recurrence.Once? && NextFire(spec, after).Some?
    ensures IsLeastAfter(spec, after, NextFire(spec, after).value)
  {
    var fire := RepeatingLeast(spec, after);
  }

  /** The fire found, named, so that the search does not unfold around what is said of it. */
  lemma RepeatingLeast(spec: AlarmSpec, after: int) returns (fire: int)
    requires ValidSpec(spec) && !spec.recurrence.Once? && NextFire(spec, after).Some?
    ensures NextFire(spec, after) == Some(fire) && IsLeastAfter(spec, after, fire)
  {
    fire := NextFire(spec, after).value;
    var start := LocalDay(spec.zone, after);
    var k := RepeatingForm(spec, after);
    RepeatingIsLeast(spec, after, start, k, fire);
  }

  lemma OnceForm(spec: AlarmSpec, after: int) returns (day: int)
    requires spec.recurrence.Once? && NextFire(spec, after).Some?
    ensures spec.date == Some(day) && FireOn(spec, day) > after && NextFire(spec, after) == Some(FireOn(spec, day))
  {
    day := spec.date.value;
  }

  lemma RepeatingForm(spec: AlarmSpec, after: int) returns (k: nat)
    requires !spec.recurrence.Once? && NextFire(spec, after).Some?
    ensures var start := LocalDay(spec.zone, after);
            && k < 15 && k == FirstFrom(Due(spec, after, start), 0, 15)
            && NextFire(spec, after) == Some(FireOn(spec, start + k))
  {
    k := FirstFrom(Due(spec, after, LocalDay(spec.zone, after)), 0, 15);
  }

  lemma OnceIsLeast(spec: AlarmSpec, after: int, day: int)
    requires spec.recurrence.Once? && spec.date == Some(day) && FireOn(spec, day) > after
    ensures IsLeastAfter(spec, after, FireOn(spec, day))
  {
    assert Matches(spec, day);
  }

  lemma RepeatingIsLeast(spec: AlarmSpec, after: int, start: int, k: nat, fire: int)
    requires ValidSpec(spec) && !spec.recurrence.Once? && start == LocalDay(spec.zone, after)
    requires k < 15 && k == FirstFrom(Due(spec, after, start), 0, 15) && fire == FireOn(spec, start + k)
    ensures IsLeastAfter(spec, after, fire)
  {
    FoundIsDue(spec, after, start, k);
    forall f | IsFiring(spec, f) && f > after ensures fire <= f {
      FiringAtLeast(spec, after, start, k, f);
    }
  }

  lemma FiringAtLeast(spec: AlarmSpec, after: int, start: int, k: nat, f: int)
    requires ValidSpec(spec) && !spec.recurrence.Once? && start == LocalDay(spec.zone, after)
    requires k < 15 && k == FirstFrom(Due(spec, after, start), 0, 15)
    requires IsFiring(spec, f) && f > after
    ensures FireOn(spec, start + k) <= f
  {
    var d :| Matches(spec, d) && f == FireOn(spec, d);
    ScanIsLeast(spec, after, start, k, d);
  }

  lemma FoundIsDue(spec: AlarmSpec, after: int, start: int, k: nat)
    requires k < 15 && k == FirstFrom(Due(spec, after, start), 0, 15) && !spec.recurrence.Once?
    ensures Matches(spec, start + k) && FireOn(spec, start + k) > after
  {
    FirstFromStops(Due(spec, after, start), 0, 15);
    DueIs(spec, after, start, k);
  }

  /** An enabled one-off that is spent or has no date, or a weekly alarm without a day. */
  predicate NeverAgain(spec: AlarmSpec, after: int) {
    match spec.recurrence
    case Once => spec.date.None? || FireOn(spec, spec.date.value) <= after
    case Daily => false
    case Weekly => spec.weekdayMask % 128 == 0
  }

  lemma SevenBits(mask: int)
    ensures mask % 128 == 0 <==> forall b: nat :: b < 7 ==> !DayBit(mask, b)
  {
    assert Pow2(0) == 1 && Pow2(1) == 2 && Pow2(2) == 4 && Pow2(3) == 8;
    assert Pow2(4) == 16 by { assert Pow2(4) == 2 * Pow2(3); }
    assert Pow2(5) == 32 by { assert Pow2(5) == 2 * Pow2(4); }
    assert Pow2(6) == 64 by { assert Pow2(6) == 2 * Pow2(5); }
    Binary(mask);
    if mask % 128 != 0 {
      assert DayBit(mask, 0) || DayBit(mask, 1) || DayBit(mask, 2) || DayBit(mask, 3)
          || DayBit(mask, 4) || DayBit(mask, 5) || DayBit(mask, 6);
    } else {
      forall b: nat | b < 7 ensures !DayBit(mask, b) {
        assert b == 0 || b == 1 || b == 2 || b == 3 || b == 4 || b == 5 || b == 6;
      }
    }
  }

  lemma Binary(mask: int)
    ensures mask % 128 == mask % 2 + 2 * (mask / 2 % 2) + 4 * (mask / 4 % 2) + 8 * (mask / 8 % 2)
                          + 16 * (mask / 16 % 2) + 32 * (mask / 32 % 2) + 64 * (mask / 64 % 2)
  {
    assert mask / 4 == mask / 2 / 2 && mask / 8 == mask / 4 / 2 && mask / 16 == mask / 8 / 2;
    assert mask / 32 == mask / 16 / 2 && mask / 64 == mask / 32 / 2 && mask / 128 == mask / 64 / 2;
  }

  lemma {:induction false} WeekdayAdvances(day: int, n: nat)
    ensures Weekday(day + n) == (Weekday(day) + n) % 7
  {
    if n > 0 {
      WeekdayAdvances(day, n - 1);
      CalendarWeek(day + n - 1);
      NextModSeven(Weekday(day), n - 1);
    }
  }

  lemma NextModSeven(a: int, n: nat)
    ensures ((a + n) % 7 + 1) % 7 == (a + n + 1) % 7
  {
  }

  lemma DayWithBit(start: int, b: nat) returns (day: int)
    requires b < 7
    ensures start <= day < start + 7 && Weekday(day) == b
  {
    var n: nat := (b - Weekday(start)) % 7;
    WeekdayAdvances(start, n);
    day := start + n;
  }

  /** A weekly alarm matches each weekday it is set for exactly once in any seven days. */
  lemma WeeklyMatchesOnce(spec: AlarmSpec, start: int, b: nat) returns (day: int)
    requires spec.recurrence.Weekly? && b < 7 && DayBit(spec.weekdayMask, b)
    ensures start <= day < start + 7 && Weekday(day) == b && Matches(spec, day)
    ensures forall e :: start <= e < start + 7 && Weekday(e) == b ==> e == day
  {
    day := DayWithBit(start, b);
    forall e | start <= e < start + 7 && Weekday(e) == b ensures e == day {
      OncePerWeek(start, e, day);
    }
  }

  /** A weekly alarm with a day set, or a daily one, is due within ten days. */
  lemma DueSoon(spec: AlarmSpec, after: int) returns (k: nat)
    requires ValidSpec(spec) && (spec.recurrence.Daily? || (spec.recurrence.Weekly? && spec.weekdayMask % 128 != 0))
    ensures k < 15 && Due(spec, after, LocalDay(spec.zone, after))(k)
  {
    var start := LocalDay(spec.zone, after);
    k := 2;
    if spec.recurrence.Weekly? {
      k := DaySetSoon(spec.weekdayMask, start);
    }
    FutureDayFires(spec, after, start + k);
    DueIs(spec, after, start, k);
  }

  lemma DaySetSoon(mask: int, start: int) returns (k: nat)
    requires mask % 128 != 0
    ensures 2 <= k < 9 && DayBit(mask, Weekday(start + k))
  {
    SevenBits(mask);
    var b: nat :| b < 7 && DayBit(mask, b);
    var day := DayWithBit(start + 2, b);
    k := day - start;
  }

  /** None is returned only for an alarm that is disabled or will never fire again. */
  lemma NextFireNone(spec: AlarmSpec, after: int)
    requires ValidSpec(spec)
    ensures NextFire(spec, after).None? <==> !spec.enabled || NeverAgain(spec, after)
  {
    if spec.enabled && !spec.recurrence.Once? {
      var start := LocalDay(spec.zone, after);
      var due := Due(spec, after, start);
      if NeverAgain(spec, after) {
        forall i: nat | i < 15 ensures !due(i) {
          DueIs(spec, after, start, i);
          SevenBits(spec.weekdayMask);
        }
        FirstFromIs(due, 15, 15);
      } else {
        var k := DueSoon(spec, after);
        FirstFromFinds(due, 15, k);
      }
    }
  }

  /** No firing at all is left exactly when None is returned for an enabled alarm. */
  lemma NoneMeansNothingLeft(spec: AlarmSpec, after: int)
    requires ValidSpec(spec) && spec.enabled
    ensures NextFire(spec, after).None? <==> forall f :: IsFiring(spec, f) ==> f <= after
  {
    if NextFire(spec, after).Some? {
      NextFireIsLeast(spec, after);
    } else {
      NextFireNone(spec, after);
      forall f | IsFiring(spec, f) ensures f <= after {
        var d :| Matches(spec, d) && f == FireOn(spec, d);
        if spec.recurrence.Weekly? {
          SevenBits(spec.weekdayMask);
        }
      }
    }
  }

  // ---- Which days, at what time

  /** The mask that stands for a set of weekdays, Monday 0 to Sunday 6. */
  function MaskOf(days: set<nat>): int {
    (if 0 in days then 1 else 0) + (if 1 in days then 2 else 0) + (if 2 in days then 4 else 0)
    + (if 3 in days then 8 else 0) + (if 4 in days then 16 else 0) + (if 5 in days then 32 else 0)
    + (if 6 in days then 64 else 0)
  }

  lemma SevenPowers()
    ensures Pow2(0) == 1 && Pow2(1) == 2 && Pow2(2) == 4 && Pow2(3) == 8
    ensures Pow2(4) == 16 && Pow2(5) == 32 && Pow2(6) == 64
  {
    assert Pow2(4) == 16 by { assert Pow2(4) == 2 * Pow2(3); }
    assert Pow2(5) == 32 by { assert Pow2(5) == 2 * Pow2(4); }
    assert Pow2(6) == 64 by { assert Pow2(6) == 2 * Pow2(5); }
  }

  predicate Bits(d: seq<int>) {
    forall i :: 0 <= i < |d| ==> 0 <= d[i] <= 1
  }

  /** The number that binary digits write, the lowest first. */
  function Written(d: seq<int>): int {
    if |d| == 0 then 0 else d[0] + 2 * Written(d[1..])
  }

  lemma {:induction false} WrittenOnce(d: seq<int>, e: seq<int>)
    requires |d| == |e| && Bits(d) && Bits(e) && Written(d) == Written(e)
    ensures d == e
  {
    if |d| > 0 {
      assert d[0] == e[0] && Written(d[1..]) == Written(e[1..]);
      WrittenOnce(d[1..], e[1..]);
      assert d == [d[0]] + d[1..] && e == [e[0]] + e[1..];
    }
  }

  lemma SevenWritten(d: seq<int>)
    requires |d| == 7
    ensures Written(d) == d[0] + 2 * d[1] + 4 * d[2] + 8 * d[3] + 16 * d[4] + 32 * d[5] + 64 * d[6]
  {
    assert d[1..][1..] == d[2..] && d[2..][1..] == d[3..] && d[3..][1..] == d[4..];
    assert d[4..][1..] == d[5..] && d[5..][1..] == d[6..] && d[6..][1..] == [];
    assert Written(d[5..]) == d[5] + 2 * Written(d[6..]) && Written(d[6..]) == d[6] + 2 * Written([]);
    assert Written(d[3..]) == d[3] + 2 * Written(d[4..]) && Written(d[4..]) == d[4] + 2 * Written(d[5..]);
    assert Written(d[1..]) == d[1] + 2 * Written(d[2..]) && Written(d[2..]) == d[2] + 2 * Written(d[3..]);
  }

  lemma MaskBits(mask: int, days: set<nat>, b: nat)
    requires mask % 128 == MaskOf(days) && b < 7
    ensures DayBit(mask, b) <==> b in days
  {
    var d := [mask % 2, mask / 2 % 2, mask / 4 % 2, mask / 8 % 2, mask / 16 % 2, mask / 32 % 2, mask / 64 % 2];
    var e := seq(7, i => if i in days then 1 else 0);
    Binary(mask);
    SevenWritten(d);
    SevenWritten(e);
    WrittenOnce(d, e);
    SevenPowers();
    assert b == 0 || b == 1 || b == 2 || b == 3 || b == 4 || b == 5 || b == 6;
    assert d[b] == if b in days then 1 else 0;
  }

  /** A weekly alarm set for some weekdays fires on the days that are one of them, 1 January 1970 a Thursday, and on no
      other. */
  lemma WeeklyFirings(spec: AlarmSpec, days: set<nat>, fire: int)
    requires spec.recurrence.Weekly? && spec.weekdayMask % 128 == MaskOf(days)
    ensures IsFiring(spec, fire) <==> exists day :: (day + 3) % 7 in days && fire == FireOn(spec, day)
  {
    forall day ensures Matches(spec, day) <==> (day + 3) % 7 in days {
      MaskBits(spec.weekdayMask, days, (day + 3) % 7);
    }
    if IsFiring(spec, fire) {
      var day :| Matches(spec, day) && fire == FireOn(spec, day);
      assert (day + 3) % 7 in days;
    }
    if exists day :: (day + 3) % 7 in days && fire == FireOn(spec, day) {
      var day :| (day + 3) % 7 in days && fire == FireOn(spec, day);
      assert Matches(spec, day);
    }
  }

  /** On its day an alarm fires when the wall clock first reads its hour and minute; if it never does, when it first
      reads a later whole minute. */
  lemma FiresAtItsTime(spec: AlarmSpec, day: int)
    requires ValidSpec(spec)
    ensures var z, fire, wall := spec.zone, FireOn(spec, day), day * 86400 + spec.hour * 3600 + spec.minute * 60;
            && ((exists u :: Local(z, u) == wall) ==>
                  Local(z, fire) == wall && forall u :: Local(z, u) == wall ==> fire <= u)
            && ((forall u :: Local(z, u) != wall) ==>
                  && wall < Local(z, fire)
                  && (forall u :: Local(z, u) >= wall && Local(z, u) % 60 == 0 ==> Local(z, fire) <= Local(z, u))
                  && (forall u :: Local(z, u) == Local(z, fire) ==> fire <= u))
  {
    var z, wall := spec.zone, Wall(spec, day);
    WallOnMinute(spec, day);
    ResolveIsFirst(z, wall);
    if exists u :: Local(z, u) == wall {
      var u :| Local(z, u) == wall;
      EarliestShowing(z, wall, u);
      ShownResolvesToItself(z, wall);
    }
  }

  // ---- Occurrences

  /** The local calendar date a firing belongs to. */
  function OccurrenceKey(spec: AlarmSpec, scheduled: int): int {
    LocalDay(spec.zone, scheduled)
  }

  predicate WithinGrace(scheduled: int, now: int) {
    0 <= now - scheduled <= LATE_GRACE
  }

  predicate GapInOneDay(z: Zone, j: nat)
    requires j < |z.shifts|
  {
    Jump(z, j) > 0 ==> (z.shifts[j].at + Offset(z, j)) / 86400 == (z.shifts[j].at + Offset(z, j + 1)) / 86400
  }

  /** Every spring-forward gap begins and ends on the same local date. */
  ghost predicate GapsStayInOneDay(z: Zone) {
    forall j {:trigger GapInOneDay(z, j)} :: 0 <= j < |z.shifts| ==> GapInOneDay(z, j)
  }

  /** Every wall-clock minute of every day resolves to an instant of that day. */
  ghost predicate KeysAreDays(z: Zone) {
    forall w {:trigger Resolve(z, w)} :: w % 60 == 0 ==> Local(z, Resolve(z, w)) / 86400 == w / 86400
  }

  /** A time inside a gap resolves to the end of that gap. */
  lemma GapResolvesToEnd(z: Zone, j: nat, w: int)
    requires ValidZone(z) && j < |z.shifts| && w % 60 == 0
    requires z.shifts[j].at + Offset(z, j) <= w < z.shifts[j].at + Offset(z, j + 1)
    ensures Local(z, Resolve(z, w)) == z.shifts[j].at + Offset(z, j + 1)
  {
    var end := z.shifts[j].at + Offset(z, j + 1);
    var k := ResolveSteps(z, w);
    GapEndShown(z, j);
    GapEndOnMinute(z, j);
    LeastShown(z, w, k, end);
    if w + 60 * k < end {
      GapNotShown(z, j, w + 60 * k);
    }
  }

  lemma ShownResolvesToItself(z: Zone, w: int)
    requires ValidZone(z) && w % 60 == 0 && Shown(z, w)
    ensures Local(z, Resolve(z, w)) == w
  {
    var k := ResolveSteps(z, w);
    assert Exists(z, w)(0);
  }

  lemma SameDayBetween(a: int, w: int, b: int)
    requires a <= w <= b && a / 86400 == b / 86400
    ensures w / 86400 == b / 86400
  {
  }

  predicate InGap(z: Zone, j: nat, w: int)
    requires j < |z.shifts|
  {
    z.shifts[j].at + Offset(z, j) <= w < z.shifts[j].at + Offset(z, j + 1)
  }

  /** The wall time falls in a gap that ends on a later date. */
  ghost predicate InMidnightGap(z: Zone, w: int) {
    exists j {:trigger InGap(z, j, w)} ::
      0 <= j < |z.shifts| && InGap(z, j, w) && w / 86400 != (z.shifts[j].at + Offset(z, j + 1)) / 86400
  }

  /** A wall time resolves to an instant of its own date exactly when no gap carries it over midnight. */
  lemma KeyOfWall(z: Zone, w: int)
    requires ValidZone(z) && w % 60 == 0
    ensures Local(z, Resolve(z, w)) / 86400 == w / 86400 <==> !InMidnightGap(z, w)
  {
    forall j: nat | j < |z.shifts| && InGap(z, j, w)
      ensures Local(z, Resolve(z, w)) == z.shifts[j].at + Offset(z, j + 1)
    {
      GapResolvesToEnd(z, j, w);
    }
    if Shown(z, w) {
      ShownResolvesToItself(z, w);
    } else {
      var j := GapAhead(z, w);
      assert InGap(z, j, w);
    }
  }

  lemma NoMidnightGap(z: Zone, w: int)
    requires GapsStayInOneDay(z)
    ensures !InMidnightGap(z, w)
  {
    forall j: nat | j < |z.shifts| && InGap(z, j, w)
      ensures w / 86400 == (z.shifts[j].at + Offset(z, j + 1)) / 86400
    {
      assert GapInOneDay(z, j);
      SameDayBetween(z.shifts[j].at + Offset(z, j), w, z.shifts[j].at + Offset(z, j + 1));
    }
  }

  lemma GapOfDays(z: Zone, j: nat)
    requires ValidZone(z) && KeysAreDays(z) && j < |z.shifts|
    ensures GapInOneDay(z, j)
  {
    if Jump(z, j) > 0 {
      var w := z.shifts[j].at + Offset(z, j);
      GapEndOnMinute(z, j);
      GapResolvesToEnd(z, j, w);
    }
  }

  /** Occurrence keys name the day an alarm was set for exactly when no gap crosses midnight. */
  lemma KeysAreDaysExactly(z: Zone)
    requires ValidZone(z)
    ensures KeysAreDays(z) <==> GapsStayInOneDay(z)
  {
    if GapsStayInOneDay(z) {
      forall w {:trigger Resolve(z, w)} | w % 60 == 0 ensures Local(z, Resolve(z, w)) / 86400 == w / 86400 {
        NoMidnightGap(z, w);
        KeyOfWall(z, w);
      }
    }
    if KeysAreDays(z) {
      forall j | 0 <= j < |z.shifts| ensures GapInOneDay(z, j) {
        GapOfDays(z, j);
      }
    }
  }

  lemma DayOfWall(spec: AlarmSpec, day: int)
    requires ValidSpec(spec)
    ensures Wall(spec, day) / 86400 == day
  {
    WallInDay(spec, day);
  }

  /** In such a zone the key of a firing is the day it was scheduled for, so keys increase with firings. */
  lemma KeyIsDay(spec: AlarmSpec, day: int)
    requires ValidSpec(spec) && GapsStayInOneDay(spec.zone)
    ensures OccurrenceKey(spec, FireOn(spec, day)) == day
  {
    WallOnMinute(spec, day);
    DayOfWall(spec, day);
    NoMidnightGap(spec.zone, Wall(spec, day));
    KeyOfWall(spec.zone, Wall(spec, day));
  }

  lemma KeysOfDays(spec: AlarmSpec, d1: int, d2: int)
    requires ValidSpec(spec) && d1 < d2
    ensures OccurrenceKey(spec, FireOn(spec, d1)) <= OccurrenceKey(spec, FireOn(spec, d2))
  {
    var z, w1, w2 := spec.zone, Wall(spec, d1), Wall(spec, d2);
    WallOnMinute(spec, d1);
    WallOnMinute(spec, d2);
    ResolveWithinDay(z, w1);
    ResolveWithinDay(z, w2);
    assert w1 + 86400 <= w2;
    DivOrdered(Local(z, Resolve(z, w1)), Local(z, Resolve(z, w2)));
  }

  lemma ResolveWithinDay(z: Zone, w: int)
    requires ValidZone(z) && w % 60 == 0
    ensures w <= Local(z, Resolve(z, w)) < w + 86400
  {
    var k := ResolveSteps(z, w);
  }

  /** In any zone, keys never decrease from one firing to a later one; they increase unless a gap crosses midnight. */
  lemma KeysOrdered(spec: AlarmSpec, f1: int, f2: int)
    requires ValidSpec(spec) && IsFiring(spec, f1) && IsFiring(spec, f2) && f1 < f2
    ensures OccurrenceKey(spec, f1) <= OccurrenceKey(spec, f2)
    ensures GapsStayInOneDay(spec.zone) ==> OccurrenceKey(spec, f1) < OccurrenceKey(spec, f2)
  {
    var d1 :| Matches(spec, d1) && f1 == FireOn(spec, d1);
    var d2 :| Matches(spec, d2) && f2 == FireOn(spec, d2);
    LaterFireLaterDay(spec, d1, d2);
    KeysOfDays(spec, d1, d2);
    if GapsStayInOneDay(spec.zone) {
      KeyIsDay(spec, d1);
      KeyIsDay(spec, d2);
    }
  }

  lemma LaterFireLaterDay(spec: AlarmSpec, d1: int, d2: int)
    requires ValidSpec(spec) && FireOn(spec, d1) < FireOn(spec, d2)
    ensures d1 < d2
  {
    if d2 < d1 {
      FireIncreasing(spec, d2, d1);
    }
  }

  /** Along the firings of every alarm in the zone, keys strictly increase. */
  ghost predicate KeysIncrease(z: Zone) {
    forall spec, f1, f2 :: ValidSpec(spec) && spec.zone == z && IsFiring(spec, f1) && IsFiring(spec, f2) && f1 < f2 ==>
      OccurrenceKey(spec, f1) < OccurrenceKey(spec, f2)
  }

  /** The daily alarm set for the minute at which a gap begins. */
  function GapAlarm(z: Zone, j: nat, id: string, device: string): AlarmSpec
    requires j < |z.shifts|
  {
    var ofDay := (z.shifts[j].at + Offset(z, j)) % 86400;
    AlarmSpec(id, device, ofDay / 3600, ofDay % 3600 / 60, Daily, z, true, 0, None, None)
  }

  function GapDay(z: Zone, j: nat): int
    requires j < |z.shifts|
  {
    (z.shifts[j].at + Offset(z, j)) / 86400
  }

  lemma SplitTime(w: int)
    requires w % 60 == 0
    ensures w == w / 86400 * 86400 + (w % 86400 / 3600) * 3600 + (w % 86400 % 3600 / 60) * 60
    ensures 0 <= w % 86400 / 3600 <= 23 && 0 <= w % 86400 % 3600 / 60 <= 59
  {
    var ofDay := w % 86400;
    assert ofDay % 60 == 0;
    assert ofDay % 3600 % 60 == 0;
  }

  lemma GapAlarmWall(z: Zone, j: nat, id: string, device: string)
    requires ValidZone(z) && j < |z.shifts|
    ensures ValidSpec(GapAlarm(z, j, id, device))
    ensures Wall(GapAlarm(z, j, id, device), GapDay(z, j)) == z.shifts[j].at + Offset(z, j)
  {
    GapEndOnMinute(z, j);
    SplitTime(z.shifts[j].at + Offset(z, j));
  }

  /** A day after a gap began, its first minute exists again. */
  lemma ShownNextDay(z: Zone, j: nat)
    requires ValidZone(z) && j < |z.shifts| && Jump(z, j) > 0
    ensures Shown(z, z.shifts[j].at + Offset(z, j) + 86400)
  {
    var w := z.shifts[j].at + Offset(z, j) + 86400;
    var t := w - Offset(z, j + 1);
    if j + 1 < |z.shifts| {
      Apart(z, j, j + 1);
    }
    PeriodIs(z, t, j + 1);
    EarliestShowing(z, w, t);
  }

  lemma NextDate(a: int, b: int)
    requires a <= b < a + 86400 && a / 86400 != b / 86400
    ensures b / 86400 == a / 86400 + 1 && (a + 86400) / 86400 == a / 86400 + 1
  {
  }

  lemma KeyOfFire(spec: AlarmSpec, day: int, w: int, local: int)
    requires Wall(spec, day) == w && Local(spec.zone, Resolve(spec.zone, w)) == local
    ensures OccurrenceKey(spec, FireOn(spec, day)) == local / 86400
  {
  }

  lemma GapFirstKey(z: Zone, j: nat, id: string, device: string)
    requires ValidZone(z) && j < |z.shifts| && !GapInOneDay(z, j)
    ensures var spec := GapAlarm(z, j, id, device);
            OccurrenceKey(spec, FireOn(spec, GapDay(z, j))) == GapDay(z, j) + 1
  {
    var w, end := z.shifts[j].at + Offset(z, j), z.shifts[j].at + Offset(z, j + 1);
    GapAlarmWall(z, j, id, device);
    GapEndOnMinute(z, j);
    GapResolvesToEnd(z, j, w);
    NextDate(w, end);
    KeyOfFire(GapAlarm(z, j, id, device), GapDay(z, j), w, end);
  }

  lemma GapSecondKey(z: Zone, j: nat, id: string, device: string)
    requires ValidZone(z) && j < |z.shifts| && !GapInOneDay(z, j)
    ensures var spec := GapAlarm(z, j, id, device);
            OccurrenceKey(spec, FireOn(spec, GapDay(z, j) + 1)) == GapDay(z, j) + 1
  {
    var w := z.shifts[j].at + Offset(z, j);
    GapAlarmWall(z, j, id, device);
    GapEndOnMinute(z, j);
    ShownNextDay(z, j);
    ShownResolvesToItself(z, w + 86400);
    NextDate(w, z.shifts[j].at + Offset(z, j + 1));
    KeyOfFire(GapAlarm(z, j, id, device), GapDay(z, j) + 1, w + 86400, w + 86400);
  }

  /** Across a gap that crosses midnight, the alarm at its first minute fires on two days under one key. */
  lemma GapSharesKey(z: Zone, j: nat, id: string, device: string)
    requires ValidZone(z) && j < |z.shifts| && !GapInOneDay(z, j)
    ensures var spec, day := GapAlarm(z, j, id, device), GapDay(z, j);
            && ValidSpec(spec) && FireOn(spec, day) < FireOn(spec, day + 1)
            && OccurrenceKey(spec, FireOn(spec, day)) == day + 1 == OccurrenceKey(spec, FireOn(spec, day + 1))
  {
    GapAlarmWall(z, j, id, device);
    GapFirstKey(z, j, id, device);
    GapSecondKey(z, j, id, device);
    FireIncreasing(GapAlarm(z, j, id, device), GapDay(z, j), GapDay(z, j) + 1);
  }

  /** Every alarm's firings have increasing keys exactly when no gap of the zone crosses midnight. */
  lemma KeysIncreaseExactly(z: Zone)
    requires ValidZone(z)
    ensures KeysIncrease(z) <==> GapsStayInOneDay(z)
  {
    if GapsStayInOneDay(z) {
      forall spec, f1, f2 | ValidSpec(spec) && spec.zone == z && IsFiring(spec, f1) && IsFiring(spec, f2) && f1 < f2
        ensures OccurrenceKey(spec, f1) < OccurrenceKey(spec, f2)
      {
        KeysOrdered(spec, f1, f2);
      }
    }
    if KeysIncrease(z) {
      forall j | 0 <= j < |z.shifts| ensures GapInOneDay(z, j) {
        if !GapInOneDay(z, j) {
          GapBreaksKeys(z, j);
        }
      }
    }
  }

  lemma GapBreaksKeys(z: Zone, j: nat)
    requires ValidZone(z) && j < |z.shifts| && !GapInOneDay(z, j)
    ensures !KeysIncrease(z)
  {
    var spec, day := GapAlarm(z, j, "", ""), GapDay(z, j);
    GapSharesKey(z, j, "", "");
    assert Matches(spec, day) && Matches(spec, day + 1);
    assert IsFiring(spec, FireOn(spec, day)) && IsFiring(spec, FireOn(spec, day + 1));
  }

  lemma DivOrdered(a: int, b: int)
    ensures a <= b ==> a / 86400 <= b / 86400
  {
  }

  // ---- Resolving "the next 7:00" to a date

  function Probe(hour: int, minute: int, zone: Zone): AlarmSpec {
    AlarmSpec("_probe", "_", hour, minute, Daily, zone, true, 0, None, None)
  }

  /** The local date of the next occurrence of a time of day. */
  function ResolveOnceDate(hour: int, minute: int, zone: Zone, now: int): Option<int> {
    var fire := NextFire(Probe(hour, minute, zone), now);
    if fire.None? then None else Some(LocalDay(zone, fire.value))
  }

  lemma ProbeFires(hour: int, minute: int, zone: Zone, now: int) returns (day: int)
    requires ValidSpec(Probe(hour, minute, zone))
    ensures var probe := Probe(hour, minute, zone);
            && NextFire(probe, now) == Some(FireOn(probe, day)) && FireOn(probe, day) > now
            && ResolveOnceDate(hour, minute, zone, now) == Some(OccurrenceKey(probe, FireOn(probe, day)))
  {
    var probe := Probe(hour, minute, zone);
    NextFireNone(probe, now);
    NextFireIsLeast(probe, now);
    day :| Matches(probe, day) && NextFire(probe, now).value == FireOn(probe, day);
  }

  /** The day after at the latest is the key of a firing. */
  lemma KeyWithinDay(spec: AlarmSpec, day: int)
    requires ValidSpec(spec)
    ensures var key := OccurrenceKey(spec, FireOn(spec, day));
            day <= key <= day + 1 && (key == day <==> !InMidnightGap(spec.zone, Wall(spec, day)))
  {
    WallOnMinute(spec, day);
    WallInDay(spec, day);
    DayOfWall(spec, day);
    KeyOfWall(spec.zone, Wall(spec, day));
    ResolveWithinDay(spec.zone, Wall(spec, day));
    DayOf(Local(spec.zone, FireOn(spec, day)), day);
    DayOf(Local(spec.zone, FireOn(spec, day)), day + 1);
  }

  /** A one-off stored with the resolved date always rings, and at the very next occurrence exactly when no gap
      carries that occurrence over midnight; otherwise it rings a day late. */
  lemma OnceDateRingsNext(spec: AlarmSpec, now: int) returns (day: int)
    requires ValidSpec(spec) && spec.enabled && spec.recurrence.Once?
    requires spec.date == ResolveOnceDate(spec.hour, spec.minute, spec.zone, now)
    ensures NextFire(Probe(spec.hour, spec.minute, spec.zone), now) == Some(FireOn(spec, day))
    ensures NextFire(spec, now) == if InMidnightGap(spec.zone, Wall(spec, day)) then Some(FireOn(spec, day + 1))
                                   else Some(FireOn(spec, day))
    ensures FireOn(spec, day) < FireOn(spec, day + 1)
  {
    var probe := Probe(spec.hour, spec.minute, spec.zone);
    day := ProbeFires(spec.hour, spec.minute, spec.zone, now);
    SameClockSameFire(spec, probe, day);
    OnceDateIs(spec, probe, day);
    FireIncreasing(spec, day, day + 1);
    OnceFiresOn(spec, now, spec.date.value);
  }

  /** The one-off alarm for a time of day, set at an instant. */
  function OnceAt(clock: AlarmSpec, now: int): AlarmSpec {
    clock.(recurrence := Once, date := ResolveOnceDate(clock.hour, clock.minute, clock.zone, now))
  }

  /** The input that rings late: in any zone with a gap over midnight, a one-off for the gap's first minute, set just
      before the gap. */
  lemma OnceRingsLate(z: Zone, j: nat, id: string, device: string) returns (now: int)
    requires ValidZone(z) && j < |z.shifts| && !GapInOneDay(z, j)
    ensures var clock, day := GapAlarm(z, j, id, device), GapDay(z, j);
            var once := OnceAt(clock, now);
            && ValidSpec(once) && FireOn(once, day) < FireOn(once, day + 1)
            && NextFire(clock, now) == Some(FireOn(once, day)) && NextFire(once, now) == Some(FireOn(once, day + 1))
  {
    var clock, day := GapAlarm(z, j, id, device), GapDay(z, j);
    GapAlarmWall(z, j, id, device);
    now := FireOn(clock, day) - 1;
    var once := OnceAt(clock, now);
    var d := OnceDateRingsNext(once, now);
    SameClockSameFire(once, clock, d);
    SameClockSameFire(once, clock, day);
    LeastDay(clock, now, day);
    var probe := Probe(clock.hour, clock.minute, z);
    SameClockSameFire(probe, clock, day);
    LeastDay(probe, now, day);
    if d < day {
      FireIncreasing(once, d, day);
    } else if day < d {
      FireIncreasing(once, day, d);
    }
    GapFirstKey(z, j, id, device);
    KeyWithinDay(once, day);
  }

  lemma LeastDay(spec: AlarmSpec, now: int, day: int)
    requires ValidSpec(spec) && spec.enabled && spec.recurrence.Daily? && FireOn(spec, day) == now + 1
    ensures NextFire(spec, now) == Some(FireOn(spec, day))
  {
    NextFireNone(spec, now);
    NextFireIsLeast(spec, now);
    assert Matches(spec, day);
    LeastIsNext(spec, now, NextFire(spec, now).value);
  }

  lemma LeastIsNext(spec: AlarmSpec, now: int, fire: int)
    requires IsLeastAfter(spec, now, fire) && IsFiring(spec, now + 1)
    ensures fire == now + 1
  {
  }

  /** The key of the next occurrence is its day, or the day after across a gap over midnight. */
  lemma OnceDateIs(spec: AlarmSpec, probe: AlarmSpec, day: int)
    requires ValidSpec(spec) && probe.zone == spec.zone && FireOn(spec, day) == FireOn(probe, day)
    ensures OccurrenceKey(probe, FireOn(probe, day))
         == if InMidnightGap(spec.zone, Wall(spec, day)) then day + 1 else day
  {
    KeyWithinDay(spec, day);
  }

  lemma OnceFiresOn(spec: AlarmSpec, now: int, date: int)
    requires spec.enabled && spec.recurrence.Once? && spec.date == Some(date) && FireOn(spec, date) > now
    ensures NextFire(spec, now) == Some(FireOn(spec, date))
  {
  }

  lemma SameClockSameFire(a: AlarmSpec, b: AlarmSpec, day: int)
    requires a.hour == b.hour && a.minute == b.minute && a.zone == b.zone
    ensures FireOn(a, day) == FireOn(b, day)
  {
    assert Wall(a, day) == Wall(b, day);
  }
}
