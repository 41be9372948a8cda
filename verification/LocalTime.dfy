/** A time zone as the UTC instants at which its offset changes, and local wall time in it.
    Instants and wall times are whole seconds; a wall time counts seconds from local 1970-01-01. */
module LocalTime {
  const DAY: int := 86400

  /** From the instant `at` on, wall time is UTC plus `offset`. */
  datatype Shift = Shift(at: int, offset: int)

  datatype Zone = Zone(base: int, shifts: seq<Shift>)

  /** The offset of period i: period 0 is before every shift, period i follows shifts[i - 1]. */
  function Offset(z: Zone, i: nat): int
    requires i <= |z.shifts|
  {
    if i == 0 then z.base else z.shifts[i - 1].offset
  }

  /** Offsets and jumps under a day, shifts at least two days apart. */
  ghost predicate Spaced(z: Zone) {
    && (forall i :: 0 <= i <= |z.shifts| ==> -DAY < Offset(z, i) < DAY)
    && (forall i :: 0 <= i < |z.shifts| ==> -DAY < Jump(z, i) < DAY)
    && (forall i, j {:trigger Before(i, j)} :: Before(i, j) && 0 <= i && j < |z.shifts| ==>
          z.shifts[j].at - z.shifts[i].at >= 2 * DAY)
  }

  predicate Before(i: int, j: int) {
    i < j
  }

  lemma Apart(z: Zone, i: nat, j: nat)
    requires Spaced(z) && i < j < |z.shifts|
    ensures z.shifts[i].at + 2 * DAY <= z.shifts[j].at
  {
    assert Before(i, j);
  }

  /** Offsets and shifts on whole minutes. */
  ghost predicate WholeMinutes(z: Zone) {
    && (forall i :: 0 <= i <= |z.shifts| ==> Offset(z, i) % 60 == 0)
    && (forall i :: 0 <= i < |z.shifts| ==> z.shifts[i].at % 60 == 0)
  }

  ghost predicate ValidZone(z: Zone) {
    Spaced(z) && WholeMinutes(z)
  }

  function Jump(z: Zone, i: nat): int
    requires i < |z.shifts|
  {
    Offset(z, i + 1) - Offset(z, i)
  }

  /** bisect_right over the shift instants. */
  function PeriodUpTo(z: Zone, t: int, n: nat): (p: nat)
    requires n <= |z.shifts|
    ensures p <= n
  {
    if n == 0 then 0 else if z.shifts[n - 1].at <= t then n else PeriodUpTo(z, t, n - 1)
  }

  function Period(z: Zone, t: int): (p: nat)
    ensures p <= |z.shifts|
  {
    PeriodUpTo(z, t, |z.shifts|)
  }

  lemma {:induction false} PeriodUpToBounds(z: Zone, t: int, n: nat)
    requires n <= |z.shifts|
    ensures var p := PeriodUpTo(z, t, n);
            (p > 0 ==> z.shifts[p - 1].at <= t) && (p < n ==> t < z.shifts[p].at)
  {
    if n > 0 && z.shifts[n - 1].at > t {
      PeriodUpToBounds(z, t, n - 1);
    }
  }

  /** An instant lies between the shifts that bound its period. */
  lemma PeriodBounds(z: Zone, t: int)
    ensures var p := Period(z, t);
            (p > 0 ==> z.shifts[p - 1].at <= t) && (p < |z.shifts| ==> t < z.shifts[p].at)
  {
    PeriodUpToBounds(z, t, |z.shifts|);
  }

  /** The wall time shown at an instant. */
  function Local(z: Zone, t: int): int {
    t + Offset(z, Period(z, t))
  }

  /** Where a fold=0 reading of the wall clock passes to the next period (PEP 495). */
  function WallShift(z: Zone, i: nat): int
    requires i < |z.shifts|
  {
    z.shifts[i].at + if Jump(z, i) > 0 then Offset(z, i + 1) else Offset(z, i)
  }

  function WallPeriodUpTo(z: Zone, w: int, n: nat): (p: nat)
    requires n <= |z.shifts|
    ensures p <= n
  {
    if n == 0 then 0 else if WallShift(z, n - 1) <= w then n else WallPeriodUpTo(z, w, n - 1)
  }

  lemma {:induction false} WallPeriodUpToBounds(z: Zone, w: int, n: nat)
    requires n <= |z.shifts|
    ensures var p := WallPeriodUpTo(z, w, n);
            (p > 0 ==> WallShift(z, p - 1) <= w) && (p < n ==> w < WallShift(z, p))
  {
    if n > 0 && WallShift(z, n - 1) > w {
      WallPeriodUpToBounds(z, w, n - 1);
    }
  }

  /** A wall time read with fold=0: the first of two instants, or through the offset before a gap. */
  function ToUtc(z: Zone, w: int): int {
    w - Offset(z, WallPeriodUpTo(z, w, |z.shifts|))
  }

  /** The round trip through UTC reproduces the wall time. */
  predicate Shown(z: Zone, w: int) {
    Local(z, ToUtc(z, w)) == w
  }

  lemma PeriodIs(z: Zone, t: int, p: nat)
    requires Spaced(z) && p <= |z.shifts|
    requires p > 0 ==> z.shifts[p - 1].at <= t
    requires p < |z.shifts| ==> t < z.shifts[p].at
    ensures Period(z, t) == p
  {
    var q := Period(z, t);
    PeriodBounds(z, t);
    if q < p - 1 {
      Apart(z, q, p - 1);
    } else if q > p + 1 {
      Apart(z, p, q - 1);
    }
  }

  lemma WallBounds(z: Zone, w: int)
    ensures var j := WallPeriodUpTo(z, w, |z.shifts|);
            && (j < |z.shifts| ==> w < WallShift(z, j))
            && (j > 0 ==> WallShift(z, j - 1) <= w && z.shifts[j - 1].at <= ToUtc(z, w))
  {
    WallPeriodUpToBounds(z, w, |z.shifts|);
  }

  /** fold=0 gives the earliest instant that shows a wall time, whenever any instant does. */
  lemma EarliestShowing(z: Zone, w: int, t: int)
    requires Spaced(z) && Local(z, t) == w
    ensures Shown(z, w) && ToUtc(z, w) <= t
  {
    var j := WallPeriodUpTo(z, w, |z.shifts|);
    var k := Period(z, t);
    WallBounds(z, w);
    PeriodBounds(z, t);
    PeriodNear(z, w, t, j, k);
    if k > j {
      PeriodIs(z, ToUtc(z, w), j);
    }
  }

  /** An instant showing w lies in the fold=0 period of w or the next one. */
  lemma PeriodNear(z: Zone, w: int, t: int, j: nat, k: nat)
    requires Spaced(z) && j <= |z.shifts| && k <= |z.shifts| && t + Offset(z, k) == w
    requires j < |z.shifts| ==> w < WallShift(z, j)
    requires j > 0 ==> WallShift(z, j - 1) <= w
    requires k < |z.shifts| ==> t < z.shifts[k].at
    requires k > 0 ==> z.shifts[k - 1].at <= t
    ensures k == j || k == j + 1
    ensures k == j + 1 ==> w - Offset(z, j) < z.shifts[j].at
  {
    if k < j - 1 {
      Apart(z, k, j - 1);
    } else if k > j + 1 {
      Apart(z, j, k - 1);
    }
  }

  lemma PeriodOrder(z: Zone, u: int, now: int)
    requires Spaced(z) && u <= now
    ensures Period(z, u) <= Period(z, now)
  {
    var p, q := Period(z, u), Period(z, now);
    PeriodBounds(z, u);
    PeriodBounds(z, now);
    if q + 1 < p {
      Apart(z, q, p - 1);
    }
  }

  /** A wall time no later than the one on the clock was first shown no later than now. */
  lemma ShownByNow(z: Zone, w: int, now: int)
    requires Spaced(z) && Shown(z, w) && w <= Local(z, now)
    ensures ToUtc(z, w) <= now
  {
    var j := Period(z, now);
    var t := w - Offset(z, j);
    PeriodBounds(z, now);
    PeriodBounds(z, ToUtc(z, w));
    if j == 0 || z.shifts[j - 1].at <= t {
      PeriodIs(z, t, j);
      EarliestShowing(z, w, t);
    } else {
      var u := ToUtc(z, w);
      var k := Period(z, u);
      if u > now {
        PeriodOrder(z, now, u);
        if k > j {
          Apart(z, j - 1, k - 1);
        }
      }
    }
  }

  /** The clock never reads more than a day ahead of what it reads later. */
  lemma ClockSlipsUnderADay(z: Zone, u: int, now: int)
    requires Spaced(z) && u <= now
    ensures Local(z, u) < Local(z, now) + DAY
  {
    var p, q := Period(z, u), Period(z, now);
    PeriodBounds(z, u);
    PeriodBounds(z, now);
    PeriodOrder(z, u, now);
    if q == p + 1 {
      assert Jump(z, p) > -DAY;
    } else if q > p + 1 {
      Apart(z, p, q - 1);
    }
  }

  lemma MinuteArithmetic(t: int, offset: int)
    requires offset % 60 == 0
    ensures (t - t % 60) + offset == (t + offset) - (t + offset) % 60
  {
    var k := offset / 60;
    assert (t + 60 * k) % 60 == t % 60;
  }

  lemma FloorToMinute(at: int, t: int)
    requires at % 60 == 0 && at <= t
    ensures at <= t - t % 60
  {
  }

  lemma MinuteLocal(z: Zone, now: int)
    requires ValidZone(z)
    ensures Local(z, now - now % 60) == Local(z, now) - Local(z, now) % 60
  {
    var p := Period(z, now);
    PeriodBounds(z, now);
    if p > 0 {
      FloorToMinute(z.shifts[p - 1].at, now);
    }
    PeriodIs(z, now - now % 60, p);
    MinuteArithmetic(now, Offset(z, p));
  }

  /** The minute on the clock is shown. */
  lemma MinuteOnClock(z: Zone, now: int)
    requires ValidZone(z)
    ensures Shown(z, Local(z, now) - Local(z, now) % 60)
  {
    MinuteLocal(z, now);
    EarliestShowing(z, Local(z, now - now % 60), now - now % 60);
  }

  /** Through the offset before it, a wall time outside every gap is shown. */
  lemma BeforeShift(z: Zone, w: int)
    requires Spaced(z)
    ensures var j := WallPeriodUpTo(z, w, |z.shifts|);
            j == |z.shifts| || ToUtc(z, w) < z.shifts[j].at ==> Shown(z, w)
  {
    var j := WallPeriodUpTo(z, w, |z.shifts|);
    WallBounds(z, w);
    if j == |z.shifts| || ToUtc(z, w) < z.shifts[j].at {
      PeriodIs(z, ToUtc(z, w), j);
    }
  }

  lemma GapEndShown(z: Zone, j: nat)
    requires Spaced(z) && j < |z.shifts|
    ensures Shown(z, z.shifts[j].at + Offset(z, j + 1))
    ensures ToUtc(z, z.shifts[j].at + Offset(z, j + 1)) <= z.shifts[j].at
  {
    if j + 1 < |z.shifts| {
      Apart(z, j, j + 1);
    }
    PeriodIs(z, z.shifts[j].at, j + 1);
    EarliestShowing(z, z.shifts[j].at + Offset(z, j + 1), z.shifts[j].at);
  }

  /** A wall time that is not shown lies in a gap; the wall time ending the gap is shown, less than a day on. */
  lemma GapAhead(z: Zone, w: int) returns (j: nat)
    requires Spaced(z) && !Shown(z, w)
    ensures j < |z.shifts|
    ensures z.shifts[j].at + Offset(z, j) <= w < z.shifts[j].at + Offset(z, j + 1) < w + DAY
    ensures Shown(z, z.shifts[j].at + Offset(z, j + 1))
  {
    j := WallPeriodUpTo(z, w, |z.shifts|);
    BeforeShift(z, w);
    WallBounds(z, w);
    GapEndShown(z, j);
  }

  /** Nothing inside a gap is shown. */
  lemma GapNotShown(z: Zone, j: nat, w: int)
    requires Spaced(z) && j < |z.shifts|
    requires z.shifts[j].at + Offset(z, j) <= w < z.shifts[j].at + Offset(z, j + 1)
    ensures !Shown(z, w)
  {
    var k := Period(z, ToUtc(z, w));
    PeriodBounds(z, ToUtc(z, w));
    if k < j {
      Apart(z, k, j);
    } else if k > j + 1 {
      Apart(z, j, k - 1);
    }
  }

  /** The offset in force is added to UTC: the base before the first shift, then each shift's from its instant on. */
  lemma OffsetIsAdded(z: Zone, t: int, i: nat)
    requires Spaced(z)
    ensures |z.shifts| == 0 || t < z.shifts[0].at ==> Local(z, t) == t + z.base
    ensures i < |z.shifts| && z.shifts[i].at <= t && (i + 1 < |z.shifts| ==> t < z.shifts[i + 1].at) ==>
              Local(z, t) == t + z.shifts[i].offset
  {
    if |z.shifts| == 0 || t < z.shifts[0].at {
      PeriodIs(z, t, 0);
    }
    if i < |z.shifts| && z.shifts[i].at <= t && (i + 1 < |z.shifts| ==> t < z.shifts[i + 1].at) {
      PeriodIs(z, t, i + 1);
    }
  }
}
