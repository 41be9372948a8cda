/** The streaming look-ahead peak limiter (controller/em_limiter.py), in real arithmetic.
    `Limiter` is the stateful object; the functions are the value it must compute. */
module PeakLimiter {
  import opened Options
  import opened Numerics
  import opened SlewRelease

  const CEILING: real := 32767.0
  const EPS: real := 0.000000001
  const SMALLEST_GAIN: real := 0.000000000001
  const RELEASE_REFERENCE_DB: real := 10.0

  /** The scalars the gain law reads. */
  datatype Settings = Settings(sampleRate: nat, lookahead: nat, thresh: real, slew: real, enabled: bool)

  /** What one call leaves for the next: the raw samples held back and the last gain. */
  datatype Carry = Carry(tail: seq<real>, gainDb: real)

  ghost predicate ValidSettings(c: Settings) {
    c.sampleRate > 0 && c.lookahead >= 1 && 0.0 < c.thresh <= CEILING && c.slew > 0.0
  }

  ghost predicate ValidCarry(c: Settings, s: Carry) {
    |s.tail| < c.lookahead
  }

  // ---- The gain law

  /** The largest magnitude in the look-ahead window of sample n, cut off at the end of the buffer. */
  function PeakAhead(buf: seq<real>, window: nat, n: nat): (peak: real)
    requires window >= 1 && n < |buf|
    ensures forall i :: n <= i < n + window && i < |buf| ==> Abs(buf[i]) <= peak
    ensures exists i :: n <= i < n + window && i < |buf| && Abs(buf[i]) == peak
  {
    var mags := AbsAll(buf);
    var slice := mags[n..if n + window <= |buf| then n + window else |buf|];
    var peak := MaxOf(slice);
    assert forall i :: n <= i < n + window && i < |buf| ==> Abs(buf[i]) == slice[i - n];
    assert exists j :: 0 <= j < |slice| && slice[j] == peak && Abs(buf[n + j]) == peak;
    peak
  }

  function TargetDb(db: Scale, c: Settings, peak: real): real {
    var ratio := if peak > EPS then c.thresh / Max(peak, EPS) else 1.0;
    db.Level(Max(Min(ratio, 1.0), SMALLEST_GAIN))
  }

  /** The look-ahead envelope. */
  function Peaks(buf: seq<real>, window: nat): (p: seq<real>)
    requires window >= 1
    ensures |p| == |buf|
    ensures forall n :: 0 <= n < |buf| ==> p[n] == PeakAhead(buf, window, n)
  {
    seq(|buf|, n requires 0 <= n < |buf| => PeakAhead(buf, window, n))
  }

  function Targets(db: Scale, c: Settings, buf: seq<real>): (t: seq<real>)
    requires c.lookahead >= 1
    ensures |t| == |buf|
  {
    MapAll(peak => TargetDb(db, c, peak), Peaks(buf, c.lookahead))
  }

  function Gains(db: Scale, c: Settings, buf: seq<real>, held: real): (g: seq<real>)
    requires c.lookahead >= 1
    ensures |g| == |buf|
  {
    if c.enabled then Release(Targets(db, c, buf), held, c.slew)
    else seq(|buf|, n => 0.0)
  }

  function Apply(db: Scale, x: seq<real>, g: seq<real>): (out: seq<real>)
    requires |x| == |g|
    ensures |out| == |x|
  {
    seq(|x|, n requires 0 <= n < |x| => db.Amplify(x[n], g[n]))
  }

  lemma ApplyPrefix(db: Scale, x: seq<real>, g: seq<real>, m: nat)
    requires m <= |x| == |g|
    ensures Apply(db, x, g)[..m] == Apply(db, x[..m], g[..m])
  {
  }

  /** How many samples of a buffer have seen their whole look-ahead window. */
  function Ready(c: Settings, length: nat): nat
    requires c.lookahead >= 1
  {
    if length >= c.lookahead then length - (c.lookahead - 1) else 0
  }

  /** One chunk: the samples emitted and the state carried on. */
  function Process(db: Scale, c: Settings, s: Carry, x: seq<real>): (r: (seq<real>, Carry))
    requires c.lookahead >= 1
  {
    if |x| == 0 then (x, s)
    else
      var buf := s.tail + x;
      var g := Gains(db, c, buf, s.gainDb);
      var m := Ready(c, |buf|);
      (Apply(db, buf[..m], g[..m]), Carry(buf[m..], if m > 0 then g[m - 1] else s.gainDb))
  }

  /** End of stream: the held tail under the last gain. */
  function Flush(db: Scale, s: Carry): (r: (seq<real>, Carry))
  {
    if |s.tail| == 0 then ([], s)
    else (seq(|s.tail|, n requires 0 <= n < |s.tail| => db.Amplify(s.tail[n], s.gainDb)), Carry([], s.gainDb))
  }

  function Over(x: seq<real>, bound: real): nat {
    if |x| == 0 then 0 else Over(x[..|x| - 1], bound) + if Abs(x[|x| - 1]) > bound then 1 else 0
  }

  lemma {:induction false} OverZero(x: seq<real>, bound: real)
    requires forall i :: 0 <= i < |x| ==> Abs(x[i]) <= bound
    ensures Over(x, bound) == 0
  {
    if |x| > 0 {
      OverZero(x[..|x| - 1], bound);
    }
  }

  /** A caller's operation on one limiter. */
  datatype Op =
    | Feed(x: seq<real>)
    | Retune(thresholdDb: Option<real>, releaseMs: Option<real>, enable: Option<bool>)

  /** The whole state a run acts on, with its two clip counters. */
  datatype Machine = Machine(c: Settings, s: Carry, clipped: nat, clippedBypassed: nat)

  function Tally(m: Machine, out: seq<real>): Machine {
    if m.c.enabled then m.(clipped := m.clipped + Over(out, CEILING))
    else m.(clippedBypassed := m.clippedBypassed + Over(out, CEILING))
  }

  function Threshold(db: Scale, thresholdDb: real): real {
    CEILING * db.Gain(Min(thresholdDb, 0.0))
  }

  function Slew(sampleRate: nat, releaseMs: real): real
    requires sampleRate > 0
  {
    RELEASE_REFERENCE_DB / (Max(1.0, releaseMs) / 1000.0) / (sampleRate as real)
  }

  function Retuned(db: Scale, c: Settings, op: Op): Settings
    requires c.sampleRate > 0 && op.Retune?
  {
    c.(thresh := if op.thresholdDb.Some? then Threshold(db, op.thresholdDb.value) else c.thresh,
       slew := if op.releaseMs.Some? then Slew(c.sampleRate, op.releaseMs.value) else c.slew,
       enabled := if op.enable.Some? then op.enable.value else c.enabled)
  }

  function Step(db: Scale, m: Machine, op: Op): (r: (Machine, seq<real>))
    requires m.c.sampleRate > 0 && m.c.lookahead >= 1
  {
    match op
    case Feed(x) =>
      var (out, s) := Process(db, m.c, m.s, x);
      (Tally(m.(s := s), out), out)
    case Retune(_, _, _) =>
      (m.(c := Retuned(db, m.c, op)), [])
  }

  function End(db: Scale, m: Machine): (r: (Machine, seq<real>)) {
    var (out, s) := Flush(db, m.s);
    (Tally(m.(s := s), out), out)
  }

  // ---- The object

  /** Maximum over [n, n + window), the tail padded with the last value. */
  function RunningMax(x: seq<real>, window: nat): (r: seq<real>)
    requires |x| > 0 && window >= 1
    ensures |r| == |x|
  {
    if window <= 1 then x
    else
      var padded := x + seq(window - 1, i => x[|x| - 1]);
      seq(|x|, n requires 0 <= n < |x| => MaxOf(padded[n..n + window]))
  }

  /** A window over the padded vector holds nothing above the cut-off window's peak, and the peak itself. */
  lemma PaddedWindowPeak(buf: seq<real>, window: nat, n: nat)
    requires window >= 1 && n < |buf|
    ensures var x := AbsAll(buf);
            var padded := x + seq(window - 1, i => x[|x| - 1]);
            MaxOf(padded[n..n + window]) == PeakAhead(buf, window, n)
  {
    var x := AbsAll(buf);
    var padded := x + seq(window - 1, i => x[|x| - 1]);
    var slice := padded[n..n + window];
    var peak := PeakAhead(buf, window, n);
    forall i | 0 <= i < |slice| ensures slice[i] <= peak {
      var at := if n + i < |buf| then n + i else |buf| - 1;
      assert slice[i] == padded[n + i] == x[at] == Abs(buf[at]);
    }
    var i :| n <= i < n + window && i < |buf| && Abs(buf[i]) == peak;
    assert slice[i - n] == padded[i] == x[i] == peak;
    MaxOfUnique(slice, peak);
  }

  lemma RunningMaxAt(buf: seq<real>, window: nat, n: nat)
    requires window >= 1 && n < |buf|
    ensures RunningMax(AbsAll(buf), window)[n] == PeakAhead(buf, window, n)
  {
    PaddedWindowPeak(buf, window, n);
    if window == 1 {
      var padded := AbsAll(buf) + seq(0, i => AbsAll(buf)[|buf| - 1]);
      assert MaxOf(padded[n..n + 1]) == padded[n];
    }
  }

  /** Padding with the last value is the same as cutting the window off at the end. */
  lemma RunningMaxIsPeakAhead(buf: seq<real>, window: nat)
    requires |buf| > 0 && window >= 1
    ensures RunningMax(AbsAll(buf), window) == Peaks(buf, window)
  {
    var r, p := RunningMax(AbsAll(buf), window), Peaks(buf, window);
    forall n | 0 <= n < |buf| ensures r[n] == p[n] {
      RunningMaxAt(buf, window, n);
    }
  }

  lemma TargetAtMostUnity(db: Scale, c: Settings, peak: real)
    requires IsDecibel(db) && c.thresh > 0.0
    ensures TargetDb(db, c, peak) <= 0.0
    ensures TargetDb(db, c, peak) >= db.Level(SMALLEST_GAIN)
  {
    var ratio := if peak > EPS then c.thresh / Max(peak, EPS) else 1.0;
    var clamped := Max(Min(ratio, 1.0), SMALLEST_GAIN);
    LevelMonotone(db, clamped, 1.0);
    LevelMonotone(db, SMALLEST_GAIN, clamped);
    LevelMonotone(db, 1.0, 1.0);
  }

  lemma GainsAtMostUnity(db: Scale, c: Settings, buf: seq<real>, held: real, n: nat)
    requires IsDecibel(db) && ValidSettings(c) && n < |buf|
    ensures Gains(db, c, buf, held)[n] <= 0.0
    ensures c.enabled ==> Gains(db, c, buf, held)[n] <= TargetDb(db, c, PeakAhead(buf, c.lookahead, n))
  {
    if c.enabled {
      TargetAtMostUnity(db, c, PeakAhead(buf, c.lookahead, n));
      assert Targets(db, c, buf)[n] == TargetDb(db, c, PeakAhead(buf, c.lookahead, n));
    }
  }

  class Limiter {
    const db: Scale
    const sampleRate: nat
    const lookahead: nat
    var enabled: bool
    var thresholdDb: real
    var thresh: real
    var releaseMs: real
    var slew: real
    var tail: seq<real>
    var gainDb: real
    var maxReductionDb: real
    var clipped: nat
    var clippedBypassed: nat

    ghost predicate Valid()
      reads this
    {
      IsDecibel(db) && ValidSettings(Config()) && ValidCarry(Config(), Held())
    }

    function Config(): Settings
      reads this
    {
      Settings(sampleRate, lookahead, thresh, slew, enabled)
    }

    function Held(): Carry
      reads this
    {
      Carry(tail, gainDb)
    }

    function State(): Machine
      reads this
    {
      Machine(Config(), Held(), clipped, clippedBypassed)
    }

    /** A fresh limiter, its tail primed with look-ahead silence. */
    constructor (db: Scale, sampleRate: nat, thresholdDb: real, lookaheadMs: real, releaseMs: real, enabled: bool)
      requires IsDecibel(db) && sampleRate > 0
      ensures Valid() && this.db == db
      ensures State() == Built(db, sampleRate, lookahead, thresholdDb, releaseMs, enabled)
      ensures lookahead == (if (sampleRate as real * lookaheadMs / 1000.0).Floor > 1
                            then (sampleRate as real * lookaheadMs / 1000.0).Floor else 1)
    {
      this.db := db;
      this.sampleRate := sampleRate;
      var ahead := (sampleRate as real * lookaheadMs / 1000.0).Floor;
      this.lookahead := if ahead > 1 then ahead else 1;
      this.enabled := enabled;
      this.thresholdDb := Min(thresholdDb, 0.0);
      this.thresh := Threshold(db, thresholdDb);
      this.releaseMs := releaseMs;
      this.slew := Slew(sampleRate, releaseMs);
      this.tail := seq(if ahead > 1 then ahead - 1 else 0, i => 0.0);
      this.gainDb := 0.0;
      this.maxReductionDb := 0.0;
      this.clipped, this.clippedBypassed := 0, 0;
      ThresholdRange(db, thresholdDb);
      SlewPositive(sampleRate, releaseMs);
    }

    /** Change the scalars mid-stream; nothing carried is touched. */
    method SetParams(threshold: Option<real>, release: Option<real>, enable: Option<bool>)
      requires Valid()
      modifies this
      ensures Valid()
      ensures State() == Step(db, old(State()), Retune(threshold, release, enable)).0
      ensures maxReductionDb == old(maxReductionDb)
    {
      if threshold.Some? {
        thresholdDb := Min(threshold.value, 0.0);
        thresh := CEILING * db.Gain(thresholdDb);
        ThresholdRange(db, threshold.value);
      }
      if release.Some? {
        releaseMs := release.value;
        slew := RELEASE_REFERENCE_DB / (Max(1.0, release.value) / 1000.0) / (sampleRate as real);
        SlewPositive(sampleRate, release.value);
      }
      if enable.Some? {
        enabled := enable.value;
      }
    }

    /** Limit one chunk: the vectorised computation gives the sequential law. */
    method ProcessChunk(x: seq<real>) returns (out: seq<real>)
      requires Valid()
      modifies this
      ensures Valid()
      ensures (State(), out) == Step(db, old(State()), Feed(x))
    {
      if |x| == 0 {
        out := x;
        return;
      }
      var buf := if |tail| > 0 then tail + x else x;
      assert buf == tail + x;
      var gains: seq<real>;
      if !enabled {
        gains := seq(|buf|, n => 0.0);
      } else {
        gains := LimitingGains(buf);
      }
      out := Emit(buf, gains);
    }

    /** The look-ahead envelope, its target gain and the slew-limited release, vectorised. */
    method LimitingGains(buf: seq<real>) returns (gains: seq<real>)
      requires Valid() && enabled && |buf| > 0
      ensures gains == Gains(db, Config(), buf, gainDb)
    {
      var c := Config();
      var env := RunningMax(AbsAll(buf), lookahead);
      RunningMaxIsPeakAhead(buf, lookahead);
      var target := MapAll(peak => TargetDb(db, c, peak), env);
      gains := ShearedRunningMin(target, gainDb, slew);
      ghost var unclamped := gains;
      gains := MapAll(g => Min(g, 0.0), gains);
      forall n | 0 <= n < |gains| ensures gains[n] == unclamped[n] {
        GainsAtMostUnity(db, c, buf, gainDb, n);
      }
      assert gains == unclamped;
    }

    method RecordCut(gains: seq<real>)
      modifies this`maxReductionDb
      ensures DeepestCut(maxReductionDb, old(maxReductionDb), gains)
    {
      if |gains| > 0 {
        maxReductionDb := Max(maxReductionDb, MaxOf(MapAll(v => -v, gains)));
      }
    }

    /** Apply the gain, hold back the look-ahead, carry the state and count what the backstop will clip. */
    method Emit(buf: seq<real>, gains: seq<real>) returns (out: seq<real>)
      requires Valid() && |buf| == |gains| > 0
      modifies this`tail, this`gainDb, this`maxReductionDb, this`clipped, this`clippedBypassed
      ensures Valid()
      ensures var m := Ready(Config(), |buf|);
              && out == Apply(db, buf[..m], gains[..m])
              && Held() == Carry(buf[m..], if m > 0 then gains[m - 1] else old(gainDb))
      ensures State() == Tally(old(State()).(s := Held()), out)
      ensures DeepestCut(maxReductionDb, old(maxReductionDb), gains[..|out|])
    {
      var amplified := Apply(db, buf, gains);
      var hold := lookahead - 1;
      ghost var m := Ready(Config(), |buf|);
      if hold > 0 {
        if |buf| > hold {
          out, tail := amplified[..|amplified| - hold], buf[|buf| - hold..];
          gainDb := gains[|gains| - hold - 1];
        } else {
          out, tail := [], buf;
        }
      } else {
        out, tail := amplified, [];
        gainDb := gains[|gains| - 1];
      }
      ApplyPrefix(db, buf, gains, m);
      assert out == amplified[..m];
      RecordCut(gains[..|out|]);
      var overs := Over(out, CEILING);
      if enabled {
        clipped := clipped + overs;
      } else {
        clippedBypassed := clippedBypassed + overs;
      }
    }

    /** Emit the held tail at the end of a stream. */
    method FlushTail() returns (out: seq<real>)
      requires Valid()
      modifies this`tail, this`clipped, this`clippedBypassed
      ensures Valid()
      ensures (State(), out) == End(db, old(State()))
    {
      if |tail| == 0 {
        out := [];
        return;
      }
      var held, gain := tail, gainDb;
      tail := [];
      out := seq(|held|, n requires 0 <= n < |held| => db.Amplify(held[n], gain));
      assert out == Flush(db, old(Held())).0;
      var overs := Over(out, CEILING);
      if enabled {
        clipped := clipped + overs;
      } else {
        clippedBypassed := clippedBypassed + overs;
      }
    }
  }

  function Fresh(c: Settings): Carry
    requires c.lookahead >= 1
  {
    Carry(seq(c.lookahead - 1, i => 0.0), 0.0)
  }

  /** A limiter as built: the settings asked for, the tail primed, no cut and nothing counted yet. */
  function Built(db: Scale, sampleRate: nat, lookahead: nat, thresholdDb: real, releaseMs: real, enabled: bool): Machine
    requires sampleRate > 0 && lookahead >= 1
  {
    var c := Settings(sampleRate, lookahead, Threshold(db, thresholdDb), Slew(sampleRate, releaseMs), enabled);
    Machine(c, Fresh(c), 0, 0)
  }

  lemma ThresholdRange(db: Scale, thresholdDb: real)
    requires IsDecibel(db)
    ensures 0.0 < Threshold(db, thresholdDb) <= CEILING
  {
    GainMonotone(db, Min(thresholdDb, 0.0), 0.0);
    MulLe(CEILING, db.Gain(Min(thresholdDb, 0.0)), 1.0);
  }

  lemma SlewPositive(sampleRate: nat, releaseMs: real)
    requires sampleRate > 0
    ensures Slew(sampleRate, releaseMs) > 0.0
  {
  }

  lemma TenPer(a: real, b: real)
    requires a > 0.0 && b > 0.0
    ensures RELEASE_REFERENCE_DB / a / b * (b * a) == 10.0
  {
    var q := RELEASE_REFERENCE_DB / a;
    assert q * a == 10.0;
    assert q / b * b == q;
    assert q / b * (b * a) == (q / b * b) * a;
  }

  /** The release time is how long ten decibels take; under a millisecond counts as one. */
  lemma SlewIsRelease(sampleRate: nat, releaseMs: real)
    requires sampleRate > 0
    ensures releaseMs >= 1.0 ==> Slew(sampleRate, releaseMs) * (sampleRate as real * (releaseMs / 1000.0)) == 10.0
    ensures releaseMs < 1.0 ==> Slew(sampleRate, releaseMs) == Slew(sampleRate, 1.0)
  {
    TenPer(Max(1.0, releaseMs) / 1000.0, sampleRate as real);
  }
}
