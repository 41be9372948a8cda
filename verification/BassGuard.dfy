/** The dynamic bass guard (controller/em_mbc.py): a two-band compressor, hard below the crossover. */
module BassGuard {
  import opened Options
  import opened Numerics
  import opened SlewRelease
  import opened Biquads
  import L = PeakLimiter

  const EPS: real := 0.000000001

  /** The static curve of one band and its release. */
  datatype BandLaw = BandLaw(ratio: real, thresholdDb: real, floorDb: real, slew: real)

  datatype GuardSettings = GuardSettings(lp: seq<Biquad>, hp: seq<Biquad>, law: BandLaw, enabled: bool)

  datatype GuardCarry = GuardCarry(zl: seq<Delay>, zh: seq<Delay>, gainDb: real)

  ghost predicate ValidLaw(law: BandLaw) {
    law.ratio >= 1.0 && law.floorDb <= 0.0 && law.slew > 0.0
  }

  ghost predicate ValidGuard(c: GuardSettings, s: GuardCarry) {
    ValidLaw(c.law) && |s.zl| == |c.lp| && |s.zh| == |c.hp|
  }

  /** Keep 1/ratio of what exceeds the threshold, but never cut below the floor. */
  function BandTarget(db: Scale, law: BandLaw, x: real): real
    requires law.ratio >= 1.0
  {
    var level := db.Level(Max(Abs(x) / 32768.0, EPS));
    var over := Max(level - law.thresholdDb, 0.0);
    Max(-over * (1.0 - 1.0 / law.ratio), law.floorDb)
  }

  function BandTargets(db: Scale, law: BandLaw, x: seq<real>): (t: seq<real>)
    requires law.ratio >= 1.0
    ensures |t| == |x|
  {
    MapAll(v => BandTarget(db, law, v), x)
  }

  function BandGains(db: Scale, law: BandLaw, x: seq<real>, held: real): (g: seq<real>)
    requires law.ratio >= 1.0
    ensures |g| == |x|
  {
    Release(BandTargets(db, law, x), held, law.slew)
  }

  /** The band under its gain, plus the untouched rest. */
  function Mix(db: Scale, low: seq<real>, g: seq<real>, high: seq<real>): (out: seq<real>)
    requires |low| == |g| == |high|
    ensures |out| == |low|
  {
    seq(|low|, i requires 0 <= i < |low| => db.Amplify(low[i], g[i]) + high[i])
  }

  function Sum(low: seq<real>, high: seq<real>): (out: seq<real>)
    requires |low| == |high|
    ensures |out| == |low|
  {
    seq(|low|, i requires 0 <= i < |low| => low[i] + high[i])
  }

  /** One chunk through the guard. While bypassed it still filters, and keeps its gain. */
  function GuardProcess(db: Scale, c: GuardSettings, s: GuardCarry, x: seq<real>): (r: (seq<real>, GuardCarry))
    requires |s.zl| == |c.lp| && |s.zh| == |c.hp| && c.law.ratio >= 1.0
    ensures |r.0| == |x| && |r.1.zl| == |c.lp| && |r.1.zh| == |c.hp|
  {
    if |x| == 0 then (x, s)
    else
      var (low, zl) := SosFilt(c.lp, s.zl, x);
      var (high, zh) := SosFilt(c.hp, s.zh, x);
      if !c.enabled then (Sum(low, high), GuardCarry(zl, zh, s.gainDb))
      else
        var g := BandGains(db, c.law, low, s.gainDb);
        (Mix(db, low, g, high), GuardCarry(zl, zh, g[|g| - 1]))
  }

  lemma ExcessCut(over: real, ratio: real)
    requires over >= 0.0 && ratio >= 1.0
    ensures -over * (1.0 - 1.0 / ratio) <= 0.0
  {
    var keep := 1.0 / ratio;
    assert keep * ratio == 1.0;
    assert keep <= 1.0;
    MulLe(over, 0.0, 1.0 - keep);
    assert -over * (1.0 - keep) == -(over * (1.0 - keep));
  }

  lemma BandTargetRange(db: Scale, law: BandLaw, x: real)
    requires ValidLaw(law)
    ensures law.floorDb <= BandTarget(db, law, x) <= 0.0
  {
    ExcessCut(Max(db.Level(Max(Abs(x) / 32768.0, EPS)) - law.thresholdDb, 0.0), law.ratio);
  }

  lemma BandGainsAtMostUnity(db: Scale, law: BandLaw, x: seq<real>, held: real, n: nat)
    requires ValidLaw(law) && n < |x|
    ensures BandGains(db, law, x, held)[n] <= 0.0
  {
    BandTargetRange(db, law, x[n]);
    assert BandTargets(db, law, x)[n] == BandTarget(db, law, x[n]);
  }

  lemma {:induction false} RampGrows(slew: real, n: nat)
    requires slew > 0.0
    ensures Ramp(slew, n + 1) >= slew
  {
    if n > 0 {
      RampGrows(slew, n - 1);
    }
  }

  /** The guard never cuts deeper than its floor; after the floor is raised mid-stream, a deeper
      carried gain recovers at the release rate and no faster. */
  lemma BandFloor(db: Scale, law: BandLaw, x: seq<real>, held: real, n: nat)
    requires ValidLaw(law) && n < |x|
    ensures held >= law.floorDb ==> law.floorDb <= BandGains(db, law, x, held)[n] <= 0.0
    ensures BandGains(db, law, x, held)[n] >= Min(law.floorDb, held + Ramp(law.slew, n + 1))
  {
    var t := BandTargets(db, law, x);
    forall i | 0 <= i < |t| ensures t[i] >= law.floorDb {
      BandTargetRange(db, law, x[i]);
      assert t[i] == BandTarget(db, law, x[i]);
    }
    ReleaseFloor(t, held, law.slew, law.floorDb, n);
    RampGrows(law.slew, n);
    BandGainsAtMostUnity(db, law, x, held, n);
  }

  lemma MixSplit(db: Scale, low: seq<real>, g: seq<real>, high: seq<real>, m: nat)
    requires |low| == |g| == |high| && m <= |low|
    ensures Mix(db, low, g, high) == Mix(db, low[..m], g[..m], high[..m]) + Mix(db, low[m..], g[m..], high[m..])
  {
  }

  lemma BandGainsSplit(db: Scale, law: BandLaw, a: seq<real>, b: seq<real>, held: real)
    requires law.ratio >= 1.0 && |a| > 0
    ensures var g1 := BandGains(db, law, a, held);
            BandGains(db, law, a + b, held) == g1 + BandGains(db, law, b, g1[|a| - 1])
  {
    MapAllConcat(v => BandTarget(db, law, v), a, b);
    ReleaseConcat(BandTargets(db, law, a), BandTargets(db, law, b), held, law.slew);
  }

  /** Any two-way chunking gives the one-shot output, filter states and gain. */
  lemma GuardSplit(db: Scale, c: GuardSettings, s: GuardCarry, a: seq<real>, b: seq<real>)
    requires ValidGuard(c, s)
    ensures var (out1, s1) := GuardProcess(db, c, s, a);
            var (out2, s2) := GuardProcess(db, c, s1, b);
            GuardProcess(db, c, s, a + b) == (out1 + out2, s2)
  {
    if |a| == 0 {
      assert a + b == b;
      assert [] + GuardProcess(db, c, s, b).0 == GuardProcess(db, c, s, b).0;
    } else if |b| == 0 {
      assert a + b == a;
      assert GuardProcess(db, c, s, a).0 + b == GuardProcess(db, c, s, a).0;
    } else {
      GuardSplitNonEmpty(db, c, s, a, b);
    }
  }

  lemma GuardSplitNonEmpty(db: Scale, c: GuardSettings, s: GuardCarry, a: seq<real>, b: seq<real>)
    requires ValidGuard(c, s) && |a| > 0 && |b| > 0
    ensures var (out1, s1) := GuardProcess(db, c, s, a);
            var (out2, s2) := GuardProcess(db, c, s1, b);
            GuardProcess(db, c, s, a + b) == (out1 + out2, s2)
  {
    SosFiltSplit(c.lp, s.zl, a, b);
    SosFiltSplit(c.hp, s.zh, a, b);
    var (low1, zl1) := SosFilt(c.lp, s.zl, a);
    var (high1, zh1) := SosFilt(c.hp, s.zh, a);
    var (low2, zl2) := SosFilt(c.lp, zl1, b);
    var (high2, zh2) := SosFilt(c.hp, zh1, b);
    var low, high := low1 + low2, high1 + high2;
    if c.enabled {
      var g1 := BandGains(db, c.law, low1, s.gainDb);
      var g2 := BandGains(db, c.law, low2, g1[|g1| - 1]);
      BandGainsSplit(db, c.law, low1, low2, s.gainDb);
      MixSplit(db, low, g1 + g2, high, |low1|);
      assert low[..|low1|] == low1 && low[|low1|..] == low2 && high[..|low1|] == high1 && high[|low1|..] == high2;
      assert (g1 + g2)[..|low1|] == g1 && (g1 + g2)[|low1|..] == g2;
    } else {
      assert Sum(low, high) == Sum(low1, high1) + Sum(low2, high2);
    }
  }

  // ---- What the law does to a sample

  lemma KeptExcess(over: real, ratio: real)
    requires ratio >= 1.0
    ensures over + -over * (1.0 - 1.0 / ratio) == over / ratio
  {
    var keep := 1.0 / ratio;
    assert keep * ratio == 1.0;
    assert -over * (1.0 - keep) == -over + over * keep;
    assert over * keep == over / ratio by {
      assert over * keep * ratio == over * (keep * ratio);
    }
  }

  /** Up to the threshold the band is left alone; of what is above it 1/ratio is kept, or as much more as the floor
      allows to cut. Levels are decibels below full scale. */
  lemma CompressionLaw(db: Scale, law: BandLaw, x: real)
    requires ValidLaw(law)
    ensures var level, cut := db.Level(Max(Abs(x) / 32768.0, EPS)), BandTarget(db, law, x);
            && (level <= law.thresholdDb ==> cut == 0.0)
            && (level > law.thresholdDb ==>
                  level + cut == Max(law.thresholdDb + (level - law.thresholdDb) / law.ratio, level + law.floorDb))
  {
    var level := db.Level(Max(Abs(x) / 32768.0, EPS));
    var over := Max(level - law.thresholdDb, 0.0);
    KeptExcess(over, law.ratio);
    if level <= law.thresholdDb {
      assert -over * (1.0 - 1.0 / law.ratio) == 0.0;
    }
  }

  /** The release of the band's targets: down at once, up one slew a sample at most, from the carried gain. */
  lemma BandGainStep(db: Scale, law: BandLaw, low: seq<real>, held: real, i: nat)
    requires law.ratio >= 1.0 && i < |low|
    ensures var g := BandGains(db, law, low, held);
            g[i] == Min(BandTarget(db, law, low[i]), (if i == 0 then held else g[i - 1]) + law.slew)
  {
    assert BandTargets(db, law, low)[i] == BandTarget(db, law, low[i]);
  }

  /** Every sample is its low part under the gain plus its high part as it was. */
  ghost predicate Mixed(db: Scale, low: seq<real>, g: seq<real>, high: seq<real>, out: seq<real>) {
    && |low| == |g| == |high| == |out|
    && forall i :: 0 <= i < |out| ==> out[i] == low[i] * db.Gain(g[i]) + high[i]
  }

  lemma MixIsMixed(db: Scale, low: seq<real>, g: seq<real>, high: seq<real>)
    requires IsDecibel(db) && |low| == |g| == |high|
    ensures Mixed(db, low, g, high, Mix(db, low, g, high))
  {
    forall i | 0 <= i < |low| ensures Mix(db, low, g, high)[i] == low[i] * db.Gain(g[i]) + high[i] {
      AmplifyIsProduct(db, low[i], g[i]);
    }
  }

  /** Only what is below the crossover is put under the gain, and the last gain is carried on. */
  lemma LowBandIsCut(db: Scale, c: GuardSettings, s: GuardCarry, x: seq<real>)
    requires IsDecibel(db) && ValidGuard(c, s) && c.enabled && |x| > 0
    ensures var low, high := SosFilt(c.lp, s.zl, x).0, SosFilt(c.hp, s.zh, x).0;
            var g := BandGains(db, c.law, low, s.gainDb);
            && Mixed(db, low, g, high, GuardProcess(db, c, s, x).0)
            && GuardProcess(db, c, s, x).1.gainDb == g[|x| - 1]
  {
    var low, high := SosFilt(c.lp, s.zl, x).0, SosFilt(c.hp, s.zh, x).0;
    MixIsMixed(db, low, BandGains(db, c.law, low, s.gainDb), high);
  }

  lemma UncutMix(db: Scale, low: seq<real>, g: seq<real>, high: seq<real>)
    requires IsDecibel(db) && |low| == |g| == |high| && forall i :: 0 <= i < |g| ==> g[i] == 0.0
    ensures Mix(db, low, g, high) == Sum(low, high)
  {
    forall i | 0 <= i < |low| ensures Mix(db, low, g, high)[i] == low[i] + high[i] {
      AmplifyIsProduct(db, low[i], 0.0);
    }
  }

  /** While the low band keeps under its threshold and no cut is being given back, the guard does what it does when
      bypassed. */
  lemma QuietIsBypassed(db: Scale, c: GuardSettings, s: GuardCarry, x: seq<real>)
    requires IsDecibel(db) && ValidGuard(c, s) && s.gainDb == 0.0
    requires Quiet(db, c.law, SosFilt(c.lp, s.zl, x).0)
    ensures GuardProcess(db, c, s, x) == GuardProcess(db, c.(enabled := false), s, x)
  {
    var low, high := SosFilt(c.lp, s.zl, x).0, SosFilt(c.hp, s.zh, x).0;
    var g := BandGains(db, c.law, low, 0.0);
    forall i | 0 <= i < |g| ensures g[i] == 0.0 {
      QuietGain(db, c.law, low, i);
    }
    UncutMix(db, low, g, high);
  }

  /** No sample of the band is above its threshold. */
  ghost predicate Quiet(db: Scale, law: BandLaw, low: seq<real>) {
    forall i :: 0 <= i < |low| ==> db.Level(Max(Abs(low[i]) / 32768.0, EPS)) <= law.thresholdDb
  }

  lemma QuietGain(db: Scale, law: BandLaw, low: seq<real>, n: nat)
    requires ValidLaw(law) && n < |low| && Quiet(db, law, low)
    ensures BandGains(db, law, low, 0.0)[n] == 0.0
  {
    var t := BandTargets(db, law, low);
    forall i | 0 <= i < |t| ensures t[i] == 0.0 {
      CompressionLaw(db, law, low[i]);
      assert t[i] == BandTarget(db, law, low[i]);
    }
    ReleaseClimbs(t, 0.0, law.slew, n);
    RampGrows(law.slew, n);
  }

  /** The guard's release time is how long ten decibels take; under a tenth of a millisecond counts as that. */
  lemma SlewIsRelease(sampleRate: nat, releaseMs: real)
    requires sampleRate > 0
    ensures releaseMs >= 0.1 ==> Slew(sampleRate, releaseMs) * (sampleRate as real * (releaseMs / 1000.0)) == 10.0
    ensures releaseMs < 0.1 ==> Slew(sampleRate, releaseMs) == Slew(sampleRate, 0.1)
  {
    L.TenPer(Max(0.1, releaseMs) / 1000.0, sampleRate as real);
  }

  // ---- The objects

  function Slew(sampleRate: nat, releaseMs: real): real
    requires sampleRate > 0
  {
    L.RELEASE_REFERENCE_DB / (Max(0.1, releaseMs) / 1000.0) / (sampleRate as real)
  }

  class BandGain {
    const db: Scale
    const ratio: real
    const thresholdDb: real
    const slew: real
    var floorDb: real
    var gainDb: real
    var maxReductionDb: real

    function Law(): BandLaw
      reads this
    {
      BandLaw(ratio, thresholdDb, floorDb, slew)
    }

    ghost predicate Valid()
      reads this
    {
      ValidLaw(Law())
    }

    constructor (db: Scale, ratio: real, thresholdDb: real, releaseMs: real, floorDb: real, sampleRate: nat)
      requires sampleRate > 0
      ensures Valid() && this.db == db && gainDb == 0.0
      ensures Law() == BandLaw(Max(1.0, ratio), thresholdDb, Min(0.0, floorDb), Slew(sampleRate, releaseMs))
    {
      this.db := db;
      this.ratio := Max(1.0, ratio);
      this.thresholdDb := thresholdDb;
      this.floorDb := Min(0.0, floorDb);
      this.slew := Slew(sampleRate, releaseMs);
      this.gainDb, this.maxReductionDb := 0.0, 0.0;
    }

    /** Per-sample gains of this band, by the sheared running minimum. */
    method GainsDb(x: seq<real>) returns (g: seq<real>)
      requires Valid() && |x| > 0
      modifies this
      ensures Valid() && Law() == old(Law())
      ensures g == BandGains(db, Law(), x, old(gainDb)) && gainDb == g[|g| - 1]
      ensures DeepestCut(maxReductionDb, old(maxReductionDb), g)
    {
      var target := BandTargets(db, Law(), x);
      g := ShearedRunningMin(target, gainDb, slew);
      ghost var unclamped := g;
      g := MapAll(v => Min(v, 0.0), g);
      forall n | 0 <= n < |g| ensures g[n] == unclamped[n] {
        BandGainsAtMostUnity(db, Law(), x, gainDb, n);
      }
      assert g == unclamped;
      gainDb := g[|g| - 1];
      maxReductionDb := Max(maxReductionDb, MaxOf(MapAll(v => -v, g)));
    }
  }

  class Guard {
    const db: Scale
    const lp: seq<Biquad>
    const hp: seq<Biquad>
    const bass: BandGain
    var enabled: bool
    var bassGuardDb: real
    var zl: seq<Delay>
    var zh: seq<Delay>

    ghost predicate Valid()
      reads this, bass
    {
      bass.db == db && ValidGuard(Config(), Held())
    }

    function Config(): GuardSettings
      reads this, bass
    {
      GuardSettings(lp, hp, bass.Law(), enabled)
    }

    function Held(): GuardCarry
      reads this, bass
    {
      GuardCarry(zl, zh, bass.gainDb)
    }

    /** A fresh guard on a crossover whose two halves are given. */
    constructor (db: Scale, lp: seq<Biquad>, hp: seq<Biquad>, bassGuardDb: real, sampleRate: nat, enabled: bool)
      requires sampleRate > 0
      ensures Valid() && fresh(bass) && this.db == db
      ensures Config() == GuardSettings(lp, hp, BandLaw(20.0, -50.0, Min(0.0, bassGuardDb), Slew(sampleRate, 200.0)),
                                        enabled)
      ensures Held() == GuardCarry(Silent(|lp|), Silent(|hp|), 0.0)
    {
      this.db, this.lp, this.hp, this.enabled := db, lp, hp, enabled;
      this.bassGuardDb := Min(0.0, bassGuardDb);
      this.zl, this.zh := Silent(|lp|), Silent(|hp|);
      this.bass := new BandGain(db, 20.0, -50.0, 200.0, Min(0.0, bassGuardDb), sampleRate);
    }

    /** Depth and bypass change mid-stream; filters and gain carry on. */
    method SetParams(depth: Option<real>, enable: Option<bool>)
      requires Valid()
      modifies this`enabled, this`bassGuardDb, bass`floorDb
      ensures Valid() && Held() == old(Held())
      ensures Config() == old(Config()).(
                law := old(bass.Law()).(floorDb := if depth.Some? then Min(0.0, depth.value) else old(bass.floorDb)),
                enabled := if enable.Some? then enable.value else old(enabled))
    {
      if depth.Some? {
        bassGuardDb := Min(0.0, depth.value);
        bass.floorDb := bassGuardDb;
      }
      if enable.Some? {
        enabled := enable.value;
      }
    }

    /** Compress one chunk. */
    method ProcessChunk(x: seq<real>) returns (out: seq<real>)
      requires Valid()
      modifies this`zl, this`zh, bass
      ensures Valid() && Config() == old(Config())
      ensures (out, Held()) == GuardProcess(db, Config(), old(Held()), x)
    {
      if |x| == 0 {
        out := x;
        return;
      }
      var (low, nextLow) := SosFilt(lp, zl, x);
      var (high, nextHigh) := SosFilt(hp, zh, x);
      zl, zh := nextLow, nextHigh;
      if !enabled {
        out := Sum(low, high);
        return;
      }
      var g := bass.GainsDb(low);
      out := Mix(db, low, g, high);
    }
  }
}
