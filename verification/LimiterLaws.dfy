/** What holds over whole runs of the limiter: chunking never matters, and the threshold is a ceiling. */
module LimiterLaws {
  import opened Chunks
  import opened Options
  import opened Numerics
  import opened SlewRelease
  import opened PeakLimiter

  // ---- Chunk invariance

  /** A window that fits in the first buffer does not see what follows it. */
  lemma PeakIgnoresFuture(a: seq<real>, b: seq<real>, window: nat, n: nat)
    requires window >= 1 && n + window <= |a|
    ensures PeakAhead(a + b, window, n) == PeakAhead(a, window, n)
  {
    assert AbsAll(a + b)[n..n + window] == AbsAll(a)[n..n + window];
  }

  lemma PeakIgnoresPast(buf: seq<real>, k: nat, window: nat, n: nat)
    requires window >= 1 && k + n < |buf|
    ensures PeakAhead(buf, window, k + n) == PeakAhead(buf[k..], window, n)
  {
    var hi := if k + n + window <= |buf| then k + n + window else |buf|;
    assert AbsAll(buf)[k + n..hi] == AbsAll(buf[k..])[n..hi - k];
  }

  /** A gain whose window is complete is final: later chunks cannot change it. */
  lemma GainIsFinal(db: Scale, c: Settings, a: seq<real>, b: seq<real>, held: real, n: nat)
    requires c.lookahead >= 1 && n + c.lookahead <= |a|
    ensures Gains(db, c, a + b, held)[n] == Gains(db, c, a, held)[n]
  {
    if c.enabled {
      var ta, tab := Targets(db, c, a), Targets(db, c, a + b);
      forall i | 0 <= i <= n ensures ta[i] == tab[i] {
        PeakIgnoresFuture(a, b, c.lookahead, i);
      }
      ReleasePrefix(tab, ta, held, c.slew, n);
    }
  }

  lemma TargetsIgnorePast(db: Scale, c: Settings, buf: seq<real>, k: nat)
    requires c.lookahead >= 1 && k <= |buf|
    ensures Targets(db, c, buf)[k..] == Targets(db, c, buf[k..])
  {
    var peaks := Peaks(buf, c.lookahead);
    forall i | 0 <= i < |buf| - k ensures peaks[k..][i] == Peaks(buf[k..], c.lookahead)[i] {
      PeakIgnoresPast(buf, k, c.lookahead, i);
    }
    assert peaks[k..] == Peaks(buf[k..], c.lookahead);
    MapAllSuffix(peak => TargetDb(db, c, peak), peaks, k);
  }

  /** Restarting at k from the gain reached just before k continues the same gain curve. */
  lemma GainResumes(db: Scale, c: Settings, buf: seq<real>, held: real, k: nat, n: nat)
    requires c.lookahead >= 1 && 0 < k && k + n < |buf|
    ensures Gains(db, c, buf, held)[k + n] == Gains(db, c, buf[k..], Gains(db, c, buf, held)[k - 1])[n]
  {
    if c.enabled {
      var t, g := Targets(db, c, buf), Gains(db, c, buf, held);
      assert g[k + n] == ReleaseAt(t, held, c.slew, k + n) && g[k - 1] == ReleaseAt(t, held, c.slew, k - 1);
      ReleaseSplit(t, held, c.slew, k, n);
      TargetsIgnorePast(db, c, buf, k);
    }
  }

  lemma CarryStaysValid(db: Scale, c: Settings, s: Carry, x: seq<real>)
    requires ValidSettings(c) && ValidCarry(c, s)
    ensures ValidCarry(c, Process(db, c, s, x).1)
  {
  }

  /** Feeding a then b emits, and leaves behind, exactly what feeding a + b at once does. */
  lemma ProcessSplit(db: Scale, c: Settings, s: Carry, a: seq<real>, b: seq<real>)
    requires ValidSettings(c) && ValidCarry(c, s)
    ensures var (out1, s1) := Process(db, c, s, a);
            var (out2, s2) := Process(db, c, s1, b);
            Process(db, c, s, a + b) == (out1 + out2, s2)
  {
    if |a| == 0 {
      assert a + b == b;
      var (out2, _) := Process(db, c, s, b);
      assert [] + out2 == out2;
    } else if |b| == 0 {
      assert a + b == a;
      var (out1, _) := Process(db, c, s, a);
      assert out1 + b == out1;
    } else {
      SplitNonEmpty(db, c, s, a, b);
    }
  }

  function LastReady(g: seq<real>, m: nat, held: real): real
    requires m <= |g|
  {
    if m > 0 then g[m - 1] else held
  }

  lemma ProcessIs(db: Scale, c: Settings, s: Carry, x: seq<real>, buf: seq<real>, g: seq<real>)
    requires c.lookahead >= 1 && |x| > 0 && buf == s.tail + x && g == Gains(db, c, buf, s.gainDb)
    ensures var m := Ready(c, |buf|);
            Process(db, c, s, x) == (Apply(db, buf[..m], g[..m]), Carry(buf[m..], LastReady(g, m, s.gainDb)))
  {
  }

  lemma Regroup(tail: seq<real>, a: seq<real>, b: seq<real>, m: nat)
    requires m <= |tail + a|
    ensures tail + (a + b) == (tail + a) + b && (tail + (a + b))[m..] == (tail + a)[m..] + b
  {
  }

  lemma SplitNonEmpty(db: Scale, c: Settings, s: Carry, a: seq<real>, b: seq<real>)
    requires ValidSettings(c) && ValidCarry(c, s) && |a| > 0 && |b| > 0
    ensures var (out1, s1) := Process(db, c, s, a);
            var (out2, s2) := Process(db, c, s1, b);
            Process(db, c, s, a + b) == (out1 + out2, s2)
  {
    var first, whole := s.tail + a, s.tail + (a + b);
    var m1 := Ready(c, |first|);
    var g, g1 := Gains(db, c, whole, s.gainDb), Gains(db, c, first, s.gainDb);
    var s1 := Carry(first[m1..], LastReady(g1, m1, s.gainDb));
    var second := s1.tail + b;
    var m2 := Ready(c, |second|);
    var g2 := Gains(db, c, second, s1.gainDb);
    ProcessIs(db, c, s, a, first, g1);
    ProcessIs(db, c, s1, b, second, g2);
    ProcessIs(db, c, s, a + b, whole, g);
    Regroup(s.tail, a, b, m1);
    GainsSplit(db, c, s.gainDb, first, b);
    SpliceOutputs(db, whole, g, first, g1, second, g2, m1, m2);
    LastReadySplit(g, g1, g2, m1, m2, s.gainDb);
  }

  lemma LastReadySplit(g: seq<real>, g1: seq<real>, g2: seq<real>, m1: nat, m2: nat, held: real)
    requires m1 <= |g| && m1 <= |g1| && g[..m1] == g1[..m1] && g[m1..] == g2 && m2 <= |g2|
    ensures LastReady(g, m1 + m2, held) == LastReady(g2, m2, LastReady(g1, m1, held))
  {
    assert m2 > 0 ==> g[m1 + m2 - 1] == g[m1..][m2 - 1];
    assert m1 > 0 ==> g[m1 - 1] == g[..m1][m1 - 1] == g1[..m1][m1 - 1];
  }

  /** Outputs and tails of the two calls fit together. */
  lemma SpliceOutputs(db: Scale, whole: seq<real>, g: seq<real>, first: seq<real>, g1: seq<real>,
                      second: seq<real>, g2: seq<real>, m1: nat, m2: nat)
    requires |whole| == |g| && |first| == |g1| && |second| == |g2| && m1 <= |first| && m2 <= |second|
    requires |first| <= |whole| && whole[..|first|] == first && m1 + |second| == |whole| && whole[m1..] == second
    requires g[..m1] == g1[..m1] && g[m1..] == g2
    ensures Apply(db, whole[..m1 + m2], g[..m1 + m2])
         == Apply(db, first[..m1], g1[..m1]) + Apply(db, second[..m2], g2[..m2])
    ensures whole[m1 + m2..] == second[m2..]
  {
    var x, y := whole[..m1 + m2], g[..m1 + m2];
    assert x[..m1] == first[..m1] by {
      assert x[..m1] == whole[..|first|][..m1];
    }
    assert y[..m1] == g1[..m1];
    assert x[m1..] == second[..m2] && y[m1..] == g2[..m2];
    ApplySplit(db, x, y, m1);
  }

  /** The gains of a whole buffer are those of its first part as far as they are final, then those
      of the rest from the last final one. */
  lemma GainsSplit(db: Scale, c: Settings, held: real, first: seq<real>, b: seq<real>)
    requires ValidSettings(c)
    ensures var m := Ready(c, |first|);
            var g, g1 := Gains(db, c, first + b, held), Gains(db, c, first, held);
            && g[..m] == g1[..m]
            && g[m..] == Gains(db, c, (first + b)[m..], LastReady(g1, m, held))
  {
    var m := Ready(c, |first|);
    var whole := first + b;
    var g, g1 := Gains(db, c, whole, held), Gains(db, c, first, held);
    forall n | 0 <= n < m ensures g[n] == g1[n] {
      GainIsFinal(db, c, first, b, held, n);
    }
    if m > 0 {
      var rest := whole[m..];
      var g2 := Gains(db, c, rest, g1[m - 1]);
      forall n | 0 <= n < |rest| ensures g[m + n] == g2[n] {
        GainResumes(db, c, whole, held, m, n);
      }
    } else {
      assert whole[0..] == whole;
    }
  }

  lemma ApplySplit(db: Scale, x: seq<real>, g: seq<real>, m: nat)
    requires m <= |x| == |g|
    ensures Apply(db, x, g) == Apply(db, x[..m], g[..m]) + Apply(db, x[m..], g[m..])
  {
  }

  function FeedAll(db: Scale, c: Settings, s: Carry, chunks: seq<seq<real>>): (r: (seq<real>, Carry))
    requires c.lookahead >= 1
    decreases |chunks|
  {
    if |chunks| == 0 then ([], s)
    else
      var (out, s1) := Process(db, c, s, chunks[0]);
      var (rest, s2) := FeedAll(db, c, s1, chunks[1..]);
      (out + rest, s2)
  }

  /** Any chunking of a stream gives the one-shot output and the one-shot state. */
  lemma {:induction false} ChunkingIsInvisible(db: Scale, c: Settings, s: Carry, chunks: seq<seq<real>>)
    requires ValidSettings(c) && ValidCarry(c, s)
    ensures FeedAll(db, c, s, chunks) == Process(db, c, s, Joined(chunks))
    decreases |chunks|
  {
    if |chunks| > 0 {
      var (out, s1) := Process(db, c, s, chunks[0]);
      CarryStaysValid(db, c, s, chunks[0]);
      ChunkingIsInvisible(db, c, s1, chunks[1..]);
      ProcessSplit(db, c, s, chunks[0], Joined(chunks[1..]));
    }
  }

  /** A call returns as many samples as it was given exactly while the look-ahead is primed,
      so a limiter used again after `flush` is no longer 1:1. */
  lemma OneToOne(db: Scale, c: Settings, s: Carry, x: seq<real>)
    requires ValidSettings(c) && ValidCarry(c, s) && |x| > 0
    ensures |Process(db, c, s, x).0| == |x| <==> |s.tail| == c.lookahead - 1
    ensures |s.tail| == c.lookahead - 1 ==> |Process(db, c, s, x).1.tail| == c.lookahead - 1
  {
  }

  // ---- The ceiling

  predicate Bounded(x: seq<real>, bound: real) {
    forall i :: 0 <= i < |x| ==> Abs(x[i]) <= bound
  }

  /** Twelve decades over the threshold: how far the gain law can pull a peak down. */
  function Reach(c: Settings): real {
    c.thresh * 1000000000000.0
  }

  /** The largest level a limiting call may let through. */
  function Ceiling(c: Settings): real {
    Max(c.thresh, EPS)
  }

  /** A sample no larger than the peak, under no more gain than keeps the peak in bounds. */
  lemma ScaledWithin(x: real, peak: real, gain: real, top: real, bound: real)
    requires 0.0 <= gain <= top && Abs(x) <= peak && peak * top <= bound
    ensures Abs(x * gain) <= bound
  {
    MulLe(Abs(x), gain, top);
    MulLe(top, Abs(x), peak);
    assert Abs(x * gain) == Abs(x) * gain by {
      if x < 0.0 {
        assert (-x) * gain == -(x * gain);
      }
    }
  }

  lemma RatioAboveSmallest(thresh: real, peak: real)
    requires 0.0 < peak
    ensures thresh / peak >= SMALLEST_GAIN <==> peak <= thresh * 1000000000000.0
  {
    var q := thresh / peak;
    assert q * peak == thresh;
    if q >= SMALLEST_GAIN {
      MulLe(peak, SMALLEST_GAIN, q);
    } else {
      var short := SMALLEST_GAIN - q;
      assert short * peak > 0.0;
      assert short * peak == SMALLEST_GAIN * peak - q * peak;
    }
  }

  /** The linear gain a window's target stands for. */
  lemma TargetGain(db: Scale, c: Settings, peak: real)
    requires IsDecibel(db) && ValidSettings(c)
    ensures peak <= EPS ==> db.Gain(TargetDb(db, c, peak)) == 1.0
    ensures EPS < peak <= Reach(c) ==> db.Gain(TargetDb(db, c, peak)) <= c.thresh / peak
    ensures peak > EPS && peak > Reach(c) ==> TargetDb(db, c, peak) == db.Level(SMALLEST_GAIN)
  {
    if peak > EPS {
      assert Max(peak, EPS) == peak;
      RatioAboveSmallest(c.thresh, peak);
      var clamped := Max(Min(c.thresh / peak, 1.0), SMALLEST_GAIN);
      assert db.Gain(db.Level(clamped)) == clamped;
    } else {
      assert db.Gain(db.Level(1.0)) == 1.0;
    }
  }

  lemma PeakUnderTarget(db: Scale, c: Settings, peak: real)
    requires IsDecibel(db) && ValidSettings(c) && 0.0 <= peak <= Reach(c)
    ensures peak * db.Gain(TargetDb(db, c, peak)) <= Ceiling(c)
  {
    TargetGain(db, c, peak);
    if peak > EPS {
      MulLe(peak, db.Gain(TargetDb(db, c, peak)), c.thresh / peak);
      assert peak * (c.thresh / peak) == c.thresh;
    }
  }

  /** A gain at or under the target of a window keeps every sample of that window under the ceiling. */
  lemma TargetHoldsCeiling(db: Scale, c: Settings, peak: real, g: real, x: real)
    requires IsDecibel(db) && ValidSettings(c)
    requires g <= TargetDb(db, c, peak)
    requires Abs(x) <= peak <= Reach(c)
    ensures Abs(db.Amplify(x, g)) <= Ceiling(c)
  {
    AmplifyIsProduct(db, x, g);
    GainMonotone(db, g, TargetDb(db, c, peak));
    PeakUnderTarget(db, c, peak);
    ScaledWithin(x, peak, db.Gain(g), db.Gain(TargetDb(db, c, peak)), Ceiling(c));
  }

  lemma PeakBounded(buf: seq<real>, window: nat, n: nat, bound: real)
    requires window >= 1 && n < |buf| && Bounded(buf, bound)
    ensures PeakAhead(buf, window, n) <= bound
  {
  }

  lemma EmittedSample(db: Scale, c: Settings, s: Carry, x: seq<real>, i: nat)
    requires ValidSettings(c) && |x| > 0
    requires i < |Process(db, c, s, x).0|
    ensures i < |s.tail + x|
    ensures Process(db, c, s, x).0[i] == db.Amplify((s.tail + x)[i], Gains(db, c, s.tail + x, s.gainDb)[i])
  {
  }

  /** A sample in the window of n, under the gain of n, is within the ceiling. */
  lemma WindowCeiling(db: Scale, c: Settings, buf: seq<real>, held: real, n: nat, i: nat)
    requires IsDecibel(db) && ValidSettings(c) && c.enabled
    requires Bounded(buf, Reach(c))
    requires n <= i < n + c.lookahead && i < |buf|
    ensures Abs(db.Amplify(buf[i], Gains(db, c, buf, held)[n])) <= Ceiling(c)
  {
    var peak, g := PeakAhead(buf, c.lookahead, n), Gains(db, c, buf, held)[n];
    assert g <= TargetDb(db, c, peak) by {
      GainsAtMostUnity(db, c, buf, held, n);
    }
    PeakBounded(buf, c.lookahead, n, Reach(c));
    TargetHoldsCeiling(db, c, peak, g, buf[i]);
  }

  /** Every sample a limiting call emits is within the ceiling, from any carried state. */
  lemma ProcessCeiling(db: Scale, c: Settings, s: Carry, x: seq<real>)
    requires IsDecibel(db) && ValidSettings(c) && c.enabled && |x| > 0
    requires Bounded(s.tail + x, Reach(c))
    ensures Bounded(Process(db, c, s, x).0, Ceiling(c))
  {
    var out := Process(db, c, s, x).0;
    forall i | 0 <= i < |out| ensures Abs(out[i]) <= Ceiling(c) {
      EmittedSample(db, c, s, x, i);
      WindowCeiling(db, c, s.tail + x, s.gainDb, i, i);
    }
  }

  /** Every held sample is within `bound` under the carried gain. */
  ghost predicate TailArmed(db: Scale, s: Carry, bound: real) {
    forall i :: 0 <= i < |s.tail| ==> Abs(db.Amplify(s.tail[i], s.gainDb)) <= bound
  }

  lemma HeldSample(db: Scale, c: Settings, s: Carry, x: seq<real>, i: nat)
    requires ValidSettings(c) && |x| > 0 && |s.tail| == c.lookahead - 1
    ensures var s1, m := Process(db, c, s, x).1, |x|;
            && |s1.tail| == |s.tail|
            && s1.gainDb == Gains(db, c, s.tail + x, s.gainDb)[m - 1]
            && (i < |s1.tail| ==> s1.tail[i] == (s.tail + x)[m + i])
  {
  }

  /** After a limiting call the held tail is within the ceiling under the carried gain:
      the window of the last emitted sample is that tail. */
  lemma ProcessArmsTail(db: Scale, c: Settings, s: Carry, x: seq<real>)
    requires IsDecibel(db) && ValidSettings(c) && c.enabled && |x| > 0
    requires |s.tail| == c.lookahead - 1
    requires Bounded(s.tail + x, Reach(c))
    ensures TailArmed(db, Process(db, c, s, x).1, Ceiling(c))
  {
    var s1 := Process(db, c, s, x).1;
    forall i | 0 <= i < |s1.tail| ensures Abs(db.Amplify(s1.tail[i], s1.gainDb)) <= Ceiling(c) {
      HeldSample(db, c, s, x, i);
      WindowCeiling(db, c, s.tail + x, s.gainDb, |x| - 1, |x| + i);
    }
  }

  // ---- Runs

  /** One operation of a run: the settings it ran under and what it emitted. */
  datatype Entry = Entry(c: Settings, out: seq<real>)

  function RunOps(db: Scale, m: Machine, ops: seq<Op>): (r: (Machine, seq<Entry>))
    requires m.c.sampleRate > 0 && m.c.lookahead >= 1
    ensures r.0.c.sampleRate == m.c.sampleRate && r.0.c.lookahead == m.c.lookahead && |r.1| == |ops|
    decreases |ops|
  {
    if |ops| == 0 then (m, [])
    else
      var (m1, out) := Step(db, m, ops[0]);
      var (m2, log) := RunOps(db, m1, ops[1..]);
      (m2, [Entry(m.c, out)] + log)
  }

  /** Every sample fed is at most `peak`, which no threshold in force is more than 240 dB below. */
  ghost predicate WithinReach(db: Scale, c: Settings, ops: seq<Op>, peak: real)
    requires c.sampleRate > 0
    decreases |ops|
  {
    && peak <= Reach(c)
    && (|ops| > 0 ==>
          && (ops[0].Feed? ==> Bounded(ops[0].x, peak))
          && WithinReach(db, if ops[0].Retune? then Retuned(db, c, ops[0]) else c, ops[1..], peak))
  }

  /** A machine in mid-stream: the look-ahead primed, nothing clipped while limiting. */
  ghost predicate Streaming(m: Machine, peak: real) {
    ValidSettings(m.c) && |m.s.tail| == m.c.lookahead - 1 && Bounded(m.s.tail, peak)
  }

  lemma RetunedValid(db: Scale, c: Settings, op: Op)
    requires IsDecibel(db) && ValidSettings(c) && op.Retune?
    ensures ValidSettings(Retuned(db, c, op))
  {
    if op.thresholdDb.Some? {
      ThresholdRange(db, op.thresholdDb.value);
    }
    if op.releaseMs.Some? {
      SlewPositive(c.sampleRate, op.releaseMs.value);
    }
  }

  lemma StepCeiling(db: Scale, m: Machine, op: Op, peak: real)
    requires IsDecibel(db) && Streaming(m, peak) && peak <= Reach(m.c)
    requires op.Feed? ==> Bounded(op.x, peak)
    ensures var (m1, out) := Step(db, m, op);
            && Streaming(m1, peak)
            && m1.clipped == m.clipped
            && (m.c.enabled ==> Bounded(out, Ceiling(m.c)))
  {
    match op
    case Retune(_, _, _) =>
      RetunedValid(db, m.c, op);
    case Feed(x) =>
      if |x| > 0 {
        var buf := m.s.tail + x;
        var (out, s) := Process(db, m.c, m.s, x);
        assert Bounded(buf, peak);
        forall i | 0 <= i < |s.tail| ensures Abs(s.tail[i]) <= peak {
          HeldSample(db, m.c, m.s, x, i);
        }
        HeldSample(db, m.c, m.s, x, 0);
        if m.c.enabled {
          ProcessCeiling(db, m.c, m.s, x);
          OverZero(out, CEILING);
        }
      }
  }

  /** Over every run of chunks and live setting changes, whatever is emitted while limiting is
      within the threshold in force, and the backstop clip never engages. */
  lemma {:induction false} RunCeiling(db: Scale, m: Machine, ops: seq<Op>, peak: real)
    requires IsDecibel(db) && Streaming(m, peak) && WithinReach(db, m.c, ops, peak)
    ensures var (m1, log) := RunOps(db, m, ops);
            && Streaming(m1, peak) && m1.clipped == m.clipped
            && (forall i :: 0 <= i < |log| && log[i].c.enabled ==> Bounded(log[i].out, Ceiling(log[i].c)))
    decreases |ops|
  {
    if |ops| > 0 {
      StepCeiling(db, m, ops[0], peak);
      RunCeiling(db, Step(db, m, ops[0]).0, ops[1..], peak);
    }
  }

  lemma {:induction false} RetunesKeepCarry(db: Scale, m: Machine, ops: seq<Op>)
    requires m.c.sampleRate > 0 && m.c.lookahead >= 1
    requires forall i :: 0 <= i < |ops| ==> ops[i].Retune?
    ensures RunOps(db, m, ops).0.s == m.s && RunOps(db, m, ops).0.clipped == m.clipped
    decreases |ops|
  {
    if |ops| > 0 {
      RetunesKeepCarry(db, Step(db, m, ops[0]).0, ops[1..]);
    }
  }

  lemma {:induction false} OverSome(x: seq<real>, bound: real, i: nat)
    requires i < |x| && Abs(x[i]) > bound
    ensures Over(x, bound) > 0
  {
    if i < |x| - 1 {
      OverSome(x[..|x| - 1], bound, i);
    }
  }

  /** Nothing is counted as clipped exactly when nothing is over the bound. */
  lemma OverExact(x: seq<real>, bound: real)
    ensures Over(x, bound) == 0 <==> Bounded(x, bound)
  {
    if Bounded(x, bound) {
      OverZero(x, bound);
    } else {
      var i :| 0 <= i < |x| && Abs(x[i]) > bound;
      OverSome(x, bound, i);
    }
  }

  /** Whatever came before, a flush is within a bound exactly when the held samples are, under the carried gain. */
  lemma FlushExact(db: Scale, m: Machine, bound: real)
    ensures Bounded(End(db, m).1, bound) <==> TailArmed(db, m.s, bound)
  {
    var tail := End(db, m).1;
    assert |tail| == |m.s.tail| && forall i :: 0 <= i < |tail| ==> tail[i] == db.Amplify(m.s.tail[i], m.s.gainDb);
  }

  lemma ArmedFlush(db: Scale, m: Machine, bound: real)
    requires TailArmed(db, m.s, bound)
    ensures Bounded(End(db, m).1, bound)
    ensures m.c.enabled && bound <= CEILING ==> End(db, m).0.clipped == m.clipped
  {
    var tail := End(db, m).1;
    forall i | 0 <= i < |tail| ensures Abs(tail[i]) <= bound {
      assert tail[i] == db.Amplify(m.s.tail[i], m.s.gainDb);
    }
    if bound <= CEILING {
      OverZero(tail, CEILING);
    }
  }

  /** The flushed tail is within the threshold of the last limited chunk, whatever settings change
      after it, and flushing does not clip either. */
  lemma FlushCeiling(db: Scale, m: Machine, x: seq<real>, retunes: seq<Op>, peak: real)
    requires IsDecibel(db) && Streaming(m, peak) && peak <= Reach(m.c) && m.c.enabled
    requires Bounded(x, peak) && |x| > 0
    requires forall i :: 0 <= i < |retunes| ==> retunes[i].Retune?
    ensures var (last, _) := RunOps(db, Step(db, m, Feed(x)).0, retunes);
            var (final, tail) := End(db, last);
            Bounded(tail, Ceiling(m.c)) && (last.c.enabled ==> final.clipped == m.clipped)
  {
    var fed := Step(db, m, Feed(x)).0;
    StepCeiling(db, m, Feed(x), peak);
    assert Bounded(m.s.tail + x, Reach(m.c));
    ProcessArmsTail(db, m.c, m.s, x);
    RetunesKeepCarry(db, fed, retunes);
    ArmedFlush(db, RunOps(db, fed, retunes).0, Ceiling(m.c));
  }

  // ---- Where the ceiling ends

  lemma {:induction false} RampNonNegative(slew: real, n: nat)
    requires slew >= 0.0
    ensures Ramp(slew, n) >= 0.0
  {
    if n > 0 {
      RampNonNegative(slew, n - 1);
    }
  }

  /** The gain law has a floor, 240 dB down, once the carried gain is above it. */
  lemma GainsFloor(db: Scale, c: Settings, buf: seq<real>, held: real, n: nat)
    requires IsDecibel(db) && ValidSettings(c) && c.enabled && n < |buf|
    requires held >= db.Level(SMALLEST_GAIN)
    ensures Gains(db, c, buf, held)[n] >= db.Level(SMALLEST_GAIN)
  {
    var t := Targets(db, c, buf);
    var floor := db.Level(SMALLEST_GAIN);
    forall i | 0 <= i < |t| ensures t[i] >= floor {
      TargetAtMostUnity(db, c, PeakAhead(buf, c.lookahead, i));
    }
    ReleaseFloor(t, held, c.slew, floor, n);
    RampNonNegative(c.slew, n + 1);
  }

  lemma SmallestGainTooLoud(x: real, thresh: real)
    requires Abs(x) > thresh * 1000000000000.0
    ensures Abs(x * SMALLEST_GAIN) > thresh
  {
  }

  /** A sample out of reach is over the threshold even under the smallest gain the law gives. */
  lemma OutOfReach(db: Scale, c: Settings, buf: seq<real>, held: real, n: nat, i: nat)
    requires IsDecibel(db) && ValidSettings(c) && c.enabled && c.thresh >= EPS
    requires held >= db.Level(SMALLEST_GAIN)
    requires n <= i < n + c.lookahead && i < |buf| && Abs(buf[i]) > Reach(c)
    ensures Abs(db.Amplify(buf[i], Gains(db, c, buf, held)[n])) > c.thresh
  {
    var peak, g := PeakAhead(buf, c.lookahead, n), Gains(db, c, buf, held)[n];
    GainsFloor(db, c, buf, held, n);
    GainsAtMostUnity(db, c, buf, held, n);
    TargetGain(db, c, peak);
    assert g == db.Level(SMALLEST_GAIN);
    assert db.Gain(g) == SMALLEST_GAIN;
    AmplifyIsProduct(db, buf[i], g);
    SmallestGainTooLoud(buf[i], c.thresh);
  }

  /** What a limiter in any carried state makes of the rest of a stream, fed at once and flushed. */
  function Finished(db: Scale, c: Settings, s: Carry, x: seq<real>): seq<real>
    requires c.lookahead >= 1
  {
    var (out, s1) := Process(db, c, s, x);
    out + Flush(db, s1).0
  }

  lemma FinishedIs(db: Scale, c: Settings, s: Carry, x: seq<real>)
    requires c.lookahead >= 1 && |x| > 0
    ensures var buf := s.tail + x;
            var m, g := Ready(c, |buf|), Gains(db, c, buf, s.gainDb);
            && |Finished(db, c, s, x)| == |buf|
            && (forall i :: 0 <= i < |buf| ==>
                  Finished(db, c, s, x)[i] == db.Amplify(buf[i], if i < m then g[i] else LastReady(g, m, s.gainDb)))
  {
    ProcessIs(db, c, s, x, s.tail + x, Gains(db, c, s.tail + x, s.gainDb));
  }

  /** With the look-ahead filled, every sample comes out under a gain whose window it lies in. */
  lemma FinishedSample(db: Scale, c: Settings, s: Carry, x: seq<real>, i: nat) returns (n: nat)
    requires ValidSettings(c) && |x| > 0 && i < |s.tail + x| && |s.tail + x| >= c.lookahead
    ensures |Finished(db, c, s, x)| == |s.tail + x| && n < |s.tail + x| && n <= i < n + c.lookahead
    ensures Finished(db, c, s, x)[i] == db.Amplify((s.tail + x)[i], Gains(db, c, s.tail + x, s.gainDb)[n])
  {
    FinishedIs(db, c, s, x);
    var m := Ready(c, |s.tail + x|);
    n := if i < m then i else m - 1;
  }

  lemma FinishedWithin(db: Scale, c: Settings, s: Carry, x: seq<real>)
    requires IsDecibel(db) && ValidSettings(c) && c.enabled && c.thresh >= EPS && |x| > 0
    requires |s.tail + x| >= c.lookahead && Bounded(s.tail + x, Reach(c))
    ensures Bounded(Finished(db, c, s, x), c.thresh)
  {
    FinishedIs(db, c, s, x);
    forall i | 0 <= i < |s.tail + x| ensures Abs(Finished(db, c, s, x)[i]) <= c.thresh {
      var n := FinishedSample(db, c, s, x, i);
      WindowCeiling(db, c, s.tail + x, s.gainDb, n, i);
    }
  }

  lemma FinishedBeyond(db: Scale, c: Settings, s: Carry, x: seq<real>, i: nat)
    requires IsDecibel(db) && ValidSettings(c) && c.enabled && c.thresh >= EPS && |x| > 0
    requires s.gainDb >= db.Level(SMALLEST_GAIN)
    requires |s.tail + x| >= c.lookahead && i < |s.tail + x| && Abs((s.tail + x)[i]) > Reach(c)
    ensures !Bounded(Finished(db, c, s, x), c.thresh)
  {
    var n := FinishedSample(db, c, s, x, i);
    OutOfReach(db, c, s.tail + x, s.gainDb, n, i);
    assert Abs(Finished(db, c, s, x)[i]) > c.thresh;
  }

  lemma FinishedShort(db: Scale, c: Settings, s: Carry, x: seq<real>)
    requires c.lookahead >= 1 && |x| > 0 && |s.tail + x| < c.lookahead
    ensures Process(db, c, s, x) == ([], Carry(s.tail + x, s.gainDb))
    ensures Bounded(Finished(db, c, s, x), c.thresh) <==> TailArmed(db, Carry(s.tail + x, s.gainDb), c.thresh)
  {
    FinishedIs(db, c, s, x);
    var f := Finished(db, c, s, x);
    assert forall i :: 0 <= i < |f| ==> f[i] == db.Amplify((s.tail + x)[i], s.gainDb);
  }

  /** From any carried state the threshold is a ceiling for the rest of the stream, flush included, exactly when:
      once the look-ahead is filled, no sample is more than 240 dB above it; and if it never is, the samples held
      are under it with the gain carried in, for nothing is then measured. */
  lemma CeilingFromCarry(db: Scale, c: Settings, s: Carry, x: seq<real>)
    requires IsDecibel(db) && ValidSettings(c) && c.enabled && c.thresh >= EPS && |x| > 0
    requires s.gainDb >= db.Level(SMALLEST_GAIN)
    ensures Bounded(Finished(db, c, s, x), c.thresh)
       <==> if |s.tail + x| >= c.lookahead then Bounded(s.tail + x, Reach(c))
            else TailArmed(db, Carry(s.tail + x, s.gainDb), c.thresh)
  {
    if |s.tail + x| < c.lookahead {
      FinishedShort(db, c, s, x);
    } else if Bounded(s.tail + x, Reach(c)) {
      FinishedWithin(db, c, s, x);
    } else {
      var i :| 0 <= i < |s.tail + x| && Abs((s.tail + x)[i]) > Reach(c);
      FinishedBeyond(db, c, s, x, i);
    }
  }

  /** The carried gain never falls under the law's floor. */
  lemma CarriedGainFloor(db: Scale, c: Settings, s: Carry, x: seq<real>)
    requires IsDecibel(db) && ValidSettings(c) && s.gainDb >= db.Level(SMALLEST_GAIN)
    ensures Process(db, c, s, x).1.gainDb >= db.Level(SMALLEST_GAIN)
  {
    LevelMonotone(db, SMALLEST_GAIN, SMALLEST_GAIN);
    var buf := s.tail + x;
    var m := Ready(c, |buf|);
    if |x| > 0 && m > 0 && c.enabled {
      GainsFloor(db, c, buf, s.gainDb, m - 1);
    }
  }

  /** For a fresh stream the threshold is a ceiling exactly when no sample is more than 240 dB above it. */
  lemma CeilingExact(db: Scale, c: Settings, x: seq<real>)
    requires IsDecibel(db) && ValidSettings(c) && c.enabled && c.thresh >= EPS && |x| > 0
    ensures Bounded(Finished(db, c, Fresh(c), x), c.thresh) <==> Bounded(x, Reach(c))
  {
    var s := Fresh(c);
    LevelMonotone(db, SMALLEST_GAIN, SMALLEST_GAIN);
    CeilingFromCarry(db, c, s, x);
    BoundedAfterSilence(s.tail, x, Reach(c));
  }

  lemma BoundedAfterSilence(quiet: seq<real>, x: seq<real>, bound: real)
    requires bound >= 0.0 && forall i :: 0 <= i < |quiet| ==> quiet[i] == 0.0
    ensures Bounded(quiet + x, bound) <==> Bounded(x, bound)
  {
    assert forall i :: 0 <= i < |x| ==> (quiet + x)[|quiet| + i] == x[i];
  }

  /** A limiter used again after `flush`, in any chunks: it holds its ceiling as a fresh one does as soon as the new
      stream fills the look-ahead; a shorter one is passed on under the old gain. */
  lemma ReuseExact(db: Scale, c: Settings, gainDb: real, chunks: seq<seq<real>>)
    requires IsDecibel(db) && ValidSettings(c) && c.enabled && c.thresh >= EPS && |Joined(chunks)| > 0
    requires gainDb >= db.Level(SMALLEST_GAIN)
    ensures var (out, s) := FeedAll(db, c, Carry([], gainDb), chunks);
            Bounded(out + Flush(db, s).0, c.thresh)
            <==> if |Joined(chunks)| >= c.lookahead then Bounded(Joined(chunks), Reach(c))
                 else TailArmed(db, Carry(Joined(chunks), gainDb), c.thresh)
  {
    ChunkingIsInvisible(db, c, Carry([], gainDb), chunks);
    CeilingFromCarry(db, c, Carry([], gainDb), Joined(chunks));
    assert [] + Joined(chunks) == Joined(chunks);
  }

  /** Valid settings, and a carried gain above the law's floor. */
  ghost predicate Floored(db: Scale, m: Machine) {
    ValidSettings(m.c) && m.s.gainDb >= db.Level(SMALLEST_GAIN)
  }

  lemma {:induction false} RunFloored(db: Scale, m: Machine, ops: seq<Op>)
    requires IsDecibel(db) && Floored(db, m)
    ensures Floored(db, RunOps(db, m, ops).0)
    decreases |ops|
  {
    if |ops| > 0 {
      match ops[0] {
        case Feed(x) => CarriedGainFloor(db, m.c, m.s, x);
        case Retune(_, _, _) => RetunedValid(db, m.c, ops[0]);
      }
      RunFloored(db, Step(db, m, ops[0]).0, ops[1..]);
    }
  }

  /** One limiter used for stream after stream, each ended by a flush. */
  function Uses(db: Scale, m: Machine, streams: seq<seq<Op>>): (r: Machine)
    requires m.c.sampleRate > 0 && m.c.lookahead >= 1
    ensures r.c.sampleRate == m.c.sampleRate && r.c.lookahead == m.c.lookahead
    decreases |streams|
  {
    if |streams| == 0 then m else Uses(db, End(db, RunOps(db, m, streams[0]).0).0, streams[1..])
  }

  lemma {:induction false} UsesFloored(db: Scale, m: Machine, streams: seq<seq<Op>>)
    requires IsDecibel(db) && Floored(db, m)
    ensures Floored(db, Uses(db, m, streams))
    ensures |streams| > 0 ==> Uses(db, m, streams).s.tail == []
    decreases |streams|
  {
    if |streams| > 0 {
      RunFloored(db, m, streams[0]);
      UsesFloored(db, End(db, RunOps(db, m, streams[0]).0).0, streams[1..]);
    }
  }

  /** Whatever a limiter was used for before, chunks and retunes and flushes without number: the next stream keeps to
      the threshold in force exactly as `ReuseExact` says, of the gain the last one left. */
  lemma ReuseAfterRuns(db: Scale, c: Settings, streams: seq<seq<Op>>, chunks: seq<seq<real>>)
    requires IsDecibel(db) && ValidSettings(c) && |streams| > 0 && |Joined(chunks)| > 0
    requires Uses(db, Machine(c, Fresh(c), 0, 0), streams).c.enabled
    requires Uses(db, Machine(c, Fresh(c), 0, 0), streams).c.thresh >= EPS
    ensures var m := Uses(db, Machine(c, Fresh(c), 0, 0), streams);
            var (out, s) := FeedAll(db, m.c, m.s, chunks);
            Bounded(out + Flush(db, s).0, m.c.thresh)
            <==> if |Joined(chunks)| >= m.c.lookahead then Bounded(Joined(chunks), Reach(m.c))
                 else TailArmed(db, Carry(Joined(chunks), m.s.gainDb), m.c.thresh)
  {
    var first := Machine(c, Fresh(c), 0, 0);
    LevelMonotone(db, SMALLEST_GAIN, SMALLEST_GAIN);
    UsesFloored(db, first, streams);
    var m := Uses(db, first, streams);
    assert m.s == Carry([], m.s.gainDb);
    ReuseExact(db, m.c, m.s.gainDb, chunks);
  }

  // ---- Transparency

  lemma LevelOfOne(db: Scale)
    requires IsDecibel(db)
    ensures db.Level(1.0) == 0.0
  {
    assert Less(0.0, 1.0) && db.Gain(db.Level(1.0)) == 1.0;
    LevelMonotone(db, 1.0, 1.0);
    if db.Level(1.0) < 0.0 {
      assert Less(db.Level(1.0), 0.0);
    }
  }

  lemma LessOf(x: real, gain: real)
    requires x != 0.0 && gain < 1.0
    ensures x * gain != x
  {
    if x > 0.0 {
      assert x * (1.0 - gain) > 0.0;
    } else {
      assert (-x) * (1.0 - gain) > 0.0;
    }
  }

  /** A cut changes every sample that is not silent. */
  lemma CutMoves(db: Scale, x: real, g: real)
    requires IsDecibel(db) && x != 0.0 && g < 0.0
    ensures db.Amplify(x, g) != x
  {
    assert Less(g, 0.0);
    AmplifyIsProduct(db, x, g);
    LessOf(x, db.Gain(g));
  }

  /** The target of a window is no cut at all exactly when the window is within the threshold. */
  lemma TargetIsUnity(db: Scale, c: Settings, peak: real)
    requires IsDecibel(db) && ValidSettings(c) && c.thresh >= EPS
    ensures TargetDb(db, c, peak) == 0.0 <==> peak <= c.thresh
  {
    LevelOfOne(db);
    if peak > EPS {
      assert Max(peak, EPS) == peak;
      RatioBelowOne(c.thresh, peak);
      var clamped := Max(Min(c.thresh / peak, 1.0), SMALLEST_GAIN);
      assert Less(0.0, clamped) && db.Gain(db.Level(clamped)) == clamped;
    }
  }

  lemma RatioBelowOne(thresh: real, peak: real)
    requires 0.0 < peak
    ensures thresh / peak < 1.0 <==> thresh < peak
  {
    var q := thresh / peak;
    assert q * peak == thresh;
    if q < 1.0 {
      assert (1.0 - q) * peak > 0.0;
    } else {
      MulLe(peak, 1.0, q);
    }
  }

  lemma UncutTarget(db: Scale, c: Settings, buf: seq<real>, i: nat)
    requires IsDecibel(db) && ValidSettings(c) && c.thresh >= EPS && i < |buf| && Bounded(buf, c.thresh)
    ensures Targets(db, c, buf)[i] == 0.0
  {
    PeakBounded(buf, c.lookahead, i, c.thresh);
    TargetIsUnity(db, c, PeakAhead(buf, c.lookahead, i));
  }

  lemma UncutGains(db: Scale, c: Settings, buf: seq<real>, n: nat)
    requires IsDecibel(db) && ValidSettings(c) && c.enabled && c.thresh >= EPS && n < |buf|
    requires Bounded(buf, c.thresh)
    ensures Gains(db, c, buf, 0.0)[n] == 0.0
  {
    var t := Targets(db, c, buf);
    forall i | 0 <= i < |t| ensures t[i] >= 0.0 {
      UncutTarget(db, c, buf, i);
    }
    ReleaseFloor(t, 0.0, c.slew, 0.0, n);
    RampNonNegative(c.slew, n + 1);
    GainsAtMostUnity(db, c, buf, 0.0, n);
  }

  lemma AmplifyByNothing(db: Scale, x: real)
    requires IsDecibel(db)
    ensures db.Amplify(x, 0.0) == x
  {
    AmplifyIsProduct(db, x, 0.0);
  }

  lemma UncutSample(db: Scale, c: Settings, s: Carry, x: seq<real>, i: nat)
    requires IsDecibel(db) && ValidSettings(c) && c.enabled && c.thresh >= EPS && |x| > 0 && s.gainDb == 0.0
    requires i < |s.tail + x| && |s.tail + x| >= c.lookahead && Bounded(s.tail + x, c.thresh)
    ensures |Finished(db, c, s, x)| == |s.tail + x| && Finished(db, c, s, x)[i] == (s.tail + x)[i]
  {
    var buf := s.tail + x;
    var n := FinishedSample(db, c, s, x, i);
    UncutGains(db, c, buf, n);
    AmplifyByNothing(db, buf[i]);
  }

  lemma CutSample(db: Scale, c: Settings, buf: seq<real>, held: real, n: nat, i: nat)
    requires IsDecibel(db) && ValidSettings(c) && c.enabled && c.thresh >= EPS
    requires n <= i < n + c.lookahead && i < |buf| && Abs(buf[i]) > c.thresh
    ensures db.Amplify(buf[i], Gains(db, c, buf, held)[n]) != buf[i]
  {
    var g, peak := Gains(db, c, buf, held)[n], PeakAhead(buf, c.lookahead, n);
    GainsAtMostUnity(db, c, buf, held, n);
    assert peak > c.thresh;
    TargetAtMostUnity(db, c, peak);
    TargetIsUnity(db, c, peak);
    CutMoves(db, buf[i], g);
  }

  /** An enabled limiter leaves a fresh stream alone, but for the look-ahead's delay, exactly when the whole stream is
      within its threshold. */
  lemma TransparentExactly(db: Scale, c: Settings, x: seq<real>)
    requires IsDecibel(db) && ValidSettings(c) && c.enabled && c.thresh >= EPS && |x| > 0
    ensures Finished(db, c, Fresh(c), x) == Fresh(c).tail + x <==> Bounded(x, c.thresh)
  {
    var s := Fresh(c);
    var buf := s.tail + x;
    BoundedAfterSilence(s.tail, x, c.thresh);
    if Bounded(buf, c.thresh) {
      FinishedIs(db, c, s, x);
      forall i | 0 <= i < |buf| ensures Finished(db, c, s, x)[i] == buf[i] {
        UncutSample(db, c, s, x, i);
      }
    } else {
      var i :| 0 <= i < |buf| && Abs(buf[i]) > c.thresh;
      var n := FinishedSample(db, c, s, x, i);
      CutSample(db, c, buf, s.gainDb, n, i);
    }
  }

  /** Bypassed from the start, a limiter only delays: the priming silence, then the stream. */
  lemma BypassDelays(db: Scale, c: Settings, x: seq<real>)
    requires IsDecibel(db) && ValidSettings(c) && !c.enabled
    ensures Finished(db, c, Fresh(c), x) == Fresh(c).tail + x
  {
    var buf := Fresh(c).tail + x;
    forall i | 0 <= i < |buf| ensures db.Amplify(buf[i], 0.0) == buf[i] {
      AmplifyIsProduct(db, buf[i], 0.0);
    }
    if |x| > 0 {
      FinishedIs(db, c, Fresh(c), x);
    } else {
      assert Finished(db, c, Fresh(c), x) == [] + Flush(db, Fresh(c)).0;
    }
  }

  /** A bypassed feed leaves its last samples held at unity gain. */
  lemma BypassHolds(db: Scale, c: Settings, s: Carry, x: seq<real>)
    requires ValidSettings(c) && !c.enabled && |x| > 0 && |s.tail| == c.lookahead - 1
    ensures Process(db, c, s, x).1 == Carry((s.tail + x)[|x|..], 0.0)
  {
  }

  /** Enabled between a bypassed chunk and the flush: the flush is what was held, so it is within a bound exactly when
      that is, and the backstop counts a clip exactly when that is over full scale. */
  lemma EnabledAfterBypassExactly(db: Scale, m: Machine, x: seq<real>, t: Option<real>, r: Option<real>, bound: real)
    requires IsDecibel(db) && ValidSettings(m.c) && !m.c.enabled && |x| > 0 && |m.s.tail| == m.c.lookahead - 1
    ensures var held := (m.s.tail + x)[|x|..];
            var armed := Step(db, Step(db, m, Feed(x)).0, Retune(t, r, Some(true))).0;
            && End(db, armed).1 == held
            && (End(db, armed).0.clipped == armed.clipped <==> Bounded(held, CEILING))
            && (Bounded(End(db, armed).1, bound) <==> Bounded(held, bound))
  {
    var held := (m.s.tail + x)[|x|..];
    var armed := Step(db, Step(db, m, Feed(x)).0, Retune(t, r, Some(true))).0;
    BypassHolds(db, m.c, m.s, x);
    assert armed.s == Carry(held, 0.0);
    forall i | 0 <= i < |held| ensures db.Amplify(held[i], 0.0) == held[i] {
      AmplifyIsProduct(db, held[i], 0.0);
    }
    assert Flush(db, armed.s).0 == held;
    OverExact(held, CEILING);
  }

  /** An input for which it does clip: 40000 held under unity gain. */
  lemma EnabledAfterBypassClips(db: Scale, c: Settings)
    requires IsDecibel(db) && ValidSettings(c) && c.lookahead == 2 && !c.enabled
    ensures var fed := Step(db, Machine(c, Fresh(c), 0, 0), Feed([40000.0])).0;
            var armed := Step(db, fed, Retune(None, None, Some(true))).0;
            End(db, armed).0.clipped == 1 && End(db, armed).1 == [40000.0]
  {
    var m := Machine(c, Fresh(c), 0, 0);
    var fed := Step(db, m, Feed([40000.0])).0;
    assert Fresh(c).tail + [40000.0] == [0.0, 40000.0];
    assert fed.s.tail == [0.0, 40000.0][1..] == [40000.0];
    assert fed.s.gainDb == 0.0;
    AmplifyIsProduct(db, 40000.0, 0.0);
    assert Flush(db, fed.s).0 == [40000.0];
    assert Over([40000.0], CEILING) == Over([], CEILING) + 1 by {
      assert [40000.0][..0] == [];
    }
  }

  /** An input for which reuse passes a sample over the threshold: shorter than the look-ahead, and full scale. */
  lemma ReuseAfterFlushExceeds(db: Scale, c: Settings)
    requires IsDecibel(db) && ValidSettings(c) && c.lookahead == 2 && c.enabled && c.thresh < CEILING
    ensures var (out, s) := Process(db, c, Carry([], 0.0), [CEILING]);
            out == [] && Flush(db, s).0 == [CEILING] && CEILING > c.thresh
  {
    assert [] + [CEILING] == [CEILING];
    AmplifyIsProduct(db, CEILING, 0.0);
    var s := Process(db, c, Carry([], 0.0), [CEILING]).1;
    assert s == Carry([CEILING], 0.0);
  }

  // ---- No more than is needed

  /** The target brings a window's peak to the threshold, and no lower. */
  lemma TargetIsExact(db: Scale, c: Settings, peak: real)
    requires IsDecibel(db) && ValidSettings(c) && c.thresh >= EPS && c.thresh <= peak <= Reach(c)
    ensures peak * db.Gain(TargetDb(db, c, peak)) == c.thresh
  {
    var ratio := c.thresh / peak;
    assert ratio * peak == c.thresh;
    if peak > EPS {
      assert Max(peak, EPS) == peak;
      RatioAboveSmallest(c.thresh, peak);
      RatioBelowOne(c.thresh, peak);
      assert Max(Min(ratio, 1.0), SMALLEST_GAIN) == ratio;
      assert Less(0.0, ratio) && db.Gain(db.Level(ratio)) == ratio;
    } else {
      LevelOfOne(db);
    }
  }

  lemma SteadyPeak(c: Settings, quiet: seq<real>, x: seq<real>, a: real, n: nat)
    requires c.lookahead >= 1 && |quiet| == c.lookahead - 1 && n < |quiet + x| && |x| > 0 && a >= 0.0
    requires forall i :: 0 <= i < |quiet| ==> quiet[i] == 0.0
    requires forall i :: 0 <= i < |x| ==> Abs(x[i]) == a
    ensures PeakAhead(quiet + x, c.lookahead, n) == a
  {
    var buf := quiet + x;
    var at := if n < |quiet| then |quiet| else n;
    assert Abs(buf[at]) == Abs(x[at - |quiet|]) == a;
    assert forall i :: 0 <= i < |buf| ==> Abs(buf[i]) <= a;
  }

  lemma SteadyGain(db: Scale, c: Settings, quiet: seq<real>, x: seq<real>, a: real, n: nat)
    requires IsDecibel(db) && ValidSettings(c) && c.enabled && |quiet| == c.lookahead - 1 && |x| > 0 && a >= 0.0
    requires n < |quiet + x| && forall i :: 0 <= i < |quiet| ==> quiet[i] == 0.0
    requires forall i :: 0 <= i < |x| ==> Abs(x[i]) == a
    ensures Gains(db, c, quiet + x, 0.0)[n] == TargetDb(db, c, a)
  {
    var buf := quiet + x;
    var t := Targets(db, c, buf);
    forall i | 0 <= i < |buf| ensures t[i] == TargetDb(db, c, a) {
      SteadyPeak(c, quiet, x, a, i);
    }
    TargetAtMostUnity(db, c, a);
    ReleaseSteady(t, 0.0, c.slew, TargetDb(db, c, a), n);
  }

  lemma ScaledMagnitude(x: real, gain: real)
    requires gain >= 0.0
    ensures Abs(x * gain) == Abs(x) * gain
  {
    if x < 0.0 {
      assert (-x) * gain == -(x * gain);
      assert (-x) * gain >= 0.0;
    } else {
      assert x * gain >= 0.0;
    }
  }

  lemma SteadySample(db: Scale, c: Settings, v: real, a: real)
    requires IsDecibel(db) && ValidSettings(c) && c.thresh >= EPS && c.thresh <= a <= Reach(c) && Abs(v) == a
    ensures Abs(db.Amplify(v, TargetDb(db, c, a))) == c.thresh
  {
    var g := TargetDb(db, c, a);
    AmplifyIsProduct(db, v, g);
    ScaledMagnitude(v, db.Gain(g));
    TargetIsExact(db, c, a);
  }

  lemma FreshOut(db: Scale, c: Settings, x: seq<real>, i: nat) returns (n: nat)
    requires ValidSettings(c) && i < |x|
    ensures |Finished(db, c, Fresh(c), x)| == c.lookahead - 1 + |x| && n < |Fresh(c).tail + x|
    ensures Finished(db, c, Fresh(c), x)[c.lookahead - 1 + i]
         == db.Amplify(x[i], Gains(db, c, Fresh(c).tail + x, 0.0)[n])
  {
    n := FinishedSample(db, c, Fresh(c), x, c.lookahead - 1 + i);
  }

  /** A signal of one magnitude over the threshold comes out at exactly the threshold, from its first sample on. */
  lemma SteadyAtThreshold(db: Scale, c: Settings, x: seq<real>, a: real, i: nat)
    requires IsDecibel(db) && ValidSettings(c) && c.enabled && c.thresh >= EPS && i < |x|
    requires c.thresh <= a <= Reach(c) && forall k :: 0 <= k < |x| ==> Abs(x[k]) == a
    ensures |Finished(db, c, Fresh(c), x)| == c.lookahead - 1 + |x|
    ensures Abs(Finished(db, c, Fresh(c), x)[c.lookahead - 1 + i]) == c.thresh
  {
    var n := FreshOut(db, c, x, i);
    SteadyGain(db, c, Fresh(c).tail, x, a, n);
    SteadySample(db, c, x[i], a);
  }

  // ---- Release

  lemma PerSample(slew: real, period: real, n: nat)
    requires period > 0.0 && slew * period == 10.0
    ensures Ramp(slew, n) == 10.0 * (n as real / period)
  {
    RampIsProduct(slew, n);
    var q := n as real / period;
    assert q * period == n as real;
    assert slew * (q * period) == (slew * period) * q;
  }

  /** Over samples within the threshold a cut is given back at ten decibels per release time, up to none. */
  lemma RecoversInReleaseTime(db: Scale, c: Settings, releaseMs: real, buf: seq<real>, held: real, n: nat)
    requires IsDecibel(db) && ValidSettings(c) && c.enabled && c.thresh >= EPS && n < |buf|
    requires releaseMs >= 1.0 && c.slew == Slew(c.sampleRate, releaseMs)
    requires Bounded(buf, c.thresh) && held <= 0.0
    ensures var period := c.sampleRate as real * (releaseMs / 1000.0);
            Gains(db, c, buf, held)[n] == Min(0.0, held + 10.0 * ((n + 1) as real / period))
  {
    var t := Targets(db, c, buf);
    forall i | 0 <= i < |buf| ensures t[i] == 0.0 {
      UncutTarget(db, c, buf, i);
    }
    ReleaseClimbs(t, held, c.slew, n);
    SlewIsRelease(c.sampleRate, releaseMs);
    PeriodPositive(c.sampleRate, releaseMs);
    PerSample(c.slew, c.sampleRate as real * (releaseMs / 1000.0), n + 1);
  }

  lemma PeriodPositive(sampleRate: nat, releaseMs: real)
    requires sampleRate > 0 && releaseMs >= 1.0
    ensures sampleRate as real * (releaseMs / 1000.0) > 0.0
  {
  }

  // ---- The threshold asked for

  /** The threshold in dB last asked for: by the latest retune that names one, or when the limiter was built. */
  function LastAsked(first: real, ops: seq<Op>): real {
    if |ops| == 0 then first
    else
      var last := ops[|ops| - 1];
      if last.Retune? && last.thresholdDb.Some? then last.thresholdDb.value else LastAsked(first, ops[..|ops| - 1])
  }

  lemma {:induction false} LastAskedAfter(first: real, ops: seq<Op>, n: nat)
    requires 0 < n <= |ops|
    ensures LastAsked(first, ops[..n]) == LastAsked(LastAsked(first, ops[..1]), ops[1..][..n - 1])
  {
    assert ops[..n][..n - 1] == ops[..n - 1];
    if n > 1 {
      LastAskedAfter(first, ops, n - 1);
      assert ops[1..][..n - 1][..n - 2] == ops[1..][..n - 2];
    }
  }

  lemma StepAsked(db: Scale, m: Machine, first: real, ops: seq<Op>)
    requires m.c.sampleRate > 0 && m.c.lookahead >= 1 && m.c.thresh == Threshold(db, first) && |ops| > 0
    ensures Step(db, m, ops[0]).0.c.thresh == Threshold(db, LastAsked(first, ops[..1]))
  {
    var one := ops[..1];
    assert one[0] == ops[0] && one[..0] == [];
    assert LastAsked(first, one[..0]) == first;
  }

  /** Each operation runs under the threshold last asked for before it. */
  lemma {:induction false} AskedInForce(db: Scale, m: Machine, first: real, ops: seq<Op>, i: nat)
    requires m.c.sampleRate > 0 && m.c.lookahead >= 1 && m.c.thresh == Threshold(db, first)
    ensures i < |ops| ==> RunOps(db, m, ops).1[i].c.thresh == Threshold(db, LastAsked(first, ops[..i]))
    ensures RunOps(db, m, ops).0.c.thresh == Threshold(db, LastAsked(first, ops))
    decreases |ops|
  {
    assert ops[..|ops|] == ops;
    if |ops| > 0 {
      var next := LastAsked(first, ops[..1]);
      StepAsked(db, m, first, ops);
      AskedInForce(db, Step(db, m, ops[0]).0, next, ops[1..], if i > 0 then i - 1 else 0);
      LastAskedAfter(first, ops, |ops|);
      assert ops[1..][..|ops| - 1] == ops[1..];
      if 0 < i < |ops| {
        LastAskedAfter(first, ops, i);
      }
    }
  }

  /** Within CEILING * 10^(t/20), or within full scale for a threshold above it. */
  ghost predicate HeldTo(db: Scale, t: real, out: seq<real>) {
    && (t <= 0.0 ==> Bounded(out, Max(CEILING * db.Gain(t), EPS)))
    && (t > 0.0 ==> Bounded(out, CEILING))
  }

  lemma ThresholdIs(db: Scale, t: real)
    requires IsDecibel(db)
    ensures Threshold(db, t) == if t <= 0.0 then CEILING * db.Gain(t) else CEILING
  {
    assert Min(t, 0.0) == if t <= 0.0 then t else 0.0;
    assert CEILING * db.Gain(0.0) == CEILING;
  }

  lemma CeilingIsAsked(db: Scale, c: Settings, t: real, out: seq<real>)
    requires IsDecibel(db) && c.thresh == Threshold(db, t) && Bounded(out, Ceiling(c))
    ensures HeldTo(db, t, out)
  {
    ThresholdIs(db, t);
  }

  lemma BuiltStreams(db: Scale, m: Machine, peak: real, first: real, releaseMs: real)
    requires IsDecibel(db) && m.c.sampleRate > 0 && m.c.lookahead >= 1 && peak >= 0.0
    requires m == Built(db, m.c.sampleRate, m.c.lookahead, first, releaseMs, m.c.enabled)
    ensures Streaming(m, peak) && m.c.thresh == Threshold(db, first) && m.clipped == 0
  {
    ThresholdRange(db, first);
    SlewPositive(m.c.sampleRate, releaseMs);
  }

  /** From the moment a limiter is built, over every run of chunks and retunes: what it emits while limiting is held to
      the threshold last asked for in decibels, and nothing is clipped. */
  lemma AskedCeiling(db: Scale, m: Machine, first: real, releaseMs: real, ops: seq<Op>, peak: real)
    requires IsDecibel(db) && m.c.sampleRate > 0 && m.c.lookahead >= 1 && peak >= 0.0
    requires m == Built(db, m.c.sampleRate, m.c.lookahead, first, releaseMs, m.c.enabled)
    requires WithinReach(db, m.c, ops, peak)
    ensures var (m1, log) := RunOps(db, m, ops);
            && m1.clipped == 0
            && forall i :: 0 <= i < |log| && log[i].c.enabled ==> HeldTo(db, LastAsked(first, ops[..i]), log[i].out)
  {
    BuiltStreams(db, m, peak, first, releaseMs);
    RunCeiling(db, m, ops, peak);
    var log := RunOps(db, m, ops).1;
    forall i | 0 <= i < |log| && log[i].c.enabled ensures HeldTo(db, LastAsked(first, ops[..i]), log[i].out) {
      AskedInForce(db, m, first, ops, i);
      CeilingIsAsked(db, log[i].c, LastAsked(first, ops[..i]), log[i].out);
    }
  }

  lemma {:induction false} ReachBefore(db: Scale, m: Machine, ops: seq<Op>, x: seq<real>, peak: real)
    requires m.c.sampleRate > 0 && m.c.lookahead >= 1 && WithinReach(db, m.c, ops + [Feed(x)], peak)
    ensures WithinReach(db, m.c, ops, peak) && Bounded(x, peak) && peak <= Reach(RunOps(db, m, ops).0.c)
    decreases |ops|
  {
    var all := ops + [Feed(x)];
    if |ops| > 0 {
      assert all[0] == ops[0] && all[1..] == ops[1..] + [Feed(x)];
      ReachBefore(db, Step(db, m, ops[0]).0, ops[1..], x, peak);
    } else {
      assert all[0] == Feed(x);
    }
  }

  /** So is the tail flushed at the end, to the threshold asked for before the last chunk. */
  lemma AskedFlush(db: Scale, m: Machine, first: real, releaseMs: real, ops: seq<Op>, x: seq<real>, retunes: seq<Op>,
                   peak: real)
    requires IsDecibel(db) && m.c.sampleRate > 0 && m.c.lookahead >= 1 && peak >= 0.0
    requires m == Built(db, m.c.sampleRate, m.c.lookahead, first, releaseMs, m.c.enabled)
    requires WithinReach(db, m.c, ops + [Feed(x)], peak) && |x| > 0 && RunOps(db, m, ops).0.c.enabled
    requires forall i :: 0 <= i < |retunes| ==> retunes[i].Retune?
    ensures var last := RunOps(db, Step(db, RunOps(db, m, ops).0, Feed(x)).0, retunes).0;
            && HeldTo(db, LastAsked(first, ops), End(db, last).1)
            && (last.c.enabled ==> End(db, last).0.clipped == 0)
  {
    BuiltStreams(db, m, peak, first, releaseMs);
    ReachBefore(db, m, ops, x, peak);
    RunCeiling(db, m, ops, peak);
    var m1 := RunOps(db, m, ops).0;
    FlushCeiling(db, m1, x, retunes, peak);
    AskedInForce(db, m, first, ops, 0);
    CeilingIsAsked(db, m1.c, LastAsked(first, ops), End(db, RunOps(db, Step(db, m1, Feed(x)).0, retunes).0).1);
  }

  /** A fresh stream goes through unchanged, behind the look-ahead, exactly when it is within the threshold asked
      for. */
  lemma AskedTransparent(db: Scale, m: Machine, t: real, releaseMs: real, x: seq<real>)
    requires IsDecibel(db) && m.c.sampleRate > 0 && m.c.lookahead >= 1 && |x| > 0
    requires m == Built(db, m.c.sampleRate, m.c.lookahead, t, releaseMs, true) && CEILING * db.Gain(t) >= EPS
    ensures Finished(db, m.c, m.s, x) == m.s.tail + x
       <==> Bounded(x, if t <= 0.0 then CEILING * db.Gain(t) else CEILING)
  {
    BuiltStreams(db, m, 0.0, t, releaseMs);
    ThresholdIs(db, t);
    TransparentExactly(db, m.c, x);
  }

  /** A lower threshold is a strictly lower ceiling: the loudest sample the higher one leaves alone is cut by it. */
  lemma LowerIsStricter(db: Scale, m1: Machine, t1: real, m2: Machine, t2: real, releaseMs: real)
    requires IsDecibel(db) && t1 < t2 <= 0.0 && CEILING * db.Gain(t1) >= EPS
    requires m1.c.sampleRate > 0 && m1.c.lookahead >= 1 && m2.c.sampleRate > 0 && m2.c.lookahead >= 1
    requires m1 == Built(db, m1.c.sampleRate, m1.c.lookahead, t1, releaseMs, true)
    requires m2 == Built(db, m2.c.sampleRate, m2.c.lookahead, t2, releaseMs, true)
    ensures var x := [CEILING * db.Gain(t2)];
            && CEILING * db.Gain(t1) < x[0]
            && Finished(db, m2.c, m2.s, x) == m2.s.tail + x
            && Finished(db, m1.c, m1.s, x) != m1.s.tail + x
  {
    assert Less(t1, t2);
    var x := [CEILING * db.Gain(t2)];
    AskedTransparent(db, m1, t1, releaseMs, x);
    AskedTransparent(db, m2, t2, releaseMs, x);
    assert Abs(x[0]) == x[0];
  }
}
