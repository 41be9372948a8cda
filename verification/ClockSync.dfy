/** Controller/device clock synchronisation (controller/em_clock.py), in real arithmetic over
    integer microsecond timestamps. */
module ClockSync {
  import opened Options
  import opened LeastSquares
  import N = Numerics

  datatype Sample = Sample(controllerUs: int, offsetUs: real, rttUs: int)

  /** One probe: t1 controller sends, t2 device receives, t3 device sends, t4 controller receives. */
  datatype Probe = Probe(t1: int, t2: int, t3: int, t4: int)

  function Rtt(p: Probe): int {
    (p.t4 - p.t1) - (p.t3 - p.t2)
  }

  /** Offset at the probe's midpoint, as in section 8 of RFC 5905. */
  function MidpointOffset(p: Probe): real {
    ((p.t2 - p.t1) + (p.t3 - p.t4)) as real / 2.0
  }

  predicate Acceptable(p: Probe, maxRtt: int) {
    && p.t1 >= 0 && p.t2 >= 0 && p.t3 >= 0 && p.t4 >= 0
    && p.t1 < p.t4 && p.t2 <= p.t3
    && 0 < Rtt(p) <= maxRtt
  }

  function ToSample(p: Probe): Sample {
    Sample((p.t1 + p.t4) / 2, MidpointOffset(p), Rtt(p))
  }

  /** deque(maxlen): the oldest falls out. */
  function Append(s: seq<Sample>, x: Sample, maxlen: nat): (r: seq<Sample>)
    requires |s| <= maxlen && maxlen > 0
    ensures 0 < |r| <= maxlen && r[|r| - 1] == x
  {
    if |s| < maxlen then s + [x] else s[1..] + [x]
  }

  /** What is kept is the newest `maxlen` of all there would be. */
  lemma AppendKeepsNewest(s: seq<Sample>, x: Sample, maxlen: nat)
    requires |s| <= maxlen && maxlen > 0
    ensures var all, r := s + [x], Append(s, x, maxlen);
            |r| == (if |all| < maxlen then |all| else maxlen) && r == all[|all| - |r|..]
  {
  }

  /** The samples kept of a history of probes: those of the newest acceptable ones. */
  function Kept(history: seq<Probe>, maxRtt: int, maxlen: nat): (s: seq<Sample>)
    requires maxlen > 0
    ensures |s| <= maxlen
  {
    if |history| == 0 then []
    else
      var earlier, p := Kept(history[..|history| - 1], maxRtt, maxlen), history[|history| - 1];
      if Acceptable(p, maxRtt) then Append(earlier, ToSample(p), maxlen) else earlier
  }

  lemma {:induction false} KeptFrom(history: seq<Probe>, maxRtt: int, maxlen: nat, x: Sample) returns (p: Probe)
    requires maxlen > 0 && x in Kept(history, maxRtt, maxlen)
    ensures p in history && Acceptable(p, maxRtt) && x == ToSample(p)
  {
    var earlier, last := history[..|history| - 1], history[|history| - 1];
    if x in Kept(earlier, maxRtt, maxlen) {
      p := KeptFrom(earlier, maxRtt, maxlen, x);
    } else {
      p := last;
    }
  }

  /** A sample is placed half-way between sending the probe and hearing back, an odd microsecond cut. */
  lemma SampleInstant(p: Probe, maxRtt: int)
    requires Acceptable(p, maxRtt)
    ensures p.t1 <= ToSample(p).controllerUs <= p.t4
    ensures 2 * ToSample(p).controllerUs <= p.t1 + p.t4 <= 2 * ToSample(p).controllerUs + 1
  {
  }

  /** Controller time of a sample, counted from the first one kept. */
  function Xs(s: seq<Sample>): Series {
    (i: nat) => if i < |s| then (s[i].controllerUs - s[0].controllerUs) as real else 0.0
  }

  function Ys(s: seq<Sample>): Series {
    (i: nat) => if i < |s| then s[i].offsetUs else 0.0
  }

  /** The line through the kept samples. */
  function FitSamples(s: seq<Sample>): Line
    requires |s| > 0
  {
    Fit(Xs(s), Ys(s), |s|)
  }

  // ---- Rounding

  /** Python's round: to the nearest integer, halves to even. */
  function Round(x: real): int {
    var f := x.Floor;
    var frac := x - f as real;
    if frac < 0.5 then f else if frac > 0.5 then f + 1 else if f % 2 == 0 then f else f + 1
  }

  lemma RoundNear(x: real)
    ensures -0.5 <= Round(x) as real - x <= 0.5
    ensures Round(x) as real - x == 0.5 || Round(x) as real - x == -0.5 ==> Round(x) % 2 == 0
  {
  }

  lemma RoundMonotone(x: real, y: real)
    requires x <= y
    ensures Round(x) <= Round(y)
  {
  }

  lemma RoundExact(n: int)
    ensures Round(n as real) == n
  {
  }

  // ---- The estimator's arithmetic

  /** The fitted state a conversion reads. */
  datatype Estimate = Estimate(line: Line, reference: int)

  function OffsetAt(e: Estimate, controllerUs: int): real {
    e.line.offset + Times(e.line.drift, (controllerUs - e.reference) as real)
  }

  function ToDevice(e: Estimate, controllerUs: int): int {
    Round(controllerUs as real + OffsetAt(e, controllerUs))
  }

  /** One fixed-point step. */
  function ToController(e: Estimate, deviceUs: int): int {
    var c := deviceUs as real - e.line.offset;
    Round(c - Times(e.line.drift, c - e.reference as real))
  }

  // ---- The object

  class ClockSync {
    const maxRtt: int
    const maxSamples: nat
    const minSamples: nat
    const minSpan: int
    var samples: seq<Sample>
    var rejected: nat
    var line: Line
    var reference: Option<int>
    /** Every probe since the last reset. */
    ghost var history: seq<Probe>

    /** What is kept is the newest of the probes accepted; the line is the fit of it, referred to the oldest of it. */
    ghost predicate Valid()
      reads this
    {
      && maxSamples >= 2 && samples == Kept(history, maxRtt, maxSamples)
      && (reference.None? <==> samples == [])
      && (samples == [] ==> line == Line(0.0, 0.0))
      && (samples != [] ==> line == FitSamples(samples) && reference == Some(samples[0].controllerUs))
    }

    constructor (maxRtt: int, maxSamples: nat, minSamples: nat, minSpan: int)
      requires maxRtt > 0 && maxSamples >= 2 && 2 <= minSamples <= maxSamples && minSpan >= 0
      ensures Valid() && samples == [] && rejected == 0
      ensures this.maxRtt == maxRtt && this.maxSamples == maxSamples && this.minSamples == minSamples
      ensures this.minSpan == minSpan && history == []
    {
      this.maxRtt, this.maxSamples, this.minSamples, this.minSpan := maxRtt, maxSamples, minSamples, minSpan;
      this.samples, this.rejected := [], 0;
      this.line, this.reference := Line(0.0, 0.0), None;
      this.history := [];
    }

    method Reset()
      requires Valid()
      modifies this
      ensures Valid() && samples == [] && rejected == 0 && history == []
    {
      samples, rejected, line, reference := [], 0, Line(0.0, 0.0), None;
      history := [];
    }

    /** Accept one probe and refit, or count it as rejected and change nothing else. */
    method Update(p: Probe) returns (accepted: bool)
      requires Valid()
      modifies this
      ensures Valid() && history == old(history) + [p]
      ensures accepted <==> Acceptable(p, maxRtt)
      ensures accepted ==> samples == Append(old(samples), ToSample(p), maxSamples) && rejected == old(rejected)
      ensures !accepted ==> samples == old(samples) && rejected == old(rejected) + 1 && reference == old(reference)
                            && line == old(line)
    {
      history := history + [p];
      assert history[..|history| - 1] == old(history);
      if p.t1 < 0 || p.t2 < 0 || p.t3 < 0 || p.t4 < 0 || !(p.t1 < p.t4 && p.t2 <= p.t3) {
        rejected := rejected + 1;
        return false;
      }
      var rtt := (p.t4 - p.t1) - (p.t3 - p.t2);
      if rtt <= 0 || rtt > maxRtt {
        rejected := rejected + 1;
        return false;
      }
      samples := Append(samples, Sample((p.t1 + p.t4) / 2, MidpointOffset(p), rtt), maxSamples);
      Refit();
      return true;
    }

    method Refit()
      requires samples != []
      modifies this`line, this`reference
      ensures line == FitSamples(samples) && reference == Some(samples[0].controllerUs)
    {
      var x, y, n := Xs(samples), Ys(samples), |samples|;
      var xMean, yMean := Mean(x, n), Mean(y, n);
      var denominator := Sum(Squares(Minus(x, xMean)), n);
      var drift := 0.0;
      if denominator != 0.0 {
        drift := Sum(Products(Minus(x, xMean), Minus(y, yMean)), n) / denominator;
      }
      reference := Some(samples[0].controllerUs);
      line := Line(yMean - drift * xMean, drift);
    }

    predicate Synchronized()
      reads this
    {
      && |samples| >= minSamples && reference.Some? && |samples| > 0
      && samples[|samples| - 1].controllerUs - samples[0].controllerUs >= minSpan
    }

    /** None is the RuntimeError of a clock without a sample. */
    method ControllerToDevice(controllerUs: int) returns (deviceUs: Option<int>)
      requires Valid()
      ensures deviceUs == if samples == [] then None
                          else Some(ToDevice(Estimate(FitSamples(samples), samples[0].controllerUs), controllerUs))
    {
      if reference.None? {
        return None;
      }
      return Some(ToDevice(Estimate(line, reference.value), controllerUs));
    }

    method DeviceToController(deviceUs: int) returns (controllerUs: Option<int>)
      requires Valid()
      ensures controllerUs == if samples == [] then None
                              else Some(ToController(Estimate(FitSamples(samples), samples[0].controllerUs), deviceUs))
    {
      if reference.None? {
        return None;
      }
      return Some(ToController(Estimate(line, reference.value), deviceUs));
    }
  }

  // ---- What the estimate means

  /** The squared error of "device minus controller is offset + drift * (controller - first)" over the samples. */
  function SampleError(s: seq<Sample>, l: Line): real {
    SquaredError(Xs(s), Ys(s), |s|, l)
  }

  /** No affine clock model fits the kept samples better than the estimator's. */
  lemma EstimateIsOptimal(s: seq<Sample>, l: Line)
    requires |s| > 0
    ensures SampleError(s, FitSamples(s)) <= SampleError(s, l)
  {
    FitMinimises(Xs(s), Ys(s), |s|, l);
  }

  /** Every kept sample lies on one affine clock model. */
  ghost predicate OnLine(s: seq<Sample>, l: Line) {
    forall i :: 0 <= i < |s| ==> s[i].offsetUs == l.offset + l.drift * (s[i].controllerUs - s[0].controllerUs) as real
  }

  /** Samples spanning a positive time recover the model they lie on, offset and drift both. */
  lemma EstimateRecovers(s: seq<Sample>, l: Line)
    requires |s| > 0 && s[|s| - 1].controllerUs > s[0].controllerUs && OnLine(s, l)
    ensures FitSamples(s) == l
  {
    var x, y := Xs(s), Ys(s);
    forall k | 0 <= k < |s| ensures y(k) == l.offset + l.drift * x(k) {
    }
    FitRecovers(x, y, |s|, l, 0, |s| - 1);
  }

  /** With all samples at one instant the drift is unknowable: zero is reported, and the mean offset. */
  lemma OneInstant(s: seq<Sample>)
    requires |s| > 0 && forall i :: 0 <= i < |s| ==> s[i].controllerUs == s[0].controllerUs
    ensures FitSamples(s) == Line(Mean(Ys(s), |s|), 0.0)
  {
    var x, n := Xs(s), |s|;
    SumZero(x, n);
    assert Mean(x, n) == 0.0;
    forall i | 0 <= i < n ensures Squares(Minus(x, Mean(x, n)))(i) == 0.0 {
      SquareSign(x(i) - Mean(x, n));
    }
    SumZero(Squares(Minus(x, Mean(x, n))), n);
  }

  // ---- Error bounds

  /** A device whose clock runs `theta` ahead, probed over paths of delay d1 and d2. */
  ghost predicate ProbeOf(p: Probe, theta: int, d1: int, d2: int) {
    d1 >= 0 && d2 >= 0 && p.t2 == p.t1 + d1 + theta && p.t4 == p.t3 - theta + d2
  }

  /** The sample's offset is within half its round trip of the truth, and exact on symmetric paths. */
  lemma OffsetWithinHalfRtt(p: Probe, theta: int, d1: int, d2: int)
    requires ProbeOf(p, theta, d1, d2)
    ensures var error := MidpointOffset(p) - theta as real; var half := Rtt(p) as real / 2.0;
            && -half <= error <= half
            && (d1 == d2 <==> error == 0.0)
            && (d2 == 0 <==> error == half) && (d1 == 0 <==> error == -half)
  {
    assert Rtt(p) == d1 + d2;
    assert (p.t2 - p.t1) + (p.t3 - p.t4) == 2 * theta + d1 - d2;
  }

  lemma SpreadDrift(d: real, k: real, p: real, err: real)
    requires p == Times(d, k)
    ensures Times(d, k + p + err) == p + Times(d, p) + Times(d, err)
  {
    AddProduct(d, k + p, err);
    AddProduct(d, k, p);
  }

  /** The unrounded way back, with `p` = drift * (C - ref) and `err` the first rounding's error. */
  lemma BackExact(d: real, k: real, p: real, err: real)
    requires p == Times(d, k)
    ensures (k + p + err) - Times(d, k + p + err) - k == -Times(d, p) + Times(1.0 - d, err)
  {
    SpreadDrift(d, k, p, err);
    AddProduct(err, 1.0, -d);
    assert Times(1.0 - d, err) == err - Times(d, err);
  }

  lemma HalfOf(a: real, e: real)
    requires a >= 0.0 && -0.5 <= e <= 0.5
    ensures -(a / 2.0) <= Times(a, e) <= a / 2.0
  {
    assert a * (0.5 - e) >= 0.0 && a * (e + 0.5) >= 0.0;
  }

  lemma ScaledError(a: real, e: real)
    requires -0.5 <= e <= 0.5
    ensures N.Abs(Times(a, e)) <= N.Abs(a) / 2.0
  {
    if a >= 0.0 {
      HalfOf(a, e);
    } else {
      HalfOf(-a, -e);
      NegatedProduct(a, e);
    }
  }

  lemma ScaledMagnitude(q: real, k: real)
    requires q >= 0.0
    ensures N.Abs(Times(q, k)) == Times(q, N.Abs(k))
  {
    if k < 0.0 {
      assert Times(q, -k) == -Times(q, k);
      assert Times(q, -k) >= 0.0;
    } else {
      assert Times(q, k) >= 0.0;
    }
  }

  lemma DriftTwice(d: real, k: real)
    ensures N.Abs(Times(d, Times(d, k))) == Times(Square(d), N.Abs(k))
  {
    SquareSign(d);
    assert d * (d * k) == (d * d) * k;
    ScaledMagnitude(Square(d), k);
  }

  lemma SplitError(r: int, c: int, back: real, p: real, q: real)
    requires -0.5 <= r as real - back <= 0.5 && back - c as real == -p + q
    ensures N.Abs((r - c) as real) <= N.Abs(p) + N.Abs(q) + 0.5
  {
  }

  /** Converting to device time and back errs by at most drift^2 * |C - ref| + |1 - drift| / 2 + 1/2. */
  lemma RoundTripBound(e: Estimate, controllerUs: int)
    ensures var d := e.line.drift; var k := (controllerUs - e.reference) as real;
            N.Abs((ToController(e, ToDevice(e, controllerUs)) - controllerUs) as real)
            <= Times(Square(d), N.Abs(k)) + N.Abs(1.0 - d) / 2.0 + 0.5
  {
    var d, k := e.line.drift, (controllerUs - e.reference) as real;
    var p := Times(d, k);
    var exact := controllerUs as real + OffsetAt(e, controllerUs);
    var device := Round(exact);
    RoundNear(exact);
    var err := device as real - exact;
    var c := device as real - e.line.offset;
    assert c - e.reference as real == k + p + err;
    var back := c - Times(d, c - e.reference as real);
    BackExact(d, k, p, err);
    RoundNear(back);
    SplitError(Round(back), controllerUs, back, Times(d, p), Times(1.0 - d, err));
    ScaledError(1.0 - d, err);
    DriftTwice(d, k);
  }

  lemma DriftedOrder(d: real, k1: real, k2: real)
    requires k1 <= k2 && d >= -1.0
    ensures k1 + Times(d, k1) <= k2 + Times(d, k2)
  {
    var a, b := 1.0 + d, k2 - k1;
    assert Times(a, b) >= 0.0;
    AddProduct(b, 1.0, d);
    AddProduct(d, k2, -k1);
    assert d * (-k1) == -(d * k1);
  }

  /** Playback order survives the conversion as long as the device clock does not run backwards. */
  lemma ToDeviceMonotone(e: Estimate, c1: int, c2: int)
    requires c1 <= c2 && e.line.drift >= -1.0
    ensures ToDevice(e, c1) <= ToDevice(e, c2)
  {
    var d, k1, k2 := e.line.drift, (c1 - e.reference) as real, (c2 - e.reference) as real;
    DriftedOrder(d, k1, k2);
    RoundMonotone(c1 as real + OffsetAt(e, c1), c2 as real + OffsetAt(e, c2));
  }

  /** For a device on an affine clock, an estimator that has seen a positive span maps every controller
      instant to the device's own reading, rounded. */
  lemma ConversionIsTruth(s: seq<Sample>, truth: Line, controllerUs: int)
    requires |s| > 0 && s[|s| - 1].controllerUs > s[0].controllerUs && OnLine(s, truth)
    ensures ToDevice(Estimate(FitSamples(s), s[0].controllerUs), controllerUs)
         == Round(controllerUs as real
                  + (truth.offset + Times(truth.drift, (controllerUs - s[0].controllerUs) as real)))
  {
    EstimateRecovers(s, truth);
  }

  /** A clock that reports itself synchronised over a positive span converts as the device's own affine clock. */
  lemma SynchronizedConverts(c: ClockSync, truth: Line, controllerUs: int)
    requires c.Valid() && c.Synchronized() && c.minSpan > 0 && OnLine(c.samples, truth)
    ensures ToDevice(Estimate(c.line, c.reference.value), controllerUs)
         == Round(controllerUs as real
                  + (truth.offset + Times(truth.drift, (controllerUs - c.reference.value) as real)))
  {
    ConversionIsTruth(c.samples, truth, controllerUs);
  }

  /** Without drift and with a whole offset, going to device time and back is exact. */
  lemma ConstantOffsetRoundTrip(offset: int, reference: int, controllerUs: int)
    ensures var e := Estimate(Line(offset as real, 0.0), reference);
            && ToDevice(e, controllerUs) == controllerUs + offset
            && ToController(e, ToDevice(e, controllerUs)) == controllerUs
  {
    RoundExact(controllerUs + offset);
    RoundExact(controllerUs);
  }

  // ---- From the probes

  /** What a device on an affine clock reads at a controller instant: `truth.offset` ahead at controller zero, and
      `truth.drift` more for every microsecond. */
  function Reads(truth: Line, controllerUs: real): real {
    controllerUs + (truth.offset + Times(truth.drift, controllerUs))
  }

  /** A probe of that device over path delays d1 and d2, its stamps off by e2 and e3. */
  ghost predicate StampedBy(p: Probe, truth: Line, d1: real, d2: real, e2: real, e3: real) {
    && p.t2 as real == Reads(truth, p.t1 as real + d1) + e2
    && p.t3 as real == Reads(truth, p.t4 as real - d2) + e3
  }

  lemma OffsetAlong(truth: Line, t1: real, t4: real, d1: real, d2: real)
    ensures (Reads(truth, t1 + d1) - t1 + (Reads(truth, t4 - d2) - t4)) / 2.0
         == truth.offset + Times(truth.drift, (t1 + t4) / 2.0) + Times(1.0 + truth.drift, (d1 - d2) / 2.0)
  {
    var d := truth.drift;
    AddProduct(d, t1 + d1, t4 - d2);
    AddProduct(d, (t1 + t4) / 2.0, (d1 - d2) / 2.0);
    assert d * ((t1 + d1) + (t4 - d2)) == 2.0 * (d * ((t1 + t4) / 2.0 + (d1 - d2) / 2.0));
    AddProduct((d1 - d2) / 2.0, 1.0, d);
  }

  /** How far the sample's offset is from the device's true offset at the instant the sample is placed. */
  function OffsetError(p: Probe, truth: Line): real {
    var s := ToSample(p);
    s.offsetUs - (truth.offset + Times(truth.drift, s.controllerUs as real))
  }

  /** Half of what the paths differ, half a microsecond of drift where the mid-point is odd, and the mean of the stamps'
      own errors: nothing else. */
  lemma OffsetErrorIs(p: Probe, truth: Line, d1: real, d2: real, e2: real, e3: real)
    requires StampedBy(p, truth, d1, d2, e2, e3)
    ensures OffsetError(p, truth) == Times(1.0 + truth.drift, (d1 - d2) / 2.0)
                                     + (if (p.t1 + p.t4) % 2 == 1 then truth.drift / 2.0 else 0.0) + (e2 + e3) / 2.0
  {
    var t1, t4, s := p.t1 as real, p.t4 as real, ToSample(p);
    OffsetAlong(truth, t1, t4, d1, d2);
    var odd := if (p.t1 + p.t4) % 2 == 1 then 0.5 else 0.0;
    assert (t1 + t4) / 2.0 == s.controllerUs as real + odd;
    AddProduct(truth.drift, s.controllerUs as real, odd);
    assert s.offsetUs == ((p.t2 as real - t1) + (p.t3 as real - t4)) / 2.0;
  }

  /** The line a clock's samples are measured against counts from its reference. */
  function From(truth: Line, reference: int): Line {
    Line(truth.offset + Times(truth.drift, reference as real), truth.drift)
  }

  lemma LineFrom(truth: Line, reference: int, controllerUs: int)
    ensures var l, k := From(truth, reference), (controllerUs - reference) as real;
            l.offset + Times(l.drift, k) == truth.offset + Times(truth.drift, controllerUs as real)
  {
    AddProduct(truth.drift, reference as real, (controllerUs - reference) as real);
  }

  /** The probe met equal path delays, exact stamps and an even mid-point. */
  ghost predicate Even(p: Probe, truth: Line) {
    (p.t1 + p.t4) % 2 == 0 && exists delay: real :: StampedBy(p, truth, delay, delay, 0.0, 0.0)
  }

  lemma EvenIsExact(p: Probe, truth: Line)
    requires Even(p, truth)
    ensures OffsetError(p, truth) == 0.0
  {
    var delay: real :| StampedBy(p, truth, delay, delay, 0.0, 0.0);
    OffsetErrorIs(p, truth, delay, delay, 0.0, 0.0);
    assert Times(1.0 + truth.drift, 0.0) == 0.0;
  }

  lemma EvenOnLine(c: ClockSync, truth: Line)
    requires c.Valid() && c.samples != []
    requires forall p :: p in c.history && Acceptable(p, c.maxRtt) ==> Even(p, truth)
    ensures OnLine(c.samples, From(truth, c.samples[0].controllerUs))
  {
    var s := c.samples;
    var l := From(truth, s[0].controllerUs);
    forall i | 0 <= i < |s|
      ensures s[i].offsetUs == l.offset + l.drift * (s[i].controllerUs - s[0].controllerUs) as real
    {
      var p := KeptFrom(c.history, c.maxRtt, c.maxSamples, s[i]);
      EvenIsExact(p, truth);
      LineFrom(truth, s[0].controllerUs, s[i].controllerUs);
    }
  }

  /** A device on an affine clock, probed in any number over paths of equal delay: as soon as the samples kept span a
      positive time, every controller instant is converted to the device's own reading, rounded. */
  lemma ProbesRecover(c: ClockSync, truth: Line, controllerUs: int)
    requires c.Valid() && c.samples != []
    requires c.samples[|c.samples| - 1].controllerUs > c.samples[0].controllerUs
    requires forall p :: p in c.history && Acceptable(p, c.maxRtt) ==> Even(p, truth)
    ensures ToDevice(Estimate(c.line, c.reference.value), controllerUs)
         == Round(Reads(truth, controllerUs as real))
  {
    var reference := c.samples[0].controllerUs;
    EvenOnLine(c, truth);
    EstimateRecovers(c.samples, From(truth, reference));
    LineFrom(truth, reference, controllerUs);
  }

  /** The probe's paths differ by at most `skew`, its stamps are off by at most `grain`. */
  ghost predicate Fair(p: Probe, truth: Line, skew: real, grain: real) {
    exists d1: real, d2: real, e2: real, e3: real :: StampedBy(p, truth, d1, d2, e2, e3)
      && -skew <= d1 - d2 <= skew && -grain <= e2 <= grain && -grain <= e3 <= grain
  }

  /** What a fair probe's offset may be off by. */
  function Slack(truth: Line, skew: real, grain: real): real {
    Times(N.Abs(1.0 + truth.drift), skew / 2.0) + N.Abs(truth.drift) / 2.0 + grain
  }

  lemma TimesWithin(a: real, b: real, bound: real)
    requires -bound <= b <= bound
    ensures -Times(N.Abs(a), bound) <= Times(a, b) <= Times(N.Abs(a), bound)
  {
    var m := N.Abs(a);
    NonNegativeTimes(m, bound - b);
    NonNegativeTimes(m, bound + b);
    AddProduct(m, bound, -b);
    AddProduct(m, bound, b);
    assert m * (-b) == -(m * b);
    assert Times(a, b) == m * b || Times(a, b) == -(m * b);
  }

  lemma FairWithin(p: Probe, truth: Line, skew: real, grain: real)
    requires Fair(p, truth, skew, grain)
    ensures -Slack(truth, skew, grain) <= OffsetError(p, truth) <= Slack(truth, skew, grain)
  {
    var d1: real, d2: real, e2: real, e3: real :| StampedBy(p, truth, d1, d2, e2, e3)
      && -skew <= d1 - d2 <= skew && -grain <= e2 <= grain && -grain <= e3 <= grain;
    OffsetErrorIs(p, truth, d1, d2, e2, e3);
    TimesWithin(1.0 + truth.drift, (d1 - d2) / 2.0, skew / 2.0);
  }

  lemma FairResiduals(c: ClockSync, truth: Line, skew: real, grain: real, i: nat)
    requires c.Valid() && i < |c.samples|
    requires forall p :: p in c.history && Acceptable(p, c.maxRtt) ==> Fair(p, truth, skew, grain)
    ensures var s, slack := c.samples, Slack(truth, skew, grain);
            -slack <= Residual(Xs(s), Ys(s), From(truth, s[0].controllerUs))(i) <= slack
  {
    var s := c.samples;
    var p := KeptFrom(c.history, c.maxRtt, c.maxSamples, s[i]);
    FairWithin(p, truth, skew, grain);
    LineFrom(truth, s[0].controllerUs, s[i].controllerUs);
  }

  lemma WeightedWithin(a: real, b: real, u: real, v: real, h: real)
    requires -h <= a <= h && -h <= b <= h
    ensures -Times(h, N.Abs(u) + N.Abs(v)) <= Times(a, v) + Times(b, u) <= Times(h, N.Abs(u) + N.Abs(v))
  {
    TimesWithin(v, a, h);
    TimesWithin(u, b, h);
    AddProduct(h, N.Abs(u), N.Abs(v));
    Commutes(v, a);
    Commutes(u, b);
    Commutes(N.Abs(u), h);
    Commutes(N.Abs(v), h);
  }

  lemma Commutes(a: real, b: real)
    ensures Times(a, b) == Times(b, a)
  {
  }

  /** A line within h of zero at p and at q is within h between them, and grows at most in proportion outside. */
  lemma LineBetween(a: real, b: real, p: real, q: real, h: real, c: real)
    requires p < q && -h <= a + Times(b, p) <= h && -h <= a + Times(b, q) <= h
    ensures N.Abs(a + Times(b, c)) <= Times(h, (N.Abs(c - p) + N.Abs(q - c)) / (q - p))
  {
    LineThrough(a, b, p, q, c);
    WeightedWithin(a + Times(b, p), a + Times(b, q), c - p, q - c, h);
    QuotientWithin(a + Times(b, c), q - p, h, N.Abs(c - p) + N.Abs(q - c));
  }

  lemma LineThrough(a: real, b: real, p: real, q: real, c: real)
    ensures Times(a + Times(b, c), q - p) == Times(a + Times(b, p), q - c) + Times(a + Times(b, q), c - p)
  {
    AddProduct(q - p, a, b * c);
    AddProduct(q - c, a, b * p);
    AddProduct(c - p, a, b * q);
    AddProduct(a, q - c, c - p);
    AddProduct(b * c, q, -p);
    AddProduct(b * p, q, -c);
    AddProduct(b * q, c, -p);
  }

  lemma QuotientWithin(g: real, span: real, h: real, sides: real)
    requires span > 0.0 && -Times(h, sides) <= Times(g, span) <= Times(h, sides)
    ensures N.Abs(g) <= Times(h, sides / span)
  {
    var q := h * (sides / span);
    assert q * span == h * sides by {
      assert sides / span * span == sides;
      assert q * span == h * (sides / span * span);
    }
    if g > q {
      PositiveProduct(g - q, span);
    } else if g < -q {
      PositiveProduct(-q - g, span);
    }
  }

  /** How the fitted line stands to the device's own clock at any controller instant. */
  lemma FairLine(c: ClockSync, truth: Line, skew: real, grain: real, root: nat, at: real)
    requires c.Valid() && c.samples != [] && |c.samples| <= root * root && skew >= 0.0 && grain >= 0.0
    requires c.samples[|c.samples| - 1].controllerUs > c.samples[0].controllerUs
    requires forall p :: p in c.history && Acceptable(p, c.maxRtt) ==> Fair(p, truth, skew, grain)
    ensures var s, l := c.samples, From(truth, c.samples[0].controllerUs);
            var span := (s[|s| - 1].controllerUs - s[0].controllerUs) as real;
            N.Abs((c.line.offset - l.offset) + Times(c.line.drift - l.drift, at))
            <= Times(Times(root as real, Slack(truth, skew, grain)), (N.Abs(at) + N.Abs(span - at)) / span)
  {
    var s, slack := c.samples, Slack(truth, skew, grain);
    var x, y, l, n := Xs(s), Ys(s), From(truth, s[0].controllerUs), |s|;
    NonNegativeTimes(N.Abs(1.0 + truth.drift), skew / 2.0);
    forall i | 0 <= i < n ensures -slack <= Residual(x, y, l)(i) <= slack {
      FairResiduals(c, truth, skew, grain, i);
    }
    var h, span := Times(root as real, slack), x(n - 1);
    FitNear(x, y, n, l, slack, root, 0);
    FitNear(x, y, n, l, slack, root, n - 1);
    GapAgain(x, n, c.line, l, 0);
    GapAgain(x, n, c.line, l, n - 1);
    LineBetween(c.line.offset - l.offset, c.line.drift - l.drift, 0.0, span, h, at);
    assert at - 0.0 == at;
  }

  lemma GapAgain(x: Series, n: nat, fit: Line, l: Line, k: nat)
    requires n > 0
    ensures Gap(x, n, fit, l)(k) == (fit.offset - l.offset) + Times(fit.drift - l.drift, x(k))
  {
    GapIs(x, n, fit, l, k);
    Subtracted(fit.drift, l.drift, x(k));
  }

  lemma ConversionNear(e: Estimate, truth: Line, controllerUs: int, bound: real)
    requires var l, at := From(truth, e.reference), (controllerUs - e.reference) as real;
             N.Abs((e.line.offset - l.offset) + Times(e.line.drift - l.drift, at)) <= bound
    ensures N.Abs(ToDevice(e, controllerUs) as real - Reads(truth, controllerUs as real)) <= bound + 0.5
  {
    var l, at := From(truth, e.reference), (controllerUs - e.reference) as real;
    RoundNear(controllerUs as real + OffsetAt(e, controllerUs));
    LineFrom(truth, e.reference, controllerUs);
    Subtracted(e.line.drift, l.drift, at);
  }

  lemma Subtracted(a: real, b: real, k: real)
    ensures Times(a - b, k) == Times(a, k) - Times(b, k)
  {
    AddProduct(k, a, -b);
    assert k * (-b) == -(b * k);
  }

  /** The distances of an instant from the first and the last sample kept, in spans. */
  function Sides(s: seq<Sample>, controllerUs: int): (sides: real)
    requires |s| > 0 && s[|s| - 1].controllerUs > s[0].controllerUs
    ensures s[0].controllerUs <= controllerUs <= s[|s| - 1].controllerUs ==> sides == 1.0
  {
    var first, last := s[0].controllerUs, s[|s| - 1].controllerUs;
    (N.Abs((controllerUs - first) as real) + N.Abs((last - controllerUs) as real)) / (last - first) as real
  }

  /** A device on an affine clock, probed over paths that differ by at most `skew` with stamps off by at most `grain`.
      Between the first and the last sample kept, conversions err by at most root * slack + 1/2 microseconds; outside
      them the slack counts more, in proportion to how far outside. */
  lemma ProbesNear(c: ClockSync, truth: Line, skew: real, grain: real, root: nat, controllerUs: int)
    requires c.Valid() && c.samples != [] && |c.samples| <= root * root && skew >= 0.0 && grain >= 0.0
    requires c.samples[|c.samples| - 1].controllerUs > c.samples[0].controllerUs
    requires forall p :: p in c.history && Acceptable(p, c.maxRtt) ==> Fair(p, truth, skew, grain)
    ensures N.Abs(ToDevice(Estimate(c.line, c.reference.value), controllerUs) as real
                  - Reads(truth, controllerUs as real))
         <= Times(Times(root as real, Slack(truth, skew, grain)), Sides(c.samples, controllerUs)) + 0.5
  {
    var s := c.samples;
    var at, span := (controllerUs - s[0].controllerUs) as real, (s[|s| - 1].controllerUs - s[0].controllerUs) as real;
    FairLine(c, truth, skew, grain, root, at);
    assert span - at == (s[|s| - 1].controllerUs - controllerUs) as real;
    ConversionNear(Estimate(c.line, c.reference.value), truth, controllerUs,
                   Times(Times(root as real, Slack(truth, skew, grain)), Sides(s, controllerUs)));
  }

  /** Of a device whose clock runs a constant `theta` ahead, no sample kept is further off than half the longest round
      trip accepted. */
  lemma KeptWithinMaxRtt(c: ClockSync, theta: int, i: nat)
    requires c.Valid() && i < |c.samples|
    requires forall p :: p in c.history && Acceptable(p, c.maxRtt) ==>
                           exists d1: int, d2: int :: ProbeOf(p, theta, d1, d2)
    ensures -(c.maxRtt as real) / 2.0 <= c.samples[i].offsetUs - theta as real <= c.maxRtt as real / 2.0
  {
    var p := KeptFrom(c.history, c.maxRtt, c.maxSamples, c.samples[i]);
    var d1: int, d2: int :| ProbeOf(p, theta, d1, d2);
    OffsetWithinHalfRtt(p, theta, d1, d2);
  }
}
