/** The speaker output chain (controller/em_eq.py): EQ, then bass guard, then gain, then limiter,
    streamed chunk by chunk or applied at once. */
module OutputChain {
  import opened Chunks
  import opened Options
  import opened Numerics
  import opened Biquads
  import opened Pcm
  import L = PeakLimiter
  import LL = LimiterLaws
  import G = BassGuard

  /** Filter design, taken as given: band gains, loudness and subsonic switches to sections. */
  type Design = (seq<real>, bool, bool) -> seq<Biquad>

  const NUM_BANDS: nat := 8

  /** `bands or DEFAULT_BANDS`, padded with zeros to eight. */
  function PadBands(bands: Option<seq<real>>): seq<real> {
    var given := if bands.Some? then bands.value else seq(NUM_BANDS, i => 0.0);
    if |given| < NUM_BANDS then given + seq(NUM_BANDS - |given|, i => 0.0) else given
  }

  predicate AllZero(bands: seq<real>) {
    forall i :: 0 <= i < |bands| ==> bands[i] == 0.0
  }

  /** What the cookbook gives at 0 dB, and how many sections it always gives. */
  ghost predicate ValidDesign(design: Design) {
    && (forall bands :: AllZero(bands) ==> forall q :: q in design(bands, false, false) ==> IsUnity(q))
    && (forall bands, loudness, subsonic ::
          |design(bands, loudness, subsonic)| == SectionCount(loudness, subsonic))
  }

  function SectionCount(loudness: bool, subsonic: bool): nat {
    NUM_BANDS + (if subsonic then 1 else 0) + (if loudness then 2 else 0)
  }

  // ---- The chain as a value

  datatype ChainSettings = ChainSettings(
    sos: Option<seq<Biquad>>, gainDb: real, guard: Option<G.GuardSettings>, limiter: Option<L.Settings>)

  datatype ChainCarry = ChainCarry(zi: seq<Delay>, guard: Option<G.GuardCarry>, limiter: Option<L.Carry>)

  ghost predicate Fits(c: ChainSettings, s: ChainCarry) {
    && (c.sos.Some? ==> |s.zi| == |c.sos.value|)
    && s.guard.Some? == c.guard.Some? && s.limiter.Some? == c.limiter.Some?
    && (c.guard.Some? ==> G.ValidGuard(c.guard.value, s.guard.value))
    && (c.limiter.Some? ==> L.ValidSettings(c.limiter.value) && L.ValidCarry(c.limiter.value, s.limiter.value))
  }

  function EqStage(c: ChainSettings, s: ChainCarry, x: seq<real>): (r: (seq<real>, ChainCarry))
    requires c.sos.Some? ==> |s.zi| == |c.sos.value|
    ensures |r.0| == |x|
  {
    if c.sos.None? then (x, s)
    else
      var (y, z) := SosFilt(c.sos.value, s.zi, x);
      (y, s.(zi := z))
  }

  ghost function GuardStage(db: Scale, c: ChainSettings, s: ChainCarry, x: seq<real>): (r: (seq<real>, ChainCarry))
    requires Fits(c, s)
    ensures |r.0| == |x|
  {
    if c.guard.None? then (x, s)
    else
      var (y, g) := G.GuardProcess(db, c.guard.value, s.guard.value, x);
      (y, s.(guard := Some(g)))
  }

  function GainStage(db: Scale, c: ChainSettings, x: seq<real>): (y: seq<real>)
    ensures |y| == |x|
  {
    if c.gainDb == 0.0 then x else MapAll(v => db.Amplify(v, c.gainDb), x)
  }

  ghost function LimiterStage(db: Scale, c: ChainSettings, s: ChainCarry, x: seq<real>): (r: (seq<real>, ChainCarry))
    requires Fits(c, s)
  {
    if c.limiter.None? then (x, s)
    else
      var (y, l) := L.Process(db, c.limiter.value, s.limiter.value, x);
      (y, s.(limiter := Some(l)))
  }

  /** Float samples through the four stages. */
  ghost function Samples(db: Scale, c: ChainSettings, s: ChainCarry, x: seq<real>): (r: (seq<real>, ChainCarry))
    requires Fits(c, s)
  {
    var (x1, s1) := EqStage(c, s, x);
    var (x2, s2) := GuardStage(db, c, s1, x1);
    LimiterStage(db, c, s2, GainStage(db, c, x2))
  }

  function ToPcm(x: seq<real>): (pcm: seq<Byte>)
    ensures |pcm| == 2 * |x|
  {
    Encode(QuantiseAll(x))
  }

  predicate Passthrough(c: ChainSettings) {
    c.sos.None? && c.limiter.None? && c.guard.None? && c.gainDb == 0.0
  }

  /** One streamed chunk; None is the ValueError for a buffer that is not whole samples. */
  ghost function StreamStep(db: Scale, c: ChainSettings, s: ChainCarry, pcm: seq<Byte>)
    : (r: (Option<seq<Byte>>, ChainCarry))
    requires Fits(c, s)
  {
    if |pcm| < 2 || Passthrough(c) then (Some(pcm), s)
    else if |pcm| % 2 != 0 then (None, s)
    else
      var (y, s') := Samples(db, c, s, Floats(pcm));
      (Some(ToPcm(y)), s')
  }

  /** End of stream: the limiter's held tail. */
  ghost function StreamEnd(db: Scale, c: ChainSettings, s: ChainCarry): (r: (seq<Byte>, ChainCarry))
    requires Fits(c, s)
  {
    if c.limiter.None? then ([], s)
    else
      var (y, l) := L.Flush(db, s.limiter.value);
      (ToPcm(y), s.(limiter := Some(l)))
  }

  /** What a caller asks of the chain. */
  datatype Request = Request(bands: Option<seq<real>>, loudness: bool, subsonic: bool, gainDb: real,
                             guard: Option<G.GuardSettings>, limiter: Option<L.Settings>)

  predicate FlatCurve(r: Request) {
    !r.loudness && !r.subsonic && AllZero(PadBands(r.bands))
  }

  /** The settings StreamingEQ is built with. */
  function StreamSettings(design: Design, r: Request): ChainSettings {
    ChainSettings(if FlatCurve(r) then None else Some(design(PadBands(r.bands), r.loudness, r.subsonic)),
                  r.gainDb, r.guard, r.limiter)
  }

  /** One-shot `apply`: it also filters a flat curve when a gain is asked for, and never touches the
      guard or the limiter for a buffer of less than one sample. */
  ghost function ApplyOnce(db: Scale, design: Design, r: Request, g: Option<G.GuardCarry>, l: Option<L.Carry>,
                           pcm: seq<Byte>): (out: (Option<seq<Byte>>, Option<G.GuardCarry>, Option<L.Carry>))
    requires Fits(ChainSettings(None, r.gainDb, r.guard, r.limiter), ChainCarry([], g, l))
  {
    if |pcm| < 2 then (Some(pcm), g, l)
    else if FlatCurve(r) && r.gainDb == 0.0 && r.limiter.None? && r.guard.None? then (Some(pcm), g, l)
    else if |pcm| % 2 != 0 then (None, g, l)
    else
      var sos := if FlatCurve(r) && r.gainDb == 0.0 then None
                 else Some(design(PadBands(r.bands), r.loudness, r.subsonic));
      var c := ChainSettings(sos, r.gainDb, r.guard, r.limiter);
      var s := ChainCarry(if sos.None? then [] else Silent(|sos.value|), g, l);
      var (y, s1) := Samples(db, c, s, Floats(pcm));
      if r.limiter.None? then (Some(ToPcm(y)), s1.guard, s1.limiter)
      else
        var (tail, l1) := L.Flush(db, s1.limiter.value);
        (Some(ToPcm(y + tail)), s1.guard, Some(l1))
  }

  // ---- Chunk invariance

  lemma FitsKept(db: Scale, c: ChainSettings, s: ChainCarry, x: seq<real>)
    requires Fits(c, s)
    ensures Fits(c, Samples(db, c, s, x).1)
  {
    var (x1, s1) := EqStage(c, s, x);
    var (x2, s2) := GuardStage(db, c, s1, x1);
    if c.limiter.Some? {
      LL.CarryStaysValid(db, c.limiter.value, s.limiter.value, GainStage(db, c, x2));
    }
  }

  /** Feeding a then b through the whole chain is feeding a + b. */
  lemma SamplesSplit(db: Scale, c: ChainSettings, s: ChainCarry, a: seq<real>, b: seq<real>)
    requires Fits(c, s)
    ensures Fits(c, Samples(db, c, s, a).1)
    ensures var (out1, s1) := Samples(db, c, s, a);
            var (out2, s2) := Samples(db, c, s1, b);
            Samples(db, c, s, a + b) == (out1 + out2, s2)
  {
    FitsKept(db, c, s, a);
    var (a1, sa1) := EqStage(c, s, a);
    var (a2, sa2) := GuardStage(db, c, sa1, a1);
    var a3 := GainStage(db, c, a2);
    var s1 := LimiterStage(db, c, sa2, a3).1;
    var (b1, sb1) := EqStage(c, s1, b);
    var (b2, sb2) := GuardStage(db, c, sb1, b1);
    var b3 := GainStage(db, c, b2);
    if c.sos.Some? {
      SosFiltSplit(c.sos.value, s.zi, a, b);
    }
    var (w1, sw1) := EqStage(c, s, a + b);
    assert w1 == a1 + b1 && sw1.zi == sb1.zi;
    if c.guard.Some? {
      G.GuardSplit(db, c.guard.value, s.guard.value, a1, b1);
    }
    var (w2, sw2) := GuardStage(db, c, sw1, w1);
    assert w2 == a2 + b2 && sw2.guard == sb2.guard;
    MapAllConcat(v => db.Amplify(v, c.gainDb), a2, b2);
    assert GainStage(db, c, w2) == a3 + b3;
    if c.limiter.Some? {
      LL.ProcessSplit(db, c.limiter.value, s.limiter.value, a3, b3);
    }
  }

  lemma ToPcmSplit(a: seq<real>, b: seq<real>)
    ensures ToPcm(a + b) == ToPcm(a) + ToPcm(b)
  {
    assert QuantiseAll(a + b) == QuantiseAll(a) + QuantiseAll(b);
    EncodeSplit(QuantiseAll(a), QuantiseAll(b));
  }

  /** Every chunk is a whole number of samples. */
  ghost predicate WholeSamples(chunks: seq<seq<Byte>>) {
    forall i :: 0 <= i < |chunks| ==> |chunks[i]| % 2 == 0
  }

  /** Streaming the chunks in order: the bytes returned and the state left. */
  ghost function StreamAll(db: Scale, c: ChainSettings, s: ChainCarry, chunks: seq<seq<Byte>>)
    : (r: (seq<Byte>, ChainCarry))
    requires Fits(c, s) && WholeSamples(chunks)
    decreases |chunks|
  {
    if |chunks| == 0 then ([], s)
    else
      StepKeepsFits(db, c, s, chunks[0]);
      var (out, s1) := StreamStep(db, c, s, chunks[0]);
      var (rest, s2) := StreamAll(db, c, s1, chunks[1..]);
      (out.value + rest, s2)
  }

  lemma StepKeepsFits(db: Scale, c: ChainSettings, s: ChainCarry, pcm: seq<Byte>)
    requires Fits(c, s)
    ensures Fits(c, StreamStep(db, c, s, pcm).1)
    ensures |pcm| % 2 == 0 ==> StreamStep(db, c, s, pcm).0.Some?
  {
    if |pcm| >= 2 && |pcm| % 2 == 0 {
      FitsKept(db, c, s, Floats(pcm));
    }
  }

  lemma {:induction false} JoinedEven(chunks: seq<seq<Byte>>)
    requires WholeSamples(chunks)
    ensures |Joined(chunks)| % 2 == 0
    decreases |chunks|
  {
    if |chunks| > 0 {
      JoinedEven(chunks[1..]);
    }
  }

  lemma SamplesOfNothing(db: Scale, c: ChainSettings, s: ChainCarry)
    requires Fits(c, s)
    ensures Samples(db, c, s, []) == ([], s)
  {
    assert MapAll(v => db.Amplify(v, c.gainDb), []) == [];
  }

  function Floats(pcm: seq<Byte>): (x: seq<real>)
    requires |pcm| % 2 == 0
  {
    ToReals(Decode(pcm))
  }

  lemma FloatsSplit(a: seq<Byte>, b: seq<Byte>)
    requires |a| % 2 == 0 && |b| % 2 == 0
    ensures Floats(a + b) == Floats(a) + Floats(b)
  {
    DecodeSplit(a, b);
  }

  /** A chain that is not a passthrough runs the samples of every chunk, the empty chunk included. */
  lemma StepIsRun(db: Scale, c: ChainSettings, s: ChainCarry, pcm: seq<Byte>)
    requires Fits(c, s) && |pcm| % 2 == 0 && !Passthrough(c)
    ensures var (y, s') := Samples(db, c, s, Floats(pcm));
            StreamStep(db, c, s, pcm) == (Some(ToPcm(y)), s')
  {
    if |pcm| == 0 {
      assert Floats(pcm) == [];
      SamplesOfNothing(db, c, s);
    }
  }

  lemma SamplesJoin(db: Scale, c: ChainSettings, s: ChainCarry, a: seq<real>, b: seq<real>)
    requires Fits(c, s)
    ensures Fits(c, Samples(db, c, s, a).1)
    ensures var (out1, s1) := Samples(db, c, s, a);
            var (out2, s2) := Samples(db, c, s1, b);
            var (out, s') := Samples(db, c, s, a + b);
            ToPcm(out) == ToPcm(out1) + ToPcm(out2) && s' == s2
  {
    SamplesSplit(db, c, s, a, b);
    var (out1, s1) := Samples(db, c, s, a);
    ToPcmSplit(out1, Samples(db, c, s1, b).0);
  }

  /** A chain that is not a passthrough treats the stream as one run of samples. */
  lemma {:induction false} StreamIsOneRun(db: Scale, c: ChainSettings, s: ChainCarry, chunks: seq<seq<Byte>>)
    requires Fits(c, s) && WholeSamples(chunks) && !Passthrough(c)
    ensures |Joined(chunks)| % 2 == 0
    ensures var (y, s') := Samples(db, c, s, Floats(Joined(chunks)));
            StreamAll(db, c, s, chunks) == (ToPcm(y), s')
    decreases |chunks|
  {
    JoinedEven(chunks);
    if |chunks| == 0 {
      SamplesOfNothing(db, c, s);
      assert Floats([]) == [];
    } else {
      var head, tail := chunks[0], Joined(chunks[1..]);
      StepKeepsFits(db, c, s, head);
      StepIsRun(db, c, s, head);
      StreamIsOneRun(db, c, StreamStep(db, c, s, head).1, chunks[1..]);
      FloatsSplit(head, tail);
      SamplesJoin(db, c, s, Floats(head), Floats(tail));
    }
  }

  lemma {:induction false} PassthroughAll(db: Scale, c: ChainSettings, s: ChainCarry, chunks: seq<seq<Byte>>)
    requires Fits(c, s) && WholeSamples(chunks) && Passthrough(c)
    ensures StreamAll(db, c, s, chunks) == (Joined(chunks), s)
    decreases |chunks|
  {
    if |chunks| > 0 {
      PassthroughAll(db, c, s, chunks[1..]);
    }
  }

  /** The state a fresh stream starts from, its guard and limiter given. */
  function FreshCarry(c: ChainSettings, g: Option<G.GuardCarry>, l: Option<L.Carry>): ChainCarry {
    ChainCarry(if c.sos.None? then [] else Silent(|c.sos.value|), g, l)
  }

  /** Streaming then flushing, as one result. */
  ghost function Streamed(db: Scale, c: ChainSettings, s: ChainCarry, chunks: seq<seq<Byte>>)
    : (r: (seq<Byte>, ChainCarry))
    requires Fits(c, s) && WholeSamples(chunks)
  {
    StreamFits(db, c, s, chunks);
    var (out, s1) := StreamAll(db, c, s, chunks);
    var (tail, s2) := StreamEnd(db, c, s1);
    (out + tail, s2)
  }

  lemma {:induction false} StreamFits(db: Scale, c: ChainSettings, s: ChainCarry, chunks: seq<seq<Byte>>)
    requires Fits(c, s) && WholeSamples(chunks)
    ensures Fits(c, StreamAll(db, c, s, chunks).1)
    decreases |chunks|
  {
    if |chunks| > 0 {
      StepKeepsFits(db, c, s, chunks[0]);
      StreamFits(db, c, StreamStep(db, c, s, chunks[0]).1, chunks[1..]);
    }
  }

  // ---- Streaming is the one-shot

  /** A flat curve under a gain: apply runs unity sections where the stream runs none. */
  lemma UnityCurve(db: Scale, c: ChainSettings, s: ChainCarry, sos: seq<Biquad>, x: seq<real>)
    requires Fits(c, s) && c.sos.None?
    requires forall i :: 0 <= i < |sos| ==> IsUnity(sos[i])
    ensures Fits(c.(sos := Some(sos)), s.(zi := Silent(|sos|)))
    ensures var (y, s1) := Samples(db, c, s, x);
            var (y', s1') := Samples(db, c.(sos := Some(sos)), s.(zi := Silent(|sos|)), x);
            y' == y && s1'.guard == s1.guard && s1'.limiter == s1.limiter
  {
    UnityPasses(sos, x);
  }

  /** What one-shot `apply` computes on a buffer it processes, in terms of the stream's settings. */
  lemma ApplyIsOneRun(db: Scale, design: Design, r: Request, g: Option<G.GuardCarry>, l: Option<L.Carry>,
                      pcm: seq<Byte>)
    requires ValidDesign(design) && |pcm| >= 2 && |pcm| % 2 == 0
    requires Fits(StreamSettings(design, r), FreshCarry(StreamSettings(design, r), g, l))
    requires !Passthrough(StreamSettings(design, r))
    ensures var c := StreamSettings(design, r);
            var (y, s1) := Samples(db, c, FreshCarry(c, g, l), Floats(pcm));
            ApplyOnce(db, design, r, g, l, pcm) ==
            if c.limiter.None? then (Some(ToPcm(y)), s1.guard, s1.limiter)
            else var (tail, l1) := L.Flush(db, s1.limiter.value); (Some(ToPcm(y + tail)), s1.guard, Some(l1))
  {
    var c := StreamSettings(design, r);
    if FlatCurve(r) && r.gainDb != 0.0 {
      var sos := design(PadBands(r.bands), r.loudness, r.subsonic);
      UnityCurve(db, c, FreshCarry(c, g, l), sos, Floats(pcm));
      assert FreshCarry(c, g, l).(zi := Silent(|sos|)) == ChainCarry(Silent(|sos|), g, l);
    }
  }

  /** For a non-empty stream: whatever the chunking, the streamed bytes and the flushed tail are the
      one-shot bytes, and the guard and limiter end in the one-shot states. */
  lemma StreamIsApply(db: Scale, design: Design, r: Request, g: Option<G.GuardCarry>, l: Option<L.Carry>,
                      chunks: seq<seq<Byte>>)
    requires ValidDesign(design) && WholeSamples(chunks) && |Joined(chunks)| > 0
    requires Fits(StreamSettings(design, r), FreshCarry(StreamSettings(design, r), g, l))
    ensures var c := StreamSettings(design, r);
            var (out, s) := Streamed(db, c, FreshCarry(c, g, l), chunks);
            ApplyOnce(db, design, r, g, l, Joined(chunks)) == (Some(out), s.guard, s.limiter)
  {
    var c := StreamSettings(design, r);
    var s := FreshCarry(c, g, l);
    var pcm := Joined(chunks);
    JoinedEven(chunks);
    if Passthrough(c) {
      PassthroughAll(db, c, s, chunks);
      assert pcm + [] == pcm;
    } else {
      StreamIsOneRun(db, c, s, chunks);
      ApplyIsOneRun(db, design, r, g, l, pcm);
      var (y, s1) := Samples(db, c, s, Floats(pcm));
      if c.limiter.Some? {
        ToPcmSplit(y, L.Flush(db, s1.limiter.value).0);
      } else {
        assert ToPcm(y) + [] == ToPcm(y);
      }
    }
  }

  /** The doc string's "bit-identical to apply() over the concatenation" holds for every chunking
      except one: nothing streamed through a limiter that holds a look-ahead. There `apply` returns
      nothing and leaves the limiter primed, while flushing the stream emits the priming silence. */
  lemma StreamIsApplyExactly(db: Scale, design: Design, r: Request, g: Option<G.GuardCarry>, l: Option<L.Carry>,
                             chunks: seq<seq<Byte>>)
    requires ValidDesign(design) && WholeSamples(chunks)
    requires Fits(StreamSettings(design, r), FreshCarry(StreamSettings(design, r), g, l))
    requires r.limiter.Some? ==> l == Some(L.Fresh(r.limiter.value))
    ensures var c := StreamSettings(design, r);
            var (out, s) := Streamed(db, c, FreshCarry(c, g, l), chunks);
            ApplyOnce(db, design, r, g, l, Joined(chunks)) == (Some(out), s.guard, s.limiter)
            <==> |Joined(chunks)| > 0 || r.limiter.None? || r.limiter.value.lookahead == 1
  {
    var c := StreamSettings(design, r);
    var s := FreshCarry(c, g, l);
    if |Joined(chunks)| > 0 {
      StreamIsApply(db, design, r, g, l, chunks);
    } else {
      NothingStreamed(db, c, s, chunks);
      var tail := StreamEnd(db, c, s).0;
      var out := Streamed(db, c, s, chunks).0;
      assert out == [] + tail == tail;
      assert Joined(chunks) == [];
      if r.limiter.Some? {
        assert |tail| == 2 * (r.limiter.value.lookahead - 1);
        assert Some(tail) == Some([]) <==> |tail| == 0;
      }
    }
  }

  lemma NothingStreamed(db: Scale, c: ChainSettings, s: ChainCarry, chunks: seq<seq<Byte>>)
    requires Fits(c, s) && WholeSamples(chunks) && |Joined(chunks)| == 0
    ensures StreamAll(db, c, s, chunks) == ([], s)
  {
    if Passthrough(c) {
      PassthroughAll(db, c, s, chunks);
    } else {
      StreamIsOneRun(db, c, s, chunks);
      assert Floats([]) == [];
      SamplesOfNothing(db, c, s);
    }
  }

  // ---- A bypassed limiter

  lemma {:induction false} EncodeZeros(s: seq<int>)
    requires forall i :: 0 <= i < |s| ==> s[i] == 0
    ensures Encode(s) == Silence(2 * |s|)
  {
    if |s| > 0 {
      EncodeZeros(s[1..]);
      assert EncodeOne(0) == [0, 0];
    }
  }

  lemma SilenceToPcm(x: seq<real>)
    requires forall i :: 0 <= i < |x| ==> x[i] == 0.0
    ensures ToPcm(x) == Silence(2 * |x|)
  {
    EncodeZeros(QuantiseAll(x));
  }

  lemma FloatsToPcm(pcm: seq<Byte>)
    requires |pcm| % 2 == 0
    ensures ToPcm(Floats(pcm)) == pcm
  {
    var s := Decode(pcm);
    forall i | 0 <= i < |s| ensures Quantise(s[i] as real) == s[i] {
      QuantiseExact(s[i]);
    }
    assert QuantiseAll(ToReals(s)) == s;
    EncodeDecode(pcm);
  }

  /** With nothing on but a bypassed limiter, any stream comes out bit for bit, behind the look-ahead's silence. */
  lemma BypassIsDelay(db: Scale, lim: L.Settings, chunks: seq<seq<Byte>>)
    requires IsDecibel(db) && L.ValidSettings(lim) && !lim.enabled && WholeSamples(chunks)
    ensures var c := ChainSettings(None, 0.0, None, Some(lim));
            var s := ChainCarry([], None, Some(L.Fresh(lim)));
            Streamed(db, c, s, chunks).0 == Silence(2 * (lim.lookahead - 1)) + Joined(chunks)
  {
    var c := ChainSettings(None, 0.0, None, Some(lim));
    var s := ChainCarry([], None, Some(L.Fresh(lim)));
    StreamIsOneRun(db, c, s, chunks);
    var x := Floats(Joined(chunks));
    var (y, l) := L.Process(db, lim, L.Fresh(lim), x);
    assert Samples(db, c, s, x) == (y, s.(limiter := Some(l)));
    ToPcmSplit(y, L.Flush(db, l).0);
    LL.BypassDelays(db, lim, x);
    assert LL.Finished(db, lim, L.Fresh(lim), x) == y + L.Flush(db, l).0;
    ToPcmSplit(L.Fresh(lim).tail, x);
    SilenceToPcm(L.Fresh(lim).tail);
    FloatsToPcm(Joined(chunks));
  }

  // ---- What comes out

  /** Every sample times a factor. */
  function Scaled(x: seq<real>, factor: real): (y: seq<real>)
    ensures |y| == |x|
    ensures forall i :: 0 <= i < |x| ==> y[i] == x[i] * factor
  {
    seq(|x|, i requires 0 <= i < |x| => x[i] * factor)
  }

  /** The signal as the limiter meets it: through the curve, through the guard, then times 10^(gain/20). */
  ghost function Driven(db: Scale, c: ChainSettings, s: ChainCarry, x: seq<real>): (y: seq<real>)
    requires Fits(c, s)
    ensures |y| == |x|
  {
    var filtered := if c.sos.None? then x else SosFilt(c.sos.value, s.zi, x).0;
    var guarded := if c.guard.None? then filtered
                   else G.GuardProcess(db, c.guard.value, s.guard.value, filtered).0;
    Scaled(guarded, db.Gain(c.gainDb))
  }

  /** The samples of a whole stream. */
  ghost function Input(chunks: seq<seq<Byte>>): (x: seq<real>)
    requires WholeSamples(chunks)
    ensures |Joined(chunks)| % 2 == 0 && |Joined(chunks)| == 2 * |x| && x == Floats(Joined(chunks))
  {
    JoinedEven(chunks);
    Floats(Joined(chunks))
  }

  lemma GainAt(db: Scale, c: ChainSettings, x: seq<real>, i: nat)
    requires IsDecibel(db) && i < |x|
    ensures GainStage(db, c, x)[i] == x[i] * db.Gain(c.gainDb)
  {
    if c.gainDb == 0.0 {
      SameProduct(x[i], x[i], db.Gain(c.gainDb), 1.0);
    } else {
      AmplifyIsProduct(db, x[i], c.gainDb);
    }
  }

  lemma GainIsProduct(db: Scale, c: ChainSettings, x: seq<real>)
    requires IsDecibel(db)
    ensures GainStage(db, c, x) == Scaled(x, db.Gain(c.gainDb))
  {
    var y, z := GainStage(db, c, x), Scaled(x, db.Gain(c.gainDb));
    forall i | 0 <= i < |x| ensures y[i] == z[i] {
      GainAt(db, c, x, i);
    }
    assert y == z;
  }

  /** The limiter, where there is one, comes last, and is fed the guarded signal under the gain. */
  lemma StagesInOrder(db: Scale, c: ChainSettings, s: ChainCarry, x: seq<real>)
    requires IsDecibel(db) && Fits(c, s)
    ensures Samples(db, c, s, x).0
         == if c.limiter.None? then Driven(db, c, s, x)
            else L.Process(db, c.limiter.value, s.limiter.value, Driven(db, c, s, x)).0
    ensures c.limiter.Some? ==>
              Samples(db, c, s, x).1.limiter
              == Some(L.Process(db, c.limiter.value, s.limiter.value, Driven(db, c, s, x)).1)
  {
    var (x1, s1) := EqStage(c, s, x);
    var x2 := GuardStage(db, c, s1, x1).0;
    GainIsProduct(db, c, x2);
    assert GainStage(db, c, x2) == Driven(db, c, s, x);
  }

  lemma PassedThrough(db: Scale, c: ChainSettings, s: ChainCarry, x: seq<real>)
    requires IsDecibel(db) && Fits(c, s) && Passthrough(c)
    ensures Driven(db, c, s, x) == x
  {
    GainIsProduct(db, c, x);
  }

  /** Whatever the chunking, a stream and its flush are the samples behind the gain - limited and flushed, where there
      is a limiter - quantised. */
  lemma StreamedIsDriven(db: Scale, c: ChainSettings, s: ChainCarry, chunks: seq<seq<Byte>>)
    requires IsDecibel(db) && Fits(c, s) && WholeSamples(chunks)
    ensures var y := Driven(db, c, s, Input(chunks));
            Streamed(db, c, s, chunks).0
            == ToPcm(if c.limiter.None? then y else LL.Finished(db, c.limiter.value, s.limiter.value, y))
  {
    var x := Input(chunks);
    if Passthrough(c) {
      PassthroughAll(db, c, s, chunks);
      PassedThrough(db, c, s, x);
      FloatsToPcm(Joined(chunks));
      assert Joined(chunks) + [] == Joined(chunks);
    } else {
      StreamIsOneRun(db, c, s, chunks);
      StagesInOrder(db, c, s, x);
      var (y, s1) := Samples(db, c, s, x);
      if c.limiter.Some? {
        ToPcmSplit(y, L.Flush(db, s1.limiter.value).0);
      } else {
        assert ToPcm(y) + [] == ToPcm(y);
      }
    }
  }

  lemma WordOut(y: seq<real>, i: nat)
    requires i < |y|
    ensures SampleWord(ToPcm(y), i) == Quantise(y[i]) % 65536
    ensures Decode(ToPcm(y))[i] == Quantise(y[i])
  {
    EncodedSample(QuantiseAll(y), i);
    DecodeEncode(QuantiseAll(y));
  }

  /** Each sample of x times the factor, cut to int16, is the corresponding word of the output. */
  ghost predicate ScaledWords(x: seq<real>, factor: real, out: seq<Byte>) {
    |out| == 2 * |x| && forall i :: 0 <= i < |x| ==> SampleWord(out, i) == Quantise(x[i] * factor) % 65536
  }

  lemma ScaledToPcm(x: seq<real>, factor: real)
    ensures ScaledWords(x, factor, ToPcm(Scaled(x, factor)))
  {
    forall i | 0 <= i < |x| ensures SampleWord(ToPcm(Scaled(x, factor)), i) == Quantise(x[i] * factor) % 65536 {
      WordOut(Scaled(x, factor), i);
    }
  }

  /** With nothing but a gain, every word out is the sample in times 10^(gain/20), cut to int16, in whatever chunks. */
  lemma GainScales(db: Scale, gainDb: real, chunks: seq<seq<Byte>>)
    requires IsDecibel(db) && WholeSamples(chunks)
    ensures var c := ChainSettings(None, gainDb, None, None);
            ScaledWords(Input(chunks), db.Gain(gainDb), Streamed(db, c, ChainCarry([], None, None), chunks).0)
  {
    StreamedIsDriven(db, ChainSettings(None, gainDb, None, None), ChainCarry([], None, None), chunks);
    ScaledToPcm(Input(chunks), db.Gain(gainDb));
  }

  lemma JustOne(pcm: seq<Byte>)
    ensures Joined([pcm]) == pcm
  {
    assert Joined([pcm]) == pcm + Joined([]);
  }

  /** So it is for the same buffer applied at once. */
  lemma GainApplied(db: Scale, design: Design, gainDb: real, pcm: seq<Byte>)
    requires IsDecibel(db) && ValidDesign(design) && |pcm| % 2 == 0
    ensures var out := ApplyOnce(db, design, Request(None, false, false, gainDb, None, None), None, None, pcm).0;
            out.Some? && ScaledWords(Floats(pcm), db.Gain(gainDb), out.value)
  {
    var r := Request(None, false, false, gainDb, None, None);
    JustOne(pcm);
    if |pcm| > 0 {
      StreamIsApply(db, design, r, None, None, [pcm]);
      GainScales(db, gainDb, [pcm]);
    }
  }

  lemma WithinAfterCut(y: seq<real>, bound: real, i: nat)
    requires LL.Bounded(y, bound) && i < |y|
    ensures -bound <= Decode(ToPcm(y))[i] as real <= bound
  {
    WordOut(y, i);
    assert Abs(y[i]) <= bound;
    QuantiseTowardZero(y[i]);
  }

  /** The samples a byte string holds are within a bound. */
  ghost predicate SentWithin(out: seq<Byte>, bound: real) {
    |out| % 2 == 0 && forall i :: 0 <= i < |out| / 2 ==> -bound <= Decode(out)[i] as real <= bound
  }

  lemma BoundedToPcm(y: seq<real>, bound: real)
    requires LL.Bounded(y, bound)
    ensures SentWithin(ToPcm(y), bound)
  {
    forall i | 0 <= i < |y| ensures -bound <= Decode(ToPcm(y))[i] as real <= bound {
      WithinAfterCut(y, bound, i);
    }
  }

  /** No gain, guard or curve in front of it moves the limiter's ceiling: of a stream that reaches it within 240 dB of
      the threshold, every sample sent is within it, in any chunks and with the flush. */
  lemma ChainCeiling(db: Scale, c: ChainSettings, s: ChainCarry, chunks: seq<seq<Byte>>)
    requires IsDecibel(db) && Fits(c, s) && WholeSamples(chunks) && |Input(chunks)| > 0
    requires c.limiter.Some? && c.limiter.value.enabled && c.limiter.value.thresh >= L.EPS
    requires s.limiter == Some(L.Fresh(c.limiter.value))
    requires LL.Bounded(Driven(db, c, s, Input(chunks)), LL.Reach(c.limiter.value))
    ensures SentWithin(Streamed(db, c, s, chunks).0, c.limiter.value.thresh)
  {
    var y := Driven(db, c, s, Input(chunks));
    StreamedIsDriven(db, c, s, chunks);
    LL.CeilingExact(db, c.limiter.value, y);
    BoundedToPcm(LL.Finished(db, c.limiter.value, s.limiter.value, y), c.limiter.value.thresh);
  }
}
