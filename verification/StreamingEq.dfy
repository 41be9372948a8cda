/** The stateful chain object and the one-shot call (controller/em_eq.py), over limiter and guard objects. */
module StreamingEq {
  import opened Options
  import opened Numerics
  import opened Biquads
  import opened Pcm
  import opened OutputChain
  import L = PeakLimiter
  import G = BassGuard

  ghost function Parts(limiter: L.Limiter?, guard: G.Guard?): set<object> {
    (if limiter == null then {} else {limiter}) + (if guard == null then {} else {guard, guard.bass})
  }

  ghost predicate PartsValid(db: Scale, limiter: L.Limiter?, guard: G.Guard?)
    reads Parts(limiter, guard)
  {
    && IsDecibel(db)
    && (limiter != null ==> limiter.Valid() && limiter.db == db)
    && (guard != null ==> guard.Valid() && guard.db == db)
  }

  ghost function LimiterSettings(limiter: L.Limiter?): Option<L.Settings>
    reads Parts(limiter, null)
  {
    if limiter == null then None else Some(limiter.Config())
  }

  ghost function LimiterCarry(limiter: L.Limiter?): Option<L.Carry>
    reads Parts(limiter, null)
  {
    if limiter == null then None else Some(limiter.Held())
  }

  ghost function GuardSettings(guard: G.Guard?): Option<G.GuardSettings>
    reads Parts(null, guard)
  {
    if guard == null then None else Some(guard.Config())
  }

  ghost function GuardCarry(guard: G.Guard?): Option<G.GuardCarry>
    reads Parts(null, guard)
  {
    if guard == null then None else Some(guard.Held())
  }

  /** The stages behind the EQ, in order: guard, gain, limiter. */
  method AfterEq(db: Scale, x: seq<real>, gainDb: real, limiter: L.Limiter?, guard: G.Guard?) returns (y: seq<real>)
    requires PartsValid(db, limiter, guard)
    modifies Parts(limiter, guard)
    ensures PartsValid(db, limiter, guard)
    ensures GuardSettings(guard) == old(GuardSettings(guard))
    ensures LimiterSettings(limiter) == old(LimiterSettings(limiter))
    ensures var c := ChainSettings(None, gainDb, GuardSettings(guard), LimiterSettings(limiter));
            var s := ChainCarry([], old(GuardCarry(guard)), old(LimiterCarry(limiter)));
            (y, ChainCarry([], GuardCarry(guard), LimiterCarry(limiter))) == Samples(db, c, s, x)
  {
    y := x;
    if guard != null {
      y := guard.ProcessChunk(y);
    }
    if gainDb != 0.0 {
      y := MapAll(v => db.Amplify(v, gainDb), y);
    }
    if limiter != null {
      y := limiter.ProcessChunk(y);
    }
  }

  class StreamingEQ {
    const db: Scale
    const design: Design
    const limiter: L.Limiter?
    const guard: G.Guard?
    const subsonic: bool
    const gainDb: real
    var sos: Option<seq<Biquad>>
    var zi: seq<Delay>

    ghost function Frame(): set<object> {
      Parts(limiter, guard)
    }

    ghost predicate Valid()
      reads this, Frame()
    {
      && ValidDesign(design)
      && PartsValid(db, limiter, guard)
      && Fits(Config(), Held())
    }

    ghost function Config(): ChainSettings
      reads this, Frame()
    {
      ChainSettings(sos, gainDb, GuardSettings(guard), LimiterSettings(limiter))
    }

    ghost function Held(): ChainCarry
      reads this, Frame()
    {
      ChainCarry(zi, GuardCarry(guard), LimiterCarry(limiter))
    }

    constructor (db: Scale, design: Design, bands: Option<seq<real>>, loudness: bool, subsonic: bool, gainDb: real,
                 limiter: L.Limiter?, guard: G.Guard?)
      requires ValidDesign(design) && PartsValid(db, limiter, guard)
      ensures Valid() && this.db == db && this.design == design && this.limiter == limiter && this.guard == guard
      ensures this.subsonic == subsonic
      ensures var r := Request(bands, loudness, subsonic, gainDb, GuardSettings(guard), LimiterSettings(limiter));
              Config() == StreamSettings(design, r)
              && Held() == FreshCarry(Config(), GuardCarry(guard), LimiterCarry(limiter))
    {
      this.db, this.design, this.subsonic, this.gainDb := db, design, subsonic, gainDb;
      this.limiter, this.guard := limiter, guard;
      var padded := PadBands(bands);
      if !loudness && !subsonic && AllZero(padded) {
        this.sos, this.zi := None, [];
      } else {
        var sections := design(padded, loudness, subsonic);
        this.sos, this.zi := Some(sections), Silent(|sections|);
      }
    }

    /** Change the curve mid-stream. The filter state is carried on exactly when a curve was running
        and the section count is unchanged. */
    method SetBands(bands: Option<seq<real>>, loudness: bool)
      requires Valid()
      modifies this
      ensures Valid()
      ensures var r := Request(bands, loudness, subsonic, gainDb, GuardSettings(guard), LimiterSettings(limiter));
              Config() == StreamSettings(design, r)
      ensures Held().guard == old(Held().guard) && Held().limiter == old(Held().limiter)
      ensures sos.None? ==> zi == old(zi)
      ensures sos.Some? ==> zi == if old(sos.Some? && |zi| == SectionCount(loudness, subsonic)) then old(zi)
                                  else Silent(SectionCount(loudness, subsonic))
    {
      var padded := PadBands(bands);
      if !loudness && !subsonic && AllZero(padded) {
        sos := None;
        return;
      }
      var sections := design(padded, loudness, subsonic);
      if sos.None? || |zi| != |sections| {
        zi := Silent(|sections|);
      }
      sos := Some(sections);
    }

    /** One streamed chunk; None when the buffer is not whole samples (nothing has then changed). */
    method Process(pcm: seq<Byte>) returns (out: Option<seq<Byte>>)
      requires Valid()
      modifies this, Frame()
      ensures Valid() && Config() == old(Config())
      ensures (out, Held()) == StreamStep(db, Config(), old(Held()), pcm)
    {
      if |pcm| < 2 || (sos.None? && limiter == null && guard == null && gainDb == 0.0) {
        return Some(pcm);
      }
      if |pcm| % 2 != 0 {
        return None;
      }
      var samples := Filtered(ToReals(Decode(pcm)));
      out := Some(Encode(QuantiseAll(samples)));
    }

    /** The chain on samples: the curve, then what follows it. */
    method Filtered(x: seq<real>) returns (samples: seq<real>)
      requires Valid()
      modifies this, Frame()
      ensures Valid() && Config() == old(Config())
      ensures (samples, Held()) == Samples(db, Config(), old(Held()), x)
    {
      samples := x;
      if sos.Some? {
        var (y, z) := SosFilt(sos.value, zi, samples);
        samples, zi := y, z;
      }
      samples := AfterEq(db, samples, gainDb, limiter, guard);
    }

    /** The limiter's held look-ahead at end of stream; nothing without a limiter. */
    method Flush() returns (out: seq<Byte>)
      requires Valid()
      modifies Frame()
      ensures Valid() && Config() == old(Config())
      ensures (out, Held()) == StreamEnd(db, Config(), old(Held()))
    {
      if limiter == null {
        return [];
      }
      var tail := limiter.FlushTail();
      out := Encode(QuantiseAll(tail));
    }
  }

  lemma RestOfChain(db: Scale, c: ChainSettings, s: ChainCarry, x: seq<real>)
    requires Fits(c, s) && c.sos.Some?
    ensures var (y, s1) := Samples(db, c, s, x);
            var (y', s1') := Samples(db, c.(sos := None), s.(zi := []), EqStage(c, s, x).0);
            y == y' && s1.guard == s1'.guard && s1.limiter == s1'.limiter
  {
  }

  /** All samples through a chain at rest, the limiter flushed behind them. */
  method RunOnce(db: Scale, sections: Option<seq<Biquad>>, x: seq<real>, gainDb: real,
                 limiter: L.Limiter?, guard: G.Guard?) returns (y: seq<real>)
    requires PartsValid(db, limiter, guard)
    modifies Parts(limiter, guard)
    ensures PartsValid(db, limiter, guard)
    ensures var c := ChainSettings(sections, gainDb, old(GuardSettings(guard)), old(LimiterSettings(limiter)));
            var s := FreshCarry(c, old(GuardCarry(guard)), old(LimiterCarry(limiter)));
            var (z, s1) := Samples(db, c, s, x);
            && GuardCarry(guard) == s1.guard
            && (limiter == null ==> y == z)
            && (limiter != null ==> y == z + L.Flush(db, s1.limiter.value).0
                                    && limiter.Held() == L.Flush(db, s1.limiter.value).1)
  {
    ghost var c := ChainSettings(sections, gainDb, GuardSettings(guard), LimiterSettings(limiter));
    ghost var s := FreshCarry(c, GuardCarry(guard), LimiterCarry(limiter));
    var filtered := x;
    if sections.Some? {
      RestOfChain(db, c, s, x);
      filtered := SosFilt(sections.value, Silent(|sections.value|), x).0;
    }
    y := AfterEq(db, filtered, gainDb, limiter, guard);
    if limiter != null {
      var tail := limiter.FlushTail();
      y := y + tail;
    }
  }

  /** One-shot EQ, guard, gain and limiter over a whole buffer. */
  method Apply(db: Scale, design: Design, pcm: seq<Byte>, bands: Option<seq<real>>, loudness: bool, subsonic: bool,
               gainDb: real, limiter: L.Limiter?, guard: G.Guard?) returns (out: Option<seq<Byte>>)
    requires ValidDesign(design) && PartsValid(db, limiter, guard)
    modifies Parts(limiter, guard)
    ensures PartsValid(db, limiter, guard)
    ensures var r := Request(bands, loudness, subsonic, gainDb, old(GuardSettings(guard)),
                             old(LimiterSettings(limiter)));
            (out, GuardCarry(guard), LimiterCarry(limiter))
            == ApplyOnce(db, design, r, old(GuardCarry(guard)), old(LimiterCarry(limiter)), pcm)
  {
    if |pcm| < 2 {
      return Some(pcm);
    }
    var padded := PadBands(bands);
    var flat := !loudness && !subsonic && gainDb == 0.0 && AllZero(padded);
    if flat && limiter == null && guard == null {
      return Some(pcm);
    }
    if |pcm| % 2 != 0 {
      return None;
    }
    var sections := if flat then None else Some(design(padded, loudness, subsonic));
    var samples := RunOnce(db, sections, Floats(pcm), gainDb, limiter, guard);
    out := Some(Encode(QuantiseAll(samples)));
  }
}
