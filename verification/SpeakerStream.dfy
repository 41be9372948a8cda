/** The speaker stream to a device (controller/em_controller.py): PCM of any chunking is sent as fixed
    periods and closed by one end-of-stream frame, on every way out. */
module SpeakerStream {
  import opened Chunks
  import opened Options
  import opened Numerics
  import opened Pcm
  import opened OutputChain
  import opened StreamingEq
  import L = PeakLimiter
  import LL = LimiterLaws
  import G = BassGuard

  type Bytes = seq<Byte>

  datatype Frame = Period(pcm: Bytes) | Eos

  // ---- Periods

  /** How many periods hold this many bytes. */
  function Count(n: nat): nat {
    (n + 4095) / 4096
  }

  /** The k-th period, the last one padded with silence. */
  function PeriodAt(pcm: Bytes, k: nat): (r: Bytes)
    requires 4096 * k < |pcm|
    ensures |r| == 4096
  {
    if |pcm| - 4096 * k < 4096 then pcm[4096 * k..] + Silence(4096 - (|pcm| - 4096 * k))
    else pcm[4096 * k..4096 * k + 4096]
  }

  function Frames(pcm: Bytes, n: nat): (r: seq<Frame>)
    requires n <= Count(|pcm|)
    ensures |r| == n
  {
    seq(n, k requires 0 <= k < n => Period(PeriodAt(pcm, k)))
  }

  /** Everything there is to send before the end of stream. */
  function Periods(pcm: Bytes): seq<Frame> {
    Frames(pcm, Count(|pcm|))
  }

  // ---- What interferes with a stream

  /** A cancelled task stops in the middle of a send: the frame may or may not have left. */
  datatype Abort = NotAborted | BeforeSend | AfterSend

  /** The cancel event as each poll finds it, the source failing at a fetch, the sender aborted at a send. */
  datatype Disturbance = Disturbance(
    cancelled: nat -> bool, sourceFails: nat -> bool, sendAborts: nat -> Abort)

  ghost predicate NeverCancelled(d: Disturbance) {
    forall n :: !d.cancelled(n)
  }

  ghost predicate Unaborted(d: Disturbance) {
    forall n :: d.sendAborts(n) == NotAborted
  }

  ghost predicate Undisturbed(d: Disturbance) {
    NeverCancelled(d) && Unaborted(d) && forall n :: !d.sourceFails(n)
  }

  /** A normal return with the bytes taken from the source, or an exception on its way out. */
  datatype Ending = Returned(totalPcm: nat) | Raised

  // ---- The chain between source and periods

  ghost function Owned(eq: StreamingEQ?): set<object> {
    if eq == null then {} else {eq} + eq.Frame()
  }

  /** What stands between source and device: nothing, when the device runs the chain itself, or a chain. */
  datatype Route = Direct | Through(db: Scale, c: ChainSettings, s: ChainCarry)

  ghost predicate ValidRoute(route: Route) {
    route.Through? ==> Fits(route.c, route.s)
  }

  /** The route after one chunk, and what it gave; None is the chain's refusal of a broken buffer. */
  ghost function Pass(route: Route, chunk: Bytes): (r: (Option<Bytes>, Route))
    requires ValidRoute(route)
    ensures ValidRoute(r.1)
  {
    if route.Direct? then (Some(chunk), Direct)
    else
      StepKeepsFits(route.db, route.c, route.s, chunk);
      var (out, s) := StreamStep(route.db, route.c, route.s, chunk);
      (out, route.(s := s))
  }

  /** Everything the route gives for these chunks, and where it stands after them. */
  ghost function Passed(route: Route, chunks: seq<Bytes>): (r: Option<(Bytes, Route)>)
    requires ValidRoute(route)
    ensures r.Some? ==> ValidRoute(r.value.1)
  {
    if |chunks| == 0 then Some(([], route))
    else
      var earlier := Passed(route, chunks[..|chunks| - 1]);
      if earlier.None? then None
      else
        var (out, next) := Pass(earlier.value.1, chunks[|chunks| - 1]);
        if out.None? then None else Some((earlier.value.0 + out.value, next))
  }

  ghost function RouteOf(eq: StreamingEQ?): Route
    reads eq, Owned(eq)
  {
    if eq == null then Direct else Through(eq.db, eq.Config(), eq.Held())
  }

  /** Without a chain the bytes go out as they came, however they were cut. */
  lemma {:induction false} DirectIsJoined(chunks: seq<Bytes>)
    ensures Passed(Direct, chunks) == Some((Joined(chunks), Direct))
  {
    if |chunks| > 0 {
      DirectIsJoined(chunks[..|chunks| - 1]);
      JoinedAppend(chunks[..|chunks| - 1], chunks[|chunks| - 1]);
      assert chunks[..|chunks| - 1] + [chunks[|chunks| - 1]] == chunks;
    }
  }

  /** Chunks of whole samples all pass the chain. */
  lemma {:induction false} ThroughIsStream(db: Scale, c: ChainSettings, s: ChainCarry, chunks: seq<Bytes>)
    requires Fits(c, s) && WholeSamples(chunks)
    ensures var (out, s1) := StreamAll(db, c, s, chunks);
            Passed(Through(db, c, s), chunks) == Some((out, Through(db, c, s1)))
  {
    if |chunks| > 0 {
      var earlier, last := chunks[..|chunks| - 1], chunks[|chunks| - 1];
      ThroughIsStream(db, c, s, earlier);
      StreamAppend(db, c, s, earlier, last);
      assert earlier + [last] == chunks;
    }
  }

  lemma NextChunk(route: Route, chunks: seq<Bytes>, i: nat)
    requires ValidRoute(route) && i < |chunks| && Passed(route, chunks[..i]).Some?
    ensures |Joined(chunks[..i + 1])| == |Joined(chunks[..i])| + |chunks[i]|
    ensures var (out, at) := Passed(route, chunks[..i]).value;
            var (more, next) := Pass(at, chunks[i]);
            Passed(route, chunks[..i + 1]) == if more.None? then None else Some((out + more.value, next))
  {
    assert chunks[..i + 1] == chunks[..i] + [chunks[i]];
    assert chunks[..i + 1][..i] == chunks[..i];
    JoinedAppend(chunks[..i], chunks[i]);
  }

  /** A chunk the chain refuses ends the stream for good. */
  lemma {:induction false} RefusedStays(route: Route, chunks: seq<Bytes>, i: nat)
    requires ValidRoute(route) && i <= |chunks| && Passed(route, chunks[..i]).None?
    ensures Passed(route, chunks).None?
  {
    if i < |chunks| {
      assert chunks[..|chunks| - 1][..i] == chunks[..i];
      RefusedStays(route, chunks[..|chunks| - 1], i);
    } else {
      assert chunks[..i] == chunks;
    }
  }

  lemma StreamAppend(db: Scale, c: ChainSettings, s: ChainCarry, chunks: seq<Bytes>, last: Bytes)
    requires Fits(c, s) && WholeSamples(chunks) && |last| % 2 == 0
    ensures WholeSamples(chunks + [last]) && Fits(c, StreamAll(db, c, s, chunks).1)
    ensures var (out, s1) := StreamAll(db, c, s, chunks);
            var (more, s2) := StreamStep(db, c, s1, last);
            more.Some? && StreamAll(db, c, s, chunks + [last]) == (out + more.value, s2)
  {
    JoinedAppend(chunks, last);
    StreamFits(db, c, s, chunks);
    if Passthrough(c) {
      PassthroughAll(db, c, s, chunks);
      PassthroughAll(db, c, s, chunks + [last]);
    } else {
      StreamIsOneRun(db, c, s, chunks);
      StreamIsOneRun(db, c, s, chunks + [last]);
      FloatsSplit(Joined(chunks), last);
      SamplesJoin(db, c, s, Floats(Joined(chunks)), Floats(last));
      StepIsRun(db, c, StreamAll(db, c, s, chunks).1, last);
    }
  }

  lemma FramesStable(pcm: Bytes, more: Bytes, n: nat)
    requires 4096 * n <= |pcm|
    ensures n <= Count(|pcm|) && n <= Count(|pcm + more|)
    ensures Frames(pcm + more, n) == Frames(pcm, n)
  {
    forall k | 0 <= k < n ensures PeriodAt(pcm + more, k) == PeriodAt(pcm, k) {
      assert 4096 * k + 4096 <= |pcm|;
    }
  }

  lemma CountBounds(bytes: nat, n: nat)
    requires 4096 * n <= bytes
    ensures n <= Count(bytes) && (n == Count(bytes) <==> bytes == 4096 * n)
  {
  }

  lemma NextPeriod(pcm: Bytes, n: nat)
    requires 4096 * n <= |pcm| && |pcm[4096 * n..]| >= 4096
    ensures n + 1 <= Count(|pcm|) && pcm[4096 * n..][..4096] == PeriodAt(pcm, n)
    ensures pcm[4096 * n..][4096..] == pcm[4096 * (n + 1)..]
    ensures Frames(pcm, n + 1) == Frames(pcm, n) + [Period(PeriodAt(pcm, n))]
  {
    FramesNext(pcm, n);
  }

  lemma FramesNext(pcm: Bytes, n: nat)
    requires 4096 * n < |pcm|
    ensures n + 1 <= Count(|pcm|)
    ensures Frames(pcm, n + 1) == Frames(pcm, n) + [Period(PeriodAt(pcm, n))]
  {
  }

  // ---- The two senders

  class Speaker {
    /** Every frame handed to the data connection. */
    var sent: seq<Frame>

    constructor ()
      ensures sent == []
    {
      sent := [];
    }

    /** One send, which cancelling the sender may interrupt on either side of the write. */
    method Send(f: Frame, abort: Abort) returns (ok: bool)
      modifies this
      ensures sent == if abort == BeforeSend then old(sent) else old(sent) + [f]
      ensures ok == (abort == NotAborted)
    {
      if abort == BeforeSend {
        return false;
      }
      sent := sent + [f];
      return abort == NotAborted;
    }

    method Cut(pcm: Bytes, offset: nat) returns (chunk: Bytes)
      requires offset % 4096 == 0 && offset < |pcm|
      ensures chunk == PeriodAt(pcm, offset / 4096)
    {
      chunk := pcm[offset..if offset + 4096 < |pcm| then offset + 4096 else |pcm|];
      if |chunk| < 4096 {
        chunk := chunk + Silence(4096 - |chunk|);
      }
    }

    /** Send a whole buffer. A stream is cut only for a reason, and closed by one EOS in any case. */
    method StreamSpeaker(pcm: Bytes, d: Disturbance) returns (ok: bool, ghost n: nat)
      modifies this
      ensures n <= Count(|pcm|) && sent == old(sent) + Frames(pcm, n) + [Eos]
      ensures ok ==> n == Count(|pcm|) || d.cancelled(n)
      ensures ok ==> forall k :: 0 <= k < n ==> !d.cancelled(k)
      ensures !ok ==> (n > 0 && d.sendAborts(n - 1) == AfterSend) || d.sendAborts(n) == BeforeSend
    {
      var offset := 0;
      n, ok := 0, true;
      while offset < |pcm|
        invariant offset == 4096 * n && n <= Count(|pcm|)
        invariant sent == old(sent) + Frames(pcm, n)
        invariant forall k :: 0 <= k < n ==> !d.cancelled(k)
        invariant ok
      {
        assert offset / 4096 == n;
        if d.cancelled(offset / 4096) {
          break;
        }
        var chunk := Cut(pcm, offset);
        FramesNext(pcm, n);
        ok := Send(Period(chunk), d.sendAborts(offset / 4096));
        if !ok {
          n := if d.sendAborts(n) == AfterSend then n + 1 else n;
          break;
        }
        n := n + 1;
        offset := offset + 4096;
      }
      sent := sent + [Eos];
    }

    /** `n` periods of `out` are on the wire, and, unless the stream is failing, the rest is pending. */
    ghost predicate Standing(out: Bytes, n: nat, before: seq<Frame>, pending: Bytes, ok: bool)
      reads this
    {
      4096 * n <= |out| && sent == before + Frames(out, n) && (ok ==> pending == out[4096 * n..])
    }

    /** Send the whole periods that have gathered, unless cancelled between two of them. */
    method SendWhole(gathered: Bytes, polled: nat, done: nat, d: Disturbance, ghost out: Bytes,
                     ghost before: seq<Frame>)
      returns (pending: Bytes, polls: nat, sends: nat, ok: bool)
      requires Standing(out, done, before, gathered, true)
      modifies this
      ensures Standing(out, sends, before, pending, ok)
      ensures ok && NeverCancelled(d) ==> |pending| < 4096
      ensures Unaborted(d) ==> ok
    {
      pending, polls, sends, ok := gathered, polled, done, true;
      while |pending| >= 4096
        invariant Standing(out, sends, before, pending, true)
        decreases |pending|
      {
        polls := polls + 1;
        if d.cancelled(polls - 1) {
          return;
        }
        var chunk := pending[..4096];
        pending := pending[4096..];
        NextPeriod(out, sends);
        ok := Send(Period(chunk), d.sendAborts(sends));
        if !ok {
          sends := if d.sendAborts(sends) == AfterSend then sends + 1 else sends;
          return;
        }
        sends := sends + 1;
      }
    }

    /** Pad and send what is left at the end of the source. With more than a period left, which takes a
        cancellation that was withdrawn, the padding count is negative and raises. */
    method SendRest(pending: Bytes, polls: nat, done: nat, d: Disturbance, ghost out: Bytes, ghost before: seq<Frame>)
      returns (ok: bool, ghost n: nat)
      requires Standing(out, done, before, pending, true)
      modifies this
      ensures n <= Count(|out|) && sent == before + Frames(out, n)
      ensures ok && !d.cancelled(polls) ==> n == Count(|out|)
      ensures Unaborted(d) && |pending| <= 4096 ==> ok
    {
      n, ok := done, true;
      CountBounds(|out|, done);
      if pending != [] && !d.cancelled(polls) {
        if |pending| > 4096 {
          return false, n;
        }
        var chunk := pending + Silence(4096 - |pending|);
        FramesNext(out, done);
        LastPeriod(out, done);
        ok := Send(Period(chunk), d.sendAborts(done));
        n := if d.sendAborts(done) == BeforeSend then n else n + 1;
      }
    }

    method Take(eq: StreamingEQ?, chunk: Bytes) returns (more: Option<Bytes>)
      requires eq != null ==> eq.Valid()
      modifies Owned(eq)
      ensures eq != null ==> eq.Valid() && eq.Config() == old(eq.Config())
      ensures ValidRoute(old(RouteOf(eq))) && (more, RouteOf(eq)) == Pass(old(RouteOf(eq)), chunk)
    {
      if eq == null {
        return Some(chunk);
      }
      more := eq.Process(chunk);
    }

    /** One chunk from the source: through the chain, and out as far as whole periods go. */
    method Forward(eq: StreamingEQ?, chunk: Bytes, gathered: Bytes, polled: nat, done: nat, d: Disturbance,
                   ghost out: Bytes, ghost before: seq<Frame>)
      returns (more: Option<Bytes>, pending: Bytes, polls: nat, sends: nat, ok: bool)
      requires eq != null ==> eq.Valid()
      requires this !in Owned(eq)
      requires Standing(out, done, before, gathered, true)
      modifies this, Owned(eq)
      ensures eq != null ==> eq.Valid() && eq.Config() == old(eq.Config())
      ensures ValidRoute(old(RouteOf(eq))) && (more, RouteOf(eq)) == Pass(old(RouteOf(eq)), chunk)
      ensures more.None? ==> !ok && sends == done && sent == old(sent)
      ensures more.Some? ==> Standing(out + more.value, sends, before, pending, ok)
      ensures ok && NeverCancelled(d) ==> |pending| < 4096
      ensures Unaborted(d) && more.Some? ==> ok
    {
      pending, polls, sends, ok := gathered, polled, done, false;
      more := Take(eq, chunk);
      if more.Some? {
        FramesStable(out, more.value, done);
        pending, polls, sends, ok := SendWhole(gathered + more.value, polled, done, d, out + more.value, before);
      }
    }

    /** The last frames of a stream: what is left, if the source ran to its end, and the EOS. */
    method Finish(ending: Ending, drained: bool, pending: Bytes, polls: nat, done: nat, d: Disturbance,
                  ghost out: Bytes, ghost before: seq<Frame>)
      returns (r: Ending, ghost n: nat)
      requires Standing(out, done, before, pending, ending.Returned?)
      modifies this
      ensures n <= Count(|out|) && sent == before + Frames(out, n) + [Eos]
      ensures !(drained && ending.Returned?) ==> r == ending && 4096 * n <= |out|
      ensures r == ending || r.Raised?
      ensures r.Returned? && drained && NeverCancelled(d) ==> n == Count(|out|)
      ensures Unaborted(d) && |pending| <= 4096 ==> r == ending
    {
      r, n := ending, done;
      CountBounds(|out|, done);
      if ending.Returned? && drained {
        var ok;
        ok, n := SendRest(pending, polls, done, d, out, before);
        r := if ok then ending else Raised;
      }
      sent := sent + [Eos];
    }

    /** The chunks before the i-th have passed, giving `out`, and the chain stands behind them. */
    ghost predicate PassedTo(eq: StreamingEQ?, route: Route, chunks: seq<Bytes>, i: nat, out: Bytes)
      requires ValidRoute(route)
      reads eq, Owned(eq)
    {
      i <= |chunks| && (eq != null ==> eq.Valid()) && Passed(route, chunks[..i]) == Some((out, RouteOf(eq)))
    }

    /** Pass the source's chunks on until it ends, fails or is cut; whole periods go out as they gather. */
    method Pump(chunks: seq<Bytes>, eq: StreamingEQ?, d: Disturbance)
      returns (ending: Ending, cut: bool, pending: Bytes, polls: nat, sends: nat, i: nat, ghost out: Bytes)
      requires eq != null ==> eq.Valid()
      requires this !in Owned(eq)
      modifies this, Owned(eq)
      ensures ValidRoute(old(RouteOf(eq))) && PassedTo(eq, old(RouteOf(eq)), chunks, i, out)
      ensures Standing(out, sends, old(sent), pending, ending.Returned?)
      ensures !cut ==> i == |chunks|
      ensures ending.Returned? ==> ending.totalPcm == |Joined(chunks[..i])|
      ensures ending.Returned? && NeverCancelled(d) ==> !cut && |pending| < 4096
      ensures Undisturbed(d) && Passed(old(RouteOf(eq)), chunks).Some? ==> ending.Returned?
    {
      ghost var route, before := RouteOf(eq), sent;
      var total: nat, failed := 0, false;
      cut, pending, polls, sends, i, out := false, [], 0, 0, 0, [];
      while i < |chunks| && !cut
        invariant PassedTo(eq, route, chunks, i, out) && (eq != null ==> eq.Config() == old(eq.Config()))
        invariant Standing(out, sends, before, pending, !failed)
        invariant !failed ==> total == |Joined(chunks[..i])|
        invariant !failed && NeverCancelled(d) ==> !cut && |pending| < 4096
        invariant failed ==> cut
        invariant Undisturbed(d) && Passed(route, chunks).Some? ==> !failed
        decreases |chunks| - i, !cut
      {
        if d.sourceFails(i) {
          failed, cut := true, true;
        } else if d.cancelled(polls) {
          polls, cut := polls + 1, true;
        } else {
          polls, total := polls + 1, total + |chunks[i]|;
          var more, ok;
          more, pending, polls, sends, ok := Forward(eq, chunks[i], pending, polls, sends, d, out, before);
          NextChunk(route, chunks, i);
          if more.None? {
            RefusedStays(route, chunks, i + 1);
          } else {
            out := out + more.value;
            i := i + 1;
          }
          failed, cut := !ok, !ok;
        }
      }
      if !cut && d.sourceFails(i) {
        failed, cut := true, true;
      }
      ending := if failed then Raised else Returned(total);
    }

    /** Send what a source yields chunk by chunk, through the chain unless the device runs it. Only what was
        taken from the source decides the frames, not how it was cut. However the stream ends, what goes out is a
        prefix of the frames of everything the source yields, closed by one EOS: only a source that ran to its end
        has its last period padded. A cancellation seen between chunks is the poll that also skips the padding. */
    method StreamSpeakerChunks(chunks: seq<Bytes>, eq: StreamingEQ?, d: Disturbance)
      returns (ending: Ending, ghost taken: nat, ghost n: nat)
      requires eq != null ==> eq.Valid()
      requires this !in Owned(eq)
      modifies this, Owned(eq)
      ensures ValidRoute(old(RouteOf(eq)))
      ensures taken <= |chunks| && Passed(old(RouteOf(eq)), chunks[..taken]).Some?
      ensures var out := Passed(old(RouteOf(eq)), chunks[..taken]).value.0;
              && n <= Count(|out|) && sent == old(sent) + Frames(out, n) + [Eos]
              && (taken < |chunks| ==> 4096 * n <= |out|)
              && (ending.Returned? && NeverCancelled(d) ==> taken == |chunks| && n == Count(|out|))
      ensures var whole := Passed(old(RouteOf(eq)), chunks);
              whole.Some? ==> n <= |Periods(whole.value.0)| && sent == old(sent) + Periods(whole.value.0)[..n] + [Eos]
      ensures ending.Returned? ==> ending.totalPcm == |Joined(chunks[..taken])|
      ensures Undisturbed(d) && Passed(old(RouteOf(eq)), chunks).Some? ==> ending.Returned?
    {
      ghost var route, before := RouteOf(eq), sent;
      var cut, pending, polls, sends, i;
      ghost var out;
      ending, cut, pending, polls, sends, i, out := Pump(chunks, eq, d);
      taken := i;
      ending, n := Finish(ending, !cut, pending, polls, sends, d, out, before);
      if Passed(route, chunks).Some? {
        PrefixOfWhole(route, chunks, taken, n);
      }
    }
  }

  lemma {:induction false} PassedGrows(route: Route, chunks: seq<Bytes>, i: nat)
    requires ValidRoute(route) && i <= |chunks| && Passed(route, chunks).Some?
    ensures Passed(route, chunks[..i]).Some? && Passed(route, chunks[..i]).value.0 <= Passed(route, chunks).value.0
  {
    if i < |chunks| {
      var init := chunks[..|chunks| - 1];
      assert init[..i] == chunks[..i];
      PassedGrows(route, init, i);
    } else {
      assert chunks[..i] == chunks;
    }
  }

  /** Periods of what was taken are the first periods of the whole, if they stop short of the padding. */
  lemma PrefixOfWhole(route: Route, chunks: seq<Bytes>, taken: nat, n: nat)
    requires ValidRoute(route) && taken <= |chunks|
    requires Passed(route, chunks).Some? && Passed(route, chunks[..taken]).Some?
    requires var out := Passed(route, chunks[..taken]).value.0;
             n <= Count(|out|) && (taken < |chunks| ==> 4096 * n <= |out|)
    ensures var out, whole := Passed(route, chunks[..taken]).value.0, Passed(route, chunks).value.0;
            n <= |Periods(whole)| && Frames(out, n) == Periods(whole)[..n]
  {
    PassedGrows(route, chunks, taken);
    var out, whole := Passed(route, chunks[..taken]).value.0, Passed(route, chunks).value.0;
    if taken < |chunks| {
      var more := whole[|out|..];
      assert whole == out + more;
      FramesStable(out, more, n);
    } else {
      assert chunks[..taken] == chunks;
    }
  }

  lemma LastPeriod(pcm: Bytes, n: nat)
    requires 4096 * n < |pcm| <= 4096 * n + 4096
    ensures n + 1 == Count(|pcm|)
    ensures PeriodAt(pcm, n) == pcm[4096 * n..] + Silence(4096 - (|pcm| - 4096 * n))
  {
  }

  // ---- What the frames carry

  predicate Full(frames: seq<Frame>) {
    forall k :: 0 <= k < |frames| ==> frames[k].Period? && |frames[k].pcm| == 4096
  }

  function Carried(frames: seq<Frame>): (pcm: Bytes)
    requires Full(frames)
    ensures |pcm| == 4096 * |frames|
  {
    if |frames| == 0 then [] else Carried(frames[..|frames| - 1]) + frames[|frames| - 1].pcm
  }

  lemma {:induction false} CarriedAt(frames: seq<Frame>, k: nat)
    requires Full(frames) && k < |frames|
    ensures Carried(frames)[4096 * k..4096 * k + 4096] == frames[k].pcm
  {
    var init := frames[..|frames| - 1];
    if k < |init| {
      CarriedAt(init, k);
      assert Carried(frames)[4096 * k..4096 * k + 4096] == Carried(init)[4096 * k..4096 * k + 4096];
    }
  }

  lemma {:induction false} SameCarriage(a: seq<Frame>, pcm: Bytes)
    requires Full(a) && |pcm| == 4096 * |a|
    requires forall k :: 0 <= k < |a| ==> pcm[4096 * k..4096 * k + 4096] == a[k].pcm
    ensures Carried(a) == pcm
  {
    if |a| > 0 {
      var n := |a| - 1;
      var init, head := a[..n], pcm[..4096 * n];
      forall k | 0 <= k < n ensures head[4096 * k..4096 * k + 4096] == init[k].pcm {
        assert head[4096 * k..4096 * k + 4096] == pcm[4096 * k..4096 * k + 4096];
      }
      SameCarriage(init, head);
      assert pcm == head + pcm[4096 * n..4096 * n + 4096];
    }
  }

  /** Full periods carrying exactly this PCM, then less than one period of silence. */
  ghost predicate CarryPadded(frames: seq<Frame>, pcm: Bytes) {
    && Full(frames)
    && |pcm| <= 4096 * |frames| < |pcm| + 4096
    && Carried(frames) == pcm + Silence(4096 * |frames| - |pcm|)
  }

  lemma PaddedBlock(pcm: Bytes, k: nat)
    requires 4096 * k < |pcm| && k < Count(|pcm|)
    ensures (pcm + Silence(4096 * Count(|pcm|) - |pcm|))[4096 * k..4096 * k + 4096] == PeriodAt(pcm, k)
  {
  }

  /** The frames of a stream are the one sequence of full periods that carries its PCM with minimal padding. */
  lemma PeriodsCharacterised(frames: seq<Frame>, pcm: Bytes)
    ensures frames == Periods(pcm) <==> CarryPadded(frames, pcm)
  {
    var padded := pcm + Silence(4096 * Count(|pcm|) - |pcm|);
    forall k | 0 <= k < Count(|pcm|) ensures padded[4096 * k..4096 * k + 4096] == Periods(pcm)[k].pcm {
      PaddedBlock(pcm, k);
    }
    SameCarriage(Periods(pcm), padded);
    if CarryPadded(frames, pcm) {
      assert |frames| == Count(|pcm|);
      forall k | 0 <= k < |frames| ensures frames[k] == Periods(pcm)[k] {
        CarriedAt(frames, k);
      }
      assert frames == Periods(pcm);
    }
  }

  // ---- What a streamed response loses

  /** A primed look-ahead stays primed. */
  lemma StaysPrimed(db: Scale, c: ChainSettings, s: ChainCarry, x: seq<real>)
    requires Fits(c, s) && c.limiter.Some? && |s.limiter.value.tail| == c.limiter.value.lookahead - 1
    ensures Fits(c, Samples(db, c, s, x).1)
    ensures |Samples(db, c, s, x).1.limiter.value.tail| == c.limiter.value.lookahead - 1
  {
    FitsKept(db, c, s, x);
    var (x1, s1) := EqStage(c, s, x);
    var (x2, s2) := GuardStage(db, c, s1, x1);
    if |x| > 0 {
      LL.OneToOne(db, c.limiter.value, s.limiter.value, GainStage(db, c, x2));
    }
  }

  /** The sender never flushes its chain, so a response streamed through a limiter ends short of the one-shot
      result by exactly the look-ahead: 2 * (lookahead - 1) bytes of its end are never sent. */
  lemma StreamedResponseIsShort(db: Scale, design: Design, r: Request, g: Option<G.GuardCarry>, chunks: seq<Bytes>)
    returns (tail: Bytes)
    requires ValidDesign(design) && WholeSamples(chunks) && |Joined(chunks)| > 0
    requires r.limiter.Some? && L.ValidSettings(r.limiter.value)
    requires Fits(StreamSettings(design, r), FreshCarry(StreamSettings(design, r), g, Some(L.Fresh(r.limiter.value))))
    ensures var c := StreamSettings(design, r);
            var l := Some(L.Fresh(r.limiter.value));
            var sent := Passed(Through(db, c, FreshCarry(c, g, l)), chunks);
            && sent.Some? && |tail| == 2 * (r.limiter.value.lookahead - 1)
            && ApplyOnce(db, design, r, g, l, Joined(chunks)).0 == Some(sent.value.0 + tail)
  {
    var c := StreamSettings(design, r);
    var l := Some(L.Fresh(r.limiter.value));
    var s := FreshCarry(c, g, l);
    ThroughIsStream(db, c, s, chunks);
    StreamIsApply(db, design, r, g, l, chunks);
    StreamFits(db, c, s, chunks);
    StreamIsOneRun(db, c, s, chunks);
    StaysPrimed(db, c, s, Floats(Joined(chunks)));
    tail := StreamEnd(db, c, StreamAll(db, c, s, chunks).1).0;
  }
}
