# EchoMuse controller: verified models

This project models the parts of the controller whose correctness depends on several functions agreeing with
each other, and proves what they promise. `dafny verify dfyconfig.toml` checks all of it.

- **Speaker output chain** - `SlewRelease`, `PeakLimiter`, `LimiterLaws`, `Biquads`, `BassGuard`, `Pcm`, `OutputChain`,
  `StreamingEq`. A look-ahead limiter whose vectorised release (a running minimum in sheared coordinates) is proved equal
  to the sequential recursion, a bass guard built the same way, a biquad cascade, and the chain that streams PCM through
  them. Streaming in any chunks is proved equal to one-shot processing, and the threshold asked for, in decibels, is
  proved to be a ceiling. What each stage does to a sample is stated by itself: difference equation, compression law,
  gain, release time, order of the stages.
- **Speaker stream** - `SpeakerStream`. Whole buffers and chunked sources become the same device periods and one
  end-of-stream frame, under cancellation, failing sources and aborted tasks.
- **Alarms** - `LocalTime`, `Alarms`, `TimerSession`, `AlarmScheduler`, `AlarmRuns`, `AlarmRings`, `AlarmSounds`,
  `PunctualAlarms`. Time zones as piecewise-constant offsets, the search for the next firing, the ring queue, and the
  scheduler's passes over the stored rows. `AlarmRuns` has what every run keeps, through clock steps, outages, failed
  writes and restarts; `AlarmRings` has exactly which occurrences ring and which are lost; `AlarmSounds` has what a ring
  leaves in the queue of its device, and that nothing else moves; `PunctualAlarms` has whole runs whose ticks are on
  time, in which every firing rings once.
- **Clock synchronisation** - `LeastSquares`, `ClockSync`. The fitted line is the least-squares optimum; from the probes
  alone, conversions are the device's readings, or near them by a stated bound; error bounds of the estimate (the offset
  and delay of section 8 of RFC 5905) and of the conversions.
- **Capture upload** - `CaptureReceiver`. A receiver automaton over arbitrary frame streams.
- **Device files** - `AssetSync` (planning and carrying out the wake-word asset sync), `SlotUpdate` (A/B firmware update),
  `FirmwareCache` (the on-disk cache under concurrent tasks), `Recordings` (names, ownership, retention).
- **Media ownership** - `MediaPlayer`. Commands against voice turns, and what Home Assistant is told.
- `Options`, `Sets`, `Numerics`, `Chunks`, `Commands` are shared vocabulary; `Recency` is the newest-first order of both
  caches.

The objects the source updates in place are classes (`Limiter`, `BandGain`, `Guard`, `StreamingEQ`, `Speaker`,
`AlarmSession`, `Scheduler`, `ClockSync`, `Receiver`, `AssetSync.Device`, `SlotUpdate.Device`, `Cache`, `Store`,
`MediaSession`); each method is tied to a value-level function of the old state, and the laws are proved of that function.

## Assumptions

- Audio samples, gains and clock estimates are real numbers; `10^(x/20)` is a parameter `Scale` with the facts in
  `Numerics.IsDecibel`. Filter coefficients are given; `OutputChain.ValidDesign` says how many sections a design has and
  that a flat curve is made of unity sections.
- Instants are whole seconds. A zone is `LocalTime.ValidZone`: whole-minute offsets and shifts under 24 hours, at least
  two days apart. The `fold=0` reading of local times is PEP 495's.
- MD5 and JSON decoding are function parameters. Where MD5 has to be collision-free, the lemma requires it
  (`FirmwareCache.Collisionless`). Two timer payloads have one fingerprint exactly when they are equal.
- Home Assistant posts no timer id of the scheduler's own `alarm:` form (`AlarmRuns.Legal`).

## What the code turns out to do

- `LimiterLaws.CeilingExact`: on a fresh stream the threshold is a ceiling exactly for signals no more than 240 dB above
  it. `ReuseAfterRuns`: the same holds of the next stream after any use and flush, as soon as it fills the look-ahead; a
  shorter one passes under the old gain. `EnabledAfterBypassExactly`: enabling a bypassed limiter just before the flush
  lets what it held out unlimited, so the ceiling holds exactly when the held samples are under it.
- `OutputChain.StreamIsApplyExactly`: the streamed chain equals `apply` except for an empty stream through a limiter with
  look-ahead, where flushing emits the priming silence and `apply` returns nothing.
- `StreamingEq.StreamingEQ.SetBands`: switching loudness changes the section count and restarts the filters, although the
  comment beside it says the count is fixed.
- `SpeakerStream.StreamedResponseIsShort`: nothing in the controller calls `StreamingEQ.flush`, so a streamed response
  ends short by the limiter's look-ahead.
- `Alarms.KeysIncreaseExactly`: every alarm's firings have increasing occurrence keys exactly when no gap of the zone
  crosses midnight. In a zone with such a gap `AlarmRings.SharedKeyIsSkipped` runs an alarm whose second day is silent:
  it shares the first day's key.
- `Alarms.OnceDateRingsNext`: a one-off alarm whose next occurrence falls into such a gap rings a day late;
  `Alarms.OnceRingsLate` gives one for every such gap.
- `AlarmRings.MissedForGood`: an alarm ticked while its device is offline or muted, or past its grace window, is lost for
  good exactly when its row records it or is written in that tick, however soon the device is back; the comment at
  controller/em_alarms.py:34-37 promises a late fire on reconnect. When that write fails, a restart can make it ring
  after all (`AlarmRings.AwayThenRestarted`).
- `AlarmRings.RestartSafeExactly`: whatever legally follows a restart, nothing rings twice, exactly when every ring is
  recorded in its row. One ring with a failing write is enough to be unsafe (`AlarmRings.UnsettledByFailedWrite`).
- `CaptureReceiver.InterruptingUploadIsLost`: an upload begun inside another is refused whole, with what it interrupts.
- `AssetSync.SyncConverges`: a sync reported as done is followed by a no-op exactly when its deletions were carried out,
  which it does not check, and no two desired assets share a name with different contents; a custom model named like a
  shared model never settles (`AssetSync.CustomNamesake`).
- `SlotUpdate.Device.StreamToSlot`: a transfer reported as failed at its verify or error stage may have replaced the spare
  slot (with verified bytes), because the move ran and its answer was lost; the message says the slot was left untouched.
- `FirmwareCache.ReadsAreWrites`: a read returns only what was written for its version, exactly as long as no tag in use is
  another with `.md5` appended, which the tag pattern allows. Tags ending in `.part` share files too, and do no harm.
- `FirmwareCache.Cache.Prune`: a version whose tag ends in `.part` is never counted nor removed, and one whose tag ends in
  `.md5` goes only with the version whose digest it is named like.
- `FirmwareCache.ReadAfterStoppedWrite`: rewriting a version with other bytes and stopping between its digest and the
  rename costs the copy it had: the next read finds the pair unequal and discards both.
- `Recordings.FilenameRoundTrip`: a turn of twenty digits is saved under a name that never parses.
- `MediaPlayer.ToldTheTruth`: a pause or resume said during a turn to an idle session leaves Home Assistant showing a
  state that is not the session's.

## Model

| member | source | states |
|---|---|---|
| `SlewRelease.ShearedRunningMin` | controller/em_limiter.py:220-234 | The sheared, seeded running minimum computes the release recursion. |
| `SlewRelease.ShearIsRecursion` | controller/em_limiter.py:220-234 | Unshearing the running minimum of the seeded, sheared targets gives `g[n] = min(target[n], g[n-1] + slew)` at every index. |
| `SlewRelease.ReleaseIsGreatest` | controller/em_limiter.py:186-236 | The released gain never exceeds its target nor rises faster than the slew, and is the pointwise greatest such gain. |
| `SlewRelease.ReleaseFloor` | controller/em_mbc.py:126-146 | A gain stays above any floor the targets and the carried gain stay above. |
| `SlewRelease.ReleaseSplit` | controller/em_limiter.py:220-234 | Cutting the targets anywhere and restarting from the last gain gives the same gains. |
| `PeakLimiter.RunningMaxIsPeakAhead` | controller/em_limiter.py:90-103 | The padded sliding maximum is the largest magnitude in each sample's look-ahead window cut off at the buffer's end. |
| `PeakLimiter.Limiter.constructor` | controller/em_limiter.py:114-152 | A fresh limiter is `Built`: look-ahead silence, no gain reduction, the threshold and release asked for. |
| `PeakLimiter.Limiter.SetParams` | controller/em_limiter.py:154-184 | Retuning changes the scalars given and carries tail and gain on; what the threshold given means for the output is `LimiterLaws.AskedCeiling`. |
| `PeakLimiter.SlewIsRelease` | controller/em_limiter.py:177-182 | The gain rises 10 dB per release time, which is taken as at least a millisecond. |
| `PeakLimiter.Limiter.ProcessChunk` | controller/em_limiter.py:186-236 | One call emits and carries exactly what the sequential law says, and counts the clipped samples. |
| `PeakLimiter.Limiter.LimitingGains` | controller/em_limiter.py:209-236 | Envelope, target and release, vectorised, are the law's gains. |
| `PeakLimiter.Limiter.Emit` | controller/em_limiter.py:238-274 | Emission holds back the look-ahead, carries the last emitted gain, counts what the backstop clips and records the deepest cut. |
| `PeakLimiter.Limiter.FlushTail` | controller/em_limiter.py:276-295 | The held tail goes out under the last gain, once. |
| `LimiterLaws.GainIsFinal` | controller/em_limiter.py:186-236 | A gain whose look-ahead window is complete does not depend on later samples. |
| `LimiterLaws.GainResumes` | controller/em_limiter.py:238-274 | Restarting anywhere from the gain just before continues the same gain curve. |
| `LimiterLaws.ProcessSplit` | controller/em_limiter.py:186-274 | Feeding a then b emits and leaves behind exactly what feeding a + b does. |
| `LimiterLaws.ChunkingIsInvisible` | controller/em_limiter.py:186-274 | Every chunking of a stream gives the one-shot output and final state. |
| `LimiterLaws.OneToOne` | controller/em_limiter.py:186-274 | A call returns as many samples as it got exactly while the look-ahead is primed. |
| `LimiterLaws.ProcessCeiling` | controller/em_limiter.py:186-274 | Every sample a limiting call emits is within the threshold, from any carried state. |
| `LimiterLaws.ProcessArmsTail` | controller/em_limiter.py:238-274 | After a limiting call the held tail is within the threshold under the carried gain. |
| `LimiterLaws.RunCeiling` | controller/em_limiter.py:154-274 | Over every run of chunks and live retunes, output while limiting is within the threshold in force and never clips. |
| `LimiterLaws.AskedInForce` | controller/em_limiter.py:154-184 | Over every run of chunks and retunes the threshold in force is the one last asked for. |
| `LimiterLaws.AskedCeiling` | controller/em_limiter.py:114-274 | Over every run of chunks and retunes from construction, output while limiting is within `CEILING * 10^(t/20)` of the `t` dB last asked for, within CEILING when `t` is above 0, and nothing clips. |
| `LimiterLaws.AskedFlush` | controller/em_limiter.py:276-295 | The flush is within the same bound of the `t` in force at the last limited chunk, whatever is retuned after it. |
| `LimiterLaws.AskedTransparent` | controller/em_limiter.py:114-295 | A limiter built with `t` leaves a fresh stream unchanged, behind the look-ahead, if and only if it is within that bound. |
| `LimiterLaws.LowerIsStricter` | controller/em_limiter.py:171-176 | Of two thresholds up to 0 dB the lower has the lower ceiling: it changes a stream the higher leaves alone. |
| `LimiterLaws.TargetIsExact` | controller/em_limiter.py:214-218 | The target gain brings a peak over the threshold exactly to it. |
| `LimiterLaws.SteadyAtThreshold` | controller/em_limiter.py:186-295 | A stream of one magnitude over the threshold goes out at the threshold, sample for sample: it is limited no further than that. |
| `LimiterLaws.RecoversInReleaseTime` | controller/em_limiter.py:177-236 | Once the signal is under the threshold the gain comes back in a straight line, 10 dB per release time, and stops at 0 dB. |
| `LimiterLaws.FlushCeiling` | controller/em_limiter.py:276-295 | The flushed tail is within the threshold of the last limited chunk. |
| `LimiterLaws.FlushExact` | controller/em_limiter.py:276-295 | After any history the flush is within a bound if and only if the held samples are under the carried gain. |
| `LimiterLaws.CeilingFromCarry` | controller/em_limiter.py:186-295 | From any carried state the threshold is a ceiling for the rest of the stream and its flush if and only if nothing is more than 240 dB over it, or, when the look-ahead is never filled, the held samples are under it at the carried gain. |
| `LimiterLaws.CeilingExact` | controller/em_limiter.py:186-295 | For a whole fresh stream the threshold holds if and only if no sample is more than 240 dB over it. |
| `LimiterLaws.ReuseExact` | controller/em_limiter.py:186-295 | After a flush, in any chunks: the ceiling holds if and only if the stream is within reach when it fills the look-ahead, and is under it at the old gain when it does not. |
| `LimiterLaws.ReuseAfterRuns` | controller/em_limiter.py:154-295 | So it does after any number of earlier streams of chunks and retunes, each flushed, with no assumption on the gain they leave. |
| `LimiterLaws.TransparentExactly` | controller/em_limiter.py:186-295 | An enabled limiter gives a fresh stream back sample for sample, behind the look-ahead's silence, if and only if it is within the threshold. |
| `LimiterLaws.BypassDelays` | controller/em_limiter.py:186-295 | A limiter bypassed from the start only delays its stream by the priming silence. |
| `LimiterLaws.EnabledAfterBypassExactly` | controller/em_limiter.py:154-295 | Enabled between a bypassed chunk and the flush, it emits what it held: within a bound, and without a clip counted, if and only if that is. |
| `LimiterLaws.EnabledAfterBypassClips` | controller/em_limiter.py:154-295 | An input of that: a held sample over full scale is clipped by the flush. |
| `LimiterLaws.ReuseAfterFlushExceeds` | controller/em_limiter.py:276-295 | An input for the other case of reuse: a stream shorter than the look-ahead goes out over the threshold. |
| `Biquads.SosFiltSplit` | controller/em_eq.py:331-344 | Filtering two chunks with the state carried is filtering their concatenation. |
| `Biquads.UnityPasses` | controller/em_eq.py:186-200 | Unity sections at rest change nothing. |
| `Biquads.DifferenceEquation` | controller/em_eq.py:331-344 | One section satisfies `y[n] = b0 x[n] + b1 x[n-1] + b2 x[n-2] - a1 y[n-1] - a2 y[n-2]`, from rest. |
| `Biquads.SectionsInSeries` | controller/em_eq.py:331-344 | Each section filters what the one before it gives. |
| `BassGuard.BandGain.GainsDb` | controller/em_mbc.py:126-146 | The band's gains are the slew-limited law's, carried across calls, with the deepest cut recorded. |
| `BassGuard.BandFloor` | controller/em_mbc.py:126-146 | The guard never cuts deeper than its floor; after the floor is raised a deeper gain recovers at the release rate. |
| `BassGuard.CompressionLaw` | controller/em_mbc.py:126-133 | Below the threshold the band is left alone; above it, 1/ratio of the excess is kept, cut no deeper than the floor. |
| `BassGuard.BandGainStep` | controller/em_mbc.py:126-146 | Each gain is its sample's target, or the gain before it plus the slew if that is lower. |
| `BassGuard.SlewIsRelease` | controller/em_mbc.py:113-124 | The band gain rises 10 dB per release time, which is taken as at least a tenth of a millisecond. |
| `BassGuard.Guard.ProcessChunk` | controller/em_mbc.py:206-224 | One chunk through the crossover, the low band under its gain; while bypassed the filters run on and the gain stays. |
| `BassGuard.Guard.SetParams` | controller/em_mbc.py:184-204 | Depth and bypass change, filters and gain carry on. |
| `BassGuard.GuardSplit` | controller/em_mbc.py:206-224 | Any two-way chunking gives the one-shot output, filter states and gain. |
| `BassGuard.LowBandIsCut` | controller/em_mbc.py:206-224 | Every output sample is the low band times its own gain plus the high band untouched. |
| `BassGuard.QuietIsBypassed` | controller/em_mbc.py:206-224 | While the low band is under the threshold and no cut is carried, on and bypassed are the same, output and state. |
| `Pcm.DecodeEncode` | controller/em_eq.py:331-344 | Decoding encoded samples gives them back. |
| `Pcm.EncodeDecode` | controller/em_eq.py:331-344 | Encoding decoded bytes gives them back. |
| `Pcm.DecodedSample` | controller/em_eq.py:331-344 | A sample is its two bytes, the low one first, in two's complement. |
| `Pcm.EncodedSample` | controller/em_eq.py:331-344 | And is written so. |
| `Pcm.QuantiseTowardZero` | controller/em_eq.py:331-344 | Output samples are clipped to int16 and cut toward zero, off by less than one. |
| `OutputChain.SamplesSplit` | controller/em_eq.py:331-344 | The whole chain, state and output, is indifferent to a cut between chunks. |
| `OutputChain.StagesInOrder` | controller/em_eq.py:331-344 | The curve is filtered first, then guarded, then multiplied by `10^(gain/20)`, and that is what the limiter gets. |
| `OutputChain.StreamedIsDriven` | controller/em_eq.py:331-359 | Over any chunks and the flush, what is sent is that stream, limited if there is a limiter, quantised. |
| `OutputChain.GainScales` | controller/em_eq.py:340-344 | With only a gain set, every two bytes streamed are the quantised product of the input sample and `10^(gain/20)`. |
| `OutputChain.GainApplied` | controller/em_eq.py:195-211 | So they are from the one-shot call. |
| `OutputChain.ChainCeiling` | controller/em_eq.py:331-359 | Through the whole chain, boost and curve included, no sample sent is over the limiter's threshold, as long as the limiter is driven within its reach. |
| `OutputChain.StreamIsApply` | controller/em_eq.py:150-211 | For a non-empty stream in any chunks, streamed bytes and flushed tail are `apply`'s bytes, and guard and limiter end alike. |
| `OutputChain.StreamIsApplyExactly` | controller/em_eq.py:214-222 | The equality holds for every stream if and only if it is non-empty or no look-ahead is held. |
| `OutputChain.BypassIsDelay` | controller/em_eq.py:331-359 | With nothing on but a bypassed limiter every stream comes out bit for bit, behind the look-ahead's silence. |
| `StreamingEq.StreamingEQ.constructor` | controller/em_eq.py:223-245 | A new chain runs the requested settings from a fresh state. |
| `StreamingEq.StreamingEQ.SetBands` | controller/em_eq.py:303-329 | The new curve is in force; filter state is kept exactly when a curve was running and the section count is the same. |
| `StreamingEq.StreamingEQ.Process` | controller/em_eq.py:331-344 | One call is one step of the chain on the carried state, broken buffers refused; `OutputChain.GainScales` and `StagesInOrder` say what a step does to the samples. |
| `StreamingEq.StreamingEQ.Flush` | controller/em_eq.py:346-359 | The limiter's tail, or nothing without a limiter. |
| `StreamingEq.Apply` | controller/em_eq.py:150-211 | The one-shot call computes the one-shot specification, and leaves the stages as it says; `OutputChain.GainApplied` says what that does to the samples. |
| `SpeakerStream.Speaker.StreamSpeaker` | controller/em_controller.py:706-738 | A prefix of the periods goes out, cut only by a set cancel event or an aborted send at that very period, then exactly one EOS. |
| `SpeakerStream.Speaker.StreamSpeakerChunks` | controller/em_controller.py:740-814 | However it ends, a prefix of the whole stream's periods goes out and then exactly one EOS; only a source that ran to its end has its last period padded, and an undisturbed stream is sent whole. |
| `SpeakerStream.Speaker.Pump` | controller/em_controller.py:756-790 | The chunks taken pass the chain in order, and whole periods of what it gave go out as they gather. |
| `SpeakerStream.PrefixOfWhole` | controller/em_controller.py:740-814 | Periods sent of what was taken are the first periods of the whole stream, unless they are the padded end of a part of it. |
| `SpeakerStream.Speaker.SendRest` | controller/em_controller.py:791-804 | The last partial period is padded once; more than a period left over raises instead. |
| `SpeakerStream.DirectIsJoined` | controller/em_controller.py:740-814 | Without a chain only the concatenation of the chunks matters, so both senders send the same frames. |
| `SpeakerStream.ThroughIsStream` | controller/em_controller.py:740-814 | With a chain the stream sends the chain's streamed output. |
| `SpeakerStream.PeriodsCharacterised` | controller/em_controller.py:706-722 | The frames are the one sequence of full periods that carries the PCM followed by less than a period of silence. |
| `SpeakerStream.StreamedResponseIsShort` | controller/em_controller.py:740-814 | What a streamed response sends is `apply`'s result without its last 2 * (lookahead - 1) bytes. |
| `LocalTime.EarliestShowing` | controller/em_alarms.py:91-110 | `fold=0` conversion gives the earliest instant that shows a wall time that exists. |
| `LocalTime.ShownByNow` | controller/em_alarms.py:113-146 | A wall time not after the local clock has been reached by now. |
| `LocalTime.GapAhead` | controller/em_alarms.py:91-110 | A wall time no instant shows lies in a gap whose end is found ahead of it. |
| `LocalTime.OffsetIsAdded` | controller/em_alarms.py:91-110 | The local clock shows the instant plus the offset of the last shift up to it. |
| `Alarms.ResolveLocal` | controller/em_alarms.py:91-110 | The minute-by-minute scan ends within its bound and computes the resolved instant. |
| `Alarms.ResolveSteps` | controller/em_alarms.py:91-110 | The scan stops at a wall minute that exists, before its bound. |
| `Alarms.ResolveIsFirst` | controller/em_alarms.py:91-110 | The result is the earliest instant showing the least existing wall minute at or after the requested one. |
| `Alarms.FiresAtItsTime` | controller/em_alarms.py:91-110 | A firing is the earliest instant showing the alarm's hour and minute on its day; if none does, the earliest showing the first minute that exists after it. |
| `Alarms.FindNextFire` | controller/em_alarms.py:113-146 | The search as coded computes the specified next firing; its mask test is `Alarms.WeeklyFirings`. |
| `Alarms.CalendarWeek` | controller/em_alarms.py:113-146 | Weekdays count from Monday, follow one another, and 1 January 1970 is a Thursday. |
| `Alarms.OncePerWeek` | controller/em_alarms.py:113-146 | Each weekday comes once in any seven days. |
| `Alarms.WeeklyMatchesOnce` | controller/em_alarms.py:113-146 | A weekly alarm matches each weekday of its mask exactly once in any seven days; which weekday a bit stands for is `Alarms.WeeklyFirings`. |
| `Alarms.WeeklyFirings` | controller/em_alarms.py:137-146 | For every set of weekdays, Monday being 0, and the mask that sums their powers of two, the firings are exactly those of the days that fall on them. |
| `Alarms.FireIncreasing` | controller/em_alarms.py:113-146 | Later days fire strictly later. |
| `Alarms.PastDayFired` | controller/em_alarms.py:113-146 | Days before the local start date have fired already, so starting there loses nothing. |
| `Alarms.NextFireIsLeast` | controller/em_alarms.py:113-146 | The firing found is the least one after the given instant over all days that match. |
| `Alarms.NextFireNone` | controller/em_alarms.py:113-146 | None exactly for a disabled, spent, dateless or dayless alarm: the fifteen-day window loses nothing. |
| `Alarms.NoneMeansNothingLeft` | controller/em_alarms.py:113-146 | None if and only if no firing remains. |
| `Alarms.KeysAreDaysExactly` | controller/em_alarms.py:168-178 | Occurrence keys are the firing days if and only if no gap of the zone crosses midnight. |
| `Alarms.KeysOrdered` | controller/em_alarms.py:168-178 | Keys never decrease along firings, and strictly increase in such a zone. |
| `Alarms.GapSharesKey` | controller/em_alarms.py:168-178 | Across a gap over midnight the alarm at its first minute fires on two days under one key. |
| `Alarms.KeysIncreaseExactly` | controller/em_alarms.py:168-178 | Keys increase along the firings of every alarm of a zone if and only if no gap crosses midnight. |
| `Alarms.OnceDateRingsNext` | controller/em_alarms.py:149-165 | A one-off alarm given the resolved date rings at the very next occurrence, or a day later exactly when a gap carries that occurrence over midnight. |
| `Alarms.OnceRingsLate` | controller/em_alarms.py:149-165 | For every gap over midnight, a one-off alarm for its first minute that rings a day after the next occurrence. |
| `TimerSession.AlarmSession.Apply` | controller/em_timers.py:80-127 | An event changes the session exactly as the ordered-queue specification says and keeps it consistent. |
| `TimerSession.AlarmSession.AddFinished` | controller/em_timers.py:112-127 | A finished timer joins the end of the ring unless it is there already. |
| `TimerSession.AlarmSession.DismissCurrent` | controller/em_timers.py:129-134 | Drops the head of the ring and promotes the next. |
| `TimerSession.AlarmSession.DismissAll` | controller/em_timers.py:136-140 | Empties the ring and returns it in order. |
| `TimerSession.AlarmSession.RemoveFinished` | controller/em_timers.py:161-168 | Deletes an id in place and says whether it was there. |
| `TimerSession.RunConsistent` | controller/em_timers.py:80-168 | Over every event sequence ids are distinct in each list, none both runs and rings, and none is cancelled. |
| `TimerSession.CancellationAbsorbs` | controller/em_timers.py:80-127 | A cancelled timer never runs or rings again. |
| `TimerSession.RunningIsLastSaid` | controller/em_timers.py:80-127 | Over every run a timer is listed as running, with its figures, if and only if the last thing said of it is that it started or was updated, and it was never cancelled. |
| `TimerSession.RingingIsFinished` | controller/em_timers.py:80-127 | Over every run an alarm rings only if the last thing said of it is that it finished, and it was never cancelled. |
| `TimerSession.FinishedIsHeard` | controller/em_timers.py:112-127 | After any run, news that a timer finished puts it at the end of the ring, unless it is there or was cancelled. |
| `TimerSession.RepeatIsIgnored` | controller/em_timers.py:99-103 | A payload seen again is a duplicate and changes nothing, whatever was said of other timers and dismissed in between. |
| `TimerSession.StartOrderKept` | controller/em_timers.py:80-127 | Running timers stay in the order they started, through every run. |
| `TimerSession.FirstRunningIsEarliest` | controller/em_timer_ring.py:29-45 | The countdown shows the earliest-started timer of those running, the paused among them. |
| `TimerSession.RingOrderKept` | controller/em_timers.py:80-168 | Over every run the ring is in the order its alarms finished in. |
| `TimerSession.DismissalIsOldest` | controller/em_timers.py:129-134 | Dismissing silences the alarm that has rung longest and no other. |
| `AlarmScheduler.Scheduler.ReconcileOnce` | controller/em_alarm_scheduler.py:60-74 | A pass is the alarms' passes in turn over the loaded rows. |
| `AlarmScheduler.Scheduler.ReconcileAlarm` | controller/em_alarm_scheduler.py:76-110 | One alarm's pass, with its early exits and failing writes, is the specified step. |
| `AlarmScheduler.Scheduler.Fire` | controller/em_api.py:432-485 | Firing applies a synthetic finished timer, ignores what the session has seen, starts a ring on a device that is ready, and drops it on one that is offline or muted; what that leaves in every queue is `AlarmSounds.FireDelivers`. |
| `AlarmScheduler.Scheduler.SetAlarmSchedule` | controller/em_db.py:1770-1790 | Stores the next fire, and the occurrence only when one is given. |
| `AlarmScheduler.Scheduler.SetDisabled` | controller/em_db.py:1755-1767 | Clears the row's enabled flag and nothing else. |
| `AlarmRuns.FireKeeps` | controller/em_api.py:432-485 | Firing the row's occurrence on a device in any state keeps the run invariant. |
| `AlarmRuns.AdvanceKeeps` | controller/em_alarm_scheduler.py:95-110 | Moving a row on, with either write failing, keeps every earlier ring unrepeatable. |
| `AlarmRuns.StepKeeps` | controller/em_alarm_scheduler.py:60-110 | Every legal operation keeps the run invariant. |
| `AlarmRuns.FreshTable` | controller/em_alarm_scheduler.py:60-74 | The run invariant holds of a controller just started on any table of sound rows. |
| `AlarmRuns.AtMostOneRing` | controller/em_alarm_scheduler.py:76-110 | Over every legal run - ticks, clock steps, outages, failed writes, recorded restarts - no occurrence rings twice. |
| `AlarmRuns.ScheduleAdvances` | controller/em_alarm_scheduler.py:76-110 | One pass never moves a stored fire back; beyond the grace window it lands after now. |
| `AlarmRuns.ScheduleNeverGoesBack` | controller/em_alarm_scheduler.py:60-110 | Over every legal run a stored fire never moves back, and a disabled alarm stays as it is. |
| `AlarmRings.DueRings` | controller/em_alarm_scheduler.py:86-94 | An occurrence due within the grace window rings in its alarm's pass if and only if it is new and the device is ready, whatever writes fail. |
| `AlarmRings.OnTimeRingsOnce` | controller/em_alarm_scheduler.py:60-110 | So it does over a whole tick, whatever else is scheduled and whatever happened before, and then only once. |
| `AlarmRings.TickCloses` | controller/em_alarm_scheduler.py:76-110 | A tick at or after a stored fire closes the occurrence, whether it rang or not, if and only if the row records it already or its write goes through; otherwise the row stands. |
| `AlarmRings.ClosedNeverRings` | controller/em_alarm_scheduler.py:60-110 | A closed occurrence never rings in any legal run, restarts included, unless it had rung before. |
| `AlarmRings.MissedForGood` | controller/em_alarm_scheduler.py:76-110 | An occurrence ticked with its device offline or muted, or past its grace window, never rings, whatever legally follows, if and only if the row records it already or its write goes through. |
| `AlarmRings.AwayAtFireTime` | controller/em_api.py:432-463 | The input that is lost: any alarm whose device is away at its first fire, its row written; a tick inside the grace window with the device back leaves it unrung. |
| `AlarmRings.AwayThenRestarted` | controller/em_alarm_scheduler.py:76-110 | The input that is not: the same tick with the write failing, a restart, and a tick at the same instant with the device ready ring it. |
| `AlarmRings.UnrecordedRestartRepeats` | controller/em_alarm_scheduler.py:86-110 | A ring that its row has not recorded rings again in the first tick after a restart. |
| `AlarmRings.RestartSafeExactly` | controller/em_alarm_scheduler.py:60-110 | Every legal run after a restart is free of repeated rings if and only if every ring is recorded in its row. |
| `AlarmRings.UnsettledByFailedWrite` | controller/em_alarm_scheduler.py:86-110 | The input that is unsafe: any alarm that rings on time while its row cannot be written. |
| `AlarmRings.SharedKeyIsSkipped` | controller/em_alarm_scheduler.py:86-94 | In every zone with a gap over midnight there is an alarm for which create, tick, tick leaves the second day's firing unrung. |
| `AlarmRings.MidnightGap` | controller/em_alarm_scheduler.py:86-94 | There is such a zone. |
| `AlarmSounds.FireDelivers` | controller/em_api.py:432-485 | A new firing puts its record at the end of a ready device's queue and empties that of a device that is away; no other device's session moves, and a firing seen before changes no queue. |
| `AlarmSounds.PassDelivers` | controller/em_alarm_scheduler.py:76-110 | One alarm's pass delivers its stored occurrence exactly when it is up to 600 seconds old and new to the session; otherwise no queue changes. |
| `AlarmSounds.TickSounds` | controller/em_alarm_scheduler.py:60-74 | After a whole tick each ready device's queue has grown by its own new alarms in order, that of a device away is empty if anything fired for it, and the others stand. |
| `AlarmSounds.NewlyRungSounds` | controller/em_api.py:432-485 | Whatever a tick newly rings is in its device's queue when the tick is over. |
| `AlarmSounds.RungWasSounded` | controller/em_alarm_scheduler.py:60-110 | Over every legal run, whatever rang was in its device's queue right after the tick that rang it. |
| `PunctualAlarms.PunctualRings` | controller/em_alarm_scheduler.py:60-110 | Whatever else legally happens in a run, if the first tick at or after each firing of an alarm finds it in the grace window, its device ready and its row writable, then the firings since its creation that ring are exactly those reached by a tick, each once. |
| `PunctualAlarms.StepInStep` | controller/em_alarm_scheduler.py:76-110 | Every step of such a run keeps the row past exactly the firings reached, those rung, and no other known to the session. |
| `PunctualAlarms.ModerateIsApart` | controller/em_alarms.py:91-146 | Where no shift is 23 hours 50 minutes or more, an alarm's firings have grace windows of their own. |
| `LeastSquares.ErrorDecomposes` | controller/em_clock.py:95-111 | Any line's squared error is the fit's plus the squared distance between the lines. |
| `LeastSquares.FitMinimises` | controller/em_clock.py:95-111 | No affine function has a smaller squared error than the fit, the zero denominator included. |
| `LeastSquares.FitUnique` | controller/em_clock.py:95-111 | With two distinct abscissae the minimiser is unique. |
| `LeastSquares.FitNear` | controller/em_clock.py:95-111 | If every point is within a bound of a line, the fit is within that bound times the root of their number, at each of them. |
| `ClockSync.ClockSync.Update` | controller/em_clock.py:69-93 | A probe is accepted exactly when it passes the filters, and its sample is then the newest; otherwise only the rejection count changes. The samples are those of the accepted probes so far. |
| `ClockSync.AppendKeepsNewest` | controller/em_clock.py:55-93 | The samples kept are the newest, up to the limit. |
| `ClockSync.SampleInstant` | controller/em_clock.py:69-93 | A sample's instant is within its probe's sending and return, half-way, to the microsecond. |
| `ClockSync.OffsetErrorIs` | controller/em_clock.py:69-93 | Against a device on any affine clock, a sample's exact error is half the asymmetry of the paths in device time, half the drift when `t1 + t4` is odd, and the mean of the two stamps' rounding. |
| `ClockSync.ProbesRecover` | controller/em_clock.py:69-140 | After any probes over equal delays of a device on an affine clock, those accepted and kept spanning a positive time, every conversion is the device's reading, rounded. |
| `ClockSync.ProbesNear` | controller/em_clock.py:69-140 | With delays unequal by a bound, stamps rounded and half-way instants cut to whole microseconds, every conversion is within a stated multiple of that bound of the device's reading. |
| `ClockSync.KeptWithinMaxRtt` | controller/em_clock.py:69-93 | For a constant offset no sample kept errs by more than half the round-trip limit. |
| `ClockSync.ClockSync.Refit` | controller/em_clock.py:95-111 | The stored line is the fit of the samples kept, referred to the oldest. |
| `ClockSync.ClockSync.ControllerToDevice` | controller/em_clock.py:136-140 | Converts by the fit of the samples kept; no sample, no answer. |
| `ClockSync.ClockSync.DeviceToController` | controller/em_clock.py:142-150 | Converts back by one fixed-point step; no sample, no answer. |
| `ClockSync.EstimateIsOptimal` | controller/em_clock.py:95-111 | No affine clock model fits the kept samples better. |
| `ClockSync.EstimateRecovers` | controller/em_clock.py:95-111 | Samples spanning a positive time recover the offset and drift they lie on. |
| `ClockSync.OneInstant` | controller/em_clock.py:95-111 | Samples of one instant give drift zero and the mean offset. |
| `ClockSync.OffsetWithinHalfRtt` | controller/em_clock.py:69-93 | For a constant offset the sample errs by at most half its round trip, with equality exactly when one path has no delay. |
| `ClockSync.RoundTripBound` | controller/em_clock.py:131-150 | Controller to device and back errs by at most drift^2 * distance + half of (1 - drift) + 1/2 microseconds. |
| `ClockSync.ToDeviceMonotone` | controller/em_clock.py:136-140 | Order is kept as long as the drift does not reverse the clock. |
| `ClockSync.ConversionIsTruth` | controller/em_clock.py:131-140 | Against a device on an affine clock every conversion is the device's reading, rounded. |
| `ClockSync.SynchronizedConverts` | controller/em_clock.py:113-140 | A clock that calls itself synchronised over a positive span converts as the device's affine clock does. |
| `ClockSync.ConstantOffsetRoundTrip` | controller/em_clock.py:131-150 | With no drift and a whole offset, going to device time and back is exact. |
| `CaptureReceiver.Receiver.Feed` | controller/em_capture_upload.py:106-119 | One frame moves the receiver as the automaton says, any failure back to idle. |
| `CaptureReceiver.Receiver.Begin` | controller/em_capture_upload.py:121-132 | A BEGIN is taken exactly when idle and well formed, and opens an empty reception. |
| `CaptureReceiver.Receiver.TakePcm` | controller/em_capture_upload.py:134-142 | A PCM frame is taken exactly when it is the next one and the reception has room. |
| `CaptureReceiver.Receiver.End` | controller/em_capture_upload.py:144-157 | A capture is emitted exactly when count, length, duration and digest agree. |
| `CaptureReceiver.ValidateMetadata` | controller/em_capture_upload.py:42-93 | The checks in their order accept exactly the valid metadata and keep it with its scores as floats. |
| `CaptureReceiver.ValidateIsProjection` | controller/em_capture_upload.py:42-93 | Metadata once accepted is accepted again unchanged. |
| `CaptureReceiver.ReceptionIsContiguous` | controller/em_capture_upload.py:106-142 | A reception in progress is a BEGIN met while idle and the numbered frames since. |
| `CaptureReceiver.EmittedIffUpload` | controller/em_capture_upload.py:106-157 | Over every frame stream a capture comes out at a frame if and only if a whole upload, begun while idle, ends there with those contents. |
| `CaptureReceiver.CaptureMatchesMetadata` | controller/em_capture_upload.py:42-157 | An emitted capture holds 32 bytes per millisecond its metadata claims, and is marked complete exactly when that is all that was requested. |
| `CaptureReceiver.UploadsAreDisjoint` | controller/em_capture_upload.py:106-157 | No frame belongs to two captures. |
| `CaptureReceiver.InterruptingUploadIsLost` | controller/em_capture_upload.py:106-132 | An upload begun during another is refused frame by frame, and the receiver is idle again. |
| `CaptureReceiver.UploadDeliveredExactly` | controller/em_capture_upload.py:106-157 | A whole upload in any frame stream is delivered if and only if the frame before it was refused or ended a capture, or there was none. |
| `CaptureReceiver.UploadRoundTrip` | controller/em_capture_upload.py:106-157 | What a sender frames - valid metadata, whole 80 ms chunks, totals and digest - comes out of an idle receiver as that metadata and that audio. |
| `AssetSync.PlanSync` | controller/em_oww_assets.py:313-384 | The loop's plan is the specified one: what is missing, blocked or not, and the extras past the slots. |
| `Recency.NewestSorts` | controller/em_oww_assets.py:358-365 | What may be evicted is sorted newest first, nothing lost and nothing added. |
| `Recency.NewestStable` | controller/em_oww_assets.py:358-365 | Files of one age keep the listing's order. |
| `AssetSync.PruneIsSafe` | controller/em_oww_assets.py:358-384 | Only undesired models are deleted, none newer than a leftover spared, the leftovers number at most slots - selected, and the kept are those and what is held of the desired. |
| `AssetSync.BudgetIsSelected` | controller/em_oww_assets.py:358-382 | Deletions leave just as many undesired models as the slots less the selected classifiers; each is a `.onnx` that is neither desired nor shared. |
| `AssetSync.BlockedExactly` | controller/em_oww_assets.py:346-356 | A plan is blocked if and only if something is missing, the free space is known and the pushes would leave under 50 MB of it. |
| `AssetSync.RoomThroughout` | controller/em_oww_assets.py:346-356 | An unblocked plan leaves at least 50 MB after each of its pushes. |
| `AssetSync.TouchIsLatest` | controller/em_api.py:4699-4712 | After a sync that reaches its touch the selected classifier is the most recently used file on the device. |
| `AssetSync.JustUsedSurvives` | controller/em_oww_assets.py:358-382 | And the most recently used file is not deleted by any plan with a slot to spare. |
| `AssetSync.Device.Sync` | controller/em_api.py:4632-4714 | A sync planned on whatever lines of the listing arrived stores the pushes that ran on the device, a last unheard one included, deletes only if all were confirmed, and reports success whatever of the clean-up ran. |
| `AssetSync.Device.CleanUp` | controller/em_api.py:4699-4712 | The clean-up removes what the plan names and touches the selected classifier, as far as the commands run. |
| `AssetSync.SyncConverges` | controller/em_oww_assets.py:313-384 | Planning again after a sync is a no-op if and only if its deletions were carried out and equal names mean equal contents. |
| `AssetSync.PartialPlanIsSafe` | controller/em_oww_assets.py:442-463 | A plan made on part of a listing pushes all that is missing and deletes only undesired models older than as many others as there are slots. |
| `AssetSync.PartialSyncConverges` | controller/em_oww_assets.py:442-463 | After a sync on part of a listing, a whole one gives a no-op if and only if equal names mean equal contents and the undesired models fit their slots. |
| `AssetSync.CustomNamesake` | controller/em_oww_assets.py:313-384 | The input that never settles: a custom classifier in a file named like a shared model, on any device. |
| `AssetSync.ExtrasLeft` | controller/em_oww_assets.py:358-384 | The undesired models left fit their slots if and only if every deletion was carried out. |
| `AssetSync.SyncRepairsSelected` | controller/em_oww_assets.py:387-411 | After an unblocked sync of consistent assets the selected classifier is not missing, whatever of the listing arrived and of the clean-up ran. |
| `AssetSync.StoppedLeavesRest` | controller/em_oww_assets.py:313-384 | Stopping after k pushes leaves exactly the rest of the plan: the names not yet pushed, and as many deletions - the same, if the device lists its extras in the same order. |
| `SlotUpdate.Device.DetectSlot` | controller/em_api.py:2472-2512 | Detection writes nothing on an A/B layout; a legacy layout is migrated through states that all boot the same binary; exactly when it succeeds. |
| `SlotUpdate.Device.StreamToSlot` | controller/em_api.py:2901-3113 | Succeeds exactly when the bytes landed, were verified and the move was heard to run, and says at which stage it stopped otherwise; a slot only ever receives bytes of the wanted digest, and a failed transfer changes it exactly when the move ran and its answer was lost. |
| `SlotUpdate.Device.RunUpdate` | controller/em_api.py:2431-2573 | In every state an update passes through, a reboot starts the old binary or bytes of the new digest, and the active slot is untouched; exactly when it ends restarted or failed at which stage; restarted with the flip run, it boots the bytes that landed, from the other slot. |
| `SlotUpdate.RunUpdates` | controller/em_api.py:2431-2573 | Over every series of updates the device boots its original binary or some update's payload at every moment. |
| `SlotUpdate.StagingIsSafe` | controller/em_api.py:2520-2562 | Writing the spare slot keeps what boots and which slot is linked, on both layouts. |
| `FirmwareCache.NamesAreFiles` | controller/em_firmware.py:49-87 | Two names are one file if and only if one tag is another with a sidecar extension. |
| `FirmwareCache.StepKeeps` | controller/em_firmware.py:94-191 | Where no tag is another's digest, every step of every task keeps digest files holding only digests of bytes written for their version. |
| `FirmwareCache.ReadsAreWrites` | controller/em_firmware.py:94-191 | For any set of tags: in every run about them - interleavings, crashes, failures, shared .part files - a read returns nothing or exactly some write's bytes for its version, if and only if no usable tag is another with `.md5` appended. |
| `FirmwareCache.DigestTagBreaks` | controller/em_firmware.py:49-160 | The run that breaks it: an emptied binary in place, and a release whose binary is the other's digest. |
| `FirmwareCache.WriteThenRead` | controller/em_firmware.py:94-160 | After any run, whatever tags are in use, a write left alone and then a read left alone give the bytes back. |
| `FirmwareCache.StoppedWrite` | controller/em_firmware.py:134-160 | A write stopped after any step: the payload is the old one until the rename, the digest the old, empty or new one, and nothing else but the .part differs. |
| `FirmwareCache.ReadAfterStoppedWrite` | controller/em_firmware.py:94-160 | And what the next read then returns: the old bytes before the digest is touched, nothing between the digest and the rename unless the bytes are the same, the new ones after it. |
| `FirmwareCache.ReadsIs` | controller/em_firmware.py:94-131 | A read left alone returns the payload if and only if a digest is on file and is its own; an unequal pair is removed, and nothing else is. |
| `FirmwareCache.PruneAlone` | controller/em_firmware.py:181-187 | Removing an entry removes its payload and its digest. |
| `FirmwareCache.FailedWriter` | controller/em_firmware.py:151-157 | A write that fails removes its .part and no other file. |
| `FirmwareCache.TagStaysInside` | controller/em_firmware.py:49-87 | No file of a usable tag has a slash in its name. |
| `FirmwareCache.Cache.Write` | controller/em_firmware.py:134-191 | Uninterrupted and pruned: each file is as the put left it, or gone with an entry past the two used most recently; no other entry is left, and a version newer than all others survives its own write with its digest. |
| `FirmwareCache.Cache.Put` | controller/em_firmware.py:146-154 | Payload and digest of the version agree afterwards, the .part is gone, it is the newest, and every other file is as it was. |
| `FirmwareCache.Cache.Prune` | controller/em_firmware.py:163-191 | The entries left are the two used most recently; the others go with their digests, and nothing named like a sidecar is counted. |
| `FirmwareCache.NewestIsKept` | controller/em_firmware.py:163-191 | An entry newer than all the others is kept. |
| `FirmwareCache.DroppedAreOlder` | controller/em_firmware.py:163-191 | Nothing dropped is newer than anything kept. |
| `FirmwareCache.Cache.Read` | controller/em_firmware.py:94-131 | Returns the payload exactly when its digest matches, and then counts as a use; a pair that disagrees is removed, and every other file stands. |
| `Recordings.ParseIsPattern` | controller/em_recordings.py:63-100 | The parser accepts exactly the pattern's names, with one reading each. |
| `Recordings.FilenameRoundTrip` | controller/em_recordings.py:86-100 | A name parses back to its recording if and only if the turn has at most nineteen digits. |
| `Recordings.RoundTripExactly` | controller/em_recordings.py:63-100 | That is, if and only if the turn is below ten to the nineteenth. |
| `Recordings.NamesWritten` | controller/em_recordings.py:86-92 | The name is device, underscore, the turn in decimal, `_tts` for speech, `.wav`. |
| `Recordings.FilenameInjective` | controller/em_recordings.py:86-92 | No two recordings share a name. |
| `Recordings.OwnershipIsExclusive` | controller/em_recordings.py:210-221 | A recording resolves for its own device only. |
| `Recordings.NewestTurns` | controller/em_recordings.py:175-184 | Computes the newest turns, as many as are kept. |
| `Recordings.NewestUnique` | controller/em_recordings.py:175-184 | There is only one such choice. |
| `Recordings.Store.Prune` | controller/em_recordings.py:175-194 | Exactly the device's older turns go, except where a deletion fails, and no other device's file. |
| `Recordings.Store.Save` | controller/em_recordings.py:119-140 | Adds the recording and prunes; nothing is written for an unnameable turn or no audio. |
| `Recordings.NewestTurnSurvives` | controller/em_recordings.py:119-140 | A newest turn survives its own pruning. |
| `MediaPlayer.MediaSession.UserCommand` | controller/em_player.py:215-257 | A command is carried out, or recorded and announced while a turn owns the speaker; playing is announced by the feed it starts. |
| `MediaPlayer.MediaSession.TurnStarts` | controller/em_player.py:260-299 | A turn takes the speaker, ducking or pausing. |
| `MediaPlayer.MediaSession.TurnEnds` | controller/em_player.py:302-350 | A turn's end settles the recorded command or puts the music back. |
| `MediaPlayer.MediaSession.Started` | controller/em_player.py:548-660 | A feed that reaches its source while the session plays announces it. |
| `MediaPlayer.MediaSession.Ended` | controller/em_player.py:736-768 | A feed that ends by itself leaves a playing session idle and announces it. |
| `MediaPlayer.CommandsWait` | controller/em_player.py:215-299 | During a turn no command touches the session, and the last one waits. |
| `MediaPlayer.TurnIsLastCommand` | controller/em_player.py:302-350 | After a turn the session is what the last command alone makes of the undisturbed session, or is restored. |
| `MediaPlayer.TurnPlays` | controller/em_player.py:215-350 | After a turn in which something was said: the URL last asked for plays, a stop leaves nothing, and a pause or resume acts on the music as it was left. |
| `MediaPlayer.CommandsAct` | controller/em_player.py:215-257 | Outside a turn a command has that effect at once. |
| `MediaPlayer.UndisturbedIs` | controller/em_player.py:260-350 | A turn in which nothing was said leaves the session as it was, unless its music ended by itself meanwhile. |
| `MediaPlayer.DuckingIsPausing` | controller/em_player.py:260-350 | Devices that duck and devices that pause end a turn with the same music. |
| `MediaPlayer.PlayingUntilAsked` | controller/em_player.py:185-212 | Music that was playing is reported as playing until the first command or its real end. |
| `MediaPlayer.ToldTheTruth` | controller/em_player.py:185-350 | Once a feed started at the turn's end is under way, Home Assistant has the session's state if and only if the last command was not a pause or resume of an idle session. |

## Left out

- HTTP handlers, authentication, dashboard, provisioning, release polling and support bundles: plumbing around the modelled logic.
- The device's incoming data plane (`handle_data`: microphone queue, capture routing): only the capture parser behind it is modelled.
- The voice-turn engine, the sendspin, volume and training-capture modules, and small decision modules: not needed by any property here.
- Floating point: sample rounding is modelled (`Pcm.Quantise`), coefficient and gain rounding is not; crossover flatness is not claimed.
- `StreamingEQ.update`, `reset`, `describe_chain` and `describe_activity`: wrappers and log text around what is modelled.
- `countdown_spec`: display arithmetic.
- BassGuard.Guard.ProcessChunk: the instrumentation property `max_reduction_db` is kept per band and not summarised.
- ClockSync.ClockSync.Update: the check that timestamps are integers and not booleans is in the types.
- SpeakerStream.Speaker.Send: a frame counts as sent when handed to the data connection; the reconnect grace and frames lost without a connection are not modelled.
- SpeakerStream.Speaker.StreamSpeakerChunks: timing figures other than the byte total are not modelled.
- AlarmScheduler.Scheduler.ReconcileOnce: one alarm's pass is atomic, ring sessions are values here (the object is `TimerSession.AlarmSession`), and the sleeping loop around the passes is a sequence of ticks.
- `TimerAlarmRunner`: what its coroutines do depends on how they interleave; the session is modelled, not the runner.
- Alarm edits: the source has no route that changes an alarm's spec, so rows are created, advanced, disabled and deleted only.
- AssetSync.Device.Sync: a push is a verdict: not run, run and unheard, or run and heard; how a file is transferred is `SlotUpdate.Device.StreamToSlot`. A line of the listing arrives whole or not at all. Building the desired list from the models on disk is not modelled.
- SlotUpdate.Device.RunUpdate: `ln -sf` is one step, as the source's comment has it; the device's own automatic rollback, `_run_rollback` (which flips without looking at the other slot) and the start-script sync are not modelled.
- FirmwareCache.ReadsAreWrites: a digest file's one small write lands whole or not at all, and which entries a pruning picks (by age) is left to the pruner tasks; `FirmwareCache.Cache.Prune` has the choice.
- FirmwareCache.Cache.Write: the order among files of one age is the directory listing's, a parameter; a deletion that fails is with the pruner tasks.
- Recordings.ParseIsPattern: Python's `\d` also accepts other scripts' digits; the model has the ASCII ones.
- Recordings.Store.Prune: the order of the returned names and the global `prune_all` are not modelled.
- MediaPlayer.TurnIsLastCommand: one turn at a time; a second interrupt inside a turn clears the waiting command. Positions, seeking, the feed's pacing and a device that disconnects are not modelled.
