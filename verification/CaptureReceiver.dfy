/** Wake-training capture uploads (controller/em_capture_upload.py): a receiver automaton over a stream
    of frames, any of which may be damaged, missing or out of order. */
module CaptureReceiver {
  import opened Chunks
  import opened Options
  import opened Pcm

  type Bytes = seq<Byte>

  /** What json.loads yields. `NonFinite` stands for NaN and the infinities, which it accepts. */
  datatype Json =
    | Null
    | Bool(b: bool)
    | Integer(n: int)
    | Number(r: real)
    | NonFinite
    | Text(s: string)
    | Items(items: seq<Json>)
    | Object(fields: Fields)

  type Fields = map<string, Json>

  /** The two library functions the receiver calls: UTF-8 and JSON decoding, and MD5. */
  datatype Codec = Codec(parse: Bytes -> Option<Json>, md5: Bytes -> Bytes)

  datatype Capture = Capture(metadata: Fields, pcm: Bytes)

  // ---- Metadata

  function Get(m: Fields, key: string): Json {
    if key in m then m[key] else Null
  }

  /** isinstance(value, int): booleans are integers. */
  function IntOf(v: Json): Option<int> {
    match v
    case Integer(n) => Some(n)
    case Bool(b) => Some(if b then 1 else 0)
    case _ => None
  }

  /** value == n, across the numeric types. */
  predicate EqualsInt(v: Json, n: int) {
    match v
    case Integer(m) => m == n
    case Bool(b) => (if b then 1 else 0) == n
    case Number(r) => r == n as real
    case _ => false
  }

  /** A score: a number, not a boolean, between zero and one. */
  function ScoreOf(v: Json): Option<real> {
    match v
    case Integer(n) => if 0 <= n <= 1 then Some(n as real) else None
    case Number(r) => if 0.0 <= r <= 1.0 then Some(r) else None
    case _ => None
  }

  predicate WordChar(c: char) {
    'A' <= c <= 'Z' || 'a' <= c <= 'z' || '0' <= c <= '9' || c == '_' || c == '.' || c == '-'
  }

  predicate HexChar(c: char) {
    '0' <= c <= '9' || 'a' <= c <= 'f'
  }

  predicate IdText(v: Json) {
    v.Text? && 1 <= |v.s| <= 96 && forall i :: 0 <= i < |v.s| ==> WordChar(v.s[i]) || v.s[i] == ':'
  }

  predicate ModelText(v: Json) {
    v.Text? && 1 <= |v.s| <= 80 && forall i :: 0 <= i < |v.s| ==> WordChar(v.s[i])
  }

  predicate ChecksumText(v: Json) {
    v.Text? && |v.s| == 32 && forall i :: 0 <= i < |v.s| ==> HexChar(v.s[i])
  }

  predicate Activation(kind: Json) {
    kind == Text("act") || kind == Text("stop_act")
  }

  predicate NearMiss(kind: Json) {
    kind == Text("miss") || kind == Text("stop_miss")
  }

  predicate ValidScores(m: Fields) {
    var score, threshold := ScoreOf(Get(m, "score")), ScoreOf(Get(m, "threshold"));
    var floor := ScoreOf(Get(m, "nearMissFloor"));
    var kind := Get(m, "kind");
    && score.Some? && threshold.Some? && floor.Some?
    && (Activation(kind) || NearMiss(kind))
    && (Activation(kind) ==> score.value >= threshold.value)
    && (NearMiss(kind) ==> floor.value < score.value < threshold.value)
  }

  predicate ValidAudio(m: Fields) {
    && EqualsInt(Get(m, "sampleRate"), 16000) && EqualsInt(Get(m, "sampleWidth"), 2)
    && EqualsInt(Get(m, "channels"), 1) && EqualsInt(Get(m, "frameBytes"), 2560)
  }

  predicate ValidExtent(m: Fields) {
    var sequence, requested, actual :=
      IntOf(Get(m, "activationSeq")), IntOf(Get(m, "requestedPrerollMs")), IntOf(Get(m, "actualPrerollMs"));
    && sequence.Some? && 0 <= sequence.value <= 0xFFFF
    && requested.Some? && 80 <= requested.value <= 5000
    && actual.Some? && 80 <= actual.value <= 62 * 80
    && Get(m, "complete").Bool?
    && actual.value <= requested.value
    && Get(m, "complete").b == (actual.value == requested.value)
  }

  predicate ValidMetadata(m: Fields) {
    && IdText(Get(m, "captureId")) && ModelText(Get(m, "model")) && ChecksumText(Get(m, "classifierMd5"))
    && ValidScores(m) && ValidAudio(m) && ValidExtent(m)
    && Get(m, "bargeThresholdActive").Bool?
  }

  function WithScores(m: Fields, score: real, threshold: real, floor: real): Fields {
    m["score" := Number(score)]["threshold" := Number(threshold)]["nearMissFloor" := Number(floor)]
  }

  /** The metadata kept: the three scores become floats, everything else stays as sent. */
  function Validate(v: Json): Option<Fields> {
    if v.Object? && ValidMetadata(v.fields) then
      var m := v.fields;
      Some(WithScores(m, ScoreOf(Get(m, "score")).value, ScoreOf(Get(m, "threshold")).value,
                      ScoreOf(Get(m, "nearMissFloor")).value))
    else None
  }

  /** The checks one by one, in the order they are made. */
  method ValidateMetadata(v: Json) returns (r: Option<Fields>)
    ensures r == Validate(v)
  {
    if !v.Object? {
      return None;
    }
    var m := v.fields;
    if !IdText(Get(m, "captureId")) || !ModelText(Get(m, "model")) || !ChecksumText(Get(m, "classifierMd5")) {
      return None;
    }
    var kind := Get(m, "kind");
    if !Activation(kind) && !NearMiss(kind) {
      return None;
    }
    var score, threshold := ScoreOf(Get(m, "score")), ScoreOf(Get(m, "threshold"));
    var floor := ScoreOf(Get(m, "nearMissFloor"));
    if score.None? || threshold.None? || floor.None? {
      return None;
    }
    if Activation(kind) && score.value < threshold.value {
      return None;
    }
    if NearMiss(kind) && !(floor.value < score.value < threshold.value) {
      return None;
    }
    if !ValidAudio(m) {
      return None;
    }
    var extent := ExtentChecks(m);
    if !extent || !Get(m, "bargeThresholdActive").Bool? {
      return None;
    }
    r := Some(WithScores(m, score.value, threshold.value, floor.value));
  }

  method ExtentChecks(m: Fields) returns (ok: bool)
    ensures ok == ValidExtent(m)
  {
    var sequence, requested, actual := Get(m, "activationSeq"), Get(m, "requestedPrerollMs"), Get(m, "actualPrerollMs");
    if IntOf(sequence).None? || !(0 <= IntOf(sequence).value <= 0xFFFF) {
      return false;
    }
    if IntOf(requested).None? || !(80 <= IntOf(requested).value <= 5000) {
      return false;
    }
    if IntOf(actual).None? || !(80 <= IntOf(actual).value <= 4960) {
      return false;
    }
    var complete := Get(m, "complete");
    if !complete.Bool? {
      return false;
    }
    ok := && IntOf(actual).value <= IntOf(requested).value
          && complete.b == (IntOf(actual).value == IntOf(requested).value);
  }

  lemma ScoresStay(m: Fields, a: real, b: real, c: real)
    ensures var kept := WithScores(m, a, b, c);
            && Get(kept, "score") == Number(a) && Get(kept, "threshold") == Number(b)
            && Get(kept, "nearMissFloor") == Number(c)
    ensures WithScores(WithScores(m, a, b, c), a, b, c) == WithScores(m, a, b, c)
  {
  }

  lemma OtherStays(m: Fields, a: real, b: real, c: real, key: string)
    requires key != "score" && key != "threshold" && key != "nearMissFloor"
    ensures Get(WithScores(m, a, b, c), key) == Get(m, key)
  {
  }

  lemma TextsStay(m: Fields, a: real, b: real, c: real)
    ensures var kept := WithScores(m, a, b, c);
            && Get(kept, "captureId") == Get(m, "captureId") && Get(kept, "model") == Get(m, "model")
            && Get(kept, "classifierMd5") == Get(m, "classifierMd5") && Get(kept, "kind") == Get(m, "kind")
            && Get(kept, "bargeThresholdActive") == Get(m, "bargeThresholdActive")
  {
    OtherStays(m, a, b, c, "captureId");
    OtherStays(m, a, b, c, "model");
    OtherStays(m, a, b, c, "classifierMd5");
    OtherStays(m, a, b, c, "kind");
    OtherStays(m, a, b, c, "bargeThresholdActive");
  }

  lemma AudioStays(m: Fields, a: real, b: real, c: real)
    ensures ValidAudio(WithScores(m, a, b, c)) == ValidAudio(m)
  {
    OtherStays(m, a, b, c, "sampleRate");
    OtherStays(m, a, b, c, "sampleWidth");
    OtherStays(m, a, b, c, "channels");
    OtherStays(m, a, b, c, "frameBytes");
  }

  lemma ExtentStays(m: Fields, a: real, b: real, c: real)
    ensures ValidExtent(WithScores(m, a, b, c)) == ValidExtent(m)
  {
    OtherStays(m, a, b, c, "activationSeq");
    OtherStays(m, a, b, c, "requestedPrerollMs");
    OtherStays(m, a, b, c, "actualPrerollMs");
    OtherStays(m, a, b, c, "complete");
  }

  /** Metadata that was accepted is accepted again unchanged. */
  lemma ValidateIsProjection(v: Json)
    requires Validate(v).Some?
    ensures Validate(Object(Validate(v).value)) == Validate(v)
  {
    var m := v.fields;
    var a, b := ScoreOf(Get(m, "score")).value, ScoreOf(Get(m, "threshold")).value;
    var c := ScoreOf(Get(m, "nearMissFloor")).value;
    ScoresStay(m, a, b, c);
    TextsStay(m, a, b, c);
    AudioStays(m, a, b, c);
    ExtentStays(m, a, b, c);
  }

  // ---- Frames

  function Word(hi: Byte, lo: Byte): nat {
    256 * hi + lo
  }

  function DoubleWord(b: Bytes): nat
    requires |b| == 4
  {
    65536 * Word(b[0], b[1]) + Word(b[2], b[3])
  }

  /** The metadata of a well-formed BEGIN frame. */
  function BeginOf(codec: Codec, raw: Bytes): Option<Fields> {
    if |raw| >= 4 && raw[0] == 0x10 && raw[1] == 1
       && 0 < Word(raw[2], raw[3]) <= 4096 && |raw| == 4 + Word(raw[2], raw[3])
    then
      match codec.parse(raw[4..])
      case Some(v) => Validate(v)
      case None => None
    else None
  }

  /** A PCM frame numbered `index`. */
  predicate IsPcm(raw: Bytes, index: nat) {
    |raw| == 2563 && raw[0] == 0x11 && Word(raw[1], raw[2]) == index
  }

  /** An END frame that vouches for these chunks under this metadata. */
  predicate IsEnd(codec: Codec, raw: Bytes, m: Fields, chunks: seq<Bytes>) {
    && |raw| == 23 && raw[0] == 0x12
    && Word(raw[1], raw[2]) == |chunks| && DoubleWord(raw[3..7]) == |Joined(chunks)|
    && EqualsInt(Get(m, "actualPrerollMs"), 80 * |chunks|)
    && codec.md5(Joined(chunks)) == raw[7..]
  }

  // ---- The automaton

  datatype Reception = Idle | Receiving(metadata: Fields, chunks: seq<Bytes>)

  /** Every exception a frame can raise is `Refused`. */
  datatype Outcome = Quiet | Emitted(capture: Capture) | Refused

  function Step(codec: Codec, s: Reception, raw: Bytes): (Reception, Outcome) {
    if s.Idle? then
      match BeginOf(codec, raw)
      case Some(m) => (Receiving(m, []), Quiet)
      case None => (Idle, Refused)
    else if |s.chunks| < 62 && IsPcm(raw, |s.chunks|) then
      (Receiving(s.metadata, s.chunks + [raw[3..]]), Quiet)
    else if s.chunks != [] && IsEnd(codec, raw, s.metadata, s.chunks) then
      (Idle, Emitted(Capture(s.metadata, Joined(s.chunks))))
    else (Idle, Refused)
  }

  /** The reception after the first `j` frames of a stream. */
  function After(codec: Codec, frames: seq<Bytes>, j: nat): Reception
    requires j <= |frames|
  {
    if j == 0 then Idle else Step(codec, After(codec, frames, j - 1), frames[j - 1]).0
  }

  function OutcomeAt(codec: Codec, frames: seq<Bytes>, j: nat): Outcome
    requires j < |frames|
  {
    Step(codec, After(codec, frames, j), frames[j]).1
  }

  class Receiver {
    const codec: Codec
    var metadata: Option<Fields>
    var chunks: seq<Bytes>
    var nextIndex: nat

    ghost predicate Valid()
      reads this
    {
      && nextIndex == |chunks|
      && (metadata.None? ==> chunks == [])
    }

    ghost function View(): Reception
      reads this
    {
      if metadata.None? then Idle else Receiving(metadata.value, chunks)
    }

    constructor (codec: Codec)
      ensures Valid() && View() == Idle && this.codec == codec
    {
      this.codec := codec;
      metadata, chunks, nextIndex := None, [], 0;
    }

    method Reset()
      modifies this
      ensures Valid() && View() == Idle
    {
      metadata, chunks, nextIndex := None, [], 0;
    }

    method Feed(raw: Bytes) returns (out: Outcome)
      requires Valid()
      modifies this
      ensures Valid()
      ensures (View(), out) == Step(codec, old(View()), raw)
    {
      out := Refused;
      if raw != [] {
        if raw[0] == 0x10 {
          out := Begin(raw);
        } else if raw[0] == 0x11 {
          out := TakePcm(raw);
        } else if raw[0] == 0x12 {
          out := End(raw);
        }
      }
      if out == Refused {
        Reset();
      }
    }

    method Begin(raw: Bytes) returns (out: Outcome)
      requires Valid() && raw != [] && raw[0] == 0x10
      modifies this
      ensures out == Refused || out == Quiet
      ensures out == Quiet <==> old(metadata).None? && BeginOf(codec, raw).Some?
      ensures out == Quiet ==> Valid() && View() == Receiving(BeginOf(codec, raw).value, [])
    {
      if metadata.Some? || |raw| < 4 || raw[1] != 1 {
        return Refused;
      }
      var length := Word(raw[2], raw[3]);
      if !(0 < length <= 4096) || |raw| != 4 + length {
        return Refused;
      }
      match codec.parse(raw[4..]) {
        case None => return Refused;
        case Some(v) =>
          metadata := ValidateMetadata(v);
          return if metadata.Some? then Quiet else Refused;
      }
    }

    method TakePcm(raw: Bytes) returns (out: Outcome)
      requires Valid() && raw != [] && raw[0] == 0x11
      modifies this
      ensures out == Refused || out == Quiet
      ensures out == Quiet <==> old(metadata).Some? && |old(chunks)| < 62 && IsPcm(raw, |old(chunks)|)
      ensures out == Quiet ==> Valid() && View() == Receiving(old(metadata).value, old(chunks) + [raw[3..]])
    {
      if metadata.None? || |raw| != 3 + 2560 {
        return Refused;
      }
      var index := Word(raw[1], raw[2]);
      if index != nextIndex || index >= 62 {
        return Refused;
      }
      chunks := chunks + [raw[3..]];
      nextIndex := nextIndex + 1;
      return Quiet;
    }

    method End(raw: Bytes) returns (out: Outcome)
      requires Valid() && raw != [] && raw[0] == 0x12
      modifies this
      ensures out == if old(metadata).Some? && old(chunks) != [] && IsEnd(codec, raw, old(metadata).value, old(chunks))
                     then Emitted(Capture(old(metadata).value, Joined(old(chunks)))) else Refused
      ensures out != Refused ==> Valid() && View() == Idle
    {
      if metadata.None? || |raw| != 23 || chunks == [] {
        return Refused;
      }
      var count, byteCount := Word(raw[1], raw[2]), DoubleWord(raw[3..7]);
      var pcm := Joined(chunks);
      if count != |chunks| || byteCount != |pcm| {
        return Refused;
      }
      if !EqualsInt(Get(metadata.value, "actualPrerollMs"), count * 80) {
        return Refused;
      }
      if codec.md5(pcm) != raw[7..] {
        return Refused;
      }
      out := Emitted(Capture(metadata.value, pcm));
      Reset();
    }
  }

  // ---- What a stream of frames delivers

  function Payloads(frames: seq<Bytes>): (r: seq<Bytes>)
    requires forall n :: 0 <= n < |frames| ==> |frames[n]| == 2563
    ensures |r| == |frames|
  {
    seq(|frames|, n requires 0 <= n < |frames| => frames[n][3..])
  }

  /** Frames that are, in order, PCM 0, 1, 2, … */
  ghost predicate Numbered(frames: seq<Bytes>) {
    forall n :: 0 <= n < |frames| ==> IsPcm(frames[n], n)
  }

  /** A whole upload and nothing else: BEGIN, PCM 0 .. k-1 with 1 <= k <= 62, and an END whose count, length,
      duration and digest agree with exactly those payloads. */
  ghost predicate IsUpload(codec: Codec, segment: seq<Bytes>, c: Capture) {
    && 3 <= |segment| <= 64
    && BeginOf(codec, segment[0]) == Some(c.metadata)
    && var pcm := segment[1..|segment| - 1];
       && Numbered(pcm)
       && c.pcm == Joined(Payloads(pcm))
       && IsEnd(codec, segment[|segment| - 1], c.metadata, Payloads(pcm))
  }

  /** BEGIN at `i`, then PCM 0, 1, … up to frame `j`. */
  ghost predicate Opened(codec: Codec, frames: seq<Bytes>, i: nat, j: nat, m: Fields, chunks: seq<Bytes>) {
    && i < j <= |frames| && j - i - 1 <= 62
    && BeginOf(codec, frames[i]) == Some(m)
    && Numbered(frames[i + 1..j])
    && chunks == Payloads(frames[i + 1..j])
  }

  lemma OpenedStep(codec: Codec, frames: seq<Bytes>, i: nat, j: nat, m: Fields, chunks: seq<Bytes>)
    requires j < |frames| && j - i - 1 < 62
    requires Opened(codec, frames, i, j, m, chunks) && IsPcm(frames[j], |chunks|)
    ensures Opened(codec, frames, i, j + 1, m, chunks + [frames[j][3..]])
  {
    var a, b := frames[i + 1..j], frames[i + 1..j + 1];
    assert b == a + [frames[j]];
    assert Payloads(b) == chunks + [frames[j][3..]];
  }

  lemma OpenedHere(codec: Codec, frames: seq<Bytes>, i: nat)
    requires i < |frames| && BeginOf(codec, frames[i]).Some?
    ensures Opened(codec, frames, i, i + 1, BeginOf(codec, frames[i]).value, [])
  {
    assert frames[i + 1..i + 1] == [];
  }

  /** The only two ways to be receiving after a frame. */
  lemma StillReceiving(codec: Codec, s: Reception, raw: Bytes)
    requires Step(codec, s, raw).0.Receiving?
    ensures s.Idle? ==> BeginOf(codec, raw).Some? && Step(codec, s, raw).0 == Receiving(BeginOf(codec, raw).value, [])
    ensures s.Receiving? ==> |s.chunks| < 62 && IsPcm(raw, |s.chunks|)
    ensures s.Receiving? ==> Step(codec, s, raw).0 == Receiving(s.metadata, s.chunks + [raw[3..]])
  {
  }

  /** A reception in progress is a BEGIN met while idle and the numbered frames since, with nothing else between. */
  lemma {:induction false} ReceptionIsContiguous(codec: Codec, frames: seq<Bytes>, j: nat) returns (i: nat)
    requires j <= |frames| && After(codec, frames, j).Receiving?
    ensures i < j && After(codec, frames, i) == Idle
    ensures Opened(codec, frames, i, j, After(codec, frames, j).metadata, After(codec, frames, j).chunks)
  {
    var before := After(codec, frames, j - 1);
    StillReceiving(codec, before, frames[j - 1]);
    if before.Idle? {
      i := j - 1;
      OpenedHere(codec, frames, i);
    } else {
      i := ReceptionIsContiguous(codec, frames, j - 1);
      OpenedStep(codec, frames, i, j - 1, before.metadata, before.chunks);
    }
  }

  /** Conversely, from idle such frames are all taken. */
  lemma {:induction false} OpenedIsReceived(codec: Codec, frames: seq<Bytes>, i: nat, j: nat, m: Fields,
                                            chunks: seq<Bytes>)
    requires i < |frames| && After(codec, frames, i) == Idle && Opened(codec, frames, i, j, m, chunks)
    ensures After(codec, frames, j) == Receiving(m, chunks)
    decreases j
  {
    if j == i + 1 {
      assert chunks == [];
    } else {
      var a, b := frames[i + 1..j - 1], frames[i + 1..j];
      assert b == a + [frames[j - 1]];
      assert b[|a|] == frames[j - 1];
      assert forall n :: 0 <= n < |a| ==> a[n] == b[n];
      OpenedIsReceived(codec, frames, i, j - 1, m, Payloads(a));
      assert chunks == Payloads(a) + [frames[j - 1][3..]];
    }
  }

  lemma UploadParts(frames: seq<Bytes>, i: nat, j: nat)
    requires i < j < |frames|
    ensures var segment := frames[i..j + 1];
            && segment[1..|segment| - 1] == frames[i + 1..j]
            && segment[|segment| - 1] == frames[j] && segment[0] == frames[i]
  {
    var segment := frames[i..j + 1];
    var inner, direct := segment[1..|segment| - 1], frames[i + 1..j];
    assert |inner| == |direct|;
    forall n | 0 <= n < |inner| ensures inner[n] == direct[n] {
      assert inner[n] == segment[1 + n];
    }
  }

  lemma UploadOpens(codec: Codec, frames: seq<Bytes>, i: nat, j: nat, c: Capture) returns (chunks: seq<Bytes>)
    requires i < j < |frames| && IsUpload(codec, frames[i..j + 1], c)
    ensures Opened(codec, frames, i, j, c.metadata, chunks) && chunks != []
    ensures c.pcm == Joined(chunks) && IsEnd(codec, frames[j], c.metadata, chunks)
  {
    UploadParts(frames, i, j);
    chunks := Payloads(frames[i + 1..j]);
  }

  lemma OpenedEnds(codec: Codec, frames: seq<Bytes>, i: nat, j: nat, m: Fields, chunks: seq<Bytes>)
    requires i < j < |frames| && Opened(codec, frames, i, j, m, chunks) && chunks != []
    requires IsEnd(codec, frames[j], m, chunks)
    ensures IsUpload(codec, frames[i..j + 1], Capture(m, Joined(chunks)))
  {
    UploadParts(frames, i, j);
  }

  lemma UploadIsEmitted(codec: Codec, frames: seq<Bytes>, i: nat, j: nat, c: Capture)
    requires i < j < |frames| && After(codec, frames, i) == Idle && IsUpload(codec, frames[i..j + 1], c)
    ensures OutcomeAt(codec, frames, j) == Emitted(c)
  {
    var chunks := UploadOpens(codec, frames, i, j, c);
    OpenedIsReceived(codec, frames, i, j, c.metadata, chunks);
  }

  lemma EmittedIsUpload(codec: Codec, frames: seq<Bytes>, j: nat, c: Capture) returns (i: nat)
    requires j < |frames| && OutcomeAt(codec, frames, j) == Emitted(c)
    ensures i < j && After(codec, frames, i) == Idle && IsUpload(codec, frames[i..j + 1], c)
  {
    i := ReceptionIsContiguous(codec, frames, j);
    OpenedEnds(codec, frames, i, j, After(codec, frames, j).metadata, After(codec, frames, j).chunks);
  }

  /** The frames from `i` to `j` are a whole upload, met with nothing in progress. */
  ghost predicate FreshUpload(codec: Codec, frames: seq<Bytes>, i: nat, j: nat, c: Capture)
    requires j < |frames|
  {
    i < j && After(codec, frames, i) == Idle && IsUpload(codec, frames[i..j + 1], c)
  }

  /** Over every stream of frames: a capture comes out at frame `j` exactly when some whole upload ends there
      that began while nothing was in progress. Damaged frames can cost captures, never alter one. */
  lemma EmittedIffUpload(codec: Codec, frames: seq<Bytes>, j: nat, c: Capture)
    requires j < |frames|
    ensures OutcomeAt(codec, frames, j) == Emitted(c)
       <==> exists i: nat :: FreshUpload(codec, frames, i, j, c)
  {
    if OutcomeAt(codec, frames, j) == Emitted(c) {
      var i := EmittedIsUpload(codec, frames, j, c);
      assert FreshUpload(codec, frames, i, j, c);
    } else if i: nat :| FreshUpload(codec, frames, i, j, c) {
      UploadIsEmitted(codec, frames, i, j, c);
      assert false;
    }
  }

  lemma {:induction false} JoinedSize(chunks: seq<Bytes>)
    requires forall n :: 0 <= n < |chunks| ==> |chunks[n]| == 2560
    ensures |Joined(chunks)| == 2560 * |chunks|
  {
    if |chunks| > 0 {
      JoinedSize(chunks[1..]);
    }
  }

  lemma BegunIsValid(codec: Codec, raw: Bytes)
    requires BeginOf(codec, raw).Some?
    ensures ValidMetadata(BeginOf(codec, raw).value)
  {
    ValidateIsProjection(codec.parse(raw[4..]).value);
  }

  /** Milliseconds of audio claimed by metadata that was accepted. */
  function ActualMs(m: Fields): int {
    if IntOf(Get(m, "actualPrerollMs")).Some? then IntOf(Get(m, "actualPrerollMs")).value else 0
  }

  function RequestedMs(m: Fields): int {
    if IntOf(Get(m, "requestedPrerollMs")).Some? then IntOf(Get(m, "requestedPrerollMs")).value else 0
  }

  /** A capture's audio is what its metadata says: 32 bytes for each millisecond claimed, complete exactly when
      that is all that was requested, and a score on the side of the threshold that its kind says. */
  lemma CaptureMatchesMetadata(codec: Codec, frames: seq<Bytes>, j: nat, c: Capture)
    requires j < |frames| && OutcomeAt(codec, frames, j) == Emitted(c)
    ensures ValidMetadata(c.metadata)
    ensures |c.pcm| == 32 * ActualMs(c.metadata) && 2560 <= |c.pcm| <= 62 * 2560
    ensures Get(c.metadata, "complete") == Bool(|c.pcm| == 32 * RequestedMs(c.metadata))
    ensures KindFitsScores(c.metadata)
  {
    var i := EmittedIsUpload(codec, frames, j, c);
    var chunks := UploadOpens(codec, frames, i, j, c);
    BegunIsValid(codec, frames[i]);
    JoinedSize(chunks);
    BegunFitsScores(codec, frames[i]);
  }

  /** The three scores are fractions; an activation reached its threshold, a near miss fell between floor and
      threshold. */
  ghost predicate KindFitsScores(m: Fields) {
    exists score: real, threshold: real, floor: real ::
      && Get(m, "score") == Number(score) && Get(m, "threshold") == Number(threshold)
      && Get(m, "nearMissFloor") == Number(floor)
      && 0.0 <= score <= 1.0 && 0.0 <= threshold <= 1.0 && 0.0 <= floor <= 1.0
      && if Get(m, "kind") == Text("act") || Get(m, "kind") == Text("stop_act") then threshold <= score
         else (Get(m, "kind") == Text("miss") || Get(m, "kind") == Text("stop_miss")) && floor < score < threshold
  }

  lemma BegunFitsScores(codec: Codec, raw: Bytes)
    requires BeginOf(codec, raw).Some?
    ensures KindFitsScores(BeginOf(codec, raw).value)
  {
    AcceptedFitsScores(codec.parse(raw[4..]).value);
  }

  lemma AcceptedFitsScores(v: Json)
    requires Validate(v).Some?
    ensures KindFitsScores(Validate(v).value)
  {
    var m := v.fields;
    var a, b := ScoreOf(Get(m, "score")).value, ScoreOf(Get(m, "threshold")).value;
    var c := ScoreOf(Get(m, "nearMissFloor")).value;
    ScoresStay(m, a, b, c);
    TextsStay(m, a, b, c);
    var kept := WithScores(m, a, b, c);
    assert Get(kept, "score") == Number(a) && Get(kept, "threshold") == Number(b)
        && Get(kept, "nearMissFloor") == Number(c);
  }

  predicate HasType(raw: Bytes, kind: Byte) {
    |raw| > 0 && raw[0] == kind
  }

  lemma FrameTypes(codec: Codec, frames: seq<Bytes>, i: nat, j: nat, c: Capture, n: nat)
    requires i < j < |frames| && IsUpload(codec, frames[i..j + 1], c) && i <= n <= j
    ensures HasType(frames[n], if n == i then 0x10 else if n == j then 0x12 else 0x11)
  {
    UploadParts(frames, i, j);
    if i < n < j {
      assert frames[i + 1..j][n - i - 1] == frames[n];
    }
  }

  /** Captures never share a frame: the uploads of two emissions are disjoint. */
  lemma UploadsAreDisjoint(codec: Codec, frames: seq<Bytes>, i1: nat, j1: nat, i2: nat, j2: nat, c1: Capture,
                           c2: Capture)
    requires i1 < j1 < j2 < |frames| && i2 < j2
    requires IsUpload(codec, frames[i1..j1 + 1], c1) && IsUpload(codec, frames[i2..j2 + 1], c2)
    ensures j1 < i2
  {
    FrameTypes(codec, frames, i1, j1, c1, j1);
    if i2 <= j1 {
      FrameTypes(codec, frames, i2, j2, c2, j1);
    }
  }

  /** Idle again after a frame that was refused or that completed a capture, and only then. */
  lemma IdleAfter(codec: Codec, frames: seq<Bytes>, j: nat)
    requires j < |frames|
    ensures After(codec, frames, j + 1) == Idle <==> OutcomeAt(codec, frames, j) != Quiet
  {
  }

  lemma NotIdleRefuses(codec: Codec, s: Reception, raw: Bytes)
    requires if s.Receiving? then HasType(raw, 0x10) else HasType(raw, 0x11) || HasType(raw, 0x12)
    ensures Step(codec, s, raw) == (Idle, Refused)
  {
  }

  /** A BEGIN met in mid-reception is refused with what it interrupts, so the upload it opens is lost whole. */
  lemma {:induction false} InterruptingUploadIsLost(codec: Codec, frames: seq<Bytes>, i: nat, j: nat, c: Capture,
                                                    n: nat)
    requires i < j < |frames| && i <= n <= j && After(codec, frames, i).Receiving?
    requires IsUpload(codec, frames[i..j + 1], c)
    ensures OutcomeAt(codec, frames, n) == Refused && After(codec, frames, n + 1) == Idle
    decreases n
  {
    FrameTypes(codec, frames, i, j, c, n);
    if n > i {
      InterruptingUploadIsLost(codec, frames, i, j, c, n - 1);
    }
    NotIdleRefuses(codec, After(codec, frames, n), frames[n]);
  }

  /** A whole upload is delivered exactly when the frame before it was refused or ended a capture, or there was none:
      one damaged frame costs what it interrupts and nothing after it. */
  lemma UploadDeliveredExactly(codec: Codec, frames: seq<Bytes>, i: nat, j: nat, c: Capture)
    requires i < j < |frames| && IsUpload(codec, frames[i..j + 1], c)
    ensures OutcomeAt(codec, frames, j) == Emitted(c) <==> i == 0 || OutcomeAt(codec, frames, i - 1) != Quiet
  {
    if i > 0 {
      IdleAfter(codec, frames, i - 1);
    }
    if After(codec, frames, i).Idle? {
      UploadIsEmitted(codec, frames, i, j, c);
    } else {
      InterruptingUploadIsLost(codec, frames, i, j, c, j);
    }
  }

  // ---- What a device sends

  function BeginFrame(json: Bytes): Bytes
    requires 0 < |json| <= 4096
  {
    [0x10, 1, |json| / 256, |json| % 256] + json
  }

  function PcmFrame(index: nat, chunk: Bytes): Bytes
    requires index < 65536
  {
    [0x11, index / 256, index % 256] + chunk
  }

  /** The number of chunks and of bytes, high bytes first, and the digest. */
  function EndFrame(count: nat, size: nat, digest: Bytes): Bytes
    requires count < 65536 && size < 4294967296
  {
    [0x12, count / 256, count % 256, size / 16777216, size / 65536 % 256, size / 256 % 256, size % 256] + digest
  }

  ghost predicate WholeChunks(chunks: seq<Bytes>) {
    1 <= |chunks| <= 62 && forall n :: 0 <= n < |chunks| ==> |chunks[n]| == 2560
  }

  /** The frames of one upload. */
  function UploadOf(codec: Codec, json: Bytes, chunks: seq<Bytes>): seq<Bytes>
    requires 0 < |json| <= 4096 && |chunks| < 65536 && |Joined(chunks)| < 4294967296
  {
    [BeginFrame(json)] + seq(|chunks|, n requires 0 <= n < |chunks| => PcmFrame(n, chunks[n]))
    + [EndFrame(|chunks|, |Joined(chunks)|, codec.md5(Joined(chunks)))]
  }

  lemma BeginRead(codec: Codec, json: Bytes)
    requires 0 < |json| <= 4096
    ensures BeginOf(codec, BeginFrame(json)) == match codec.parse(json) case Some(v) => Validate(v) case None => None
  {
    assert BeginFrame(json)[4..] == json;
  }

  lemma PcmRead(index: nat, chunk: Bytes)
    requires index < 65536 && |chunk| == 2560
    ensures IsPcm(PcmFrame(index, chunk), index) && PcmFrame(index, chunk)[3..] == chunk
  {
  }

  lemma SizeRead(size: nat)
    requires size < 4294967296
    ensures DoubleWord([size / 16777216, size / 65536 % 256, size / 256 % 256, size % 256]) == size
  {
    assert size / 16777216 == size / 65536 / 256;
    assert size / 65536 == 256 * (size / 16777216) + size / 65536 % 256;
    assert size / 65536 == size / 256 / 256;
  }

  lemma EndRead(codec: Codec, m: Fields, chunks: seq<Bytes>)
    requires WholeChunks(chunks) && |codec.md5(Joined(chunks))| == 16
    requires EqualsInt(Get(m, "actualPrerollMs"), 80 * |chunks|)
    ensures |Joined(chunks)| < 4294967296
    ensures IsEnd(codec, EndFrame(|chunks|, |Joined(chunks)|, codec.md5(Joined(chunks))), m, chunks)
  {
    JoinedSize(chunks);
    var size := |Joined(chunks)|;
    var raw := EndFrame(|chunks|, size, codec.md5(Joined(chunks)));
    SizeRead(size);
    assert raw[3..7] == [size / 16777216, size / 65536 % 256, size / 256 % 256, size % 256];
    assert raw[7..] == codec.md5(Joined(chunks));
  }

  lemma FramesRead(chunks: seq<Bytes>, frames: seq<Bytes>)
    requires WholeChunks(chunks) && |frames| == |chunks|
    requires forall n :: 0 <= n < |chunks| ==> frames[n] == PcmFrame(n, chunks[n])
    ensures Numbered(frames) && Payloads(frames) == chunks
  {
    forall n | 0 <= n < |frames| ensures IsPcm(frames[n], n) && frames[n][3..] == chunks[n] {
      PcmRead(n, chunks[n]);
    }
  }

  lemma UploadIsWhole(codec: Codec, json: Bytes, v: Json, chunks: seq<Bytes>)
    requires 0 < |json| <= 4096 && codec.parse(json) == Some(v) && Validate(v).Some? && WholeChunks(chunks)
    requires |codec.md5(Joined(chunks))| == 16
    requires EqualsInt(Get(Validate(v).value, "actualPrerollMs"), 80 * |chunks|)
    ensures |Joined(chunks)| < 4294967296
    ensures |UploadOf(codec, json, chunks)| == |chunks| + 2
    ensures IsUpload(codec, UploadOf(codec, json, chunks), Capture(Validate(v).value, Joined(chunks)))
  {
    var m := Validate(v).value;
    EndRead(codec, m, chunks);
    BeginRead(codec, json);
    var end := EndFrame(|chunks|, |Joined(chunks)|, codec.md5(Joined(chunks)));
    var inner := seq(|chunks|, n requires 0 <= n < |chunks| => PcmFrame(n, chunks[n]));
    FramesRead(chunks, inner);
    FramesAround(codec, BeginFrame(json), inner, end, Capture(m, Joined(chunks)));
  }

  lemma FramesAround(codec: Codec, begin: Bytes, inner: seq<Bytes>, end: Bytes, c: Capture)
    requires 1 <= |inner| <= 62 && BeginOf(codec, begin) == Some(c.metadata) && Numbered(inner)
    requires c.pcm == Joined(Payloads(inner)) && IsEnd(codec, end, c.metadata, Payloads(inner))
    ensures IsUpload(codec, [begin] + inner + [end], c)
  {
    var frames := [begin] + inner + [end];
    assert frames[1..|frames| - 1] == inner;
  }

  /** What a device sends for 1 to 62 chunks under metadata that is valid and claims 80 ms for each is a whole upload of
      exactly those bytes, and a receiver that is idle delivers it. */
  lemma UploadRoundTrip(codec: Codec, json: Bytes, v: Json, chunks: seq<Bytes>)
    requires 0 < |json| <= 4096 && codec.parse(json) == Some(v) && Validate(v).Some? && WholeChunks(chunks)
    requires |codec.md5(Joined(chunks))| == 16
    requires EqualsInt(Get(Validate(v).value, "actualPrerollMs"), 80 * |chunks|)
    ensures |Joined(chunks)| < 4294967296
    ensures var frames, c := UploadOf(codec, json, chunks), Capture(Validate(v).value, Joined(chunks));
            && |frames| == |chunks| + 2 && IsUpload(codec, frames, c)
            && OutcomeAt(codec, frames, |frames| - 1) == Emitted(c)
  {
    UploadIsWhole(codec, json, v, chunks);
    var frames, c := UploadOf(codec, json, chunks), Capture(Validate(v).value, Joined(chunks));
    assert frames[0..|frames|] == frames;
    UploadIsEmitted(codec, frames, 0, |frames| - 1, c);
  }
}
