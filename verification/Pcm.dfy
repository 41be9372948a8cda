/** Mono S16_LE samples as bytes, and the conversion back from the float chain. */
module Pcm {
  type Byte = b: int | 0 <= b < 256

  function DecodeOne(lo: Byte, hi: Byte): (s: int)
    ensures -32768 <= s <= 32767
  {
    var u := lo + 256 * hi;
    if u >= 32768 then u - 65536 else u
  }

  function EncodeOne(s: int): (pcm: seq<Byte>)
    requires -32768 <= s <= 32767
    ensures |pcm| == 2 && DecodeOne(pcm[0], pcm[1]) == s
  {
    var u := if s < 0 then s + 65536 else s;
    [u % 256, u / 256]
  }

  function Silence(n: nat): seq<Byte> {
    seq(n, i => 0)
  }

  /** np.frombuffer(pcm, int16): a whole number of samples is the caller's duty. */
  function Decode(pcm: seq<Byte>): (s: seq<int>)
    requires |pcm| % 2 == 0
    ensures |s| == |pcm| / 2
    ensures forall i :: 0 <= i < |s| ==> -32768 <= s[i] <= 32767
    decreases |pcm|
  {
    if |pcm| == 0 then [] else [DecodeOne(pcm[0], pcm[1])] + Decode(pcm[2..])
  }

  function Encode(s: seq<int>): (pcm: seq<Byte>)
    requires forall i :: 0 <= i < |s| ==> -32768 <= s[i] <= 32767
    ensures |pcm| == 2 * |s|
    decreases |s|
  {
    if |s| == 0 then [] else EncodeOne(s[0]) + Encode(s[1..])
  }

  /** np.clip to the int16 range, then the truncating cast. */
  function Quantise(v: real): (s: int)
    ensures -32768 <= s <= 32767
  {
    var clipped := if v < -32768.0 then -32768.0 else if v > 32767.0 then 32767.0 else v;
    if clipped < 0.0 then -((-clipped).Floor) else clipped.Floor
  }

  function QuantiseAll(x: seq<real>): (s: seq<int>)
    ensures |s| == |x|
    ensures forall i :: 0 <= i < |s| ==> -32768 <= s[i] <= 32767
  {
    seq(|x|, i requires 0 <= i < |x| => Quantise(x[i]))
  }

  function ToReals(s: seq<int>): (x: seq<real>)
    ensures |x| == |s|
  {
    seq(|s|, i requires 0 <= i < |s| => s[i] as real)
  }

  lemma {:induction false} DecodeSplit(a: seq<Byte>, b: seq<Byte>)
    requires |a| % 2 == 0 && |b| % 2 == 0
    ensures Decode(a + b) == Decode(a) + Decode(b)
    decreases |a|
  {
    if |a| == 0 {
      assert a + b == b;
    } else {
      assert (a + b)[2..] == a[2..] + b;
      DecodeSplit(a[2..], b);
    }
  }

  lemma {:induction false} EncodeSplit(a: seq<int>, b: seq<int>)
    requires forall i :: 0 <= i < |a| ==> -32768 <= a[i] <= 32767
    requires forall i :: 0 <= i < |b| ==> -32768 <= b[i] <= 32767
    ensures Encode(a + b) == Encode(a) + Encode(b)
    decreases |a|
  {
    if |a| == 0 {
      assert a + b == b;
    } else {
      assert (a + b)[1..] == a[1..] + b;
      EncodeSplit(a[1..], b);
    }
  }

  /** The wire format round-trips in both directions. */
  lemma {:induction false} DecodeEncode(s: seq<int>)
    requires forall i :: 0 <= i < |s| ==> -32768 <= s[i] <= 32767
    ensures Decode(Encode(s)) == s
    decreases |s|
  {
    if |s| > 0 {
      DecodeEncode(s[1..]);
      assert Encode(s)[2..] == Encode(s[1..]);
    }
  }

  lemma {:induction false} EncodeDecode(pcm: seq<Byte>)
    requires |pcm| % 2 == 0
    ensures Encode(Decode(pcm)) == pcm
    decreases |pcm|
  {
    if |pcm| > 0 {
      EncodeDecode(pcm[2..]);
      assert Decode(pcm)[1..] == Decode(pcm[2..]);
      assert EncodeOne(DecodeOne(pcm[0], pcm[1])) == pcm[..2];
    }
  }

  /** A sample that no stage changed survives quantisation. */
  lemma QuantiseExact(s: int)
    requires -32768 <= s <= 32767
    ensures Quantise(s as real) == s
  {
  }

  /** Samples are cut toward zero, and clipped where int16 ends. */
  lemma QuantiseTowardZero(v: real)
    ensures v >= 0.0 ==> 0.0 <= Quantise(v) as real <= v
    ensures v <= 0.0 ==> v <= Quantise(v) as real <= 0.0
    ensures -32768.0 <= v <= 32767.0 ==> -1.0 < Quantise(v) as real - v < 1.0
    ensures v > 32767.0 ==> Quantise(v) == 32767
    ensures v < -32768.0 ==> Quantise(v) == -32768
  {
  }

  /** Bytes 2i and 2i + 1 as one unsigned word, low byte first. */
  function SampleWord(pcm: seq<Byte>, i: nat): int
    requires 2 * i + 1 < |pcm|
  {
    pcm[2 * i] as int + 256 * (pcm[2 * i + 1] as int)
  }

  /** Sample i is its word in two's complement. */
  lemma {:induction false} DecodedSample(pcm: seq<Byte>, i: nat)
    requires |pcm| % 2 == 0 && i < |pcm| / 2
    ensures Decode(pcm)[i] % 65536 == SampleWord(pcm, i)
    decreases |pcm|
  {
    if i > 0 {
      DecodedSample(pcm[2..], i - 1);
    }
  }

  lemma EncodedSample(s: seq<int>, i: nat)
    requires forall k :: 0 <= k < |s| ==> -32768 <= s[k] <= 32767
    requires i < |s|
    ensures SampleWord(Encode(s), i) == s[i] % 65536
  {
    DecodeEncode(s);
    DecodedSample(Encode(s), i);
  }
}
