/**
 * The immutable PCM frame of the sync package (AudioFrame.java).
 *
 * A frame carries a channel id, 16-bit samples, a producer timestamp, a
 * sample count, a sample rate, a channel count and a sequence number.  The
 * sequence number comes from a process-wide counter that every construction
 * bumps; here that counter is the explicit state of a FrameContext object.
 * Transforms never change a frame: each returns either the very same frame
 * or a freshly numbered one.
 */
module AudioFrames {
  import opened Wrappers

  const SHORT_MIN: int := -0x8000
  const SHORT_MAX: int := 0x7FFF

  /** A Java `short`. */
  type Int16 = x: int | -0x8000 <= x < 0x8000

  const INT_MIN: int := -0x8000_0000
  const INT_MAX: int := 0x7FFF_FFFF

  /** The range of a Java `int`. */
  predicate IsInt32(x: int) { INT_MIN <= x <= INT_MAX }

  /** A sample whose magnitude is above this is audible (AudioFrame.java:138). */
  const SILENCE_THRESHOLD: int := 100

  /** Format the four-argument Java constructor and createSilent(id, n) assume. */
  const DEFAULT_SAMPLE_RATE: int := 8000
  const DEFAULT_CHANNELS: int := 1

  datatype Frame = Frame(
    channelId: string,
    audioData: seq<Int16>,
    timestamp: int,
    sampleCount: int,
    sampleRate: int,
    channels: int,
    sequenceNumber: nat)

  datatype FrameError =
    | InvalidSubframe     // subFrame's IllegalArgumentException
    | ChannelMismatch     // merge of frames from two channels
    | PropertyMismatch    // merge of frames with different rate or channel count
    | NegativeSize        // createSilent's NegativeArraySizeException

  function Abs(x: int): nat { if x < 0 then -x else x }

  function Max(a: int, b: int): int { if a < b then b else a }

  /** Java's cast of a float to an integer type: truncation toward zero. */
  function Trunc(r: real): (t: int)
    ensures 0.0 <= r ==> 0 <= t && t as real <= r < t as real + 1.0
    ensures r < 0.0 ==> t <= 0 && t as real - 1.0 < r <= t as real
  {
    if r >= 0.0 then r.Floor else -((-r).Floor)
  }

  /** Distance between two integers. */
  function Dist(a: int, b: int): nat { Abs(a - b) }

  /** Saturation to the 16-bit range: the representable value nearest to x. */
  function Clamp16(x: int): (r: Int16)
    ensures forall y: Int16 :: Dist(x, r) <= Dist(x, y)
  {
    if x > SHORT_MAX then SHORT_MAX else if x < SHORT_MIN then SHORT_MIN else x
  }

  /** Java's `(short)` cast of an int: two's-complement wrap-around. */
  function Wrap16(x: int): (r: Int16)
    ensures (r - x) % 0x10000 == 0
  {
    (x + 0x8000) % 0x10000 - 0x8000
  }

  /** Java's `int` addition: the exact sum taken modulo 2^32 into the `int` range. */
  function Wrap32(x: int): (r: int)
    ensures IsInt32(r) && (r - x) % 0x1_0000_0000 == 0
    ensures IsInt32(x) ==> r == x
  {
    (x + 0x8000_0000) % 0x1_0000_0000 - 0x8000_0000
  }

  /** Wrapping an operand first does not change a wrapped sum. */
  lemma Wrap32Absorbs(x: int, y: int)
    ensures Wrap32(x + Wrap32(y)) == Wrap32(x + y)
  {
    var k := (y + 0x8000_0000) / 0x1_0000_0000;
    assert Wrap32(y) == y - 0x1_0000_0000 * k;
    var z := x + y + 0x8000_0000;
    var q := (z - 0x1_0000_0000 * k) / 0x1_0000_0000;
    assert z == 0x1_0000_0000 * (q + k) + (z - 0x1_0000_0000 * k) % 0x1_0000_0000;
  }

  /** Scaling by a factor in [0, 1] and truncating never grows a magnitude. */
  lemma ScaleByFraction(s: int, f: real)
    requires 0.0 <= f <= 1.0
    ensures Abs(Trunc(s as real * f)) <= Abs(s)
  {
    var x := s as real;
    if s >= 0 {
      assert x - x * f == x * (1.0 - f);
      assert 0.0 <= x * f <= x;
    } else {
      assert x * f - x == -x * (1.0 - f);
      assert x <= x * f <= 0.0;
    }
  }

  // ---------------------------------------------------------------------
  // Queries
  // ---------------------------------------------------------------------

  /** isValid (AudioFrame.java:119-126); a Dafny string is never null. */
  predicate IsValid(f: Frame)
  {
    |f.audioData| > 0 && f.sampleCount > 0 && f.sampleRate > 0 && f.channels > 0
  }

  /** equals (AudioFrame.java:294-300): identity is the sequence number alone. */
  predicate Equals(a: Frame, b: Frame)
  {
    a.sequenceNumber == b.sequenceNumber
  }

  /** isSilent: no sample is above the threshold; an empty frame is silent. */
  method IsSilent(f: Frame) returns (silent: bool)
    ensures silent <==> forall i :: 0 <= i < |f.audioData| ==> Abs(f.audioData[i]) <= SILENCE_THRESHOLD
  {
    var i := 0;
    while i < |f.audioData|
      invariant 0 <= i <= |f.audioData|
      invariant forall k :: 0 <= k < i ==> Abs(f.audioData[k]) <= SILENCE_THRESHOLD
    {
      if Abs(f.audioData[i]) > SILENCE_THRESHOLD {
        return false;
      }
      i := i + 1;
    }
    return true;
  }

  /** One turn of getPeak's loop: `peak = (short) Math.max(peak, Math.abs(sample))`. */
  function PeakStep(peak: Int16, s: Int16): Int16
  {
    Wrap16(Max(peak, Abs(s)))
  }

  /** getPeak's accumulator after the loop has run over `data`, starting from `peak`. */
  function PeakFold(peak: Int16, data: seq<Int16>): Int16
    decreases |data|
  {
    if data == [] then peak else PeakFold(PeakStep(peak, data[0]), data[1..])
  }

  /** Without the sample -32768 the fold is the largest magnitude seen (or its start). */
  lemma {:induction false} PeakFoldIsMax(p: Int16, data: seq<Int16>)
    requires 0 <= p
    requires forall i :: 0 <= i < |data| ==> data[i] != SHORT_MIN
    ensures p <= PeakFold(p, data)
    ensures forall i :: 0 <= i < |data| ==> Abs(data[i]) <= PeakFold(p, data)
    ensures PeakFold(p, data) == p || exists i :: 0 <= i < |data| && PeakFold(p, data) == Abs(data[i])
    decreases |data|
  {
    if data != [] {
      var q := PeakStep(p, data[0]);
      assert q == Max(p, Abs(data[0]));
      var rest := data[1..];
      assert forall i :: 0 <= i < |rest| ==> rest[i] == data[i + 1];
      PeakFoldIsMax(q, rest);
      var r := PeakFold(p, data);
      assert r == PeakFold(q, rest);
      forall i | 0 <= i < |data| ensures Abs(data[i]) <= r {
        if i > 0 { assert data[i] == rest[i - 1]; }
      }
      if r != p {
        if r == q {
          assert r == Abs(data[0]);
        } else {
          var j :| 0 <= j < |rest| && r == Abs(rest[j]);
          assert r == Abs(data[j + 1]);
        }
      }
    }
  }

  /** The fold is left to right: appending a sample is one more step. */
  lemma {:induction false} PeakFoldSnoc(p: Int16, data: seq<Int16>, s: Int16)
    ensures PeakFold(p, data + [s]) == PeakStep(PeakFold(p, data), s)
    decreases |data|
  {
    if data == [] {
      assert [] + [s] == [s];
    } else {
      assert (data + [s])[1..] == data[1..] + [s];
      PeakFoldSnoc(PeakStep(p, data[0]), data[1..], s);
    }
  }

  /** The short cast wraps: a frame ending in -32768 reports the peak -32768. */
  lemma PeakWrapsOnLastMinimum(data: seq<Int16>)
    ensures PeakFold(0, data + [SHORT_MIN]) == SHORT_MIN
  {
    PeakFoldSnoc(0, data, SHORT_MIN);
  }

  /** getPeak (AudioFrame.java:165-176). */
  method GetPeak(f: Frame) returns (peak: Int16)
    ensures peak == PeakFold(0, f.audioData)
    ensures |f.audioData| == 0 ==> peak == 0
    ensures (forall i :: 0 <= i < |f.audioData| ==> f.audioData[i] != SHORT_MIN) ==>
              (forall i :: 0 <= i < |f.audioData| ==> Abs(f.audioData[i]) <= peak) &&
              (|f.audioData| > 0 ==> exists i :: 0 <= i < |f.audioData| && peak == Abs(f.audioData[i]))
  {
    var data := f.audioData;
    peak := 0;
    var i := 0;
    while i < |data|
      invariant 0 <= i <= |data|
      invariant PeakFold(0, data) == PeakFold(peak, data[i..])
    {
      assert data[i..][1..] == data[i + 1..];
      peak := PeakStep(peak, data[i]);
      i := i + 1;
    }
    assert data[i..] == [];
    if forall k :: 0 <= k < |data| ==> data[k] != SHORT_MIN {
      PeakFoldIsMax(0, data);
      if |data| > 0 && peak == 0 {
        assert Abs(data[0]) <= peak;
      }
    }
  }

  // ---------------------------------------------------------------------
  // Sample transforms (the loops of applyGain, applyFadeIn, applyFadeOut)
  // ---------------------------------------------------------------------

  /** One sample of applyGain: `(int)(s * gain)` saturated to 16 bits. */
  function GainSample(s: Int16, gain: real): Int16
  {
    Clamp16(Trunc(s as real * gain))
  }

  lemma GainOfOne(s: Int16)
    ensures GainSample(s, 1.0) == s
  {
  }

  /** Gains in [0, 1] attenuate: the magnitude never grows and the sign is kept. */
  lemma GainAttenuates(s: Int16, gain: real)
    requires 0.0 <= gain <= 1.0
    ensures Abs(GainSample(s, gain)) <= Abs(s)
    ensures s >= 0 ==> GainSample(s, gain) >= 0
    ensures s <= 0 ==> GainSample(s, gain) <= 0
  {
    ScaleByFraction(s, gain);
  }

  /** applyGain's loop (AudioFrame.java:186-192). */
  method ScaleSamples(data: seq<Int16>, gain: real) returns (scaled: seq<Int16>)
    ensures |scaled| == |data|
    ensures forall i :: 0 <= i < |data| ==> scaled[i] == GainSample(data[i], gain)
  {
    scaled := [];
    var i := 0;
    while i < |data|
      invariant 0 <= i <= |data|
      invariant |scaled| == i
      invariant forall k :: 0 <= k < i ==> scaled[k] == GainSample(data[k], gain)
    {
      scaled := scaled + [GainSample(data[i], gain)];
      i := i + 1;
    }
  }

  /** applyGain (AudioFrame.java:181-195) when the next sequence number is `seqNo`. */
  function GainedFrame(f: Frame, gain: real, seqNo: nat): (g: Frame)
    ensures gain == 1.0 ==> g == f
    ensures gain != 1.0 ==> g.sequenceNumber == seqNo
    ensures g.(audioData := f.audioData, sequenceNumber := f.sequenceNumber) == f
    ensures |g.audioData| == |f.audioData|
    ensures forall i :: 0 <= i < |f.audioData| ==> g.audioData[i] == GainSample(f.audioData[i], gain)
    ensures IsValid(g) == IsValid(f)
  {
    if gain == 1.0 then f
    else f.(audioData := seq(|f.audioData|, i requires 0 <= i < |f.audioData| => GainSample(f.audioData[i], gain)),
            sequenceNumber := seqNo)
  }

  /** Fade-in factor of sample i out of n: `(float) i / n`. */
  function FadeInFactor(i: int, n: int): real
    requires 0 <= i < n
  {
    i as real / n as real
  }

  /** Fade-out factor of the i-th faded sample out of n: `1 - (float) i / n`. */
  function FadeOutFactor(i: int, n: int): real
    requires 0 <= i < n
  {
    1.0 - i as real / n as real
  }

  lemma FactorsAreFractions(i: int, n: int)
    requires 0 <= i < n
    ensures 0.0 <= FadeInFactor(i, n) < 1.0
    ensures 0.0 < FadeOutFactor(i, n) <= 1.0
  {
    assert i as real < n as real;
  }

  /** A faded sample: `(short)(s * factor)`; the factor is a fraction, so nothing wraps. */
  function Faded(s: Int16, factor: real): (r: Int16)
    requires 0.0 <= factor <= 1.0
    ensures Abs(r) <= Abs(s)
  {
    ScaleByFraction(s, factor);
    Trunc(s as real * factor)
  }

  /** A fade of length n applies only when 0 < n < |data| (AudioFrame.java:201, 218). */
  predicate FadeApplies(n: int, len: int)
  {
    0 < n < len
  }

  /** Sample i (< n) after a fade-in of n samples. */
  function FadeInSample(data: seq<Int16>, n: int, i: int): (r: Int16)
    requires 0 <= i < n <= |data|
    ensures Abs(r) <= Abs(data[i])
  {
    FactorsAreFractions(i, n);
    Faded(data[i], FadeInFactor(i, n))
  }

  /** Sample j (in the last n) after a fade-out of n samples. */
  function FadeOutSample(data: seq<Int16>, n: int, j: int): (r: Int16)
    requires 0 < n <= |data| && |data| - n <= j < |data|
    ensures Abs(r) <= Abs(data[j])
  {
    FactorsAreFractions(j - (|data| - n), n);
    Faded(data[j], FadeOutFactor(j - (|data| - n), n))
  }

  /** A fade-in zeroes its first sample. */
  lemma FadeInStartsSilent(data: seq<Int16>, n: int)
    requires 0 < n <= |data|
    ensures FadeInSample(data, n, 0) == 0
  {
    assert FadeInFactor(0, n) == 0.0;
  }

  /** A fade-out keeps its first faded sample. */
  lemma FadeOutStartsWhole(data: seq<Int16>, n: int)
    requires 0 < n <= |data|
    ensures FadeOutSample(data, n, |data| - n) == data[|data| - n]
  {
    assert FadeOutFactor(0, n) == 1.0;
  }

  /** applyFadeIn's sample work: a linear ramp over the first n samples. */
  method FadeInSamples(data: seq<Int16>, n: int) returns (faded: seq<Int16>)
    ensures !FadeApplies(n, |data|) ==> faded == data
    ensures |faded| == |data|
    ensures forall i :: 0 <= i < |data| ==> Abs(faded[i]) <= Abs(data[i])
    ensures FadeApplies(n, |data|) ==> faded[0] == 0
    ensures FadeApplies(n, |data|) ==> forall i :: n <= i < |data| ==> faded[i] == data[i]
    ensures FadeApplies(n, |data|) ==> forall i :: 0 <= i < n ==> faded[i] == FadeInSample(data, n, i)
  {
    if !FadeApplies(n, |data|) {
      return data;
    }
    faded := data;
    var i := 0;
    while i < n
      invariant 0 <= i <= n
      invariant |faded| == |data|
      invariant forall k :: i <= k < |data| ==> faded[k] == data[k]
      invariant forall k :: 0 <= k < i ==> faded[k] == FadeInSample(data, n, k)
    {
      faded := faded[i := FadeInSample(data, n, i)];
      i := i + 1;
    }
    FadeInStartsSilent(data, n);
  }

  /** applyFadeOut's sample work: a linear ramp down over the last n samples. */
  method FadeOutSamples(data: seq<Int16>, n: int) returns (faded: seq<Int16>)
    ensures !FadeApplies(n, |data|) ==> faded == data
    ensures |faded| == |data|
    ensures forall i :: 0 <= i < |data| ==> Abs(faded[i]) <= Abs(data[i])
    ensures FadeApplies(n, |data|) ==> forall i :: 0 <= i <= |data| - n ==> faded[i] == data[i]
    ensures FadeApplies(n, |data|) ==> forall i :: |data| - n <= i < |data| ==> faded[i] == FadeOutSample(data, n, i)
  {
    if !FadeApplies(n, |data|) {
      return data;
    }
    var start := |data| - n;
    faded := data;
    var i := 0;
    while i < n
      invariant 0 <= i <= n
      invariant |faded| == |data|
      invariant forall k :: 0 <= k < start ==> faded[k] == data[k]
      invariant forall k :: start + i <= k < |data| ==> faded[k] == data[k]
      invariant forall k :: start <= k < start + i ==> faded[k] == FadeOutSample(data, n, k)
    {
      faded := faded[start + i := FadeOutSample(data, n, start + i)];
      i := i + 1;
    }
    FadeOutStartsWhole(data, n);
  }

  // ---------------------------------------------------------------------
  // Sub-range and merge, given the sequence number a new frame would get
  // ---------------------------------------------------------------------

  /** subFrame (AudioFrame.java:235-242) when the next sequence number is `seqNo`. */
  function SubFrameOf(f: Frame, start: int, length: int, seqNo: nat): (r: Result<Frame, FrameError>)
    ensures r.Err? <==> start < 0 || length <= 0 || start + length > |f.audioData|
    ensures r.Err? ==> r.error == InvalidSubframe
    ensures r.Ok? ==> r.value == f.(audioData := f.audioData[start..start + length],
                                     sampleCount := length, sequenceNumber := seqNo)
  {
    if start < 0 || length <= 0 || start + length > |f.audioData| then Err(InvalidSubframe)
    else Ok(Frame(f.channelId, f.audioData[start..start + length], f.timestamp, length,
                  f.sampleRate, f.channels, seqNo))
  }

  /** The whole range reproduces the samples. */
  lemma SubFrameWhole(f: Frame, seqNo: nat)
    requires |f.audioData| > 0
    ensures SubFrameOf(f, 0, |f.audioData|, seqNo).Ok?
    ensures SubFrameOf(f, 0, |f.audioData|, seqNo).value.audioData == f.audioData
  {
  }

  /** A sub-range of a sub-range is a sub-range of the original. */
  lemma SubFrameOfSubFrame(f: Frame, a: int, la: int, b: int, lb: int, s1: nat, s2: nat)
    requires SubFrameOf(f, a, la, s1).Ok?
    requires SubFrameOf(SubFrameOf(f, a, la, s1).value, b, lb, s2).Ok?
    ensures SubFrameOf(f, a + b, lb, s2).Ok?
    ensures SubFrameOf(SubFrameOf(f, a, la, s1).value, b, lb, s2).value ==
            SubFrameOf(f, a + b, lb, s2).value
  {
  }

  /** Merge may combine only frames of one channel and one audio format. */
  predicate Compatible(a: Frame, b: Frame)
  {
    a.channelId == b.channelId && a.sampleRate == b.sampleRate && a.channels == b.channels
  }

  /** merge (AudioFrame.java:247-267) when the next sequence number is `seqNo`. */
  function MergeOf(a: Option<Frame>, b: Option<Frame>, seqNo: nat): (r: Result<Option<Frame>, FrameError>)
    ensures a.None? ==> r == Ok(b)
    ensures a.Some? && b.None? ==> r == Ok(a)
    ensures a.Some? && b.Some? && a.value.channelId != b.value.channelId ==> r == Err(ChannelMismatch)
    ensures a.Some? && b.Some? && a.value.channelId == b.value.channelId && !Compatible(a.value, b.value) ==>
              r == Err(PropertyMismatch)
    ensures a.Some? && b.Some? && Compatible(a.value, b.value) ==>
              r.Ok? && r.value.Some? &&
              r.value.value == a.value.(audioData := a.value.audioData + b.value.audioData,
                                        sampleCount := Wrap32(a.value.sampleCount + b.value.sampleCount),
                                        sequenceNumber := seqNo)
  {
    if a.None? || b.None? then Ok(if a.Some? then a else b)
    else
      var f1, f2 := a.value, b.value;
      if f1.channelId != f2.channelId then Err(ChannelMismatch)
      else if f1.sampleRate != f2.sampleRate || f1.channels != f2.channels then Err(PropertyMismatch)
      else Ok(Some(Frame(f1.channelId, f1.audioData + f2.audioData, f1.timestamp,
                         Wrap32(f1.sampleCount + f2.sampleCount), f1.sampleRate, f1.channels, seqNo)))
  }

  /** Merging compatible frames is associative on everything but the sequence number. */
  lemma MergeAssociative(a: Frame, b: Frame, c: Frame, s1: nat, s2: nat, s3: nat, s4: nat)
    requires Compatible(a, b) && Compatible(b, c)
    ensures var ab := MergeOf(Some(a), Some(b), s1).value;
            var bc := MergeOf(Some(b), Some(c), s3).value;
            var left := MergeOf(ab, Some(c), s2).value.value;
            var right := MergeOf(Some(a), bc, s4).value.value;
            left.(sequenceNumber := 0) == right.(sequenceNumber := 0)
  {
    assert (a.audioData + b.audioData) + c.audioData == a.audioData + (b.audioData + c.audioData);
    Wrap32Absorbs(c.sampleCount, a.sampleCount + b.sampleCount);
    Wrap32Absorbs(a.sampleCount, b.sampleCount + c.sampleCount);
  }

  /** Splitting a frame in two and merging the halves restores its samples. */
  lemma SplitMergeRoundTrip(f: Frame, k: int, s1: nat, s2: nat, s3: nat)
    requires 0 < k < |f.audioData|
    ensures var left := SubFrameOf(f, 0, k, s1);
            var right := SubFrameOf(f, k, |f.audioData| - k, s2);
            left.Ok? && right.Ok? &&
            var m := MergeOf(Some(left.value), Some(right.value), s3);
            m.Ok? && m.value.Some? &&
            m.value.value.audioData == f.audioData &&
            m.value.value.sampleCount == Wrap32(|f.audioData|)
  {
    assert f.audioData[0..k] + f.audioData[k..k + (|f.audioData| - k)] == f.audioData;
  }

  /** createSilent's samples: n zeros. */
  function Zeros(n: nat): (z: seq<Int16>)
    ensures |z| == n && forall i :: 0 <= i < n ==> z[i] == 0
  {
    seq(n, _ => 0)
  }

  // ---------------------------------------------------------------------
  // The sequence counter and every operation that constructs a frame
  // ---------------------------------------------------------------------

  /** Owner of the counter that AudioFrame keeps in a static field. */
  class FrameContext {
    var lastSequenceNumber: nat

    constructor ()
      ensures lastSequenceNumber == 0
    {
      lastSequenceNumber := 0;
    }

    /**
     * The constructor: number the new frame with the counter plus one
     * (AudioFrame.java:33-44), so it equals no frame numbered before.
     */
    method Stamp(channelId: string, data: seq<Int16>, timestamp: int, sampleCount: int,
                 sampleRate: int, channels: int) returns (f: Frame)
      modifies this
      ensures lastSequenceNumber == old(lastSequenceNumber) + 1
      ensures f == Frame(channelId, data, timestamp, sampleCount, sampleRate, channels, lastSequenceNumber)
      ensures forall g: Frame :: g.sequenceNumber <= old(lastSequenceNumber) ==> !Equals(f, g)
    {
      lastSequenceNumber := lastSequenceNumber + 1;
      f := Frame(channelId, data, timestamp, sampleCount, sampleRate, channels, lastSequenceNumber);
    }

    /** Construction from a producer's array: the frame keeps a copy, not the array. */
    method NewFrame(channelId: string, samples: array<Int16>, timestamp: int, sampleCount: int,
                    sampleRate: int, channels: int) returns (f: Frame)
      modifies this
      ensures lastSequenceNumber == old(lastSequenceNumber) + 1
      ensures f == Frame(channelId, samples[..], timestamp, sampleCount, sampleRate, channels, lastSequenceNumber)
    {
      f := Stamp(channelId, samples[..], timestamp, sampleCount, sampleRate, channels);
    }

    /** applyGain: a new number only when the gain is not exactly 1. */
    method ApplyGain(f: Frame, gain: real) returns (g: Frame)
      modifies this
      ensures g == GainedFrame(f, gain, old(lastSequenceNumber) + 1)
      ensures lastSequenceNumber == if gain == 1.0 then old(lastSequenceNumber) else old(lastSequenceNumber) + 1
    {
      if gain == 1.0 {
        return f;
      }
      var scaled := ScaleSamples(f.audioData, gain);
      g := Stamp(f.channelId, scaled, f.timestamp, f.sampleCount, f.sampleRate, f.channels);
    }

    /** applyFadeIn (AudioFrame.java:200-212). */
    method ApplyFadeIn(f: Frame, n: int) returns (g: Frame)
      modifies this
      ensures !FadeApplies(n, |f.audioData|) ==> g == f && lastSequenceNumber == old(lastSequenceNumber)
      ensures FadeApplies(n, |f.audioData|) ==>
                lastSequenceNumber == old(lastSequenceNumber) + 1 &&
                g.sequenceNumber == lastSequenceNumber &&
                g.(audioData := f.audioData, sequenceNumber := f.sequenceNumber) == f &&
                |g.audioData| == |f.audioData| && g.audioData[0] == 0 &&
                (forall i :: n <= i < |f.audioData| ==> g.audioData[i] == f.audioData[i]) &&
                (forall i :: 0 <= i < n ==> g.audioData[i] == FadeInSample(f.audioData, n, i))
    {
      if !FadeApplies(n, |f.audioData|) {
        return f;
      }
      var faded := FadeInSamples(f.audioData, n);
      g := Stamp(f.channelId, faded, f.timestamp, f.sampleCount, f.sampleRate, f.channels);
    }

    /** applyFadeOut (AudioFrame.java:217-230). */
    method ApplyFadeOut(f: Frame, n: int) returns (g: Frame)
      modifies this
      ensures !FadeApplies(n, |f.audioData|) ==> g == f && lastSequenceNumber == old(lastSequenceNumber)
      ensures FadeApplies(n, |f.audioData|) ==>
                lastSequenceNumber == old(lastSequenceNumber) + 1 &&
                g.sequenceNumber == lastSequenceNumber &&
                g.(audioData := f.audioData, sequenceNumber := f.sequenceNumber) == f &&
                |g.audioData| == |f.audioData| &&
                (forall i :: 0 <= i <= |f.audioData| - n ==> g.audioData[i] == f.audioData[i]) &&
                (forall i :: |f.audioData| - n <= i < |f.audioData| ==>
                   g.audioData[i] == FadeOutSample(f.audioData, n, i))
    {
      if !FadeApplies(n, |f.audioData|) {
        return f;
      }
      var faded := FadeOutSamples(f.audioData, n);
      g := Stamp(f.channelId, faded, f.timestamp, f.sampleCount, f.sampleRate, f.channels);
    }

    /** subFrame: a frame is numbered only when the range is accepted. */
    method SubFrame(f: Frame, start: int, length: int) returns (r: Result<Frame, FrameError>)
      modifies this
      ensures r == SubFrameOf(f, start, length, old(lastSequenceNumber) + 1)
      ensures lastSequenceNumber == if r.Ok? then old(lastSequenceNumber) + 1 else old(lastSequenceNumber)
    {
      if start < 0 || length <= 0 || start + length > |f.audioData| {
        return Err(InvalidSubframe);
      }
      var g := Stamp(f.channelId, f.audioData[start..start + length], f.timestamp, length,
                     f.sampleRate, f.channels);
      return Ok(g);
    }

    /** merge: a frame is numbered only when two compatible frames are combined. */
    method Merge(a: Option<Frame>, b: Option<Frame>) returns (r: Result<Option<Frame>, FrameError>)
      modifies this
      ensures r == MergeOf(a, b, old(lastSequenceNumber) + 1)
      ensures lastSequenceNumber ==
                if a.Some? && b.Some? && r.Ok? then old(lastSequenceNumber) + 1 else old(lastSequenceNumber)
    {
      if a.None? || b.None? {
        return Ok(if a.Some? then a else b);
      }
      var f1, f2 := a.value, b.value;
      if f1.channelId != f2.channelId {
        return Err(ChannelMismatch);
      }
      if f1.sampleRate != f2.sampleRate || f1.channels != f2.channels {
        return Err(PropertyMismatch);
      }
      var g := Stamp(f1.channelId, f1.audioData + f2.audioData, f1.timestamp,
                     Wrap32(f1.sampleCount + f2.sampleCount), f1.sampleRate, f1.channels);
      return Ok(Some(g));
    }

    /** createSilent (AudioFrame.java:272-278); `now` is the clock reading it stamps. */
    method CreateSilent(channelId: string, sampleCount: int, sampleRate: int, channels: int, now: int)
      returns (r: Result<Frame, FrameError>)
      modifies this
      ensures sampleCount < 0 <==> r.Err?
      ensures r.Err? ==> r.error == NegativeSize && lastSequenceNumber == old(lastSequenceNumber)
      ensures r.Ok? ==> lastSequenceNumber == old(lastSequenceNumber) + 1 &&
                        r.value == Frame(channelId, Zeros(sampleCount), now, sampleCount,
                                         sampleRate, channels, lastSequenceNumber)
    {
      if sampleCount < 0 {
        return Err(NegativeSize);
      }
      var f := Stamp(channelId, Zeros(sampleCount), now, sampleCount, sampleRate, channels);
      return Ok(f);
    }
  }

  /** A silent frame of n > 0 samples in a positive format is valid and silent. */
  lemma SilentFrameIsValidAndSilent(id: string, n: int, rate: int, ch: int, now: int, seqNo: nat)
    requires n > 0 && rate > 0 && ch > 0
    ensures var f := Frame(id, Zeros(n), now, n, rate, ch, seqNo);
            IsValid(f) && forall i :: 0 <= i < |f.audioData| ==> Abs(f.audioData[i]) <= SILENCE_THRESHOLD
  {
  }

  /**
   * Validity survives a sub-frame of a valid frame. Two valid, compatible
   * frames with `int` sample counts merge into a valid frame exactly when
   * the sum of their counts fits an `int`; past that the sum wraps to a
   * negative count and the merge is invalid.
   */
  lemma ValidityKept(f: Frame, g: Frame, start: int, length: int, s1: nat, s2: nat)
    ensures IsValid(f) && SubFrameOf(f, start, length, s1).Ok? ==> IsValid(SubFrameOf(f, start, length, s1).value)
    ensures IsValid(f) && IsValid(g) && Compatible(f, g) && IsInt32(f.sampleCount) && IsInt32(g.sampleCount) ==>
              MergeOf(Some(f), Some(g), s2).Ok? && MergeOf(Some(f), Some(g), s2).value.Some? &&
              (IsValid(MergeOf(Some(f), Some(g), s2).value.value) <==> f.sampleCount + g.sampleCount <= INT_MAX)
  {
    if IsValid(f) && IsValid(g) && IsInt32(f.sampleCount) && IsInt32(g.sampleCount) {
      var x := f.sampleCount + g.sampleCount;
      if x > INT_MAX {
        assert Wrap32(x) == x - 0x1_0000_0000;
      }
    }
  }

  /** Merging two frames of `Integer.MAX_VALUE` and 1 samples yields a negative count. */
  lemma MergeOverflowIsInvalid(f: Frame, g: Frame, s: nat)
    requires IsValid(f) && IsValid(g) && Compatible(f, g)
    requires f.sampleCount == INT_MAX && g.sampleCount == 1
    ensures MergeOf(Some(f), Some(g), s).Ok? && MergeOf(Some(f), Some(g), s).value.Some?
    ensures MergeOf(Some(f), Some(g), s).value.value.sampleCount == INT_MIN
    ensures !IsValid(MergeOf(Some(f), Some(g), s).value.value)
  {
    assert Wrap32(INT_MAX + 1) == INT_MIN;
  }

  /** A silent frame of no samples is not valid, so the mixer refuses it. */
  lemma EmptySilentFrameIsInvalid(id: string, rate: int, ch: int, now: int, seqNo: nat)
    ensures !IsValid(Frame(id, Zeros(0), now, 0, rate, ch, seqNo))
  {
  }

  /**
   * equals compares sequence numbers only: it is an equivalence, and a
   * frame equals any copy with other samples or another timestamp.
   */
  lemma EqualsIsEquivalence(a: Frame, b: Frame, c: Frame, d: seq<Int16>, t: int)
    ensures Equals(a, a)
    ensures Equals(a, b) == Equals(b, a)
    ensures Equals(a, b) && Equals(b, c) ==> Equals(a, c)
    ensures Equals(a, a.(audioData := d, timestamp := t))
  {
  }
}
