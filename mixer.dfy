/**
 * The mixer (AudioMixer.java): a registry of up to eight channels with a
 * gain each, a ten-frame history per channel read through a cursor, and a
 * fixed mixing buffer that is zeroed, summed into with saturation and then
 * soft-limited.
 */
module Mixer {
  import opened Wrappers
  import opened AudioFrames
  import opened Collections

  const DEFAULT_BUFFER_SIZE: nat := 160
  const MAX_CHANNELS: nat := 8
  const DEFAULT_GAIN: real := 1.0
  const MIN_GAIN: real := 0.0
  const MAX_GAIN: real := 2.0

  /** A channel's history keeps at most this many frames (AudioMixer.java:358). */
  const HISTORY_LIMIT: nat := 10

  /**
   * The limiter's output magnitude: `(short)(s * (32767 * 0.8f) / |s|)`
   * truncates 26213.6 to 26213.  Samples are limited when |s| > 26213.6,
   * that is when |s| > 26213.
   */
  const LIMIT_CEILING: int := 26213

  function Min(a: int, b: int): int { if a < b then a else b }

  // ---------------------------------------------------------------------
  // A channel
  // ---------------------------------------------------------------------

  /**
   * MixingChannel (AudioMixer.java:339-380): a history of frames and the
   * index of the next one to hand out.  The mixer owns each channel
   * exclusively, so a channel is held as a value in the mixer's map.
   */
  datatype MixingChannel = MixingChannel(frameBuffer: seq<Frame>, currentFrameIndex: nat)

  /** A new or cleared channel. */
  const EMPTY_CHANNEL := MixingChannel([], 0)

  /** At most ten frames, all valid, and a cursor inside or just past them. */
  predicate ChannelValid(c: MixingChannel)
  {
    |c.frameBuffer| <= HISTORY_LIMIT &&
    c.currentFrameIndex <= |c.frameBuffer| &&
    forall i :: 0 <= i < |c.frameBuffer| ==> IsValid(c.frameBuffer[i])
  }

  /** getNextFrame's answer (AudioMixer.java:365-374). */
  function NextFrame(c: MixingChannel): (r: Option<Frame>)
    ensures r.Some? <==> c.currentFrameIndex < |c.frameBuffer|
    ensures ChannelValid(c) && r.Some? ==> IsValid(r.value)
  {
    if c.currentFrameIndex >= |c.frameBuffer| then None else Some(c.frameBuffer[c.currentFrameIndex])
  }

  /** getNextFrame's effect: the cursor moves past the frame it returned, and only then. */
  function AfterNext(c: MixingChannel): (r: MixingChannel)
    ensures r.frameBuffer == c.frameBuffer
    ensures r.currentFrameIndex == c.currentFrameIndex + (if NextFrame(c).Some? then 1 else 0)
    ensures ChannelValid(c) ==> ChannelValid(r)
  {
    if c.currentFrameIndex >= |c.frameBuffer| then c else c.(currentFrameIndex := c.currentFrameIndex + 1)
  }

  /** The answers of `k` successive getNextFrame calls. */
  function Reads(c: MixingChannel, k: nat): seq<Option<Frame>>
    decreases k
  {
    if k == 0 then [] else [NextFrame(c)] + Reads(AfterNext(c), k - 1)
  }

  function AfterReads(c: MixingChannel, k: nat): MixingChannel
    decreases k
  {
    if k == 0 then c else AfterReads(AfterNext(c), k - 1)
  }

  /**
   * getNextFrame hands out the history in order, each frame once, and then
   * nothing: reads past the end answer null and leave the channel alone.
   */
  lemma {:induction false} ReadsInOrder(c: MixingChannel, k: nat)
    requires c.currentFrameIndex <= |c.frameBuffer|
    ensures |Reads(c, k)| == k
    ensures forall j :: 0 <= j < k ==>
              Reads(c, k)[j] == if c.currentFrameIndex + j < |c.frameBuffer|
                                then Some(c.frameBuffer[c.currentFrameIndex + j]) else None
    ensures AfterReads(c, k).frameBuffer == c.frameBuffer
    ensures AfterReads(c, k).currentFrameIndex == Min(c.currentFrameIndex + k, |c.frameBuffer|)
    decreases k
  {
    if k > 0 {
      ReadsInOrder(AfterNext(c), k - 1);
    }
  }

  /** addFrame's list update (AudioMixer.java:355-360): append, then drop index 0 above ten frames. */
  function Appended(h: seq<Frame>, f: Frame): (r: seq<Frame>)
    ensures |h| <= HISTORY_LIMIT ==> |r| <= HISTORY_LIMIT
    ensures 0 < |r| <= |h| + 1 && r == (h + [f])[|h| + 1 - |r|..]
    ensures |h| < HISTORY_LIMIT ==> r == h + [f]
    ensures r[|r| - 1] == f
  {
    var grown := h + [f];
    if |grown| > HISTORY_LIMIT then grown[1..] else grown
  }

  /**
   * addFrame (AudioMixer.java:350-363): an invalid frame is refused and
   * changes nothing; a valid one becomes the newest entry.  The cursor is
   * never moved, also when the oldest frame is evicted.
   */
  function AddFrame(c: MixingChannel, f: Frame): (r: MixingChannel)
    ensures r.currentFrameIndex == c.currentFrameIndex
    ensures !IsValid(f) ==> r == c
    ensures IsValid(f) ==> r.frameBuffer == Appended(c.frameBuffer, f)
    ensures ChannelValid(c) ==> ChannelValid(r)
  {
    if !IsValid(f) then c else c.(frameBuffer := Appended(c.frameBuffer, f))
  }

  /** A run of addFrame calls. */
  function AddFrames(c: MixingChannel, fs: seq<Frame>): MixingChannel
    decreases |fs|
  {
    if fs == [] then c else AddFrames(AddFrame(c, fs[0]), fs[1..])
  }

  /**
   * Since eviction does not move the cursor, a full history that has been
   * read to its end yields nothing more, whatever frames arrive, until the
   * channel is cleared.
   */
  lemma {:induction false} ReadFullHistoryStarves(c: MixingChannel, fs: seq<Frame>)
    requires |c.frameBuffer| == HISTORY_LIMIT && c.currentFrameIndex == HISTORY_LIMIT
    ensures |AddFrames(c, fs).frameBuffer| == HISTORY_LIMIT
    ensures AddFrames(c, fs).currentFrameIndex == HISTORY_LIMIT
    ensures NextFrame(AddFrames(c, fs)) == None
    decreases |fs|
  {
    if fs != [] {
      ReadFullHistoryStarves(AddFrame(c, fs[0]), fs[1..]);
    }
  }

  /**
   * Eviction while the cursor is inside a full history: the frame that
   * was next in line is skipped, and the one after it is handed out.
   */
  lemma EvictionSkipsNextFrame(c: MixingChannel, f: Frame)
    requires ChannelValid(c) && IsValid(f)
    requires |c.frameBuffer| == HISTORY_LIMIT && c.currentFrameIndex < HISTORY_LIMIT - 1
    ensures NextFrame(AddFrame(c, f)) == Some(c.frameBuffer[c.currentFrameIndex + 1])
  {
  }

  // ---------------------------------------------------------------------
  // The mix, as a value
  // ---------------------------------------------------------------------

  /** Every channel after one getNextFrame call each. */
  function AdvanceAll(m: map<string, MixingChannel>): (r: map<string, MixingChannel>)
    ensures r.Keys == m.Keys
  {
    map k | k in m :: AfterNext(m[k])
  }

  lemma AdvanceAllKeepsValid(m: map<string, MixingChannel>)
    requires forall k :: k in m ==> ChannelValid(m[k])
    ensures forall k :: k in AdvanceAll(m) ==> ChannelValid(AdvanceAll(m)[k])
  {
  }

  /** The channels after getNextFrame was called on those named in `done`. */
  function AdvancedOn(m: map<string, MixingChannel>, done: seq<string>): (r: map<string, MixingChannel>)
    ensures r.Keys == m.Keys
  {
    map k | k in m :: if k in done then AfterNext(m[k]) else m[k]
  }

  /** mixChannelAudio's effect on the buffer: saturating sum over the common prefix. */
  function MixSamples(buf: seq<Int16>, data: seq<Int16>): (r: seq<Int16>)
    ensures |r| == |buf|
  {
    seq(|buf|, i requires 0 <= i < |buf| => if i < |data| then Clamp16(buf[i] as int + data[i] as int) else buf[i])
  }

  /** Mixing is the element-wise sum while it fits, saturates beyond, and leaves the tail alone. */
  lemma MixIsSaturatingSum(buf: seq<Int16>, data: seq<Int16>, i: int)
    requires 0 <= i < |buf|
    ensures i < |data| && SHORT_MIN <= buf[i] as int + data[i] as int <= SHORT_MAX ==>
              MixSamples(buf, data)[i] == buf[i] as int + data[i] as int
    ensures i < |data| && buf[i] as int + data[i] as int > SHORT_MAX ==> MixSamples(buf, data)[i] == SHORT_MAX
    ensures i < |data| && buf[i] as int + data[i] as int < SHORT_MIN ==> MixSamples(buf, data)[i] == SHORT_MIN
    ensures i >= |data| ==> MixSamples(buf, data)[i] == buf[i]
  {
  }

  /** The buffer after mixing the frames in order into `buf`. */
  function MixAll(buf: seq<Int16>, frames: seq<Frame>): (r: seq<Int16>)
    ensures |r| == |buf|
    decreases |frames|
  {
    if frames == [] then buf
    else MixSamples(MixAll(buf, frames[..|frames| - 1]), frames[|frames| - 1].audioData)
  }

  /** The soft limiter on one sample. */
  function LimitSample(s: Int16): (r: Int16)
    ensures Abs(r) <= LIMIT_CEILING
    ensures Abs(s) <= LIMIT_CEILING ==> r == s
    ensures Abs(s) > LIMIT_CEILING ==> Abs(r) == LIMIT_CEILING && (s > 0 <==> r > 0)
  {
    if Abs(s) > LIMIT_CEILING then (if s > 0 then LIMIT_CEILING else -LIMIT_CEILING) else s
  }

  function LimitAll(buf: seq<Int16>): (r: seq<Int16>)
    ensures |r| == |buf|
  {
    seq(|buf|, i requires 0 <= i < |buf| => LimitSample(buf[i]))
  }

  /** No limited sample exceeds 80% of full scale. */
  lemma LimitedIsBelowEightyPercent(buf: seq<Int16>)
    ensures forall i :: 0 <= i < |buf| ==> Abs(LimitAll(buf)[i]) as real <= SHORT_MAX as real * 0.8
  {
  }

  /** The frame a channel contributes to one mix: its next frame, when there is one and it is valid. */
  function Picked(c: MixingChannel): (r: seq<Frame>)
    ensures |r| <= 1
    ensures r != [] ==> NextFrame(c) == Some(r[0]) && IsValid(r[0])
    ensures r == [] ==> NextFrame(c).None? || !IsValid(NextFrame(c).value)
  {
    var next := NextFrame(c);
    if next.Some? && IsValid(next.value) then [next.value] else []
  }

  /**
   * The frames getMixedAudio picks up from the first `n` channels of
   * `order`; a name with no channel contributes nothing.
   */
  function Contributions(order: seq<string>, views: map<string, MixingChannel>, n: nat): (r: seq<Frame>)
    requires n <= |order|
    ensures |r| <= n
    decreases n
  {
    if n == 0 then []
    else Contributions(order, views, n - 1) + (if order[n - 1] in views then Picked(views[order[n - 1]]) else [])
  }

  /** Every contributed frame is valid. */
  lemma {:induction false} ContributionsAreValid(order: seq<string>, views: map<string, MixingChannel>, n: nat)
    requires n <= |order|
    ensures forall i :: 0 <= i < |Contributions(order, views, n)| ==> IsValid(Contributions(order, views, n)[i])
    decreases n
  {
    if n > 0 {
      ContributionsAreValid(order, views, n - 1);
    }
  }

  lemma MixAllSnoc(buf: seq<Int16>, fs: seq<Frame>, f: Frame)
    ensures MixAll(buf, fs + [f]) == MixSamples(MixAll(buf, fs), f.audioData)
  {
    assert (fs + [f])[..|fs|] == fs;
  }

  /**
   * One mixing pass over `chans` in `order` into a zeroed buffer of `size`
   * samples: nothing when no channel had a valid frame, the limited sum
   * otherwise.
   */
  ghost function MixedFrom(order: seq<string>, chans: map<string, MixingChannel>, size: nat): Option<seq<Int16>>
  {
    var picked := Contributions(order, chans, |order|);
    if picked == [] then None else Some(LimitAll(MixAll(Zeros(size), picked)))
  }

  /** The variables of getMixedAudio's channel loop. */
  datatype MixState = MixState(chans: map<string, MixingChannel>, hasAudio: bool, buffer: seq<Int16>)

  /** One iteration of the channel loop (AudioMixer.java:196-200). */
  function MixStep(st: MixState, id: string): (r: MixState)
    ensures r.chans.Keys == st.chans.Keys && |r.buffer| == |st.buffer|
  {
    if id !in st.chans then st
    else
      var frame := NextFrame(st.chans[id]);
      var chans := st.chans[id := AfterNext(st.chans[id])];
      if frame.Some? && IsValid(frame.value) then MixState(chans, true, MixSamples(st.buffer, frame.value.audioData))
      else MixState(chans, st.hasAudio, st.buffer)
  }

  /** The first `n` iterations of the channel loop. */
  function MixSteps(order: seq<string>, st: MixState, n: nat): MixState
    requires n <= |order|
    decreases n
  {
    if n == 0 then st else MixStep(MixSteps(order, st, n - 1), order[n - 1])
  }

  /** Advancing one more channel, not advanced before, updates that entry alone. */
  lemma AdvancedOnSnoc(m: map<string, MixingChannel>, done: seq<string>, id: string)
    requires id in m && id !in done
    ensures AdvancedOn(m, done + [id]) == AdvancedOn(m, done)[id := AfterNext(m[id])]
  {
    var l := AdvancedOn(m, done + [id]);
    var r := AdvancedOn(m, done)[id := AfterNext(m[id])];
    assert forall k :: k in l ==> l[k] == r[k];
  }

  /** Advancing every key is AdvanceAll. */
  lemma AdvancedOnAll(m: map<string, MixingChannel>, done: seq<string>)
    requires forall k :: k in m ==> k in done
    ensures AdvancedOn(m, done) == AdvanceAll(m)
  {
  }

  /** One loop iteration on a channel not visited before. */
  lemma MixStepFresh(chans: map<string, MixingChannel>, done: seq<string>, buf: seq<Int16>,
                     picked: seq<Frame>, id: string)
    requires id in chans && id !in done
    ensures MixStep(MixState(AdvancedOn(chans, done), picked != [], MixAll(buf, picked)), id) ==
            MixState(AdvancedOn(chans, done + [id]), picked + Picked(chans[id]) != [],
                     MixAll(buf, picked + Picked(chans[id])))
  {
    AdvancedOnSnoc(chans, done, id);
    assert AdvancedOn(chans, done)[id] == chans[id];
    if Picked(chans[id]) != [] {
      MixAllSnoc(buf, picked, Picked(chans[id])[0]);
    } else {
      assert picked + Picked(chans[id]) == picked;
    }
  }

  lemma DistinctLastNotInPrefix(order: seq<string>, n: nat)
    requires 0 < n <= |order|
    requires forall a, b :: 0 <= a < b < |order| ==> order[a] != order[b]
    ensures order[n - 1] !in order[..n - 1]
    ensures order[..n] == order[..n - 1] + [order[n - 1]]
  {
    var prefix := order[..n - 1];
    assert forall j :: 0 <= j < |prefix| ==> prefix[j] == order[j];
  }

  /**
   * What the loop computes, in closed form: when `order` names distinct
   * channels, after `n` iterations those channels have advanced once each,
   * and the buffer holds their valid frames mixed in order.
   */
  lemma {:induction false} MixStepsMeaning(order: seq<string>, chans: map<string, MixingChannel>, buf: seq<Int16>, n: nat)
    requires n <= |order|
    requires forall a, b :: 0 <= a < b < |order| ==> order[a] != order[b]
    requires forall j :: 0 <= j < |order| ==> order[j] in chans
    ensures MixSteps(order, MixState(chans, false, buf), n) ==
            MixState(AdvancedOn(chans, order[..n]), Contributions(order, chans, n) != [],
                     MixAll(buf, Contributions(order, chans, n)))
    decreases n
  {
    if n > 0 {
      var id, done, picked := order[n - 1], order[..n - 1], Contributions(order, chans, n - 1);
      MixStepsMeaning(order, chans, buf, n - 1);
      DistinctLastNotInPrefix(order, n);
      MixStepFresh(chans, done, buf, picked, id);
      assert id in chans;
      assert Contributions(order, chans, n) == picked + Picked(chans[id]);
      assert MixSteps(order, MixState(chans, false, buf), n) ==
             MixStep(MixState(AdvancedOn(chans, done), picked != [], MixAll(buf, picked)), id);
    }
  }

  /** A loop over all the channels, once each, advances them all and mixes every contribution. */
  lemma MixStepsOverEnumeration(order: seq<string>, chans: map<string, MixingChannel>, buf: seq<Int16>)
    requires IsEnumeration(order, chans.Keys)
    ensures MixSteps(order, MixState(chans, false, buf), |order|) ==
            MixState(AdvanceAll(chans), Contributions(order, chans, |order|) != [],
                     MixAll(buf, Contributions(order, chans, |order|)))
  {
    MixStepsMeaning(order, chans, buf, |order|);
    assert order[..|order|] == order;
    AdvancedOnAll(chans, order);
  }

  /** The loop of clearAllChannels (AudioMixer.java:295-297): every channel cleared, none added or removed. */
  method ClearEach(m: map<string, MixingChannel>) returns (r: map<string, MixingChannel>)
    ensures r.Keys == m.Keys
    ensures forall id :: id in r ==> r[id] == EMPTY_CHANNEL
  {
    r := m;
    var todo := m.Keys;
    while todo != {}
      invariant todo <= r.Keys && r.Keys == m.Keys
      invariant forall id :: id in r && id !in todo ==> r[id] == EMPTY_CHANNEL
      decreases |todo|
    {
      var id :| id in todo;
      r := r[id := EMPTY_CHANNEL];
      todo := todo - {id};
    }
  }

  /** MixingStatistics (AudioMixer.java:385-390). */
  datatype MixingStatistics = MixingStatistics(
    totalMixingOperations: nat, totalOutputSamples: nat, mixingErrors: nat, activeChannels: nat)

  // ---------------------------------------------------------------------
  // The mixer
  // ---------------------------------------------------------------------

  /** AudioMixer (AudioMixer.java:15-334). */
  class AudioMixer {
    var isMixingActive: bool
    var channels: map<string, MixingChannel>
    var channelGains: map<string, real>
    const mixingBuffer: array<Int16>
    const outputBuffer: array<Int16>
    var totalMixingOperations: nat
    var totalOutputSamples: nat
    var mixingErrors: nat

    /** At most eight channels, each well formed with a gain in range; two buffers of one size. */
    ghost predicate Valid()
      reads this
    {
      mixingBuffer != outputBuffer &&
      mixingBuffer.Length == outputBuffer.Length &&
      channels.Keys == channelGains.Keys &&
      |channels| <= MAX_CHANNELS &&
      (forall id :: id in channels ==> ChannelValid(channels[id])) &&
      (forall id :: id in channelGains ==> MIN_GAIN <= channelGains[id] <= MAX_GAIN)
    }

    /** What getMixedAudio returns when it visits the channels in `order`. */
    ghost function MixedOutput(order: seq<string>): Option<seq<Int16>>
      reads this
    {
      if !isMixingActive then None else MixedFrom(order, channels, mixingBuffer.Length)
    }

    /** AudioMixer(int bufferSize) (AudioMixer.java:46-51). */
    constructor (bufferSize: nat)
      ensures Valid() && fresh(mixingBuffer) && fresh(outputBuffer)
      ensures mixingBuffer.Length == bufferSize
      ensures !isMixingActive && channels == map[] && channelGains == map[]
      ensures totalMixingOperations == 0 && totalOutputSamples == 0 && mixingErrors == 0
    {
      isMixingActive := false;
      channels := map[];
      channelGains := map[];
      mixingBuffer := new Int16[bufferSize](_ => 0);
      outputBuffer := new Int16[bufferSize](_ => 0);
      totalMixingOperations, totalOutputSamples, mixingErrors := 0, 0, 0;
    }

    /** AudioMixer() (AudioMixer.java:42-44): the default buffer of 160 samples. */
    constructor WithDefaultSize()
      ensures Valid() && fresh(mixingBuffer) && fresh(outputBuffer)
      ensures mixingBuffer.Length == DEFAULT_BUFFER_SIZE
      ensures !isMixingActive && channels == map[] && channelGains == map[]
      ensures totalMixingOperations == 0 && totalOutputSamples == 0 && mixingErrors == 0
    {
      isMixingActive := false;
      channels := map[];
      channelGains := map[];
      mixingBuffer := new Int16[DEFAULT_BUFFER_SIZE](_ => 0);
      outputBuffer := new Int16[DEFAULT_BUFFER_SIZE](_ => 0);
      totalMixingOperations, totalOutputSamples, mixingErrors := 0, 0, 0;
    }

    /** initialize (AudioMixer.java:56-66). */
    method Initialize()
      requires Valid()
      modifies this
      ensures Valid() && isMixingActive
      ensures channels == old(channels) && channelGains == old(channelGains)
      ensures totalMixingOperations == old(totalMixingOperations) && totalOutputSamples == old(totalOutputSamples)
      ensures mixingErrors == old(mixingErrors)
    {
      if isMixingActive {
        return;
      }
      isMixingActive := true;
    }

    /** addChannel (AudioMixer.java:71-94). */
    method AddChannel(channelId: string) returns (ok: bool)
      requires Valid()
      modifies this
      ensures Valid()
      ensures ok == (old(isMixingActive) && |old(channels)| < MAX_CHANNELS && channelId !in old(channels))
      ensures channels == if ok then old(channels)[channelId := EMPTY_CHANNEL] else old(channels)
      ensures channelGains == if ok then old(channelGains)[channelId := DEFAULT_GAIN] else old(channelGains)
      ensures isMixingActive == old(isMixingActive)
      ensures totalMixingOperations == old(totalMixingOperations) && totalOutputSamples == old(totalOutputSamples)
      ensures mixingErrors == old(mixingErrors)
    {
      if !isMixingActive || |channels| >= MAX_CHANNELS || channelId in channels {
        return false;
      }
      channels := channels[channelId := EMPTY_CHANNEL];
      channelGains := channelGains[channelId := DEFAULT_GAIN];
      return true;
    }

    /** removeChannel (AudioMixer.java:99-111). */
    method RemoveChannel(channelId: string) returns (ok: bool)
      requires Valid()
      modifies this
      ensures Valid()
      ensures ok == (channelId in old(channels))
      ensures channels == old(channels) - {channelId}
      ensures channelGains == old(channelGains) - {channelId}
      ensures isMixingActive == old(isMixingActive)
      ensures totalMixingOperations == old(totalMixingOperations) && totalOutputSamples == old(totalOutputSamples)
      ensures mixingErrors == old(mixingErrors)
    {
      if channelId !in channels {
        return false;
      }
      channels := channels - {channelId};
      channelGains := channelGains - {channelId};
      return true;
    }

    /** setChannelGain (AudioMixer.java:116-132). */
    method SetChannelGain(channelId: string, gain: real) returns (ok: bool)
      requires Valid()
      modifies this
      ensures Valid()
      ensures ok == (MIN_GAIN <= gain <= MAX_GAIN && channelId in old(channels))
      ensures channelGains == if ok then old(channelGains)[channelId := gain] else old(channelGains)
      ensures channels == old(channels) && isMixingActive == old(isMixingActive)
      ensures totalMixingOperations == old(totalMixingOperations) && totalOutputSamples == old(totalOutputSamples)
      ensures mixingErrors == old(mixingErrors)
    {
      if gain < MIN_GAIN || gain > MAX_GAIN {
        return false;
      }
      if channelId !in channels {
        return false;
      }
      channelGains := channelGains[channelId := gain];
      return true;
    }

    /** getChannelGain (AudioMixer.java:137-141): unknown channels report the default gain. */
    function GetChannelGain(channelId: string): (g: real)
      reads this
      requires Valid()
      ensures MIN_GAIN <= g <= MAX_GAIN
      ensures channelId !in channels ==> g == DEFAULT_GAIN
      ensures channelId in channels ==> g == channelGains[channelId]
    {
      if channelId in channelGains then channelGains[channelId] else DEFAULT_GAIN
    }

    /**
     * addAudioFrame (AudioMixer.java:146-177): the channel's gain is applied
     * and the result pushed into its history.  A null frame fails inside
     * applyGain, which the method catches and counts as a mixing error.
     */
    method AddAudioFrame(ctx: FrameContext, channelId: string, frame: Option<Frame>) returns (added: bool)
      requires Valid()
      modifies this, ctx
      ensures Valid()
      ensures channelGains == old(channelGains) && isMixingActive == old(isMixingActive)
      ensures totalMixingOperations == old(totalMixingOperations) && totalOutputSamples == old(totalOutputSamples)
      ensures !(old(isMixingActive) && channelId in old(channels)) ==>
                !added && ctx.lastSequenceNumber == old(ctx.lastSequenceNumber) &&
                channels == old(channels) && mixingErrors == old(mixingErrors)
      ensures old(isMixingActive) && channelId in old(channels) && frame.None? ==>
                !added && ctx.lastSequenceNumber == old(ctx.lastSequenceNumber) &&
                channels == old(channels) && mixingErrors == old(mixingErrors) + 1
      ensures old(isMixingActive) && channelId in old(channels) && frame.Some? ==>
                var gain := old(GetChannelGain(channelId));
                var gained := GainedFrame(frame.value, gain, old(ctx.lastSequenceNumber) + 1);
                added == IsValid(frame.value) &&
                ctx.lastSequenceNumber == old(ctx.lastSequenceNumber) + (if gain == 1.0 then 0 else 1) &&
                channels == old(channels)[channelId := AddFrame(old(channels)[channelId], gained)] &&
                mixingErrors == old(mixingErrors)
    {
      if !isMixingActive || channelId !in channels {
        return false;
      }
      if frame.None? {
        mixingErrors := mixingErrors + 1;
        return false;
      }
      var gain := GetChannelGain(channelId);
      var gained := ctx.ApplyGain(frame.value, gain);
      added := IsValid(gained);
      channels := channels[channelId := AddFrame(channels[channelId], gained)];
    }

    /** mixChannelAudio (AudioMixer.java:230-247). */
    method MixChannelAudio(frame: Frame)
      modifies mixingBuffer
      ensures mixingBuffer[..] == MixSamples(old(mixingBuffer[..]), frame.audioData)
    {
      var data := frame.audioData;
      var minLength := if mixingBuffer.Length < |data| then mixingBuffer.Length else |data|;
      var i := 0;
      while i < minLength
        invariant 0 <= i <= minLength
        invariant forall k :: 0 <= k < i ==> mixingBuffer[k] == Clamp16(old(mixingBuffer[k]) as int + data[k] as int)
        invariant forall k :: i <= k < mixingBuffer.Length ==> mixingBuffer[k] == old(mixingBuffer[k])
      {
        var mixed: int := mixingBuffer[i] as int + data[i] as int;
        if mixed > SHORT_MAX {
          mixed := SHORT_MAX;
        } else if mixed < SHORT_MIN {
          mixed := SHORT_MIN;
        }
        mixingBuffer[i] := mixed;
        i := i + 1;
      }
    }

    /** applyMixingLimits (AudioMixer.java:252-263). */
    method ApplyMixingLimits()
      modifies mixingBuffer
      ensures mixingBuffer[..] == LimitAll(old(mixingBuffer[..]))
    {
      var i := 0;
      while i < mixingBuffer.Length
        invariant 0 <= i <= mixingBuffer.Length
        invariant forall k :: 0 <= k < i ==> mixingBuffer[k] == LimitSample(old(mixingBuffer[k]))
        invariant forall k :: i <= k < mixingBuffer.Length ==> mixingBuffer[k] == old(mixingBuffer[k])
      {
        var sample := mixingBuffer[i];
        if Abs(sample) > LIMIT_CEILING {
          mixingBuffer[i] := if sample > 0 then LIMIT_CEILING else -LIMIT_CEILING;
        }
        i := i + 1;
      }
    }

    /** Arrays.fill(mixingBuffer, 0) (AudioMixer.java:191). */
    method ClearMixingBuffer()
      modifies mixingBuffer
      ensures mixingBuffer[..] == Zeros(mixingBuffer.Length)
    {
      var i := 0;
      while i < mixingBuffer.Length
        invariant 0 <= i <= mixingBuffer.Length
        invariant forall k :: 0 <= k < i ==> mixingBuffer[k] == 0
      {
        mixingBuffer[i] := 0;
        i := i + 1;
      }
    }

    /** System.arraycopy(mixingBuffer, 0, outputBuffer, 0, mixingBuffer.length) (AudioMixer.java:208). */
    method CopyToOutput()
      requires mixingBuffer != outputBuffer && mixingBuffer.Length == outputBuffer.Length
      modifies outputBuffer
      ensures outputBuffer[..] == mixingBuffer[..]
    {
      var i := 0;
      while i < mixingBuffer.Length
        invariant 0 <= i <= mixingBuffer.Length
        invariant forall k :: 0 <= k < i ==> outputBuffer[k] == mixingBuffer[k]
      {
        outputBuffer[i] := mixingBuffer[i];
        i := i + 1;
      }
    }

    /** One iteration of getMixedAudio's channel loop (AudioMixer.java:196-200). */
    method MixOneChannel(id: string, chans: map<string, MixingChannel>, hasAudio: bool)
      returns (after: map<string, MixingChannel>, hasAudioAfter: bool)
      modifies mixingBuffer
      ensures MixState(after, hasAudioAfter, mixingBuffer[..]) == MixStep(MixState(chans, hasAudio, old(mixingBuffer[..])), id)
    {
      after, hasAudioAfter := chans, hasAudio;
      if id in chans {
        var channel := chans[id];
        var frame := NextFrame(channel);
        after := chans[id := AfterNext(channel)];
        if frame.Some? && IsValid(frame.value) {
          MixChannelAudio(frame.value);
          hasAudioAfter := true;
        }
      }
    }

    /**
     * The channel loop of getMixedAudio (AudioMixer.java:194-201): each
     * channel in `order` hands out its next frame, and the valid ones are
     * mixed into the buffer in that order.
     */
    method MixChannels(order: seq<string>, chans: map<string, MixingChannel>)
      returns (after: map<string, MixingChannel>, hasAudio: bool)
      modifies mixingBuffer
      ensures MixState(after, hasAudio, mixingBuffer[..]) == MixSteps(order, MixState(chans, false, old(mixingBuffer[..])), |order|)
    {
      ghost var init := MixState(chans, false, mixingBuffer[..]);
      after := chans;
      hasAudio := false;
      var i := 0;
      while i < |order|
        invariant 0 <= i <= |order|
        invariant MixSteps(order, init, i) == MixState(after, hasAudio, mixingBuffer[..])
      {
        after, hasAudio := MixOneChannel(order[i], after, hasAudio);
        i := i + 1;
      }
    }

    /**
     * The buffer work of getMixedAudio (AudioMixer.java:191-208): zero the
     * mixing buffer, mix every channel's next frame into it, and when any
     * was mixed, limit it and copy it to the output buffer.
     */
    method MixPass(order: seq<string>, chans: map<string, MixingChannel>)
      returns (after: map<string, MixingChannel>, hasAudio: bool)
      requires mixingBuffer != outputBuffer && mixingBuffer.Length == outputBuffer.Length
      requires IsEnumeration(order, chans.Keys)
      requires forall id :: id in chans ==> ChannelValid(chans[id])
      modifies mixingBuffer, outputBuffer
      ensures after == AdvanceAll(chans)
      ensures forall id :: id in after ==> ChannelValid(after[id])
      ensures hasAudio == MixedFrom(order, chans, mixingBuffer.Length).Some?
      ensures hasAudio ==> outputBuffer[..] == MixedFrom(order, chans, mixingBuffer.Length).value
    {
      ClearMixingBuffer();
      MixStepsOverEnumeration(order, chans, mixingBuffer[..]);
      AdvanceAllKeepsValid(chans);
      after, hasAudio := MixChannels(order, chans);
      if hasAudio {
        ApplyMixingLimits();
        CopyToOutput();
      }
    }

    /**
     * getMixedAudio (AudioMixer.java:182-225), visiting the channels in
     * `order`: every channel's cursor advances, valid frames are summed with
     * saturation into the zeroed buffer, and when any was found the limited
     * buffer is copied out and returned.
     */
    method GetMixedAudio(order: seq<string>) returns (mixed: Option<seq<Int16>>)
      requires Valid() && IsEnumeration(order, channels.Keys)
      modifies this, mixingBuffer, outputBuffer
      ensures Valid()
      ensures mixed == old(MixedOutput(order))
      ensures mixed.Some? ==> outputBuffer[..] == mixed.value
      ensures channels == if old(isMixingActive) then AdvanceAll(old(channels)) else old(channels)
      ensures channelGains == old(channelGains) && isMixingActive == old(isMixingActive)
      ensures totalMixingOperations == old(totalMixingOperations) + (if mixed.Some? then 1 else 0)
      ensures totalOutputSamples == old(totalOutputSamples) + (if mixed.Some? then mixingBuffer.Length else 0)
      ensures mixingErrors == old(mixingErrors)
    {
      if !isMixingActive {
        return None;
      }
      var hasAudio := AdvanceAndMix(order);
      if !hasAudio {
        return None;
      }
      RecordOutput();
      mixed := Some(outputBuffer[..]);
    }

    /** The statistics of one produced mix (AudioMixer.java:210-211). */
    method RecordOutput()
      requires Valid()
      modifies this
      ensures Valid()
      ensures channels == old(channels) && channelGains == old(channelGains) && isMixingActive == old(isMixingActive)
      ensures totalMixingOperations == old(totalMixingOperations) + 1
      ensures totalOutputSamples == old(totalOutputSamples) + mixingBuffer.Length
      ensures mixingErrors == old(mixingErrors)
    {
      totalMixingOperations := totalMixingOperations + 1;
      totalOutputSamples := totalOutputSamples + mixingBuffer.Length;
    }

    /** The locked part of getMixedAudio (AudioMixer.java:191-208): one pass, and the channels advanced. */
    method AdvanceAndMix(order: seq<string>) returns (hasAudio: bool)
      requires Valid() && IsEnumeration(order, channels.Keys)
      modifies this, mixingBuffer, outputBuffer
      ensures Valid()
      ensures hasAudio == old(MixedFrom(order, channels, mixingBuffer.Length)).Some?
      ensures hasAudio ==> outputBuffer[..] == old(MixedFrom(order, channels, mixingBuffer.Length)).value
      ensures channels == AdvanceAll(old(channels))
      ensures channelGains == old(channelGains) && isMixingActive == old(isMixingActive)
      ensures totalMixingOperations == old(totalMixingOperations) && totalOutputSamples == old(totalOutputSamples)
      ensures mixingErrors == old(mixingErrors)
    {
      var after;
      after, hasAudio := MixPass(order, channels);
      channels := after;
    }

    /** getMixingStatistics (AudioMixer.java:268-276). */
    function GetMixingStatistics(): (s: MixingStatistics)
      reads this
      ensures s.activeChannels == |channels|
      ensures s.totalMixingOperations == totalMixingOperations && s.totalOutputSamples == totalOutputSamples
      ensures s.mixingErrors == mixingErrors
    {
      MixingStatistics(totalMixingOperations, totalOutputSamples, mixingErrors, |channels|)
    }

    /** resetMixingStatistics (AudioMixer.java:281-288). */
    method ResetMixingStatistics()
      requires Valid()
      modifies this
      ensures Valid()
      ensures totalMixingOperations == 0 && totalOutputSamples == 0 && mixingErrors == 0
      ensures channels == old(channels) && channelGains == old(channelGains) && isMixingActive == old(isMixingActive)
    {
      totalMixingOperations, totalOutputSamples, mixingErrors := 0, 0, 0;
    }

    /** clearAllChannels (AudioMixer.java:293-300): every history emptied, every cursor back at 0. */
    method ClearAllChannels()
      requires Valid()
      modifies this
      ensures Valid()
      ensures channels.Keys == old(channels).Keys
      ensures forall id :: id in channels ==> channels[id] == EMPTY_CHANNEL
      ensures channelGains == old(channelGains) && isMixingActive == old(isMixingActive)
      ensures totalMixingOperations == old(totalMixingOperations) && totalOutputSamples == old(totalOutputSamples)
      ensures mixingErrors == old(mixingErrors)
    {
      var cleared := ClearEach(channels);
      channels := cleared;
    }

    /** clearChannel (AudioMixer.java:305-313). */
    method ClearChannel(channelId: string)
      requires Valid()
      modifies this
      ensures Valid()
      ensures channels == if channelId in old(channels) then old(channels)[channelId := EMPTY_CHANNEL]
                          else old(channels)
      ensures channelGains == old(channelGains) && isMixingActive == old(isMixingActive)
      ensures totalMixingOperations == old(totalMixingOperations) && totalOutputSamples == old(totalOutputSamples)
      ensures mixingErrors == old(mixingErrors)
    {
      if channelId in channels {
        channels := channels[channelId := EMPTY_CHANNEL];
      }
    }

    /** shutdown (AudioMixer.java:318-334): a second call changes nothing. */
    method Shutdown()
      requires Valid()
      modifies this
      ensures Valid() && !isMixingActive
      ensures old(isMixingActive) ==> channels == map[] && channelGains == map[]
      ensures !old(isMixingActive) ==> channels == old(channels) && channelGains == old(channelGains)
      ensures totalMixingOperations == old(totalMixingOperations) && totalOutputSamples == old(totalOutputSamples)
      ensures mixingErrors == old(mixingErrors)
    {
      if !isMixingActive {
        return;
      }
      isMixingActive := false;
      ClearAllChannels();
      channels := map[];
      channelGains := map[];
    }
  }

  /** Mixing 1000 and 500 from a zeroed 160-sample buffer gives 1500 everywhere. */
  lemma TwoChannelMix(a: Frame, b: Frame)
    requires a.audioData == seq(160, _ => 1000) && b.audioData == seq(160, _ => 500)
    ensures LimitAll(MixAll(Zeros(160), [a, b])) == seq(160, _ => 1500)
  {
    var zero := Zeros(160);
    assert MixAll(zero, []) == zero;
    assert [a][..0] == [] && [a, b][..1] == [a];
    var once := MixAll(zero, [a]);
    assert once == MixSamples(MixAll(zero, []), a.audioData);
    assert forall i :: 0 <= i < 160 ==> once[i] == 1000;
    var twice := MixAll(zero, [a, b]);
    assert twice == MixSamples(once, b.audioData);
    assert forall i :: 0 <= i < 160 ==> twice[i] == 1500;
  }

  /**
   * The same mix as getMixedAudio computes it: two channels that each
   * hold one unread frame, visited in either order.
   */
  lemma TwoChannelMixedFrom(a: Frame, b: Frame)
    requires IsValid(a) && IsValid(b)
    requires a.audioData == seq(160, _ => 1000) && b.audioData == seq(160, _ => 500)
    ensures var chans := map["A" := MixingChannel([a], 0), "B" := MixingChannel([b], 0)];
            MixedFrom(["A", "B"], chans, 160) == Some(seq(160, _ => 1500))
  {
    var chans := map["A" := MixingChannel([a], 0), "B" := MixingChannel([b], 0)];
    assert Picked(chans["A"]) == [a] && Picked(chans["B"]) == [b];
    assert Contributions(["A", "B"], chans, 0) == [];
    assert Contributions(["A", "B"], chans, 1) == [a];
    assert Contributions(["A", "B"], chans, 2) == [a, b];
    TwoChannelMix(a, b);
  }

  /** A new, initialized mixer with the empty channels A and B at gain 1. */
  method NewTwoChannelMixer() returns (mixer: AudioMixer)
    ensures fresh(mixer) && fresh(mixer.mixingBuffer) && fresh(mixer.outputBuffer)
    ensures mixer.Valid() && mixer.isMixingActive && mixer.mixingBuffer.Length == DEFAULT_BUFFER_SIZE
    ensures mixer.channels == map["A" := EMPTY_CHANNEL, "B" := EMPTY_CHANNEL]
    ensures mixer.channelGains == map["A" := DEFAULT_GAIN, "B" := DEFAULT_GAIN]
  {
    mixer := new AudioMixer.WithDefaultSize();
    mixer.Initialize();
    var okA := mixer.AddChannel("A");
    var okB := mixer.AddChannel("B");
  }

  /** Frame a to channel A and frame b to channel B, at gain 1. */
  method LoadTwoFrames(mixer: AudioMixer, ctx: FrameContext, a: Frame, b: Frame)
    requires IsValid(a) && IsValid(b)
    requires mixer.Valid() && mixer.isMixingActive
    requires mixer.channels == map["A" := EMPTY_CHANNEL, "B" := EMPTY_CHANNEL]
    requires mixer.channelGains == map["A" := DEFAULT_GAIN, "B" := DEFAULT_GAIN]
    modifies mixer, ctx
    ensures mixer.Valid() && mixer.isMixingActive
    ensures mixer.channels == map["A" := MixingChannel([a], 0), "B" := MixingChannel([b], 0)]
  {
    var addedA := mixer.AddAudioFrame(ctx, "A", Some(a));
    assert mixer.channels == map["A" := MixingChannel([a], 0), "B" := EMPTY_CHANNEL];
    var addedB := mixer.AddAudioFrame(ctx, "B", Some(b));
  }

  /** Channels A and B, each visited once. */
  lemma TwoChannelOrder(keys: set<string>)
    requires keys == {"A", "B"}
    ensures IsEnumeration(["A", "B"], keys)
  {
  }

  /**
   * The two-channel scenario end to end on a new mixer: initialize, add
   * channels A and B, give each one frame, and mix.
   */
  method TwoChannelScenario(a: Frame, b: Frame) returns (mixed: Option<seq<Int16>>)
    requires IsValid(a) && IsValid(b)
    requires a.audioData == seq(160, _ => 1000) && b.audioData == seq(160, _ => 500)
    ensures mixed == Some(seq(160, _ => 1500))
  {
    var mixer := NewTwoChannelMixer();
    var ctx := new FrameContext();
    LoadTwoFrames(mixer, ctx, a, b);
    TwoChannelMixedFrom(a, b);
    TwoChannelOrder(mixer.channels.Keys);
    mixed := mixer.GetMixedAudio(["A", "B"]);
  }
}
