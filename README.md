# codec2talkie audio synchronisation core, modelled in Dafny

This project models the `sync` package of codec2talkie. That package
synchronises several audio channels, mixes them and writes the result to
an audio sink.

- **AudioFrame** (`frames.dfy`, module `AudioFrames`). A 16-bit PCM frame
  with its channel id, timestamp, format and sequence number. It also holds
  the frame operations: peak, gain, fade in and fade out, sub-frame, merge,
  and silent frames. The static sequence counter is the class
  `FrameContext`.
- **AudioMixer** (`mixer.dfy`, module `Mixer`). Keeps up to eight channels,
  each with a 10-frame history and a read cursor. A mix pass advances every
  channel, adds the valid frames with saturation, passes the sum through
  the soft limiter at 80% of full scale, and copies it into the output
  buffer. The mixing and output buffers are `array`s that the methods
  update in place. The mixing loop is proved against the step function
  `MixStep`. The closed form of the whole pass is the lemma
  `MixStepsOverEnumeration`.
- **DataSyncController** (`datasync.dfy`, module `DataSync`). Keeps bounded
  per-channel FIFO queues of frames (1024 each), the time each channel last
  delivered, and a per-channel error count. A periodic sweep counts
  timeouts (100 ms). A batch pop takes one frame from every channel, but
  only when every channel has one.
- **TimeSyncController** (`timesync.dfy`, module `TimeSync`). Keeps
  per-channel timestamps, drifts and update times. A report more than
  10 ms off is resynchronised to the clock. A drift above 5 ms is added
  back when reading. The statistics give the largest drift and the
  truncated mean drift.
- **AudioSyncManager** (`syncmanager.dfy`, module `SyncManager`). A
  registry of at most eight channel states in front of the time and data
  controllers.
- **OutputSyncController** (`outputsync.dfy`, module `OutputSync`). Writes
  the mixer's output to the sink on every tick, and counts the bytes, the
  failed writes and the time of the last write.

`wrappers.dfy` holds `Option` and `Result`. `collections.dfy` holds the
notion of an enumeration of a map's keys, used where the Java code iterates
over a `ConcurrentHashMap`, and small lemmas about maps.

Inputs the Java code takes from its environment become parameters:

- the clock (`System.currentTimeMillis()`) is `now`;
- the order in which a hash map is iterated is an `order` sequence that
  lists each key once;
- what `AudioTrack.write` returned is `written`;
- whether a track exists is `hasTrack`.

Objects whose fields the source updates are classes. The per-channel
records held in maps (`MixingChannel`, `ChannelSyncState`) are datatype
values: each belongs to exactly one map entry and is never shared. Java
`short` is the subset type `Int16`. Java `float` arithmetic is modelled
with `real`, with explicit truncation toward zero (`Trunc`), saturation
(`Clamp16`) and wrap-around (`Wrap16`).

## Model

| member | source | states |
|---|---|---|
| AudioFrames.Trunc | codec2talkie/src/main/java/com/radio/codec2talkie/sync/AudioFrame.java:188 | Java's float-to-int cast: the integer between zero and the value, within one of it. |
| AudioFrames.Clamp16 | codec2talkie/src/main/java/com/radio/codec2talkie/sync/AudioFrame.java:190 | The `Math.max(MIN, Math.min(MAX, x))` saturation yields the 16-bit value nearest to x. |
| AudioFrames.Wrap32 | codec2talkie/src/main/java/com/radio/codec2talkie/sync/AudioFrame.java:265 | Java `int` addition: the result is an `int`, agrees with the exact sum modulo 2^32, and is the sum itself when that fits. |
| AudioFrames.Wrap32Absorbs | codec2talkie/src/main/java/com/radio/codec2talkie/sync/AudioFrame.java:265 | Wrapping an operand first does not change a wrapped sum. |
| AudioFrames.Wrap16 | codec2talkie/src/main/java/com/radio/codec2talkie/sync/AudioFrame.java:172 | The `(short)` cast agrees with its argument modulo 65536. |
| AudioFrames.ScaleByFraction | codec2talkie/src/main/java/com/radio/codec2talkie/sync/AudioFrame.java:186-209 | Scaling a sample by a factor in [0, 1] and truncating never increases its magnitude. |
| AudioFrames.IsValid | codec2talkie/src/main/java/com/radio/codec2talkie/sync/AudioFrame.java:119-126 | A frame is valid iff it has samples, a positive sample count, rate and channel count; its consequences are ValidityKept, EmptySilentFrameIsInvalid and SilentFrameIsValidAndSilent. |
| AudioFrames.Equals | codec2talkie/src/main/java/com/radio/codec2talkie/sync/AudioFrame.java:294-300 | Frames are equal iff their sequence numbers are; see EqualsIsEquivalence and FrameContext.Stamp. |
| AudioFrames.ValidityKept | codec2talkie/src/main/java/com/radio/codec2talkie/sync/AudioFrame.java:119-126 | A sub-frame of a valid frame is valid; two valid compatible frames with `int` counts merge to a valid frame iff their count sum is at most `Integer.MAX_VALUE`. |
| AudioFrames.MergeOverflowIsInvalid | codec2talkie/src/main/java/com/radio/codec2talkie/sync/AudioFrame.java:264-266 | Merging counts `Integer.MAX_VALUE` and 1 wraps to `Integer.MIN_VALUE`, so the merged frame fails isValid. |
| AudioFrames.EmptySilentFrameIsInvalid | codec2talkie/src/main/java/com/radio/codec2talkie/sync/AudioFrame.java:119-126 | A silent frame of no samples fails isValid. |
| AudioFrames.EqualsIsEquivalence | codec2talkie/src/main/java/com/radio/codec2talkie/sync/AudioFrame.java:294-300 | Equality by sequence number is an equivalence, and a frame equals any copy with other samples or timestamp. |
| AudioFrames.IsSilent | codec2talkie/src/main/java/com/radio/codec2talkie/sync/AudioFrame.java:131-144 | True iff every sample has magnitude at most 100; an empty frame is silent. |
| AudioFrames.PeakFoldIsMax | codec2talkie/src/main/java/com/radio/codec2talkie/sync/AudioFrame.java:170-173 | Without -32768, the loop's accumulator is at least every magnitude and equals one of them (or its start). |
| AudioFrames.PeakFoldSnoc | codec2talkie/src/main/java/com/radio/codec2talkie/sync/AudioFrame.java:171-173 | The peak loop runs left to right: one more sample is one more step. |
| AudioFrames.PeakWrapsOnLastMinimum | codec2talkie/src/main/java/com/radio/codec2talkie/sync/AudioFrame.java:172 | A frame whose last sample is -32768 reports peak -32768, because 32768 wraps through the short cast. |
| AudioFrames.GetPeak | codec2talkie/src/main/java/com/radio/codec2talkie/sync/AudioFrame.java:165-176 | Returns the loop's fold; 0 for an empty frame; without -32768, the largest magnitude, reached by some sample. |
| AudioFrames.GainOfOne | codec2talkie/src/main/java/com/radio/codec2talkie/sync/AudioFrame.java:188-191 | A gain of 1 leaves a sample unchanged. |
| AudioFrames.GainAttenuates | codec2talkie/src/main/java/com/radio/codec2talkie/sync/AudioFrame.java:188-191 | A gain in [0, 1] keeps the sign and never increases the magnitude. |
| AudioFrames.ScaleSamples | codec2talkie/src/main/java/com/radio/codec2talkie/sync/AudioFrame.java:186-192 | Same length; sample i is `trunc(s_i * g)` saturated to 16 bits. |
| AudioFrames.GainedFrame | codec2talkie/src/main/java/com/radio/codec2talkie/sync/AudioFrame.java:181-195 | Gain 1 returns the same frame; otherwise only the samples (scaled and saturated one by one) and the sequence number change; validity is kept. |
| AudioFrames.FactorsAreFractions | codec2talkie/src/main/java/com/radio/codec2talkie/sync/AudioFrame.java:207-225 | Fade-in factors lie in [0, 1) and fade-out factors in (0, 1]. |
| AudioFrames.Faded | codec2talkie/src/main/java/com/radio/codec2talkie/sync/AudioFrame.java:208-226 | A faded sample is no louder than the original. |
| AudioFrames.FadeInSample | codec2talkie/src/main/java/com/radio/codec2talkie/sync/AudioFrame.java:206-209 | Each faded-in sample is no louder than the original. |
| AudioFrames.FadeOutSample | codec2talkie/src/main/java/com/radio/codec2talkie/sync/AudioFrame.java:223-227 | Each faded-out sample is no louder than the original. |
| AudioFrames.FadeInStartsSilent | codec2talkie/src/main/java/com/radio/codec2talkie/sync/AudioFrame.java:207-208 | The first faded-in sample is 0. |
| AudioFrames.FadeOutStartsWhole | codec2talkie/src/main/java/com/radio/codec2talkie/sync/AudioFrame.java:225-226 | The first sample of the fade-out range is kept whole (factor 1). |
| AudioFrames.FadeInSamples | codec2talkie/src/main/java/com/radio/codec2talkie/sync/AudioFrame.java:200-209 | Unchanged when n <= 0 or n >= length; otherwise index 0 becomes 0, only indexes below n change, and none grows louder. |
| AudioFrames.FadeOutSamples | codec2talkie/src/main/java/com/radio/codec2talkie/sync/AudioFrame.java:217-227 | Unchanged when n <= 0 or n >= length; otherwise only the last n indexes change, and none grows louder. |
| AudioFrames.SubFrameOf | codec2talkie/src/main/java/com/radio/codec2talkie/sync/AudioFrame.java:235-242 | Refused iff start < 0, length <= 0 or start + length > size; otherwise the samples are the range, the sample count is the length, and the other metadata is kept. |
| AudioFrames.SubFrameWhole | codec2talkie/src/main/java/com/radio/codec2talkie/sync/AudioFrame.java:235-242 | `subFrame(0, size)` reproduces the samples. |
| AudioFrames.SubFrameOfSubFrame | codec2talkie/src/main/java/com/radio/codec2talkie/sync/AudioFrame.java:235-242 | A sub-frame of a sub-frame is the sub-frame at the summed offset. |
| AudioFrames.MergeOf | codec2talkie/src/main/java/com/radio/codec2talkie/sync/AudioFrame.java:247-267 | A null argument yields the other; different channels or different rate/channel counts are refused; otherwise samples a ++ b, the counts' `int` sum (wrapping on overflow), a's timestamp. |
| AudioFrames.MergeAssociative | codec2talkie/src/main/java/com/radio/codec2talkie/sync/AudioFrame.java:247-267 | Merging compatible frames is associative on everything but the sequence number. |
| AudioFrames.SplitMergeRoundTrip | codec2talkie/src/main/java/com/radio/codec2talkie/sync/AudioFrame.java:235-267 | Splitting a frame in two with subFrame and merging the halves restores its samples and (as an `int`) its length as the count. |
| AudioFrames.Zeros | codec2talkie/src/main/java/com/radio/codec2talkie/sync/AudioFrame.java:273-274 | n samples, all zero. |
| AudioFrames.FrameContext.constructor | codec2talkie/src/main/java/com/radio/codec2talkie/sync/AudioFrame.java:21 | The counter starts at 0. |
| AudioFrames.FrameContext.Stamp | codec2talkie/src/main/java/com/radio/codec2talkie/sync/AudioFrame.java:33-44 | The counter grows by one and numbers the new frame, which therefore equals no frame numbered before. |
| AudioFrames.FrameContext.NewFrame | codec2talkie/src/main/java/com/radio/codec2talkie/sync/AudioFrame.java:26-44 | The frame keeps a copy of the producer's array, numbered with the next counter value. |
| AudioFrames.FrameContext.ApplyGain | codec2talkie/src/main/java/com/radio/codec2talkie/sync/AudioFrame.java:181-195 | Returns GainedFrame; the counter moves only when the gain is not 1. |
| AudioFrames.FrameContext.ApplyFadeIn | codec2talkie/src/main/java/com/radio/codec2talkie/sync/AudioFrame.java:200-212 | Same frame when the fade does not apply; otherwise a newly numbered frame, first sample 0, only the first n samples changed. |
| AudioFrames.FrameContext.ApplyFadeOut | codec2talkie/src/main/java/com/radio/codec2talkie/sync/AudioFrame.java:217-230 | Same frame when the fade does not apply; otherwise a newly numbered frame with only the last n samples changed. |
| AudioFrames.FrameContext.SubFrame | codec2talkie/src/main/java/com/radio/codec2talkie/sync/AudioFrame.java:235-242 | Returns SubFrameOf; a number is used only when the range is accepted. |
| AudioFrames.FrameContext.Merge | codec2talkie/src/main/java/com/radio/codec2talkie/sync/AudioFrame.java:247-267 | Returns MergeOf; a number is used only when two frames are combined. |
| AudioFrames.FrameContext.CreateSilent | codec2talkie/src/main/java/com/radio/codec2talkie/sync/AudioFrame.java:272-278 | Refused iff the count is negative; otherwise n zero samples, sample count n, stamped `now`. |
| AudioFrames.SilentFrameIsValidAndSilent | codec2talkie/src/main/java/com/radio/codec2talkie/sync/AudioFrame.java:272-278 | A frame from createSilent with n > 0 samples and a positive format passes isValid (lines 119-126) and isSilent (lines 131-144). |
| Mixer.NextFrame | codec2talkie/src/main/java/com/radio/codec2talkie/sync/AudioMixer.java:365-374 | A frame iff the cursor is inside the history; a frame of a well-formed channel is valid. |
| Mixer.AfterNext | codec2talkie/src/main/java/com/radio/codec2talkie/sync/AudioMixer.java:365-374 | The history is kept; the cursor moves by one exactly when a frame was returned. |
| Mixer.ReadsInOrder | codec2talkie/src/main/java/com/radio/codec2talkie/sync/AudioMixer.java:365-374 | k reads return the history from the cursor in order, then null; the cursor ends at min(cursor + k, size). |
| Mixer.Appended | codec2talkie/src/main/java/com/radio/codec2talkie/sync/AudioMixer.java:355-360 | The history stays within 10 frames, ends with the new frame, and is a suffix of old ++ [f] (the oldest evicted). |
| Mixer.AddFrame | codec2talkie/src/main/java/com/radio/codec2talkie/sync/AudioMixer.java:350-363 | An invalid frame changes nothing; a valid one is appended with eviction; the cursor never moves. |
| Mixer.ReadFullHistoryStarves | codec2talkie/src/main/java/com/radio/codec2talkie/sync/AudioMixer.java:355-372 | A full history read to its end yields null forever, whatever frames arrive, since eviction does not move the cursor. |
| Mixer.EvictionSkipsNextFrame | codec2talkie/src/main/java/com/radio/codec2talkie/sync/AudioMixer.java:358-372 | Eviction while a full history has at least two unread frames skips the frame that was next in line. |
| Mixer.AdvanceAll | codec2talkie/src/main/java/com/radio/codec2talkie/sync/AudioMixer.java:195-196 | Advancing every channel keeps the set of channels. |
| Mixer.AdvanceAllKeepsValid | codec2talkie/src/main/java/com/radio/codec2talkie/sync/AudioMixer.java:195-196 | Advancing keeps every channel well formed. |
| Mixer.MixSamples | codec2talkie/src/main/java/com/radio/codec2talkie/sync/AudioMixer.java:230-247 | Mixing keeps the buffer length. |
| Mixer.MixIsSaturatingSum | codec2talkie/src/main/java/com/radio/codec2talkie/sync/AudioMixer.java:234-246 | Within the common prefix a sample is the exact sum when it fits and the saturated bound otherwise; beyond it the buffer is unchanged. |
| Mixer.MixStep | codec2talkie/src/main/java/com/radio/codec2talkie/sync/AudioMixer.java:196-200 | One loop iteration keeps the channels and the buffer length. |
| Mixer.LimitAll | codec2talkie/src/main/java/com/radio/codec2talkie/sync/AudioMixer.java:255-261 | The limiter keeps the buffer length. |
| Mixer.LimitSample | codec2talkie/src/main/java/com/radio/codec2talkie/sync/AudioMixer.java:255-261 | Magnitudes up to 26213 pass; larger ones become 26213 with their sign. |
| Mixer.LimitedIsBelowEightyPercent | codec2talkie/src/main/java/com/radio/codec2talkie/sync/AudioMixer.java:258-260 | No limited sample exceeds 80% of full scale. |
| Mixer.Picked | codec2talkie/src/main/java/com/radio/codec2talkie/sync/AudioMixer.java:196-197 | A channel contributes its next frame exactly when it has one and it is valid. |
| Mixer.ContributionsAreValid | codec2talkie/src/main/java/com/radio/codec2talkie/sync/AudioMixer.java:197-198 | Every frame that is mixed is valid. |
| Mixer.MixStepsMeaning | codec2talkie/src/main/java/com/radio/codec2talkie/sync/AudioMixer.java:194-201 | After n loop iterations over distinct channels, those channels have advanced once each and the buffer holds their valid frames mixed in order. |
| Mixer.MixStepsOverEnumeration | codec2talkie/src/main/java/com/radio/codec2talkie/sync/AudioMixer.java:194-201 | The loop over every channel once advances them all and mixes every contribution. |
| Mixer.ClearEach | codec2talkie/src/main/java/com/radio/codec2talkie/sync/AudioMixer.java:295-297 | Every channel cleared, none added or removed. |
| Mixer.AudioMixer.constructor | codec2talkie/src/main/java/com/radio/codec2talkie/sync/AudioMixer.java:46-51 | Two zeroed buffers of the given size, no channels, zero statistics. |
| Mixer.AudioMixer.WithDefaultSize | codec2talkie/src/main/java/com/radio/codec2talkie/sync/AudioMixer.java:42-44 | The same state with buffers of 160 samples. |
| Mixer.AudioMixer.Initialize | codec2talkie/src/main/java/com/radio/codec2talkie/sync/AudioMixer.java:56-66 | Activates the mixer; a second call changes nothing. |
| Mixer.AudioMixer.AddChannel | codec2talkie/src/main/java/com/radio/codec2talkie/sync/AudioMixer.java:71-94 | Succeeds iff active, fewer than 8 channels and a new id; then only that channel is added, empty with gain 1; otherwise nothing changes. |
| Mixer.AudioMixer.RemoveChannel | codec2talkie/src/main/java/com/radio/codec2talkie/sync/AudioMixer.java:99-111 | False for an unknown id; the channel and its gain are gone. |
| Mixer.AudioMixer.SetChannelGain | codec2talkie/src/main/java/com/radio/codec2talkie/sync/AudioMixer.java:116-132 | Succeeds iff the gain is in [0, 2] and the channel exists; only that gain changes. |
| Mixer.AudioMixer.GetChannelGain | codec2talkie/src/main/java/com/radio/codec2talkie/sync/AudioMixer.java:137-141 | The channel's gain, 1 for an unknown id, always in [0, 2]. |
| Mixer.AudioMixer.AddAudioFrame | codec2talkie/src/main/java/com/radio/codec2talkie/sync/AudioMixer.java:146-177 | Ignored when inactive or unknown; a null frame is one mixing error; otherwise the gained frame enters the history, accepted iff valid. |
| Mixer.AudioMixer.MixChannelAudio | codec2talkie/src/main/java/com/radio/codec2talkie/sync/AudioMixer.java:230-247 | The buffer becomes the saturating sum over the common prefix, the tail untouched. |
| Mixer.AudioMixer.ApplyMixingLimits | codec2talkie/src/main/java/com/radio/codec2talkie/sync/AudioMixer.java:252-263 | Every buffer sample is passed through the limiter. |
| Mixer.AudioMixer.ClearMixingBuffer | codec2talkie/src/main/java/com/radio/codec2talkie/sync/AudioMixer.java:191 | The mixing buffer is all zeros. |
| Mixer.AudioMixer.CopyToOutput | codec2talkie/src/main/java/com/radio/codec2talkie/sync/AudioMixer.java:208 | The output buffer equals the mixing buffer. |
| Mixer.AudioMixer.MixOneChannel | codec2talkie/src/main/java/com/radio/codec2talkie/sync/AudioMixer.java:196-200 | One loop iteration is one MixStep. |
| Mixer.AudioMixer.MixChannels | codec2talkie/src/main/java/com/radio/codec2talkie/sync/AudioMixer.java:194-201 | The loop computes MixSteps over the order. |
| Mixer.AudioMixer.MixPass | codec2talkie/src/main/java/com/radio/codec2talkie/sync/AudioMixer.java:191-208 | Every channel advances; audio is found iff some channel had a valid frame, and then the output is the limited saturating sum. |
| Mixer.AudioMixer.GetMixedAudio | codec2talkie/src/main/java/com/radio/codec2talkie/sync/AudioMixer.java:182-225 | Null when inactive or without valid frames; otherwise the limited sum of the channels' next frames; cursors advance; operations +1 and samples + buffer length only on output. |
| Mixer.AudioMixer.RecordOutput | codec2talkie/src/main/java/com/radio/codec2talkie/sync/AudioMixer.java:210-211 | Operations +1 and samples + buffer length. |
| Mixer.AudioMixer.AdvanceAndMix | codec2talkie/src/main/java/com/radio/codec2talkie/sync/AudioMixer.java:191-208 | The locked part of the mix: MixPass on the mixer's own channels. |
| Mixer.AudioMixer.GetMixingStatistics | codec2talkie/src/main/java/com/radio/codec2talkie/sync/AudioMixer.java:268-276 | The counters and the channel count. |
| Mixer.AudioMixer.ResetMixingStatistics | codec2talkie/src/main/java/com/radio/codec2talkie/sync/AudioMixer.java:281-288 | All counters zero, channels kept. |
| Mixer.AudioMixer.ClearAllChannels | codec2talkie/src/main/java/com/radio/codec2talkie/sync/AudioMixer.java:293-300 | Every history emptied and every cursor at 0; no channel added or removed. |
| Mixer.AudioMixer.ClearChannel | codec2talkie/src/main/java/com/radio/codec2talkie/sync/AudioMixer.java:305-313 | Only the named channel is cleared; unknown ids change nothing. |
| Mixer.AudioMixer.Shutdown | codec2talkie/src/main/java/com/radio/codec2talkie/sync/AudioMixer.java:318-334 | Inactive with no channels and no gains; a second call changes nothing. |
| Mixer.TwoChannelMixedFrom | codec2talkie/src/main/java/com/radio/codec2talkie/sync/AudioMixer.java:182-225 | Two channels holding one unread frame each, of 1000 and 500, mix to 1500 in every sample. |
| Mixer.TwoChannelScenario | codec2talkie/src/main/java/com/radio/codec2talkie/sync/AudioMixer.java:56-225 | On a new mixer: initialize, add channels A and B, add one frame to each, and getMixedAudio returns 1500 in every sample. |
| Mixer.TwoChannelMix | codec2talkie/src/main/java/com/radio/codec2talkie/sync/AudioMixer.java:191-214 | Mixing 1000 and 500 into a zeroed 160-sample buffer gives 1500 everywhere. |
| DataSync.Bumped | codec2talkie/src/main/java/com/radio/codec2talkie/sync/DataSyncController.java:95-96 | One more error for the channel, a first error counted as 1, all other counts untouched. |
| DataSync.SweepCountsEachTimeout | codec2talkie/src/main/java/com/radio/codec2talkie/sync/DataSyncController.java:75-108 | A sweep adds exactly one error to each stale channel and changes no other count. |
| DataSync.FreshChannelFlagged | codec2talkie/src/main/java/com/radio/codec2talkie/sync/DataSyncController.java:75-108 | A registered channel that never delivered (last time 0) is flagged by the first sweep after time 100 (registration sets its time 0 at line 121). |
| DataSync.Sweep | codec2talkie/src/main/java/com/radio/codec2talkie/sync/DataSyncController.java:82-88 | The loop computes SweptErrors. |
| DataSync.Heads | codec2talkie/src/main/java/com/radio/codec2talkie/sync/DataSyncController.java:200-207 | One frame per channel. |
| DataSync.HeadsAndTailsRebuild | codec2talkie/src/main/java/com/radio/codec2talkie/sync/DataSyncController.java:200-207 | The batch pop loses and reorders nothing: head ++ tail is the old queue, one frame shorter. |
| DataSync.AllNonEmpty | codec2talkie/src/main/java/com/radio/codec2talkie/sync/DataSyncController.java:189-196 | True iff every queue holds a frame. |
| DataSync.PopHeads | codec2talkie/src/main/java/com/radio/codec2talkie/sync/DataSyncController.java:200-207 | Returns every head and leaves every tail. |
| DataSync.EmptyEach | codec2talkie/src/main/java/com/radio/codec2talkie/sync/DataSyncController.java:320-322 | Every queue empty, none added or removed. |
| DataSync.DataSyncController.constructor | codec2talkie/src/main/java/com/radio/codec2talkie/sync/DataSyncController.java:19-36 | Inactive with no channels. |
| DataSync.DataSyncController.InitializeDataSync | codec2talkie/src/main/java/com/radio/codec2talkie/sync/DataSyncController.java:42-56 | Activates; a second call changes nothing. |
| DataSync.DataSyncController.PerformSyncCheck | codec2talkie/src/main/java/com/radio/codec2talkie/sync/DataSyncController.java:75-90 | When active the error counts become SweptErrors; nothing else changes. |
| DataSync.DataSyncController.HandleChannelTimeout | codec2talkie/src/main/java/com/radio/codec2talkie/sync/DataSyncController.java:95-108 | The channel's count is Bumped; nothing else changes. |
| DataSync.DataSyncController.RegisterChannelBuffer | codec2talkie/src/main/java/com/radio/codec2talkie/sync/DataSyncController.java:113-126 | A known id changes nothing; a new one gets an empty queue, time 0 and count 0. |
| DataSync.DataSyncController.UnregisterChannelBuffer | codec2talkie/src/main/java/com/radio/codec2talkie/sync/DataSyncController.java:131-144 | The channel's queue, time and count are removed. |
| DataSync.DataSyncController.AddAudioFrame | codec2talkie/src/main/java/com/radio/codec2talkie/sync/DataSyncController.java:149-176 | Accepted iff active, registered and under 1024 queued: then appended at the tail with time now; a full queue counts one error; no queue exceeds 1024. |
| DataSync.DataSyncController.GetSyncedFrames | codec2talkie/src/main/java/com/radio/codec2talkie/sync/DataSyncController.java:181-213 | When active and every queue has data, removes exactly every head and returns them by channel; otherwise empty and no change. |
| DataSync.DataSyncController.GetChannelFrame | codec2talkie/src/main/java/com/radio/codec2talkie/sync/DataSyncController.java:218-226 | Pops the head of that queue only (FIFO); null for an unknown or empty channel. |
| DataSync.DataSyncController.IsDataSynced | codec2talkie/src/main/java/com/radio/codec2talkie/sync/DataSyncController.java:231-249 | False without channels; otherwise true iff no channel is stale. |
| DataSync.DataSyncController.IsChannelSynced | codec2talkie/src/main/java/com/radio/codec2talkie/sync/DataSyncController.java:254-263 | False for an unknown id; otherwise now - last <= 100. |
| DataSync.DataSyncController.GetChannelBufferStatus | codec2talkie/src/main/java/com/radio/codec2talkie/sync/DataSyncController.java:268-281 | (0, 0, false) for an unknown id; otherwise (size, 1024, size == 1024), with size <= 1024. |
| DataSync.DataSyncController.GetAllChannelBufferStatus | codec2talkie/src/main/java/com/radio/codec2talkie/sync/DataSyncController.java:286-296 | One status per registered channel. |
| DataSync.DataSyncController.ClearChannelBuffer | codec2talkie/src/main/java/com/radio/codec2talkie/sync/DataSyncController.java:305-313 | Only that queue is emptied. |
| DataSync.DataSyncController.ClearAllChannelBuffers | codec2talkie/src/main/java/com/radio/codec2talkie/sync/DataSyncController.java:318-325 | Every queue emptied, none removed. |
| DataSync.DataSyncController.ResetChannelErrors | codec2talkie/src/main/java/com/radio/codec2talkie/sync/DataSyncController.java:330-335 | The channel's count becomes 0, recorded even for an unknown id. |
| DataSync.DataSyncController.GetSyncStatistics | codec2talkie/src/main/java/com/radio/codec2talkie/sync/DataSyncController.java:340-359 | Channel count, and how many channels are live and how many have errors, each at most the channel count. |
| DataSync.DataSyncController.Shutdown | codec2talkie/src/main/java/com/radio/codec2talkie/sync/DataSyncController.java:364-387 | An active controller drops every queue, time and count and stops; an inactive one is unchanged. |
| TimeSync.Registered | codec2talkie/src/main/java/com/radio/codec2talkie/sync/TimeSyncController.java:93-147 | The entry a report leaves: last update now, drift at most 10; within 10 the report and its distance; beyond 10 the clock and drift 0. |
| TimeSync.ReadBackAfterRegister | codec2talkie/src/main/java/com/radio/codec2talkie/sync/TimeSyncController.java:93-167 | Reading back a report: within 5 it is unchanged; late by more than 5 or off by more than 10 it reads as the clock; 6-10 ahead it reads twice as far ahead. |
| TimeSync.DriftSumBound | codec2talkie/src/main/java/com/radio/codec2talkie/sync/TimeSyncController.java:221-229 | Drifts bounded by b sum to at most n times b. |
| TimeSync.AverageWithinBound | codec2talkie/src/main/java/com/radio/codec2talkie/sync/TimeSyncController.java:221-229 | The reported mean is at most any bound on the drifts. |
| TimeSync.StatisticsWithinResync | codec2talkie/src/main/java/com/radio/codec2talkie/sync/TimeSyncController.java:212-233 | Under the drift invariant the mean is at most the maximum, which is at most 10. |
| TimeSync.ScanDrifts | codec2talkie/src/main/java/com/radio/codec2talkie/sync/TimeSyncController.java:221-228 | The largest drift, reached by some channel, and the drift sum. |
| TimeSync.StampAll | codec2talkie/src/main/java/com/radio/codec2talkie/sync/TimeSyncController.java:243-247 | Every channel gets timestamp now, drift 0, last update now; keys kept. |
| TimeSync.TimeSyncController.constructor | codec2talkie/src/main/java/com/radio/codec2talkie/sync/TimeSyncController.java:26-30 | Inactive with no channels. |
| TimeSync.TimeSyncController.InitializeSync | codec2talkie/src/main/java/com/radio/codec2talkie/sync/TimeSyncController.java:37-53 | The first call takes the clock as master timestamp; a second changes nothing. |
| TimeSync.TimeSyncController.PerformSyncCheck | codec2talkie/src/main/java/com/radio/codec2talkie/sync/TimeSyncController.java:71-88 | Changes nothing; the stale channels it reports are exactly those with now - last update > 1000. |
| TimeSync.TimeSyncController.RegisterChannelTimestamp | codec2talkie/src/main/java/com/radio/codec2talkie/sync/TimeSyncController.java:93-113 | Ignored when inactive; otherwise the channel's entries become Registered, keeping shared keys and drifts within 10. |
| TimeSync.TimeSyncController.AdjustChannelSync | codec2talkie/src/main/java/com/radio/codec2talkie/sync/TimeSyncController.java:118-132 | Only a drift above 10 acts, by resyncing the channel. |
| TimeSync.TimeSyncController.ResyncChannel | codec2talkie/src/main/java/com/radio/codec2talkie/sync/TimeSyncController.java:137-147 | The channel takes the clock with drift 0. |
| TimeSync.TimeSyncController.GetSyncedTimestamp | codec2talkie/src/main/java/com/radio/codec2talkie/sync/TimeSyncController.java:152-167 | Master timestamp for an unknown channel; ts + drift when drift > 5, else ts; always within [ts, ts + 10]. |
| TimeSync.TimeSyncController.AreAllChannelsSynced | codec2talkie/src/main/java/com/radio/codec2talkie/sync/TimeSyncController.java:172-197 | True iff some channel exists, none is older than 1000 and the largest drift is at most 5. |
| TimeSync.TimeSyncController.GetChannelDrift | codec2talkie/src/main/java/com/radio/codec2talkie/sync/TimeSyncController.java:202-207 | The drift, 0 for an unknown channel, within [0, 10]. |
| TimeSync.TimeSyncController.GetSyncStatistics | codec2talkie/src/main/java/com/radio/codec2talkie/sync/TimeSyncController.java:212-233 | Master timestamp and count; zeros without channels; otherwise the maximum drift and the truncated mean, with mean <= max <= 10. |
| TimeSync.TimeSyncController.ForceSyncAllChannels | codec2talkie/src/main/java/com/radio/codec2talkie/sync/TimeSyncController.java:238-251 | Master and every channel take the clock with drift 0; no channel added or removed; with at least one channel, all are then in sync. |
| TimeSync.TimeSyncController.Shutdown | codec2talkie/src/main/java/com/radio/codec2talkie/sync/TimeSyncController.java:256-274 | An active controller forgets every channel and stops; an inactive one is unchanged. |
| SyncManager.Touched | codec2talkie/src/main/java/com/radio/codec2talkie/sync/AudioSyncManager.java:232-250 | A frame sets the activity time to now and adds one to the count of an active state; the state is then synced iff active with drift below 50. |
| SyncManager.StateSynced | codec2talkie/src/main/java/com/radio/codec2talkie/sync/AudioSyncManager.java:252-258 | Active, last activity under 1000 ms ago and drift below 50; see StateSyncWindow and Touched. |
| SyncManager.StateSyncWindow | codec2talkie/src/main/java/com/radio/codec2talkie/sync/AudioSyncManager.java:252-258 | A state synced at some moment was synced at every earlier moment since its last activity, and is never synced 1000 ms or more after it. |
| SyncManager.AudioSyncManager.constructor | codec2talkie/src/main/java/com/radio/codec2talkie/sync/AudioSyncManager.java:29-35 | Inactive with no channels and fresh controllers. |
| SyncManager.AudioSyncManager.Initialize | codec2talkie/src/main/java/com/radio/codec2talkie/sync/AudioSyncManager.java:40-55 | Starts both controllers and the output; the time controller takes the clock as master whenever it starts from inactive, a restart included; every per-channel map of both controllers is kept; a second call changes nothing. |
| SyncManager.AudioSyncManager.RegisterChannel | codec2talkie/src/main/java/com/radio/codec2talkie/sync/AudioSyncManager.java:60-87 | Fails with no change when inactive, at 8 channels or for a known id; otherwise adds an active state with count 0 and time now; a new data buffer gets an empty queue, time 0 and error count 0, and an existing one is kept; the time controller is untouched; never more than 8 channels. |
| SyncManager.AudioSyncManager.UnregisterChannel | codec2talkie/src/main/java/com/radio/codec2talkie/sync/AudioSyncManager.java:92-106 | False for an unknown id; only that state is removed; the data buffer stays. |
| SyncManager.AudioSyncManager.ProcessAudioFrame | codec2talkie/src/main/java/com/radio/codec2talkie/sync/AudioSyncManager.java:111-139 | Ignored when inactive or unknown, the time controller untouched; otherwise time now, count +1, the channel is synced, and the time controller records a zero-drift report at now; its master timestamp never changes. |
| SyncManager.AudioSyncManager.IsChannelSynced | codec2talkie/src/main/java/com/radio/codec2talkie/sync/AudioSyncManager.java:144-151 | False for an unknown id; since every state is active with drift 0, a known channel is synced iff its last frame is under 1000 old. |
| SyncManager.AudioSyncManager.AreAllChannelsSynced | codec2talkie/src/main/java/com/radio/codec2talkie/sync/AudioSyncManager.java:156-168 | False without channels; otherwise true iff every channel is synced. |
| SyncManager.AudioSyncManager.GetSyncStatistics | codec2talkie/src/main/java/com/radio/codec2talkie/sync/AudioSyncManager.java:173-184 | One entry per channel with its drift, count and errors; every drift is 0. |
| SyncManager.AudioSyncManager.Shutdown | codec2talkie/src/main/java/com/radio/codec2talkie/sync/AudioSyncManager.java:189-210 | An active manager drops every state, stops the output, and empties every per-channel map of both controllers (queues, times, error counts, timestamps, drifts, updates); the master timestamp is kept; an inactive manager changes nothing. |
| OutputSync.WriteResult | codec2talkie/src/main/java/com/radio/codec2talkie/sync/OutputSyncController.java:109-135 | 0 without a track or for an error code; otherwise the sink's count. |
| OutputSync.OutputSyncController.constructor | codec2talkie/src/main/java/com/radio/codec2talkie/sync/OutputSyncController.java:36-42 | Inactive with zero counters and a live timer. |
| OutputSync.OutputSyncController.InitializeOutputSync | codec2talkie/src/main/java/com/radio/codec2talkie/sync/OutputSyncController.java:47-73 | Activates and keeps the counters; the call fails exactly when it has to schedule a timer that a shutdown cancelled, the flag being set already. |
| OutputSync.OutputSyncController.ProcessOutputSync | codec2talkie/src/main/java/com/radio/codec2talkie/sync/OutputSyncController.java:78-104 | No effect when inactive or once the timer is cancelled; otherwise the mixer mixes (channels advanced, statistics updated, gains and flag kept); no counter change when it yields null or nothing; an accepted write adds its bytes and sets the time; a refused one is one error. |
| OutputSync.OutputSyncController.RecordWrite | codec2talkie/src/main/java/com/radio/codec2talkie/sync/OutputSyncController.java:88-96 | The sink's count is returned; an accepted write adds it to the bytes and stamps the time; a refused write is one more error. |
| OutputSync.OutputSyncController.ForceOutput | codec2talkie/src/main/java/com/radio/codec2talkie/sync/OutputSyncController.java:140-162 | Ignored when inactive or without samples; an accepted write adds bytes and sets the time; a refused one changes nothing. |
| OutputSync.OutputSyncController.IsOutputLatencyAcceptable | codec2talkie/src/main/java/com/radio/codec2talkie/sync/OutputSyncController.java:167-176 | Never written, or written at most 50 ms ago; see LatencyWindow, ProcessOutputSync and ResetOutputStatistics. |
| OutputSync.OutputSyncController.LatencyWindow | codec2talkie/src/main/java/com/radio/codec2talkie/sync/OutputSyncController.java:167-176 | Acceptable latency at some moment after the last write holds at every moment in between; once written, more than 50 ms without a write is not acceptable. |
| OutputSync.OutputSyncController.GetOutputBufferStatus | codec2talkie/src/main/java/com/radio/codec2talkie/sync/OutputSyncController.java:181-197 | Zeros without a track; otherwise bytes = 2 x frames and the play state. |
| OutputSync.OutputSyncController.AdjustOutputBufferSize | codec2talkie/src/main/java/com/radio/codec2talkie/sync/OutputSyncController.java:202-218 | False iff the size is below 512; no state changes. |
| OutputSync.OutputSyncController.GetOutputStatistics | codec2talkie/src/main/java/com/radio/codec2talkie/sync/OutputSyncController.java:259-267 | The counters and whether latency is acceptable (never written, or at most 50 ms ago). |
| OutputSync.OutputSyncController.ResetOutputStatistics | codec2talkie/src/main/java/com/radio/codec2talkie/sync/OutputSyncController.java:272-279 | Bytes, errors and time all zero, so latency is acceptable at every moment. |
| OutputSync.OutputSyncController.Shutdown | codec2talkie/src/main/java/com/radio/codec2talkie/sync/OutputSyncController.java:284-309 | Stops and cancels the timer when active; the counters stay. |

## Left out

- Logging (`Log.*`) and `toString` are left out; they have no effect on state.
- `synchronized` blocks, `Atomic*` fields, `ConcurrentHashMap` and the `Timer`/`TimerTask` threads are modelled by sequential calls. The timer ticks are the methods `PerformSyncCheck` and `ProcessOutputSync`, called by the environment. The tick periods (`SYNC_INTERVAL_MS`, `SYNC_CHECK_INTERVAL_MS`, `MIXING_INTERVAL_MS`) are only constants.
- The `AudioTrack` calls other than the result of `write` are left out: `play`, `pause`, `stop`, `flush`, `getPlayState` and `getBufferSizeInFrames`. With them go `pauseOutput`, `resumeOutput` and `stopOutput`, which only call the track. The frame count and play state that `getOutputBufferStatus` reads are parameters. `adjustOutputBufferSize` only logs in the source, so the model only answers whether the size is accepted.
- The `catch (Exception e)` branches are left out. The model's operations do not throw. `writeToAudioTrack`'s catch path is reduced to "the write returned an error code".
- Java `int`/`long` overflow of the running counters (frame counts, bytes written, total samples, and `frames * 2` in `getOutputBufferStatus`) is not modelled; the counters are unbounded `nat`s. The casts to `short` in the sample paths are modelled exactly.
- Java `float` rounding is not modelled: gains and fade factors are exact reals. A NaN gain is not modelled.
- `MAX_RETRY_COUNT` in DataSyncController only feeds a log message, so it is only a constant here.
- `BlockingQueue.offer` with a timeout, and `InterruptedException`, are left out. A queue accepts a frame exactly when it has room.
- AudioFrames.IsValid: a channel id is a Dafny string and never null. So the null check in `isValid` and the `NullPointerException` that `merge` raises on a null id are not modelled.
- Mixer.AudioMixer.constructor: the size is a `nat`. `AudioMixer(int bufferSize)` with a negative size throws `NegativeArraySizeException` from `new short[bufferSize]`, and this is not modelled. The default `AudioMixer()` is `Mixer.AudioMixer.WithDefaultSize`.
- TimeSync.Registered: the drift is the exact distance `|now - timestamp|`, a `nat`. In the source, `Math.abs(currentTime - timestamp)` on `long` values overflows when the difference wraps, and it yields `Long.MIN_VALUE` for that one wrapped value. This is not modelled; timestamps and clock readings are unbounded integers.
- AudioFrames.SubFrameOf: the check `startSample + length > audioData.length` is taken on exact integers. In Java the sum can overflow to a negative value, pass the check, and then make `Arrays.copyOfRange` throw. This is not modelled.
- Frame fields other than the samples are unbounded integers. The one `int` arithmetic on them, the merged sample count, is wrapped to 32 bits.
- A null frame passed to `DataSyncController.addAudioFrame` is not modelled; the model takes a frame value. The mixer's null-frame error path is modelled.
- `AudioFrame.getRms`, `getDurationMs`, the getters, `getAudioData` (a defensive copy) and `getAudioDataDirect` are left out. None of them changes state.
- The default-format overloads, the four-argument constructor `AudioFrame(channelId, audioData, timestamp, sampleCount)` and the two-argument `createSilent(channelId, sampleCount)`, are `FrameContext.NewFrame` and `FrameContext.CreateSilent` called with rate 8000 and 1 channel. Like the full forms, they consume the next sequence number.
- The `encodedFrame` bytes that AudioSyncManager.processAudioFrame receives are unused by the source, so they are not parameters of the model.
- AudioSyncManager's output controller is the flag `outputStarted`. The source builds it with a constructor that does not exist in OutputSyncController, so there is no mixer or track to connect it to.
- SyncManager.AudioSyncManager.Initialize: a restart after `Shutdown` succeeds in the model. In the source, the output controller's timer is cancelled for good by its shutdown, so the restart throws from `initializeOutputSync`. By then the time and data controllers have already been restarted, and the manager stays inactive. The output controller here is only the flag `outputStarted`; OutputSync.OutputSyncController.InitializeOutputSync models the failing restart on its own.
- TimeSyncController.resyncChannel and AudioSyncManager.processAudioFrame read the clock more than once. The model uses one `now` per call.
- `ChannelSyncState` and `MixingChannel` are values in maps. The manager calls `ChannelSyncState.cleanup` on a state it drops: in `unregisterChannel` for that one state, and in `shutdown` for every state before clearing its map. The mixer's `shutdown` clears every history through `clearAllChannels` before clearing its maps. Those objects are unreachable afterwards, so the model drops them. The mixer's `removeChannel` only drops the map entry and its gain, and so does the model.
- TimeSync.StampAll assumes the three per-channel maps share their keys. The controller's `Valid` invariant guarantees this, so `ForceSyncAllChannels` always meets it.
- TimeSync.TimeSyncController.PerformSyncCheck returns the set of stale channels; the source only logs them.
