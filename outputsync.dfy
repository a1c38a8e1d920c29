/**
 * OutputSyncController (OutputSyncController.java): on every tick, takes
 * the mixer's output and writes it to the audio sink, counting the bytes
 * written, the failed writes and the time of the last write.
 *
 * The sink is foreign: whether it exists is the constant `hasTrack`, and
 * what its write call returned is the `written` parameter of each step.
 * The clock is the `now` parameter; the ticking timer is the step method
 * ProcessOutputSync.
 */
module OutputSync {
  import opened Wrappers
  import opened AudioFrames
  import opened Collections
  import opened Mixer

  /** OutputSyncController.java:17-20. */
  const OUTPUT_BUFFER_SIZE: int := 2048
  const MIXING_INTERVAL_MS: int := 10
  const MAX_OUTPUT_LATENCY_MS: int := 50
  const MIN_OUTPUT_BUFFER_SIZE: int := 512

  /** OutputBufferStatus (OutputSyncController.java:314-330). */
  datatype OutputBufferStatus = OutputBufferStatus(bufferSizeFrames: int, bufferSizeBytes: int, isPlaying: bool)

  /** OutputStatistics (OutputSyncController.java:335-346). */
  datatype OutputStatistics = OutputStatistics(
    totalBytesWritten: nat,
    outputErrors: nat,
    lastOutputTime: int,
    isLatencyAcceptable: bool)

  /**
   * writeToAudioTrack (OutputSyncController.java:109-135) when the sink's
   * write call returns `written`: nothing without a sink, nothing for an
   * error code, else what the sink took.
   */
  function WriteResult(hasTrack: bool, written: int): (n: nat)
    ensures n == 0 <==> !hasTrack || written <= 0
    ensures n != 0 ==> n == written
  {
    if !hasTrack then 0
    else if written < 0 then 0
    else written
  }

  class OutputSyncController {
    const mixer: AudioMixer
    /** Whether the controller was given an audio track. */
    const hasTrack: bool
    var isOutputSyncActive: bool
    /**
     * Whether the output timer has been cancelled.  The timer is created
     * once, with the controller, so after a shutdown it never ticks again.
     */
    var timerCancelled: bool
    var totalBytesWritten: nat
    var outputErrors: nat
    var lastOutputTime: int

    ghost predicate Valid()
      reads this, mixer
    {
      mixer.Valid()
    }

    /** OutputSyncController(mixer, audioTrack) (OutputSyncController.java:36-42). */
    constructor (mixer: AudioMixer, hasTrack: bool)
      requires mixer.Valid()
      ensures Valid() && this.mixer == mixer && this.hasTrack == hasTrack
      ensures !isOutputSyncActive && !timerCancelled
      ensures totalBytesWritten == 0 && outputErrors == 0 && lastOutputTime == 0
    {
      this.mixer := mixer;
      this.hasTrack := hasTrack;
      isOutputSyncActive := false;
      timerCancelled := false;
      totalBytesWritten, outputErrors, lastOutputTime := 0, 0, 0;
    }

    /**
     * initializeOutputSync (OutputSyncController.java:47-72): a second call
     * changes nothing.  Otherwise the flag is set and the timer scheduled;
     * scheduling a cancelled timer throws, so after a shutdown the call
     * fails (`ok` false) with the flag already set and no ticks to come.
     */
    method InitializeOutputSync() returns (ok: bool)
      modifies this
      ensures isOutputSyncActive && timerCancelled == old(timerCancelled)
      ensures ok <==> old(isOutputSyncActive) || !old(timerCancelled)
      ensures totalBytesWritten == old(totalBytesWritten) && outputErrors == old(outputErrors)
      ensures lastOutputTime == old(lastOutputTime)
    {
      if isOutputSyncActive {
        return true;
      }
      isOutputSyncActive := true;
      ok := !timerCancelled;
    }

    /**
     * processOutputSync (OutputSyncController.java:78-104), one timer tick:
     * nothing happens while inactive, and no tick arrives once the timer is
     * cancelled.  Otherwise the mixer advances and mixes; when it
     * yields no samples the counters stay; a write the sink accepts adds
     * its bytes and stamps the time, and a write it refuses is one more
     * error.  The bytes written are returned.
     */
    method ProcessOutputSync(order: seq<string>, now: int, written: int) returns (wrote: nat)
      requires Valid() && IsEnumeration(order, mixer.channels.Keys)
      modifies this, mixer, mixer.mixingBuffer, mixer.outputBuffer
      ensures Valid() && isOutputSyncActive == old(isOutputSyncActive) && timerCancelled == old(timerCancelled)
      ensures totalBytesWritten == old(totalBytesWritten) + wrote
      ensures mixer.channelGains == old(mixer.channelGains) && mixer.isMixingActive == old(mixer.isMixingActive)
      ensures mixer.mixingErrors == old(mixer.mixingErrors)
      ensures !old(isOutputSyncActive) || old(timerCancelled) ==>
                wrote == 0 && outputErrors == old(outputErrors) && lastOutputTime == old(lastOutputTime) &&
                mixer.channels == old(mixer.channels) &&
                mixer.totalMixingOperations == old(mixer.totalMixingOperations) &&
                mixer.totalOutputSamples == old(mixer.totalOutputSamples)
      ensures old(isOutputSyncActive) && !old(timerCancelled) ==>
                var m := old(mixer.MixedOutput(order));
                mixer.channels == (if old(mixer.isMixingActive) then AdvanceAll(old(mixer.channels)) else old(mixer.channels)) &&
                mixer.totalMixingOperations == old(mixer.totalMixingOperations) + (if m.Some? then 1 else 0) &&
                mixer.totalOutputSamples == old(mixer.totalOutputSamples) + (if m.Some? then mixer.mixingBuffer.Length else 0) &&
                (m.None? || |m.value| == 0 ==>
                   wrote == 0 && outputErrors == old(outputErrors) && lastOutputTime == old(lastOutputTime)) &&
                (m.Some? && |m.value| > 0 ==>
                   wrote == WriteResult(hasTrack, written) &&
                   (wrote > 0 ==> outputErrors == old(outputErrors) && lastOutputTime == now) &&
                   (wrote == 0 ==> outputErrors == old(outputErrors) + 1 && lastOutputTime == old(lastOutputTime)))
      ensures wrote > 0 ==> IsOutputLatencyAcceptable(now)
    {
      wrote := 0;
      if !isOutputSyncActive || timerCancelled {
        return;
      }
      var mixed := mixer.GetMixedAudio(order);
      if mixed.Some? && |mixed.value| > 0 {
        wrote := RecordWrite(now, written);
      }
    }

    /**
     * The bookkeeping of one write of mixed samples (OutputSyncController.java:88-96):
     * an accepted write adds its bytes and stamps the time, a refused one
     * is one more error.
     */
    method RecordWrite(now: int, written: int) returns (wrote: nat)
      modifies this
      ensures isOutputSyncActive == old(isOutputSyncActive) && timerCancelled == old(timerCancelled)
      ensures wrote == WriteResult(hasTrack, written)
      ensures totalBytesWritten == old(totalBytesWritten) + wrote
      ensures wrote > 0 ==> outputErrors == old(outputErrors) && lastOutputTime == now
      ensures wrote == 0 ==> outputErrors == old(outputErrors) + 1 && lastOutputTime == old(lastOutputTime)
    {
      wrote := WriteResult(hasTrack, written);
      if wrote > 0 {
        totalBytesWritten := totalBytesWritten + wrote;
        lastOutputTime := now;
      } else {
        outputErrors := outputErrors + 1;
      }
    }

    /**
     * forceOutput (OutputSyncController.java:140-162): ignored while
     * inactive or without samples.  A write the sink accepts adds its
     * bytes and stamps the time; a refused write changes nothing, not even
     * the error count.
     */
    method ForceOutput(audioData: Option<seq<Int16>>, now: int, written: int) returns (wrote: nat)
      modifies this
      ensures isOutputSyncActive == old(isOutputSyncActive) && timerCancelled == old(timerCancelled)
      ensures outputErrors == old(outputErrors)
      ensures totalBytesWritten == old(totalBytesWritten) + wrote
      ensures wrote == if old(isOutputSyncActive) && audioData.Some? && |audioData.value| > 0
                       then WriteResult(hasTrack, written) else 0
      ensures lastOutputTime == if wrote > 0 then now else old(lastOutputTime)
    {
      wrote := 0;
      if !isOutputSyncActive {
        return;
      }
      if audioData.None? || |audioData.value| == 0 {
        return;
      }
      wrote := WriteResult(hasTrack, written);
      if wrote > 0 {
        totalBytesWritten := totalBytesWritten + wrote;
        lastOutputTime := now;
      }
    }

    /**
     * isOutputLatencyAcceptable (OutputSyncController.java:167-176): true
     * before the first write, then while the last write is at most 50 ms
     * old.
     */
    predicate IsOutputLatencyAcceptable(now: int)
      reads this
    {
      lastOutputTime == 0 || now - lastOutputTime <= MAX_OUTPUT_LATENCY_MS
    }

    /**
     * The latency window: acceptable at some moment after the last write
     * means acceptable at every moment in between, and once a write has
     * happened, more than 50 ms of silence is not acceptable.
     */
    lemma LatencyWindow(t1: int, t2: int)
      requires lastOutputTime <= t1 <= t2
      ensures IsOutputLatencyAcceptable(t2) ==> IsOutputLatencyAcceptable(t1)
      ensures lastOutputTime != 0 && t2 - lastOutputTime > MAX_OUTPUT_LATENCY_MS ==> !IsOutputLatencyAcceptable(t2)
    {
    }

    /**
     * getOutputBufferStatus (OutputSyncController.java:181-197) when the
     * sink reports `frames` frames and whether it plays: zeros without a
     * sink, else two bytes per 16-bit frame.
     */
    function GetOutputBufferStatus(frames: int, isPlaying: bool): (s: OutputBufferStatus)
      ensures !hasTrack ==> s == OutputBufferStatus(0, 0, false)
      ensures hasTrack ==> s.bufferSizeFrames == frames && s.isPlaying == isPlaying
      ensures s.bufferSizeBytes == 2 * s.bufferSizeFrames
    {
      if !hasTrack then OutputBufferStatus(0, 0, false)
      else OutputBufferStatus(frames, frames * 2, isPlaying)
    }

    /** adjustOutputBufferSize (OutputSyncController.java:202-218): refuses sizes below 512 and changes nothing either way. */
    method AdjustOutputBufferSize(newSize: int) returns (ok: bool)
      ensures ok <==> newSize >= MIN_OUTPUT_BUFFER_SIZE
    {
      if newSize < MIN_OUTPUT_BUFFER_SIZE {
        return false;
      }
      return true;
    }

    /** getOutputStatistics (OutputSyncController.java:259-267): the counters and the latency verdict at `now`. */
    function GetOutputStatistics(now: int): (s: OutputStatistics)
      reads this
      ensures s.totalBytesWritten == totalBytesWritten && s.outputErrors == outputErrors
      ensures s.lastOutputTime == lastOutputTime
      ensures s.isLatencyAcceptable <==> lastOutputTime == 0 || now - lastOutputTime <= MAX_OUTPUT_LATENCY_MS
    {
      OutputStatistics(totalBytesWritten, outputErrors, lastOutputTime, IsOutputLatencyAcceptable(now))
    }

    /** resetOutputStatistics (OutputSyncController.java:272-279): all counters back to zero, so latency is acceptable again. */
    method ResetOutputStatistics()
      modifies this
      ensures isOutputSyncActive == old(isOutputSyncActive) && timerCancelled == old(timerCancelled)
      ensures totalBytesWritten == 0 && outputErrors == 0 && lastOutputTime == 0
      ensures forall now :: IsOutputLatencyAcceptable(now)
    {
      totalBytesWritten, outputErrors, lastOutputTime := 0, 0, 0;
    }

    /** shutdown (OutputSyncController.java:284-309): stops and cancels the timer; the counters stay. */
    method Shutdown()
      modifies this
      ensures !isOutputSyncActive
      ensures timerCancelled == (old(timerCancelled) || old(isOutputSyncActive))
      ensures totalBytesWritten == old(totalBytesWritten) && outputErrors == old(outputErrors)
      ensures lastOutputTime == old(lastOutputTime)
    {
      if !isOutputSyncActive {
        return;
      }
      isOutputSyncActive := false;
      timerCancelled := true;
    }
  }
}
