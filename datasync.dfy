/**
 * DataSyncController (DataSyncController.java): one bounded FIFO queue of
 * frames per channel, the time each channel last delivered a frame, and a
 * per-channel error counter that timeouts and full queues bump.
 *
 * A queue is a `seq<Frame>` whose head is index 0.  The clock is the `now`
 * parameter; the periodic timer task is the step method PerformSyncCheck.
 */
module DataSync {
  import opened Wrappers
  import opened AudioFrames
  import opened Collections

  /** Capacity of every channel queue (DataSyncController.java:23). */
  const MAX_BUFFER_SIZE: nat := 1024
  /** A channel silent for longer than this is out of sync (DataSyncController.java:24). */
  const SYNC_TIMEOUT_MS: int := 100
  /** Above this many timeouts the controller only logs louder (DataSyncController.java:25). */
  const MAX_RETRY_COUNT: nat := 3

  /** BufferStatus (DataSyncController.java:393-402). */
  datatype BufferStatus = BufferStatus(currentSize: int, maxSize: int, isFull: bool)

  /** DataSyncStatistics (DataSyncController.java:408-412). */
  datatype DataSyncStatistics = DataSyncStatistics(channelCount: nat, totalBuffers: nat, activeChannels: nat, errorChannels: nat)

  /** A delivery at `last` is stale at `now`. */
  predicate TimedOut(last: int, now: int)
  {
    now - last > SYNC_TIMEOUT_MS
  }

  /** The error count of a channel, zero when it has none recorded. */
  function ErrorCount(errors: map<string, nat>, id: string): nat
  {
    if id in errors then errors[id] else 0
  }

  /**
   * handleChannelTimeout's `merge(id, 1, Integer::sum)`
   * (DataSyncController.java:95-96): one more error for `id`, a first
   * error recorded as 1, every other count untouched.
   */
  function Bumped(errors: map<string, nat>, id: string): (r: map<string, nat>)
    ensures r.Keys == errors.Keys + {id}
    ensures r[id] == ErrorCount(errors, id) + 1 && r[id] > 0
    ensures forall k :: k in errors && k != id ==> r[k] == errors[k]
  {
    errors[id := ErrorCount(errors, id) + 1]
  }

  /** The channels a sweep at `now` finds stale. */
  function TimedOutIds(last: map<string, int>, now: int): set<string>
  {
    set k | k in last && TimedOut(last[k], now)
  }

  /** The error counts after a sweep: one more for every stale channel. */
  function SweptErrors(errors: map<string, nat>, last: map<string, int>, now: int): map<string, nat>
  {
    map k | k in errors.Keys + TimedOutIds(last, now) ::
      ErrorCount(errors, k) + (if k in TimedOutIds(last, now) then 1 else 0)
  }

  /**
   * What a sweep does to the counters: exactly the stale channels gain one
   * error, no other count changes, and no counter appears for a live channel.
   */
  lemma SweepCountsEachTimeout(errors: map<string, nat>, last: map<string, int>, now: int, k: string)
    ensures k in last && TimedOut(last[k], now) ==>
              k in SweptErrors(errors, last, now) && SweptErrors(errors, last, now)[k] == ErrorCount(errors, k) + 1
    ensures !(k in last && TimedOut(last[k], now)) ==>
              (k in SweptErrors(errors, last, now) <==> k in errors) &&
              (k in errors ==> SweptErrors(errors, last, now)[k] == errors[k])
  {
  }

  /**
   * A channel that was registered (last delivery 0) and has not delivered
   * since is flagged by the first sweep after time 100.
   */
  lemma FreshChannelFlagged(errors: map<string, nat>, last: map<string, int>, id: string, now: int)
    requires now > SYNC_TIMEOUT_MS
    ensures SweptErrors(errors[id := 0], last[id := 0], now)[id] == 1
  {
    assert id in TimedOutIds(last[id := 0], now);
  }

  /** The timeout loop of performSyncCheck (DataSyncController.java:82-88). */
  method Sweep(errors: map<string, nat>, last: map<string, int>, now: int) returns (r: map<string, nat>)
    ensures r == SweptErrors(errors, last, now)
  {
    r := errors;
    var todo := last.Keys;
    while todo != {}
      invariant todo <= last.Keys
      invariant forall k :: k in r <==> k in errors || (k in last && k !in todo && TimedOut(last[k], now))
      invariant forall k :: k in r ==>
                  r[k] == ErrorCount(errors, k) + (if k in last && k !in todo && TimedOut(last[k], now) then 1 else 0)
      decreases |todo|
    {
      var id :| id in todo;
      if TimedOut(last[id], now) {
        r := Bumped(r, id);
      }
      todo := todo - {id};
    }
    SweptPointwise(r, errors, last, now);
  }

  lemma SweptPointwise(r: map<string, nat>, errors: map<string, nat>, last: map<string, int>, now: int)
    requires forall k :: k in r <==> k in errors || (k in last && TimedOut(last[k], now))
    requires forall k :: k in r ==> r[k] == ErrorCount(errors, k) + (if k in last && TimedOut(last[k], now) then 1 else 0)
    ensures r == SweptErrors(errors, last, now)
  {
    MapExtensionality(r, SweptErrors(errors, last, now));
  }

  /** Every queue holds a frame: the guard of getSyncedFrames' batch pop. */
  predicate AllHaveData(buffers: map<string, seq<Frame>>)
  {
    forall id :: id in buffers ==> buffers[id] != []
  }

  /** The head of every queue. */
  function Heads(buffers: map<string, seq<Frame>>): (r: map<string, Frame>)
    requires AllHaveData(buffers)
    ensures r.Keys == buffers.Keys
  {
    map id | id in buffers :: buffers[id][0]
  }

  /** Every queue without its head. */
  function Tails(buffers: map<string, seq<Frame>>): (r: map<string, seq<Frame>>)
    requires AllHaveData(buffers)
    ensures r.Keys == buffers.Keys
  {
    map id | id in buffers :: buffers[id][1..]
  }

  /**
   * The batch pop loses nothing and reorders nothing: putting every head
   * back in front of its queue gives the queues before the pop, and each
   * queue is one frame shorter.
   */
  lemma HeadsAndTailsRebuild(buffers: map<string, seq<Frame>>)
    requires AllHaveData(buffers)
    ensures forall id :: id in buffers ==> [Heads(buffers)[id]] + Tails(buffers)[id] == buffers[id]
    ensures forall id :: id in buffers ==> |Tails(buffers)[id]| == |buffers[id]| - 1
  {
    forall id | id in buffers
      ensures [Heads(buffers)[id]] + Tails(buffers)[id] == buffers[id]
    {
      assert buffers[id] == [buffers[id][0]] + buffers[id][1..];
    }
  }

  /** The emptiness scan of getSyncedFrames (DataSyncController.java:189-196). */
  method AllNonEmpty(buffers: map<string, seq<Frame>>) returns (all: bool)
    ensures all == AllHaveData(buffers)
  {
    all := true;
    var todo := buffers.Keys;
    while todo != {}
      invariant todo <= buffers.Keys
      invariant forall id :: id in buffers && id !in todo ==> buffers[id] != []
      decreases |todo|
    {
      var id :| id in todo;
      if buffers[id] == [] {
        return false;
      }
      todo := todo - {id};
    }
  }

  /** The polling loop of getSyncedFrames (DataSyncController.java:200-207). */
  method PopHeads(buffers: map<string, seq<Frame>>) returns (frames: map<string, Frame>, rest: map<string, seq<Frame>>)
    requires AllHaveData(buffers)
    ensures frames == Heads(buffers) && rest == Tails(buffers)
  {
    frames, rest := map[], buffers;
    var todo := buffers.Keys;
    while todo != {}
      invariant todo <= buffers.Keys && rest.Keys == buffers.Keys
      invariant forall id :: id in frames <==> id in buffers && id !in todo
      invariant forall id :: id in frames ==> frames[id] == buffers[id][0]
      invariant forall id :: id in rest ==> rest[id] == if id in todo then buffers[id] else buffers[id][1..]
      decreases |todo|
    {
      var id :| id in todo;
      frames := frames[id := rest[id][0]];
      rest := rest[id := rest[id][1..]];
      todo := todo - {id};
    }
    PoppedPointwise(buffers, frames, rest);
  }

  lemma PoppedPointwise(buffers: map<string, seq<Frame>>, frames: map<string, Frame>, rest: map<string, seq<Frame>>)
    requires AllHaveData(buffers)
    requires frames.Keys == buffers.Keys && rest.Keys == buffers.Keys
    requires forall id :: id in frames ==> frames[id] == buffers[id][0]
    requires forall id :: id in rest ==> rest[id] == buffers[id][1..]
    ensures frames == Heads(buffers) && rest == Tails(buffers)
  {
    MapExtensionality(frames, Heads(buffers));
    MapExtensionality(rest, Tails(buffers));
  }

  /** The loop of clearAllChannelBuffers (DataSyncController.java:320-322). */
  method EmptyEach(buffers: map<string, seq<Frame>>) returns (r: map<string, seq<Frame>>)
    ensures r.Keys == buffers.Keys
    ensures forall id :: id in r ==> r[id] == []
  {
    r := buffers;
    var todo := buffers.Keys;
    while todo != {}
      invariant todo <= r.Keys && r.Keys == buffers.Keys
      invariant forall id :: id in r && id !in todo ==> r[id] == []
      decreases |todo|
    {
      var id :| id in todo;
      r := r[id := []];
      todo := todo - {id};
    }
  }

  class DataSyncController {
    var isDataSyncActive: bool
    var channelBuffers: map<string, seq<Frame>>
    var channelLastDataTime: map<string, int>
    var channelErrorCounts: map<string, nat>

    /** Queues within capacity; each queued channel has a delivery time and an error count. */
    ghost predicate Valid()
      reads this
    {
      channelBuffers.Keys == channelLastDataTime.Keys &&
      channelBuffers.Keys <= channelErrorCounts.Keys &&
      forall id :: id in channelBuffers ==> |channelBuffers[id]| <= MAX_BUFFER_SIZE
    }

    constructor ()
      ensures Valid() && !isDataSyncActive
      ensures channelBuffers == map[] && channelLastDataTime == map[] && channelErrorCounts == map[]
    {
      isDataSyncActive := false;
      channelBuffers, channelLastDataTime, channelErrorCounts := map[], map[], map[];
    }

    /** initializeDataSync (DataSyncController.java:42-56): a second call changes nothing. */
    method InitializeDataSync()
      requires Valid()
      modifies this
      ensures Valid() && isDataSyncActive
      ensures channelBuffers == old(channelBuffers) && channelLastDataTime == old(channelLastDataTime)
      ensures channelErrorCounts == old(channelErrorCounts)
    {
      if isDataSyncActive {
        return;
      }
      isDataSyncActive := true;
    }

    /** performSyncCheck (DataSyncController.java:75-90): one more error for every stale channel, nothing else changes. */
    method PerformSyncCheck(now: int)
      requires Valid()
      modifies this
      ensures Valid()
      ensures channelErrorCounts == if old(isDataSyncActive) then SweptErrors(old(channelErrorCounts), old(channelLastDataTime), now)
                                    else old(channelErrorCounts)
      ensures isDataSyncActive == old(isDataSyncActive)
      ensures channelBuffers == old(channelBuffers) && channelLastDataTime == old(channelLastDataTime)
    {
      if !isDataSyncActive {
        return;
      }
      var swept := Sweep(channelErrorCounts, channelLastDataTime, now);
      channelErrorCounts := swept;
    }

    /** handleChannelTimeout (DataSyncController.java:95-108); the retry limit only changes the log message. */
    method HandleChannelTimeout(channelId: string)
      requires Valid()
      modifies this
      ensures Valid()
      ensures channelErrorCounts == Bumped(old(channelErrorCounts), channelId)
      ensures isDataSyncActive == old(isDataSyncActive)
      ensures channelBuffers == old(channelBuffers) && channelLastDataTime == old(channelLastDataTime)
    {
      channelErrorCounts := Bumped(channelErrorCounts, channelId);
    }

    /**
     * registerChannelBuffer (DataSyncController.java:113-126): a known id
     * changes nothing; a new one gets an empty queue, delivery time 0 and
     * error count 0.
     */
    method RegisterChannelBuffer(channelId: string)
      requires Valid()
      modifies this
      ensures Valid() && isDataSyncActive == old(isDataSyncActive)
      ensures channelId in old(channelBuffers) ==>
                channelBuffers == old(channelBuffers) && channelLastDataTime == old(channelLastDataTime) &&
                channelErrorCounts == old(channelErrorCounts)
      ensures channelId !in old(channelBuffers) ==>
                channelBuffers == old(channelBuffers)[channelId := []] &&
                channelLastDataTime == old(channelLastDataTime)[channelId := 0] &&
                channelErrorCounts == old(channelErrorCounts)[channelId := 0]
    {
      if channelId in channelBuffers {
        return;
      }
      channelBuffers := channelBuffers[channelId := []];
      channelLastDataTime := channelLastDataTime[channelId := 0];
      channelErrorCounts := channelErrorCounts[channelId := 0];
    }

    /** unregisterChannelBuffer (DataSyncController.java:131-144): the channel's queue, time and count are gone. */
    method UnregisterChannelBuffer(channelId: string)
      requires Valid()
      modifies this
      ensures Valid() && isDataSyncActive == old(isDataSyncActive)
      ensures channelBuffers == old(channelBuffers) - {channelId}
      ensures channelLastDataTime == old(channelLastDataTime) - {channelId}
      ensures channelErrorCounts == old(channelErrorCounts) - {channelId}
    {
      channelBuffers := channelBuffers - {channelId};
      channelLastDataTime := channelLastDataTime - {channelId};
      channelErrorCounts := channelErrorCounts - {channelId};
    }

    /**
     * addAudioFrame (DataSyncController.java:149-176): refused while
     * inactive or for an unknown channel; a queue with room takes the frame
     * at its tail and records the delivery time; a full queue refuses it and
     * counts a timeout error.
     */
    method AddAudioFrame(channelId: string, frame: Frame, now: int) returns (added: bool)
      requires Valid()
      modifies this
      ensures Valid() && isDataSyncActive == old(isDataSyncActive)
      ensures added <==> old(isDataSyncActive) && channelId in old(channelBuffers) &&
                         |old(channelBuffers)[channelId]| < MAX_BUFFER_SIZE
      ensures added ==> channelBuffers == old(channelBuffers)[channelId := old(channelBuffers)[channelId] + [frame]] &&
                        channelLastDataTime == old(channelLastDataTime)[channelId := now] &&
                        channelErrorCounts == old(channelErrorCounts)
      ensures !added && old(isDataSyncActive) && channelId in old(channelBuffers) ==>
                channelBuffers == old(channelBuffers) && channelLastDataTime == old(channelLastDataTime) &&
                channelErrorCounts == Bumped(old(channelErrorCounts), channelId)
      ensures !old(isDataSyncActive) || channelId !in old(channelBuffers) ==>
                channelBuffers == old(channelBuffers) && channelLastDataTime == old(channelLastDataTime) &&
                channelErrorCounts == old(channelErrorCounts)
    {
      if !isDataSyncActive || channelId !in channelBuffers {
        return false;
      }
      var buffer := channelBuffers[channelId];
      if |buffer| < MAX_BUFFER_SIZE {
        channelBuffers := channelBuffers[channelId := buffer + [frame]];
        channelLastDataTime := channelLastDataTime[channelId := now];
        return true;
      }
      HandleChannelTimeout(channelId);
      return false;
    }

    /**
     * getSyncedFrames (DataSyncController.java:181-213): while active and
     * with every queue holding a frame, the head of each queue is removed
     * and returned keyed by its channel; otherwise nothing is returned and
     * no queue changes.
     */
    method GetSyncedFrames() returns (frames: map<string, Frame>)
      requires Valid()
      modifies this
      ensures Valid() && isDataSyncActive == old(isDataSyncActive)
      ensures channelLastDataTime == old(channelLastDataTime) && channelErrorCounts == old(channelErrorCounts)
      ensures old(isDataSyncActive) && AllHaveData(old(channelBuffers)) ==>
                frames == Heads(old(channelBuffers)) && channelBuffers == Tails(old(channelBuffers))
      ensures !(old(isDataSyncActive) && AllHaveData(old(channelBuffers))) ==>
                frames == map[] && channelBuffers == old(channelBuffers)
    {
      if !isDataSyncActive {
        return map[];
      }
      var all := AllNonEmpty(channelBuffers);
      if !all {
        return map[];
      }
      var rest;
      frames, rest := PopHeads(channelBuffers);
      channelBuffers := rest;
    }

    /** getChannelFrame (DataSyncController.java:218-226): pops the head of one queue, null when unknown or empty. */
    method GetChannelFrame(channelId: string) returns (frame: Option<Frame>)
      requires Valid()
      modifies this
      ensures Valid() && isDataSyncActive == old(isDataSyncActive)
      ensures channelLastDataTime == old(channelLastDataTime) && channelErrorCounts == old(channelErrorCounts)
      ensures frame.Some? <==> channelId in old(channelBuffers) && old(channelBuffers)[channelId] != []
      ensures frame.Some? ==> old(channelBuffers)[channelId] == [frame.value] + channelBuffers[channelId] &&
                              channelBuffers == old(channelBuffers)[channelId := old(channelBuffers)[channelId][1..]]
      ensures frame.None? ==> channelBuffers == old(channelBuffers)
    {
      if channelId !in channelBuffers || channelBuffers[channelId] == [] {
        return None;
      }
      var buffer := channelBuffers[channelId];
      channelBuffers := channelBuffers[channelId := buffer[1..]];
      frame := Some(buffer[0]);
    }

    /** isDataSynced (DataSyncController.java:231-249): some channel, and none stale. */
    method IsDataSynced(now: int) returns (synced: bool)
      ensures synced <==> |channelBuffers| > 0 &&
                          forall id :: id in channelLastDataTime ==> !TimedOut(channelLastDataTime[id], now)
    {
      if |channelBuffers| == 0 {
        return false;
      }
      var last := channelLastDataTime;
      var todo := last.Keys;
      while todo != {}
        invariant todo <= last.Keys
        invariant forall id :: id in last && id !in todo ==> !TimedOut(last[id], now)
        decreases |todo|
      {
        var id :| id in todo;
        if TimedOut(last[id], now) {
          return false;
        }
        todo := todo - {id};
      }
      return true;
    }

    /** isChannelSynced (DataSyncController.java:254-263). */
    function IsChannelSynced(channelId: string, now: int): (synced: bool)
      reads this
      ensures synced <==> channelId in channelLastDataTime && now - channelLastDataTime[channelId] <= SYNC_TIMEOUT_MS
    {
      if channelId !in channelLastDataTime then false else !TimedOut(channelLastDataTime[channelId], now)
    }

    /**
     * getChannelBufferStatus (DataSyncController.java:268-281): zeros for
     * an unknown channel, otherwise the queue length against the capacity.
     */
    function GetChannelBufferStatus(channelId: string): (s: BufferStatus)
      reads this
      ensures channelId !in channelBuffers ==> s == BufferStatus(0, 0, false)
      ensures channelId in channelBuffers ==>
                s.currentSize == |channelBuffers[channelId]| && s.maxSize == MAX_BUFFER_SIZE &&
                (s.isFull <==> |channelBuffers[channelId]| == MAX_BUFFER_SIZE)
      ensures Valid() ==> 0 <= s.currentSize <= s.maxSize
    {
      if channelId !in channelBuffers then BufferStatus(0, 0, false)
      else
        var size := |channelBuffers[channelId]|;
        BufferStatus(size, MAX_BUFFER_SIZE, MAX_BUFFER_SIZE - size == 0)
    }

    /** getAllChannelBufferStatus (DataSyncController.java:286-296): one status per registered channel. */
    method GetAllChannelBufferStatus() returns (statuses: map<string, BufferStatus>)
      ensures statuses.Keys == channelBuffers.Keys
      ensures forall id :: id in statuses ==> statuses[id] == GetChannelBufferStatus(id)
    {
      statuses := map[];
      var todo := channelBuffers.Keys;
      while todo != {}
        invariant todo <= channelBuffers.Keys
        invariant statuses.Keys == channelBuffers.Keys - todo
        invariant forall id :: id in statuses ==> statuses[id] == GetChannelBufferStatus(id)
        decreases |todo|
      {
        var id :| id in todo;
        statuses := statuses[id := GetChannelBufferStatus(id)];
        todo := todo - {id};
      }
    }

    /** clearChannelBuffer (DataSyncController.java:305-313). */
    method ClearChannelBuffer(channelId: string)
      requires Valid()
      modifies this
      ensures Valid() && isDataSyncActive == old(isDataSyncActive)
      ensures channelBuffers == if channelId in old(channelBuffers) then old(channelBuffers)[channelId := []] else old(channelBuffers)
      ensures channelLastDataTime == old(channelLastDataTime) && channelErrorCounts == old(channelErrorCounts)
    {
      if channelId in channelBuffers {
        channelBuffers := channelBuffers[channelId := []];
      }
    }

    /** clearAllChannelBuffers (DataSyncController.java:318-325): every queue empty, none removed. */
    method ClearAllChannelBuffers()
      requires Valid()
      modifies this
      ensures Valid() && isDataSyncActive == old(isDataSyncActive)
      ensures channelBuffers.Keys == old(channelBuffers).Keys
      ensures forall id :: id in channelBuffers ==> channelBuffers[id] == []
      ensures channelLastDataTime == old(channelLastDataTime) && channelErrorCounts == old(channelErrorCounts)
    {
      var emptied := EmptyEach(channelBuffers);
      channelBuffers := emptied;
    }

    /** resetChannelErrors (DataSyncController.java:330-335): also records a zero count for an unknown id. */
    method ResetChannelErrors(channelId: string)
      requires Valid()
      modifies this
      ensures Valid() && isDataSyncActive == old(isDataSyncActive)
      ensures channelErrorCounts == old(channelErrorCounts)[channelId := 0]
      ensures channelBuffers == old(channelBuffers) && channelLastDataTime == old(channelLastDataTime)
    {
      channelErrorCounts := channelErrorCounts[channelId := 0];
    }

    /** The channels getSyncStatistics counts as active at `now`. */
    ghost function ActiveIds(now: int): set<string>
      reads this
    {
      set id | id in channelBuffers && id in channelLastDataTime && !TimedOut(channelLastDataTime[id], now)
    }

    /** The channels getSyncStatistics counts as erroneous. */
    ghost function ErrorIds(): set<string>
      reads this
    {
      set id | id in channelBuffers && id in channelErrorCounts && channelErrorCounts[id] > 0
    }

    /**
     * getSyncStatistics (DataSyncController.java:340-359): the number of
     * channels, and how many of them delivered within the timeout and how
     * many have a non-zero error count.
     */
    method GetSyncStatistics(now: int) returns (stats: DataSyncStatistics)
      ensures stats.channelCount == |channelBuffers| && stats.totalBuffers == |channelBuffers|
      ensures stats.activeChannels == |ActiveIds(now)| && stats.errorChannels == |ErrorIds()|
      ensures stats.activeChannels <= stats.channelCount && stats.errorChannels <= stats.channelCount
    {
      var active, errorChannels := 0, 0;
      var todo := channelBuffers.Keys;
      ghost var seenActive, seenError := {}, {};
      while todo != {}
        invariant todo <= channelBuffers.Keys
        invariant forall id :: id in seenActive <==> id in ActiveIds(now) && id !in todo
        invariant forall id :: id in seenError <==> id in ErrorIds() && id !in todo
        invariant active == |seenActive| && errorChannels == |seenError|
        decreases |todo|
      {
        var id :| id in todo;
        if id in channelLastDataTime && !TimedOut(channelLastDataTime[id], now) {
          active := active + 1;
          seenActive := seenActive + {id};
        }
        if id in channelErrorCounts && channelErrorCounts[id] > 0 {
          errorChannels := errorChannels + 1;
          seenError := seenError + {id};
        }
        todo := todo - {id};
      }
      assert seenActive == ActiveIds(now);
      assert seenError == ErrorIds();
      SubsetCard(ActiveIds(now), channelBuffers.Keys);
      SubsetCard(ErrorIds(), channelBuffers.Keys);
      stats := DataSyncStatistics(|channelBuffers|, |channelBuffers|, active, errorChannels);
    }

    /**
     * shutdown (DataSyncController.java:364-387): an active controller
     * drops every queue, time and count and stops; an inactive one is left
     * alone.
     */
    method Shutdown()
      requires Valid()
      modifies this
      ensures Valid() && !isDataSyncActive
      ensures old(isDataSyncActive) ==>
                channelBuffers == map[] && channelLastDataTime == map[] && channelErrorCounts == map[]
      ensures !old(isDataSyncActive) ==>
                channelBuffers == old(channelBuffers) && channelLastDataTime == old(channelLastDataTime) &&
                channelErrorCounts == old(channelErrorCounts)
    {
      if !isDataSyncActive {
        return;
      }
      isDataSyncActive := false;
      ClearAllChannelBuffers();
      channelBuffers, channelLastDataTime, channelErrorCounts := map[], map[], map[];
    }
  }
}
