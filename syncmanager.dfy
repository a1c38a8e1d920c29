/**
 * AudioSyncManager (AudioSyncManager.java): a registry of at most eight
 * channels, each with its activity time and frame counter, in front of a
 * time-sync and a data-sync controller.
 *
 * The clock is the `now` parameter.  The output controller the manager
 * also starts and stops is reduced to the flag `outputStarted`.
 */
module SyncManager {
  import opened TimeSync
  import opened DataSync

  /** AudioSyncManager.java:18. */
  const MAX_CHANNELS: int := 8

  /** A channel counts as synced while its last frame is younger than this (AudioSyncManager.java:257). */
  const ACTIVITY_WINDOW_MS: int := 1000

  /** ... and its drift below this (AudioSyncManager.java:257). */
  const MAX_STATE_DRIFT: int := 50

  /**
   * ChannelSyncState (AudioSyncManager.java:215-269).  Each state is
   * owned by one entry of the manager's map, so it is held as a value.
   */
  datatype ChannelSyncState = ChannelSyncState(
    channelId: string,
    lastActivityTime: int,
    syncDrift: int,
    frameCount: nat,
    errorCount: nat,
    isActive: bool)

  /** ChannelStats (AudioSyncManager.java:285-295). */
  datatype ChannelStats = ChannelStats(syncDrift: int, frameCount: nat, errorCount: nat)

  /** A state as constructed at `now` (AudioSyncManager.java:223-230). */
  function NewState(channelId: string, now: int): ChannelSyncState
  {
    ChannelSyncState(channelId, now, 0, 0, 0, true)
  }

  /** isSynced (AudioSyncManager.java:252-258). */
  predicate StateSynced(s: ChannelSyncState, now: int)
  {
    s.isActive && now - s.lastActivityTime < ACTIVITY_WINDOW_MS && s.syncDrift < MAX_STATE_DRIFT
  }

  /**
   * A frame arriving at `now`: updateLastActivity then processAudioFrame
   * (AudioSyncManager.java:125, 132, 232-250).  The activity time moves
   * even for an inactive state, the counter only for an active one; right
   * afterwards the state is synced exactly when it is active with a small
   * drift.
   */
  function Touched(s: ChannelSyncState, now: int): (t: ChannelSyncState)
    ensures t.lastActivityTime == now
    ensures t.frameCount == if s.isActive then s.frameCount + 1 else s.frameCount
    ensures t.channelId == s.channelId && t.syncDrift == s.syncDrift
    ensures t.errorCount == s.errorCount && t.isActive == s.isActive
    ensures StateSynced(t, now) <==> s.isActive && s.syncDrift < MAX_STATE_DRIFT
  {
    var s1 := s.(lastActivityTime := now);
    if s1.isActive then s1.(frameCount := s1.frameCount + 1) else s1
  }

  /**
   * The activity window: a state synced at some moment was synced at
   * every earlier moment since its last activity, and no state is synced
   * a second or more after its last activity.
   */
  lemma StateSyncWindow(s: ChannelSyncState, t1: int, t2: int)
    requires s.lastActivityTime <= t1 <= t2
    ensures StateSynced(s, t2) ==> StateSynced(s, t1)
    ensures t2 - s.lastActivityTime >= ACTIVITY_WINDOW_MS ==> !StateSynced(s, t2)
  {
  }

  /** The statistics entry of one state (AudioSyncManager.java:177-180). */
  function StatsOf(s: ChannelSyncState): ChannelStats
  {
    ChannelStats(s.syncDrift, s.frameCount, s.errorCount)
  }

  class AudioSyncManager {
    var isSyncActive: bool
    var channelStates: map<string, ChannelSyncState>
    /** Whether the output controller has been started. */
    var outputStarted: bool
    const timeSync: TimeSyncController
    const dataSync: DataSyncController

    /**
     * The controllers are valid and run exactly while the manager does;
     * an inactive manager has no channels; there are at most eight; each
     * is filed under its own id, is active, has never drifted and has a
     * data-sync buffer.
     */
    ghost predicate Valid()
      reads this, timeSync, dataSync
    {
      timeSync.Valid() && dataSync.Valid() &&
      timeSync.isSyncActive == isSyncActive && dataSync.isDataSyncActive == isSyncActive &&
      outputStarted == isSyncActive &&
      (!isSyncActive ==> channelStates == map[]) &&
      |channelStates| <= MAX_CHANNELS &&
      channelStates.Keys <= dataSync.channelBuffers.Keys &&
      forall id :: id in channelStates ==>
        channelStates[id].channelId == id && channelStates[id].isActive && channelStates[id].syncDrift == 0
    }

    /** AudioSyncManager.java:29-35. */
    constructor ()
      ensures Valid() && !isSyncActive && channelStates == map[]
      ensures fresh(timeSync) && fresh(dataSync)
    {
      isSyncActive := false;
      channelStates := map[];
      outputStarted := false;
      timeSync := new TimeSyncController();
      dataSync := new DataSyncController();
    }

    /** initialize (AudioSyncManager.java:40-55): a second call changes nothing. */
    method Initialize(now: int)
      requires Valid()
      modifies this, timeSync, dataSync
      ensures Valid() && isSyncActive && channelStates == old(channelStates)
      ensures old(isSyncActive) ==> timeSync.masterTimestamp == old(timeSync.masterTimestamp)
      ensures !old(isSyncActive) ==> timeSync.masterTimestamp == now
      ensures dataSync.channelBuffers == old(dataSync.channelBuffers)
      ensures dataSync.channelLastDataTime == old(dataSync.channelLastDataTime)
      ensures dataSync.channelErrorCounts == old(dataSync.channelErrorCounts)
      ensures timeSync.channelTimestamps == old(timeSync.channelTimestamps)
      ensures timeSync.channelDrifts == old(timeSync.channelDrifts)
      ensures timeSync.channelLastUpdate == old(timeSync.channelLastUpdate)
    {
      if isSyncActive {
        return;
      }
      timeSync.InitializeSync(now);
      dataSync.InitializeDataSync();
      outputStarted := true;
      isSyncActive := true;
    }

    /**
     * registerChannel (AudioSyncManager.java:60-87): refused while
     * inactive, with eight channels or for a known id, and then nothing
     * changes; otherwise the channel gets a fresh state and a data-sync
     * buffer.  A buffer kept from an earlier registration stays as it was.
     */
    method RegisterChannel(channelId: string, now: int) returns (ok: bool)
      requires Valid()
      modifies this, dataSync
      ensures Valid() && isSyncActive == old(isSyncActive)
      ensures ok <==> old(isSyncActive) && |old(channelStates)| < MAX_CHANNELS && channelId !in old(channelStates)
      ensures ok ==> channelStates == old(channelStates)[channelId := NewState(channelId, now)]
      ensures !ok ==> channelStates == old(channelStates)
      ensures ok && channelId !in old(dataSync.channelBuffers) ==>
                dataSync.channelBuffers == old(dataSync.channelBuffers)[channelId := []] &&
                dataSync.channelLastDataTime == old(dataSync.channelLastDataTime)[channelId := 0] &&
                dataSync.channelErrorCounts == old(dataSync.channelErrorCounts)[channelId := 0]
      ensures !ok || channelId in old(dataSync.channelBuffers) ==>
                dataSync.channelBuffers == old(dataSync.channelBuffers) &&
                dataSync.channelLastDataTime == old(dataSync.channelLastDataTime) &&
                dataSync.channelErrorCounts == old(dataSync.channelErrorCounts)
    {
      if !isSyncActive {
        return false;
      }
      if |channelStates| >= MAX_CHANNELS {
        return false;
      }
      if channelId in channelStates {
        return false;
      }
      channelStates := channelStates[channelId := NewState(channelId, now)];
      dataSync.RegisterChannelBuffer(channelId);
      ok := true;
    }

    /**
     * unregisterChannel (AudioSyncManager.java:92-106): false for an
     * unknown id; otherwise only that channel's state goes.  The data-sync
     * buffer stays registered.
     */
    method UnregisterChannel(channelId: string) returns (ok: bool)
      requires Valid()
      modifies this
      ensures Valid() && isSyncActive == old(isSyncActive)
      ensures ok <==> channelId in old(channelStates)
      ensures channelStates == old(channelStates) - {channelId}
    {
      if channelId !in channelStates {
        return false;
      }
      channelStates := channelStates - {channelId};
      ok := true;
    }

    /**
     * processAudioFrame (AudioSyncManager.java:111-139): ignored while
     * inactive or for an unknown channel.  Otherwise the channel's state
     * is Touched at `now`, which leaves it synced at `now`, and the time
     * controller records a report stamped `now`, so with no drift.
     */
    method ProcessAudioFrame(channelId: string, now: int)
      requires Valid()
      modifies this, timeSync
      ensures Valid() && isSyncActive == old(isSyncActive)
      ensures timeSync.masterTimestamp == old(timeSync.masterTimestamp)
      ensures !old(isSyncActive) || channelId !in old(channelStates) ==>
                channelStates == old(channelStates) &&
                timeSync.channelTimestamps == old(timeSync.channelTimestamps) &&
                timeSync.channelDrifts == old(timeSync.channelDrifts) &&
                timeSync.channelLastUpdate == old(timeSync.channelLastUpdate)
      ensures old(isSyncActive) && channelId in old(channelStates) ==>
                channelStates == old(channelStates)[channelId := Touched(old(channelStates)[channelId], now)] &&
                channelStates[channelId].frameCount == old(channelStates)[channelId].frameCount + 1 &&
                IsChannelSynced(channelId, now) &&
                timeSync.channelTimestamps == old(timeSync.channelTimestamps)[channelId := now] &&
                timeSync.channelDrifts == old(timeSync.channelDrifts)[channelId := 0] &&
                timeSync.channelLastUpdate == old(timeSync.channelLastUpdate)[channelId := now]
    {
      if !isSyncActive || channelId !in channelStates {
        return;
      }
      channelStates := channelStates[channelId := Touched(channelStates[channelId], now)];
      timeSync.RegisterChannelTimestamp(channelId, now, now);
    }

    /**
     * isChannelSynced (AudioSyncManager.java:144-151): false for an
     * unknown channel.  Since every registered state is active and never
     * drifts, a known channel is synced exactly while its last frame is
     * younger than one second.
     */
    function IsChannelSynced(channelId: string, now: int): (synced: bool)
      reads this, timeSync, dataSync
      ensures channelId !in channelStates ==> !synced
      ensures Valid() ==>
                (synced <==> channelId in channelStates &&
                             now - channelStates[channelId].lastActivityTime < ACTIVITY_WINDOW_MS)
    {
      channelId in channelStates && StateSynced(channelStates[channelId], now)
    }

    /**
     * areAllChannelsSynced (AudioSyncManager.java:156-168): false without
     * channels, otherwise whether every channel is synced.
     */
    method AreAllChannelsSynced(now: int) returns (synced: bool)
      ensures synced <==> |channelStates| > 0 &&
                          forall id :: id in channelStates ==> StateSynced(channelStates[id], now)
    {
      if |channelStates| == 0 {
        return false;
      }
      var todo := channelStates.Keys;
      while todo != {}
        invariant todo <= channelStates.Keys
        invariant forall id :: id in channelStates && id !in todo ==> StateSynced(channelStates[id], now)
        decreases |todo|
      {
        var id :| id in todo;
        if !StateSynced(channelStates[id], now) {
          return false;
        }
        todo := todo - {id};
      }
      return true;
    }

    /**
     * getSyncStatistics (AudioSyncManager.java:173-184): one entry per
     * channel, filed under the state's own id; every reported drift is 0.
     */
    method GetSyncStatistics() returns (stats: map<string, ChannelStats>)
      requires Valid()
      ensures stats.Keys == channelStates.Keys
      ensures forall id :: id in stats ==> stats[id] == StatsOf(channelStates[id]) && stats[id].syncDrift == 0
    {
      stats := map[];
      var todo := channelStates.Keys;
      while todo != {}
        invariant todo <= channelStates.Keys
        invariant forall id :: id in stats <==> id in channelStates && id !in todo
        invariant forall id :: id in stats ==> stats[id] == StatsOf(channelStates[id])
        decreases |todo|
      {
        var id :| id in todo;
        var s := channelStates[id];
        stats := stats[s.channelId := StatsOf(s)];
        todo := todo - {id};
      }
      MapKeysPointwise(stats, channelStates);
    }

    /**
     * shutdown (AudioSyncManager.java:189-210): an active manager drops
     * every channel state, stops both controllers and the output, and
     * stops; an inactive one changes nothing.
     */
    method Shutdown()
      requires Valid()
      modifies this, timeSync, dataSync
      ensures Valid() && !isSyncActive && channelStates == map[]
      ensures timeSync.masterTimestamp == old(timeSync.masterTimestamp)
      ensures old(isSyncActive) ==>
                timeSync.channelTimestamps == map[] && timeSync.channelDrifts == map[] &&
                timeSync.channelLastUpdate == map[] &&
                dataSync.channelBuffers == map[] && dataSync.channelLastDataTime == map[] &&
                dataSync.channelErrorCounts == map[]
      ensures !old(isSyncActive) ==>
                timeSync.channelTimestamps == old(timeSync.channelTimestamps) &&
                timeSync.channelDrifts == old(timeSync.channelDrifts) &&
                timeSync.channelLastUpdate == old(timeSync.channelLastUpdate) &&
                dataSync.channelBuffers == old(dataSync.channelBuffers) &&
                dataSync.channelLastDataTime == old(dataSync.channelLastDataTime) &&
                dataSync.channelErrorCounts == old(dataSync.channelErrorCounts)
    {
      if !isSyncActive {
        return;
      }
      channelStates := map[];
      timeSync.Shutdown();
      dataSync.Shutdown();
      outputStarted := false;
      isSyncActive := false;
    }
  }

  /** Two maps with the same keys, pointwise. */
  lemma MapKeysPointwise<U, V>(a: map<string, U>, b: map<string, V>)
    requires forall id :: id in a <==> id in b
    ensures a.Keys == b.Keys
  {
  }
}
