/**
 * TimeSyncController (TimeSyncController.java): a master timestamp and,
 * per channel, the last reported timestamp, its drift from the clock and
 * the time of that report.  Large drifts resynchronise the channel to the
 * clock; lookups correct small drifts.
 *
 * The clock is the `now` parameter; the periodic timer task is the step
 * method PerformSyncCheck.
 */
module TimeSync {
  import opened AudioFrames
  import opened Collections

  /** TimeSyncController.java:19-20. */
  const MAX_SYNC_DRIFT_MS: int := 5
  const SYNC_TIMEOUT_MS: int := 1000

  /** Above this drift a report is replaced by a resync (TimeSyncController.java:124). */
  const RESYNC_DRIFT_MS: int := MAX_SYNC_DRIFT_MS * 2

  /** SyncTimeStatistics (TimeSyncController.java:277-281). */
  datatype SyncTimeStatistics = SyncTimeStatistics(masterTimestamp: int, channelCount: nat, maxDrift: int, averageDrift: int)

  /** What one channel's three map entries hold after a report. */
  datatype TimeEntry = TimeEntry(timestamp: int, drift: nat, lastUpdate: int)

  /**
   * The entries registerChannelTimestamp leaves for a report of
   * `timestamp` at `now` (TimeSyncController.java:93-147): the report and
   * its distance from the clock, or, when that distance exceeds 10 ms, the
   * clock itself with no drift.  Either way the recorded drift is at most
   * 10 ms.
   */
  function Registered(timestamp: int, now: int): (e: TimeEntry)
    ensures e.lastUpdate == now && e.drift <= RESYNC_DRIFT_MS
    ensures Abs(now - timestamp) <= RESYNC_DRIFT_MS ==> e.timestamp == timestamp && e.drift == Abs(now - timestamp)
    ensures Abs(now - timestamp) > RESYNC_DRIFT_MS ==> e.timestamp == now && e.drift == 0
  {
    var drift := Abs(now - timestamp);
    if drift > MAX_SYNC_DRIFT_MS && drift > RESYNC_DRIFT_MS then TimeEntry(now, 0, now)
    else TimeEntry(timestamp, drift, now)
  }

  /** getSyncedTimestamp's correction of a known channel (TimeSyncController.java:160-166). */
  function Corrected(timestamp: int, drift: int): int
  {
    if drift > MAX_SYNC_DRIFT_MS then timestamp + drift else timestamp
  }

  /**
   * Reading back a report: a report at most 5 ms off reads back unchanged;
   * a late report 6-10 ms behind the clock reads back as the clock; a
   * report more than 10 ms off reads back as the clock.  A report 6-10 ms
   * AHEAD of the clock reads back twice as far ahead, since the drift is a
   * magnitude and is always added.
   */
  lemma ReadBackAfterRegister(timestamp: int, now: int)
    ensures var e := Registered(timestamp, now);
            Abs(now - timestamp) <= MAX_SYNC_DRIFT_MS ==> Corrected(e.timestamp, e.drift) == timestamp
    ensures var e := Registered(timestamp, now);
            timestamp < now && now - timestamp > MAX_SYNC_DRIFT_MS ==> Corrected(e.timestamp, e.drift) == now
    ensures var e := Registered(timestamp, now);
            Abs(now - timestamp) > RESYNC_DRIFT_MS ==> Corrected(e.timestamp, e.drift) == now
    ensures var e := Registered(timestamp, now);
            MAX_SYNC_DRIFT_MS < timestamp - now <= RESYNC_DRIFT_MS ==>
              Corrected(e.timestamp, e.drift) - now == 2 * (timestamp - now)
  {
  }

  /** The sum of the drifts of the first `n` channels of `order`. */
  function DriftSum(order: seq<string>, drifts: map<string, nat>, n: nat): (s: nat)
    requires n <= |order|
    decreases n
  {
    if n == 0 then 0 else DriftSum(order, drifts, n - 1) + (if order[n - 1] in drifts then drifts[order[n - 1]] else 0)
  }

  /** Drifts bounded by `b` sum to at most `b` per channel. */
  lemma {:induction false} DriftSumBound(order: seq<string>, drifts: map<string, nat>, n: nat, b: nat)
    requires n <= |order|
    requires forall id :: id in drifts ==> drifts[id] <= b
    ensures DriftSum(order, drifts, n) <= n * b
    decreases n
  {
    if n > 0 {
      DriftSumBound(order, drifts, n - 1, b);
    }
  }

  /**
   * The mean drift getSyncStatistics reports, the drift sum over the `n`
   * channels, is at most any bound on the individual drifts.
   */
  lemma AverageWithinBound(order: seq<string>, drifts: map<string, nat>, b: nat, n: nat)
    requires IsEnumeration(order, drifts.Keys) && n == |drifts| > 0
    requires forall id :: id in drifts ==> drifts[id] <= b
    ensures 0 <= DriftSum(order, drifts, |order|) / n <= b
  {
    EnumerationSize(order, drifts.Keys);
    DriftSumBound(order, drifts, |order|, b);
    DivAtMost(DriftSum(order, drifts, |order|), n, b);
  }

  /** The statistics of channels that keep their drifts within 10 ms stay within 10 ms. */
  lemma StatisticsWithinResync(order: seq<string>, timestamps: map<string, int>, drifts: map<string, nat>, maxDrift: int)
    requires timestamps.Keys == drifts.Keys && |timestamps| > 0
    requires IsEnumeration(order, drifts.Keys)
    requires forall id :: id in drifts ==> drifts[id] <= RESYNC_DRIFT_MS
    requires forall id :: id in drifts ==> drifts[id] <= maxDrift
    requires maxDrift == 0 || exists id :: id in drifts && drifts[id] == maxDrift
    ensures 0 <= DriftSum(order, drifts, |order|) / |timestamps| <= maxDrift <= RESYNC_DRIFT_MS
  {
    assert |timestamps| == |drifts| by {
      assert |timestamps| == |timestamps.Keys| && |drifts| == |drifts.Keys|;
    }
    AverageWithinBound(order, drifts, maxDrift, |timestamps|);
    if maxDrift != 0 {
      var id :| id in drifts && drifts[id] == maxDrift;
    }
  }

  /**
   * The loop of getSyncStatistics (TimeSyncController.java:221-228): the
   * largest drift, reached by some channel, and the drift sum.
   */
  method ScanDrifts(order: seq<string>, drifts: map<string, nat>) returns (maxDrift: int, total: nat)
    requires IsEnumeration(order, drifts.Keys)
    ensures total == DriftSum(order, drifts, |order|)
    ensures 0 <= maxDrift && forall id :: id in drifts ==> drifts[id] <= maxDrift
    ensures maxDrift == 0 || exists id :: id in drifts && drifts[id] == maxDrift
  {
    maxDrift, total := 0, 0;
    var i := 0;
    while i < |order|
      invariant 0 <= i <= |order|
      invariant total == DriftSum(order, drifts, i)
      invariant 0 <= maxDrift && forall j :: 0 <= j < i ==> drifts[order[j]] <= maxDrift
      invariant maxDrift == 0 || exists id :: id in drifts && drifts[id] == maxDrift
    {
      var drift := drifts[order[i]];
      maxDrift := Max(maxDrift, drift);
      total := total + drift;
      i := i + 1;
    }
    EveryKeyVisited(order, drifts.Keys);
  }

  lemma MulMono(n: nat, a: nat, c: nat)
    requires a <= c
    ensures n * a <= n * c
  {
    assert n * c == n * a + n * (c - a);
  }

  /** A sum of n terms of at most b, divided by n, is at most b. */
  lemma DivAtMost(s: nat, n: nat, b: nat)
    requires n > 0 && s <= n * b
    ensures 0 <= s / n <= b
  {
    var q := s / n;
    assert n * q <= s;
    if q > b {
      MulMono(n, b + 1, q);
      assert false;
    }
  }

  /**
   * The loop of forceSyncAllChannels (TimeSyncController.java:243-247),
   * over three maps that share their keys: every channel takes the clock
   * with no drift.
   */
  method StampAll(timestamps: map<string, int>, drifts: map<string, nat>, lastUpdate: map<string, int>, now: int)
    returns (ts: map<string, int>, ds: map<string, nat>, lu: map<string, int>)
    requires drifts.Keys == timestamps.Keys && lastUpdate.Keys == timestamps.Keys
    ensures ts.Keys == timestamps.Keys && ds.Keys == timestamps.Keys && lu.Keys == timestamps.Keys
    ensures forall id :: id in timestamps ==> ts[id] == now && ds[id] == 0 && lu[id] == now
  {
    ts, ds, lu := timestamps, drifts, lastUpdate;
    var todo := timestamps.Keys;
    while todo != {}
      invariant todo <= timestamps.Keys
      invariant ts.Keys == timestamps.Keys && ds.Keys == timestamps.Keys && lu.Keys == timestamps.Keys
      invariant forall id :: id in timestamps && id !in todo ==> ts[id] == now && ds[id] == 0 && lu[id] == now
      decreases |todo|
    {
      var id :| id in todo;
      ts := ts[id := now];
      ds := ds[id := 0];
      lu := lu[id := now];
      todo := todo - {id};
    }
  }

  class TimeSyncController {
    var isSyncActive: bool
    var masterTimestamp: int
    var channelTimestamps: map<string, int>
    var channelDrifts: map<string, nat>
    var channelLastUpdate: map<string, int>

    /** The three per-channel maps share their keys, and no recorded drift exceeds 10 ms. */
    ghost predicate Valid()
      reads this
    {
      channelTimestamps.Keys == channelDrifts.Keys &&
      channelTimestamps.Keys == channelLastUpdate.Keys &&
      forall id :: id in channelDrifts ==> channelDrifts[id] <= RESYNC_DRIFT_MS
    }

    constructor ()
      ensures Valid() && !isSyncActive && masterTimestamp == 0
      ensures channelTimestamps == map[] && channelDrifts == map[] && channelLastUpdate == map[]
    {
      isSyncActive, masterTimestamp := false, 0;
      channelTimestamps, channelDrifts, channelLastUpdate := map[], map[], map[];
    }

    /** initializeSync (TimeSyncController.java:37-53): the first call takes the clock as master timestamp. */
    method InitializeSync(now: int)
      requires Valid()
      modifies this
      ensures Valid() && isSyncActive
      ensures masterTimestamp == if old(isSyncActive) then old(masterTimestamp) else now
      ensures channelTimestamps == old(channelTimestamps) && channelDrifts == old(channelDrifts)
      ensures channelLastUpdate == old(channelLastUpdate)
    {
      if isSyncActive {
        return;
      }
      masterTimestamp := now;
      isSyncActive := true;
    }

    /**
     * performSyncCheck (TimeSyncController.java:71-88).  Its only effect is
     * a log line per stale channel; the model returns those channels.
     */
    method PerformSyncCheck(now: int) returns (stale: set<string>)
      ensures !isSyncActive ==> stale == {}
      ensures isSyncActive ==> forall id :: id in stale <==>
                id in channelTimestamps && id in channelLastUpdate && now - channelLastUpdate[id] > SYNC_TIMEOUT_MS
    {
      stale := {};
      if !isSyncActive {
        return;
      }
      var todo := channelTimestamps.Keys;
      while todo != {}
        invariant todo <= channelTimestamps.Keys
        invariant forall id :: id in stale <==>
                    id in channelTimestamps && id !in todo && id in channelLastUpdate &&
                    now - channelLastUpdate[id] > SYNC_TIMEOUT_MS
        decreases |todo|
      {
        var id :| id in todo;
        if id in channelLastUpdate && now - channelLastUpdate[id] > SYNC_TIMEOUT_MS {
          stale := stale + {id};
        }
        todo := todo - {id};
      }
    }

    /**
     * registerChannelTimestamp (TimeSyncController.java:93-113): ignored
     * while inactive; otherwise the channel's three entries become those
     * of Registered(timestamp, now).
     */
    method RegisterChannelTimestamp(channelId: string, timestamp: int, now: int)
      requires Valid()
      modifies this
      ensures Valid() && isSyncActive == old(isSyncActive) && masterTimestamp == old(masterTimestamp)
      ensures !old(isSyncActive) ==>
                channelTimestamps == old(channelTimestamps) && channelDrifts == old(channelDrifts) &&
                channelLastUpdate == old(channelLastUpdate)
      ensures old(isSyncActive) ==>
                var e := Registered(timestamp, now);
                channelTimestamps == old(channelTimestamps)[channelId := e.timestamp] &&
                channelDrifts == old(channelDrifts)[channelId := e.drift] &&
                channelLastUpdate == old(channelLastUpdate)[channelId := e.lastUpdate]
    {
      if !isSyncActive {
        return;
      }
      ghost var ts0, ds0, lu0 := channelTimestamps, channelDrifts, channelLastUpdate;
      var drift := Abs(now - timestamp);
      channelTimestamps := channelTimestamps[channelId := timestamp];
      channelDrifts := channelDrifts[channelId := drift];
      channelLastUpdate := channelLastUpdate[channelId := now];
      if drift > MAX_SYNC_DRIFT_MS {
        AdjustChannelSync(channelId, drift, now);
        if drift > RESYNC_DRIFT_MS {
          OverwriteTwice(ts0, channelId, timestamp, now);
          OverwriteTwice(ds0, channelId, drift, 0);
          OverwriteTwice(lu0, channelId, now, now);
        }
      }
    }

    /** adjustChannelSync (TimeSyncController.java:118-132): only a drift above 10 ms acts, by resyncing. */
    method AdjustChannelSync(channelId: string, drift: int, now: int)
      modifies this
      ensures isSyncActive == old(isSyncActive) && masterTimestamp == old(masterTimestamp)
      ensures drift > RESYNC_DRIFT_MS ==>
                channelTimestamps == old(channelTimestamps)[channelId := now] &&
                channelDrifts == old(channelDrifts)[channelId := 0] &&
                channelLastUpdate == old(channelLastUpdate)[channelId := now]
      ensures drift <= RESYNC_DRIFT_MS ==>
                channelTimestamps == old(channelTimestamps) && channelDrifts == old(channelDrifts) &&
                channelLastUpdate == old(channelLastUpdate)
    {
      if drift > RESYNC_DRIFT_MS {
        ResyncChannel(channelId, now);
      }
    }

    /** resyncChannel (TimeSyncController.java:137-147): the channel takes the clock, with no drift. */
    method ResyncChannel(channelId: string, now: int)
      modifies this
      ensures isSyncActive == old(isSyncActive) && masterTimestamp == old(masterTimestamp)
      ensures channelTimestamps == old(channelTimestamps)[channelId := now]
      ensures channelDrifts == old(channelDrifts)[channelId := 0]
      ensures channelLastUpdate == old(channelLastUpdate)[channelId := now]
    {
      channelTimestamps := channelTimestamps[channelId := now];
      channelDrifts := channelDrifts[channelId := 0];
      channelLastUpdate := channelLastUpdate[channelId := now];
    }

    /**
     * getSyncedTimestamp (TimeSyncController.java:152-167): the master
     * timestamp for an unknown channel, otherwise the channel's timestamp
     * corrected by its drift.
     */
    function GetSyncedTimestamp(channelId: string): (t: int)
      reads this
      ensures channelId !in channelTimestamps ==> t == masterTimestamp
      ensures channelId in channelTimestamps && channelId in channelDrifts ==>
                t == Corrected(channelTimestamps[channelId], channelDrifts[channelId])
      ensures Valid() && channelId in channelTimestamps ==>
                channelTimestamps[channelId] <= t <= channelTimestamps[channelId] + RESYNC_DRIFT_MS
    {
      if channelId !in channelTimestamps then masterTimestamp
      else if channelId in channelDrifts then Corrected(channelTimestamps[channelId], channelDrifts[channelId])
      else channelTimestamps[channelId]
    }

    /** Every channel reported within the timeout with a drift of at most 5 ms, and there is a channel. */
    ghost predicate AllSyncedAt(now: int)
      reads this
    {
      |channelTimestamps| > 0 &&
      (forall id :: id in channelTimestamps && id in channelLastUpdate ==> now - channelLastUpdate[id] <= SYNC_TIMEOUT_MS) &&
      (forall id :: id in channelTimestamps && id in channelDrifts ==> channelDrifts[id] <= MAX_SYNC_DRIFT_MS)
    }

    /** areAllChannelsSynced (TimeSyncController.java:172-197), with its running maximum drift. */
    method AreAllChannelsSynced(now: int) returns (synced: bool)
      ensures synced == AllSyncedAt(now)
    {
      if |channelTimestamps| == 0 {
        return false;
      }
      var maxDrift := 0;
      var todo := channelTimestamps.Keys;
      while todo != {}
        invariant todo <= channelTimestamps.Keys
        invariant 0 <= maxDrift
        invariant forall id :: id in channelTimestamps && id !in todo && id in channelDrifts ==> channelDrifts[id] <= maxDrift
        invariant maxDrift == 0 || exists id :: id in channelTimestamps && id !in todo && id in channelDrifts && channelDrifts[id] == maxDrift
        invariant forall id :: id in channelTimestamps && id !in todo && id in channelLastUpdate ==>
                    now - channelLastUpdate[id] <= SYNC_TIMEOUT_MS
        decreases |todo|
      {
        var id :| id in todo;
        if id in channelDrifts {
          maxDrift := Max(maxDrift, channelDrifts[id]);
        }
        if id in channelLastUpdate && now - channelLastUpdate[id] > SYNC_TIMEOUT_MS {
          return false;
        }
        todo := todo - {id};
      }
      return maxDrift <= MAX_SYNC_DRIFT_MS;
    }

    /** getChannelDrift (TimeSyncController.java:202-207): zero for an unknown channel. */
    function GetChannelDrift(channelId: string): (d: int)
      reads this
      ensures channelId in channelDrifts ==> d == channelDrifts[channelId]
      ensures channelId !in channelDrifts ==> d == 0
      ensures Valid() ==> 0 <= d <= RESYNC_DRIFT_MS
    {
      if channelId in channelDrifts then channelDrifts[channelId] else 0
    }

    /**
     * getSyncStatistics (TimeSyncController.java:212-233), visiting the
     * drifts in `order`: the largest drift and the truncated mean over the
     * channel count, zeros without channels.
     */
    method GetSyncStatistics(order: seq<string>) returns (stats: SyncTimeStatistics)
      requires IsEnumeration(order, channelDrifts.Keys)
      ensures stats.masterTimestamp == masterTimestamp && stats.channelCount == |channelTimestamps|
      ensures |channelTimestamps| == 0 ==> stats.maxDrift == 0 && stats.averageDrift == 0
      ensures |channelTimestamps| > 0 ==>
                (forall id :: id in channelDrifts ==> channelDrifts[id] <= stats.maxDrift) &&
                (stats.maxDrift == 0 || exists id :: id in channelDrifts && channelDrifts[id] == stats.maxDrift) &&
                stats.averageDrift == DriftSum(order, channelDrifts, |order|) / |channelTimestamps|
      ensures Valid() ==> 0 <= stats.averageDrift <= stats.maxDrift <= RESYNC_DRIFT_MS
    {
      var maxDrift, averageDrift := 0, 0;
      if |channelTimestamps| > 0 {
        var total;
        maxDrift, total := ScanDrifts(order, channelDrifts);
        averageDrift := total / |channelTimestamps|;
        if Valid() {
          StatisticsWithinResync(order, channelTimestamps, channelDrifts, maxDrift);
        }
      }
      stats := SyncTimeStatistics(masterTimestamp, |channelTimestamps|, maxDrift, averageDrift);
    }

    /**
     * forceSyncAllChannels (TimeSyncController.java:238-251): master and
     * every channel take the clock with no drift; no channel is added or
     * removed, and afterwards every channel is in sync.
     */
    method ForceSyncAllChannels(now: int)
      requires Valid()
      modifies this
      ensures Valid() && isSyncActive == old(isSyncActive) && masterTimestamp == now
      ensures channelTimestamps.Keys == old(channelTimestamps).Keys
      ensures channelDrifts.Keys == old(channelDrifts).Keys && channelLastUpdate.Keys == old(channelLastUpdate).Keys
      ensures forall id :: id in channelTimestamps ==>
                channelTimestamps[id] == now && channelDrifts[id] == 0 && channelLastUpdate[id] == now
      ensures |channelTimestamps| > 0 ==> AllSyncedAt(now)
    {
      masterTimestamp := now;
      var ts, ds, lu := StampAll(channelTimestamps, channelDrifts, channelLastUpdate, now);
      channelTimestamps, channelDrifts, channelLastUpdate := ts, ds, lu;
    }

    /** shutdown (TimeSyncController.java:256-274): an active controller forgets every channel and stops. */
    method Shutdown()
      requires Valid()
      modifies this
      ensures Valid() && !isSyncActive && masterTimestamp == old(masterTimestamp)
      ensures old(isSyncActive) ==>
                channelTimestamps == map[] && channelDrifts == map[] && channelLastUpdate == map[]
      ensures !old(isSyncActive) ==>
                channelTimestamps == old(channelTimestamps) && channelDrifts == old(channelDrifts) &&
                channelLastUpdate == old(channelLastUpdate)
    {
      if !isSyncActive {
        return;
      }
      isSyncActive := false;
      channelTimestamps, channelDrifts, channelLastUpdate := map[], map[], map[];
    }
  }

  lemma EveryKeyVisited(order: seq<string>, keys: set<string>)
    requires IsEnumeration(order, keys)
    ensures forall k :: k in keys ==> exists j :: 0 <= j < |order| && order[j] == k
  {
  }
}
