/** The synchronization records: one per rule and engine, shared by every process. */
module SyncStore {
  import opened Basics
  import opened Clock

  datatype Key = Key(ruleID: string, engine: string)

  datatype SyncData = SyncData(
    startTime: Time, endTime: Time, successful: bool, removed: bool, error: string, syncResult: string)

  datatype SyncInfo = SyncInfo(
    syncID: string, ruleID: string, engine: string,
    startTime: Time, endTime: Option<Time>, pingTime: Time, running: bool,
    syncs: seq<SyncData>)
  {
    function LatestSync(): Option<SyncData> {
      if |syncs| == 0 then None else Some(syncs[|syncs| - 1])
    }
  }

  datatype Error = ErrSyncStorageLocked | ErrUnavailable

  // The unique index on (ruleid, engine) makes the collection a map.
  type Coll = map<Key, SyncInfo>

  const LOG_SIZE := 10
  const DEFAULT_LOCK_EXPIRE: Duration := 5 * MINUTE

  /** The last n elements of s, or all of s when it is shorter. */
  function LastN<T>(n: nat, s: seq<T>): seq<T> {
    if |s| <= n then s else s[|s| - n..]
  }

  /** The log of a key, which is empty while it has no record. */
  function LogOf(c: Coll, key: Key): seq<SyncData> {
    if key in c then c[key].syncs else []
  }

  /** How long a record must have been silent before a start may take it over. */
  function Wait(running: bool, after: Duration, lockExpire: Duration): Duration {
    if running then Max(lockExpire, after) else after
  }

  /** The two-armed guard of a start that is not forced. */
  predicate Admits(r: SyncInfo, now: Time, after: Duration, lockExpire: Duration) {
    || (!r.running && r.pingTime < Stored(now - after))
    || (r.running && r.pingTime < Stored(now - Max(lockExpire, after)))
  }

  predicate Grants(c: Coll, key: Key, now: Time, after: Duration, lockExpire: Duration, force: bool) {
    key in c && !force ==> Admits(c[key], now, after, lockExpire)
  }

  /** The record after a granted start; the id is set only when it is inserted. */
  function Restarted(c: Coll, key: Key, now: Time, newID: string): SyncInfo {
    if key in c then
      c[key].(startTime := Stored(now), pingTime := Stored(now), running := true)
    else
      SyncInfo(newID, key.ruleID, key.engine, Stored(now), None, Stored(now), true, [])
  }

  function StartColl(c: Coll, key: Key, now: Time, after: Duration, lockExpire: Duration, force: bool, newID: string): Coll {
    if Grants(c, key, now, after, lockExpire, force) then c[key := Restarted(c, key, now, newID)] else c
  }

  function Members(ids: seq<string>): set<string> {
    set id | id in ids
  }

  function PingColl(c: Coll, ids: set<string>, now: Time): Coll {
    map k | k in c :: if c[k].syncID in ids then c[k].(pingTime := Stored(now)) else c[k]
  }

  /** An entry of the log as the store keeps it. */
  function Kept(d: SyncData): SyncData {
    d.(startTime := Stored(d.startTime), endTime := Stored(d.endTime))
  }

  /** Ending addresses the record by rule and engine, whoever holds it. */
  function EndColl(c: Coll, key: Key, now: Time, data: SyncData): Coll {
    if key in c then
      c[key := c[key].(running := false, pingTime := Stored(now), endTime := Some(Stored(now)),
                       syncs := LastN(LOG_SIZE, c[key].syncs + [Kept(data)]))]
    else c
  }

  /** What a refused start answers: the rest of the wait of an idle record, or
      the whole interval when the record is running. */
  function NextAfterRefusal(c: Coll, key: Key, after: Duration, now: Time): Duration {
    if key in c && !c[key].running then after - (now - c[key].pingTime) else after
  }

  class SyncStorage {
    var lockExpireTime: Duration
    var coll: Coll

    constructor ()
      ensures coll == map[] && lockExpireTime == 300_000_000_000
    {
      coll := map[];
      lockExpireTime := DEFAULT_LOCK_EXPIRE;
    }

    method SetLockExpireTime(timeout: Duration) returns (previous: Duration)
      modifies this`lockExpireTime
      ensures previous == old(lockExpireTime) && lockExpireTime == timeout
    {
      previous := lockExpireTime;
      lockExpireTime := timeout;
    }

    /** now and later are the two clock readings; newID is a fresh object id. */
    method StartSync(after: Duration, ruleID: string, engine: string, force: bool,
                     now: Time, later: Time, newID: string)
      returns (next: Duration, r: Result<SyncInfo, Error>)
      modifies this`coll
      ensures coll == StartColl(old(coll), Key(ruleID, engine), now, after, lockExpireTime, force, newID)
      ensures r.Ok? <==> Grants(old(coll), Key(ruleID, engine), now, after, lockExpireTime, force)
      ensures r.Ok? ==> Key(ruleID, engine) in coll && r.value == coll[Key(ruleID, engine)] && next == after
      ensures r.Err? ==> r.error == ErrSyncStorageLocked
      ensures r.Err? ==> next == NextAfterRefusal(old(coll), Key(ruleID, engine), after, later)
      // The same in full.
      ensures r.Ok? <==>
              || force || Key(ruleID, engine) !in old(coll)
              || (var doc := old(coll)[Key(ruleID, engine)];
                  if !doc.running then doc.pingTime < Stored(now - after)
                  else doc.pingTime < Stored(now - after) && doc.pingTime < Stored(now - lockExpireTime))
      ensures r.Ok? && Key(ruleID, engine) in old(coll) ==>
                coll == old(coll)[Key(ruleID, engine) := old(coll)[Key(ruleID, engine)].(
                          startTime := Stored(now), pingTime := Stored(now), running := true)]
      ensures r.Ok? && Key(ruleID, engine) !in old(coll) ==>
                coll == old(coll)[Key(ruleID, engine) :=
                          SyncInfo(newID, ruleID, engine, Stored(now), None, Stored(now), true, [])]
      ensures r.Err? ==> coll == old(coll) && Key(ruleID, engine) in coll
      ensures r.Err? && coll[Key(ruleID, engine)].running ==> next == after
      ensures r.Err? && !coll[Key(ruleID, engine)].running ==> next == after - later + coll[Key(ruleID, engine)].pingTime
    {
      var key := Key(ruleID, engine);
      var expireTime := lockExpireTime;
      if after > expireTime {
        expireTime := after;
      }
      var matched := key in coll;
      if matched && !force {
        var doc := coll[key];
        matched := (doc.pingTime < Stored(now - after) && !doc.running)
                || (doc.pingTime < Stored(now - expireTime) && doc.running);
      }
      next := after;
      if !matched && key in coll {
        // The upsert tries to insert and meets the unique index.
        var found := coll[key];
        if !found.running {
          next := after - (later - found.pingTime);
        }
        return next, Err(ErrSyncStorageLocked);
      }
      if matched {
        coll := coll[key := coll[key].(startTime := Stored(now), pingTime := Stored(now), running := true)];
      } else {
        coll := coll[key := SyncInfo(newID, ruleID, engine, Stored(now), None, Stored(now), true, [])];
      }
      r := Ok(coll[key]);
    }

    method PingSyncs(ruleSyncIDs: seq<string>, now: Time)
      modifies this`coll
      ensures coll == PingColl(old(coll), Members(ruleSyncIDs), now)
      // The same in full.
      ensures coll.Keys == old(coll).Keys
      ensures forall k :: k in coll && old(coll)[k].syncID in ruleSyncIDs ==> coll[k] == old(coll)[k].(pingTime := Stored(now))
      ensures forall k :: k in coll && old(coll)[k].syncID !in ruleSyncIDs ==> coll[k] == old(coll)[k]
    {
      coll := map k | k in coll :: if coll[k].syncID in ruleSyncIDs then coll[k].(pingTime := Stored(now)) else coll[k];
    }

    method EndSync(ruleSync: SyncInfo, syncData: SyncData, now: Time)
      modifies this`coll
      ensures coll == EndColl(old(coll), Key(ruleSync.ruleID, ruleSync.engine), now, syncData)
      // The same in full.
      ensures coll.Keys == old(coll).Keys
      ensures forall k :: k in coll && k != Key(ruleSync.ruleID, ruleSync.engine) ==> coll[k] == old(coll)[k]
      ensures Key(ruleSync.ruleID, ruleSync.engine) in coll ==>
                var was, doc := old(coll)[Key(ruleSync.ruleID, ruleSync.engine)], coll[Key(ruleSync.ruleID, ruleSync.engine)];
                var pushed := was.syncs + [syncData.(startTime := Stored(syncData.startTime), endTime := Stored(syncData.endTime))];
                && doc == was.(running := false, pingTime := Stored(now), endTime := Some(Stored(now)), syncs := doc.syncs)
                && |doc.syncs| == (if |pushed| > 10 then 10 else |pushed|)
                && doc.syncs == pushed[|pushed| - |doc.syncs|..]
    {
      var key := Key(ruleSync.ruleID, ruleSync.engine);
      if key in coll {
        var doc := coll[key];
        var pushed := doc.syncs + [Kept(syncData)];
        if |pushed| > LOG_SIZE {
          pushed := pushed[|pushed| - LOG_SIZE..];
        }
        coll := coll[key := doc.(running := false, pingTime := Stored(now), endTime := Some(Stored(now)), syncs := pushed)];
      }
    }
  }
}
