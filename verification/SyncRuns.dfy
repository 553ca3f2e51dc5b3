/** What holds over every run of operations on the synchronization records,
    whichever processes issue them and in whatever order. */
module SyncRuns {
  import opened Basics
  import opened Clock
  import opened SyncStore

  datatype Op =
    | StartOp(now: Time, key: Key, after: Duration, lockExpire: Duration, force: bool, newID: string)
    | PingOp(now: Time, ids: set<string>)
    | EndOp(now: Time, key: Key, data: SyncData)

  function Apply(c: Coll, op: Op): Coll {
    match op
    case StartOp(now, key, after, lockExpire, force, newID) => StartColl(c, key, now, after, lockExpire, force, newID)
    case PingOp(now, ids) => PingColl(c, ids, now)
    case EndOp(now, key, data) => EndColl(c, key, now, data)
  }

  function Run(c: Coll, ops: seq<Op>): Coll {
    if ops == [] then c else Apply(Run(c, ops[..|ops| - 1]), ops[|ops| - 1])
  }

  /** A run in full: every operation is carried out, on what those before it left. */
  lemma RunInOrder(c: Coll, ops: seq<Op>, i: nat)
    requires i < |ops|
    ensures Run(c, ops[..0]) == c && Run(c, ops[..|ops|]) == Run(c, ops)
    ensures match ops[i]
            case StartOp(now, key, after, lockExpire, force, newID) =>
              Run(c, ops[..i + 1]) == StartColl(Run(c, ops[..i]), key, now, after, lockExpire, force, newID)
            case PingOp(now, ids) => Run(c, ops[..i + 1]) == PingColl(Run(c, ops[..i]), ids, now)
            case EndOp(now, key, data) => Run(c, ops[..i + 1]) == EndColl(Run(c, ops[..i]), key, now, data)
  {
    assert ops[..i + 1][..i] == ops[..i] && ops[..|ops|] == ops;
  }

  /** An operation reads its clock before the store applies it, so readings may
      come in the wrong order, but no reading is older than an earlier one by more
      than the lag. */
  ghost predicate WithinLag(ops: seq<Op>, lag: Duration) {
    0 <= lag && forall i, j :: 0 <= i <= j < |ops| ==> ops[i].now <= ops[j].now + lag
  }

  predicate GrantedStart(c: Coll, op: Op, key: Key) {
    op.StartOp? && op.key == key && Grants(c, key, op.now, op.after, op.lockExpire, op.force)
  }

  // ---------------------------------------------------------------- log

  /** Every entry ever reported for the key since its record exists. */
  function History(ops: seq<Op>, key: Key): seq<SyncData> {
    if ops == [] then []
    else
      var before, op := ops[..|ops| - 1], ops[|ops| - 1];
      History(before, key) + (if Appends(Run(map[], before), op, key) then [Kept(op.data)] else [])
  }

  lemma LastNPush<T>(n: nat, h: seq<T>, x: T)
    requires n > 0
    ensures LastN(n, LastN(n, h) + [x]) == LastN(n, h + [x])
  {
  }

  predicate Appends(c: Coll, op: Op, key: Key) {
    op.EndOp? && op.key == key && key in c
  }

  lemma ApplyToLog(c: Coll, op: Op, key: Key)
    ensures LogOf(Apply(c, op), key)
         == if Appends(c, op, key) then LastN(LOG_SIZE, LogOf(c, key) + [Kept(op.data)]) else LogOf(c, key)
  {
  }

  /** The operations that ended a sync of the key, by their positions. */
  ghost predicate EndsAt(ops: seq<Op>, key: Key, i: nat)
    requires i < |ops|
  {
    ops[i].EndOp? && ops[i].key == key && key in Run(map[], ops[..i])
  }

  /** The history in full: one entry for each end of the key that found its record,
      in their order, as it was reported, with its instants as the store keeps them. */
  lemma {:induction false} HistoryIsTheEnds(ops: seq<Op>, key: Key) returns (at: seq<nat>)
    ensures |at| == |History(ops, key)|
    ensures forall m, n :: 0 <= m < n < |at| ==> at[m] < at[n]
    ensures forall m :: 0 <= m < |at| ==>
              && at[m] < |ops| && EndsAt(ops, key, at[m])
              && History(ops, key)[m] == ops[at[m]].data.(
                   startTime := Stored(ops[at[m]].data.startTime), endTime := Stored(ops[at[m]].data.endTime))
    ensures forall i: nat :: i < |ops| && EndsAt(ops, key, i) ==> i in at
  {
    if ops == [] {
      at := [];
    } else {
      var n := |ops| - 1;
      var before := ops[..n];
      at := HistoryIsTheEnds(before, key);
      forall i: nat | i < n ensures EndsAt(before, key, i) <==> EndsAt(ops, key, i) {
        assert before[..i] == ops[..i];
      }
      if EndsAt(ops, key, n) {
        at := at + [n];
      }
    }
  }

  /** The stored log is a window of at most ten entries on the unbounded history. */
  lemma {:induction false} LogIsHistoryWindow(ops: seq<Op>, key: Key)
    ensures LogOf(Run(map[], ops), key) == LastN(LOG_SIZE, History(ops, key))
    ensures var log, h := LogOf(Run(map[], ops), key), History(ops, key);
            |log| == (if |h| > 10 then 10 else |h|) && log == h[|h| - |log|..]
  {
    if ops != [] {
      var before, op := ops[..|ops| - 1], ops[|ops| - 1];
      LogIsHistoryWindow(before, key);
      ApplyToLog(Run(map[], before), op, key);
      if Appends(Run(map[], before), op, key) {
        LastNPush(LOG_SIZE, History(before, key), Kept(op.data));
      } else {
        assert History(ops, key) == History(before, key) + [] == History(before, key);
      }
    }
  }

  lemma LatestOfWindow(r: SyncInfo, h: seq<SyncData>)
    requires r.syncs == LastN(LOG_SIZE, h)
    ensures r.LatestSync() == if h == [] then None else Some(h[|h| - 1])
  {
  }

  /** The latest entry of a record is the latest of its whole history. */
  lemma LatestSyncIsLatestOfHistory(ops: seq<Op>, key: Key)
    requires key in Run(map[], ops)
    ensures var h := History(ops, key);
            Run(map[], ops)[key].LatestSync() == (if h == [] then None else Some(h[|h| - 1]))
  {
    LogIsHistoryWindow(ops, key);
    LatestOfWindow(Run(map[], ops)[key], History(ops, key));
  }

  // ---------------------------------------------------------------- holders

  predicate Changed(c: Coll, op: Op, key: Key) {
    GrantedStart(c, op, key) || Appends(c, op, key)
  }

  /** The operations that changed who holds the record of the key: the granted
      starts, and the ends that found it. */
  function Changes(ops: seq<Op>, key: Key): seq<Op> {
    if ops == [] then []
    else
      var before, op := ops[..|ops| - 1], ops[|ops| - 1];
      var c := Run(map[], before);
      Changes(before, key) + (if Changed(c, op, key) then [op] else [])
  }

  function LastStart(changes: seq<Op>): Option<Time> {
    if changes == [] then None
    else if changes[|changes| - 1].StartOp? then Some(Stored(changes[|changes| - 1].now))
    else LastStart(changes[..|changes| - 1])
  }

  function LastEnd(changes: seq<Op>): Option<Time> {
    if changes == [] then None
    else if changes[|changes| - 1].EndOp? then Some(Stored(changes[|changes| - 1].now))
    else LastEnd(changes[..|changes| - 1])
  }

  /** What the record says of the changes it went through. */
  predicate Tells(c: Coll, key: Key, changes: seq<Op>) {
    && (key in c <==> changes != [])
    && (key in c ==>
          && changes[0].StartOp? && c[key].syncID == changes[0].newID
          && (c[key].running <==> changes[|changes| - 1].StartOp?)
          && Some(c[key].startTime) == LastStart(changes)
          && c[key].endTime == LastEnd(changes))
  }

  lemma TellsStep(c: Coll, op: Op, key: Key, changes: seq<Op>)
    requires Tells(c, key, changes)
    ensures Tells(Apply(c, op), key, if Changed(c, op, key) then changes + [op] else changes)
  {
    if Changed(c, op, key) {
      assert (changes + [op])[..|changes|] == changes;
    }
  }

  /** A record says of its history: it exists since its first granted start, whose
      id it carries; it runs exactly when its last change was a start; and it has
      the instants of its last start and its last end. */
  lemma {:induction false} RecordTellsItsHistory(ops: seq<Op>, key: Key)
    ensures Tells(Run(map[], ops), key, Changes(ops, key))
  {
    if ops != [] {
      var before, op := ops[..|ops| - 1], ops[|ops| - 1];
      RecordTellsItsHistory(before, key);
      TellsStep(Run(map[], before), op, key, Changes(before, key));
      assert Changes(before, key) + [] == Changes(before, key);
    }
  }

  // ---------------------------------------------------------------- identity

  /** A record keeps its id for ever: every later holder shares it. */
  lemma {:induction false} SyncIDNeverChanges(c: Coll, ops: seq<Op>, key: Key)
    requires key in c
    ensures key in Run(c, ops) && Run(c, ops)[key].syncID == c[key].syncID
  {
    if ops != [] {
      SyncIDNeverChanges(c, ops[..|ops| - 1], key);
    }
  }

  // ---------------------------------------------------------------- ping floor

  /** Whatever an operation does, it leaves no ping older than the older of what
      was there and its own reading. */
  lemma ApplyKeepsFloor(c: Coll, op: Op, key: Key, floor: Time)
    requires key in c && c[key].pingTime >= Stored(floor) && floor <= op.now
    ensures key in Apply(c, op) && Apply(c, op)[key].pingTime >= Stored(floor)
    ensures Apply(c, op)[key].syncID == c[key].syncID
  {
    StoredMonotone(floor, op.now);
  }

  lemma ApplyPing(c: Coll, op: Op, key: Key)
    requires key in c && op.PingOp? && c[key].syncID in op.ids
    ensures key in Apply(c, op) && Apply(c, op)[key] == c[key].(pingTime := Stored(op.now))
  {
  }

  // ---------------------------------------------------------------- start rate

  predicate Counts(c: Coll, op: Op, key: Key, after: Duration) {
    GrantedStart(c, op, key) && !op.force && op.after >= after
  }

  /** When the unforced starts of key with an interval of at least `after` were granted. */
  function GrantTimes(ops: seq<Op>, key: Key, after: Duration): seq<Time> {
    if ops == [] then []
    else
      var before, op := ops[..|ops| - 1], ops[|ops| - 1];
      GrantTimes(before, key, after)
      + (if Counts(Run(map[], before), op, key, after) then [op.now] else [])
  }

  ghost predicate Spaced(times: seq<Time>, after: Duration) {
    forall i :: 0 <= i < |times| - 1 ==> times[i] + after < times[i + 1]
  }

  lemma GrantAfterFloor(c: Coll, op: Op, key: Key, after: Duration, floor: Time)
    requires GrantedStart(c, op, key) && !op.force && op.after >= after
    requires key in c && c[key].pingTime >= Stored(floor)
    ensures floor + after < op.now
  {
    StoredBefore(floor, op.now - Wait(c[key].running, op.after, op.lockExpire));
  }

  lemma ApplyGrant(c: Coll, op: Op, key: Key)
    requires GrantedStart(c, op, key)
    ensures key in Apply(c, op) && Apply(c, op)[key].pingTime == Stored(op.now)
  {
  }

  ghost predicate IsReading(ops: seq<Op>, t: Time) {
    exists i :: 0 <= i < |ops| && ops[i].now == t
  }

  /** Since the last granted start the ping of the record is above it, less the lag. */
  ghost predicate Floored(c: Coll, key: Key, g: seq<Time>, lag: Duration) {
    g != [] ==> key in c && c[key].pingTime >= Stored(g[|g| - 1] - lag)
  }

  lemma GrantStep(c: Coll, op: Op, key: Key, after: Duration, lag: Duration, g: seq<Time>)
    requires 0 <= lag && Spaced(g, after - lag) && Floored(c, key, g, lag)
    requires g != [] ==> g[|g| - 1] - lag <= op.now
    ensures var g' := if Counts(c, op, key, after) then g + [op.now] else g;
            Spaced(g', after - lag) && Floored(Apply(c, op), key, g', lag)
  {
    if Counts(c, op, key, after) {
      ApplyGrant(c, op, key);
      StoredMonotone(op.now - lag, op.now);
      if g != [] {
        GrantAfterFloor(c, op, key, after, g[|g| - 1] - lag);
      }
    } else if g != [] {
      ApplyKeepsFloor(c, op, key, g[|g| - 1] - lag);
    }
  }

  /** The newest operation is at most the lag older than any reading before it. */
  lemma ReadingIsWithinLag(ops: seq<Op>, t: Time, lag: Duration)
    requires WithinLag(ops, lag) && ops != [] && IsReading(ops[..|ops| - 1], t)
    ensures IsReading(ops, t) && t - lag <= ops[|ops| - 1].now
  {
    var i :| 0 <= i < |ops| - 1 && ops[..|ops| - 1][i].now == t;
    assert ops[i].now == t;
  }

  lemma {:induction false} GrantTimesAreReadings(ops: seq<Op>, key: Key, after: Duration)
    ensures forall t :: t in GrantTimes(ops, key, after) ==> IsReading(ops, t)
  {
    if ops != [] {
      var before := ops[..|ops| - 1];
      GrantTimesAreReadings(before, key, after);
      forall t | t in GrantTimes(ops, key, after) ensures IsReading(ops, t) {
        if t in GrantTimes(before, key, after) {
          var i :| 0 <= i < |before| && before[i].now == t;
          assert ops[i].now == t;
        } else {
          assert ops[|ops| - 1].now == t;
        }
      }
    }
  }

  /** Every unforced grant with at least this interval is counted. */
  lemma {:induction false} EveryGrantIsCounted(ops: seq<Op>, key: Key, after: Duration, i: nat)
    requires i < |ops| && ops[i].StartOp? && ops[i].key == key && !ops[i].force && ops[i].after >= after
    requires Grants(Run(map[], ops[..i]), key, ops[i].now, ops[i].after, ops[i].lockExpire, false)
    ensures ops[i].now in GrantTimes(ops, key, after)
  {
    var before := ops[..|ops| - 1];
    if i < |ops| - 1 {
      assert before[..i] == ops[..i];
      EveryGrantIsCounted(before, key, after, i);
    }
  }

  /** Unforced starts are more than `after` less the lag apart, whatever forced
      starts, late ends, pings and crashes come in between; with operations applied
      in the order of their readings that is more than `after`. */
  lemma {:induction false} StartsAreSpaced(ops: seq<Op>, key: Key, after: Duration, lag: Duration)
    requires WithinLag(ops, lag)
    ensures Spaced(GrantTimes(ops, key, after), after - lag)
    ensures Floored(Run(map[], ops), key, GrantTimes(ops, key, after), lag)
  {
    if ops != [] {
      var before := ops[..|ops| - 1];
      var g := GrantTimes(before, key, after);
      StartsAreSpaced(before, key, after, lag);
      if g != [] {
        GrantTimesAreReadings(before, key, after);
        ReadingIsWithinLag(ops, g[|g| - 1], lag);
      }
      GrantStep(Run(map[], before), ops[|ops| - 1], key, after, lag, g);
      assert g + [] == g;
    }
  }

  /** The last nanosecond of a millisecond, less the lag past a takeover of a
      record last pinged at 0. */
  function TakeoverTime(after: Duration, lockExpire: Duration, lag: Duration): Time {
    (Max(lockExpire, after) + 1) * MILLI + MILLI - 1 + lag
  }

  /** A starts and goes silent; B takes over; A's end, for which it read the clock
      before, is applied only now; C starts as soon as it can. */
  function LateEnd(key: Key, data: SyncData, after: Duration, lockExpire: Duration, lag: Duration): seq<Op> {
    var t := TakeoverTime(after, lockExpire, lag);
    [StartOp(0, key, after, lockExpire, false, "a"), StartOp(t, key, after, lockExpire, false, "b"),
     EndOp(t - lag, key, data), StartOp(t - lag + 1 + after, key, after, lockExpire, false, "c")]
  }

  /** The record after each operation of that run. */
  lemma LateEndStates(key: Key, data: SyncData, after: Duration, lockExpire: Duration, lag: Duration)
    requires 0 <= lag && 0 <= after
    ensures var ops, t := LateEnd(key, data, after, lockExpire, lag), TakeoverTime(after, lockExpire, lag);
            && Run(map[], ops[..0]) == map[]
            && (var c := Run(map[], ops[..1]); key in c && c[key].running && c[key].pingTime == 0)
            && (var c := Run(map[], ops[..2]); key in c && c[key].running)
            && (var c := Run(map[], ops[..3]); key in c && !c[key].running && c[key].pingTime == Stored(t - lag))
  {
    var ops, t := LateEnd(key, data, after, lockExpire, lag), TakeoverTime(after, lockExpire, lag);
    assert ops[..1][..0] == ops[..0] && ops[..2][..1] == ops[..1] && ops[..3][..2] == ops[..2];
  }

  lemma GrantTimesPush(ops: seq<Op>, key: Key, after: Duration, k: nat)
    requires k < |ops|
    ensures GrantTimes(ops[..k + 1], key, after) == GrantTimes(ops[..k], key, after)
              + (if Counts(Run(map[], ops[..k]), ops[k], key, after) then [ops[k].now] else [])
  {
    assert ops[..k + 1][..k] == ops[..k];
  }

  /** Any two starts, whatever comes between them: when the later one is unforced,
      its clock reading is past the other's by more than its interval less the lag,
      even if the earlier one was forced. */
  lemma AnyTwoStartsAreApart(ops: seq<Op>, key: Key, lag: Duration, i: nat, j: nat)
    requires WithinLag(ops, lag) && i < j < |ops|
    requires GrantedStart(Run(map[], ops[..i]), ops[i], key)
    requires GrantedStart(Run(map[], ops[..j]), ops[j], key) && !ops[j].force
    ensures ops[i].now + ops[j].after - lag < ops[j].now
  {
    FloorSinceStart(ops, key, lag, i, j);
    GrantAfterFloor(Run(map[], ops[..j]), ops[j], key, ops[j].after, ops[i].now - lag);
  }

  lemma {:induction false} FloorSinceStart(ops: seq<Op>, key: Key, lag: Duration, i: nat, j: nat)
    requires WithinLag(ops, lag) && i < j < |ops|
    requires GrantedStart(Run(map[], ops[..i]), ops[i], key)
    ensures var c := Run(map[], ops[..j]);
            key in c && c[key].pingTime >= Stored(ops[i].now - lag)
  {
    assert ops[..j][..j - 1] == ops[..j - 1];
    if i == j - 1 {
      ApplyGrant(Run(map[], ops[..i]), ops[i], key);
      StoredMonotone(ops[i].now - lag, ops[i].now);
    } else {
      FloorSinceStart(ops, key, lag, i, j - 1);
      ApplyKeepsFloor(Run(map[], ops[..j - 1]), ops[j - 1], key, ops[i].now - lag);
    }
  }

  /** The lag does shorten the spacing: the last two starts of that run are apart
      by the interval less the lag, and a nanosecond. */
  lemma LagShortensTheSpacing(key: Key, data: SyncData, after: Duration, lockExpire: Duration, lag: Duration)
    requires 0 <= lag && 0 <= after
    ensures var ops, t := LateEnd(key, data, after, lockExpire, lag), TakeoverTime(after, lockExpire, lag);
            && WithinLag(ops, lag)
            && GrantTimes(ops, key, after) == [0, t, t - lag + 1 + after]
  {
    var ops, t := LateEnd(key, data, after, lockExpire, lag), TakeoverTime(after, lockExpire, lag);
    LateEndStates(key, data, after, lockExpire, lag);
    assert t - Max(lockExpire, after) >= MILLI;
    StoredBefore(0, t - Max(lockExpire, after));
    assert Stored(t - lag) == t - lag - (MILLI - 1);
    StoredBefore(t - lag, t - lag + 1);
    GrantTimesPush(ops, key, after, 0);
    GrantTimesPush(ops, key, after, 1);
    GrantTimesPush(ops, key, after, 2);
    GrantTimesPush(ops, key, after, 3);
    assert GrantTimes(ops[..0], key, after) == [];
    assert ops[..4] == ops;
  }

  lemma SpacedByLess(times: seq<Time>, more: Duration, less: Duration)
    requires Spaced(times, more) && less <= more
    ensures Spaced(times, less)
  {
  }

  /** The exact spacing: unforced starts are more than a gap apart in every run
      within the lag if and only if the gap is at most the interval less the lag. */
  lemma SpacingUnderLagIff(key: Key, after: Duration, lag: Duration, gap: Duration)
    requires 0 <= lag && 0 <= after
    ensures (forall ops :: WithinLag(ops, lag) ==> Spaced(GrantTimes(ops, key, after), gap)) <==> gap <= after - lag
  {
    if gap <= after - lag {
      forall ops | WithinLag(ops, lag) ensures Spaced(GrantTimes(ops, key, after), gap) {
        StartsAreSpaced(ops, key, after, lag);
        SpacedByLess(GrantTimes(ops, key, after), after - lag, gap);
      }
    } else {
      var data := SyncData(0, 0, true, false, "", "");
      var ops := LateEnd(key, data, after, DEFAULT_LOCK_EXPIRE, lag);
      LagShortensTheSpacing(key, data, after, DEFAULT_LOCK_EXPIRE, lag);
      var g := GrantTimes(ops, key, after);
      assert !(g[1] + gap < g[1 + 1]);
      assert !Spaced(g, gap);
    }
  }

  lemma {:induction false} SpacedWindow(times: seq<Time>, after: Duration)
    requires Spaced(times, after) && |times| >= 2
    ensures (|times| - 1) * after < times[|times| - 1] - times[0]
  {
    var n := |times|;
    if n > 2 {
      SpacedWindow(times[..n - 1], after);
      assert times[n - 2] + after < times[n - 1];
      assert (n - 1) * after == (n - 2) * after + after;
    }
  }

  /** Any k granted starts span more than (k - 1) intervals, each less the lag. */
  lemma StartRateBound(ops: seq<Op>, key: Key, after: Duration, lag: Duration, i: nat, j: nat)
    requires WithinLag(ops, lag)
    requires i < j < |GrantTimes(ops, key, after)|
    ensures (j - i) * (after - lag) < GrantTimes(ops, key, after)[j] - GrantTimes(ops, key, after)[i]
  {
    StartsAreSpaced(ops, key, after, lag);
    SpacedWindow(GrantTimes(ops, key, after)[i..j + 1], after - lag);
  }

  // ---------------------------------------------------------------- stale ends

  /** The last time at or after h at which id was pinged. */
  function LastPing(ops: seq<Op>, id: string, h: Time): Time {
    if ops == [] then h
    else
      var op := ops[|ops| - 1];
      if op.PingOp? && id in op.ids then op.now else LastPing(ops[..|ops| - 1], id, h)
  }

  /** At every operation the id was pinged no longer than gap before. */
  ghost predicate KeptAlive(ops: seq<Op>, id: string, h: Time, gap: Duration) {
    forall i :: 0 <= i < |ops| ==> ops[i].now - LastPing(ops[..i], id, h) <= gap
  }

  lemma {:induction false} LastPingIsReading(ops: seq<Op>, id: string, h: Time)
    ensures LastPing(ops, id, h) == h || IsReading(ops, LastPing(ops, id, h))
  {
    if ops != [] {
      var before, op := ops[..|ops| - 1], ops[|ops| - 1];
      if op.PingOp? && id in op.ids {
        assert ops[|ops| - 1].now == op.now;
      } else {
        LastPingIsReading(before, id, h);
        if i :| 0 <= i < |before| && before[i].now == LastPing(before, id, h) {
          assert ops[i].now == LastPing(ops, id, h);
        }
      }
    }
  }

  lemma LastPingWithinLag(ops: seq<Op>, id: string, h: Time, lag: Duration)
    requires ops != [] && WithinLag(ops, lag) && h <= ops[|ops| - 1].now + lag
    ensures LastPing(ops[..|ops| - 1], id, h) - lag <= ops[|ops| - 1].now
  {
    var before := ops[..|ops| - 1];
    LastPingIsReading(before, id, h);
    if IsReading(before, LastPing(before, id, h)) {
      ReadingIsWithinLag(ops, LastPing(before, id, h), lag);
    }
  }

  /** The last operation keeps the ping of the record above its last ping less the lag. */
  lemma PingFloorStep(c: Coll, ops: seq<Op>, key: Key, h: Time, lag: Duration)
    requires ops != [] && WithinLag(ops, lag) && h <= ops[|ops| - 1].now + lag && key in c
    requires c[key].pingTime >= Stored(LastPing(ops[..|ops| - 1], c[key].syncID, h) - lag)
    ensures var c' := Apply(c, ops[|ops| - 1]);
            && key in c' && c'[key].syncID == c[key].syncID
            && c'[key].pingTime >= Stored(LastPing(ops, c[key].syncID, h) - lag)
  {
    var op, id := ops[|ops| - 1], c[key].syncID;
    if op.PingOp? && id in op.ids {
      ApplyPing(c, op, key);
      StoredMonotone(op.now - lag, op.now);
    } else {
      LastPingWithinLag(ops, id, h, lag);
      ApplyKeepsFloor(c, op, key, LastPing(ops[..|ops| - 1], id, h) - lag);
    }
  }

  lemma {:induction false} PingFloor(c: Coll, ops: seq<Op>, key: Key, h: Time, lag: Duration)
    requires key in c && c[key].pingTime >= Stored(h)
    requires WithinLag(ops, lag) && forall i :: 0 <= i < |ops| ==> h <= ops[i].now + lag
    ensures key in Run(c, ops) && Run(c, ops)[key].syncID == c[key].syncID
    ensures Run(c, ops)[key].pingTime >= Stored(LastPing(ops, c[key].syncID, h) - lag)
  {
    if ops == [] {
      StoredMonotone(h - lag, h);
    } else {
      PingFloor(c, ops[..|ops| - 1], key, h, lag);
      PingFloorStep(Run(c, ops[..|ops| - 1]), ops, key, h, lag);
    }
  }

  lemma FloorRefuses(c: Coll, op: Op, key: Key, floor: Time)
    requires key in c && c[key].pingTime >= Stored(floor)
    requires op.StartOp? && op.key == key && !op.force && op.now - op.after <= floor
    ensures !GrantedStart(c, op, key)
  {
    StoredMonotone(op.now - op.after, floor);
    StoredMonotone(op.now - Max(op.lockExpire, op.after), floor);
  }

  /** An end carries no holder token, so a late one can mark a live holder's
      record idle. Still, while the holder's id is pinged with gaps of at most
      `gap`, no unforced start is granted whose interval is at least `gap` and the lag. */
  lemma StaleEndsAreTolerated(c: Coll, ops: seq<Op>, key: Key, h: Time, gap: Duration, lag: Duration, i: nat)
    requires key in c && c[key].pingTime >= Stored(h)
    requires WithinLag(ops, lag) && forall k :: 0 <= k < |ops| ==> h <= ops[k].now + lag
    requires KeptAlive(ops, c[key].syncID, h, gap)
    requires i < |ops| && ops[i].StartOp? && ops[i].key == key && !ops[i].force && ops[i].after >= gap + lag
    ensures !GrantedStart(Run(c, ops[..i]), ops[i], key)
  {
    PingFloor(c, ops[..i], key, h, lag);
    FloorRefuses(Run(c, ops[..i]), ops[i], key, LastPing(ops[..i], c[key].syncID, h) - lag);
  }

  // ---------------------------------------------------------------- waiting

  lemma {:induction false} PingsAreWhole(ops: seq<Op>, key: Key)
    requires key in Run(map[], ops)
    ensures Stored(Run(map[], ops)[key].pingTime) == Run(map[], ops)[key].pingTime
  {
    if ops != [] {
      var before, op := ops[..|ops| - 1], ops[|ops| - 1];
      if key in Run(map[], before) {
        PingsAreWhole(before, key);
      }
      StoredIdempotent(op.now);
    }
  }

  /** No lock is stuck: left alone, a record admits an unforced start from one
      definite instant on, and at no time before it. */
  lemma ExactWait(ops: seq<Op>, key: Key, t: Time, after: Duration, lockExpire: Duration)
    requires key in Run(map[], ops)
    ensures var r := Run(map[], ops)[key];
            Admits(r, t, after, lockExpire) <==> r.pingTime + Wait(r.running, after, lockExpire) + MILLI <= t
  {
    PingsAreWhole(ops, key);
    var r := Run(map[], ops)[key];
    StoredBefore(r.pingTime, t - Wait(r.running, after, lockExpire));
  }

  /** The wait announced by a refusal. For an idle record, with both clock reads
      at one instant, a retry is granted from one millisecond after `now + next`
      on and refused before; for a running record the answer says nothing. */
  lemma AnnouncedWait(ops: seq<Op>, key: Key, now: Time, t: Time, after: Duration, lockExpire: Duration)
    requires key in Run(map[], ops) && !Run(map[], ops)[key].running
    requires !Grants(Run(map[], ops), key, now, after, lockExpire, false)
    ensures var next := NextAfterRefusal(Run(map[], ops), key, after, now);
            && Grants(Run(map[], ops), key, t, after, lockExpire, false) <==> now + next + MILLI <= t
  {
    ExactWait(ops, key, t, after, lockExpire);
  }

  /** Ending restarts the wait: the next unforced start is granted from exactly
      one interval after the end on, however long the sync itself took. */
  lemma EndRestartsTheWait(c: Coll, key: Key, now: Time, data: SyncData, t: Time, after: Duration, lockExpire: Duration)
    requires key in c
    ensures Grants(EndColl(c, key, now, data), key, t, after, lockExpire, false) <==> Stored(now) + after + MILLI <= t
  {
    StoredBefore(now, t - after);
  }

  /** An operation that is not about a record: a start or an end of another key, or
      a ping of other ids. */
  predicate Elsewhere(op: Op, key: Key, id: string) {
    match op
    case StartOp(_, k, _, _, _, _) => k != key
    case PingOp(_, ids) => id !in ids
    case EndOp(_, k, _) => k != key
  }

  /** Such operations leave the whole record alone, idle or running. */
  lemma {:induction false} ElsewhereKeepsRecord(c: Coll, ops: seq<Op>, key: Key)
    requires key in c && forall i :: 0 <= i < |ops| ==> Elsewhere(ops[i], key, c[key].syncID)
    ensures key in Run(c, ops) && Run(c, ops)[key] == c[key]
  {
    if ops != [] {
      ElsewhereKeepsRecord(c, ops[..|ops| - 1], key);
    }
  }

  /** So, after an end, the next unforced start is granted exactly one interval
      later, whatever other rules and engines do and whichever other ids are pinged. */
  lemma OthersKeepTheWait(c: Coll, key: Key, now: Time, data: SyncData, ops: seq<Op>, t: Time, after: Duration, lockExpire: Duration)
    requires key in c && forall i :: 0 <= i < |ops| ==> Elsewhere(ops[i], key, c[key].syncID)
    ensures Grants(Run(EndColl(c, key, now, data), ops), key, t, after, lockExpire, false)
       <==> Stored(now) + after + 1_000_000 <= t
  {
    ElsewhereKeepsRecord(EndColl(c, key, now, data), ops, key);
    EndRestartsTheWait(c, key, now, data, t, after, lockExpire);
  }

  /** A granted start locks the record for the whole takeover window. */
  lemma StartLocks(c: Coll, key: Key, now: Time, newID: string, t: Time, after: Duration, lockExpire: Duration)
    requires Grants(c, key, now, after, lockExpire, false)
    ensures Grants(StartColl(c, key, now, after, lockExpire, false, newID), key, t, after, lockExpire, false)
       <==> Stored(now) + Max(lockExpire, after) + MILLI <= t
  {
    StoredBefore(now, t - Max(lockExpire, after));
  }
}
