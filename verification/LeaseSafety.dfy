/** Why the lease is safe: exclusivity makes each id set follow its holders,
    the set makes the pings happen, and the pings keep the exclusivity. */
module LeaseSafety {
  import opened Clock
  import opened SyncStore
  import opened Lease

  ghost predicate DistinctIDs(c: Coll) {
    forall k, l :: k in c && l in c && c[k].syncID == c[l].syncID ==> k == l
  }

  /** A client in flight runs in a live process and its record is running under its id. */
  ghost predicate HoldsRecord(s: State, c: Client) {
    && c.pid in s.procs
    && c.key in s.coll
    && s.coll[c.key].running
    && s.coll[c.key].syncID == c.syncID
  }

  ghost predicate Tracked(s: State, c: Client)
    requires c.pid in s.procs
  {
    c.stage.Enqueued? ==> c.syncID in s.procs[c.pid].ids
  }

  /** An instant no later than the last ping of the client's record. Until it is
      enqueued a client can afford a ping as old as the loop's wait. */
  function PingedSince(cfg: Config, s: State, c: Client): Time
    requires c.pid in s.procs
  {
    match c.stage
    case Granted(at) => at - cfg.interval - cfg.slack
    case Dequeued(at) => at - cfg.interval - cfg.slack - cfg.Age(cfg.maxFails)
    case Enqueued =>
      var p := s.procs[c.pid];
      match p.phase
      case Waiting(since) => since - cfg.Age(p.fails)
      case Pinging(woke) => woke - cfg.interval - cfg.slack - cfg.Age(p.fails)
  }

  ghost predicate Pinged(cfg: Config, s: State, c: Client)
    requires c.pid in s.procs && c.key in s.coll
  {
    s.coll[c.key].pingTime >= Stored(PingedSince(cfg, s, c))
  }

  function PhaseStart(p: Phase): Time {
    match p
    case Waiting(since) => since
    case Pinging(woke) => woke
  }

  ghost predicate ProcOK(cfg: Config, s: State, p: Proc) {
    && p.fails <= cfg.maxFails
    && PhaseStart(p.phase) <= s.now
    && ProcInTime(cfg, p, s.now)
  }

  ghost predicate ClientOK(cfg: Config, s: State, c: Client) {
    && HoldsRecord(s, c)
    && Tracked(s, c)
    && (!c.stage.Enqueued? ==> c.stage.at <= s.now)
    && ClientInTime(cfg, c, s.now)
    && Pinged(cfg, s, c)
  }

  ghost predicate Inv(cfg: Config, s: State) {
    && DistinctIDs(s.coll)
    && Exclusive(s)
    && (forall pid :: pid in s.procs ==> ProcOK(cfg, s, s.procs[pid]))
    && (forall token :: token in s.clients ==> ClientOK(cfg, s, s.clients[token]))
  }

  lemma {:induction false} AgeGrows(cfg: Config, f: nat, g: nat)
    requires cfg.Valid() && f <= g
    ensures 0 <= cfg.Age(f) <= cfg.Age(g)
  {
    if f < g {
      AgeGrows(cfg, f, g - 1);
    } else if f > 0 {
      AgeGrows(cfg, f - 1, f - 1);
    }
  }

  /** The ping of a held record is never older than the worst age. */
  lemma HolderIsFresh(cfg: Config, s: State, c: Client)
    requires cfg.Valid() && ClientOK(cfg, s, c) && ProcOK(cfg, s, s.procs[c.pid])
    ensures s.coll[c.key].pingTime >= Stored(s.now - cfg.WorstAge())
  {
    AgeGrows(cfg, 0, cfg.maxFails);
    AgeGrows(cfg, s.procs[c.pid].fails, cfg.maxFails);
    StoredMonotone(s.now - cfg.WorstAge(), PingedSince(cfg, s, c));
  }

  /** While the bound holds, nobody starts a sync that is in flight. */
  lemma StartMeansFree(cfg: Config, s: State, key: Key, reading: Time)
    requires cfg.Valid() && cfg.WorstAge() <= cfg.Window() && Inv(cfg, s)
    requires reading <= s.now && Grants(s.coll, key, reading, cfg.after, cfg.lockExpire, false)
    ensures forall token :: token in s.clients ==> s.clients[token].key != key
  {
    forall token | token in s.clients && s.clients[token].key == key
      ensures false
    {
      HolderIsFresh(cfg, s, s.clients[token]);
      StoredMonotone(reading - cfg.Window(), s.now - cfg.WorstAge());
    }
  }

  // ---------------------------------------------------------------- id sets

  predicate EnqueuedAs(c: Client, pid: nat, id: string) {
    c.pid == pid && c.syncID == id && c.stage.Enqueued?
  }

  ghost predicate HeldBy(s: State, pid: nat, id: string) {
    exists token :: token in s.clients && EnqueuedAs(s.clients[token], pid, id)
  }

  /** A process pings nothing but the ids of its enqueued clients. */
  ghost predicate OnlyHeld(s: State) {
    forall pid, id :: pid in s.procs && id in s.procs[pid].ids ==> HeldBy(s, pid, id)
  }

  lemma StepKeepsOnlyHeld(cfg: Config, s: State, step: Step)
    requires OnlyHeld(s) && Enabled(cfg, s, step)
    ensures OnlyHeld(Do(cfg, s, step))
  {
    var s' := Do(cfg, s, step);
    forall pid, id | pid in s'.procs && id in s'.procs[pid].ids ensures HeldBy(s', pid, id) {
      if step.Enqueue? && pid == s.clients[step.token].pid && id == s.clients[step.token].syncID {
        assert EnqueuedAs(s'.clients[step.token], pid, id);
      } else {
        assert HeldBy(s, pid, id);
        var token :| token in s.clients && EnqueuedAs(s.clients[token], pid, id);
        assert token in s'.clients && EnqueuedAs(s'.clients[token], pid, id);
      }
    }
  }

  // ---------------------------------------------------------------- steps

  /** A client whose process and record are untouched. */
  lemma SameClient(cfg: Config, s: State, s': State, c: Client)
    requires ClientOK(cfg, s, c) && s'.now == s.now
    requires c.pid in s'.procs && s'.procs[c.pid] == s.procs[c.pid]
    requires c.key in s'.coll && s'.coll[c.key] == s.coll[c.key]
    ensures ClientOK(cfg, s', c)
  {
  }

  lemma TickKeepsClient(cfg: Config, s: State, to: Time, c: Client)
    requires ClientOK(cfg, s, c) && s.now <= to && ClientInTime(cfg, c, to)
    ensures ClientOK(cfg, s.(now := to), c)
  {
  }

  lemma TickKeepsInv(cfg: Config, s: State, to: Time)
    requires cfg.Valid() && Inv(cfg, s) && Enabled(cfg, s, Tick(to))
    ensures Inv(cfg, Do(cfg, s, Tick(to)))
  {
    var s' := s.(now := to);
    assert s' == Do(cfg, s, Tick(to));
    forall pid | pid in s'.procs ensures ProcOK(cfg, s', s'.procs[pid]) {
      assert ProcOK(cfg, s, s.procs[pid]) && ProcInTime(cfg, s.procs[pid], to);
    }
    forall token | token in s'.clients ensures ClientOK(cfg, s', s'.clients[token]) {
      TickKeepsClient(cfg, s, to, s.clients[token]);
    }
  }

  lemma BootKeepsInv(cfg: Config, s: State, pid: nat)
    requires cfg.Valid() && Inv(cfg, s) && Enabled(cfg, s, Boot(pid))
    ensures Inv(cfg, Do(cfg, s, Boot(pid)))
  {
    var s' := Do(cfg, s, Boot(pid));
    forall token | token in s'.clients ensures ClientOK(cfg, s', s'.clients[token]) {
      SameClient(cfg, s, s', s.clients[token]);
    }
  }

  lemma CrashKeepsInv(cfg: Config, s: State, pid: nat)
    requires cfg.Valid() && Inv(cfg, s) && Enabled(cfg, s, Crash(pid))
    ensures Inv(cfg, Do(cfg, s, Crash(pid)))
  {
    var s' := Do(cfg, s, Crash(pid));
    forall token | token in s'.clients ensures ClientOK(cfg, s', s'.clients[token]) {
      SameClient(cfg, s, s', s.clients[token]);
    }
  }

  /** A change of the collection that leaves the records of all clients alone. */
  lemma CollChangeKeepsInv(cfg: Config, s: State, c: Coll)
    requires Inv(cfg, s) && DistinctIDs(c)
    requires forall token :: token in s.clients ==>
               var k := s.clients[token].key;
               k in c && k in s.coll && c[k] == s.coll[k]
    ensures Inv(cfg, s.(coll := c))
  {
    var s' := s.(coll := c);
    forall token | token in s'.clients ensures ClientOK(cfg, s', s'.clients[token]) {
      SameClient(cfg, s, s', s.clients[token]);
    }
  }

  lemma StartChangesOneRecord(cfg: Config, s: State, key: Key, newID: string, reading: Time)
    requires DistinctIDs(s.coll) && MayStart(cfg, s, key, newID, reading)
    ensures var c := StartedColl(cfg, s, key, newID, reading);
            && DistinctIDs(c)
            && key in c && c[key].running && c[key].pingTime == Stored(reading)
            && (forall k :: k in c && k != key ==> k in s.coll && c[k] == s.coll[k])
            && (forall k :: k in s.coll ==> k in c)
  {
  }

  lemma StartReplyLostKeepsInv(cfg: Config, s: State, key: Key, newID: string, reading: Time)
    requires cfg.Valid() && cfg.WorstAge() <= cfg.Window() && Inv(cfg, s)
    requires Enabled(cfg, s, StartReplyLost(key, newID, reading))
    ensures Inv(cfg, Do(cfg, s, StartReplyLost(key, newID, reading)))
  {
    StartMeansFree(cfg, s, key, reading);
    StartChangesOneRecord(cfg, s, key, newID, reading);
    forall token | token in s.clients ensures s.clients[token].key in s.coll {
      assert HoldsRecord(s, s.clients[token]);
    }
    CollChangeKeepsInv(cfg, s, StartedColl(cfg, s, key, newID, reading));
  }

  lemma StartedClient(cfg: Config, s: State, token: nat, pid: nat, key: Key, newID: string, reading: Time)
    requires cfg.Valid() && DistinctIDs(s.coll) && Enabled(cfg, s, Start(token, pid, key, newID, reading))
    ensures var s' := Do(cfg, s, Start(token, pid, key, newID, reading));
            ClientOK(cfg, s', s'.clients[token])
  {
    StartChangesOneRecord(cfg, s, key, newID, reading);
    StoredMonotone(reading - cfg.interval - cfg.slack, reading);
  }

  lemma StartKeepsInv(cfg: Config, s: State, token: nat, pid: nat, key: Key, newID: string, reading: Time)
    requires cfg.Valid() && cfg.WorstAge() <= cfg.Window() && Inv(cfg, s)
    requires Enabled(cfg, s, Start(token, pid, key, newID, reading))
    ensures Inv(cfg, Do(cfg, s, Start(token, pid, key, newID, reading)))
  {
    StartReplyLostKeepsInv(cfg, s, key, newID, reading);
    StartMeansFree(cfg, s, key, reading);
    var m, s' := s.(coll := StartedColl(cfg, s, key, newID, reading)), Do(cfg, s, Start(token, pid, key, newID, reading));
    assert m == Do(cfg, s, StartReplyLost(key, newID, reading));
    forall t | t in s'.clients ensures ClientOK(cfg, s', s'.clients[t]) {
      if t == token {
        StartedClient(cfg, s, token, pid, key, newID, reading);
      } else {
        SameClient(cfg, m, s', m.clients[t]);
      }
    }
  }

  /** The loop of a client's process wakes up and keeps the client's id. */
  lemma WokenClient(cfg: Config, s: State, s': State, c: Client, ids: set<string>)
    requires cfg.Valid() && ClientOK(cfg, s, c) && AtSelect(s, c.pid) && ProcOK(cfg, s, s.procs[c.pid])
    requires s'.now == s.now && s'.coll == s.coll
    requires c.pid in s'.procs && s'.procs[c.pid] == Woken(s.procs[c.pid], ids, s.now)
    requires c.stage.Enqueued? ==> c.syncID in ids
    ensures ClientOK(cfg, s', c)
  {
    StoredMonotone(PingedSince(cfg, s', c), PingedSince(cfg, s, c));
  }

  lemma EnqueuedClient(cfg: Config, s: State, s': State, c: Client, ids: set<string>)
    requires cfg.Valid() && ClientOK(cfg, s, c) && c.stage.Granted? && AtSelect(s, c.pid)
    requires s'.now == s.now && s'.coll == s.coll && c.syncID in ids
    requires c.pid in s'.procs && s'.procs[c.pid] == Woken(s.procs[c.pid], ids, s.now)
    ensures ClientOK(cfg, s', c.(stage := Enqueued))
  {
    AgeGrows(cfg, 0, s.procs[c.pid].fails);
    StoredMonotone(PingedSince(cfg, s', c.(stage := Enqueued)), PingedSince(cfg, s, c));
  }

  lemma DequeuedClient(cfg: Config, s: State, s': State, c: Client)
    requires cfg.Valid() && ClientOK(cfg, s, c) && c.stage.Enqueued? && AtSelect(s, c.pid)
    requires ProcOK(cfg, s, s.procs[c.pid])
    requires s'.now == s.now && s'.coll == s.coll && c.pid in s'.procs
    ensures ClientOK(cfg, s', c.(stage := Dequeued(s.now)))
  {
    AgeGrows(cfg, s.procs[c.pid].fails, cfg.maxFails);
    StoredMonotone(PingedSince(cfg, s', c.(stage := Dequeued(s.now))), PingedSince(cfg, s, c));
  }

  lemma EnqueueKeepsInv(cfg: Config, s: State, token: nat)
    requires cfg.Valid() && Inv(cfg, s) && Enabled(cfg, s, Enqueue(token))
    ensures Inv(cfg, Do(cfg, s, Enqueue(token)))
  {
    var s', c := Do(cfg, s, Enqueue(token)), s.clients[token];
    var ids := s.procs[c.pid].ids + {c.syncID};
    forall t | t in s'.clients ensures ClientOK(cfg, s', s'.clients[t]) {
      var d := s.clients[t];
      if t == token {
        EnqueuedClient(cfg, s, s', c, ids);
      } else if d.pid == c.pid {
        WokenClient(cfg, s, s', d, ids);
      } else {
        SameClient(cfg, s, s', d);
      }
    }
  }

  /** The one step where exclusivity keeps the set right: no other client of
      the process shares the id that is taken out. */
  lemma DequeueKeepsInv(cfg: Config, s: State, token: nat)
    requires cfg.Valid() && Inv(cfg, s) && Enabled(cfg, s, Dequeue(token))
    ensures Inv(cfg, Do(cfg, s, Dequeue(token)))
  {
    var s', c := Do(cfg, s, Dequeue(token)), s.clients[token];
    var ids := s.procs[c.pid].ids - {c.syncID};
    forall t | t in s'.clients ensures ClientOK(cfg, s', s'.clients[t]) {
      var d := s.clients[t];
      assert HoldsRecord(s, d) && HoldsRecord(s, c);
      if t == token {
        DequeuedClient(cfg, s, s', c);
      } else if d.pid == c.pid {
        assert d.key != c.key;
        WokenClient(cfg, s, s', d, ids);
      } else {
        SameClient(cfg, s, s', d);
      }
    }
  }

  lemma WakeKeepsInv(cfg: Config, s: State, pid: nat)
    requires cfg.Valid() && Inv(cfg, s) && Enabled(cfg, s, Wake(pid))
    ensures Inv(cfg, Do(cfg, s, Wake(pid)))
  {
    var s' := Do(cfg, s, Wake(pid));
    forall t | t in s'.clients ensures ClientOK(cfg, s', s'.clients[t]) {
      var c := s.clients[t];
      if c.pid == pid {
        WokenClient(cfg, s, s', c, s.procs[pid].ids);
      } else {
        SameClient(cfg, s, s', c);
      }
    }
  }

  lemma PingedClient(cfg: Config, s: State, s': State, c: Client, reading: Time)
    requires cfg.Valid() && ClientOK(cfg, s, c) && ProcOK(cfg, s, s.procs[c.pid])
    requires c.stage.Enqueued? && Enabled(cfg, s, PingDone(c.pid, reading)) && s' == Do(cfg, s, PingDone(c.pid, reading))
    ensures ClientOK(cfg, s', c)
  {
    StoredMonotone(s.now - cfg.delay, reading);
  }

  /** A client of the process that is not enqueued has nothing pinged. */
  lemma UnlistedClient(cfg: Config, s: State, s': State, c: Client, pid: nat, reading: Time)
    requires cfg.Valid() && ClientOK(cfg, s, c)
    requires Enabled(cfg, s, PingDone(pid, reading)) && s' == Do(cfg, s, PingDone(pid, reading))
    requires c.syncID !in s.procs[pid].ids
    ensures ClientOK(cfg, s', c)
  {
  }

  /** Here tracking and exclusivity meet: an id in the set belongs to an enqueued
      client of this process, and to no other client. */
  lemma ListedIsEnqueued(cfg: Config, s: State, token: nat, pid: nat)
    requires Inv(cfg, s) && OnlyHeld(s) && token in s.clients
    requires pid in s.procs && s.clients[token].syncID in s.procs[pid].ids
    ensures EnqueuedAs(s.clients[token], pid, s.clients[token].syncID)
  {
    var c := s.clients[token];
    assert HeldBy(s, pid, c.syncID);
    var t :| t in s.clients && EnqueuedAs(s.clients[t], pid, c.syncID);
    assert HoldsRecord(s, c) && HoldsRecord(s, s.clients[t]);
  }

  lemma PingDoneKeepsInv(cfg: Config, s: State, pid: nat, reading: Time)
    requires cfg.Valid() && Inv(cfg, s) && OnlyHeld(s) && Enabled(cfg, s, PingDone(pid, reading))
    ensures Inv(cfg, Do(cfg, s, PingDone(pid, reading)))
  {
    var s' := Do(cfg, s, PingDone(pid, reading));
    forall t | t in s'.clients ensures ClientOK(cfg, s', s'.clients[t]) {
      var c := s.clients[t];
      if c.syncID in s.procs[pid].ids {
        ListedIsEnqueued(cfg, s, t, pid);
        PingedClient(cfg, s, s', c, reading);
      } else {
        UnlistedClient(cfg, s, s', c, pid, reading);
      }
    }
  }

  lemma UnpingedClient(cfg: Config, s: State, s': State, c: Client)
    requires cfg.Valid() && ClientOK(cfg, s, c) && AtPing(s, c.pid) && ProcOK(cfg, s, s.procs[c.pid])
    requires s' == s.(procs := s.procs[c.pid := s.procs[c.pid].(phase := Waiting(s.now), fails := s.procs[c.pid].fails + 1)])
    ensures ClientOK(cfg, s', c)
  {
    StoredMonotone(PingedSince(cfg, s', c), PingedSince(cfg, s, c));
  }

  lemma PingFailedKeepsInv(cfg: Config, s: State, pid: nat)
    requires cfg.Valid() && Inv(cfg, s) && Enabled(cfg, s, PingFailed(pid))
    ensures Inv(cfg, Do(cfg, s, PingFailed(pid)))
  {
    var s' := Do(cfg, s, PingFailed(pid));
    forall t | t in s'.clients ensures ClientOK(cfg, s', s'.clients[t]) {
      var c := s.clients[t];
      if c.pid == pid {
        UnpingedClient(cfg, s, s', c);
      } else {
        SameClient(cfg, s, s', c);
      }
    }
  }

  lemma EndFailedKeepsInv(cfg: Config, s: State, token: nat)
    requires cfg.Valid() && Inv(cfg, s) && Enabled(cfg, s, EndFailed(token))
    ensures Inv(cfg, Do(cfg, s, EndFailed(token)))
  {
    var s' := Do(cfg, s, EndFailed(token));
    forall t | t in s'.clients ensures ClientOK(cfg, s', s'.clients[t]) {
      SameClient(cfg, s, s', s.clients[t]);
    }
  }

  /** Another step that needs exclusivity: the record marked idle is nobody else's. */
  lemma EndKeepsInv(cfg: Config, s: State, token: nat, data: SyncData, reading: Time)
    requires cfg.Valid() && Inv(cfg, s) && Enabled(cfg, s, End(token, data, reading))
    ensures Inv(cfg, Do(cfg, s, End(token, data, reading)))
  {
    EndFailedKeepsInv(cfg, s, token);
    var m := Do(cfg, s, EndFailed(token));
    assert HoldsRecord(s, s.clients[token]);
    forall t | t in m.clients ensures m.clients[t].key in m.coll && m.clients[t].key != s.clients[token].key {
      assert HoldsRecord(s, s.clients[t]);
    }
    CollChangeKeepsInv(cfg, m, EndColl(s.coll, s.clients[token].key, reading, data));
  }

  /** Every step keeps the joint invariant. */
  lemma StepKeepsInv(cfg: Config, s: State, step: Step)
    requires cfg.Valid() && cfg.WorstAge() <= cfg.Window()
    requires Inv(cfg, s) && OnlyHeld(s) && Enabled(cfg, s, step)
    ensures Inv(cfg, Do(cfg, s, step)) && OnlyHeld(Do(cfg, s, step))
  {
    StepKeepsOnlyHeld(cfg, s, step);
    match step
    case Tick(to) => TickKeepsInv(cfg, s, to);
    case Boot(pid) => BootKeepsInv(cfg, s, pid);
    case Crash(pid) => CrashKeepsInv(cfg, s, pid);
    case Start(token, pid, key, newID, reading) => StartKeepsInv(cfg, s, token, pid, key, newID, reading);
    case StartReplyLost(key, newID, reading) => StartReplyLostKeepsInv(cfg, s, key, newID, reading);
    case Enqueue(token) => EnqueueKeepsInv(cfg, s, token);
    case Wake(pid) => WakeKeepsInv(cfg, s, pid);
    case PingDone(pid, reading) => PingDoneKeepsInv(cfg, s, pid, reading);
    case PingFailed(pid) => PingFailedKeepsInv(cfg, s, pid);
    case Dequeue(token) => DequeueKeepsInv(cfg, s, token);
    case End(token, data, reading) => EndKeepsInv(cfg, s, token, data, reading);
    case EndFailed(token) => EndFailedKeepsInv(cfg, s, token);
  }

  lemma {:induction false} TraceKeepsInv(cfg: Config, trace: seq<State>, steps: seq<Step>, i: nat)
    requires cfg.Valid() && cfg.WorstAge() <= cfg.Window()
    requires IsTrace(cfg, trace, steps) && i < |trace|
    ensures Inv(cfg, trace[i]) && OnlyHeld(trace[i])
  {
    if i > 0 {
      TraceKeepsInv(cfg, trace, steps, i - 1);
      StepKeepsInv(cfg, trace[i - 1], steps[i - 1]);
    }
  }

  /** In every reachable state the set of an updater is exactly the ids of the
      enqueued clients of its process. */
  lemma IDSetIsHolders(cfg: Config, s: State, pid: nat, id: string)
    requires cfg.Valid() && cfg.WorstAge() <= cfg.Window()
    requires Reachable(cfg, s) && pid in s.procs
    ensures id in s.procs[pid].ids <==> HeldBy(s, pid, id)
  {
    var trace, steps :| IsTrace(cfg, trace, steps) && trace[|steps|] == s;
    TraceKeepsInv(cfg, trace, steps, |steps|);
    if HeldBy(s, pid, id) {
      var token :| token in s.clients && EnqueuedAs(s.clients[token], pid, id);
      assert ClientOK(cfg, s, s.clients[token]);
    }
  }

  /** With the worst ping age within the takeover window, no run ever has two
      syncs in flight for one rule and engine. */
  lemma LeaseIsSafe(cfg: Config)
    requires cfg.Valid() && cfg.WorstAge() <= cfg.Window()
    ensures Safe(cfg)
  {
    forall s | Reachable(cfg, s) ensures Exclusive(s) {
      var trace, steps :| IsTrace(cfg, trace, steps) && trace[|steps|] == s;
      TraceKeepsInv(cfg, trace, steps, |steps|);
    }
  }
}
