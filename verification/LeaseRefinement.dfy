/** The protocol and the code: a turn of the updater's loop is the wake-up step
    followed by the ping step, and a run of the protocol is a run of operations of
    the record store. */
module LeaseRefinement {
  import opened Basics
  import opened Clock
  import opened SyncStore
  import SyncRuns
  import opened Updating
  import opened Lease

  function ViewOf(s: State, pid: nat): View
    requires pid in s.procs
  {
    View(s.procs[pid].ids, s.coll)
  }

  /** The process whose loop a step wakes, and the event that wakes it. */
  ghost predicate Wakes(cfg: Config, s: State, step: Step, pid: nat, e: Event) {
    && Enabled(cfg, s, step)
    && match step
       case Enqueue(token) => pid == s.clients[token].pid && e == Add(s.clients[token].syncID)
       case Dequeue(token) => pid == s.clients[token].pid && e == Remove(s.clients[token].syncID)
       case Wake(p) => pid == p && e == Timeout
       case _ => false
  }

  /** The turn reads the clock for its ping at t.now, at or after the wake-up, and
      the ping is over by `done`. */
  lemma WakeThenPingIsATurn(cfg: Config, s: State, step: Step, pid: nat, t: Turn, done: Time)
    requires Wakes(cfg, s, step, pid, t.event) && s.now <= t.now <= done
    requires Enabled(cfg, Do(cfg, s, step), Tick(done))
    ensures var woken := Do(cfg, s, step);
            var later := Do(cfg, woken, Tick(done));
            && pid in woken.procs
            && (woken.procs[pid].ids == {} ==>
                  AtSelect(woken, pid) && ViewOf(woken, pid) == AfterTurn(ViewOf(s, pid), t))
            && (woken.procs[pid].ids != {} && t.reachable ==>
                  && Enabled(cfg, later, PingDone(pid, t.now))
                  && ViewOf(Do(cfg, later, PingDone(pid, t.now)), pid) == AfterTurn(ViewOf(s, pid), t))
            && (woken.procs[pid].ids != {} && !t.reachable && woken.procs[pid].fails < cfg.maxFails ==>
                  && Enabled(cfg, later, PingFailed(pid))
                  && ViewOf(Do(cfg, later, PingFailed(pid)), pid) == AfterTurn(ViewOf(s, pid), t))
  {
  }

  // ---------------------------------------------------------------- steps in full

  /** What each step does to the records: one operation of the store, or nothing. */
  lemma StepIsAStoreOperation(cfg: Config, s: State, step: Step)
    requires Enabled(cfg, s, step)
    ensures var c := Do(cfg, s, step).coll;
            match step
            case Start(_, _, key, newID, reading) => c == StartColl(s.coll, key, reading, cfg.after, cfg.lockExpire, false, newID)
            case StartReplyLost(key, newID, reading) => c == StartColl(s.coll, key, reading, cfg.after, cfg.lockExpire, false, newID)
            case PingDone(pid, reading) => c == PingColl(s.coll, s.procs[pid].ids, reading)
            case End(token, data, reading) => c == EndColl(s.coll, s.clients[token].key, reading, data)
            case _ => c == s.coll
  {
  }

  /** What each step does to the clients in flight. */
  lemma StepOnClients(cfg: Config, s: State, step: Step)
    requires Enabled(cfg, s, step)
    ensures var s' := Do(cfg, s, step);
            match step
            case Start(token, pid, key, _, reading) =>
              key in s'.coll && s'.clients == s.clients[token := Client(pid, key, s'.coll[key].syncID, Granted(reading))]
            case Enqueue(token) => s'.clients == s.clients[token := s.clients[token].(stage := Enqueued)]
            case Dequeue(token) => s'.clients == s.clients[token := s.clients[token].(stage := Dequeued(s.now))]
            case End(token, _, _) => s'.clients == s.clients - {token}
            case EndFailed(token) => s'.clients == s.clients - {token}
            case Crash(pid) =>
              forall token :: token in s'.clients <==> token in s.clients && s.clients[token].pid != pid
            case _ => s'.clients == s.clients
    ensures forall token :: token in s.clients && token in Do(cfg, s, step).clients ==>
              var c, d := s.clients[token], Do(cfg, s, step).clients[token];
              d == c.(stage := d.stage)
  {
  }

  /** What each step does to the processes and the clock. */
  lemma StepOnProcesses(cfg: Config, s: State, step: Step)
    requires Enabled(cfg, s, step)
    ensures Do(cfg, s, step).now == if step.Tick? then step.to else s.now
    ensures var procs := Do(cfg, s, step).procs;
            match step
            case Boot(pid) => procs == s.procs[pid := Proc({}, Waiting(s.now), 0)]
            case Crash(pid) => procs == s.procs - {pid}
            case Enqueue(token) =>
              var pid, id := s.clients[token].pid, s.clients[token].syncID;
              procs == s.procs[pid := Proc(s.procs[pid].ids + {id}, Pinging(s.now), s.procs[pid].fails)]
            case Dequeue(token) =>
              var pid, id := s.clients[token].pid, s.clients[token].syncID;
              var rest := s.procs[pid].ids - {id};
              procs == s.procs[pid := Proc(rest, if rest == {} then Waiting(s.now) else Pinging(s.now), s.procs[pid].fails)]
            case Wake(pid) =>
              procs == s.procs[pid := s.procs[pid].(phase := if s.procs[pid].ids == {} then Waiting(s.now) else Pinging(s.now))]
            case PingDone(pid, _) => procs == s.procs[pid := Proc(s.procs[pid].ids, Waiting(s.now), 0)]
            case PingFailed(pid) => procs == s.procs[pid := Proc(s.procs[pid].ids, Waiting(s.now), s.procs[pid].fails + 1)]
            case _ => procs == s.procs
  {
  }

  /** Which steps are possible at any time: processes come and go, calls move on
      while their process is at its select, ends arrive or are lost, replies too. */
  lemma StepsArePossible(cfg: Config, s: State, pid: nat, token: nat, data: SyncData, reading: Time)
    ensures Enabled(cfg, s, Boot(pid)) <==> pid !in s.procs
    ensures Enabled(cfg, s, Crash(pid)) <==> pid in s.procs
    ensures token in s.clients ==>
              && var c := s.clients[token];
              && (Enabled(cfg, s, Enqueue(token)) <==> c.stage.Granted? && c.pid in s.procs && s.procs[c.pid].phase.Waiting?)
              && (Enabled(cfg, s, Dequeue(token)) <==> c.stage.Enqueued? && c.pid in s.procs && s.procs[c.pid].phase.Waiting?)
              && (Enabled(cfg, s, End(token, data, reading)) <==> c.stage.Dequeued? && reading <= s.now)
              && (Enabled(cfg, s, EndFailed(token)) <==> c.stage.Dequeued?)
    ensures pid in s.procs && s.procs[pid].phase.Pinging? ==>
              && (Enabled(cfg, s, PingDone(pid, reading)) <==> s.procs[pid].phase.woke <= reading <= s.now)
              && (Enabled(cfg, s, PingFailed(pid)) <==> s.procs[pid].fails < cfg.maxFails)
  {
  }

  /** The operation of the store that a step carries out, if any. */
  function OperationOf(cfg: Config, s: State, step: Step): Option<SyncRuns.Op> {
    match step
    case Start(_, _, key, newID, reading) => Some(SyncRuns.StartOp(reading, key, cfg.after, cfg.lockExpire, false, newID))
    case StartReplyLost(key, newID, reading) => Some(SyncRuns.StartOp(reading, key, cfg.after, cfg.lockExpire, false, newID))
    case PingDone(pid, reading) => if pid in s.procs then Some(SyncRuns.PingOp(reading, s.procs[pid].ids)) else None
    case End(token, data, reading) => if token in s.clients then Some(SyncRuns.EndOp(reading, s.clients[token].key, data)) else None
    case _ => None
  }

  /** The records at any moment of a run of the protocol are what a run of store
      operations leaves, so that all that holds of those holds of the protocol. */
  lemma {:induction false} ProtocolRunIsAStoreRun(cfg: Config, trace: seq<State>, steps: seq<Step>, i: nat) returns (ops: seq<SyncRuns.Op>)
    requires IsTrace(cfg, trace, steps) && i < |trace|
    ensures trace[i].coll == SyncRuns.Run(map[], ops)
    ensures |ops| <= i && forall op :: op in ops ==> exists k :: 0 <= k < i && OperationOf(cfg, trace[k], steps[k]) == Some(op)
  {
    if i == 0 {
      ops := [];
    } else {
      var before := ProtocolRunIsAStoreRun(cfg, trace, steps, i - 1);
      StepIsAStoreOperation(cfg, trace[i - 1], steps[i - 1]);
      var next := OperationOf(cfg, trace[i - 1], steps[i - 1]);
      if next.Some? {
        ops := before + [next.value];
        assert ops[..|ops| - 1] == before;
        forall op | op in ops ensures exists k :: 0 <= k < i && OperationOf(cfg, trace[k], steps[k]) == Some(op) {
          if op !in before {
            assert OperationOf(cfg, trace[i - 1], steps[i - 1]) == Some(op);
          }
        }
      } else {
        ops := before;
      }
    }
  }

  /** For one: the log of every record of a reachable state holds at most ten
      entries, the last of all that were reported. */
  lemma ProtocolLogsAreWindows(cfg: Config, s: State, key: Key) returns (ops: seq<SyncRuns.Op>)
    requires Reachable(cfg, s)
    ensures s.coll == SyncRuns.Run(map[], ops)
    ensures var log, h := LogOf(s.coll, key), SyncRuns.History(ops, key);
            |log| == (if |h| > 10 then 10 else |h|) && log == h[|h| - |log|..]
  {
    var trace, steps :| IsTrace(cfg, trace, steps) && trace[|steps|] == s;
    ops := ProtocolRunIsAStoreRun(cfg, trace, steps, |steps|);
    SyncRuns.LogIsHistoryWindow(ops, key);
  }
}
