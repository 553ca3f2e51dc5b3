/** The lease protocol: any number of processes, one store, one clock.
    Each step is one atomic storage operation, one turn of an updater loop, the
    passing of time, or the crash of a process. */
module Lease {
  import opened Basics
  import opened Clock
  import opened SyncStore
  import opened Updating

  /** interval: the updater's period; slack: how late its timer may fire;
      delay: the longest time from the clock reading of a start to its enqueue, from
      a wake-up to the end of its ping, and from a dequeue to its end; after: the
      interval of every start; maxFails: how many pings of one process may fail in a row. */
  datatype Config = Config(
    interval: Duration, slack: Duration, delay: Duration,
    after: Duration, lockExpire: Duration, maxFails: nat)
  {
    ghost predicate Valid() {
      0 <= interval && 0 <= slack && 0 <= delay
    }

    /** The longest a turn of the loop can take. */
    function TurnTime(): Duration {
      interval + slack + delay
    }

    /** How old the ping of a held record can be when the loop starts to wait
        after `fails` failed pings in a row. A ping carries the clock reading taken
        before it was sent, so even a successful one may be a delay old. */
    function Age(fails: nat): Duration {
      if fails == 0 then delay else Age(fails - 1) + TurnTime()
    }

    /** How old the ping of a held record can ever be. */
    function WorstAge(): Duration {
      Age(maxFails + 1)
    }

    /** How old the ping of a running record must be before it is taken over. */
    function Window(): Duration {
      Max(lockExpire, after)
    }
  }

  datatype Phase = Waiting(since: Time) | Pinging(woke: Time)

  datatype Proc = Proc(ids: set<string>, phase: Phase, fails: nat)

  /** A call of a client: granted, on a clock reading `at`, but not yet enqueued;
      enqueued; or dequeued but not yet ended. */
  datatype Stage = Granted(at: Time) | Enqueued | Dequeued(at: Time)

  datatype Client = Client(pid: nat, key: Key, syncID: string, stage: Stage)

  datatype State = State(now: Time, coll: Coll, procs: map<nat, Proc>, clients: map<nat, Client>)

  /** A storage operation works with a clock reading taken before it is applied. */
  datatype Step =
    | Tick(to: Time)
    | Boot(pid: nat)
    | Crash(pid: nat)
    | Start(token: nat, pid: nat, key: Key, newID: string, reading: Time)
    | StartReplyLost(key: Key, newID: string, reading: Time)
    | Enqueue(token: nat)
    | Wake(pid: nat)
    | PingDone(pid: nat, reading: Time)
    | PingFailed(pid: nat)
    | Dequeue(token: nat)
    | End(token: nat, data: SyncData, reading: Time)
    | EndFailed(token: nat)

  const INIT := State(0, map[], map[], map[])

  /** Only an updater that has something to ping has a deadline. */
  predicate ProcInTime(cfg: Config, p: Proc, t: Time) {
    p.ids != {} ==>
      match p.phase
      case Waiting(since) => t <= since + cfg.interval + cfg.slack
      case Pinging(woke) => t <= woke + cfg.delay
  }

  predicate ClientInTime(cfg: Config, c: Client, t: Time) {
    match c.stage
    case Granted(at) => t <= at + cfg.delay
    case Enqueued => true
    case Dequeued(at) => t <= at + cfg.delay
  }

  /** newID hands out ids that no record carries yet. */
  ghost predicate FreshID(c: Coll, key: Key, newID: string) {
    key !in c ==> forall k :: k in c ==> c[k].syncID != newID
  }

  ghost predicate MayStart(cfg: Config, s: State, key: Key, newID: string, reading: Time) {
    && reading <= s.now
    && Grants(s.coll, key, reading, cfg.after, cfg.lockExpire, false)
    && FreshID(s.coll, key, newID)
  }

  predicate AtSelect(s: State, pid: nat) {
    pid in s.procs && s.procs[pid].phase.Waiting?
  }

  predicate AtPing(s: State, pid: nat) {
    pid in s.procs && s.procs[pid].phase.Pinging?
  }

  ghost predicate Enabled(cfg: Config, s: State, step: Step) {
    match step
    case Tick(to) =>
      && s.now <= to
      && (forall pid :: pid in s.procs ==> ProcInTime(cfg, s.procs[pid], to))
      && (forall token :: token in s.clients ==> ClientInTime(cfg, s.clients[token], to))
    case Boot(pid) => pid !in s.procs
    case Crash(pid) => pid in s.procs
    case Start(token, pid, key, newID, reading) =>
      token !in s.clients && pid in s.procs && s.now <= reading + cfg.delay && MayStart(cfg, s, key, newID, reading)
    case StartReplyLost(key, newID, reading) => MayStart(cfg, s, key, newID, reading)
    case Enqueue(token) => token in s.clients && s.clients[token].stage.Granted? && AtSelect(s, s.clients[token].pid)
    case Wake(pid) => AtSelect(s, pid) && s.now >= s.procs[pid].phase.since + cfg.interval
    case PingDone(pid, reading) => AtPing(s, pid) && s.procs[pid].phase.woke <= reading <= s.now
    case PingFailed(pid) => AtPing(s, pid) && s.procs[pid].fails < cfg.maxFails
    case Dequeue(token) => token in s.clients && s.clients[token].stage.Enqueued? && AtSelect(s, s.clients[token].pid)
    case End(token, _, reading) => token in s.clients && s.clients[token].stage.Dequeued? && reading <= s.now
    case EndFailed(token) => token in s.clients && s.clients[token].stage.Dequeued?
  }

  /** The updater after a wake-up that leaves it with these ids: it goes on to
      ping, or straight back to its select when there is nothing to ping. */
  function Woken(p: Proc, ids: set<string>, now: Time): Proc {
    p.(ids := ids, phase := if ids == {} then Waiting(now) else Pinging(now))
  }

  function StartedColl(cfg: Config, s: State, key: Key, newID: string, reading: Time): Coll {
    StartColl(s.coll, key, reading, cfg.after, cfg.lockExpire, false, newID)
  }

  function WithStage(s: State, token: nat, stage: Stage): map<nat, Client>
    requires token in s.clients
  {
    s.clients[token := s.clients[token].(stage := stage)]
  }

  function Do(cfg: Config, s: State, step: Step): State
    requires Enabled(cfg, s, step)
  {
    match step
    case Tick(to) => s.(now := to)
    case Boot(pid) => s.(procs := s.procs[pid := Proc({}, Waiting(s.now), 0)])
    case Crash(pid) =>
      s.(procs := s.procs - {pid}, clients := map token | token in s.clients && s.clients[token].pid != pid :: s.clients[token])
    case Start(token, pid, key, newID, reading) =>
      var c := StartedColl(cfg, s, key, newID, reading);
      s.(coll := c, clients := s.clients[token := Client(pid, key, c[key].syncID, Granted(reading))])
    case StartReplyLost(key, newID, reading) => s.(coll := StartedColl(cfg, s, key, newID, reading))
    case Enqueue(token) =>
      var c := s.clients[token];
      var p := s.procs[c.pid];
      s.(procs := s.procs[c.pid := Woken(p, NextIDs(p.ids, Add(c.syncID)), s.now)],
         clients := WithStage(s, token, Enqueued))
    case Wake(pid) =>
      var p := s.procs[pid];
      s.(procs := s.procs[pid := Woken(p, NextIDs(p.ids, Timeout), s.now)])
    case PingDone(pid, reading) =>
      var p := s.procs[pid];
      s.(coll := PingColl(s.coll, p.ids, reading), procs := s.procs[pid := p.(phase := Waiting(s.now), fails := 0)])
    case PingFailed(pid) =>
      var p := s.procs[pid];
      s.(procs := s.procs[pid := p.(phase := Waiting(s.now), fails := p.fails + 1)])
    case Dequeue(token) =>
      var c := s.clients[token];
      var p := s.procs[c.pid];
      s.(procs := s.procs[c.pid := Woken(p, NextIDs(p.ids, Remove(c.syncID)), s.now)],
         clients := WithStage(s, token, Dequeued(s.now)))
    case End(token, data, reading) =>
      s.(coll := EndColl(s.coll, s.clients[token].key, reading, data), clients := s.clients - {token})
    case EndFailed(token) => s.(clients := s.clients - {token})
  }

  ghost predicate IsTrace(cfg: Config, trace: seq<State>, steps: seq<Step>) {
    && |trace| == |steps| + 1
    && trace[0] == INIT
    && forall i :: 0 <= i < |steps| ==> Enabled(cfg, trace[i], steps[i]) && trace[i + 1] == Do(cfg, trace[i], steps[i])
  }

  ghost predicate Reachable(cfg: Config, s: State) {
    exists trace, steps :: IsTrace(cfg, trace, steps) && trace[|steps|] == s
  }

  /** At most one sync is in flight for each rule and engine. */
  ghost predicate Exclusive(s: State) {
    forall a, b :: a in s.clients && b in s.clients && s.clients[a].key == s.clients[b].key ==> a == b
  }

  ghost predicate Safe(cfg: Config) {
    forall s :: Reachable(cfg, s) ==> Exclusive(s)
  }
}
