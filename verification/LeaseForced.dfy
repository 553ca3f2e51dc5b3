/** What a forced start does to the lease: it drops the guard, so it is outside
    the promise of exclusivity. A run with forced starts keeps that promise
    exactly as long as each of them meets a rule and engine that is free, and a
    caller can see in the record that it is. */
module LeaseForced {
  import opened Basics
  import opened Clock
  import opened SyncStore
  import opened Lease
  import opened LeaseSafety

  /** The steps of the protocol, and forced starts, answered or with a lost reply. */
  datatype AnyStep =
    | Plain(step: Step)
    | Forced(token: nat, pid: nat, key: Key, newID: string, reading: Time)
    | ForcedReplyLost(key: Key, newID: string, reading: Time)

  function ForcedColl(cfg: Config, s: State, key: Key, newID: string, reading: Time): Coll {
    StartColl(s.coll, key, reading, cfg.after, cfg.lockExpire, true, newID)
  }

  function ForcedStart(cfg: Config, s: State, token: nat, pid: nat, key: Key, newID: string, reading: Time): State {
    var c := ForcedColl(cfg, s, key, newID, reading);
    s.(coll := c, clients := s.clients[token := Client(pid, key, c[key].syncID, Granted(reading))])
  }

  ghost predicate MayRun(cfg: Config, s: State, step: AnyStep) {
    match step
    case Plain(p) => Enabled(cfg, s, p)
    case Forced(token, pid, key, newID, reading) =>
      && token !in s.clients && pid in s.procs
      && reading <= s.now <= reading + cfg.delay && FreshID(s.coll, key, newID)
    case ForcedReplyLost(key, newID, reading) =>
      reading <= s.now <= reading + cfg.delay && FreshID(s.coll, key, newID)
  }

  function Perform(cfg: Config, s: State, step: AnyStep): State
    requires MayRun(cfg, s, step)
  {
    match step
    case Plain(p) => Do(cfg, s, p)
    case Forced(token, pid, key, newID, reading) => ForcedStart(cfg, s, token, pid, key, newID, reading)
    case ForcedReplyLost(key, newID, reading) => s.(coll := ForcedColl(cfg, s, key, newID, reading))
  }

  ghost predicate IsForcedTrace(cfg: Config, trace: seq<State>, steps: seq<AnyStep>) {
    && |trace| == |steps| + 1
    && trace[0] == INIT
    && forall i :: 0 <= i < |steps| ==> MayRun(cfg, trace[i], steps[i]) && trace[i + 1] == Perform(cfg, trace[i], steps[i])
  }

  /** A forced start in full: it is never refused, whatever the record says. */
  lemma ForcedInFull(cfg: Config, s: State, token: nat, pid: nat, key: Key, newID: string, reading: Time)
    requires MayRun(cfg, s, Forced(token, pid, key, newID, reading))
    ensures var s' := Perform(cfg, s, Forced(token, pid, key, newID, reading));
            && s'.now == s.now && s'.procs == s.procs
            && key in s'.coll && s'.coll == s.coll[key := s'.coll[key]]
            && s'.coll[key] ==
                 (if key in s.coll then s.coll[key].(startTime := Stored(reading), pingTime := Stored(reading), running := true)
                  else SyncInfo(newID, key.ruleID, key.engine, Stored(reading), None, Stored(reading), true, []))
            && s'.clients == s.clients[token := Client(pid, key, s'.coll[key].syncID, Granted(reading))]
    ensures var lost := ForcedReplyLost(key, newID, reading);
            MayRun(cfg, s, lost) &&
            Perform(cfg, s, lost) == s.(coll := Perform(cfg, s, Forced(token, pid, key, newID, reading)).coll)
  {
  }

  /** No sync of the key is in flight. */
  ghost predicate Free(s: State, key: Key) {
    forall t :: t in s.clients ==> s.clients[t].key != key
  }

  /** A forced start whose reply is lost puts no second client in flight. All it
      does to a holder is to set back its ping to the reading, which the lease
      affords when that is no older than the wait of the loop. */
  ghost predicate Harmless(cfg: Config, s: State, step: AnyStep) {
    match step
    case Plain(_) => true
    case Forced(_, _, key, _, _) => Free(s, key)
    case ForcedReplyLost(key, _, reading) => Free(s, key) || s.now <= reading + cfg.interval + cfg.slack
  }

  lemma ForcedChangesOneRecord(cfg: Config, s: State, key: Key, newID: string, reading: Time)
    requires DistinctIDs(s.coll) && FreshID(s.coll, key, newID)
    ensures var c := ForcedColl(cfg, s, key, newID, reading);
            && DistinctIDs(c)
            && key in c && c[key].running && c[key].pingTime == Stored(reading)
            && (forall k :: k in c && k != key ==> k in s.coll && c[k] == s.coll[k])
            && (forall k :: k in s.coll ==> k in c)
  {
  }

  /** The holder of a record whose ping a lost forced start has set. */
  lemma ResetClient(cfg: Config, s: State, key: Key, newID: string, reading: Time, c: Client)
    requires cfg.Valid() && ClientOK(cfg, s, c) && ProcOK(cfg, s, s.procs[c.pid]) && c.key == key
    requires MayRun(cfg, s, ForcedReplyLost(key, newID, reading)) && s.now <= reading + cfg.interval + cfg.slack
    ensures ClientOK(cfg, Perform(cfg, s, ForcedReplyLost(key, newID, reading)), c)
  {
    AgeGrows(cfg, 0, s.procs[c.pid].fails);
    AgeGrows(cfg, 0, cfg.maxFails);
    StoredMonotone(PingedSince(cfg, s, c), reading);
  }

  lemma ForcedReplyLostKeepsInv(cfg: Config, s: State, key: Key, newID: string, reading: Time)
    requires cfg.Valid() && Inv(cfg, s) && MayRun(cfg, s, ForcedReplyLost(key, newID, reading))
    requires Harmless(cfg, s, ForcedReplyLost(key, newID, reading))
    ensures Inv(cfg, Perform(cfg, s, ForcedReplyLost(key, newID, reading)))
  {
    var s' := Perform(cfg, s, ForcedReplyLost(key, newID, reading));
    ForcedChangesOneRecord(cfg, s, key, newID, reading);
    forall t | t in s'.clients ensures ClientOK(cfg, s', s'.clients[t]) {
      var c := s.clients[t];
      assert HoldsRecord(s, c);
      if c.key == key {
        ResetClient(cfg, s, key, newID, reading, c);
      } else {
        SameClient(cfg, s, s', c);
      }
    }
  }

  /** On a free key a forced start keeps the whole joint invariant of the lease. */
  lemma ForcedStartKeepsInv(cfg: Config, s: State, token: nat, pid: nat, key: Key, newID: string, reading: Time)
    requires cfg.Valid() && Inv(cfg, s) && Free(s, key) && MayRun(cfg, s, Forced(token, pid, key, newID, reading))
    ensures Inv(cfg, Perform(cfg, s, Forced(token, pid, key, newID, reading)))
  {
    ForcedChangesOneRecord(cfg, s, key, newID, reading);
    ForcedReplyLostKeepsInv(cfg, s, key, newID, reading);
    StoredMonotone(reading - cfg.interval - cfg.slack, reading);
    var m := s.(coll := ForcedColl(cfg, s, key, newID, reading));
    var s' := ForcedStart(cfg, s, token, pid, key, newID, reading);
    assert m == Perform(cfg, s, ForcedReplyLost(key, newID, reading));
    forall t | t in s'.clients ensures ClientOK(cfg, s', s'.clients[t]) {
      if t != token {
        SameClient(cfg, m, s', m.clients[t]);
      }
    }
  }

  lemma ForcedKeepsOnlyHeld(cfg: Config, s: State, step: AnyStep)
    requires OnlyHeld(s) && !step.Plain? && MayRun(cfg, s, step)
    ensures OnlyHeld(Perform(cfg, s, step))
  {
    var s' := Perform(cfg, s, step);
    forall pid, id | pid in s'.procs && id in s'.procs[pid].ids ensures HeldBy(s', pid, id) {
      assert HeldBy(s, pid, id);
      var t :| t in s.clients && EnqueuedAs(s.clients[t], pid, id);
      assert t in s'.clients && EnqueuedAs(s'.clients[t], pid, id);
    }
  }

  lemma AnyStepKeepsInv(cfg: Config, s: State, step: AnyStep)
    requires cfg.Valid() && cfg.WorstAge() <= cfg.Window()
    requires Inv(cfg, s) && OnlyHeld(s) && MayRun(cfg, s, step) && Harmless(cfg, s, step)
    ensures Inv(cfg, Perform(cfg, s, step)) && OnlyHeld(Perform(cfg, s, step))
  {
    match step
    case Plain(p) => StepKeepsInv(cfg, s, p);
    case Forced(token, pid, key, newID, reading) =>
      ForcedStartKeepsInv(cfg, s, token, pid, key, newID, reading);
      ForcedKeepsOnlyHeld(cfg, s, step);
    case ForcedReplyLost(key, newID, reading) =>
      ForcedReplyLostKeepsInv(cfg, s, key, newID, reading);
      ForcedKeepsOnlyHeld(cfg, s, step);
  }

  lemma {:induction false} HarmlessRunKeepsInv(cfg: Config, trace: seq<State>, steps: seq<AnyStep>, i: nat)
    requires cfg.Valid() && cfg.WorstAge() <= cfg.Window()
    requires IsForcedTrace(cfg, trace, steps) && i < |trace|
    requires forall j :: 0 <= j < i ==> Harmless(cfg, trace[j], steps[j])
    ensures Inv(cfg, trace[i]) && OnlyHeld(trace[i])
  {
    if i > 0 {
      HarmlessRunKeepsInv(cfg, trace, steps, i - 1);
      assert Harmless(cfg, trace[i - 1], steps[i - 1]);
      AnyStepKeepsInv(cfg, trace[i - 1], steps[i - 1]);
    }
  }

  /** A run with any number of forced starts among its steps stays exclusive as
      long as each answered one meets a key that is free, and each lost one does
      or reads a clock no older than the wait of the loop. */
  lemma ForcedRunsAreSafeOnFreeKeys(cfg: Config, trace: seq<State>, steps: seq<AnyStep>, i: nat)
    requires cfg.Valid() && cfg.WorstAge() <= cfg.Window()
    requires IsForcedTrace(cfg, trace, steps) && i < |trace|
    requires forall j :: 0 <= j < i ==> Harmless(cfg, trace[j], steps[j])
    ensures Exclusive(trace[i])
  {
    HarmlessRunKeepsInv(cfg, trace, steps, i);
  }

  /** A forced start whose answer arrives keeps exclusivity, at once, exactly when
      its key is free. */
  lemma ForcedStartKeepsExclusivityIffFree(cfg: Config, s: State, step: AnyStep)
    requires Exclusive(s) && step.Forced? && MayRun(cfg, s, step)
    ensures Exclusive(Perform(cfg, s, step)) <==> Free(s, step.key)
  {
    var s' := Perform(cfg, s, step);
    if t :| t in s.clients && s.clients[t].key == step.key {
      assert t in s'.clients && step.token in s'.clients && s'.clients[t].key == s'.clients[step.token].key;
    } else {
      forall a, b | a in s'.clients && b in s'.clients && s'.clients[a].key == s'.clients[b].key
        ensures a == b
      {
        if a != step.token && b != step.token {
          assert s.clients[a].key == s.clients[b].key;
        }
      }
    }
  }

  /** So, where the delay is no longer than the wait of the loop, or no lost forced
      start does harm, a run is exclusive throughout if and only if each answered
      forced start meets a free key. */
  lemma ForcedRunIsExclusiveIff(cfg: Config, trace: seq<State>, steps: seq<AnyStep>)
    requires cfg.Valid() && cfg.WorstAge() <= cfg.Window() && IsForcedTrace(cfg, trace, steps)
    requires cfg.delay <= cfg.interval + cfg.slack
          || forall i :: 0 <= i < |steps| && steps[i].ForcedReplyLost? ==> Harmless(cfg, trace[i], steps[i])
    ensures (forall i :: 0 <= i < |trace| ==> Exclusive(trace[i]))
       <==> (forall i :: 0 <= i < |steps| && steps[i].Forced? ==> Free(trace[i], steps[i].key))
  {
    if forall i :: 0 <= i < |trace| ==> Exclusive(trace[i]) {
      forall i | 0 <= i < |steps| && steps[i].Forced? ensures Free(trace[i], steps[i].key) {
        assert MayRun(cfg, trace[i], steps[i]) && trace[i + 1] == Perform(cfg, trace[i], steps[i]);
        assert Exclusive(trace[i]) && Exclusive(trace[i + 1]);
        ForcedStartKeepsExclusivityIffFree(cfg, trace[i], steps[i]);
      }
    }
    if forall i :: 0 <= i < |steps| && steps[i].Forced? ==> Free(trace[i], steps[i].key) {
      forall i | 0 <= i < |steps| ensures Harmless(cfg, trace[i], steps[i]) {
        assert MayRun(cfg, trace[i], steps[i]);
      }
      forall i | 0 <= i < |trace| ensures Exclusive(trace[i]) {
        ForcedRunsAreSafeOnFreeKeys(cfg, trace, steps, i);
      }
    }
  }

  // ---------------------------------------------------------------- what a caller sees

  /** What the record tells a caller that reads it, on a clock reading of its own:
      it is missing, idle, or has been silent for longer than a holder ever is. */
  predicate LooksFree(cfg: Config, c: Coll, key: Key, reading: Time) {
    key in c ==> !c[key].running || c[key].pingTime < Stored(reading - cfg.WorstAge())
  }

  /** A record that looks free is free. */
  lemma LooksFreeIsFree(cfg: Config, s: State, key: Key, reading: Time)
    requires cfg.Valid() && Inv(cfg, s) && reading <= s.now && LooksFree(cfg, s.coll, key, reading)
    ensures Free(s, key)
  {
    forall t | t in s.clients ensures s.clients[t].key != key {
      var c := s.clients[t];
      assert HoldsRecord(s, c) && ProcOK(cfg, s, s.procs[c.pid]);
      HolderIsFresh(cfg, s, c);
      StoredMonotone(reading - cfg.WorstAge(), s.now - cfg.WorstAge());
    }
  }

  ghost predicate MeetsLookingFree(cfg: Config, s: State, step: AnyStep) {
    !step.Plain? ==> LooksFree(cfg, s.coll, step.key, step.reading)
  }

  lemma {:induction false} LookingFreeRunKeepsInv(cfg: Config, trace: seq<State>, steps: seq<AnyStep>, i: nat)
    requires cfg.Valid() && cfg.WorstAge() <= cfg.Window()
    requires IsForcedTrace(cfg, trace, steps) && i < |trace|
    requires forall j :: 0 <= j < i ==> MeetsLookingFree(cfg, trace[j], steps[j])
    ensures Inv(cfg, trace[i]) && OnlyHeld(trace[i])
  {
    if i > 0 {
      LookingFreeRunKeepsInv(cfg, trace, steps, i - 1);
      var s, step := trace[i - 1], steps[i - 1];
      assert MeetsLookingFree(cfg, s, step) && MayRun(cfg, s, step);
      if !step.Plain? {
        LooksFreeIsFree(cfg, s, step.key, step.reading);
      }
      AnyStepKeepsInv(cfg, s, step);
    }
  }

  /** A run whose forced starts all meet records that look free stays exclusive. */
  lemma RunOnLookingFreeIsExclusive(cfg: Config, trace: seq<State>, steps: seq<AnyStep>, i: nat)
    requires cfg.Valid() && cfg.WorstAge() <= cfg.Window()
    requires IsForcedTrace(cfg, trace, steps) && i < |trace|
    requires forall j :: 0 <= j < i ==> MeetsLookingFree(cfg, trace[j], steps[j])
    ensures Exclusive(trace[i])
  {
    LookingFreeRunKeepsInv(cfg, trace, steps, i);
  }

  /** Steps after which a record may run with no client: a crash, a lost end and a
      start whose reply is lost. */
  predicate LosesTrack(step: AnyStep) {
    match step
    case Plain(p) => p.Crash? || p.EndFailed? || p.StartReplyLost?
    case Forced(_, _, _, _, _) => false
    case ForcedReplyLost(_, _, _) => true
  }

  /** Every running record is in flight. */
  ghost predicate RunningIsHeld(s: State) {
    forall key :: key in s.coll && s.coll[key].running ==> !Free(s, key)
  }

  lemma StepKeepsRunningHeld(cfg: Config, s: State, step: AnyStep)
    requires RunningIsHeld(s) && MayRun(cfg, s, step) && !LosesTrack(step)
    ensures RunningIsHeld(Perform(cfg, s, step))
  {
    var s' := Perform(cfg, s, step);
    forall key | key in s'.coll && s'.coll[key].running ensures !Free(s', key) {
      if started :| started in s'.clients && started !in s.clients && s'.clients[started].key == key {
      } else {
        assert !StartsKey(step, key);
        StillRunning(cfg, s, step, key);
        var t :| t in s.clients && s.clients[t].key == key;
        assert t in s'.clients && s'.clients[t].key == key;
      }
    }
  }

  predicate StartsKey(step: AnyStep, key: Key) {
    (step.Forced? && step.key == key) || (step.Plain? && step.step.Start? && step.step.key == key)
  }

  lemma StillRunning(cfg: Config, s: State, step: AnyStep, key: Key)
    requires MayRun(cfg, s, step) && !LosesTrack(step) && !StartsKey(step, key)
    requires var c := Perform(cfg, s, step).coll; key in c && c[key].running
    ensures key in s.coll && s.coll[key].running
    ensures step.Plain? && step.step.End? ==> s.clients[step.step.token].key != key
  {
  }

  lemma {:induction false} RunKeepsRunningHeld(cfg: Config, trace: seq<State>, steps: seq<AnyStep>, i: nat)
    requires IsForcedTrace(cfg, trace, steps) && i < |trace|
    requires forall j :: 0 <= j < |steps| ==> !LosesTrack(steps[j])
    ensures RunningIsHeld(trace[i])
  {
    if i > 0 {
      RunKeepsRunningHeld(cfg, trace, steps, i - 1);
      StepKeepsRunningHeld(cfg, trace[i - 1], steps[i - 1]);
    }
  }

  /** Where no process crashes and no reply or end is lost, what a caller sees is
      exact: a run with forced starts is exclusive throughout if and only if each
      of them meets a record that looks free. */
  lemma UndisturbedRunIsExclusiveIff(cfg: Config, trace: seq<State>, steps: seq<AnyStep>)
    requires cfg.Valid() && cfg.WorstAge() <= cfg.Window() && IsForcedTrace(cfg, trace, steps)
    requires forall i :: 0 <= i < |steps| ==> !LosesTrack(steps[i])
    ensures (forall i :: 0 <= i < |trace| ==> Exclusive(trace[i]))
       <==> (forall i :: 0 <= i < |steps| ==> MeetsLookingFree(cfg, trace[i], steps[i]))
  {
    if forall i :: 0 <= i < |trace| ==> Exclusive(trace[i]) {
      ForcedRunIsExclusiveIff(cfg, trace, steps);
      forall i | 0 <= i < |steps| ensures MeetsLookingFree(cfg, trace[i], steps[i]) {
        RunKeepsRunningHeld(cfg, trace, steps, i);
        assert !LosesTrack(steps[i]);
        assert steps[i].Forced? ==> Free(trace[i], steps[i].key);
      }
    }
    if forall i :: 0 <= i < |steps| ==> MeetsLookingFree(cfg, trace[i], steps[i]) {
      forall i | 0 <= i < |trace| ensures Exclusive(trace[i]) {
        RunOnLookingFreeIsExclusive(cfg, trace, steps, i);
      }
    }
  }

  // ---------------------------------------------------------------- beyond exclusivity

  /** The newcomer works under the id of the holder it pushed aside. */
  lemma ForcedStartSharesTheID(cfg: Config, s: State, holder: nat, token: nat, pid: nat, newID: string, reading: Time)
    requires holder in s.clients && HoldsRecord(s, s.clients[holder]) && token !in s.clients
    ensures var s' := ForcedStart(cfg, s, token, pid, s.clients[holder].key, newID, reading);
            && holder in s'.clients && token in s'.clients
            && s'.clients[token].syncID == s'.clients[holder].syncID
            && HoldsRecord(s', s'.clients[holder])
  {
  }

  /** When two enqueued clients of one process share an id, the first dequeue
      ends the pings of the second: its record's ping no longer moves. */
  lemma FirstDequeueStopsThePings(cfg: Config, s: State, a: nat, b: nat)
    requires Enabled(cfg, s, Dequeue(a)) && a != b && b in s.clients
    requires s.clients[b].stage.Enqueued? && s.clients[b].pid == s.clients[a].pid
    requires s.clients[b].syncID == s.clients[a].syncID
    requires HoldsRecord(s, s.clients[b])
    ensures var s' := Do(cfg, s, Dequeue(a));
            && !Tracked(s', s'.clients[b])
            && PingColl(s'.coll, s'.procs[s.clients[b].pid].ids, s'.now)[s.clients[b].key] == s.coll[s.clients[b].key]
  {
  }
}
