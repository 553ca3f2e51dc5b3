/** The bound of the lease is exact: past it, some run has two holders. */
module LeaseExact {
  import opened Basics
  import opened Clock
  import opened SyncStore
  import opened Updating
  import opened Lease
  import LeaseSafety

  const KEY := Key("rule", "engine")
  const FIRST: Time := MILLI - 1
  const RECORD := SyncInfo("a", KEY.ruleID, KEY.engine, 0, None, 0, true, [])

  lemma InitIsReachable(cfg: Config)
    ensures Reachable(cfg, INIT)
  {
    assert IsTrace(cfg, [INIT], []);
  }

  lemma Extend(cfg: Config, s: State, step: Step) returns (s': State)
    requires Reachable(cfg, s) && Enabled(cfg, s, step)
    ensures s' == Do(cfg, s, step) && Reachable(cfg, s')
  {
    s' := Do(cfg, s, step);
    var trace, steps :| IsTrace(cfg, trace, steps) && trace[|steps|] == s;
    var trace', steps' := trace + [s'], steps + [step];
    forall i | 0 <= i < |steps'|
      ensures Enabled(cfg, trace'[i], steps'[i]) && trace'[i + 1] == Do(cfg, trace'[i], steps'[i])
    {
      if i < |steps| {
        assert trace'[i] == trace[i] && steps'[i] == steps[i] && trace'[i + 1] == trace[i + 1];
      }
    }
    assert IsTrace(cfg, trace', steps') && trace'[|steps'|] == s';
  }

  /** One holder, last pinged at FIRST, in the given stage and phase. */
  function Holding(now: Time, ids: set<string>, phase: Phase, fails: nat, stage: Stage): State {
    State(now, map[KEY := RECORD], map[0 := Proc(ids, phase, fails)], map[0 := Client(0, KEY, "a", stage)])
  }

  lemma ReachGranted(cfg: Config)
    requires cfg.Valid()
    ensures Reachable(cfg, Holding(FIRST, {}, Waiting(FIRST), 0, Granted(FIRST)))
  {
    InitIsReachable(cfg);
    var s := Extend(cfg, INIT, Tick(FIRST));
    s := Extend(cfg, s, Boot(0));
    s := Extend(cfg, s, Start(0, 0, KEY, "a", FIRST));
    assert s == Holding(FIRST, {}, Waiting(FIRST), 0, Granted(FIRST));
  }

  /** Nothing happens until t', and nothing is overdue by then. */
  lemma ReachLater(cfg: Config, t: Time, t': Time, ids: set<string>, phase: Phase, fails: nat, stage: Stage)
    requires Reachable(cfg, Holding(t, ids, phase, fails, stage)) && t <= t'
    requires ProcInTime(cfg, Proc(ids, phase, fails), t') && ClientInTime(cfg, Client(0, KEY, "a", stage), t')
    ensures Reachable(cfg, Holding(t', ids, phase, fails, stage))
  {
    var s := Extend(cfg, Holding(t, ids, phase, fails, stage), Tick(t'));
    assert s == Holding(t', ids, phase, fails, stage);
  }

  lemma ReachWoken(cfg: Config, t: Time, since: Time, fails: nat)
    requires Reachable(cfg, Holding(t, {"a"}, Waiting(since), fails, Enqueued)) && since + cfg.interval <= t
    ensures Reachable(cfg, Holding(t, {"a"}, Pinging(t), fails, Enqueued))
  {
    var s := Extend(cfg, Holding(t, {"a"}, Waiting(since), fails, Enqueued), Wake(0));
    assert s == Holding(t, {"a"}, Pinging(t), fails, Enqueued);
  }

  /** From the start of a wait to the end of the longest turn that follows. */
  lemma ReachEndOfTurn(cfg: Config, t: Time, fails: nat)
    requires cfg.Valid() && Reachable(cfg, Holding(t, {"a"}, Waiting(t), fails, Enqueued))
    ensures Reachable(cfg, Holding(t + cfg.TurnTime(), {"a"}, Pinging(t + cfg.interval + cfg.slack), fails, Enqueued))
  {
    var woke := t + cfg.interval + cfg.slack;
    ReachLater(cfg, t, woke, {"a"}, Waiting(t), fails, Enqueued);
    ReachWoken(cfg, woke, t, fails);
    ReachLater(cfg, woke, t + cfg.TurnTime(), {"a"}, Pinging(woke), fails, Enqueued);
  }

  /** The first ping carries the reading of its wake-up and ends as late as it can. */
  lemma ReachFirstPing(cfg: Config)
    requires cfg.Valid()
    ensures Reachable(cfg, Holding(FIRST + cfg.delay, {"a"}, Waiting(FIRST + cfg.delay), 0, Enqueued))
  {
    ReachGranted(cfg);
    var s := Extend(cfg, Holding(FIRST, {}, Waiting(FIRST), 0, Granted(FIRST)), Enqueue(0));
    assert NextIDs({}, Add("a")) == {"a"};
    assert s == Holding(FIRST, {"a"}, Pinging(FIRST), 0, Enqueued);
    ReachFirstPingDone(cfg);
  }

  lemma ReachFirstPingDone(cfg: Config)
    requires cfg.Valid() && Reachable(cfg, Holding(FIRST, {"a"}, Pinging(FIRST), 0, Enqueued))
    ensures Reachable(cfg, Holding(FIRST + cfg.delay, {"a"}, Waiting(FIRST + cfg.delay), 0, Enqueued))
  {
    var t := FIRST + cfg.delay;
    ReachLater(cfg, FIRST, t, {"a"}, Pinging(FIRST), 0, Enqueued);
    var s := Extend(cfg, Holding(t, {"a"}, Pinging(FIRST), 0, Enqueued), PingDone(0, FIRST));
    assert s.coll == map[KEY := RECORD];
    assert s == Holding(t, {"a"}, Waiting(t), 0, Enqueued);
  }

  lemma {:induction false} ReachAge(cfg: Config, fails: nat)
    requires cfg.Valid() && fails <= cfg.maxFails
    ensures var t := FIRST + cfg.Age(fails);
            Reachable(cfg, Holding(t + cfg.TurnTime(), {"a"}, Pinging(t + cfg.interval + cfg.slack), fails, Enqueued))
  {
    var t := FIRST + cfg.Age(fails);
    LeaseSafety.AgeGrows(cfg, 0, fails);
    if fails == 0 {
      ReachFirstPing(cfg);
    } else {
      ReachAge(cfg, fails - 1);
      var woke := FIRST + cfg.Age(fails - 1) + cfg.interval + cfg.slack;
      var s := Extend(cfg, Holding(t, {"a"}, Pinging(woke), fails - 1, Enqueued), PingFailed(0));
      assert s == Holding(t, {"a"}, Waiting(t), fails, Enqueued);
    }
    ReachEndOfTurn(cfg, t, fails);
  }

  /** Past the bound a second process takes over a sync that is still in flight. */
  lemma LeaseBeyondTheBound(cfg: Config)
    requires cfg.Valid() && cfg.WorstAge() > cfg.Window()
    ensures !Safe(cfg)
  {
    ReachAge(cfg, cfg.maxFails);
    var woke := FIRST + cfg.Age(cfg.maxFails) + cfg.interval + cfg.slack;
    var s := Holding(FIRST + cfg.WorstAge(), {"a"}, Pinging(woke), cfg.maxFails, Enqueued);
    s := Extend(cfg, s, Boot(1));
    StoredMonotone(MILLI, s.now - cfg.Window());
    s := Extend(cfg, s, Start(1, 1, KEY, "b", s.now));
    assert 0 in s.clients && 1 in s.clients && s.clients[0].key == s.clients[1].key;
    assert !Exclusive(s);
  }

  /** No two syncs of one rule and engine are ever in flight together exactly
      when the worst ping age is within the takeover window. */
  lemma LeaseIsSafeExactlyWithinTheBound(cfg: Config)
    requires cfg.Valid()
    ensures Safe(cfg) <==> cfg.WorstAge() <= cfg.Window()
  {
    if cfg.WorstAge() <= cfg.Window() {
      LeaseSafety.LeaseIsSafe(cfg);
    } else {
      LeaseBeyondTheBound(cfg);
    }
  }

  lemma {:induction false} AgeIsLinear(cfg: Config, fails: nat)
    ensures cfg.Age(fails) == cfg.delay + fails * cfg.TurnTime()
  {
    if fails > 0 {
      AgeIsLinear(cfg, fails - 1);
      assert fails * cfg.TurnTime() == (fails - 1) * cfg.TurnTime() + cfg.TurnTime();
    }
  }

  /** The bound in closed form: a delay, and one turn of the loop for each ping
      that may fail and one more. */
  lemma SafeInClosedForm(cfg: Config)
    requires cfg.Valid()
    ensures Safe(cfg) <==> cfg.delay + (cfg.maxFails + 1) * (cfg.interval + cfg.slack + cfg.delay) <= Max(cfg.lockExpire, cfg.after)
  {
    AgeIsLinear(cfg, cfg.maxFails + 1);
    LeaseIsSafeExactlyWithinTheBound(cfg);
  }

  /** With the shipped interval and expiry, and at most ten seconds of delay and
      slack together, the lease survives eight failed pings in a row, whatever the
      interval between syncs. */
  lemma ShippedLeaseSurvivesEightFailures(cfg: Config)
    requires cfg.Valid() && cfg.interval == LOCK_UPDATER_INTERVAL && cfg.lockExpire == DEFAULT_LOCK_EXPIRE
    requires cfg.slack + cfg.delay <= 10 * SECOND && cfg.maxFails <= 8
    ensures LOCK_UPDATER_INTERVAL == 20_000_000_000 && DEFAULT_LOCK_EXPIRE == 300_000_000_000
    ensures Safe(cfg)
  {
    SafeInClosedForm(cfg);
    assert (cfg.maxFails + 1) * cfg.TurnTime() <= 9 * cfg.TurnTime();
  }
}
