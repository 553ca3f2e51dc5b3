/** No instance ever holds the same destination twice. */
module ServiceDistinct {
  import opened Basics
  import opened Clock
  import opened RuleTypes
  import opened ServiceModel
  import opened ServiceSound
  import opened ServiceCalls
  import opened ServiceRuns

  predicate WellStored(checks: Checks, b: ServiceRule) {
    ValidType(checks, b.rule.destination) && PortsDecoded(b.rule.destination)
  }

  /** Two base rules, both in force, do not denote the same destination. */
  predicate Differ(b: ServiceRule, c: ServiceRule) {
    !b.rule.removed && !c.rule.removed ==> Denotes(b.rule.destination) != Denotes(c.rule.destination)
  }

  /** Every base rule is valid and differs from each one before it. */
  predicate Distinct(checks: Checks, bases: seq<ServiceRule>) {
    bases == [] ||
      var before, last := bases[..|bases| - 1], bases[|bases| - 1];
      Distinct(checks, before) && WellStored(checks, last) && forall b :: b in before ==> Differ(b, last)
  }

  lemma {:induction false} DistinctAt(checks: Checks, bases: seq<ServiceRule>, j: nat, k: nat)
    requires Distinct(checks, bases) && j < k < |bases|
    ensures WellStored(checks, bases[j]) && WellStored(checks, bases[k]) && Differ(bases[j], bases[k])
  {
    var n := |bases| - 1;
    if k < n {
      DistinctAt(checks, bases[..n], j, k);
    } else {
      assert bases[j] in bases[..n];
      StoredAt(checks, bases, j);
    }
  }

  lemma {:induction false} StoredAt(checks: Checks, bases: seq<ServiceRule>, j: nat)
    requires Distinct(checks, bases) && j < |bases|
    ensures WellStored(checks, bases[j])
  {
    if j < |bases| - 1 {
      StoredAt(checks, bases[..|bases| - 1], j);
    }
  }

  lemma {:induction false} WithoutKeepsDistinct(checks: Checks, bases: seq<ServiceRule>, drop: ServiceRule -> bool)
    requires Distinct(checks, bases)
    ensures Distinct(checks, Without(bases, drop))
  {
    if bases != [] {
      var n := |bases| - 1;
      WithoutKeepsDistinct(checks, bases[..n], drop);
      var w := Without(bases[..n], drop);
      if drop(bases[n]) {
        assert Without(bases, drop) == w;
      } else {
        assert Without(bases, drop) == w + [bases[n]] && (w + [bases[n]])[..|w|] == w;
        forall b | b in w ensures Differ(b, bases[n]) {
          WithoutMembers(bases[..n], drop, b);
        }
      }
    }
  }

  /** The duplicate check of the code is enough to keep destinations distinct. */
  lemma PushKeepsDistinct(checks: Checks, i: Instance, base: ServiceRule, newID: string, created: Time)
    requires Distinct(checks, i.baseRules) && ValidType(checks, base.rule.destination) && !AlreadyThere(i, base)
    ensures Distinct(checks, i.baseRules + [NewBase(base, newID, created)])
  {
    var b := NewBase(base, newID, created);
    var all := i.baseRules + [b];
    DecodedDenotesTheSame(checks, base.rule.destination);
    assert all[..|all| - 1] == i.baseRules;
    forall c | c in i.baseRules ensures Differ(c, b) {
      var k :| 0 <= k < |i.baseRules| && i.baseRules[k] == c;
      StoredAt(checks, i.baseRules, k);
      if !c.rule.removed {
        EqualsMeansSameDestination(checks, c.rule.destination, base.rule.destination);
      }
    }
  }

  /** Some base rule in force leads to the destination already, or is a job, which
      the comparison takes for any destination. */
  predicate Taken(i: Instance, r: ServiceRule) {
    exists b :: b in i.baseRules && !b.rule.removed
      && (b.rule.destination.tsuruJob.Some? || Denotes(b.rule.destination) == Denotes(r.rule.destination))
  }

  /** What the duplicate check of the code finds. */
  lemma AlreadyThereIffTaken(checks: Checks, i: Instance, r: ServiceRule)
    requires Distinct(checks, i.baseRules) && ValidType(checks, r.rule.destination)
    ensures AlreadyThere(i, r) <==> Taken(i, r)
  {
    forall k | 0 <= k < |i.baseRules|
      ensures Equals(Some(i.baseRules[k].rule.destination), Some(r.rule.destination)) <==>
              i.baseRules[k].rule.destination.tsuruJob.Some?
              || Denotes(i.baseRules[k].rule.destination) == Denotes(r.rule.destination)
    {
      StoredAt(checks, i.baseRules, k);
      EqualsMeansSameDestination(checks, i.baseRules[k].rule.destination, r.rule.destination);
    }
    if AlreadyThere(i, r) {
      var k :| 0 <= k < |i.baseRules| && !i.baseRules[k].rule.removed
        && Equals(Some(i.baseRules[k].rule.destination), Some(r.rule.destination));
      assert i.baseRules[k] in i.baseRules;
    }
  }

  ghost predicate AllDistinct(checks: Checks, s: State) {
    forall n :: n in s.instances ==> Distinct(checks, s.instances[n].baseRules)
  }

  lemma RemovalKeepsDistinct(checks: Checks, s: State, filter: map<string, string>, last: Write, ws: seq<Write>, k: nat)
    requires Inv(s) && AllDistinct(checks, s) && RemovalPlan(s, filter, last, ws) && k <= |ws|
    requires last.DropInstance? || last.PullRule? || last.Unbind?
    ensures AllDistinct(checks, DoAll(s, ws[..k]))
  {
    var m := RemovalStopped(s, filter, last, ws, k);
    if last.PullRule? && last.n in s.instances {
      WithoutKeepsDistinct(checks, s.instances[last.n].baseRules, (b: ServiceRule) => b.rule.ruleID == last.id);
    }
  }

  lemma GrowKeepsDistinct(checks: Checks, s: State, w: Write, n: string, now: Time, ws: seq<Write>, k: nat)
    requires Inv(s) && AllDistinct(checks, s) && Grows(s, w, n)
    requires ws == [w] + SyncWrites(checks, DoWrite(s, w).instances[n], now) && k <= |ws|
    requires Distinct(checks, DoWrite(s, w).instances[n].baseRules)
    ensures AllDistinct(checks, DoAll(s, ws[..k]))
  {
    GrowEffect(s, w, n);
    GrowStopped(checks, s, w, n, now, ws, k);
    if k == 0 {
      assert DoAll(s, ws[..k]) == s;
    }
  }

  lemma SingleKeepsDistinct(checks: Checks, s: State, ws: seq<Write>, k: nat)
    requires AllDistinct(checks, s) && |ws| == 1 && k <= 1
    requires !ws[0].PushRule? && !ws[0].PullRule? && (ws[0].InsertInstance? ==> ws[0].instance.baseRules == [])
    ensures AllDistinct(checks, DoAll(s, ws[..k]))
  {
    SingleWrite(s, ws, k);
  }

  lemma AddRuleKeepsDistinct(checks: Checks, s: State, c: Call, ws: seq<Write>, answer: Answer, k: nat)
    requires Inv(s) && AllDistinct(checks, s) && c.AddRule?
    requires Legal(s, c) && Plan(checks, s, c, ws, answer) && k <= |ws|
    ensures AllDistinct(checks, DoAll(s, ws[..k]))
  {
    if ws != [] {
      var b := NewBase(c.base, c.newID, c.created);
      PushKeepsDistinct(checks, s.instances[c.n], c.base, c.newID, c.created);
      assert DoWrite(s, PushRule(c.n, b)).instances[c.n].baseRules == s.instances[c.n].baseRules + [b];
      GrowKeepsDistinct(checks, s, PushRule(c.n, b), c.n, c.now, ws, k);
    } else {
      assert DoAll(s, ws[..k]) == s;
    }
  }

  lemma BindKeepsDistinct(checks: Checks, s: State, c: Call, ws: seq<Write>, answer: Answer, k: nat)
    requires Inv(s) && AllDistinct(checks, s) && c.Add?
    requires Plan(checks, s, c, ws, answer) && k <= |ws|
    ensures AllDistinct(checks, DoAll(s, ws[..k]))
  {
    if c.n in s.instances {
      assert DoWrite(s, Bind(c.n, c.t)).instances[c.n].baseRules == s.instances[c.n].baseRules;
      GrowKeepsDistinct(checks, s, Bind(c.n, c.t), c.n, c.now, ws, k);
    } else {
      SingleKeepsDistinct(checks, s, ws, k);
    }
  }

  lemma StoppedKeepsDistinct(checks: Checks, s: State, c: Call, ws: seq<Write>, answer: Answer, k: nat, s': State)
    requires Inv(s) && AllDistinct(checks, s) && Stopped(checks, s, c, ws, answer, k, s')
    ensures AllDistinct(checks, s')
  {
    match c
    case Delete(n) => RemovalKeepsDistinct(checks, s, InstanceFilter(n), DropInstance(n), ws, k);
    case RemoveRule(n, id) => RemovalKeepsDistinct(checks, s, BaseFilter(n, id), PullRule(n, id), ws, k);
    case Remove(n, t) => RemovalKeepsDistinct(checks, s, TargetFilter(n, t), Unbind(n, t), ws, k);
    case AddRule(_, _, _, _, _) => AddRuleKeepsDistinct(checks, s, c, ws, answer, k);
    case Add(_, _, _) => BindKeepsDistinct(checks, s, c, ws, answer, k);
    case Create(_, _, _) => SingleKeepsDistinct(checks, s, ws, k);
    case SaveRule(_) => SingleKeepsDistinct(checks, s, ws, k);
    case DeleteRule(_) => SingleKeepsDistinct(checks, s, ws, k);
  }

  lemma {:induction false} RunKeepsDistinct(checks: Checks, states: seq<State>, calls: seq<Call>, i: nat)
    requires IsRun(checks, states, calls) && i < |states|
    ensures AllDistinct(checks, states[i])
  {
    if i > 0 {
      RunKeepsDistinct(checks, states, calls, i - 1);
      RunKeepsInv(checks, states, calls, i - 1);
      var ws: seq<Write>, answer: Answer, k: nat :| Stopped(checks, states[i - 1], calls[i - 1], ws, answer, k, states[i]);
      StoppedKeepsDistinct(checks, states[i - 1], calls[i - 1], ws, answer, k, states[i]);
    }
  }

  /** In every state of every serial run, crashes included, two base rules of one
      instance that are both in force have different destinations. */
  lemma NoDuplicateDestinations(checks: Checks, states: seq<State>, calls: seq<Call>, i: nat, n: string, j: nat, k: nat)
    requires IsRun(checks, states, calls) && i < |states| && n in states[i].instances
    requires j < k < |states[i].instances[n].baseRules|
    requires !states[i].instances[n].baseRules[j].rule.removed && !states[i].instances[n].baseRules[k].rule.removed
    ensures Denotes(states[i].instances[n].baseRules[j].rule.destination)
         != Denotes(states[i].instances[n].baseRules[k].rule.destination)
  {
    RunKeepsDistinct(checks, states, calls, i);
    DistinctAt(checks, states[i].instances[n].baseRules, j, k);
  }

  /** A job destination in force shuts its instance to every further base rule:
      the comparison finds it equal to all of them. */
  lemma JobDestinationShutsTheInstance(i: Instance, k: nat, r: ServiceRule)
    requires k < |i.baseRules| && !i.baseRules[k].rule.removed
    requires i.baseRules[k].rule.destination == NO_TYPE.(tsuruJob := i.baseRules[k].rule.destination.tsuruJob)
    ensures AlreadyThere(i, r)
  {
  }
}
