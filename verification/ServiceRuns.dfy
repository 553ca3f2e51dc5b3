/** Serial runs of the service in which any call may stop at any write. */
module ServiceRuns {
  import opened Basics
  import opened Clock
  import opened RuleTypes
  import opened RuleFilter
  import opened ServiceIDs
  import opened ServiceModel
  import opened ServiceSound
  import opened ServiceCalls

  // ---------------------------------------------------------------- growing calls

  /** The first write of an add: it enlarges one instance. */
  ghost predicate Grows(s: State, w: Write, n: string) {
    && (w.Bind? || (w.PushRule? && IsObjectID(w.base.rule.ruleID) && w.base.rule.ruleID !in s.issued))
    && w.n == n
    && n in s.instances
  }

  lemma GrowEffect(s: State, w: Write, n: string)
    requires Inv(s) && Grows(s, w, n)
    ensures var s1 := DoWrite(s, w);
            Inv(s1) && n in s1.instances && s1.rules == s.rules && s1.instances == s.instances[n := s1.instances[n]]
  {
    match w {
      case Bind(_, t) => BindKeepsInv(s, n, t);
      case PushRule(_, b) => PushRuleKeepsInv(s, n, b);
    }
  }

  lemma SyncStopped(checks: Checks, s: State, n: string, now: Time, k: nat)
    requires Inv(s) && n in s.instances && k <= |SyncWrites(checks, s.instances[n], now)|
    ensures var us := SyncWrites(checks, s.instances[n], now);
            var s' := DoAll(s, us[..k]);
            && Inv(s') && OnlyOwnedChanged(s, s', n) && s'.instances == s.instances && s'.issued == s.issued
            && (k == |us| && ValidRules(checks, Expand(s.instances[n])) ==> Live(s', n) == ProductOf(s', n))
  {
    var rs, us := Expand(s.instances[n]), SyncWrites(checks, s.instances[n], now);
    if ValidRules(checks, rs) {
      forall r | r in rs ensures IsExpansion(s.instances[n], r) { ExpandMembers(s.instances[n], r); }
      UpsertsKeep(s, n, rs, now, k);
      if k == |us| {
        assert us[..k] == us;
        FullSyncIsExact(s, n, now);
      }
    } else {
      assert us[..k] == [];
    }
  }

  lemma GrowStopped(checks: Checks, s: State, w: Write, n: string, now: Time, ws: seq<Write>, k: nat)
    requires Inv(s) && Grows(s, w, n) && ws == [w] + SyncWrites(checks, DoWrite(s, w).instances[n], now) && k <= |ws|
    ensures var s' := DoAll(s, ws[..k]);
            && Inv(s') && OnlyOwnedChanged(s, s', n)
            && n in s'.instances
            && (k > 0 ==> s'.instances == DoWrite(s, w).instances && s'.issued == DoWrite(s, w).issued)
            && (k == |ws| && ValidRules(checks, Expand(DoWrite(s, w).instances[n])) ==> Live(s', n) == ProductOf(s', n))
  {
    if k > 0 {
      GrowEffect(s, w, n);
      var s1 := DoWrite(s, w);
      var us := SyncWrites(checks, s1.instances[n], now);
      assert ws[..k] == [w] + us[..k - 1];
      DoAllSplit(s, [w], us[..k - 1]);
      assert DoAll(s, [w]) == s1;
      SyncStopped(checks, s1, n, now, k - 1);
    }
  }

  // ---------------------------------------------------------------- removing calls

  /** m is s with some of the rules that the filter selects marked. */
  ghost predicate Marked(s: State, m: State, filter: map<string, string>) {
    && m.instances == s.instances && m.issued == s.issued && m.rules.Keys == s.rules.Keys
    && (forall id :: id in s.rules ==> m.rules[id] == s.rules[id] || m.rules[id] == s.rules[id].(removed := true))
    && (forall id :: id in s.rules && !Includes(s.rules[id].metadata, filter) ==> m.rules[id] == s.rules[id])
  }

  ghost predicate AllMarked(s: State, m: State, filter: map<string, string>)
    requires Marked(s, m, filter)
  {
    forall id :: id in s.rules && Includes(s.rules[id].metadata, filter) ==> m.rules[id].removed
  }

  lemma RemovalStopped(s: State, filter: map<string, string>, last: Write, ws: seq<Write>, k: nat) returns (m: State)
    requires Inv(s) && RemovalPlan(s, filter, last, ws) && k <= |ws|
    ensures Inv(m) && Marked(s, m, filter)
    ensures k < |ws| ==> DoAll(s, ws[..k]) == m
    ensures k == |ws| ==> DoAll(s, ws[..k]) == DoWrite(m, last) && AllMarked(s, m, filter)
  {
    var j := if k < |ws| then k else k - 1;
    m := DoAll(s, ws[..j]);
    MarksEffect(s, ws[..j]);
    MarksKeepInv(s, ws[..j]);
    forall id | MarkRemoved(id) in ws[..j] ensures id in s.rules && Includes(s.rules[id].metadata, filter) {
      assert MarkRemoved(id) in ws[..|ws| - 1];
    }
    assert k == |ws| ==> ws[..k][..k - 1] == ws[..j] && ws[..k] == ws;
  }

  lemma MarkedIsOwned(s: State, m: State, filter: map<string, string>, n: string, s': State)
    requires Marked(s, m, filter) && s'.rules == m.rules
    requires forall id :: id in s.rules && Includes(s.rules[id].metadata, filter) ==> Owned(s.rules[id], n)
    ensures OnlyOwnedChanged(s, s', n)
  {
  }

  lemma TargetFilterSelects(s: State, n: string, t: Target, id: string)
    requires RulesShaped(s) && id in s.rules
    ensures Includes(s.rules[id].metadata, TargetFilter(n, t)) <==> Owned(s.rules[id], n) && TargetOf(s.rules[id].metadata) == t
  {
    var md, f := s.rules[id].metadata, TargetFilter(n, t);
    assert Shaped(s, id, s.rules[id]);
    if Includes(md, f) {
      assert "owner" in f && "instance-name" in f;
      assert t.App? ==> "app-name" in f;
      assert t.Job? ==> "job-name" in f;
    }
  }

  lemma BaseFilterSelects(s: State, n: string, base: string, id: string)
    requires RulesShaped(s) && id in s.rules
    ensures Includes(s.rules[id].metadata, BaseFilter(n, base)) <==>
            Owned(s.rules[id], n) && "base-ruleid" in s.rules[id].metadata && s.rules[id].metadata["base-ruleid"] == base
  {
    var md, f := s.rules[id].metadata, BaseFilter(n, base);
    if Includes(md, f) {
      assert "owner" in f && "instance-name" in f && "base-ruleid" in f;
    }
  }

  lemma InstanceFilterSelects(r: Rule, n: string)
    ensures Includes(r.metadata, InstanceFilter(n)) <==> Owned(r, n)
  {
    var f := InstanceFilter(n);
    assert "owner" in f && "instance-name" in f;
  }

  lemma AllMarkedTarget(s: State, m: State, n: string, t: Target)
    requires RulesShaped(s) && Marked(s, m, TargetFilter(n, t)) && AllMarked(s, m, TargetFilter(n, t))
    ensures NoLiveTarget(m, n, t)
  {
    forall id | id in m.rules && Owned(m.rules[id], n) && !m.rules[id].removed ensures TargetOf(m.rules[id].metadata) != t {
      TargetFilterSelects(s, n, t, id);
    }
  }

  lemma AllMarkedBase(s: State, m: State, n: string, base: string)
    requires RulesShaped(s) && Marked(s, m, BaseFilter(n, base)) && AllMarked(s, m, BaseFilter(n, base))
    ensures NoLiveBase(m, n, base)
  {
    forall id | id in m.rules && Owned(m.rules[id], n) && !m.rules[id].removed
      ensures "base-ruleid" in m.rules[id].metadata && m.rules[id].metadata["base-ruleid"] != base
    {
      assert Shaped(s, id, s.rules[id]);
      BaseFilterSelects(s, n, base, id);
    }
  }

  lemma AllMarkedInstance(s: State, m: State, n: string)
    requires Marked(s, m, InstanceFilter(n)) && AllMarked(s, m, InstanceFilter(n))
    ensures NoneLive(m, n)
  {
    forall id | id in m.rules && Owned(m.rules[id], n) ensures m.rules[id].removed {
      InstanceFilterSelects(s.rules[id], n);
    }
  }

  lemma RemoveStopped(s: State, n: string, t: Target, ws: seq<Write>, k: nat)
    requires Inv(s) && RemovalPlan(s, TargetFilter(n, t), Unbind(n, t), ws) && k <= |ws|
    ensures Inv(DoAll(s, ws[..k])) && OnlyOwnedChanged(s, DoAll(s, ws[..k]), n)
  {
    var m := RemovalStopped(s, TargetFilter(n, t), Unbind(n, t), ws, k);
    if k == |ws| {
      AllMarkedTarget(s, m, n, t);
      UnbindKeepsInv(m, n, t);
    }
    forall id | id in s.rules && Includes(s.rules[id].metadata, TargetFilter(n, t)) ensures Owned(s.rules[id], n) {
      TargetFilterSelects(s, n, t, id);
    }
    MarkedIsOwned(s, m, TargetFilter(n, t), n, DoAll(s, ws[..k]));
  }

  lemma RemoveRuleStopped(s: State, n: string, base: string, ws: seq<Write>, k: nat)
    requires Inv(s) && RemovalPlan(s, BaseFilter(n, base), PullRule(n, base), ws) && k <= |ws|
    ensures Inv(DoAll(s, ws[..k])) && OnlyOwnedChanged(s, DoAll(s, ws[..k]), n)
  {
    var m := RemovalStopped(s, BaseFilter(n, base), PullRule(n, base), ws, k);
    if k == |ws| {
      AllMarkedBase(s, m, n, base);
      PullRuleKeepsInv(m, n, base);
    }
    forall id | id in s.rules && Includes(s.rules[id].metadata, BaseFilter(n, base)) ensures Owned(s.rules[id], n) {
      BaseFilterSelects(s, n, base, id);
    }
    MarkedIsOwned(s, m, BaseFilter(n, base), n, DoAll(s, ws[..k]));
  }

  lemma DeleteStopped(s: State, n: string, ws: seq<Write>, k: nat)
    requires Inv(s) && RemovalPlan(s, InstanceFilter(n), DropInstance(n), ws) && k <= |ws|
    ensures Inv(DoAll(s, ws[..k])) && OnlyOwnedChanged(s, DoAll(s, ws[..k]), n)
  {
    var m := RemovalStopped(s, InstanceFilter(n), DropInstance(n), ws, k);
    if k == |ws| {
      AllMarkedInstance(s, m, n);
      DropInstanceKeepsInv(m, n);
    }
    forall id | id in s.rules && Includes(s.rules[id].metadata, InstanceFilter(n)) ensures Owned(s.rules[id], n) {
      InstanceFilterSelects(s.rules[id], n);
    }
    MarkedIsOwned(s, m, InstanceFilter(n), n, DoAll(s, ws[..k]));
  }

  // ---------------------------------------------------------------- crash soundness

  predicate OnInstance(c: Call) {
    !c.SaveRule? && !c.DeleteRule?
  }

  lemma AddStopped(checks: Checks, s: State, c: Call, ws: seq<Write>, answer: Answer, k: nat)
    requires Inv(s) && Legal(s, c) && Plan(checks, s, c, ws, answer) && Adds(c) && k <= |ws|
    ensures Inv(DoAll(s, ws[..k])) && OnlyOwnedChanged(s, DoAll(s, ws[..k]), c.n)
  {
    match c
    case AddRule(n, base, newID, created, now) =>
      if ws != [] {
        GrowStopped(checks, s, PushRule(n, NewBase(base, newID, created)), n, now, ws, k);
      }
    case Add(n, t, now) =>
      if n in s.instances {
        GrowStopped(checks, s, Bind(n, t), n, now, ws, k);
      } else {
        SingleWrite(s, ws, k);
      }
  }

  lemma BypassStopped(checks: Checks, s: State, c: Call, ws: seq<Write>, answer: Answer, k: nat)
    requires Inv(s) && Legal(s, c) && Plan(checks, s, c, ws, answer) && !OnInstance(c) && k <= |ws|
    ensures Inv(DoAll(s, ws[..k]))
  {
    SingleWrite(s, ws, k);
    match c
    case SaveRule(rule) => InsertRuleKeepsInv(s, rule);
    case DeleteRule(id) => MarkRemovedKeepsInv(s, id);
  }

  /** Wherever a call stops, whatever it was, the invariant holds, so nothing is
      live beyond the products; and a call on one instance leaves alone every
      rule that is not of it. */
  lemma StoppedKeepsInv(checks: Checks, s: State, c: Call, ws: seq<Write>, answer: Answer, k: nat, s': State)
    requires Inv(s) && Stopped(checks, s, c, ws, answer, k, s')
    ensures Inv(s')
    ensures OnInstance(c) ==> OnlyOwnedChanged(s, s', c.n)
  {
    match c
    case Create(n, creator, eventID) =>
      InsertInstanceKeepsInv(s, Instance(n, creator, eventID, [], [], []));
      SingleWrite(s, ws, k);
    case Delete(n) => DeleteStopped(s, n, ws, k);
    case RemoveRule(n, id) => RemoveRuleStopped(s, n, id, ws, k);
    case Remove(n, t) => RemoveStopped(s, n, t, ws, k);
    case AddRule(_, _, _, _, _) => AddStopped(checks, s, c, ws, answer, k);
    case Add(_, _, _) => AddStopped(checks, s, c, ws, answer, k);
    case SaveRule(_) => BypassStopped(checks, s, c, ws, answer, k);
    case DeleteRule(_) => BypassStopped(checks, s, c, ws, answer, k);
  }

  lemma SingleWrite(s: State, ws: seq<Write>, k: nat)
    requires |ws| == 1 && k <= 1
    ensures DoAll(s, ws[..k]) == if k == 0 then s else DoWrite(s, ws[0])
  {
    assert DoAll(s, []) == s;
    assert ws[..1] == ws && ws[..1][..0] == [];
  }

  lemma {:induction false} RunKeepsInv(checks: Checks, states: seq<State>, calls: seq<Call>, i: nat)
    requires IsRun(checks, states, calls) && i < |states|
    ensures Inv(states[i])
  {
    if i > 0 {
      RunKeepsInv(checks, states, calls, i - 1);
      var ws: seq<Write>, answer: Answer, k: nat :| Stopped(checks, states[i - 1], calls[i - 1], ws, answer, k, states[i]);
      StoppedKeepsInv(checks, states[i - 1], calls[i - 1], ws, answer, k, states[i]);
    }
  }

  /** In every state of every run, whatever crashed before, the live rules of an
      instance are within its product. */
  lemma LiveWithinProduct(checks: Checks, states: seq<State>, calls: seq<Call>, i: nat, n: string)
    requires IsRun(checks, states, calls) && i < |states|
    ensures Live(states[i], n) <= ProductOf(states[i], n)
  {
    RunKeepsInv(checks, states, calls, i);
    SoundMeansSubset(states[i], n);
  }

  // ---------------------------------------------------------------- healing

  lemma CompleteAddIsExact(checks: Checks, s: State, c: Call, ws: seq<Write>, answer: Answer)
    requires Inv(s) && Legal(s, c) && Plan(checks, s, c, ws, answer) && Adds(c) && answer.Ok?
    ensures var s' := DoAll(s, ws);
            c.n in s'.instances && Live(s', c.n) == ProductOf(s', c.n)
  {
    assert ws[..|ws|] == ws;
    match c
    case AddRule(n, base, newID, created, now) =>
      GrowStopped(checks, s, PushRule(n, NewBase(base, newID, created)), n, now, ws, |ws|);
    case Add(n, t, now) =>
      GrowStopped(checks, s, Bind(n, t), n, now, ws, |ws|);
  }

  /** Any add that succeeds makes the live rules of its instance exactly its
      product again, whatever failed before it in the run. */
  lemma SuccessfulAddHeals(checks: Checks, states: seq<State>, calls: seq<Call>, i: nat, ws: seq<Write>, answer: Answer)
    requires IsRun(checks, states, calls) && i < |calls| && Adds(calls[i]) && answer.Ok?
    requires Stopped(checks, states[i], calls[i], ws, answer, |ws|, states[i + 1])
    ensures var s' := states[i + 1];
            calls[i].n in s'.instances && Live(s', calls[i].n) == ProductOf(s', calls[i].n)
  {
    RunKeepsInv(checks, states, calls, i);
    CompleteAddIsExact(checks, states[i], calls[i], ws, answer);
    assert ws[..|ws|] == ws;
  }

  // ---------------------------------------------------------------- isolation

  lemma SameLive(s: State, s': State, n: string, m: string)
    requires OnlyOwnedChanged(s, s', n) && m != n
    ensures Live(s', m) == Live(s, m)
  {
    forall x | x in Live(s, m) ensures x in Live(s', m) {
      var id :| id in s.rules && !s.rules[id].removed && Owned(s.rules[id], m) && x == Content(s.rules[id]);
      assert id in s'.rules && s'.rules[id] == s.rules[id];
    }
    forall x | x in Live(s', m) ensures x in Live(s, m) {
      var id :| id in s'.rules && !s'.rules[id].removed && Owned(s'.rules[id], m) && x == Content(s'.rules[id]);
      assert id in s.rules && s'.rules[id] == s.rules[id];
    }
  }

  /** A call on one instance changes no live rule of another. */
  lemma OtherInstancesUntouched(checks: Checks, s: State, c: Call, s': State, m: string)
    requires Inv(s) && Next(checks, s, c, s') && OnInstance(c) && m != c.n
    ensures Live(s', m) == Live(s, m)
  {
    var ws: seq<Write>, answer: Answer, k: nat :| Stopped(checks, s, c, ws, answer, k, s');
    StoppedKeepsInv(checks, s, c, ws, answer, k, s');
    SameLive(s, s', c.n, m);
  }

  /** A removal, wherever it stops, leaves alone what its filter does not select. */
  lemma RemovalLeavesOthers(s: State, filter: map<string, string>, last: Write, ws: seq<Write>, k: nat, id: string)
    requires Inv(s) && RemovalPlan(s, filter, last, ws) && k <= |ws|
    requires last.DropInstance? || last.PullRule? || last.Unbind?
    requires id in s.rules && !Includes(s.rules[id].metadata, filter)
    ensures id in DoAll(s, ws[..k]).rules && DoAll(s, ws[..k]).rules[id] == s.rules[id]
  {
    var m := RemovalStopped(s, filter, last, ws, k);
    assert DoWrite(m, last).rules == m.rules;
  }

  /** Unbinding one target never affects the rules of another, even of a job
      that has the name of the application. */
  lemma UnbindingIsByKind(checks: Checks, s: State, n: string, t: Target, s': State, id: string)
    requires Inv(s) && Next(checks, s, Remove(n, t), s')
    requires id in s.rules && TargetOf(s.rules[id].metadata) != t
    ensures id in s'.rules && s'.rules[id] == s.rules[id]
  {
    var ws: seq<Write>, answer: Answer, k: nat :| Stopped(checks, s, Remove(n, t), ws, answer, k, s');
    TargetFilterSelects(s, n, t, id);
    RemovalLeavesOthers(s, TargetFilter(n, t), Unbind(n, t), ws, k, id);
  }

  // ---------------------------------------------------------------- no resurrection

  ghost predicate LiveOf(s: State, id: string) {
    id in s.rules && Serviced(s.rules[id].metadata) && !s.rules[id].removed
  }

  /** Calls that only mark never make a rule live. */
  lemma RemovalRevivesNothing(s: State, filter: map<string, string>, last: Write, ws: seq<Write>, k: nat, id: string)
    requires Inv(s) && RemovalPlan(s, filter, last, ws) && k <= |ws|
    requires last.DropInstance? || last.PullRule? || last.Unbind?
    requires LiveOf(DoAll(s, ws[..k]), id)
    ensures LiveOf(s, id)
  {
    var m := RemovalStopped(s, filter, last, ws, k);
    assert DoWrite(m, last).rules == m.rules;
    assert id in s.rules;
  }

  lemma RevivalNeedsAdd(checks: Checks, s: State, c: Call, ws: seq<Write>, answer: Answer, k: nat, s': State, id: string)
    requires Inv(s) && Stopped(checks, s, c, ws, answer, k, s')
    requires !LiveOf(s, id) && LiveOf(s', id)
    ensures Adds(c)
  {
    match c
    case Delete(n) => RemovalRevivesNothing(s, InstanceFilter(n), DropInstance(n), ws, k, id);
    case RemoveRule(n, base) => RemovalRevivesNothing(s, BaseFilter(n, base), PullRule(n, base), ws, k, id);
    case Remove(n, t) => RemovalRevivesNothing(s, TargetFilter(n, t), Unbind(n, t), ws, k, id);
    case AddRule(_, _, _, _, _) =>
    case Add(_, _, _) =>
    case Create(_, _, _) => SingleWrite(s, ws, k);
    case SaveRule(_) => SingleWrite(s, ws, k);
    case DeleteRule(_) => SingleWrite(s, ws, k);
  }

  /** The instance, base rule and target that a live rule comes from. */
  lemma LiveHasOrigin(s: State, id: string) returns (n: string, b: ServiceRule, t: Target)
    requires Inv(s) && LiveOf(s, id)
    ensures n in s.instances && b in s.instances[n].baseRules && t in Targets(s.instances[n]) && !b.rule.removed
    ensures Owned(s.rules[id], n) && id == ExpandedID(b.rule.ruleID, t)
    ensures s.rules[id].metadata == MetadataOf(b.rule.ruleID, n, t)
    ensures s.rules[id].source == SourceOf(t) && s.rules[id].destination == b.rule.destination
    ensures s.rules[id].creator == b.rule.creator
  {
    var r := s.rules[id];
    assert Backed(s, r) && Shaped(s, id, r);
    n := r.metadata["instance-name"];
    b, t := ProductOrigin(s.instances[n], r);
    MetadataIsExpanded(b.rule.ruleID, n, t);
    assert Content(r) == Content(ExpandOne(n, b, t));
    assert Content(r).destination == r.destination && Content(r).source == r.source && Content(r).creator == r.creator;
  }

  /** In every state of every run, a live rule of the service goes from an
      application or a job that its instance is bound to, to the destination of a
      base rule of its instance that is in force, and says so. */
  lemma LiveRulesInFull(checks: Checks, states: seq<State>, calls: seq<Call>, i: nat, id: string)
    returns (n: string, b: ServiceRule, name: string)
    requires IsRun(checks, states, calls) && i < |states| && LiveOf(states[i], id)
    ensures n in states[i].instances && b in states[i].instances[n].baseRules && !b.rule.removed
    ensures var r, inst := states[i].rules[id], states[i].instances[n];
            && r.destination == b.rule.destination && r.creator == b.rule.creator
            && ((name in inst.bindApps && id == b.rule.ruleID + "-" + name
                   && r.source == NO_TYPE.(tsuruApp := Some(TsuruAppRule(name, "")))
                   && r.metadata == map["owner" := "aclfromhell", "base-ruleid" := b.rule.ruleID,
                                        "instance-name" := n, "app-name" := name])
                || (name in inst.bindJobs && id == "job-" + b.rule.ruleID + "-" + name
                      && r.source == NO_TYPE.(tsuruJob := Some(TsuruJobRule(name)))
                      && r.metadata == map["owner" := "aclfromhell", "base-ruleid" := b.rule.ruleID,
                                           "instance-name" := n, "job-name" := name]))
  {
    RunKeepsInv(checks, states, calls, i);
    var t;
    n, b, t := LiveHasOrigin(states[i], id);
    name := t.name;
    BoundNames(states[i].instances[n], t);
    OneInFull(n, b, name);
    assert t == App(name) || t == Job(name);
  }

  /** Where the view is exact, every base rule in force leads from every bound
      application and job to its destination, by a rule that is live. */
  lemma ExactInFull(s: State, n: string, b: ServiceRule, name: string)
    requires Inv(s) && n in s.instances && Live(s, n) == Product(s.instances[n])
    requires b in s.instances[n].baseRules && !b.rule.removed
    ensures name in s.instances[n].bindApps ==>
              var id := b.rule.ruleID + "-" + name;
              && id in s.rules && !s.rules[id].removed && s.rules[id].destination == b.rule.destination
              && s.rules[id].source == NO_TYPE.(tsuruApp := Some(TsuruAppRule(name, "")))
    ensures name in s.instances[n].bindJobs ==>
              var id := "job-" + b.rule.ruleID + "-" + name;
              && id in s.rules && !s.rules[id].removed && s.rules[id].destination == b.rule.destination
              && s.rules[id].source == NO_TYPE.(tsuruJob := Some(TsuruJobRule(name)))
  {
    if name in s.instances[n].bindApps {
      ExactForTarget(s, n, b, App(name));
    }
    if name in s.instances[n].bindJobs {
      ExactForTarget(s, n, b, Job(name));
    }
    OneInFull(n, b, name);
  }

  lemma ExactForTarget(s: State, n: string, b: ServiceRule, t: Target)
    requires Inv(s) && n in s.instances && Live(s, n) == Product(s.instances[n])
    requires b in s.instances[n].baseRules && !b.rule.removed
    requires (t.App? && t.name in s.instances[n].bindApps) || (t.Job? && t.name in s.instances[n].bindJobs)
    ensures var r := ExpandOne(n, b, t);
            && r.ruleID in s.rules && !s.rules[r.ruleID].removed
            && s.rules[r.ruleID].destination == r.destination && s.rules[r.ruleID].source == r.source
  {
    var r := ExpandOne(n, b, t);
    BoundNames(s.instances[n], t);
    ProductMember(s.instances[n], b, t);
    assert Content(r) in Live(s, n);
    var id :| id in s.rules && !s.rules[id].removed && Owned(s.rules[id], n) && Content(r) == Content(s.rules[id]);
    assert Shaped(s, id, s.rules[id]);
    assert Content(r).ruleID == r.ruleID && Content(s.rules[id]).ruleID == id;
    assert Content(r).destination == r.destination && Content(s.rules[id]).destination == s.rules[id].destination;
    assert Content(r).source == r.source && Content(s.rules[id]).source == s.rules[id].source;
  }

  /** The source of a live rule, by which rules are looked up, and its metadata,
      by which they are removed, name the same application or job. */
  lemma SourceAgreesWithMetadata(s: State, id: string, name: string)
    requires Inv(s) && LiveOf(s, id)
    ensures var r := s.rules[id];
            && (r.source.tsuruApp == Some(TsuruAppRule(name, "")) <==> "app-name" in r.metadata && r.metadata["app-name"] == name)
            && (r.source.tsuruJob == Some(TsuruJobRule(name)) <==> "job-name" in r.metadata && r.metadata["job-name"] == name)
  {
    var r := s.rules[id];
    assert Backed(s, r) && Shaped(s, id, r);
    var i := s.instances[r.metadata["instance-name"]];
    var b, t := ProductOrigin(i, r);
    assert Content(r).source == SourceOf(t);
  }

  lemma RevivedIsOwned(s: State, s': State, n: string, id: string)
    requires OnlyOwnedChanged(s, s', n) && !LiveOf(s, id) && LiveOf(s', id)
    ensures Owned(s'.rules[id], n)
  {
  }

  /** A rule becomes live only through an add on its instance, while its base
      rule and its target are both there. */
  lemma RevivedOnlyByAdd(checks: Checks, s: State, c: Call, s': State, id: string)
    requires Inv(s) && Next(checks, s, c, s')
    requires !LiveOf(s, id) && LiveOf(s', id)
    ensures Adds(c) && Owned(s'.rules[id], c.n) && c.n in s'.instances
    ensures exists b, t :: b in s'.instances[c.n].baseRules && t in Targets(s'.instances[c.n])
              && !b.rule.removed && id == ExpandedID(b.rule.ruleID, t)
  {
    var ws: seq<Write>, answer: Answer, k: nat :| Stopped(checks, s, c, ws, answer, k, s');
    RevivalNeedsAdd(checks, s, c, ws, answer, k, s', id);
    StoppedKeepsInv(checks, s, c, ws, answer, k, s');
    RevivedIsOwned(s, s', c.n, id);
    var n, b, t := LiveHasOrigin(s', id);
    assert n == c.n;
  }

  /** The id was handed out, and every base rule that bears it is one of these. */
  ghost predicate BorneBy(s: State, id: string, these: ServiceRule -> bool) {
    id in s.issued && forall n, b :: n in s.instances && b in s.instances[n].baseRules && b.rule.ruleID == id ==> these(b)
  }

  /** Base rules enter an instance under new ids only, and never change. */
  lemma WriteKeepsBorneBy(s: State, w: Write, id: string, these: ServiceRule -> bool)
    requires BorneBy(s, id, these)
    requires w.PushRule? ==> w.base.rule.ruleID != id
    requires w.InsertInstance? ==> w.instance.baseRules == []
    ensures BorneBy(DoWrite(s, w), id, these)
  {
    var s' := DoWrite(s, w);
    forall n, b | n in s'.instances && b in s'.instances[n].baseRules && b.rule.ruleID == id ensures these(b) {
      if w.PullRule? && n == w.n {
        WithoutMembers(s.instances[n].baseRules, (c: ServiceRule) => c.rule.ruleID == w.id, b);
      }
    }
  }

  lemma {:induction false} WritesKeepBorneBy(s: State, ws: seq<Write>, id: string, these: ServiceRule -> bool)
    requires BorneBy(s, id, these)
    requires forall i :: 0 <= i < |ws| ==> (ws[i].PushRule? ==> ws[i].base.rule.ruleID != id)
    requires forall i :: 0 <= i < |ws| ==> (ws[i].InsertInstance? ==> ws[i].instance.baseRules == [])
    ensures BorneBy(DoAll(s, ws), id, these)
  {
    if ws != [] {
      WritesKeepBorneBy(s, ws[..|ws| - 1], id, these);
      WriteKeepsBorneBy(DoAll(s, ws[..|ws| - 1]), ws[|ws| - 1], id, these);
    }
  }

  lemma PlannedWrite(checks: Checks, s: State, c: Call, ws: seq<Write>, answer: Answer, i: nat)
    requires Legal(s, c) && Plan(checks, s, c, ws, answer) && i < |ws|
    ensures ws[i].PushRule? ==> ws[i].base.rule.ruleID !in s.issued
    ensures ws[i].InsertInstance? ==> ws[i].instance.baseRules == []
  {
    if c.Delete? || c.RemoveRule? || c.Remove? {
      assert i < |ws| - 1 ==> ws[..|ws| - 1][i].MarkRemoved?;
    }
  }

  lemma NextKeepsBorneBy(checks: Checks, s: State, c: Call, s': State, id: string, these: ServiceRule -> bool)
    requires BorneBy(s, id, these) && Next(checks, s, c, s')
    ensures BorneBy(s', id, these)
  {
    var ws: seq<Write>, answer: Answer, k: nat :| Stopped(checks, s, c, ws, answer, k, s');
    forall i | 0 <= i < k
      ensures ws[i].PushRule? ==> ws[i].base.rule.ruleID != id
      ensures ws[i].InsertInstance? ==> ws[i].instance.baseRules == []
    {
      PlannedWrite(checks, s, c, ws, answer, i);
    }
    WritesKeepBorneBy(s, ws[..k], id, these);
  }

  lemma {:induction false} RunKeepsBorneBy(checks: Checks, states: seq<State>, calls: seq<Call>, i: nat, j: nat,
                                           id: string, these: ServiceRule -> bool)
    requires IsRun(checks, states, calls) && i <= j < |states| && BorneBy(states[i], id, these)
    ensures BorneBy(states[j], id, these)
  {
    if i < j {
      RunKeepsBorneBy(checks, states, calls, i, j - 1, id, these);
      NextKeepsBorneBy(checks, states[j - 1], calls[j - 1], states[j], id, these);
    }
  }

  /** The base rule was handed out once and is in no instance any more. */
  ghost predicate Retired(s: State, base: string) {
    BorneBy(s, base, b => false)
  }

  /** A complete removal of a base rule, or of its whole instance. */
  predicate TakesOut(c: Call, n: string, b: ServiceRule) {
    c == Delete(n) || c == RemoveRule(n, b.rule.ruleID)
  }

  lemma TakingOutRetires(checks: Checks, s: State, c: Call, n: string, b: ServiceRule, ws: seq<Write>, answer: Answer)
    requires Inv(s) && n in s.instances && b in s.instances[n].baseRules
    requires TakesOut(c, n, b) && Plan(checks, s, c, ws, answer)
    ensures Retired(DoAll(s, ws), b.rule.ruleID)
  {
    assert ws[..|ws|] == ws;
    if c.Delete? {
      var m := RemovalStopped(s, InstanceFilter(n), DropInstance(n), ws, |ws|);
    } else {
      var id := b.rule.ruleID;
      var m := RemovalStopped(s, BaseFilter(n, id), PullRule(n, id), ws, |ws|);
      forall c | c in DoWrite(m, PullRule(n, id)).instances[n].baseRules ensures c.rule.ruleID != id {
        WithoutMembers(m.instances[n].baseRules, (c: ServiceRule) => c.rule.ruleID == id, c);
      }
    }
  }

  lemma RetiredIsDead(s: State, base: string, id: string)
    requires Inv(s) && Retired(s, base) && IsObjectID(base) && LiveOf(s, id)
    ensures forall t :: id != ExpandedID(base, t)
    ensures "base-ruleid" in s.rules[id].metadata && s.rules[id].metadata["base-ruleid"] != base
  {
    var n, c, u := LiveHasOrigin(s, id);
    MetadataIsExpanded(c.rule.ruleID, n, u);
    forall t ensures id != ExpandedID(base, t) {
      if id == ExpandedID(base, t) {
        ExpandedIDIsInjective(base, t, c.rule.ruleID, u);
      }
    }
  }

  /** After a base rule was removed, or its instance deleted, none of its
      expansions is ever live again, whatever calls follow and wherever they stop,
      also when an instance of the same name is created anew. */
  lemma NoResurrection(checks: Checks, states: seq<State>, calls: seq<Call>, i: nat, ws: seq<Write>, answer: Answer,
                       n: string, b: ServiceRule, j: nat, id: string)
    requires IsRun(checks, states, calls) && i < |calls| && i < j < |states|
    requires n in states[i].instances && b in states[i].instances[n].baseRules && TakesOut(calls[i], n, b)
    requires Stopped(checks, states[i], calls[i], ws, answer, |ws|, states[i + 1])
    requires LiveOf(states[j], id)
    ensures forall t :: id != ExpandedID(b.rule.ruleID, t)
    ensures "base-ruleid" in states[j].rules[id].metadata && states[j].rules[id].metadata["base-ruleid"] != b.rule.ruleID
  {
    RunKeepsInv(checks, states, calls, i);
    assert ws[..|ws|] == ws;
    TakingOutRetires(checks, states[i], calls[i], n, b, ws, answer);
    RunKeepsBorneBy(checks, states, calls, i + 1, j, b.rule.ruleID, c => false);
    RunKeepsInv(checks, states, calls, j);
    RetiredIsDead(states[j], b.rule.ruleID, id);
  }

  // ---------------------------------------------------------------- immutability

  /** Any base rule under this id is this very one. */
  ghost predicate Unaltered(s: State, b: ServiceRule) {
    BorneBy(s, b.rule.ruleID, c => c == b)
  }

  /** A base rule, once in an instance, is never altered: whatever bears its id
      later in the run is the same. */
  lemma BaseRulesAreImmutable(checks: Checks, states: seq<State>, calls: seq<Call>, i: nat, j: nat, n: string, b: ServiceRule)
    requires IsRun(checks, states, calls) && i <= j < |states|
    requires n in states[i].instances && b in states[i].instances[n].baseRules
    ensures Unaltered(states[j], b)
  {
    RunKeepsInv(checks, states, calls, i);
    assert DistinctBases(states[i].instances[n].baseRules);
    RunKeepsBorneBy(checks, states, calls, i, j, b.rule.ruleID, c => c == b);
  }
}
