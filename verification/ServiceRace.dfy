/** A removal that runs while an add is saving: where the view stops being sound. */
module ServiceRace {
  import opened Clock
  import opened RuleTypes
  import opened ServiceIDs
  import opened ServiceModel
  import opened ServiceSound
  import opened ServiceCalls
  import opened ServiceRuns

  /** The instance still has the target and, in force, a base rule with this id. */
  ghost predicate StillThere(s: State, n: string, base: string, t: Target) {
    && n in s.instances && t in Targets(s.instances[n])
    && exists c :: c in s.instances[n].baseRules && c.rule.ruleID == base && !c.rule.removed
  }

  lemma InProductIffStillThere(s: State, n: string, b: ServiceRule, t: Target)
    requires Inv(s) && Unaltered(s, b) && !b.rule.removed
    ensures Content(ExpandOne(n, b, t)) in ProductOf(s, n) <==> StillThere(s, n, b.rule.ruleID, t)
  {
    var r := ExpandOne(n, b, t);
    MetadataIsExpanded(b.rule.ruleID, n, t);
    if Content(r) in ProductOf(s, n) {
      var c, u := ProductOrigin(s.instances[n], r);
      MetadataIsExpanded(c.rule.ruleID, n, u);
    }
    if StillThere(s, n, b.rule.ruleID, t) {
      ProductMember(s.instances[n], b, t);
    }
  }

  lemma SavedIsBackedIff(s: State, r: Rule, n: string, now: Time)
    requires Sound(s) && Owned(r, n) && !r.removed
    ensures Sound(DoWrite(s, Upsert(r, now))) <==> Content(r) in ProductOf(s, n)
  {
    var s' := DoWrite(s, Upsert(r, now));
    assert Content(s'.rules[r.ruleID]) == Content(r) && s'.instances == s.instances;
    if Content(r) in ProductOf(s, n) {
      forall id | id in s'.rules ensures Backed(s', s'.rules[id]) {
        assert id != r.ruleID ==> Backed(s, s.rules[id]);
      }
    } else {
      assert !Backed(s', s'.rules[r.ruleID]);
    }
  }

  lemma SavedRemovedIsSound(s: State, r: Rule, now: Time)
    requires Sound(s) && r.removed
    ensures Sound(DoWrite(s, Upsert(r, now)))
  {
    var s' := DoWrite(s, Upsert(r, now));
    forall id | id in s'.rules ensures Backed(s', s'.rules[id]) {
      assert id != r.ruleID ==> Backed(s, s.rules[id]);
    }
  }

  lemma LateSaveOnState(s: State, n: string, b: ServiceRule, t: Target, now: Time)
    requires Inv(s) && Unaltered(s, b)
    ensures Sound(DoWrite(s, Upsert(ExpandOne(n, b, t), now))) <==> b.rule.removed || StillThere(s, n, b.rule.ruleID, t)
  {
    var r := ExpandOne(n, b, t);
    MetadataIsExpanded(b.rule.ruleID, n, t);
    if b.rule.removed {
      SavedRemovedIsSound(s, r, now);
    } else {
      InProductIffStillThere(s, n, b, t);
      SavedIsBackedIff(s, r, n, now);
    }
  }

  /** An add reads the instance at one moment of a run and saves a rule of it at a
      later one. That save keeps the view sound exactly when the base rule is one
      marked removed, or it and the target are still there. */
  lemma LateSaveIsSoundIff(checks: Checks, states: seq<State>, calls: seq<Call>, i: nat, j: nat,
                           n: string, b: ServiceRule, t: Target, now: Time)
    requires IsRun(checks, states, calls) && i <= j < |states|
    requires n in states[i].instances && b in states[i].instances[n].baseRules && t in Targets(states[i].instances[n])
    ensures Sound(DoWrite(states[j], Upsert(ExpandOne(n, b, t), now)))
       <==> b.rule.removed || StillThere(states[j], n, b.rule.ruleID, t)
  {
    RunKeepsInv(checks, states, calls, j);
    BaseRulesAreImmutable(checks, states, calls, i, j, n, b);
    LateSaveOnState(states[j], n, b, t, now);
  }

  lemma UnboundSaveIsAnOrphan(s: State, n: string, b: ServiceRule, t: Target, now: Time)
    requires !b.rule.removed && (n in s.instances ==> s.instances[n].name == n && t !in Targets(s.instances[n]))
    ensures var s' := DoWrite(s, Upsert(ExpandOne(n, b, t), now));
            !(Live(s', n) <= ProductOf(s', n))
  {
    var r := ExpandOne(n, b, t);
    SaveMakesLive(s, n, b, t, now);
    MetadataIsExpanded(b.rule.ruleID, n, t);
    if Content(r) in ProductOf(s, n) {
      var c, u := ProductOrigin(s.instances[n], r);
    }
  }

  lemma CompleteRemovalUnbinds(s: State, n: string, t: Target, ws: seq<Write>)
    requires Inv(s) && n in s.instances && RemovalPlan(s, TargetFilter(n, t), Unbind(n, t), ws)
    ensures var s' := DoAll(s, ws);
            n in s'.instances && s'.instances[n].name == n && t !in Targets(s'.instances[n])
  {
    var m := RemovalStopped(s, TargetFilter(n, t), Unbind(n, t), ws, |ws|);
    assert ws[..|ws|] == ws;
    TargetsOfUnbound(s.instances[n], t, t);
  }

  /** A complete removal between the read and the save of an add leaves a live
      rule that nothing backs. */
  lemma RemovalDuringAddLeavesAnOrphan(s: State, n: string, b: ServiceRule, t: Target, ws: seq<Write>, now: Time)
    requires Inv(s) && n in s.instances && b in s.instances[n].baseRules && t in Targets(s.instances[n]) && !b.rule.removed
    requires RemovalPlan(s, TargetFilter(n, t), Unbind(n, t), ws)
    ensures var s' := DoWrite(DoAll(s, ws), Upsert(ExpandOne(n, b, t), now));
            !(Live(s', n) <= ProductOf(s', n))
  {
    CompleteRemovalUnbinds(s, n, t, ws);
    UnboundSaveIsAnOrphan(DoAll(s, ws), n, b, t, now);
  }
}
