/** The invariant of the two stores: what is live is always backed by an
    instance. Each write is shown to keep it, under what the code has done before. */
module ServiceSound {
  import opened Clock
  import opened RuleTypes
  import opened ServiceIDs
  import opened ServiceModel

  ghost predicate DistinctBases(bases: seq<ServiceRule>) {
    forall b, c :: b in bases && c in bases && b.rule.ruleID == c.rule.ruleID ==> b == c
  }

  /** Base rules have generated ids, each given to one base rule of one instance. */
  ghost predicate BasesIssued(s: State) {
    && (forall n :: n in s.instances ==> s.instances[n].name == n)
    && (forall n, b :: n in s.instances && b in s.instances[n].baseRules ==>
          IsObjectID(b.rule.ruleID) && b.rule.ruleID in s.issued && s.issued[b.rule.ruleID] == n)
    && (forall n :: n in s.instances ==> DistinctBases(s.instances[n].baseRules))
  }

  /** A stored rule is either outside the service, under a generated id, or the
      expansion that its metadata names, under the id of that expansion. */
  predicate Shaped(s: State, id: string, r: Rule) {
    && r.ruleID == id
    && if Serviced(r.metadata) then
         && Expanded(r.metadata)
         && var base := r.metadata["base-ruleid"];
         && IsObjectID(base) && base in s.issued && s.issued[base] == r.metadata["instance-name"]
         && id == ExpandedID(base, TargetOf(r.metadata))
       else IsObjectID(id) && id in s.issued
  }

  ghost predicate RulesShaped(s: State) {
    forall id :: id in s.rules ==> Shaped(s, id, s.rules[id])
  }

  /** A live rule of the service is in the product of its instance. */
  ghost predicate Backed(s: State, r: Rule) {
    Serviced(r.metadata) && !r.removed ==>
      "instance-name" in r.metadata && Content(r) in ProductOf(s, r.metadata["instance-name"])
  }

  ghost predicate Sound(s: State) {
    forall id :: id in s.rules ==> Backed(s, s.rules[id])
  }

  ghost predicate Inv(s: State) {
    BasesIssued(s) && RulesShaped(s) && Sound(s)
  }

  /** Soundness says that nothing is live beyond the product. */
  lemma SoundMeansSubset(s: State, n: string)
    requires Sound(s)
    ensures Live(s, n) <= ProductOf(s, n)
  {
  }

  // ---------------------------------------------------------------- products

  lemma ProductMember(i: Instance, b: ServiceRule, t: Target)
    requires b in i.baseRules && t in Targets(i) && !b.rule.removed
    ensures Content(ExpandOne(i.name, b, t)) in Product(i)
  {
  }

  /** A member of a product tells its base rule and target by its metadata. */
  lemma ProductOrigin(i: Instance, r: Rule) returns (b: ServiceRule, t: Target)
    requires Content(r) in Product(i)
    ensures b in i.baseRules && t in Targets(i) && !b.rule.removed
    ensures Content(r) == Content(ExpandOne(i.name, b, t))
    ensures r.metadata == MetadataOf(b.rule.ruleID, i.name, t)
    ensures t == TargetOf(r.metadata)
  {
    b, t :| b in i.baseRules && t in Targets(i) && !b.rule.removed && Content(r) == Content(ExpandOne(i.name, b, t));
    assert Content(r).metadata == r.metadata;
    MetadataIsExpanded(b.rule.ruleID, i.name, t);
  }

  ghost predicate Grown(i: Instance, j: Instance) {
    && j.name == i.name
    && (forall b :: b in i.baseRules ==> b in j.baseRules)
    && (forall t :: t in Targets(i) ==> t in Targets(j))
  }

  lemma ProductGrows(i: Instance, j: Instance)
    requires Grown(i, j)
    ensures Product(i) <= Product(j)
  {
    forall x | x in Product(i) ensures x in Product(j) {
      var b, t :| b in i.baseRules && t in Targets(i) && !b.rule.removed && x == Content(ExpandOne(i.name, b, t));
      ProductMember(j, b, t);
    }
  }

  /** Replacing one instance keeps soundness when every live rule of it is still in its product. */
  lemma InstanceChangeKeepsSound(s: State, s': State, n: string)
    requires RulesShaped(s) && Sound(s) && s'.rules == s.rules
    requires forall m :: m != n ==> (m in s.instances <==> m in s'.instances) && (m in s.instances ==> s'.instances[m] == s.instances[m])
    requires forall id :: id in s.rules && Owned(s.rules[id], n) && !s.rules[id].removed ==> Content(s.rules[id]) in ProductOf(s', n)
    ensures Sound(s')
  {
    forall id | id in s'.rules ensures Backed(s', s'.rules[id]) {
      assert Backed(s, s.rules[id]);
    }
  }

  // ---------------------------------------------------------------- writes

  lemma GrowthKeepsSound(s: State, s': State, n: string)
    requires RulesShaped(s) && Sound(s) && s'.rules == s.rules && n in s.instances
    requires n in s'.instances && s'.instances == s.instances[n := s'.instances[n]] && Grown(s.instances[n], s'.instances[n])
    ensures Sound(s')
  {
    ProductGrows(s.instances[n], s'.instances[n]);
    forall id | id in s.rules && Owned(s.rules[id], n) && !s.rules[id].removed
      ensures Content(s.rules[id]) in ProductOf(s', n)
    {
      assert Backed(s, s.rules[id]);
    }
    InstanceChangeKeepsSound(s, s', n);
  }

  lemma InsertInstanceKeepsInv(s: State, i: Instance)
    requires Inv(s) && i.baseRules == []
    ensures Inv(DoWrite(s, InsertInstance(i)))
  {
    if i.name !in s.instances {
      var s' := DoWrite(s, InsertInstance(i));
      forall id | id in s'.rules ensures Backed(s', s'.rules[id]) {
        assert Backed(s, s.rules[id]);
      }
    }
  }

  lemma PushRuleKeepsInv(s: State, n: string, b: ServiceRule)
    requires Inv(s) && IsObjectID(b.rule.ruleID) && b.rule.ruleID !in s.issued
    ensures Inv(DoWrite(s, PushRule(n, b)))
  {
    var s' := DoWrite(s, PushRule(n, b));
    forall id | id in s'.rules ensures Shaped(s', id, s'.rules[id]) {
      assert Shaped(s, id, s.rules[id]);
    }
    if n in s.instances {
      assert Targets(s'.instances[n]) == Targets(s.instances[n]);
      GrowthKeepsSound(s, s', n);
    } else {
      forall id | id in s'.rules ensures Backed(s', s'.rules[id]) {
        assert Backed(s, s.rules[id]);
      }
    }
  }

  lemma BindKeepsInv(s: State, n: string, t: Target)
    requires Inv(s)
    ensures Inv(DoWrite(s, Bind(n, t)))
  {
    if n in s.instances {
      var s' := DoWrite(s, Bind(n, t));
      forall x | x in Targets(s.instances[n]) ensures x in Targets(s'.instances[n]) {
        TargetsOfBound(s.instances[n], t, x);
      }
      GrowthKeepsSound(s, s', n);
      forall id | id in s'.rules ensures Shaped(s', id, s'.rules[id]) {
        assert Shaped(s, id, s.rules[id]);
      }
    }
  }

  lemma MarkRemovedKeepsInv(s: State, id: string)
    requires Inv(s)
    ensures Inv(DoWrite(s, MarkRemoved(id)))
  {
    var s' := DoWrite(s, MarkRemoved(id));
    forall x | x in s'.rules ensures Shaped(s', x, s'.rules[x]) && Backed(s', s'.rules[x]) {
      assert Shaped(s, x, s.rules[x]) && Backed(s, s.rules[x]);
    }
  }

  lemma InsertRuleKeepsInv(s: State, r: Rule)
    requires Inv(s) && IsObjectID(r.ruleID) && r.ruleID !in s.issued && !Serviced(r.metadata)
    ensures Inv(DoWrite(s, InsertRule(r)))
  {
    var s' := DoWrite(s, InsertRule(r));
    forall x | x in s'.rules ensures Shaped(s', x, s'.rules[x]) && Backed(s', s'.rules[x]) {
      if x in s.rules {
        assert Shaped(s, x, s.rules[x]) && Backed(s, s.rules[x]);
      }
    }
  }

  /** Exactly when a rule saved outside the service, under a new id, keeps the view
      sound: when it does not claim to be the service's, or is marked removed. No
      product holds it, since it is not saved under an expanded id. */
  lemma OutsideSaveKeepsSoundIff(s: State, r: Rule)
    requires Inv(s) && IsObjectID(r.ruleID) && r.ruleID !in s.issued
    ensures Sound(DoWrite(s, InsertRule(r))) <==> !Serviced(r.metadata) || r.removed
    ensures Inv(DoWrite(s, InsertRule(r))) <==> !Serviced(r.metadata)
  {
    var s' := DoWrite(s, InsertRule(r));
    NewIDIsUnused(s, r.ruleID);
    forall x | x in s.rules ensures Backed(s', s'.rules[x]) {
      assert Backed(s, s.rules[x]);
    }
    if Serviced(r.metadata) {
      NotInProduct(s, r);
      assert Backed(s', s'.rules[r.ruleID]) <==> r.removed;
      NotShaped(s', r);
    } else {
      InsertRuleKeepsInv(s, r);
    }
  }

  lemma NewIDIsUnused(s: State, id: string)
    requires RulesShaped(s) && IsObjectID(id) && id !in s.issued
    ensures id !in s.rules
  {
    if id in s.rules {
      var md := s.rules[id].metadata;
      assert Shaped(s, id, s.rules[id]);
      ExpandedIDIsNotGenerated(md["base-ruleid"], TargetOf(md));
    }
  }

  lemma NotInProduct(s: State, r: Rule)
    requires BasesIssued(s) && IsObjectID(r.ruleID)
    ensures forall n :: Content(r) !in ProductOf(s, n)
  {
    forall n ensures Content(r) !in ProductOf(s, n) {
      if Content(r) in ProductOf(s, n) {
        var b, t := ProductOrigin(s.instances[n], r);
        assert Content(r).ruleID == r.ruleID;
        ExpandedIDIsNotGenerated(b.rule.ruleID, t);
      }
    }
  }

  lemma NotShaped(s: State, r: Rule)
    requires Serviced(r.metadata) && IsObjectID(r.ruleID)
    ensures !Shaped(s, r.ruleID, r)
  {
    if Shaped(s, r.ruleID, r) {
      ExpandedIDIsNotGenerated(r.metadata["base-ruleid"], TargetOf(r.metadata));
    }
  }

  lemma UpsertKeepsInv(s: State, n: string, b: ServiceRule, t: Target, now: Time)
    requires Inv(s) && n in s.instances && b in s.instances[n].baseRules && t in Targets(s.instances[n])
    ensures Inv(DoWrite(s, Upsert(ExpandOne(n, b, t), now)))
  {
    var r := ExpandOne(n, b, t);
    var s' := DoWrite(s, Upsert(r, now));
    MetadataIsExpanded(b.rule.ruleID, n, t);
    forall x | x in s'.rules ensures Shaped(s', x, s'.rules[x]) && Backed(s', s'.rules[x]) {
      if x == r.ruleID {
        assert Content(s'.rules[x]) == Content(r);
        if !r.removed {
          ProductMember(s.instances[n], b, t);
        }
      } else {
        assert Shaped(s, x, s.rules[x]) && Backed(s, s.rules[x]);
      }
    }
  }

  lemma SaveMakesLive(s: State, n: string, b: ServiceRule, t: Target, now: Time)
    requires !b.rule.removed
    ensures var r := ExpandOne(n, b, t);
            Content(r) in Live(DoWrite(s, Upsert(r, now)), n)
  {
    var r := ExpandOne(n, b, t);
    var s' := DoWrite(s, Upsert(r, now));
    MetadataIsExpanded(b.rule.ruleID, n, t);
    assert r.ruleID in s'.rules && Content(s'.rules[r.ruleID]) == Content(r);
  }

  /** The rule that an upsert replaces, if there is one, is an earlier save of
      the same expansion: nothing unrelated is overwritten. */
  lemma UpsertReplacesItsOwn(s: State, n: string, b: ServiceRule, t: Target)
    requires Inv(s) && n in s.instances && b in s.instances[n].baseRules
    requires ExpandedID(b.rule.ruleID, t) in s.rules
    ensures s.rules[ExpandedID(b.rule.ruleID, t)].metadata == MetadataOf(b.rule.ruleID, n, t)
    ensures Owned(s.rules[ExpandedID(b.rule.ruleID, t)], n)
  {
    var id := ExpandedID(b.rule.ruleID, t);
    var r := s.rules[id];
    assert Shaped(s, id, r);
    ExpandedIDIsNotGenerated(b.rule.ruleID, t);
    ExpandedIDIsInjective(b.rule.ruleID, t, r.metadata["base-ruleid"], TargetOf(r.metadata));
    MetadataIsExpanded(b.rule.ruleID, n, t);
  }

  // ---------------------------------------------------------------- removals

  /** No live rule of the instance comes from this base rule. */
  ghost predicate NoLiveBase(s: State, n: string, base: string) {
    forall id :: id in s.rules && Owned(s.rules[id], n) && !s.rules[id].removed ==>
      "base-ruleid" in s.rules[id].metadata && s.rules[id].metadata["base-ruleid"] != base
  }

  ghost predicate NoLiveTarget(s: State, n: string, t: Target) {
    forall id :: id in s.rules && Owned(s.rules[id], n) && !s.rules[id].removed ==> TargetOf(s.rules[id].metadata) != t
  }

  ghost predicate NoneLive(s: State, n: string) {
    forall id :: id in s.rules && Owned(s.rules[id], n) ==> s.rules[id].removed
  }

  lemma PullRuleKeepsInv(s: State, n: string, base: string)
    requires Inv(s) && NoLiveBase(s, n, base)
    ensures Inv(DoWrite(s, PullRule(n, base)))
  {
    if n in s.instances {
      var s' := DoWrite(s, PullRule(n, base));
      var i, j := s.instances[n], s'.instances[n];
      forall b ensures b in j.baseRules <==> b in i.baseRules && b.rule.ruleID != base {
        WithoutMembers(i.baseRules, (c: ServiceRule) => c.rule.ruleID == base, b);
      }
      forall id | id in s.rules && Owned(s.rules[id], n) && !s.rules[id].removed
        ensures Content(s.rules[id]) in ProductOf(s', n)
      {
        assert Backed(s, s.rules[id]);
        var b, t := ProductOrigin(i, s.rules[id]);
        MetadataIsExpanded(b.rule.ruleID, n, t);
        assert Targets(j) == Targets(i);
        ProductMember(j, b, t);
      }
      InstanceChangeKeepsSound(s, s', n);
      forall id | id in s'.rules ensures Shaped(s', id, s'.rules[id]) {
        assert Shaped(s, id, s.rules[id]);
      }
    }
  }

  lemma UnbindKeepsInv(s: State, n: string, t: Target)
    requires Inv(s) && NoLiveTarget(s, n, t)
    ensures Inv(DoWrite(s, Unbind(n, t)))
  {
    if n in s.instances {
      var s' := DoWrite(s, Unbind(n, t));
      var i, j := s.instances[n], s'.instances[n];
      forall id | id in s.rules && Owned(s.rules[id], n) && !s.rules[id].removed
        ensures Content(s.rules[id]) in ProductOf(s', n)
      {
        assert Backed(s, s.rules[id]);
        var b, x := ProductOrigin(i, s.rules[id]);
        TargetsOfUnbound(i, t, x);
        ProductMember(j, b, x);
      }
      InstanceChangeKeepsSound(s, s', n);
      forall id | id in s'.rules ensures Shaped(s', id, s'.rules[id]) {
        assert Shaped(s, id, s.rules[id]);
      }
    }
  }

  lemma DropInstanceKeepsInv(s: State, n: string)
    requires Inv(s) && NoneLive(s, n)
    ensures Inv(DoWrite(s, DropInstance(n)))
  {
    var s' := DoWrite(s, DropInstance(n));
    InstanceChangeKeepsSound(s, s', n);
    forall id | id in s'.rules ensures Shaped(s', id, s'.rules[id]) {
      assert Shaped(s, id, s.rules[id]);
    }
  }
}
