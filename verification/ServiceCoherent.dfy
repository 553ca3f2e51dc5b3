/** What a call that comes to its end makes of the view. */
module ServiceCoherent {
  import opened Basics
  import opened RuleTypes
  import opened RuleFilter
  import opened ServiceIDs
  import opened ServiceModel
  import opened ServiceSound
  import opened ServiceCalls
  import opened ServiceRuns
  import opened ServiceConcurrent

  // ---------------------------------------------------------------- removals

  ghost predicate SelectedLive(s: State, n: string, filter: map<string, string>, x: Rule) {
    x in Live(s, n) && !Includes(x.metadata, filter)
  }

  /** Marking takes out of the live rules exactly what the filter selects. */
  lemma LiveAfterMarks(s: State, m: State, filter: map<string, string>, n: string, x: Rule)
    requires Marked(s, m, filter) && AllMarked(s, m, filter)
    ensures x in Live(m, n) <==> SelectedLive(s, n, filter, x)
  {
    if x in Live(m, n) {
      var id :| id in m.rules && !m.rules[id].removed && Owned(m.rules[id], n) && x == Content(m.rules[id]);
      assert id in s.rules && m.rules[id] == s.rules[id];
      assert x.metadata == s.rules[id].metadata;
    }
    if SelectedLive(s, n, filter, x) {
      var id :| id in s.rules && !s.rules[id].removed && Owned(s.rules[id], n) && x == Content(s.rules[id]);
      assert x.metadata == s.rules[id].metadata;
      assert id in m.rules && m.rules[id] == s.rules[id];
    }
  }

  /** A removal that comes to its end changes the instance as its last write says. */
  lemma RemovalChangesInstance(s: State, filter: map<string, string>, last: Write, ws: seq<Write>)
    requires Inv(s) && RemovalPlan(s, filter, last, ws)
    requires last.DropInstance? || last.PullRule? || last.Unbind?
    ensures DoAll(s, ws).instances == DoWrite(s, last).instances
  {
    var m := RemovalStopped(s, filter, last, ws, |ws|);
    assert ws[..|ws|] == ws;
  }

  /** It takes out of the live rules exactly what its filter selects. */
  lemma RemovalTakesTheSelected(s: State, filter: map<string, string>, last: Write, ws: seq<Write>, n: string, x: Rule)
    requires Inv(s) && RemovalPlan(s, filter, last, ws)
    requires last.DropInstance? || last.PullRule? || last.Unbind?
    ensures x in Live(DoAll(s, ws), n) <==> SelectedLive(s, n, filter, x)
  {
    var m := RemovalStopped(s, filter, last, ws, |ws|);
    assert ws[..|ws|] == ws;
    LiveAfterMarks(s, m, filter, n, x);
    assert Live(DoWrite(m, last), n) == Live(m, n);
  }

  /** What the filters select from a product, where metadata has a known form. */
  lemma FiltersOnProduct(i: Instance, n: string, x: Rule) returns (b: ServiceRule, t: Target)
    requires x in Product(i)
    ensures b in i.baseRules && t in Targets(i) && !b.rule.removed && x == Content(ExpandOne(i.name, b, t))
    ensures Includes(x.metadata, InstanceFilter(n)) <==> n == i.name
    ensures forall u :: Includes(x.metadata, TargetFilter(n, u)) <==> n == i.name && u == t
    ensures forall base :: Includes(x.metadata, BaseFilter(n, base)) <==> n == i.name && base == b.rule.ruleID
  {
    b, t :| b in i.baseRules && t in Targets(i) && !b.rule.removed && x == Content(ExpandOne(i.name, b, t));
    FiltersOnMetadata(b.rule.ruleID, i.name, t, n);
  }

  lemma FiltersOnMetadata(base: string, name: string, t: Target, n: string)
    ensures Includes(MetadataOf(base, name, t), InstanceFilter(n)) <==> n == name
    ensures forall u :: Includes(MetadataOf(base, name, t), TargetFilter(n, u)) <==> n == name && u == t
    ensures forall id :: Includes(MetadataOf(base, name, t), BaseFilter(n, id)) <==> n == name && id == base
  {
    var md := MetadataOf(base, name, t);
    assert "owner" in InstanceFilter(n) && "instance-name" in InstanceFilter(n);
    forall u ensures Includes(md, TargetFilter(n, u)) <==> n == name && u == t {
      var f := TargetFilter(n, u);
      assert "instance-name" in f && f["instance-name"] == n;
      assert u.App? ==> "app-name" in f && f["app-name"] == u.name;
      assert u.Job? ==> "job-name" in f && f["job-name"] == u.name;
    }
    forall id ensures Includes(md, BaseFilter(n, id)) <==> n == name && id == base {
      var f := BaseFilter(n, id);
      assert "instance-name" in f && f["instance-name"] == n && "base-ruleid" in f && f["base-ruleid"] == id;
    }
  }

  lemma ProductAfterUnbind(i: Instance, t: Target, x: Rule)
    ensures x in Product(Unbound(i, t)) <==> x in Product(i) && !Includes(x.metadata, TargetFilter(i.name, t))
  {
    var j := Unbound(i, t);
    if x in Product(j) {
      var b, u := FiltersOnProduct(j, i.name, x);
      TargetsOfUnbound(i, t, u);
      ProductMember(i, b, u);
    }
    if x in Product(i) && !Includes(x.metadata, TargetFilter(i.name, t)) {
      var b, u := FiltersOnProduct(i, i.name, x);
      TargetsOfUnbound(i, t, u);
      ProductMember(j, b, u);
    }
  }

  function Pulled(i: Instance, id: string): Instance {
    i.(baseRules := Without(i.baseRules, (b: ServiceRule) => b.rule.ruleID == id))
  }

  lemma ProductAfterPull(i: Instance, id: string, x: Rule)
    ensures x in Product(Pulled(i, id)) <==> x in Product(i) && !Includes(x.metadata, BaseFilter(i.name, id))
  {
    var j := Pulled(i, id);
    assert Targets(j) == Targets(i);
    forall b ensures b in j.baseRules <==> b in i.baseRules && b.rule.ruleID != id {
      WithoutMembers(i.baseRules, (c: ServiceRule) => c.rule.ruleID == id, b);
    }
    if x in Product(j) {
      var b, u := FiltersOnProduct(j, i.name, x);
      ProductMember(i, b, u);
    }
    if x in Product(i) && !Includes(x.metadata, BaseFilter(i.name, id)) {
      var b, u := FiltersOnProduct(i, i.name, x);
      ProductMember(j, b, u);
    }
  }

  /** The filter of a removal selects from a product what its last write takes out of it. */
  ghost predicate MatchesAt(s: State, filter: map<string, string>, last: Write, m: string, x: Rule) {
    m in DoWrite(s, last).instances ==>
      (x in Product(DoWrite(s, last).instances[m]) <==> x in ProductOf(s, m) && !Includes(x.metadata, filter))
  }

  ghost predicate Matches(s: State, filter: map<string, string>, last: Write) {
    forall m, x :: MatchesAt(s, filter, last, m, x)
  }

  lemma RemovalKeepsView(s: State, filter: map<string, string>, last: Write, ws: seq<Write>, m: string)
    requires Inv(s) && RemovalPlan(s, filter, last, ws)
    requires last.DropInstance? || last.PullRule? || last.Unbind?
    requires m in DoWrite(s, last).instances && Live(s, m) == ProductOf(s, m)
    requires forall x :: MatchesAt(s, filter, last, m, x)
    ensures Live(DoAll(s, ws), m) == Product(DoWrite(s, last).instances[m])
  {
    forall x ensures x in Live(DoAll(s, ws), m) <==> x in Product(DoWrite(s, last).instances[m]) {
      RemovalTakesTheSelected(s, filter, last, ws, m, x);
      assert MatchesAt(s, filter, last, m, x);
    }
  }

  lemma RemovalKeepsCoherent(s: State, filter: map<string, string>, last: Write, ws: seq<Write>)
    requires Coherent(s) && RemovalPlan(s, filter, last, ws) && Inv(DoAll(s, ws))
    requires last.DropInstance? || last.PullRule? || last.Unbind?
    requires Matches(s, filter, last)
    ensures Coherent(DoAll(s, ws))
  {
    var s' := DoAll(s, ws);
    RemovalChangesInstance(s, filter, last, ws);
    forall m | m in s'.instances ensures Live(s', m) == Product(s'.instances[m]) {
      assert m in s.instances && Live(s, m) == Product(s.instances[m]);
      RemovalKeepsView(s, filter, last, ws, m);
    }
  }

  lemma RemoveMatches(s: State, n: string, t: Target)
    requires Inv(s)
    ensures Matches(s, TargetFilter(n, t), Unbind(n, t))
  {
    forall m, x | m in DoWrite(s, Unbind(n, t)).instances ensures MatchesAt(s, TargetFilter(n, t), Unbind(n, t), m, x) {
      if m == n {
        ProductAfterUnbind(s.instances[n], t, x);
      } else if x in ProductOf(s, m) {
        var _, _ := FiltersOnProduct(s.instances[m], n, x);
      }
    }
  }

  lemma RemoveRuleMatches(s: State, n: string, id: string)
    requires Inv(s)
    ensures Matches(s, BaseFilter(n, id), PullRule(n, id))
  {
    forall m, x | m in DoWrite(s, PullRule(n, id)).instances ensures MatchesAt(s, BaseFilter(n, id), PullRule(n, id), m, x) {
      if m == n {
        ProductAfterPull(s.instances[n], id, x);
      } else if x in ProductOf(s, m) {
        var _, _ := FiltersOnProduct(s.instances[m], n, x);
      }
    }
  }

  lemma DeleteMatches(s: State, n: string)
    requires Inv(s)
    ensures Matches(s, InstanceFilter(n), DropInstance(n))
  {
    forall m, x | m in DoWrite(s, DropInstance(n)).instances ensures MatchesAt(s, InstanceFilter(n), DropInstance(n), m, x) {
      if x in ProductOf(s, m) {
        var _, _ := FiltersOnProduct(s.instances[m], n, x);
      }
    }
  }

  // ---------------------------------------------------------------- coherence

  /** A call that leaves the other instances alone keeps their views. */
  lemma OthersStayCoherent(s: State, s': State, n: string)
    requires Coherent(s) && Inv(s') && OnlyOwnedChanged(s, s', n)
    requires forall m :: m in s'.instances && m != n ==> m in s.instances && s'.instances[m] == s.instances[m]
    requires n in s'.instances ==> Live(s', n) == Product(s'.instances[n])
    ensures Coherent(s')
  {
    forall m | m in s'.instances ensures Live(s', m) == Product(s'.instances[m]) {
      if m != n {
        SameLive(s, s', n, m);
      }
    }
  }

  /** The writes of an add leave the instance as its first write made it. */
  lemma AddChangesInstanceOnce(checks: Checks, s: State, c: Call, ws: seq<Write>, answer: Answer)
    requires Inv(s) && Legal(s, c) && Plan(checks, s, c, ws, answer) && Adds(c) && ws != []
    ensures DoAll(s, ws).instances == DoWrite(s, ws[0]).instances
  {
    assert ws[..|ws|] == ws;
    match c
    case AddRule(n, base, newID, created, now) =>
      GrowStopped(checks, s, PushRule(n, NewBase(base, newID, created)), n, now, ws, |ws|);
    case Add(n, t, now) =>
      if n in s.instances {
        GrowStopped(checks, s, Bind(n, t), n, now, ws, |ws|);
      } else {
        SingleWrite(s, ws, |ws|);
      }
  }

  lemma AddWritesItsInstance(checks: Checks, s: State, c: Call, ws: seq<Write>, answer: Answer)
    requires Plan(checks, s, c, ws, answer) && Adds(c) && ws != []
    ensures (ws[0].Bind? || ws[0].PushRule?) && ws[0].n == c.n
  {
  }

  lemma AddChangesOneInstance(checks: Checks, s: State, c: Call, ws: seq<Write>, answer: Answer)
    requires Inv(s) && Legal(s, c) && Plan(checks, s, c, ws, answer) && Adds(c) && ws != []
    ensures forall m :: m in DoAll(s, ws).instances && m != c.n ==> m in s.instances && DoAll(s, ws).instances[m] == s.instances[m]
  {
    AddChangesInstanceOnce(checks, s, c, ws, answer);
    AddWritesItsInstance(checks, s, c, ws, answer);
  }

  lemma AddKeepsCoherent(checks: Checks, s: State, c: Call, ws: seq<Write>, answer: Answer)
    requires Coherent(s) && Legal(s, c) && Plan(checks, s, c, ws, answer) && Adds(c) && answer.Ok?
    requires Inv(DoAll(s, ws)) && OnlyOwnedChanged(s, DoAll(s, ws), c.n)
    ensures Coherent(DoAll(s, ws))
  {
    CompleteAddIsExact(checks, s, c, ws, answer);
    AddChangesOneInstance(checks, s, c, ws, answer);
    OthersStayCoherent(s, DoAll(s, ws), c.n);
  }

  lemma CompleteAddKeepsCoherent(checks: Checks, s: State, c: Call, ws: seq<Write>, answer: Answer)
    requires Coherent(s) && Legal(s, c) && Plan(checks, s, c, ws, answer) && Adds(c) && answer != Err(ErrInvalid)
    requires Inv(DoAll(s, ws)) && OnlyOwnedChanged(s, DoAll(s, ws), c.n)
    ensures Coherent(DoAll(s, ws))
  {
    if answer.Ok? {
      AddKeepsCoherent(checks, s, c, ws, answer);
    } else if ws != [] {
      assert ws[..|ws|] == ws;
      SingleWrite(s, ws, |ws|);
    }
  }

  lemma CreateKeepsCoherent(s: State, i: Instance)
    requires Coherent(s) && i.baseRules == []
    ensures Coherent(DoWrite(s, InsertInstance(i)))
  {
    var s' := DoWrite(s, InsertInstance(i));
    InsertInstanceKeepsInv(s, i);
    forall m | m in s'.instances ensures Live(s', m) == Product(s'.instances[m]) {
      assert Live(s', m) == Live(s, m);
      if m !in s.instances {
        SoundMeansSubset(s, m);
      }
    }
  }

  predicate LiveIn(s: State, id: string, m: string) {
    id in s.rules && !s.rules[id].removed && Owned(s.rules[id], m)
  }

  lemma SameLiveRules(s: State, s': State, m: string)
    requires forall id :: LiveIn(s, id, m) <==> LiveIn(s', id, m)
    requires forall id :: LiveIn(s, id, m) && LiveIn(s', id, m) ==> s'.rules[id] == s.rules[id]
    ensures Live(s', m) == Live(s, m)
  {
    forall x | x in Live(s', m) ensures x in Live(s, m) {
      var id :| id in s'.rules && !s'.rules[id].removed && Owned(s'.rules[id], m) && x == Content(s'.rules[id]);
      assert LiveIn(s', id, m) && LiveIn(s, id, m);
    }
    forall x | x in Live(s, m) ensures x in Live(s', m) {
      var id :| id in s.rules && !s.rules[id].removed && Owned(s.rules[id], m) && x == Content(s.rules[id]);
      assert LiveIn(s, id, m) && LiveIn(s', id, m);
    }
  }

  lemma InsertRuleKeepsLive(s: State, r: Rule, m: string)
    requires Legal(s, SaveRule(r))
    ensures Live(DoWrite(s, InsertRule(r)), m) == Live(s, m)
  {
    SameLiveRules(s, DoWrite(s, InsertRule(r)), m);
  }

  lemma SaveRuleKeepsCoherent(s: State, r: Rule)
    requires Coherent(s) && Legal(s, SaveRule(r))
    ensures Coherent(DoWrite(s, InsertRule(r)))
  {
    var s' := DoWrite(s, InsertRule(r));
    InsertRuleKeepsInv(s, r);
    forall m | m in s'.instances ensures Live(s', m) == Product(s'.instances[m]) {
      InsertRuleKeepsLive(s, r, m);
    }
  }

  lemma CompleteRemovalKeepsCoherent(checks: Checks, s: State, c: Call, ws: seq<Write>, answer: Answer)
    requires Coherent(s) && Plan(checks, s, c, ws, answer) && (c.Delete? || c.RemoveRule? || c.Remove?)
    requires Inv(DoAll(s, ws))
    ensures Coherent(DoAll(s, ws))
  {
    match c
    case Delete(n) =>
      DeleteMatches(s, n);
      RemovalKeepsCoherent(s, InstanceFilter(n), DropInstance(n), ws);
    case RemoveRule(n, id) =>
      RemoveRuleMatches(s, n, id);
      RemovalKeepsCoherent(s, BaseFilter(n, id), PullRule(n, id), ws);
    case Remove(n, t) =>
      RemoveMatches(s, n, t);
      RemovalKeepsCoherent(s, TargetFilter(n, t), Unbind(n, t), ws);
  }

  /** A call on coherent stores that comes to its end leaves them coherent, but
      for two: an add whose save is refused as invalid, and the deletion of a
      single rule past the service. */
  lemma CompleteCallKeepsCoherent(checks: Checks, s: State, c: Call, ws: seq<Write>, answer: Answer)
    requires Coherent(s) && Legal(s, c) && Plan(checks, s, c, ws, answer)
    requires answer != Err(ErrInvalid) && !c.DeleteRule?
    ensures Coherent(DoAll(s, ws))
  {
    assert ws[..|ws|] == ws;
    StoppedKeepsInv(checks, s, c, ws, answer, |ws|, DoAll(s, ws));
    match c
    case Create(n, creator, eventID) =>
      CreateKeepsCoherent(s, Instance(n, creator, eventID, [], [], []));
      SingleWrite(s, ws, |ws|);
    case Delete(_) => CompleteRemovalKeepsCoherent(checks, s, c, ws, answer);
    case RemoveRule(_, _) => CompleteRemovalKeepsCoherent(checks, s, c, ws, answer);
    case Remove(_, _) => CompleteRemovalKeepsCoherent(checks, s, c, ws, answer);
    case AddRule(_, _, _, _, _) => CompleteAddKeepsCoherent(checks, s, c, ws, answer);
    case Add(_, _, _) => CompleteAddKeepsCoherent(checks, s, c, ws, answer);
    case SaveRule(rule) =>
      SaveRuleKeepsCoherent(s, rule);
      SingleWrite(s, ws, |ws|);
  }

  lemma DeletedIsNotLive(s: State, id: string, n: string)
    requires RulesShaped(s) && id in s.rules
    ensures Content(s.rules[id]) !in Live(DoWrite(s, MarkRemoved(id)), n)
  {
    var s', x := DoWrite(s, MarkRemoved(id)), Content(s.rules[id]);
    assert Shaped(s, id, s.rules[id]);
    forall d | d in s'.rules && !s'.rules[d].removed && Owned(s'.rules[d], n) ensures Content(s'.rules[d]) != x {
      assert Shaped(s, d, s.rules[d]) && d != id;
    }
  }

  /** Deleting a rule past the service spoils the view exactly when the rule is
      a live rule of the service. */
  lemma DeleteRuleKeepsCoherentIff(s: State, id: string)
    requires Coherent(s)
    ensures Coherent(DoWrite(s, MarkRemoved(id))) <==> !LiveOf(s, id)
  {
    var s' := DoWrite(s, MarkRemoved(id));
    MarkRemovedKeepsInv(s, id);
    assert s'.instances == s.instances;
    if LiveOf(s, id) {
      var n, b, t := LiveHasOrigin(s, id);
      assert Content(s.rules[id]) in Live(s, n);
      DeletedIsNotLive(s, id, n);
      assert Live(s', n) != Product(s'.instances[n]);
    } else {
      forall m | m in s'.instances ensures Live(s', m) == Product(s'.instances[m]) {
        SameLiveRules(s, s', m);
      }
    }
  }

  /** Runs in which every call comes to its end, no save is refused and no rule
      is deleted past the service. */
  ghost predicate IsUndisturbed(checks: Checks, states: seq<State>, calls: seq<Call>) {
    && |states| == |calls| + 1
    && states[0] == INIT
    && forall i :: 0 <= i < |calls| ==> Completes(checks, states[i], calls[i], states[i + 1])
  }

  ghost predicate Completes(checks: Checks, s: State, c: Call, s': State) {
    && Legal(s, c) && !c.DeleteRule?
    && exists ws, answer :: Plan(checks, s, c, ws, answer) && answer != Err(ErrInvalid) && s' == DoAll(s, ws)
  }

  /** In them the live rules of every instance are its product at every moment. */
  lemma {:induction false} UndisturbedRunsAreCoherent(checks: Checks, states: seq<State>, calls: seq<Call>, i: nat)
    requires IsUndisturbed(checks, states, calls) && i < |states|
    ensures Coherent(states[i])
  {
    if i > 0 {
      UndisturbedRunsAreCoherent(checks, states, calls, i - 1);
      assert Completes(checks, states[i - 1], calls[i - 1], states[i]);
      var ws, answer :| Plan(checks, states[i - 1], calls[i - 1], ws, answer) && answer != Err(ErrInvalid) && states[i] == DoAll(states[i - 1], ws);
      CompleteCallKeepsCoherent(checks, states[i - 1], calls[i - 1], ws, answer);
    }
  }
}
