/** When the adds succeed, exactly, and what keeps them from it. */
module ServiceAnswers {
  import opened Basics
  import opened Clock
  import opened RuleTypes
  import opened ServiceIDs
  import opened ServiceModel
  import opened ServiceSound
  import opened ServiceCalls
  import opened ServiceRuns
  import opened ServiceConcurrent
  import opened ServiceCoherent
  import opened ServiceDistinct

  predicate GoodTarget(t: Target) {
    ValidTsuruName(t.name)
  }

  ghost predicate AllGood(i: Instance) {
    forall t :: t in Targets(i) ==> GoodTarget(t)
  }

  ghost predicate AllValid(checks: Checks, i: Instance) {
    forall b :: b in i.baseRules ==> ValidType(checks, b.rule.destination)
  }

  lemma GoodTargetIffValid(checks: Checks, t: Target)
    ensures ValidType(checks, SourceOf(t)) <==> GoodTarget(t)
  {
  }

  /** An expansion is valid when it is empty, or when every base rule and every
      target are: one bad target spoils it for all the others. */
  lemma ValidExpansionIff(checks: Checks, i: Instance)
    ensures ValidRules(checks, Expand(i))
       <==> i.baseRules == [] || Targets(i) == [] || (AllGood(i) && AllValid(checks, i))
  {
    var rs := Expand(i);
    if ValidRules(checks, rs) && i.baseRules != [] && Targets(i) != [] {
      forall b, t | b in i.baseRules && t in Targets(i) ensures ValidType(checks, b.rule.destination) && GoodTarget(t) {
        ExpansionIsValid(checks, i, b, t);
        GoodTargetIffValid(checks, t);
      }
      assert i.baseRules[0] in i.baseRules && Targets(i)[0] in Targets(i);
    }
    if i.baseRules == [] || Targets(i) == [] || (AllGood(i) && AllValid(checks, i)) {
      forall k | 0 <= k < |rs| ensures ValidRule(checks, rs[k]) {
        ExpandMembers(i, rs[k]);
        var b, t :| b in i.baseRules && t in Targets(i) && rs[k] == ExpandOne(i.name, b, t);
        GoodTargetIffValid(checks, t);
      }
    }
  }

  lemma ExpansionIsValid(checks: Checks, i: Instance, b: ServiceRule, t: Target)
    requires ValidRules(checks, Expand(i)) && b in i.baseRules && t in Targets(i)
    ensures ValidType(checks, SourceOf(t)) && ValidType(checks, b.rule.destination)
  {
    var r := ExpandOne(i.name, b, t);
    ExpandMembers(i, r);
    var k :| 0 <= k < |Expand(i)| && Expand(i)[k] == r;
    assert ValidRule(checks, Expand(i)[k]);
  }

  lemma DestinationsAreValid(checks: Checks, s: State, n: string)
    requires AllDistinct(checks, s) && n in s.instances
    ensures AllValid(checks, s.instances[n])
  {
    var bases := s.instances[n].baseRules;
    forall b | b in bases ensures ValidType(checks, b.rule.destination) {
      var k :| 0 <= k < |bases| && bases[k] == b;
      StoredAt(checks, bases, k);
    }
  }

  /** In any state of a run, binding a target succeeds exactly when the instance
      is there and has no base rule yet, or this and all its other targets have
      valid names. */
  lemma AddSucceedsIff(checks: Checks, s: State, n: string, t: Target, now: Time, ws: seq<Write>, answer: Answer)
    requires AllDistinct(checks, s) && Plan(checks, s, Call.Add(n, t, now), ws, answer)
    ensures answer.Ok? <==> n in s.instances && (s.instances[n].baseRules == [] || (GoodTarget(t) && AllGood(s.instances[n])))
  {
    if n in s.instances {
      var i := Bound(s.instances[n], t);
      DestinationsAreValid(checks, s, n);
      ValidExpansionIff(checks, i);
      forall x ensures x in Targets(i) <==> x in Targets(s.instances[n]) || x == t {
        TargetsOfBound(s.instances[n], t, x);
      }
    }
  }

  /** Adding a base rule succeeds exactly when its destination is valid, the
      instance is there, no base rule in force leads there or is a job, and every
      bound target has a valid name. */
  lemma AddRuleSucceedsIff(checks: Checks, s: State, n: string, base: ServiceRule, newID: string, created: Time, now: Time,
                           ws: seq<Write>, answer: Answer)
    requires AllDistinct(checks, s) && Plan(checks, s, Call.AddRule(n, base, newID, created, now), ws, answer)
    ensures answer.Ok? <==>
              && ValidType(checks, base.rule.destination)
              && n in s.instances && !Taken(s.instances[n], base) && AllGood(s.instances[n])
  {
    if ValidType(checks, base.rule.destination) && n in s.instances {
      var b := NewBase(base, newID, created);
      var i := s.instances[n].(baseRules := s.instances[n].baseRules + [b]);
      assert Targets(i) == Targets(s.instances[n]);
      DestinationsAreValid(checks, s, n);
      AlreadyThereIffTaken(checks, s.instances[n], base);
      DecodedDenotesTheSame(checks, base.rule.destination);
      ValidExpansionIff(checks, i);
    }
  }

  lemma FirstWriteKeepsTargets(s: State, n: string, x: Target, w: Write)
    requires n in s.instances && x in Targets(s.instances[n]) && FirstWrite(w, n)
    ensures n in DoWrite(s, w).instances && x in Targets(DoWrite(s, w).instances[n])
  {
    match w
    case Bind(_, t) => TargetsOfBound(s.instances[n], t, x);
    case PushRule(_, _) => assert Targets(DoWrite(s, w).instances[n]) == Targets(s.instances[n]);
  }

  lemma AddKeepsTargets(checks: Checks, s: State, n: string, x: Target, c: Call, ws: seq<Write>, answer: Answer)
    requires Inv(s) && n in s.instances && x in Targets(s.instances[n])
    requires Adds(c) && c.n == n && Legal(s, c) && Plan(checks, s, c, ws, answer)
    ensures n in DoAll(s, ws).instances && x in Targets(DoAll(s, ws).instances[n])
  {
    if ws != [] {
      AddChangesInstanceOnce(checks, s, c, ws, answer);
      AddWritesItsInstance(checks, s, c, ws, answer);
      FirstWriteKeepsTargets(s, n, x, ws[0]);
    }
  }

  /** A target with an invalid name, once bound, stays bound whatever is added,
      and while it is, no add succeeds on an instance with base rules and no base
      rule can be added to one without. */
  lemma BadTargetBlocksAdds(checks: Checks, s: State, n: string, bad: Target, c: Call, ws: seq<Write>, answer: Answer)
    requires Inv(s) && AllDistinct(checks, s) && n in s.instances && bad in Targets(s.instances[n]) && !GoodTarget(bad)
    requires Adds(c) && c.n == n && Legal(s, c) && Plan(checks, s, c, ws, answer)
    ensures answer.Ok? ==> c.Add? && s.instances[n].baseRules == []
    ensures n in DoAll(s, ws).instances && bad in Targets(DoAll(s, ws).instances[n])
  {
    AddKeepsTargets(checks, s, n, bad, c, ws, answer);
    match c
    case Add(_, t, now) => AddSucceedsIff(checks, s, n, t, now, ws, answer);
    case AddRule(_, base, newID, created, now) => AddRuleSucceedsIff(checks, s, n, base, newID, created, now, ws, answer);
  }

  /** It is bound all the same by the very call that is refused for it: after
      the error the target is there, and nothing live has changed. */
  lemma RefusedBindStays(checks: Checks, s: State, n: string, bad: Target, now: Time, ws: seq<Write>, answer: Answer)
    requires Inv(s) && AllDistinct(checks, s) && n in s.instances && !GoodTarget(bad) && s.instances[n].baseRules != []
    requires Plan(checks, s, Call.Add(n, bad, now), ws, answer)
    ensures answer == Err(ErrInvalid)
    ensures var s' := DoAll(s, ws);
            n in s'.instances && bad in Targets(s'.instances[n]) && Live(s', n) == Live(s, n)
  {
    AddSucceedsIff(checks, s, n, bad, now, ws, answer);
    SingleWrite(s, ws, |ws|);
    assert ws[..|ws|] == ws;
    TargetsOfBound(s.instances[n], bad, bad);
  }

  lemma SameRulesSameCoherence(s: State, s': State, n: string)
    requires Coherent(s) && Inv(s') && s'.rules == s.rules && n in s.instances && n in s'.instances
    requires s'.instances == s.instances[n := s'.instances[n]]
    ensures Coherent(s') <==> ProductOf(s', n) == ProductOf(s, n)
  {
    assert Live(s', n) == Live(s, n);
    if ProductOf(s', n) == ProductOf(s, n) {
      OthersStayCoherent(s, s', n);
    }
  }

  ghost predicate NoneInForce(i: Instance) {
    forall b :: b in i.baseRules ==> b.rule.removed
  }

  /** Binding enlarges the product unless the target is bound or no base rule is in force. */
  lemma BindEnlargesUnless(i: Instance, t: Target)
    ensures Product(Bound(i, t)) == Product(i) <==> t in Targets(i) || NoneInForce(i)
  {
    var j := Bound(i, t);
    TargetsOfBound(i, t, t);
    if t !in Targets(i) && !NoneInForce(i) {
      var b :| b in i.baseRules && !b.rule.removed;
      var x := Content(ExpandOne(i.name, b, t));
      ProductMember(j, b, t);
      if x in Product(i) {
        var c, u := ProductOrigin(i, ExpandOne(i.name, b, t));
        MetadataIsExpanded(b.rule.ruleID, i.name, t);
      }
    } else {
      forall x ensures x in Product(j) <==> x in Product(i) {
        if x in Product(j) {
          var b, u := FiltersOnProduct(j, "", x);
          TargetsOfBound(i, t, u);
          ProductMember(i, b, u);
        }
        if x in Product(i) {
          var b, u := FiltersOnProduct(i, "", x);
          TargetsOfBound(i, t, u);
          ProductMember(j, b, u);
        }
      }
    }
  }

  /** Pushing a new base rule enlarges the product unless it is marked removed or
      there is no target. */
  lemma PushEnlargesUnless(i: Instance, b: ServiceRule)
    requires forall c :: c in i.baseRules ==> c.rule.ruleID != b.rule.ruleID
    ensures Product(i.(baseRules := i.baseRules + [b])) == Product(i) <==> b.rule.removed || Targets(i) == []
  {
    var j := i.(baseRules := i.baseRules + [b]);
    assert Targets(j) == Targets(i);
    if !b.rule.removed && Targets(i) != [] {
      var t := Targets(i)[0];
      ProductMember(j, b, t);
      MetadataIsExpanded(b.rule.ruleID, i.name, t);
      if Content(ExpandOne(i.name, b, t)) in Product(i) {
        var c, u := ProductOrigin(i, ExpandOne(i.name, b, t));
        MetadataIsExpanded(c.rule.ruleID, i.name, u);
      }
    } else {
      forall x ensures x in Product(j) <==> x in Product(i) {
        if x in Product(j) {
          var c, u := FiltersOnProduct(j, "", x);
          ProductMember(i, c, u);
        }
        if x in Product(i) {
          var c, u := FiltersOnProduct(i, "", x);
          ProductMember(j, c, u);
        }
      }
    }
  }

  /** All that a refused add leaves behind is its first write. */
  lemma RefusedBindOnlyBinds(checks: Checks, s: State, n: string, t: Target, now: Time, ws: seq<Write>, answer: Answer)
    requires n in s.instances && Plan(checks, s, Call.Add(n, t, now), ws, answer) && answer.Err?
    ensures DoAll(s, ws) == DoWrite(s, Bind(n, t))
  {
    assert ws[..|ws|] == ws;
    SingleWrite(s, ws, |ws|);
  }

  lemma RefusedPushOnlyPushes(checks: Checks, s: State, c: Call, ws: seq<Write>, answer: Answer)
    requires c.AddRule? && Plan(checks, s, c, ws, answer) && answer.Err? && ws != []
    ensures c.n in s.instances && DoAll(s, ws) == DoWrite(s, PushRule(c.n, NewBase(c.base, c.newID, c.created)))
    ensures Targets(s.instances[c.n]) != []
  {
    var i := s.instances[c.n];
    assert ws[..|ws|] == ws;
    SingleWrite(s, ws, |ws|);
    var j := DoWrite(s, ws[0]).instances[c.n];
    assert Targets(j) == Targets(i);
    ValidExpansionIff(checks, j);
  }

  lemma RefusedBindKeepsCoherentIff(checks: Checks, s: State, n: string, t: Target, now: Time, ws: seq<Write>, answer: Answer)
    requires Coherent(s) && n in s.instances && Plan(checks, s, Call.Add(n, t, now), ws, answer) && answer.Err?
    ensures Coherent(DoAll(s, ws)) <==> t in Targets(s.instances[n]) || NoneInForce(s.instances[n])
  {
    RefusedBindOnlyBinds(checks, s, n, t, now, ws, answer);
    BindKeepsInv(s, n, t);
    SameRulesSameCoherence(s, DoWrite(s, Bind(n, t)), n);
    BindEnlargesUnless(s.instances[n], t);
  }

  lemma RefusedPushKeepsCoherentIff(checks: Checks, s: State, c: Call, ws: seq<Write>, answer: Answer)
    requires Coherent(s) && c.AddRule? && Legal(s, c) && Plan(checks, s, c, ws, answer) && answer.Err? && ws != []
    ensures Coherent(DoAll(s, ws)) <==> c.base.rule.removed
  {
    var b := NewBase(c.base, c.newID, c.created);
    RefusedPushOnlyPushes(checks, s, c, ws, answer);
    PushRuleKeepsInv(s, c.n, b);
    SameRulesSameCoherence(s, DoWrite(s, PushRule(c.n, b)), c.n);
    PushEnlargesUnless(s.instances[c.n], b);
  }

  /** What the caller can see before an add that is going to be refused: whether
      its first write will leave anything of the product unsaved. */
  ghost predicate RefusalIsHarmless(checks: Checks, s: State, c: Call)
    requires Adds(c)
  {
    c.n in s.instances ==>
      match c
      case Add(n, t, _) => t in Targets(s.instances[n]) || NoneInForce(s.instances[n])
      case AddRule(n, base, _, _, _) =>
        !ValidType(checks, base.rule.destination) || Taken(s.instances[n], base) || base.rule.removed
  }

  /** A refused add keeps coherent stores coherent exactly when it binds a target
      that is bound or an instance with no base rule in force, or when it adds a
      base rule that is invalid, taken or marked removed. */
  lemma RefusedAddKeepsCoherentIff(checks: Checks, s: State, c: Call, ws: seq<Write>, answer: Answer)
    requires Coherent(s) && AllDistinct(checks, s) && Adds(c) && Legal(s, c)
    requires Plan(checks, s, c, ws, answer) && answer.Err?
    ensures Coherent(DoAll(s, ws)) <==> RefusalIsHarmless(checks, s, c)
  {
    if c.n !in s.instances {
      RefusedOnMissingInstance(checks, s, c, ws, answer);
    } else {
      match c
      case Add(n, t, now) => RefusedBindKeepsCoherentIff(checks, s, n, t, now, ws, answer);
      case AddRule(n, base, _, _, _) =>
        if ValidType(checks, base.rule.destination) {
          AlreadyThereIffTaken(checks, s.instances[n], base);
        }
        if ws != [] {
          RefusedPushKeepsCoherentIff(checks, s, c, ws, answer);
        }
    }
  }

  lemma RefusedOnMissingInstance(checks: Checks, s: State, c: Call, ws: seq<Write>, answer: Answer)
    requires Adds(c) && c.n !in s.instances && Plan(checks, s, c, ws, answer)
    ensures DoAll(s, ws) == s
  {
    if ws != [] {
      SingleWrite(s, ws, |ws|);
      assert ws[..|ws|] == ws;
    }
  }

  const BASE_ID := "0123456789abcdef01234567"
  const BASE := ServiceRule(
    Rule(BASE_ID, "", NO_TYPE, NO_TYPE.(tsuruApp := Some(TsuruAppRule("web", ""))), false, map[], 0, ""), "", "")
  const UNBOUND := Instance("acl", "", "", [], [], [BASE])
  const ONE_BASE := State(map["acl" := UNBOUND], map[], map[BASE_ID := "acl"])

  lemma OneBaseIsStored(checks: Checks)
    ensures IsObjectID(BASE_ID) && WellStored(checks, BASE)
  {
    var name := "web";
    assert |name| == 3 && name[0] == 'w' && name[1] == 'e' && name[2] == 'b';
    assert ValidTsuruName(name);
  }

  lemma OneBaseIsCoherent(checks: Checks)
    ensures Coherent(ONE_BASE) && AllDistinct(checks, ONE_BASE)
  {
    OneBaseIsStored(checks);
    EmptyStoresWithBase("acl", BASE);
    var bases := UNBOUND.baseRules;
    assert bases == [BASE] && bases[..|bases| - 1] == [] && bases[|bases| - 1] == BASE;
    assert Distinct(checks, bases[..|bases| - 1]);
  }

  /** An instance without targets and a rule store that is empty agree. */
  lemma EmptyStoresWithBase(n: string, b: ServiceRule)
    requires IsObjectID(b.rule.ruleID)
    ensures Coherent(State(map[n := Instance(n, "", "", [], [], [b])], map[], map[b.rule.ruleID := n]))
  {
    var i := Instance(n, "", "", [], [], [b]);
    assert Targets(i) == [] && Product(i) == {};
  }

  /** A call as small as can be that spoils the view: binding the empty name, which
      the handler lets through, to an instance with one base rule. */
  lemma RefusedBindSpoilsTheView(checks: Checks, now: Time, ws: seq<Write>, answer: Answer)
    requires Plan(checks, ONE_BASE, Call.Add("acl", App(""), now), ws, answer)
    ensures Coherent(ONE_BASE) && answer == Err(ErrInvalid) && !Coherent(DoAll(ONE_BASE, ws))
  {
    OneBaseIsCoherent(checks);
    AddSucceedsIff(checks, ONE_BASE, "acl", App(""), now, ws, answer);
    assert Targets(UNBOUND) == [] && !GoodTarget(App(""));
    assert UNBOUND.baseRules[0] == BASE && BASE in UNBOUND.baseRules;
    RefusedBindKeepsCoherentIff(checks, ONE_BASE, "acl", App(""), now, ws, answer);
  }
}
