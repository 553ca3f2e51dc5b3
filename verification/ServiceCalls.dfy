/** The calls of the service as the writes they make, in order. A call that
    crashes, or that the store fails, stops after some of them. */
module ServiceCalls {
  import opened Basics
  import opened Clock
  import opened RuleTypes
  import opened RuleFilter
  import opened ServiceIDs
  import opened ServiceModel
  import opened ServiceSound

  datatype Error =
    | ErrInstanceNotFound | ErrInstanceAlreadyExists | ErrRuleAlreadyExists | ErrRuleNotFound | ErrInvalid | ErrUnavailable

  /** Add and Remove stand for the calls on applications and on jobs; SaveRule and
      DeleteRule for the calls that bypass the service. */
  datatype Call =
    | Create(n: string, creator: string, eventID: string)
    | Delete(n: string)
    | AddRule(n: string, base: ServiceRule, newID: string, created: Time, now: Time)
    | RemoveRule(n: string, id: string)
    | Add(n: string, t: Target, now: Time)
    | Remove(n: string, t: Target)
    | SaveRule(rule: Rule)
    | DeleteRule(id: string)

  type Answer = Result<seq<Rule>, Error>

  /** The metadata that a removal deletes by. */
  function InstanceFilter(n: string): map<string, string> {
    map["owner" := OWNER, "instance-name" := n]
  }

  function TargetFilter(n: string, t: Target): map<string, string> {
    match t
    case App(name) => InstanceFilter(n)["app-name" := name]
    case Job(name) => InstanceFilter(n)["job-name" := name]
  }

  function BaseFilter(n: string, id: string): map<string, string> {
    InstanceFilter(n)["base-ruleid" := id]
  }

  /** What a removal deletes, in full: the rules with the owner, the instance and the
      application, job or base rule in their metadata. */
  lemma FiltersInFull(md: map<string, string>, n: string, x: string)
    ensures Includes(md, InstanceFilter(n)) <==>
              "owner" in md && md["owner"] == "aclfromhell" && "instance-name" in md && md["instance-name"] == n
    ensures Includes(md, TargetFilter(n, App(x))) <==> Includes(md, InstanceFilter(n)) && "app-name" in md && md["app-name"] == x
    ensures Includes(md, TargetFilter(n, Job(x))) <==> Includes(md, InstanceFilter(n)) && "job-name" in md && md["job-name"] == x
    ensures Includes(md, BaseFilter(n, x)) <==> Includes(md, InstanceFilter(n)) && "base-ruleid" in md && md["base-ruleid"] == x
  {
    IncludesMore(md, InstanceFilter(n), "app-name", x);
    IncludesMore(md, InstanceFilter(n), "job-name", x);
    IncludesMore(md, InstanceFilter(n), "base-ruleid", x);
    var f := InstanceFilter(n);
    assert "owner" in f && "instance-name" in f;
  }

  lemma IncludesMore(md: map<string, string>, f: map<string, string>, k: string, x: string)
    requires k !in f
    ensures Includes(md, f[k := x]) <==> Includes(md, f) && k in md && md[k] == x
  {
    var g := f[k := x];
    if Includes(md, g) {
      assert k in g;
      forall y | y in f ensures y in md && md[y] == f[y] {
        assert y in g && g[y] == f[y];
      }
    }
  }

  function Upserts(rs: seq<Rule>, now: Time): seq<Write> {
    seq(|rs|, i requires 0 <= i < |rs| => Upsert(rs[i], now))
  }

  predicate ValidRule(checks: Checks, r: Rule) {
    ValidType(checks, r.source) && ValidType(checks, r.destination)
  }

  predicate ValidRules(checks: Checks, rs: seq<Rule>) {
    forall i :: 0 <= i < |rs| ==> ValidRule(checks, rs[i])
  }

  function SavedAt(rs: seq<Rule>, now: Time): seq<Rule> {
    seq(|rs|, i requires 0 <= i < |rs| => rs[i].(created := now))
  }

  /** The save at the end of an add: all of the expansion, or nothing when one
      rule of it is invalid. */
  function SyncWrites(checks: Checks, i: Instance, now: Time): seq<Write> {
    if ValidRules(checks, Expand(i)) then Upserts(Expand(i), now) else []
  }

  function SyncAnswer(checks: Checks, i: Instance, now: Time): Answer {
    if ValidRules(checks, Expand(i)) then Ok(SavedAt(Expand(i), now)) else Err(ErrInvalid)
  }

  /** The marks of a removal: one for each rule that the filter selects, in some order. */
  ghost predicate Marks(s: State, filter: map<string, string>, ws: seq<Write>) {
    && (forall i :: 0 <= i < |ws| ==> ws[i].MarkRemoved?)
    && (forall id :: MarkRemoved(id) in ws <==> id in s.rules && Includes(s.rules[id].metadata, filter))
  }

  /** Marks first, and the change of the instance last. */
  ghost predicate RemovalPlan(s: State, filter: map<string, string>, last: Write, ws: seq<Write>) {
    ws != [] && ws[|ws| - 1] == last && Marks(s, filter, ws[..|ws| - 1])
  }

  /** A base rule as the store gives it back. */
  function NewBase(rule: ServiceRule, newID: string, created: Time): ServiceRule {
    rule.(rule := rule.rule.(
      ruleID := if rule.rule.ruleID == "" then newID else rule.rule.ruleID,
      source := Decoded(rule.rule.source), destination := Decoded(rule.rule.destination), created := Stored(created)))
  }

  predicate AlreadyThere(i: Instance, r: ServiceRule) {
    exists k :: 0 <= k < |i.baseRules| && !i.baseRules[k].rule.removed
      && Equals(Some(i.baseRules[k].rule.destination), Some(r.rule.destination))
  }

  /** ws are the writes of an undisturbed call on s, and answer is what it returns. */
  ghost predicate Plan(checks: Checks, s: State, c: Call, ws: seq<Write>, answer: Answer) {
    match c
    case Create(n, creator, eventID) =>
      && ws == [InsertInstance(Instance(n, creator, eventID, [], [], []))]
      && answer == (if n in s.instances then Err(ErrInstanceAlreadyExists) else Ok([]))
    case Delete(n) =>
      && RemovalPlan(s, InstanceFilter(n), DropInstance(n), ws)
      && answer == (if n in s.instances then Ok([]) else Err(ErrInstanceNotFound))
    case AddRule(n, rule, newID, created, now) =>
      if !ValidType(checks, rule.rule.destination) then ws == [] && answer == Err(ErrInvalid)
      else if n !in s.instances then ws == [] && answer == Err(ErrInstanceNotFound)
      else if AlreadyThere(s.instances[n], rule) then ws == [] && answer == Err(ErrRuleAlreadyExists)
      else
        var push := PushRule(n, NewBase(rule, newID, created));
        var i := DoWrite(s, push).instances[n];
        ws == [push] + SyncWrites(checks, i, now) && answer == SyncAnswer(checks, i, now)
    case RemoveRule(n, id) => RemovalPlan(s, BaseFilter(n, id), PullRule(n, id), ws) && answer == Ok([])
    case Add(n, t, now) =>
      if n !in s.instances then ws == [Bind(n, t)] && answer == Err(ErrInstanceNotFound)
      else
        var i := Bound(s.instances[n], t);
        ws == [Bind(n, t)] + SyncWrites(checks, i, now) && answer == SyncAnswer(checks, i, now)
    case Remove(n, t) => RemovalPlan(s, TargetFilter(n, t), Unbind(n, t), ws) && answer == Ok([])
    case SaveRule(rule) => ws == [InsertRule(rule)] && answer == Ok([])
    case DeleteRule(id) =>
      && ws == [MarkRemoved(id)]
      && answer == (if id in s.rules && !s.rules[id].removed then Ok([]) else Err(ErrRuleNotFound))
  }

  /** Generated ids are new, the handler clears the id of a base rule, and what
      is saved outside the service does not claim its metadata. */
  ghost predicate Legal(s: State, c: Call) {
    match c
    case AddRule(_, rule, newID, _, _) => rule.rule.ruleID == "" && IsObjectID(newID) && newID !in s.issued
    case SaveRule(rule) => IsObjectID(rule.ruleID) && rule.ruleID !in s.issued && !Serviced(rule.metadata)
    case _ => true
  }

  /** A serial step: one call, stopped after k of its writes. */
  ghost predicate Stopped(checks: Checks, s: State, c: Call, ws: seq<Write>, answer: Answer, k: nat, s': State) {
    && Legal(s, c) && Plan(checks, s, c, ws, answer) && k <= |ws| && s' == DoAll(s, ws[..k])
  }

  ghost predicate Next(checks: Checks, s: State, c: Call, s': State) {
    exists ws, answer, k: nat :: Stopped(checks, s, c, ws, answer, k, s')
  }

  ghost predicate IsRun(checks: Checks, states: seq<State>, calls: seq<Call>) {
    && |states| == |calls| + 1
    && states[0] == INIT
    && forall i :: 0 <= i < |calls| ==> Next(checks, states[i], calls[i], states[i + 1])
  }

  predicate Adds(c: Call) {
    c.Add? || c.AddRule?
  }

  /** What the calls answer, in full. */
  lemma AnswersInFull(checks: Checks, s: State, c: Call, ws: seq<Write>, answer: Answer)
    requires Plan(checks, s, c, ws, answer)
    ensures c.Create? ==> answer == if c.n in s.instances then Err(ErrInstanceAlreadyExists) else Ok([])
    ensures c.Delete? ==> answer == if c.n in s.instances then Ok([]) else Err(ErrInstanceNotFound)
    ensures c.RemoveRule? || c.Remove? || c.SaveRule? ==> answer == Ok([])
    ensures c.DeleteRule? ==> answer == if c.id in s.rules && !s.rules[c.id].removed then Ok([]) else Err(ErrRuleNotFound)
    ensures c.Add? && c.n !in s.instances ==> answer == Err(ErrInstanceNotFound)
  {
  }

  /** When an add of a base rule is refused before it writes anything, and what an
      add writes first. */
  lemma AddRuleInFull(checks: Checks, s: State, c: Call, ws: seq<Write>, answer: Answer)
    requires c.AddRule? && Plan(checks, s, c, ws, answer)
    ensures !ValidType(checks, c.base.rule.destination) ==> answer == Err(ErrInvalid) && ws == []
    ensures ValidType(checks, c.base.rule.destination) && c.n !in s.instances ==> answer == Err(ErrInstanceNotFound) && ws == []
    ensures ValidType(checks, c.base.rule.destination) && c.n in s.instances ==>
              if exists b :: b in s.instances[c.n].baseRules && !b.rule.removed
                   && Equals(Some(b.rule.destination), Some(c.base.rule.destination))
              then answer == Err(ErrRuleAlreadyExists) && ws == []
              else ws != [] && ws[0] == PushRule(c.n, NewBase(c.base, c.newID, c.created))
  {
    if c.n in s.instances {
      AlreadyThereInFull(s.instances[c.n], c.base);
    }
  }

  lemma AlreadyThereInFull(i: Instance, r: ServiceRule)
    ensures AlreadyThere(i, r) <==>
              exists b :: b in i.baseRules && !b.rule.removed && Equals(Some(b.rule.destination), Some(r.rule.destination))
  {
    if AlreadyThere(i, r) {
      var k :| 0 <= k < |i.baseRules| && !i.baseRules[k].rule.removed
        && Equals(Some(i.baseRules[k].rule.destination), Some(r.rule.destination));
      assert i.baseRules[k] in i.baseRules;
    }
    if b :| b in i.baseRules && !b.rule.removed && Equals(Some(b.rule.destination), Some(r.rule.destination)) {
      var k :| 0 <= k < |i.baseRules| && i.baseRules[k] == b;
    }
  }

  /** The save of an add, in full: each rule of the expansion, in order, at the time
      of the call; and those rules are the answer, with that time. */
  lemma SaveInFull(checks: Checks, i: Instance, now: Time)
    ensures ValidRules(checks, Expand(i)) ==>
              var all, us, answer := Expand(i), SyncWrites(checks, i, now), SyncAnswer(checks, i, now);
              && |us| == |all| && answer.Ok? && |answer.value| == |all|
              && forall k :: 0 <= k < |all| ==> us[k] == Upsert(all[k], now) && answer.value[k] == all[k].(created := now)
    ensures !ValidRules(checks, Expand(i)) ==> SyncWrites(checks, i, now) == [] && SyncAnswer(checks, i, now) == Err(ErrInvalid)
  {
  }

  /** The writes of an add that succeeds, in full. */
  lemma AddInFull(checks: Checks, s: State, c: Call, ws: seq<Write>, answer: Answer)
    requires Adds(c) && Plan(checks, s, c, ws, answer) && answer.Ok?
    ensures c.n in s.instances && ws != []
    ensures ws[0] == if c.Add? then Bind(c.n, c.t) else PushRule(c.n, NewBase(c.base, c.newID, c.created))
    ensures c.n in DoWrite(s, ws[0]).instances
    ensures var i := DoWrite(s, ws[0]).instances[c.n];
            ws[1..] == SyncWrites(checks, i, c.now) && answer == SyncAnswer(checks, i, c.now)
  {
  }

  /** A base rule as it enters an instance, in full. */
  lemma NewBaseInFull(base: ServiceRule, newID: string, created: Time)
    ensures NewBase(base, newID, created) ==
              ServiceRule(
                Rule(if base.rule.ruleID == "" then newID else base.rule.ruleID, base.rule.ruleName,
                     Decoded(base.rule.source), Decoded(base.rule.destination), base.rule.removed,
                     base.rule.metadata, created - created % 1_000_000, base.rule.creator),
                base.creator, base.eventID)
  {
  }

  // ---------------------------------------------------------------- effects

  lemma UpsertsStep(s: State, rs: seq<Rule>, now: Time, k: nat)
    requires 0 < k <= |rs|
    ensures DoAll(s, Upserts(rs, now)[..k]) == DoWrite(DoAll(s, Upserts(rs, now)[..k - 1]), Upsert(rs[k - 1], now))
  {
    var us := Upserts(rs, now);
    assert us[..k][..k - 1] == us[..k - 1];
  }

  lemma {:induction false} UpsertsKeepInstances(s: State, rs: seq<Rule>, now: Time, k: nat)
    requires k <= |rs|
    ensures var s' := DoAll(s, Upserts(rs, now)[..k]);
            s'.instances == s.instances && s'.issued == s.issued
  {
    if k > 0 {
      UpsertsStep(s, rs, now, k);
      UpsertsKeepInstances(s, rs, now, k - 1);
    } else {
      assert Upserts(rs, now)[..0] == [];
    }
  }

  /** The rule store after the first k saves of a loop: a rule that none of them
      saved is as it was. */
  lemma {:induction false} UpsertsLeaveOthers(s: State, rs: seq<Rule>, now: Time, k: nat, id: string)
    requires k <= |rs| && forall j :: 0 <= j < k ==> rs[j].ruleID != id
    ensures var s' := DoAll(s, Upserts(rs, now)[..k]);
            && (id in s'.rules <==> id in s.rules) && (id in s.rules ==> s'.rules[id] == s.rules[id])
  {
    if k > 0 {
      UpsertsStep(s, rs, now, k);
      UpsertsLeaveOthers(s, rs, now, k - 1, id);
    } else {
      assert Upserts(rs, now)[..0] == [];
    }
  }

  /** And of a rule that was saved, the last save is there, in full: with the time of
      the save in whole milliseconds, and without its name. */
  lemma {:induction false} LastUpsertIsThere(s: State, rs: seq<Rule>, now: Time, k: nat, j: nat)
    requires j < k <= |rs| && forall l :: j < l < k ==> rs[l].ruleID != rs[j].ruleID
    ensures var rules := DoAll(s, Upserts(rs, now)[..k]).rules;
            && rs[j].ruleID in rules
            && rules[rs[j].ruleID] == rs[j].(created := now - now % 1_000_000, ruleName := "")
  {
    UpsertsStep(s, rs, now, k);
    if j < k - 1 {
      LastUpsertIsThere(s, rs, now, k - 1, j);
    }
  }

  lemma {:induction false} MarksEffect(s: State, ws: seq<Write>)
    requires forall i :: 0 <= i < |ws| ==> ws[i].MarkRemoved?
    ensures var s' := DoAll(s, ws);
            && s'.instances == s.instances && s'.issued == s.issued && s'.rules.Keys == s.rules.Keys
            && forall id :: id in s.rules ==>
                 s'.rules[id] == (if MarkRemoved(id) in ws then s.rules[id].(removed := true) else s.rules[id])
  {
    if ws != [] {
      var n := |ws| - 1;
      MarksEffect(s, ws[..n]);
      assert ws == ws[..n] + [ws[n]];
    }
  }

  lemma {:induction false} MarksKeepInv(s: State, ws: seq<Write>)
    requires Inv(s) && forall i :: 0 <= i < |ws| ==> ws[i].MarkRemoved?
    ensures Inv(DoAll(s, ws))
  {
    if ws != [] {
      var n := |ws| - 1;
      MarksKeepInv(s, ws[..n]);
      MarkRemovedKeepsInv(DoAll(s, ws[..n]), ws[n].id);
    }
  }

  /** Rules that are not of the instance are untouched, and none of them is new. */
  ghost predicate OnlyOwnedChanged(s: State, s': State, n: string) {
    && (forall id :: id in s.rules && !Owned(s.rules[id], n) ==> id in s'.rules && s'.rules[id] == s.rules[id])
    && (forall id :: id in s.rules && Owned(s.rules[id], n) ==> id in s'.rules && Owned(s'.rules[id], n))
    && (forall id :: id in s'.rules && id !in s.rules ==> Owned(s'.rules[id], n))
  }

  lemma OnlyOwnedChangedTransitive(s: State, m: State, s': State, n: string)
    requires OnlyOwnedChanged(s, m, n) && OnlyOwnedChanged(m, s', n)
    ensures OnlyOwnedChanged(s, s', n)
  {
  }

  lemma ReplaceOwned(m: State, id: string, r: Rule, n: string)
    requires Owned(r, n) && (id in m.rules ==> Owned(m.rules[id], n))
    ensures OnlyOwnedChanged(m, m.(rules := m.rules[id := r]), n)
  {
  }

  lemma UpsertOneEffect(m: State, n: string, b: ServiceRule, t: Target, now: Time)
    requires Inv(m) && n in m.instances && b in m.instances[n].baseRules && t in Targets(m.instances[n])
    ensures Inv(DoWrite(m, Upsert(ExpandOne(n, b, t), now)))
    ensures OnlyOwnedChanged(m, DoWrite(m, Upsert(ExpandOne(n, b, t), now)), n)
  {
    var r := ExpandOne(n, b, t);
    UpsertKeepsInv(m, n, b, t, now);
    assert Owned(r, n) by {
      MetadataIsExpanded(b.rule.ruleID, n, t);
    }
    if r.ruleID in m.rules {
      UpsertReplacesItsOwn(m, n, b, t);
    }
    ReplaceOwned(m, r.ruleID, Upserted(r, now), n);
  }

  lemma UpsertEffect(m: State, n: string, r: Rule, now: Time)
    requires Inv(m) && n in m.instances && IsExpansion(m.instances[n], r)
    ensures Inv(DoWrite(m, Upsert(r, now)))
    ensures OnlyOwnedChanged(m, DoWrite(m, Upsert(r, now)), n)
  {
    var b, t :| b in m.instances[n].baseRules && t in Targets(m.instances[n]) && r == ExpandOne(m.instances[n].name, b, t);
    assert m.instances[n].name == n;
    UpsertOneEffect(m, n, b, t, now);
  }

  /** What an upsert loop keeps, wherever it stops. */
  lemma {:induction false} UpsertsKeep(s: State, n: string, rs: seq<Rule>, now: Time, k: nat)
    requires Inv(s) && n in s.instances && k <= |rs|
    requires forall r :: r in rs ==> IsExpansion(s.instances[n], r)
    ensures Inv(DoAll(s, Upserts(rs, now)[..k]))
    ensures OnlyOwnedChanged(s, DoAll(s, Upserts(rs, now)[..k]), n)
    ensures DoAll(s, Upserts(rs, now)[..k]).instances == s.instances
    ensures DoAll(s, Upserts(rs, now)[..k]).issued == s.issued
  {
    if k > 0 {
      UpsertsKeep(s, n, rs, now, k - 1);
      var us := Upserts(rs, now);
      assert us[..k][..k - 1] == us[..k - 1];
      var m, r := DoAll(s, us[..k - 1]), rs[k - 1];
      assert r in rs;
      UpsertEffect(m, n, r, now);
      OnlyOwnedChangedTransitive(s, m, DoWrite(m, Upsert(r, now)), n);
    }
  }

  /** What it has saved by then. */
  lemma {:induction false} UpsertsSave(s: State, rs: seq<Rule>, now: Time, k: nat, j: nat)
    requires j < k <= |rs|
    requires forall q, r :: q in rs && r in rs && q.ruleID == r.ruleID ==> q == r
    ensures var rules := DoAll(s, Upserts(rs, now)[..k]).rules;
            rs[j].ruleID in rules && rules[rs[j].ruleID] == Upserted(rs[j], now)
  {
    var us := Upserts(rs, now);
    assert us[..k][..k - 1] == us[..k - 1];
    if j < k - 1 {
      UpsertsSave(s, rs, now, k - 1, j);
      assert rs[j] in rs && rs[k - 1] in rs;
    }
  }

  lemma SameIDSameExpansion(s: State, n: string, q: Rule, r: Rule)
    requires BasesIssued(s) && n in s.instances && q.ruleID == r.ruleID
    requires IsExpansion(s.instances[n], q) && IsExpansion(s.instances[n], r)
    ensures q == r
  {
    var i := s.instances[n];
    var b, t :| b in i.baseRules && t in Targets(i) && q == ExpandOne(n, b, t);
    var c, u :| c in i.baseRules && u in Targets(i) && r == ExpandOne(n, c, u);
    ExpandedIDIsInjective(b.rule.ruleID, t, c.rule.ruleID, u);
    assert DistinctBases(i.baseRules);
  }

  /** A whole loop over the expansion makes everything in the product live. */
  lemma FullSyncIsExact(s: State, n: string, now: Time)
    requires Inv(s) && n in s.instances
    ensures var s' := DoAll(s, Upserts(Expand(s.instances[n]), now));
            Inv(s') && s'.instances == s.instances && Live(s', n) == ProductOf(s', n)
  {
    var i := s.instances[n];
    var rs := Expand(i);
    var us := Upserts(rs, now);
    forall r | r in rs ensures IsExpansion(i, r) { ExpandMembers(i, r); }
    UpsertsKeep(s, n, rs, now, |rs|);
    assert us[..|rs|] == us;
    forall q, r | q in rs && r in rs && q.ruleID == r.ruleID ensures q == r { SameIDSameExpansion(s, n, q, r); }
    var s' := DoAll(s, us);
    SoundMeansSubset(s', n);
    forall x | x in Product(i) ensures x in Live(s', n) {
      var b, t :| b in i.baseRules && t in Targets(i) && !b.rule.removed && x == Content(ExpandOne(i.name, b, t));
      var r := ExpandOne(n, b, t);
      ExpandMembers(i, r);
      var j :| 0 <= j < |rs| && rs[j] == r;
      UpsertsSave(s, rs, now, |rs|, j);
      assert s'.rules[r.ruleID] == Upserted(r, now);
      MetadataIsExpanded(b.rule.ruleID, n, t);
      assert Content(s'.rules[r.ruleID]) == x && Owned(s'.rules[r.ruleID], n);
    }
  }
}
