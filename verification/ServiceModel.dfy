/** The two stores behind the service instances, and the writes that change them. */
module ServiceModel {
  import opened Basics
  import opened Clock
  import opened RuleTypes
  import opened ServiceIDs

  const OWNER := "aclfromhell"

  datatype ServiceRule = ServiceRule(rule: Rule, creator: string, eventID: string)

  datatype Instance = Instance(
    name: string, creator: string, eventID: string,
    bindApps: seq<string>, bindJobs: seq<string>, baseRules: seq<ServiceRule>)

  /** issued: every id generated so far, with the instance it went to, or "" for
      a rule that belongs to none. */
  datatype State = State(instances: map<string, Instance>, rules: map<string, Rule>, issued: map<string, string>)

  const INIT := State(map[], map[], map[])

  // ---------------------------------------------------------------- metadata

  function RuleMetadata(base: string, instance: string): map<string, string> {
    map["owner" := OWNER, "base-ruleid" := base, "instance-name" := instance]
  }

  function MetadataOf(base: string, instance: string, t: Target): map<string, string> {
    match t
    case App(name) => RuleMetadata(base, instance)["app-name" := name]
    case Job(name) => RuleMetadata(base, instance)["job-name" := name]
  }

  /** The rule says that it belongs to the service. */
  predicate Serviced(md: map<string, string>) {
    "owner" in md && md["owner"] == OWNER
  }

  predicate Owned(r: Rule, instance: string) {
    Serviced(r.metadata) && "instance-name" in r.metadata && r.metadata["instance-name"] == instance
  }

  /** The metadata of some expanded rule. */
  predicate Expanded(md: map<string, string>) {
    && "base-ruleid" in md && "instance-name" in md && ("app-name" in md || "job-name" in md)
    && md == MetadataOf(md["base-ruleid"], md["instance-name"], TargetOf(md))
  }

  function TargetOf(md: map<string, string>): Target {
    if "app-name" in md then App(md["app-name"])
    else if "job-name" in md then Job(md["job-name"])
    else App("")
  }

  lemma MetadataIsExpanded(base: string, instance: string, t: Target)
    ensures var md := MetadataOf(base, instance, t);
            Expanded(md) && Serviced(md) && md["base-ruleid"] == base && md["instance-name"] == instance && TargetOf(md) == t
  {
  }

  // ---------------------------------------------------------------- expansion

  function SourceOf(t: Target): RuleType {
    match t
    case App(name) => NO_TYPE.(tsuruApp := Some(TsuruAppRule(name, "")))
    case Job(name) => NO_TYPE.(tsuruJob := Some(TsuruJobRule(name)))
  }

  /** The rule that a base rule becomes for one target. */
  function ExpandOne(instance: string, b: ServiceRule, t: Target): Rule {
    b.rule.(ruleID := ExpandedID(b.rule.ruleID, t), source := SourceOf(t),
            metadata := MetadataOf(b.rule.ruleID, instance, t))
  }

  function Targets(i: Instance): seq<Target> {
    seq(|i.bindApps|, k requires 0 <= k < |i.bindApps| => App(i.bindApps[k]))
    + seq(|i.bindJobs|, k requires 0 <= k < |i.bindJobs| => Job(i.bindJobs[k]))
  }

  function ExpandBase(i: Instance, b: ServiceRule): seq<Rule> {
    seq(|Targets(i)|, k requires 0 <= k < |Targets(i)| => ExpandOne(i.name, b, Targets(i)[k]))
  }

  function ExpandUpTo(i: Instance, n: nat): seq<Rule>
    requires n <= |i.baseRules|
  {
    if n == 0 then [] else ExpandUpTo(i, n - 1) + ExpandBase(i, i.baseRules[n - 1])
  }

  /** Every base rule for every bound application and then every bound job. */
  function Expand(i: Instance): seq<Rule> {
    ExpandUpTo(i, |i.baseRules|)
  }

  ghost predicate IsExpansion(i: Instance, r: Rule) {
    exists b, t :: b in i.baseRules && t in Targets(i) && r == ExpandOne(i.name, b, t)
  }

  lemma ExpandBaseMembers(i: Instance, b: ServiceRule, r: Rule)
    ensures r in ExpandBase(i, b) <==> exists t :: t in Targets(i) && r == ExpandOne(i.name, b, t)
  {
    if r in ExpandBase(i, b) {
      var k :| 0 <= k < |Targets(i)| && r == ExpandOne(i.name, b, Targets(i)[k]);
      assert Targets(i)[k] in Targets(i);
    }
    if t :| t in Targets(i) && r == ExpandOne(i.name, b, t) {
      var k :| 0 <= k < |Targets(i)| && Targets(i)[k] == t;
      assert ExpandBase(i, b)[k] == r;
    }
  }

  lemma {:induction false} ExpandUpToMembers(i: Instance, n: nat, r: Rule)
    requires n <= |i.baseRules|
    ensures r in ExpandUpTo(i, n) <==> exists b, t :: b in i.baseRules[..n] && t in Targets(i) && r == ExpandOne(i.name, b, t)
  {
    if n > 0 {
      ExpandUpToMembers(i, n - 1, r);
      ExpandBaseMembers(i, i.baseRules[n - 1], r);
      assert i.baseRules[..n] == i.baseRules[..n - 1] + [i.baseRules[n - 1]];
    }
  }

  lemma ExpandMembers(i: Instance, r: Rule)
    ensures r in Expand(i) <==> IsExpansion(i, r)
  {
    ExpandUpToMembers(i, |i.baseRules|, r);
    assert i.baseRules[..|i.baseRules|] == i.baseRules;
  }

  /** One expanded rule in full: all of the base rule but its id, source and metadata. */
  lemma OneInFull(instance: string, b: ServiceRule, name: string)
    ensures ExpandOne(instance, b, App(name)) ==
              Rule(b.rule.ruleID + "-" + name, b.rule.ruleName,
                   NO_TYPE.(tsuruApp := Some(TsuruAppRule(name, ""))), b.rule.destination, b.rule.removed,
                   map["owner" := "aclfromhell", "base-ruleid" := b.rule.ruleID, "instance-name" := instance, "app-name" := name],
                   b.rule.created, b.rule.creator)
    ensures ExpandOne(instance, b, Job(name)) ==
              Rule("job-" + b.rule.ruleID + "-" + name, b.rule.ruleName,
                   NO_TYPE.(tsuruJob := Some(TsuruJobRule(name))), b.rule.destination, b.rule.removed,
                   map["owner" := "aclfromhell", "base-ruleid" := b.rule.ruleID, "instance-name" := instance, "job-name" := name],
                   b.rule.created, b.rule.creator)
  {
  }

  /** The expansion in full: one such rule for every base rule and application, and
      for every base rule and job. */
  lemma ExpandInFull(i: Instance, r: Rule)
    ensures r in Expand(i) <==>
              || (exists b, name :: b in i.baseRules && name in i.bindApps && r == ExpandOne(i.name, b, App(name)))
              || (exists b, name :: b in i.baseRules && name in i.bindJobs && r == ExpandOne(i.name, b, Job(name)))
  {
    ExpandMembers(i, r);
    if IsExpansion(i, r) {
      var b, t :| b in i.baseRules && t in Targets(i) && r == ExpandOne(i.name, b, t);
      BoundNames(i, t);
      assert t == App(t.name) || t == Job(t.name);
    }
    if b, name :| b in i.baseRules && name in i.bindApps && r == ExpandOne(i.name, b, App(name)) {
      BoundNames(i, App(name));
    }
    if b, name :| b in i.baseRules && name in i.bindJobs && r == ExpandOne(i.name, b, Job(name)) {
      BoundNames(i, Job(name));
    }
  }

  lemma OneMore(n: nat, w: nat)
    requires n > 0
    ensures n * w == (n - 1) * w + w
  {
  }

  lemma FitsBefore(k: nat, n: nat, j: nat, w: nat)
    requires k < n && j < w
    ensures 0 <= k * w <= k * w + j < n * w
  {
    OneMore(n, w);
    assert k * w <= (n - 1) * w;
  }

  lemma {:induction false} ExpandUpToSize(i: Instance, n: nat, w: nat)
    requires n <= |i.baseRules| && w == |Targets(i)|
    ensures |ExpandUpTo(i, n)| == n * w
  {
    if n > 0 {
      ExpandUpToSize(i, n - 1, w);
      OneMore(n, w);
    }
  }

  lemma {:induction false} ExpandUpToAt(i: Instance, n: nat, k: nat, j: nat, w: nat)
    requires k < n <= |i.baseRules| && j < w == |Targets(i)|
    ensures |ExpandUpTo(i, n)| == n * w && 0 <= k * w + j < n * w
    ensures ExpandUpTo(i, n)[k * w + j] == ExpandOne(i.name, i.baseRules[k], Targets(i)[j])
  {
    ExpandUpToSize(i, n, w);
    ExpandUpToSize(i, n - 1, w);
    FitsBefore(k, n, j, w);
    if k < n - 1 {
      FitsBefore(k, n - 1, j, w);
      ExpandUpToAt(i, n - 1, k, j, w);
    } else {
      assert ExpandUpTo(i, n)[k * w + j] == ExpandBase(i, i.baseRules[k])[j];
    }
  }

  /** Its order: base rule by base rule, for each of them the applications and then the jobs. */
  lemma ExpandAt(i: Instance, k: nat, j: nat)
    requires k < |i.baseRules| && j < |i.bindApps| + |i.bindJobs|
    ensures |Expand(i)| == |i.baseRules| * (|i.bindApps| + |i.bindJobs|)
    ensures 0 <= k * (|i.bindApps| + |i.bindJobs|) + j < |Expand(i)|
    ensures Expand(i)[k * (|i.bindApps| + |i.bindJobs|) + j]
         == ExpandOne(i.name, i.baseRules[k], if j < |i.bindApps| then App(i.bindApps[j]) else Job(i.bindJobs[j - |i.bindApps|]))
  {
    ExpandUpToAt(i, |i.baseRules|, k, j, |i.bindApps| + |i.bindJobs|);
  }

  /** All of it at once. */
  lemma ExpansionInFull(i: Instance)
    ensures |i.baseRules| > 0 && |i.bindApps| + |i.bindJobs| > 0 ==> |Expand(i)| == |i.baseRules| * (|i.bindApps| + |i.bindJobs|)
    ensures forall r :: r in Expand(i) <==>
              || (exists b, name :: b in i.baseRules && name in i.bindApps && r == ExpandOne(i.name, b, App(name)))
              || (exists b, name :: b in i.baseRules && name in i.bindJobs && r == ExpandOne(i.name, b, Job(name)))
    ensures forall b, name ::
              ExpandOne(i.name, b, App(name)) ==
                b.rule.(ruleID := b.rule.ruleID + "-" + name, source := NO_TYPE.(tsuruApp := Some(TsuruAppRule(name, ""))),
                        metadata := map["owner" := "aclfromhell", "base-ruleid" := b.rule.ruleID,
                                        "instance-name" := i.name, "app-name" := name])
    ensures forall b, name ::
              ExpandOne(i.name, b, Job(name)) ==
                b.rule.(ruleID := "job-" + b.rule.ruleID + "-" + name, source := NO_TYPE.(tsuruJob := Some(TsuruJobRule(name))),
                        metadata := map["owner" := "aclfromhell", "base-ruleid" := b.rule.ruleID,
                                        "instance-name" := i.name, "job-name" := name])
  {
    if |i.baseRules| > 0 && |i.bindApps| + |i.bindJobs| > 0 {
      ExpandAt(i, 0, 0);
    }
    forall r ensures r in Expand(i) <==>
              || (exists b, name :: b in i.baseRules && name in i.bindApps && r == ExpandOne(i.name, b, App(name)))
              || (exists b, name :: b in i.baseRules && name in i.bindJobs && r == ExpandOne(i.name, b, Job(name)))
    {
      ExpandInFull(i, r);
    }
    forall b: ServiceRule, name: string
      ensures ExpandOne(i.name, b, App(name)) ==
                b.rule.(ruleID := b.rule.ruleID + "-" + name, source := NO_TYPE.(tsuruApp := Some(TsuruAppRule(name, ""))),
                        metadata := map["owner" := "aclfromhell", "base-ruleid" := b.rule.ruleID,
                                        "instance-name" := i.name, "app-name" := name])
      ensures ExpandOne(i.name, b, Job(name)) ==
                b.rule.(ruleID := "job-" + b.rule.ruleID + "-" + name, source := NO_TYPE.(tsuruJob := Some(TsuruJobRule(name))),
                        metadata := map["owner" := "aclfromhell", "base-ruleid" := b.rule.ruleID,
                                        "instance-name" := i.name, "job-name" := name])
    {
      OneInFull(i.name, b, name);
    }
  }

  // ---------------------------------------------------------------- the view

  /** A rule without what each save sets anew: its creation time, and its name,
      which an upsert does not keep. */
  function Content(r: Rule): Rule {
    r.(created := 0, ruleName := "")
  }

  /** What the rule store should hold for an instance: its base rules that are
      not removed, times its applications and jobs. */
  ghost function Product(i: Instance): set<Rule> {
    set b, t | b in i.baseRules && t in Targets(i) && !b.rule.removed :: Content(ExpandOne(i.name, b, t))
  }

  ghost function ProductOf(s: State, n: string): set<Rule> {
    if n in s.instances then Product(s.instances[n]) else {}
  }

  /** What it does hold. */
  ghost function Live(s: State, n: string): set<Rule> {
    set id | id in s.rules && !s.rules[id].removed && Owned(s.rules[id], n) :: Content(s.rules[id])
  }

  // ---------------------------------------------------------------- writes

  /** The writes of the code, each on a single document. */
  datatype Write =
    | InsertInstance(instance: Instance)
    | DropInstance(n: string)
    | PushRule(n: string, base: ServiceRule)
    | PullRule(n: string, id: string)
    | Bind(n: string, t: Target)
    | Unbind(n: string, t: Target)
    | Upsert(rule: Rule, now: Time)
    | MarkRemoved(id: string)
    | InsertRule(rule: Rule)

  function Include<T(==)>(s: seq<T>, x: T): seq<T> {
    if x in s then s else s + [x]
  }

  function Without<T>(s: seq<T>, drop: T -> bool): seq<T> {
    if s == [] then [] else Without(s[..|s| - 1], drop) + (if drop(s[|s| - 1]) then [] else [s[|s| - 1]])
  }

  lemma {:induction false} WithoutMembers<T>(s: seq<T>, drop: T -> bool, x: T)
    ensures x in Without(s, drop) <==> x in s && !drop(x)
  {
    if s != [] {
      WithoutMembers(s[..|s| - 1], drop, x);
      assert s == s[..|s| - 1] + [s[|s| - 1]];
    }
  }

  /** What is left keeps its order. */
  lemma {:induction false} WithoutInOrder<T>(s: seq<T>, drop: T -> bool) returns (at: seq<nat>)
    ensures KeptInOrder(s, x => !drop(x), Without(s, drop), at)
  {
    if s == [] {
      at := [];
    } else {
      var n := |s| - 1;
      at := WithoutInOrder(s[..n], drop);
      KeptPush(s[..n], x => !drop(x), Without(s[..n], drop), at, s[n]);
      assert s == s[..n] + [s[n]];
      if drop(s[n]) {
        assert Without(s, drop) == Without(s[..n], drop);
      } else {
        at := at + [n];
      }
    }
  }

  function Bound(i: Instance, t: Target): Instance {
    match t
    case App(name) => i.(bindApps := Include(i.bindApps, name))
    case Job(name) => i.(bindJobs := Include(i.bindJobs, name))
  }

  function Unbound(i: Instance, t: Target): Instance {
    match t
    case App(name) => i.(bindApps := Without(i.bindApps, x => x == name))
    case Job(name) => i.(bindJobs := Without(i.bindJobs, x => x == name))
  }

  /** The document that replaces a rule: the upsert writes no name. */
  function Upserted(r: Rule, now: Time): Rule {
    r.(created := Stored(now), ruleName := "")
  }

  /** An update that matches no document changes nothing and is no error. */
  function DoWrite(s: State, w: Write): State {
    match w
    case InsertInstance(i) => if i.name in s.instances then s else s.(instances := s.instances[i.name := i])
    case DropInstance(n) => s.(instances := s.instances - {n})
    case PushRule(n, b) =>
      var s1 := s.(issued := s.issued[b.rule.ruleID := n]);
      if n in s.instances then
        s1.(instances := s.instances[n := s.instances[n].(baseRules := s.instances[n].baseRules + [b])])
      else s1
    case PullRule(n, id) =>
      if n in s.instances then
        s.(instances := s.instances[n := s.instances[n].(baseRules := Without(s.instances[n].baseRules, (b: ServiceRule) => b.rule.ruleID == id))])
      else s
    case Bind(n, t) => if n in s.instances then s.(instances := s.instances[n := Bound(s.instances[n], t)]) else s
    case Unbind(n, t) => if n in s.instances then s.(instances := s.instances[n := Unbound(s.instances[n], t)]) else s
    case Upsert(r, now) => s.(rules := s.rules[r.ruleID := Upserted(r, now)])
    case MarkRemoved(id) => if id in s.rules then s.(rules := s.rules[id := s.rules[id].(removed := true)]) else s
    case InsertRule(r) =>
      var s1 := s.(issued := s.issued[r.ruleID := ""]);
      if r.ruleID in s.rules then s1 else s1.(rules := s.rules[r.ruleID := r])
  }

  function DoAll(s: State, ws: seq<Write>): State {
    if ws == [] then s else DoWrite(DoAll(s, ws[..|ws| - 1]), ws[|ws| - 1])
  }

  lemma {:induction false} DoAllSplit(s: State, ws: seq<Write>, vs: seq<Write>)
    ensures DoAll(s, ws + vs) == DoAll(DoAll(s, ws), vs)
  {
    if vs == [] {
      assert ws + vs == ws;
    } else {
      assert (ws + vs)[..|ws + vs| - 1] == ws + vs[..|vs| - 1];
      DoAllSplit(s, ws, vs[..|vs| - 1]);
    }
  }

  lemma TargetsOfBound(i: Instance, t: Target, x: Target)
    ensures x in Targets(Bound(i, t)) <==> x in Targets(i) || x == t
  {
    BoundNames(i, x);
    BoundNames(Bound(i, t), x);
  }

  lemma TargetsOfUnbound(i: Instance, t: Target, x: Target)
    ensures x in Targets(Unbound(i, t)) <==> x in Targets(i) && x != t
  {
    BoundNames(i, x);
    BoundNames(Unbound(i, t), x);
    match t {
      case App(name) => WithoutMembers(i.bindApps, y => y == name, x.name);
      case Job(name) => WithoutMembers(i.bindJobs, y => y == name, x.name);
    }
  }

  lemma BoundNames(i: Instance, x: Target)
    ensures x in Targets(i) <==> (x.App? && x.name in i.bindApps) || (x.Job? && x.name in i.bindJobs)
  {
    if x.App? && x.name in i.bindApps {
      var k :| 0 <= k < |i.bindApps| && i.bindApps[k] == x.name;
      assert Targets(i)[k] == x;
    }
    if x.Job? && x.name in i.bindJobs {
      var k :| 0 <= k < |i.bindJobs| && i.bindJobs[k] == x.name;
      assert Targets(i)[|i.bindApps| + k] == x;
    }
  }
}
