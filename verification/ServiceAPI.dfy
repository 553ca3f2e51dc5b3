/** The service as it runs, on stores that may fail at any access. */
module ServiceAPI {
  import opened Basics
  import opened Clock
  import opened RuleTypes
  import opened RuleFilter
  import opened ServiceIDs
  import opened ServiceModel
  import opened ServiceSound
  import opened ServiceCalls
  import opened ServiceRuns

  /** The state and the log after the first writes of ws. */
  ghost predicate Cut(before: State, log: seq<Write>, ws: seq<Write>, k: nat, after: State, log': seq<Write>) {
    k <= |ws| && after == DoAll(before, ws[..k]) && log' == log + ws[..k]
  }

  lemma CutNone(before: State, log: seq<Write>, ws: seq<Write>)
    ensures Cut(before, log, ws, 0, before, log)
  {
    assert ws[..0] == [];
  }

  lemma CutNext(before: State, log: seq<Write>, ws: seq<Write>, k: nat, after: State, log': seq<Write>)
    requires Cut(before, log, ws, k, after, log') && k < |ws|
    ensures Cut(before, log, ws, k + 1, DoWrite(after, ws[k]), log' + [ws[k]])
  {
    assert ws[..k + 1][..k] == ws[..k] && ws[..k + 1] == ws[..k] + [ws[k]];
  }

  lemma UnboundInOrder(i: Instance, t: Target) returns (at: seq<nat>)
    ensures t.App? ==> KeptInOrder(i.bindApps, x => x != t.name, Unbound(i, t).bindApps, at)
    ensures t.Job? ==> KeptInOrder(i.bindJobs, x => x != t.name, Unbound(i, t).bindJobs, at)
  {
    at := WithoutInOrder(if t.App? then i.bindApps else i.bindJobs, x => x == t.name);
  }

  lemma PulledInOrder(i: Instance, id: string) returns (at: seq<nat>)
    ensures KeptInOrder(i.baseRules, (b: ServiceRule) => b.rule.ruleID != id,
                        Without(i.baseRules, (b: ServiceRule) => b.rule.ruleID == id), at)
    ensures forall b :: b in Without(i.baseRules, (c: ServiceRule) => c.rule.ruleID == id) <==> b in i.baseRules && b.rule.ruleID != id
  {
    forall b ensures b in Without(i.baseRules, (c: ServiceRule) => c.rule.ruleID == id) <==> b in i.baseRules && b.rule.ruleID != id {
      WithoutMembers(i.baseRules, (c: ServiceRule) => c.rule.ruleID == id, b);
    }
    at := WithoutInOrder(i.baseRules, (b: ServiceRule) => b.rule.ruleID == id);
  }

  lemma SavedInFull(before: State, log: seq<Write>, rs: seq<Rule>, now: Time, k: nat, after: State, log': seq<Write>)
    requires Cut(before, log, Upserts(rs, now), k, after, log') && k <= |rs|
    ensures after.instances == before.instances
    ensures forall j :: 0 <= j < k && (forall l :: j < l < k ==> rs[l].ruleID != rs[j].ruleID) ==>
              && rs[j].ruleID in after.rules
              && after.rules[rs[j].ruleID] == rs[j].(created := now - now % 1_000_000, ruleName := "")
    ensures forall id :: (forall j :: 0 <= j < k ==> rs[j].ruleID != id) ==>
              (id in after.rules <==> id in before.rules) && (id in after.rules ==> after.rules[id] == before.rules[id])
  {
    UpsertsKeepInstances(before, rs, now, k);
    forall j | 0 <= j < k && (forall l :: j < l < k ==> rs[l].ruleID != rs[j].ruleID)
      ensures rs[j].ruleID in after.rules
      ensures after.rules[rs[j].ruleID] == rs[j].(created := now - now % 1_000_000, ruleName := "")
    {
      LastUpsertIsThere(before, rs, now, k, j);
    }
    forall id | forall j :: 0 <= j < k ==> rs[j].ruleID != id
      ensures (id in after.rules <==> id in before.rules) && (id in after.rules ==> after.rules[id] == before.rules[id])
    {
      UpsertsLeaveOthers(before, rs, now, k, id);
    }
  }

  lemma MarkedInFull(before: State, log: seq<Write>, filter: map<string, string>, marks: seq<Write>, k: nat, after: State, log': seq<Write>)
    requires Marks(before, filter, marks) && Cut(before, log, marks, k, after, log')
    ensures after.instances == before.instances && after.rules.Keys == before.rules.Keys
    ensures k == |marks| ==> forall id :: id in after.rules ==>
              after.rules[id] == if Includes(before.rules[id].metadata, filter) then before.rules[id].(removed := true) else before.rules[id]
    ensures forall id :: id in after.rules ==>
              || after.rules[id] == before.rules[id]
              || (Includes(before.rules[id].metadata, filter) && after.rules[id] == before.rules[id].(removed := true))
  {
    MarksEffect(before, marks[..k]);
    assert k == |marks| ==> marks[..k] == marks;
    forall id | MarkRemoved(id) in marks[..k] ensures MarkRemoved(id) in marks {
    }
  }

  class Stores {
    var instances: map<string, Instance>
    var rules: map<string, Rule>
    /** How many accesses still succeed; the next one after that fails. */
    var budget: nat
    ghost var issued: map<string, string>
    /** Every write so far, in order. */
    ghost var log: seq<Write>

    constructor (budget: nat)
      ensures View() == INIT && log == [] && this.budget == budget
    {
      instances, rules, issued, log := map[], map[], map[], [];
      this.budget := budget;
    }

    ghost function View(): State
      reads this
    {
      State(instances, rules, issued)
    }

    /** One access to a store: it either takes place or fails. */
    method Access() returns (up: bool)
      modifies this`budget
      ensures up <==> old(budget) > 0
      ensures budget == if up then old(budget) - 1 else 0
    {
      up := budget > 0;
      if up {
        budget := budget - 1;
      }
    }

    method CreateInstance(i: Instance) returns (err: Option<Error>)
      modifies this
      ensures err == Some(ErrUnavailable) ==> View() == old(View()) && log == old(log)
      ensures err != Some(ErrUnavailable) ==> View() == DoWrite(old(View()), InsertInstance(i)) && log == old(log) + [InsertInstance(i)]
      ensures err != Some(ErrUnavailable) ==> err == if i.name in old(instances) then Some(ErrInstanceAlreadyExists) else None
      ensures err == Some(ErrUnavailable) <==> old(budget) == 0
      ensures err == Some(ErrUnavailable) ==> budget == 0
      ensures instances == (if err == None then old(instances)[i.name := i] else old(instances)) && rules == old(rules)
    {
      var up := Access();
      if !up {
        return Some(ErrUnavailable);
      }
      log := log + [InsertInstance(i)];
      if i.name in instances {
        return Some(ErrInstanceAlreadyExists);
      }
      instances := instances[i.name := i];
      return None;
    }

    method Find(n: string) returns (r: Result<Instance, Error>)
      modifies this`budget
      ensures r.Ok? ==> n in instances && r.value == instances[n]
      ensures r.Err? ==> r.error == ErrUnavailable || (r.error == ErrInstanceNotFound && n !in instances)
      ensures r == Err(ErrUnavailable) <==> old(budget) == 0
      ensures r == Err(ErrUnavailable) ==> budget == 0
    {
      var up := Access();
      if !up {
        return Err(ErrUnavailable);
      }
      if n !in instances {
        return Err(ErrInstanceNotFound);
      }
      return Ok(instances[n]);
    }

    method DeleteInstance(n: string) returns (err: Option<Error>)
      modifies this
      ensures err == Some(ErrUnavailable) ==> View() == old(View()) && log == old(log)
      ensures err != Some(ErrUnavailable) ==> View() == DoWrite(old(View()), DropInstance(n)) && log == old(log) + [DropInstance(n)]
      ensures err != Some(ErrUnavailable) ==> err == if n in old(instances) then None else Some(ErrInstanceNotFound)
      ensures err == Some(ErrUnavailable) <==> old(budget) == 0
      ensures err == Some(ErrUnavailable) ==> budget == 0
      ensures err == None ==> instances == old(instances) - {n} && rules == old(rules)
    {
      var up := Access();
      if !up {
        return Some(ErrUnavailable);
      }
      log := log + [DropInstance(n)];
      err := if n in instances then None else Some(ErrInstanceNotFound);
      instances := instances - {n};
    }

    method AddBase(n: string, base: ServiceRule, newID: string, created: Time) returns (up: bool)
      modifies this
      ensures !up ==> View() == old(View()) && log == old(log)
      ensures up ==> View() == DoWrite(old(View()), PushRule(n, NewBase(base, newID, created)))
      ensures up ==> log == old(log) + [PushRule(n, NewBase(base, newID, created))]
      ensures up <==> old(budget) > 0
      ensures !up ==> budget == 0
      ensures rules == old(rules) && (!up || n !in old(instances) ==> instances == old(instances))
      ensures up && n in old(instances) ==>
                instances == old(instances)[n := old(instances)[n].(
                               baseRules := old(instances)[n].baseRules + [NewBase(base, newID, created)])]
    {
      up := Access();
      if up {
        var b := NewBase(base, newID, created);
        log, issued := log + [PushRule(n, b)], issued[b.rule.ruleID := n];
        if n in instances {
          instances := instances[n := instances[n].(baseRules := instances[n].baseRules + [b])];
        }
      }
    }

    /** An update that matches no instance is no error. */
    method AddTarget(n: string, t: Target) returns (up: bool)
      modifies this
      ensures !up ==> View() == old(View()) && log == old(log)
      ensures up ==> View() == DoWrite(old(View()), Bind(n, t)) && log == old(log) + [Bind(n, t)]
      ensures up <==> old(budget) > 0
      ensures !up ==> budget == 0
      ensures rules == old(rules) && (!up || n !in old(instances) ==> instances == old(instances))
      ensures up && n in old(instances) && t.App? ==>
                instances == old(instances)[n := old(instances)[n].(
                               bindApps := if t.name in old(instances)[n].bindApps then old(instances)[n].bindApps
                                           else old(instances)[n].bindApps + [t.name])]
      ensures up && n in old(instances) && t.Job? ==>
                instances == old(instances)[n := old(instances)[n].(
                               bindJobs := if t.name in old(instances)[n].bindJobs then old(instances)[n].bindJobs
                                           else old(instances)[n].bindJobs + [t.name])]
    {
      up := Access();
      if up {
        log := log + [Bind(n, t)];
        if n in instances {
          instances := instances[n := Bound(instances[n], t)];
        }
      }
    }

    method RemoveTarget(n: string, t: Target) returns (up: bool, ghost at: seq<nat>)
      modifies this
      ensures !up ==> View() == old(View()) && log == old(log)
      ensures up ==> View() == DoWrite(old(View()), Unbind(n, t)) && log == old(log) + [Unbind(n, t)]
      ensures up <==> old(budget) > 0
      ensures !up ==> budget == 0
      ensures rules == old(rules) && (!up || n !in old(instances) ==> instances == old(instances))
      ensures up && n in old(instances) ==>
                && n in instances && instances == old(instances)[n := instances[n]]
                && (t.App? ==> instances[n] == old(instances)[n].(bindApps := instances[n].bindApps))
                && (t.Job? ==> instances[n] == old(instances)[n].(bindJobs := instances[n].bindJobs))
      ensures up && n in old(instances) && t.App? ==>
                KeptInOrder(old(instances)[n].bindApps, x => x != t.name, instances[n].bindApps, at)
      ensures up && n in old(instances) && t.Job? ==>
                KeptInOrder(old(instances)[n].bindJobs, x => x != t.name, instances[n].bindJobs, at)
    {
      at := [];
      up := Access();
      if up {
        log := log + [Unbind(n, t)];
        if n in instances {
          at := UnboundInOrder(instances[n], t);
          instances := instances[n := Unbound(instances[n], t)];
        }
      }
    }

    method RemoveBase(n: string, id: string) returns (up: bool, ghost at: seq<nat>)
      modifies this
      ensures !up ==> View() == old(View()) && log == old(log)
      ensures up ==> View() == DoWrite(old(View()), PullRule(n, id)) && log == old(log) + [PullRule(n, id)]
      ensures up <==> old(budget) > 0
      ensures !up ==> budget == 0
      ensures rules == old(rules) && (!up || n !in old(instances) ==> instances == old(instances))
      ensures up && n in old(instances) ==>
                && n in instances && instances == old(instances)[n := old(instances)[n].(baseRules := instances[n].baseRules)]
                && KeptInOrder(old(instances)[n].baseRules, (b: ServiceRule) => b.rule.ruleID != id, instances[n].baseRules, at)
                && forall b :: b in instances[n].baseRules <==> b in old(instances)[n].baseRules && b.rule.ruleID != id
    {
      at := [];
      up := Access();
      if up {
        log := log + [PullRule(n, id)];
        if n in instances {
          at := PulledInOrder(instances[n], id);
          instances := instances[n := instances[n].(baseRules := Without(instances[n].baseRules, (b: ServiceRule) => b.rule.ruleID == id))];
        }
      }
    }

    /** Replaces or inserts the rules one by one; k of them are saved. */
    method SaveAll(rs: seq<Rule>, now: Time) returns (up: bool, ghost k: nat)
      modifies this
      ensures Cut(old(View()), old(log), Upserts(rs, now), k, View(), log)
      ensures up <==> k == |rs|
      ensures !up ==> budget == 0
      // The same in full, for the rules that are saved.
      ensures instances == old(instances)
      ensures forall j :: 0 <= j < k && (forall l :: j < l < k ==> rs[l].ruleID != rs[j].ruleID) ==>
                && rs[j].ruleID in rules
                && rules[rs[j].ruleID] == rs[j].(created := now - now % 1_000_000, ruleName := "")
      ensures forall id :: (forall j :: 0 <= j < k ==> rs[j].ruleID != id) ==>
                (id in rules <==> id in old(rules)) && (id in rules ==> rules[id] == old(rules)[id])
    {
      ghost var us := Upserts(rs, now);
      CutNone(View(), log, us);
      var i := 0;
      while i < |rs|
        invariant 0 <= i <= |rs|
        invariant Cut(old(View()), old(log), us, i, View(), log)
      {
        var ok := Access();
        if !ok {
          SavedInFull(old(View()), old(log), rs, now, i, View(), log);
          return false, i;
        }
        CutNext(old(View()), old(log), us, i, View(), log);
        rules := rules[rs[i].ruleID := Upserted(rs[i], now)];
        log := log + [Upsert(rs[i], now)];
        i := i + 1;
      }
      SavedInFull(old(View()), old(log), rs, now, i, View(), log);
      return true, i;
    }

    /** The ids that a filter selects, in some order. */
    method Select(filter: map<string, string>) returns (ids: seq<string>)
      ensures forall id :: id in ids <==> id in rules && Includes(rules[id].metadata, filter)
    {
      ids := [];
      var rest := rules.Keys;
      while rest != {}
        invariant rest <= rules.Keys
        invariant forall id :: id in ids <==> id in rules && id !in rest && Includes(rules[id].metadata, filter)
        decreases rest
      {
        var id :| id in rest;
        if Includes(rules[id].metadata, filter) {
          ids := ids + [id];
        }
        rest := rest - {id};
      }
    }

    /** Marks every rule the filter selects, one document after the other. The
        writes it was going to make are the marks of a removal; k of them are made. */
    method MarkAll(filter: map<string, string>) returns (up: bool, ghost marks: seq<Write>, ghost k: nat)
      modifies this
      ensures Marks(old(View()), filter, marks)
      ensures Cut(old(View()), old(log), marks, k, View(), log)
      ensures up ==> k == |marks|
      ensures !up ==> budget == 0
      // The same in full, for the rules that are marked.
      ensures instances == old(instances) && rules.Keys == old(rules).Keys
      ensures up ==> forall id :: id in rules ==>
                rules[id] == if Includes(old(rules)[id].metadata, filter) then old(rules)[id].(removed := true) else old(rules)[id]
      ensures !up ==> forall id :: id in rules ==>
                rules[id] == old(rules)[id] || (Includes(old(rules)[id].metadata, filter) && rules[id] == old(rules)[id].(removed := true))
    {
      var ids := Select(filter);
      marks, k := MarksOf(ids), 0;
      MarksOfMembers(ids);
      CutNone(View(), log, marks);
      up := Access();
      if !up {
        MarkedInFull(old(View()), old(log), filter, marks, 0, View(), log);
        return;
      }
      var i := 0;
      while i < |ids|
        invariant 0 <= i == k <= |ids|
        invariant forall id :: id in ids ==> id in rules
        invariant up && Cut(old(View()), old(log), marks, k, View(), log)
      {
        up := Access();
        if !up {
          MarkedInFull(old(View()), old(log), filter, marks, k, View(), log);
          return;
        }
        CutNext(old(View()), old(log), marks, k, View(), log);
        assert ids[i] in ids;
        rules := rules[ids[i] := rules[ids[i]].(removed := true)];
        log := log + [MarkRemoved(ids[i])];
        i, k := i + 1, k + 1;
      }
      MarkedInFull(old(View()), old(log), filter, marks, k, View(), log);
    }
  }

  ghost function MarksOf(ids: seq<string>): seq<Write> {
    seq(|ids|, i requires 0 <= i < |ids| => MarkRemoved(ids[i]))
  }

  lemma MarksOfMembers(ids: seq<string>)
    ensures forall id :: MarkRemoved(id) in MarksOf(ids) <==> id in ids
  {
    forall id ensures MarkRemoved(id) in MarksOf(ids) <==> id in ids {
      if id in ids {
        var i :| 0 <= i < |ids| && ids[i] == id;
        assert MarksOf(ids)[i] == MarkRemoved(id);
      }
    }
  }

  /** What a call may have done: the writes of a plan, all of them unless the
      store failed, and then the plan's answer. */
  ghost predicate Ran(checks: Checks, before: State, c: Call, done: seq<Write>, after: State, answer: Answer) {
    exists ws: seq<Write>, full: Answer ::
      && Plan(checks, before, c, ws, full)
      && done <= ws && after == DoAll(before, done)
      && (answer != Err(ErrUnavailable) ==> done == ws && answer == full)
  }

  /** So a call is a serial step, wherever it stopped, and an add that answers
      with rules has made the view exact. */
  lemma RanIsSound(checks: Checks, before: State, c: Call, done: seq<Write>, after: State, answer: Answer)
    requires Inv(before) && Legal(before, c) && Ran(checks, before, c, done, after, answer)
    ensures Next(checks, before, c, after) && Inv(after)
    ensures Adds(c) && answer.Ok? ==> Live(after, c.n) == ProductOf(after, c.n)
  {
    var ws: seq<Write>, full: Answer :| Plan(checks, before, c, ws, full) && done <= ws && after == DoAll(before, done)
      && (answer != Err(ErrUnavailable) ==> done == ws && answer == full);
    assert ws[..|done|] == done;
    assert Stopped(checks, before, c, ws, full, |done|, after);
    StoppedKeepsInv(checks, before, c, ws, full, |done|, after);
    if Adds(c) && answer.Ok? {
      CompleteAddIsExact(checks, before, c, ws, full);
    }
  }

  lemma PlanOfAdd(checks: Checks, before: State, n: string, t: Target, now: Time)
    ensures var s1 := DoWrite(before, Bind(n, t));
            Plan(checks, before, Call.Add(n, t, now), [Bind(n, t)] + SyncWritesOf(checks, s1, n, now), SyncAnswerOf(checks, s1, n, now))
  {
    assert [Bind(n, t)] + [] == [Bind(n, t)];
  }

  lemma PlanOfAddRule(checks: Checks, before: State, n: string, base: ServiceRule, newID: string, created: Time, now: Time)
    returns (ws: seq<Write>, full: Answer)
    ensures Plan(checks, before, Call.AddRule(n, base, newID, created, now), ws, full)
    ensures ValidType(checks, base.rule.destination) && n in before.instances && !AlreadyThere(before.instances[n], base) ==>
              var push := PushRule(n, NewBase(base, newID, created));
              var s1 := DoWrite(before, push);
              ws == [push] + SyncWritesOf(checks, s1, n, now) && full == SyncAnswerOf(checks, s1, n, now)
  {
    if !ValidType(checks, base.rule.destination) {
      ws, full := [], Err(ErrInvalid);
    } else if n !in before.instances {
      ws, full := [], Err(ErrInstanceNotFound);
    } else if AlreadyThere(before.instances[n], base) {
      ws, full := [], Err(ErrRuleAlreadyExists);
    } else {
      var push := PushRule(n, NewBase(base, newID, created));
      var i := DoWrite(before, push).instances[n];
      ws, full := [push] + SyncWrites(checks, i, now), SyncAnswer(checks, i, now);
    }
  }

  /** A call that stopped before its first write. */
  lemma NothingRan(checks: Checks, before: State, c: Call, ws: seq<Write>, full: Answer)
    requires Plan(checks, before, c, ws, full)
    ensures Ran(checks, before, c, [], before, Err(ErrUnavailable))
  {
    assert DoAll(before, []) == before;
  }

  /** A call that refuses has no writes. */
  lemma RefusedRan(checks: Checks, before: State, c: Call, error: Error)
    requires Plan(checks, before, c, [], Err(error))
    ensures Ran(checks, before, c, [], before, Err(error))
  {
    assert DoAll(before, []) == before;
  }

  /** The save at the end of an add, on a store that may not have the instance. */
  function SyncWritesOf(checks: Checks, s: State, n: string, now: Time): seq<Write> {
    if n in s.instances then SyncWrites(checks, s.instances[n], now) else []
  }

  function SyncAnswerOf(checks: Checks, s: State, n: string, now: Time): Answer {
    if n in s.instances then SyncAnswer(checks, s.instances[n], now) else Err(ErrInstanceNotFound)
  }

  /** A call that made the first k writes of its plan, or came to its end. */
  lemma RanUpTo(checks: Checks, before: State, c: Call, ws: seq<Write>, full: Answer, k: nat, answer: Answer)
    requires Plan(checks, before, c, ws, full) && k <= |ws|
    requires answer != Err(ErrUnavailable) ==> k == |ws| && answer == full
    ensures Ran(checks, before, c, ws[..k], DoAll(before, ws[..k]), answer)
  {
    assert ws[..|ws|] == ws;
  }

  lemma GrowCut(before: State, log: seq<Write>, w: Write, us: seq<Write>, k: nat, after: State, log': seq<Write>)
    requires Cut(DoWrite(before, w), log + [w], us, k, after, log')
    ensures log <= log' && k + 1 <= |[w] + us| && log'[|log|..] == ([w] + us)[..k + 1]
    ensures after == DoAll(before, ([w] + us)[..k + 1])
  {
    assert ([w] + us)[..k + 1] == [w] + us[..k] == log'[|log|..];
    DoAllSplit(before, [w], us[..k]);
    assert [w][..0] == [] && DoAll(before, [w]) == DoWrite(before, w);
  }

  /** A call that enlarged the instance and went on to save. */
  lemma GrowRan(checks: Checks, before: State, log: seq<Write>, c: Call, w: Write, us: seq<Write>, full: Answer,
                k: nat, after: State, log': seq<Write>, answer: Answer)
    requires Plan(checks, before, c, [w] + us, full)
    requires Cut(DoWrite(before, w), log + [w], us, k, after, log')
    requires answer != Err(ErrUnavailable) ==> k == |us| && answer == full
    ensures log <= log' && Ran(checks, before, c, log'[|log|..], after, answer)
  {
    GrowCut(before, log, w, us, k, after, log');
    RanUpTo(checks, before, c, [w] + us, full, k + 1, answer);
  }

  lemma RemovalIsPlan(before: State, marks: seq<Write>, filter: map<string, string>, last: Write)
    requires Marks(before, filter, marks)
    ensures RemovalPlan(before, filter, last, marks + [last])
  {
    assert (marks + [last])[..|marks|] == marks;
  }

  lemma RemovalCut(checks: Checks, before: State, log: seq<Write>, c: Call, marks: seq<Write>, last: Write, full: Answer,
                   k: nat, after: State, log': seq<Write>)
    requires Plan(checks, before, c, marks + [last], full) && Cut(before, log, marks, k, after, log')
    ensures log <= log' && Ran(checks, before, c, log'[|log|..], after, Err(ErrUnavailable))
  {
    assert log'[|log|..] == marks[..k] <= marks + [last];
  }

  lemma RemovalRan(checks: Checks, before: State, log: seq<Write>, c: Call, marks: seq<Write>, last: Write, full: Answer,
                   after: State, log': seq<Write>)
    requires Plan(checks, before, c, marks + [last], full) && Cut(before, log, marks, |marks|, after, log')
    ensures after == DoAll(before, marks)
    ensures log <= log' + [last] && Ran(checks, before, c, (log' + [last])[|log|..], DoWrite(after, last), full)
  {
    RanUpTo(checks, before, c, marks + [last], full, |marks| + 1, full);
    assert (marks + [last])[..|marks| + 1] == marks + [last];
    assert marks[..|marks|] == marks;
    assert (marks + [last])[..|marks|] == marks;
    assert (log' + [last])[|log|..] == marks + [last];
  }

  class Service {
    const checks: Checks
    const stor: Stores

    constructor (checks: Checks, stor: Stores)
      ensures this.checks == checks && this.stor == stor
    {
      this.checks := checks;
      this.stor := stor;
    }

    /** Every base rule for every target, applications before jobs. */
    method ExpandRules(i: Instance) returns (all: seq<Rule>)
      ensures all == Expand(i)
      // The same in full.
      ensures |i.baseRules| > 0 && |i.bindApps| + |i.bindJobs| > 0 ==> |all| == |i.baseRules| * (|i.bindApps| + |i.bindJobs|)
      ensures forall r :: r in all <==>
                || (exists b, name :: b in i.baseRules && name in i.bindApps && r == ExpandOne(i.name, b, App(name)))
                || (exists b, name :: b in i.baseRules && name in i.bindJobs && r == ExpandOne(i.name, b, Job(name)))
      ensures forall b, name ::
                ExpandOne(i.name, b, App(name)) ==
                  b.rule.(ruleID := b.rule.ruleID + "-" + name, source := NO_TYPE.(tsuruApp := Some(TsuruAppRule(name, ""))),
                          metadata := map["owner" := "aclfromhell", "base-ruleid" := b.rule.ruleID,
                                          "instance-name" := i.name, "app-name" := name])
      ensures forall b, name ::
                ExpandOne(i.name, b, Job(name)) ==
                  b.rule.(ruleID := "job-" + b.rule.ruleID + "-" + name, source := NO_TYPE.(tsuruJob := Some(TsuruJobRule(name))),
                          metadata := map["owner" := "aclfromhell", "base-ruleid" := b.rule.ruleID,
                                          "instance-name" := i.name, "job-name" := name])
    {
      all := [];
      var k := 0;
      while k < |i.baseRules|
        invariant 0 <= k <= |i.baseRules| && all == ExpandUpTo(i, k)
      {
        var b := i.baseRules[k];
        var per: seq<Rule> := [];
        var j := 0;
        while j < |i.bindApps|
          invariant 0 <= j <= |i.bindApps| && per == ExpandBase(i, b)[..j]
        {
          assert Targets(i)[j] == App(i.bindApps[j]);
          per := per + [ExpandOne(i.name, b, App(i.bindApps[j]))];
          j := j + 1;
        }
        j := 0;
        while j < |i.bindJobs|
          invariant 0 <= j <= |i.bindJobs| && per == ExpandBase(i, b)[..|i.bindApps| + j]
        {
          assert Targets(i)[|i.bindApps| + j] == Job(i.bindJobs[j]);
          per := per + [ExpandOne(i.name, b, Job(i.bindJobs[j]))];
          j := j + 1;
        }
        assert per == ExpandBase(i, b);
        all := all + per;
        k := k + 1;
      }
      ExpansionInFull(i);
    }

    method ValidateAll(rs: seq<Rule>) returns (ok: bool)
      ensures ok <==> ValidRules(checks, rs)
    {
      var i := 0;
      while i < |rs|
        invariant 0 <= i <= |rs| && ValidRules(checks, rs[..i])
      {
        var source := Validate(checks, rs[i].source);
        var destination := Validate(checks, rs[i].destination);
        if source.Some? || destination.Some? {
          return false;
        }
        i := i + 1;
      }
      return true;
    }

    /** Reads the instance back and saves its whole expansion; k rules of it are saved. */
    method SyncRules(n: string, now: Time) returns (answer: Answer, ghost k: nat)
      modifies stor
      ensures var us := SyncWritesOf(checks, old(stor.View()), n, now);
              && Cut(old(stor.View()), old(stor.log), us, k, stor.View(), stor.log)
              && (answer != Err(ErrUnavailable) ==> k == |us| && answer == SyncAnswerOf(checks, old(stor.View()), n, now))
      ensures answer == Err(ErrUnavailable) ==> stor.budget == 0
      ensures stor.instances == old(stor.instances)
    {
      k := 0;
      CutNone(stor.View(), stor.log, SyncWritesOf(checks, stor.View(), n, now));
      var r := stor.Find(n);
      if r.Err? {
        return Err(r.error), 0;
      }
      var rs := ExpandRules(r.value);
      if |rs| == 0 {
        assert Upserts(rs, now) == [] && SavedAt(rs, now) == [];
        return Ok([]), 0;
      }
      var ok := ValidateAll(rs);
      if !ok {
        return Err(ErrInvalid), 0;
      }
      var up;
      up, k := stor.SaveAll(rs, now);
      answer := if up then Ok(SavedAt(rs, now)) else Err(ErrUnavailable);
    }

    method Create(n: string, creator: string, eventID: string) returns (answer: Answer)
      modifies stor
      ensures answer == Err(ErrUnavailable) ==> stor.budget == 0
      ensures answer == Ok([]) ==>
                n !in old(stor.instances) && stor.instances == old(stor.instances)[n := Instance(n, creator, eventID, [], [], [])]
      ensures answer != Ok([]) ==> stor.instances == old(stor.instances)
      ensures answer in {Ok([]), Err(ErrUnavailable), Err(ErrInstanceAlreadyExists)}
      ensures answer == Err(ErrInstanceAlreadyExists) ==> n in stor.instances
      ensures old(stor.log) <= stor.log
      ensures Ran(checks, old(stor.View()), Call.Create(n, creator, eventID), stor.log[|old(stor.log)|..], stor.View(), answer)
    {
      ghost var before, log := stor.View(), stor.log;
      var i := Instance(n, creator, eventID, [], [], []);
      ghost var c, w := Call.Create(n, creator, eventID), InsertInstance(i);
      ghost var full: Answer := if n in before.instances then Err(ErrInstanceAlreadyExists) else Ok([]);
      assert [] + [w] == [w];
      assert Plan(checks, before, c, [] + [w], full);
      CutNone(before, log, []);
      RemovalCut(checks, before, log, c, [], w, full, 0, before, log);
      RemovalRan(checks, before, log, c, [], w, full, before, log);
      var err := stor.CreateInstance(i);
      answer := if err.Some? then Err(err.value) else Ok([]);
    }

    method Add(n: string, t: Target, now: Time) returns (answer: Answer)
      modifies stor
      ensures answer == Err(ErrUnavailable) ==> stor.budget == 0
      ensures answer.Ok? ==>
                n in old(stor.instances) && stor.instances == old(stor.instances)[n := Bound(old(stor.instances)[n], t)]
      ensures old(stor.log) <= stor.log
      ensures Ran(checks, old(stor.View()), Call.Add(n, t, now), stor.log[|old(stor.log)|..], stor.View(), answer)
    {
      ghost var before, log, w := stor.View(), stor.log, Bind(n, t);
      ghost var us, full := SyncWritesOf(checks, DoWrite(before, w), n, now), SyncAnswerOf(checks, DoWrite(before, w), n, now);
      PlanOfAdd(checks, before, n, t, now);
      NothingRan(checks, before, Call.Add(n, t, now), [w] + us, full);
      assert log[|log|..] == [];
      var up := stor.AddTarget(n, t);
      if !up {
        return Err(ErrUnavailable);
      }
      ghost var k;
      answer, k := SyncRules(n, now);
      GrowRan(checks, before, log, Call.Add(n, t, now), w, us, full, k, stor.View(), stor.log, answer);
    }

    /** The check for a base rule with the same destination. */
    method FindDuplicate(i: Instance, base: ServiceRule) returns (found: bool)
      ensures found <==> AlreadyThere(i, base)
    {
      var k := 0;
      while k < |i.baseRules|
        invariant 0 <= k <= |i.baseRules|
        invariant forall j :: 0 <= j < k ==>
                    i.baseRules[j].rule.removed || !Equals(Some(i.baseRules[j].rule.destination), Some(base.rule.destination))
      {
        var b := i.baseRules[k];
        if !b.rule.removed && Equals(Some(b.rule.destination), Some(base.rule.destination)) {
          return true;
        }
        k := k + 1;
      }
      return false;
    }

    method AddRule(n: string, base: ServiceRule, newID: string, created: Time, now: Time) returns (answer: Answer)
      modifies stor
      ensures answer == Err(ErrUnavailable) ==> stor.budget == 0
      ensures answer.Ok? ==>
                && n in old(stor.instances)
                && stor.instances == old(stor.instances)[n := old(stor.instances)[n].(
                                       baseRules := old(stor.instances)[n].baseRules + [NewBase(base, newID, created)])]
      ensures old(stor.log) <= stor.log
      ensures Ran(checks, old(stor.View()), Call.AddRule(n, base, newID, created, now), stor.log[|old(stor.log)|..], stor.View(), answer)
    {
      ghost var before, log := stor.View(), stor.log;
      ghost var c := Call.AddRule(n, base, newID, created, now);
      assert log[|log|..] == [];
      ghost var ws, full := PlanOfAddRule(checks, before, n, base, newID, created, now);
      NothingRan(checks, before, c, ws, full);
      var invalid := Validate(checks, base.rule.destination);
      if invalid.Some? {
        RefusedRan(checks, before, c, ErrInvalid);
        return Err(ErrInvalid);
      }
      var r := stor.Find(n);
      if r.Err? {
        if r.error == ErrInstanceNotFound {
          RefusedRan(checks, before, c, ErrInstanceNotFound);
        }
        return Err(r.error);
      }
      var found := FindDuplicate(r.value, base);
      if found {
        RefusedRan(checks, before, c, ErrRuleAlreadyExists);
        return Err(ErrRuleAlreadyExists);
      }
      var up := stor.AddBase(n, base, newID, created);
      if !up {
        return Err(ErrUnavailable);
      }
      ghost var w := PushRule(n, NewBase(base, newID, created));
      ghost var us := SyncWritesOf(checks, DoWrite(before, w), n, now);
      ghost var k;
      answer, k := SyncRules(n, now);
      GrowRan(checks, before, log, c, w, us, full, k, stor.View(), stor.log, answer);
    }

    method Remove(n: string, t: Target) returns (answer: Answer)
      modifies stor
      ensures answer == Err(ErrUnavailable) ==> stor.budget == 0
      ensures answer != Err(ErrUnavailable) ==>
                && stor.rules.Keys == old(stor.rules).Keys
                && forall id :: id in stor.rules ==>
                     stor.rules[id] == if Includes(old(stor.rules)[id].metadata, TargetFilter(n, t)) then old(stor.rules)[id].(removed := true)
                                       else old(stor.rules)[id]
      ensures answer == Ok([]) || answer == Err(ErrUnavailable)
      ensures answer == Ok([]) ==>
                stor.instances == if n in old(stor.instances) then old(stor.instances)[n := Unbound(old(stor.instances)[n], t)]
                                  else old(stor.instances)
      ensures old(stor.log) <= stor.log
      ensures Ran(checks, old(stor.View()), Call.Remove(n, t), stor.log[|old(stor.log)|..], stor.View(), answer)
    {
      ghost var before, log := stor.View(), stor.log;
      ghost var c, last := Call.Remove(n, t), Unbind(n, t);
      var up, marks, k := stor.MarkAll(TargetFilter(n, t));
      RemovalIsPlan(before, marks, TargetFilter(n, t), last);
      RemovalCut(checks, before, log, c, marks, last, Ok([]), k, stor.View(), stor.log);
      if !up {
        return Err(ErrUnavailable);
      }
      RemovalRan(checks, before, log, c, marks, last, Ok([]), stor.View(), stor.log);
      ghost var at;
      up, at := stor.RemoveTarget(n, t);
      answer := if up then Ok([]) else Err(ErrUnavailable);
    }

    method RemoveRule(n: string, id: string) returns (answer: Answer)
      modifies stor
      ensures answer == Err(ErrUnavailable) ==> stor.budget == 0
      ensures answer != Err(ErrUnavailable) ==>
                && stor.rules.Keys == old(stor.rules).Keys
                && forall x :: x in stor.rules ==>
                     stor.rules[x] == if Includes(old(stor.rules)[x].metadata, BaseFilter(n, id)) then old(stor.rules)[x].(removed := true)
                                       else old(stor.rules)[x]
      ensures answer == Ok([]) || answer == Err(ErrUnavailable)
      ensures answer == Ok([]) && n in old(stor.instances) ==>
                && n in stor.instances
                && stor.instances == old(stor.instances)[n := old(stor.instances)[n].(baseRules := stor.instances[n].baseRules)]
                && forall b :: b in stor.instances[n].baseRules <==> b in old(stor.instances)[n].baseRules && b.rule.ruleID != id
      ensures old(stor.log) <= stor.log
      ensures Ran(checks, old(stor.View()), Call.RemoveRule(n, id), stor.log[|old(stor.log)|..], stor.View(), answer)
    {
      ghost var before, log := stor.View(), stor.log;
      ghost var c, last := Call.RemoveRule(n, id), PullRule(n, id);
      var up, marks, k := stor.MarkAll(BaseFilter(n, id));
      RemovalIsPlan(before, marks, BaseFilter(n, id), last);
      RemovalCut(checks, before, log, c, marks, last, Ok([]), k, stor.View(), stor.log);
      if !up {
        return Err(ErrUnavailable);
      }
      RemovalRan(checks, before, log, c, marks, last, Ok([]), stor.View(), stor.log);
      ghost var at;
      up, at := stor.RemoveBase(n, id);
      answer := if up then Ok([]) else Err(ErrUnavailable);
    }

    method Delete(n: string) returns (answer: Answer)
      modifies stor
      ensures answer == Err(ErrUnavailable) ==> stor.budget == 0
      ensures answer != Err(ErrUnavailable) ==>
                && stor.rules.Keys == old(stor.rules).Keys
                && forall id :: id in stor.rules ==>
                     stor.rules[id] == if Includes(old(stor.rules)[id].metadata, InstanceFilter(n)) then old(stor.rules)[id].(removed := true)
                                       else old(stor.rules)[id]
      ensures answer in {Ok([]), Err(ErrUnavailable), Err(ErrInstanceNotFound)}
      ensures answer == Err(ErrInstanceNotFound) ==> n !in old(stor.instances)
      ensures answer == Ok([]) ==> n in old(stor.instances) && stor.instances == old(stor.instances) - {n}
      ensures old(stor.log) <= stor.log
      ensures Ran(checks, old(stor.View()), Call.Delete(n), stor.log[|old(stor.log)|..], stor.View(), answer)
    {
      ghost var before, log := stor.View(), stor.log;
      ghost var c, last := Call.Delete(n), DropInstance(n);
      ghost var full: Answer := if n in before.instances then Ok([]) else Err(ErrInstanceNotFound);
      var up, marks, k := stor.MarkAll(InstanceFilter(n));
      RemovalIsPlan(before, marks, InstanceFilter(n), last);
      RemovalCut(checks, before, log, c, marks, last, full, k, stor.View(), stor.log);
      if !up {
        return Err(ErrUnavailable);
      }
      RemovalRan(checks, before, log, c, marks, last, full, stor.View(), stor.log);
      MarksEffect(before, marks);
      var err := stor.DeleteInstance(n);
      answer := if err.Some? then Err(err.value) else Ok([]);
    }
  }
}
