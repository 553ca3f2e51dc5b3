/** The duplicate check under concurrency: an add of a base rule looks before it
    pushes, and another one may push in between. */
module ServiceDuplicates {
  import opened RuleTypes
  import opened ServiceIDs
  import opened ServiceModel
  import opened ServiceCalls
  import opened ServiceConcurrent
  import opened ServiceDistinct

  /** An add of a base rule arrives having found it valid and not there already. */
  ghost predicate Looked(checks: Checks, w: World, e: Event) {
    e.Arrive? && e.first.PushRule? ==>
      && WellStored(checks, e.first.base)
      && e.n in w.s.instances && !AlreadyThere(w.s.instances[e.n], e.first.base)
  }

  ghost predicate AllLooked(checks: Checks, trace: seq<World>, events: seq<Event>)
    requires |trace| == |events| + 1
  {
    forall k :: 0 <= k < |events| ==> Looked(checks, trace[k], events[k])
  }

  /** A push that meets no base rule in force with its destination. */
  ghost predicate PushesNew(w: World, e: Event) {
    e.WriteFirst? && e.i in w.threads && w.threads[e.i].first.PushRule? && w.threads[e.i].n in w.s.instances ==>
      forall b :: b in w.s.instances[w.threads[e.i].n].baseRules ==> Differ(b, w.threads[e.i].first.base)
  }

  ghost predicate ThreadsStored(checks: Checks, w: World) {
    forall i :: i in w.threads && w.threads[i].first.PushRule? ==> WellStored(checks, w.threads[i].first.base)
  }

  lemma StepKeepsThreadsStored(checks: Checks, w: World, e: Event)
    requires ThreadsStored(checks, w) && Enabled(checks, w, e) && Looked(checks, w, e)
    ensures ThreadsStored(checks, Do(checks, w, e))
  {
  }

  lemma PushDistinctIff(checks: Checks, bases: seq<ServiceRule>, b: ServiceRule)
    requires Distinct(checks, bases) && WellStored(checks, b)
    ensures Distinct(checks, bases + [b]) <==> forall c :: c in bases ==> Differ(c, b)
  {
    assert (bases + [b])[..|bases|] == bases;
  }

  lemma PushOnStateDistinctIff(checks: Checks, s: State, n: string, b: ServiceRule)
    requires AllDistinct(checks, s) && n in s.instances && WellStored(checks, b)
    ensures AllDistinct(checks, DoWrite(s, PushRule(n, b))) <==> forall c :: c in s.instances[n].baseRules ==> Differ(c, b)
  {
    var s' := DoWrite(s, PushRule(n, b));
    PushDistinctIff(checks, s.instances[n].baseRules, b);
    assert s'.instances[n].baseRules == s.instances[n].baseRules + [b];
    assert forall m :: m in s.instances && m != n ==> s'.instances[m] == s.instances[m];
  }

  lemma OtherStepsKeepDistinct(checks: Checks, w: World, e: Event)
    requires AllDistinct(checks, w.s) && Enabled(checks, w, e)
    requires e.WriteFirst? ==> w.threads[e.i].first.Bind?
    ensures AllDistinct(checks, Do(checks, w, e).s)
  {
    var s' := Do(checks, w, e).s;
    forall m | m in s'.instances ensures m in w.s.instances && s'.instances[m].baseRules == w.s.instances[m].baseRules {
    }
  }

  lemma StepKeepsDistinctIff(checks: Checks, w: World, e: Event)
    requires WorldInv(w) && ThreadsStored(checks, w) && AllDistinct(checks, w.s) && Enabled(checks, w, e)
    ensures AllDistinct(checks, Do(checks, w, e).s) <==> PushesNew(w, e)
  {
    if e.WriteFirst? && w.threads[e.i].first.PushRule? {
      assert Pending(w.s, w.threads[e.i]);
      PushOnStateDistinctIff(checks, w.s, w.threads[e.i].n, w.threads[e.i].first.base);
    } else {
      assert e.WriteFirst? ==> Pending(w.s, w.threads[e.i]);
      OtherStepsKeepDistinct(checks, w, e);
    }
  }

  lemma {:induction false} TraceKeepsThreadsStored(checks: Checks, trace: seq<World>, events: seq<Event>, k: nat)
    requires IsTrace(checks, trace, events) && AllLooked(checks, trace, events) && k < |trace|
    ensures ThreadsStored(checks, trace[k])
  {
    if k > 0 {
      TraceKeepsThreadsStored(checks, trace, events, k - 1);
      assert Looked(checks, trace[k - 1], events[k - 1]);
      StepKeepsThreadsStored(checks, trace[k - 1], events[k - 1]);
    }
  }

  lemma TraceStep(checks: Checks, trace: seq<World>, events: seq<Event>, k: nat)
    requires IsTrace(checks, trace, events) && AllLooked(checks, trace, events) && k < |events|
    requires AllDistinct(checks, trace[k].s)
    ensures AllDistinct(checks, trace[k + 1].s) <==> PushesNew(trace[k], events[k])
  {
    ServiceConcurrent.TraceKeepsInv(checks, trace, events, k);
    TraceKeepsThreadsStored(checks, trace, events, k);
    StepKeepsDistinctIff(checks, trace[k], events[k]);
  }

  lemma {:induction false} NewPushesKeepDistinct(checks: Checks, trace: seq<World>, events: seq<Event>, k: nat)
    requires IsTrace(checks, trace, events) && AllLooked(checks, trace, events) && k < |trace|
    requires AllDistinct(checks, trace[0].s)
    requires forall j :: 0 <= j < |events| ==> PushesNew(trace[j], events[j])
    ensures AllDistinct(checks, trace[k].s)
  {
    if k > 0 {
      NewPushesKeepDistinct(checks, trace, events, k - 1);
      assert PushesNew(trace[k - 1], events[k - 1]);
      TraceStep(checks, trace, events, k - 1);
    }
  }

  lemma DistinctIffPushesNew(checks: Checks, trace: seq<World>, events: seq<Event>)
    requires IsTrace(checks, trace, events) && AllLooked(checks, trace, events) && AllDistinct(checks, trace[0].s)
    ensures (forall k :: 0 <= k < |trace| ==> AllDistinct(checks, trace[k].s))
       <==> (forall k :: 0 <= k < |events| ==> PushesNew(trace[k], events[k]))
  {
    if forall k :: 0 <= k < |trace| ==> AllDistinct(checks, trace[k].s) {
      forall k | 0 <= k < |events| ensures PushesNew(trace[k], events[k]) {
        assert AllDistinct(checks, trace[k].s) && AllDistinct(checks, trace[k + 1].s);
        TraceStep(checks, trace, events, k);
      }
    } else if forall k :: 0 <= k < |events| ==> PushesNew(trace[k], events[k]) {
      forall k | 0 <= k < |trace| ensures AllDistinct(checks, trace[k].s) {
        NewPushesKeepDistinct(checks, trace, events, k);
      }
    }
  }

  // ---------------------------------------------------------------- the schedule

  /** Event e pushes base rule b onto instance n. */
  ghost predicate Pushes(w: World, e: Event, n: string, b: ServiceRule) {
    e.WriteFirst? && e.i in w.threads && w.threads[e.i].n == n && w.threads[e.i].first == PushRule(n, b)
  }

  /** The add that arrived, and looked, at event a and pushes at event k is
      overtaken at event j: another one pushes the same destination in between. */
  ghost predicate Overtaken(trace: seq<World>, events: seq<Event>, a: nat, j: nat, k: nat)
    requires |trace| == |events| + 1
  {
    && a < j < k < |events|
    && events[a].Arrive? && events[a].first.PushRule? && events[k] == WriteFirst(events[a].i)
    && exists b :: Pushes(trace[j], events[j], events[a].n, b) && !Differ(b, events[a].first.base)
  }

  ghost predicate NoneOvertaken(trace: seq<World>, events: seq<Event>)
    requires |trace| == |events| + 1
  {
    forall a: nat, j: nat, k: nat :: !Overtaken(trace, events, a, j, k)
  }

  ghost predicate DistinctUpTo(checks: Checks, trace: seq<World>, k: nat)
    requires k < |trace|
  {
    forall j :: 0 <= j <= k ==> AllDistinct(checks, trace[j].s)
  }

  lemma StepKeepsThread(checks: Checks, w: World, e: Event, i: nat)
    requires Enabled(checks, w, e) && i in Do(checks, w, e).threads
    ensures var t := Do(checks, w, e).threads[i];
            if i in w.threads then t.n == w.threads[i].n && t.first == w.threads[i].first
            else e == Arrive(i, t.n, t.first)
  {
  }

  /** Every thread has arrived, as what it is. */
  lemma {:induction false} ThreadArrived(checks: Checks, trace: seq<World>, events: seq<Event>, k: nat, i: nat) returns (a: nat)
    requires IsTrace(checks, trace, events) && k < |trace| && i in trace[k].threads
    ensures a < k && events[a] == Arrive(i, trace[k].threads[i].n, trace[k].threads[i].first)
  {
    StepKeepsThread(checks, trace[k - 1], events[k - 1], i);
    if i in trace[k - 1].threads {
      a := ThreadArrived(checks, trace, events, k - 1, i);
    } else {
      a := k - 1;
    }
  }

  lemma StepGrowsBases(checks: Checks, w: World, e: Event, n: string, b: ServiceRule)
    requires WorldInv(w) && Enabled(checks, w, e) && n in w.s.instances
    ensures var s' := Do(checks, w, e).s;
            && n in s'.instances
            && (b in s'.instances[n].baseRules <==> b in w.s.instances[n].baseRules || Pushes(w, e, n, b))
  {
    if e.WriteFirst? {
      assert Pending(w.s, w.threads[e.i]);
    }
  }

  lemma TraceGrowsBases(checks: Checks, trace: seq<World>, events: seq<Event>, k: nat, n: string, b: ServiceRule)
    requires IsTrace(checks, trace, events) && k < |events| && n in trace[k].s.instances
    ensures n in trace[k + 1].s.instances
    ensures b in trace[k + 1].s.instances[n].baseRules <==>
              b in trace[k].s.instances[n].baseRules || Pushes(trace[k], events[k], n, b)
  {
    ServiceConcurrent.TraceKeepsInv(checks, trace, events, k);
    StepGrowsBases(checks, trace[k], events[k], n, b);
  }

  /** The base rule has been pushed onto the instance since a moment. */
  ghost predicate PushedSince(trace: seq<World>, events: seq<Event>, a: nat, k: nat, n: string, b: ServiceRule)
    requires |trace| == |events| + 1 && a <= k <= |events|
  {
    exists j :: a <= j < k && Pushes(trace[j], events[j], n, b)
  }

  lemma PushedSinceStep(trace: seq<World>, events: seq<Event>, a: nat, k: nat, n: string, b: ServiceRule)
    requires |trace| == |events| + 1 && a <= k < |events|
    ensures PushedSince(trace, events, a, k + 1, n, b) <==> PushedSince(trace, events, a, k, n, b) || Pushes(trace[k], events[k], n, b)
  {
  }

  /** A base rule was there at a moment or has been pushed since. */
  lemma {:induction false} Origin(checks: Checks, trace: seq<World>, events: seq<Event>, a: nat, k: nat, n: string, b: ServiceRule)
    requires IsTrace(checks, trace, events) && a <= k < |trace| && n in trace[a].s.instances
    ensures n in trace[k].s.instances
    ensures b in trace[k].s.instances[n].baseRules <==>
              b in trace[a].s.instances[n].baseRules || PushedSince(trace, events, a, k, n, b)
  {
    if a < k {
      Origin(checks, trace, events, a, k - 1, n, b);
      PushedSinceStep(trace, events, a, k - 1, n, b);
      TraceGrowsBases(checks, trace, events, k - 1, n, b);
    }
  }

  /** What the look of an add found stays true of all that was there when it looked. */
  lemma LookedMeansDiffer(checks: Checks, i: Instance, r: ServiceRule, b: ServiceRule)
    requires Distinct(checks, i.baseRules) && WellStored(checks, r) && !AlreadyThere(i, r) && b in i.baseRules
    ensures Differ(b, r)
  {
    AlreadyThereIffTaken(checks, i, r);
  }

  lemma PushIsNewUnlessOvertaken(checks: Checks, trace: seq<World>, events: seq<Event>, k: nat)
    requires IsTrace(checks, trace, events) && AllLooked(checks, trace, events) && k < |events|
    requires DistinctUpTo(checks, trace, k) && NoneOvertaken(trace, events)
    ensures PushesNew(trace[k], events[k])
  {
    var w, e := trace[k], events[k];
    if e.WriteFirst? && w.threads[e.i].first.PushRule? {
      var n, r := w.threads[e.i].n, w.threads[e.i].first.base;
      var a := ThreadArrived(checks, trace, events, k, e.i);
      assert Looked(checks, trace[a], events[a]);
      forall b | n in w.s.instances && b in w.s.instances[n].baseRules ensures Differ(b, r) {
        Origin(checks, trace, events, a, k, n, b);
        if b in trace[a].s.instances[n].baseRules {
          LookedMeansDiffer(checks, trace[a].s.instances[n], r, b);
        } else {
          var j :| a <= j < k && Pushes(trace[j], events[j], n, b);
          assert !Overtaken(trace, events, a, j, k);
        }
      }
    }
  }

  lemma OvertakenIsNotNew(checks: Checks, trace: seq<World>, events: seq<Event>, a: nat, j: nat, k: nat)
    requires IsTrace(checks, trace, events) && Overtaken(trace, events, a, j, k)
    ensures !PushesNew(trace[k], events[k])
  {
    var n, r, i := events[a].n, events[a].first.base, events[a].i;
    var b :| Pushes(trace[j], events[j], n, b) && !Differ(b, r);
    ArrivedStays(checks, trace, events, a, k);
    assert FirstWrite(events[a].first, n) && n in trace[a].s.instances;
    Origin(checks, trace, events, a, k, n, b);
  }

  lemma {:induction false} ArrivedStays(checks: Checks, trace: seq<World>, events: seq<Event>, a: nat, k: nat)
    requires IsTrace(checks, trace, events) && a < k < |trace| && events[a].Arrive?
    ensures events[a].i in trace[k].threads
    ensures trace[k].threads[events[a].i].n == events[a].n && trace[k].threads[events[a].i].first == events[a].first
  {
    if a < k - 1 {
      ArrivedStays(checks, trace, events, a, k - 1);
      StepKeepsThread(checks, trace[k - 1], events[k - 1], events[a].i);
    }
  }

  lemma StepUnlessOvertaken(checks: Checks, trace: seq<World>, events: seq<Event>, k: nat)
    requires IsTrace(checks, trace, events) && AllLooked(checks, trace, events) && k < |events|
    requires DistinctUpTo(checks, trace, k) && NoneOvertaken(trace, events)
    ensures AllDistinct(checks, trace[k + 1].s)
  {
    PushIsNewUnlessOvertaken(checks, trace, events, k);
    TraceStep(checks, trace, events, k);
  }

  lemma {:induction false} DistinctUnlessOvertaken(checks: Checks, trace: seq<World>, events: seq<Event>, k: nat)
    requires IsTrace(checks, trace, events) && AllLooked(checks, trace, events) && k < |trace|
    requires AllDistinct(checks, trace[0].s) && NoneOvertaken(trace, events)
    ensures DistinctUpTo(checks, trace, k)
  {
    if k > 0 {
      DistinctUnlessOvertaken(checks, trace, events, k - 1);
      StepUnlessOvertaken(checks, trace, events, k - 1);
    }
  }

  /** When every add looks before it pushes, destinations stay distinct throughout
      if and only if no add is overtaken between its look and its push by another
      push of the same destination. */
  lemma ConcurrentAddsStayDistinctIff(checks: Checks, trace: seq<World>, events: seq<Event>)
    requires IsTrace(checks, trace, events) && AllLooked(checks, trace, events) && AllDistinct(checks, trace[0].s)
    ensures (forall k :: 0 <= k < |trace| ==> AllDistinct(checks, trace[k].s))
       <==> NoneOvertaken(trace, events)
  {
    if forall k :: 0 <= k < |trace| ==> AllDistinct(checks, trace[k].s) {
      DistinctIffPushesNew(checks, trace, events);
      forall a: nat, j: nat, k: nat ensures !Overtaken(trace, events, a, j, k) {
        if Overtaken(trace, events, a, j, k) {
          OvertakenIsNotNew(checks, trace, events, a, j, k);
        }
      }
    } else if NoneOvertaken(trace, events) {
      DistinctUnlessOvertaken(checks, trace, events, |events|);
    }
  }

  lemma PushedTwice(checks: Checks, s: State, n: string, b: ServiceRule, c: ServiceRule)
    requires n in s.instances && !b.rule.removed && !c.rule.removed && b.rule.destination == c.rule.destination
    ensures !AllDistinct(checks, DoWrite(DoWrite(s, PushRule(n, b)), PushRule(n, c)))
  {
    var s' := DoWrite(DoWrite(s, PushRule(n, b)), PushRule(n, c));
    var bases := s'.instances[n].baseRules;
    var k := |bases| - 2;
    assert bases == s.instances[n].baseRules + [b] + [c] && bases[k] == b && bases[k + 1] == c;
    if AllDistinct(checks, s') {
      DistinctAt(checks, bases, k, k + 1);
    }
  }

  /** The worlds of a race between two adds: none has arrived, one, both, and
      then the first has pushed, and the second. */
  function Race(s: State, first: Write, second: Write, n: string): seq<World> {
    var s1 := DoWrite(s, first);
    [World(s, map[]),
     World(s, map[0 := Thread(n, first, Begun)]),
     World(s, map[0 := Thread(n, first, Begun), 1 := Thread(n, second, Begun)]),
     World(s1, map[0 := Thread(n, first, Written), 1 := Thread(n, second, Begun)]),
     World(DoWrite(s1, second), map[0 := Thread(n, first, Written), 1 := Thread(n, second, Written)])]
  }

  lemma BothArrive(checks: Checks, s: State, n: string, first: Write, second: Write)
    requires n in s.instances && FirstWrite(first, n) && FirstWrite(second, n)
    ensures var trace := Race(s, first, second, n);
            && Enabled(checks, trace[0], Arrive(0, n, first)) && Do(checks, trace[0], Arrive(0, n, first)) == trace[1]
            && Enabled(checks, trace[1], Arrive(1, n, second)) && Do(checks, trace[1], Arrive(1, n, second)) == trace[2]
  {
  }

  lemma BothPush(checks: Checks, s: State, n: string, b: ServiceRule, c: ServiceRule)
    requires IsObjectID(b.rule.ruleID) && IsObjectID(c.rule.ruleID) && b.rule.ruleID != c.rule.ruleID
    requires b.rule.ruleID !in s.issued && c.rule.ruleID !in s.issued
    ensures var trace := Race(s, PushRule(n, b), PushRule(n, c), n);
            && Enabled(checks, trace[2], WriteFirst(0)) && Do(checks, trace[2], WriteFirst(0)) == trace[3]
            && Enabled(checks, trace[3], WriteFirst(1)) && Do(checks, trace[3], WriteFirst(1)) == trace[4]
  {
  }

  function RaceEvents(first: Write, second: Write, n: string): seq<Event> {
    [Arrive(0, n, first), Arrive(1, n, second), WriteFirst(0), WriteFirst(1)]
  }

  lemma RaceIsTrace(checks: Checks, s: State, n: string, b: ServiceRule, c: ServiceRule)
    requires Coherent(s) && n in s.instances
    requires IsObjectID(b.rule.ruleID) && IsObjectID(c.rule.ruleID) && b.rule.ruleID != c.rule.ruleID
    requires b.rule.ruleID !in s.issued && c.rule.ruleID !in s.issued
    ensures IsTrace(checks, Race(s, PushRule(n, b), PushRule(n, c), n), RaceEvents(PushRule(n, b), PushRule(n, c), n))
  {
    var first, second := PushRule(n, b), PushRule(n, c);
    var trace, events := Race(s, first, second, n), RaceEvents(first, second, n);
    BothArrive(checks, s, n, first, second);
    BothPush(checks, s, n, b, c);
    forall k | 0 <= k < |events|
      ensures Enabled(checks, trace[k], events[k]) && trace[k + 1] == Do(checks, trace[k], events[k])
    {
      assert k == 0 || k == 1 || k == 2 || k == 3;
    }
  }

  /** Two adds of one destination that both look before either pushes: from any
      coherent stores that do not hold it, both pass and both push. */
  lemma TwoAddsOfOneDestination(checks: Checks, s: State, n: string, b: ServiceRule, c: ServiceRule)
    returns (trace: seq<World>, events: seq<Event>)
    requires Coherent(s) && n in s.instances
    requires WellStored(checks, b) && !b.rule.removed && !AlreadyThere(s.instances[n], b)
    requires IsObjectID(b.rule.ruleID) && IsObjectID(c.rule.ruleID) && b.rule.ruleID != c.rule.ruleID
    requires b.rule.ruleID !in s.issued && c.rule.ruleID !in s.issued
    requires c == b.(rule := b.rule.(ruleID := c.rule.ruleID))
    ensures IsTrace(checks, trace, events) && AllLooked(checks, trace, events)
    ensures trace[0].s == s && !AllDistinct(checks, trace[|events|].s)
  {
    trace := Race(s, PushRule(n, b), PushRule(n, c), n);
    events := RaceEvents(PushRule(n, b), PushRule(n, c), n);
    RaceIsTrace(checks, s, n, b, c);
    PushedTwice(checks, s, n, b, c);
  }
}
