/** Adds that run at the same time, interleaved at every single write. Each
    saves the expansion of the instance as it read it, and no later one. */
module ServiceConcurrent {
  import opened Clock
  import opened RuleTypes
  import opened ServiceIDs
  import opened ServiceModel
  import opened ServiceSound
  import opened ServiceCalls

  /** Where an add stands: before its first write, between that and reading the
      instance back, in its save loop with the rules still to be saved, at its
      end, or stopped by a failure. */
  datatype Progress = Begun | Written | Saving(todo: seq<Rule>) | Done | Failed

  /** first is the write that enlarges instance n. */
  datatype Thread = Thread(n: string, first: Write, progress: Progress)

  datatype World = World(s: State, threads: map<nat, Thread>)

  datatype Event =
    | Arrive(i: nat, n: string, first: Write)
    | WriteFirst(i: nat)
    | ReadBack(i: nat)
    | SaveNext(i: nat, now: Time)
    | Finish(i: nat)
    | Fail(i: nat)

  /** An add on n begins with binding a target or pushing a base rule. */
  predicate FirstWrite(w: Write, n: string) {
    (w.Bind? || w.PushRule?) && w.n == n
  }

  predicate At(w: World, i: nat, p: Progress) {
    i in w.threads && w.threads[i].progress == p
  }

  ghost predicate Enabled(checks: Checks, w: World, e: Event) {
    match e
    case Arrive(i, n, first) => i !in w.threads && n in w.s.instances && FirstWrite(first, n)
    case WriteFirst(i) =>
      && At(w, i, Begun)
      && (var f := w.threads[i].first;
          f.PushRule? ==> IsObjectID(f.base.rule.ruleID) && f.base.rule.ruleID !in w.s.issued)
    case ReadBack(i) =>
      && At(w, i, Written) && w.threads[i].n in w.s.instances
      && ValidRules(checks, Expand(w.s.instances[w.threads[i].n]))
    case SaveNext(i, _) => i in w.threads && w.threads[i].progress.Saving? && w.threads[i].progress.todo != []
    case Finish(i) => At(w, i, Saving([]))
    case Fail(i) => i in w.threads
  }

  function WithProgress(w: World, i: nat, p: Progress): map<nat, Thread>
    requires i in w.threads
  {
    w.threads[i := w.threads[i].(progress := p)]
  }

  function Do(checks: Checks, w: World, e: Event): World
    requires Enabled(checks, w, e)
  {
    match e
    case Arrive(i, n, first) => w.(threads := w.threads[i := Thread(n, first, Begun)])
    case WriteFirst(i) => World(DoWrite(w.s, w.threads[i].first), WithProgress(w, i, Written))
    case ReadBack(i) => w.(threads := WithProgress(w, i, Saving(Expand(w.s.instances[w.threads[i].n]))))
    case SaveNext(i, now) =>
      var todo := w.threads[i].progress.todo;
      World(DoWrite(w.s, Upsert(todo[0], now)), WithProgress(w, i, Saving(todo[1..])))
    case Finish(i) => w.(threads := WithProgress(w, i, Done))
    case Fail(i) => w.(threads := WithProgress(w, i, Failed))
  }

  /** The thread still is going to save a rule with this content. */
  ghost predicate WillSave(t: Thread, n: string, x: Rule) {
    && t.n == n
    && (t.progress.Written? || (t.progress.Saving? && exists r :: r in t.progress.todo && Content(r) == x))
  }

  /** Every rule of the product is live, or some thread has yet to save it, or
      some thread has failed. */
  ghost predicate Covered(w: World, n: string, x: Rule) {
    || x in Live(w.s, n)
    || (exists i :: i in w.threads && WillSave(w.threads[i], n, x))
    || (exists i :: i in w.threads && w.threads[i].progress.Failed?)
  }

  ghost predicate Pending(s: State, t: Thread) {
    && t.n in s.instances && FirstWrite(t.first, t.n)
    && (t.progress.Saving? ==> forall r :: r in t.progress.todo ==> IsExpansion(s.instances[t.n], r))
  }

  ghost predicate WorldInv(w: World) {
    && Inv(w.s)
    && (forall i :: i in w.threads ==> Pending(w.s, w.threads[i]))
    && (forall n, x :: n in w.s.instances && x in Product(w.s.instances[n]) ==> Covered(w, n, x))
  }

  /** The stores agree: every instance has exactly its product live. */
  ghost predicate Coherent(s: State) {
    Inv(s) && forall n :: n in s.instances ==> Live(s, n) == Product(s.instances[n])
  }

  ghost predicate Quiet(w: World) {
    forall i :: i in w.threads ==> w.threads[i].progress.Done?
  }

  ghost predicate IsTrace(checks: Checks, trace: seq<World>, events: seq<Event>) {
    && |trace| == |events| + 1
    && Coherent(trace[0].s) && trace[0].threads == map[]
    && forall k :: 0 <= k < |events| ==> Enabled(checks, trace[k], events[k]) && trace[k + 1] == Do(checks, trace[k], events[k])
  }

  // ---------------------------------------------------------------- one add alone

  /** What each step does to the stores: one write of the add, or nothing. */
  lemma StepOnStores(checks: Checks, w: World, e: Event)
    requires Enabled(checks, w, e)
    ensures var s' := Do(checks, w, e).s;
            match e
            case WriteFirst(i) => s' == DoWrite(w.s, w.threads[i].first)
            case SaveNext(i, now) => s' == DoWrite(w.s, Upsert(w.threads[i].progress.todo[0], now))
            case _ => s' == w.s
  {
  }

  /** The rest of the save loop of one add, when no other moves. */
  function SaveRest(checks: Checks, w: World, i: nat, now: Time): World
    requires i in w.threads && w.threads[i].progress.Saving?
    decreases |w.threads[i].progress.todo|
  {
    if w.threads[i].progress.todo == [] then w else SaveRest(checks, Do(checks, w, SaveNext(i, now)), i, now)
  }

  lemma {:induction false} SaveRestIsTheLoop(checks: Checks, w: World, i: nat, now: Time)
    requires i in w.threads && w.threads[i].progress.Saving?
    ensures var w' := SaveRest(checks, w, i, now);
            && w'.s == DoAll(w.s, Upserts(w.threads[i].progress.todo, now))
            && At(w', i, Saving([]))
    decreases |w.threads[i].progress.todo|
  {
    var todo := w.threads[i].progress.todo;
    if todo == [] {
      assert Upserts(todo, now) == [];
    } else {
      var w1 := Do(checks, w, SaveNext(i, now));
      SaveRestIsTheLoop(checks, w1, i, now);
      assert Upserts(todo, now) == [Upsert(todo[0], now)] + Upserts(todo[1..], now);
      DoAllSplit(w.s, [Upsert(todo[0], now)], Upserts(todo[1..], now));
      assert [Upsert(todo[0], now)][..0] == [];
      assert DoAll(w.s, [Upsert(todo[0], now)]) == w1.s;
    }
  }

  /** An add that runs alone makes exactly the writes of the serial call. */
  lemma AloneItIsTheCall(checks: Checks, w: World, i: nat, now: Time)
    requires Enabled(checks, w, WriteFirst(i))
    requires Enabled(checks, Do(checks, w, WriteFirst(i)), ReadBack(i))
    ensures var w1 := Do(checks, w, WriteFirst(i));
            var w2 := SaveRest(checks, Do(checks, w1, ReadBack(i)), i, now);
            var t := w.threads[i];
            && t.n in w1.s.instances && Enabled(checks, w2, Finish(i))
            && Do(checks, w2, Finish(i)).s == DoAll(w.s, [t.first] + SyncWrites(checks, w1.s.instances[t.n], now))
            && At(Do(checks, w2, Finish(i)), i, Done)
  {
    var w1 := Do(checks, w, WriteFirst(i));
    var wr := Do(checks, w1, ReadBack(i));
    var t := w.threads[i];
    SaveRestIsTheLoop(checks, wr, i, now);
    var us := SyncWrites(checks, w1.s.instances[t.n], now);
    DoAllSplit(w.s, [t.first], us);
    assert [t.first][..0] == [] && DoAll(w.s, [t.first]) == w1.s;
  }

  // ---------------------------------------------------------------- steps

  lemma FirstWriteGrows(s: State, n: string, f: Write)
    requires Inv(s) && n in s.instances && FirstWrite(f, n)
    requires f.PushRule? ==> IsObjectID(f.base.rule.ruleID) && f.base.rule.ruleID !in s.issued
    ensures var s' := DoWrite(s, f);
            && Inv(s') && s'.rules == s.rules && n in s'.instances
            && s'.instances == s.instances[n := s'.instances[n]]
            && Grown(s.instances[n], s'.instances[n])
  {
    match f {
      case Bind(_, t) =>
        BindKeepsInv(s, n, t);
        forall x | x in Targets(s.instances[n]) ensures x in Targets(Bound(s.instances[n], t)) {
          TargetsOfBound(s.instances[n], t, x);
        }
      case PushRule(_, b) =>
        PushRuleKeepsInv(s, n, b);
        assert Targets(DoWrite(s, f).instances[n]) == Targets(s.instances[n]);
    }
  }

  lemma GrownKeepsExpansion(i: Instance, j: Instance, r: Rule)
    requires Grown(i, j) && IsExpansion(i, r)
    ensures IsExpansion(j, r)
  {
    var b, t :| b in i.baseRules && t in Targets(i) && r == ExpandOne(i.name, b, t);
    assert b in j.baseRules && t in Targets(j);
  }

  lemma WriteFirstKeepsInv(checks: Checks, w: World, i: nat)
    requires WorldInv(w) && Enabled(checks, w, WriteFirst(i))
    ensures WorldInv(Do(checks, w, WriteFirst(i)))
  {
    var t, w' := w.threads[i], Do(checks, w, WriteFirst(i));
    assert Pending(w.s, t);
    FirstWriteGrows(w.s, t.n, t.first);
    forall j | j in w'.threads ensures Pending(w'.s, w'.threads[j]) {
      var u := w.threads[j];
      assert Pending(w.s, u);
      if j != i && u.n == t.n && u.progress.Saving? {
        forall r | r in u.progress.todo ensures IsExpansion(w'.s.instances[u.n], r) {
          GrownKeepsExpansion(w.s.instances[t.n], w'.s.instances[t.n], r);
        }
      }
    }
    forall n, x | n in w'.s.instances && x in Product(w'.s.instances[n]) ensures Covered(w', n, x) {
      if n == t.n {
        assert WillSave(w'.threads[i], n, x);
      } else {
        assert Covered(w, n, x);
        CoveredElsewhere(w, w', i, n, x);
      }
    }
  }

  /** A thread that moves on keeps everything covered that it was not going to save. */
  lemma CoveredElsewhere(w: World, w': World, i: nat, n: string, x: Rule)
    requires Covered(w, n, x) && i in w.threads && i in w'.threads
    requires w'.threads == w.threads[i := w'.threads[i]]
    requires x in Live(w.s, n) ==> x in Live(w'.s, n)
    requires WillSave(w.threads[i], n, x) ==> WillSave(w'.threads[i], n, x) || x in Live(w'.s, n)
    requires w.threads[i].progress.Failed? ==> w'.threads[i].progress.Failed?
    ensures Covered(w', n, x)
  {
    if j :| j in w.threads && WillSave(w.threads[j], n, x) {
      assert j in w'.threads;
    } else if j :| j in w.threads && w.threads[j].progress.Failed? {
      assert j in w'.threads && w'.threads[j].progress.Failed?;
    }
  }

  lemma ReadBackKeepsInv(checks: Checks, w: World, i: nat)
    requires WorldInv(w) && Enabled(checks, w, ReadBack(i))
    ensures WorldInv(Do(checks, w, ReadBack(i)))
  {
    var t, w' := w.threads[i], Do(checks, w, ReadBack(i));
    var inst := w.s.instances[t.n];
    forall j | j in w'.threads ensures Pending(w'.s, w'.threads[j]) {
      assert Pending(w.s, w.threads[j]);
      if j == i {
        forall r | r in Expand(inst) ensures IsExpansion(inst, r) { ExpandMembers(inst, r); }
      }
    }
    forall n, x | n in w'.s.instances && x in Product(w'.s.instances[n]) ensures Covered(w', n, x) {
      assert Covered(w, n, x);
      if n == t.n {
        var b, y :| b in inst.baseRules && y in Targets(inst) && !b.rule.removed && x == Content(ExpandOne(inst.name, b, y));
        ExpandMembers(inst, ExpandOne(inst.name, b, y));
        assert WillSave(w'.threads[i], n, x);
      }
      CoveredElsewhere(w, w', i, n, x);
    }
  }

  /** A save replaces a live rule by one with the same content, if it replaces one. */
  lemma LiveStaysLive(s: State, n: string, b: ServiceRule, t: Target, now: Time, m: string, id: string)
    requires Inv(s) && n in s.instances && b in s.instances[n].baseRules
    requires id in s.rules && !s.rules[id].removed && Owned(s.rules[id], m)
    ensures Content(s.rules[id]) in Live(DoWrite(s, Upsert(ExpandOne(n, b, t), now)), m)
  {
    if id == ExpandedID(b.rule.ruleID, t) {
      LiveIsTheExpansion(s, n, b, t);
      SaveMakesLive(s, n, b, t, now);
    } else {
      var s' := DoWrite(s, Upsert(ExpandOne(n, b, t), now));
      assert id in s'.rules && s'.rules[id] == s.rules[id];
    }
  }

  lemma SaveKeepsLive(s: State, n: string, r: Rule, now: Time, m: string)
    requires Inv(s) && n in s.instances && IsExpansion(s.instances[n], r)
    ensures Live(s, m) <= Live(DoWrite(s, Upsert(r, now)), m)
    ensures !r.removed ==> Content(r) in Live(DoWrite(s, Upsert(r, now)), n)
  {
    var b, t :| b in s.instances[n].baseRules && t in Targets(s.instances[n]) && r == ExpandOne(n, b, t);
    if !r.removed {
      SaveMakesLive(s, n, b, t, now);
    }
    forall x | x in Live(s, m) ensures x in Live(DoWrite(s, Upsert(r, now)), m) {
      var id :| id in s.rules && !s.rules[id].removed && Owned(s.rules[id], m) && x == Content(s.rules[id]);
      LiveStaysLive(s, n, b, t, now, m, id);
    }
  }

  /** A live rule under an expanded id has the content of that expansion. */
  lemma LiveIsTheExpansion(s: State, n: string, b: ServiceRule, t: Target)
    requires Inv(s) && n in s.instances && b in s.instances[n].baseRules
    requires ExpandedID(b.rule.ruleID, t) in s.rules && !s.rules[ExpandedID(b.rule.ruleID, t)].removed
    ensures Content(s.rules[ExpandedID(b.rule.ruleID, t)]) == Content(ExpandOne(n, b, t)) && !b.rule.removed
    ensures Owned(s.rules[ExpandedID(b.rule.ruleID, t)], n)
  {
    var r := s.rules[ExpandedID(b.rule.ruleID, t)];
    UpsertReplacesItsOwn(s, n, b, t);
    MetadataIsExpanded(b.rule.ruleID, n, t);
    assert Backed(s, r);
    var c, u := ProductOrigin(s.instances[n], r);
    MetadataIsExpanded(c.rule.ruleID, n, u);
    assert DistinctBases(s.instances[n].baseRules);
  }

  lemma SaveNextKeepsCovered(checks: Checks, w: World, i: nat, now: Time, n: string, x: Rule)
    requires Inv(w.s) && Enabled(checks, w, SaveNext(i, now)) && Pending(w.s, w.threads[i])
    requires n in w.s.instances && x in Product(w.s.instances[n]) && Covered(w, n, x)
    ensures Covered(Do(checks, w, SaveNext(i, now)), n, x)
  {
    var t, w' := w.threads[i], Do(checks, w, SaveNext(i, now));
    var r := t.progress.todo[0];
    assert r in t.progress.todo;
    SaveKeepsLive(w.s, t.n, r, now, n);
    if n == t.n && x == Content(r) {
      var b, y :| b in w.s.instances[n].baseRules && y in Targets(w.s.instances[n]) && !b.rule.removed
                  && x == Content(ExpandOne(w.s.instances[n].name, b, y));
      assert !Content(r).removed;
    }
    CoveredElsewhere(w, w', i, n, x);
  }

  lemma SaveNextKeepsInv(checks: Checks, w: World, i: nat, now: Time)
    requires WorldInv(w) && Enabled(checks, w, SaveNext(i, now))
    ensures WorldInv(Do(checks, w, SaveNext(i, now)))
  {
    var t, w' := w.threads[i], Do(checks, w, SaveNext(i, now));
    assert Pending(w.s, t) && t.progress.todo[0] in t.progress.todo;
    UpsertEffect(w.s, t.n, t.progress.todo[0], now);
    forall j | j in w'.threads ensures Pending(w'.s, w'.threads[j]) {
      assert Pending(w.s, w.threads[j]);
    }
    forall n, x | n in w'.s.instances && x in Product(w'.s.instances[n]) ensures Covered(w', n, x) {
      SaveNextKeepsCovered(checks, w, i, now, n, x);
    }
  }

  lemma StepKeepsInv(checks: Checks, w: World, e: Event)
    requires WorldInv(w) && Enabled(checks, w, e)
    ensures WorldInv(Do(checks, w, e))
  {
    match e
    case Arrive(i, _, _) =>
      var w' := Do(checks, w, e);
      forall n, x | n in w'.s.instances && x in Product(w'.s.instances[n]) ensures Covered(w', n, x) {
        assert Covered(w, n, x);
        if j :| j in w.threads && WillSave(w.threads[j], n, x) {
          assert j in w'.threads;
        } else if j :| j in w.threads && w.threads[j].progress.Failed? {
          assert j in w'.threads;
        }
      }
    case WriteFirst(i) => WriteFirstKeepsInv(checks, w, i);
    case ReadBack(i) => ReadBackKeepsInv(checks, w, i);
    case SaveNext(i, now) => SaveNextKeepsInv(checks, w, i, now);
    case Finish(i) =>
      var w' := Do(checks, w, e);
      forall j | j in w'.threads ensures Pending(w'.s, w'.threads[j]) {
        assert Pending(w.s, w.threads[j]);
      }
      forall n, x | n in w'.s.instances && x in Product(w'.s.instances[n]) ensures Covered(w', n, x) {
        assert Covered(w, n, x);
        CoveredElsewhere(w, w', i, n, x);
      }
    case Fail(i) =>
      var w' := Do(checks, w, e);
      forall j | j in w'.threads ensures Pending(w'.s, w'.threads[j]) {
        assert Pending(w.s, w.threads[j]);
      }
      assert i in w'.threads && w'.threads[i].progress.Failed?;
  }

  lemma {:induction false} TraceKeepsInv(checks: Checks, trace: seq<World>, events: seq<Event>, k: nat)
    requires IsTrace(checks, trace, events) && k < |trace|
    ensures WorldInv(trace[k])
  {
    if k > 0 {
      TraceKeepsInv(checks, trace, events, k - 1);
      StepKeepsInv(checks, trace[k - 1], events[k - 1]);
    }
  }

  /** At every moment, whatever fails, nothing is live beyond the products. */
  lemma ConcurrentAddsStayWithinProduct(checks: Checks, trace: seq<World>, events: seq<Event>, k: nat, n: string)
    requires IsTrace(checks, trace, events) && k < |trace|
    ensures Live(trace[k].s, n) <= ProductOf(trace[k].s, n)
  {
    TraceKeepsInv(checks, trace, events, k);
    SoundMeansSubset(trace[k].s, n);
  }

  /** When any number of adds, on any instances and interleaved in any way, have
      all come to their end, every instance has exactly its product live, though
      each add saved only what it had read. */
  lemma ConcurrentAddsConverge(checks: Checks, trace: seq<World>, events: seq<Event>)
    requires IsTrace(checks, trace, events) && Quiet(trace[|events|])
    ensures Coherent(trace[|events|].s)
  {
    var w := trace[|events|];
    TraceKeepsInv(checks, trace, events, |events|);
    forall n | n in w.s.instances ensures Live(w.s, n) == Product(w.s.instances[n]) {
      SoundMeansSubset(w.s, n);
      forall x | x in Product(w.s.instances[n]) ensures x in Live(w.s, n) {
        assert Covered(w, n, x);
      }
    }
  }
}
