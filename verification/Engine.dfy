/** One engine syncing rules, one at a time. */
module Engine {
  import opened Basics
  import opened Clock
  import opened SyncStore
  import opened Updating

  /** The answer of an engine that filters rules. */
  datatype Gate = NoFilter | Allowed | NotAllowed | GateError(message: string)

  /** How the request of a start fares: answered, never carried out, or carried
      out with its answer lost. */
  datatype Request = Answered | Unreachable(message: string) | ReplyLost(message: string)

  /** How the engine's sync ends: it returns, or it panics and takes the process
      with it, but not before the deferred end of the call has run. */
  datatype Answer = Returned(error: Option<string>, result: string) | Panicked

  /** The clock readings of one call, in the order they are taken. */
  datatype Times = Times(
    start: Time, refused: Time, enqueued: Time, began: Time, finished: Time, dequeued: Time, ended: Time)

  /** One call, with what the engine and the store will answer to it. */
  datatype Call = Call(
    key: Key, removed: bool, force: bool, interval: Duration, gate: Gate, request: Request,
    answer: Answer, newID: string, times: Times, firstPingUp: bool, lastPingUp: bool, endUp: bool)
  {
    /** The error that the deferred end finds: a panic has set none. */
    function SyncError(): Option<string> {
      if answer.Returned? then answer.error else None
    }

    function SyncResult(): string {
      if answer.Returned? then answer.result else ""
    }
  }

  datatype Outcome = Outcome(view: View, started: bool, called: bool, panicked: bool, error: Option<string>)
  {
    /** The view that the next call finds: after a panic, in a new process. */
    function Next(): View {
      if panicked then View({}, view.coll) else view
    }
  }

  /** The latest entry of the record says that the removal was synced. */
  predicate RemovalSynced(info: SyncInfo) {
    var latest := info.LatestSync();
    latest.Some? && latest.value.removed && latest.value.successful
  }

  predicate RemovalDone(c: Coll, key: Key) {
    key in c && RemovalSynced(c[key])
  }

  /** Whether the engine is asked to sync, once the start is granted. */
  predicate Asks(c: Call, info: SyncInfo) {
    !(c.removed && RemovalSynced(info))
  }

  function Report(c: Call, info: SyncInfo): SyncData {
    var error := if Asks(c, info) then c.SyncError() else None;
    SyncData(c.times.began, c.times.finished, error.None?, c.removed,
             if error.Some? then error.value else "",
             if Asks(c, info) then c.SyncResult() else "")
  }

  /** The dequeue and the end of a call, on the record it was granted. */
  function Ended(v: View, c: Call, info: SyncInfo): View {
    var dequeued := AfterTurn(v, Turn(Remove(info.syncID), c.times.dequeued, c.lastPingUp));
    View(dequeued.ids, if c.endUp then EndColl(dequeued.coll, c.key, c.times.ended, Report(c, info)) else dequeued.coll)
  }

  /** One granted call: start, enqueue, sync, dequeue, end. */
  function Granted(v: View, started: Coll, c: Call): View
    requires c.key in started
  {
    var info := started[c.key];
    Ended(AfterTurn(View(v.ids, started), Turn(Add(info.syncID), c.times.enqueued, c.firstPingUp)), c, info)
  }

  /** The collection after the start of a call reached the store. */
  function StartedBy(v: View, lockExpire: Duration, c: Call): Coll {
    StartColl(v.coll, c.key, c.times.start, c.interval, lockExpire, c.force, c.newID)
  }

  function SyncOnce(v: View, lockExpire: Duration, c: Call): Outcome {
    if c.gate.GateError? then Outcome(v, false, false, false, Some(c.gate.message))
    else if c.gate.NotAllowed? then Outcome(v, false, false, false, None)
    else if c.request.Unreachable? then Outcome(v, false, false, false, Some(c.request.message))
    else if c.request.ReplyLost? then
      Outcome(View(v.ids, StartedBy(v, lockExpire, c)), false, false, false, Some(c.request.message))
    else if !Grants(v.coll, c.key, c.times.start, c.interval, lockExpire, c.force) then Outcome(v, false, false, false, None)
    else
      var started := StartedBy(v, lockExpire, c);
      var asks := Asks(c, started[c.key]);
      Outcome(Granted(v, started, c), true, asks, asks && c.answer.Panicked?, if asks then c.SyncError() else None)
  }

  /** Where the store and the updater stand after a series of calls. */
  function AfterCalls(v: View, lockExpire: Duration, calls: seq<Call>): View {
    if calls == [] then v
    else SyncOnce(AfterCalls(v, lockExpire, calls[..|calls| - 1]), lockExpire, calls[|calls| - 1]).Next()
  }

  function OutcomeAt(v: View, lockExpire: Duration, calls: seq<Call>, i: nat): Outcome
    requires i < |calls|
  {
    SyncOnce(AfterCalls(v, lockExpire, calls[..i]), lockExpire, calls[i])
  }

  // ---------------------------------------------------------------- bracketing

  /** The entry that a call reports, read off what the call did. */
  function EntryOf(o: Outcome, c: Call): SyncData {
    SyncData(Stored(c.times.began), Stored(c.times.finished), o.error.None?, c.removed,
             if o.error.Some? then o.error.value else "", if o.called then c.SyncResult() else "")
  }

  /** The record is the same in both collections but for its ping. */
  predicate OnlyPinged(c: Coll, d: Coll, key: Key)
    requires key in c
  {
    key in d && d[key] == c[key].(pingTime := d[key].pingTime)
  }

  lemma TurnOnlyPings(v: View, t: Turn, key: Key)
    requires key in v.coll
    ensures OnlyPinged(v.coll, AfterTurn(v, t).coll, key)
  {
  }

  /** The view after a granted call that told outcome o. */
  ghost predicate Bracketed(v: View, c: Call, o: Outcome) {
    && c.key in o.view.coll
    && o.view.ids == v.ids - {o.view.coll[c.key].syncID}
    && (c.endUp ==>
          && LogOf(o.view.coll, c.key) == LastN(LOG_SIZE, LogOf(v.coll, c.key) + [EntryOf(o, c)])
          && !o.view.coll[c.key].running)
    && (!c.endUp ==> LogOf(o.view.coll, c.key) == LogOf(v.coll, c.key) && o.view.coll[c.key].running)
  }

  lemma EndedIsBracketed(v: View, c: Call, info: SyncInfo)
    requires c.key in v.coll && v.coll[c.key].syncID == info.syncID && v.coll[c.key].running
    ensures var w := Ended(v, c, info);
            && c.key in w.coll && w.coll[c.key].syncID == info.syncID && w.ids == v.ids - {info.syncID}
            && w.coll[c.key].running == !c.endUp
            && LogOf(w.coll, c.key) ==
                 if c.endUp then LastN(LOG_SIZE, LogOf(v.coll, c.key) + [Kept(Report(c, info))]) else LogOf(v.coll, c.key)
  {
  }

  lemma GrantedIsBracketed(v: View, lockExpire: Duration, c: Call)
    requires SyncOnce(v, lockExpire, c).started
    ensures Bracketed(v, c, SyncOnce(v, lockExpire, c))
  {
    var started := StartedBy(v, lockExpire, c);
    var info := started[c.key];
    var t := Turn(Add(info.syncID), c.times.enqueued, c.firstPingUp);
    assert LogOf(started, c.key) == LogOf(v.coll, c.key);
    TurnOnlyPings(View(v.ids, started), t, c.key);
    EndedIsBracketed(AfterTurn(View(v.ids, started), t), c, info);
    assert Kept(Report(c, info)) == EntryOf(SyncOnce(v, lockExpire, c), c);
  }

  /** Every granted call gives back the id it enqueued and, when its end reaches
      the store, appends exactly one entry that tells its outcome, and leaves the
      record idle. Every other call changes nothing, unless its start was carried
      out and the answer lost: then the record runs, with nobody to ping it. */
  lemma CallIsBracketed(v: View, lockExpire: Duration, c: Call)
    ensures var o := SyncOnce(v, lockExpire, c);
            && (!o.started ==> !o.called && o.view.ids == v.ids && LogOf(o.view.coll, c.key) == LogOf(v.coll, c.key))
            && (!o.started && !c.request.ReplyLost? ==> o.view == v)
            && (!o.started && o.view != v ==> c.key in o.view.coll && o.view.coll[c.key].running)
            && (o.started ==> Bracketed(v, c, o))
  {
    if SyncOnce(v, lockExpire, c).started {
      GrantedIsBracketed(v, lockExpire, c);
    }
  }

  /** What a call sends to the updater: for a granted one, its id in and out. */
  function Bracket(v: View, lockExpire: Duration, c: Call): seq<Event> {
    if !SyncOnce(v, lockExpire, c).started then []
    else
      var id := StartedBy(v, lockExpire, c)[c.key].syncID;
      [Add(id), Remove(id)]
  }

  /** It sends the id of the record, once in and once out, or nothing. */
  lemma BracketIsOfTheRecord(v: View, lockExpire: Duration, c: Call)
    ensures var o := SyncOnce(v, lockExpire, c);
            Bracket(v, lockExpire, c) ==
              if o.started && c.key in o.view.coll then
                [Add(o.view.coll[c.key].syncID), Remove(o.view.coll[c.key].syncID)]
              else []
  {
    if SyncOnce(v, lockExpire, c).started {
      var started := StartedBy(v, lockExpire, c);
      var id := started[c.key].syncID;
      var enqueued := AfterTurn(View(v.ids, started), Turn(Add(id), c.times.enqueued, c.firstPingUp));
      TurnOnlyPings(View(v.ids, started), Turn(Add(id), c.times.enqueued, c.firstPingUp), c.key);
      TurnOnlyPings(enqueued, Turn(Remove(id), c.times.dequeued, c.lastPingUp), c.key);
    }
  }

  /** A call leaves every record of another rule or engine as it was, but for
      the pings of its updater. */
  lemma CallTouchesNoOtherRecord(v: View, lockExpire: Duration, c: Call, key: Key)
    requires key in v.coll && key != c.key
    ensures OnlyPinged(v.coll, SyncOnce(v, lockExpire, c).view.coll, key)
  {
    var o := SyncOnce(v, lockExpire, c);
    if o.started {
      var started := StartedBy(v, lockExpire, c);
      var id := started[c.key].syncID;
      var enqueued := AfterTurn(View(v.ids, started), Turn(Add(id), c.times.enqueued, c.firstPingUp));
      TurnOnlyPings(View(v.ids, started), Turn(Add(id), c.times.enqueued, c.firstPingUp), key);
      TurnOnlyPings(enqueued, Turn(Remove(id), c.times.dequeued, c.lastPingUp), key);
    }
  }

  /** The entry claims success exactly unless the engine was asked and returned an
      error. It is true exactly when the engine did not panic. */
  lemma EntryIsTrueIff(v: View, lockExpire: Duration, c: Call)
    requires SyncOnce(v, lockExpire, c).started
    ensures var o := SyncOnce(v, lockExpire, c);
            && (EntryOf(o, c).successful <==> !(Asks(c, StartedBy(v, lockExpire, c)[c.key]) && c.SyncError().Some?))
            && ((EntryOf(o, c).successful <==> o.error.None? && !o.panicked) <==> !o.panicked)
  {
  }

  // ---------------------------------------------------------------- in full

  /** The rule may be synced by this engine. */
  predicate PassesGate(c: Call) {
    c.gate == NoFilter || c.gate == Allowed
  }

  /** Which calls start, and what the others answer. */
  lemma StartsIff(v: View, lockExpire: Duration, c: Call)
    ensures var o := SyncOnce(v, lockExpire, c);
            && (o.started <==>
                  && (c.gate == NoFilter || c.gate == Allowed) && c.request == Answered
                  && Grants(v.coll, c.key, c.times.start, c.interval, lockExpire, c.force))
            && (!o.started ==> !o.called && !o.panicked && o.view.ids == v.ids)
            && (c.gate.GateError? ==> o.error == Some(c.gate.message) && o.view == v)
            && (c.gate == NotAllowed ==> o.error == None && o.view == v)
            && (PassesGate(c) && c.request.Unreachable? ==> o.error == Some(c.request.message) && o.view == v)
            && (PassesGate(c) && c.request.ReplyLost? ==>
                  && o.error == Some(c.request.message)
                  && o.view.coll == StartColl(v.coll, c.key, c.times.start, c.interval, lockExpire, c.force, c.newID))
            && (PassesGate(c) && c.request == Answered && !o.started ==> o.error == None && o.view == v)
  {
  }

  /** The engine is asked unless the rule is removed and the last entry of the
      record says that a removal succeeded; what it answers is what the call does. */
  lemma AnswerIsPassedOn(v: View, lockExpire: Duration, c: Call)
    requires SyncOnce(v, lockExpire, c).started
    ensures var o := SyncOnce(v, lockExpire, c);
            && (o.called <==>
                  !(c.removed && c.key in v.coll && |v.coll[c.key].syncs| > 0
                    && (var last := v.coll[c.key].syncs[|v.coll[c.key].syncs| - 1]; last.removed && last.successful)))
            && (!o.called ==> o.error == None && !o.panicked)
            && (o.called && c.answer.Returned? ==> o.error == c.answer.error && !o.panicked)
            && (o.called && c.answer == Panicked ==> o.error == None && o.panicked)
  {
  }

  lemma LastTenOfPush(h: seq<SyncData>, x: SyncData, log: seq<SyncData>)
    requires log == LastN(LOG_SIZE, h + [x])
    ensures 0 < |log| == (if |h| >= 10 then 10 else |h| + 1)
    ensures log[|log| - 1] == x && log[..|log| - 1] == h[|h| + 1 - |log|..]
  {
  }

  /** The log after a call that was granted and reported: the last nine entries of
      before, and the entry of the call. */
  lemma LogInFull(v: View, lockExpire: Duration, c: Call)
    requires SyncOnce(v, lockExpire, c).started && c.endUp
    ensures var o := SyncOnce(v, lockExpire, c);
            var log, before := LogOf(o.view.coll, c.key), LogOf(v.coll, c.key);
            && 0 < |log| == (if |before| >= 10 then 10 else |before| + 1)
            && log[|log| - 1] == EntryOf(o, c) && log[..|log| - 1] == before[|before| + 1 - |log|..]
  {
    CallIsBracketed(v, lockExpire, c);
    var o := SyncOnce(v, lockExpire, c);
    LastTenOfPush(LogOf(v.coll, c.key), EntryOf(o, c), LogOf(o.view.coll, c.key));
  }

  lemma EntryOfInFull(v: View, lockExpire: Duration, c: Call)
    requires SyncOnce(v, lockExpire, c).started
    ensures var o := SyncOnce(v, lockExpire, c);
            var entry := EntryOf(o, c);
            && entry.startTime == Stored(c.times.began) && entry.endTime == Stored(c.times.finished)
            && entry.removed == c.removed
            && (o.called && c.answer.Returned? ==>
                  && (entry.successful <==> c.answer.error == None)
                  && entry.error == (if c.answer.error.Some? then c.answer.error.value else "")
                  && entry.syncResult == c.answer.result)
            && (!o.called || c.answer == Panicked ==> entry.successful && entry.error == "" && entry.syncResult == "")
  {
    AnswerIsPassedOn(v, lockExpire, c);
  }

  lemma LastEntryInFull(v: View, lockExpire: Duration, c: Call)
    requires SyncOnce(v, lockExpire, c).started && c.endUp
    ensures var o := SyncOnce(v, lockExpire, c);
            && c.key in o.view.coll
            && var doc := o.view.coll[c.key];
            && |doc.syncs| > 0 && doc.syncs[|doc.syncs| - 1] == EntryOf(o, c)
  {
    LogInFull(v, lockExpire, c);
  }

  /** What the engine answered is what the entry tells. */
  lemma EntryInFull(v: View, lockExpire: Duration, c: Call)
    requires SyncOnce(v, lockExpire, c).started && c.endUp
    ensures var o := SyncOnce(v, lockExpire, c);
            && c.key in o.view.coll
            && var doc := o.view.coll[c.key];
            && |doc.syncs| > 0
            && var entry := doc.syncs[|doc.syncs| - 1];
            && entry.startTime == Stored(c.times.began) && entry.endTime == Stored(c.times.finished)
            && entry.removed == c.removed
            && (o.called && c.answer.Returned? ==>
                  && (entry.successful <==> c.answer.error == None)
                  && entry.error == (if c.answer.error.Some? then c.answer.error.value else "")
                  && entry.syncResult == c.answer.result)
            && (!o.called || c.answer == Panicked ==> entry.successful && entry.error == "" && entry.syncResult == "")
  {
    LastEntryInFull(v, lockExpire, c);
    EntryOfInFull(v, lockExpire, c);
  }

  /** The record after such a call, and the updater's set. */
  lemma RecordInFull(v: View, lockExpire: Duration, c: Call)
    requires SyncOnce(v, lockExpire, c).started && c.endUp
    ensures var o := SyncOnce(v, lockExpire, c);
            && c.key in o.view.coll
            && var doc := o.view.coll[c.key];
            && !doc.running && doc.startTime == Stored(c.times.start)
            && doc.pingTime == Stored(c.times.ended) && doc.endTime == Some(Stored(c.times.ended))
            && doc.syncID == (if c.key in v.coll then v.coll[c.key].syncID else c.newID)
            && o.view.ids == v.ids - {doc.syncID}
  {
    CallIsBracketed(v, lockExpire, c);
    var started := StartedBy(v, lockExpire, c);
    var t := Turn(Add(started[c.key].syncID), c.times.enqueued, c.firstPingUp);
    TurnOnlyPings(View(v.ids, started), t, c.key);
    var enqueued := AfterTurn(View(v.ids, started), t);
    TurnOnlyPings(enqueued, Turn(Remove(started[c.key].syncID), c.times.dequeued, c.lastPingUp), c.key);
  }

  lemma TurnPings(v: View, t: Turn, key: Key)
    requires key in v.coll && !t.event.Stop?
    ensures key in AfterTurn(v, t).coll
    ensures var id := v.coll[key].syncID;
            AfterTurn(v, t).coll[key] ==
              if t.reachable && id in AfterTurn(v, t).ids then v.coll[key].(pingTime := Stored(t.now)) else v.coll[key]
  {
  }

  /** What a granted call does to the record of another rule or engine that its
      process keeps alive: it is pinged at the enqueue and again at the dequeue. */
  lemma OtherPingsInFull(v: View, lockExpire: Duration, c: Call, key: Key)
    requires SyncOnce(v, lockExpire, c).started && key in v.coll && key != c.key
    requires v.coll[key].syncID != StartedBy(v, lockExpire, c)[c.key].syncID
    ensures var coll, was := SyncOnce(v, lockExpire, c).view.coll, v.coll[key];
            && key in coll
            && coll[key] ==
                 if was.syncID in v.ids && c.lastPingUp then was.(pingTime := Stored(c.times.dequeued))
                 else if was.syncID in v.ids && c.firstPingUp then was.(pingTime := Stored(c.times.enqueued))
                 else was
  {
    var started := StartedBy(v, lockExpire, c);
    var t := Turn(Add(started[c.key].syncID), c.times.enqueued, c.firstPingUp);
    TurnPings(View(v.ids, started), t, key);
    var enqueued := AfterTurn(View(v.ids, started), t);
    TurnPings(enqueued, Turn(Remove(started[c.key].syncID), c.times.dequeued, c.lastPingUp), key);
  }

  /** A series of calls in full: each of them is made, on what those before it left. */
  lemma CallsInOrder(v: View, lockExpire: Duration, calls: seq<Call>, i: nat)
    requires i < |calls|
    ensures AfterCalls(v, lockExpire, calls[..0]) == v && AfterCalls(v, lockExpire, calls[..|calls|]) == AfterCalls(v, lockExpire, calls)
    ensures OutcomeAt(v, lockExpire, calls, i) == SyncOnce(AfterCalls(v, lockExpire, calls[..i]), lockExpire, calls[i])
    ensures var o := OutcomeAt(v, lockExpire, calls, i);
            AfterCalls(v, lockExpire, calls[..i + 1]) == if o.panicked then View({}, o.view.coll) else o.view
  {
    assert calls[..i + 1][..i] == calls[..i] && calls[..|calls|] == calls;
  }

  /** The views that the calls of a round leave, when only the last may panic. */
  lemma ViewsOfRound(v: View, lockExpire: Duration, calls: seq<Call>, k: nat) returns (views: seq<View>)
    requires k <= |calls| && forall i :: 0 <= i < k - 1 ==> !OutcomeAt(v, lockExpire, calls, i).panicked
    ensures |views| == k + 1 && views[0] == v
    ensures forall i :: 0 <= i < k ==> views[i + 1] == SyncOnce(views[i], lockExpire, calls[i]).view
    ensures k > 0 ==> views[k] == OutcomeAt(v, lockExpire, calls, k - 1).view
  {
    views := seq(k + 1, i requires 0 <= i <= k => if i == 0 then v else OutcomeAt(v, lockExpire, calls, i - 1).view);
    forall i | 0 <= i < k ensures views[i + 1] == SyncOnce(views[i], lockExpire, calls[i]).view {
      assert views[i] == AfterCalls(v, lockExpire, calls[..i]) by {
        if i > 0 {
          CallsInOrder(v, lockExpire, calls, i - 1);
        }
      }
    }
  }

  // ---------------------------------------------------------------- removals

  /** A granted call asks the engine unless the rule is removed and the record
      already says that its removal was synced. */
  lemma AsksUnlessRemovalDone(v: View, lockExpire: Duration, c: Call)
    ensures var o := SyncOnce(v, lockExpire, c);
            o.started ==> (o.called <==> !(c.removed && RemovalDone(v.coll, c.key)))
  {
  }

  lemma RemovalBecomesDone(v: View, lockExpire: Duration, c: Call)
    requires c.removed && c.endUp
    requires SyncOnce(v, lockExpire, c).called && SyncOnce(v, lockExpire, c).error == None
    ensures RemovalDone(SyncOnce(v, lockExpire, c).view.coll, c.key)
  {
    CallIsBracketed(v, lockExpire, c);
  }

  lemma RemovalStaysDone(v: View, lockExpire: Duration, c: Call, key: Key)
    requires RemovalDone(v.coll, key) && (c.key == key ==> c.removed)
    ensures RemovalDone(SyncOnce(v, lockExpire, c).view.coll, key)
    ensures c.key == key ==> !SyncOnce(v, lockExpire, c).called
  {
    if c.key == key {
      CallIsBracketed(v, lockExpire, c);
      AsksUnlessRemovalDone(v, lockExpire, c);
    } else {
      CallTouchesNoOtherRecord(v, lockExpire, c, key);
    }
  }

  lemma {:induction false} RemovalStaysDoneThroughout(
      v: View, lockExpire: Duration, calls: seq<Call>, key: Key, from: nat, to: nat)
    requires from <= to <= |calls|
    requires RemovalDone(AfterCalls(v, lockExpire, calls[..from]).coll, key)
    requires forall k :: from <= k < to && calls[k].key == key ==> calls[k].removed
    ensures RemovalDone(AfterCalls(v, lockExpire, calls[..to]).coll, key)
  {
    if from < to {
      RemovalStaysDoneThroughout(v, lockExpire, calls, key, from, to - 1);
      assert calls[..to][..to - 1] == calls[..to - 1];
      RemovalStaysDone(AfterCalls(v, lockExpire, calls[..to - 1]), lockExpire, calls[to - 1], key);
    }
  }

  /** While a rule stays removed, the engine is never asked again after the first
      removal it synced and reported, forced or not, whatever happens to other
      rules and however many later entries push that one out of the log. */
  lemma RemovalSyncsOnce(v: View, lockExpire: Duration, calls: seq<Call>, i: nat, j: nat)
    requires i < j < |calls| && calls[j].key == calls[i].key
    requires calls[i].removed && calls[i].endUp && OutcomeAt(v, lockExpire, calls, i).called
    requires calls[i].answer == Panicked || (calls[i].answer.Returned? && calls[i].answer.error == None)
    requires forall k :: i < k <= j && calls[k].key == calls[i].key ==> calls[k].removed
    ensures !OutcomeAt(v, lockExpire, calls, j).called
  {
    var key := calls[i].key;
    assert calls[..i + 1][..i] == calls[..i];
    AnswerIsPassedOn(AfterCalls(v, lockExpire, calls[..i]), lockExpire, calls[i]);
    RemovalBecomesDone(AfterCalls(v, lockExpire, calls[..i]), lockExpire, calls[i]);
    RemovalStaysDoneThroughout(v, lockExpire, calls, key, i + 1, j);
    RemovalStaysDone(AfterCalls(v, lockExpire, calls[..j]), lockExpire, calls[j], key);
  }

  /** Call i reported that it synced the removal of the rule. */
  ghost predicate Reports(v: View, lockExpire: Duration, calls: seq<Call>, i: nat, key: Key)
    requires i < |calls|
  {
    && calls[i].key == key && calls[i].removed && calls[i].endUp
    && OutcomeAt(v, lockExpire, calls, i).called
    && (calls[i].answer == Panicked || (calls[i].answer.Returned? && calls[i].answer.error == None))
  }

  lemma DoneOnOwnKey(v: View, lockExpire: Duration, c: Call)
    requires !RemovalDone(v.coll, c.key) && RemovalDone(SyncOnce(v, lockExpire, c).view.coll, c.key)
    ensures c.removed && c.endUp && SyncOnce(v, lockExpire, c).called
    ensures c.answer == Panicked || (c.answer.Returned? && c.answer.error == None)
  {
    var o := SyncOnce(v, lockExpire, c);
    CallIsBracketed(v, lockExpire, c);
    assert LogOf(o.view.coll, c.key) != LogOf(v.coll, c.key);
    AnswerIsPassedOn(v, lockExpire, c);
    EntryInFull(v, lockExpire, c);
  }

  lemma DoneByThisCall(v: View, lockExpire: Duration, c: Call, key: Key)
    requires !RemovalDone(v.coll, key) && RemovalDone(SyncOnce(v, lockExpire, c).view.coll, key)
    ensures c.key == key && c.removed && c.endUp
    ensures SyncOnce(v, lockExpire, c).called
    ensures c.answer == Panicked || (c.answer.Returned? && c.answer.error == None)
  {
    if c.key == key {
      DoneOnOwnKey(v, lockExpire, c);
    } else if key in v.coll {
      CallTouchesNoOtherRecord(v, lockExpire, c, key);
    } else {
      CallMakesNoOtherRecord(v, lockExpire, c, key);
    }
  }

  lemma CallMakesNoOtherRecord(v: View, lockExpire: Duration, c: Call, key: Key)
    requires key !in v.coll && key != c.key
    ensures key !in SyncOnce(v, lockExpire, c).view.coll
  {
  }

  lemma {:induction false} DoneMeansReported(v: View, lockExpire: Duration, calls: seq<Call>, key: Key, j: nat) returns (i: nat)
    requires j <= |calls| && !RemovalDone(v.coll, key)
    requires RemovalDone(AfterCalls(v, lockExpire, calls[..j]).coll, key)
    ensures i < j && Reports(v, lockExpire, calls, i, key)
  {
    assert j > 0 && calls[..j][..j - 1] == calls[..j - 1];
    var before := AfterCalls(v, lockExpire, calls[..j - 1]);
    if RemovalDone(before.coll, key) {
      i := DoneMeansReported(v, lockExpire, calls, key, j - 1);
    } else {
      i := j - 1;
      DoneByThisCall(before, lockExpire, calls[i], key);
    }
  }

  /** A granted call on a rule that stays removed is skipped exactly when an earlier
      call reported the removal synced. */
  lemma SkippedIffReported(v: View, lockExpire: Duration, calls: seq<Call>, j: nat)
    requires j < |calls| && !RemovalDone(v.coll, calls[j].key)
    requires OutcomeAt(v, lockExpire, calls, j).started
    requires forall k :: 0 <= k <= j && calls[k].key == calls[j].key ==> calls[k].removed
    ensures !OutcomeAt(v, lockExpire, calls, j).called <==> exists i: nat :: i < j && Reports(v, lockExpire, calls, i, calls[j].key)
  {
    AsksUnlessRemovalDone(AfterCalls(v, lockExpire, calls[..j]), lockExpire, calls[j]);
    if !OutcomeAt(v, lockExpire, calls, j).called {
      var i := DoneMeansReported(v, lockExpire, calls, calls[j].key, j);
    } else if i: nat :| i < j && Reports(v, lockExpire, calls, i, calls[j].key) {
      RemovalSyncsOnce(v, lockExpire, calls, i, j);
    }
  }

  /** A removal whose sync panicked is reported as synced, and skipped ever after. */
  lemma PanickedRemovalIsSkipped(v: View, lockExpire: Duration, calls: seq<Call>, i: nat, j: nat)
    requires i < j < |calls| && calls[j].key == calls[i].key
    requires calls[i].removed && calls[i].endUp && OutcomeAt(v, lockExpire, calls, i).panicked
    requires forall k :: i < k <= j && calls[k].key == calls[i].key ==> calls[k].removed
    ensures !OutcomeAt(v, lockExpire, calls, j).called
  {
    RemovalSyncsOnce(v, lockExpire, calls, i, j);
  }

  // ---------------------------------------------------------------- code

  /** Every record carries the key it is stored under. */
  ghost predicate Keyed(c: Coll) {
    forall k :: k in c ==> Key(c[k].ruleID, c[k].engine) == k
  }

  lemma TurnKeepsKeyed(v: View, t: Turn)
    requires Keyed(v.coll)
    ensures Keyed(AfterTurn(v, t).coll)
  {
  }

  lemma SyncOnceKeepsKeyed(v: View, lockExpire: Duration, c: Call)
    requires Keyed(v.coll)
    ensures Keyed(SyncOnce(v, lockExpire, c).view.coll)
  {
    if SyncOnce(v, lockExpire, c).started {
      var started := StartedBy(v, lockExpire, c);
      var id := started[c.key].syncID;
      var enqueued := AfterTurn(View(v.ids, started), Turn(Add(id), c.times.enqueued, c.firstPingUp));
      TurnKeepsKeyed(View(v.ids, started), Turn(Add(id), c.times.enqueued, c.firstPingUp));
      TurnKeepsKeyed(enqueued, Turn(Remove(id), c.times.dequeued, c.lastPingUp));
    }
  }

  lemma {:induction false} CallsKeepKeyed(v: View, lockExpire: Duration, calls: seq<Call>)
    requires Keyed(v.coll)
    ensures Keyed(AfterCalls(v, lockExpire, calls).coll)
  {
    if calls != [] {
      CallsKeepKeyed(v, lockExpire, calls[..|calls| - 1]);
      SyncOnceKeepsKeyed(AfterCalls(v, lockExpire, calls[..|calls| - 1]), lockExpire, calls[|calls| - 1]);
    }
  }

  lemma StartedIsKeyed(v: View, lockExpire: Duration, c: Call)
    requires Keyed(v.coll)
    ensures Keyed(StartedBy(v, lockExpire, c))
  {
  }

  class Worker {
    const stor: SyncStorage
    const updater: LockUpdater
    ghost var sent: seq<Event>

    constructor (stor: SyncStorage, updater: LockUpdater)
      requires updater.stor == stor
      ensures this.stor == stor && this.updater == updater && sent == []
    {
      this.stor := stor;
      this.updater := updater;
      sent := [];
    }

    method SyncStart(after: Duration, key: Key, force: bool, newID: string, times: Times, request: Request, pingUp: bool)
      returns (next: Duration, r: Result<SyncInfo, SyncStore.Error>)
      requires updater.stor == stor
      modifies this`sent, stor`coll, updater`syncIDSet
      ensures r.Ok? <==> request.Answered? && Grants(old(stor.coll), key, times.start, after, stor.lockExpireTime, force)
      ensures r.Err? ==> updater.syncIDSet == old(updater.syncIDSet) && sent == old(sent)
      ensures r.Err? ==> r.error == if request.Answered? then ErrSyncStorageLocked else ErrUnavailable
      ensures r.Err? && !request.ReplyLost? ==> stor.coll == old(stor.coll)
      ensures request.ReplyLost? ==>
                stor.coll == StartColl(old(stor.coll), key, times.start, after, stor.lockExpireTime, force, newID)
      ensures r.Ok? ==>
                var started := StartColl(old(stor.coll), key, times.start, after, stor.lockExpireTime, force, newID);
                && key in started && r.value == started[key]
                && updater.ViewOf() == AfterTurn(View(old(updater.syncIDSet), started), Turn(Add(r.value.syncID), times.enqueued, pingUp))
                && sent == old(sent) + [Add(r.value.syncID)]
    {
      if request.Unreachable? {
        return after, Err(ErrUnavailable);
      }
      next, r := stor.StartSync(after, key.ruleID, key.engine, force, times.start, times.refused, newID);
      if request.ReplyLost? {
        return after, Err(ErrUnavailable);
      }
      if r.Ok? {
        var _ := updater.Receive(Turn(Add(r.value.syncID), times.enqueued, pingUp));
        sent := sent + [Add(r.value.syncID)];
      }
    }

    method SyncEnd(info: SyncInfo, data: SyncData, times: Times, pingUp: bool, endUp: bool)
      requires updater.stor == stor
      modifies this`sent, stor`coll, updater`syncIDSet
      ensures var dequeued := AfterTurn(old(updater.ViewOf()), Turn(Remove(info.syncID), times.dequeued, pingUp));
              updater.ViewOf() == View(dequeued.ids,
                if endUp then EndColl(dequeued.coll, Key(info.ruleID, info.engine), times.ended, data) else dequeued.coll)
      ensures sent == old(sent) + [Remove(info.syncID)]
    {
      var _ := updater.Receive(Turn(Remove(info.syncID), times.dequeued, pingUp));
      sent := sent + [Remove(info.syncID)];
      if endUp {
        stor.EndSync(info, data, times.ended);
      }
    }

    /** The part of a call between its start and its end, on the record it was granted. */
    method SyncGranted(c: Call, info: SyncInfo)
      returns (data: SyncData, error: Option<string>, panicked: bool, ghost called: bool)
      ensures data == Report(c, info) && called == Asks(c, info)
      ensures error == if called then c.SyncError() else None
      ensures panicked <==> called && c.answer.Panicked?
      // The same in full.
      ensures called <==> !(c.removed && |info.syncs| > 0 && info.syncs[|info.syncs| - 1].removed && info.syncs[|info.syncs| - 1].successful)
      ensures called && c.answer.Returned? ==>
                && error == c.answer.error
                && data == SyncData(c.times.began, c.times.finished, error == None, c.removed,
                                    if error.Some? then error.value else "", c.answer.result)
      ensures !called || panicked ==>
                error == None && data == SyncData(c.times.began, c.times.finished, true, c.removed, "", "")
    {
      data := SyncData(c.times.began, 0, false, false, "", "");
      error, panicked, called := None, false, false;
      var latest := info.LatestSync();
      if latest.Some? && c.removed && latest.value.removed && latest.value.successful {
        // The removal is already synced.
      } else {
        called := true;
        match c.answer {
          case Returned(e, result) =>
            error := e;
            data := data.(syncResult := result);
          case Panicked => panicked := true;
        }
      }
      // From here on the code is deferred: it runs after a panic too.
      data := data.(endTime := c.times.finished, successful := error.None?, removed := c.removed);
      if error.Some? {
        data := data.(error := error.value);
      }
    }

    /** The work and the deferred end of a call, on the record it was granted. */
    method SyncAndEnd(c: Call, info: SyncInfo) returns (error: Option<string>, panicked: bool, ghost called: bool)
      requires updater.stor == stor && Key(info.ruleID, info.engine) == c.key
      modifies this`sent, stor`coll, updater`syncIDSet
      ensures called == Asks(c, info) && error == if called then c.SyncError() else None
      ensures panicked <==> called && c.answer.Panicked?
      ensures updater.ViewOf() == Ended(old(updater.ViewOf()), c, info)
      ensures sent == old(sent) + [Remove(info.syncID)]
    {
      var data;
      data, error, panicked, called := SyncGranted(c, info);
      SyncEnd(info, data, c.times, c.lastPingUp, c.endUp);
    }

    method SyncRule(c: Call) returns (error: Option<string>, panicked: bool, ghost called: bool)
      requires updater.stor == stor && Keyed(stor.coll)
      modifies this`sent, stor`coll, updater`syncIDSet
      ensures var o := SyncOnce(old(updater.ViewOf()), stor.lockExpireTime, c);
              && updater.ViewOf() == o.view && error == o.error && panicked == o.panicked && called == o.called
              && sent == old(sent) + Bracket(old(updater.ViewOf()), stor.lockExpireTime, c)
    {
      called := false;
      match c.gate {
        case GateError(message) => return Some(message), false, false;
        case NotAllowed => return None, false, false;
        case _ =>
      }
      ghost var v := updater.ViewOf();
      var _, r := SyncStart(c.interval, c.key, c.force, c.newID, c.times, c.request, c.firstPingUp);
      if r.Err? {
        if r.error == ErrSyncStorageLocked {
          return None, false, false;
        }
        return Some(c.request.message), false, false;
      }
      StartedIsKeyed(v, stor.lockExpireTime, c);
      error, panicked, called := SyncAndEnd(c, r.value);
      assert updater.ViewOf() == Granted(v, StartedBy(v, stor.lockExpireTime, c), c);
      assert sent == old(sent) + [Add(r.value.syncID), Remove(r.value.syncID)];
    }

    /** The rules of one round, k of them reached: a failure of one does not stop
        the others, a panic does. */
    method EngineSync(calls: seq<Call>) returns (panicked: bool, ghost k: nat, ghost views: seq<View>)
      requires updater.stor == stor && Keyed(stor.coll)
      modifies this`sent, stor`coll, updater`syncIDSet
      ensures k <= |calls| && (!panicked ==> k == |calls|)
      ensures stor.coll == AfterCalls(old(updater.ViewOf()), stor.lockExpireTime, calls[..k]).coll
      ensures !panicked ==> updater.ViewOf() == AfterCalls(old(updater.ViewOf()), stor.lockExpireTime, calls)
      ensures forall i :: 0 <= i < k ==>
                (OutcomeAt(old(updater.ViewOf()), stor.lockExpireTime, calls, i).panicked <==> panicked && i == k - 1)
      ensures panicked ==> k > 0
      // The same in full.
      ensures |views| == k + 1 && views[0] == old(updater.ViewOf()) && views[k] == updater.ViewOf()
      ensures forall i :: 0 <= i < k ==> views[i + 1] == SyncOnce(views[i], stor.lockExpireTime, calls[i]).view
    {
      var n := 0;
      ghost var v := updater.ViewOf();
      while n < |calls|
        invariant 0 <= n <= |calls|
        invariant updater.ViewOf() == AfterCalls(v, stor.lockExpireTime, calls[..n])
        invariant forall i :: 0 <= i < n ==> !OutcomeAt(v, stor.lockExpireTime, calls, i).panicked
      {
        CallsKeepKeyed(v, stor.lockExpireTime, calls[..n]);
        CallsInOrder(v, stor.lockExpireTime, calls, n);
        var _, stop, _ := SyncRule(calls[n]);
        if stop {
          views := ViewsOfRound(v, stor.lockExpireTime, calls, n + 1);
          return true, n + 1, views;
        }
        n := n + 1;
      }
      assert calls[..n] == calls;
      views := ViewsOfRound(v, stor.lockExpireTime, calls, n);
      return false, n, views;
    }
  }
}
