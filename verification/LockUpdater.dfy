/** The loop that keeps the locks of one process alive. */
module Updating {
  import opened Clock
  import opened SyncStore

  /** What ends one wait of the loop. */
  datatype Event = Add(id: string) | Remove(id: string) | Timeout | Stop

  /** One turn: the event, the clock reading of its ping, and whether the store answers. */
  datatype Turn = Turn(event: Event, now: Time, reachable: bool)

  datatype View = View(ids: set<string>, coll: Coll)

  const LOCK_UPDATER_INTERVAL: Duration := 20 * SECOND

  function NextIDs(ids: set<string>, e: Event): set<string> {
    match e
    case Add(id) => ids + {id}
    case Remove(id) => ids - {id}
    case _ => ids
  }

  /** Every turn that leaves the set non-empty pings all of it, whatever woke the loop. */
  function AfterTurn(v: View, t: Turn): View {
    var ids := NextIDs(v.ids, t.event);
    View(ids, if t.event.Stop? || ids == {} || !t.reachable then v.coll else PingColl(v.coll, ids, t.now))
  }

  function AfterTurns(v: View, turns: seq<Turn>): View
    decreases |turns|
  {
    if turns == [] || turns[0].event.Stop? then v else AfterTurns(AfterTurn(v, turns[0]), turns[1..])
  }

  /** The loop in full: one view for every turn up to the first stop, each of them
      made of the one before it by that turn, and nothing else ends the loop. */
  lemma {:induction false} TurnsInOrder(v: View, turns: seq<Turn>) returns (views: seq<View>)
    ensures var n := |views| - 1;
            && 0 <= n <= |turns| && views[0] == v && views[n] == AfterTurns(v, turns)
            && (forall i :: 0 <= i < n ==> !turns[i].event.Stop? && views[i + 1] == AfterTurn(views[i], turns[i]))
            && (n < |turns| ==> turns[n].event.Stop?)
    decreases |turns|
  {
    if turns == [] || turns[0].event.Stop? {
      views := [v];
    } else {
      var rest := TurnsInOrder(AfterTurn(v, turns[0]), turns[1..]);
      views := [v] + rest;
      forall i | 0 <= i < |rest| ensures !turns[i].event.Stop? && views[i + 1] == AfterTurn(views[i], turns[i]) {
        if i > 0 {
          assert turns[1..][i - 1] == turns[i] && rest[i] == AfterTurn(rest[i - 1], turns[1..][i - 1]);
        }
      }
    }
  }

  /** While the loop goes on, an id is in the set exactly when it was added and not
      removed since, or was there at first and never removed. */
  lemma {:induction false} IDsAfterTurns(v: View, turns: seq<Turn>, id: string)
    requires forall i :: 0 <= i < |turns| ==> !turns[i].event.Stop?
    ensures id in AfterTurns(v, turns).ids <==>
              || (exists i :: 0 <= i < |turns| && turns[i].event == Add(id)
                    && forall j :: i < j < |turns| ==> turns[j].event != Remove(id))
              || (id in v.ids && forall j :: 0 <= j < |turns| ==> turns[j].event != Remove(id))
    decreases |turns|
  {
    if turns != [] {
      var w, rest := AfterTurn(v, turns[0]), turns[1..];
      IDsAfterTurns(w, rest, id);
      if i :| 0 <= i < |rest| && rest[i].event == Add(id) && forall j :: i < j < |rest| ==> rest[j].event != Remove(id) {
        assert turns[i + 1].event == Add(id);
        forall j | i + 1 < j < |turns| ensures turns[j].event != Remove(id) { assert turns[j] == rest[j - 1]; }
      }
      if i :| 0 <= i < |turns| && turns[i].event == Add(id) && forall j :: i < j < |turns| ==> turns[j].event != Remove(id) {
        forall j | 0 <= j < |rest| && j >= i ensures rest[j].event != Remove(id) { assert rest[j] == turns[j + 1]; }
        assert i > 0 ==> rest[i - 1].event == Add(id);
      }
      if forall j :: 0 <= j < |rest| ==> rest[j].event != Remove(id) {
        forall j | 1 <= j < |turns| ensures turns[j].event != Remove(id) { assert turns[j] == rest[j - 1]; }
      }
      if forall j :: 0 <= j < |turns| ==> turns[j].event != Remove(id) {
        forall j | 0 <= j < |rest| ensures rest[j].event != Remove(id) { assert rest[j] == turns[j + 1]; }
      }
    }
  }

  lemma MembersPush(ids: seq<string>, id: string)
    ensures Members(ids + [id]) == Members(ids) + {id}
  {
    assert ids <= ids + [id];
    forall x | x in Members(ids) ensures x in ids + [id] {
      var i :| 0 <= i < |ids| && ids[i] == x;
      assert (ids + [id])[i] == x;
    }
    assert (ids + [id])[|ids|] == id;
  }

  class LockUpdater {
    const stor: SyncStorage
    var syncIDSet: set<string>

    constructor (stor: SyncStorage)
      ensures this.stor == stor && syncIDSet == {}
    {
      this.stor := stor;
      syncIDSet := {};
    }

    function ViewOf(): View
      reads this, stor
    {
      View(syncIDSet, stor.coll)
    }

    /** The ids of the set, in some order. */
    method ListIDs() returns (syncs: seq<string>)
      ensures Members(syncs) == syncIDSet
      ensures |syncs| == |syncIDSet|
    {
      syncs := [];
      var rest := syncIDSet;
      while rest != {}
        invariant rest <= syncIDSet && Members(syncs) == syncIDSet - rest
        invariant |syncs| + |rest| == |syncIDSet|
        decreases rest
      {
        var id :| id in rest;
        MembersPush(syncs, id);
        syncs := syncs + [id];
        rest := rest - {id};
      }
    }

    method Receive(t: Turn) returns (stopped: bool)
      modifies this`syncIDSet, stor`coll
      ensures stopped == t.event.Stop?
      ensures ViewOf() == AfterTurn(old(ViewOf()), t)
      // The same in full.
      ensures t.event.Add? ==> syncIDSet == old(syncIDSet) + {t.event.id}
      ensures t.event.Remove? ==> syncIDSet == old(syncIDSet) - {t.event.id}
      ensures t.event.Timeout? || t.event.Stop? ==> syncIDSet == old(syncIDSet)
      ensures t.event.Stop? || syncIDSet == {} || !t.reachable ==> stor.coll == old(stor.coll)
      ensures !t.event.Stop? && t.reachable ==>
                && stor.coll.Keys == old(stor.coll).Keys
                && forall k :: k in stor.coll ==>
                     stor.coll[k] == if old(stor.coll)[k].syncID in syncIDSet then old(stor.coll)[k].(pingTime := Stored(t.now))
                                     else old(stor.coll)[k]
    {
      stopped := false;
      match t.event {
        case Add(id) => syncIDSet := syncIDSet + {id};
        case Remove(id) => syncIDSet := syncIDSet - {id};
        case Stop => return true;
        case Timeout =>
      }
      if |syncIDSet| == 0 {
        return;
      }
      var syncs := ListIDs();
      if t.reachable {
        stor.PingSyncs(syncs, t.now);
      }
    }

    /** The loop, on the events it is going to receive. */
    method Run(turns: seq<Turn>) returns (ghost views: seq<View>)
      modifies this`syncIDSet, stor`coll
      ensures ViewOf() == AfterTurns(old(ViewOf()), turns)
      // The same in full.
      ensures 1 <= |views| <= |turns| + 1 && views[0] == old(ViewOf()) && views[|views| - 1] == ViewOf()
      ensures forall i :: 0 <= i < |views| - 1 ==> !turns[i].event.Stop? && views[i + 1] == AfterTurn(views[i], turns[i])
      ensures |views| <= |turns| ==> turns[|views| - 1].event.Stop?
    {
      views := TurnsInOrder(ViewOf(), turns);
      var i := 0;
      while i < |turns|
        invariant 0 <= i <= |turns|
        invariant AfterTurns(ViewOf(), turns[i..]) == AfterTurns(old(ViewOf()), turns)
      {
        assert turns[i..][1..] == turns[i + 1..];
        var stopped := Receive(turns[i]);
        if stopped {
          return;
        }
        i := i + 1;
      }
    }
  }
}
