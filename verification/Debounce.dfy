/** How often the operator is triggered for one application or job. */
module Debounce {
  import opened Basics
  import opened Clock

  /** The annotation of the resource: none, one that is no timestamp, or a timestamp. */
  datatype Annotation = Missing | Unreadable | At(time: Time)

  /** A timestamp is written in whole seconds. */
  function WholeSecond(t: Time): (r: Time)
    ensures r <= t < r + SECOND
  {
    t - t % SECOND
  }

  /** A rule created less than a minute before the last trigger is not covered by
      it, and a trigger lasts a minute. */
  predicate NeedsUpdate(a: Annotation, created: Time, now: Time) {
    || a.Missing?
    || (a.At? && (created + MINUTE > a.time || now > a.time + MINUTE))
  }

  datatype Resource = Resource(annotation: Annotation, writes: seq<Time>)

  /** One sync of a rule of the resource; an unreadable annotation fails it. */
  function AfterSync(r: Resource, created: Time, now: Time): Resource {
    if NeedsUpdate(r.annotation, created, now) then
      Resource(At(WholeSecond(now)), r.writes + [now])
    else r
  }

  class Cluster {
    var annotation: Annotation
    /** When the annotation was written. */
    ghost var writes: seq<Time>

    ghost function View(): Resource
      reads this
    {
      Resource(annotation, writes)
    }

    constructor (annotation: Annotation)
      ensures View() == Resource(annotation, [])
    {
      this.annotation := annotation;
      writes := [];
    }

    /** The decision that SyncApp and SyncJob share. */
    method Sync(created: Time, now: Time) returns (r: Result<bool, ()>)
      modifies this
      ensures View() == AfterSync(old(View()), created, now)
      ensures r.Err? <==> old(annotation).Unreadable?
      ensures r.Ok? ==> (r.value <==> NeedsUpdate(old(annotation), created, now))
      // The same in full.
      ensures old(annotation).Missing? ==> r == Ok(true)
      ensures old(annotation).At? ==>
                r == Ok(created + 60_000_000_000 > old(annotation).time || now > old(annotation).time + 60_000_000_000)
      ensures r == Ok(true) ==> annotation == At(now - now % 1_000_000_000) && writes == old(writes) + [now]
      ensures r != Ok(true) ==> annotation == old(annotation) && writes == old(writes)
    {
      var needsUpdate := false;
      if annotation == Missing {
        needsUpdate := true;
      } else {
        if annotation == Unreadable {
          return Err(());
        }
        if created + MINUTE > annotation.time {
          needsUpdate := true;
        }
        if now > annotation.time + MINUTE {
          needsUpdate := true;
        }
      }
      if needsUpdate {
        annotation := At(WholeSecond(now));
        writes := writes + [now];
      }
      r := Ok(needsUpdate);
    }
  }

  /** The annotation covers a rule: it is at least a minute younger than the
      rule's creation, and at most a minute old. */
  predicate Covers(a: Annotation, created: Time, now: Time) {
    a.At? && created + MINUTE <= a.time && now <= a.time + MINUTE
  }

  /** A sync triggers exactly when the annotation does not cover the rule. After
      it, either the annotation was written by this very sync, or it still covers
      the rule; it is then never before the rule's creation, to the second, and at
      most a minute old. */
  lemma SyncCoversTheRule(r: Resource, created: Time, now: Time)
    requires !r.annotation.Unreadable?
    ensures var after := AfterSync(r, created, now);
            && after.annotation.At?
            && (Covers(r.annotation, created, now) ==> after == r)
            && (!Covers(r.annotation, created, now) ==>
                  after.writes == r.writes + [now] && after.annotation.time <= now < after.annotation.time + SECOND)
            && (created <= now ==> WholeSecond(created) <= after.annotation.time && now <= after.annotation.time + MINUTE)
  {
    if created <= now {
      WholeSecondMonotone(created, now);
    }
  }

  datatype Event = Event(created: Time, now: Time)

  function AfterSyncs(r: Resource, events: seq<Event>): Resource {
    if events == [] then r
    else
      var last := events[|events| - 1];
      AfterSync(AfterSyncs(r, events[..|events| - 1]), last.created, last.now)
  }

  /** The syncs in full: each of them is made, on what those before it left. */
  lemma SyncsInOrder(r: Resource, events: seq<Event>, i: nat)
    requires i < |events|
    ensures AfterSyncs(r, events[..0]) == r && AfterSyncs(r, events[..|events|]) == AfterSyncs(r, events)
    ensures AfterSyncs(r, events[..i + 1]) == AfterSync(AfterSyncs(r, events[..i]), events[i].created, events[i].now)
  {
    assert events[..i + 1][..i] == events[..i] && events[..|events|] == events;
  }

  /** The clock does not go back, and no rule is newer than `newest`. */
  ghost predicate InOrder(events: seq<Event>, from: Time, newest: Time) {
    && (forall i :: 0 <= i < |events| ==> from <= events[i].now && events[i].created <= newest)
    && (forall i, j :: 0 <= i <= j < |events| ==> events[i].now <= events[j].now)
  }

  ghost predicate Apart(writes: seq<Time>, gap: Duration) {
    forall i :: 0 <= i < |writes| - 1 ==> writes[i] + gap < writes[i + 1]
  }

  /** A minute, less what the truncation to whole seconds may take off the stored value. */
  const MIN_GAP: Duration := MINUTE - SECOND + 1

  /** Once the stored value is a minute past the creation of every rule, writes
      are more than 59 seconds, and a nanosecond, apart. */
  lemma {:induction false} WritesAreApart(start: Time, newest: Time, events: seq<Event>)
    requires newest + MINUTE <= WholeSecond(start) && InOrder(events, start, newest)
    ensures var r := AfterSyncs(Resource(At(WholeSecond(start)), [start]), events);
            && Apart(r.writes, MIN_GAP)
            && r.writes != [] && r.annotation == At(WholeSecond(r.writes[|r.writes| - 1]))
            && r.writes[0] == start && start <= r.writes[|r.writes| - 1]
            && (events == [] ==> r.writes == [start])
            && (events != [] ==> r.writes[|r.writes| - 1] <= events[|events| - 1].now)
  {
    if events != [] {
      var n := |events| - 1;
      WritesAreApart(start, newest, events[..n]);
      var r := AfterSyncs(Resource(At(WholeSecond(start)), [start]), events[..n]);
      var w := r.writes[|r.writes| - 1];
      WholeSecondMonotone(start, w);
      assert events[n].created + MINUTE <= WholeSecond(w);
    }
  }

  lemma WholeSecondMonotone(a: Time, b: Time)
    requires a <= b
    ensures WholeSecond(a) <= WholeSecond(b)
  {
    assert WholeSecond(a) == SECOND * (a / SECOND) && WholeSecond(b) == SECOND * (b / SECOND);
    assert a / SECOND <= b / SECOND;
  }

  lemma {:induction false} ApartWindow(writes: seq<Time>, gap: Duration)
    requires Apart(writes, gap) && |writes| >= 2
    ensures (|writes| - 1) * gap < writes[|writes| - 1] - writes[0]
  {
    var n := |writes|;
    if n > 2 {
      ApartWindow(writes[..n - 1], gap);
      assert writes[n - 2] + gap < writes[n - 1];
      assert (n - 1) * gap == (n - 2) * gap + gap;
    }
  }

  /** When writes do come a minute apart: after a write at w, every later sync of
      a rule that is covered triggers at least a minute after w exactly when the
      truncation took at most a nanosecond off w. */
  lemma MinuteApartIff(created: Time, w: Time)
    requires created + MINUTE <= WholeSecond(w)
    ensures (forall t :: w <= t && NeedsUpdate(At(WholeSecond(w)), created, t) ==> w + MINUTE <= t)
       <==> w - WholeSecond(w) <= 1
  {
    var soonest := WholeSecond(w) + MINUTE + 1;
    assert w <= soonest && NeedsUpdate(At(WholeSecond(w)), created, soonest);
  }

  /** A run with two writes as close as the bound allows: the first at the end of
      a second, the second as soon as the stored value is more than a minute old. */
  lemma GapBelowAMinute(second: nat, created: Time)
    requires created + MINUTE <= second * SECOND
    ensures var first, next := second * SECOND + SECOND - 1, second * SECOND + MINUTE + 1;
            && AfterSyncs(Resource(Missing, []), [Event(created, first), Event(created, next)]).writes == [first, next]
            && next - first == MIN_GAP + 1
  {
    var first, next := second * SECOND + SECOND - 1, second * SECOND + MINUTE + 1;
    assert WholeSecond(first) == second * SECOND;
    var e, f := Event(created, first), Event(created, next);
    assert [e, f][..1] == [e] && [e][..0] == [];
    assert AfterSyncs(Resource(Missing, []), [e]) == Resource(At(second * SECOND), [first]);
  }

  /** k triggers therefore span more than (k - 1) such gaps. */
  lemma TriggerRateBound(start: Time, newest: Time, events: seq<Event>)
    requires newest + MINUTE <= WholeSecond(start) && InOrder(events, start, newest)
    requires |AfterSyncs(Resource(At(WholeSecond(start)), [start]), events).writes| >= 2
    ensures var w := AfterSyncs(Resource(At(WholeSecond(start)), [start]), events).writes;
            (|w| - 1) * MIN_GAP < w[|w| - 1] - w[0]
  {
    WritesAreApart(start, newest, events);
    ApartWindow(AfterSyncs(Resource(At(WholeSecond(start)), [start]), events).writes, MIN_GAP);
  }
}
