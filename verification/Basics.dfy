/** Result types and the clock shared by every other module. */
module Basics {

  datatype Option<+T> = None | Some(value: T)

  datatype Result<+T, +E> = Ok(value: T) | Err(error: E)

  function Max(a: int, b: int): int {
    if a > b then a else b
  }

  /** out are the elements at these positions, in order, and they are those to keep. */
  ghost predicate KeptInOrder<T>(all: seq<T>, keep: T -> bool, out: seq<T>, at: seq<nat>) {
    && |at| == |out|
    && (forall m, n :: 0 <= m < n < |at| ==> at[m] < at[n])
    && (forall m :: 0 <= m < |at| ==> at[m] < |all| && keep(all[at[m]]) && out[m] == all[at[m]])
    && (forall i: nat :: i < |all| && keep(all[i]) ==> i in at)
  }

  lemma KeptPush<T>(all: seq<T>, keep: T -> bool, out: seq<T>, at: seq<nat>, x: T)
    requires KeptInOrder(all, keep, out, at)
    ensures if keep(x) then KeptInOrder(all + [x], keep, out + [x], at + [|all|]) else KeptInOrder(all + [x], keep, out, at)
  {
    if keep(x) {
      var at' := at + [|all|];
      forall i: nat | i < |all| + 1 && keep((all + [x])[i]) ensures i in at' {
        assert i < |all| ==> i in at;
        assert at'[|at|] == |all|;
      }
    }
  }
}

/** Instants and durations are counted in nanoseconds. The document store keeps
    an instant as a whole number of milliseconds (the UTC datetime type of the
    BSON specification), both when it saves one and when it compares one in a query. */
module Clock {

  type Time = int
  type Duration = int

  const MILLI: Duration := 1_000_000
  const SECOND: Duration := 1_000_000_000
  const MINUTE: Duration := 60 * SECOND

  /** The instant the store keeps when it is given t. */
  function Stored(t: Time): (r: Time)
    ensures r % 1_000_000 == 0 && r <= t < r + 1_000_000
  {
    t - t % MILLI
  }

  lemma StoredMonotone(a: Time, b: Time)
    requires a <= b
    ensures Stored(a) <= Stored(b)
  {
    assert Stored(a) == MILLI * (a / MILLI) && Stored(b) == MILLI * (b / MILLI);
    assert a / MILLI <= b / MILLI;
  }

  /** A stored instant is strictly before another exactly when the later clock
      reading has reached the next whole millisecond. */
  lemma StoredBefore(p: Time, t: Time)
    ensures Stored(p) < Stored(t) <==> Stored(p) + MILLI <= t
    ensures Stored(p) < Stored(t) ==> p < t
  {
    assert Stored(p) == MILLI * (p / MILLI) && Stored(t) == MILLI * (t / MILLI);
    if Stored(p) < Stored(t) {
      assert p / MILLI + 1 <= t / MILLI;
    }
  }

  lemma StoredIdempotent(t: Time)
    ensures Stored(Stored(t)) == Stored(t)
  {
    assert Stored(t) == MILLI * (t / MILLI);
  }
}
