/** Small vocabulary shared by every module: optional values, extrema and the
    integer clock.  Times are whole microseconds, the resolution of the
    timestamps the gateway compares. */
module Basics {

  datatype Option<+T> = None | Some(value: T)

  const SECOND := 1_000_000
  const DAY := 86_400_000_000

  function Min(a: int, b: int): int { if a <= b then a else b }

  function Max(a: int, b: int): int { if a >= b then a else b }

  /** Feed `events` to a step function, left to right. */
  function Iterate<S, E>(s: S, events: seq<E>, next: (S, E) -> S): S {
    if events == [] then s
    else next(Iterate(s, events[..|events| - 1], next), events[|events| - 1])
  }

  /** A property of the state and the number of steps taken that every step
      keeps holds at the end. */
  lemma {:induction false} IterateKeeps<S(!new), E(!new)>(s: S, events: seq<E>, next: (S, E) -> S, inv: (S, nat) -> bool)
    requires inv(s, 0)
    requires forall t: S, k: nat :: k < |events| && inv(t, k) ==> inv(next(t, events[k]), k + 1)
    ensures inv(Iterate(s, events, next), |events|)
  {
    if events != [] {
      var front := events[..|events| - 1];
      forall t: S, k: nat | k < |front| && inv(t, k) ensures inv(next(t, front[k]), k + 1) {
        assert front[k] == events[k];
      }
      IterateKeeps(s, front, next, inv);
    }
  }

  lemma {:induction false} Pick<T>(s: set<T>) returns (x: T)
    requires s != {}
    ensures x in s
  {
    x :| x in s;
  }

  lemma {:induction false} NoMembers(s: set<int>)
    requires forall x :: x !in s
    ensures s == {}
  {
    if s != {} {
      var x := Pick(s);
      assert false;
    }
  }
}
