/** Runs of a state machine, and properties of all their prefixes. */
module Runs {

  function Reached<S, E>(next: (S, E) -> S, s: S, events: seq<E>): S
    decreases |events|
  {
    if events == [] then s else Reached(next, next(s, events[0]), events[1..])
  }

  /** p holds in the first state and after every event. */
  ghost predicate Throughout<S, E>(next: (S, E) -> S, s: S, events: seq<E>, p: S -> bool)
    decreases |events|
  {
    p(s) && (events == [] || Throughout(next, next(s, events[0]), events[1..], p))
  }

  /** Every event meets a state in which guard lets it through. */
  ghost predicate Guarded<S, E>(next: (S, E) -> S, s: S, events: seq<E>, guard: (S, E) -> bool)
    decreases |events|
  {
    events == [] || (guard(s, events[0]) && Guarded(next, next(s, events[0]), events[1..], guard))
  }

  // ---- short runs, written out ----

  lemma ReachedOne<S, E>(next: (S, E) -> S, s: S, a: E)
    ensures Reached(next, s, [a]) == next(s, a)
  {
    assert Reached(next, next(s, a), []) == next(s, a);
    assert [a][1..] == [];
  }

  lemma GuardedOne<S, E>(next: (S, E) -> S, s: S, a: E, guard: (S, E) -> bool)
    ensures Guarded(next, s, [a], guard) <==> guard(s, a)
  {
    assert Guarded(next, next(s, a), [], guard);
    assert [a][1..] == [];
  }

  lemma ReachedTwo<S, E>(next: (S, E) -> S, s: S, a: E, b: E)
    ensures Reached(next, s, [a, b]) == next(next(s, a), b)
  {
    assert [a, b][1..] == [b];
    ReachedOne(next, next(s, a), b);
  }

  lemma GuardedTwo<S, E>(next: (S, E) -> S, s: S, a: E, b: E, guard: (S, E) -> bool)
    ensures Guarded(next, s, [a, b], guard) <==>
      guard(s, a) && guard(next(s, a), b)
  {
    assert [a, b][1..] == [b];
    GuardedOne(next, next(s, a), b, guard);
  }

  lemma ReachedThree<S, E>(next: (S, E) -> S, s: S, a: E, b: E, c: E)
    ensures Reached(next, s, [a, b, c]) == next(next(next(s, a), b), c)
  {
    assert [a, b, c][1..] == [b, c];
    ReachedTwo(next, next(s, a), b, c);
  }

  lemma GuardedThree<S, E>(next: (S, E) -> S, s: S, a: E, b: E, c: E, guard: (S, E) -> bool)
    ensures Guarded(next, s, [a, b, c], guard) <==>
      guard(s, a) && guard(next(s, a), b) && guard(next(next(s, a), b), c)
  {
    assert [a, b, c][1..] == [b, c];
    GuardedTwo(next, next(s, a), b, c, guard);
  }

  lemma ReachedFour<S, E>(next: (S, E) -> S, s: S, a: E, b: E, c: E, d: E)
    ensures Reached(next, s, [a, b, c, d]) == next(next(next(next(s, a), b), c), d)
  {
    assert [a, b, c, d][1..] == [b, c, d];
    ReachedThree(next, next(s, a), b, c, d);
  }

  lemma GuardedFour<S, E>(next: (S, E) -> S, s: S, a: E, b: E, c: E, d: E, guard: (S, E) -> bool)
    ensures Guarded(next, s, [a, b, c, d], guard) <==>
      guard(s, a) && guard(next(s, a), b) && guard(next(next(s, a), b), c) && guard(next(next(next(s, a), b), c), d)
  {
    assert [a, b, c, d][1..] == [b, c, d];
    GuardedThree(next, next(s, a), b, c, d, guard);
  }

  lemma ReachedFive<S, E>(next: (S, E) -> S, s: S, a: E, b: E, c: E, d: E, e: E)
    ensures Reached(next, s, [a, b, c, d, e]) == next(next(next(next(next(s, a), b), c), d), e)
  {
    assert [a, b, c, d, e][1..] == [b, c, d, e];
    ReachedFour(next, next(s, a), b, c, d, e);
  }

  lemma GuardedFive<S, E>(next: (S, E) -> S, s: S, a: E, b: E, c: E, d: E, e: E, guard: (S, E) -> bool)
    ensures Guarded(next, s, [a, b, c, d, e], guard) <==>
      guard(s, a) && guard(next(s, a), b) && guard(next(next(s, a), b), c) && guard(next(next(next(s, a), b), c), d) && guard(next(next(next(next(s, a), b), c), d), e)
  {
    assert [a, b, c, d, e][1..] == [b, c, d, e];
    GuardedFour(next, next(s, a), b, c, d, e, guard);
  }

  lemma {:induction false} ReachedConcat<S, E>(next: (S, E) -> S, s: S, es: seq<E>, fs: seq<E>)
    ensures Reached(next, s, es + fs) == Reached(next, Reached(next, s, es), fs)
    decreases |es|
  {
    if es == [] {
      assert es + fs == fs;
    } else {
      assert (es + fs)[1..] == es[1..] + fs;
      ReachedConcat(next, next(s, es[0]), es[1..], fs);
    }
  }

  lemma {:induction false} GuardedConcat<S, E>(next: (S, E) -> S, s: S, es: seq<E>, fs: seq<E>, guard: (S, E) -> bool)
    ensures Guarded(next, s, es + fs, guard) <==> Guarded(next, s, es, guard) && Guarded(next, Reached(next, s, es), fs, guard)
    decreases |es|
  {
    if es == [] {
      assert es + fs == fs;
    } else {
      assert (es + fs)[1..] == es[1..] + fs;
      GuardedConcat(next, next(s, es[0]), es[1..], fs, guard);
    }
  }

  lemma {:induction false} ThroughoutEnd<S, E>(next: (S, E) -> S, s: S, events: seq<E>, p: S -> bool)
    requires Throughout(next, s, events, p)
    ensures p(Reached(next, s, events))
    decreases |events|
  {
    if events != [] {
      ThroughoutEnd(next, next(s, events[0]), events[1..], p);
    }
  }

  /** What every event keeps holds at the end. */
  lemma {:induction false} Kept<S(!new), E(!new)>(next: (S, E) -> S, s: S, events: seq<E>, inv: S -> bool)
    requires inv(s) && forall x, e | inv(x) :: inv(next(x, e))
    ensures inv(Reached(next, s, events))
    decreases |events|
  {
    if events != [] {
      Kept(next, next(s, events[0]), events[1..], inv);
    }
  }

  /** A guard that is exact for one event is exact for runs. */
  lemma {:induction false} ThroughoutIff<S(!new), E(!new)>(
      next: (S, E) -> S, s: S, events: seq<E>, inv: S -> bool, p: S -> bool, guard: (S, E) -> bool)
    requires inv(s) && p(s)
    requires forall x, e | inv(x) :: inv(next(x, e))
    requires forall x, e | inv(x) && p(x) :: p(next(x, e)) <==> guard(x, e)
    ensures Throughout(next, s, events, p) <==> Guarded(next, s, events, guard)
    decreases |events|
  {
    if events != [] {
      var s' := next(s, events[0]);
      if p(s') {
        ThroughoutIff(next, s', events[1..], inv, p, guard);
      } else {
        assert !Throughout(next, s', events[1..], p);
      }
    }
  }
}
