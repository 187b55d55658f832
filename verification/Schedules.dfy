/**
 Runs of a step machine: a schedule is a sequence of steps, each of which the
 state before it allows.
 */
module Schedules {

  datatype Machine<!State, !Step> = Machine(allows: (State, Step) -> bool, next: (State, Step) -> State)
  {
    predicate Valid(s: State, steps: seq<Step>)
      decreases |steps|
    {
      steps != [] ==> allows(s, steps[0]) && Valid(next(s, steps[0]), steps[1..])
    }

    function Run(s: State, steps: seq<Step>): State
      requires Valid(s, steps)
      decreases |steps|
    {
      if steps == [] then s else Run(next(s, steps[0]), steps[1..])
    }

    /** Every state of the run, the first and the last included, satisfies `holds`. */
    predicate Always(s: State, steps: seq<Step>, holds: State -> bool)
      requires Valid(s, steps)
      decreases |steps|
    {
      holds(s) && (steps != [] ==> Always(next(s, steps[0]), steps[1..], holds))
    }

    /** Every step of the run satisfies `holds` in the state before it. */
    predicate Throughout(s: State, steps: seq<Step>, holds: (State, Step) -> bool)
      requires Valid(s, steps)
      decreases |steps|
    {
      steps != [] ==> holds(s, steps[0]) && Throughout(next(s, steps[0]), steps[1..], holds)
    }

    /** The schedule is valid and ends there. */
    ghost predicate Reaches(s: State, steps: seq<Step>, end: State) {
      Valid(s, steps) && Run(s, steps) == end
    }

    lemma Prepend(s: State, step: Step, s': State, rest: seq<Step>, end: State)
      requires allows(s, step) && next(s, step) == s' && Reaches(s', rest, end)
      ensures Reaches(s, [step] + rest, end)
    {
      assert ([step] + rest)[1..] == rest;
    }

    lemma {:induction false} Join(s: State, a: seq<Step>, mid: State, b: seq<Step>, end: State)
      requires Reaches(s, a, mid) && Reaches(mid, b, end)
      ensures Reaches(s, a + b, end)
      decreases |a|
    {
      if a == [] {
        assert a + b == b;
      } else {
        var s' := next(s, a[0]);
        Join(s', a[1..], mid, b, end);
        Prepend(s, a[0], s', a[1..] + b, end);
        assert [a[0]] + (a[1..] + b) == a + b;
      }
    }
  }

  /** A number above every size in the sequence. */
  lemma {:induction false} Above<T>(s: seq<T>, size: T -> nat) returns (bound: nat)
    ensures forall x | x in s :: size(x) < bound
  {
    bound := 0;
    if s != [] {
      var init, last := s[..|s| - 1], s[|s| - 1];
      var largest := Above(init, size);
      bound := if largest <= size(last) then size(last) + 1 else largest;
      assert s == init + [last];
    }
  }
}
