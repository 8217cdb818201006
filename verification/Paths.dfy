/** Sequences of steps of a step system, given by the relation of its steps */
module Paths {

  /** The steps lead from `s` to `s1`. */
  ghost predicate Leads<S(!new), T>(next: (S, T, S) -> bool, s: S, steps: seq<T>, s1: S)
    decreases |steps|
  {
    if steps == [] then s1 == s
    else exists mid :: next(s, steps[0], mid) && Leads(next, mid, steps[1..], s1)
  }

  lemma FirstStep<S(!new), T>(next: (S, T, S) -> bool, s: S, step: T, mid: S, steps: seq<T>, s1: S)
    requires next(s, step, mid) && Leads(next, mid, steps, s1)
    ensures Leads(next, s, [step] + steps, s1)
  {
    assert ([step] + steps)[1..] == steps;
  }

  lemma OneStep<S(!new), T>(next: (S, T, S) -> bool, s: S, step: T, s1: S)
    requires next(s, step, s1)
    ensures Leads(next, s, [step], s1)
  {
    assert Leads(next, s1, [], s1);
    FirstStep(next, s, step, s1, [], s1);
    assert [step] + [] == [step];
  }

  lemma {:induction false} LeadsOn<S(!new), T>(next: (S, T, S) -> bool, s: S, a: seq<T>, s1: S, b: seq<T>, s2: S)
    requires Leads(next, s, a, s1) && Leads(next, s1, b, s2)
    ensures Leads(next, s, a + b, s2)
    decreases |a|
  {
    if a == [] {
      assert a + b == b;
    } else {
      var mid :| next(s, a[0], mid) && Leads(next, mid, a[1..], s1);
      LeadsOn(next, mid, a[1..], s1, b, s2);
      FirstStep(next, s, a[0], mid, a[1..] + b, s2);
      assert [a[0]] + (a[1..] + b) == a + b;
    }
  }

  lemma ThenStep<S(!new), T>(next: (S, T, S) -> bool, s: S, a: seq<T>, s1: S, step: T, s2: S)
    requires Leads(next, s, a, s1) && next(s1, step, s2)
    ensures Leads(next, s, a + [step], s2)
  {
    OneStep(next, s1, step, s2);
    LeadsOn(next, s, a, s1, [step], s2);
  }

  /** The states that the steps go through */
  lemma {:induction false} StatesOf<S(!new), T>(next: (S, T, S) -> bool, s: S, steps: seq<T>, s1: S)
    returns (states: seq<S>)
    requires Leads(next, s, steps, s1)
    ensures |states| == |steps| + 1 && states[0] == s && states[|steps|] == s1
    ensures forall i :: 0 <= i < |steps| ==> next(states[i], steps[i], states[i + 1])
    decreases |steps|
  {
    if steps == [] {
      states := [s];
    } else {
      var mid :| next(s, steps[0], mid) && Leads(next, mid, steps[1..], s1);
      var rest := StatesOf(next, mid, steps[1..], s1);
      states := [s] + rest;
      forall i | 0 <= i < |steps| ensures next(states[i], steps[i], states[i + 1]) {
        if i > 0 {
          assert next(rest[i - 1], steps[1..][i - 1], rest[i]);
        }
      }
    }
  }
}
