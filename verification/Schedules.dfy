/** Schedules of a machine as picked by a function of the step number and the state. */
module Schedules {
  /** From its k-th step on, a schedule is the one that `pick` picks. */
  ghost predicate Plays<S(!new), A>(pick: (nat, S) -> A, step: (S, A) -> S, k: nat, s: S, actions: seq<A>)
    decreases |actions|
  {
    actions == [] || (actions[0] == pick(k, s) && Plays(pick, step, k + 1, step(s, actions[0]), actions[1..]))
  }

  function After<S, A>(step: (S, A) -> S, s: S, actions: seq<A>): S
    decreases |actions|
  {
    if actions == [] then s else After(step, step(s, actions[0]), actions[1..])
  }

  lemma {:induction false} PlaysOneMore<S(!new), A>(pick: (nat, S) -> A, step: (S, A) -> S, k: nat, s: S,
                                                    actions: seq<A>, a: A)
    requires Plays(pick, step, k, s, actions) && a == pick(k + |actions|, After(step, s, actions))
    ensures Plays(pick, step, k, s, actions + [a])
    decreases |actions|
  {
    if actions == [] {
      assert ([] + [a])[1..] == [];
    } else {
      PlaysOneMore(pick, step, k + 1, step(s, actions[0]), actions[1..], a);
      assert (actions + [a])[1..] == actions[1..] + [a];
    }
  }

  /** Of two schedules picked alike, the longer one begins with the shorter one. */
  lemma {:induction false} PlaysPrefix<S(!new), A>(pick: (nat, S) -> A, step: (S, A) -> S, k: nat, s: S, p: seq<A>,
                                                   q: seq<A>)
    requires Plays(pick, step, k, s, p) && Plays(pick, step, k, s, q) && |p| <= |q|
    ensures p == q[..|p|]
    decreases |p|
  {
    if p != [] {
      PlaysPrefix(pick, step, k + 1, step(s, p[0]), p[1..], q[1..]);
      assert p == [p[0]] + p[1..] && q[..|p|] == [q[0]] + q[1..][..|p| - 1];
    }
  }

  /** A schedule whose every action is what `pick` picks there. */
  lemma {:induction false} PlaysAll<S(!new), A>(pick: (nat, S) -> A, step: (S, A) -> S, k: nat, s: S, all: seq<A>)
    requires k <= |all|
    requires forall i: nat | k <= i < |all| :: all[i] == pick(i, After(step, s, all[k..i]))
    ensures Plays(pick, step, k, s, all[k..])
    decreases |all| - k
  {
    if k < |all| {
      assert all[k..k] == [];
      var t := step(s, all[k]);
      forall i: nat | k + 1 <= i < |all|
        ensures all[i] == pick(i, After(step, t, all[k + 1..i]))
      {
        assert all[k..i][0] == all[k] && all[k..i][1..] == all[k + 1..i];
      }
      PlaysAll(pick, step, k + 1, t, all);
      assert all[k..][0] == all[k] && all[k..][1..] == all[k + 1..];
    }
  }
}
