/** Finite runs of a transition relation. */
module Runs {
  /** A finite run of a relation: r(states[i], states[i + 1], actions[i]). */
  ghost predicate Fragment<S, A>(r: (S, S, A) -> bool, states: seq<S>, actions: seq<A>, s: S, s': S) {
    && |states| == |actions| + 1 && states[0] == s && states[|actions|] == s'
    && forall i :: 0 <= i < |actions| ==> r(states[i], states[i + 1], actions[i])
  }

  ghost predicate Joined<S(!new), A(!new)>(r: (S, S, A) -> bool, s: S, s': S) {
    exists states, actions :: Fragment(r, states, actions, s, s')
  }

  lemma JoinedThen<S(!new), A(!new)>(r: (S, S, A) -> bool, s: S, s': S, s'': S, a: A)
    requires Joined(r, s, s') && r(s', s'', a)
    ensures Joined(r, s, s'')
  {
    var states, actions :| Fragment(r, states, actions, s, s');
    var states', actions' := states + [s''], actions + [a];
    forall i | 0 <= i < |actions'| ensures r(states'[i], states'[i + 1], actions'[i]) {
      if i < |actions| { assert r(states[i], states[i + 1], actions[i]); }
    }
    assert Fragment(r, states', actions', s, s'');
  }

  lemma JoinedTrans<S(!new), A(!new)>(r: (S, S, A) -> bool, s: S, s': S, s'': S)
    requires Joined(r, s, s') && Joined(r, s', s'')
    ensures Joined(r, s, s'')
  {
    var states1, actions1 :| Fragment(r, states1, actions1, s, s');
    var states2, actions2 :| Fragment(r, states2, actions2, s', s'');
    var states, actions := states1 + states2[1..], actions1 + actions2;
    forall i | 0 <= i < |actions| ensures r(states[i], states[i + 1], actions[i]) {
      if i < |actions1| {
        assert r(states1[i], states1[i + 1], actions1[i]);
      } else {
        var k := i - |actions1|;
        assert r(states2[k], states2[k + 1], actions2[k]);
        assert states[i] == states2[k];
      }
    }
    assert Fragment(r, states, actions, s, s'');
  }

  lemma JoinedStay<S(!new), A(!new)>(r: (S, S, A) -> bool, s: S)
    ensures Joined(r, s, s)
  {
    assert Fragment(r, [s], [], s, s);
  }
}
