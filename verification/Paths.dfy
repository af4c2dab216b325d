/** Paths of a state machine whose steps are a partial function. */
module Paths {
  import opened Options

  /** `acts` can be taken from s, one after the other, and end in s'. */
  ghost predicate Leads<S(!new), A>(step: (S, A) -> Option<S>, s: S, acts: seq<A>, s': S)
    decreases |acts|
  {
    if acts == [] then s == s'
    else step(s, acts[0]).Some? && Leads(step, step(s, acts[0]).value, acts[1..], s')
  }

  /** One more step on a path. */
  lemma {:induction false} LeadsOneMore<S(!new), A>(step: (S, A) -> Option<S>, s: S, acts: seq<A>, s': S, a: A)
    requires Leads(step, s, acts, s') && step(s', a).Some?
    ensures Leads(step, s, acts + [a], step(s', a).value)
    decreases |acts|
  {
    if acts == [] {
      assert [a][1..] == [];
    } else {
      assert (acts + [a])[1..] == acts[1..] + [a];
      LeadsOneMore(step, step(s, acts[0]).value, acts[1..], s', a);
    }
  }
}
