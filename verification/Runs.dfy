/** Runs of any step relation in which steps bring new ids: one run may continue another. */
module Runs {
  type Ids = set<string>

  ghost predicate Valid<S(!new), A(!new)>(apply: (S, A) -> S, enabled: (S, Ids, A) -> bool, ids: A -> Ids, s: S,
                          used: Ids, steps: seq<A>)
    decreases |steps|
  {
    steps == [] ||
    (enabled(s, used, steps[0]) && Valid(apply, enabled, ids, apply(s, steps[0]), used + ids(steps[0]), steps[1..]))
  }

  function After<S, A>(apply: (S, A) -> S, s: S, steps: seq<A>): S
    decreases |steps|
  {
    if steps == [] then s else After(apply, apply(s, steps[0]), steps[1..])
  }

  function IdsOf<A>(ids: A -> Ids, steps: seq<A>): Ids {
    if steps == [] then {} else ids(steps[0]) + IdsOf(ids, steps[1..])
  }

  /** With fewer ids in use more is allowed. */
  ghost predicate Monotone<S(!new), A(!new)>(enabled: (S, Ids, A) -> bool) {
    forall s, few, many, a :: few <= many && enabled(s, many, a) ==> enabled(s, few, a)
  }

  lemma {:induction false} FewerUsed<S(!new), A(!new)>(apply: (S, A) -> S, enabled: (S, Ids, A) -> bool, ids: A -> Ids,
                                                      s: S, few: Ids, many: Ids, steps: seq<A>)
    requires Monotone(enabled) && few <= many && Valid(apply, enabled, ids, s, many, steps)
    ensures Valid(apply, enabled, ids, s, few, steps)
    decreases |steps|
  {
    if steps != [] {
      FewerUsed(apply, enabled, ids, apply(s, steps[0]), few + ids(steps[0]), many + ids(steps[0]), steps[1..]);
    }
  }

  /** A run may be continued by a run whose ids are new to it. */
  lemma {:induction false} Append<S(!new), A(!new)>(apply: (S, A) -> S, enabled: (S, Ids, A) -> bool, ids: A -> Ids,
                                                   s: S, used: Ids, a: seq<A>, b: seq<A>, more: Ids)
    requires Monotone(enabled) && Valid(apply, enabled, ids, s, used, a) && used + IdsOf(ids, a) <= more
    requires Valid(apply, enabled, ids, After(apply, s, a), more, b)
    ensures Valid(apply, enabled, ids, s, used, a + b)
    ensures After(apply, s, a + b) == After(apply, After(apply, s, a), b)
    ensures IdsOf(ids, a + b) == IdsOf(ids, a) + IdsOf(ids, b)
    decreases |a|
  {
    if a == [] {
      assert a + b == b;
      FewerUsed(apply, enabled, ids, s, used, more, b);
    } else {
      assert (a + b)[1..] == a[1..] + b;
      Append(apply, enabled, ids, apply(s, a[0]), used + ids(a[0]), a[1..], b, more);
    }
  }
}
