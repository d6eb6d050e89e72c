/** A caller's context, as what it is found to be at each moment that it is looked at. */
module Context {
  /** At some moment the context is found cancelled. */
  ghost predicate CallerLeaves(gone: nat -> bool) {
    exists k: nat :: gone(k)
  }

  lemma IsGone(gone: nat -> bool, k: nat)
    requires gone(k)
    ensures CallerLeaves(gone)
  {
  }
}
