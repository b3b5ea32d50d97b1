/** Arithmetic shared by the axis and date layouts, which place things at multiples of a band width. */
module Steps {
  /** The (i + 1)-th multiple of a step is one step past the i-th. */
  lemma NextMultiple(step: real, i: int)
    ensures step * ((i + 1) as real) == step * (i as real) + step
  {
  }
}
