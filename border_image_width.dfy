/** The `border-image-width` longhand as far as it is implemented: it holds
    no state, is not inherited, and accepts nothing but `inherit`. */
module BorderImageWidth {
  import opened Values

  const Inherited: bool := false

  /** The validator: a stateless test of the value. */
  predicate IsValid(value: Value)
  {
    value == Inherit
  }

  /** `inherit` is the one accepted value; every other token or list is
      rejected. */
  lemma AcceptsOnlyInherit(value: Value)
    ensures IsValid(value) <==> value == Inherit
  {
  }
}
