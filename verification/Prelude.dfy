/** What several parts of the project share. */
module Prelude {
  datatype Option<+T> = None | Some(value: T)

  /** Proofs unfold a predicate stated under a key only where they mention one. */
  predicate Key(k: int) { true }
}
