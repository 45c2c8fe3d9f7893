/** Option and Result values shared by every module of the model, and one fact about prefixes. */
module Outcomes {
  datatype Option<T> = None | Some(value: T)

  /** An operation that either yields a value or fails with a human-readable reason. */
  datatype Result<T> = Ok(value: T) | Err(reason: string)

  /** Growing a prefix of `s` by its next element gives the next prefix. */
  lemma PrefixSnoc<T>(s: seq<T>, k: nat, x: T)
    requires k < |s| && s[k] == x
    ensures s[..k + 1] == s[..k] + [x]
  {
  }
}
