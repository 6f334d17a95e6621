/**
 * The optional value used wherever the source returns `None` or an item, and
 * the sequence facts that the proofs cite by name rather than rederive.
 */
module Wrappers {

  datatype Option<+T> = None | Some(value: T) {

    /** The wrapped value, or `default` when there is none. */
    function GetOr(default: T): T {
      match this
      case Some(v) => v
      case None => default
    }
  }

  /** Concatenation regroups freely. */
  lemma AppendAssoc<T>(a: seq<T>, b: seq<T>, c: seq<T>)
    ensures a + (b + c) == (a + b) + c
  {
  }

  /**
   * The first two elements of a long enough sequence are in it; stated for
   * a caller that must name them before it knows the sequence is that long.
   */
  lemma FirstTwoIn<T>(s: seq<T>)
    ensures |s| >= 2 ==> s[0] in s && s[1] in s
  {
  }

  /** A sequence splits around its `m`-th element. */
  lemma SliceAround<T>(s: seq<T>, m: nat)
    requires m < |s|
    ensures s[..m + 1] == s[..m] + [s[m]]
    ensures s == s[..m + 1] + s[m + 1..]
  {
  }
}
