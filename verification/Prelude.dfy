/** The two result shapes every module of this project shares. */
module Prelude {

  /** A value that may be missing, such as an absent file or a JSON null. */
  datatype Option<+T> = None | Some(value: T)

  /** A computation that may raise. */
  datatype Result<+T> = Ok(value: T) | Raised

  function Reversed<T>(s: seq<T>): (r: seq<T>)
    ensures |r| == |s| && forall i :: 0 <= i < |s| ==> r[i] == s[|s| - 1 - i]
  {
    seq(|s|, i requires 0 <= i < |s| => s[|s| - 1 - i])
  }

  lemma ReversedTwice<T>(s: seq<T>)
    ensures Reversed(Reversed(s)) == s
  {
  }
}
