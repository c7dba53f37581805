/** Failure-compatible datatypes shared by every component. */
module Prelude {

  datatype Option<+T> = None | Some(value: T) {
    function GetOr(default: T): T {
      match this
      case Some(v) => v
      case None => default
    }
  }

  datatype Result<+T, +E> = Ok(value: T) | Err(error: E)

  /** The concatenation of a sequence of sequences, in order. */
  function Flatten<T>(parts: seq<seq<T>>): seq<T> {
    if parts == [] then [] else parts[0] + Flatten(parts[1..])
  }

  lemma Regroup<T>(a: seq<T>, b: seq<T>, c: seq<T>)
    ensures a + (b + c) == (a + b) + c
  {
  }

  /** The parts of a slice that is written as `a`, one element, and `b`. */
  lemma SliceParts<T>(s: seq<T>, i: nat, j: nat, end: nat, a: seq<T>, x: T, b: seq<T>)
    requires i <= end <= |s| && s[i..end] == a + [x] + b && j == i + |a|
    ensures j < end && s[i..j] == a && s[j] == x && s[j + 1..end] == b
  {
    var whole := s[i..end];
    assert |whole| == |a| + 1 + |b|;
    assert whole[..|a|] == a && whole[|a|] == x && whole[|a| + 1..] == b;
  }

  lemma HeadAndTail<T>(s: seq<T>)
    requires s != []
    ensures [s[0]] + s[1..] == s
  {
  }

  lemma InitAndLast<T>(s: seq<T>)
    requires s != []
    ensures s[..|s| - 1] + [s[|s| - 1]] == s
  {
  }
}
