/** The shapes the model uses for Python's `None`, raised exceptions and opaque names. */
module Wrappers {
  datatype Option<+T> = None | Some(value: T)

  datatype Result<+T> = Ok(value: T) | Err {
    predicate IsFailure() { Err? }
    function PropagateFailure<U>(): Result<U> requires Err? { Err }
    function Extract(): T requires Ok? { value }
  }

  // A value that is only ever compared with another one.
  datatype Token<+T> = Token(value: T)

  type Byte = x: int | 0 <= x < 256
  type Bytes = seq<Byte>

  const NEWLINE: Byte := 10

  function Join(chunks: seq<Bytes>): Bytes {
    if chunks == [] then [] else chunks[0] + Join(chunks[1..])
  }

  ghost predicate Distinct<T>(s: seq<T>) {
    forall i, j :: 0 <= i < j < |s| ==> s[i] != s[j]
  }

  // Something put in front of a concatenation is in front of its first part.
  lemma InFront<T>(x: seq<T>, a: seq<T>, b: seq<T>, xa: seq<T>, ab: seq<T>)
    requires xa == x + a && ab == a + b
    ensures x + ab == xa + b
  {
  }

  lemma SameFront<T>(x: seq<T>, a: seq<T>, b: seq<T>)
    ensures x + a <= x + b <==> a <= b
    ensures x + a == x + b <==> a == b
  {
    var xa, xb := x + a, x + b;
    assert xa[|x|..] == a && xb[|x|..] == b;
    if xa <= xb {
      assert a == xb[|x|..][..|a|];
    }
    if a <= b {
      assert xb[..|xa|] == xa;
    }
  }

  lemma OneMore<T>(s: seq<T>, n: nat, front: seq<T>)
    requires n < |s| && front == s[..n]
    ensures front + [s[n]] == s[..n + 1]
  {
  }

  lemma SubsetSize<T>(a: set<T>, b: set<T>)
    requires a <= b
    ensures |a| <= |b|
  {
    assert b == a + (b - a);
  }
}
