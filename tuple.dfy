/** The reversal of a tuple's element sequence, which is what `swap` computes
    for every variant. The contents themselves are `Tuple3.Elements` and the
    `TupleN.elements` field; the size is `TupleN.Size`. */
module Tuple {

  /** The reversal of `s`, defined independently of any index arithmetic:
      the last element first, followed by the reversal of the rest. */
  function Reversed<T>(s: seq<T>): (r: seq<T>)
    ensures |r| == |s|
    ensures forall i :: 0 <= i < |s| ==> r[i] == s[|s| - 1 - i]
    decreases |s|
  {
    if |s| == 0 then [] else [s[|s| - 1]] + Reversed(s[..|s| - 1])
  }

  /** Reversing twice gives back the original sequence. */
  lemma ReversedTwice<T>(s: seq<T>)
    ensures Reversed(Reversed(s)) == s
  {
  }
}
