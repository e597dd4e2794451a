/** The variable-arity tuple: an immutable sequence of opaque, possibly null
    values whose length is fixed when it is built. */
module TupleN {
  import opened Wrappers
  import Tuple

  /** An N-tuple: its contents are the elements handed to the base constructor. */
  datatype TupleN<V> = TupleN(elements: seq<Option<V>>)

  /** `size()`: the element count. */
  function Size<V>(t: TupleN<V>): nat
  {
    |t.elements|
  }

  /** `with(args...)`: a null argument array fails; otherwise the arguments
      become the tuple's elements in order (none at all gives the empty tuple). */
  function With<V>(args: Option<seq<Option<V>>>): (r: Result<TupleN<V>>)
    ensures r.Failure? <==> args.None?
    ensures r.Ok? ==> Size(r.value) == |args.value|
    ensures r.Ok? ==> forall i :: 0 <= i < |args.value| ==> r.value.elements[i] == args.value[i]
  {
    match args
    case None => Failure(NullReference)
    case Some(a) => Ok(TupleN(a))
  }

  /** `withList(list)`: a null list fails; otherwise the list's entries, copied
      out with `toArray()`, become the tuple's elements in order. */
  function WithList<V>(list: Option<seq<Option<V>>>): (r: Result<TupleN<V>>)
    ensures r.Failure? <==> list.None?
    ensures r.Ok? ==> Size(r.value) == |list.value|
    ensures r.Ok? ==> forall i :: 0 <= i < |list.value| ==> r.value.elements[i] == list.value[i]
  {
    match list
    case None => Failure(NullReference)
    case Some(l) => With(Some(l))
  }

  /** The tuple `swap()` yields, as a value: same size, elements reversed. */
  function Swapped<V>(t: TupleN<V>): (r: TupleN<V>)
    ensures Size(r) == Size(t)
    ensures forall i :: 0 <= i < Size(t) ==> r.elements[Size(t) - 1 - i] == t.elements[i]
  {
    TupleN(Tuple.Reversed(t.elements))
  }

  /** `swap()`: allocates an array of `size()` null slots and, traversing the
      receiver with its index, stores element `index` in slot
      `length - 1 - index`; the filled array is then wrapped by `with`.
      The receiver is a value and cannot be changed. */
  method Swap<V>(t: TupleN<V>) returns (r: TupleN<V>)
    ensures Size(r) == Size(t)
    ensures forall i :: 0 <= i < Size(t) ==> r.elements[Size(t) - 1 - i] == t.elements[i]
    ensures r == Swapped(t)
  {
    var slots := new Option<V>[Size(t)];
    var index := 0;
    while index < Size(t)
      invariant 0 <= index <= slots.Length == Size(t)
      invariant forall k :: 0 <= k < index ==> slots[slots.Length - 1 - k] == t.elements[k]
    {
      slots[slots.Length - 1 - index] := t.elements[index];
      index := index + 1;
    }
    var wrapped := With(Some(slots[..]));
    r := wrapped.value;
  }

  /** Swapping twice gives back the original element sequence. */
  lemma SwapTwice<V>(t: TupleN<V>)
    ensures Swapped(Swapped(t)) == t
  {
  }

  /** `TupleN.with(1, 2, 3, 4).swap()` equals `TupleN.with(4, 3, 2, 1)`. */
  method SwapExample() returns (r: TupleN<int>)
    ensures r == With(Some([Some(4), Some(3), Some(2), Some(1)])).value
  {
    var t := With(Some([Some(1), Some(2), Some(3), Some(4)])).value;
    r := Swap(t);
  }
}
