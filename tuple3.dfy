/** The immutable triple: three named `final` slots, each of its own type and
    each possibly null. */
module Tuple3 {
  import opened Wrappers
  import Tuple

  /** A triple; `None` in a slot is a null slot. Being a value, a triple can
      never be changed after construction. */
  datatype Tuple3<A, B, C> = Tuple3(first: Option<A>, second: Option<B>, third: Option<C>)

  /** The element sequence handed to the base constructor,
      `super(first, second, third)`, for a triple whose slots share one type. */
  function Elements<V>(t: Tuple3<V, V, V>): (s: seq<Option<V>>)
    ensures |s| == 3
  {
    [t.first, t.second, t.third]
  }

  /** The explicit factory `with(first, second, third)`: it always succeeds,
      whether or not some slots are null, and keeps each value in its slot. */
  function With<A, B, C>(first: Option<A>, second: Option<B>, third: Option<C>): (t: Tuple3<A, B, C>)
    ensures t.first == first && t.second == second && t.third == third
  {
    Tuple3(first, second, third)
  }

  /** The contents and size the base class holds for a triple built by `with`.
      Stated for a triple whose slots share one type, which is how the base
      class sees them after erasure (as `Object`s). */
  lemma WithSize<V>(first: Option<V>, second: Option<V>, third: Option<V>)
    ensures Elements(With(first, second, third)) == [first, second, third]
  {
  }

  /** The list factory `with(list)`, the elements being read at a single
      element type: a null list fails; otherwise the slots are the first three
      entries of the list, padded with nulls when the list is shorter. */
  function WithList<V>(list: Option<seq<Option<V>>>): (r: Result<Tuple3<V, V, V>>)
    ensures r.Failure? <==> list.None?
    ensures r.Ok? ==> Elements(r.value) == (list.value + [None, None, None])[..3]
  {
    match list
    case None => Failure(NullReference)
    case Some(l) =>
      if |l| == 0 then Ok(Tuple3(None, None, None))
      else if |l| == 1 then Ok(Tuple3(l[0], None, None))
      else if |l| == 2 then Ok(Tuple3(l[0], l[1], None))
      else Ok(Tuple3(l[0], l[1], l[2]))
  }

  /** A list shorter than three fills the leading slots in order and leaves the
      others null; the empty list gives three null slots. */
  lemma WithListShort<V>(l: seq<Option<V>>)
    requires |l| < 3
    ensures WithList(Some(l)).Ok?
    ensures forall i :: 0 <= i < |l| ==> Elements(WithList(Some(l)).value)[i] == l[i]
    ensures forall i :: |l| <= i < 3 ==> Elements(WithList(Some(l)).value)[i] == None
    ensures l == [] ==> WithList(Some(l)) == Ok(With(None, None, None))
  {
  }

  /** A list of three or more entries gives its first three entries, and
      whatever follows index 2 has no effect. */
  lemma WithListLong<V>(l: seq<Option<V>>, rest: seq<Option<V>>)
    requires |l| >= 3
    ensures WithList(Some(l)) == Ok(With(l[0], l[1], l[2]))
    ensures WithList(Some(l + rest)) == WithList(Some(l))
  {
  }

  /** `swap()`: a new triple holding the receiver's slots in reverse order. */
  function Swap<A, B, C>(t: Tuple3<A, B, C>): (r: Tuple3<C, B, A>)
    ensures r.first == t.third && r.second == t.second && r.third == t.first
  {
    With(t.third, t.second, t.first)
  }

  /** Seen as a sequence of elements, swapping a triple reverses its contents,
      as `swap()` does for a tuple of any arity. */
  lemma SwapReverses<V>(t: Tuple3<V, V, V>)
    ensures Elements(Swap(t)) == Tuple.Reversed(Elements(t))
  {
  }

  /** Swapping twice gives back a triple equal to the original. */
  lemma SwapTwice<A, B, C>(t: Tuple3<A, B, C>)
    ensures Swap(Swap(t)) == t
  {
  }

  /** `Tuple3.with(1, "a", true).swap()` equals `Tuple3.with(true, "a", 1)`. */
  lemma SwapExample()
    ensures Swap(With(Some(1), Some("a"), Some(true))) == With(Some(true), Some("a"), Some(1))
  {
  }

  /** `Tuple3.with(List.of(10, 20))` equals `Tuple3.with(10, 20, null)`. */
  lemma WithListExample()
    ensures WithList(Some([Some(10), Some(20)])) == Ok(With(Some(10), Some(20), None))
  {
  }
}
