# JTuple core: triples and N-tuples

A model of the two tuple variants of the JTuple library, package
`com.github.sd4324530.jtuple`:

- `Tuple3<A, B, C>`, an immutable triple with three named `final` slots
  (`first`, `second`, `third`), built either from three explicit values or from
  a list (first three entries, padded with nulls, longer lists truncated), and
  its `swap()`, which returns a new triple in reverse order;
- `TupleN`, an immutable tuple of any arity, built from an argument array or a
  list, and its `swap()`, which allocates a fresh array of `size()` slots and
  fills slot `length - 1 - index` with element `index` while traversing the
  receiver with `forEachWithIndex`.

Both are `datatype` values, so a tuple can never change after it is built and
`swap()` cannot touch its receiver. A null reference is `Option.None`. A factory
handed a null list or array returns `Result.Failure(NullReference)` and builds
no tuple. A tuple's contents are the sequence passed to the base constructor:
`Tuple3.Elements` for a triple, the `elements` field for an N-tuple, whose
size is `TupleN.Size`. The module `Tuple` holds the reversal of such a
sequence, which is what `swap()` computes (`Tuple.Reversed`, defined by
recursion and independently of the index arithmetic in `TupleN.swap`).
`TupleN.Swap` is a method over an `array` with a loop, as in the source. The
other operations are functions.

The factories call `Objects.requireNonNull`, which throws
`NullPointerException`, so the model names the error `NullReference`.

## Model

| member | source | states |
|---|---|---|
| `Tuple3.Elements` | src/main/java/com/github/sd4324530/jtuple/Tuple3.java:21 | the contents a triple hands to the base constructor are three slots, so its size is 3 |
| `Tuple3.With` | src/main/java/com/github/sd4324530/jtuple/Tuple3.java:39-41 | the explicit factory always succeeds, for null slots too, and keeps each value in its own slot |
| `Tuple3.WithSize` | src/main/java/com/github/sd4324530/jtuple/Tuple3.java:20-25 | the contents handed to the base class are exactly `[first, second, third]`, so the size is 3 |
| `Tuple3.WithList` | src/main/java/com/github/sd4324530/jtuple/Tuple3.java:54-65 | fails exactly when the list is null; otherwise the three slots are the list padded with three nulls and cut to length 3 |
| `Tuple3.WithListShort` | src/main/java/com/github/sd4324530/jtuple/Tuple3.java:56-63 | a list of fewer than three entries fills the leading slots in order and leaves the rest null; the empty list gives three nulls |
| `Tuple3.WithListLong` | src/main/java/com/github/sd4324530/jtuple/Tuple3.java:64 | a list of three or more entries gives `(l[0], l[1], l[2])`, and appending entries to it changes nothing |
| `Tuple3.WithListExample` | src/main/java/com/github/sd4324530/jtuple/Tuple3.java:54-65 | the list `[10, 20]` gives the triple `(10, 20, null)` |
| `Tuple3.Swap` | src/main/java/com/github/sd4324530/jtuple/Tuple3.java:73-75 | for any slot types, `swap()` of `(a, b, c)` is `(c, b, a)`: the first slot of the result is the receiver's third, the middle slot stays, the third is the receiver's first |
| `Tuple3.SwapReverses` | src/main/java/com/github/sd4324530/jtuple/Tuple3.java:73-75 | seen as a sequence of elements, the swapped triple's contents are the reversal of the receiver's contents |
| `Tuple3.SwapTwice` | src/main/java/com/github/sd4324530/jtuple/Tuple3.java:73-75 | swapping twice gives a triple equal to the original |
| `Tuple3.SwapExample` | src/main/java/com/github/sd4324530/jtuple/Tuple3.java:73-75 | `(1, "a", true)` swaps to `(true, "a", 1)` |
| `Tuple.Reversed` | src/main/java/com/github/sd4324530/jtuple/TupleN.java:27-29 | the reversal has the input's length and holds element `n-1-i` of the input at index `i` |
| `Tuple.ReversedTwice` | src/main/java/com/github/sd4324530/jtuple/TupleN.java:26-30 | reversing twice gives back the original sequence |
| `TupleN.With` | src/main/java/com/github/sd4324530/jtuple/TupleN.java:39-42 | fails exactly when the argument array is null; otherwise the size is the argument count and the elements are the arguments in order, none giving the empty tuple |
| `TupleN.WithList` | src/main/java/com/github/sd4324530/jtuple/TupleN.java:51-54 | fails exactly when the list is null; otherwise the size is the list's size and the elements are its entries in order |
| `TupleN.Swapped` | src/main/java/com/github/sd4324530/jtuple/TupleN.java:26-30 | the swapped tuple has the receiver's size and holds element `i` of the receiver at index `size-1-i` |
| `TupleN.Swap` | src/main/java/com/github/sd4324530/jtuple/TupleN.java:26-30 | filling a fresh array of `size()` slots at `length-1-index` for every index yields a tuple of the same size that is the reversal of the receiver |
| `TupleN.SwapTwice` | src/main/java/com/github/sd4324530/jtuple/TupleN.java:26-30 | swapping twice gives back the original element sequence |
| `TupleN.SwapExample` | src/main/java/com/github/sd4324530/jtuple/TupleN.java:26-30 | `TupleN.with(1, 2, 3, 4).swap()` equals `TupleN.with(4, 3, 2, 1)` |

## Left out

- The base class `Tuple` is not part of this model: its `get`, `equals`, `hashCode`, `toString` and iterator are not modelled. Only the facts the two variants rely on are: the contents are the sequence passed to the base constructor, `size()` is its length, and `forEachWithIndex` visits every `(index, element)` pair in order (the loop in `TupleN.Swap`).
- TupleN.Size: is the model's definition of the base-class `size()`, the element count, which the contracts of `With`, `WithList`, `Swapped` and `Swap` use; the base class is not part of this model, so this is assumed, not proved.
- Tuple3.WithSize: states the contents only for a triple whose slots share one type, which is how the base class holds them after erasure (as `Object`s).
- Tuple3.WithList: reads all list entries at one element type; the unchecked casts `(A) list.get(i)` of the source have no runtime effect under erasure.
- The exception type and message of `requireNonNull` are reduced to the single error `NullReference`.
- Whether `with(Object...)` keeps the caller's array and whether `list.toArray()` copies are not modelled: both depend on base-class and JDK code outside this model. Tuples are values here, so no aliasing can arise.
- Thread safety is not modelled: there is no concurrency, and immutability follows from tuples being values.
- Reference identity is not modelled: that `swap()` returns a new instance and leaves the receiver's `final` fields unchanged holds trivially of values, so no lemma states it.
