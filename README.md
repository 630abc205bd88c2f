# Owned integer buffer (`oop::DynamicArray`, `oop::DynamicArrayVector`)

This project models the header `src/DynamicArray.h` of a small C++ teaching
repository. The header has two integer array classes with the same surface:

- `DynamicArray` owns a raw heap buffer `ptr` of `arrSize` ints. It has two
  fill constructors, a deep-copying copy constructor and copy assignment, a
  move constructor and move assignment that hand the buffer over and leave
  the source with a null buffer and size 0, `size()`, a mutable
  `operator[]`, concatenation with `operator+`, and `operator<<`, which
  writes `[e0, e1, ...]`.
- `DynamicArrayVector` offers the same operations over a `std::vector<int>`.

The model is imperative, as the source is. `Oop.DynamicArray` is a class
with the fields `ptr: array?<int>` (null after a move) and `arrSize`. A
predicate `Valid()` ties the two together, and the ghost function
`Contents()` gives the elements as a `seq<int>`. Every constructor and
method states the new `ptr`, `arrSize` and `Contents()`. A copy states that
its buffer is `fresh`, so it is a deep copy. A move states that the target's
buffer is the source's old buffer, so it is a transfer. The element loops of
the source are `while` loops with invariants.

`Oop.DynamicArrayVector` keeps the vector as a sequence field named
`elements`, because `array` is a Dafny keyword. Its methods replace that
field.

The text `operator<<` writes is specified once, in module `Rendering`.
`Rendered(s)` is `[`, then the decimal text of each element with `", "`
between neighbours, then `]`. `DynamicArray.Render` is proved to produce
exactly `Rendered(Contents())`, and `DynamicArrayVector.Render` exactly
`Rendered(elements)`. Module `Decimal` models how `std::ostream`
writes an `int` with default flags. The function `ParseRendered` reads
rendered text back, and the lemma `RenderedRoundTrip` shows that it recovers
the elements, so the brackets and separators are unambiguous.

Module `Scenarios` contains client methods. They show what the contracts
alone let a caller conclude: copies are independent in both directions, and
the cases of `tests/test_dynamicArray.cpp` hold. The methods
`TestConstructors`, `TestCopy`, `TestMove`, `TestAddition`,
`TestStreamInsertion` and `TestElementAccess` follow the test cases at
tests/test_dynamicArray.cpp:7-93. They include the `[5, 5, 5]` rendering, the
`[1, 1, 1, 2, 2]` concatenation, the emptied move source, and
self-assignment.

Files: `option.dfy` (module `Options`), `decimal.dfy` (`Decimal`),
`rendering.dfy` (`Rendering`), `dynamic_array.dfy` (`Oop`, both classes),
`scenarios.dfy` (`Scenarios`).

## Model

| member | source | states |
|---|---|---|
| `Oop.DynamicArray.constructor` | src/DynamicArray.h:115-117 | `DynamicArray(n)` for `n >= 0`: a new buffer, `arrSize == n`, every element 0 |
| `Oop.DynamicArray.Filled` | src/DynamicArray.h:126-131 | `DynamicArray(n, v)` for `n >= 0`: a new buffer, `arrSize == n`, every element `v`; the fill loop keeps "elements before `i` are `v`" |
| `Oop.DynamicArray.Copy` | src/DynamicArray.h:146-151 | the copy constructor: same size and the same element at every index, in freshly allocated storage |
| `Oop.DynamicArray.CopyAssign` | src/DynamicArray.h:159-168 | copy assignment: afterwards the size and elements equal the other's. A self-assignment keeps the same buffer, size and contents. Otherwise the buffer is fresh and the other object is unchanged |
| `Oop.DynamicArray.Move` | src/DynamicArray.h:175-178 | the move constructor: takes the source's buffer itself (no element copy), size and contents; the source is left with a null buffer, size 0 and no elements, and is still valid |
| `Oop.DynamicArray.MoveAssign` | src/DynamicArray.h:185-193 | move assignment: a self-move changes neither buffer nor size. Otherwise the target takes the source's buffer, size and contents, and the source is left empty with a null buffer |
| `Oop.DynamicArray.Size` | src/DynamicArray.h:200-202 | `size()` is the number of elements |
| `Oop.DynamicArray.Get` | src/DynamicArray.h:210-212 | reading `a[i]` for `0 <= i < size()` gives element `i` |
| `Oop.DynamicArray.Set` | src/DynamicArray.h:210-212 | writing `a[i] = x` changes element `i` to `x` and nothing else: same buffer, same size, other elements unchanged |
| `Oop.DynamicArray.Concat` | src/DynamicArray.h:220-233 | `a + b` is a new array in fresh storage of size `a.size() + b.size()` whose elements are `a`'s followed by `b`'s; neither operand can change (no modifies clause) |
| `Oop.DynamicArray.Render` | src/DynamicArray.h:242-253 | `os << a` writes exactly `Rendered(Contents())` |
| `Oop.DynamicArrayVector.constructor` | src/DynamicArray.h:34 | `DynamicArrayVector(n)` for `n >= 0`: `n` elements, all 0 |
| `Oop.DynamicArrayVector.Filled` | src/DynamicArray.h:40 | `DynamicArrayVector(n, v)` for `n >= 0`: `n` elements, all `v` |
| `Oop.DynamicArrayVector.Size` | src/DynamicArray.h:46-48 | `size()` is the vector's length |
| `Oop.DynamicArrayVector.Get` | src/DynamicArray.h:55-58 | reading `v[i]` for `0 <= i < size()` gives element `i` |
| `Oop.DynamicArrayVector.Set` | src/DynamicArray.h:55-58 | writing `v[i] = x` changes element `i` to `x` and nothing else |
| `Oop.DynamicArrayVector.Concat` | src/DynamicArray.h:65-75 | `a + b`, built by inserting `a`'s elements into an empty vector and then `b`'s at its end, is a fresh object holding `a`'s elements followed by `b`'s |
| `Oop.DynamicArrayVector.Render` | src/DynamicArray.h:83-94 | `os << v` writes exactly `Rendered(elements)` |
| `Rendering.Rendered` | src/DynamicArray.h:242-253 | the whole text written for an array: it opens with `[` and closes with `]`, and between them stand the element texts joined by `", "` |
| `Decimal.IntToString` | src/DynamicArray.h:245 | the text `os << x` writes for one element; it is never empty (its digits and sign are stated by `IntToStringChars`) |
| `Rendering.RenderedPrefixStep` | src/DynamicArray.h:244-249 | one pass of the output loop (element `i`, then `", "` unless `i` is the last index) extends the text written for the first `i` elements to that for the first `i + 1` |
| `Rendering.RenderedPrefixDone` | src/DynamicArray.h:250 | the closing `]` after the last element completes `Rendered` |
| `Rendering.RenderedEmpty` | src/DynamicArray.h:243-250 | an empty array is written as `[]` |
| `Rendering.RenderedThreeFives` | tests/test_dynamicArray.cpp:77-82 | the elements of `DynamicArray(3, 5)` are written as `[5, 5, 5]` |
| `Rendering.NoTrailingSeparator` | src/DynamicArray.h:246-248 | for a non-empty array the character before the closing `]` is a digit, so no separator trails the last element |
| `Rendering.RenderedRoundTrip` | src/DynamicArray.h:242-253 | `ParseRendered(Rendered(s)) == Some(s)`: the text lets every element be read back, in order |
| `Rendering.RenderedInjective` | src/DynamicArray.h:242-253 | arrays with different elements are written differently |
| `Decimal.IntToStringChars` | src/DynamicArray.h:245 | the text of an element is digits, with a `-` in front exactly when it is negative |
| `Decimal.NatToStringDigits` | src/DynamicArray.h:245 | the digits of a magnitude: all decimal digits, with a leading `0` only for 0 |
| `Decimal.IntToStringRoundTrip` | src/DynamicArray.h:245 | the decimal text of an element reads back as the same element |
| `Decimal.IntToStringInjective` | src/DynamicArray.h:245 | different elements have different texts |
| `Scenarios.WriteToCopy` | src/DynamicArray.h:146-151 | after `b(a)`, writing `b[i]` leaves `a` as it was |
| `Scenarios.WriteToOriginal` | src/DynamicArray.h:146-151 | after `b(a)`, writing `a[i]` leaves `b` as it was |
| `Scenarios.WritesAfterCopyAssign` | src/DynamicArray.h:159-168 | after `b = a`, writes to `a` and to `b` at the same index do not reach each other |

## Left out

- The destructor (src/DynamicArray.h:137-139) and every release of memory. Dafny is garbage collected, so freeing a buffer changes no element.
- Both assignment operators overwrite `ptr` without `delete[]`, so the old buffer leaks. A leak changes no element, so the model only notes it in comments.
- Negative sizes. `new int[n]` throws, and `std::vector(n, v)` throws after converting the size to an unsigned value. Every constructor requires `size >= 0`.
- Out-of-range indices. `operator[]` does no bounds check, so such an access is undefined behaviour. `Get` and `Set` require `0 <= i < size()`.
- `operator[]` returns a mutable reference. The model splits it into a read, `Get`, and a write, `Set`.
- Allocation failure (`std::bad_alloc`). It is not modelled; every allocation succeeds.
- Fixed-width integers. Elements, sizes and `arrSize + other.arrSize` are unbounded `int`. Nothing in the core does arithmetic on elements, and overflow of the size sum is not modelled.
- `DynamicArrayVector::size()` converts a `size_t` to `int`. The model does not capture the truncation this conversion would cause beyond `INT_MAX`.
- `DynamicArrayVector`'s unused members `ptr` and `arrSize` (src/DynamicArray.h:23-24).
- The copy and move operations that C++ generates implicitly for `DynamicArrayVector`.
- Stream plumbing. `operator<<` is modelled as a method that returns the written text, not as writes to a `std::ostream` that is then returned for chaining. The assignment operators' `return *this` is not modelled either.
- The returned `result` of `operator+` is passed back as a fresh object. Copy elision and the move on return are not modelled.
- src/student_class.cpp, src/rule_of_zero.cpp and src/dynamicArray_class.cpp are not part of this model (demonstration programs with random data, floating-point grades and console output). tests/test_dynamicArray.cpp is modelled only by the client methods in `Scenarios`.
