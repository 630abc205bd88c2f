/**
 * The two integer arrays of the `oop` namespace.
 *
 * `DynamicArray` owns a heap buffer `ptr` of `arrSize` ints.  Copying
 * allocates a fresh buffer; moving hands the buffer over and leaves the
 * source with a null buffer and size 0.  `DynamicArrayVector` offers the same
 * surface over a vector, modelled as a sequence the object replaces.
 *
 * The abstract value of either array is the sequence of its elements:
 * `Contents()` for `DynamicArray`, the field `elements` for the vector.
 */
module Oop {
  import opened Decimal
  import opened Rendering

  class DynamicArray {
    /** The owned buffer; null only after the array was moved from. */
    var ptr: array?<int>
    var arrSize: int

    ghost predicate Valid()
      reads this
    {
      0 <= arrSize &&
      (ptr == null ==> arrSize == 0) &&
      (ptr != null ==> ptr.Length == arrSize)
    }

    /** The elements, in order. */
    ghost function Contents(): seq<int>
      reads this, ptr
    {
      if ptr == null then [] else ptr[..]
    }

    /** DynamicArray(size): size elements, all 0, in a new buffer. */
    constructor (size: int)
      requires size >= 0
      ensures Valid() && fresh(ptr)
      ensures arrSize == size && Contents() == seq(size, _ => 0)
    {
      arrSize := size;
      ptr := new int[size](_ => 0);
    }

    /** DynamicArray(size, value): size elements, all value, in a new buffer. */
    constructor Filled(size: int, value: int)
      requires size >= 0
      ensures Valid() && fresh(ptr)
      ensures arrSize == size && Contents() == seq(size, _ => value)
    {
      arrSize := size;
      ptr := new int[size];
      new;
      var i := 0;
      while i < arrSize
        invariant 0 <= i <= arrSize == ptr.Length
        invariant forall k :: 0 <= k < i ==> ptr[k] == value
        modifies ptr
      {
        ptr[i] := value;
        i := i + 1;
      }
    }

    /** Copy constructor: the same elements in a buffer of its own. */
    constructor Copy(other: DynamicArray)
      requires other.Valid()
      ensures Valid() && fresh(ptr)
      ensures arrSize == other.arrSize && Contents() == other.Contents()
    {
      arrSize := other.arrSize;
      ptr := new int[other.arrSize];
      new;
      var i := 0;
      while i < arrSize
        invariant 0 <= i <= arrSize == ptr.Length == other.arrSize
        invariant forall k :: 0 <= k < i ==> ptr[k] == other.ptr[k]
        modifies ptr
      {
        ptr[i] := other.ptr[i];
        i := i + 1;
      }
    }

    /**
     * Copy assignment.  Assigning an array to itself changes nothing;
     * otherwise this array gets the other's size and elements in a new
     * buffer.  (The old buffer is not released: the source leaks it, which
     * has no effect on any element here.)
     */
    method CopyAssign(other: DynamicArray)
      requires Valid() && other.Valid()
      modifies this
      ensures Valid()
      ensures arrSize == old(other.arrSize) && Contents() == old(other.Contents())
      ensures this == other ==> ptr == old(ptr)
      ensures this != other ==> fresh(ptr) && unchanged(other)
    {
      if this != other {
        arrSize := other.arrSize;
        ptr := new int[arrSize];
        var i := 0;
        while i < arrSize
          invariant 0 <= i <= arrSize == ptr.Length == other.arrSize
          invariant forall k :: 0 <= k < i ==> ptr[k] == other.ptr[k]
          modifies ptr
        {
          ptr[i] := other.ptr[i];
          i := i + 1;
        }
      }
    }

    /** Move constructor: takes the other's buffer itself and leaves the other empty. */
    constructor Move(other: DynamicArray)
      requires other.Valid()
      modifies other
      ensures Valid() && other.Valid()
      ensures ptr == old(other.ptr) && arrSize == old(other.arrSize)
      ensures Contents() == old(other.Contents())
      ensures other.ptr == null && other.arrSize == 0 && other.Contents() == []
    {
      ptr := other.ptr;
      arrSize := other.arrSize;
      new;
      other.ptr := null;
      other.arrSize := 0;
    }

    /**
     * Move assignment.  Moving an array into itself changes nothing;
     * otherwise this array takes the other's buffer and the other is left
     * empty.  (The old buffer is not released, as in the source.)
     */
    method MoveAssign(other: DynamicArray)
      requires Valid() && other.Valid()
      modifies this, other
      ensures Valid() && other.Valid()
      ensures this == other ==> ptr == old(ptr) && arrSize == old(arrSize)
      ensures this != other ==>
        ptr == old(other.ptr) && arrSize == old(other.arrSize) &&
        Contents() == old(other.Contents()) &&
        other.ptr == null && other.arrSize == 0 && other.Contents() == []
    {
      if this != other {
        ptr := other.ptr;
        arrSize := other.arrSize;
        other.ptr := null;
        other.arrSize := 0;
      }
    }

    /** size(): the number of elements. */
    function Size(): (n: int)
      reads this, ptr
      requires Valid()
      ensures n == |Contents()|
    {
      arrSize
    }

    /** Reading through operator[]: the element at index i. */
    function Get(i: int): (x: int)
      reads this, ptr
      requires Valid() && 0 <= i < |Contents()|
      ensures x == Contents()[i]
    {
      ptr[i]
    }

    /** Writing through operator[]: element i becomes x, nothing else changes. */
    method Set(i: int, x: int)
      requires Valid() && 0 <= i < |Contents()|
      modifies ptr
      ensures Valid() && ptr == old(ptr) && arrSize == old(arrSize)
      ensures Contents() == old(Contents())[i := x]
    {
      ptr[i] := x;
    }

    /**
     * operator+: a new array of both sizes together, this array's elements
     * first, then the other's.  Neither operand changes.
     */
    method Concat(other: DynamicArray) returns (result: DynamicArray)
      requires Valid() && other.Valid()
      ensures fresh(result) && fresh(result.ptr) && result.Valid()
      ensures result.arrSize == arrSize + other.arrSize
      ensures result.Contents() == Contents() + other.Contents()
    {
      ghost var a, b := Contents(), other.Contents();
      result := new DynamicArray(arrSize + other.arrSize);
      var buf := result.ptr;
      var i := 0;
      while i < arrSize
        invariant 0 <= i <= arrSize
        invariant forall k :: 0 <= k < i ==> buf[k] == a[k]
        modifies buf
      {
        buf[i] := ptr[i];
        i := i + 1;
      }
      i := 0;
      while i < other.arrSize
        invariant 0 <= i <= other.arrSize
        invariant forall k :: 0 <= k < |a| ==> buf[k] == a[k]
        invariant forall k :: 0 <= k < i ==> buf[|a| + k] == b[k]
        modifies buf
      {
        buf[arrSize + i] := other.ptr[i];
        i := i + 1;
      }
      assert buf[..] == a + b;
    }

    /** operator<<: the text written for this array. */
    method Render() returns (out: string)
      requires Valid()
      ensures out == Rendered(Contents())
    {
      ghost var c := Contents();
      out := "[";
      var i := 0;
      while i < arrSize
        invariant 0 <= i <= arrSize == |c|
        invariant out == RenderedPrefix(c, i)
      {
        RenderedPrefixStep(c, i);
        out := out + IntToString(ptr[i]);
        if i != arrSize - 1 {
          out := out + Separator;
        }
        i := i + 1;
      }
      RenderedPrefixDone(c);
      out := out + "]";
    }
  }

  class DynamicArrayVector {
    /** The vector's elements (the source's member `array`). */
    var elements: seq<int>

    /** DynamicArrayVector(size): size elements, all 0. */
    constructor (size: int)
      requires size >= 0
      ensures elements == seq(size, _ => 0)
    {
      elements := seq(size, _ => 0);
    }

    /** DynamicArrayVector(size, value): size elements, all value. */
    constructor Filled(size: int, value: int)
      requires size >= 0
      ensures elements == seq(size, _ => value)
    {
      elements := seq(size, _ => value);
    }

    /** size(): the number of elements. */
    function Size(): (n: int)
      reads this
      ensures n == |elements|
    {
      |elements|
    }

    /** Reading through operator[]: the element at index i. */
    function Get(i: int): (x: int)
      reads this
      requires 0 <= i < |elements|
      ensures x == elements[i]
    {
      elements[i]
    }

    /** Writing through operator[]: element i becomes x, nothing else changes. */
    method Set(i: int, x: int)
      requires 0 <= i < |elements|
      modifies this
      ensures elements == old(elements)[i := x]
    {
      elements := elements[i := x];
    }

    /**
     * operator+: starts from an empty vector, inserts this vector's elements
     * at the front and then the other's at the end.  Neither operand changes.
     */
    method Concat(other: DynamicArrayVector) returns (result: DynamicArrayVector)
      ensures fresh(result)
      ensures result.elements == elements + other.elements
    {
      result := new DynamicArrayVector(0);
      result.elements := elements + result.elements;
      result.elements := result.elements + other.elements;
    }

    /** operator<<: the text written for this vector. */
    method Render() returns (out: string)
      ensures out == Rendered(elements)
    {
      out := "[";
      var i := 0;
      while i < |elements|
        invariant 0 <= i <= |elements|
        invariant out == RenderedPrefix(elements, i)
      {
        RenderedPrefixStep(elements, i);
        out := out + IntToString(elements[i]);
        if i != |elements| - 1 {
          out := out + Separator;
        }
        i := i + 1;
      }
      RenderedPrefixDone(elements);
      out := out + "]";
    }
  }
}
