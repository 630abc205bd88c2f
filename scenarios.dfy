/**
 * What callers can conclude from the contracts of the two array classes
 * alone: copy independence in both directions, and the cases the unit
 * tests in tests/test_dynamicArray.cpp check.
 */
module Scenarios {
  import opened Oop
  import opened Rendering

  /** After a copy construction, a write to the copy leaves the original as it was. */
  method WriteToCopy(a: DynamicArray, i: int, x: int) returns (b: DynamicArray)
    requires a.Valid() && 0 <= i < a.Size()
    ensures fresh(b) && b.Valid()
    ensures a.Contents() == old(a.Contents())
    ensures b.Contents() == old(a.Contents())[i := x]
  {
    b := new DynamicArray.Copy(a);
    b.Set(i, x);
  }

  /** After a copy construction, a write to the original leaves the copy as it was. */
  method WriteToOriginal(a: DynamicArray, i: int, x: int) returns (b: DynamicArray)
    requires a.Valid() && 0 <= i < a.Size()
    modifies a.ptr
    ensures fresh(b) && b.Valid()
    ensures b.Contents() == old(a.Contents())
    ensures a.Contents() == old(a.Contents())[i := x]
  {
    b := new DynamicArray.Copy(a);
    a.Set(i, x);
  }

  /** After a copy assignment b = a, writes to b and to a do not reach each other. */
  method WritesAfterCopyAssign(a: DynamicArray, b: DynamicArray, i: int, x: int, y: int)
    requires a.Valid() && b.Valid() && a != b && 0 <= i < a.Size()
    modifies a.ptr, b
    ensures a.Valid() && b.Valid()
    ensures a.Contents() == old(a.Contents())[i := x]
    ensures b.Contents() == old(a.Contents())[i := y]
  {
    b.CopyAssign(a);
    b.Set(i, y);
    a.Set(i, x);
  }

  method TestConstructors() {
    var a := new DynamicArray(5);
    assert a.Size() == 5;
    assert forall i :: 0 <= i < a.Size() ==> a.Get(i) == 0;
    var b := new DynamicArray.Filled(5, 3);
    assert b.Size() == 5;
    assert forall i :: 0 <= i < b.Size() ==> b.Get(i) == 3;
    var v := new DynamicArrayVector.Filled(5, 3);
    assert v.Size() == 5 && v.Get(4) == 3;
  }

  method TestCopy() {
    var a := new DynamicArray.Filled(5, 1);
    var b := new DynamicArray.Copy(a);
    assert b.Size() == a.Size();
    assert forall i :: 0 <= i < b.Size() ==> b.Get(i) == a.Get(i);
    var c := new DynamicArray.Filled(3, 2);
    c.CopyAssign(a);
    assert c.Size() == a.Size();
    assert forall i :: 0 <= i < c.Size() ==> c.Get(i) == a.Get(i);
    c.CopyAssign(c);
    assert c.Size() == 5;
  }

  method TestMove() {
    var a := new DynamicArray.Filled(5, 1);
    var b := new DynamicArray.Move(a);
    assert b.Size() == 5 && a.Size() == 0;
    var c := new DynamicArray.Filled(5, 1);
    var d := new DynamicArray.Filled(3, 2);
    d.MoveAssign(c);
    assert d.Size() == 5 && c.Size() == 0;
    assert d.Get(4) == 1;
    d.MoveAssign(d);
    assert d.Size() == 5;
  }

  method TestAddition() {
    var a := new DynamicArray.Filled(3, 1);
    var b := new DynamicArray.Filled(2, 2);
    var c := a.Concat(b);
    assert c.Size() == a.Size() + b.Size();
    assert c.Contents() == [1, 1, 1, 2, 2];
    var v := new DynamicArrayVector.Filled(3, 1);
    var w := new DynamicArrayVector.Filled(2, 2);
    var u := v.Concat(w);
    assert u.elements == [1, 1, 1, 2, 2];
  }

  method TestStreamInsertion() {
    var a := new DynamicArray.Filled(3, 5);
    var s := a.Render();
    assert a.Contents() == [5, 5, 5];
    RenderedThreeFives();
    assert s == "[5, 5, 5]";
    var e := new DynamicArray(0);
    s := e.Render();
    assert e.Contents() == [];
    RenderedEmpty();
    assert s == "[]";
    var v := new DynamicArrayVector.Filled(3, 5);
    s := v.Render();
    assert s == "[5, 5, 5]";
  }

  method TestElementAccess() {
    var a := new DynamicArray.Filled(3, 5);
    assert a.Get(0) == 5 && a.Get(1) == 5 && a.Get(2) == 5;
    a.Set(0, 10);
    assert a.Get(0) == 10 && a.Get(1) == 5;
    var v := new DynamicArrayVector.Filled(3, 5);
    v.Set(0, 10);
    assert v.Get(0) == 10 && v.Get(2) == 5;
  }
}
