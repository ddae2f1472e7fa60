/**
 * The pointer-receiver demo of start/interfaces/main2.go.
 *
 * `T` has two int fields and a method `Add` with a pointer receiver. Its
 * one interface, `II`, has the single method `Add`, and `T` is its only
 * implementation. So an `II` value is modelled as the `*T` it holds. Calling
 * `Add` through it is a call on that same object.
 */
module Interfaces {

  class T {
    var a: int
    var b: int

    /** The composite literal `T{a, b}`. */
    constructor (a: int, b: int)
      ensures this.a == a && this.b == b
    {
      this.a, this.b := a, b;
    }

    /** `(*T).Add`: the sum of the two fields; it reads them and changes neither. */
    method Add() returns (r: int)
      ensures r == a + b
    {
      r := a + b;
    }
  }

  /** An interface value of type `II`, holding the pointer `&t` it was made from. */
  datatype II = II(ptr: T)

  /** `i.Add()`: dynamic dispatch reaches `(*T).Add` on the pointer the interface holds. */
  method CallAdd(i: II) returns (r: int)
    ensures r == i.ptr.a + i.ptr.b
  {
    r := i.ptr.Add();
  }

  /** With `i := II(&t)`, `i.Add()` and `t.Add()` return the same value in any state of `t`. */
  method AddAgrees(t: T) returns (viaInterface: int, direct: int)
    ensures viaInterface == direct
    ensures direct == t.a + t.b
  {
    var i := II(t);
    viaInterface := CallAdd(i);
    direct := t.Add();
  }

  /**
   * `main`: for `T{10, 20}` both calls give 30; after `t.a *= 10` and
   * `t.b *= 10` on `t`, the change is seen through `i` as well, and both give 300.
   */
  method MainScenario() returns (before: (int, int), after: (int, int))
    ensures before == (30, 30)
    ensures after == (300, 300)
  {
    var t := new T(10, 20);
    var i := II(t);
    var i1 := CallAdd(i);
    var t1 := t.Add();
    t.a := t.a * 10;
    t.b := t.b * 10;
    var i2 := CallAdd(i);
    var t2 := t.Add();
    before, after := (i1, t1), (i2, t2);
  }
}
