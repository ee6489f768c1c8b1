/** Removal from a fixed-size slot array by shifting: the slots after k move
    left by one and the last slot becomes empty. Both the key array of the
    keyboard report and the read-IRP cache use it. */
module Shift {

  function Removed<T>(a: seq<T>, k: nat, empty: T): (r: seq<T>)
    requires k < |a|
    ensures |r| == |a|
    ensures forall i :: 0 <= i < |a| ==> r[i] == if i < k then a[i] else if i < |a| - 1 then a[i + 1] else empty
  {
    a[..k] + a[k + 1..] + [empty]
  }

  /** The shift loop: for (; k < Size - 1; ++k) a[k] = a[k + 1]; a[Size - 1] = empty. */
  method ShiftOut<T>(a: array<T>, k: nat, empty: T)
    requires k < a.Length
    modifies a
    ensures a[..] == Removed(old(a[..]), k, empty)
  {
    var i := k;
    while i < a.Length - 1
      invariant k <= i <= a.Length - 1
      invariant forall j :: 0 <= j < k ==> a[j] == old(a[j])
      invariant forall j :: k <= j < i ==> a[j] == old(a[j + 1])
      invariant forall j :: i <= j < a.Length ==> a[j] == old(a[j])
    {
      a[i] := a[i + 1];
      i := i + 1;
    }
    a[a.Length - 1] := empty;
  }
}
