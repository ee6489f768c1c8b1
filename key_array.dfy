/** The six-slot key array of the keyboard report (__UpdateArray): a press goes
    into the first empty slot, or overwrites the last slot when all are in use;
    a release removes the key and shifts the later keys left. */
module KeyArray {
  import opened Shift

  /** Empty slots (0) only follow used ones. */
  predicate Dense(a: seq<bv8>) {
    forall i, j :: 0 <= i < j < |a| && a[i] == 0 ==> a[j] == 0
  }

  /** No non-zero key appears twice. */
  predicate NoDup(a: seq<bv8>) {
    forall i, j :: 0 <= i < j < |a| && a[i] != 0 ==> a[i] != a[j]
  }

  predicate WellFormed(a: seq<bv8>) {
    Dense(a) && NoDup(a)
  }

  /** The first slot holding v, or |a|. */
  function IndexOf(a: seq<bv8>, v: bv8): (k: nat)
    ensures k <= |a|
    ensures forall i :: 0 <= i < k ==> a[i] != v
    ensures k < |a| ==> a[k] == v
    ensures k == |a| <==> v !in a
  {
    if a == [] then 0
    else if a[0] == v then 0
    else 1 + IndexOf(a[1..], v)
  }

  /** The first slot holding v or empty, or |a|: where the press loop stops. */
  function PressSlot(a: seq<bv8>, v: bv8): (k: nat)
    ensures k <= |a|
    ensures forall i :: 0 <= i < k ==> a[i] != v && a[i] != 0
    ensures k < |a| ==> a[k] == v || a[k] == 0
  {
    if a == [] then 0
    else if a[0] == v || a[0] == 0 then 0
    else 1 + PressSlot(a[1..], v)
  }

  /** The press branch of __UpdateArray: the new array and whether it changed. */
  function Press(a: seq<bv8>, v: bv8): (seq<bv8>, bool)
    requires |a| > 0
  {
    var k := PressSlot(a, v);
    if k < |a| && a[k] == v then (a, false)
    else if k < |a| then (a[k := v], true)
    else (a[|a| - 1 := v], true)
  }

  /** The release branch of __UpdateArray. */
  function Release(a: seq<bv8>, v: bv8): (seq<bv8>, bool)
  {
    var k := IndexOf(a, v);
    if k == |a| then (a, false)
    else (Removed(a, k, 0), true)
  }

  function Update(a: seq<bv8>, v: bv8, pressed: bool): (seq<bv8>, bool)
    requires |a| > 0
  {
    if pressed then Press(a, v) else Release(a, v)
  }

  /** A press of a key already held changes nothing; a new key goes into the
      first empty slot, or into the last slot (the others untouched) when all
      slots are in use. The array stays dense and duplicate-free, holds v, and
      loses no other key except the one a full array overwrites. */
  lemma PressSpec(a: seq<bv8>, v: bv8)
    requires |a| > 0 && v != 0 && WellFormed(a)
    ensures Press(a, v).1 <==> v !in a
    ensures v in a ==> Press(a, v).0 == a
    ensures v !in a && 0 in a ==> Press(a, v).0 == a[IndexOf(a, 0) := v]
    ensures v !in a && 0 !in a ==> Press(a, v).0 == a[|a| - 1 := v]
    ensures WellFormed(Press(a, v).0) && v in Press(a, v).0
    ensures forall u :: u != v && u in Press(a, v).0 ==> u in a
  {
    if v in a {
      PressHeld(a, v);
    } else if 0 in a {
      PressIntoEmpty(a, v);
    } else {
      PressIntoFull(a, v);
    }
  }

  lemma PressHeld(a: seq<bv8>, v: bv8)
    requires |a| > 0 && v != 0 && Dense(a) && v in a
    ensures Press(a, v) == (a, false)
  {
  }

  lemma PressIntoEmpty(a: seq<bv8>, v: bv8)
    requires |a| > 0 && v != 0 && WellFormed(a) && v !in a && 0 in a
    ensures Press(a, v) == (a[IndexOf(a, 0) := v], true)
    ensures WellFormed(a[IndexOf(a, 0) := v]) && v in a[IndexOf(a, 0) := v]
    ensures forall u :: u != 0 && u in a ==> u in a[IndexOf(a, 0) := v]
  {
    var z := IndexOf(a, 0);
    var r := a[z := v];
    assert r[z] == v;
    forall i, j | 0 <= i < j < |r| && r[i] == 0
      ensures r[j] == 0
    {
      assert z < i;
    }
    forall u | u != 0 && u in a
      ensures u in r
    {
      var j :| 0 <= j < |a| && a[j] == u;
      assert r[j] == u;
    }
  }

  lemma PressIntoFull(a: seq<bv8>, v: bv8)
    requires |a| > 0 && v != 0 && WellFormed(a) && v !in a && 0 !in a
    ensures Press(a, v) == (a[|a| - 1 := v], true)
    ensures WellFormed(a[|a| - 1 := v]) && v in a[|a| - 1 := v]
    ensures a[|a| - 1 := v][..|a| - 1] == a[..|a| - 1]
  {
    assert a[|a| - 1 := v][|a| - 1] == v;
  }

  /** Releasing a held key removes it and shifts the later keys left, the last
      slot becoming empty; releasing a key not held changes nothing. The array
      stays dense and duplicate-free, no longer holds v and keeps every other key. */
  lemma ReleaseSpec(a: seq<bv8>, v: bv8)
    requires v != 0 && WellFormed(a)
    ensures Release(a, v).1 <==> v in a
    ensures v !in a ==> Release(a, v).0 == a
    ensures v in a ==> Release(a, v).0 == a[..IndexOf(a, v)] + a[IndexOf(a, v) + 1..] + [0]
    ensures |Release(a, v).0| == |a| && (v in a ==> Release(a, v).0[|a| - 1] == 0)
    ensures WellFormed(Release(a, v).0) && v !in Release(a, v).0
    ensures forall u :: u != 0 && u != v ==> (u in Release(a, v).0 <==> u in a)
  {
    if v in a {
      ReleaseHeld(a, v, IndexOf(a, v));
    }
  }

  lemma ReleaseHeld(a: seq<bv8>, v: bv8, k: nat)
    requires v != 0 && WellFormed(a) && k == IndexOf(a, v) < |a|
    ensures WellFormed(Removed(a, k, 0)) && v !in Removed(a, k, 0)
    ensures forall u :: u != 0 && u != v ==> (u in Removed(a, k, 0) <==> u in a)
  {
    RemovedDense(a, k);
    RemovedNoDup(a, k);
    RemovedDrops(a, k);
    forall u | u != 0 && u != v
      ensures u in Removed(a, k, 0) <==> u in a
    {
      if u in a {
        RemovedKeeps(a, k, u);
      }
    }
  }

  lemma RemovedDense(a: seq<bv8>, k: nat)
    requires k < |a| && Dense(a)
    ensures Dense(Removed(a, k, 0))
  {
    var r := Removed(a, k, 0);
    forall i, j | 0 <= i < j < |r| && r[i] == 0
      ensures r[j] == 0
    {
      if i < k { assert a[i] == 0; } else if i < |a| - 1 { assert a[i + 1] == 0; }
    }
  }

  lemma RemovedNoDup(a: seq<bv8>, k: nat)
    requires k < |a| && NoDup(a)
    ensures NoDup(Removed(a, k, 0))
  {
    var r := Removed(a, k, 0);
    forall i, j | 0 <= i < j < |r| && r[i] != 0
      ensures r[i] != r[j]
    {
      var i' := if i < k then i else i + 1;
      if j < |a| - 1 {
        var j' := if j < k then j else j + 1;
        assert r[i] == a[i'] && r[j] == a[j'];
      }
    }
  }

  lemma RemovedDrops(a: seq<bv8>, k: nat)
    requires k < |a| && NoDup(a) && a[k] != 0
    ensures a[k] !in Removed(a, k, 0)
  {
    var r := Removed(a, k, 0);
    forall i | 0 <= i < |r|
      ensures r[i] != a[k]
    {
      if i < k { assert a[i] != a[k]; } else if i < |a| - 1 { assert a[i + 1] != a[k]; }
    }
  }

  lemma RemovedKeeps(a: seq<bv8>, k: nat, u: bv8)
    requires k < |a| && u in a && u != a[k]
    ensures u in Removed(a, k, 0)
  {
    var r := Removed(a, k, 0);
    var j :| 0 <= j < |a| && a[j] == u;
    if j < k { assert r[j] == u; } else { assert r[j - 1] == u; }
  }

  /** __UpdateArray on the key array in place. */
  method UpdateArray(a: array<bv8>, v: bv8, pressed: bool) returns (changed: bool)
    requires a.Length > 0
    modifies a
    ensures (a[..], changed) == Update(old(a[..]), v, pressed)
  {
    if pressed {
      changed := PressInPlace(a, v);
    } else {
      changed := ReleaseInPlace(a, v);
    }
  }

  /** The press loop of __UpdateArray. */
  method PressInPlace(a: array<bv8>, v: bv8) returns (changed: bool)
    requires a.Length > 0
    modifies a
    ensures (a[..], changed) == Press(old(a[..]), v)
  {
    for i := 0 to a.Length
      invariant forall j :: 0 <= j < i ==> a[j] != v && a[j] != 0
    {
      if a[i] == v {
        assert PressSlot(a[..], v) == i;
        return false;
      }
      if a[i] == 0 {
        assert PressSlot(a[..], v) == i;
        a[i] := v;
        return true;
      }
    }
    assert PressSlot(a[..], v) == a.Length;
    a[a.Length - 1] := v;
    return true;
  }

  /** The release loop of __UpdateArray. */
  method ReleaseInPlace(a: array<bv8>, v: bv8) returns (changed: bool)
    requires a.Length > 0
    modifies a
    ensures (a[..], changed) == Release(old(a[..]), v)
  {
    for i := 0 to a.Length
      invariant forall j :: 0 <= j < i ==> a[j] != v
    {
      if a[i] == v {
        assert IndexOf(a[..], v) == i;
        ShiftOut(a, i, 0);
        return true;
      }
    }
    return false;
  }
}
