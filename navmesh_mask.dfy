/**
 * The NavMesh area mask field of DesidusEditorUtility.NavMeshAreaMaskField.
 * The stored mask (a long) has one bit per NavMesh area, at the area's
 * index.  The menu shows the areas in name order and works on a "menu
 * mask" with bit i for the i-th listed area: the stored mask is compressed
 * into a menu mask, and the menu's answer is expanded back.
 *
 * A mask is the set of its bit positions: 0..31 for a C# int or uint, 0..63
 * for a long.  The C# operators become set operations: `|` is union, `&`
 * is intersection, `x != 0` is non-emptiness.  The points where C# changes
 * bits are written out: `1 << k` on an int takes k modulo 32, an int
 * widened to long is sign-extended (bit 31 is copied into bits 32..63),
 * `>>` on an int is arithmetic, and a uint widened to long is unchanged.
 * The area names are abstracted to the sequence of their area indices
 * (GetNavMeshAreaFromName of each name).
 */
module NavMeshMask {

  type Mask = set<int>

  /** The bit positions lo..hi-1. */
  function Range(lo: int, hi: int): (r: Mask)
    ensures forall b :: b in r <==> lo <= b < hi
    decreases hi - lo
  {
    if lo >= hi then {} else {lo} + Range(lo + 1, hi)
  }

  /** A mask that an int or uint can hold. */
  predicate Is32(m: Mask) {
    forall b :: b in m ==> 0 <= b < 32
  }

  /**
   * A long that an int or uint field yields: a uint's bits 0..31 as they
   * are, or an int's bits sign-extended (so the int -1 gives bits 0..63).
   */
  predicate FromIntOrUint(m: Mask) {
    Is32(m) || m == SignExtend(m * ALL32)
  }

  /** int -1, uint 0xffffffff. */
  const ALL32: Mask := Range(0, 32)

  /** C# `1 << k` on int: the shift count is taken modulo 32. */
  function Bit(k: int): Mask {
    {k % 32}
  }

  /** The implicit conversion of an int to long: sign extension. */
  function SignExtend(x: Mask): Mask {
    if 31 in x then x + Range(32, 64) else x
  }

  /** C# `x >> n` on int: arithmetic, the count taken modulo 32, bit 31 copied into the vacated bits. */
  function ShiftRight(x: Mask, n: int): (r: Mask)
    ensures Is32(r)
  {
    var s := n % 32;
    set b | b in ALL32 && (if b + s < 32 then b + s in x else 31 in x)
  }

  /** `(x >> i) & 1 != 0` reads bit i modulo 32. */
  lemma ShiftRightBitZero(x: Mask, i: int)
    ensures 0 in ShiftRight(x, i) <==> i % 32 in x
  {
  }

  /** Below 32, `(x >> i) & 1 != 0` reads bit i. */
  lemma ShiftRightReadsBit(x: Mask, i: int)
    requires 0 <= i < 32
    ensures 0 in ShiftRight(x, i) <==> i in x
  {
    ShiftRightBitZero(x, i);
  }

  /** The compress loop's test `((1 << areaIndex) & currentMask) != 0`. */
  predicate AreaSet(current: Mask, area: int) {
    SignExtend(Bit(area)) * current != {}
  }

  /** The compress loop's result after the listed areas. */
  function Compressed(current: Mask, areas: seq<int>): Mask
    decreases |areas|
  {
    if areas == [] then {}
    else
      var i := |areas| - 1;
      Compressed(current, areas[..i]) + (if AreaSet(current, areas[i]) then Bit(i) else {})
  }

  /** The expand loop's result after the listed areas: for each set menu bit i, the bit of the i-th area. */
  function Expanded(menu: Mask, areas: seq<int>): Mask
    decreases |areas|
  {
    if areas == [] then {}
    else
      var i := |areas| - 1;
      Expanded(menu, areas[..i]) + (if 0 in ShiftRight(menu, i) then Bit(areas[i]) else {})
  }

  /** One more listed area adds its menu bit when the area passes the compress test. */
  lemma CompressedSnoc(current: Mask, areas: seq<int>, i: int)
    requires 0 <= i < |areas|
    ensures Compressed(current, areas[..i + 1]) ==
      Compressed(current, areas[..i]) + (if AreaSet(current, areas[i]) then Bit(i) else {})
  {
    assert areas[..i + 1][..i] == areas[..i];
  }

  /** One more listed area adds its area bit when its menu bit is set. */
  lemma ExpandedSnoc(menu: Mask, areas: seq<int>, j: int)
    requires 0 <= j < |areas|
    ensures Expanded(menu, areas[..j + 1]) ==
      Expanded(menu, areas[..j]) + (if 0 in ShiftRight(menu, j) then Bit(areas[j]) else {})
  {
    assert areas[..j + 1][..j] == areas[..j];
  }

  /** The bits of the listed areas. */
  function AreasMask(areas: seq<int>): (r: Mask)
    ensures forall b :: b in r <==> exists i :: 0 <= i < |areas| && b == areas[i] % 32
    decreases |areas|
  {
    if areas == [] then {}
    else
      var front := areas[..|areas| - 1];
      var r := AreasMask(front) + Bit(areas[|areas| - 1]);
      assert forall i :: 0 <= i < |front| ==> front[i] == areas[i];
      r
  }

  /** The editor's serialized property holding the stored mask. */
  class SerializedProperty {
    var longValue: Mask

    constructor(v: Mask)
      ensures longValue == v
    {
      longValue := v;
    }
  }

  /**
   * NavMeshAreaMaskField: the stored mask is compressed into the menu mask
   * (returned, as the menu receives it); `changed` and `areaMask` are the
   * menu's report.  An unchanged menu leaves the property alone,
   * "Everything" (-1) stores 0xffffffff, and any other answer is expanded.
   */
  method NavMeshAreaMaskField(property: SerializedProperty, areas: seq<int>, changed: bool, areaMask: Mask)
    returns (compressedMask: Mask)
    modifies property
    ensures compressedMask == Compressed(old(property.longValue), areas)
    ensures !changed ==> property.longValue == old(property.longValue)
    ensures changed && areaMask == ALL32 ==> property.longValue == ALL32
    ensures changed && areaMask != ALL32 ==> property.longValue == Expanded(areaMask, areas)
  {
    var n := |areas|;
    var currentMask := property.longValue;
    compressedMask := {};
    var i := 0;
    while i < n
      invariant 0 <= i <= n
      invariant compressedMask == Compressed(currentMask, areas[..i])
      modifies {}
    {
      var areaIndex := areas[i];
      CompressedSnoc(currentMask, areas, i);
      if SignExtend(Bit(areaIndex)) * currentMask != {} {
        compressedMask := compressedMask + Bit(i);
      }
      i := i + 1;
    }
    assert areas[..n] == areas;
    if changed {
      if areaMask == ALL32 {
        property.longValue := ALL32;
      } else {
        var newMask: Mask := {};
        var j := 0;
        while j < n
          invariant 0 <= j <= n
          invariant newMask == Expanded(areaMask, areas[..j])
          modifies {}
        {
          ExpandedSnoc(areaMask, areas, j);
          if 0 in ShiftRight(areaMask, j) {
            newMask := newMask + Bit(areas[j]);
          }
          j := j + 1;
        }
        assert areas[..n] == areas;
        property.longValue := newMask;
      }
    }
  }

  /**
   * Bit j of the menu mask is set exactly when j < n and the j-th area
   * passes the compress test; with at most 32 areas no other bit is set.
   */
  lemma {:induction false} CompressedBits(current: Mask, areas: seq<int>)
    requires |areas| <= 32
    ensures forall j :: j in Compressed(current, areas) <==> 0 <= j < |areas| && AreaSet(current, areas[j])
    decreases |areas|
  {
    if areas != [] {
      var i := |areas| - 1;
      var front := areas[..i];
      CompressedBits(current, front);
      assert forall j :: 0 <= j < i ==> front[j] == areas[j];
    }
  }

  /**
   * For a stored mask an int or uint field yields and an area in [0, 32),
   * the compress test reads the area's bit.  A bit above 31 that the
   * sign-extended `1 << 31` meets can only come from a sign-extended bit 31.
   */
  lemma AreaSetReadsBit(current: Mask, area: int)
    requires FromIntOrUint(current) && 0 <= area < 32
    ensures AreaSet(current, area) <==> area in current
  {
    var e := SignExtend(Bit(area));
    assert Bit(area) == {area};
    assert area in current ==> area in e * current;
    forall b | b in e * current && b != area
      ensures area in current
    {
      assert area == 31 && 32 <= b < 64;
      assert !Is32(current);
      assert 31 in current * ALL32;
    }
  }

  /**
   * For a stored mask an int or uint field yields and areas in [0, 32): bit j of the menu
   * mask is set exactly when j < n and the stored mask has the j-th area's
   * bit.
   */
  lemma CompressedReadsAreaBits(current: Mask, areas: seq<int>)
    requires FromIntOrUint(current) && |areas| <= 32
    requires forall i :: 0 <= i < |areas| ==> 0 <= areas[i] < 32
    ensures forall j :: j in Compressed(current, areas) <==> 0 <= j < |areas| && areas[j] in current
  {
    CompressedBits(current, areas);
    forall j | 0 <= j < |areas| ensures AreaSet(current, areas[j]) <==> areas[j] in current {
      AreaSetReadsBit(current, areas[j]);
    }
  }

  /**
   * Bit b of the expanded mask is set exactly when some listed area has
   * index b (modulo 32) and its menu bit (modulo 32) is set.
   */
  lemma {:induction false} ExpandedBits(menu: Mask, areas: seq<int>)
    ensures forall b :: b in Expanded(menu, areas) <==>
      exists i :: 0 <= i < |areas| && b == areas[i] % 32 && i % 32 in menu
    decreases |areas|
  {
    if areas != [] {
      var i := |areas| - 1;
      var front := areas[..i];
      ExpandedBits(menu, front);
      ShiftRightBitZero(menu, i);
      forall b | b in Expanded(menu, areas)
        ensures exists k :: 0 <= k < |areas| && b == areas[k] % 32 && k % 32 in menu
      {
        if b in Expanded(menu, front) {
          var k :| 0 <= k < |front| && b == front[k] % 32 && k % 32 in menu;
          assert areas[k] == front[k];
        } else {
          assert b == areas[i] % 32 && i % 32 in menu;
        }
      }
      forall b, k | 0 <= k < |areas| && b == areas[k] % 32 && k % 32 in menu
        ensures b in Expanded(menu, areas)
      {
        if k < i {
          assert front[k] == areas[k];
        }
      }
    }
  }

  /** Expansion over n areas reads the menu bits below n only. */
  lemma {:induction false} ExpandedReadsLowBits(m1: Mask, m2: Mask, areas: seq<int>)
    requires |areas| <= 32
    requires forall i :: 0 <= i < |areas| ==> (i in m1 <==> i in m2)
    ensures Expanded(m1, areas) == Expanded(m2, areas)
    decreases |areas|
  {
    if areas != [] {
      var i := |areas| - 1;
      ExpandedReadsLowBits(m1, m2, areas[..i]);
      ShiftRightReadsBit(m1, i);
      ShiftRightReadsBit(m2, i);
    }
  }

  /** Restricting to one more area's bit adds that bit exactly when the mask has it. */
  lemma RestrictOneMore(current: Mask, m: Mask, a: int)
    requires 0 <= a < 32
    ensures current * (m + Bit(a)) == current * m + (if a in current then Bit(a) else {})
  {
    assert Bit(a) == {a};
  }

  /**
   * Round trip: for a stored mask an int or uint field yields (NavMesh.AllAreas,
   * the int -1, included) and areas in [0, 32), at
   * most 32 of them, expanding the compressed mask gives back the stored
   * mask restricted to the listed areas' bits.
   */
  lemma {:induction false} ExpandCompressed(current: Mask, areas: seq<int>)
    requires FromIntOrUint(current) && |areas| <= 32
    requires forall i :: 0 <= i < |areas| ==> 0 <= areas[i] < 32
    ensures Expanded(Compressed(current, areas), areas) == current * AreasMask(areas)
    decreases |areas|
  {
    if areas != [] {
      var i := |areas| - 1;
      var front := areas[..i];
      var a := areas[i];
      var c := Compressed(current, areas);
      ExpandCompressed(current, front);
      LowBitsOfCompressed(current, areas);
      ExpandedReadsLowBits(Compressed(current, front), c, front);
      assert Expanded(c, front) == current * AreasMask(front);
      ShiftRightReadsBit(c, i);
      CompressedLastBit(current, areas);
      AreaSetReadsBit(current, a);
      RestrictOneMore(current, AreasMask(front), a);
    }
  }

  /** An int's bits sign-extended to a long are what an int field yields. */
  lemma SignExtendedIsFromInt(x: Mask)
    requires Is32(x)
    ensures FromIntOrUint(SignExtend(x))
  {
    var e := SignExtend(x);
    assert forall b :: b in e * ALL32 <==> b in x;
    assert e * ALL32 == x;
  }

  /** The listed areas' bits all lie within 0..31. */
  lemma AreasMaskIs32(areas: seq<int>)
    ensures Is32(AreasMask(areas))
  {
  }

  /**
   * NavMesh.AllAreas is the int -1, which the property hands over as the
   * long with bits 0..63: a mask an int field yields but not one of 32 bits.
   */
  lemma AllAreasIsIntMask()
    ensures FromIntOrUint(SignExtend(ALL32)) && !Is32(SignExtend(ALL32))
  {
    assert 31 in ALL32;
    assert 32 in SignExtend(ALL32);
    SignExtendedIsFromInt(ALL32);
  }

  /** For a stored mask holding all of bits 0..31, the round trip gives back every listed area. */
  lemma FullMaskRoundTrip(current: Mask, areas: seq<int>)
    requires FromIntOrUint(current) && ALL32 <= current && |areas| <= 32
    requires forall i :: 0 <= i < |areas| ==> 0 <= areas[i] < 32
    ensures Expanded(Compressed(current, areas), areas) == AreasMask(areas)
  {
    ExpandCompressed(current, areas);
    AreasMaskIs32(areas);
    assert forall b :: b in AreasMask(areas) ==> b in ALL32;
  }

  /** For NavMesh.AllAreas, the round trip gives back every listed area. */
  lemma AllAreasRoundTrip(areas: seq<int>)
    requires |areas| <= 32
    requires forall i :: 0 <= i < |areas| ==> 0 <= areas[i] < 32
    ensures Expanded(Compressed(SignExtend(ALL32), areas), areas) == AreasMask(areas)
  {
    AllAreasIsIntMask();
    assert ALL32 <= SignExtend(ALL32);
    FullMaskRoundTrip(SignExtend(ALL32), areas);
  }

  /** The last area's menu bit is set exactly when that area passes the compress test. */
  lemma CompressedLastBit(current: Mask, areas: seq<int>)
    requires 0 < |areas| <= 32
    ensures |areas| - 1 in Compressed(current, areas) <==> AreaSet(current, areas[|areas| - 1])
  {
    CompressedBits(current, areas[..|areas| - 1]);
  }

  /** The compressed mask of one more area agrees with the shorter one below the new bit. */
  lemma LowBitsOfCompressed(current: Mask, areas: seq<int>)
    requires 0 < |areas| <= 32
    ensures forall k :: 0 <= k < |areas| - 1 ==>
      (k in Compressed(current, areas[..|areas| - 1]) <==> k in Compressed(current, areas))
  {
    var front := areas[..|areas| - 1];
    CompressedBits(current, front);
    CompressedBits(current, areas);
    assert forall k :: 0 <= k < |front| ==> front[k] == areas[k];
  }
}
