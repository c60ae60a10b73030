/**
 * Axis-aligned bounding boxes as the loader uses them (Unity's `Bounds`):
 * a box is kept by its two corners, and `Encapsulate` grows a box to the
 * smallest box that also covers another one. Coordinates are reals: Unity
 * keeps a box as center and extents in single precision and rounds when
 * `Encapsulate` re-derives them, so every property here holds of the
 * real-valued boxes, not of the rounded ones.
 */
module Geometry {

  datatype Vec3 = Vec3(x: real, y: real, z: real)

  function Min(a: real, b: real): real { if a <= b then a else b }
  function Max(a: real, b: real): real { if a <= b then b else a }

  /** Componentwise minimum and maximum (Unity's `Vector3.Min` / `Vector3.Max`). */
  function MinVec(a: Vec3, b: Vec3): Vec3 { Vec3(Min(a.x, b.x), Min(a.y, b.y), Min(a.z, b.z)) }
  function MaxVec(a: Vec3, b: Vec3): Vec3 { Vec3(Max(a.x, b.x), Max(a.y, b.y), Max(a.z, b.z)) }

  function Add(a: Vec3, b: Vec3): Vec3 { Vec3(a.x + b.x, a.y + b.y, a.z + b.z) }

  /** `a` is below or equal to `b` on every axis. */
  predicate LessEq(a: Vec3, b: Vec3) { a.x <= b.x && a.y <= b.y && a.z <= b.z }

  /** An axis-aligned box given by its lowest and highest corners. */
  datatype Box = Box(min: Vec3, max: Vec3)

  /** The value of `new Bounds()`: center and extents all zero. */
  const ZeroBox: Box := Box(Vec3(0.0, 0.0, 0.0), Vec3(0.0, 0.0, 0.0))

  function Center(b: Box): Vec3
  {
    Vec3((b.min.x + b.max.x) / 2.0, (b.min.y + b.max.y) / 2.0, (b.min.z + b.max.z) / 2.0)
  }

  function Size(b: Box): Vec3
  {
    Vec3(b.max.x - b.min.x, b.max.y - b.min.y, b.max.z - b.min.z)
  }

  /** The box moved by the offset `d`. */
  function Translate(b: Box, d: Vec3): Box { Box(Add(b.min, d), Add(b.max, d)) }

  /** Every point of `inner` lies in `outer`. */
  predicate Encloses(outer: Box, inner: Box)
  {
    LessEq(outer.min, inner.min) && LessEq(inner.max, outer.max)
  }

  /**
   * `a.Encapsulate(b)`: the smallest box that encloses both boxes. Its
   * ensures and `EncapsulateIsLeast` together determine it.
   */
  function Encapsulate(a: Box, b: Box): (r: Box)
    ensures Encloses(r, a) && Encloses(r, b)
  {
    Box(MinVec(a.min, b.min), MaxVec(a.max, b.max))
  }

  /** Every box enclosing both `a` and `b` encloses their encapsulation. */
  lemma EncapsulateIsLeast(a: Box, b: Box, c: Box)
    requires Encloses(c, a) && Encloses(c, b)
    ensures Encloses(c, Encapsulate(a, b))
  {
  }

  /**
   * The union of a non-empty sequence of boxes, folded from the left the way
   * a loop calling `Encapsulate` builds it.
   */
  function Hull(bs: seq<Box>): (r: Box)
    requires |bs| > 0
    ensures forall i :: 0 <= i < |bs| ==> Encloses(r, bs[i])
  {
    if |bs| == 1 then bs[0]
    else
      var init := bs[..|bs| - 1];
      var h := Hull(init);
      assert forall i :: 0 <= i < |bs| - 1 ==> init[i] == bs[i];
      Encapsulate(h, bs[|bs| - 1])
  }

  /** Any box that encloses every box of `bs` encloses their hull. */
  lemma {:induction false} HullIsLeast(bs: seq<Box>, c: Box)
    requires |bs| > 0
    requires forall i :: 0 <= i < |bs| ==> Encloses(c, bs[i])
    ensures Encloses(c, Hull(bs))
  {
    if |bs| > 1 {
      var init := bs[..|bs| - 1];
      assert forall i :: 0 <= i < |init| ==> init[i] == bs[i];
      HullIsLeast(init, c);
      EncapsulateIsLeast(Hull(init), bs[|bs| - 1], c);
    }
  }

  /**
   * The hull's corners are the componentwise extremes of the boxes: on every
   * axis its lower corner is the lower corner of some box of `bs` and its
   * upper corner the upper corner of some box.
   */
  lemma {:induction false} HullCornersAttained(bs: seq<Box>)
    requires |bs| > 0
    ensures exists i :: 0 <= i < |bs| && Hull(bs).min.x == bs[i].min.x
    ensures exists i :: 0 <= i < |bs| && Hull(bs).min.y == bs[i].min.y
    ensures exists i :: 0 <= i < |bs| && Hull(bs).min.z == bs[i].min.z
    ensures exists i :: 0 <= i < |bs| && Hull(bs).max.x == bs[i].max.x
    ensures exists i :: 0 <= i < |bs| && Hull(bs).max.y == bs[i].max.y
    ensures exists i :: 0 <= i < |bs| && Hull(bs).max.z == bs[i].max.z
  {
    if |bs| > 1 {
      var n := |bs| - 1;
      var init := bs[..n];
      assert forall i :: 0 <= i < n ==> init[i] == bs[i];
      HullCornersAttained(init);
      assert Hull(bs) == Encapsulate(Hull(init), bs[n]);
    } else {
      assert Hull(bs) == bs[0];
    }
  }

  /** Boxes enclosing each other are equal. */
  lemma EnclosesAntisymmetric(a: Box, b: Box)
    requires Encloses(a, b) && Encloses(b, a)
    ensures a == b
  {
  }

  /**
   * The hull depends only on which boxes occur, not on their order or
   * repetition: any listing of the same boxes gives the same hull.
   */
  lemma HullIgnoresOrder(bs: seq<Box>, cs: seq<Box>)
    requires |bs| > 0 && |cs| > 0
    requires forall b :: b in bs <==> b in cs
    ensures Hull(bs) == Hull(cs)
  {
    forall i | 0 <= i < |bs|
      ensures Encloses(Hull(cs), bs[i])
    {
      assert bs[i] in cs;
      var j :| 0 <= j < |cs| && cs[j] == bs[i];
    }
    HullIsLeast(bs, Hull(cs));
    forall j | 0 <= j < |cs|
      ensures Encloses(Hull(bs), cs[j])
    {
      assert cs[j] in bs;
      var i :| 0 <= i < |bs| && bs[i] == cs[j];
    }
    HullIsLeast(cs, Hull(bs));
    EnclosesAntisymmetric(Hull(bs), Hull(cs));
  }
}
