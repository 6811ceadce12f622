/**
 * The axis-aligned bounding box of src/Ace/AABB.cpp. The overlap tests,
 * the centre and the four-way split are functions of a box value; `Reset`,
 * `Update` and `Merge` change the `min`/`max` fields of an `AABB` object.
 */
module Boxes {
  import opened Geometry

  /** `std::numeric_limits<float>::max()`; `Reset` puts it in `min`. */
  const Highest: real := 340282346638528859811704183484516925440.0
  /** `std::numeric_limits<float>::lowest()`; `Reset` puts it in `max`. */
  const Lowest: real := -Highest

  /** A coordinate strictly between the two `Reset` sentinels. */
  predicate InRange(p: Vec2) {
    Lowest < p.x < Highest && Lowest < p.y < Highest
  }

  datatype Box = Box(min: Vec2, max: Vec2)

  /** `min` is below `max` on both axes. */
  predicate WellFormed(b: Box) {
    b.min.x <= b.max.x && b.min.y <= b.max.y
  }

  /** `b` lies within `outer`. */
  predicate Inside(b: Box, outer: Box) {
    outer.min.x <= b.min.x && b.max.x <= outer.max.x &&
    outer.min.y <= b.min.y && b.max.y <= outer.max.y
  }

  /** The box `Reset` produces: `min` at the highest float, `max` at the lowest. */
  const ResetBox: Box := Box(Vec2(Highest, Highest), Vec2(Lowest, Lowest))

  /** `GetCenter`: the midpoint of the two corners. */
  function Center(b: Box): (c: Vec2)
    ensures WellFormed(b) ==> b.min.x <= c.x <= b.max.x && b.min.y <= c.y <= b.max.y
    ensures c.x - b.min.x == b.max.x - c.x && c.y - b.min.y == b.max.y - c.y
  {
    Vec2((b.min.x + b.max.x) * 0.5, (b.min.y + b.max.y) * 0.5)
  }

  /** Box-box `IsColliding`: the closed intervals overlap on both axes. */
  predicate Colliding(a: Box, b: Box) {
    a.max.x >= b.min.x && a.min.x <= b.max.x &&
    a.max.y >= b.min.y && a.min.y <= b.max.y
  }

  /** Point `IsColliding`: the point lies in the closed box. */
  predicate ContainsPoint(a: Box, p: Vec2) {
    a.min.x <= p.x && p.x <= a.max.x &&
    a.min.y <= p.y && p.y <= a.max.y
  }

  datatype Quadrants = Quadrants(leftTop: Box, rightTop: Box, leftBottom: Box, rightBottom: Box)

  /** The `Split` constructor: four boxes that meet at the centre of `b`. */
  function Split(b: Box): (q: Quadrants)
    ensures var c := Center(b);
      q.leftTop.min.y == c.y && q.leftTop.max.x == c.x &&
      q.rightTop.min == c && q.leftBottom.max == c &&
      q.rightBottom.min.x == c.x && q.rightBottom.max.y == c.y
    ensures WellFormed(b) ==>
      WellFormed(q.leftTop) && WellFormed(q.rightTop) &&
      WellFormed(q.leftBottom) && WellFormed(q.rightBottom) &&
      Inside(q.leftTop, b) && Inside(q.rightTop, b) &&
      Inside(q.leftBottom, b) && Inside(q.rightBottom, b)
  {
    var c := Center(b);
    Quadrants(Box(Vec2(b.min.x, c.y), Vec2(c.x, b.max.y)),
              Box(c, b.max),
              Box(b.min, c),
              Box(Vec2(c.x, b.min.y), Vec2(b.max.x, c.y)))
  }

  /** The box after `Update(v)`: on each axis either `min` drops to `v` or else `max` rises to it. */
  function Updated(b: Box, v: Vec2): (r: Box)
    ensures r.min.x <= b.min.x && r.min.y <= b.min.y
    ensures r.max.x >= b.max.x && r.max.y >= b.max.y
  {
    var minX := if v.x < b.min.x then v.x else b.min.x;
    var maxX := if v.x < b.min.x then b.max.x else if b.max.x < v.x then v.x else b.max.x;
    var minY := if v.y < b.min.y then v.y else b.min.y;
    var maxY := if v.y < b.min.y then b.max.y else if b.max.y < v.y then v.y else b.max.y;
    Box(Vec2(minX, minY), Vec2(maxX, maxY))
  }

  /** The box after `Merge(other)`: `Update` with `other`'s two corners in turn. */
  function Merged(b: Box, other: Box): Box {
    Updated(Updated(b, other.min), other.max)
  }

  class AABB {
    var min: Vec2
    var max: Vec2

    function Value(): Box
      reads this
    {
      Box(min, max)
    }

    constructor (min: Vec2, max: Vec2)
      ensures Value() == Box(min, max)
    {
      this.min := min;
      this.max := max;
    }

    method Reset()
      modifies this
      ensures Value() == ResetBox
    {
      min := Vec2(Highest, Highest);
      max := Vec2(Lowest, Lowest);
    }

    method Update(v: Vec2)
      modifies this
      ensures Value() == Updated(old(Value()), v)
    {
      if v.x < min.x { min := min.(x := v.x); }
      else if max.x < v.x { max := max.(x := v.x); }
      if v.y < min.y { min := min.(y := v.y); }
      else if max.y < v.y { max := max.(y := v.y); }
    }

    /**
     * `Merge(other)`. `other` may be this very box; either way a well-formed
     * box ends up containing both corners `other` had on entry.
     */
    method Merge(other: AABB)
      modifies this
      ensures other != this ==> Value() == Merged(old(Value()), old(other.Value()))
      ensures WellFormed(old(Value())) ==>
        WellFormed(Value()) && ContainsPoint(Value(), old(other.min)) && ContainsPoint(Value(), old(other.max))
    {
      ghost var b0 := Value();
      ghost var lo, hi := other.min, other.max;
      Update(other.min);
      ghost var b1, second := Value(), other.max;
      Update(other.max);
      if WellFormed(b0) {
        UpdateContains(b0, lo);
        UpdateContains(b1, second);
        GrowthKeepsPoint(b1, Value(), lo);
        if other == this {
          assert ContainsPoint(b0, hi);
          GrowthKeepsPoint(b0, Value(), hi);
        }
      }
    }
  }

  /** Box-box collision does not depend on the order of the two boxes. */
  lemma CollidingSymmetric(a: Box, b: Box)
    ensures Colliding(a, b) == Colliding(b, a)
  {
  }

  /** The point test is the box test against the degenerate box at that point. */
  lemma PointIsDegenerateBox(a: Box, p: Vec2)
    ensures ContainsPoint(a, p) <==> Colliding(a, Box(p, p))
  {
  }

  /** Two well-formed boxes collide exactly when some point lies in both. */
  lemma {:induction false} CollidingMeansSharedPoint(a: Box, b: Box)
    requires WellFormed(a) && WellFormed(b)
    ensures Colliding(a, b) <==> exists p :: ContainsPoint(a, p) && ContainsPoint(b, p)
  {
    if Colliding(a, b) {
      var p := Vec2(if a.min.x < b.min.x then b.min.x else a.min.x,
                    if a.min.y < b.min.y then b.min.y else a.min.y);
      assert ContainsPoint(a, p) && ContainsPoint(b, p);
    }
  }

  /** After `Update(v)` a well-formed box is still well-formed and contains `v`. */
  lemma UpdateContains(b: Box, v: Vec2)
    requires WellFormed(b)
    ensures WellFormed(Updated(b, v)) && ContainsPoint(Updated(b, v), v)
  {
  }

  /** A box that only grew still contains every point it contained. */
  lemma GrowthKeepsPoint(b: Box, r: Box, p: Vec2)
    requires ContainsPoint(b, p)
    requires r.min.x <= b.min.x && r.min.y <= b.min.y && r.max.x >= b.max.x && r.max.y >= b.max.y
    ensures ContainsPoint(r, p)
  {
  }

  /** Merging into a well-formed box contains both corners of `other` and everything the box held. */
  lemma {:induction false} MergeContains(b: Box, other: Box, p: Vec2)
    requires WellFormed(b)
    ensures WellFormed(Merged(b, other))
    ensures ContainsPoint(Merged(b, other), other.min) && ContainsPoint(Merged(b, other), other.max)
    ensures ContainsPoint(b, p) ==> ContainsPoint(Merged(b, other), p)
  {
    var b1 := Updated(b, other.min);
    UpdateContains(b, other.min);
    UpdateContains(b1, other.max);
    GrowthKeepsPoint(b1, Merged(b, other), other.min);
    if ContainsPoint(b, p) {
      GrowthKeepsPoint(b, b1, p);
      GrowthKeepsPoint(b1, Merged(b, other), p);
    }
  }

  /**
   * Because of the `else if`, the first `Update` of a freshly reset box only
   * lowers `min` to the vertex: `max` stays at the lowest sentinel, so the
   * box is not well-formed and does not contain the vertex.
   */
  lemma {:induction false} UpdateAfterReset(v: Vec2)
    requires InRange(v)
    ensures Updated(ResetBox, v) == Box(v, Vec2(Lowest, Lowest))
    ensures !WellFormed(Updated(ResetBox, v)) && !ContainsPoint(Updated(ResetBox, v), v)
  {
  }
}
